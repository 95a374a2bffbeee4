/**
  Parsed form values of an HTTP request (Go's url.Values): every key maps to
  the list of values the query string and the form-encoded body gave it.
*/
module Form {

  type Values = map<string, seq<string>>

  /** The first value given for `key`, or "" when the key is absent or has no value. */
  function Get(form: Values, key: string): (v: string)
    ensures key !in form ==> v == ""
    ensures v != "" ==> key in form && |form[key]| > 0 && v == form[key][0]
    ensures key in form && |form[key]| > 0 ==> v == form[key][0]
  {
    if key in form && |form[key]| > 0 then form[key][0] else ""
  }

  /** Two forms that give the same answer to `Get` for every key. */
  ghost predicate SameLookups(f: Values, g: Values) {
    forall key :: Get(f, key) == Get(g, key)
  }

  /**
    Removing a key and giving it the single empty value are the same thing
    as far as `Get` can tell.
  */
  lemma AbsentLooksEmpty(form: Values, key: string)
    ensures SameLookups(form - {key}, form[key := [""]])
  {
  }
}
