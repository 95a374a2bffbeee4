# influx-emoncms: the `/input/` handler

influx-emoncms is a small HTTP bridge. Field devices push readings in the
emoncms style to `/input/` with the form fields `node`, `apikey` and
`json`. The bridge turns each reading into one InfluxDB point and writes it.

This project models the request handler of `main.go` as pure functions:

- `Form` models Go's `url.Values.Get`: the first value of a key, or `""`
  when the key is absent or has no value.
- `Influx` holds the data the handler gives the InfluxDB client: a point
  (measurement, tags, fields, timestamp) and a batch (database, precision,
  points). A decoded JSON value is a tagged union.
- `Handler` holds the validation ladder (`Validate`), the write path
  (`Persist`) and the whole handler (`Handle`). It also maps each rejection
  to its status (`ErrorStatus`) and body (`ErrorResponse`, the reason
  followed by a newline). The library calls are parameters, gathered in a
  `Library` value: `json.Unmarshal`, `NewBatchPoints`, `NewPoint` and the
  client's `Write`. `unmarshal` answers with the decoded fields or an
  error text; the other three answer with an error text or with no error.
  The handler's effects are returned as an `Outcome`: the HTTP response,
  plus the batch handed to `Write`, if the handler got that far.
- `Ladder` is an independent description of the same handler: seven checks
  in a fixed order, where the answer is the first check that fails.
  `HandleFollowsLadder` proves that `Handle` agrees with it.
- `Properties` holds the relational facts: absent and empty fields are
  treated the same, open mode ignores `apikey`, and error bodies are one
  line whenever the library's error text is. It also holds two worked requests.

Three behaviours of the handler are easy to miss:

- An `apikey` field that is present but empty is answered like a missing
  one (400 "No apikey given"), not as a wrong key.
- Field values are not type-checked by the handler. A value the client
  library or the store rejects comes back either from the point
  constructor ("Error creating Point: ...") or from the write
  ("Error writing to databse: ...").
- An empty field map (`{}`) passes validation. Whether a point without
  fields is accepted is up to the point constructor.

## Model

| member | source | states |
|---|---|---|
| Form.Get | main.go:53 | an absent key reads as ""; a non-empty answer is the key's first value |
| Form.AbsentLooksEmpty | main.go:53-54 | removing a key and giving it the single value "" cannot be told apart through Get |
| Handler.ErrorStatus | main.go:55-105 | 401 exactly for a wrong key; 500 exactly for batch, point and write failures; 400 exactly for missing node, missing key and bad JSON |
| Handler.Reason | main.go:55-105 | the reason text of each rejection; the four library failures are their prefix followed by the library's error text |
| Handler.ReasonEndsWithDetail | main.go:55-105 | every reason is non-empty; a JSON, batch, point or write failure's reason is exactly "Error unmarshalling json: ", "Error creating BatchPoints: ", "Error creating Point: " or "Error writing to databse: " followed by the library's error text, so it ends with that text |
| Handler.ErrorResponse | main.go:25-28 | an error response carries exactly the rejection's status (never 200), and its body is the reason followed by one trailing newline |
| Handler.Validate | main.go:52-77 | each rejection happens exactly when its own check fails and every earlier check passed (node, then apikey presence, then apikey match, then JSON); a key is checked only when one is configured; success carries the node and exactly the decoded fields |
| Handler.PointFor | main.go:88-95 | the point has the configured measurement, the single tag node=<node>, exactly the decoded fields and the receipt time |
| Handler.BatchFor | main.go:79-82 | the batch targets the configured database at precision "s" and holds exactly the one point |
| Handler.Persist | main.go:79-107 | a write is attempted exactly when batch and point creation both succeeded, with the one-point batch; success (empty 200) exactly when that write succeeds; each failure gives 500 with its prefixed reason |
| Handler.Handle | main.go:51-108 | a validation failure gives its error response and attempts no write; any attempted write carries the point built from the node, the configured measurement and the decoded json field; 200 only after a write |
| Ladder.FirstFailureAt | main.go:53-107 | if check i fails and all earlier checks pass, the reported rejection is check i's, whatever fails later |
| Ladder.FirstFailureNone | main.go:53-107 | nothing is reported exactly when every check passes |
| Ladder.FirstFailureIsFirst | main.go:53-107 | any reported rejection belongs to a failing check with only passing checks before it |
| Ladder.Checks | main.go:53-107 | the reference list of the seven checks in source order (node, key present, key matches, json, batch, point, write), each with the rejection it reports |
| Ladder.HandleFollowsLadder | main.go:51-108 | the handler's response is the first failing check of the seven in source order (or 200); a batch is submitted exactly when the six checks before the write pass |
| Properties.HandleReadsOnlyLookups | main.go:53-72 | two forms that agree on every Get give the same outcome |
| Properties.AbsentNodeLikeEmptyNode | main.go:53-57 | missing and empty node both give 400 "No node given\n" and no write |
| Properties.AbsentKeyLikeEmptyKey | main.go:59-64 | with a key configured, missing and empty apikey both give 400 "No apikey given\n" and no write |
| Properties.OpenModeIgnoresApiKey | main.go:59-69 | with no key configured, the outcome does not depend on the request's apikey at all |
| Properties.BadJsonIs400 | main.go:71-77 | with node and key accepted, a JSON decoding failure gives 400, the body "Error unmarshalling json: " + the decoder's error + newline, and no write |
| Properties.WrongKeyIsUnauthorized | main.go:65-68 | with a key configured, a non-empty different apikey gives 401 "Wrong apikey\n" and no write, whatever the json |
| Properties.ErrorBodyIsOneLine | main.go:25-28 | when the library's error text has no newline, the body has no newline before its final one |
| Properties.SensorReadingAccepted | main.go:71-107 | for every receipt time, node=sensor1 with the right key and {"temp":21.5} is answered 200 and writes one point: measurement emoncms, tag node=sensor1, field temp=21.5 |
| Properties.SensorReadingWrongKey | main.go:59-68 | the same request against key "other" is answered 401 "Wrong apikey" and writes nothing |

## Left out

- Flag parsing and the globals (main.go:14-23, main.go:33) become the immutable `Config`. The listen address and the InfluxDB address are not modelled, because nothing in the handler reads them. The default names ("emoncms") are constants.
- Creating the InfluxDB client, the start-up `CREATE DATABASE` query and the `log.Fatal` exits (main.go:35-49) are left out. They are network set-up and process lifecycle.
- JSON decoding is the parameter `Library.unmarshal`, not a model of JSON syntax: it is `encoding/json`, a library outside this code. Numbers are `real`; float64 rounding is not modelled.
- `NewBatchPoints`, `NewPoint` and `Write` are the parameters `newBatchPoints`, `newPoint` and `write`. Their own checks (field types, empty field maps, precision names) and the network are outside this code. `bp.AddPoint` is modelled by the batch holding exactly the one point.
- The timestamp is the parameter `now`, passed through unchanged. Truncation to second precision happens inside the client and is not modelled.
- `r.ParseForm()` is modelled by its result, the parsed form. Its ignored error is not modelled: a body that fails to parse leaves whatever values were read.
- The `log.Printf` in `handleError`, `http.HandleFunc`, `ListenAndServe` and the goroutine per request are left out as I/O and concurrency. Each request is a pure function of its own inputs, so nothing is shared between requests in the model.
