/** Properties of the `/input/` handler that relate several requests or configurations. */
module Properties {
  import opened Wrappers
  import Form
  import opened Influx
  import opened Handler

  /** The handler reads the form only through `Form.Get`. */
  lemma HandleReadsOnlyLookups(cfg: Config, f: Form.Values, g: Form.Values, lib: Library, now: int)
    requires Form.SameLookups(f, g)
    ensures Handle(cfg, f, lib, now) == Handle(cfg, g, lib, now)
  {
  }

  /** A missing `node` field and an empty one are both answered 400 "No node given", with nothing written. */
  lemma AbsentNodeLikeEmptyNode(cfg: Config, form: Form.Values, lib: Library, now: int)
    ensures Handle(cfg, form - {"node"}, lib, now) == Handle(cfg, form["node" := [""]], lib, now)
    ensures Handle(cfg, form - {"node"}, lib, now)
         == Outcome(Response(StatusBadRequest, "No node given\n"), None)
  {
  }

  /** With a key configured, a missing `apikey` field and an empty one are both answered 400 "No apikey given". */
  lemma AbsentKeyLikeEmptyKey(cfg: Config, form: Form.Values, lib: Library, now: int)
    requires cfg.apiKey != "" && Form.Get(form, "node") != ""
    ensures Handle(cfg, form - {"apikey"}, lib, now) == Handle(cfg, form["apikey" := [""]], lib, now)
    ensures Handle(cfg, form - {"apikey"}, lib, now)
         == Outcome(Response(StatusBadRequest, "No apikey given\n"), None)
  {
  }

  /** In open mode (no key configured) the request's `apikey`, present or not, changes nothing. */
  lemma OpenModeIgnoresApiKey(cfg: Config, f: Form.Values, g: Form.Values, lib: Library, now: int)
    requires cfg.apiKey == ""
    requires Form.Get(f, "node") == Form.Get(g, "node") && Form.Get(f, "json") == Form.Get(g, "json")
    ensures Handle(cfg, f, lib, now) == Handle(cfg, g, lib, now)
  {
  }

  /** With a key configured, a wrong `apikey` is answered 401 "Wrong apikey", before the json is looked at. */
  lemma WrongKeyIsUnauthorized(cfg: Config, form: Form.Values, lib: Library, now: int)
    requires cfg.apiKey != "" && Form.Get(form, "node") != ""
    requires Form.Get(form, "apikey") != "" && Form.Get(form, "apikey") != cfg.apiKey
    ensures Handle(cfg, form, lib, now) == Outcome(Response(StatusUnauthorized, "Wrong apikey\n"), None)
  {
  }

  /**
    Once node and key pass, a JSON decoding failure is answered 400 with the
    decoder's error text after its prefix, and nothing is written.
  */
  lemma BadJsonIs400(cfg: Config, form: Form.Values, lib: Library, now: int)
    requires Form.Get(form, "node") != "" && Authorized(cfg, Form.Get(form, "apikey"))
    requires lib.unmarshal(Form.Get(form, "json")).Err?
    ensures Handle(cfg, form, lib, now).response.status == StatusBadRequest
    ensures Handle(cfg, form, lib, now).response.body
         == "Error unmarshalling json: " + lib.unmarshal(Form.Get(form, "json")).error + "\n"
    ensures Handle(cfg, form, lib, now).submitted == None
  {
  }

  /**
    An error body holds exactly one line: the reason, then a newline,
    provided the library's error text carries no newline of its own.
  */
  lemma ErrorBodyIsOneLine(r: Rejection)
    requires r.BadJson? || r.IsStoreError() ==> '\n' !in r.detail
    ensures '\n' !in ErrorResponse(r).body[..|ErrorResponse(r).body| - 1]
  {
    assert '\n' !in Reason(r) by {
      match r
      case NoNode =>
      case NoApiKey =>
      case WrongApiKey =>
      case BadJson(e) => NoNewlineInJoin("Error unmarshalling json: ", e);
      case BatchFailed(e) => NoNewlineInJoin("Error creating BatchPoints: ", e);
      case PointFailed(e) => NoNewlineInJoin("Error creating Point: ", e);
      case WriteFailed(e) => NoNewlineInJoin("Error writing to databse: ", e);
    }
  }

  lemma NoNewlineInJoin(prefix: string, detail: string)
    requires '\n' !in prefix && '\n' !in detail
    ensures '\n' !in prefix + detail
  {
  }

  /** The request `node=sensor1&apikey=secret&json={"temp":21.5}`, server started with key "secret". */
  function SensorForm(): Form.Values {
    map["node" := ["sensor1"], "apikey" := ["secret"], "json" := ["{\"temp\":21.5}"]]
  }

  /** The point that request should produce when received at `now`. */
  function SensorPoint(now: int): Point {
    Point(DefaultMeasurementName, map["node" := "sensor1"], map["temp" := Number(21.5)], now)
  }

  /** When decoding, point creation and the write all succeed, the sensor's reading becomes one point and 200. */
  lemma SensorReadingAccepted(lib: Library, now: int)
    requires lib.unmarshal("{\"temp\":21.5}") == Ok(map["temp" := Number(21.5)])
    requires lib.newBatchPoints(DefaultDbName, Precision).None?
    requires lib.newPoint(SensorPoint(now)).None?
    requires lib.write(BatchPoints(DefaultDbName, Precision, [SensorPoint(now)])).None?
    ensures Handle(Config("secret", DefaultDbName, DefaultMeasurementName), SensorForm(), lib, now)
         == Outcome(Success, Some(BatchPoints("emoncms", "s", [SensorPoint(now)])))
  {
  }

  /** The same request against a server started with key "other" is answered 401 and writes nothing. */
  lemma SensorReadingWrongKey(lib: Library, now: int)
    ensures Handle(Config("other", DefaultDbName, DefaultMeasurementName), SensorForm(), lib, now)
         == Outcome(Response(401, "Wrong apikey\n"), None)
  {
  }
}
