/**
  The `/input/` endpoint: validate the form fields `node`, `apikey` and
  `json`, build one point from them and write it as a one-point batch.
  Every failure becomes an HTTP status and a one-line reason; success is an
  empty 200 response.
*/
module Handler {
  import opened Wrappers
  import Form
  import opened Influx

  const StatusOK := 200
  const StatusBadRequest := 400
  const StatusUnauthorized := 401
  const StatusInternalServerError := 500

  /** The batch precision the handler asks for: seconds. */
  const Precision := "s"

  /** Process-wide settings, fixed at start-up. An empty `apiKey` switches authentication off. */
  datatype Config = Config(apiKey: string, dbName: string, measurementName: string)

  /** The start-up defaults for the database and measurement names. */
  const DefaultDbName := "emoncms"
  const DefaultMeasurementName := "emoncms"

  /**
    The library calls the handler makes, taken as given: JSON decoding of the
    `json` form value, batch creation for a database and precision, point
    construction, and the network write. Each answers with the error text it
    would return, or with no error.
  */
  datatype Library = Library(
    unmarshal: string -> Result<Fields, string>,
    newBatchPoints: (string, string) -> Option<string>,
    newPoint: Point -> Option<string>,
    write: BatchPoints -> Option<string>)

  /** Why a request was turned away; the last four carry the library's error text. */
  datatype Rejection =
    | NoNode
    | NoApiKey
    | WrongApiKey
    | BadJson(detail: string)
    | BatchFailed(detail: string)
    | PointFailed(detail: string)
    | WriteFailed(detail: string)
  {
    /** The failures that come from the store client rather than from the request. */
    predicate IsStoreError() {
      BatchFailed? || PointFailed? || WriteFailed?
    }
  }

  datatype Response = Response(status: int, body: string)

  /** The response, and the batch handed to the store's write call, if the handler got that far. */
  datatype Outcome = Outcome(response: Response, submitted: Option<BatchPoints>)

  /** A request that passed validation: the node name and the decoded fields. */
  datatype Ingest = Ingest(node: string, fields: Fields)

  function ErrorStatus(r: Rejection): (s: int)
    ensures s == StatusUnauthorized <==> r == WrongApiKey
    ensures s == StatusInternalServerError <==> r.IsStoreError()
    ensures s == StatusBadRequest <==> r.NoNode? || r.NoApiKey? || r.BadJson?
  {
    match r
    case NoNode => StatusBadRequest
    case NoApiKey => StatusBadRequest
    case WrongApiKey => StatusUnauthorized
    case BadJson(_) => StatusBadRequest
    case BatchFailed(_) => StatusInternalServerError
    case PointFailed(_) => StatusInternalServerError
    case WriteFailed(_) => StatusInternalServerError
  }

  /** The reason sent back for each rejection. */
  function Reason(r: Rejection): string {
    match r
    case NoNode => "No node given"
    case NoApiKey => "No apikey given"
    case WrongApiKey => "Wrong apikey"
    case BadJson(e) => "Error unmarshalling json: " + e
    case BatchFailed(e) => "Error creating BatchPoints: " + e
    case PointFailed(e) => "Error creating Point: " + e
    case WriteFailed(e) => "Error writing to databse: " + e
  }

  /**
    Every reason is non-empty. A library failure's reason is its fixed
    prefix followed by the library's own error text.
  */
  lemma ReasonEndsWithDetail(r: Rejection)
    ensures |Reason(r)| > 0
    ensures r.BadJson? ==> Reason(r) == "Error unmarshalling json: " + r.detail
    ensures r.BatchFailed? ==> Reason(r) == "Error creating BatchPoints: " + r.detail
    ensures r.PointFailed? ==> Reason(r) == "Error creating Point: " + r.detail
    ensures r.WriteFailed? ==> Reason(r) == "Error writing to databse: " + r.detail
    ensures r.BadJson? || r.IsStoreError() ==>
      |Reason(r)| > |r.detail| && Reason(r)[|Reason(r)| - |r.detail|..] == r.detail
  {
  }

  /** The error response: the status for the rejection, and its reason followed by a newline. */
  function ErrorResponse(r: Rejection): (resp: Response)
    ensures resp.status == ErrorStatus(r) && resp.status != StatusOK
    ensures |resp.body| > 0 && resp.body[|resp.body| - 1] == '\n'
    ensures resp.body[..|resp.body| - 1] == Reason(r)
  {
    Response(ErrorStatus(r), Reason(r) + "\n")
  }

  /** The empty success response a handler that writes nothing produces. */
  const Success := Response(StatusOK, "")

  /**
    A request key is accepted when no key is configured (open mode) or when
    it equals the configured one exactly.
  */
  predicate Authorized(cfg: Config, key: string) {
    cfg.apiKey == "" || key == cfg.apiKey
  }

  /** The validation ladder: node, then apikey, then json; the first failing check decides. */
  function Validate(cfg: Config, form: Form.Values, lib: Library): (r: Result<Ingest, Rejection>)
    ensures r == Err(NoNode) <==> Form.Get(form, "node") == ""
    ensures r == Err(NoApiKey) <==>
      Form.Get(form, "node") != "" && cfg.apiKey != "" && Form.Get(form, "apikey") == ""
    ensures r == Err(WrongApiKey) <==>
      Form.Get(form, "node") != "" && cfg.apiKey != "" && Form.Get(form, "apikey") != ""
      && Form.Get(form, "apikey") != cfg.apiKey
    ensures (r.Err? && r.error.BadJson?) <==>
      Form.Get(form, "node") != "" && Authorized(cfg, Form.Get(form, "apikey"))
      && lib.unmarshal(Form.Get(form, "json")).Err?
    ensures r.Err? && r.error.BadJson? ==> r.error.detail == lib.unmarshal(Form.Get(form, "json")).error
    ensures r.Err? ==> !r.error.IsStoreError()
    ensures r.Ok? <==>
      Form.Get(form, "node") != "" && Authorized(cfg, Form.Get(form, "apikey"))
      && lib.unmarshal(Form.Get(form, "json")).Ok?
    ensures r.Ok? ==> r.value == Ingest(Form.Get(form, "node"), lib.unmarshal(Form.Get(form, "json")).value)
  {
    var node := Form.Get(form, "node");
    if node == "" then Err(NoNode)
    else if cfg.apiKey != "" && Form.Get(form, "apikey") == "" then Err(NoApiKey)
    else if cfg.apiKey != "" && Form.Get(form, "apikey") != cfg.apiKey then Err(WrongApiKey)
    else
      match lib.unmarshal(Form.Get(form, "json"))
      case Err(e) => Err(BadJson(e))
      case Ok(fields) => Ok(Ingest(node, fields))
  }

  /** The point built for a validated request: the configured measurement, the single tag `node`, the decoded fields. */
  function PointFor(cfg: Config, req: Ingest, now: int): (p: Point)
    ensures p.tags.Keys == {"node"} && p.tags["node"] == req.node
    ensures p.measurement == cfg.measurementName && p.fields == req.fields && p.time == now
  {
    Point(cfg.measurementName, map["node" := req.node], req.fields, now)
  }

  /** The batch the handler writes: the configured database, second precision, exactly one point. */
  function BatchFor(cfg: Config, p: Point): (b: BatchPoints)
    ensures b.points == [p] && b.database == cfg.dbName && b.precision == Precision
  {
    BatchPoints(cfg.dbName, Precision, [p])
  }

  /**
    The write path for a validated request: create the batch, create the
    point, add it, write. A write is attempted only when batch and point were
    both created; only a successful write yields the empty 200 response.
  */
  function Persist(cfg: Config, req: Ingest, lib: Library, now: int): (o: Outcome)
    ensures o.submitted.Some? <==>
      lib.newBatchPoints(cfg.dbName, Precision).None? && lib.newPoint(PointFor(cfg, req, now)).None?
    ensures o.submitted.Some? ==> o.submitted.value == BatchFor(cfg, PointFor(cfg, req, now))
    ensures o.response == Success <==> o.submitted.Some? && lib.write(o.submitted.value).None?
    ensures o.response.status == StatusOK || o.response.status == StatusInternalServerError
    ensures lib.newBatchPoints(cfg.dbName, Precision).Some? ==>
      o.response == ErrorResponse(BatchFailed(lib.newBatchPoints(cfg.dbName, Precision).value))
    ensures lib.newBatchPoints(cfg.dbName, Precision).None? && lib.newPoint(PointFor(cfg, req, now)).Some? ==>
      o.response == ErrorResponse(PointFailed(lib.newPoint(PointFor(cfg, req, now)).value))
    ensures o.submitted.Some? && lib.write(o.submitted.value).Some? ==>
      o.response == ErrorResponse(WriteFailed(lib.write(o.submitted.value).value))
  {
    match lib.newBatchPoints(cfg.dbName, Precision)
    case Some(e) => Outcome(ErrorResponse(BatchFailed(e)), None)
    case None =>
      var p := PointFor(cfg, req, now);
      match lib.newPoint(p)
      case Some(e) => Outcome(ErrorResponse(PointFailed(e)), None)
      case None =>
        var bp := BatchFor(cfg, p);
        match lib.write(bp)
        case Some(e) => Outcome(ErrorResponse(WriteFailed(e)), Some(bp))
        case None => Outcome(Success, Some(bp))
  }

  /** One request to `/input/`, from its parsed form to its response. */
  function Handle(cfg: Config, form: Form.Values, lib: Library, now: int): (o: Outcome)
    ensures Validate(cfg, form, lib).Err? ==>
      o == Outcome(ErrorResponse(Validate(cfg, form, lib).error), None)
    ensures o.submitted.Some? ==>
      && Form.Get(form, "node") != ""
      && Authorized(cfg, Form.Get(form, "apikey"))
      && lib.unmarshal(Form.Get(form, "json")).Ok?
      && o.submitted.value.points == [Point(cfg.measurementName, map["node" := Form.Get(form, "node")],
                                            lib.unmarshal(Form.Get(form, "json")).value, now)]
    ensures o.response == Success ==> o.submitted.Some?
  {
    match Validate(cfg, form, lib)
    case Err(r) => Outcome(ErrorResponse(r), None)
    case Ok(req) => Persist(cfg, req, lib, now)
  }
}
