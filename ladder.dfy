/**
  An independent description of the handler as an ordered list of checks,
  each with the rejection it reports when it fails. The handler's answer is
  the rejection of the first failing check, or success when none fails.
*/
module Ladder {
  import opened Wrappers
  import Form
  import opened Handler

  datatype Check = Check(passes: bool, rejection: Rejection)

  /** The rejection of the first check that fails, scanning from the front. */
  function FirstFailure(cs: seq<Check>): Option<Rejection> {
    if cs == [] then None
    else if !cs[0].passes then Some(cs[0].rejection)
    else FirstFailure(cs[1..])
  }

  /** Every check before position `i` passes. */
  ghost predicate PassesBefore(cs: seq<Check>, i: int) {
    forall j :: 0 <= j < i && j < |cs| ==> cs[j].passes
  }

  lemma {:induction false} FirstFailureAt(cs: seq<Check>, i: nat)
    requires i < |cs| && !cs[i].passes && PassesBefore(cs, i)
    ensures FirstFailure(cs) == Some(cs[i].rejection)
  {
    if i > 0 {
      assert cs[0].passes;
      assert PassesBefore(cs[1..], i - 1) by {
        forall j | 0 <= j < i - 1 && j < |cs[1..]| ensures cs[1..][j].passes {
          assert cs[1..][j] == cs[j + 1];
        }
      }
      FirstFailureAt(cs[1..], i - 1);
    }
  }

  lemma {:induction false} FirstFailureNone(cs: seq<Check>)
    ensures FirstFailure(cs) == None <==> PassesBefore(cs, |cs|)
  {
    if cs != [] {
      FirstFailureNone(cs[1..]);
      if PassesBefore(cs, |cs|) {
        assert cs[0].passes;
        assert PassesBefore(cs[1..], |cs[1..]|) by {
          forall j | 0 <= j < |cs[1..]| ensures cs[1..][j].passes {
            assert cs[1..][j] == cs[j + 1];
          }
        }
      } else if cs[0].passes {
        var j :| 0 <= j < |cs| && !cs[j].passes;
        assert j > 0 && cs[1..][j - 1] == cs[j];
      }
    }
  }

  /** Whatever FirstFailure reports is the rejection of a failing check with only passing checks before it. */
  lemma {:induction false} FirstFailureIsFirst(cs: seq<Check>)
    ensures FirstFailure(cs).Some? ==>
      exists i :: 0 <= i < |cs| && !cs[i].passes && PassesBefore(cs, i)
                  && FirstFailure(cs).value == cs[i].rejection
  {
    if cs != [] && cs[0].passes && FirstFailure(cs[1..]).Some? {
      FirstFailureIsFirst(cs[1..]);
      var i :| 0 <= i < |cs[1..]| && !cs[1..][i].passes && PassesBefore(cs[1..], i)
               && FirstFailure(cs[1..]).value == cs[1..][i].rejection;
      assert PassesBefore(cs, i + 1) by {
        forall j | 0 <= j < i + 1 && j < |cs| ensures cs[j].passes {
          if j > 0 { assert cs[j] == cs[1..][j - 1]; }
        }
      }
      assert !cs[i + 1].passes;
    } else if cs != [] && !cs[0].passes {
      assert PassesBefore(cs, 0);
    }
  }

  /** Position of the write in the ladder; every check before it must pass for a write to be attempted. */
  const WriteStep := 6

  /**
    The seven checks of one request, in the handler's order. A check whose
    input depends on an earlier one (the point needs decoded fields) uses a
    placeholder when that earlier check failed; it is never reached then.
  */
  function Checks(cfg: Config, form: Form.Values, lib: Library, now: int): (cs: seq<Check>)
    ensures |cs| == WriteStep + 1
    ensures cs[0].rejection == NoNode && cs[1].rejection == NoApiKey && cs[2].rejection == WrongApiKey
    ensures cs[3].rejection.BadJson? && cs[4].rejection.BatchFailed?
    ensures cs[5].rejection.PointFailed? && cs[6].rejection.WriteFailed?
  {
    var node := Form.Get(form, "node");
    var key := Form.Get(form, "apikey");
    var decoded := lib.unmarshal(Form.Get(form, "json"));
    var fields := if decoded.Ok? then decoded.value else map[];
    var batchErr := lib.newBatchPoints(cfg.dbName, Precision);
    var p := PointFor(cfg, Ingest(node, fields), now);
    var pointErr := lib.newPoint(p);
    var writeErr := lib.write(BatchFor(cfg, p));
    [ Check(node != "", NoNode),
      Check(cfg.apiKey == "" || key != "", NoApiKey),
      Check(cfg.apiKey == "" || key == cfg.apiKey, WrongApiKey),
      Check(decoded.Ok?, BadJson(if decoded.Err? then decoded.error else "")),
      Check(batchErr.None?, BatchFailed(batchErr.GetOr(""))),
      Check(pointErr.None?, PointFailed(pointErr.GetOr(""))),
      Check(writeErr.None?, WriteFailed(writeErr.GetOr(""))) ]
  }

  function RespondTo(failure: Option<Rejection>): Response {
    match failure
    case None => Success
    case Some(r) => ErrorResponse(r)
  }

  /**
    The handler answers with the first failing check of the ladder, and
    hands a batch to the store exactly when every check before the write
    passed.
  */
  lemma HandleFollowsLadder(cfg: Config, form: Form.Values, lib: Library, now: int)
    ensures Handle(cfg, form, lib, now).response == RespondTo(FirstFailure(Checks(cfg, form, lib, now)))
    ensures Handle(cfg, form, lib, now).submitted.Some? <==> PassesBefore(Checks(cfg, form, lib, now), WriteStep)
  {
    var cs := Checks(cfg, form, lib, now);
    var node := Form.Get(form, "node");
    var key := Form.Get(form, "apikey");
    var decoded := lib.unmarshal(Form.Get(form, "json"));
    if node == "" {
      FirstFailureAt(cs, 0);
    } else if cfg.apiKey != "" && key == "" {
      FirstFailureAt(cs, 1);
    } else if cfg.apiKey != "" && key != cfg.apiKey {
      FirstFailureAt(cs, 2);
    } else if decoded.Err? {
      FirstFailureAt(cs, 3);
    } else {
      var p := PointFor(cfg, Ingest(node, decoded.value), now);
      if lib.newBatchPoints(cfg.dbName, Precision).Some? {
        FirstFailureAt(cs, 4);
      } else if lib.newPoint(p).Some? {
        FirstFailureAt(cs, 5);
      } else if lib.write(BatchFor(cfg, p)).Some? {
        FirstFailureAt(cs, 6);
      } else {
        FirstFailureNone(cs);
      }
    }
  }
}
