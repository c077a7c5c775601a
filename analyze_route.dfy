/**
  The `POST /api/analyze` handler of server/server.js: validate the body, sanitize
  the text, classify it with the worker, look the profile up and answer.
*/
module AnalyzeRoute {
  import opened Wrappers
  import opened Js
  import opened PortfolioSchema
  import opened Sanitizer
  import SanitizerLimits
  import opened Invoker
  import opened Api

  const EmptyAfterSanitization: string := "Invalid input after sanitization"

  /** A property of a classification that has already been read from without throwing. */
  function Prop(c: Value, key: string): Value
    requires !c.Undefined? && !c.Null?
  {
    GetProp(c, key).value
  }

  const SuccessKeys: set<string> := {"risk_profile", "confidence", "portfolio", "warning", "error"}

  /** `null` or a truthy value: what `x || null` can produce. */
  predicate NullOrTruthy(v: Value)
  {
    v.Null? || Truthy(v)
  }

  /** The shape every 200 body of this handler has. */
  ghost predicate SuccessShape(b: Value)
  {
    && b.Obj?
    && b.fields.Keys == SuccessKeys
    && (b.fields["portfolio"].Null? || exists doc :: b.fields["portfolio"] == Project(doc))
    && NullOrTruthy(b.fields["warning"])
    && NullOrTruthy(b.fields["error"])
  }

  /** Lines 146-156: the classification's fields, the projected document, falsy notes as `null`. */
  function SuccessBody(c: Value, portfolio: Value): (r: Value)
    requires !c.Undefined? && !c.Null?
    ensures r.Obj? && r.fields.Keys == SuccessKeys
    ensures r.fields["risk_profile"] == Prop(c, "risk_profile") && r.fields["confidence"] == Prop(c, "confidence")
    ensures r.fields["portfolio"] == portfolio
    ensures r.fields["warning"] == if Truthy(Prop(c, "warning")) then Prop(c, "warning") else Null
    ensures r.fields["error"] == if Truthy(Prop(c, "error")) then Prop(c, "error") else Null
  {
    Obj(map[
      "risk_profile" := Prop(c, "risk_profile"),
      "confidence" := Prop(c, "confidence"),
      "portfolio" := portfolio,
      "warning" := Or(Prop(c, "warning"), Null),
      "error" := Or(Prop(c, "error"), Null)])
  }

  /**
    The handler, given the parsed request body, the worker, `JSON.parse` and
    `Portfolio.findOne` (as a function of the `risk_profile` queried for). Every
    exception it can meet, including a rejected `runPrediction` promise, is a 500;
    a worker that never settles leaves the request unanswered.
  */
  function AnalyzeHandler(body: Value, worker: string -> Spawn, parse: string -> Option<Value>,
                          findOne: Value -> DbReply): (r: Reply)
    ensures r.Reply? ==> r.status == 200 || r.status == 400 || r.status == 500
    ensures r.Reply? && r.status != 200 ==> r.body.Obj? && r.body.fields.Keys == {"error"}
    ensures r.Reply? && r.status == 200 ==> SuccessShape(r.body)
    ensures r.Reply? && r.status == 500 ==> r.body == ErrorBody(InternalError)
    ensures body.Undefined? || body.Null? ==> r == Reply(500, ErrorBody(InternalError))
  {
    match GetProp(body, "text")
    case Threw => Reply(500, ErrorBody(InternalError))
    case Got(text) =>
      if !TextAccepted(text) then Reply(400, ErrorBody(TextRequired))
      else
        var clean := SanitizeInput(text);
        if clean == "" then Reply(400, ErrorBody(EmptyAfterSanitization))
        else match PromiseOf(worker(clean), parse)
          case Pending => NoReply
          case Rejected => Reply(500, ErrorBody(InternalError))
          case Resolved(c) => Answer(c, findOne)
  }

  /** Lines 138-163 once the worker has resolved with `c`. */
  function Answer(c: Value, findOne: Value -> DbReply): (r: Reply)
    ensures r.Reply?
    ensures r.status == 200 || r.status == 500
    ensures r.status == 500 ==> r.body == ErrorBody(InternalError)
    ensures r.status == 200 ==> SuccessShape(r.body)
  {
    match GetProp(c, "risk_profile")
    case Threw => Reply(500, ErrorBody(InternalError))
    case Got(profile) =>
      match findOne(profile)
      case DbError(_) => Reply(500, ErrorBody(InternalError))
      case NotFound => Reply(200, SuccessBody(c, Null))
      case Found(doc) =>
        assert SuccessBody(c, Project(doc)).fields["portfolio"] == Project(doc);
        Reply(200, SuccessBody(c, Project(doc)))
  }

  /** The handler reaches `Answer` exactly when the text survives and the worker resolves. */
  lemma HandlerAnswers(body: Value, worker: string -> Spawn, parse: string -> Option<Value>,
                       findOne: Value -> DbReply, clean: string, c: Value)
    requires body.Obj? && "text" in body.fields && TextAccepted(body.fields["text"])
    requires clean == SanitizeInput(body.fields["text"]) && clean != ""
    requires PromiseOf(worker(clean), parse) == Resolved(c)
    ensures AnalyzeHandler(body, worker, parse, findOne) == Answer(c, findOne)
  {
    assert GetProp(body, "text") == Got(body.fields["text"]);
  }

  /**
    Lines 122-135: a body whose `text` is missing, falsy or not a string, or whose
    text sanitizes to nothing, is answered with a 400 before the worker runs:
    the reply is the same whatever the worker, the parser and the store would do.
  */
  lemma RejectedBeforeClassification(body: Value, worker: string -> Spawn, parse: string -> Option<Value>,
                                     findOne: Value -> DbReply, worker': string -> Spawn,
                                     parse': string -> Option<Value>, findOne': Value -> DbReply)
    requires !body.Undefined? && !body.Null?
    ensures var text := GetProp(body, "text").value;
      !TextAccepted(text) ==> AnalyzeHandler(body, worker, parse, findOne) == Reply(400, ErrorBody(TextRequired))
    ensures var text := GetProp(body, "text").value;
      TextAccepted(text) && SanitizeInput(text) == "" ==>
        AnalyzeHandler(body, worker, parse, findOne) == Reply(400, ErrorBody(EmptyAfterSanitization))
    ensures var text := GetProp(body, "text").value;
      !TextAccepted(text) || SanitizeInput(text) == "" ==>
        AnalyzeHandler(body, worker, parse, findOne) == AnalyzeHandler(body, worker', parse', findOne')
  {
  }

  /** What `Answer` sends for a classification object. */
  lemma AnswerToObject(c: Value, findOne: Value -> DbReply)
    requires c.Obj?
    ensures var profile := Prop(c, "risk_profile");
      var r := Answer(c, findOne);
      && (findOne(profile).DbError? <==> r == Reply(500, ErrorBody(InternalError)))
      && (!findOne(profile).DbError? ==>
        && r.status == 200
        && r.body == SuccessBody(c, if findOne(profile).Found? then Project(findOne(profile).doc) else Null))
  {
  }

  /**
    Lines 141-156: once the worker has resolved with an object, the reply copies
    `risk_profile` and `confidence`, carries the projected document (or `null`),
    maps falsy `warning`/`error` to `null`, and is a 500 only if the lookup rejects.
  */
  lemma ClassifiedReply(body: Value, worker: string -> Spawn, parse: string -> Option<Value>,
                        findOne: Value -> DbReply, clean: string, c: Value)
    requires body.Obj? && "text" in body.fields && TextAccepted(body.fields["text"])
    requires clean == SanitizeInput(body.fields["text"]) && clean != ""
    requires PromiseOf(worker(clean), parse) == Resolved(c) && c.Obj?
    ensures var profile := Prop(c, "risk_profile");
      var r := AnalyzeHandler(body, worker, parse, findOne);
      && (findOne(profile).DbError? <==> r == Reply(500, ErrorBody(InternalError)))
      && (!findOne(profile).DbError? ==>
        && r.Reply? && r.status == 200 && r.body.Obj?
        && r.body.fields["risk_profile"] == profile
        && r.body.fields["confidence"] == Prop(c, "confidence")
        && r.body.fields["portfolio"] == (if findOne(profile).Found? then Project(findOne(profile).doc) else Null)
        && (Truthy(Prop(c, "warning")) ==> r.body.fields["warning"] == Prop(c, "warning"))
        && (!Truthy(Prop(c, "warning")) ==> r.body.fields["warning"] == Null)
        && (Truthy(Prop(c, "error")) ==> r.body.fields["error"] == Prop(c, "error"))
        && (!Truthy(Prop(c, "error")) ==> r.body.fields["error"] == Null))
  {
    HandlerAnswers(body, worker, parse, findOne, clean, c);
    AnswerToObject(c, findOne);
  }

  /**
    Lines 73-81 and 97-105 seen through the handler: when the started process
    reports an `error` event or exits with anything but 0, the client gets a 200 whose profile is
    'Balanced' at 0.33, with the failure in `error` and the Balanced document if
    the store has one.
  */
  lemma WorkerFailureReply(body: Value, worker: string -> Spawn, parse: string -> Option<Value>,
                           findOne: Value -> DbReply, clean: string, k: nat)
    requires body.Obj? && "text" in body.fields && TextAccepted(body.fields["text"])
    requires clean == SanitizeInput(body.fields["text"]) && clean != ""
    requires worker(clean).Started? && FirstSettling(worker(clean).events) == Some(k)
    requires worker(clean).events[k].SpawnError? || (worker(clean).events[k].Close? && worker(clean).events[k].code != Some(0))
    requires !findOne(Str("Balanced")).DbError?
    ensures var r := AnalyzeHandler(body, worker, parse, findOne);
      && r.Reply? && r.status == 200 && r.body.Obj?
      && r.body.fields["risk_profile"] == Str("Balanced")
      && r.body.fields["confidence"] == Num(0.33)
      && r.body.fields["warning"] == Null
      && r.body.fields["error"] == Str(if worker(clean).events[k].SpawnError? then StartFailed else ProcessFailed)
      && (findOne(Str("Balanced")).Found? <==> r.body.fields["portfolio"] != Null)
  {
    PredictionOutcomes(worker(clean).events, parse, k);
    var reason := if worker(clean).events[k].SpawnError? then StartFailed else ProcessFailed;
    HandlerAnswers(body, worker, parse, findOne, clean, Fallback(reason));
    AnswerToFallback(reason, findOne);
  }

  /** What `Answer` sends for one of the worker fallbacks. */
  lemma AnswerToFallback(reason: string, findOne: Value -> DbReply)
    requires reason != ""
    requires !findOne(Str("Balanced")).DbError?
    ensures var r := Answer(Fallback(reason), findOne);
      && r.status == 200 && r.body.Obj?
      && r.body.fields["risk_profile"] == Str("Balanced")
      && r.body.fields["confidence"] == Num(0.33)
      && r.body.fields["warning"] == Null
      && r.body.fields["error"] == Str(reason)
      && (findOne(Str("Balanced")).Found? <==> r.body.fields["portfolio"] != Null)
  {
    var c := Fallback(reason);
    assert Prop(c, "risk_profile") == Str("Balanced");
    assert Prop(c, "warning") == Undefined;
    AnswerToObject(c, findOne);
  }

  /**
    Lines 138-143: worker output that parses to `null` makes
    `classification.risk_profile` throw, so the client gets a 500 rather than a
    fallback classification.
  */
  lemma NullClassificationIs500(body: Value, worker: string -> Spawn, parse: string -> Option<Value>,
                                findOne: Value -> DbReply, clean: string, k: nat)
    requires body.Obj? && "text" in body.fields && TextAccepted(body.fields["text"])
    requires clean == SanitizeInput(body.fields["text"]) && clean != ""
    requires worker(clean).Started? && FirstSettling(worker(clean).events) == Some(k) && worker(clean).events[k] == Close(Some(0))
    requires parse(JsTrim(StdoutOf(worker(clean).events[..k]))) == Some(Null)
    ensures AnalyzeHandler(body, worker, parse, findOne) == Reply(500, ErrorBody(InternalError))
  {
    PredictionOutcomes(worker(clean).events, parse, k);
    HandlerAnswers(body, worker, parse, findOne, clean, Null);
    assert GetProp(Null, "risk_profile").Threw?;
  }

  /**
    Lines 40 and 131-135: a text that is only a script block is removed whole by
    the sanitizer, so the request is refused before the worker runs.
  */
  lemma ScriptOnlyRejected(body: Value, worker: string -> Spawn, parse: string -> Option<Value>,
                           findOne: Value -> DbReply, w: string)
    requires body.Obj? && "text" in body.fields && body.fields["text"] == Str("<script>" + w + "</script>")
    requires SanitizerLimits.InertLetters(w)
    ensures AnalyzeHandler(body, worker, parse, findOne) == Reply(400, ErrorBody(EmptyAfterSanitization))
  {
    SanitizerLimits.ScriptBlockRemoved(w);
    assert GetProp(body, "text") == Got(body.fields["text"]);
  }

  /**
    Lines 60 and 158-162: a `spawn` that throws rejects the promise, and the awaiting
    handler's `catch` answers with a 500 instead of a fallback classification.
  */
  lemma SpawnThrowIs500(body: Value, worker: string -> Spawn, parse: string -> Option<Value>,
                        findOne: Value -> DbReply, clean: string)
    requires body.Obj? && "text" in body.fields && TextAccepted(body.fields["text"])
    requires clean == SanitizeInput(body.fields["text"]) && clean != ""
    requires worker(clean).Threw?
    ensures AnalyzeHandler(body, worker, parse, findOne) == Reply(500, ErrorBody(InternalError))
  {
    assert GetProp(body, "text") == Got(body.fields["text"]);
  }

  /**
    There is no timeout: if the worker never reports `close` or `error`, the
    request is never answered.
  */
  lemma SilentWorkerNoReply(body: Value, worker: string -> Spawn, parse: string -> Option<Value>,
                            findOne: Value -> DbReply, clean: string)
    requires body.Obj? && "text" in body.fields && TextAccepted(body.fields["text"])
    requires clean == SanitizeInput(body.fields["text"]) && clean != ""
    requires worker(clean).Started? && forall e :: e in worker(clean).events ==> !Settles(e)
    ensures AnalyzeHandler(body, worker, parse, findOne) == NoReply
  {
    var events := worker(clean).events;
    assert forall i :: 0 <= i < |events| ==> !Settles(events[i]);
    assert FirstSettling(events).None?;
    SettledByFirstSettlingEvent(events, parse);
    assert PromiseOf(worker(clean), parse) == Pending;
    assert GetProp(body, "text") == Got(body.fields["text"]);
  }
}
