/**
  The `POST /api/analyze` handler of server/server_render.js, the deployment
  without the Python worker: any accepted text is answered with the Aggressive
  profile, and the portfolio comes from the store or from a built-in copy.
*/
module RenderRoute {
  import opened Wrappers
  import opened Js
  import opened RiskProfiles
  import opened PortfolioSchema
  import opened Sanitizer
  import opened Api

  const RenderProfile: RiskProfile := Aggressive
  const RenderConfidence: real := 0.95

  /** The portfolio written into the handler for when the store has none (lines 59-68). */
  const BuiltInPortfolio: Portfolio :=
    Portfolio(Aggressive, "High growth strategy for long-term investors.",
      Allocation(70.0, 10.0, 5.0, 15.0), Some("#FF5733"))

  const RenderKeys: set<string> := {"risk_profile", "confidence", "portfolio"}

  /**
    The handler, given the parsed request body and `Portfolio.findOne` (as a
    function of the `risk_profile` queried for). The text is checked but neither
    sanitized nor classified.
  */
  function RenderHandler(body: Value, findOne: Value -> DbReply): (r: Reply)
    ensures r.Reply?
    ensures body.Undefined? || body.Null? ==> r == Reply(500, ErrorBody(InternalError))
    ensures !body.Undefined? && !body.Null? ==> (r.status == 200 <==> TextAccepted(GetProp(body, "text").value))
    ensures !body.Undefined? && !body.Null? && !TextAccepted(GetProp(body, "text").value) ==>
      r == Reply(400, ErrorBody(TextRequired))
    ensures r.status == 200 ==>
      && r.body.Obj? && r.body.fields.Keys == RenderKeys
      && r.body.fields["risk_profile"] == Str(Label(RenderProfile))
      && r.body.fields["confidence"] == Num(RenderConfidence)
      && r.body.fields["portfolio"] != Null
      && (findOne(Str("Aggressive")).Found? ==> r.body.fields["portfolio"] == Project(findOne(Str("Aggressive")).doc))
      && (!findOne(Str("Aggressive")).Found? ==> r.body.fields["portfolio"] == Project(BuiltInPortfolio))
  {
    match GetProp(body, "text")
    case Threw => Reply(500, ErrorBody(InternalError))
    case Got(text) =>
      if !TextAccepted(text) then Reply(400, ErrorBody(TextRequired))
      else
        // `let portfolio = null`, reassigned only by a lookup that finds a
        // document: a rejected lookup is caught and leaves it null.
        var portfolio := match findOne(Str(Label(RenderProfile)))
          case Found(doc) => Some(doc)
          case NotFound => None
          case DbError(_) => None;
        Reply(200, Obj(map[
          "risk_profile" := Str(Label(RenderProfile)),
          "confidence" := Num(RenderConfidence),
          "portfolio" := Project(if portfolio.Some? then portfolio.value else BuiltInPortfolio)]))
  }

  /** Lines 44-49: a lookup that rejects is answered exactly like one that finds nothing. */
  lemma DbErrorActsAsNotFound(body: Value, failing: Value -> DbReply, empty: Value -> DbReply)
    requires failing(Str("Aggressive")).DbError? && empty(Str("Aggressive")).NotFound?
    ensures RenderHandler(body, failing) == RenderHandler(body, empty)
  {
  }

  /** Lines 41 and 53-54: every accepted text gets the same answer, whatever it says. */
  lemma ContentIgnored(body: Value, body': Value, findOne: Value -> DbReply)
    requires body.Obj? && body'.Obj?
    requires TextAccepted(GetProp(body, "text").value) && TextAccepted(GetProp(body', "text").value)
    ensures RenderHandler(body, findOne) == RenderHandler(body', findOne)
  {
  }

  /**
    There is no sanitization step: a text made only of shell characters, which the
    worker-backed handler refuses with "Invalid input after sanitization", gets a
    200 here.
  */
  lemma ShellOnlyTextAccepted(findOne: Value -> DbReply)
    ensures SanitizeInput(Str(";")) == ""
    ensures RenderHandler(Obj(map["text" := Str(";")]), findOne).status == 200
  {
    assert DeleteMatches(";", ScriptBlockAt) == ";" by {
      assert !MatchesAt(";", ScriptOpen, 0);
    }
    assert DeleteMatches(";", HandlerAt) == ";";
  }
}
