/**
  The server's two handlers answering from a collection the seed script has
  filled: what a reply carries once every profile has its document.
*/
module System {
  import opened Wrappers
  import opened RiskProfiles
  import opened Js
  import opened PortfolioSchema
  import opened PortfolioStore
  import opened Api
  import opened AnalyzeRoute
  import opened RenderRoute
  import opened Seed

  /**
    `Portfolio.findOne({ risk_profile })` over stored rows, for a queried value
    that is a string: the first row with that profile, or nothing.
  */
  function StoreLookup(rows: seq<Portfolio>): Value -> DbReply
  {
    (q: Value) =>
      if q.Str? && ParseLabel(q.s).Some? && FindIn(rows, ParseLabel(q.s).value).Some?
      then Found(FindIn(rows, ParseLabel(q.s).value).value)
      else NotFound
  }

  /** The seeded row for each profile. */
  function SeededRow(p: RiskProfile): Portfolio
  {
    SeedRows[if p == Conservative then 0 else if p == Balanced then 1 else 2]
  }

  lemma SeededLookup(p: RiskProfile)
    ensures StoreLookup(SeedRows)(Str(Label(p))) == Found(SeededRow(p))
    ensures SeededRow(p).risk_profile == p
  {
    LabelRoundTrip(p);
    SeededLookupFinds(p);
  }

  /**
    After seeding, a classification that names a profile is answered with a 200
    carrying that profile's seeded document.
  */
  lemma SeededAnswerHasPortfolio(c: Value, p: RiskProfile)
    requires c.Obj? && "risk_profile" in c.fields && c.fields["risk_profile"] == Str(Label(p))
    ensures Answer(c, StoreLookup(SeedRows)) == Reply(200, SuccessBody(c, Project(SeededRow(p))))
  {
    SeededLookup(p);
    assert Prop(c, "risk_profile") == Str(Label(p));
    AnswerToObject(c, StoreLookup(SeedRows));
  }

  /** After seeding, every fallback reply carries the Balanced document rather than `null`. */
  lemma SeededFallbackHasPortfolio(reason: string)
    requires reason != ""
    ensures var r := Answer(Invoker.Fallback(reason), StoreLookup(SeedRows));
      && r.status == 200 && r.body.Obj?
      && r.body.fields["risk_profile"] == Str("Balanced")
      && r.body.fields["portfolio"] == Project(SeededRow(Balanced))
  {
    SeededLookup(Balanced);
    SeededAnswerHasPortfolio(Invoker.Fallback(reason), Balanced);
  }

  /**
    After seeding, the fixed-answer handler returns the seeded Aggressive
    document, which matches its built-in one in allocation and colour but not in
    description.
  */
  lemma SeededRenderUsesStore(body: Value)
    requires body.Obj? && TextAccepted(GetProp(body, "text").value)
    ensures var r := RenderHandler(body, StoreLookup(SeedRows));
      && r.status == 200
      && r.body.fields["portfolio"] == Project(SeededRow(Aggressive))
    ensures SeededRow(Aggressive).asset_allocation == BuiltInPortfolio.asset_allocation
    ensures SeededRow(Aggressive).visualisation_color == BuiltInPortfolio.visualisation_color
    ensures SeededRow(Aggressive).description != BuiltInPortfolio.description
  {
    SeededLookup(Aggressive);
    assert |AggressiveDescription| != |BuiltInPortfolio.description|;
  }
}
