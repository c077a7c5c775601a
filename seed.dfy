/**
  server/seed.js: the three model portfolios and the script that replaces the
  collection's contents with them.
*/
module Seed {
  import opened Wrappers
  import opened RiskProfiles
  import opened PortfolioSchema
  import opened PortfolioStore

  const ConservativeDescription: string :=
    "Designed for capital preservation with minimal volatility. Ideal for near-term goals (1-3 years) or risk-averse investors approaching retirement."
  const BalancedDescription: string :=
    "A diversified mix targeting moderate growth with manageable risk. Suitable for medium-term goals (5-10 years) like university fees or home deposits."
  const AggressiveDescription: string :=
    "Designed for maximum growth over a long time horizon (10+ years). High volatility expected but potential for significant returns."

  function SeedInput(profile: string, description: string, stocks: real, bonds: real, cash: real, crypto: real,
                     color: string): PortfolioInput
  {
    PortfolioInput(Given(profile), Given(description),
      AllocationInput(Given(stocks), Given(bonds), Given(cash), Given(crypto)), Given(color))
  }

  /** The `portfolios` array as the script hands it to `insertMany`. */
  const SeedInputs: seq<PortfolioInput> := [
    SeedInput("Conservative", ConservativeDescription, 20.0, 50.0, 25.0, 5.0, "#4CAF50"),
    SeedInput("Balanced", BalancedDescription, 50.0, 30.0, 15.0, 5.0, "#2196F3"),
    SeedInput("Aggressive", AggressiveDescription, 70.0, 10.0, 5.0, 15.0, "#FF5733")
  ]

  /** The documents those inputs are saved as. */
  const SeedRows: seq<Portfolio> := [
    Portfolio(Conservative, ConservativeDescription, Allocation(20.0, 50.0, 25.0, 5.0), Some("#4CAF50")),
    Portfolio(Balanced, BalancedDescription, Allocation(50.0, 30.0, 15.0, 5.0), Some("#2196F3")),
    Portfolio(Aggressive, AggressiveDescription, Allocation(70.0, 10.0, 5.0, 15.0), Some("#FF5733"))
  ]

  function AllocationSum(a: Allocation): real
  {
    a.stocks + a.bonds + a.cash + a.crypto
  }

  /** Every seed document passes the schema and is saved as the matching row. */
  lemma SeedValidates()
    ensures ValidateAll(SeedInputs) == Success(SeedRows)
  {
    forall i | 0 <= i < 3
      ensures Validate(SeedInputs[i]) == Success(SeedRows[i])
    {
      ValidateRoundTrip(SeedRows[i]);
      assert InputOf(SeedRows[i]) == SeedInputs[i];
    }
    ValidateAllSuccess(SeedInputs, SeedRows);
  }

  /**
    The seed table: three rows, one per profile and none twice, each conforming to
    the schema with percentages that add up to 100.
  */
  lemma SeedTable()
    ensures |SeedRows| == 3
    ensures UniqueProfiles(SeedRows)
    ensures forall p :: HasProfile(SeedRows, p)
    ensures forall i :: 0 <= i < |SeedRows| ==> Conforms(SeedRows[i])
    ensures forall i :: 0 <= i < |SeedRows| ==> AllocationSum(SeedRows[i].asset_allocation) == 100.0
  {
    forall p
      ensures HasProfile(SeedRows, p)
    {
      match p
      case Conservative => assert SeedRows[0].risk_profile == p;
      case Balanced => assert SeedRows[1].risk_profile == p;
      case Aggressive => assert SeedRows[2].risk_profile == p;
    }
  }

  /**
    `seed()`: `deleteMany({})` then `insertMany(portfolios)`. Whatever the
    collection held before, it ends up holding exactly the seed rows.
  */
  method Seed(store: PortfolioCollection) returns (result: Result<nat, InsertError>)
    requires store.Valid()
    modifies store
    ensures store.Valid()
    ensures store.rows == SeedRows
    ensures result == Success(3)
  {
    store.DeleteMany();
    SeedValidates();
    SeedTable();
    assert [] + SeedRows[0..] == SeedRows;
    InsertDistinctCompletes([], SeedRows, 0);
    result := store.InsertMany(SeedInputs);
  }

  /** After seeding, a lookup by any profile, the 'Balanced' fallback included, finds its row. */
  lemma SeededLookupFinds(p: RiskProfile)
    ensures FindIn(SeedRows, p).Some?
    ensures FindIn(SeedRows, p).value == SeedRows[if p == Conservative then 0 else if p == Balanced then 1 else 2]
  {
    SeedTable();
    var i := if p == Conservative then 0 else if p == Balanced then 1 else 2;
    assert SeedRows[i].risk_profile == p;
  }
}
