/**
  The Mongoose `portfolioSchema` (server/models/Portfolio.js): what a document must
  carry to be saved, and the default it is given. The `unique` index on
  `risk_profile` is a property of the collection and lives in `PortfolioStore`.
*/
module PortfolioSchema {
  import opened Wrappers
  import opened RiskProfiles

  /** A field of a document as it is handed to Mongoose: absent, `null`, or a value. */
  datatype Field<T> = Missing | NullValue | Given(value: T)

  datatype AllocationInput = AllocationInput(stocks: Field<real>, bonds: Field<real>, cash: Field<real>, crypto: Field<real>)

  datatype PortfolioInput = PortfolioInput(
    risk_profile: Field<string>,
    description: Field<string>,
    asset_allocation: AllocationInput,
    visualisation_color: Field<string>)

  /** Percentages of a model portfolio. */
  datatype Allocation = Allocation(stocks: real, bonds: real, cash: real, crypto: real)

  /** A saved document; `visualisation_color` is `None` where `null` was stored explicitly. */
  datatype Portfolio = Portfolio(
    risk_profile: RiskProfile,
    description: string,
    asset_allocation: Allocation,
    visualisation_color: Option<string>)

  /** The schema paths a validation error can name. */
  datatype Path = RiskProfilePath | DescriptionPath | StocksPath | BondsPath | CashPath | CryptoPath

  const DefaultColor: string := "#4CAF50"
  const MinPercent: real := 0.0
  const MaxPercent: real := 100.0

  /** `required: true` on a String path: `undefined`, `null` and `''` fail. */
  predicate RequiredString(f: Field<string>)
  {
    f.Given? && f.value != ""
  }

  /** `type: Number, required: true, min: 0, max: 100` */
  predicate RequiredPercent(f: Field<real>)
  {
    f.Given? && MinPercent <= f.value <= MaxPercent
  }

  /** The rule the schema states for one path. */
  predicate PathValid(p: PortfolioInput, path: Path)
  {
    match path
    case RiskProfilePath => RequiredString(p.risk_profile) && ParseLabel(p.risk_profile.value).Some?
    case DescriptionPath => RequiredString(p.description)
    case StocksPath => RequiredPercent(p.asset_allocation.stocks)
    case BondsPath => RequiredPercent(p.asset_allocation.bonds)
    case CashPath => RequiredPercent(p.asset_allocation.cash)
    case CryptoPath => RequiredPercent(p.asset_allocation.crypto)
  }

  /** `default: '#4CAF50'`: only an absent colour is filled in; an explicit `null` stays. */
  function FillColor(f: Field<string>): (r: Option<string>)
    ensures f.Missing? ==> r == Some(DefaultColor)
    ensures f.NullValue? ==> r == None
    ensures f.Given? ==> r == Some(f.value)
  {
    match f
    case Missing => Some(DefaultColor)
    case NullValue => None
    case Given(c) => Some(c)
  }

  /** What every saved document satisfies. */
  predicate Conforms(row: Portfolio)
  {
    && row.description != ""
    && MinPercent <= row.asset_allocation.stocks <= MaxPercent
    && MinPercent <= row.asset_allocation.bonds <= MaxPercent
    && MinPercent <= row.asset_allocation.cash <= MaxPercent
    && MinPercent <= row.asset_allocation.crypto <= MaxPercent
  }

  function ErrorIf(ok: bool, path: Path): set<Path>
  {
    if ok then {} else {path}
  }

  /**
    Document validation: either the document to be saved, with defaults filled in,
    or the set of every path whose rule fails (Mongoose reports all of them).
  */
  function Validate(p: PortfolioInput): (r: Result<Portfolio, set<Path>>)
    ensures r.Success? <==> forall path :: PathValid(p, path)
    ensures r.Failure? ==> r.error != {} && forall path :: path in r.error <==> !PathValid(p, path)
    ensures r.Success? ==>
      && Conforms(r.value)
      && p.risk_profile == Given(Label(r.value.risk_profile))
      && p.description == Given(r.value.description)
      && p.asset_allocation == AllocationInput(
           Given(r.value.asset_allocation.stocks), Given(r.value.asset_allocation.bonds),
           Given(r.value.asset_allocation.cash), Given(r.value.asset_allocation.crypto))
      && r.value.visualisation_color == FillColor(p.visualisation_color)
  {
    var a := p.asset_allocation;
    var errors :=
      ErrorIf(RequiredString(p.risk_profile) && ParseLabel(p.risk_profile.value).Some?, RiskProfilePath)
      + ErrorIf(RequiredString(p.description), DescriptionPath)
      + ErrorIf(RequiredPercent(a.stocks), StocksPath)
      + ErrorIf(RequiredPercent(a.bonds), BondsPath)
      + ErrorIf(RequiredPercent(a.cash), CashPath)
      + ErrorIf(RequiredPercent(a.crypto), CryptoPath);
    assert forall path :: path in errors <==> !PathValid(p, path);
    if errors != {} then Failure(errors)
    else
      assert PathValid(p, RiskProfilePath);
      Success(Portfolio(
        ParseLabel(p.risk_profile.value).value,
        p.description.value,
        Allocation(a.stocks.value, a.bonds.value, a.cash.value, a.crypto.value),
        FillColor(p.visualisation_color)))
  }

  /** The document a saved row was created from, with its colour written out. */
  function InputOf(row: Portfolio): PortfolioInput
  {
    var a := row.asset_allocation;
    PortfolioInput(
      Given(Label(row.risk_profile)),
      Given(row.description),
      AllocationInput(Given(a.stocks), Given(a.bonds), Given(a.cash), Given(a.crypto)),
      if row.visualisation_color.Some? then Given(row.visualisation_color.value) else NullValue)
  }

  /** Validation accepts exactly the conforming rows and gives each one back unchanged. */
  lemma ValidateRoundTrip(row: Portfolio)
    ensures Validate(InputOf(row)).Success? <==> Conforms(row)
    ensures Conforms(row) ==> Validate(InputOf(row)) == Success(row)
  {
    LabelRoundTrip(row.risk_profile);
    if !Conforms(row) {
      if row.description == "" {
        assert !PathValid(InputOf(row), DescriptionPath);
      } else if !(MinPercent <= row.asset_allocation.stocks <= MaxPercent) {
        assert !PathValid(InputOf(row), StocksPath);
      } else if !(MinPercent <= row.asset_allocation.bonds <= MaxPercent) {
        assert !PathValid(InputOf(row), BondsPath);
      } else if !(MinPercent <= row.asset_allocation.cash <= MaxPercent) {
        assert !PathValid(InputOf(row), CashPath);
      } else {
        assert !PathValid(InputOf(row), CryptoPath);
      }
    }
  }

  /**
    The schema bounds each percentage on its own and says nothing about their sum:
    a document whose allocation adds up to 400 is accepted.
  */
  lemma NoSumConstraint()
    ensures var p := PortfolioInput(Given("Balanced"), Given("d"),
        AllocationInput(Given(100.0), Given(100.0), Given(100.0), Given(100.0)), Missing);
      && Validate(p).Success?
      && var a := Validate(p).value.asset_allocation; a.stocks + a.bonds + a.cash + a.crypto == 400.0
  {
    var p := PortfolioInput(Given("Balanced"), Given("d"),
        AllocationInput(Given(100.0), Given(100.0), Given(100.0), Given(100.0)), Missing);
    assert forall path :: PathValid(p, path);
  }
}
