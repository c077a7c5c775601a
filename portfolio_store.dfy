/**
  The `portfolios` collection behind the `Portfolio` model: documents saved only
  after schema validation, at most one per `risk_profile` (the `unique: true`
  index of server/models/Portfolio.js:15), and the three operations the server
  and the seed script use on it.
*/
module PortfolioStore {
  import opened Wrappers
  import opened RiskProfiles
  import opened PortfolioSchema

  predicate UniqueProfiles(rows: seq<Portfolio>)
  {
    forall i, j :: 0 <= i < j < |rows| ==> rows[i].risk_profile != rows[j].risk_profile
  }

  predicate HasProfile(rows: seq<Portfolio>, p: RiskProfile)
  {
    exists i :: 0 <= i < |rows| && rows[i].risk_profile == p
  }

  /** Why an `insertMany` was rejected: the position of the offending document. */
  datatype InsertError = ValidationFailed(index: nat, paths: set<Path>) | DuplicateKey(index: nat)

  /**
    Validation of a whole batch before anything is sent: the saved form of every
    document, or the first one that fails.
  */
  function ValidateAll(docs: seq<PortfolioInput>): (r: Result<seq<Portfolio>, InsertError>)
    ensures r.Success? ==> |r.value| == |docs| && forall i :: 0 <= i < |docs| ==> Validate(docs[i]) == Success(r.value[i])
    ensures r.Failure? ==>
      && r.error.ValidationFailed? && r.error.index < |docs|
      && Validate(docs[r.error.index]) == Failure(r.error.paths)
      && forall i :: 0 <= i < r.error.index ==> Validate(docs[i]).Success?
  {
    if docs == [] then Success([])
    else match Validate(docs[0])
      case Failure(paths) => Failure(ValidationFailed(0, paths))
      case Success(first) =>
        match ValidateAll(docs[1..])
        case Success(rest) => Success([first] + rest)
        case Failure(e) => Failure(ValidationFailed(e.index + 1, e.paths))
  }

  /** The collection after an ordered insert and where it stopped, if it did. */
  datatype InsertOutcome = InsertOutcome(rows: seq<Portfolio>, duplicate: Option<nat>)

  /**
    Ordered insertion of `docs[i..]`: each document is added in turn, and the
    first one whose profile is already present stops the batch, keeping what was
    inserted before it.
  */
  function InsertFrom(rows: seq<Portfolio>, docs: seq<Portfolio>, i: nat): (r: InsertOutcome)
    requires i <= |docs|
    ensures r.duplicate.None? ==> r.rows == rows + docs[i..]
    ensures r.duplicate.Some? ==>
      && i <= r.duplicate.value < |docs|
      && r.rows == rows + docs[i..r.duplicate.value]
      && HasProfile(r.rows, docs[r.duplicate.value].risk_profile)
    decreases |docs| - i
  {
    if i == |docs| then InsertOutcome(rows, None)
    else if HasProfile(rows, docs[i].risk_profile) then InsertOutcome(rows, Some(i))
    else
      var r := InsertFrom(rows + [docs[i]], docs, i + 1);
      assert [docs[i]] + docs[i + 1..] == docs[i..];
      assert r.duplicate.Some? ==> [docs[i]] + docs[i + 1..r.duplicate.value] == docs[i..r.duplicate.value];
      r
  }

  /** Ordered insertion never lets a second row with the same profile in. */
  lemma {:induction false} InsertFromKeepsUnique(rows: seq<Portfolio>, docs: seq<Portfolio>, i: nat)
    requires i <= |docs| && UniqueProfiles(rows)
    ensures UniqueProfiles(InsertFrom(rows, docs, i).rows)
    decreases |docs| - i
  {
    if i < |docs| && !HasProfile(rows, docs[i].risk_profile) {
      var rows' := rows + [docs[i]];
      forall a, b | 0 <= a < b < |rows'|
        ensures rows'[a].risk_profile != rows'[b].risk_profile
      {
        if b == |rows| {
          assert rows'[a] == rows[a];
        }
      }
      InsertFromKeepsUnique(rows', docs, i + 1);
    }
  }

  /** A batch whose profiles are new and pairwise distinct is inserted whole. */
  lemma {:induction false} InsertDistinctCompletes(rows: seq<Portfolio>, docs: seq<Portfolio>, i: nat)
    requires i <= |docs| && UniqueProfiles(rows + docs[i..])
    ensures InsertFrom(rows, docs, i) == InsertOutcome(rows + docs[i..], None)
    decreases |docs| - i
  {
    if i < |docs| {
      var all := rows + docs[i..];
      assert all[|rows|] == docs[i];
      forall j | 0 <= j < |rows|
        ensures rows[j].risk_profile != docs[i].risk_profile
      {
        assert all[j] == rows[j];
      }
      assert rows + [docs[i]] + docs[i + 1..] == all;
      InsertDistinctCompletes(rows + [docs[i]], docs, i + 1);
    }
  }

  class PortfolioCollection {
    var rows: seq<Portfolio>

    /** Every row passed validation, and no two rows share a profile. */
    ghost predicate Valid()
      reads this
    {
      && UniqueProfiles(rows)
      && forall i :: 0 <= i < |rows| ==> Conforms(rows[i])
    }

    constructor()
      ensures rows == [] && Valid()
    {
      rows := [];
    }

    /** `Portfolio.deleteMany({})` */
    method DeleteMany()
      modifies this
      ensures rows == [] && Valid()
    {
      rows := [];
    }

    /**
      `Portfolio.insertMany(docs)` with its default `ordered: true`: the batch is
      validated first and rejected whole if a document fails; otherwise documents
      are inserted in order until one collides with an existing profile.
    */
    method InsertMany(docs: seq<PortfolioInput>) returns (result: Result<nat, InsertError>)
      requires Valid()
      modifies this
      ensures Valid()
      ensures ValidateAll(docs).Failure? ==> result == Failure(ValidateAll(docs).error) && rows == old(rows)
      ensures ValidateAll(docs).Success? ==>
        var outcome := InsertFrom(old(rows), ValidateAll(docs).value, 0);
        && rows == outcome.rows
        && (outcome.duplicate.None? ==> result == Success(|docs|))
        && (outcome.duplicate.Some? ==> result == Failure(DuplicateKey(outcome.duplicate.value)))
    {
      var validated := ValidateBatch(docs);
      if validated.Failure? {
        return Failure(validated.error);
      }
      var duplicate := InsertOrdered(validated.value);
      if duplicate.Some? {
        return Failure(DuplicateKey(duplicate.value));
      }
      result := Success(|docs|);
    }

    /**
      The ordered insert of already validated documents: stops at the first one
      whose profile is present, keeping the documents inserted before it.
    */
    method InsertOrdered(saved: seq<Portfolio>) returns (duplicate: Option<nat>)
      requires Valid()
      requires forall j :: 0 <= j < |saved| ==> Conforms(saved[j])
      modifies this
      ensures Valid()
      ensures InsertOutcome(rows, duplicate) == InsertFrom(old(rows), saved, 0)
    {
      ghost var start := rows;
      InsertFromKeepsUnique(start, saved, 0);
      var i := 0;
      while i < |saved|
        invariant i <= |saved|
        invariant InsertFrom(rows, saved, i) == InsertFrom(start, saved, 0)
        invariant forall j :: 0 <= j < |rows| ==> Conforms(rows[j])
      {
        if FindByProfile(saved[i].risk_profile).Some? {
          return Some(i);
        }
        rows := rows + [saved[i]];
        i := i + 1;
      }
      duplicate := None;
    }

    /** `Portfolio.findOne({ risk_profile: p })` on a string that names a profile. */
    function FindByProfile(p: RiskProfile): (r: Option<Portfolio>)
      reads this
      ensures r.Some? <==> HasProfile(rows, p)
      ensures r.Some? ==> r.value in rows && r.value.risk_profile == p
      ensures r.Some? ==> exists i :: FirstWith(rows, p, i) && rows[i] == r.value
      ensures r.Some? && UniqueProfiles(rows) ==>
        forall i :: 0 <= i < |rows| && rows[i].risk_profile == p ==> rows[i] == r.value
    {
      FindIn(rows, p)
    }
  }

  /** The first row with profile `p`. */
  function FindIn(rows: seq<Portfolio>, p: RiskProfile): (r: Option<Portfolio>)
    ensures r.Some? <==> HasProfile(rows, p)
    ensures r.Some? ==> r.value in rows && r.value.risk_profile == p
    ensures r.Some? ==> exists i :: FirstWith(rows, p, i) && rows[i] == r.value
    ensures r.Some? && UniqueProfiles(rows) ==>
      forall i :: 0 <= i < |rows| && rows[i].risk_profile == p ==> rows[i] == r.value
  {
    if rows == [] then None
    else if rows[0].risk_profile == p then Some(rows[0])
    else
      var r := FindIn(rows[1..], p);
      assert HasProfile(rows, p) ==> HasProfile(rows[1..], p) by {
        if HasProfile(rows, p) {
          var i :| 0 <= i < |rows| && rows[i].risk_profile == p;
          assert rows[1..][i - 1] == rows[i];
        }
      }
      assert HasProfile(rows[1..], p) ==> HasProfile(rows, p) by {
        if HasProfile(rows[1..], p) {
          var i :| 0 <= i < |rows[1..]| && rows[1..][i].risk_profile == p;
          assert rows[i + 1] == rows[1..][i];
        }
      }
      FirstWithShift(rows, p);
      r
  }

  lemma FirstWithShift(rows: seq<Portfolio>, p: RiskProfile)
    requires rows != [] && rows[0].risk_profile != p
    ensures forall i :: FirstWith(rows[1..], p, i) ==> FirstWith(rows, p, i + 1) && rows[i + 1] == rows[1..][i]
  {
    forall i | FirstWith(rows[1..], p, i)
      ensures FirstWith(rows, p, i + 1)
    {
      forall j | 0 <= j < i + 1
        ensures rows[j].risk_profile != p
      {
        if j > 0 { assert rows[j] == rows[1..][j - 1]; }
      }
    }
  }

  /** Row `i` has profile `p` and no row before it does. */
  predicate FirstWith(rows: seq<Portfolio>, p: RiskProfile, i: int)
  {
    0 <= i < |rows| && rows[i].risk_profile == p && forall j :: 0 <= j < i ==> rows[j].risk_profile != p
  }

  /** The validation pass of `insertMany`, one document at a time. */
  method ValidateBatch(docs: seq<PortfolioInput>) returns (r: Result<seq<Portfolio>, InsertError>)
    ensures r == ValidateAll(docs)
    ensures r.Success? ==> forall i :: 0 <= i < |r.value| ==> Conforms(r.value[i])
  {
    var saved: seq<Portfolio> := [];
    var k := 0;
    while k < |docs|
      invariant k <= |docs| && |saved| == k
      invariant forall i :: 0 <= i < k ==> Validate(docs[i]) == Success(saved[i])
    {
      var v := Validate(docs[k]);
      if v.Failure? {
        ValidateAllFirstFailure(docs, k);
        return Failure(ValidationFailed(k, v.error));
      }
      saved := saved + [v.value];
      k := k + 1;
    }
    ValidateAllSuccess(docs, saved);
    r := Success(saved);
  }

  /** Validation stops at the first failing document and reports its index. */
  lemma {:induction false} ValidateAllFirstFailure(docs: seq<PortfolioInput>, k: nat)
    requires k < |docs| && Validate(docs[k]).Failure?
    requires forall i :: 0 <= i < k ==> Validate(docs[i]).Success?
    ensures ValidateAll(docs) == Failure(ValidationFailed(k, Validate(docs[k]).error))
  {
    if k > 0 {
      var rest := docs[1..];
      assert forall i :: 0 <= i < k - 1 ==> rest[i] == docs[i + 1];
      assert rest[k - 1] == docs[k];
      ValidateAllFirstFailure(rest, k - 1);
    }
  }

  /** A batch whose documents all validate is saved as their saved forms, in order. */
  lemma {:induction false} ValidateAllSuccess(docs: seq<PortfolioInput>, saved: seq<Portfolio>)
    requires |saved| == |docs|
    requires forall i :: 0 <= i < |docs| ==> Validate(docs[i]) == Success(saved[i])
    ensures ValidateAll(docs) == Success(saved)
  {
    if docs != [] {
      assert forall i :: 0 <= i < |docs| - 1 ==> docs[1..][i] == docs[i + 1] && saved[1..][i] == saved[i + 1];
      ValidateAllSuccess(docs[1..], saved[1..]);
      assert saved == [saved[0]] + saved[1..];
    }
  }
}
