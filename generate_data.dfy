/**
  The synthetic training-set generator, ml_service/scripts/generate_data.py: each
  row is a template of its class with a random prefix and suffix, the classes are
  balanced to within one row, and the rows are shuffled.
*/
module GenerateData {
  import opened RiskProfiles
  import opened Predict

  /** One row of the data frame: `{"text": ..., "risk_profile": ...}`. */
  datatype Sample = Sample(text: string, profile: RiskProfile)

  const ConservativeTemplates: seq<string> := [
    "I want to protect my savings and avoid any losses. Safety is my priority.",
    "I'm nearing retirement and need stable income with minimal risk.",
    "I prefer low-risk investments that preserve my capital.",
    "I'm saving for a house deposit in the next year and can't afford to lose money.",
    "I want guaranteed returns even if they're small. I hate volatility.",
    "My emergency fund needs to be safe and accessible.",
    "I'm risk-averse and prefer bonds over stocks any day.",
    "Capital preservation is more important to me than growth.",
    "I want steady, predictable returns without any surprises.",
    "I'm close to retiring so I need stable investments that won't fluctuate.",
    "I don't want to take any chances with my savings.",
    "Low returns are fine as long as my money is safe.",
    "I'm saving for something in the next 2 years so I need certainty.",
    "I get anxious when markets are volatile so I stick to safe options.",
    "Government bonds and savings accounts suit my needs perfectly.",
    "I'm over 60 and need to protect what I've earned.",
    "Stability and security are my top priorities for investments.",
    "I would rather miss out on gains than risk losing my capital.",
    "Fixed income investments are what I'm looking for.",
    "I want something as safe as a bank account but maybe slightly better returns."
  ]

  const BalancedTemplates: seq<string> := [
    "I want a mix of growth and stability for my long-term savings.",
    "I'm comfortable with some ups and downs if it means better returns overall.",
    "I'm saving for my children's university fees in about 10 years.",
    "I can handle moderate risk if the long-term outlook is positive.",
    "A balanced portfolio of stocks and bonds would suit me well.",
    "I want steady growth over time but not too much volatility.",
    "I'm in my 40s and want to grow my pension without going too aggressive.",
    "Some risk is acceptable but I don't want wild swings in my portfolio.",
    "I'd like a diversified mix that balances growth with security.",
    "I'm looking for consistent returns over a 5-10 year horizon.",
    "Middle of the road investments work best for my situation.",
    "I want reasonable growth potential while managing downside risk.",
    "Not too conservative, not too aggressive - somewhere in between.",
    "I can tolerate short-term losses for medium-term gains.",
    "A 50/50 split between stocks and bonds sounds about right.",
    "I'm building a nest egg and have 10-15 years until I need it.",
    "Moderate risk is fine as I have time to recover from any dips.",
    "I want diversification across different asset classes.",
    "Growth is important but so is some level of stability.",
    "I'm looking for the sweet spot between risk and reward."
  ]

  const AggressiveTemplates: seq<string> := [
    "I want maximum growth and I'm happy to ride out any volatility.",
    "I'm young and have decades before retirement, so I can take big risks.",
    "I want high-growth stocks and emerging markets exposure.",
    "I'm excited about cryptocurrency and tech startups.",
    "I don't mind if my portfolio goes down 30% as long as the long-term returns are high.",
    "I want aggressive growth even if it means significant short-term losses.",
    "This is play money I can afford to lose, so go for maximum returns.",
    "I'm in my 20s with a high income and want to grow wealth rapidly.",
    "All-in on equities, no bonds needed. I want growth.",
    "I'm comfortable with high volatility for potentially high rewards.",
    "I want exposure to disruptive technologies and growth stocks.",
    "Risk doesn't scare me, I see it as opportunity.",
    "My time horizon is 30+ years so I can handle any crashes.",
    "I'm looking for aggressive capital appreciation strategies.",
    "Bitcoin, tech stocks, and venture capital interest me.",
    "I want the highest possible returns and accept the associated risks.",
    "I have a high risk tolerance and want my money working hard.",
    "Growth-focused investments are what I'm after.",
    "I'm speculating with money I can afford to lose completely.",
    "Maximum risk, maximum reward - that's my approach."
  ]

  const Prefixes: seq<string> := [
    "",
    "Honestly, ",
    "To be frank, ",
    "Looking at my situation, ",
    "At this stage in life, ",
    "Given my circumstances, ",
    "For my financial goals, ",
    "When it comes to investing, ",
    "My philosophy is that ",
    "I believe "
  ]

  /** The list holds the empty suffix twice, so it is drawn twice as often as the others. */
  const Suffixes: seq<string> := [
    "",
    " What do you recommend?",
    " That's my view on things.",
    " I hope that makes sense.",
    " Does that help?",
    " That's how I feel about it.",
    " I'd appreciate your advice.",
    " Let me know your thoughts.",
    ""
  ]

  /** `templates_map[label]` */
  function TemplatesFor(p: RiskProfile): (r: seq<string>)
    ensures |r| == 20
  {
    match p
    case Conservative => ConservativeTemplates
    case Balanced => BalancedTemplates
    case Aggressive => AggressiveTemplates
  }

  /**
    The module-level lists the generator draws from. The generator takes them as
    a parameter; `SourceVocabulary` holds the lists the script defines.
  */
  datatype Vocabulary = Vocabulary(templates: RiskProfile -> seq<string>, prefixes: seq<string>, suffixes: seq<string>)

  /** Every list `random.choice` is applied to is non-empty. */
  predicate Usable(v: Vocabulary)
  {
    (forall p :: v.templates(p) != []) && v.prefixes != [] && v.suffixes != []
  }

  const SourceVocabulary: Vocabulary := Vocabulary(TemplatesFor, Prefixes, Suffixes)

  lemma SourceVocabularyUsable()
    ensures Usable(SourceVocabulary)
    ensures forall p :: |SourceVocabulary.templates(p)| == 20
    ensures |SourceVocabulary.prefixes| == 10 && |SourceVocabulary.suffixes| == 9
  {
  }

  /** The text is `(prefix + base + suffix).strip()` for a base from `templates` and a listed prefix and suffix. */
  ghost predicate BuiltFrom(s: Sample, templates: seq<string>, v: Vocabulary)
  {
    exists base, prefix, suffix ::
      && base in templates && prefix in v.prefixes && suffix in v.suffixes
      && s.text == PyStrip(prefix + base + suffix)
  }

  /** Every row was built from the templates of its own class. */
  ghost predicate AllBuilt(data: seq<Sample>, v: Vocabulary)
  {
    forall i :: 0 <= i < |data| ==> BuiltFrom(data[i], v.templates(data[i].profile), v)
  }

  lemma AppendBuilt(data: seq<Sample>, s: Sample, v: Vocabulary)
    requires AllBuilt(data, v) && BuiltFrom(s, v.templates(s.profile), v)
    ensures AllBuilt(data + [s], v)
  {
    forall i | 0 <= i < |data| + 1
      ensures BuiltFrom((data + [s])[i], v.templates((data + [s])[i].profile), v)
    {
      if i < |data| {
        assert (data + [s])[i] == data[i];
      } else {
        assert (data + [s])[i] == s;
      }
    }
  }

  /**
    `generate_sample(templates, label)` (lines 98-105); each `random.choice` is an
    arbitrary pick from its list.
  */
  method GenerateSample(templates: seq<string>, profile: RiskProfile, v: Vocabulary) returns (s: Sample)
    requires templates != [] && Usable(v)
    ensures s.profile == profile
    ensures BuiltFrom(s, templates, v)
  {
    assert templates[0] in templates;
    var base :| base in templates;
    assert v.prefixes[0] in v.prefixes;
    var prefix :| prefix in v.prefixes;
    assert v.suffixes[0] in v.suffixes;
    var suffix :| suffix in v.suffixes;
    s := Sample(PyStrip(prefix + base + suffix), profile);
  }

  /** The `risk_profile` column. */
  function Profiles(data: seq<Sample>): (r: seq<RiskProfile>)
    ensures |r| == |data|
    ensures forall i :: 0 <= i < |data| ==> r[i] == data[i].profile
  {
    seq(|data|, i requires 0 <= i < |data| => data[i].profile)
  }

  /** How many rows of each class a sequence holds. */
  function ProfilesOf(data: seq<Sample>): multiset<RiskProfile>
  {
    multiset(Profiles(data))
  }

  /**
    `random.shuffle(data)`: CPython's Fisher-Yates pass, with each random index an
    arbitrary pick. The rows, and so the class counts, are only rearranged.
  */
  method Shuffle(a: array<Sample>)
    modifies a
    ensures multiset(a[..]) == multiset(old(a[..]))
    ensures ProfilesOf(a[..]) == ProfilesOf(old(a[..]))
  {
    var i := a.Length;
    while i > 1
      invariant 0 <= i <= a.Length
      invariant multiset(a[..]) == multiset(old(a[..]))
      invariant ProfilesOf(a[..]) == ProfilesOf(old(a[..]))
    {
      i := i - 1;
      var j :| 0 <= j <= i;
      ghost var before := a[..];
      a[i], a[j] := a[j], a[i];
      assert a[..] == before[i := before[j]][j := before[i]];
      SwapKeepsProfiles(before, i, j);
    }
  }

  lemma SwapKeepsProfiles(s: seq<Sample>, i: nat, j: nat)
    requires i < |s| && j < |s|
    ensures ProfilesOf(s[i := s[j]][j := s[i]]) == ProfilesOf(s)
  {
    var p := Profiles(s);
    assert Profiles(s[i := s[j]][j := s[i]]) == p[i := p[j]][j := p[i]];
  }

  /** The number of iterations of `range(k)`: none when `k` is negative. */
  function RangeLength(k: int): nat
  {
    if k >= 0 then k else 0
  }

  /** `samples_per_class`, as the first loop runs it. */
  function PerClass(n: int): nat
  {
    RangeLength(n / 3)
  }

  /** The labels the remainder loop walks through. */
  const RemainderLabels: seq<RiskProfile> := [Conservative, Balanced, Aggressive]

  /** `k` rows of each class. */
  predicate Balanced3(counts: multiset<RiskProfile>, k: nat)
  {
    counts[Conservative] == k && counts[Balanced] == k && counts[Aggressive] == k
  }

  /** Lines 116-119: `rounds` times, one sample of each class in turn. */
  method GenerateRounds(rounds: int, v: Vocabulary) returns (data: seq<Sample>)
    requires Usable(v)
    ensures |data| == 3 * RangeLength(rounds)
    ensures Balanced3(ProfilesOf(data), RangeLength(rounds))
    ensures AllBuilt(data, v)
  {
    data := [];
    var k := 0;
    while k < rounds
      invariant 0 <= k && (k <= rounds || k == 0)
      invariant |data| == 3 * k
      invariant Balanced3(ProfilesOf(data), k)
      invariant AllBuilt(data, v)
    {
      var c := GenerateSample(v.templates(Conservative), Conservative, v);
      var b := GenerateSample(v.templates(Balanced), Balanced, v);
      var a := GenerateSample(v.templates(Aggressive), Aggressive, v);
      AppendRound(data, c, b, a, k, v);
      data := data + [c] + [b] + [a];
      k := k + 1;
    }
  }

  /** One round of the first loop keeps the classes balanced and every row well built. */
  lemma AppendRound(data: seq<Sample>, c: Sample, b: Sample, a: Sample, k: nat, v: Vocabulary)
    requires Balanced3(ProfilesOf(data), k) && AllBuilt(data, v)
    requires c.profile == Conservative && b.profile == Balanced && a.profile == Aggressive
    requires BuiltFrom(c, v.templates(c.profile), v)
    requires BuiltFrom(b, v.templates(b.profile), v)
    requires BuiltFrom(a, v.templates(a.profile), v)
    ensures Balanced3(ProfilesOf(data + [c] + [b] + [a]), k + 1)
    ensures AllBuilt(data + [c] + [b] + [a], v)
  {
    AppendProfile(data, c);
    AppendBuilt(data, c, v);
    AppendProfile(data + [c], b);
    AppendBuilt(data + [c], b, v);
    AppendProfile(data + [c] + [b], a);
    AppendBuilt(data + [c] + [b], a, v);
  }

  /** `generate_sample(templates_map[label], label)` */
  method GenerateFor(profile: RiskProfile, v: Vocabulary) returns (s: Sample)
    requires Usable(v)
    ensures s.profile == profile
    ensures BuiltFrom(s, v.templates(s.profile), v)
  {
    s := GenerateSample(v.templates(profile), profile, v);
  }

  /** How many of the first `i` remainder labels are `p`. */
  function Extra(i: nat, p: RiskProfile): nat
  {
    match p
    case Conservative => if i >= 1 then 1 else 0
    case Balanced => if i >= 2 then 1 else 0
    case Aggressive => if i >= 3 then 1 else 0
  }

  /** Lines 122-130: one more sample for each of the first `remainder` labels. */
  method AddRemainder(data: seq<Sample>, remainder: nat, v: Vocabulary) returns (out: seq<Sample>)
    requires remainder < 3 && Usable(v)
    requires AllBuilt(data, v)
    ensures |out| == |data| + remainder
    ensures forall p :: ProfilesOf(out)[p] == ProfilesOf(data)[p] + Extra(remainder, p)
    ensures AllBuilt(out, v)
  {
    out := data;
    var i := 0;
    while i < remainder
      invariant 0 <= i <= remainder
      invariant |out| == |data| + i
      invariant forall p :: ProfilesOf(out)[p] == ProfilesOf(data)[p] + Extra(i, p)
      invariant AllBuilt(out, v)
    {
      var profile := RemainderLabels[i];
      var s := GenerateFor(profile, v);
      RemainderStep(data, out, i, s);
      AppendBuilt(out, s, v);
      out := out + [s];
      i := i + 1;
    }
  }

  lemma RemainderStep(data: seq<Sample>, out: seq<Sample>, i: nat, s: Sample)
    requires i < 3 && s.profile == RemainderLabels[i]
    requires forall p :: ProfilesOf(out)[p] == ProfilesOf(data)[p] + Extra(i, p)
    ensures forall p :: ProfilesOf(out + [s])[p] == ProfilesOf(data)[p] + Extra(i + 1, p)
  {
    AppendProfile(out, s);
  }

  /** A permutation of rows built from their own class's templates is still so built. */
  lemma PermutationAllBuilt(a: seq<Sample>, b: seq<Sample>, v: Vocabulary)
    requires multiset(a) == multiset(b) && AllBuilt(a, v)
    ensures AllBuilt(b, v)
  {
    forall i | 0 <= i < |b|
      ensures BuiltFrom(b[i], v.templates(b[i].profile), v)
    {
      assert b[i] in multiset(a);
      var j :| 0 <= j < |a| && a[j] == b[i];
    }
  }

  /** Line 133: the rows in a shuffled order. */
  method ShuffleRows(data: seq<Sample>) returns (out: seq<Sample>)
    ensures multiset(out) == multiset(data)
    ensures ProfilesOf(out) == ProfilesOf(data)
  {
    var rows := new Sample[|data|](j requires 0 <= j < |data| => data[j]);
    assert rows[..] == data;
    Shuffle(rows);
    out := rows[..];
  }

  /**
    `generate_dataset(n)` (lines 108-135). The counts follow Python's floor
    division and modulo; a negative `n` still gets its `n % 3` remainder rows.
  */
  method GenerateDataset(n: int, v: Vocabulary) returns (data: seq<Sample>)
    requires Usable(v)
    ensures |data| == 3 * PerClass(n) + n % 3
    ensures n >= 0 ==> |data| == n
    ensures ProfilesOf(data)[Conservative] == PerClass(n) + (if n % 3 >= 1 then 1 else 0)
    ensures ProfilesOf(data)[Balanced] == PerClass(n) + (if n % 3 == 2 then 1 else 0)
    ensures ProfilesOf(data)[Aggressive] == PerClass(n)
    ensures AllBuilt(data, v)
  {
    var perClass := n / 3;
    var remainder := n % 3;
    var rounds := GenerateRounds(perClass, v);
    var all := AddRemainder(rounds, remainder, v);
    data := ShuffleRows(all);
    PermutationAllBuilt(all, data, v);
  }

  lemma AppendProfile(data: seq<Sample>, s: Sample)
    ensures ProfilesOf(data + [s]) == ProfilesOf(data) + multiset{s.profile}
  {
    assert Profiles(data + [s]) == Profiles(data) + [s.profile];
  }

  /**
    Lines 110-130: the three class sizes add up to `n` and differ by at most one,
    Conservative being never smaller and Aggressive never larger than the others.
  */
  lemma ClassesBalanced(n: nat)
    ensures var c := n / 3 + (if n % 3 >= 1 then 1 else 0);
      var b := n / 3 + (if n % 3 == 2 then 1 else 0);
      var a := n / 3;
      && c + b + a == n
      && a <= b <= c <= a + 1
  {
  }
}
