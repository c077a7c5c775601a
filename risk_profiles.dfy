/**
  The three risk-profile labels shared by the schema enum, the seed table, the
  worker's fallbacks and the dataset generator.
*/
module RiskProfiles {
  import opened Wrappers

  datatype RiskProfile = Conservative | Balanced | Aggressive

  /** The string the source uses for a profile. */
  function Label(p: RiskProfile): string
  {
    match p
    case Conservative => "Conservative"
    case Balanced => "Balanced"
    case Aggressive => "Aggressive"
  }

  /** Reads a label back; `None` for any string outside the enum. */
  function ParseLabel(s: string): (r: Option<RiskProfile>)
    ensures r.Some? ==> Label(r.value) == s
    ensures r.None? ==> forall p :: Label(p) != s
  {
    if s == "Conservative" then Some(Conservative)
    else if s == "Balanced" then Some(Balanced)
    else if s == "Aggressive" then Some(Aggressive)
    else None
  }

  lemma LabelRoundTrip(p: RiskProfile)
    ensures ParseLabel(Label(p)) == Some(p)
  {
  }
}
