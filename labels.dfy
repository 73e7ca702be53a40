/** The eight beat positions of the dial and their spelling as the strings
    the JavaScript source stores. */
module Labels {
  import opened Wrappers

  datatype Label = L1 | L1A | L2 | L2A | L3 | L3A | L4 | L4A

  /** The string the source uses for a label. */
  function Text(l: Label): string
  {
    match l
    case L1 => "1" case L1A => "1A" case L2 => "2" case L2A => "2A"
    case L3 => "3" case L3A => "3A" case L4 => "4" case L4A => "4A"
  }

  /** The label a string spells, if any. */
  function Parse(s: string): (r: Option<Label>)
    ensures r.Some? ==> Text(r.value) == s
    ensures forall l: Label :: Text(l) == s ==> r == Some(l)
  {
    if s == "1" then Some(L1) else if s == "1A" then Some(L1A)
    else if s == "2" then Some(L2) else if s == "2A" then Some(L2A)
    else if s == "3" then Some(L3) else if s == "3A" then Some(L3A)
    else if s == "4" then Some(L4) else if s == "4A" then Some(L4A)
    else None
  }

  /** `new Set(labels)`. */
  function LabelSet(labels: seq<Label>): set<Label>
  {
    set l | l in labels
  }

  /** Spelling and parsing are inverse, so distinct labels have distinct spellings. */
  lemma ParseText(l: Label)
    ensures Parse(Text(l)) == Some(l)
  {
  }
}
