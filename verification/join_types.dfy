/** The `Display` text of a join kind, as it appears in `<kind> join`. */
module JoinTypes {
  import opened Wrappers
  import opened QueryTypes

  function Display(j: JoinType): string {
    match j
    case Inner => "inner"
    case Left => "left"
    case Right => "right"
  }

  /** Reads a join kind back from its text. */
  function Parse(s: string): Option<JoinType> {
    if s == "inner" then Some(Inner)
    else if s == "left" then Some(Left)
    else if s == "right" then Some(Right)
    else None
  }

  /** The join kind is recoverable from its text. */
  lemma ParseDisplay(j: JoinType)
    ensures Parse(Display(j)) == Some(j)
  {
  }

  /** The three renderings are distinct. */
  lemma DisplayInjective(a: JoinType, b: JoinType)
    requires Display(a) == Display(b)
    ensures a == b
  {
    ParseDisplay(a);
    ParseDisplay(b);
  }
}
