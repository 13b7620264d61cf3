/** What several modules share. */
module Wrappers {

  datatype Option<+T> = None | Some(value: T)

  /** A generated id that is not in use yet. */
  method FreshId(used: set<nat>) returns (n: nat)
    ensures n !in used
  {
    n := 0;
    var rest := used;
    while n in rest
      invariant forall k :: k in used && k !in rest ==> k < n
      invariant forall k :: k in rest ==> n <= k && k in used
      decreases |rest|
    {
      rest := rest - {n};
      n := n + 1;
    }
  }

  /** White space as Python's `str.isspace` has it. */
  predicate Blank(c: char)
  {
    c == ' ' || '\t' <= c <= '\r' || '\U{1c}' <= c <= '\U{1f}' || c == '\U{85}' || c == '\U{a0}' || c == '\U{1680}'
    || '\U{2000}' <= c <= '\U{200a}' || c == '\U{2028}' || c == '\U{2029}' || c == '\U{202f}' || c == '\U{205f}'
    || c == '\U{3000}'
  }
}
