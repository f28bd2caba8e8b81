/** Arrays that consist of blocks of equal length. */
module Indexing {

  /** Length of n blocks of w elements. */
  function Blocks(n: nat, w: nat): nat { if n == 0 then 0 else Blocks(n - 1, w) + w }

  lemma {:induction false} BlocksAre(n: nat, w: nat)
    ensures Blocks(n, w) == n * w
  {
    if n > 0 { BlocksAre(n - 1, w); }
  }

  /** Position r of block p, blocks being w elements long. */
  function Position(p: nat, r: nat, w: nat): nat { Blocks(p, w) + r }

  lemma {:induction false} BlockBound(p: nat, r: nat, n: nat, w: nat)
    requires p < n && r < w
    ensures Position(p, r, w) < Blocks(n, w)
    decreases n
  {
    if p < n - 1 { BlockBound(p, r, n - 1, w); }
  }

  lemma BlocksDisjoint(p: nat, r: nat, q: nat, s: nat, w: nat)
    requires r < w && s < w && Position(p, r, w) == Position(q, s, w)
    ensures p == q && r == s
  {
    if p < q {
      BlockBound(p, r, q, w);
    } else if q < p {
      BlockBound(q, s, p, w);
    }
  }

  lemma {:induction false} BlocksMonotone(m: nat, n: nat, w: nat)
    requires m <= n
    ensures Blocks(m, w) <= Blocks(n, w)
    decreases n
  {
    if m < n { BlocksMonotone(m, n - 1, w); }
  }

  lemma PositionIs(p: nat, r: nat, w: nat)
    ensures Position(p, r, w) == p * w + r
  {
    BlocksAre(p, w);
  }

  /** Quotient and remainder of a position. */
  lemma {:induction false} Split(x: nat, n: nat, w: nat) returns (p: nat, r: nat)
    requires x < Blocks(n, w)
    ensures p < n && r < w && x == Position(p, r, w)
  {
    if x < Blocks(n - 1, w) { p, r := Split(x, n - 1, w); } else { p, r := n - 1, x - Blocks(n - 1, w); }
  }
}
