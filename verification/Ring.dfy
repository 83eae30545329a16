/**
 Positions on a unidirectional ring of `n` places, where place `i` is connected
 to place `Next(n, i)`. Distances are counted along the ring, from 1 for the
 neighbour up to `n` for a full lap back to the start, so that no modulus appears.
 */
module Ring {

  function Next(n: nat, i: nat): (j: nat)
    requires i < n
    ensures j < n
  {
    if i + 1 == n then 0 else i + 1
  }

  /** The place reached from `i` after `d` hops, for at most one lap. */
  function At(n: nat, i: nat, d: nat): (j: nat)
    requires i < n && d <= n
    ensures j < n
  {
    if i + d < n then i + d else i + d - n
  }

  /** The number of hops, between 1 and `n`, that lead from `i` to `j`. */
  function Hops(n: nat, i: nat, j: nat): (d: nat)
    requires i < n && j < n
    ensures 1 <= d <= n && At(n, i, d) == j
    ensures d == n <==> i == j
    ensures forall e :: 1 <= e <= n && At(n, i, e) == j ==> e == d
  {
    if j > i then j - i else j + n - i
  }

  lemma HopsNext(n: nat, i: nat, j: nat)
    requires i < n && j < n
    ensures i != j ==> Hops(n, i, Next(n, j)) == Hops(n, i, j) + 1
    ensures i == j ==> Hops(n, i, Next(n, j)) == 1
  {
  }
}
