/** Sums of sequences of counts, shared by the analyzers that tally. */
module Sums {

  /** Sum of a sequence of counts. */
  function Total(a: seq<int>): int {
    if a == [] then 0 else Total(a[..|a| - 1]) + a[|a| - 1]
  }

  /** Adding d to one entry adds d to the sum. */
  lemma {:induction false} TotalUpdate(a: seq<int>, j: nat, d: int)
    requires j < |a|
    ensures Total(a[j := a[j] + d]) == Total(a) + d
  {
    var n := |a| - 1;
    var b := a[j := a[j] + d];
    if j < n {
      assert b[..n] == a[..n][j := a[j] + d];
      TotalUpdate(a[..n], j, d);
    } else {
      assert b[..n] == a[..n];
    }
  }

  /** A sequence of zeros sums to zero. */
  lemma {:induction false} TotalOfZeros(n: nat)
    ensures Total(seq(n, _ => 0)) == 0
  {
    if n > 0 {
      assert seq(n, _ => 0)[..n - 1] == seq(n - 1, _ => 0);
      TotalOfZeros(n - 1);
    }
  }
}
