/**
 The pieces of the single-weight search that `DAGNN.Learn` runs: the random
 draw of a candidate edge, the change of one link, the learning-rate
 adaptation and the continuation test.
 */
module Search {
  import opened Numerics
  import opened Propagation

  /** The random stream: randint(n, lo, hi) is what the n-th call of numpy's
      randint(lo, hi) returns. */
  type Randint = (nat, int, int) -> int

  /** randint draws from the half-open range [lo, hi) whenever it is non-empty. */
  ghost predicate IsRandint(randint: Randint) {
    forall n: nat, lo: int, hi: int :: lo < hi ==> lo <= randint(n, lo, hi) < hi
  }

  /** The lower end max(0, j - A + 1) of the column range for row j. */
  function LowK(A: nat, j: nat): nat {
    if j + 1 > A then j + 1 - A else 0
  }

  /** With at least one output, the column range [LowK(A, j), B + C) of a row
      j < A + B is never empty, and every column in it may carry an edge. */
  lemma CandidateRange(A: nat, B: nat, C: nat, j: nat)
    requires C >= 1 && j < A + B
    ensures LowK(A, j) < B + C
    ensures forall k :: LowK(A, j) <= k < B + C ==> Editable(A, j, k)
  {
  }

  /** M with entry (j, k) moved by d. */
  function Nudge(M: seq<seq<real>>, j: nat, k: nat, d: real): (r: seq<seq<real>>)
    requires j < |M| && k < |M[j]|
    ensures |r| == |M| && forall q :: 0 <= q < |M| ==> |r[q]| == |M[q]|
  {
    M[j := M[j][k := M[j][k] + d]]
  }

  /** Entry (j, k) moves by d and every other entry stays. */
  lemma NudgeEntries(M: seq<seq<real>>, j: nat, k: nat, d: real)
    requires j < |M| && k < |M[j]|
    ensures var r := Nudge(M, j, k, d);
      forall q, c :: 0 <= q < |M| && 0 <= c < |M[q]| ==>
        r[q][c] == if q == j && c == k then M[q][c] + d else M[q][c]
  {
  }

  /** M after the commit of a generation: entry (j, k) moved by lr in the
      direction of the gradient estimate. */
  function Committed(M: seq<seq<real>>, j: nat, k: nat, lr: real, gradient: real): seq<seq<real>>
    requires j < |M| && k < |M[j]|
  {
    Nudge(M, j, k, lr * Direction(gradient))
  }

  /** Taking back a change restores the matrix. */
  lemma NudgeUndo(M: seq<seq<real>>, j: nat, k: nat, d: real)
    requires j < |M| && k < |M[j]|
    ensures Nudge(Nudge(M, j, k, d), j, k, -d) == M
  {
    var R := Nudge(Nudge(M, j, k, d), j, k, -d);
    NudgeEntries(M, j, k, d);
    NudgeEntries(Nudge(M, j, k, d), j, k, -d);
    assert forall q | 0 <= q < |M| :: R[q] == M[q];
  }

  /** A gradient estimate: the drop in error from `before` to `after` per
      unit of change lr. */
  function Gradient(before: real, after: real, lr: real): (g: real)
    requires lr > 0.0
    ensures g >= 0.0 <==> after <= before
  {
    assert before - after == (before - after) / lr * lr;
    (before - after) / lr
  }

  /** The gradient estimate from a probe of M + lr at (j, k) against a
      baseline error `before`. */
  function ProbeGradient(m: Math, M: seq<seq<real>>, A: nat, B: nat, tests: seq<UnitTest>,
                         j: nat, k: nat, lr: real, before: real): real
    requires Shaped(M, A, B, 1) && Fits(tests, A, 1) && j < |M| && k < |M[j]| && lr > 0.0
  {
    Gradient(before, TotalError(m, Nudge(M, j, k, lr), A, B, tests, |tests|), lr)
  }

  /** The commit of a generation with the probe's gradient estimate changes
      exactly entry (j, k), by exactly lr: up when the probe's error is at
      most the baseline, down when it is above. */
  lemma CommitChangesOneEntry(m: Math, M: seq<seq<real>>, A: nat, B: nat, tests: seq<UnitTest>,
                                 j: nat, k: nat, lr: real, before: real)
    requires Shaped(M, A, B, 1) && Fits(tests, A, 1) && j < |M| && k < |M[j]| && lr > 0.0
    ensures var R := Committed(M, j, k, lr, ProbeGradient(m, M, A, B, tests, j, k, lr, before));
      var probe := TotalError(m, Nudge(M, j, k, lr), A, B, tests, |tests|);
      Shaped(R, A, B, 1) &&
      (forall q, c :: 0 <= q < |M| && 0 <= c < |M[q]| && (q != j || c != k) ==> R[q][c] == M[q][c]) &&
      (R[j][k] == M[j][k] + lr <==> probe <= before) &&
      (R[j][k] == M[j][k] - lr <==> probe > before)
  {
    var g := ProbeGradient(m, M, A, B, tests, j, k, lr, before);
    NudgeEntries(M, j, k, lr * Direction(g));
  }

  /** Moving an entry that may carry an edge keeps the shape and acyclicity. */
  lemma NudgeKeepsAcyclic(M: seq<seq<real>>, A: nat, B: nat, C: nat, j: nat, k: nat, d: real)
    requires Shaped(M, A, B, C) && Acyclic(M, A)
    requires j < |M| && k < |M[j]| && Editable(A, j, k)
    ensures Shaped(Nudge(M, j, k, d), A, B, C) && Acyclic(Nudge(M, j, k, d), A)
  {
    NudgeEntries(M, j, k, d);
  }

  /** The committed direction: up unless the gradient estimate is negative. */
  function Direction(gradient: real): (s: real)
    ensures s == 1.0 || s == -1.0
    ensures s == 1.0 <==> gradient >= 0.0
  {
    if gradient < 0.0 then -1.0 else 1.0
  }

  /** The learning rate after a generation: x 1.1 after an improvement;
      otherwise back down to the initial rate if above it, else / 1.1. */
  function AdaptRate(rate: real, initial: real, improved: bool): (r: real)
    ensures improved ==> r == rate * 1.1
    ensures !improved && rate > 0.0 ==> r <= initial && r < rate
    ensures rate > 0.0 && initial > 0.0 ==> r > 0.0
  {
    if improved then rate * 1.1
    else if rate > initial then initial + 0.0
    else rate / 1.1
  }

  /** Whether learning starts: fitness short of the example count or, when
      minimising error, full fitness with error above the threshold. */
  function StartCondition(minimizeError: bool, fitness: nat, error: real, n: nat, threshold: real): bool {
    if minimizeError then fitness == n && error > threshold else fitness < n
  }
}
