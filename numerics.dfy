/**
 The scalar and vector metrics of the network: the activation x * tanh(x), the
 error metric |a - b| * ln(|a - b| + 1) summed over positions, and the integer
 score that counts positions on the correct side of 0.5.

 `tanh` and `ln` are not defined here: they are carried by a `Math` value and
 constrained only by `Lawful`, which states the two facts the proofs use.
 */
module Numerics {

  /** The two transcendental functions the network calls (numpy's tanh and log). */
  datatype Math = Math(tanh: real -> real, ln: real -> real)

  /** What is assumed of them: tanh has the sign of its argument, and ln is
      positive above 1. */
  ghost predicate Lawful(m: Math) {
    (forall x :: x > 0.0 ==> m.tanh(x) > 0.0) &&
    (forall x :: x < 0.0 ==> m.tanh(x) < 0.0) &&
    (forall y :: y > 1.0 ==> m.ln(y) > 0.0)
  }

  function Abs(x: real): real {
    if x < 0.0 then -x else x
  }

  /** The activation applied to hidden and output units. */
  function Activate(m: Math, x: real): (y: real)
    ensures x == 0.0 ==> y == 0.0
    ensures Lawful(m) ==> y >= 0.0
    ensures Lawful(m) ==> (y == 0.0 <==> x == 0.0)
  {
    var t := m.tanh(x);
    assert Lawful(m) && x > 0.0 ==> x * t > 0.0;
    assert Lawful(m) && x < 0.0 ==> x * t > 0.0 by {
      if Lawful(m) && x < 0.0 {
        assert (-x) * (-t) > 0.0;
      }
    }
    x * t
  }

  /** The activation applied elementwise (numpy broadcasting over a vector). */
  function ActivateAll(m: Math, v: seq<real>): (r: seq<real>)
    ensures |r| == |v|
  {
    if |v| == 0 then [] else [Activate(m, v[0])] + ActivateAll(m, v[1..])
  }

  /** ActivateAll activates each element in its place. */
  lemma {:induction false} ActivateAllAt(m: Math, v: seq<real>, i: nat)
    requires i < |v|
    ensures ActivateAll(m, v)[i] == Activate(m, v[i])
  {
    if i > 0 {
      ActivateAllAt(m, v[1..], i - 1);
    }
  }

  /** One position's contribution to the error metric. */
  function ErrorTerm(m: Math, x: real, y: real): (e: real)
    ensures x == y ==> e == 0.0
    ensures Lawful(m) ==> e >= 0.0
    ensures Lawful(m) && x != y ==> e > 0.0
  {
    var d := Abs(x - y);
    assert Lawful(m) && x != y ==> d * m.ln(d + 1.0) > 0.0 by {
      if Lawful(m) && x != y {
        assert d > 0.0 && m.ln(d + 1.0) > 0.0;
      }
    }
    d * m.ln(d + 1.0)
  }

  /** The error metric of two equally long vectors: the sum of the terms. */
  function MSE(m: Math, a: seq<real>, b: seq<real>): (r: real)
    requires |a| == |b|
    ensures Lawful(m) ==> r >= 0.0
    decreases |a|
  {
    if |a| == 0 then 0.0
    else MSE(m, a[..|a| - 1], b[..|b| - 1]) + ErrorTerm(m, a[|a| - 1], b[|b| - 1])
  }

  /** A vector has no error against itself, whatever tanh and ln are. */
  lemma {:induction false} MSESelf(m: Math, a: seq<real>)
    ensures MSE(m, a, a) == 0.0
    decreases |a|
  {
    if |a| > 0 {
      MSESelf(m, a[..|a| - 1]);
    }
  }

  /** With lawful ln the error is zero exactly when the vectors are equal. */
  lemma {:induction false} MSEZeroIff(m: Math, a: seq<real>, b: seq<real>)
    requires Lawful(m) && |a| == |b|
    ensures MSE(m, a, b) == 0.0 <==> a == b
    decreases |a|
  {
    if |a| == 0 {
      assert a == b;
    } else {
      var n := |a| - 1;
      MSEZeroIff(m, a[..n], b[..n]);
      var rest, last := MSE(m, a[..n], b[..n]), ErrorTerm(m, a[n], b[n]);
      assert MSE(m, a, b) == rest + last;
      assert rest >= 0.0 && last >= 0.0;
      assert a == a[..n] + [a[n]] && b == b[..n] + [b[n]];
      assert a == b <==> a[..n] == b[..n] && a[n] == b[n];
    }
  }

  /** Whether one position counts as correct: (x - 0.5) * (2y - 1) > 0. */
  function Hit(x: real, y: real): (h: bool)
    ensures h ==> x != 0.5 && y != 0.5
    ensures y == 1.0 ==> (h <==> x > 0.5)
    ensures y == 0.0 ==> (h <==> x < 0.5)
  {
    (x - 0.5) * (y * 2.0 - 1.0) > 0.0
  }

  /** The number of positions where `a` is on the side of 0.5 that `b` asks for. */
  function Score(a: seq<real>, b: seq<real>): (r: nat)
    requires |a| == |b|
    ensures r <= |a|
    decreases |a|
  {
    if |a| == 0 then 0
    else
      var n := |a| - 1;
      Score(a[..n], b[..n]) + (if Hit(a[n], b[n]) then 1 else 0)
  }

  /** Full score exactly when every position counts. */
  lemma {:induction false} ScorePerfect(a: seq<real>, b: seq<real>)
    requires |a| == |b|
    ensures Score(a, b) == |a| <==> forall i :: 0 <= i < |a| ==> Hit(a[i], b[i])
    decreases |a|
  {
    if |a| > 0 {
      var n := |a| - 1;
      ScorePerfect(a[..n], b[..n]);
      assert forall i :: 0 <= i < n ==> a[..n][i] == a[i] && b[..n][i] == b[i];
    }
  }

  /** Zero score exactly when no position counts. */
  lemma {:induction false} ScoreZero(a: seq<real>, b: seq<real>)
    requires |a| == |b|
    ensures Score(a, b) == 0 <==> forall i :: 0 <= i < |a| ==> !Hit(a[i], b[i])
    decreases |a|
  {
    if |a| > 0 {
      var n := |a| - 1;
      ScoreZero(a[..n], b[..n]);
      assert forall i :: 0 <= i < n ==> a[..n][i] == a[i] && b[..n][i] == b[i];
    }
  }

  /** The positions that count. */
  ghost function Hits(a: seq<real>, b: seq<real>): set<nat>
    requires |a| == |b|
  {
    set i: nat | i < |a| && Hit(a[i], b[i])
  }

  /** Score is exactly the number of correct positions. */
  lemma {:induction false} ScoreCountsHits(a: seq<real>, b: seq<real>)
    requires |a| == |b|
    ensures Score(a, b) == |Hits(a, b)|
    decreases |a|
  {
    if |a| > 0 {
      var n := |a| - 1;
      ScoreCountsHits(a[..n], b[..n]);
      var before := Hits(a[..n], b[..n]);
      assert n !in before;
      if Hit(a[n], b[n]) {
        assert Hits(a, b) == before + {n};
      } else {
        assert Hits(a, b) == before;
      }
    }
  }

  /** A position where either side sits exactly at 0.5 never counts, so the
      score of a vector with such a position is below its length. */
  lemma {:induction false} ScoreSkipsTies(a: seq<real>, b: seq<real>, i: nat)
    requires |a| == |b| && i < |a| && (a[i] == 0.5 || b[i] == 0.5)
    ensures i !in Hits(a, b)
    ensures Score(a, b) <= |a| - 1
    decreases |a|
  {
    var n := |a| - 1;
    if i < n {
      ScoreSkipsTies(a[..n], b[..n], i);
    }
  }
}
