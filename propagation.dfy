/**
 The network's values as pure functions: the quadrant layout of the link
 matrix, the forward pass that `DAGNN.Forward` performs in place, and the
 error and fitness that `DAGNN.Test` accumulates over the unit tests.

 A link matrix is a `seq<seq<real>>` with A + B rows (one per input and hidden
 unit) and B + C columns (one per hidden and output unit). Everything here is
 for one output unit (C == 1), the only size at which the forward pass is
 defined.
 */
module Propagation {
  import opened Numerics

  /** The four quadrant constants: input->hidden, input->output,
      hidden->hidden (above the diagonal) and hidden->output. */
  datatype Weights = Weights(w0: real, w1: real, w2: real, w3: real)

  /** One training example. */
  datatype UnitTest = UnitTest(inputs: seq<real>, outputs: seq<real>)

  ghost predicate Shaped(M: seq<seq<real>>, A: nat, B: nat, C: nat) {
    |M| == A + B && forall r :: 0 <= r < |M| ==> |M[r]| == B + C
  }

  /** Entry (r, c) may carry an edge: any input row, or a hidden row r sending
      to a hidden unit strictly after it, or to an output. */
  predicate Editable(A: nat, r: nat, c: nat) {
    r < A || c > r - A
  }

  /** No hidden unit sends to itself or to an earlier hidden unit. */
  ghost predicate Acyclic(M: seq<seq<real>>, A: nat) {
    forall r, c :: 0 <= r < |M| && 0 <= c < |M[r]| && !Editable(A, r, c) ==> M[r][c] == 0.0
  }

  /** The value that construction gives entry (r, c). */
  function LayoutEntry(w: Weights, A: nat, B: nat, r: nat, c: nat): real {
    if r < A then (if c < B then w.w0 else w.w1)
    else if c < B then (if c > r - A then w.w2 else 0.0)
    else w.w3
  }

  /** The link matrix as construction leaves it. */
  function Layout(w: Weights, A: nat, B: nat, C: nat): (M: seq<seq<real>>)
    ensures Shaped(M, A, B, C) && Acyclic(M, A)
  {
    seq(A + B, r requires 0 <= r < A + B =>
      seq(B + C, c requires 0 <= c < B + C => LayoutEntry(w, A, B, r, c)))
  }

  /** The all-zero matrix with the given numbers of rows and columns
      (numpy's zeros). */
  function Zeros(rows: nat, cols: nat): (M: seq<seq<real>>)
    ensures |M| == rows && forall r :: 0 <= r < rows ==> |M[r]| == cols
  {
    seq(rows, _ => seq(cols, _ => 0.0))
  }

  /** M with every entry in rows [r0, r1) and columns [c0, c1) set to v: the
      slice assignment M[r0:r1, c0:c1] = v. */
  function FillBlock(M: seq<seq<real>>, r0: nat, r1: nat, c0: nat, c1: nat, v: real): (R: seq<seq<real>>)
    ensures |R| == |M| && forall r :: 0 <= r < |M| ==> |R[r]| == |M[r]|
  {
    seq(|M|, r requires 0 <= r < |M| =>
      seq(|M[r]|, c requires 0 <= c < |M[r]| =>
        if r0 <= r < r1 && c0 <= c < c1 then v else M[r][c]))
  }

  /** M with its n x n block at rows r0.. and columns 0.. replaced by
      triu(full((n, n), v), k=1): v strictly above the block's diagonal,
      0 on and below it. */
  function FillUpper(M: seq<seq<real>>, r0: nat, n: nat, v: real): (R: seq<seq<real>>)
    ensures |R| == |M| && forall r :: 0 <= r < |M| ==> |R[r]| == |M[r]|
  {
    seq(|M|, r requires 0 <= r < |M| =>
      seq(|M[r]|, c requires 0 <= c < |M[r]| =>
        if r0 <= r < r0 + n && c < n then (if c > r - r0 then v else 0.0) else M[r][c]))
  }

  /** The four quadrant assignments of construction, applied in order to a
      zero matrix, give the layout. */
  function Quadrants(w: Weights, A: nat, B: nat, C: nat): (M: seq<seq<real>>)
    ensures |M| == A + B && forall r :: 0 <= r < A + B ==> |M[r]| == B + C
  {
    var M0 := Zeros(A + B, B + C);
    var M1 := FillBlock(M0, 0, A, 0, B, w.w0);
    var M2 := FillBlock(M1, 0, A, B, B + C, w.w1);
    var M3 := FillUpper(M2, A, B, w.w2);
    FillBlock(M3, A, A + B, B, B + C, w.w3)
  }

  /** Filling the quadrants one after another yields exactly the layout, so
      the matrix is shaped and acyclic from the start. */
  lemma QuadrantsAreLayout(w: Weights, A: nat, B: nat, C: nat)
    ensures Quadrants(w, A, B, C) == Layout(w, A, B, C)
    ensures Shaped(Quadrants(w, A, B, C), A, B, C) && Acyclic(Quadrants(w, A, B, C), A)
  {
    var Q, L := Quadrants(w, A, B, C), Layout(w, A, B, C);
    forall r | 0 <= r < A + B
      ensures Q[r] == L[r]
    {
      assert forall c :: 0 <= c < B + C ==> Q[r][c] == L[r][c];
    }
  }

  /** Hidden or output unit c's share of the inputs x: sum of x[r] * M[r][c]. */
  function Column(x: seq<real>, M: seq<seq<real>>, c: nat): real
    requires |x| <= |M| && forall r :: 0 <= r < |x| ==> c < |M[r]|
    decreases |x|
  {
    if |x| == 0 then 0.0
    else Column(x[..|x| - 1], M, c) + x[|x| - 1] * M[|x| - 1][c]
  }

  /** The row vector x times the first |x| rows of M, of width w. */
  function Seed(x: seq<real>, M: seq<seq<real>>, w: nat): (r: seq<real>)
    requires |x| <= |M| && forall q :: 0 <= q < |x| ==> w <= |M[q]|
    ensures |r| == w
  {
    if w == 0 then [] else Seed(x, M, w - 1) + [Column(x, M, w - 1)]
  }

  /** Entry c of the seed is column c's input sum. */
  lemma {:induction false} SeedAt(x: seq<real>, M: seq<seq<real>>, w: nat, c: nat)
    requires |x| <= |M| && forall q :: 0 <= q < |x| ==> w <= |M[q]|
    requires c < w
    ensures Seed(x, M, w)[c] == Column(x, M, c)
  {
    if c < w - 1 {
      SeedAt(x, M, w - 1, c);
    }
  }

  /** The vector v * row. */
  function Scale(v: real, row: seq<real>): (r: seq<real>)
    ensures |r| == |row|
  {
    if |row| == 0 then [] else [v * row[0]] + Scale(v, row[1..])
  }

  lemma {:induction false} ScaleAt(v: real, row: seq<real>, c: nat)
    requires c < |row|
    ensures Scale(v, row)[c] == v * row[c]
  {
    if c > 0 {
      ScaleAt(v, row[1..], c - 1);
    }
  }

  /** The elementwise sum of two equally long vectors. */
  function Plus(a: seq<real>, b: seq<real>): (r: seq<real>)
    requires |a| == |b|
    ensures |r| == |a|
  {
    if |a| == 0 then [] else [a[0] + b[0]] + Plus(a[1..], b[1..])
  }

  lemma {:induction false} PlusAt(a: seq<real>, b: seq<real>, c: nat)
    requires |a| == |b| && c < |a|
    ensures Plus(a, b)[c] == a[c] + b[c]
  {
    if c > 0 {
      PlusAt(a[1..], b[1..], c - 1);
    }
  }

  /** Turn i of the hidden loop over a node list s of A + |M[A + i]|
      slots: slot j = A + i is activated, and every later slot q receives the
      activated value times link (j, q - A); the slots before j stay. */
  function Step(m: Math, M: seq<seq<real>>, A: nat, s: seq<real>, i: nat): (r: seq<real>)
    requires A + i < |M| && i < |M[A + i]| && |s| == A + |M[A + i]|
    ensures |r| == |s|
  {
    var j := A + i;
    var v := Activate(m, s[j]);
    seq(|s|, q requires 0 <= q < |s| =>
      if q < j then s[q] else if q == j then v else s[q] + v * M[j][q - A])
  }

  /** Turn i as the statements perform it: activate slot j = A + i, then
      take the tail after it, add the activated value times the links
      M[j][i + 1..] into it elementwise, and write it back. (On a list tail,
      `+=` with a numpy vector on the right is numpy's elementwise addition,
      not list concatenation.) */
  lemma StepBySlices(m: Math, M: seq<seq<real>>, A: nat, s: seq<real>, i: nat)
    requires A + i < |M| && i < |M[A + i]| && |s| == A + |M[A + i]|
    ensures var j := A + i;
      var t := s[j := Activate(m, s[j])];
      t[..j + 1] + Plus(t[j + 1..], Scale(t[j], M[j][i + 1..])) == Step(m, M, A, s, i)
  {
    var j := A + i;
    var t := s[j := Activate(m, s[j])];
    var tail := Plus(t[j + 1..], Scale(t[j], M[j][i + 1..]));
    var r := t[..j + 1] + tail;
    assert |r| == |s|;
    assert forall q :: 0 <= q <= j ==> r[q] == t[q];
    forall q | j < q < |s|
      ensures r[q] == Step(m, M, A, s, i)[q]
    {
      assert r[q] == tail[q - j - 1];
      PlusAt(t[j + 1..], Scale(t[j], M[j][i + 1..]), q - j - 1);
      ScaleAt(t[j], M[j][i + 1..], q - j - 1);
    }
  }

  /** The node list after the first n hidden units have been processed. */
  function Propagate(m: Math, M: seq<seq<real>>, A: nat, B: nat, s: seq<real>, n: nat): (r: seq<real>)
    requires Shaped(M, A, B, 1) && n <= B && |s| == A + B + 1
    ensures |r| == |s|
  {
    if n == 0 then s
    else Step(m, M, A, Propagate(m, M, A, B, s, n - 1), n - 1)
  }

  /** The node list after a forward pass over inputs x: seed the hidden and
      output units from the inputs, run the hidden loop, activate the output. */
  function ForwardNodes(m: Math, M: seq<seq<real>>, A: nat, B: nat, x: seq<real>): (r: seq<real>)
    requires Shaped(M, A, B, 1) && |x| == A
    ensures |r| == A + B + 1
  {
    var p := Propagate(m, M, A, B, x + Seed(x, M, B + 1), B);
    p[|p| - 1 := Activate(m, p[|p| - 1])]
  }

  /** The statements after the hidden loop: with c == 1 outputs, activating
      the last c elements of the loop's result as a vector activates its last
      element, which completes the pass. */
  lemma FinishPass(m: Math, M: seq<seq<real>>, A: nat, B: nat, x: seq<real>, p: seq<real>, c: nat)
    requires Shaped(M, A, B, 1) && |x| == A && c == 1
    requires p == Propagate(m, M, A, B, x + Seed(x, M, B + 1), B)
    ensures |p| == A + B + 1
    ensures p[..|p| - c] + ActivateAll(m, p[|p| - c..]) == ForwardNodes(m, M, A, B, x)
  {
    ActivateAllAt(m, p[|p| - c..], 0);
    assert p[..|p| - c] + ActivateAll(m, p[|p| - c..]) == p[|p| - 1 := Activate(m, p[|p| - 1])];
  }

  /** The output segment nodes[-1:] of a node list. */
  function Output(p: seq<real>): seq<real>
    requires |p| >= 1
  {
    p[|p| - 1..]
  }

  /** The pass as a topological evaluation of the graph, defined without
      reference to the node list. Inflow(c, n) is what unit A + c has
      received once hidden units 0 .. n - 1 have sent: its input sum plus
      each of those units' activated value times its link to A + c. */
  function Inflow(m: Math, M: seq<seq<real>>, A: nat, B: nat, x: seq<real>, c: nat, n: nat): real
    requires Shaped(M, A, B, 1) && |x| == A && n <= c <= B
    decreases n, 0
  {
    if n == 0 then Column(x, M, c)
    else Inflow(m, M, A, B, x, c, n - 1) + Hidden(m, M, A, B, x, n - 1) * M[A + n - 1][c]
  }

  /** Hidden unit i's final value: the activation of everything the inputs
      and the hidden units before it send it. */
  function Hidden(m: Math, M: seq<seq<real>>, A: nat, B: nat, x: seq<real>, i: nat): real
    requires Shaped(M, A, B, 1) && |x| == A && i < B
    decreases i, 1
  {
    Activate(m, Inflow(m, M, A, B, x, i, i))
  }

  /** What reaches the output unit before its activation: its input sum plus
      every hidden unit's contribution. */
  function OutputInflow(m: Math, M: seq<seq<real>>, A: nat, B: nat, x: seq<real>): real
    requires Shaped(M, A, B, 1) && |x| == A
  {
    Inflow(m, M, A, B, x, B, B)
  }

  /** Slot q after n turns of the hidden loop, by the topological values:
      an input, a finished hidden unit, or what a later unit has received so
      far. */
  function Slot(m: Math, M: seq<seq<real>>, A: nat, B: nat, x: seq<real>, n: nat, q: nat): real
    requires Shaped(M, A, B, 1) && |x| == A && n <= B && q < A + B + 1
  {
    if q < A then x[q]
    else if q < A + n then Hidden(m, M, A, B, x, q - A)
    else Inflow(m, M, A, B, x, q - A, n)
  }

  /** Turn n takes a list holding the slots after n turns to the slots
      after n + 1, at each position q. */
  lemma StepSlot(m: Math, M: seq<seq<real>>, A: nat, B: nat, x: seq<real>, n: nat, p: seq<real>, q: nat)
    requires Shaped(M, A, B, 1) && |x| == A && n < B && |p| == A + B + 1 && q < |p|
    requires forall r :: 0 <= r < |p| ==> p[r] == Slot(m, M, A, B, x, n, r)
    ensures Step(m, M, A, p, n)[q] == Slot(m, M, A, B, x, n + 1, q)
  {
    assert |M[A + n]| == B + 1;
    var j := A + n;
    assert p[j] == Inflow(m, M, A, B, x, n, n);
    if q == j {
      assert Activate(m, p[j]) == Hidden(m, M, A, B, x, n);
    } else if q > j {
      assert Inflow(m, M, A, B, x, q - A, n + 1) ==
        Inflow(m, M, A, B, x, q - A, n) + Hidden(m, M, A, B, x, n) * M[j][q - A];
    }
  }

  /** After n turns of the hidden loop the inputs are untouched, hidden
      units 0 .. n - 1 hold their final (activated) values, and every later
      unit holds what it has received so far, not yet activated. */
  lemma {:induction false} PropagateSlots(m: Math, M: seq<seq<real>>, A: nat, B: nat, x: seq<real>, n: nat)
    requires Shaped(M, A, B, 1) && |x| == A && n <= B
    ensures var p := Propagate(m, M, A, B, x + Seed(x, M, B + 1), n);
      forall q :: 0 <= q < |p| ==> p[q] == Slot(m, M, A, B, x, n, q)
  {
    var s := x + Seed(x, M, B + 1);
    if n == 0 {
      forall q | A <= q < |s|
        ensures s[q] == Column(x, M, q - A)
      {
        SeedAt(x, M, B + 1, q - A);
      }
    } else {
      PropagateSlots(m, M, A, B, x, n - 1);
      var p := Propagate(m, M, A, B, s, n - 1);
      forall q | 0 <= q < |s|
        ensures Step(m, M, A, p, n - 1)[q] == Slot(m, M, A, B, x, n, q)
      {
        StepSlot(m, M, A, B, x, n - 1, p, q);
      }
    }
  }

  /** A forward pass never changes the input segment. */
  lemma ForwardKeepsInputs(m: Math, M: seq<seq<real>>, A: nat, B: nat, x: seq<real>)
    requires Shaped(M, A, B, 1) && |x| == A
    ensures ForwardNodes(m, M, A, B, x)[..A] == x
  {
    PropagateSlots(m, M, A, B, x, B);
    var p := Propagate(m, M, A, B, x + Seed(x, M, B + 1), B);
    var f := ForwardNodes(m, M, A, B, x);
    forall q | 0 <= q < A
      ensures f[q] == x[q]
    {
      assert p[q] == Slot(m, M, A, B, x, B, q);
      assert f[q] == p[q];
    }
  }

  /** Each hidden unit ends with its topological value. */
  lemma ForwardHidden(m: Math, M: seq<seq<real>>, A: nat, B: nat, x: seq<real>, i: nat)
    requires Shaped(M, A, B, 1) && |x| == A && i < B
    ensures ForwardNodes(m, M, A, B, x)[A + i] == Hidden(m, M, A, B, x, i)
  {
    PropagateSlots(m, M, A, B, x, B);
    var p := Propagate(m, M, A, B, x + Seed(x, M, B + 1), B);
    assert p[A + i] == Slot(m, M, A, B, x, B, A + i);
    assert ForwardNodes(m, M, A, B, x)[A + i] == p[A + i];
  }

  /** The output segment of a pass is the activated last element of the node
      list after the hidden loop. */
  lemma OutputOfLast(m: Math, M: seq<seq<real>>, A: nat, B: nat, x: seq<real>)
    requires Shaped(M, A, B, 1) && |x| == A
    ensures var p := Propagate(m, M, A, B, x + Seed(x, M, B + 1), B);
      Output(ForwardNodes(m, M, A, B, x)) == [Activate(m, p[|p| - 1])]
  {
    var f := ForwardNodes(m, M, A, B, x);
    assert Output(f) == [f[|f| - 1]];
  }

  /** The single output of a pass is the activation of everything the inputs
      and all hidden units send it. */
  lemma ForwardOutput(m: Math, M: seq<seq<real>>, A: nat, B: nat, x: seq<real>)
    requires Shaped(M, A, B, 1) && |x| == A
    ensures Output(ForwardNodes(m, M, A, B, x)) == [Activate(m, OutputInflow(m, M, A, B, x))]
  {
    OutputOfLast(m, M, A, B, x);
    PropagateSlots(m, M, A, B, x, B);
  }

  /** A second pass over the node list a pass leaves behind gives the same list. */
  lemma ForwardRepeatable(m: Math, M: seq<seq<real>>, A: nat, B: nat, x: seq<real>)
    requires Shaped(M, A, B, 1) && |x| == A
    ensures var p := ForwardNodes(m, M, A, B, x);
      ForwardNodes(m, M, A, B, p[..A]) == p
  {
    ForwardKeepsInputs(m, M, A, B, x);
  }

  ghost predicate Fits(tests: seq<UnitTest>, A: nat, C: nat) {
    forall i :: 0 <= i < |tests| ==> |tests[i].inputs| == A && |tests[i].outputs| == C
  }

  /** The value the single output unit ends with after a pass over x. */
  function OutputValue(m: Math, M: seq<seq<real>>, A: nat, B: nat, x: seq<real>): real
    requires Shaped(M, A, B, 1) && |x| == A
  {
    Activate(m, OutputInflow(m, M, A, B, x))
  }

  /** Error added by one example's forward pass. */
  function ExampleError(m: Math, M: seq<seq<real>>, A: nat, B: nat, t: UnitTest): (e: real)
    requires Shaped(M, A, B, 1) && |t.inputs| == A && |t.outputs| == 1
    ensures Lawful(m) ==> e >= 0.0
  {
    MSE(m, [OutputValue(m, M, A, B, t.inputs)], t.outputs)
  }

  /** Fitness added by one example's forward pass. */
  function ExampleScore(m: Math, M: seq<seq<real>>, A: nat, B: nat, t: UnitTest): (f: nat)
    requires Shaped(M, A, B, 1) && |t.inputs| == A && |t.outputs| == 1
    ensures f <= 1
    ensures f == 1 <==> Hit(OutputValue(m, M, A, B, t.inputs), t.outputs[0])
  {
    var out := [OutputValue(m, M, A, B, t.inputs)];
    ScorePerfect(out, t.outputs);
    Score(out, t.outputs)
  }

  /** Error summed over the first n examples, in list order. */
  function TotalError(m: Math, M: seq<seq<real>>, A: nat, B: nat, tests: seq<UnitTest>, n: nat): (e: real)
    requires Shaped(M, A, B, 1) && Fits(tests, A, 1) && n <= |tests|
    ensures Lawful(m) ==> e >= 0.0
  {
    if n == 0 then 0.0
    else TotalError(m, M, A, B, tests, n - 1) + ExampleError(m, M, A, B, tests[n - 1])
  }

  /** Fitness summed over the first n examples: one per correctly scored example. */
  function TotalScore(m: Math, M: seq<seq<real>>, A: nat, B: nat, tests: seq<UnitTest>, n: nat): (f: nat)
    requires Shaped(M, A, B, 1) && Fits(tests, A, 1) && n <= |tests|
    ensures f <= n
  {
    if n == 0 then 0
    else TotalScore(m, M, A, B, tests, n - 1) + ExampleScore(m, M, A, B, tests[n - 1])
  }

  /** e and f are the error and fitness totals of the first n examples under M. */
  ghost predicate Totals(m: Math, M: seq<seq<real>>, A: nat, B: nat, tests: seq<UnitTest>, n: nat, e: real, f: nat) {
    Shaped(M, A, B, 1) && Fits(tests, A, 1) && n <= |tests| &&
    e == TotalError(m, M, A, B, tests, n) && f == TotalScore(m, M, A, B, tests, n)
  }

  /** The 2-1-1 network with weights (0, 0, 0, 1), input [1, 0] and target [0]:
      output 0, so no error and one point of fitness, whatever tanh and ln are. */
  lemma GoldenExample(m: Math)
    ensures var M := Layout(Weights(0.0, 0.0, 0.0, 1.0), 2, 1, 1);
      var t := UnitTest([1.0, 0.0], [0.0]);
      Output(ForwardNodes(m, M, 2, 1, t.inputs)) == [0.0] &&
      ExampleError(m, M, 2, 1, t) == 0.0 && ExampleScore(m, M, 2, 1, t) == 1
  {
    var M := Layout(Weights(0.0, 0.0, 0.0, 1.0), 2, 1, 1);
    var x := [1.0, 0.0];
    assert M[0][0] == 0.0 && M[1][0] == 0.0 && M[0][1] == 0.0 && M[1][1] == 0.0;
    assert x[..1] == [1.0] && [1.0][..0] == [];
    assert Column(x, M, 0) == 0.0 && Column(x, M, 1) == 0.0;
    assert OutputInflow(m, M, 2, 1, x) == 0.0;
    ForwardOutput(m, M, 2, 1, x);
    MSESelf(m, [0.0]);
  }

  /** The 1-1-1 network with weights (0, 1, 0, 1) on input [1]: the input's
      link to the output reaches it through the hidden loop, so the output is
      the activation of 1 and the list keeps its three slots. */
  lemma DirectLinkExample(m: Math)
    ensures var M := Layout(Weights(0.0, 1.0, 0.0, 1.0), 1, 1, 1);
      var p := ForwardNodes(m, M, 1, 1, [1.0]);
      |p| == 3 && Output(p) == [Activate(m, 1.0)] &&
      (ExampleScore(m, M, 1, 1, UnitTest([1.0], [1.0])) == 1 <==> m.tanh(1.0) > 0.5)
  {
    var M := Layout(Weights(0.0, 1.0, 0.0, 1.0), 1, 1, 1);
    var x := [1.0];
    assert M[0][0] == 0.0 && M[0][1] == 1.0 && M[1][1] == 1.0;
    assert x[..0] == [];
    assert Column(x, M, 0) == 0.0 && Column(x, M, 1) == 1.0;
    assert OutputInflow(m, M, 1, 1, x) == 1.0;
    ForwardOutput(m, M, 1, 1, x);
  }

  /** A chain input -> hidden 0 -> hidden 1 -> output with unit links:
      the hidden loop evaluates it in order, so the output is the activation
      applied three times. */
  lemma ChainExample(m: Math)
    ensures var M := [[1.0, 0.0, 0.0], [0.0, 1.0, 0.0], [0.0, 0.0, 1.0]];
      Shaped(M, 1, 2, 1) && Acyclic(M, 1) &&
      Output(ForwardNodes(m, M, 1, 2, [1.0])) == [Activate(m, Activate(m, Activate(m, 1.0)))]
  {
    var M := [[1.0, 0.0, 0.0], [0.0, 1.0, 0.0], [0.0, 0.0, 1.0]];
    assert Shaped(M, 1, 2, 1);
    assert Acyclic(M, 1) by {
      assert M[1][0] == 0.0 && M[2][0] == 0.0 && M[2][1] == 0.0;
    }
    var x := [1.0];
    assert x[..0] == [];
    assert Column(x, M, 0) == 1.0 && Column(x, M, 1) == 0.0 && Column(x, M, 2) == 0.0;
    var h0 := Hidden(m, M, 1, 2, x, 0);
    assert h0 == Activate(m, 1.0);
    assert Inflow(m, M, 1, 2, x, 1, 1) == h0;
    assert Inflow(m, M, 1, 2, x, 2, 1) == 0.0;
    assert OutputInflow(m, M, 1, 2, x) == Hidden(m, M, 1, 2, x, 1);
    ForwardOutput(m, M, 1, 2, x);
  }
}
