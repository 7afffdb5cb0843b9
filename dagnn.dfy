/**
 The network object: its sizes, node list, expected output, link matrix,
 metrics and learning parameters, and the methods that update them in place.
 Each method is specified by the pure functions of `Propagation` and `Search`.
 */
module Dagnn {
  import opened Numerics
  import opened Propagation
  import opened Search

  class DAGNN {
    /** Numbers of input, hidden and output units. */
    const A: nat
    const B: nat
    const C: nat
    /** The tanh and ln the network computes with. */
    const math: Math
    var nodes: seq<real>
    var expectedOutput: seq<real>
    var error: real
    var fitness: nat
    var maxGenerations: nat
    var unitTests: seq<UnitTest>
    var learningRate: real
    var threshold: real
    /** The quadrant constants the links start from. */
    var weights: Weights
    /** (A + B) x (B + C) weights; row r is unit r's outgoing links, column c
        leads into unit A + c. */
    var links: seq<seq<real>>

    /** The shapes every method relies on: the link matrix is
        (A + B) x (B + C), the node list holds one slot per unit, and the
        expected output has one value per output unit. */
    ghost predicate Valid()
      reads this`links, this`nodes, this`expectedOutput
    {
      Shaped(links, A, B, C) && |nodes| == A + B + C && |expectedOutput| == C
    }

    /** A fresh network: zero nodes, zero metrics, the default parameters and
        the four-quadrant link layout with a strictly upper-triangular
        hidden->hidden block. */
    constructor (A: nat, B: nat, C: nat, math: Math)
      ensures this.A == A && this.B == B && this.C == C && this.math == math
      ensures nodes == seq(A + B + C, _ => 0.0) && expectedOutput == seq(C, _ => 0.0)
      ensures error == 0.0 && fitness == 0
      ensures maxGenerations == 10000 && unitTests == [] && learningRate == 0.01 && threshold == 2.0
      ensures weights == Weights(0.0, 0.0, 0.0, 1.0)
      ensures links == Layout(weights, A, B, C)
      ensures Valid() && Acyclic(links, A)
    {
      this.A, this.B, this.C, this.math := A, B, C, math;
      nodes := seq(A + B + C, _ => 0.0);
      expectedOutput := seq(C, _ => 0.0);
      error, fitness := 0.0, 0;
      maxGenerations := 10000;
      unitTests := [];
      learningRate := 0.01;
      threshold := 2.0;
      weights := Weights(0.0, 0.0, 0.0, 1.0);
      new;
      links := Zeros(A + B, B + C);
      links := FillBlock(links, 0, A, 0, B, weights.w0);
      links := FillBlock(links, 0, A, B, B + C, weights.w1);
      links := FillUpper(links, A, B, weights.w2);
      links := FillBlock(links, A, A + B, B, B + C, weights.w3);
      QuadrantsAreLayout(weights, A, B, C);
    }

    /** One forward pass over the inputs now in nodes[..A], accumulated into
        error and fitness against expectedOutput. */
    method Forward()
      requires Valid() && C == 1
      modifies this`nodes, this`error, this`fitness
      ensures Valid()
      ensures nodes == ForwardNodes(math, links, A, B, old(nodes[..A]))
      ensures error == old(error) + MSE(math, Output(nodes), expectedOutput)
      ensures fitness == old(fitness) + Score(Output(nodes), expectedOutput)
    {
      Pass();
      var outputs := nodes[|nodes| - C..];
      error := error + MSE(math, outputs, expectedOutput);
      fitness := fitness + Score(outputs, expectedOutput);
    }

    /** The node-list part of Forward: seed the hidden and output slots from
        the inputs, run the hidden loop, activate the output. */
    method Pass()
      requires Valid() && C == 1
      modifies this`nodes
      ensures Valid()
      ensures nodes == ForwardNodes(math, links, A, B, old(nodes[..A]))
    {
      ghost var x := nodes[..A];
      nodes := nodes[..A] + Seed(nodes[..A], links, B + C);
      HiddenLoop(links);
      FinishPass(math, links, A, B, x, nodes, C);
      nodes := nodes[..|nodes| - C] + ActivateAll(math, nodes[|nodes| - C..]);
    }

    /** The loop over the hidden units, one turn per element of the slice
        nodes[A:-1]. */
    method HiddenLoop(ghost M: seq<seq<real>>)
      requires M == links && Shaped(M, A, B, 1) && |nodes| == A + B + 1
      modifies this`nodes
      ensures nodes == Propagate(math, M, A, B, old(nodes), B)
    {
      ghost var seeded := nodes;
      var count := |nodes| - 1 - A;
      var i := 0;
      while i < count
        invariant 0 <= i <= count && count == B
        invariant nodes == Propagate(math, M, A, B, seeded, i)
      {
        HiddenStep(i, M);
        i := i + 1;
      }
    }

    /** Hidden unit i's turn of the loop in Forward: activate its slot, then
        add its value times its outgoing links into the tail after it. */
    method HiddenStep(i: nat, ghost M: seq<seq<real>>)
      requires M == links && Shaped(M, A, B, 1) && i < B && |nodes| == A + B + 1
      modifies this`nodes
      ensures nodes == Step(math, M, A, old(nodes), i)
    {
      StepBySlices(math, M, A, nodes, i);
      var j := A + i;
      nodes := nodes[j := Activate(math, nodes[j])];
      // `nodes[j+1:] += ...` on a list tail with a vector on the right adds
      // elementwise and writes the sum back over the tail
      var tail := nodes[j + 1..];
      tail := Plus(tail, Scale(nodes[j], links[j][i + 1..]));
      nodes := nodes[..j + 1] + tail;
    }

    /** The state Test's loop leaves after the first i of the tests: the
        totals over them, and the node list and expected output of the last
        one. */
    ghost predicate Tested(tests: seq<UnitTest>, i: nat)
      reads this`links, this`nodes, this`expectedOutput, this`error, this`fitness
    {
      Valid() && C == 1 && Totals(math, links, A, B, tests, i, error, fitness) &&
      (i > 0 ==> nodes == ForwardNodes(math, links, A, B, tests[i - 1].inputs) &&
                 expectedOutput == tests[i - 1].outputs)
    }

    /** Error and fitness over all unit tests, each loaded into the input
        segment and the expected output in list order; the node list and
        expected output are left as the last test set them. Neither the
        links nor the unit tests change. */
    method Test()
      requires Valid() && C == 1 && Fits(unitTests, A, C)
      modifies this`nodes, this`expectedOutput, this`error, this`fitness
      ensures Valid() && Totals(math, links, A, B, unitTests, |unitTests|, error, fitness)
      ensures |unitTests| > 0 ==>
        var last := unitTests[|unitTests| - 1];
        nodes == ForwardNodes(math, links, A, B, last.inputs) && expectedOutput == last.outputs
      ensures |unitTests| == 0 ==> unchanged(this`nodes, this`expectedOutput)
    {
      error, fitness := 0.0, 0;
      if |unitTests| == 0 {
        // the loop has no turn to run: nodes and expected output stay
        return;
      }
      var i := 0;
      while i < |unitTests|
        invariant Tested(unitTests, i)
      {
        RunExample(unitTests, i);
        i := i + 1;
      }
    }

    /** One turn of Test's loop: load example i into the input segment and
        the expected output, then run a forward pass, which adds that
        example's share to the totals over the examples before it. */
    method RunExample(tests: seq<UnitTest>, i: nat)
      requires Tested(tests, i) && i < |tests|
      modifies this`nodes, this`expectedOutput, this`error, this`fitness
      ensures Tested(tests, i + 1)
    {
      var t := tests[i];
      nodes, expectedOutput := t.inputs + nodes[A..], t.outputs;
      assert nodes[..A] == t.inputs;
      Forward();
      ForwardOutput(math, links, A, B, t.inputs);
    }

    /** The body of the candidate loop, which runs once: draw an edge from
        the region that may carry one and probe it. */
    method Probe(currentError: real, g: nat, randint: Randint) returns (j: nat, k: nat, gradient: real)
      requires Valid() && C == 1 && A + B >= 1 && Fits(unitTests, A, C) && Acyclic(links, A)
      requires learningRate > 0.0 && IsRandint(randint)
      modifies this`nodes, this`expectedOutput, this`error, this`fitness, this`links
      ensures Valid() && links == old(links)
      ensures j == randint(2 * g, 0, A + B) && k == randint(2 * g + 1, LowK(A, j), B + C)
      ensures j < A + B && LowK(A, j) <= k < B + C && Editable(A, j, k)
      ensures error == TotalError(math, Nudge(links, j, k, learningRate), A, B, unitTests, |unitTests|)
      ensures gradient == Gradient(currentError, error, learningRate)
    {
      j := randint(2 * g, 0, A + B);
      CandidateRange(A, B, C, j);
      k := randint(2 * g + 1, LowK(A, j), B + C);
      gradient := ProbeAt(currentError, j, k);
    }

    /** Add learningRate to entry (j, k), evaluate, estimate the gradient
        (currentError - error) / learningRate from the probe's error, and
        take the change back. The metrics are left as the probe set them. */
    method ProbeAt(currentError: real, j: nat, k: nat) returns (gradient: real)
      requires Valid() && C == 1 && Fits(unitTests, A, C) && Acyclic(links, A) && learningRate > 0.0
      requires j < A + B && k < B + C && Editable(A, j, k)
      modifies this`nodes, this`expectedOutput, this`error, this`fitness, this`links
      ensures Valid() && links == old(links)
      ensures error == TotalError(math, Nudge(links, j, k, learningRate), A, B, unitTests, |unitTests|)
      ensures gradient == Gradient(currentError, error, learningRate)
    {
      ghost var M0 := links;
      NudgeKeepsAcyclic(M0, A, B, C, j, k, learningRate);
      links := Nudge(links, j, k, learningRate);
      Test();
      gradient := Gradient(currentError, error, learningRate);
      links := Nudge(links, j, k, -learningRate);
      NudgeUndo(M0, j, k, learningRate);
    }

    /** The commit after the probe: move entry (j, k) by learningRate in the
        direction the gradient estimate gives, then evaluate the result. */
    method Commit(j: nat, k: nat, gradient: real)
      requires Valid() && C == 1 && Fits(unitTests, A, C) && Acyclic(links, A)
      requires j < A + B && k < B + C && Editable(A, j, k)
      modifies this`nodes, this`expectedOutput, this`error, this`fitness, this`links
      ensures links == Committed(old(links), j, k, learningRate, gradient)
      ensures Acyclic(links, A) && Valid() && Totals(math, links, A, B, unitTests, |unitTests|, error, fitness)
    {
      NudgeKeepsAcyclic(links, A, B, C, j, k, learningRate * Direction(gradient));
      links := Committed(links, j, k, learningRate, gradient);
      Test();
    }

    /** One generation of the search: probe one candidate edge, commit
        +-learningRate to it by the sign of the gradient estimate,
        re-evaluate and adapt the rate. */
    method Generation(initialRate: real, g: nat, randint: Randint) returns (j: nat, k: nat, gradient: real, again: bool)
      requires Valid() && C == 1 && A + B >= 1 && Fits(unitTests, A, C) && Acyclic(links, A)
      requires learningRate > 0.0 && initialRate > 0.0 && IsRandint(randint)
      modifies this`nodes, this`expectedOutput, this`error, this`fitness, this`learningRate, this`links
      ensures Acyclic(links, A) && Valid() && Totals(math, links, A, B, unitTests, |unitTests|, error, fitness)
      ensures j == randint(2 * g, 0, A + B) && k == randint(2 * g + 1, LowK(A, j), B + C)
      ensures j < A + B && LowK(A, j) <= k < B + C && Editable(A, j, k)
      ensures gradient == ProbeGradient(math, old(links), A, B, unitTests, j, k, old(learningRate), old(error))
      ensures links == Committed(old(links), j, k, old(learningRate), gradient)
      ensures learningRate == AdaptRate(old(learningRate), initialRate, error < old(error))
      ensures learningRate > 0.0
      ensures again == (fitness < |unitTests|)
    {
      var currentError := error + 0.0;
      j, k, gradient := Probe(currentError, g, randint);
      Commit(j, k, gradient);
      again := fitness < |unitTests|;
      learningRate := AdaptRate(learningRate, initialRate, error < currentError);
    }

    /** One turn of Learn's loop: a generation, reported by what the loop
        relies on. */
    method LearnTurn(initialRate: real, g: nat, randint: Randint) returns (again: bool)
      requires Valid() && C == 1 && A + B >= 1 && Fits(unitTests, A, C) && Acyclic(links, A)
      requires learningRate > 0.0 && initialRate > 0.0 && IsRandint(randint)
      modifies this`nodes, this`expectedOutput, this`error, this`fitness, this`learningRate, this`links
      ensures Acyclic(links, A) && Valid() && Totals(math, links, A, B, unitTests, |unitTests|, error, fitness)
      ensures learningRate > 0.0
      ensures again == (fitness < |unitTests|)
    {
      var j, k, gradient;
      j, k, gradient, again := Generation(initialRate, g, randint);
    }

    /** The opening of the search: evaluate the network as it stands and
        decide whether learning starts. */
    method Baseline(minimizeError: bool) returns (again: bool)
      requires Valid() && C == 1 && Fits(unitTests, A, C)
      modifies this`nodes, this`expectedOutput, this`error, this`fitness
      ensures Valid() && Totals(math, links, A, B, unitTests, |unitTests|, error, fitness)
      ensures again == StartCondition(minimizeError, fitness, error, |unitTests|, threshold)
    {
      Test();
      again := fitness < |unitTests|;
      if minimizeError {
        again := fitness == |unitTests| && error > threshold;
      }
    }

    /** The search: a baseline evaluation, then generations while learning
        continues and the generation budget lasts; the learning rate is put
        back at the end. Returns the number of generations run. */
    method Learn(minimizeError: bool, randint: Randint) returns (generations: nat)
      requires Valid() && C == 1 && A + B >= 1 && Fits(unitTests, A, C) && Acyclic(links, A)
      requires learningRate > 0.0 && IsRandint(randint)
      modifies this`nodes, this`expectedOutput, this`error, this`fitness, this`learningRate, this`links
      ensures Acyclic(links, A) && Valid() && Totals(math, links, A, B, unitTests, |unitTests|, error, fitness)
      ensures generations <= maxGenerations
      ensures learningRate == old(learningRate)
      ensures (generations == 0) == (maxGenerations == 0 ||
        !StartCondition(minimizeError, TotalScore(math, old(links), A, B, unitTests, |unitTests|),
                        TotalError(math, old(links), A, B, unitTests, |unitTests|), |unitTests|, threshold))
      ensures generations == 0 ==> unchanged(this`links)
      ensures 0 < generations < maxGenerations ==> fitness == |unitTests|
    {
      ghost var opening := StartCondition(minimizeError, TotalScore(math, links, A, B, unitTests, |unitTests|),
                                          TotalError(math, links, A, B, unitTests, |unitTests|), |unitTests|, threshold);
      var again := Baseline(minimizeError);
      ghost var started := again;
      assert started == opening;
      var initialRate := learningRate + 0.0;
      generations := 0;
      while generations < maxGenerations && again
        invariant Acyclic(links, A) && Valid() && Totals(math, links, A, B, unitTests, |unitTests|, error, fitness)
        invariant generations <= maxGenerations
        invariant learningRate > 0.0 && initialRate == old(learningRate)
        invariant generations == 0 ==> unchanged(this`links) && again == started
        invariant generations > 0 ==> started && maxGenerations > 0 && again == (fitness < |unitTests|)
        decreases maxGenerations - generations
      {
        again := LearnTurn(initialRate, generations, randint);
        generations := generations + 1;
      }
      learningRate := initialRate + 0.0;
    }
  }
}
