# DAGNN: a directed acyclic graph neural network, modelled in Dafny

The model covers the `DAGNN` class of `classes/DAGNN.py`. A network has three
sizes: `A` input units, `B` hidden units and `C` output units. It keeps:

- a node list `nodes`;
- the expected output `expectedOutput`;
- an `(A + B) x (B + C)` link matrix `links`, whose row `r` holds unit `r`'s
  outgoing weights and whose column `c` leads into unit `A + c`;
- the accumulated `error` and `fitness`;
- the search parameters: `maxGenerations`, `unitTests`, `learningRate` and
  `threshold`.

The model has four modules:

- `Numerics` (`numerics.dfy`) holds the pure metrics: the activation
  `x * tanh(x)`, the error metric `|a - b| * ln(|a - b| + 1)` summed over
  positions, and the integer score. `tanh` and `ln` are carried by a `Math`
  value and are constrained only by `Lawful`: tanh has the sign of its
  argument, and ln is positive above 1.
- `Propagation` (`propagation.dfy`) holds the values as functions:
  - the quadrant layout of the link matrix;
  - the forward pass `ForwardNodes`, turn by turn as the loop at lines 59-62
    performs it;
  - an independent topological evaluation of the graph (`Inflow`, `Hidden`)
    that the pass is proved to compute;
  - the per-example error and score, and their totals over a list of unit
    tests.
- `Search` (`search.dfy`) holds the pieces of the learning loop: the range
  the candidate edge is drawn from, a one-entry change of the matrix
  (`Nudge`), the gradient estimate, the commit direction, the learning-rate
  rule and the start condition.
- `Dagnn` (`dagnn.dfy`) holds the class `DAGNN`, with the source's fields.
  Its methods change those fields in place: `Forward` (split into `Pass`,
  `HiddenLoop` and `HiddenStep`), `Test` (with `RunExample`), and `Learn`.
  `Learn` is split into `Baseline`, `Generation`, `Probe`, `ProbeAt` and
  `Commit`. Each method is proved against the functions of the other
  modules.

Line 62, `self.nodes[j+1:] += np.dot(...)`, has a list on the left and a
numpy vector on the right. The list has no numeric `+=`, so Python falls back
to the vector's addition, and the tail gets the vector added into it
elementwise before it is written back. The node list therefore keeps its
`A + B + C` slots, and each hidden unit passes its activated value to every
later unit, as the comment at line 58 describes.

Several things the source promises are proved:

- The forward pass never changes the input segment, and it keeps
  `A + B + 1` slots.
- Turn n of the hidden loop finishes hidden unit n. Hidden unit i ends as the
  activation of its input sum plus every earlier hidden unit's activated value
  times its link to i. The output is the activation of its input sum plus
  every hidden unit's contribution.
- `Test` leaves the error and fitness totals over the unit tests, in list
  order.
- Every candidate edge lies in the acyclic region. `Learn` therefore keeps the
  hidden block strictly upper triangular.
- The probe's `+lr` and `-lr` cancel. Each generation therefore changes
  exactly one entry, by exactly `learningRate`.
- `Learn` runs at most `maxGenerations` generations and puts the learning rate
  back on exit.

On the learning rate, lines 126-132 multiply the rate by 1.1 after every
improving generation. They pull it back to the initial rate only after a
generation that does not improve. The rate can therefore stay above its
starting value for many generations in a row. `AdaptRate` states exactly
this.

## Model

| member | source | states |
|---|---|---|
| Numerics.Activate | classes/DAGNN.py:38-39 | the activation of 0 is 0; with a lawful tanh it is never negative and is 0 only at 0 |
| Numerics.ActivateAll | classes/DAGNN.py:65-66 | the activation of a vector has its length |
| Numerics.ActivateAllAt | classes/DAGNN.py:65-66 | activating a vector activates each element in its own place |
| Numerics.ErrorTerm | classes/DAGNN.py:43 | one position's error is 0 when the values agree; with a lawful ln it is never negative and is positive when they differ |
| Numerics.MSE | classes/DAGNN.py:42-44 | with a lawful ln the summed error is never negative |
| Numerics.MSESelf | classes/DAGNN.py:42-44 | a vector has error 0 against itself, whatever tanh and ln are |
| Numerics.MSEZeroIff | classes/DAGNN.py:42-44 | with a lawful ln the error is 0 exactly when the two vectors are equal |
| Numerics.Hit | classes/DAGNN.py:50 | a position counts only away from 0.5 on both sides; for target 1 it counts exactly when the value is above 0.5, and for target 0 exactly when it is below |
| Numerics.Score | classes/DAGNN.py:47-50 | the score is between 0 and the vector length |
| Numerics.ScorePerfect | classes/DAGNN.py:47-50 | full score exactly when every position counts |
| Numerics.ScoreZero | classes/DAGNN.py:47-50 | score 0 exactly when no position counts |
| Numerics.ScoreCountsHits | classes/DAGNN.py:47-50 | the score equals the number of positions with (a[i] - 0.5)(2 b[i] - 1) > 0 |
| Numerics.ScoreSkipsTies | classes/DAGNN.py:50 | a position where either side is exactly 0.5 never counts, so the score is then below the length |
| Propagation.Layout | classes/DAGNN.py:29-35 | the constructed matrix has A + B rows of B + C columns and nothing on or below the hidden block's diagonal |
| Propagation.Zeros | classes/DAGNN.py:29 | the zero matrix has the requested numbers of rows and columns |
| Propagation.FillBlock | classes/DAGNN.py:32-35 | a block slice assignment M[r0:r1, c0:c1] = v keeps the matrix's shape |
| Propagation.FillUpper | classes/DAGNN.py:34 | the assignment of triu(full((B, B), w2), k=1) to the hidden->hidden block keeps the matrix's shape |
| Propagation.Quadrants | classes/DAGNN.py:29-35 | the four quadrant assignments applied in order to the zero matrix give an (A + B) x (B + C) matrix |
| Propagation.QuadrantsAreLayout | classes/DAGNN.py:29-35 | the four slice assignments, applied in order to a zero matrix, give entry w0 for input->hidden, w1 for input->output, w2 strictly above the hidden diagonal and 0 on and below it, and w3 for hidden->output |
| Propagation.Seed | classes/DAGNN.py:56 | the product of the inputs with the input rows has one value per hidden and output unit |
| Propagation.SeedAt | classes/DAGNN.py:56 | after the seeding product, unit A + c holds the sum over inputs r of nodes[r] * links[r][c] |
| Propagation.ScaleAt | classes/DAGNN.py:62 | the vector np.dot(v, links[j][i+1:]) holds v * links[j][c] at each position |
| Propagation.PlusAt | classes/DAGNN.py:62 | the `+=` of a vector into the list tail adds position by position |
| Propagation.Step | classes/DAGNN.py:59-62 | one turn of the hidden loop keeps the list length: slot A + i is activated, each later slot q receives the activated value times link (A + i, q - A), and earlier slots stay |
| Propagation.StepBySlices | classes/DAGNN.py:60-62 | the statements of one turn (activate slot j, take the tail after it, add the scaled links into it elementwise, write it back) give exactly that turn |
| Propagation.Propagate | classes/DAGNN.py:59-62 | n turns of the hidden loop keep the list length |
| Propagation.ForwardNodes | classes/DAGNN.py:53-66 | a pass (seed, hidden loop, output activation) leaves A + B + 1 slots |
| Propagation.FinishPass | classes/DAGNN.py:66 | activating the last C = 1 elements of the loop's list as a vector activates its last element, which completes the pass |
| Propagation.Inflow | classes/DAGNN.py:56-62 | what unit A + c has received once hidden units 0 .. n - 1 have sent: its input sum plus each of those units' value times its link to A + c |
| Propagation.Hidden | classes/DAGNN.py:58-61 | hidden unit i's value is the activation of what the inputs and the earlier hidden units send it |
| Propagation.OutputInflow | classes/DAGNN.py:56-62 | what reaches the output before its activation: its input sum plus every hidden unit's contribution |
| Propagation.StepSlot | classes/DAGNN.py:59-62 | turn n takes each slot from its topological value after n turns to its value after n + 1 |
| Propagation.PropagateSlots | classes/DAGNN.py:59-62 | after n turns the inputs are untouched, hidden units 0 .. n - 1 hold their activated topological values, and every later unit holds what it has received so far, not yet activated |
| Propagation.ForwardKeepsInputs | classes/DAGNN.py:56-66 | a pass never changes the input segment |
| Propagation.ForwardHidden | classes/DAGNN.py:56-62 | hidden unit i ends with its topological value: the activation of its input sum plus every earlier hidden unit's value times its link to i |
| Propagation.OutputOfLast | classes/DAGNN.py:66 | the output segment is the activated last element of the list the loop leaves |
| Propagation.ForwardOutput | classes/DAGNN.py:53-66 | the single output of a pass is the activation of its input sum plus every hidden unit's contribution |
| Propagation.ForwardRepeatable | classes/DAGNN.py:53-66 | a second pass over the list a pass leaves gives the same list |
| Propagation.ExampleError | classes/DAGNN.py:69 | with a lawful ln one example adds a non-negative error |
| Propagation.ExampleScore | classes/DAGNN.py:72 | one example adds 0 or 1 to the fitness, and 1 exactly when its output is on the target's side of 0.5 |
| Propagation.TotalError | classes/DAGNN.py:76-80 | with a lawful ln the error summed over the examples is never negative |
| Propagation.TotalScore | classes/DAGNN.py:76-80 | the fitness summed over n examples is at most n |
| Propagation.GoldenExample | classes/DAGNN.py:26-72 | with the default weights (0, 0, 0, 1), a 2-1-1 network on input [1, 0] outputs 0, so target [0] adds error 0 and fitness 1 |
| Propagation.DirectLinkExample | classes/DAGNN.py:29-72 | a 1-1-1 network with weights (0, 1, 0, 1) on input [1] keeps three slots and outputs Activate(1), passed through the hidden loop; target [1] then scores exactly when tanh(1) > 0.5 |
| Propagation.ChainExample | classes/DAGNN.py:53-66 | on the chain input -> hidden 0 -> hidden 1 -> output with unit links, the output is the activation applied three times to the input |
| Search.LowK | classes/DAGNN.py:104 | the lower end max(0, j - A + 1) of the column range |
| Search.Nudge | classes/DAGNN.py:105 | a one-entry change of the matrix keeps its shape |
| Search.Committed | classes/DAGNN.py:115 | the commit moves entry (j, k) by lr times the direction of the gradient estimate |
| Search.StartCondition | classes/DAGNN.py:87-90 | learning starts when fitness < N, or, under minimizeError, when fitness == N and error > threshold |
| Search.CandidateRange | classes/DAGNN.py:103-104 | with an output unit, the column range [max(0, j - A + 1), B + C) of a row j < A + B is never empty, and every column in it may carry an edge |
| Search.NudgeEntries | classes/DAGNN.py:105 | changing entry (j, k) by d moves that entry by d and leaves every other entry as it was |
| Search.NudgeUndo | classes/DAGNN.py:105-108 | adding lr to an entry and then subtracting it gives back the original matrix |
| Search.NudgeKeepsAcyclic | classes/DAGNN.py:103-115 | changing an entry in the drawable region keeps the matrix's shape and its zero lower triangle |
| Search.Gradient | classes/DAGNN.py:107 | the gradient estimate (before - after) / lr is non-negative exactly when the probe's error is not above the baseline |
| Search.CommitChangesOneEntry | classes/DAGNN.py:105-115 | the commit changes only entry (j, k): by +lr when the probe's error is at most the baseline, by -lr when it is above |
| Search.Direction | classes/DAGNN.py:115 | the commit sign is +1 or -1, and +1 exactly when the gradient estimate is not negative |
| Search.AdaptRate | classes/DAGNN.py:126-132 | after an improvement the rate is multiplied by 1.1; otherwise it ends at most at the initial rate and below its value before; a positive rate stays positive |
| Dagnn.DAGNN.constructor | classes/DAGNN.py:7-35 | A + B + C zero nodes, C zero expected outputs, error and fitness 0, 10000 generations, no unit tests, rate 0.01, threshold 2, weights (0, 0, 0, 1), and the quadrant layout of the link matrix |
| Dagnn.DAGNN.Forward | classes/DAGNN.py:53-72 | the node list becomes the pass over the current inputs; error and fitness grow by the MSE and the score of its output against the expected output |
| Dagnn.DAGNN.Pass | classes/DAGNN.py:56-66 | the node list becomes the pass over the current inputs and keeps A + B + C slots |
| Dagnn.DAGNN.HiddenLoop | classes/DAGNN.py:59-62 | the loop over the slice nodes[A:-1] runs B turns and leaves the list after all of them |
| Dagnn.DAGNN.HiddenStep | classes/DAGNN.py:60-62 | one turn of the hidden loop performs one propagation step, adding into the tail |
| Dagnn.DAGNN.Test | classes/DAGNN.py:76-80 | error and fitness become the totals over all unit tests in list order; nodes and expected output are left as the last test set them, and unchanged when there are none; links and unit tests never change |
| Dagnn.DAGNN.RunExample | classes/DAGNN.py:78-80 | loading example i and running a pass extends the totals over the first i examples to the first i + 1 |
| Dagnn.DAGNN.Probe | classes/DAGNN.py:102-108 | the edge comes from the next two randint draws and lies in the acyclic region; the links end as they began; the error is the probe's error, and the gradient is its estimate |
| Dagnn.DAGNN.ProbeAt | classes/DAGNN.py:105-108 | the links end as they began; the error is the total error under links + lr at (j, k), and the gradient is the estimate from it |
| Dagnn.DAGNN.Commit | classes/DAGNN.py:114-123 | the links become the commit of (j, k) in the gradient's direction; they stay acyclic, and error and fitness are their totals |
| Dagnn.DAGNN.Generation | classes/DAGNN.py:100-134 | one generation: the drawn edge, its probe gradient and the one-entry commit; the new totals; the adapted rate; and the continuation fitness < N |
| Dagnn.DAGNN.LearnTurn | classes/DAGNN.py:97-134 | a generation keeps the invariants of the search loop, and its continuation is fitness < N |
| Dagnn.DAGNN.Baseline | classes/DAGNN.py:86-93 | making the first evaluation gives the totals; learning starts when fitness < N, or, under minimizeError, when fitness == N and error > threshold |
| Dagnn.DAGNN.Learn | classes/DAGNN.py:83-141 | runs at most maxGenerations generations; runs none exactly when the budget is 0 or the start condition fails on the initial totals, and then leaves the links untouched; stops early only at full fitness; keeps the matrix acyclic; ends with the totals of the final links and the learning rate it started with |

## Left out

- Output: the `print` calls at lines 89, 91, 119, 145 and 146 only report
  progress. The generation counter test at line 118 exists only for them.
- The demonstration under `__main__` and the profiling comments (lines 3 and
  150-157) are not part of this model. Neither is the commented-out code: the
  sort at line 111, the alternative weights at line 25 and the
  `minimize_error` block at lines 136-139. `GoldenExample`,
  `DirectLinkExample` and `ChainExample` run small concrete networks instead.
- Floating point: values are Dafny `real`s, so there is no IEEE-754 rounding.
  The cancellation of `+lr` and `-lr` (lines 105 and 108) holds exactly here.
  In floating point it holds only up to rounding.
- `np.tanh` and `np.log`: they are the two fields of a `Math` value given to
  the constructor. They are constrained only by `Lawful`, and only where a
  property needs it.
- `np.random.randint`: it is a parameter `randint(n, lo, hi)` standing for the
  n-th call. It is constrained to the half-open range `[lo, hi)`, and
  generation g uses calls 2g and 2g + 1. Nothing is claimed about the
  distribution, convergence, or the chance of reaching full fitness.
- The candidate loop `for i in range(1)` (lines 101-108) and the list `Q`: the
  loop runs exactly once, so `Probe` is that one turn. Its gradient is
  returned directly rather than stored as `Q[0]`.
- `C == 1` is a precondition of `Forward`, `Test` and `Learn`. With `C >= 2`
  the loop at line 59 indexes `links` past its `A + B` rows. With `C == 0`,
  `nodes[-0:]` at line 66 is the whole list, and `randint` at line 104 gets an
  empty range.
- `A + B >= 1` is a precondition of `Learn`, because `randint(0, 0)` at
  line 103 raises otherwise.
- `learningRate > 0` is a precondition of `Learn`, so the model leaves out
  non-positive rates. Construction sets 0.01, and lines 126-132 keep a
  positive rate positive. In the source a zero rate would make the division
  at line 107 give inf or nan, and a negative one would run.
- The sizes `A`, `B` and `C` are natural numbers, so negative sizes are left
  out. In the source, `[0] * n` with a negative `n` gives an empty list, and
  `np.zeros` at line 29 raises only when `A + B` or `B + C` is negative.
- Unit tests are assumed well shaped (`Fits`): each has `A` inputs and `C`
  outputs. Numpy broadcasting of other shapes is not modelled.
- `links` is a `seq<seq<real>>` field that the methods reassign, not a numpy
  array updated in place. Nothing else refers to the matrix, so no aliasing
  is lost.
- The numpy `int`/`float` distinction is not modelled. The constructor's
  integer zeros are the real `0.0`, and the copies `x + 0` at lines 95, 100,
  130 and 141 are `x + 0.0`.
