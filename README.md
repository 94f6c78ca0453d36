# Latency combiner of the Nexmark latency query

This project models `LatencyCombineFn`, the combiner that turns a window's
joined rows into one latency figure. Each row carries up to three produced
timestamps (`timestamp1`..`timestamp3`) and an optional `arrivalTime`. The
combiner keeps an accumulator `(first, second)`:

- `first` is the largest of 0 and the produced times seen among rows that had
  an arrival time;
- `second` is the arrival time of the row that set `first`, or 0 if no row did.

Because the candidate starts at the epoch 0, a produced time of 0 or less
never sets `first`.

The reported latency is `second - first`. The combiner offers four operations:
create, add one row, merge many accumulators, and extract.

The model has three files:

- `wrappers.dfy`: `Option`, which stands for a Java reference that may be null.
- `latency_spec.dfy` (module `LatencySpec`): the pure meaning.
  - `Row` and `Pair` are the row and the accumulator state, as values.
  - `Candidate` is the per-row maximum and `AddStep` is one `addInput`.
  - `MergeStep`, `MergeFrom` and `MergeAll` are the merge loop and its result.
  - `Latency` is the extraction, in Java `long` arithmetic.
  - The lemmas cover monotonicity, the invariant, the earliest-maximum reading
    of merge, regrouping, associativity, commutativity, order independence and
    the worked examples.
- `latency_combine_fn.dfy` (module `LatencyCombineFn`): the program's form.
  - The class `Accumulator` has two `int64` fields that are updated in place.
  - `AddInput` mutates its argument and returns the same reference.
  - `MergeAccumulators` runs a loop over a sequence of accumulators into a
    fresh one.
  - `ExtractOutput` reads an accumulator that may be null.
  - Each is proved against the `LatencySpec` functions.

Representation choices:

- Java `long` and Joda `Instant` millis are the newtype `int64`. `Instant.EPOCH`
  is 0.
- The subtraction in `extractOutput` wraps around as in two's complement
  (`WrapLong`). It is exact whenever the difference fits in a long.
- A null row is `None`. A null accumulator is a null `Accumulator?`.
- `Row.getValue("name")` becomes a field of the `Row` record.
- The `Iterable` given to `mergeAccumulators` is a `seq`, and its iteration
  order is the sequence order.

A tie in `first` during a merge keeps the pair seen earlier. `MergeCommutative`
states exactly when swapping two accumulators makes no difference: when their
`first` values differ or the accumulators are equal. `MergeOrderIndependent`
shows that reordering never changes the merged `first`. It also shows that
reordering changes nothing at all when no two different inputs tie at a
positive `first`.

## Model

| member | source | states |
|---|---|---|
| `LatencyCombineFn.Accumulator.constructor` | nexmark_latency/src/main/java/org/apache/beam/sdk/nexmark/latency/LatencyCombineFn.java:86-91 | a new accumulator has first == 0 and second == 0 |
| `LatencyCombineFn.CreateAccumulator` | nexmark_latency/src/main/java/org/apache/beam/sdk/nexmark/latency/LatencyCombineFn.java:22-24 | returns a fresh accumulator in state (0, 0), which satisfies the invariant |
| `LatencySpec.ZeroLatency` | nexmark_latency/src/main/java/org/apache/beam/sdk/nexmark/latency/LatencyCombineFn.java:81-88 | the initial state (0, 0) is consistent and extracts to latency 0 |
| `LatencySpec.Candidate` | nexmark_latency/src/main/java/org/apache/beam/sdk/nexmark/latency/LatencyCombineFn.java:31-45 | the candidate is at least 0, at least every present timestamp, and is either 0 or one of the present timestamps, so it is the maximum of 0 and the present ones |
| `LatencySpec.CandidateExample` | nexmark_latency/src/main/java/org/apache/beam/sdk/nexmark/latency/LatencyCombineFn.java:37-54 | timestamps {5, 9, 3} give candidate 9; with arrival 20 a fresh accumulator becomes (9, 20) |
| `LatencySpec.NonPositiveIgnored` | nexmark_latency/src/main/java/org/apache/beam/sdk/nexmark/latency/LatencyCombineFn.java:31-54 | a row {-5,-,-,10} has candidate 0 and leaves a fresh accumulator at (0, 0) |
| `LatencySpec.AddStep` | nexmark_latency/src/main/java/org/apache/beam/sdk/nexmark/latency/LatencyCombineFn.java:32-54 | a missing row or missing arrival time leaves the state unchanged; otherwise first becomes max(first, candidate); the pair is replaced as a whole by (candidate, arrival) exactly when candidate > first, else kept; first never decreases; the invariant is kept |
| `LatencyCombineFn.AddInput` | nexmark_latency/src/main/java/org/apache/beam/sdk/nexmark/latency/LatencyCombineFn.java:27-59 | returns the very reference it was given; a null accumulator is left alone; otherwise the accumulator's new state is AddStep of its old state and the row, computed by the same step-by-step candidate update |
| `LatencySpec.AccumulateMonotone` | nexmark_latency/src/main/java/org/apache/beam/sdk/nexmark/latency/LatencyCombineFn.java:51-54 | across any sequence of addInput calls, first after a later call is at least first after an earlier one, and a consistent start stays consistent |
| `LatencySpec.AddStepIsMergeOfSingle` | nexmark_latency/src/main/java/org/apache/beam/sdk/nexmark/latency/LatencyCombineFn.java:46-68 | for first >= 0, adding a row equals merging in the accumulator that row alone would produce |
| `LatencySpec.AccumulateIsMergeOfSingles` | nexmark_latency/src/main/java/org/apache/beam/sdk/nexmark/latency/LatencyCombineFn.java:27-74 | adding rows one by one to a state with first >= 0 equals running the merge loop from that state over the per-row accumulators |
| `LatencySpec.AccumulateFromZeroIsMergeAll` | nexmark_latency/src/main/java/org/apache/beam/sdk/nexmark/latency/LatencyCombineFn.java:22-74 | adding rows to a fresh accumulator equals mergeAccumulators of the per-row accumulators |
| `LatencySpec.EndToEndScenario` | nexmark_latency/src/main/java/org/apache/beam/sdk/nexmark/latency/LatencyCombineFn.java:31-81 | rows {100,-,-,150}, {-,200,-,210}, {50,-,-,999} from a fresh accumulator extract to 10 |
| `LatencyCombineFn.Scenario` | nexmark_latency/src/main/java/org/apache/beam/sdk/nexmark/latency/LatencyCombineFn.java:22-84 | the same three rows pushed through CreateAccumulator, AddInput (reusing the returned reference) and ExtractOutput give 10 |
| `LatencySpec.MergeFromIsEarliestMax` | nexmark_latency/src/main/java/org/apache/beam/sdk/nexmark/latency/LatencyCombineFn.java:64-68 | the merge loop from any start ends with the start if no input has a strictly larger first, else with the earliest input attaining the maximum first; its first bounds every input's |
| `LatencySpec.EarliestMaxUnique` | nexmark_latency/src/main/java/org/apache/beam/sdk/nexmark/latency/LatencyCombineFn.java:64-68 | the earliest-maximum reading admits only one result, so it fully determines the merge |
| `LatencySpec.MergeAll` | nexmark_latency/src/main/java/org/apache/beam/sdk/nexmark/latency/LatencyCombineFn.java:62-74 | the merged state is consistent; its first is at least every input's first; it is (0, 0) or the earliest input whose first exceeds 0 and every earlier input's; it is (0, 0) when no input has first > 0 |
| `LatencyCombineFn.MergeAccumulators` | nexmark_latency/src/main/java/org/apache/beam/sdk/nexmark/latency/LatencyCombineFn.java:62-74 | returns a fresh accumulator whose state is MergeAll of the inputs' states in iteration order; no input accumulator changes |
| `LatencySpec.MergeEmpty` | nexmark_latency/src/main/java/org/apache/beam/sdk/nexmark/latency/LatencyCombineFn.java:62-84 | merging no accumulators gives (0, 0), whose latency is 0 |
| `LatencySpec.MergeStepAssociative` | nexmark_latency/src/main/java/org/apache/beam/sdk/nexmark/latency/LatencyCombineFn.java:65-68 | the strict-greater adoption step is associative |
| `LatencySpec.MergeFromConcat` | nexmark_latency/src/main/java/org/apache/beam/sdk/nexmark/latency/LatencyCombineFn.java:64-68 | the merge loop over xs + ys is the loop over xs followed by the loop over ys |
| `LatencySpec.MergeFromShift` | nexmark_latency/src/main/java/org/apache/beam/sdk/nexmark/latency/LatencyCombineFn.java:64-68 | starting the loop from MergeStep(a, b) equals merging a with the loop started from b |
| `LatencySpec.MergeSingleton` | nexmark_latency/src/main/java/org/apache/beam/sdk/nexmark/latency/LatencyCombineFn.java:63-68 | merging one consistent accumulator returns its state unchanged |
| `LatencySpec.MergePair` | nexmark_latency/src/main/java/org/apache/beam/sdk/nexmark/latency/LatencyCombineFn.java:63-68 | merging [a, b] with a consistent is b if b.first > a.first, else a |
| `LatencySpec.MergeRegroup` | nexmark_latency/src/main/java/org/apache/beam/sdk/nexmark/latency/LatencyCombineFn.java:62-74 | merging xs + ys equals merging the two partial merges, for any inputs |
| `LatencySpec.MergeAssociative` | nexmark_latency/src/main/java/org/apache/beam/sdk/nexmark/latency/LatencyCombineFn.java:62-74 | for any accumulators A, B, C: merge([merge([A,B]), C]) == merge([A, merge([B,C])]) |
| `LatencySpec.MergeCommutative` | nexmark_latency/src/main/java/org/apache/beam/sdk/nexmark/latency/LatencyCombineFn.java:64-68 | for consistent A, B: merge([A,B]) == merge([B,A]) if and only if A.first != B.first or A == B |
| `LatencySpec.MergeOrderIndependent` | nexmark_latency/src/main/java/org/apache/beam/sdk/nexmark/latency/LatencyCombineFn.java:64-68 | inputs that are permutations of each other merge to the same first, and to the same pair when no two different inputs tie at a positive first |
| `LatencySpec.WrapLong` | nexmark_latency/src/main/java/org/apache/beam/sdk/nexmark/latency/LatencyCombineFn.java:81 | the result is congruent to the argument modulo 2^64 and equals it when it lies in the long range |
| `LatencySpec.Latency` | nexmark_latency/src/main/java/org/apache/beam/sdk/nexmark/latency/LatencyCombineFn.java:81 | the latency of a state is second - first modulo 2^64, and exactly second - first when that fits in a long |
| `LatencyCombineFn.ExtractOutput` | nexmark_latency/src/main/java/org/apache/beam/sdk/nexmark/latency/LatencyCombineFn.java:77-84 | a null accumulator gives 0; otherwise the result is second - first in long arithmetic, exact when it fits; being a function that only reads the accumulator, it changes nothing and gives the same value on every call with the same state |

## Left out

- The Beam framework is not modelled: the `Combine.CombineFn` base class,
  windowing, triggering, and the order in which the engine calls the four
  operations. The operations are free-standing members here.
- `Row.getValue` lookup by field name is a library call. A row is a record of
  four optional longs instead.
- The `Latency` result class is not part of this model. `extractOutput`
  returns the bare `int64` that would be wrapped in it.
- The mean/sum-count mode is not modelled. It exists only as commented-out
  code that refers to fields that do not exist.
- `Serializable` and the nullness annotations have no behavioural content.
- Concurrency and the distribution of accumulators across workers are not
  modelled. Merge runs sequentially over its input.
- An `Iterable` that yields null elements is not modelled, because
  `mergeAccumulators` would throw on one. Inputs are non-null accumulators.
