/**
 * The latency combiner as the program runs it: an accumulator object whose two
 * long fields are updated in place, and the four operations the windowing
 * engine calls. Each operation is proved against the pure functions of
 * module LatencySpec.
 */
module LatencyCombineFn {
  import opened Wrappers
  import opened LatencySpec

  /** A mutable accumulator: first is the max of 0 and the produced times, second the arrival time that came with it. */
  class Accumulator {
    var first: int64
    var second: int64

    /** A new accumulator holds (0, 0). */
    constructor ()
      ensures first == 0 && second == 0
    {
      first := 0;
      second := 0;
    }

    /** The accumulator's current state as a value. */
    function Value(): Pair
      reads this
    {
      Pair(first, second)
    }
  }

  /** `createAccumulator`: a fresh accumulator in state (0, 0), which is consistent. */
  method CreateAccumulator() returns (acc: Accumulator)
    ensures fresh(acc)
    ensures acc.Value() == Zero && Consistent(acc.Value())
  {
    acc := new Accumulator();
  }

  /**
   * `addInput`: folds one row into the accumulator in place and hands back the
   * same reference. A null accumulator is returned as it is.
   */
  method AddInput(mutableAccumulator: Accumulator?, input: Option<Row>) returns (r: Accumulator?)
    modifies mutableAccumulator
    ensures r == mutableAccumulator
    ensures mutableAccumulator != null ==>
      mutableAccumulator.Value() == AddStep(old(mutableAccumulator.Value()), input)
  {
    if mutableAccumulator != null {
      var timestamp: int64 := 0;
      if input.Some? {
        var row := input.value;
        if row.timestamp1.Some? && row.timestamp1.value > timestamp {
          timestamp := row.timestamp1.value;
        }
        if row.timestamp2.Some? && row.timestamp2.value > timestamp {
          timestamp := row.timestamp2.value;
        }
        if row.timestamp3.Some? && row.timestamp3.value > timestamp {
          timestamp := row.timestamp3.value;
        }
        assert timestamp == Candidate(row);
        if row.arrivalTime.Some? {
          if timestamp > mutableAccumulator.first {
            mutableAccumulator.first := timestamp;
            mutableAccumulator.second := row.arrivalTime.value;
          }
        }
      }
    }
    r := mutableAccumulator;
  }

  /** The states of a sequence of accumulators, in order. */
  function Values(accs: seq<Accumulator>): seq<Pair>
    reads accs
  {
    seq(|accs|, i reads accs requires 0 <= i < |accs| => accs[i].Value())
  }

  /**
   * `mergeAccumulators`: a fresh accumulator holding the earliest maximum of the
   * inputs' states (module LatencySpec, MergeAll). No input is modified.
   */
  method MergeAccumulators(accumulators: seq<Accumulator>) returns (merged: Accumulator)
    ensures fresh(merged)
    ensures merged.Value() == MergeAll(Values(accumulators))
    ensures forall a :: a in accumulators ==> a.Value() == old(a.Value())
  {
    ghost var ps := Values(accumulators);
    merged := CreateAccumulator();
    for i := 0 to |accumulators|
      invariant Values(accumulators) == ps
      invariant merged.Value() == MergeFrom(Zero, ps[..i])
    {
      var accum := accumulators[i];
      assert ps[..i + 1][..i] == ps[..i];
      if accum.first > merged.first {
        merged.first := accum.first;
        merged.second := accum.second;
      }
    }
    assert ps[..|accumulators|] == ps;
  }

  /**
   * `extractOutput`: the latency `second - first` in long arithmetic, or 0 for a
   * null accumulator. It only reads the accumulator.
   */
  function ExtractOutput(accumulator: Accumulator?): (r: int64)
    reads accumulator
    ensures accumulator == null ==> r == 0
    ensures accumulator != null ==>
      (r as int - (accumulator.second as int - accumulator.first as int)) % TWO_64 == 0
    ensures accumulator != null && MIN_LONG <= accumulator.second as int - accumulator.first as int <= MAX_LONG ==>
      r as int == accumulator.second as int - accumulator.first as int
  {
    if accumulator != null then Latency(accumulator.Value()) else 0
  }

  /**
   * The worked scenario on objects: three rows added in turn to a fresh
   * accumulator, which is handed back each time, give latency 210 - 200.
   */
  method Scenario() returns (latency: int64)
    ensures latency == 10
  {
    var acc := CreateAccumulator();
    var same := AddInput(acc, Some(Row(Some(100), None, None, Some(150))));
    same := AddInput(same, Some(Row(None, Some(200), None, Some(210))));
    same := AddInput(same, Some(Row(Some(50), None, None, Some(999))));
    latency := ExtractOutput(same);
  }
}
