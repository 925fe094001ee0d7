/** The GUID module's sequence generator: a find-or-create counter node
    (label SequenceMetadata, property "sequence") whose value is read,
    advanced by `updateSequence` and written back on every call. */
module GuidSequence {
  import opened Wrappers
  import opened Host

  /** The default `initialSequenceValue`. */
  const DefaultInitialSequenceValue: Long := 0

  /** The failure raised when the counter is not a singleton. */
  datatype SequenceFailure = MoreThanOneSequenceNode

  /** `updateSequence`: +1 in Java `long` arithmetic (wrapping at the top). */
  function UpdateSequence(current: Long): (r: Long)
    ensures current < MaxLong ==> r > current && r - current == 1
    ensures current == MaxLong ==> r == MinLong
  {
    if current == MaxLong then MinLong else current + 1
  }

  /** The result of one `generateGuid` call and the counter nodes it leaves. */
  datatype SequenceStep = SequenceStep(result: Result<Long, SequenceFailure>, counters: seq<Long>)

  /** `generateGuid`: with no counter node one is created holding
      `initial`; with more than one, the call fails and writes nothing;
      otherwise the single counter is advanced and its new value returned. */
  function Generate(initial: Long, counters: seq<Long>): (r: SequenceStep)
    ensures |counters| > 1 <==> r.result.Err?
    ensures r.result.Err? ==> r.counters == counters
    ensures r.result.Ok? ==> |r.counters| == 1 && r.counters[0] == r.result.value
    ensures r.result.Ok? ==>
              r.result.value == UpdateSequence(if counters == [] then initial else counters[0])
  {
    if |counters| > 1 then SequenceStep(Err(MoreThanOneSequenceNode), counters)
    else
      var current := if counters == [] then initial else counters[0];
      var next := UpdateSequence(current);
      SequenceStep(Ok(next), [next])
  }

  /** `n` successive calls, the values they return in order, and the
      counters left afterwards; stops at the first failure. */
  function Calls(initial: Long, counters: seq<Long>, n: nat): (r: (seq<Long>, seq<Long>))
    decreases n
  {
    if n == 0 then ([], counters)
    else
      var step := Generate(initial, counters);
      if step.result.Err? then ([], counters)
      else
        var rest := Calls(initial, step.counters, n - 1);
        ([step.result.value] + rest.0, rest.1)
  }

  /** From a fresh store with the default initial value, the k-th call returns
      k: the calls yield 1, 2, 3, ... and leave one counter node holding n. */
  lemma {:induction false} CallsFromFreshStore(n: nat)
    requires n <= MaxLong
    ensures |Calls(DefaultInitialSequenceValue, [], n).0| == n
    ensures forall k :: 0 <= k < n ==> Calls(DefaultInitialSequenceValue, [], n).0[k] == k + 1
    ensures n > 0 ==> Calls(DefaultInitialSequenceValue, [], n).1 == [n]
  {
    CallsFrom(0, n);
  }

  /** The counter nodes after `start` calls from a fresh store. */
  function CounterAt(start: nat): seq<Long>
    requires start <= MaxLong
  {
    if start == 0 then [] else [start]
  }

  lemma {:induction false} CallsFrom(start: nat, n: nat)
    requires start + n <= MaxLong
    ensures |Calls(DefaultInitialSequenceValue, CounterAt(start), n).0| == n
    ensures forall k :: 0 <= k < n ==>
              Calls(DefaultInitialSequenceValue, CounterAt(start), n).0[k] == start + k + 1
    ensures n > 0 ==> Calls(DefaultInitialSequenceValue, CounterAt(start), n).1 == [start + n]
    decreases n
  {
    if n > 0 {
      var step := Generate(DefaultInitialSequenceValue, CounterAt(start));
      assert step.result == Ok(start + 1) && step.counters == [start + 1];
      CallsFrom(start + 1, n - 1);
    }
  }

  /** Successive successful calls return strictly increasing values as long
      as the counter has not reached the top of the `long` range. */
  lemma SuccessiveCallsIncrease(initial: Long, counters: seq<Long>)
    requires Generate(initial, counters).result.Ok?
    requires Generate(initial, counters).result.value < MaxLong
    ensures Generate(initial, Generate(initial, counters).counters).result.Ok?
    ensures Generate(initial, Generate(initial, counters).counters).result.value
              > Generate(initial, counters).result.value
  {
  }

  class SequenceIdGenerator {
    const initialSequenceValue: Long
    /** The "sequence" property of every SequenceMetadata node, in the order
        the store finds them. */
    var counters: seq<Long>

    constructor (initialSequenceValue: Long, counters: seq<Long>)
      ensures this.initialSequenceValue == initialSequenceValue && this.counters == counters
    {
      this.initialSequenceValue := initialSequenceValue;
      this.counters := counters;
    }

    /** `generateGuid`: count the counter nodes (keeping the last one found),
        create one if there is none, refuse if there are several, then
        advance the counter and return its new value. */
    method GenerateGuid() returns (r: Result<Long, SequenceFailure>)
      modifies this
      ensures SequenceStep(r, counters) == Generate(initialSequenceValue, old(counters))
    {
      var node := -1;
      var count := 0;
      while count < |counters|
        invariant 0 <= count <= |counters|
        invariant node == count - 1
      {
        node := count;
        count := count + 1;
      }
      if count == 0 {
        counters := [initialSequenceValue];
        node := 0;
      } else if count > 1 {
        return Err(MoreThanOneSequenceNode);
      }
      var current := counters[node];
      var next := UpdateSequence(current);
      counters := counters[node := next];
      r := Ok(next);
    }
  }
}
