/** The measurements of all handlers of one event-bus address: a handler
    count that changes by copying, and a processing-time accumulator that the
    copies share. */
module Handlers {
  import opened JavaLang

  /** A running sum of nanoseconds, shared by reference. */
  class Adder {
    var sum: int

    constructor ()
      ensures sum == 0
    {
      sum := 0;
    }
  }

  class HandlersMeasurements {
    const processingTime: Adder
    const handlersCount: Int32

    /** A first handler: count 1, nothing measured yet. */
    constructor ()
      ensures handlersCount == 1
      ensures fresh(processingTime) && processingTime.sum == 0
    {
      processingTime := new Adder();
      handlersCount := 1;
    }

    /** The private constructor: shares `processingTime`. */
    constructor WithCount(processingTime: Adder, handlersCount: Int32)
      ensures this.processingTime == processingTime && this.handlersCount == handlersCount
    {
      this.processingTime := processingTime;
      this.handlersCount := handlersCount;
    }

    /** Adds `time` nanoseconds to the shared sum. */
    method AddProcessingTime(time: int)
      modifies processingTime
      ensures processingTime.sum == old(processingTime.sum) + time
    {
      processingTime.sum := processingTime.sum + time;
    }

    /** The total processing time in milliseconds, truncated. */
    function ProcessingTime(): (millis: int)
      reads processingTime
      ensures processingTime.sum >= 0 ==>
        millis * NANOS_PER_MILLI <= processingTime.sum < (millis + 1) * NANOS_PER_MILLI
    {
      NanosToMillis(processingTime.sum)
    }

    /** A new instance with one more handler (Java `int` arithmetic) and
        the same accumulator; the receiver is unchanged. */
    method IncrementHandlersCount() returns (r: HandlersMeasurements)
      ensures fresh(r) && r.processingTime == processingTime
      ensures r.handlersCount == WrapInt(handlersCount + 1)
    {
      r := new HandlersMeasurements.WithCount(processingTime, WrapInt(handlersCount + 1));
    }

    /** A new instance with one handler fewer; there is no lower bound. */
    method DecrementHandlersCount() returns (r: HandlersMeasurements)
      ensures fresh(r) && r.processingTime == processingTime
      ensures r.handlersCount == WrapInt(handlersCount - 1)
    {
      r := new HandlersMeasurements.WithCount(processingTime, WrapInt(handlersCount - 1));
    }

    /** `equals`: the same object, or another instance with the same
        handler count (`null` is never equal). */
    /** `equals`: identity, or another instance with the same count. */
    predicate Equals(o: HandlersMeasurements?): (r: bool)
      ensures o == null ==> !r
      ensures o == this ==> r
      ensures r && o != this ==> o != null && o.handlersCount == handlersCount
    {
      this == o || (o != null && handlersCount == o.handlersCount)
    }

    function HashCode(): Int32 {
      handlersCount
    }
  }

  /** `equals` is an equivalence, consistent with `hashCode`, and decided by
      the handler count alone. */
  lemma EqualsContract(a: HandlersMeasurements, b: HandlersMeasurements, c: HandlersMeasurements)
    ensures a.Equals(a) && !a.Equals(null)
    ensures a.Equals(b) <==> b.Equals(a)
    ensures a.Equals(b) && b.Equals(c) ==> a.Equals(c)
    ensures a.Equals(b) ==> a.HashCode() == b.HashCode()
    ensures a.Equals(b) <==> a.handlersCount == b.handlersCount
  {
  }

  /** Taking one from one more gives back the same Java `int`, even across
      the wrap-around at `INT_MAX`. */
  lemma WrapIncrementDecrement(count: Int32)
    ensures WrapInt(WrapInt(count + 1) - 1) == count
    ensures WrapInt(WrapInt(count - 1) + 1) == count
  {
    if count == INT_MAX {
      assert WrapInt(count + 1) == INT_MIN;
    } else if count == INT_MIN {
      assert WrapInt(count - 1) == INT_MAX;
    }
  }

  /** A handler registered then unregistered leaves an instance equal to the
      one it started from, with the same accumulator. */
  method RegisterThenUnregister(m: HandlersMeasurements) returns (r: HandlersMeasurements)
    ensures r.Equals(m) && r.HashCode() == m.HashCode()
    ensures r.processingTime == m.processingTime
  {
    var incremented := m.IncrementHandlersCount();
    r := incremented.DecrementHandlersCount();
    WrapIncrementDecrement(m.handlersCount);
  }

  /** Time added through a copy is seen through the original. */
  method SharedAccumulator(m: HandlersMeasurements, time: int) returns (copy: HandlersMeasurements)
    modifies m.processingTime
    ensures copy.handlersCount == WrapInt(m.handlersCount + 1)
    ensures m.processingTime.sum == old(m.processingTime.sum) + time
    ensures m.ProcessingTime() == NanosToMillis(old(m.processingTime.sum) + time)
  {
    copy := m.IncrementHandlersCount();
    copy.AddProcessingTime(time);
  }
}
