/** The base of every periodically collected metrics object: a periodic
    timer whose ticks collect samples and forward a non-empty list to the
    handler, and which closing cancels. */
module Scheduling {
  import opened JavaLang
  import opened Json
  import opened Samples

  /** The timer service of the runtime: the periodic timers set and not yet
      cancelled, by id, with their period in milliseconds. */
  class Timers {
    var periodic: map<int, int>
    var nextId: int

    /** Ids are handed out in increasing order, so every running timer's
        id is below the next one. */
    ghost predicate Valid()
      reads this
    {
      forall id :: id in periodic ==> id < nextId
    }

    constructor ()
      ensures Valid() && periodic == map[] && nextId == 0
    {
      periodic := map[];
      nextId := 0;
    }

    /** `setPeriodic`: a new timer with a fresh id; a period below 1 ms is
        refused with an `IllegalArgumentException` and sets no timer. */
    method SetPeriodic(delay: int) returns (r: Result<int>)
      requires Valid()
      modifies this
      ensures Valid()
      ensures r.Throws? <==> delay < 1
      ensures r.Throws? ==> r.error == IllegalArgumentException && periodic == old(periodic) && nextId == old(nextId)
      ensures r.Ok? ==> r.value !in old(periodic) && r.value == old(nextId) && nextId == old(nextId) + 1
      ensures r.Ok? ==> periodic == old(periodic)[r.value := delay]
    {
      if delay < 1 {
        return Throws(IllegalArgumentException);
      }
      r := Ok(nextId);
      periodic := periodic[nextId := delay];
      nextId := nextId + 1;
    }

    /** `cancelTimer`: the timer stops; whether it was running is returned. */
    method CancelTimer(timerId: int) returns (cancelled: bool)
      requires Valid()
      modifies this
      ensures Valid()
      ensures cancelled <==> timerId in old(periodic)
      ensures periodic == old(periodic) - {timerId} && nextId == old(nextId)
    {
      cancelled := timerId in periodic;
      periodic := periodic - {timerId};
    }
  }

  /** `MILLISECONDS.convert(seconds, SECONDS)`; a Java `int` number of
      seconds never reaches the `long` saturation bound. */
  function SecondsToMillis(seconds: Int32): (millis: int)
    ensures millis / 1000 == seconds && millis % 1000 == 0
  {
    seconds * 1000
  }

  /** The tick rule: a collected list is forwarded only when it is not
      `null` and not empty. */
  predicate ShouldForward(metrics: Option<seq<Sample>>) {
    metrics.Some? && metrics.value != []
  }

  class ScheduledMetrics {
    const vertx: Timers
    const timerId: int
    /** Every list handed to the metric handler, oldest first. */
    var handled: seq<seq<Sample>>

    /** The object once its timer is set: it records the timer's id and
        has handled nothing yet. */
    constructor (vertx: Timers, timerId: int)
      ensures this.vertx == vertx && this.timerId == timerId && handled == []
    {
      this.vertx := vertx;
      this.timerId := timerId;
      handled := [];
    }

    /** One tick of the timer, with the list `collect` produced: it reaches
        the handler, unmodified, exactly when it is non-null and non-empty. */
    method Tick(metrics: Option<seq<Sample>>)
      modifies this
      ensures ShouldForward(metrics) ==> handled == old(handled) + [metrics.value]
      ensures !ShouldForward(metrics) ==> handled == old(handled)
    {
      if metrics.Some? && metrics.value != [] {
        handled := handled + [metrics.value];
      }
    }

    /** The default `collect`: nothing to report. */
    function Collect(): (metrics: Option<seq<Sample>>)
      ensures !ShouldForward(metrics)
    {
      Some([])
    }

    /** `collectAndQueue` with the default `collect`: never forwards. The id
        of the firing timer is ignored. */
    method CollectAndQueue(firedId: int)
      modifies this
      ensures handled == old(handled)
    {
      var metrics := Collect();
      Tick(metrics);
    }

    function IsEnabled(): (enabled: bool)
      ensures enabled
    {
      true
    }

    /** Cancels the timer recorded at construction. */
    method Close()
      requires vertx.Valid()
      modifies vertx
      ensures vertx.Valid()
      ensures vertx.periodic == old(vertx.periodic) - {timerId}
      ensures timerId !in vertx.periodic
    {
      var _ := vertx.CancelTimer(timerId);
    }
  }

  /** The base constructor: sets a periodic timer of `schedule` seconds and
      records its id. A schedule below one second asks for a period below
      1 ms, which the timer service refuses, so construction throws and no
      timer is set. */
  method Create(vertx: Timers, schedule: Int32) returns (r: Result<ScheduledMetrics>)
    requires vertx.Valid()
    modifies vertx
    ensures vertx.Valid()
    ensures r.Throws? <==> schedule < 1
    ensures r.Throws? ==> r.error == IllegalArgumentException && vertx.periodic == old(vertx.periodic)
    ensures r.Ok? ==> fresh(r.value) && r.value.vertx == vertx && r.value.handled == []
    ensures r.Ok? ==> r.value.timerId !in old(vertx.periodic)
    ensures r.Ok? ==> r.value.timerId == old(vertx.nextId) && vertx.nextId == old(vertx.nextId) + 1
    ensures r.Ok? ==> vertx.periodic == old(vertx.periodic)[r.value.timerId := SecondsToMillis(schedule)]
  {
    var id := vertx.SetPeriodic(SecondsToMillis(schedule));
    if id.Throws? {
      return Throws(id.error);
    }
    var m := new ScheduledMetrics(vertx, id.value);
    r := Ok(m);
  }

  /** The forwarding rule in full: a list passes exactly when it holds at
      least one sample, and `null` never does. */
  lemma ForwardRule(metrics: seq<Sample>)
    ensures ShouldForward(Some(metrics)) <==> |metrics| >= 1
    ensures !ShouldForward(None)
  {
  }
}
