/** How a stream of samples is cut into backend-sized batches: the batches
    `accept` sends, the remainder it keeps queued, and their properties. */
module Batching {

  /** The full batches cut off the front of `w`, in order, while at least
      `size` elements remain. */
  function Batches<T>(w: seq<T>, size: nat): seq<seq<T>>
    requires size >= 1
    decreases |w|
  {
    if |w| < size then [] else [w[..size]] + Batches(w[size..], size)
  }

  /** What is left of `w` once every full batch has been cut off. */
  function Rest<T>(w: seq<T>, size: nat): seq<T>
    requires size >= 1
    decreases |w|
  {
    if |w| < size then w else Rest(w[size..], size)
  }

  /** The batches joined back together, in order. */
  function Flatten<T>(batches: seq<seq<T>>): seq<T> {
    if batches == [] then [] else Flatten(batches[..|batches| - 1]) + batches[|batches| - 1]
  }

  lemma {:induction false} FlattenAppend<T>(a: seq<seq<T>>, b: seq<seq<T>>)
    ensures Flatten(a + b) == Flatten(a) + Flatten(b)
    decreases |b|
  {
    if b != [] {
      var b' := b[..|b| - 1];
      assert (a + b)[..|a + b| - 1] == a + b';
      FlattenAppend(a, b');
    } else {
      assert a + b == a;
    }
  }

  /** Cutting loses and reorders nothing, every batch is full, the remainder
      is shorter than a batch, and there are `|w| / size` batches. */
  lemma {:induction false} BatchesCutExactly<T>(w: seq<T>, size: nat)
    requires size >= 1
    ensures Flatten(Batches(w, size)) + Rest(w, size) == w
    ensures forall i :: 0 <= i < |Batches(w, size)| ==> |Batches(w, size)[i]| == size
    ensures |Rest(w, size)| < size
    ensures |Batches(w, size)| == |w| / size
    ensures |Rest(w, size)| == |w| % size
    decreases |w|
  {
    if |w| >= size {
      var tail := w[size..];
      BatchesCutExactly(tail, size);
      FlattenAppend([w[..size]], Batches(tail, size));
      assert Flatten([w[..size]]) == w[..size] by {
        assert [w[..size]][..0] == [];
      }
      assert w == w[..size] + tail;
      DivModStep(|w|, size);
    }
  }

  /** One more full batch adds one to the quotient and leaves the remainder. */
  lemma DivModStep(n: nat, size: nat)
    requires 1 <= size <= n
    ensures n / size == (n - size) / size + 1 && n % size == (n - size) % size
  {
    var q, r := (n - size) / size, (n - size) % size;
    assert n - size == q * size + r;
    assert n == (q + 1) * size + r;
    DivModUnique(n, size, q + 1, r);
  }

  /** Quotient and remainder are the only pair with `n == q * d + r` and `0 <= r < d`. */
  lemma DivModUnique(n: int, d: int, q: int, r: int)
    requires d >= 1 && 0 <= r < d && n == q * d + r
    ensures n / d == q && n % d == r
  {
    var k := q - n / d;
    assert k * d == n % d - r by {
      assert n == (n / d) * d + n % d;
      assert q * d - (n / d) * d == k * d;
    }
  }

  /** When `w` holds at least one batch, the remainder is `w`'s own tail and
      the batch count is positive. */
  lemma RestIsSuffix<T>(w: seq<T>, size: nat)
    requires size >= 1
    ensures Rest(w, size) == w[|w| - |w| % size..]
    ensures |w| >= size ==> |Batches(w, size)| >= 1
  {
    BatchesCutExactly(w, size);
    var n := |Flatten(Batches(w, size))|;
    assert w[n..] == Rest(w, size);
  }

  /** `2B + 5` samples with `B > 5` make two
      full batches and leave five queued. */
  lemma TwoBatchesAndFive<T>(w: seq<T>, size: nat)
    requires size > 5 && |w| == 2 * size + 5
    ensures |Batches(w, size)| == 2
    ensures Batches(w, size) == [w[..size], w[size..2 * size]]
    ensures Rest(w, size) == w[2 * size..]
  {
    var tail := w[size..];
    assert tail[..size] == w[size..2 * size];
    assert tail[size..] == w[2 * size..];
    assert Batches(tail[size..], size) == [] && Rest(tail[size..], size) == tail[size..];
    assert Batches(tail, size) == [tail[..size]];
  }

  /** Cutting one batch off the front: it joins the sent batches, and the
      batches still to come, the remainder and the joined contents are as
      before. */
  lemma CutOne<T>(done: seq<seq<T>>, temp: seq<T>, size: nat)
    requires size >= 1 && |temp| >= size
    ensures (done + [temp[..size]]) + Batches(temp[size..], size) == done + Batches(temp, size)
    ensures Rest(temp[size..], size) == Rest(temp, size)
    ensures Flatten(done + [temp[..size]]) + temp[size..] == Flatten(done) + temp
  {
    var batch := temp[..size];
    FlattenAppend(done, [batch]);
    assert Flatten([batch]) == batch by {
      assert [batch][..0] == [];
    }
    assert temp == batch + temp[size..];
  }
}

/** The batching sender: a queue of samples below the batch size, cut into
    full batches as samples arrive, and flushed whole when idle. */
module Sending {
  import opened JavaLang
  import opened Json
  import opened Samples
  import opened Batching
  import Scheduling

  class Sender {
    const batchSize: int
    /** Idle delay, in seconds. */
    const batchDelay: Int32
    const metricsUri: string

    var queue: seq<Sample>
    /** Clock reading (nanoseconds) of the last send. */
    var sendTime: int
    /** Every batch handed to the HTTP client, oldest first. */
    ghost var sent: seq<seq<Sample>>
    /** Every sample ever accepted, oldest first. */
    ghost var accepted: seq<Sample>

    /** Nothing accepted is lost or reordered: it has been sent or is still
        queued; and the queue stays below a batch. */
    ghost predicate Valid()
      reads this
    {
      && Flatten(sent) + queue == accepted
      && (queue == [] || |queue| < batchSize)
    }

    constructor (tenant: string, batchSize: Int32, batchDelay: Int32)
      requires batchSize >= 0
      ensures Valid()
      ensures this.batchSize == batchSize && this.batchDelay == batchDelay
      ensures metricsUri == "/hawkular-metrics/" + tenant + "/metrics/numeric/data"
      ensures queue == [] && sent == [] && accepted == [] && sendTime == 0
    {
      this.batchSize := batchSize;
      this.batchDelay := batchDelay;
      metricsUri := "/hawkular-metrics/" + tenant + "/metrics/numeric/data";
      queue := [];
      sendTime := 0;
      sent := [];
      accepted := [];
    }

    /** The deferred `init`: sets the idle-flush timer, every `batchDelay`
        seconds, then reads the clock into `sendTime`. A delay below one
        second is refused by the timer service before the clock is read, so
        `sendTime` keeps its old value. */
    method Init(vertx: Scheduling.Timers, now: int) returns (r: Result<int>)
      requires Valid() && vertx.Valid()
      modifies this, vertx
      ensures Valid() && vertx.Valid()
      ensures queue == old(queue) && sent == old(sent) && accepted == old(accepted)
      ensures r.Throws? <==> batchDelay < 1
      ensures r.Throws? ==> r.error == IllegalArgumentException
      ensures r.Throws? ==> sendTime == old(sendTime) && vertx.periodic == old(vertx.periodic)
      ensures r.Ok? ==> sendTime == now && r.value !in old(vertx.periodic)
      ensures r.Ok? ==> vertx.periodic == old(vertx.periodic)[r.value := Scheduling.SecondsToMillis(batchDelay)]
    {
      r := vertx.SetPeriodic(Scheduling.SecondsToMillis(batchDelay));
      if r.Ok? {
        sendTime := now;
      }
    }

    /** The idle condition of `flushIfIdle`: strictly more than `batchDelay`
        seconds since the last send. */
    predicate IdleSince(now: int)
      reads this
    {
      now - sendTime > batchDelay * NANOS_PER_SECOND
    }

    /** Hands one batch to the HTTP client and records the send time. */
    method Send(batch: seq<Sample>, now: int)
      modifies this
      ensures sent == old(sent) + [batch] && sendTime == now
      ensures queue == old(queue) && accepted == old(accepted)
    {
      sent := sent + [batch];
      sendTime := now;
    }

    method Accept(metrics: seq<Sample>, now: int)
      requires Valid() && batchSize >= 1
      modifies this
      ensures Valid() && |queue| < batchSize
      ensures accepted == old(accepted) + metrics
      ensures |old(queue)| + |metrics| < batchSize ==>
        queue == old(queue) + metrics && sent == old(sent) && sendTime == old(sendTime)
      ensures |old(queue)| + |metrics| >= batchSize ==>
        && sent == old(sent) + Batches(old(queue) + metrics, batchSize)
        && queue == Rest(old(queue) + metrics, batchSize)
        && sendTime == now
    {
      if |queue| + |metrics| < batchSize {
        queue := queue + metrics;
        accepted := accepted + metrics;
        return;
      }
      var temp := queue + metrics;
      ghost var whole := temp;
      accepted := accepted + metrics;
      queue := [];
      // The source's do-while: its guard holds on entry, so the first cut is
      // made exactly as this while loop makes it.
      while |temp| >= batchSize
        invariant queue == [] && accepted == old(accepted) + metrics
        invariant Flatten(sent) + temp == accepted
        invariant sent + Batches(temp, batchSize) == old(sent) + Batches(whole, batchSize)
        invariant Rest(temp, batchSize) == Rest(whole, batchSize)
        invariant sendTime == now || |temp| >= batchSize
        decreases |temp|
      {
        CutOne(sent, temp, batchSize);
        Send(temp[..batchSize], now);
        temp := temp[batchSize..];
      }
      assert Batches(temp, batchSize) == [];
      queue := temp;
    }

    method FlushIfIdle(now: int)
      requires Valid()
      modifies this
      ensures Valid() && accepted == old(accepted)
      ensures old(IdleSince(now)) && old(queue) != [] ==>
        sent == old(sent) + [old(queue)] && queue == [] && sendTime == now
      ensures !(old(IdleSince(now)) && old(queue) != []) ==>
        sent == old(sent) && queue == old(queue) && sendTime == old(sendTime)
    {
      if IdleSince(now) && queue != [] {
        FlattenAppend(sent, [queue]);
        assert Flatten([queue]) == queue by {
          assert [queue][..0] == [];
        }
        Send(queue, now);
        queue := [];
      }
    }
  }

  /** With a batch size of 3,
      accepting `[a, b]` sends nothing; accepting `[c, d]` next sends
      `[a, b, c]` and keeps `[d]`. */
  method SliceScenario(a: Sample, b: Sample, c: Sample, d: Sample, now: int) returns (s: Sender)
    ensures s.sent == [[a, b, c]] && s.queue == [d] && s.sendTime == now
  {
    s := new Sender("default", 3, 1);
    s.Accept([a, b], now);
    assert s.sent == [] && s.queue == [a, b];
    s.Accept([c, d], now);
    assert [a, b] + [c, d] == [a, b, c, d];
    assert Batches([a, b, c, d], 3) == [[a, b, c]] && Rest([a, b, c, d], 3) == [d] by {
      assert [a, b, c, d][..3] == [a, b, c] && [a, b, c, d][3..] == [d];
      assert Batches([d], 3) == [] && Rest([d], 3) == [d];
    }
  }

  /** A send resets the idle clock: once accepting a list has sent a batch,
      an idle flush no later than `batchDelay` seconds after it sends
      nothing and keeps the queue. */
  method QuietAfterSend(s: Sender, metrics: seq<Sample>, now: int, later: int)
    requires s.Valid() && s.batchSize >= 1
    requires |s.queue| + |metrics| >= s.batchSize
    requires later - now <= s.batchDelay * NANOS_PER_SECOND
    modifies s
    ensures s.Valid() && s.accepted == old(s.accepted) + metrics
    ensures s.sent == old(s.sent) + Batches(old(s.queue) + metrics, s.batchSize)
    ensures s.queue == Rest(old(s.queue) + metrics, s.batchSize)
  {
    s.Accept(metrics, now);
    s.FlushIfIdle(later);
  }
}
