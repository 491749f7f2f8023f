/**
  The forwarder task and its in-flight guard, as they run: nested loops over mutable counters.
  A forwarder task is driven by a finite list of `select!` outcomes; when the list ends before
  the stream is closed, it is aborted where it waits. It is proved to refine the forwarder of
  the pipeline, one step per outcome.
*/
module Forwarding {
  import opened Options
  import opened Pipeline
  import opened PipelineRuns

  class Counters {
    var received: int
    var inFlight: int
    var forwarded: int
    var dropped: int
    var kernel: int
    var decode: int
    var decoded: int
  }

  /** Owns a share of the in-flight gauge until it is released or dropped. */
  class InFlightBatch {
    const counter: Counters
    var count: nat

    constructor (counter: Counters)
      ensures this.counter == counter && count == 0
    {
      this.counter := counter;
      count := 0;
    }

    method AddOne()
      modifies this`count, counter`inFlight
      ensures count == old(count) + 1 && counter.inFlight == old(counter.inFlight) + 1
    {
      counter.inFlight := counter.inFlight + 1;
      count := count + 1;
    }

    /** Also what dropping the guard does; releasing twice gives nothing back the second time. */
    method ReleaseAll()
      modifies this`count, counter`inFlight
      ensures count == 0 && counter.inFlight == old(counter.inFlight) - old(count)
    {
      if count != 0 {
        counter.inFlight := counter.inFlight - count;
        count := 0;
      }
    }
  }

  // ---------------------------------------------------------------- the life of a forwarder, step by step

  /** What the pipeline says becomes of a fresh forwarder under the first n outcomes; those after its end do nothing. */
  function Life(inputs: seq<Input>, n: nat): Forwarder
    requires n <= |inputs|
  {
    if n == 0 then FRESH
    else
      var f := Life(inputs, n - 1);
      if f.status == Running then Absorb(f, inputs[n - 1]) else f
  }

  lemma AbsorbStatus(f: Forwarder, i: Input)
    requires f.status == Running
    ensures Absorb(f, i).status == if i.signal.Closed? then Ended else Running
  {
  }

  lemma {:induction false} LifeEnds(inputs: seq<Input>, i: nat, n: nat)
    requires i <= n <= |inputs| && Life(inputs, i).status != Running
    ensures Life(inputs, n) == Life(inputs, i)
    decreases n
  {
    if i < n {
      LifeEnds(inputs, i, n - 1);
    }
  }

  lemma {:induction false} LifeIsValid(inputs: seq<Input>, n: nat)
    requires n <= |inputs|
    ensures ForwarderInv(Life(inputs, n)) && Life(inputs, n).status != Aborted
  {
    if n == 0 {
      FreshIsValid();
    } else {
      LifeIsValid(inputs, n - 1);
      if Life(inputs, n - 1).status == Running {
        AbsorbKeepsInv(Life(inputs, n - 1), inputs[n - 1]);
        AbsorbStatus(Life(inputs, n - 1), inputs[n - 1]);
      }
    }
  }

  lemma LifeReads(inputs: seq<Input>, n: nat)
    requires n <= |inputs|
    ensures ReadingInv(Life(inputs, n))
  {
    LifeIsValid(inputs, n);
  }

  /** The stream is closed by one of the first n outcomes. */
  predicate IsClosed(inputs: seq<Input>, n: nat)
    requires n <= |inputs|
  {
    exists k :: 0 <= k < n && inputs[k].signal.Closed?
  }

  /** The event of an outcome, if it brings one. */
  function Brought(i: Input): seq<Event> {
    if i.signal.Arrive? then [i.signal.event] else []
  }

  /** The events that arrive before the stream is closed. */
  function Arrived(inputs: seq<Input>, n: nat): seq<Event>
    requires n <= |inputs|
  {
    if n == 0 then []
    else Arrived(inputs, n - 1) + if IsClosed(inputs, n - 1) then [] else Brought(inputs[n - 1])
  }

  lemma AbsorbReceives(f: Forwarder, i: Input)
    ensures Absorb(f, i).received == f.received + Brought(i)
  {
    var f1 := if i.signal.Arrive? then Push(f, i.signal.event) else f;
    PollFrames(Flush(f1, i.accepted), i.reading);
  }

  /** The forwarder receives exactly the events that arrive before the close, and ends exactly when it is closed. */
  lemma {:induction false} LifeReceives(inputs: seq<Input>, n: nat)
    requires n <= |inputs|
    ensures Life(inputs, n).received == Arrived(inputs, n)
    ensures Life(inputs, n).status == if IsClosed(inputs, n) then Ended else Running
  {
    if n > 0 {
      LifeReceives(inputs, n - 1);
      if !IsClosed(inputs, n - 1) {
        AbsorbReceives(Life(inputs, n - 1), inputs[n - 1]);
        AbsorbStatus(Life(inputs, n - 1), inputs[n - 1]);
        assert IsClosed(inputs, n) <==> inputs[n - 1].signal.Closed?;
      }
    }
  }

  lemma {:induction false} LifeOfPrefix(inputs: seq<Input>, more: seq<Input>, n: nat)
    requires n <= |inputs|
    ensures Life(inputs + more, n) == Life(inputs, n)
  {
    if n > 0 {
      LifeOfPrefix(inputs, more, n - 1);
    }
  }

  /** The forwarder f has lived through these outcomes, and was then perhaps aborted. */
  predicate Lived(f: Forwarder, inputs: seq<Input>) {
    var g := Life(inputs, |inputs|);
    f == g || (g.status == Running && f == Abort(g))
  }

  lemma AbsorbLives(f: Forwarder, inputs: seq<Input>, i: Input)
    requires Lived(f, inputs) && f.status == Running
    ensures Lived(Absorb(f, i), inputs + [i])
  {
    LifeOfPrefix(inputs, [i], |inputs|);
  }

  /** Among any number of forwarders, each lives as if it were alone: its record depends only on its own outcomes. */
  lemma {:induction false} EveryForwarderLives(t: Totals, actions: seq<Action>, k: nat) returns (inputs: seq<Input>)
    requires k < |Exec(t, actions).forwarders|
    ensures Lived(Exec(t, actions).forwarders[k], inputs)
  {
    var w, a := Exec(t, actions[..|actions| - 1]), actions[|actions| - 1];
    if k == |w.forwarders| {
      inputs := [];
    } else {
      inputs := EveryForwarderLives(t, actions[..|actions| - 1], k);
      if a.Feed? && a.k == k && IsRunning(w, k) {
        AbsorbLives(w.forwarders[k], inputs, a.input);
        inputs := inputs + [a.input];
      }
    }
  }

  // ---------------------------------------------------------------- one round of the outer loop

  /** The events among the outcomes from `a` up to `b`. */
  function Events(inputs: seq<Input>, a: nat, b: nat): seq<Event>
    requires a <= b <= |inputs|
    decreases b - a
  {
    if a == b then []
    else Events(inputs, a, b - 1) + Brought(inputs[b - 1])
  }

  ghost predicate AllArrive(inputs: seq<Input>, a: nat, b: nat)
    requires a <= b <= |inputs|
  {
    forall k :: a <= k < b ==> inputs[k].signal.Arrive?
  }

  /** The forwarder f with a batch collected. */
  function Filled(f: Forwarder, batch: seq<Event>): Forwarder {
    f.(received := f.received + batch, held := |batch|, batch := batch)
  }

  predicate Between(f: Forwarder) {
    f.status == Running && f.batch == [] && f.held == 0
  }

  lemma AbsorbFilled(f: Forwarder, batch: seq<Event>, i: Input)
    requires |batch| < BATCH_SIZE
    ensures var f1 := Filled(f, batch + Brought(i));
            Absorb(Filled(f, batch), i) == if Flushes(Filled(f, batch), i) then Offer(f1, i) else f1
  {
    assert f.received + (batch + Brought(i)) == f.received + batch + Brought(i);
    if i.signal.Arrive? {
      assert Push(Filled(f, batch), i.signal.event) == Filled(f, batch + Brought(i));
    } else {
      assert batch + [] == batch;
    }
  }

  lemma {:induction false} Gathers(inputs: seq<Input>, a: nat, b: nat)
    requires a <= b <= |inputs| && AllArrive(inputs, a, b) && b - a < BATCH_SIZE && Between(Life(inputs, a))
    ensures Life(inputs, b) == Filled(Life(inputs, a), Events(inputs, a, b)) && |Events(inputs, a, b)| == b - a
    decreases b - a
  {
    var f := Life(inputs, a);
    if a == b {
      assert f.received + [] == f.received;
    } else {
      Gathers(inputs, a, b - 1);
      AbsorbFilled(f, Events(inputs, a, b - 1), inputs[b - 1]);
    }
  }

  /** The outcomes from `a` up to `b` make up one batch: nothing but arrivals until it is full, or the deadline
      passes, or the stream closes. */
  ghost predicate Round(inputs: seq<Input>, a: nat, b: nat) {
    && a < b <= |inputs| && AllArrive(inputs, a, b - 1) && b - 1 - a < BATCH_SIZE
    && (inputs[b - 1].signal.Arrive? ==> b - a == BATCH_SIZE)
  }

  /** How one round moves the forwarder's record. */
  predicate Advanced(f: Forwarder, f': Forwarder, batch: seq<Event>, i: Input) {
    && f'.batch == [] && f'.held == 0 && |f'.received| == |f.received| + |batch|
    && f'.status == (if i.signal.Closed? then Ended else Running)
    && f'.offered == (if batch == [] then f.offered else f.offered + [batch])
    && f'.sent == f.sent + (if i.accepted then |batch| else 0)
    && f'.dropCount == f.dropCount + (if i.accepted then 0 else |batch|)
    && f'.reports == (if i.accepted || batch == [] then f.reports else f.reports + [f'.dropCount])
  }

  predicate Polled(f: Forwarder, f': Forwarder, reading: Option<Reading>) {
    var g := if reading.None? then ZERO else Gained(f.last, reading.value);
    && f'.last == (if reading.Some? && Grown(f.last, reading.value) then reading.value else f.last)
    && Gains(f'.readings, Kernel) == Gains(f.readings, Kernel) + g.kernel
    && Gains(f'.readings, Decode) == Gains(f.readings, Decode) + g.decode
    && Gains(f'.readings, Decoded) == Gains(f.readings, Decoded) + g.decoded
  }

  lemma OfferAdvances(f: Forwarder, batch: seq<Event>, i: Input)
    requires Between(f)
    ensures Advanced(f, Offer(Filled(f, batch), i), batch, i)
  {
    PollFrames(Flush(Filled(f, batch), i.accepted), i.reading);
  }

  lemma OfferReads(f: Forwarder, batch: seq<Event>, i: Input)
    ensures var f', f1 := Offer(Filled(f, batch), i), Poll(f, i.reading);
            f'.last == f1.last && f'.readings == f1.readings
  {
    FlushCounts(Filled(f, batch), i.accepted);
  }

  lemma PollIsPolled(f: Forwarder, reading: Option<Reading>)
    requires ReadingInv(f)
    ensures Polled(f, Poll(f, reading), reading)
  {
    PollGains(f, reading, Kernel);
    PollGains(f, reading, Decode);
    PollGains(f, reading, Decoded);
  }

  lemma OfferPolls(f: Forwarder, batch: seq<Event>, i: Input)
    requires ReadingInv(f)
    ensures Polled(f, Offer(Filled(f, batch), i), i.reading)
  {
    OfferReads(f, batch, i);
    PollIsPolled(f, i.reading);
  }

  lemma LastAdvances(f: Forwarder, batch: seq<Event>, i: Input)
    requires Between(f) && ReadingInv(f) && |batch| < BATCH_SIZE && Flushes(Filled(f, batch), i)
    ensures Advanced(f, Absorb(Filled(f, batch), i), batch + Brought(i), i)
    ensures Polled(f, Absorb(Filled(f, batch), i), i.reading)
  {
    AbsorbFilled(f, batch, i);
    OfferAdvances(f, batch + Brought(i), i);
    OfferPolls(f, batch + Brought(i), i);
  }

  lemma RoundAdvances(inputs: seq<Input>, a: nat, b: nat)
    requires Round(inputs, a, b) && Between(Life(inputs, a))
    ensures Advanced(Life(inputs, a), Life(inputs, b), Events(inputs, a, b), inputs[b - 1])
    ensures Polled(Life(inputs, a), Life(inputs, b), inputs[b - 1].reading)
  {
    Gathers(inputs, a, b - 1);
    LifeReads(inputs, a);
    LastAdvances(Life(inputs, a), Events(inputs, a, b - 1), inputs[b - 1]);
  }

  lemma GatheredRest(inputs: seq<Input>, a: nat)
    requires a <= |inputs| && AllArrive(inputs, a, |inputs|) && |inputs| - a < BATCH_SIZE && Between(Life(inputs, a))
    ensures var f, f' := Life(inputs, a), Life(inputs, |inputs|);
            && f' == Filled(f, f'.batch) && |f'.batch| == |inputs| - a && f'.batch == Events(inputs, a, |inputs|)
  {
    Gathers(inputs, a, |inputs|);
  }

  // ---------------------------------------------------------------- the loops

  /** Offers one batch to the channel; returns the connection's drop counter and its reports. */
  method ForwardBatch(c: Counters, events: seq<Event>, accepted: bool, dropCount: nat, reports: seq<nat>)
    returns (dropCount': nat, reports': seq<nat>)
    modifies c`forwarded, c`dropped
    ensures c.forwarded == old(c.forwarded) + (if accepted then |events| else 0)
    ensures c.dropped == old(c.dropped) + (if accepted then 0 else |events|)
    ensures dropCount' == (if accepted then dropCount else dropCount + |events|)
    ensures reports' == (if accepted then reports else reports + [dropCount'])
  {
    dropCount', reports' := dropCount, reports;
    if accepted {
      c.forwarded := c.forwarded + |events|;
    } else {
      c.dropped := c.dropped + |events|;
      dropCount' := dropCount + |events|;
      reports' := reports + [dropCount'];
    }
  }

  /** Reports the adapter's counters when one of them has grown. */
  method PollCounters(c: Counters, last: Reading, reading: Option<Reading>) returns (last': Reading)
    modifies c`kernel, c`decode, c`decoded
    ensures var g := if reading.None? then ZERO else Gained(last, reading.value);
            && c.kernel == old(c.kernel) + g.kernel && c.decode == old(c.decode) + g.decode
            && c.decoded == old(c.decoded) + g.decoded
    ensures last' == if reading.Some? && Grown(last, reading.value) then reading.value else last
  {
    last' := last;
    if reading.Some? {
      var r := reading.value;
      if r.kernel > last.kernel || r.decode > last.decode
         || r.unavailable > last.unavailable || r.decoded > last.decoded {
        c.kernel := c.kernel + Minus(r.kernel, last.kernel);
        c.decode := c.decode + Minus(r.decode, last.decode);
        c.decoded := c.decoded + Minus(r.decoded, last.decoded);
        last' := r;
      }
    }
  }

  /** The inner loop: take outcomes until a batch is ready or the stream is closed. */
  method Collect(c: Counters, guard: InFlightBatch, inputs: seq<Input>, start: nat)
    returns (batch: seq<Event>, i: nat, ready: bool, closed: bool)
    requires start <= |inputs| && guard.counter == c && guard.count == 0
    modifies c`received, c`inFlight, guard`count
    ensures start <= i <= |inputs| && batch == Events(inputs, start, i)
    ensures ready || closed ==> Round(inputs, start, i) && (closed <==> inputs[i - 1].signal.Closed?)
    ensures !ready && !closed ==> i == |inputs| && AllArrive(inputs, start, i) && i - start < BATCH_SIZE
    ensures guard.count == |batch| && c.inFlight == old(c.inFlight) + |batch|
    ensures c.received == old(c.received) + |batch|
  {
    batch, i, ready, closed := [], start, false, false;
    while !ready && !closed && i < |inputs|
      invariant start <= i <= |inputs| && batch == Events(inputs, start, i)
      invariant ready || closed ==> Round(inputs, start, i) && (closed <==> inputs[i - 1].signal.Closed?)
      invariant !ready && !closed ==> AllArrive(inputs, start, i) && i - start == |batch| < BATCH_SIZE
      invariant guard.count == |batch| && c.inFlight == old(c.inFlight) + |batch|
      invariant c.received == old(c.received) + |batch|
    {
      assert Events(inputs, start, i + 1) == batch + Brought(inputs[i]);
      match inputs[i].signal {
        case Closed =>
          closed := true;
        case Arrive(e) =>
          c.received := c.received + 1;
          guard.AddOne();
          batch := batch + [e];
          if |batch| >= BATCH_SIZE {
            ready := true;
          }
        case Deadline =>
          ready := true;
      }
      i := i + 1;
    }
  }

  /** Offers a collected batch, if it is not empty, and releases its guard. */
  method Deliver(c: Counters, guard: InFlightBatch, batch: seq<Event>, accepted: bool,
                 offered: seq<seq<Event>>, dropCount: nat, reports: seq<nat>)
    returns (offered': seq<seq<Event>>, dropCount': nat, reports': seq<nat>)
    requires guard.counter == c && guard.count == |batch|
    modifies c`inFlight, c`forwarded, c`dropped, guard`count
    ensures guard.count == 0 && c.inFlight == old(c.inFlight) - |batch|
    ensures c.forwarded == old(c.forwarded) + (if accepted then |batch| else 0)
    ensures c.dropped == old(c.dropped) + (if accepted then 0 else |batch|)
    ensures offered' == (if batch == [] then offered else offered + [batch])
    ensures dropCount' == dropCount + (if accepted then 0 else |batch|)
    ensures reports' == (if accepted || batch == [] then reports else reports + [dropCount'])
  {
    offered', dropCount', reports' := offered, dropCount, reports;
    if batch != [] {
      dropCount', reports' := ForwardBatch(c, batch, accepted, dropCount, reports);
      offered' := offered + [batch];
      guard.ReleaseAll();
    }
  }

  /** One round of the outer loop. It offers one batch, or is aborted when the outcomes end before a batch is ready:
      then the guard is dropped with the batch. */
  method DoRound(c: Counters, inputs: seq<Input>, i: nat,
                 offered: seq<seq<Event>>, dropCount: nat, reports: seq<nat>, last: Reading)
    returns (next: nat, closed: bool, aborted: bool,
             offered': seq<seq<Event>>, dropCount': nat, reports': seq<nat>, last': Reading)
    requires i <= |inputs|
    modifies c
    ensures i <= next <= |inputs| && c.inFlight == old(c.inFlight)
    ensures c.received == old(c.received) + |Events(inputs, i, next)|
    ensures aborted ==> next == |inputs| && AllArrive(inputs, i, next) && next - i < BATCH_SIZE
    ensures aborted ==> c.forwarded == old(c.forwarded) && c.dropped == old(c.dropped) && c.kernel == old(c.kernel)
    ensures aborted ==> c.decode == old(c.decode) && c.decoded == old(c.decoded)
    ensures aborted ==> offered' == offered && dropCount' == dropCount && reports' == reports && last' == last
    ensures !aborted ==> Round(inputs, i, next) && (closed <==> inputs[next - 1].signal.Closed?)
    ensures !aborted ==>
              var batch, accepted := Events(inputs, i, next), inputs[next - 1].accepted;
              && c.forwarded == old(c.forwarded) + (if accepted then |batch| else 0)
              && c.dropped == old(c.dropped) + (if accepted then 0 else |batch|)
              && offered' == (if batch == [] then offered else offered + [batch])
              && dropCount' == dropCount + (if accepted then 0 else |batch|)
              && reports' == (if accepted || batch == [] then reports else reports + [dropCount'])
    ensures !aborted ==>
              var reading := inputs[next - 1].reading;
              var g := if reading.None? then ZERO else Gained(last, reading.value);
              && c.kernel == old(c.kernel) + g.kernel && c.decode == old(c.decode) + g.decode
              && c.decoded == old(c.decoded) + g.decoded
              && last' == if reading.Some? && Grown(last, reading.value) then reading.value else last
  {
    offered', dropCount', reports', last' := offered, dropCount, reports, last;
    var guard := new InFlightBatch(c);
    var batch, ready;
    batch, next, ready, closed := Collect(c, guard, inputs, i);
    aborted := !ready && !closed;
    if !aborted {
      var input := inputs[next - 1];
      offered', dropCount', reports' := Deliver(c, guard, batch, input.accepted, offered, dropCount, reports);
      last' := PollCounters(c, last, input.reading);
    }
    guard.ReleaseAll();
  }

  /** The locals of the forwarder task agree with the forwarder f. */
  predicate Agrees(f: Forwarder, offered: seq<seq<Event>>, dropCount: nat, reports: seq<nat>, last: Reading) {
    offered == f.offered && dropCount == f.dropCount && reports == f.reports && last == f.last
  }

  /** The whole loop: collect until the batch is full, the deadline passes or the stream closes; offer; report;
      repeat. Whatever the outcomes are, it does what the pipeline's steps do, and leaves the gauge as it found it. */
  method RunForwarder(c: Counters, inputs: seq<Input>)
    returns (offered: seq<seq<Event>>, dropCount: nat, reports: seq<nat>, last: Reading, ended: bool)
    modifies c
    ensures var f := Life(inputs, |inputs|);
            && Agrees(f, offered, dropCount, reports, last) && (ended <==> f.status == Ended)
            && c.inFlight == old(c.inFlight) && c.received == old(c.received) + |f.received|
            && c.forwarded == old(c.forwarded) + f.sent && c.dropped == old(c.dropped) + f.dropCount
            && c.kernel == old(c.kernel) + Gains(f.readings, Kernel)
            && c.decode == old(c.decode) + Gains(f.readings, Decode)
            && c.decoded == old(c.decoded) + Gains(f.readings, Decoded)
  {
    offered, dropCount, reports, last, ended := [], 0, [], ZERO, false;
    var i, aborted := 0, false;
    while !ended && !aborted
      invariant i <= |inputs| && (aborted ==> i == |inputs| && !ended)
      invariant var f := Life(inputs, i);
                && Agrees(f, offered, dropCount, reports, last)
                && (if ended then f.status == Ended else f.status == Running)
                && (!ended && !aborted ==> Between(f))
                && c.inFlight == old(c.inFlight) && c.received == old(c.received) + |f.received|
                && c.forwarded == old(c.forwarded) + f.sent && c.dropped == old(c.dropped) + f.dropCount
                && c.kernel == old(c.kernel) + Gains(f.readings, Kernel)
                && c.decode == old(c.decode) + Gains(f.readings, Decode)
                && c.decoded == old(c.decoded) + Gains(f.readings, Decoded)
      decreases |inputs| - i, !aborted
    {
      ghost var start := i;
      i, ended, aborted, offered, dropCount, reports, last := DoRound(c, inputs, i, offered, dropCount, reports, last);
      if aborted {
        GatheredRest(inputs, start);
        ended := false;
      } else {
        RoundAdvances(inputs, start, i);
      }
    }
    if ended {
      LifeEnds(inputs, i, |inputs|);
    }
  }
}
