/**
  The event pipeline of the agent: event forwarders that batch up to 64 events, offer each
  batch to a bounded channel, and keep shared counters.

  One step of a forwarder is what its task does between two suspension points, so it is one
  outcome of the `select!` and everything up to the next `select!`. Steps of any number of
  forwarders interleave, and a forwarder may be aborted between two of its steps.
*/
module Pipeline {
  import opened Options
  import opened Truncation

  const BATCH_SIZE: nat := 64

  /** A metric event; only its serialised values matter here. */
  datatype Event = Event(valuesJson: string)

  /** The four counters of an adapter; an adapter without a counter reads as 0. */
  datatype Reading = Reading(kernel: nat, decode: nat, unavailable: nat, decoded: nat)

  const ZERO := Reading(0, 0, 0, 0)

  datatype Signal = Arrive(event: Event) | Deadline | Closed

  /** One outcome of the `select!`. If a batch becomes ready, `accepted` is whether the channel has room for it, and
      `reading` is `Some` when a second has passed since the last counter report. */
  datatype Input = Input(signal: Signal, accepted: bool, reading: Option<Reading>)

  datatype Status = Running | Ended | Aborted

  /** A forwarder task. `held` is the count of its in-flight guard; the fields after `last` are its history. */
  datatype Forwarder = Forwarder(
    status: Status,
    batch: seq<Event>,
    held: nat,
    dropCount: nat,
    last: Reading,
    received: seq<Event>,
    offered: seq<seq<Event>>,
    refused: seq<seq<Event>>,
    reports: seq<nat>,
    sent: nat,
    lost: seq<Event>,
    readings: seq<Reading>)

  const FRESH := Forwarder(Running, [], 0, 0, ZERO, [], [], [], [], 0, [], [])

  function Minus(a: nat, b: nat): nat {
    if a > b then a - b else 0
  }

  /** Whether the new reading is reported: some counter has grown. */
  predicate Grown(last: Reading, r: Reading) {
    r.kernel > last.kernel || r.decode > last.decode || r.unavailable > last.unavailable || r.decoded > last.decoded
  }

  function Gained(last: Reading, r: Reading): Reading {
    if Grown(last, r)
    then Reading(Minus(r.kernel, last.kernel), Minus(r.decode, last.decode), 0, Minus(r.decoded, last.decoded))
    else ZERO
  }

  function Poll(f: Forwarder, reading: Option<Reading>): Forwarder {
    if reading.None? then f
    else
      var r := reading.value;
      f.(readings := f.readings + [r], last := if Grown(f.last, r) then r else f.last)
  }

  /** Offer the batch, if there is one, and start the next with a new guard. */
  function Flush(f: Forwarder, accepted: bool): Forwarder {
    if f.batch == [] then f
    else
      var n := |f.batch|;
      var f1 := f.(batch := [], held := 0, offered := f.offered + [f.batch]);
      if accepted then f1.(sent := f.sent + n)
      else f1.(dropCount := f.dropCount + n, refused := f.refused + [f.batch], reports := f.reports + [f.dropCount + n])
  }

  function Push(f: Forwarder, e: Event): Forwarder {
    f.(received := f.received + [e], held := f.held + 1, batch := f.batch + [e])
  }

  predicate Flushes(f: Forwarder, i: Input) {
    i.signal.Arrive? ==> |f.batch| + 1 >= BATCH_SIZE
  }

  /** What follows the collection of a batch. */
  function Offer(f: Forwarder, i: Input): Forwarder {
    var f1 := Poll(Flush(f, i.accepted), i.reading);
    if i.signal.Closed? then f1.(status := Ended) else f1
  }

  /** One step of a running forwarder. */
  function Absorb(f: Forwarder, i: Input): Forwarder {
    var f1 := if i.signal.Arrive? then Push(f, i.signal.event) else f;
    if Flushes(f, i) then Offer(f1, i) else f1
  }

  /** Aborting drops the guard, which gives its count back, and the events of the current batch. */
  function Abort(f: Forwarder): Forwarder {
    f.(status := Aborted, batch := [], held := 0, lost := f.batch)
  }

  // ---------------------------------------------------------------- the readings of an adapter

  /** The reading taken over last: a reading is taken over when some counter is above the one taken over before. */
  function Taken(rs: seq<Reading>): Reading {
    if rs == [] then ZERO
    else
      var last, r := Taken(rs[..|rs| - 1]), rs[|rs| - 1];
      if Grown(last, r) then r else last
  }

  /** The counters that have a global total. */
  datatype Counter = Kernel | Decode | Decoded

  function Value(r: Reading, k: Counter): nat {
    match k
    case Kernel => r.kernel
    case Decode => r.decode
    case Decoded => r.decoded
  }

  /** What the readings add to the total of a counter. */
  function Gains(rs: seq<Reading>, k: Counter): nat {
    if rs == [] then 0
    else Gains(rs[..|rs| - 1], k) + Value(Gained(Taken(rs[..|rs| - 1]), rs[|rs| - 1]), k)
  }

  /** By how much the counter fell, over all readings taken over. */
  function Drops(rs: seq<Reading>, k: Counter): nat {
    if rs == [] then 0
    else
      var last, r := Taken(rs[..|rs| - 1]), rs[|rs| - 1];
      Drops(rs[..|rs| - 1], k) + if Grown(last, r) then Minus(Value(last, k), Value(r, k)) else 0
  }

  /** The reading r is taken over, and has the counter below the one taken over before. */
  predicate Falls(last: Reading, r: Reading, k: Counter) {
    Grown(last, r) && Value(r, k) < Value(last, k)
  }

  ghost predicate NeverDrops(rs: seq<Reading>, k: Counter) {
    forall n :: 0 <= n < |rs| ==> !Falls(Taken(rs[..n]), rs[n], k)
  }

  lemma NeverDropsNext(rs: seq<Reading>, k: Counter)
    requires rs != []
    ensures var m := |rs| - 1; NeverDrops(rs, k) <==> NeverDrops(rs[..m], k) && !Falls(Taken(rs[..m]), rs[m], k)
  {
    var m := |rs| - 1;
    forall n | 0 <= n < m ensures rs[..m][..n] == rs[..n] && rs[..m][n] == rs[n] {
    }
  }

  lemma {:induction false} GainsAreLastAndDrops(rs: seq<Reading>, k: Counter)
    ensures Gains(rs, k) == Value(Taken(rs), k) + Drops(rs, k)
  {
    if rs != [] {
      GainsAreLastAndDrops(rs[..|rs| - 1], k);
    }
  }

  lemma {:induction false} DropsWhenDropping(rs: seq<Reading>, k: Counter)
    ensures Drops(rs, k) == 0 <==> NeverDrops(rs, k)
  {
    if rs != [] {
      DropsWhenDropping(rs[..|rs| - 1], k);
      NeverDropsNext(rs, k);
    }
  }

  /** What a counter gained is what was taken over last, if and only if it never dropped. */
  lemma GainsAreLastIff(rs: seq<Reading>, k: Counter)
    ensures Gains(rs, k) >= Value(Taken(rs), k)
    ensures Gains(rs, k) == Value(Taken(rs), k) <==> NeverDrops(rs, k)
  {
    GainsAreLastAndDrops(rs, k);
    DropsWhenDropping(rs, k);
  }

  /** Counters that never decrease are taken over as last read, and never drop. */
  lemma {:induction false} SteadyReadings(rs: seq<Reading>, k: Counter)
    requires NeverDecreasing(rs)
    ensures Taken(rs) == if rs == [] then ZERO else rs[|rs| - 1]
    ensures Drops(rs, k) == 0
  {
    if rs != [] {
      var m := |rs| - 1;
      var rest := rs[..m];
      forall i | 0 <= i < |rest| - 1 ensures AtMost(rest[i], rest[i + 1]) {
        assert AtMost(rs[i], rs[i + 1]);
      }
      SteadyReadings(rest, k);
      assert m > 0 ==> AtMost(rs[m - 1], rs[m - 1 + 1]);
    }
  }

  // ---------------------------------------------------------------- one forwarder

  function Flatten(batches: seq<seq<Event>>): seq<Event> {
    if batches == [] then [] else Flatten(batches[..|batches| - 1]) + batches[|batches| - 1]
  }

  lemma FlattenAppend(batches: seq<seq<Event>>, b: seq<Event>)
    ensures Flatten(batches + [b]) == Flatten(batches) + b
  {
    assert (batches + [b])[..|batches|] == batches;
  }

  predicate AtMost(a: Reading, b: Reading) {
    a.kernel <= b.kernel && a.decode <= b.decode && a.unavailable <= b.unavailable && a.decoded <= b.decoded
  }

  /** The adapter's counters never decrease from one reading to the next. */
  ghost predicate NeverDecreasing(rs: seq<Reading>) {
    forall i :: 0 <= i < |rs| - 1 ==> AtMost(rs[i], rs[i + 1])
  }

  /** The batches partition what was received, and the guard counts the current one, of at most `limit` events. */
  ghost predicate StreamInv(f: Forwarder, limit: nat) {
    && f.held == |f.batch| <= limit
    && (f.status != Running ==> f.batch == [])
    && (f.status != Aborted ==> f.lost == [])
    && |f.lost| < BATCH_SIZE
    && Flatten(f.offered) + f.batch + f.lost == f.received
    && (forall b :: b in f.offered ==> 1 <= |b| <= BATCH_SIZE)
  }

  /** Every offered event was sent or dropped; each report is the exact number of events dropped so far, and the reports
      strictly increase. */
  ghost predicate DropInv(f: Forwarder) {
    && f.sent + f.dropCount == |Flatten(f.offered)|
    && f.dropCount == |Flatten(f.refused)|
    && ReportsExact(f.refused, f.reports)
  }

  ghost predicate ReportsExact(refused: seq<seq<Event>>, reports: seq<nat>) {
    && |reports| == |refused|
    && (forall i :: 0 <= i < |reports| ==> reports[i] == |Flatten(refused[..i + 1])|)
    && (forall i :: 0 <= i < |reports| - 1 ==> reports[i] < reports[i + 1])
  }

  ghost predicate ReadingInv(f: Forwarder) {
    f.last == Taken(f.readings)
  }

  ghost predicate ForwarderInv(f: Forwarder) {
    StreamInv(f, BATCH_SIZE - 1) && DropInv(f) && ReadingInv(f)
  }

  lemma PollKeepsReadingInv(f: Forwarder, reading: Option<Reading>)
    requires ReadingInv(f)
    ensures ReadingInv(Poll(f, reading))
  {
    if reading.Some? {
      assert (f.readings + [reading.value])[..|f.readings|] == f.readings;
    }
  }

  lemma FlushKeepsStreamInv(f: Forwarder, accepted: bool)
    requires StreamInv(f, BATCH_SIZE) && f.status == Running
    ensures StreamInv(Flush(f, accepted), 0)
  {
    FlattenAppend(f.offered, f.batch);
    assert Flatten(f.offered) + f.batch + [] == Flatten(f.offered) + f.batch;
  }

  lemma FlushKeepsDropInv(f: Forwarder, accepted: bool)
    requires DropInv(f)
    ensures DropInv(Flush(f, accepted))
  {
    var f' := Flush(f, accepted);
    FlattenAppend(f.offered, f.batch);
    if f.batch != [] && !accepted {
      FlattenAppend(f.refused, f.batch);
      forall i | 0 <= i < |f'.reports| ensures f'.reports[i] == |Flatten(f'.refused[..i + 1])| {
        assert f'.refused[..i + 1] == if i < |f.reports| then f.refused[..i + 1] else f'.refused;
      }
      assert |f.reports| > 0 ==> f.refused[..|f.reports| - 1 + 1] == f.refused;
    }
  }

  lemma PushKeepsStreamInv(f: Forwarder, e: Event)
    requires StreamInv(f, BATCH_SIZE - 1) && f.status == Running
    ensures StreamInv(Push(f, e), BATCH_SIZE)
  {
    assert Flatten(f.offered) + (f.batch + [e]) + [] == Flatten(f.offered) + f.batch + f.lost + [e];
  }

  /** Polling the counters touches neither the stream nor the drops. */
  lemma PollFrames(f: Forwarder, reading: Option<Reading>)
    ensures var f' := Poll(f, reading);
            f' == f.(readings := f'.readings, last := f'.last)
  {
  }

  lemma AbsorbKeepsStreamInv(f: Forwarder, i: Input)
    requires StreamInv(f, BATCH_SIZE - 1) && f.status == Running
    ensures StreamInv(Absorb(f, i), BATCH_SIZE - 1)
  {
    var f1 := f;
    if i.signal.Arrive? {
      PushKeepsStreamInv(f, i.signal.event);
      f1 := Push(f, i.signal.event);
    }
    if Flushes(f, i) {
      var f2 := Flush(f1, i.accepted);
      FlushKeepsStreamInv(f1, i.accepted);
      PollFrames(f2, i.reading);
      var f3 := Poll(f2, i.reading);
      assert StreamInv(f3, 0);
      assert Absorb(f, i) == if i.signal.Closed? then f3.(status := Ended) else f3;
    } else {
      assert Absorb(f, i) == f1;
    }
  }

  lemma AbsorbKeepsDropInv(f: Forwarder, i: Input)
    requires DropInv(f)
    ensures DropInv(Absorb(f, i))
  {
    var f1 := if i.signal.Arrive? then Push(f, i.signal.event) else f;
    assert DropInv(f1);
    if Flushes(f, i) {
      var f2 := Flush(f1, i.accepted);
      FlushKeepsDropInv(f1, i.accepted);
      PollFrames(f2, i.reading);
      assert DropInv(Poll(f2, i.reading));
    } else {
      assert Absorb(f, i) == f1;
    }
  }

  lemma AbsorbKeepsReadingInv(f: Forwarder, i: Input)
    requires ReadingInv(f)
    ensures ReadingInv(Absorb(f, i))
  {
    var f1 := if i.signal.Arrive? then Push(f, i.signal.event) else f;
    PollKeepsReadingInv(Flush(f1, i.accepted), i.reading);
  }

  lemma AbsorbKeepsInv(f: Forwarder, i: Input)
    requires ForwarderInv(f) && f.status == Running
    ensures ForwarderInv(Absorb(f, i))
  {
    AbsorbKeepsStreamInv(f, i);
    AbsorbKeepsDropInv(f, i);
    AbsorbKeepsReadingInv(f, i);
  }

  lemma FreshIsValid()
    ensures ForwarderInv(FRESH)
  {
  }

  lemma AbortKeepsInv(f: Forwarder)
    requires ForwarderInv(f) && f.status == Running
    ensures ForwarderInv(Abort(f))
  {
    assert Flatten(f.offered) + [] + f.batch == Flatten(f.offered) + f.batch + f.lost;
  }
}
