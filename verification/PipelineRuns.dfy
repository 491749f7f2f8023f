/**
  Any number of forwarders over one set of shared counters: spawned, fed, ended and aborted in any order.
*/
module PipelineRuns {
  import opened Options
  import opened Truncation
  import opened Pipeline

  /** The shared counters. `dropped` belongs to one manager; the others outlive it. */
  datatype Totals = Totals(received: int, inFlight: int, forwarded: int, dropped: int,
                           kernel: int, decode: int, decoded: int)

  /** All forwarders ever spawned, in order. */
  datatype World = World(totals: Totals, forwarders: seq<Forwarder>)

  datatype Action = Spawn | Feed(k: nat, input: Input) | Kill(k: nat)

  /** What one step of forwarder f does to the shared counters. */
  function Account(t: Totals, f: Forwarder, i: Input): Totals {
    var one := if i.signal.Arrive? then 1 else 0;
    var t1 := t.(received := t.received + one, inFlight := t.inFlight + one);
    if !Flushes(f, i) then t1
    else
      var n, held := |f.batch| + one, f.held + one;
      var t2 :=
        if n == 0 then t1
        else if i.accepted then t1.(forwarded := t1.forwarded + n, inFlight := t1.inFlight - held)
        else t1.(dropped := t1.dropped + n, inFlight := t1.inFlight - held);
      if i.reading.None? then t2
      else
        var g := Gained(f.last, i.reading.value);
        t2.(kernel := t2.kernel + g.kernel, decode := t2.decode + g.decode, decoded := t2.decoded + g.decoded)
  }

  predicate IsRunning(w: World, k: nat) {
    k < |w.forwarders| && w.forwarders[k].status == Running
  }

  /** Feeding or aborting a forwarder that is not running does nothing. */
  function Step(w: World, a: Action): World {
    match a
    case Spawn => w.(forwarders := w.forwarders + [FRESH])
    case Feed(k, i) =>
      if !IsRunning(w, k) then w
      else World(Account(w.totals, w.forwarders[k], i), w.forwarders[k := Absorb(w.forwarders[k], i)])
    case Kill(k) =>
      if !IsRunning(w, k) then w
      else World(w.totals.(inFlight := w.totals.inFlight - w.forwarders[k].held),
                 w.forwarders[k := Abort(w.forwarders[k])])
  }

  /** The world after a sequence of actions, from counters that stand at `t`. */
  function Exec(t: Totals, actions: seq<Action>): World {
    if actions == [] then World(t, []) else Step(Exec(t, actions[..|actions| - 1]), actions[|actions| - 1])
  }

  // ---------------------------------------------------------------- sums

  function Sum(fs: seq<Forwarder>, g: Forwarder -> int): int {
    if fs == [] then 0 else Sum(fs[..|fs| - 1], g) + g(fs[|fs| - 1])
  }

  lemma SumAppend(fs: seq<Forwarder>, f: Forwarder, g: Forwarder -> int)
    ensures Sum(fs + [f], g) == Sum(fs, g) + g(f)
  {
    assert (fs + [f])[..|fs|] == fs;
  }

  lemma {:induction false} SumUpdate(fs: seq<Forwarder>, k: nat, f: Forwarder, g: Forwarder -> int)
    requires k < |fs|
    ensures Sum(fs[k := f], g) == Sum(fs, g) - g(fs[k]) + g(f)
  {
    var n := |fs| - 1;
    if k < n {
      SumUpdate(fs[..n], k, f, g);
      assert fs[k := f][..n] == fs[..n][k := f];
    } else {
      assert fs[k := f][..n] == fs[..n];
    }
  }

  lemma {:induction false} SumOfNothing(fs: seq<Forwarder>, g: Forwarder -> int)
    requires forall f :: f in fs ==> g(f) == 0
    ensures Sum(fs, g) == 0
  {
    if fs != [] {
      SumOfNothing(fs[..|fs| - 1], g);
    }
  }

  function Received(f: Forwarder): int { |f.received| }
  function Batched(f: Forwarder): int { |f.batch| }
  function Sent(f: Forwarder): int { f.sent }
  function Dropped(f: Forwarder): int { f.dropCount }
  function Lost(f: Forwarder): int { |f.lost| }
  function KernelGain(f: Forwarder): int { Gains(f.readings, Kernel) }
  function DecodeGain(f: Forwarder): int { Gains(f.readings, Decode) }
  function DecodedGain(f: Forwarder): int { Gains(f.readings, Decoded) }
  function LastKernel(f: Forwarder): int { f.last.kernel }
  function LastDecode(f: Forwarder): int { f.last.decode }
  function LastDecoded(f: Forwarder): int { f.last.decoded }

  /** Seven counters, each the sum of what the forwarders did, on top of where it stood. */
  ghost predicate Balanced(t: Totals, w: World) {
    && w.totals.received == t.received + Sum(w.forwarders, Received)
    && w.totals.inFlight == t.inFlight + Sum(w.forwarders, Batched)
    && w.totals.forwarded == t.forwarded + Sum(w.forwarders, Sent)
    && w.totals.dropped == t.dropped + Sum(w.forwarders, Dropped)
    && w.totals.kernel == t.kernel + Sum(w.forwarders, KernelGain)
    && w.totals.decode == t.decode + Sum(w.forwarders, DecodeGain)
    && w.totals.decoded == t.decoded + Sum(w.forwarders, DecodedGain)
  }

  ghost predicate AllValid(w: World) {
    forall k :: 0 <= k < |w.forwarders| ==> ForwarderInv(w.forwarders[k])
  }

  /** Replacing one forwarder changes each sum by that forwarder's own difference. */
  lemma ReplaceBalances(t: Totals, w: World, k: nat, f': Forwarder, totals': Totals)
    requires Balanced(t, w) && k < |w.forwarders|
    requires Matches(w.totals, totals', w.forwarders[k], f')
    ensures Balanced(t, World(totals', w.forwarders[k := f']))
  {
    SumUpdate(w.forwarders, k, f', Received);
    SumUpdate(w.forwarders, k, f', Batched);
    SumUpdate(w.forwarders, k, f', Sent);
    SumUpdate(w.forwarders, k, f', Dropped);
    SumUpdate(w.forwarders, k, f', KernelGain);
    SumUpdate(w.forwarders, k, f', DecodeGain);
    SumUpdate(w.forwarders, k, f', DecodedGain);
  }

  /** How offering the batch and polling the counters move a forwarder's own record. */
  lemma FlushCounts(f: Forwarder, accepted: bool)
    ensures var f' := Flush(f, accepted);
            && Received(f') == Received(f) && Batched(f') == 0
            && Sent(f') == Sent(f) + (if accepted then |f.batch| else 0)
            && Dropped(f') == Dropped(f) + (if accepted then 0 else |f.batch|)
            && f'.last == f.last && f'.readings == f.readings
  {
  }

  lemma PollGains(f: Forwarder, reading: Option<Reading>, k: Counter)
    requires ReadingInv(f)
    ensures var g := if reading.None? then ZERO else Gained(f.last, reading.value);
            Gains(Poll(f, reading).readings, k) == Gains(f.readings, k) + Value(g, k)
  {
    if reading.Some? {
      assert (f.readings + [reading.value])[..|f.readings|] == f.readings;
    }
  }

  predicate Matches(t: Totals, t': Totals, f: Forwarder, f': Forwarder) {
    EventsMatch(t, t', f, f') && GainsMatch(t, t', f, f')
  }

  predicate EventsMatch(t: Totals, t': Totals, f: Forwarder, f': Forwarder) {
    && t'.received - t.received == Received(f') - Received(f)
    && t'.inFlight - t.inFlight == Batched(f') - Batched(f)
    && t'.forwarded - t.forwarded == Sent(f') - Sent(f)
    && t'.dropped - t.dropped == Dropped(f') - Dropped(f)
  }

  predicate GainsMatch(t: Totals, t': Totals, f: Forwarder, f': Forwarder) {
    && t'.kernel - t.kernel == KernelGain(f') - KernelGain(f)
    && t'.decode - t.decode == DecodeGain(f') - DecodeGain(f)
    && t'.decoded - t.decoded == DecodedGain(f') - DecodedGain(f)
  }

  lemma EventsAreAccounted(t: Totals, f: Forwarder, i: Input)
    requires f.held == |f.batch|
    ensures EventsMatch(t, Account(t, f, i), f, Absorb(f, i))
  {
    var f1 := if i.signal.Arrive? then Push(f, i.signal.event) else f;
    if Flushes(f, i) {
      var f2 := Flush(f1, i.accepted);
      FlushCounts(f1, i.accepted);
      PollFrames(f2, i.reading);
    }
  }

  lemma AbsorbPolls(f: Forwarder, i: Input)
    ensures Absorb(f, i).readings == if Flushes(f, i) then Poll(f, i.reading).readings else f.readings
  {
    var f1 := if i.signal.Arrive? then Push(f, i.signal.event) else f;
    FlushCounts(f1, i.accepted);
  }

  /** What one step adds to the totals of the adapter's counters. */
  function GainOf(f: Forwarder, i: Input): Reading {
    if Flushes(f, i) && i.reading.Some? then Gained(f.last, i.reading.value) else ZERO
  }

  lemma AbsorbGains(f: Forwarder, i: Input, k: Counter)
    requires ReadingInv(f)
    ensures Gains(Absorb(f, i).readings, k) == Gains(f.readings, k) + Value(GainOf(f, i), k)
  {
    AbsorbPolls(f, i);
    PollGains(f, i.reading, k);
  }

  lemma AccountGains(t: Totals, f: Forwarder, i: Input)
    ensures var t', g := Account(t, f, i), GainOf(f, i);
            t'.kernel == t.kernel + g.kernel && t'.decode == t.decode + g.decode && t'.decoded == t.decoded + g.decoded
  {
  }

  lemma GainsFollow(t: Totals, t': Totals, f: Forwarder, f': Forwarder, g: Reading)
    requires t'.kernel == t.kernel + g.kernel && t'.decode == t.decode + g.decode && t'.decoded == t.decoded + g.decoded
    requires Gains(f'.readings, Kernel) == Gains(f.readings, Kernel) + Value(g, Kernel)
    requires Gains(f'.readings, Decode) == Gains(f.readings, Decode) + Value(g, Decode)
    requires Gains(f'.readings, Decoded) == Gains(f.readings, Decoded) + Value(g, Decoded)
    ensures GainsMatch(t, t', f, f')
  {
  }

  lemma GainsAreAccounted(t: Totals, f: Forwarder, i: Input)
    requires ReadingInv(f)
    ensures GainsMatch(t, Account(t, f, i), f, Absorb(f, i))
  {
    AbsorbGains(f, i, Kernel);
    AbsorbGains(f, i, Decode);
    AbsorbGains(f, i, Decoded);
    AccountGains(t, f, i);
    GainsFollow(t, Account(t, f, i), f, Absorb(f, i), GainOf(f, i));
  }

  /** The shared counters move exactly as the forwarder's own record does. */
  lemma AccountMatches(t: Totals, f: Forwarder, i: Input)
    requires f.held == |f.batch| && ReadingInv(f)
    ensures Matches(t, Account(t, f, i), f, Absorb(f, i))
  {
    EventsAreAccounted(t, f, i);
    GainsAreAccounted(t, f, i);
  }

  lemma FreshCountsNothing()
    ensures Received(FRESH) == Batched(FRESH) == Sent(FRESH) == Dropped(FRESH) == 0
    ensures KernelGain(FRESH) == DecodeGain(FRESH) == DecodedGain(FRESH) == 0
  {
  }

  lemma SpawnBalances(t: Totals, totals: Totals, fs: seq<Forwarder>, f: Forwarder)
    requires Balanced(t, World(totals, fs))
    requires Received(f) == Batched(f) == Sent(f) == Dropped(f) == 0
    requires KernelGain(f) == DecodeGain(f) == DecodedGain(f) == 0
    ensures Balanced(t, World(totals, fs + [f]))
  {
    SumAppend(fs, f, Received);
    SumAppend(fs, f, Batched);
    SumAppend(fs, f, Sent);
    SumAppend(fs, f, Dropped);
    SumAppend(fs, f, KernelGain);
    SumAppend(fs, f, DecodeGain);
    SumAppend(fs, f, DecodedGain);
  }

  lemma SpawnKeepsValid(totals: Totals, fs: seq<Forwarder>, f: Forwarder)
    requires AllValid(World(totals, fs)) && ForwarderInv(f)
    ensures AllValid(World(totals, fs + [f]))
  {
    var w, w' := World(totals, fs), World(totals, fs + [f]);
    forall k | 0 <= k < |w'.forwarders| ensures ForwarderInv(w'.forwarders[k]) {
      if k < |fs| {
        assert ForwarderInv(w.forwarders[k]);
      }
    }
  }

  lemma ReplaceKeepsValid(w: World, k: nat, f: Forwarder, totals: Totals)
    requires AllValid(w) && k < |w.forwarders| && ForwarderInv(f)
    ensures AllValid(World(totals, w.forwarders[k := f]))
  {
  }

  lemma SpawnKeeps(t: Totals, w: World)
    requires Balanced(t, w) && AllValid(w)
    ensures Balanced(t, Step(w, Spawn)) && AllValid(Step(w, Spawn))
  {
    assert Balanced(t, Step(w, Spawn)) by {
      FreshCountsNothing();
      SpawnBalances(t, w.totals, w.forwarders, FRESH);
    }
    assert AllValid(Step(w, Spawn)) by {
      FreshIsValid();
      SpawnKeepsValid(w.totals, w.forwarders, FRESH);
    }
  }

  lemma FeedKeeps(t: Totals, w: World, k: nat, i: Input)
    requires Balanced(t, w) && AllValid(w) && IsRunning(w, k)
    ensures Balanced(t, Step(w, Feed(k, i))) && AllValid(Step(w, Feed(k, i)))
  {
    var f := w.forwarders[k];
    AbsorbKeepsInv(f, i);
    AccountMatches(w.totals, f, i);
    ReplaceBalances(t, w, k, Absorb(f, i), Account(w.totals, f, i));
    ReplaceKeepsValid(w, k, Absorb(f, i), Account(w.totals, f, i));
  }

  lemma KillKeeps(t: Totals, w: World, k: nat)
    requires Balanced(t, w) && AllValid(w) && IsRunning(w, k)
    ensures Balanced(t, Step(w, Kill(k))) && AllValid(Step(w, Kill(k)))
  {
    var f := w.forwarders[k];
    AbortKeepsInv(f);
    ReplaceBalances(t, w, k, Abort(f), Step(w, Kill(k)).totals);
    ReplaceKeepsValid(w, k, Abort(f), Step(w, Kill(k)).totals);
  }

  lemma StepKeeps(t: Totals, w: World, a: Action)
    requires Balanced(t, w) && AllValid(w)
    ensures Balanced(t, Step(w, a)) && AllValid(Step(w, a))
  {
    if a.Spawn? {
      SpawnKeeps(t, w);
    } else if IsRunning(w, a.k) {
      if a.Feed? {
        FeedKeeps(t, w, a.k, a.input);
      } else {
        KillKeeps(t, w, a.k);
      }
    }
  }

  lemma {:induction false} RunKeeps(t: Totals, actions: seq<Action>)
    ensures Balanced(t, Exec(t, actions)) && AllValid(Exec(t, actions))
  {
    if actions != [] {
      RunKeeps(t, actions[..|actions| - 1]);
      StepKeeps(t, Exec(t, actions[..|actions| - 1]), actions[|actions| - 1]);
    }
  }

  // ---------------------------------------------------------------- what holds after every run

  lemma {:induction false} EventsAddUp(fs: seq<Forwarder>)
    requires forall k :: 0 <= k < |fs| ==> ForwarderInv(fs[k])
    ensures Sum(fs, Received) == Sum(fs, Sent) + Sum(fs, Dropped) + Sum(fs, Batched) + Sum(fs, Lost)
  {
    if fs != [] {
      EventsAddUp(fs[..|fs| - 1]);
      var f := fs[|fs| - 1];
      assert |f.received| == |Flatten(f.offered)| + |f.batch| + |f.lost|;
    }
  }

  /** Conservation: with any number of forwarders and any aborts, every event received has been forwarded, dropped, is
      in flight, or was in the batch of an aborted forwarder; the gauge is the size of the live batches. */
  lemma Conservation(t: Totals, actions: seq<Action>)
    ensures var w := Exec(t, actions);
            && w.totals.inFlight - t.inFlight == Sum(w.forwarders, Batched)
            && w.totals.received - t.received ==
               (w.totals.forwarded - t.forwarded) + (w.totals.dropped - t.dropped)
               + (w.totals.inFlight - t.inFlight) + Sum(w.forwarders, Lost)
  {
    RunKeeps(t, actions);
    EventsAddUp(Exec(t, actions).forwarders);
  }

  /** With no forwarder running, the gauge is back where it stood. */
  lemma GaugeReturns(t: Totals, actions: seq<Action>)
    requires forall f :: f in Exec(t, actions).forwarders ==> f.status != Running
    ensures Exec(t, actions).totals.inFlight == t.inFlight
  {
    RunKeeps(t, actions);
    var w := Exec(t, actions);
    forall f | f in w.forwarders ensures Batched(f) == 0 {
      var k :| 0 <= k < |w.forwarders| && w.forwarders[k] == f;
      assert ForwarderInv(w.forwarders[k]);
    }
    SumOfNothing(w.forwarders, Batched);
  }

  lemma OfferedIsAPrefix(f: Forwarder)
    requires ForwarderInv(f)
    ensures Flatten(f.offered) <= f.received
    ensures f.status == Ended ==> Flatten(f.offered) == f.received
    ensures |f.received| - |Flatten(f.offered)| < BATCH_SIZE
  {
    assert f.received == Flatten(f.offered) + (f.batch + f.lost);
    assert f.status == Ended ==> f.batch + f.lost == [];
  }

  /** What one forwarder offers, in every run: its batches are a prefix of what it received, in order, none empty or
      above 64 events; after a normal close they are everything it received. */
  lemma BatchesPartitionTheStream(t: Totals, actions: seq<Action>, k: nat)
    requires k < |Exec(t, actions).forwarders|
    ensures var f := Exec(t, actions).forwarders[k];
            && Flatten(f.offered) <= f.received
            && (forall b :: b in f.offered ==> 1 <= |b| <= BATCH_SIZE)
            && (f.status == Ended ==> Flatten(f.offered) == f.received)
            && |f.received| - |Flatten(f.offered)| < BATCH_SIZE
  {
    RunKeeps(t, actions);
    OfferedIsAPrefix(Exec(t, actions).forwarders[k]);
  }

  /** The drop reports of one forwarder, in every run: exact, strictly increasing, and the last one is its counter. The
      global drop counter is the sum of all of them. */
  lemma DropsAreReported(t: Totals, actions: seq<Action>, k: nat)
    requires k < |Exec(t, actions).forwarders|
    ensures var f := Exec(t, actions).forwarders[k];
            && ReportsExact(f.refused, f.reports)
            && (f.reports != [] ==> f.reports[|f.reports| - 1] == f.dropCount)
            && (f.reports == [] ==> f.dropCount == 0)
    ensures Exec(t, actions).totals.dropped - t.dropped == Sum(Exec(t, actions).forwarders, Dropped)
  {
    RunKeeps(t, actions);
    var f := Exec(t, actions).forwarders[k];
    assert ForwarderInv(f);
    assert f.refused[..|f.refused|] == f.refused;
  }

  lemma {:induction false} SumsCompare(fs: seq<Forwarder>, g: Forwarder -> int, h: Forwarder -> int)
    requires forall f :: f in fs ==> g(f) >= h(f)
    ensures Sum(fs, g) >= Sum(fs, h)
    ensures Sum(fs, g) == Sum(fs, h) <==> forall f :: f in fs ==> g(f) == h(f)
  {
    if fs != [] {
      var n := |fs| - 1;
      SumsCompare(fs[..n], g, h);
      assert fs == fs[..n] + [fs[n]];
      assert fs[n] in fs;
    }
  }

  /** The condition under which a counter's total is the sum of the values last seen. */
  ghost predicate NoneDrops(fs: seq<Forwarder>, k: Counter) {
    forall f :: f in fs ==> NeverDrops(f.readings, k)
  }

  lemma GainsCompare(fs: seq<Forwarder>, k: Counter, g: Forwarder -> int, h: Forwarder -> int)
    requires forall f :: f in fs ==> ReadingInv(f) && g(f) == Gains(f.readings, k) && h(f) == Value(f.last, k)
    ensures Sum(fs, g) >= Sum(fs, h)
    ensures Sum(fs, g) == Sum(fs, h) <==> NoneDrops(fs, k)
  {
    forall f | f in fs ensures g(f) >= h(f) && (g(f) == h(f) <==> NeverDrops(f.readings, k)) {
      GainsAreLastIff(f.readings, k);
    }
    SumsCompare(fs, g, h);
  }

  lemma AllReadingsHold(w: World)
    requires AllValid(w)
    ensures forall f :: f in w.forwarders ==> ReadingInv(f)
  {
    forall f | f in w.forwarders ensures ReadingInv(f) {
      var k :| 0 <= k < |w.forwarders| && w.forwarders[k] == f;
      assert ForwarderInv(w.forwarders[k]);
    }
  }

  lemma CompareAll(fs: seq<Forwarder>)
    requires forall f :: f in fs ==> ReadingInv(f)
    ensures Sum(fs, KernelGain) >= Sum(fs, LastKernel)
    ensures Sum(fs, DecodeGain) >= Sum(fs, LastDecode)
    ensures Sum(fs, DecodedGain) >= Sum(fs, LastDecoded)
    ensures Sum(fs, KernelGain) == Sum(fs, LastKernel) <==> NoneDrops(fs, Kernel)
    ensures Sum(fs, DecodeGain) == Sum(fs, LastDecode) <==> NoneDrops(fs, Decode)
    ensures Sum(fs, DecodedGain) == Sum(fs, LastDecoded) <==> NoneDrops(fs, Decoded)
  {
    GainsCompare(fs, Kernel, KernelGain, LastKernel);
    GainsCompare(fs, Decode, DecodeGain, LastDecode);
    GainsCompare(fs, Decoded, DecodedGain, LastDecoded);
  }

  /** For arbitrary adapter counters, in every run: a global total is never below the sum of the values last seen, and
      equals it if and only if no reading that some forwarder took over had that counter below the one before. */
  lemma TotalsAreLastSeenIff(t: Totals, actions: seq<Action>)
    ensures var w := Exec(t, actions);
            && w.totals.kernel - t.kernel >= Sum(w.forwarders, LastKernel)
            && w.totals.decode - t.decode >= Sum(w.forwarders, LastDecode)
            && w.totals.decoded - t.decoded >= Sum(w.forwarders, LastDecoded)
            && (w.totals.kernel - t.kernel == Sum(w.forwarders, LastKernel) <==> NoneDrops(w.forwarders, Kernel))
            && (w.totals.decode - t.decode == Sum(w.forwarders, LastDecode) <==> NoneDrops(w.forwarders, Decode))
            && (w.totals.decoded - t.decoded == Sum(w.forwarders, LastDecoded) <==> NoneDrops(w.forwarders, Decoded))
  {
    RunKeeps(t, actions);
    var w := Exec(t, actions);
    AllReadingsHold(w);
    CompareAll(w.forwarders);
  }

  lemma SteadyNeverDrops(fs: seq<Forwarder>, k: Counter)
    requires forall f :: f in fs ==> NeverDecreasing(f.readings)
    ensures NoneDrops(fs, k)
  {
    forall f | f in fs ensures NeverDrops(f.readings, k) {
      SteadyReadings(f.readings, k);
      DropsWhenDropping(f.readings, k);
    }
  }

  /** If no adapter counter ever decreases, the global totals are the sums of the values last read. */
  lemma TotalsAreLastSeen(t: Totals, actions: seq<Action>)
    requires forall f :: f in Exec(t, actions).forwarders ==> NeverDecreasing(f.readings)
    ensures var w := Exec(t, actions);
            && w.totals.kernel - t.kernel == Sum(w.forwarders, LastKernel)
            && w.totals.decode - t.decode == Sum(w.forwarders, LastDecode)
            && w.totals.decoded - t.decoded == Sum(w.forwarders, LastDecoded)
            && forall f :: f in w.forwarders && f.readings != [] ==> f.last == f.readings[|f.readings| - 1]
  {
    var w := Exec(t, actions);
    TotalsAreLastSeenIff(t, actions);
    SteadyNeverDrops(w.forwarders, Kernel);
    SteadyNeverDrops(w.forwarders, Decode);
    SteadyNeverDrops(w.forwarders, Decoded);
    RunKeeps(t, actions);
    AllReadingsHold(w);
    forall f | f in w.forwarders && f.readings != [] ensures f.last == f.readings[|f.readings| - 1] {
      SteadyReadings(f.readings, Kernel);
    }
  }

  /** One forwarder, two readings: an adapter whose counters start again while one of them has grown leaves all three
      totals at 5 with 0 last seen. */
  lemma TotalsCanRunAhead(t: Totals) returns (actions: seq<Action>)
    ensures var w := Exec(t, actions);
            && w.totals.kernel - t.kernel == w.totals.decode - t.decode == w.totals.decoded - t.decoded == 5
            && Sum(w.forwarders, LastKernel) == Sum(w.forwarders, LastDecode) == Sum(w.forwarders, LastDecoded) == 0
  {
    var high, low := Reading(5, 5, 0, 5), Reading(0, 0, 1, 0);
    var a1, a2 := Feed(0, Input(Deadline, true, Some(high))), Feed(0, Input(Deadline, true, Some(low)));
    actions := [Spawn, a1, a2];
    assert actions[..2] == [Spawn, a1] && [Spawn, a1][..1] == [Spawn] && [Spawn][..0] == [];
    var f1, f2 := FRESH.(readings := [high], last := high), FRESH.(readings := [high, low], last := low);
    var t1 := t.(kernel := t.kernel + 5, decode := t.decode + 5, decoded := t.decoded + 5);
    assert [FRESH][0 := f1] == [f1] && [f1][0 := f2] == [f2];
    assert Step(World(t, []), Spawn) == World(t, [FRESH]) by { assert [] + [FRESH] == [FRESH]; }
    assert Step(World(t, [FRESH]), a1) == World(t1, [f1]) by { assert [] + [high] == [high]; }
    assert Step(World(t1, [f1]), a2) == World(t1, [f2]) by { assert [high] + [low] == [high, low]; }
    assert Exec(t, []) == World(t, []);
    assert Exec(t, [Spawn]) == World(t, [FRESH]);
    assert Exec(t, [Spawn, a1]) == World(t1, [f1]);
    assert [f2][..0] == [];
  }

  /** The bytes of serialised values in the message built from a batch. */
  function Payload(batch: seq<Event>): nat {
    if batch == [] then 0
    else Payload(batch[..|batch| - 1]) + |TruncateValuesJson(batch[|batch| - 1].valuesJson)|
  }

  lemma {:induction false} PayloadBound(batch: seq<Event>)
    requires forall e :: e in batch ==> |e.valuesJson| < USIZE
    ensures Payload(batch) <= |batch| * MAX_SIZE
  {
    if batch != [] {
      PayloadBound(batch[..|batch| - 1]);
      TruncationBounds(batch[|batch| - 1].valuesJson);
    }
  }

  lemma {:induction false} BatchesHoldReceivedEvents(batches: seq<seq<Event>>, b: seq<Event>, e: Event)
    requires b in batches && e in b
    ensures e in Flatten(batches)
  {
    if b != batches[|batches| - 1] {
      BatchesHoldReceivedEvents(batches[..|batches| - 1], b, e);
    }
  }

  /** No message carries more than 64 times 65536 bytes of values. */
  lemma MessagesAreBounded(t: Totals, actions: seq<Action>, k: nat, b: seq<Event>)
    requires k < |Exec(t, actions).forwarders| && b in Exec(t, actions).forwarders[k].offered
    requires forall e :: e in Exec(t, actions).forwarders[k].received ==> |e.valuesJson| < USIZE
    ensures Payload(b) <= 64 * 65536
  {
    BatchesPartitionTheStream(t, actions, k);
    var f := Exec(t, actions).forwarders[k];
    forall e | e in b ensures |e.valuesJson| < USIZE {
      BatchesHoldReceivedEvents(f.offered, b, e);
      assert f.received == Flatten(f.offered) + f.received[|Flatten(f.offered)|..];
    }
    PayloadBound(b);
  }
}
