/**
  The process scanner: it remembers the binaries it last reported, reports removals at once, and holds back
  additions for five minutes after each report that is not a removal. Times are in nanoseconds.
*/
module Scanner {
  import opened Options

  const SECOND: nat := 1_000_000_000
  const COOLDOWN_SECS: nat := 300
  const COOLDOWN: nat := COOLDOWN_SECS * SECOND

  datatype BinaryInfo = BinaryInfo(path: string, pid: nat, inode: nat, hasDwarf: bool, language: string)

  /** Same pid and another inode is another process. */
  type Key = (nat, nat)

  type View = map<Key, BinaryInfo>

  function KeyOf(b: BinaryInfo): Key {
    (b.pid, b.inode)
  }

  /** The view a list of binaries gives; a later entry replaces an earlier one with the same key. */
  function ToView(bs: seq<BinaryInfo>): View {
    if bs == [] then map[] else ToView(bs[..|bs| - 1])[KeyOf(bs[|bs| - 1]) := bs[|bs| - 1]]
  }

  /** The cooldown compares whole seconds. */
  predicate Cooling(last: Option<nat>, now: nat) {
    last.Some? && Elapsed(last.value, now) / SECOND < COOLDOWN_SECS
  }

  function Elapsed(since: nat, now: nat): nat {
    if since <= now then now - since else 0
  }

  lemma CoolingMeans(last: Option<nat>, now: nat)
    ensures Cooling(last, now) <==> last.Some? && now < last.value + COOLDOWN
  {
  }

  predicate Removed(known: View, seen: View) {
    exists k :: k in known && k !in seen
  }

  // ---------------------------------------------------------------- detecting a change

  lemma {:induction false} SubsetOfSameSize<T>(a: set<T>, b: set<T>)
    requires a <= b && |a| == |b|
    ensures a == b
  {
    if a != {} {
      var x :| x in a;
      SubsetOfSameSize(a - {x}, b - {x});
      assert a == (a - {x}) + {x} && b == (b - {x}) + {x};
    }
  }

  /** The scanner's test for a change: another size, or an entry that the known view does not have. */
  predicate LooksChanged(known: View, seen: View) {
    |seen| != |known| || exists k :: k in seen && (k !in known || known[k] != seen[k])
  }

  /** Equal size plus inclusion is equality, so the test is exact. */
  lemma LooksChangedIsExact(known: View, seen: View)
    ensures LooksChanged(known, seen) <==> seen != known
  {
    if !LooksChanged(known, seen) {
      assert seen.Keys <= known.Keys;
      assert |seen.Keys| == |seen| && |known.Keys| == |known|;
      SubsetOfSameSize(seen.Keys, known.Keys);
    }
  }

  // ---------------------------------------------------------------- the scanner

  datatype ScanState = ScanState(known: View, last: Option<nat>)

  /** What a delta scan reports, and what it leaves. */
  function Delta(s: ScanState, bs: seq<BinaryInfo>, now: nat): (ScanState, Option<seq<BinaryInfo>>) {
    var seen := ToView(bs);
    if Removed(s.known, seen) then (ScanState(seen, None), Some(bs))
    else if seen != s.known && !Cooling(s.last, now) then (ScanState(seen, Some(now)), Some(bs))
    else (s, None)
  }

  class ProcScanner {
    var known: View
    var lastRegisteredAt: Option<nat>

    function Model(): ScanState
      reads this
    {
      ScanState(known, lastRegisteredAt)
    }

    constructor ()
      ensures Model() == ScanState(map[], None)
    {
      known, lastRegisteredAt := map[], None;
    }

    method Collect(bs: seq<BinaryInfo>) returns (view: View)
      ensures view == ToView(bs)
    {
      view := map[];
      for i := 0 to |bs|
        invariant view == ToView(bs[..i])
      {
        assert bs[..i + 1][..i] == bs[..i];
        view := view[KeyOf(bs[i]) := bs[i]];
      }
      assert bs[..|bs|] == bs;
    }

    method ScanFull(bs: seq<BinaryInfo>, now: nat) returns (r: seq<BinaryInfo>)
      modifies this
      ensures r == bs && Model() == ScanState(ToView(bs), Some(now))
    {
      known := Collect(bs);
      lastRegisteredAt := Some(now);
      r := bs;
    }

    method ScanDeltaFrom(bs: seq<BinaryInfo>, now: nat) returns (r: Option<seq<BinaryInfo>>)
      modifies this
      ensures (Model(), r) == Delta(old(Model()), bs, now)
    {
      var newKnown := Collect(bs);
      var removalDetected := exists k :: k in known && k !in newKnown;
      if lastRegisteredAt.Some? {
        if Elapsed(lastRegisteredAt.value, now) / SECOND < COOLDOWN_SECS {
          if !removalDetected {
            return None;
          }
        }
      }
      var changed := |newKnown| != |known| || exists k :: k in newKnown && (k !in known || known[k] != newKnown[k]);
      LooksChangedIsExact(known, newKnown);
      known := newKnown;
      if changed {
        lastRegisteredAt := if removalDetected then None else Some(now);
        return Some(bs);
      }
      return None;
    }
  }

  // ---------------------------------------------------------------- runs of scans

  datatype Scan = FullScan(bs: seq<BinaryInfo>, now: nat) | DeltaScan(bs: seq<BinaryInfo>, now: nat)

  function Do(s: ScanState, scan: Scan): (ScanState, Option<seq<BinaryInfo>>) {
    match scan
    case FullScan(bs, now) => (ScanState(ToView(bs), Some(now)), Some(bs))
    case DeltaScan(bs, now) => Delta(s, bs, now)
  }

  /** The scanner before scan i of a run that started in state s. */
  function Before(s: ScanState, run: seq<Scan>, i: nat): ScanState
    requires i <= |run|
  {
    if i == 0 then s else Do(Before(s, run, i - 1), run[i - 1]).0
  }

  function Report(s: ScanState, run: seq<Scan>, i: nat): Option<seq<BinaryInfo>>
    requires i < |run|
  {
    Do(Before(s, run, i), run[i]).1
  }

  /** The list reported last before scan i; nothing reported is the empty list. */
  function LastReport(s: ScanState, run: seq<Scan>, i: nat): seq<BinaryInfo>
    requires i <= |run|
  {
    if i == 0 then []
    else if Report(s, run, i - 1).Some? then Report(s, run, i - 1).value
    else LastReport(s, run, i - 1)
  }

  const NEW := ScanState(map[], None)

  /** At every point of every run, what the scanner knows is exactly what it last reported. */
  lemma {:induction false} KnownIsLastReport(run: seq<Scan>, i: nat)
    requires i <= |run|
    ensures Before(NEW, run, i).known == ToView(LastReport(NEW, run, i))
  {
    if i > 0 {
      KnownIsLastReport(run, i - 1);
    }
  }

  /** After every scan: no report means the view is unchanged; the view never holds a process that the newest snapshot
      does not; and a process that is gone, or has another inode, is reported by that very scan. */
  lemma RemovalsAreImmediate(run: seq<Scan>, i: nat)
    requires i < |run|
    ensures Report(NEW, run, i).None? ==> Before(NEW, run, i + 1) == Before(NEW, run, i)
    ensures Report(NEW, run, i).Some? ==> Report(NEW, run, i).value == run[i].bs
    ensures Before(NEW, run, i + 1).known.Keys <= ToView(run[i].bs).Keys
    ensures Removed(ToView(LastReport(NEW, run, i)), ToView(run[i].bs)) ==> Report(NEW, run, i) == Some(run[i].bs)
  {
    KnownIsLastReport(run, i);
    var s, seen := Before(NEW, run, i), ToView(run[i].bs);
    assert !Removed(s.known, seen) ==> s.known.Keys <= seen.Keys;
  }

  // ---------------------------------------------------------------- rate

  predicate IsRemoval(s: ScanState, run: seq<Scan>, i: nat)
    requires i < |run|
  {
    run[i].DeltaScan? && Removed(Before(s, run, i).known, ToView(run[i].bs))
  }

  predicate IsAddition(s: ScanState, run: seq<Scan>, i: nat)
    requires i < |run|
  {
    run[i].DeltaScan? && Report(s, run, i).Some? && !IsRemoval(s, run, i)
  }

  function Removals(s: ScanState, run: seq<Scan>, i: nat): nat
    requires i <= |run|
  {
    if i == 0 then 0 else Removals(s, run, i - 1) + if IsRemoval(s, run, i - 1) then 1 else 0
  }

  function Additions(s: ScanState, run: seq<Scan>, i: nat): nat
    requires i <= |run|
  {
    if i == 0 then 0 else Additions(s, run, i - 1) + if IsAddition(s, run, i - 1) then 1 else 0
  }

  ghost predicate InOrder(s: ScanState, run: seq<Scan>) {
    && (forall i, j :: 0 <= i <= j < |run| ==> run[i].now <= run[j].now)
    && (s.last.Some? && run != [] ==> s.last.value <= run[0].now)
  }

  /** The earliest time, counted from `start`, at which the next addition can be reported. */
  function Opens(last: Option<nat>, start: nat, now: nat): nat {
    if last.None? then Elapsed(start, now) else Elapsed(start, last.value + COOLDOWN)
  }

  /** What one scan does to the time stamp. */
  lemma StampAfter(s: ScanState, run: seq<Scan>, i: nat)
    requires i < |run|
    ensures var last, last', now := Before(s, run, i).last, Before(s, run, i + 1).last, run[i].now;
            && (IsRemoval(s, run, i) ==> last'.None?)
            && (IsAddition(s, run, i) ==> last' == Some(now) && (last.None? || now >= last.value + COOLDOWN))
            && (!IsRemoval(s, run, i) && !IsAddition(s, run, i) ==> last' == last || last' == Some(now))
  {
    CoolingMeans(Before(s, run, i).last, run[i].now);
  }

  /** After `a` additions and `r` removals since `start`. */
  predicate Paid(last: Option<nat>, start: nat, now: nat, a: nat, r: nat) {
    && start <= now && (last.Some? ==> last.value <= now)
    && COOLDOWN * a <= Opens(last, start, now) + COOLDOWN * r
  }

  lemma PaidStep(last: Option<nat>, last': Option<nat>, start: nat, before: nat, now: nat, a: nat, r: nat,
                 add: bool, rem: bool)
    requires Paid(last, start, before, a, r) && before <= now && !(add && rem)
    requires rem ==> last'.None?
    requires add ==> last' == Some(now) && (last.None? || now >= last.value + COOLDOWN)
    requires !add && !rem ==> last' == last || last' == Some(now)
    ensures Paid(last', start, now, a + (if add then 1 else 0), r + (if rem then 1 else 0))
  {
  }

  lemma {:induction false} AdditionsArePaid(s: ScanState, run: seq<Scan>, i: nat)
    requires 0 < i <= |run| && InOrder(s, run)
    ensures Paid(Before(s, run, i).last, run[0].now, run[i - 1].now, Additions(s, run, i), Removals(s, run, i))
  {
    var before := run[if i > 1 then i - 2 else 0].now;
    assert before <= run[i - 1].now;
    if i > 1 {
      AdditionsArePaid(s, run, i - 1);
    }
    StampAfter(s, run, i - 1);
    PaidStep(Before(s, run, i - 1).last, Before(s, run, i).last, run[0].now, before, run[i - 1].now,
             Additions(s, run, i - 1), Removals(s, run, i - 1), IsAddition(s, run, i - 1), IsRemoval(s, run, i - 1));
  }

  /** In any stretch of a run, the additions reported by delta scans number at most one, plus one for each 300 seconds
      of its length, plus one for each removal. */
  lemma AdditionRate(s: ScanState, run: seq<Scan>)
    requires run != [] && InOrder(s, run)
    ensures Additions(s, run, |run|) <= 1 + (run[|run| - 1].now - run[0].now) / COOLDOWN + Removals(s, run, |run|)
  {
    AdditionsArePaid(s, run, |run|);
    var length, a, r := run[|run| - 1].now - run[0].now, Additions(s, run, |run|), Removals(s, run, |run|);
    assert COOLDOWN * a <= COOLDOWN + length + COOLDOWN * r;
  }

  // ---------------------------------------------------------------- freshness

  lemma {:induction false} QuietKeepsState(s: ScanState, run: seq<Scan>, i: nat, j: nat)
    requires i <= j <= |run| && forall k :: i <= k < j ==> Report(s, run, k).None?
    ensures Before(s, run, j) == Before(s, run, i)
  {
    if i < j {
      QuietKeepsState(s, run, i, j - 1);
      assert Report(s, run, j - 1).None?;
    }
  }

  /** A process that is running and not yet reported is reported by the first scan that comes 300 seconds after the last
      report, and by the very next scan if that report was a removal. */
  lemma AdditionsComeThrough(run: seq<Scan>, i: nat, j: nat, b: BinaryInfo)
    requires i < j < |run| && InOrder(NEW, run)
    requires Report(NEW, run, i).Some? && forall k :: i < k < j ==> Report(NEW, run, k).None?
    requires IsRemoval(NEW, run, i) || run[j].now >= run[i].now + COOLDOWN
    requires KeyOf(b) in ToView(run[j].bs) && KeyOf(b) !in ToView(Report(NEW, run, i).value)
    ensures Report(NEW, run, j) == Some(run[j].bs)
  {
    QuietKeepsState(NEW, run, i + 1, j);
    CoolingMeans(Before(NEW, run, j).last, run[j].now);
  }

  // ---------------------------------------------------------------- full scans after a close

  /** Steps around the refresh flag, in any interleaving: a close sets it; a tick of the scanner task swaps it for false
      and later scans, in full if it was set; a reconnect starts with a clear flag and a full scan of its own. */
  datatype Event = Close | Swap | Scanning | NewSession

  datatype TaskState = TaskState(flag: bool, forceFull: bool)

  function TaskStep(t: TaskState, e: Event): TaskState {
    match e
    case Close => t.(flag := true)
    case Swap => TaskState(false, t.flag)
    case Scanning => t
    case NewSession => TaskState(false, false)
  }

  function Task(events: seq<Event>, n: nat): TaskState
    requires n <= |events|
  {
    if n == 0 then TaskState(false, false) else TaskStep(Task(events, n - 1), events[n - 1])
  }

  /** The scanner task as it runs: for each step that scans, whether the scan is full. */
  method ScannerTask(events: seq<Event>) returns (full: seq<bool>)
    ensures |full| == |events|
    ensures forall j :: 0 <= j < |events| && events[j].Scanning? ==> full[j] == Task(events, j).forceFull
    ensures forall j :: 0 <= j < |events| && events[j].NewSession? ==> full[j]
  {
    var flag, forceFull := false, false;
    full := [];
    for n := 0 to |events|
      invariant |full| == n && TaskState(flag, forceFull) == Task(events, n)
      invariant forall j :: 0 <= j < n && events[j].Scanning? ==> full[j] == Task(events, j).forceFull
      invariant forall j :: 0 <= j < n && events[j].NewSession? ==> full[j]
    {
      var scansFully := false;
      match events[n] {
        case Close =>
          flag := true;
        case Swap =>
          forceFull := flag;
          flag := false;
        case Scanning =>
          scansFully := forceFull;
        case NewSession =>
          flag, forceFull, scansFully := false, false, true;
      }
      full := full + [scansFully];
    }
  }

  /** No swap and no reconnect at steps i+1 to n-1. */
  ghost predicate Undisturbed(events: seq<Event>, i: nat, n: nat)
    requires n <= |events|
  {
    forall m :: i < m < n ==> !events[m].Swap? && !events[m].NewSession?
  }

  /** A close has come since the last swap or reconnect before step n. */
  ghost predicate Waiting(events: seq<Event>, n: nat)
    requires n <= |events|
  {
    exists i :: 0 <= i < n && events[i].Close? && Undisturbed(events, i, n)
  }

  lemma {:induction false} FlagMeansWaiting(events: seq<Event>, n: nat)
    requires n <= |events|
    ensures Task(events, n).flag <==> Waiting(events, n)
  {
    if n > 0 {
      FlagMeansWaiting(events, n - 1);
      var e := events[n - 1];
      if Waiting(events, n) && !e.Close? {
        var i :| 0 <= i < n && events[i].Close? && Undisturbed(events, i, n);
        assert i < n - 1 && Undisturbed(events, i, n - 1);
      }
      if Waiting(events, n - 1) && !e.Swap? && !e.NewSession? {
        var i :| 0 <= i < n - 1 && events[i].Close? && Undisturbed(events, i, n - 1);
        assert Undisturbed(events, i, n);
      }
      if e.Close? {
        assert Undisturbed(events, n - 1, n);
      }
    }
  }

  lemma {:induction false} SwapIsRemembered(events: seq<Event>, k: nat, j: nat)
    requires k < j <= |events| && events[k].Swap? && Undisturbed(events, k, j)
    ensures Task(events, j).forceFull == Task(events, k).flag
  {
    if k + 1 < j {
      SwapIsRemembered(events, k, j - 1);
    }
  }

  /** The tick that swaps at k and scans at j scans in full if and only if a close has come since the swap or reconnect
      before k. */
  lemma FullScanIffClosed(events: seq<Event>, k: nat, j: nat)
    requires k < j < |events| && events[k].Swap? && events[j].Scanning? && Undisturbed(events, k, j)
    ensures Task(events, j).forceFull <==> Waiting(events, k)
  {
    SwapIsRemembered(events, k, j);
    FlagMeansWaiting(events, k);
  }

  /** No close is lost: the first tick that swaps after it scans in full, also when the close lands between the swap and
      the scan of an earlier tick; several closes may share one tick. */
  lemma NoCloseIsLost(events: seq<Event>, i: nat, k: nat, j: nat)
    requires i < k < j < |events| && events[i].Close? && events[k].Swap? && events[j].Scanning?
    requires Undisturbed(events, i, k) && Undisturbed(events, k, j)
    ensures Task(events, j).forceFull
  {
    FullScanIffClosed(events, k, j);
  }
}
