/**
  A run of the Python client in which a single sleep, overlapping no other sleep, drops a live registration; and that
  every call can return.
*/
module PyRuns {
  import opened Options
  import opened PyClient
  import Paths

  ghost predicate Reaches(from: State, s: State) {
    Paths.Leads(Next, from, s)
  }

  lemma Extend(from: State, s: State, a: Action)
    requires Reaches(from, s) && Step(s, a).Some?
    ensures Reaches(from, Step(s, a).value)
  {
    assert Next(s, Step(s, a).value);
    Paths.Extend(Next, from, s, Step(s, a).value);
  }

  lemma ExtendOpen(from: State, s: State, c: Call, ok: bool, serial: nat, s': State)
    requires Reaches(from, s) && c in s.calls && s.calls[c].section.None? && !WantsState(s.calls[c].at)
    requires OpenStep(s, c, ok, "id", serial) == Some(s')
    ensures Reaches(from, s')
  {
    Extend(from, s, Run(c, ok, "id", serial));
  }

  /** The state in which call c has moved to p, outside the state lock. */
  function Moved(s: State, c: Call, p: Place, f: Fields): State {
    Goto(s, c, p).(fields := f, stateLock := None)
  }

  lemma {:induction false} FinishSection(from: State, s: State, c: Call)
    requires Reaches(from, s) && c in s.calls && s.calls[c].section.Some?
    ensures Reaches(from, Moved(s, c, s.calls[c].at, ApplyAll(s.calls[c].section.value, s.fields)))
    decreases |s.calls[c].section.value|
  {
    var s' := SectionStep(s, c);
    Extend(from, s, Run(c, true, "", 0));
    if s.calls[c].section.value != [] {
      FinishSection(from, s', c);
      assert s'.calls[c := Thread(s.calls[c].at, None)] == s.calls[c := Thread(s.calls[c].at, None)];
    }
  }

  /** A call that wants the free state lock can run its whole critical section. */
  lemma RunSection(from: State, s: State, c: Call)
    requires Reaches(from, s) && s.stateLock.None?
    requires c in s.calls && s.calls[c].section.None? && WantsState(s.calls[c].at)
    ensures Reaches(from, Moved(s, c, Section(s.calls[c].at, s.fields, true).1, Outcome(s.calls[c].at, s.fields, true)))
  {
    var s' := LockStep(s, c, true).value;
    Extend(from, s, Run(c, true, "", 0));
    FinishSection(from, s', c);
    SectionHasOutcome(s.calls[c].at, s.fields, true);
    var next := Thread(Section(s.calls[c].at, s.fields, true).1, None);
    assert s'.calls[c := next] == s.calls[c := next];
  }

  predicate Idle(s: State) {
    s.wakeLock.None? && s.stateLock.None?
  }

  /** The state in which wake c has marked the client as waking. */
  function Marked(s: State, c: Call): State {
    Goto(s, c, WakeHealth(s.fields.url, Sleeping)).(wakeLock := Some(c), fields := s.fields.(mode := Waking))
  }

  lemma WakeMarks(from: State, s: State, c: Call)
    requires Reaches(from, s) && Idle(s) && s.fields.mode == Sleeping && s.fields.url != "" && c !in s.calls
    ensures Reaches(from, Marked(s, c))
  {
    var s1 := Goto(s, c, WakeStart(""));
    Extend(from, s, StartWake(c, ""));
    var s2 := Goto(s, c, WakePhase1("")).(wakeLock := Some(c));
    assert s1.calls[c := Thread(WakePhase1(""), None)] == s2.calls;
    ExtendOpen(from, s1, c, true, 0, s2);
    RunSection(from, s2, c);
    assert s2.calls[c := Marked(s, c).calls[c]] == Marked(s, c).calls;
  }

  lemma WakeFails(from: State, s: State, c: Call)
    requires Reaches(from, s) && s.stateLock.None? && c in s.calls && s.fields.mode == Waking
    requires s.wakeLock == Some(c) && s.calls[c].section.None?
    requires s.calls[c].at.WakeHealth? && s.calls[c].at.previous == Sleeping
    ensures Reaches(from, Goto(s, c, Returned(WakeFailed)).(wakeLock := None, fields := s.fields.(mode := Sleeping)))
  {
    var s1 := Goto(s, c, WakeFail(Sleeping));
    ExtendOpen(from, s, c, false, 0, s1);
    RunSection(from, s1, c);
    var s2 := Moved(s1, c, WakeRelease(WakeFailed), s.fields.(mode := Sleeping));
    var s3 := Goto(s, c, Returned(WakeFailed)).(wakeLock := None, fields := s.fields.(mode := Sleeping));
    assert s2.calls[c := s3.calls[c]] == s3.calls;
    ExtendOpen(from, s2, c, true, 0, s3);
  }

  lemma WakeRegisters(from: State, s: State, c: Call, url: Url, reg: Registration)
    requires Reaches(from, s) && s.stateLock.None? && c in s.calls
    requires s.calls[c] == Thread(WakeHealth(url, Sleeping), None) && reg == Registration("id", url, reg.serial)
    requires reg !in s.issued
    ensures Reaches(from, Goto(s, c, WakeCommit(url, Sleeping, reg)).(issued := s.issued + {reg}))
  {
    var s1 := Goto(s, c, WakeDebugger(url, Sleeping));
    ExtendOpen(from, s, c, true, 0, s1);
    var s2 := Goto(s, c, WakeControlPort(url, Sleeping));
    assert s1.calls[c := s2.calls[c]] == s2.calls;
    ExtendOpen(from, s1, c, true, 0, s2);
    RunSection(from, s2, c);
    var s3 := Goto(s, c, WakeRegister(url, Sleeping));
    assert s2.calls[c := s3.calls[c]] == s3.calls;
    var s4 := Goto(s, c, WakeCommit(url, Sleeping, reg)).(issued := s.issued + {reg});
    assert s3.calls[c := s4.calls[c]] == s4.calls;
    ExtendOpen(from, s3, c, true, reg.serial, s4);
  }

  /** The state after a whole successful wake. */
  function AfterWake(s: State, c: Call, reg: Registration): State {
    s.(calls := s.calls[c := Thread(Returned(Woken), None)],
       fields := Fields(Awake, true, Some(reg), s.fields.url),
       issued := s.issued + {reg})
  }

  lemma WakeAlone(from: State, s: State, c: Call, reg: Registration)
    requires Reaches(from, s) && Idle(s) && s.fields.mode == Sleeping && s.fields.url != "" && c !in s.calls
    requires reg == Registration("id", s.fields.url, reg.serial) && reg !in s.issued
    ensures Reaches(from, AfterWake(s, c, reg))
  {
    WakeMarks(from, s, c);
    var s1 := Marked(s, c);
    WakeRegisters(from, s1, c, s.fields.url, reg);
    var s2 := Goto(s1, c, WakeCommit(s.fields.url, Sleeping, reg)).(issued := s.issued + {reg});
    RunSection(from, s2, c);
    var s3 := Moved(s2, c, WakeRelease(Woken), AfterWake(s, c, reg).fields);
    var s4 := AfterWake(s, c, reg);
    assert s3.calls[c := s4.calls[c]] == s4.calls;
    ExtendOpen(from, s3, c, true, 0, s4);
  }

  /** A sleep that found the client waking, and whose wait has ended in Sleeping, goes on with nothing captured. */
  lemma SleepGoesOn(from: State, s: State, c: Call)
    requires Reaches(from, s) && Idle(s) && c in s.calls && s.calls[c] == Thread(SleepWaiting, None)
    requires s.fields.connection.None?
    ensures Reaches(from, Goto(s, c, SleepUnregister(Capture(None, s.fields.url))))
  {
    var s1 := Goto(s, c, SleepWaited).(wakeLock := Some(c));
    ExtendOpen(from, s, c, true, 0, s1);
    var s2 := Goto(s, c, SleepReread);
    assert s1.calls[c := s2.calls[c]] == s2.calls;
    ExtendOpen(from, s1, c, true, 0, s2);
    RunSection(from, s2, c);
    var s3 := Goto(s, c, SleepUnregister(Capture(None, s.fields.url)));
    assert s2.calls[c := s3.calls[c]] == s3.calls;
  }

  /** From any state in which a sleep is about to commit while the client already sleeps, one wake before that commit
      can register and lose its registration. */
  lemma LateCommitCanDropARegistration(from: State, c: Call, w: Call, reg: Registration) returns (s: State)
    requires Idle(from) && from.fields.mode == Sleeping && from.fields.url != "" && w !in from.calls
    requires c in from.calls && from.calls[c].at.SleepCommit? && from.calls[c].section.None?
    requires reg == Registration("id", from.fields.url, reg.serial) && reg !in from.issued && !Unregistered(from, reg)
    requires forall x :: x in from.calls ==> !Holds(from.calls[x].at, reg)
    ensures Reaches(from, s) && reg in s.issued && !Accounted(s, reg) && s.fields.mode == Sleeping
    ensures s.calls == from.calls[w := Thread(Returned(Woken), None)][c := Thread(Returned(Slept), None)]
  {
    Paths.Stay(Next, from);
    WakeAlone(from, from, w, reg);
    var s1 := AfterWake(from, w, reg);
    RunSection(from, s1, c);
    s := Moved(s1, c, Returned(Slept), s1.fields.(mode := Sleeping, connection := None));
    assert Settled(s).connection.None?;
    forall x | x in s.calls ensures !Holds(s.calls[x].at, reg) {
      assert x != c && x != w ==> s.calls[x] == from.calls[x];
    }
  }

  lemma SleepOverlapsFailedWake(url: Url) returns (s: State)
    requires url != ""
    ensures Reaches(Initial(url), s) && s.fields == Initial(url).fields && Idle(s)
    ensures s.calls == map[0 := Thread(Returned(WakeFailed), None),
                           1 := Thread(SleepUnregister(Capture(None, url)), None)]
    ensures s.issued == {} && s.unregistered == {}
  {
    var from := Initial(url);
    Paths.Stay(Next, from);
    WakeMarks(from, from, 0);
    var s1 := Marked(from, 0);
    var s2 := Goto(s1, 1, SleepLock);
    Extend(from, s1, StartSleep(1));
    RunSection(from, s2, 1);
    var s3 := Goto(s1, 1, SleepWaiting);
    assert s2.calls[1 := s3.calls[1]] == s3.calls;
    WakeFails(from, s3, 0);
    var s4 := Goto(s3, 0, Returned(WakeFailed)).(wakeLock := None, fields := from.fields);
    SleepGoesOn(from, s4, 1);
    s := Goto(s4, 1, SleepUnregister(Capture(None, url)));
  }

  /** The only sleep of a run (call 1) waits for a wake that fails; a second wake registers; the sleep drops it. */
  lemma OneSleepCanDropARegistration(url: Url) returns (between: State, s: State, reg: Registration)
    requires url != ""
    ensures Reaches(Initial(url), between) && Reaches(between, s) && reg in s.issued && !Accounted(s, reg)
    ensures s.calls == map[0 := Thread(Returned(WakeFailed), None), 1 := Thread(Returned(Slept), None),
                           2 := Thread(Returned(Woken), None)]
  {
    var s1 := SleepOverlapsFailedWake(url);
    between := Goto(s1, 1, SleepCommit(Capture(None, url)));
    assert s1.unregistered + {} == s1.unregistered;
    ExtendOpen(Initial(url), s1, 1, true, 0, between);
    reg := Registration("id", url, 0);
    s := LateCommitCanDropARegistration(between, 1, 2, reg);
  }

  // ---------------------------------------------------------------- every call can return

  /** Steps that a place is at most away from the end when every I/O fails and no wait is needed. */
  function PlaceRank(p: Place): nat {
    match p
    case WakeStart(_) => 8
    case WakePhase1(_) => 7
    case WakeHealth(_, _) => 6
    case WakeDebugger(_, _) => 5
    case WakeControlPort(_, _) => 4
    case WakeRegister(_, _) => 3
    case WakeFail(_) => 2
    case WakeCommit(_, _, _) => 2
    case WakeRelease(_) => 1
    case SleepWaiting => 5
    case SleepWaited => 4
    case SleepReread => 3
    case SleepLock => 3
    case SleepUnregister(_) => 2
    case SleepCommit(_) => 1
    case Returned(_) => 0
  }

  function Rank(t: Thread): nat {
    10 * PlaceRank(t.at) + if t.section.Some? then 1 + |t.section.value| else 0
  }

  predicate Finished(t: Thread) {
    t.at.Returned? && t.section.None?
  }

  predicate AllReturned(s: State) {
    forall c :: c in s.calls ==> Finished(s.calls[c])
  }

  /** The call that can go on: the holder of the state lock, else the holder of the wake lock, else any. */
  predicate Runnable(s: State, c: Call) {
    && c in s.calls && !Finished(s.calls[c])
    && (s.stateLock.Some? ==> s.stateLock == Some(c))
    && (s.stateLock.None? && s.wakeLock.Some? ==> s.wakeLock == Some(c))
  }

  lemma LockStepComesCloser(s: State, c: Call)
    requires Inv(s) && Runnable(s, c) && s.stateLock.None? && WantsState(s.calls[c].at)
    ensures LockStep(s, c, false).Some? && Rank(LockStep(s, c, false).value.calls[c]) < Rank(s.calls[c])
  {
    assert Mine(s, c);
  }

  lemma OpenStepComesCloser(s: State, c: Call)
    requires Inv(s) && Runnable(s, c) && s.stateLock.None? && !WantsState(s.calls[c].at)
    ensures OpenStep(s, c, false, "", 0).Some? && Rank(OpenStep(s, c, false, "", 0).value.calls[c]) < Rank(s.calls[c])
  {
    assert Mine(s, c);
  }

  /** A call that can go on has an enabled step that brings it closer to its end. */
  lemma RunnableComesCloser(s: State, c: Call)
    requires Inv(s) && Runnable(s, c)
    ensures Step(s, Run(c, false, "", 0)).Some?
    ensures Rank(Step(s, Run(c, false, "", 0)).value.calls[c]) < Rank(s.calls[c])
  {
    assert Mine(s, c);
    if s.stateLock.None? {
      if WantsState(s.calls[c].at) {
        LockStepComesCloser(s, c);
      } else {
        OpenStepComesCloser(s, c);
      }
    }
  }

  /** The two locks never deadlock: while some call has not returned, some call can take a step. */
  lemma SomeCallCanStep(s: State) returns (c: Call)
    requires Inv(s) && !AllReturned(s)
    ensures Runnable(s, c) && Step(s, Run(c, false, "", 0)).Some?
  {
    if s.stateLock.Some? {
      c := s.stateLock.value;
    } else if s.wakeLock.Some? {
      c := s.wakeLock.value;
    } else {
      c :| c in s.calls && !Finished(s.calls[c]);
    }
    assert Mine(s, c);
    RunnableComesCloser(s, c);
  }

  lemma StepTouchesOne(s: State, a: Action)
    requires Inv(s) && Step(s, a).Some?
    ensures var s' := Step(s, a).value; a.call in s'.calls && s'.calls == s.calls[a.call := s'.calls[a.call]]
  {
    StepIsRegStep(s, a, Registration("", "", 0));
  }

  function Ranks(s: State): map<Call, nat> {
    map c | c in s.calls :: Rank(s.calls[c])
  }

  lemma StepLowersTotal(s: State, c: Call, n: nat)
    requires Inv(s) && Runnable(s, c) && forall d :: d in s.calls ==> d < n
    ensures Step(s, Run(c, false, "", 0)).Some?
    ensures var s' := Step(s, Run(c, false, "", 0)).value;
            s'.calls.Keys == s.calls.Keys && Paths.Total(Ranks(s'), n) < Paths.Total(Ranks(s), n)
  {
    RunnableComesCloser(s, c);
    StepTouchesOne(s, Run(c, false, "", 0));
    var s' := Step(s, Run(c, false, "", 0)).value;
    assert Ranks(s') == Ranks(s)[c := Rank(s'.calls[c])];
    Paths.TotalDrops(Ranks(s), c, Rank(s'.calls[c]), n);
  }

  lemma {:induction false} ComesToRest(from: State, s: State, n: nat) returns (end: State)
    requires Inv(s) && Reaches(from, s) && forall d :: d in s.calls ==> d < n
    ensures Reaches(from, end) && Inv(end) && AllReturned(end) && end.calls.Keys == s.calls.Keys
    decreases Paths.Total(Ranks(s), n)
  {
    if AllReturned(s) {
      end := s;
    } else {
      var c := SomeCallCanStep(s);
      var a := Run(c, false, "", 0);
      StepLowersTotal(s, c, n);
      StepKeepsInv(s, a);
      Extend(from, s, a);
      end := ComesToRest(from, Step(s, a).value, n);
    }
  }

  /** From every point of every run, all calls started so far can return, and then both locks are free and the client is
      Sleeping or Awake. */
  lemma EveryCallCanReturn(run: seq<State>, i: nat) returns (end: State)
    requires IsRun(run) && i < |run|
    ensures Reaches(run[i], end) && AllReturned(end) && end.calls.Keys == run[i].calls.Keys
    ensures Idle(end) && end.fields.mode != Waking
  {
    RunKeepsInv(run, i);
    Paths.Stay(Next, run[i]);
    var n := Paths.Below(run[i].calls.Keys);
    end := ComesToRest(run[i], run[i], n);
    assert end.stateLock.Some? ==> Mine(end, end.stateLock.value);
    assert end.wakeLock.Some? ==> Mine(end, end.wakeLock.value);
  }
}
