/**
  Where the Go client sends its unregistrations, runs that show which guarantees fail, and that every call can return.
*/
module GoRuns {
  import opened Options
  import opened GoClient
  import Paths

  // ---------------------------------------------------------------- unregistration

  predicate Targeted(r: Registration, configUrl: Url) {
    r.daemon == Target(r.argument, configUrl)
  }

  predicate PlaceUrls(p: Place, url: Url) {
    match p
    case WakeCommit(_, r) => Targeted(r, url)
    case SleepUnregister(cap) => cap.url == url && (cap.connection.Some? ==> Targeted(cap.connection.value, url))
    case _ => true
  }

  ghost predicate UrlInv(s: State) {
    && (Settled(s).connection.Some? ==> Targeted(Settled(s).connection.value, s.configUrl))
    && (forall c :: c in s.calls ==> PlaceUrls(s.calls[c].at, s.configUrl))
    && (forall e :: e in s.unregistered ==> e.1 == s.configUrl && Targeted(e.0, s.configUrl))
  }

  lemma OpenStepUrls(s: State, c: Call, ok: bool, tag: nat, id: string)
    requires c in s.calls && Mine(s, c) && !Inside(s, c) && Consistent(Settled(s)) && UrlInv(s)
    requires OpenStep(s, c, ok, tag, id).Some?
    ensures var s' := OpenStep(s, c, ok, tag, id).value;
            && s'.configUrl == s.configUrl
            && PlaceUrls(s'.calls[c].at, s.configUrl)
            && forall e :: e in s'.unregistered ==> e.1 == s.configUrl && Targeted(e.0, s.configUrl)
  {
    assert PlaceUrls(s.calls[c].at, s.configUrl);
  }

  lemma LockStepUrls(s: State, c: Call)
    requires Inv(s) && c in s.calls && !Inside(s, c) && WantsState(s.calls[c].at) && UrlInv(s)
    requires LockStep(s, c).Some?
    ensures var s' := LockStep(s, c).value;
            && s'.configUrl == s.configUrl && s'.unregistered == s.unregistered
            && PlaceUrls(s'.calls[c].at, s.configUrl)
            && (Settled(s').connection.Some? ==> Targeted(Settled(s').connection.value, s.configUrl))
  {
    LockStepIsLocal(s, c);
    assert PlaceUrls(s.calls[c].at, s.configUrl);
  }

  lemma StepUrls(s: State, a: Action)
    requires Inv(s) && UrlInv(s) && Step(s, a).Some?
    ensures var s' := Step(s, a).value;
            && s'.configUrl == s.configUrl
            && PlaceUrls(At(s', a.call), s.configUrl)
            && (Settled(s').connection.Some? ==> Targeted(Settled(s').connection.value, s.configUrl))
            && forall e :: e in s'.unregistered ==> e.1 == s.configUrl && Targeted(e.0, s.configUrl)
  {
    var c := a.call;
    if a.Run? {
      assert Mine(s, c);
      if Inside(s, c) {
        SectionStepIsLocal(s, c);
        assert PlaceUrls(s.calls[c].at, s.configUrl);
      } else if WantsState(s.calls[c].at) {
        LockStepUrls(s, c);
      } else {
        OpenStepIsLocal(s, c, a.ok, a.tag, a.id);
        OpenStepUrls(s, c, a.ok, a.tag, a.id);
      }
    }
  }

  lemma StepTouchesOne(s: State, a: Action)
    requires Inv(s) && Step(s, a).Some?
    ensures var s' := Step(s, a).value; a.call in s'.calls && s'.calls == s.calls[a.call := s'.calls[a.call]]
  {
    StepIsResourceStep(s, a, Delve(0));
  }

  lemma StepKeepsUrls(s: State, a: Action)
    requires Inv(s) && UrlInv(s) && Step(s, a).Some?
    ensures UrlInv(Step(s, a).value) && Step(s, a).value.configUrl == s.configUrl
  {
    StepUrls(s, a);
    StepTouchesOne(s, a);
  }

  lemma {:induction false} RunKeepsUrls(run: seq<State>, i: nat)
    requires IsRun(run) && i < |run|
    ensures UrlInv(run[i]) && run[i].configUrl == run[0].configUrl
  {
    if i > 0 {
      RunKeepsUrls(run, i - 1);
      RunKeepsInv(run, i - 1);
      var a := Linked(run, i - 1);
      StepKeepsUrls(run[i - 1], a);
    }
  }

  /** Sleep always unregisters at the configured daemon, so it reaches the daemon that issued the registration if and
      only if the wake was given no URL, or the configured one. */
  lemma UnregisterReachesIssuer(run: seq<State>, i: nat, r: Registration, u: Url)
    requires IsRun(run) && i < |run| && (r, u) in run[i].unregistered
    ensures u == run[0].configUrl
    ensures u == r.daemon <==> r.argument == "" || r.argument == run[0].configUrl
  {
    RunKeepsUrls(run, i);
    assert Targeted((r, u).0, run[i].configUrl);
  }

  // ---------------------------------------------------------------- building runs

  ghost predicate Reaches(from: State, s: State) {
    Paths.Leads(Next, from, s)
  }

  lemma Extend(from: State, s: State, a: Action)
    requires Reaches(from, s) && Step(s, a).Some?
    ensures Reaches(from, Step(s, a).value)
  {
    assert Next(s, Step(s, a).value);
    Paths.Extend(Next, from, s, Step(s, a).value);
  }

  lemma ExtendOpen(from: State, s: State, c: Call, tag: nat, s': State)
    requires Reaches(from, s) && c in s.calls && s.calls[c].section.None? && !WantsState(s.calls[c].at)
    requires OpenStep(s, c, true, tag, "id") == Some(s')
    ensures Reaches(from, s')
  {
    Extend(from, s, Run(c, true, tag, "id"));
  }

  /** The state in which call c has moved to p and nothing else is held by it. */
  function Moved(s: State, c: Call, p: Place, f: Fields): State {
    Goto(s, c, p).(fields := f, stateLock := None)
  }

  lemma {:induction false} FinishSection(from: State, s: State, c: Call)
    requires Reaches(from, s) && c in s.calls && s.calls[c].section.Some?
    ensures Reaches(from, Moved(s, c, s.calls[c].at, ApplyAll(s.calls[c].section.value, s.fields)))
    decreases |s.calls[c].section.value|
  {
    var s' := SectionStep(s, c);
    Extend(from, s, Run(c, true, 0, ""));
    if s.calls[c].section.value != [] {
      FinishSection(from, s', c);
      assert s'.calls[c := Thread(s.calls[c].at, None)] == s.calls[c := Thread(s.calls[c].at, None)];
    }
  }

  /** A call that wants the free state lock can run its whole critical section. */
  lemma RunSection(from: State, s: State, c: Call)
    requires Reaches(from, s) && s.stateLock.None?
    requires c in s.calls && s.calls[c].section.None? && WantsState(s.calls[c].at)
    ensures var p, f := s.calls[c].at, s.fields;
            Reaches(from, Moved(s, c, Section(p, f, s.configUrl).1, Outcome(p, f)))
  {
    var s' := LockStep(s, c).value;
    Extend(from, s, Run(c, true, 0, ""));
    FinishSection(from, s', c);
    SectionHasOutcome(s.calls[c].at, s.fields, s.configUrl);
    var next := Thread(Section(s.calls[c].at, s.fields, s.configUrl).1, None);
    assert s'.calls[c := next] == s.calls[c := next];
  }

  predicate Idle(s: State) {
    s.wakeLock.None? && s.stateLock.None?
  }

  function Registered(argument: Url, url: Url, serial: nat): Registration {
    Registration("id", Target(argument, url), argument, serial)
  }

  /** The state after a whole successful wake that got a process and a registration of its own. */
  function AfterWake(s: State, c: Call, proc: Proc, reg: Registration): State {
    s.(calls := s.calls[c := Thread(Returned(Woken), None)],
       fields := Fields(Awake, true, Some(reg), Some(proc)),
       spawned := s.spawned + {proc}, issued := s.issued + {reg})
  }

  lemma WakeMarks(from: State, s: State, c: Call, argument: Url)
    requires Reaches(from, s) && Idle(s) && s.fields.mode == Sleeping && c !in s.calls
    ensures Reaches(from, Goto(s, c, WakeHealth(argument)).(wakeLock := Some(c), fields := s.fields.(mode := Waking)))
  {
    var s1 := Goto(s, c, WakeStart(argument));
    Extend(from, s, StartWake(c, argument));
    var s2 := Goto(s, c, WakePhase1(argument)).(wakeLock := Some(c));
    assert s1.calls[c := Thread(WakePhase1(argument), None)] == s2.calls;
    ExtendOpen(from, s1, c, 0, s2);
    RunSection(from, s2, c);
    assert s2.calls[c := Thread(WakeHealth(argument), None)] == s.calls[c := Thread(WakeHealth(argument), None)];
  }

  /** The state in which the wake is about to record what it got. */
  function Ready(s: State, c: Call, proc: Proc, reg: Registration): State {
    Goto(s, c, WakeCommit(proc, reg)).(spawned := s.spawned + {proc}, issued := s.issued + {reg})
  }

  lemma WakeSpawns(from: State, s: State, c: Call, proc: Proc, reg: Registration)
    requires Reaches(from, s) && c in s.calls && s.calls[c] == Thread(WakeHealth(reg.argument), None)
    requires proc !in s.spawned && reg !in s.issued && reg == Registered(reg.argument, s.configUrl, reg.serial)
    ensures Reaches(from, Ready(s, c, proc, reg))
  {
    var s1 := Goto(s, c, WakeSpawn(reg.argument));
    ExtendOpen(from, s, c, 0, s1);
    var s2 := Goto(s1, c, WakeRegister(reg.argument, proc)).(spawned := s.spawned + {proc});
    ExtendOpen(from, s1, c, proc, s2);
    var s3 := Ready(s, c, proc, reg);
    assert s2.calls[c := s3.calls[c]] == s3.calls;
    ExtendOpen(from, s2, c, reg.serial, s3);
  }

  lemma WakeAlone(from: State, s: State, c: Call, proc: Proc, reg: Registration)
    requires Reaches(from, s) && Idle(s) && s.fields.mode == Sleeping && c !in s.calls
    requires proc !in s.spawned && reg !in s.issued && reg == Registered(reg.argument, s.configUrl, reg.serial)
    ensures Reaches(from, AfterWake(s, c, proc, reg))
  {
    WakeMarks(from, s, c, reg.argument);
    var s1 := Goto(s, c, WakeHealth(reg.argument)).(wakeLock := Some(c), fields := s.fields.(mode := Waking));
    WakeSpawns(from, s1, c, proc, reg);
    var s2 := Ready(s1, c, proc, reg);
    RunSection(from, s2, c);
    var s4 := AfterWake(s, c, proc, reg);
    var s3 := Moved(s2, c, WakeRelease(Woken), s4.fields);
    assert s3.calls[c := s4.calls[c]] == s4.calls;
    ExtendOpen(from, s3, c, 0, s4);
  }

  /** What a Sleep captures in s. */
  function CaptureOf(s: State): Capture {
    Capture(s.fields.connection, s.configUrl, s.fields.delve)
  }

  lemma SleepCaptures(from: State, s: State, c: Call)
    requires Reaches(from, s) && Idle(s) && s.fields.mode == Awake && c !in s.calls
    ensures Reaches(from, Goto(s, c, SleepUnregister(CaptureOf(s))))
  {
    var s1 := Goto(s, c, SleepLock);
    Extend(from, s, StartSleep(c));
    RunSection(from, s1, c);
    var t := Thread(SleepUnregister(CaptureOf(s)), None);
    assert s1.calls[c := t] == s.calls[c := t];
  }

  /** The state after a Sleep that captured (r, u, p) has done its I/O and its commit. */
  function AfterSleep(s: State, c: Call, r: Registration, u: Url, p: Proc): State {
    s.(calls := s.calls[c := Thread(Returned(Slept), None)],
       fields := Fields(Sleeping, false, None, None),
       killed := s.killed + {p},
       unregistered := s.unregistered + {(r, u)})
  }

  lemma SleepDoesIo(from: State, s: State, c: Call, r: Registration, u: Url, p: Proc)
    requires Reaches(from, s) && c in s.calls
    requires s.calls[c] == Thread(SleepUnregister(Capture(Some(r), u, Some(p))), None)
    ensures Reaches(from, Goto(s, c, SleepCommit(Capture(Some(r), u, Some(p)))).(
                            killed := s.killed + {p}, unregistered := s.unregistered + {(r, u)}))
  {
    var cap := Capture(Some(r), u, Some(p));
    var s1 := Goto(s, c, SleepKill(cap)).(unregistered := s.unregistered + {(r, u)});
    ExtendOpen(from, s, c, 0, s1);
    var s2 := Goto(s, c, SleepCommit(cap)).(killed := s.killed + {p}, unregistered := s.unregistered + {(r, u)});
    assert s1.calls[c := s2.calls[c]] == s2.calls;
    ExtendOpen(from, s1, c, 0, s2);
  }

  lemma SleepFinishes(from: State, s: State, c: Call, r: Registration, u: Url, p: Proc)
    requires Reaches(from, s) && Idle(s) && c in s.calls
    requires s.calls[c] == Thread(SleepUnregister(Capture(Some(r), u, Some(p))), None)
    ensures Reaches(from, AfterSleep(s, c, r, u, p))
  {
    SleepDoesIo(from, s, c, r, u, p);
    var s1 := Goto(s, c, SleepCommit(Capture(Some(r), u, Some(p)))).(
                killed := s.killed + {p}, unregistered := s.unregistered + {(r, u)});
    RunSection(from, s1, c);
    assert s1.calls[c := Thread(Returned(Slept), None)] == s.calls[c := Thread(Returned(Slept), None)];
  }

  /** Every URL argument other than the configured daemon can end with the unregistration sent elsewhere. */
  lemma OverrideIsUnregisteredElsewhere(url: Url, argument: Url) returns (s: State, r: Registration)
    requires argument != "" && argument != url
    ensures Reaches(Initial(url), s) && r.argument == argument
    ensures (r, url) in s.unregistered && r.daemon != url
  {
    var from := Initial(url);
    Paths.Stay(Next, from);
    r := Registered(argument, url, 0);
    WakeAlone(from, from, 0, 0, r);
    var s1 := AfterWake(from, 0, 0, r);
    SleepCaptures(from, s1, 1);
    var s2 := Goto(s1, 1, SleepUnregister(CaptureOf(s1)));
    SleepFinishes(from, s2, 1, r, url, 0);
    s := AfterSleep(s2, 1, r, url, 0);
  }

  /** From any state in which two sleeps have both captured and neither has done its I/O, one wake between their commits
      can leave a live process p and a live registration r that nothing records and no call will release. */
  lemma OverlapCanLoseAWake(from: State, c: Call, d: Call, rc: Registration, rd: Registration, u: Url, pc: Proc,
                               pd: Proc, w: Call, p: Proc, r: Registration) returns (s: State)
    requires Idle(from) && c in from.calls && d in from.calls && c != d && w !in from.calls
    requires from.calls[c] == Thread(SleepUnregister(Capture(Some(rc), u, Some(pc))), None)
    requires from.calls[d] == Thread(SleepUnregister(Capture(Some(rd), u, Some(pd))), None)
    requires p !in from.spawned + {pc, pd}
    requires r == Registered(r.argument, from.configUrl, r.serial) && r !in from.issued + {rc, rd}
    requires forall x :: x in {Delve(p), Issued(r)} ==> !Accounted(from, x)
    ensures Reaches(from, s) && forall x :: x in {Delve(p), Issued(r)} ==> Obtained(s, x) && !Accounted(s, x)
    ensures At(s, w) == Returned(Woken) && At(s, c) == At(s, d) == Returned(Slept)
  {
    Paths.Stay(Next, from);
    SleepFinishes(from, from, c, rc, u, pc);
    var s1 := AfterSleep(from, c, rc, u, pc);
    WakeAlone(from, s1, w, p, r);
    var s2 := AfterWake(s1, w, p, r);
    SleepFinishes(from, s2, d, rd, u, pd);
    s := AfterSleep(s2, d, rd, u, pd);
    forall x | x in {Delve(p), Issued(r)} ensures Obtained(s, x) && !Accounted(s, x) {
      assert !Accounted(from, x);
      SleepReleasesNoMore(from, c, rc, u, pc, x);
      SleepReleasesNoMore(s2, d, rd, u, pd, x);
      assert forall y :: y in s.calls ==> y in {c, d, w} || s.calls[y] == from.calls[y];
    }
  }

  lemma SleepReleasesNoMore(s: State, c: Call, r: Registration, u: Url, p: Proc, x: Resource)
    requires !Released(s, x) && x != Delve(p) && x != Issued(r)
    ensures !Released(AfterSleep(s, c, r, u, p), x)
  {
    assert forall e :: e in AfterSleep(s, c, r, u, p).unregistered ==> e in s.unregistered || e.0 == r;
  }

  /** Such overlaps are reached from a fresh client: one wake, then two sleeps that both capture its process. */
  lemma OverlappingSleepsLoseAWake(url: Url) returns (between: State, s: State, r: Registration)
    ensures Reaches(Initial(url), between) && Reaches(between, s)
    ensures forall x :: x in {Delve(1), Issued(r)} ==> Obtained(s, x) && !Accounted(s, x)
  {
    var from := Initial(url);
    Paths.Stay(Next, from);
    var r0 := Registered("", url, 0);
    WakeAlone(from, from, 0, 0, r0);
    var s1 := AfterWake(from, 0, 0, r0);
    SleepCaptures(from, s1, 1);
    var s2 := Goto(s1, 1, SleepUnregister(CaptureOf(s1)));
    SleepCaptures(from, s2, 2);
    between := Goto(s2, 2, SleepUnregister(CaptureOf(s2)));
    r := Registered("", url, 1);
    s := OverlapCanLoseAWake(between, 1, 2, r0, r0, url, 0, 0, 3, 1, r);
  }

  // ---------------------------------------------------------------- every call can return

  /** Steps that a place is at most away from the end when every I/O fails and no wait is needed. */
  function PlaceRank(p: Place): nat {
    match p
    case WakeStart(_) => 8
    case WakePhase1(_) => 7
    case WakeHealth(_) => 6
    case WakeSpawn(_) => 5
    case WakeRegister(_, _) => 4
    case WakeKill(_) => 3
    case WakeFail => 2
    case WakeCommit(_, _) => 2
    case WakeRelease(_) => 1
    case SleepWaiting => 6
    case SleepWaited => 5
    case SleepLock => 4
    case SleepUnregister(_) => 3
    case SleepKill(_) => 2
    case SleepCommit(_) => 1
    case Returned(_) => 0
  }

  function Rank(t: Thread): nat {
    10 * PlaceRank(t.at) + if t.section.Some? then 1 + |t.section.value| else 0
  }

  predicate Finished(t: Thread) {
    t.at.Returned? && t.section.None?
  }

  predicate AllReturned(s: State) {
    forall c :: c in s.calls ==> Finished(s.calls[c])
  }

  /** The call that can go on: the holder of the state lock, else the holder of the wake lock, else any. */
  predicate Runnable(s: State, c: Call) {
    && c in s.calls && !Finished(s.calls[c])
    && (s.stateLock.Some? ==> s.stateLock == Some(c))
    && (s.stateLock.None? && s.wakeLock.Some? ==> s.wakeLock == Some(c))
  }

  lemma LockStepComesCloser(s: State, c: Call)
    requires Inv(s) && Runnable(s, c) && s.stateLock.None? && WantsState(s.calls[c].at)
    ensures LockStep(s, c).Some? && Rank(LockStep(s, c).value.calls[c]) < Rank(s.calls[c])
  {
    assert Mine(s, c);
  }

  lemma OpenStepComesCloser(s: State, c: Call)
    requires Inv(s) && Runnable(s, c) && s.stateLock.None? && !WantsState(s.calls[c].at)
    ensures OpenStep(s, c, false, 0, "").Some? && Rank(OpenStep(s, c, false, 0, "").value.calls[c]) < Rank(s.calls[c])
  {
    assert Mine(s, c);
  }

  /** A call that can go on has an enabled step that brings it closer to its end. */
  lemma RunnableComesCloser(s: State, c: Call)
    requires Inv(s) && Runnable(s, c)
    ensures Step(s, Run(c, false, 0, "")).Some?
    ensures Rank(Step(s, Run(c, false, 0, "")).value.calls[c]) < Rank(s.calls[c])
  {
    assert Mine(s, c);
    if s.stateLock.None? {
      if WantsState(s.calls[c].at) {
        LockStepComesCloser(s, c);
      } else {
        OpenStepComesCloser(s, c);
      }
    }
  }

  /** The two locks never deadlock: while some call has not returned, some call can take a step. */
  lemma SomeCallCanStep(s: State) returns (c: Call)
    requires Inv(s) && !AllReturned(s)
    ensures Runnable(s, c) && Step(s, Run(c, false, 0, "")).Some?
  {
    if s.stateLock.Some? {
      c := s.stateLock.value;
    } else if s.wakeLock.Some? {
      c := s.wakeLock.value;
    } else {
      c :| c in s.calls && !Finished(s.calls[c]);
    }
    assert Mine(s, c);
    RunnableComesCloser(s, c);
  }

  function Ranks(s: State): map<Call, nat> {
    map c | c in s.calls :: Rank(s.calls[c])
  }

  lemma StepLowersTotal(s: State, c: Call, n: nat)
    requires Inv(s) && Runnable(s, c) && forall d :: d in s.calls ==> d < n
    ensures Step(s, Run(c, false, 0, "")).Some?
    ensures var s' := Step(s, Run(c, false, 0, "")).value;
            s'.calls.Keys == s.calls.Keys && Paths.Total(Ranks(s'), n) < Paths.Total(Ranks(s), n)
  {
    RunnableComesCloser(s, c);
    StepTouchesOne(s, Run(c, false, 0, ""));
    var s' := Step(s, Run(c, false, 0, "")).value;
    assert Ranks(s') == Ranks(s)[c := Rank(s'.calls[c])];
    Paths.TotalDrops(Ranks(s), c, Rank(s'.calls[c]), n);
  }

  lemma {:induction false} ComesToRest(from: State, s: State, n: nat) returns (end: State)
    requires Inv(s) && Reaches(from, s) && forall d :: d in s.calls ==> d < n
    ensures Reaches(from, end) && Inv(end) && AllReturned(end) && end.calls.Keys == s.calls.Keys
    decreases Paths.Total(Ranks(s), n)
  {
    if AllReturned(s) {
      end := s;
    } else {
      var c := SomeCallCanStep(s);
      var a := Run(c, false, 0, "");
      StepLowersTotal(s, c, n);
      StepKeepsInv(s, a);
      Extend(from, s, a);
      end := ComesToRest(from, Step(s, a).value, n);
    }
  }

  /** From every point of every run, all calls started so far can return, and then both locks are free and the client is
      Sleeping or Awake. */
  lemma EveryCallCanReturn(run: seq<State>, i: nat) returns (end: State)
    requires IsRun(run) && i < |run|
    ensures Reaches(run[i], end) && AllReturned(end) && end.calls.Keys == run[i].calls.Keys
    ensures Idle(end) && end.fields.mode != Waking
  {
    RunKeepsInv(run, i);
    Paths.Stay(Next, run[i]);
    var n := Paths.Below(run[i].calls.Keys);
    end := ComesToRest(run[i], run[i], n);
    assert end.stateLock.Some? ==> Mine(end, end.stateLock.value);
    assert end.wakeLock.Some? ==> Mine(end, end.wakeLock.value);
  }
}
