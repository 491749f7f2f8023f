/**
  Wake and sleep of the Python client, as steps of any number of concurrent calls.

  As in the Go client there is a wake lock, held for a whole wake, and a state lock, held in
  short critical sections that assign one field per step. Unlike the Go client, a wake stores
  the daemon URL it used, a failed wake puts back the state it found, a sleep waits at most
  once for a wake and does not look at the state afterwards, and it re-checks the state
  before its last writes.
*/
module PyClient {
  import opened Options

  type Call = nat
  type Url = string

  datatype Mode = Sleeping | Waking | Awake

  /** A registration: the connection id, the daemon that issued it, and a number that tells registrations apart. */
  datatype Registration = Registration(id: string, daemon: Url, serial: nat)

  /** What one sleep read under the state lock before its I/O. */
  datatype Capture = Capture(connection: Option<Registration>, url: Url)

  /** The client fields guarded by the state lock. */
  datatype Fields = Fields(mode: Mode, portActive: bool, connection: Option<Registration>, url: Url)

  datatype Write =
    | SetMode(mode: Mode)
    | SetPort(active: bool)
    | SetConnection(connection: Option<Registration>)
    | SetUrl(url: Url)

  datatype Answer = AlreadyAwake | WakeInProgress | BadUrl | WakeFailed | Woken | AlreadySleeping | Slept

  /** Where a call is, outside its critical sections. `previous` is the state a wake found and restores on failure. */
  datatype Place =
    | WakeStart(argument: Url)                                       // wants the wake lock
    | WakePhase1(argument: Url)                                      // wants the state lock
    | WakeHealth(target: Url, previous: Mode)
    | WakeDebugger(target: Url, previous: Mode)
    | WakeControlPort(target: Url, previous: Mode)                   // wants the state lock
    | WakeRegister(target: Url, previous: Mode)
    | WakeFail(previous: Mode)                                       // wants the state lock
    | WakeCommit(target: Url, previous: Mode, reg: Registration)     // wants the state lock
    | WakeRelease(answer: Answer)
    | SleepLock                                                      // wants the state lock
    | SleepWaiting                                                   // wants the wake lock
    | SleepWaited
    | SleepReread                                                    // wants the state lock
    | SleepUnregister(cap: Capture)
    | SleepCommit(cap: Capture)                                      // wants the state lock
    | Returned(answer: Answer)

  /** `section` is `Some(writes)` while the call holds the state lock: the writes are still to do, and `at` is where
      the call goes on after unlocking. */
  datatype Thread = Thread(at: Place, section: Option<seq<Write>>)

  datatype State = State(
    fields: Fields,
    wakeLock: Option<Call>,
    stateLock: Option<Call>,
    calls: map<Call, Thread>,
    issued: set<Registration>,
    unregistered: set<(Registration, Url)>)

  /** `Run` lets a started call take its next step; `ok`, `id` and `serial` are the outcome of its I/O, if it does
      any. */
  datatype Action =
    | StartWake(call: Call, argument: Url)
    | StartSleep(call: Call)
    | Run(call: Call, ok: bool, id: string, serial: nat)

  function Initial(url: Url): State {
    State(Fields(Sleeping, false, None, url), None, None, map[], {}, {})
  }

  function Apply(w: Write, f: Fields): Fields {
    match w
    case SetMode(m) => f.(mode := m)
    case SetPort(b) => f.(portActive := b)
    case SetConnection(o) => f.(connection := o)
    case SetUrl(u) => f.(url := u)
  }

  /** A critical section: the writes it will do, given the fields it finds, and where the call goes on. In phase 1,
      `ok` says whether the URL has an acceptable format. */
  function Section(p: Place, f: Fields, ok: bool): (seq<Write>, Place) {
    match p
    case WakePhase1(argument) =>
      var target := if argument != "" then argument else f.url;
      if f.mode == Awake then ([], WakeRelease(AlreadyAwake))
      else if f.mode == Waking then ([], WakeRelease(WakeInProgress))
      else if target == "" || !ok then ([], WakeRelease(BadUrl))
      else ([SetMode(Waking)], WakeHealth(target, f.mode))
    case WakeControlPort(target, previous) => ([], WakeRegister(target, previous))
    case WakeFail(previous) => ([SetMode(previous)], WakeRelease(WakeFailed))
    case WakeCommit(target, _, reg) =>
      ([SetMode(Awake), SetPort(true), SetConnection(Some(reg)), SetUrl(target)], WakeRelease(Woken))
    case SleepLock =>
      if f.mode == Sleeping then ([], Returned(AlreadySleeping))
      else if f.mode == Waking then ([], SleepWaiting)
      else ([], SleepUnregister(Capture(f.connection, f.url)))
    case SleepReread => ([], SleepUnregister(Capture(f.connection, f.url)))
    case SleepCommit(_) =>
      if f.mode == Sleeping then ([], Returned(AlreadySleeping))
      else ([SetMode(Sleeping), SetConnection(None)], Returned(Slept))
    case _ => ([], p)
  }

  predicate WantsState(p: Place) {
    || p.WakePhase1? || p.WakeControlPort? || p.WakeFail? || p.WakeCommit?
    || p.SleepLock? || p.SleepReread? || p.SleepCommit?
  }

  /** The effect of one action; `None` when it is not enabled (a lock is taken, an id is not new, the call is over). */
  function Step(s: State, a: Action): Option<State> {
    match a
    case StartWake(c, argument) =>
      if c in s.calls then None else Some(Goto(s, c, WakeStart(argument)))
    case StartSleep(c) =>
      if c in s.calls then None else Some(Goto(s, c, SleepLock))
    case Run(c, ok, id, serial) =>
      if c !in s.calls then None
      else if s.calls[c].section.Some? then Some(SectionStep(s, c))
      else if WantsState(s.calls[c].at) then LockStep(s, c, ok)
      else OpenStep(s, c, ok, id, serial)
  }

  function Goto(s: State, c: Call, p: Place): State {
    s.(calls := s.calls[c := Thread(p, None)])
  }

  function LockStep(s: State, c: Call, ok: bool): Option<State>
    requires c in s.calls
  {
    if s.stateLock.Some? then None
    else
      var (writes, next) := Section(s.calls[c].at, s.fields, ok);
      Some(s.(calls := s.calls[c := Thread(next, Some(writes))], stateLock := Some(c)))
  }

  /** One field assignment, or the unlock when none is left. */
  function SectionStep(s: State, c: Call): State
    requires c in s.calls && s.calls[c].section.Some?
  {
    var Thread(p, Some(writes)) := s.calls[c];
    if writes == [] then Goto(s, c, p).(stateLock := None)
    else s.(calls := s.calls[c := Thread(p, Some(writes[1..]))], fields := Apply(writes[0], s.fields))
  }

  /** Steps outside the state lock: the wake lock, and the I/O. */
  function OpenStep(s: State, c: Call, ok: bool, id: string, serial: nat): Option<State>
    requires c in s.calls
  {
    match s.calls[c].at
    case WakeStart(argument) =>
      if s.wakeLock.Some? then None else Some(Goto(s, c, WakePhase1(argument)).(wakeLock := Some(c)))
    case WakeHealth(target, previous) =>
      Some(Goto(s, c, if ok then WakeDebugger(target, previous) else WakeFail(previous)))
    case WakeDebugger(target, previous) =>
      Some(Goto(s, c, if ok then WakeControlPort(target, previous) else WakeFail(previous)))
    case WakeRegister(target, previous) =>
      var reg := Registration(id, target, serial);
      if !ok then Some(Goto(s, c, WakeFail(previous)))
      else if reg in s.issued then None
      else Some(Goto(s, c, WakeCommit(target, previous, reg)).(issued := s.issued + {reg}))
    case WakeRelease(answer) => Some(Goto(s, c, Returned(answer)).(wakeLock := None))
    case SleepWaiting =>
      if s.wakeLock.Some? then None else Some(Goto(s, c, SleepWaited).(wakeLock := Some(c)))
    case SleepWaited => Some(Goto(s, c, SleepReread).(wakeLock := None))
    case SleepUnregister(cap) =>
      var log := if cap.connection.Some? && cap.connection.value.id != "" && cap.url != ""
                 then {(cap.connection.value, cap.url)} else {};
      Some(Goto(s, c, SleepCommit(cap)).(unregistered := s.unregistered + log))
    case _ => None
  }

  /** A finite run: any interleaving of any number of calls, from a freshly initialised client. */
  ghost predicate IsRun(run: seq<State>) {
    && |run| > 0
    && run[0] == Initial(run[0].fields.url)
    && forall i :: 0 <= i < |run| - 1 ==> Next(run[i], run[i + 1])
  }

  ghost predicate Next(s: State, s': State) {
    exists a :: Step(s, a) == Some(s')
  }

  // ---------------------------------------------------------------- locks and fields

  predicate HoldsWake(p: Place) {
    || p.WakePhase1? || PastPhase1(p) || p.WakeRelease? || p.SleepWaited?
  }

  /** The wake has marked the client as waking and has not yet decided its outcome. */
  predicate PastPhase1(p: Place) {
    || p.WakeHealth? || p.WakeDebugger? || p.WakeControlPort? || p.WakeRegister? || p.WakeFail? || p.WakeCommit?
  }

  /** Awake exactly when a connection is recorded, and the recorded URL is that of the daemon that issued it. */
  predicate Consistent(f: Fields) {
    && (f.mode == Awake <==> f.connection.Some?)
    && (f.connection.Some? ==> f.url == f.connection.value.daemon)
  }

  function ApplyAll(writes: seq<Write>, f: Fields): Fields {
    if writes == [] then f else ApplyAll(writes[1..], Apply(writes[0], f))
  }

  /** The fields as the holder of the state lock will leave them. */
  function Settled(s: State): Fields {
    if s.stateLock.Some? && s.stateLock.value in s.calls && s.calls[s.stateLock.value].section.Some?
    then ApplyAll(s.calls[s.stateLock.value].section.value, s.fields)
    else s.fields
  }

  /** What a place carries along. */
  predicate Carries(p: Place) {
    && (PastPhase1(p) ==> p.previous == Sleeping)
    && (p.WakeCommit? ==> p.reg.daemon == p.target)
    && (p.SleepUnregister? && p.cap.connection.Some? ==> p.cap.url == p.cap.connection.value.daemon)
    && p != WakeRelease(WakeInProgress) && p != Returned(WakeInProgress)
  }

  ghost predicate Inv(s: State) {
    && (s.wakeLock.Some? ==> s.wakeLock.value in s.calls)
    && (s.stateLock.Some? ==> s.stateLock.value in s.calls)
    && (forall c :: c in s.calls ==> Mine(s, c))
    && Consistent(Settled(s))
    && (Settled(s).mode == Waking ==> s.wakeLock.Some? && PastPhase1(At(s, s.wakeLock.value)))
    && (forall e :: e in s.unregistered ==> e.1 == e.0.daemon)
  }

  /** What the invariant says of one call. */
  predicate Mine(s: State, c: Call)
    requires c in s.calls
  {
    var t := s.calls[c];
    && (HoldsWake(t.at) <==> s.wakeLock == Some(c))
    && (t.section.Some? <==> s.stateLock == Some(c))
    && (PastPhase1(t.at) ==> Settled(s).mode != Awake)
    && Carries(t.at)
  }

  /** A call that has not started holds as little as one that has returned. */
  function At(s: State, c: Call): Place {
    if c in s.calls then s.calls[c].at else Returned(Slept)
  }

  predicate Inside(s: State, c: Call) {
    c in s.calls && s.calls[c].section.Some?
  }

  /** What a step of call c does to the locks and to the settled fields, whatever the other calls are. */
  predicate LocalStep(s: State, s': State, c: Call) {
    var p, p', f, f' := At(s, c), At(s', c), Settled(s), Settled(s');
    && c in s'.calls && s'.calls == s.calls[c := s'.calls[c]]
    && s'.wakeLock == (if HoldsWake(p') then Some(c) else if HoldsWake(p) then None else s.wakeLock)
    && s'.stateLock == (if Inside(s', c) then Some(c) else if Inside(s, c) then None else s.stateLock)
    && (HoldsWake(p') && !HoldsWake(p) ==> s.wakeLock.None?)
    && (Inside(s', c) && !Inside(s, c) ==> s.stateLock.None?)
    && Consistent(f')
    && (PastPhase1(p') ==> f'.mode != Awake)
    && (f'.mode == Awake && f.mode != Awake ==> HoldsWake(p))
    && (f'.mode == Waking ==> PastPhase1(p') || (f.mode == Waking && !PastPhase1(p)))
    && Carries(p')
  }

  lemma LocalStepKeepsInv(s: State, s': State, c: Call)
    requires Inv(s) && LocalStep(s, s', c)
    requires forall e :: e in s'.unregistered ==> e.1 == e.0.daemon
    ensures Inv(s')
  {
    forall d | d in s'.calls ensures Mine(s', d) {
      if d != c {
        assert s'.calls[d] == s.calls[d] && Mine(s, d);
        assert c in s.calls ==> Mine(s, c);
      }
    }
  }

  lemma SectionStepIsLocal(s: State, c: Call)
    requires Inv(s) && Inside(s, c)
    ensures LocalStep(s, SectionStep(s, c), c)
    ensures Settled(SectionStep(s, c)) == Settled(s)
  {
    assert Mine(s, c);
  }

  /** The effect of a whole critical section, as one assignment. */
  function Outcome(p: Place, f: Fields, ok: bool): Fields {
    match p
    case WakePhase1(argument) =>
      if f.mode == Sleeping && (argument != "" || f.url != "") && ok then f.(mode := Waking) else f
    case WakeFail(previous) => f.(mode := previous)
    case WakeCommit(target, _, reg) => Fields(Awake, true, Some(reg), target)
    case SleepCommit(_) => if f.mode == Sleeping then f else f.(mode := Sleeping, connection := None)
    case _ => f
  }

  lemma ApplyTwo(a: Write, b: Write, f: Fields)
    ensures ApplyAll([a, b], f) == Apply(b, Apply(a, f))
  {
    assert [a, b][1..] == [b];
    assert ApplyAll([b], Apply(a, f)) == Apply(b, Apply(a, f));
  }

  lemma ApplyFour(a: Write, b: Write, c: Write, d: Write, f: Fields)
    ensures ApplyAll([a, b, c, d], f) == Apply(d, Apply(c, Apply(b, Apply(a, f))))
  {
    assert [a, b, c, d][1..] == [b, c, d] && [b, c, d][1..] == [c, d];
    ApplyTwo(c, d, Apply(b, Apply(a, f)));
  }

  lemma SectionHasOutcome(p: Place, f: Fields, ok: bool)
    ensures ApplyAll(Section(p, f, ok).0, f) == Outcome(p, f, ok)
  {
    var w := Section(p, f, ok).0;
    if |w| == 4 {
      ApplyFour(w[0], w[1], w[2], w[3], f);
    } else if |w| == 2 {
      ApplyTwo(w[0], w[1], f);
    }
  }

  lemma LockStepIsLocal(s: State, c: Call, ok: bool)
    requires Inv(s) && c in s.calls && !Inside(s, c) && WantsState(s.calls[c].at) && LockStep(s, c, ok).Some?
    ensures LocalStep(s, LockStep(s, c, ok).value, c)
    ensures Settled(LockStep(s, c, ok).value) == Outcome(s.calls[c].at, s.fields, ok)
  {
    assert Mine(s, c);
    SectionHasOutcome(s.calls[c].at, s.fields, ok);
  }

  lemma GotoIsSettled(s: State, c: Call, p: Place)
    requires c in s.calls && Mine(s, c) && !Inside(s, c)
    ensures Settled(Goto(s, c, p)) == Settled(s)
  {
  }

  lemma OpenStepIsLocal(s: State, c: Call, ok: bool, id: string, serial: nat)
    requires c in s.calls && Mine(s, c) && !Inside(s, c) && Consistent(Settled(s))
    requires OpenStep(s, c, ok, id, serial).Some?
    ensures Settled(OpenStep(s, c, ok, id, serial).value) == Settled(s)
    ensures LocalStep(s, OpenStep(s, c, ok, id, serial).value, c)
    ensures forall e :: e in OpenStep(s, c, ok, id, serial).value.unregistered && e !in s.unregistered ==>
              e.1 == e.0.daemon
  {
    var s' := OpenStep(s, c, ok, id, serial).value;
    GotoIsSettled(s, c, s'.calls[c].at);
    assert s'.stateLock == s.stateLock && s'.fields == s.fields && s'.calls == Goto(s, c, s'.calls[c].at).calls;
  }

  /** Only the step that takes the state lock changes the settled fields. */
  predicate TakesLock(s: State, a: Action) {
    a.Run? && a.call in s.calls && !Inside(s, a.call) && WantsState(s.calls[a.call].at)
  }

  lemma StepKeepsInv(s: State, a: Action)
    requires Inv(s) && Step(s, a).Some?
    ensures Inv(Step(s, a).value)
    ensures TakesLock(s, a) ==> s.fields == Settled(s) && s.stateLock.None?
    ensures Settled(Step(s, a).value) ==
            if TakesLock(s, a) then Outcome(s.calls[a.call].at, s.fields, a.ok) else Settled(s)
  {
    var c := a.call;
    if a.Run? {
      assert Mine(s, c);
      if Inside(s, c) {
        SectionStepIsLocal(s, c);
      } else if WantsState(s.calls[c].at) {
        LockStepIsLocal(s, c, a.ok);
      } else {
        OpenStepIsLocal(s, c, a.ok, a.id, a.serial);
      }
    }
    LocalStepKeepsInv(s, Step(s, a).value, c);
  }

  /** The action that links two states of a run. */
  lemma Linked(run: seq<State>, i: nat) returns (a: Action)
    requires IsRun(run) && i + 1 < |run|
    ensures Step(run[i], a) == Some(run[i + 1])
  {
    assert Next(run[i], run[i + 1]);
    a :| Step(run[i], a) == Some(run[i + 1]);
  }

  lemma InvNext(run: seq<State>, i: nat)
    requires IsRun(run) && i + 1 < |run| && Inv(run[i])
    ensures Inv(run[i + 1])
  {
    var a := Linked(run, i);
    StepKeepsInv(run[i], a);
  }

  lemma {:induction false} RunKeepsInv(run: seq<State>, i: nat)
    requires IsRun(run) && i < |run|
    ensures Inv(run[i])
  {
    if i > 0 {
      RunKeepsInv(run, i - 1);
      InvNext(run, i - 1);
    }
  }

  /** However wakes and sleeps overlap, the client is awake exactly when it has a connection, whenever the state lock is
      free; and then the stored URL is that of the daemon that issued the connection. */
  lemma AwakeIffConnected(run: seq<State>, i: nat)
    requires IsRun(run) && i < |run| && run[i].stateLock.None?
    ensures run[i].fields.mode == Awake <==> run[i].fields.connection.Some?
    ensures run[i].fields.connection.Some? ==> run[i].fields.url == run[i].fields.connection.value.daemon
  {
    RunKeepsInv(run, i);
  }

  /** Every unregister call goes to the daemon that issued the registration, whatever URLs the wakes were given. */
  lemma UnregisterReachesIssuer(run: seq<State>, i: nat, r: Registration, u: Url)
    requires IsRun(run) && i < |run| && (r, u) in run[i].unregistered
    ensures u == r.daemon
  {
    RunKeepsInv(run, i);
    assert (r, u).1 == (r, u).0.daemon;
  }

  /** While the client is waking, exactly one wake is past phase 1, and it holds the wake lock. */
  lemma WakingHasOneOwner(run: seq<State>, i: nat) returns (c: Call)
    requires IsRun(run) && i < |run| && run[i].stateLock.None? && run[i].fields.mode == Waking
    ensures c in run[i].calls && PastPhase1(run[i].calls[c].at) && run[i].wakeLock == Some(c)
    ensures forall d :: d in run[i].calls && PastPhase1(run[i].calls[d].at) ==> d == c
  {
    RunKeepsInv(run, i);
    c := run[i].wakeLock.value;
    forall d | d in run[i].calls && PastPhase1(run[i].calls[d].at) ensures d == c {
      assert Mine(run[i], d);
    }
  }

  /** The "wake already in progress" error is never raised, and a failed wake always restores Sleeping. */
  lemma WakeInProgressIsUnreachable(run: seq<State>, i: nat, c: Call)
    requires IsRun(run) && i < |run| && c in run[i].calls
    ensures run[i].calls[c].at != WakeRelease(WakeInProgress)
    ensures run[i].calls[c].at != Returned(WakeInProgress)
    ensures run[i].calls[c].at.WakeFail? ==> run[i].calls[c].at.previous == Sleeping
  {
    RunKeepsInv(run, i);
    assert Mine(run[i], c);
  }

  // ---------------------------------------------------------------- registrations

  predicate Unregistered(s: State, r: Registration) {
    exists e :: e in s.unregistered && e.0 == r
  }

  predicate Recorded(f: Fields, r: Registration) {
    f.connection == Some(r)
  }

  /** The wake has obtained the registration and not yet recorded it. */
  predicate Holds(p: Place, r: Registration) {
    p.WakeCommit? && p.reg == r
  }

  ghost predicate Accounted(s: State, r: Registration) {
    || Unregistered(s, r)
    || Recorded(Settled(s), r)
    || exists c :: c in s.calls && Holds(s.calls[c].at, r)
  }

  ghost predicate RegInv(s: State, r: Registration) {
    && (Recorded(Settled(s), r) ==> r in s.issued)
    && (forall c :: c in s.calls && Holds(s.calls[c].at, r) ==> r in s.issued && !Recorded(Settled(s), r))
  }

  /** A sleep is about to run its last critical section while r is recorded and has not been given to unregister. */
  predicate StaleCommit(s: State, a: Action, r: Registration) {
    TakesLock(s, a) && s.calls[a.call].at.SleepCommit? && Recorded(s.fields, r) && !Unregistered(s, r)
  }

  /** What a step does to one registration, whatever the other calls are. */
  predicate RegStep(s: State, s': State, c: Call, r: Registration) {
    var held, held' := Holds(At(s, c), r), Holds(At(s', c), r);
    var recorded, recorded' := Recorded(Settled(s), r), Recorded(Settled(s'), r);
    && c in s'.calls && s'.calls == s.calls[c := s'.calls[c]]
    && (r in s.issued ==> r in s'.issued) && (Unregistered(s, r) ==> Unregistered(s', r))
    && (r in s'.issued && r !in s.issued ==> held' && recorded' == recorded)
    && (held' && !held ==> r in s'.issued && r !in s.issued)
    && (held && !held' ==> recorded')
    && (recorded' && !recorded ==> held && !held')
    && (recorded && !recorded' ==> At(s, c).SleepCommit? && !held' && (Unregistered(s', r) ==> Unregistered(s, r)))
    && (Unregistered(s', r) && !Unregistered(s, r) ==>
          && At(s, c).SleepUnregister? && At(s, c).cap.connection == Some(r) && Usable(At(s, c).cap)
          && At(s', c) == SleepCommit(At(s, c).cap) && !held' && recorded' == recorded)
    && (held ==> HoldsWake(At(s, c)))
  }

  /** The sleep has something to unregister and somewhere to send it. */
  predicate Usable(cap: Capture) {
    cap.connection.Some? && cap.connection.value.id != "" && cap.url != ""
  }

  lemma LockStepIsRegStep(s: State, c: Call, ok: bool, r: Registration)
    requires Inv(s) && c in s.calls && !Inside(s, c) && WantsState(s.calls[c].at) && LockStep(s, c, ok).Some?
    ensures RegStep(s, LockStep(s, c, ok).value, c, r)
  {
    LockStepIsLocal(s, c, ok);
    assert Mine(s, c);
  }

  lemma OpenStepIsRegStep(s: State, c: Call, ok: bool, id: string, serial: nat, r: Registration)
    requires c in s.calls && Mine(s, c) && !Inside(s, c) && Consistent(Settled(s)) && !WantsState(s.calls[c].at)
    requires OpenStep(s, c, ok, id, serial).Some?
    ensures RegStep(s, OpenStep(s, c, ok, id, serial).value, c, r)
  {
    OpenStepIsLocal(s, c, ok, id, serial);
  }

  lemma StepIsRegStep(s: State, a: Action, r: Registration)
    requires Inv(s) && Step(s, a).Some?
    ensures RegStep(s, Step(s, a).value, a.call, r)
  {
    var c := a.call;
    if a.Run? {
      assert Mine(s, c);
      if Inside(s, c) {
        SectionStepIsLocal(s, c);
      } else if WantsState(s.calls[c].at) {
        LockStepIsRegStep(s, c, a.ok, r);
      } else {
        OpenStepIsRegStep(s, c, a.ok, a.id, a.serial, r);
      }
    }
  }

  lemma RegStepKeepsInv(s: State, s': State, c: Call, r: Registration)
    requires Inv(s) && RegInv(s, r) && RegStep(s, s', c, r)
    ensures RegInv(s', r)
  {
    forall d | d in s'.calls && Holds(s'.calls[d].at, r) ensures r in s'.issued && !Recorded(Settled(s'), r) {
      if d != c {
        assert s'.calls[d] == s.calls[d] && Mine(s, d);
        assert c in s.calls ==> Mine(s, c);
      }
    }
  }

  /** What is accounted for stays so, unless the step drops its record. */
  lemma RegStepAccounts(s: State, s': State, c: Call, r: Registration)
    requires Inv(s) && RegInv(s, r) && RegStep(s, s', c, r) && (r in s.issued ==> Accounted(s, r))
    ensures (r in s'.issued ==> Accounted(s', r)) <==>
            !(Recorded(Settled(s), r) && !Recorded(Settled(s'), r) && !Unregistered(s, r))
  {
    if Recorded(Settled(s), r) && !Recorded(Settled(s'), r) {
      forall d | d in s'.calls ensures !Holds(s'.calls[d].at, r) {
        assert d != c ==> s'.calls[d] == s.calls[d];
      }
    } else if exists d :: d in s.calls && Holds(s.calls[d].at, r) {
      var d :| d in s.calls && Holds(s.calls[d].at, r);
      assert d != c ==> s'.calls[d] == s.calls[d];
    }
  }

  /** A record disappears exactly when a sleep takes the lock for its last critical section. */
  lemma OnlyCommitsClear(s: State, a: Action, r: Registration)
    requires Inv(s) && Step(s, a).Some? && Recorded(Settled(s), r)
    ensures !Recorded(Settled(Step(s, a).value), r) <==> TakesLock(s, a) && s.calls[a.call].at.SleepCommit?
  {
    StepKeepsInv(s, a);
    assert a.call in s.calls ==> Mine(s, a.call);
  }

  /** A step loses r if and only if it starts the last critical section of a sleep while r is recorded and not
      unregistered. */
  lemma StepLoses(s: State, a: Action, r: Registration)
    requires Inv(s) && RegInv(s, r) && Step(s, a).Some? && (r in s.issued ==> Accounted(s, r))
    ensures (r in Step(s, a).value.issued && !Accounted(Step(s, a).value, r)) <==> StaleCommit(s, a, r)
  {
    StepIsRegStep(s, a, r);
    RegStepAccounts(s, Step(s, a).value, a.call, r);
    StepKeepsInv(s, a);
    if Recorded(Settled(s), r) {
      OnlyCommitsClear(s, a, r);
    }
  }

  /** r is accounted for at every point of the run at which it has been issued. */
  ghost predicate Kept(run: seq<State>, r: Registration) {
    forall i :: 0 <= i < |run| && r in run[i].issued ==> Accounted(run[i], r)
  }

  ghost predicate NeverStale(run: seq<State>, r: Registration) {
    forall i, a :: 0 <= i < |run| - 1 && Step(run[i], a) == Some(run[i + 1]) ==> !StaleCommit(run[i], a, r)
  }

  lemma RegInvNext(run: seq<State>, i: nat, r: Registration)
    requires IsRun(run) && i + 1 < |run| && RegInv(run[i], r)
    ensures RegInv(run[i + 1], r)
  {
    RunKeepsInv(run, i);
    var a := Linked(run, i);
    StepIsRegStep(run[i], a, r);
    RegStepKeepsInv(run[i], run[i + 1], a.call, r);
  }

  lemma {:induction false} RunKeepsRegInv(run: seq<State>, i: nat, r: Registration)
    requires IsRun(run) && i < |run|
    ensures RegInv(run[i], r)
  {
    if i > 0 {
      RunKeepsRegInv(run, i - 1, r);
      RegInvNext(run, i - 1, r);
    }
  }

  lemma RunStepLoses(run: seq<State>, i: nat, a: Action, r: Registration)
    requires IsRun(run) && i + 1 < |run| && Step(run[i], a) == Some(run[i + 1])
    requires r in run[i].issued ==> Accounted(run[i], r)
    ensures (r in run[i + 1].issued && !Accounted(run[i + 1], r)) <==> StaleCommit(run[i], a, r)
  {
    RunKeepsInv(run, i);
    RunKeepsRegInv(run, i, r);
    StepLoses(run[i], a, r);
  }

  lemma {:induction false} NeverStaleKeeps(run: seq<State>, i: nat, r: Registration)
    requires IsRun(run) && NeverStale(run, r) && i < |run|
    ensures r in run[i].issued ==> Accounted(run[i], r)
  {
    if i > 0 {
      NeverStaleKeeps(run, i - 1, r);
      var a := Linked(run, i - 1);
      RunStepLoses(run, i - 1, a, r);
    }
  }

  /** With any overlap of calls, and for every registration: a run never loses it if and only if no sleep starts its
      last critical section while it is recorded and not unregistered. */
  lemma KeptIffNeverStale(run: seq<State>, r: Registration)
    requires IsRun(run)
    ensures Kept(run, r) <==> NeverStale(run, r)
  {
    if NeverStale(run, r) {
      forall i | 0 <= i < |run| && r in run[i].issued ensures Accounted(run[i], r) {
        NeverStaleKeeps(run, i, r);
      }
    }
    if Kept(run, r) {
      forall i, a | 0 <= i < |run| - 1 && Step(run[i], a) == Some(run[i + 1]) ensures !StaleCommit(run[i], a, r) {
        assert r in run[i + 1].issued ==> Accounted(run[i + 1], r);
        RunStepLoses(run, i, a, r);
      }
    }
  }

  // ---------------------------------------------------------------- what is recorded is registered

  predicate PastCapture(p: Place) {
    p.SleepUnregister? || p.SleepCommit?
  }

  /** A sleep on its way that will give r to unregister, or has. */
  predicate Captures(p: Place, r: Registration) {
    PastCapture(p) && Usable(p.cap) && p.cap.connection == Some(r)
  }

  ghost predicate Unheld(s: State, r: Registration) {
    r in s.issued && forall c :: c in s.calls ==> !Holds(s.calls[c].at, r)
  }

  ghost predicate SomeCaptures(s: State, r: Registration) {
    exists c :: c in s.calls && Captures(s.calls[c].at, r)
  }

  /** What was unregistered or captured is in no wake's hands, and a record that was unregistered is about to be
      cleared. */
  ghost predicate LiveInv(s: State, r: Registration) {
    && (Unregistered(s, r) || SomeCaptures(s, r) ==> Unheld(s, r))
    && (Unregistered(s, r) && Recorded(Settled(s), r) ==> SomeCaptures(s, r))
  }

  /** How a step of call c captures r, whatever the other calls are. */
  predicate CaptureStep(s: State, s': State, c: Call, r: Registration) {
    var p, p' := At(s, c), At(s', c);
    && (Captures(p', r) && !Captures(p, r) ==> Recorded(Settled(s), r) && !Holds(p', r))
    && (Captures(p, r) && !Captures(p', r) ==> !Recorded(Settled(s'), r))
  }

  lemma LockStepIsCaptureStep(s: State, c: Call, ok: bool, r: Registration)
    requires Inv(s) && c in s.calls && !Inside(s, c) && WantsState(s.calls[c].at) && LockStep(s, c, ok).Some?
    ensures CaptureStep(s, LockStep(s, c, ok).value, c, r)
  {
    LockStepIsLocal(s, c, ok);
    assert Mine(s, c);
  }

  lemma OpenStepIsCaptureStep(s: State, c: Call, ok: bool, id: string, serial: nat, r: Registration)
    requires c in s.calls && Mine(s, c) && !Inside(s, c) && Consistent(Settled(s)) && !WantsState(s.calls[c].at)
    requires OpenStep(s, c, ok, id, serial).Some?
    ensures CaptureStep(s, OpenStep(s, c, ok, id, serial).value, c, r)
  {
    OpenStepIsLocal(s, c, ok, id, serial);
  }

  lemma StepIsCaptureStep(s: State, a: Action, r: Registration)
    requires Inv(s) && Step(s, a).Some?
    ensures CaptureStep(s, Step(s, a).value, a.call, r)
  {
    var c := a.call;
    if a.Run? {
      assert Mine(s, c);
      if Inside(s, c) {
        SectionStepIsLocal(s, c);
      } else if WantsState(s.calls[c].at) {
        LockStepIsCaptureStep(s, c, a.ok, r);
      } else {
        OpenStepIsCaptureStep(s, c, a.ok, a.id, a.serial, r);
      }
    }
  }

  /** A registration that is captured or unregistered after the step is in no wake's hands then. */
  lemma CaptureStepUnheld(s: State, s': State, c: Call, r: Registration)
    requires Inv(s) && RegInv(s, r) && LiveInv(s, r) && RegStep(s, s', c, r) && CaptureStep(s, s', c, r)
    requires Unregistered(s', r) || SomeCaptures(s', r)
    ensures Unheld(s', r)
  {
    if SomeCaptures(s', r) {
      var d :| d in s'.calls && Captures(s'.calls[d].at, r);
      assert d != c ==> s'.calls[d] == s.calls[d];
    } else if !Unregistered(s, r) {
      assert Captures(s'.calls[c].at, r);
    }
    forall d | d in s'.calls ensures !Holds(s'.calls[d].at, r) {
      if d != c {
        assert s'.calls[d] == s.calls[d] && Mine(s, d);
        assert c in s.calls ==> Mine(s, c);
      }
    }
  }

  lemma CaptureStepKeepsLive(s: State, s': State, c: Call, r: Registration)
    requires Inv(s) && RegInv(s, r) && LiveInv(s, r) && RegStep(s, s', c, r) && CaptureStep(s, s', c, r)
    ensures LiveInv(s', r)
  {
    if Unregistered(s', r) || SomeCaptures(s', r) {
      CaptureStepUnheld(s, s', c, r);
    }
    if Unregistered(s', r) && Recorded(Settled(s'), r) {
      if Unregistered(s, r) {
        var d :| d in s.calls && Captures(s.calls[d].at, r);
        assert d != c ==> s'.calls[d] == s.calls[d];
        assert Captures(s'.calls[d].at, r);
      } else {
        assert Captures(s'.calls[c].at, r);
      }
    }
  }

  lemma LiveNext(run: seq<State>, i: nat, r: Registration)
    requires IsRun(run) && i + 1 < |run| && LiveInv(run[i], r)
    ensures LiveInv(run[i + 1], r)
  {
    RunKeepsInv(run, i);
    RunKeepsRegInv(run, i, r);
    var a := Linked(run, i);
    StepIsRegStep(run[i], a, r);
    StepIsCaptureStep(run[i], a, r);
    CaptureStepKeepsLive(run[i], run[i + 1], a.call, r);
  }

  lemma InitialIsLive(s: State, r: Registration)
    requires s == Initial(s.fields.url)
    ensures LiveInv(s, r)
  {
  }

  lemma {:induction false} RunKeepsLive(run: seq<State>, i: nat, r: Registration)
    requires IsRun(run) && i < |run|
    ensures LiveInv(run[i], r)
  {
    if i == 0 {
      InitialIsLive(run[0], r);
    } else {
      RunKeepsLive(run, i - 1, r);
      LiveNext(run, i - 1, r);
    }
  }

  /** With any overlap of calls: a registration that is recorded has not been unregistered, unless a sleep on its way
      captured it. So an AWAKE client with no sleep past its capture is registered. */
  lemma RecordedIsLive(run: seq<State>, i: nat, r: Registration)
    requires IsRun(run) && i < |run| && Recorded(Settled(run[i]), r)
    ensures r in run[i].issued && (Unregistered(run[i], r) ==> SomeCaptures(run[i], r))
  {
    RunKeepsLive(run, i, r);
    RunKeepsRegInv(run, i, r);
  }

  // ---------------------------------------------------------------- sleeps that do not overlap

  /** At most one sleep is between its capture and its commit. */
  ghost predicate SleepsDisjoint(s: State) {
    forall c, d :: c in s.calls && d in s.calls && PastCapture(s.calls[c].at) && PastCapture(s.calls[d].at) ==> c == d
  }

  /** What a sleep with a usable capture relies on: the record is still the one it captured. */
  predicate Fresh(s: State, p: Place) {
    PastCapture(p) && Usable(p.cap) ==>
      && Settled(s).connection == p.cap.connection
      && (p.SleepCommit? ==> Unregistered(s, p.cap.connection.value))
  }

  ghost predicate CapturesFresh(s: State) {
    forall c :: c in s.calls ==> Fresh(s, s.calls[c].at)
  }

  lemma OpenStepStaysFresh(s: State, c: Call, ok: bool, id: string, serial: nat)
    requires c in s.calls && Mine(s, c) && !Inside(s, c) && Consistent(Settled(s)) && Fresh(s, s.calls[c].at)
    requires OpenStep(s, c, ok, id, serial).Some?
    ensures Fresh(OpenStep(s, c, ok, id, serial).value, OpenStep(s, c, ok, id, serial).value.calls[c].at)
  {
    OpenStepIsLocal(s, c, ok, id, serial);
    var p := s.calls[c].at;
    if p.SleepUnregister? && Usable(p.cap) {
      assert (p.cap.connection.value, p.cap.url) in OpenStep(s, c, ok, id, serial).value.unregistered;
    }
  }

  lemma StepOfSleeper(s: State, a: Action)
    requires Inv(s) && Step(s, a).Some? && (a.call in s.calls ==> Fresh(s, s.calls[a.call].at))
    ensures Fresh(Step(s, a).value, At(Step(s, a).value, a.call))
  {
    var c := a.call;
    if a.Run? {
      assert Mine(s, c);
      if Inside(s, c) {
        SectionStepIsLocal(s, c);
      } else if WantsState(s.calls[c].at) {
        LockStepIsLocal(s, c, a.ok);
      } else {
        OpenStepStaysFresh(s, c, a.ok, a.id, a.serial);
      }
    }
  }

  /** A step of a call that is not past its capture leaves the record of a sleep that is. */
  lemma StepOfOther(s: State, a: Action, p: Place)
    requires Inv(s) && Step(s, a).Some? && Fresh(s, p) && PastCapture(p) && Usable(p.cap)
    requires a.call in s.calls ==> !PastCapture(s.calls[a.call].at)
    ensures Fresh(Step(s, a).value, p)
  {
    StepIsRegStep(s, a, p.cap.connection.value);
  }

  lemma StepKeepsFresh(s: State, a: Action)
    requires Inv(s) && SleepsDisjoint(s) && CapturesFresh(s) && Step(s, a).Some?
    ensures CapturesFresh(Step(s, a).value)
  {
    var s' := Step(s, a).value;
    StepOfSleeper(s, a);
    StepIsRegStep(s, a, Registration("", "", 0));
    forall c | c in s'.calls && c != a.call ensures Fresh(s', s'.calls[c].at) {
      assert s'.calls[c] == s.calls[c] && Fresh(s, s.calls[c].at);
      if PastCapture(s.calls[c].at) && Usable(s.calls[c].at.cap) {
        StepOfOther(s, a, s.calls[c].at);
      }
    }
  }

  lemma FreshNext(run: seq<State>, i: nat)
    requires IsRun(run) && i + 1 < |run| && SleepsDisjoint(run[i]) && CapturesFresh(run[i])
    ensures CapturesFresh(run[i + 1])
  {
    RunKeepsInv(run, i);
    var a := Linked(run, i);
    StepKeepsFresh(run[i], a);
  }

  lemma {:induction false} RunKeepsFresh(run: seq<State>, i: nat)
    requires IsRun(run) && i < |run| && forall j :: 0 <= j < i ==> SleepsDisjoint(run[j])
    ensures CapturesFresh(run[i])
  {
    if i > 0 {
      RunKeepsFresh(run, i - 1);
      FreshNext(run, i - 1);
    }
  }

  /** A sleep that had nothing to unregister is about to run its last critical section while r is recorded. */
  predicate EmptyHanded(s: State, a: Action, r: Registration) {
    && TakesLock(s, a) && s.calls[a.call].at.SleepCommit? && Recorded(s.fields, r)
    && !Usable(s.calls[a.call].at.cap)
  }

  lemma StaleIsEmptyHanded(s: State, a: Action, r: Registration)
    requires Inv(s) && SleepsDisjoint(s) && CapturesFresh(s) && LiveInv(s, r) && Step(s, a).Some?
    ensures StaleCommit(s, a, r) <==> EmptyHanded(s, a, r)
  {
    StepKeepsInv(s, a);
    if TakesLock(s, a) && s.calls[a.call].at.SleepCommit? {
      assert Fresh(s, s.calls[a.call].at);
      assert PastCapture(s.calls[a.call].at);
    }
  }

  ghost predicate NeverEmptyHanded(run: seq<State>, r: Registration) {
    forall i, a :: 0 <= i < |run| - 1 && Step(run[i], a) == Some(run[i + 1]) ==> !EmptyHanded(run[i], a, r)
  }

  lemma DisjointStaleness(run: seq<State>, i: nat, a: Action, r: Registration)
    requires IsRun(run) && i + 1 < |run| && Step(run[i], a) == Some(run[i + 1])
    requires forall j :: 0 <= j < |run| ==> SleepsDisjoint(run[j])
    ensures StaleCommit(run[i], a, r) <==> EmptyHanded(run[i], a, r)
  {
    RunKeepsInv(run, i);
    RunKeepsFresh(run, i);
    RunKeepsLive(run, i, r);
    StaleIsEmptyHanded(run[i], a, r);
  }

  /** When no two sleeps overlap, a registration is never lost if and only if no sleep that had nothing to unregister
      goes on to its last critical section while it is recorded. Wakes may run beside the sleeps, with any URLs. */
  lemma DisjointSleepsKeepIff(run: seq<State>, r: Registration)
    requires IsRun(run) && forall j :: 0 <= j < |run| ==> SleepsDisjoint(run[j])
    ensures Kept(run, r) <==> NeverEmptyHanded(run, r)
  {
    forall i, a | 0 <= i < |run| - 1 && Step(run[i], a) == Some(run[i + 1])
      ensures StaleCommit(run[i], a, r) <==> EmptyHanded(run[i], a, r)
    {
      DisjointStaleness(run, i, a, r);
    }
    KeptIffNeverStale(run, r);
  }
}
