/**
  Wake and sleep of the Go client, as steps of any number of concurrent calls.

  Two mutexes are modelled: the wake lock, held for a whole wake, and the state lock, held
  only in short critical sections. Inside a critical section a call assigns one field per
  step, so the shared fields are torn there and nothing but the locks keeps calls apart.
  Health checks, process spawns, registrations, unregistrations and kills are steps taken
  without the state lock; their outcome is part of the action.
*/
module GoClient {
  import opened Options

  type Call = nat
  type Url = string
  type Proc = nat

  datatype Mode = Sleeping | Waking | Awake

  /** A registration: its id, the daemon that issued it, the URL argument of the wake that asked for it, and a number
      that tells registrations apart. */
  datatype Registration = Registration(id: string, daemon: Url, argument: Url, serial: nat)

  /** What one Sleep read under the state lock before its I/O. */
  datatype Capture = Capture(connection: Option<Registration>, url: Url, delve: Option<Proc>)

  /** The client fields guarded by the state lock. */
  datatype Fields = Fields(mode: Mode, portActive: bool, connection: Option<Registration>, delve: Option<Proc>)

  datatype Write =
    | SetMode(mode: Mode)
    | SetPort(active: bool)
    | SetConnection(connection: Option<Registration>)
    | SetDelve(delve: Option<Proc>)

  datatype Answer = AlreadyAwake | WakeInProgress | WakeFailed | Woken | AlreadySleeping | Slept

  /** Where a call is, outside its critical sections. */
  datatype Place =
    | WakeStart(argument: Url)                      // wants the wake lock
    | WakePhase1(argument: Url)                     // wants the state lock
    | WakeHealth(argument: Url)
    | WakeSpawn(argument: Url)
    | WakeRegister(argument: Url, proc: Proc)
    | WakeKill(proc: Proc)
    | WakeFail                                      // wants the state lock
    | WakeCommit(proc: Proc, reg: Registration)     // wants the state lock
    | WakeRelease(answer: Answer)
    | SleepLock                                     // wants the state lock
    | SleepWaiting                                  // wants the wake lock
    | SleepWaited
    | SleepUnregister(cap: Capture)
    | SleepKill(cap: Capture)
    | SleepCommit(cap: Capture)                     // wants the state lock
    | Returned(answer: Answer)

  /** `section` is `Some(writes)` while the call holds the state lock: the writes are still to do, and `at` is where
      the call goes on after unlocking. */
  datatype Thread = Thread(at: Place, section: Option<seq<Write>>)

  datatype State = State(
    configUrl: Url,
    fields: Fields,
    wakeLock: Option<Call>,
    stateLock: Option<Call>,
    calls: map<Call, Thread>,
    spawned: set<Proc>,
    killed: set<Proc>,
    issued: set<Registration>,
    unregistered: set<(Registration, Url)>)

  /** `Run` lets a started call take its next step; `ok`, `id` and `tag` are the outcome of its I/O, if it does any.
      `tag` names the process that is spawned, or tells the registration apart. */
  datatype Action =
    | StartWake(call: Call, argument: Url)
    | StartSleep(call: Call)
    | Run(call: Call, ok: bool, tag: nat, id: string)

  function Initial(configUrl: Url): State {
    State(configUrl, Fields(Sleeping, false, None, None), None, None, map[], {}, {}, {}, {})
  }

  function Target(argument: Url, configUrl: Url): Url {
    if argument == "" then configUrl else argument
  }

  function Apply(w: Write, f: Fields): Fields {
    match w
    case SetMode(m) => f.(mode := m)
    case SetPort(b) => f.(portActive := b)
    case SetConnection(o) => f.(connection := o)
    case SetDelve(o) => f.(delve := o)
  }

  /** A critical section: the writes it will do, given the fields it finds, and where the call goes on. */
  function Section(p: Place, f: Fields, configUrl: Url): (seq<Write>, Place) {
    match p
    case WakePhase1(argument) =>
      if f.mode == Awake then ([], WakeRelease(AlreadyAwake))
      else if f.mode == Waking then ([], WakeRelease(WakeInProgress))
      else ([SetMode(Waking)], WakeHealth(argument))
    case WakeFail => ([SetMode(Sleeping)], WakeRelease(WakeFailed))
    case WakeCommit(proc, reg) =>
      ([SetMode(Awake), SetPort(true), SetConnection(Some(reg)), SetDelve(Some(proc))], WakeRelease(Woken))
    case SleepLock =>
      if f.mode == Sleeping then ([], Returned(AlreadySleeping))
      else if f.mode == Waking then ([], SleepWaiting)
      else ([], SleepUnregister(Capture(f.connection, configUrl, f.delve)))
    case SleepCommit(cap) =>
      ([SetMode(Sleeping), SetConnection(None), SetDelve(None), SetPort(false)], Returned(Slept))
    case _ => ([], p)
  }

  predicate WantsState(p: Place) {
    p.WakePhase1? || p.WakeFail? || p.WakeCommit? || p.SleepLock? || p.SleepCommit?
  }

  /** The effect of one action; `None` when it is not enabled (a lock is taken, an id is not new, the call is over). */
  function Step(s: State, a: Action): Option<State> {
    match a
    case StartWake(c, argument) =>
      if c in s.calls then None else Some(Goto(s, c, WakeStart(argument)))
    case StartSleep(c) =>
      if c in s.calls then None else Some(Goto(s, c, SleepLock))
    case Run(c, ok, tag, id) =>
      if c !in s.calls then None
      else if s.calls[c].section.Some? then Some(SectionStep(s, c))
      else if WantsState(s.calls[c].at) then LockStep(s, c)
      else OpenStep(s, c, ok, tag, id)
  }

  function Goto(s: State, c: Call, p: Place): State {
    s.(calls := s.calls[c := Thread(p, None)])
  }

  function LockStep(s: State, c: Call): Option<State>
    requires c in s.calls
  {
    if s.stateLock.Some? then None
    else
      var (writes, next) := Section(s.calls[c].at, s.fields, s.configUrl);
      Some(s.(calls := s.calls[c := Thread(next, Some(writes))], stateLock := Some(c)))
  }

  /** One field assignment, or the unlock when none is left. */
  function SectionStep(s: State, c: Call): State
    requires c in s.calls && s.calls[c].section.Some?
  {
    var Thread(p, Some(writes)) := s.calls[c];
    if writes == [] then Goto(s, c, p).(stateLock := None)
    else s.(calls := s.calls[c := Thread(p, Some(writes[1..]))], fields := Apply(writes[0], s.fields))
  }

  /** Steps outside the state lock: the wake lock, and the I/O. */
  function OpenStep(s: State, c: Call, ok: bool, tag: nat, id: string): Option<State>
    requires c in s.calls
  {
    match s.calls[c].at
    case WakeStart(argument) =>
      if s.wakeLock.Some? then None else Some(Goto(s, c, WakePhase1(argument)).(wakeLock := Some(c)))
    case WakeHealth(argument) => Some(Goto(s, c, if ok then WakeSpawn(argument) else WakeFail))
    case WakeSpawn(argument) =>
      if !ok then Some(Goto(s, c, WakeFail))
      else if tag in s.spawned then None
      else Some(Goto(s, c, WakeRegister(argument, tag)).(spawned := s.spawned + {tag}))
    case WakeRegister(argument, p) =>
      var reg := Registration(id, Target(argument, s.configUrl), argument, tag);
      if !ok then Some(Goto(s, c, WakeKill(p)))
      else if reg in s.issued then None
      else Some(Goto(s, c, WakeCommit(p, reg)).(issued := s.issued + {reg}))
    case WakeKill(p) => Some(Goto(s, c, WakeFail).(killed := s.killed + {p}))
    case WakeRelease(answer) => Some(Goto(s, c, Returned(answer)).(wakeLock := None))
    case SleepWaiting =>
      if s.wakeLock.Some? then None else Some(Goto(s, c, SleepWaited).(wakeLock := Some(c)))
    case SleepWaited => Some(Goto(s, c, SleepLock).(wakeLock := None))
    case SleepUnregister(cap) =>
      var log := if cap.connection.Some? then {(cap.connection.value, cap.url)} else {};
      Some(Goto(s, c, SleepKill(cap)).(unregistered := s.unregistered + log))
    case SleepKill(cap) =>
      var dead := if cap.delve.Some? then {cap.delve.value} else {};
      Some(Goto(s, c, SleepCommit(cap)).(killed := s.killed + dead))
    case _ => None
  }

  /** A finite run: any interleaving of any number of calls, from a freshly initialised client. */
  ghost predicate IsRun(run: seq<State>) {
    && |run| > 0
    && run[0] == Initial(run[0].configUrl)
    && forall i :: 0 <= i < |run| - 1 ==> Next(run[i], run[i + 1])
  }

  ghost predicate Next(s: State, s': State) {
    exists a :: Step(s, a) == Some(s')
  }

  // ---------------------------------------------------------------- locks and fields

  predicate HoldsWake(p: Place) {
    || p.WakePhase1? || PastPhase1(p) || p.WakeRelease? || p.SleepWaited?
  }

  /** The wake has marked the client as waking and has not yet decided its outcome. */
  predicate PastPhase1(p: Place) {
    || p.WakeHealth? || p.WakeSpawn? || p.WakeRegister? || p.WakeKill? || p.WakeFail? || p.WakeCommit?
  }

  predicate Consistent(f: Fields) {
    && (f.mode == Awake <==> f.connection.Some?)
    && (f.mode == Awake <==> f.delve.Some?)
    && (f.mode == Awake <==> f.portActive)
  }

  function ApplyAll(writes: seq<Write>, f: Fields): Fields {
    if writes == [] then f else ApplyAll(writes[1..], Apply(writes[0], f))
  }

  /** The fields as the holder of the state lock will leave them. */
  function Settled(s: State): Fields {
    if s.stateLock.Some? && s.stateLock.value in s.calls && s.calls[s.stateLock.value].section.Some?
    then ApplyAll(s.calls[s.stateLock.value].section.value, s.fields)
    else s.fields
  }

  ghost predicate Inv(s: State) {
    && (s.wakeLock.Some? ==> s.wakeLock.value in s.calls)
    && (s.stateLock.Some? ==> s.stateLock.value in s.calls)
    && (forall c :: c in s.calls ==> Mine(s, c))
    && Consistent(Settled(s))
    && (Settled(s).mode == Waking ==> s.wakeLock.Some? && PastPhase1(At(s, s.wakeLock.value)))
  }

  /** What the invariant says of one call. */
  predicate Mine(s: State, c: Call)
    requires c in s.calls
  {
    var t := s.calls[c];
    && (HoldsWake(t.at) <==> s.wakeLock == Some(c))
    && (t.section.Some? <==> s.stateLock == Some(c))
    && (PastPhase1(t.at) ==> Settled(s).mode != Awake)
    && t.at != WakeRelease(WakeInProgress) && t.at != Returned(WakeInProgress)
  }

  /** A call that has not started holds as little as one that has returned. */
  function At(s: State, c: Call): Place {
    if c in s.calls then s.calls[c].at else Returned(Slept)
  }

  predicate Inside(s: State, c: Call) {
    c in s.calls && s.calls[c].section.Some?
  }

  /** What a step of call c does to the locks and to the settled fields, whatever the other calls are. */
  predicate LocalStep(s: State, s': State, c: Call) {
    var p, p', f, f' := At(s, c), At(s', c), Settled(s), Settled(s');
    && c in s'.calls && s'.calls == s.calls[c := s'.calls[c]]
    && s'.wakeLock == (if HoldsWake(p') then Some(c) else if HoldsWake(p) then None else s.wakeLock)
    && s'.stateLock == (if Inside(s', c) then Some(c) else if Inside(s, c) then None else s.stateLock)
    && (HoldsWake(p') && !HoldsWake(p) ==> s.wakeLock.None?)
    && (Inside(s', c) && !Inside(s, c) ==> s.stateLock.None?)
    && Consistent(f')
    && (PastPhase1(p') ==> f'.mode != Awake)
    && (f'.mode == Awake && f.mode != Awake ==> HoldsWake(p))
    && (f'.mode == Waking ==> PastPhase1(p') || (f.mode == Waking && !PastPhase1(p)))
    && p' != WakeRelease(WakeInProgress) && p' != Returned(WakeInProgress)
  }

  lemma LocalStepKeepsInv(s: State, s': State, c: Call)
    requires Inv(s) && LocalStep(s, s', c)
    ensures Inv(s')
  {
    forall d | d in s'.calls ensures Mine(s', d) {
      if d != c {
        assert s'.calls[d] == s.calls[d] && Mine(s, d);
        assert c in s.calls ==> Mine(s, c);
      }
    }
  }

  lemma SectionStepIsLocal(s: State, c: Call)
    requires Inv(s) && Inside(s, c)
    ensures LocalStep(s, SectionStep(s, c), c)
    ensures Settled(SectionStep(s, c)) == Settled(s)
  {
    assert Mine(s, c);
  }

  /** The effect of a whole critical section, as one assignment. */
  function Outcome(p: Place, f: Fields): Fields {
    match p
    case WakePhase1(_) => if f.mode == Sleeping then f.(mode := Waking) else f
    case WakeFail => f.(mode := Sleeping)
    case WakeCommit(proc, reg) => Fields(Awake, true, Some(reg), Some(proc))
    case SleepCommit(_) => Fields(Sleeping, false, None, None)
    case _ => f
  }

  lemma ApplyFour(a: Write, b: Write, c: Write, d: Write, f: Fields)
    ensures ApplyAll([a, b, c, d], f) == Apply(d, Apply(c, Apply(b, Apply(a, f))))
  {
    assert [a, b, c, d][1..] == [b, c, d] && [b, c, d][1..] == [c, d] && [c, d][1..] == [d];
    var f2 := Apply(b, Apply(a, f));
    assert ApplyAll([c, d], f2) == ApplyAll([d], Apply(c, f2));
    assert ApplyAll([d], Apply(c, f2)) == Apply(d, Apply(c, f2));
  }

  lemma SectionHasOutcome(p: Place, f: Fields, url: Url)
    ensures ApplyAll(Section(p, f, url).0, f) == Outcome(p, f)
  {
    var w := Section(p, f, url).0;
    if |w| == 4 {
      ApplyFour(w[0], w[1], w[2], w[3], f);
    }
  }

  lemma LockStepIsLocal(s: State, c: Call)
    requires Inv(s) && c in s.calls && !Inside(s, c) && WantsState(s.calls[c].at) && LockStep(s, c).Some?
    ensures LocalStep(s, LockStep(s, c).value, c)
    ensures Settled(LockStep(s, c).value) == Outcome(s.calls[c].at, s.fields)
  {
    assert Mine(s, c);
    SectionHasOutcome(s.calls[c].at, s.fields, s.configUrl);
  }

  lemma GotoIsSettled(s: State, c: Call, p: Place)
    requires c in s.calls && Mine(s, c) && !Inside(s, c)
    ensures Settled(Goto(s, c, p)) == Settled(s)
  {
  }

  lemma OpenStepIsLocal(s: State, c: Call, ok: bool, tag: nat, id: string)
    requires c in s.calls && Mine(s, c) && !Inside(s, c) && Consistent(Settled(s))
    requires OpenStep(s, c, ok, tag, id).Some?
    ensures Settled(OpenStep(s, c, ok, tag, id).value) == Settled(s)
    ensures LocalStep(s, OpenStep(s, c, ok, tag, id).value, c)
  {
    var s' := OpenStep(s, c, ok, tag, id).value;
    GotoIsSettled(s, c, s'.calls[c].at);
    assert s'.stateLock == s.stateLock && s'.fields == s.fields && s'.calls == Goto(s, c, s'.calls[c].at).calls;
  }

  lemma StepKeepsInv(s: State, a: Action)
    requires Inv(s) && Step(s, a).Some?
    ensures Inv(Step(s, a).value)
  {
    var c := a.call;
    if a.Run? {
      if Inside(s, c) {
        SectionStepIsLocal(s, c);
      } else if WantsState(s.calls[c].at) {
        LockStepIsLocal(s, c);
      } else {
        OpenStepIsLocal(s, c, a.ok, a.tag, a.id);
      }
    }
    LocalStepKeepsInv(s, Step(s, a).value, c);
  }

  /** Only the step that takes the state lock changes the settled fields. */
  predicate TakesLock(s: State, a: Action) {
    a.Run? && a.call in s.calls && !Inside(s, a.call) && WantsState(s.calls[a.call].at)
  }

  lemma StepSettles(s: State, a: Action)
    requires Inv(s) && Step(s, a).Some?
    ensures TakesLock(s, a) ==> s.fields == Settled(s) && s.stateLock.None?
    ensures Settled(Step(s, a).value) ==
            if TakesLock(s, a) then Outcome(s.calls[a.call].at, s.fields) else Settled(s)
  {
    var c := a.call;
    if a.Run? {
      if Inside(s, c) {
        SectionStepIsLocal(s, c);
      } else if WantsState(s.calls[c].at) {
        LockStepIsLocal(s, c);
      } else {
        OpenStepIsLocal(s, c, a.ok, a.tag, a.id);
      }
    }
  }

  /** The action that links two states of a run. */
  lemma Linked(run: seq<State>, i: nat) returns (a: Action)
    requires IsRun(run) && i + 1 < |run|
    ensures Step(run[i], a) == Some(run[i + 1])
  {
    assert Next(run[i], run[i + 1]);
    a :| Step(run[i], a) == Some(run[i + 1]);
  }

  lemma InvNext(run: seq<State>, i: nat)
    requires IsRun(run) && i + 1 < |run| && Inv(run[i])
    ensures Inv(run[i + 1])
  {
    var a := Linked(run, i);
    StepKeepsInv(run[i], a);
  }

  lemma {:induction false} RunKeepsInv(run: seq<State>, i: nat)
    requires IsRun(run) && i < |run|
    ensures Inv(run[i])
  {
    if i > 0 {
      RunKeepsInv(run, i - 1);
      InvNext(run, i - 1);
    }
  }

  /** However wakes and sleeps overlap, the four fields agree whenever the state lock is free. */
  lemma FieldsAgree(run: seq<State>, i: nat)
    requires IsRun(run) && i < |run| && run[i].stateLock.None?
    ensures run[i].fields.mode == Awake <==> run[i].fields.connection.Some?
    ensures run[i].fields.mode == Awake <==> run[i].fields.delve.Some?
    ensures run[i].fields.mode == Awake <==> run[i].fields.portActive
  {
    RunKeepsInv(run, i);
  }

  /** No other call can have moved the client to Awake under a wake that is past phase 1. */
  lemma NeverAwakeUnderAWake(run: seq<State>, i: nat, c: Call)
    requires IsRun(run) && i < |run| && c in run[i].calls && PastPhase1(run[i].calls[c].at)
    ensures Settled(run[i]).mode != Awake
    ensures run[i].stateLock.None? ==> run[i].fields.mode != Awake
  {
    RunKeepsInv(run, i);
    assert Mine(run[i], c);
  }

  /** While the client is waking, exactly one wake is past phase 1, and it holds the wake lock. */
  lemma WakingHasOneOwner(run: seq<State>, i: nat) returns (c: Call)
    requires IsRun(run) && i < |run| && run[i].stateLock.None? && run[i].fields.mode == Waking
    ensures c in run[i].calls && PastPhase1(run[i].calls[c].at) && run[i].wakeLock == Some(c)
    ensures forall d :: d in run[i].calls && PastPhase1(run[i].calls[d].at) ==> d == c
  {
    RunKeepsInv(run, i);
    c := run[i].wakeLock.value;
    forall d | d in run[i].calls && PastPhase1(run[i].calls[d].at) ensures d == c {
      assert Mine(run[i], d);
    }
  }

  /** The defensive "wake in progress" answer is never given. */
  lemma WakeInProgressIsUnreachable(run: seq<State>, i: nat, c: Call)
    requires IsRun(run) && i < |run| && c in run[i].calls
    ensures run[i].calls[c].at != WakeRelease(WakeInProgress)
    ensures run[i].calls[c].at != Returned(WakeInProgress)
  {
    RunKeepsInv(run, i);
    assert Mine(run[i], c);
  }

  // ---------------------------------------------------------------- processes and registrations

  /** What a wake obtains and a sleep has to give back. */
  datatype Resource = Delve(proc: Proc) | Issued(reg: Registration)

  predicate Obtained(s: State, x: Resource) {
    match x
    case Delve(p) => p in s.spawned
    case Issued(r) => r in s.issued
  }

  /** A process is given back by passing it to Kill, a registration by an unregister call. */
  predicate Released(s: State, x: Resource) {
    match x
    case Delve(p) => p in s.killed
    case Issued(r) => exists e :: e in s.unregistered && e.0 == r
  }

  predicate Recorded(f: Fields, x: Resource) {
    match x
    case Delve(p) => f.delve == Some(p)
    case Issued(r) => f.connection == Some(r)
  }

  /** The wake has obtained it and has neither recorded nor released it. */
  predicate Holds(p: Place, x: Resource) {
    match x
    case Delve(q) => (p.WakeRegister? || p.WakeKill? || p.WakeCommit?) && p.proc == q
    case Issued(r) => p.WakeCommit? && p.reg == r
  }

  ghost predicate Accounted(s: State, x: Resource) {
    || Released(s, x)
    || Recorded(Settled(s), x)
    || exists c :: c in s.calls && Holds(s.calls[c].at, x)
  }

  ghost predicate ResourceInv(s: State, x: Resource) {
    && (Recorded(Settled(s), x) ==> Obtained(s, x))
    && (forall c :: c in s.calls && Holds(s.calls[c].at, x) ==> Obtained(s, x) && !Recorded(Settled(s), x))
  }

  /** A Sleep is about to run its last critical section while x is recorded and has not been released. */
  predicate StaleCommit(s: State, a: Action, x: Resource) {
    TakesLock(s, a) && s.calls[a.call].at.SleepCommit? && Recorded(s.fields, x) && !Released(s, x)
  }

  /** What a step does to one resource, whatever the other calls are. */
  predicate ResourceStep(s: State, s': State, c: Call, x: Resource) {
    var held, held' := Holds(At(s, c), x), Holds(At(s', c), x);
    var recorded, recorded' := Recorded(Settled(s), x), Recorded(Settled(s'), x);
    && c in s'.calls && s'.calls == s.calls[c := s'.calls[c]]
    && (Obtained(s, x) ==> Obtained(s', x)) && (Released(s, x) ==> Released(s', x))
    && (Obtained(s', x) && !Obtained(s, x) ==> held' && recorded' == recorded)
    && (held' && !held ==> Obtained(s', x) && !Obtained(s, x))
    && (held && !held' ==> Released(s', x) || recorded')
    && (recorded' && !recorded ==> held && !held')
    && (recorded && !recorded' ==> At(s, c).SleepCommit? && !held' && (Released(s', x) ==> Released(s, x)))
    && (held ==> HoldsWake(At(s, c)))
  }

  lemma LockStepIsResourceStep(s: State, c: Call, x: Resource)
    requires Inv(s) && c in s.calls && !Inside(s, c) && WantsState(s.calls[c].at) && LockStep(s, c).Some?
    ensures ResourceStep(s, LockStep(s, c).value, c, x)
  {
    LockStepIsLocal(s, c);
    assert Mine(s, c);
  }

  lemma OpenStepIsResourceStep(s: State, c: Call, ok: bool, tag: nat, id: string, x: Resource)
    requires c in s.calls && Mine(s, c) && !Inside(s, c) && Consistent(Settled(s)) && !WantsState(s.calls[c].at)
    requires OpenStep(s, c, ok, tag, id).Some?
    ensures ResourceStep(s, OpenStep(s, c, ok, tag, id).value, c, x)
  {
    OpenStepIsLocal(s, c, ok, tag, id);
  }

  lemma StepIsResourceStep(s: State, a: Action, x: Resource)
    requires Inv(s) && Step(s, a).Some?
    ensures ResourceStep(s, Step(s, a).value, a.call, x)
  {
    var c := a.call;
    if a.Run? {
      assert Mine(s, c);
      if Inside(s, c) {
        SectionStepIsLocal(s, c);
      } else if WantsState(s.calls[c].at) {
        LockStepIsResourceStep(s, c, x);
      } else {
        OpenStepIsResourceStep(s, c, a.ok, a.tag, a.id, x);
      }
    }
  }

  lemma ResourceStepKeepsInv(s: State, s': State, c: Call, x: Resource)
    requires Inv(s) && ResourceInv(s, x) && ResourceStep(s, s', c, x)
    ensures ResourceInv(s', x)
  {
    forall d | d in s'.calls && Holds(s'.calls[d].at, x) ensures Obtained(s', x) && !Recorded(Settled(s'), x) {
      if d != c {
        assert s'.calls[d] == s.calls[d] && Mine(s, d);
        assert c in s.calls ==> Mine(s, c);
      }
    }
  }

  /** What is accounted for stays so, unless the step drops its record. */
  lemma ResourceStepAccounts(s: State, s': State, c: Call, x: Resource)
    requires Inv(s) && ResourceInv(s, x) && ResourceStep(s, s', c, x) && (Obtained(s, x) ==> Accounted(s, x))
    ensures (Obtained(s', x) ==> Accounted(s', x)) <==>
            !(Recorded(Settled(s), x) && !Recorded(Settled(s'), x) && !Released(s, x))
  {
    if Recorded(Settled(s), x) && !Recorded(Settled(s'), x) {
      forall d | d in s'.calls ensures !Holds(s'.calls[d].at, x) {
        assert d != c ==> s'.calls[d] == s.calls[d];
      }
    } else if exists d :: d in s.calls && Holds(s.calls[d].at, x) {
      var d :| d in s.calls && Holds(s.calls[d].at, x);
      assert d != c ==> s'.calls[d] == s.calls[d];
    }
  }

  /** A record disappears exactly when a Sleep takes the lock for its last critical section. */
  lemma OnlyCommitsClear(s: State, a: Action, x: Resource)
    requires Inv(s) && Step(s, a).Some? && Recorded(Settled(s), x)
    ensures !Recorded(Settled(Step(s, a).value), x) <==> TakesLock(s, a) && s.calls[a.call].at.SleepCommit?
  {
    StepSettles(s, a);
    assert a.call in s.calls ==> Mine(s, a.call);
  }

  /** A step loses x, process or registration, if and only if it starts the last critical section of a Sleep while x is
      recorded and not released. */
  lemma StepLoses(s: State, a: Action, x: Resource)
    requires Inv(s) && ResourceInv(s, x) && Step(s, a).Some? && (Obtained(s, x) ==> Accounted(s, x))
    ensures (Obtained(Step(s, a).value, x) && !Accounted(Step(s, a).value, x)) <==> StaleCommit(s, a, x)
  {
    StepIsResourceStep(s, a, x);
    ResourceStepAccounts(s, Step(s, a).value, a.call, x);
    StepSettles(s, a);
    if Recorded(Settled(s), x) {
      OnlyCommitsClear(s, a, x);
    }
  }

  /** x is accounted for at every point of the run at which it has been obtained. */
  ghost predicate Kept(run: seq<State>, x: Resource) {
    forall i :: 0 <= i < |run| && Obtained(run[i], x) ==> Accounted(run[i], x)
  }

  ghost predicate NeverStale(run: seq<State>, x: Resource) {
    forall i, a :: 0 <= i < |run| - 1 && Step(run[i], a) == Some(run[i + 1]) ==> !StaleCommit(run[i], a, x)
  }

  lemma ResourceInvNext(run: seq<State>, i: nat, x: Resource)
    requires IsRun(run) && i + 1 < |run| && ResourceInv(run[i], x)
    ensures ResourceInv(run[i + 1], x)
  {
    RunKeepsInv(run, i);
    var a := Linked(run, i);
    StepIsResourceStep(run[i], a, x);
    ResourceStepKeepsInv(run[i], run[i + 1], a.call, x);
  }

  lemma {:induction false} RunKeepsResourceInv(run: seq<State>, i: nat, x: Resource)
    requires IsRun(run) && i < |run|
    ensures ResourceInv(run[i], x)
  {
    if i > 0 {
      RunKeepsResourceInv(run, i - 1, x);
      ResourceInvNext(run, i - 1, x);
    }
  }

  lemma RunStepLoses(run: seq<State>, i: nat, a: Action, x: Resource)
    requires IsRun(run) && i + 1 < |run| && Step(run[i], a) == Some(run[i + 1])
    requires Obtained(run[i], x) ==> Accounted(run[i], x)
    ensures (Obtained(run[i + 1], x) && !Accounted(run[i + 1], x)) <==> StaleCommit(run[i], a, x)
  {
    RunKeepsInv(run, i);
    RunKeepsResourceInv(run, i, x);
    StepLoses(run[i], a, x);
  }

  lemma {:induction false} NeverStaleKeeps(run: seq<State>, i: nat, x: Resource)
    requires IsRun(run) && NeverStale(run, x) && i < |run|
    ensures Obtained(run[i], x) ==> Accounted(run[i], x)
  {
    if i > 0 {
      NeverStaleKeeps(run, i - 1, x);
      var a := Linked(run, i - 1);
      RunStepLoses(run, i - 1, a, x);
    }
  }

  /** With any overlap of calls, and for every process and every registration: a run never loses it if and only if no
      Sleep starts its last critical section while it is recorded and not released. */
  lemma KeptIffNeverStale(run: seq<State>, x: Resource)
    requires IsRun(run)
    ensures Kept(run, x) <==> NeverStale(run, x)
  {
    if NeverStale(run, x) {
      forall i | 0 <= i < |run| && Obtained(run[i], x) ensures Accounted(run[i], x) {
        NeverStaleKeeps(run, i, x);
      }
    }
    if Kept(run, x) {
      forall i, a | 0 <= i < |run| - 1 && Step(run[i], a) == Some(run[i + 1]) ensures !StaleCommit(run[i], a, x) {
        assert Obtained(run[i + 1], x) ==> Accounted(run[i + 1], x);
        RunStepLoses(run, i, a, x);
      }
    }
  }

  // ---------------------------------------------------------------- what is recorded is live

  predicate PastCapture(p: Place) {
    p.SleepUnregister? || p.SleepKill? || p.SleepCommit?
  }

  predicate Captured(cap: Capture, x: Resource) {
    match x
    case Delve(p) => cap.delve == Some(p)
    case Issued(r) => cap.connection == Some(r)
  }

  /** A Sleep on its way that will release x, or has. */
  predicate Captures(p: Place, x: Resource) {
    PastCapture(p) && Captured(p.cap, x)
  }

  ghost predicate Unheld(s: State, x: Resource) {
    Obtained(s, x) && forall c :: c in s.calls ==> !Holds(s.calls[c].at, x)
  }

  ghost predicate SomeCaptures(s: State, x: Resource) {
    exists c :: c in s.calls && Captures(s.calls[c].at, x)
  }

  /** What was released or captured is in no wake's hands, and a record that was released is about to be cleared. */
  ghost predicate LiveInv(s: State, x: Resource) {
    && (Released(s, x) || SomeCaptures(s, x) ==> Unheld(s, x))
    && (Released(s, x) && Recorded(Settled(s), x) ==> SomeCaptures(s, x))
  }

  /** How a step of call c captures and releases x, whatever the other calls are. */
  predicate CaptureStep(s: State, s': State, c: Call, x: Resource) {
    var p, p' := At(s, c), At(s', c);
    && (Captures(p', x) && !Captures(p, x) ==> Recorded(Settled(s), x) && !Holds(p', x))
    && (Captures(p, x) && !Captures(p', x) ==> !Recorded(Settled(s'), x))
    && (Released(s', x) && !Released(s, x) ==>
          !Holds(p', x) && (Captures(p', x) || (Holds(p, x) && !Recorded(Settled(s'), x))))
  }

  lemma LockStepIsCaptureStep(s: State, c: Call, x: Resource)
    requires Inv(s) && c in s.calls && !Inside(s, c) && WantsState(s.calls[c].at) && LockStep(s, c).Some?
    ensures CaptureStep(s, LockStep(s, c).value, c, x)
  {
    LockStepIsLocal(s, c);
    assert Mine(s, c);
  }

  lemma OpenStepIsCaptureStep(s: State, c: Call, ok: bool, tag: nat, id: string, x: Resource)
    requires c in s.calls && Mine(s, c) && !Inside(s, c) && Consistent(Settled(s)) && ResourceInv(s, x)
    requires !WantsState(s.calls[c].at) && OpenStep(s, c, ok, tag, id).Some?
    ensures CaptureStep(s, OpenStep(s, c, ok, tag, id).value, c, x)
  {
    OpenStepIsLocal(s, c, ok, tag, id);
  }

  lemma StepIsCaptureStep(s: State, a: Action, x: Resource)
    requires Inv(s) && ResourceInv(s, x) && Step(s, a).Some?
    ensures CaptureStep(s, Step(s, a).value, a.call, x)
  {
    var c := a.call;
    if a.Run? {
      assert Mine(s, c);
      if Inside(s, c) {
        SectionStepIsLocal(s, c);
      } else if WantsState(s.calls[c].at) {
        LockStepIsCaptureStep(s, c, x);
      } else {
        OpenStepIsCaptureStep(s, c, a.ok, a.tag, a.id, x);
      }
    }
  }

  /** A resource that is captured or released after the step is in no wake's hands then. */
  lemma CaptureStepUnheld(s: State, s': State, c: Call, x: Resource)
    requires Inv(s) && ResourceInv(s, x) && LiveInv(s, x) && ResourceStep(s, s', c, x) && CaptureStep(s, s', c, x)
    requires Released(s', x) || SomeCaptures(s', x)
    ensures Unheld(s', x)
  {
    if SomeCaptures(s', x) {
      var d :| d in s'.calls && Captures(s'.calls[d].at, x);
      assert d != c ==> s'.calls[d] == s.calls[d];
    }
    forall d | d in s'.calls ensures !Holds(s'.calls[d].at, x) {
      if d != c {
        assert s'.calls[d] == s.calls[d] && Mine(s, d);
        assert c in s.calls ==> Mine(s, c);
      }
    }
  }

  lemma CaptureStepKeepsLive(s: State, s': State, c: Call, x: Resource)
    requires Inv(s) && ResourceInv(s, x) && LiveInv(s, x) && ResourceStep(s, s', c, x) && CaptureStep(s, s', c, x)
    ensures LiveInv(s', x)
  {
    if Released(s', x) || SomeCaptures(s', x) {
      CaptureStepUnheld(s, s', c, x);
    }
    if Released(s', x) && Recorded(Settled(s'), x) {
      if Released(s, x) {
        var d :| d in s.calls && Captures(s.calls[d].at, x);
        assert d != c ==> s'.calls[d] == s.calls[d];
        assert Captures(s'.calls[d].at, x);
      } else {
        assert Captures(s'.calls[c].at, x);
      }
    }
  }

  lemma LiveNext(run: seq<State>, i: nat, x: Resource)
    requires IsRun(run) && i + 1 < |run| && LiveInv(run[i], x)
    ensures LiveInv(run[i + 1], x)
  {
    RunKeepsInv(run, i);
    RunKeepsResourceInv(run, i, x);
    var a := Linked(run, i);
    StepIsResourceStep(run[i], a, x);
    StepIsCaptureStep(run[i], a, x);
    CaptureStepKeepsLive(run[i], run[i + 1], a.call, x);
  }

  lemma InitialIsLive(s: State, x: Resource)
    requires s == Initial(s.configUrl)
    ensures LiveInv(s, x)
  {
  }

  lemma {:induction false} RunKeepsLive(run: seq<State>, i: nat, x: Resource)
    requires IsRun(run) && i < |run|
    ensures LiveInv(run[i], x)
  {
    if i == 0 {
      InitialIsLive(run[0], x);
    } else {
      RunKeepsLive(run, i - 1, x);
      LiveNext(run, i - 1, x);
    }
  }

  /** With any overlap of calls: a process or registration that is recorded has not been released, unless a Sleep on
      its way captured it. So an Awake client with no Sleep past its capture has a live process and a live
      registration. */
  lemma RecordedIsLive(run: seq<State>, i: nat, x: Resource)
    requires IsRun(run) && i < |run| && Recorded(Settled(run[i]), x)
    ensures Obtained(run[i], x) && (Released(run[i], x) ==> SomeCaptures(run[i], x))
  {
    RunKeepsLive(run, i, x);
    RunKeepsResourceInv(run, i, x);
  }

  // ---------------------------------------------------------------- sleeps that do not overlap

  /** At most one Sleep is between its capture and its commit. */
  ghost predicate SleepsDisjoint(s: State) {
    forall c, d :: c in s.calls && d in s.calls && PastCapture(s.calls[c].at) && PastCapture(s.calls[d].at) ==> c == d
  }

  /** What a Sleep past its capture relies on: the record is still the one it captured, and it has released as much of
      it as it has got to. */
  predicate Fresh(s: State, p: Place, x: Resource) {
    PastCapture(p) ==>
      && Settled(s).mode == Awake
      && (Recorded(Settled(s), x) <==> Captured(p.cap, x))
      && (Captured(p.cap, x) && (p.SleepCommit? || (p.SleepKill? && x.Issued?)) ==> Released(s, x))
  }

  ghost predicate CapturesFresh(s: State, x: Resource) {
    forall c :: c in s.calls ==> Fresh(s, s.calls[c].at, x)
  }

  lemma OpenStepStaysFresh(s: State, c: Call, ok: bool, tag: nat, id: string, x: Resource)
    requires c in s.calls && Mine(s, c) && !Inside(s, c) && Consistent(Settled(s)) && Fresh(s, s.calls[c].at, x)
    requires !WantsState(s.calls[c].at) && OpenStep(s, c, ok, tag, id).Some?
    ensures Fresh(OpenStep(s, c, ok, tag, id).value, OpenStep(s, c, ok, tag, id).value.calls[c].at, x)
  {
    OpenStepIsLocal(s, c, ok, tag, id);
    OpenStepIsResourceStep(s, c, ok, tag, id, x);
    var p := s.calls[c].at;
    if p.SleepUnregister? && p.cap.connection.Some? {
      assert (p.cap.connection.value, p.cap.url) in OpenStep(s, c, ok, tag, id).value.unregistered;
    }
  }

  lemma StepOfSleeper(s: State, a: Action, x: Resource)
    requires Inv(s) && Step(s, a).Some? && (a.call in s.calls ==> Fresh(s, s.calls[a.call].at, x))
    ensures Fresh(Step(s, a).value, At(Step(s, a).value, a.call), x)
  {
    var c := a.call;
    if a.Run? {
      assert Mine(s, c);
      if Inside(s, c) {
        SectionStepIsLocal(s, c);
      } else if WantsState(s.calls[c].at) {
        LockStepIsLocal(s, c);
      } else {
        OpenStepStaysFresh(s, c, a.ok, a.tag, a.id, x);
      }
    }
  }

  /** A step of a call that is not past its capture leaves the record of a Sleep that is. */
  lemma StepOfOther(s: State, a: Action, p: Place, x: Resource)
    requires Inv(s) && Step(s, a).Some? && Fresh(s, p, x) && PastCapture(p)
    requires a.call in s.calls ==> !PastCapture(s.calls[a.call].at)
    ensures Fresh(Step(s, a).value, p, x)
  {
    StepSettles(s, a);
    StepIsResourceStep(s, a, x);
    assert a.call in s.calls ==> Mine(s, a.call);
  }

  lemma StepKeepsFresh(s: State, a: Action, x: Resource)
    requires Inv(s) && SleepsDisjoint(s) && CapturesFresh(s, x) && Step(s, a).Some?
    ensures CapturesFresh(Step(s, a).value, x)
  {
    var s' := Step(s, a).value;
    StepOfSleeper(s, a, x);
    StepIsResourceStep(s, a, x);
    forall c | c in s'.calls && c != a.call ensures Fresh(s', s'.calls[c].at, x) {
      assert s'.calls[c] == s.calls[c] && Fresh(s, s.calls[c].at, x);
      if PastCapture(s.calls[c].at) {
        StepOfOther(s, a, s.calls[c].at, x);
      }
    }
  }

  lemma FreshNext(run: seq<State>, i: nat, x: Resource)
    requires IsRun(run) && i + 1 < |run| && SleepsDisjoint(run[i]) && CapturesFresh(run[i], x)
    ensures CapturesFresh(run[i + 1], x)
  {
    RunKeepsInv(run, i);
    var a := Linked(run, i);
    StepKeepsFresh(run[i], a, x);
  }

  lemma {:induction false} RunKeepsFresh(run: seq<State>, i: nat, x: Resource)
    requires IsRun(run) && i < |run| && forall j :: 0 <= j < i ==> SleepsDisjoint(run[j])
    ensures CapturesFresh(run[i], x)
  {
    if i > 0 {
      RunKeepsFresh(run, i - 1, x);
      FreshNext(run, i - 1, x);
    }
  }

  /** When no two sleeps overlap, what a Sleep is about to clear is exactly what it captured, and it has released it. */
  lemma SleepClearsWhatItReleased(run: seq<State>, i: nat, c: Call, x: Resource)
    requires IsRun(run) && i < |run| && forall j :: 0 <= j < |run| ==> SleepsDisjoint(run[j])
    requires c in run[i].calls && run[i].calls[c].at.SleepCommit?
    ensures Recorded(Settled(run[i]), x) <==> Captured(run[i].calls[c].at.cap, x)
    ensures Recorded(Settled(run[i]), x) ==> Released(run[i], x)
    ensures Settled(run[i]).delve.Some? && Settled(run[i]).connection.Some?
  {
    RunKeepsFresh(run, i, x);
    RunKeepsInv(run, i);
    assert Fresh(run[i], run[i].calls[c].at, x);
  }

  /** When no two sleeps overlap, no process and no registration is ever lost, however many wakes run beside them. */
  lemma DisjointSleepsLoseNothing(run: seq<State>, x: Resource)
    requires IsRun(run) && forall j :: 0 <= j < |run| ==> SleepsDisjoint(run[j])
    ensures Kept(run, x)
  {
    forall i, a | 0 <= i < |run| - 1 && Step(run[i], a) == Some(run[i + 1]) ensures !StaleCommit(run[i], a, x) {
      RunKeepsFresh(run, i, x);
      RunKeepsInv(run, i);
      if TakesLock(run[i], a) {
        StepSettles(run[i], a);
        assert Fresh(run[i], run[i].calls[a.call].at, x);
      }
    }
    KeptIffNeverStale(run, x);
  }
}
