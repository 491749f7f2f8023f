/**
  The per-connection registry of the agent's adapter manager: six maps, a gauge and the forwarder tasks.
  Each of create, close and stop-all is taken as one step.
*/
module Registry {
  import opened Options

  type Id = string
  type Handle = nat

  const U32_MAX: nat := 0xFFFF_FFFF

  datatype Backend = Auto | Dap | Ebpf
  datatype Profile = GoProfile | RustProfile
  datatype Decision = Decision(selected: Backend, dynamic: bool)
  datatype Status = Connected | Failed

  /** A status message; it carries the decision and the debug source known when it was sent. */
  datatype Update = Update(id: Id, status: Status, decision: Option<Decision>, debugSource: Option<string>)

  /** The installed adapters with their forwarders. `spawned` lists all forwarder tasks ever started, by handle;
      `aborted` are those told to stop. */
  datatype Installed = Installed(
    adapters: set<Id>,
    handles: map<Id, Handle>,
    active: nat,
    spawned: seq<Id>,
    aborted: set<Handle>)

  /** What is recorded per connection; `created` counts the drop counters ever made. */
  datatype Records = Records(
    languages: map<Id, string>,
    decisions: map<Id, Decision>,
    debugSources: map<Id, string>,
    dropCounters: map<Id, nat>,
    created: nat)

  /** `counters` lists the drop counter that each forwarder took, in the order of `spawned`. */
  datatype Reg = Reg(installed: Installed, records: Records, refresh: bool, updates: seq<Update>, counters: seq<nat>)

  const EMPTY := Reg(Installed({}, map[], 0, [], {}), Records(map[], map[], map[], map[], 0), false, [], [])

  /** A create request, with what the code it calls answers. */
  datatype Request = Request(
    language: string,
    backend: Option<Backend>,     // `None`: the backend name does not parse
    profile: Option<Profile>,     // `None`: no built-in profile fits
    dynamicReady: bool,           // a registered profile and backend exist for the name
    debugSource: string,
    resolved: Option<Backend>,    // `None`: the backend cannot be resolved
    portOk: bool,
    built: bool,
    started: bool,
    subscribed: bool)

  function Gauge(n: nat): nat {
    if n < U32_MAX then n else U32_MAX
  }

  // ---------------------------------------------------------------- operations on values

  /** A failure is reported with its decision, then nothing is kept of the connection but a live adapter, if any. */
  function Fail(r: Reg, id: Id): Reg {
    var r1 := Report(r, id, Failed);
    r1.(records := Forget(r1.records, id))
  }

  function Report(r: Reg, id: Id, status: Status): Reg {
    r.(updates := r.updates + [Update(id, status, Get(r.records.decisions, id), Get(r.records.debugSources, id))])
  }

  function Get<T>(m: map<Id, T>, id: Id): Option<T> {
    if id in m then Some(m[id]) else None
  }

  function Forget(m: Records, id: Id): Records {
    Records(m.languages - {id}, m.decisions - {id}, m.debugSources - {id}, m.dropCounters - {id}, m.created)
  }

  /** Abort the forwarder and remove the adapter of an id. */
  function Detach(i: Installed, id: Id): Installed {
    var i1 := if id in i.handles then i.(aborted := i.aborted + {i.handles[id]}, handles := i.handles - {id}) else i;
    if id in i.adapters then i1.(adapters := i.adapters - {id}, active := Gauge(|i.adapters - {id}|)) else i1
  }

  /** Install a started adapter and spawn its forwarder. */
  function Attach(i: Installed, id: Id): Installed {
    Installed(i.adapters + {id}, i.handles[id := |i.spawned|], Gauge(|i.adapters + {id}|), i.spawned + [id], i.aborted)
  }

  /** A forwarder needs a drop counter: the recorded one, or a new one. */
  function NeedCounter(m: Records, id: Id): Records {
    if id in m.dropCounters then m
    else m.(dropCounters := m.dropCounters[id := m.created], created := m.created + 1)
  }

  function Install(r: Reg, id: Id): Reg {
    var m := NeedCounter(r.records, id);
    r.(installed := Attach(r.installed, id), records := m, counters := r.counters + [m.dropCounters[id]])
  }

  function Record(m: Records, id: Id, language: string, decision: Decision): Records {
    Records(m.languages[id := language], m.decisions[id := decision], m.debugSources,
            m.dropCounters[id := m.created], m.created + 1)
  }

  function Admit(r: Reg, id: Id, language: string, decision: Decision): Reg {
    r.(installed := Detach(r.installed, id), records := Record(r.records, id, language, decision))
  }

  predicate Capturable(language: string) {
    language == "go" || language == "rust"
  }

  predicate ProfileFits(language: string, p: Profile) {
    (language == "go" ==> p == GoProfile) && (language == "rust" ==> p == RustProfile)
  }

  predicate IsDynamic(q: Request) {
    q.backend == Some(Ebpf) && q.profile.None? && q.dynamicReady
  }

  /** The backend chosen for a request, or `None` when the request is refused before anything is torn down. */
  function Choose(q: Request): Option<Backend> {
    if q.backend.None? then None
    else if q.profile.None? then if IsDynamic(q) then Some(Ebpf) else None
    else if !ProfileFits(q.language, q.profile.value) then None
    else if Capturable(q.language) then q.resolved
    else if q.backend == Some(Ebpf) then None else Some(Dap)
  }

  /** Whether an adapter for the chosen backend comes up and hands over its events. */
  predicate ComesUp(q: Request, selected: Backend) {
    && q.started && q.subscribed
    && if selected == Ebpf then q.built
       else if q.language == "go" then (if selected == Dap then q.portOk else q.built)
       else (q.language == "python" || q.language == "rust") && q.portOk
  }

  /** The debug source is noted before the backend is resolved. */
  function NoteSource(m: Records, id: Id, q: Request): Records {
    if q.backend.Some? && q.profile.Some? && ProfileFits(q.language, q.profile.value) && Capturable(q.language)
    then m.(debugSources := m.debugSources[id := q.debugSource]) else m
  }

  function Create(r: Reg, id: Id, q: Request): Reg {
    var r1 := r.(records := NoteSource(r.records, id, q));
    match Choose(q)
    case None => Fail(r1, id)
    case Some(selected) =>
      var r2 := Admit(r1, id, q.language, Decision(selected, IsDynamic(q)));
      if ComesUp(q, selected) then Report(Install(r2, id), id, Connected) else Fail(r2, id)
  }

  function Close(r: Reg, id: Id): Reg {
    r.(refresh := true, installed := Detach(r.installed, id), records := Forget(r.records, id))
  }

  function StopAll(r: Reg): Reg {
    var i := r.installed;
    r.(installed := Installed({}, map[], 0, i.spawned, i.aborted + i.handles.Values),
       records := Records(map[], map[], map[], map[], r.records.created))
  }

  // ---------------------------------------------------------------- the invariant

  /** The forwarders that were not aborted are exactly those in the handle map, one per id. */
  ghost predicate Tasks(handles: map<Id, Handle>, spawned: seq<Id>, aborted: set<Handle>) {
    && (forall h :: 0 <= h < |spawned| && h !in aborted ==> spawned[h] in handles && handles[spawned[h]] == h)
    && (forall id :: id in handles ==>
          handles[id] < |spawned| && spawned[handles[id]] == id && handles[id] !in aborted)
    && (forall h :: h in aborted ==> h < |spawned|)
  }

  /** Every adapter has its forwarder, and the gauge counts the adapters. */
  ghost predicate InstalledInv(i: Installed) {
    i.handles.Keys == i.adapters && i.active == Gauge(|i.adapters|) && Tasks(i.handles, i.spawned, i.aborted)
  }

  /** The records cover the same ids, all of them in `ids`. */
  ghost predicate RecordsInv(m: Records, ids: set<Id>) {
    m.languages.Keys == m.decisions.Keys == m.dropCounters.Keys <= ids && m.debugSources.Keys <= ids
  }

  ghost predicate Inv(r: Reg) {
    InstalledInv(r.installed) && RecordsInv(r.records, r.installed.adapters)
  }

  lemma AbortKeepsTasks(handles: map<Id, Handle>, spawned: seq<Id>, aborted: set<Handle>, id: Id)
    requires Tasks(handles, spawned, aborted) && id in handles
    ensures Tasks(handles - {id}, spawned, aborted + {handles[id]})
  {
  }

  lemma SpawnKeepsTasks(handles: map<Id, Handle>, spawned: seq<Id>, aborted: set<Handle>, id: Id)
    requires Tasks(handles, spawned, aborted) && id !in handles
    ensures Tasks(handles[id := |spawned|], spawned + [id], aborted)
  {
    forall h | 0 <= h < |spawned + [id]| && h !in aborted
      ensures (spawned + [id])[h] in handles[id := |spawned|] && handles[id := |spawned|][(spawned + [id])[h]] == h
    {
      if h < |spawned| {
        assert (spawned + [id])[h] == spawned[h];
      }
    }
  }

  lemma DetachKeeps(i: Installed, id: Id)
    requires InstalledInv(i)
    ensures InstalledInv(Detach(i, id)) && Detach(i, id).adapters == i.adapters - {id}
  {
    if id in i.adapters {
      AbortKeepsTasks(i.handles, i.spawned, i.aborted, id);
    }
  }

  lemma AttachKeeps(i: Installed, id: Id)
    requires InstalledInv(i) && id !in i.adapters
    ensures InstalledInv(Attach(i, id)) && Attach(i, id).adapters == i.adapters + {id}
  {
    SpawnKeepsTasks(i.handles, i.spawned, i.aborted, id);
  }

  lemma RecordKeeps(m: Records, id: Id, language: string, decision: Decision, ids: set<Id>)
    requires Noted(m, id, ids)
    ensures var m' := Record(m, id, language, decision);
            RecordsInv(m', ids + {id}) && m'.languages.Keys == m.languages.Keys + {id}
  {
  }

  lemma ForgetKeeps(m: Records, id: Id, ids: set<Id>)
    requires RecordsInv(m, ids + {id})
    ensures RecordsInv(Forget(m, id), ids - {id})
    ensures Forget(m, id).languages.Keys == m.languages.Keys - {id}
  {
  }

  /** The records with at most a debug source too many. */
  ghost predicate Noted(m: Records, id: Id, ids: set<Id>) {
    m.languages.Keys == m.decisions.Keys == m.dropCounters.Keys <= ids && m.debugSources.Keys <= ids + {id}
  }

  lemma RefuseKeeps(r: Reg, id: Id)
    requires InstalledInv(r.installed) && Noted(r.records, id, r.installed.adapters)
    ensures Inv(Fail(r, id)) && Fail(r, id).installed == r.installed
    ensures Fail(r, id).records.languages.Keys == r.records.languages.Keys - {id}
  {
    ForgetKeeps(r.records, id, r.installed.adapters);
  }

  lemma AdmitThenFail(r: Reg, id: Id, language: string, d: Decision)
    requires InstalledInv(r.installed) && Noted(r.records, id, r.installed.adapters)
    ensures var r' := Fail(Admit(r, id, language, d), id);
            && Inv(r') && r'.records.languages.Keys == r.records.languages.Keys - {id}
            && r'.installed.adapters == r.installed.adapters - {id}
  {
    DetachKeeps(r.installed, id);
    RecordKeeps(r.records, id, language, d, r.installed.adapters);
    ForgetKeeps(Record(r.records, id, language, d), id, r.installed.adapters);
  }

  lemma InstallShape(r: Reg, id: Id, language: string, d: Decision)
    ensures var r' := Report(Install(Admit(r, id, language, d), id), id, Connected);
            && r'.installed == Attach(Detach(r.installed, id), id) && r'.records == Record(r.records, id, language, d)
            && r'.counters == r.counters + [r.records.created]
  {
    assert id in Record(r.records, id, language, d).dropCounters;
  }

  lemma AdmitThenInstall(r: Reg, id: Id, language: string, d: Decision)
    requires InstalledInv(r.installed) && Noted(r.records, id, r.installed.adapters)
    ensures var i, m := Attach(Detach(r.installed, id), id), Record(r.records, id, language, d);
            && InstalledInv(i) && i.adapters == r.installed.adapters + {id}
            && RecordsInv(m, i.adapters) && m.languages.Keys == r.records.languages.Keys + {id}
  {
    ReattachKeeps(r.installed, id);
    RecordKeeps(r.records, id, language, d, r.installed.adapters);
  }

  lemma ReattachKeeps(i: Installed, id: Id)
    requires InstalledInv(i)
    ensures InstalledInv(Attach(Detach(i, id), id)) && Attach(Detach(i, id), id).adapters == i.adapters + {id}
  {
    DetachKeeps(i, id);
    AttachKeeps(Detach(i, id), id);
    assert (i.adapters - {id}) + {id} == i.adapters + {id};
  }

  lemma CreateKeeps(r: Reg, id: Id, q: Request)
    requires Inv(r)
    ensures Inv(Create(r, id, q))
    ensures Create(r, id, q).records.languages.Keys ==
            if Choose(q).Some? && ComesUp(q, Choose(q).value) then r.records.languages.Keys + {id}
            else r.records.languages.Keys - {id}
    ensures Create(r, id, q).installed.adapters ==
            if Choose(q).None? then r.installed.adapters
            else if ComesUp(q, Choose(q).value) then r.installed.adapters + {id}
            else r.installed.adapters - {id}
  {
    var r1 := r.(records := NoteSource(r.records, id, q));
    assert Noted(r1.records, id, r.installed.adapters);
    if Choose(q).None? {
      RefuseKeeps(r1, id);
    } else if ComesUp(q, Choose(q).value) {
      AdmitThenInstall(r1, id, q.language, Decision(Choose(q).value, IsDynamic(q)));
      InstallShape(r1, id, q.language, Decision(Choose(q).value, IsDynamic(q)));
    } else {
      AdmitThenFail(r1, id, q.language, Decision(Choose(q).value, IsDynamic(q)));
    }
  }

  /** A connection that comes up gets a drop counter of its own, made after all earlier ones. */
  lemma FreshCounterPerForwarder(r: Reg, id: Id, q: Request)
    requires Choose(q).Some? && ComesUp(q, Choose(q).value)
    ensures var r' := Create(r, id, q);
            && id in r'.records.dropCounters && r'.records.dropCounters[id] == r.records.created < r'.records.created
            && r'.installed.spawned == r.installed.spawned + [id]
  {
    var r1 := r.(records := NoteSource(r.records, id, q));
    InstallShape(r1, id, q.language, Decision(Choose(q).value, IsDynamic(q)));
  }

  lemma CloseKeeps(r: Reg, id: Id)
    requires Inv(r)
    ensures Inv(Close(r, id)) && Close(r, id).records.languages.Keys == r.records.languages.Keys - {id}
    ensures Close(r, id).installed.adapters == r.installed.adapters - {id}
  {
    DetachKeeps(r.installed, id);
    ForgetKeeps(r.records, id, r.installed.adapters);
  }

  lemma StopAllKeeps(r: Reg)
    requires Inv(r)
    ensures Inv(StopAll(r))
    ensures forall h :: 0 <= h < |r.installed.spawned| ==> h in StopAll(r).installed.aborted
  {
    var i := r.installed;
    forall h | 0 <= h < |i.spawned| && h !in i.aborted ensures h in i.handles.Values {
      assert i.handles[i.spawned[h]] in i.handles.Values;
    }
  }

  // ---------------------------------------------------------------- every sequence of operations

  datatype Op = CreateOp(id: Id, request: Request) | CloseOp(id: Id) | StopAllOp

  function Apply(r: Reg, op: Op): Reg {
    match op
    case CreateOp(id, q) => Create(r, id, q)
    case CloseOp(id) => Close(r, id)
    case StopAllOp => StopAll(r)
  }

  function Exec(ops: seq<Op>): Reg {
    if ops == [] then EMPTY else Apply(Exec(ops[..|ops| - 1]), ops[|ops| - 1])
  }

  lemma {:induction false} RunKeepsInv(ops: seq<Op>)
    ensures Inv(Exec(ops))
  {
    if ops != [] {
      var r := Exec(ops[..|ops| - 1]);
      RunKeepsInv(ops[..|ops| - 1]);
      match ops[|ops| - 1]
      case CreateOp(id, q) => CreateKeeps(r, id, q);
      case CloseOp(id) => CloseKeeps(r, id);
      case StopAllOp => StopAllKeeps(r);
    }
  }

  /** After any operations with any failures, the maps are in step and the gauge counts the adapters. */
  lemma MapsStayInStep(ops: seq<Op>)
    ensures var i, m := Exec(ops).installed, Exec(ops).records;
            && i.handles.Keys == i.adapters && i.active == Gauge(|i.adapters|)
            && m.languages.Keys == m.decisions.Keys == m.dropCounters.Keys
            && m.languages.Keys <= i.adapters && m.debugSources.Keys <= i.adapters
  {
    RunKeepsInv(ops);
  }

  /** Every forwarder took a counter that was made before, and no two the same. */
  ghost predicate CountersInv(counters: seq<nat>, spawned: seq<Id>, created: nat) {
    && |counters| == |spawned|
    && (forall h :: 0 <= h < |counters| ==> counters[h] < created)
    && (forall g, h :: 0 <= g < h < |counters| ==> counters[g] != counters[h])
  }

  lemma CreateTakesCounter(r: Reg, id: Id, q: Request)
    ensures var r' := Create(r, id, q);
            if Choose(q).Some? && ComesUp(q, Choose(q).value)
            then r'.counters == r.counters + [r.records.created] && r'.installed.spawned == r.installed.spawned + [id]
                 && r'.records.created == r.records.created + 1
            else r'.counters == r.counters && r'.installed.spawned == r.installed.spawned
                 && r'.records.created >= r.records.created
  {
    if Choose(q).Some? {
      var r1 := r.(records := NoteSource(r.records, id, q));
      InstallShape(r1, id, q.language, Decision(Choose(q).value, IsDynamic(q)));
    }
  }

  lemma OthersTakeNone(r: Reg, id: Id)
    ensures var r', r'' := Close(r, id), StopAll(r);
            && r'.counters == r''.counters == r.counters
            && r'.records.created == r''.records.created == r.records.created
            && r'.installed.spawned == r''.installed.spawned == r.installed.spawned
  {
  }

  lemma {:induction false} RunKeepsCounters(ops: seq<Op>)
    ensures CountersInv(Exec(ops).counters, Exec(ops).installed.spawned, Exec(ops).records.created)
  {
    if ops != [] {
      var r := Exec(ops[..|ops| - 1]);
      RunKeepsCounters(ops[..|ops| - 1]);
      match ops[|ops| - 1]
      case CreateOp(id, q) => CreateTakesCounter(r, id, q);
      case CloseOp(id) => OthersTakeNone(r, id);
      case StopAllOp => OthersTakeNone(r, "");
    }
  }

  /** After any operations with any failures, no two forwarders ever spawned count their drops in the same counter. */
  lemma NoCounterIsShared(ops: seq<Op>, g: Handle, h: Handle)
    requires g < h < |Exec(ops).installed.spawned|
    ensures |Exec(ops).counters| == |Exec(ops).installed.spawned| && Exec(ops).counters[g] != Exec(ops).counters[h]
  {
    RunKeepsCounters(ops);
  }

  /** After any operations, two forwarders of the same id are never both un-aborted. */
  lemma OneLiveForwarderPerId(ops: seq<Op>, g: Handle, h: Handle)
    requires var i := Exec(ops).installed;
             && g < |i.spawned| && h < |i.spawned| && g !in i.aborted && h !in i.aborted
             && i.spawned[g] == i.spawned[h]
    ensures g == h && Exec(ops).installed.spawned[g] in Exec(ops).installed.adapters
  {
    RunKeepsInv(ops);
  }

  datatype Lookup = NoLanguage | ConnectionNotFound | Found(language: string)

  /** How SetMetric and RemoveMetric find a connection: first its language, then its adapter. */
  function FindConnection(r: Reg, id: Id): Lookup {
    if id !in r.records.languages then NoLanguage
    else if id !in r.installed.adapters then ConnectionNotFound
    else Found(r.records.languages[id])
  }

  /** No half-created connection is visible: once the language is found, the adapter is there. */
  lemma NoHalfCreatedConnection(ops: seq<Op>, id: Id)
    ensures FindConnection(Exec(ops), id) != ConnectionNotFound
  {
    RunKeepsInv(ops);
  }

  // ---------------------------------------------------------------- what one operation reports and leaves alone

  /** The decision that describes a request: the one just made, or for a refusal the one still on record. */
  function Described(r: Reg, id: Id, q: Request): Option<Decision> {
    if Choose(q).Some? then Some(Decision(Choose(q).value, IsDynamic(q)))
    else Get(r.records.decisions, id)
  }

  /** The debug source reported: the one just looked up, or the one still on record. */
  function Sourced(r: Reg, id: Id, q: Request): Option<string> {
    if q.backend.Some? && q.profile.Some? && ProfileFits(q.language, q.profile.value) && Capturable(q.language)
    then Some(q.debugSource) else Get(r.records.debugSources, id)
  }

  /** Every create request is answered by exactly one update: `Connected` if and only if a new forwarder runs for the id
      when it ends, and with the decision and debug source as they were before a failure cleared them. */
  lemma CreateReportsOnce(r: Reg, id: Id, q: Request)
    requires Inv(r)
    ensures var r' := Create(r, id, q);
            && |r'.updates| == |r.updates| + 1 && r'.updates[..|r.updates|] == r.updates
            && var u := r'.updates[|r.updates|];
               && u.id == id && u.decision == Described(r, id, q) && u.debugSource == Sourced(r, id, q)
               && (u.status == Connected <==>
                   id in r'.installed.handles && r'.installed.handles[id] == |r.installed.spawned|)
  {
    var r1 := r.(records := NoteSource(r.records, id, q));
    if Choose(q).Some? {
      var d := Decision(Choose(q).value, IsDynamic(q));
      InstallShape(r1, id, q.language, d);
      assert Admit(r1, id, q.language, d).records.decisions[id] == d;
    } else {
      assert id in r.installed.handles ==> r.installed.handles[id] < |r.installed.spawned|;
    }
  }

  /** Everything the registry holds about one id. */
  datatype Entry = Entry(
    adapter: bool, handle: Option<Handle>, language: Option<string>, decision: Option<Decision>,
    debugSource: Option<string>, dropCounter: Option<nat>)

  function EntryOf(r: Reg, id: Id): Entry {
    Entry(id in r.installed.adapters, Get(r.installed.handles, id), Get(r.records.languages, id),
          Get(r.records.decisions, id), Get(r.records.debugSources, id), Get(r.records.dropCounters, id))
  }

  /** The installed parts agree on id x, and x's forwarder has not been told to stop. */
  predicate SameParts(i: Installed, i': Installed, x: Id) {
    && (x in i'.adapters <==> x in i.adapters) && Get(i'.handles, x) == Get(i.handles, x)
    && (x in i.handles && i.handles[x] !in i.aborted ==> i.handles[x] !in i'.aborted)
  }

  predicate SameRecords(m: Records, m': Records, x: Id) {
    && Get(m'.languages, x) == Get(m.languages, x) && Get(m'.decisions, x) == Get(m.decisions, x)
    && Get(m'.debugSources, x) == Get(m.debugSources, x) && Get(m'.dropCounters, x) == Get(m.dropCounters, x)
  }

  lemma DetachLeavesOthers(i: Installed, id: Id, x: Id)
    requires InstalledInv(i) && x != id
    ensures SameParts(i, Detach(i, id), x)
  {
  }

  lemma AttachLeavesOthers(i: Installed, id: Id, x: Id)
    requires x != id
    ensures SameParts(i, Attach(i, id), x)
  {
  }

  lemma RecordsLeaveOthers(m: Records, id: Id, q: Request, d: Decision, x: Id)
    requires x != id
    ensures SameRecords(m, Forget(m, id), x) && SameRecords(m, NoteSource(m, id, q), x)
    ensures SameRecords(m, Record(m, id, q.language, d), x)
  {
  }

  /** What a create does to the two halves of the registry. */
  lemma CreateShape(r: Reg, id: Id, q: Request)
    ensures var r', m := Create(r, id, q), NoteSource(r.records, id, q);
            match Choose(q)
            case None => r'.installed == r.installed && r'.records == Forget(m, id)
            case Some(b) =>
              var m1, i := Record(m, id, q.language, Decision(b, IsDynamic(q))), Detach(r.installed, id);
              if ComesUp(q, b) then r'.installed == Attach(i, id) && r'.records == m1
              else r'.installed == i && r'.records == Forget(m1, id)
  {
    if Choose(q).Some? {
      var r1 := r.(records := NoteSource(r.records, id, q));
      InstallShape(r1, id, q.language, Decision(Choose(q).value, IsDynamic(q)));
    }
  }

  lemma CreateLeavesOthers(r: Reg, id: Id, q: Request, x: Id)
    requires Inv(r) && x != id
    ensures SameParts(r.installed, Create(r, id, q).installed, x)
    ensures SameRecords(r.records, Create(r, id, q).records, x)
  {
    var m, d := NoteSource(r.records, id, q), Decision(if Choose(q).Some? then Choose(q).value else Dap, IsDynamic(q));
    CreateShape(r, id, q);
    DetachLeavesOthers(r.installed, id, x);
    AttachLeavesOthers(Detach(r.installed, id), id, x);
    RecordsLeaveOthers(r.records, id, q, d, x);
    RecordsLeaveOthers(m, id, q, d, x);
    RecordsLeaveOthers(Record(m, id, q.language, d), id, q, d, x);
  }

  /** Creating or closing one connection leaves the others as they are, and stops none of their forwarders. */
  lemma OthersAreUntouched(r: Reg, id: Id, q: Request, x: Id)
    requires Inv(r) && x != id
    ensures EntryOf(Create(r, id, q), x) == EntryOf(r, x) == EntryOf(Close(r, id), x)
    ensures x in r.installed.handles ==>
              && r.installed.handles[x] !in Create(r, id, q).installed.aborted
              && r.installed.handles[x] !in Close(r, id).installed.aborted
  {
    CreateLeavesOthers(r, id, q, x);
    DetachLeavesOthers(r.installed, id, x);
    RecordsLeaveOthers(r.records, id, q, Decision(Dap, false), x);
    assert SameParts(r.installed, Close(r, id).installed, x) && SameRecords(r.records, Close(r, id).records, x);
  }

  /** A close leaves nothing of the connection, and its forwarder is told to stop. */
  lemma CloseLeavesNothing(r: Reg, id: Id)
    requires Inv(r)
    ensures EntryOf(Close(r, id), id) == Entry(false, None, None, None, None, None) && Close(r, id).refresh
    ensures forall h :: 0 <= h < |r.installed.spawned| && r.installed.spawned[h] == id ==>
              h in Close(r, id).installed.aborted
  {
  }

  // ---------------------------------------------------------------- the inclusion that is not kept

  /** Every live adapter has its language record. */
  predicate Synced(r: Reg) {
    r.records.languages.Keys == r.installed.adapters
  }

  /** A create leaves every adapter with its records if and only if it is not the early refusal of a live id. */
  lemma CreateSyncs(r: Reg, id: Id, q: Request)
    requires Inv(r) && Synced(r)
    ensures Synced(Create(r, id, q)) <==> !(Choose(q).None? && id in r.installed.adapters)
  {
    CreateKeeps(r, id, q);
    SyncSets(r.installed.adapters, id, Choose(q).None?, Choose(q).Some? && ComesUp(q, Choose(q).value));
  }

  lemma SyncSets(ids: set<Id>, id: Id, refused: bool, up: bool)
    ensures var languages := if !refused && up then ids + {id} else ids - {id};
            var adapters := if refused then ids else if up then ids + {id} else ids - {id};
            languages == adapters <==> !(refused && id in ids)
  {
    assert id in ids ==> id !in ids - {id};
    assert id !in ids ==> ids - {id} == ids;
  }

  lemma CloseAndStopAllSync(r: Reg, id: Id)
    requires Inv(r) && Synced(r)
    ensures Synced(Close(r, id)) && Synced(StopAll(r))
  {
    CloseKeeps(r, id);
  }

  /** The operation is the early refusal of a create request for a live id. */
  predicate Hides(r: Reg, op: Op) {
    op.CreateOp? && Choose(op.request).None? && op.id in r.installed.adapters
  }

  lemma ApplySyncs(r: Reg, op: Op)
    requires Inv(r) && Synced(r)
    ensures Synced(Apply(r, op)) <==> !Hides(r, op)
  {
    match op
    case CreateOp(id, q) => CreateSyncs(r, id, q);
    case CloseOp(id) => CloseAndStopAllSync(r, id);
    case StopAllOp => CloseAndStopAllSync(r, "");
  }

  lemma ExecNext(ops: seq<Op>, n: nat)
    requires n < |ops|
    ensures Exec(ops[..n + 1]) == Apply(Exec(ops[..n]), ops[n])
  {
    assert ops[..n + 1][..n] == ops[..n];
  }

  ghost predicate AlwaysSynced(ops: seq<Op>) {
    forall n :: 0 <= n <= |ops| ==> Synced(Exec(ops[..n]))
  }

  ghost predicate NeverHides(ops: seq<Op>) {
    forall n :: 0 <= n < |ops| ==> !Hides(Exec(ops[..n]), ops[n])
  }

  lemma {:induction false} NeverHidesSyncs(ops: seq<Op>, n: nat)
    requires NeverHides(ops) && n <= |ops|
    ensures Synced(Exec(ops[..n]))
  {
    if n > 0 {
      NeverHidesSyncs(ops, n - 1);
      RunKeepsInv(ops[..n - 1]);
      ApplySyncs(Exec(ops[..n - 1]), ops[n - 1]);
      ExecNext(ops, n - 1);
    }
  }

  /** Throughout any sequence of operations with any failures, every live adapter has its language record, if and only
      if no operation is the early refusal of an id that is live when it comes. */
  lemma AlwaysSyncedIffNeverHides(ops: seq<Op>)
    ensures AlwaysSynced(ops) <==> NeverHides(ops)
  {
    if NeverHides(ops) {
      forall n | 0 <= n <= |ops| ensures Synced(Exec(ops[..n])) {
        NeverHidesSyncs(ops, n);
      }
    }
    if AlwaysSynced(ops) {
      forall n | 0 <= n < |ops| ensures !Hides(Exec(ops[..n]), ops[n]) {
        assert Synced(Exec(ops[..n])) && Synced(Exec(ops[..n + 1]));
        RunKeepsInv(ops[..n]);
        ApplySyncs(Exec(ops[..n]), ops[n]);
        ExecNext(ops, n);
      }
    }
  }

  /** The refusal of a live id does lose its language record: its adapter runs on, invisible to SetMetric. */
  lemma RefusalHidesALiveConnection(id: Id) returns (ops: seq<Op>)
    ensures id in Exec(ops).installed.adapters && FindConnection(Exec(ops), id) == NoLanguage
  {
    var good := Request("go", Some(Ebpf), Some(GoProfile), false, "embedded", Some(Ebpf), true, true, true, true);
    var op1, op2 := CreateOp(id, good), CreateOp(id, good.(backend := None));
    ops := [op1, op2];
    assert ops[..1] == [op1] && [op1][..0] == [];
    assert Exec([]) == EMPTY;
    assert Exec([op1]) == Create(EMPTY, id, good);
  }
}
