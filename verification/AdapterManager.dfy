/** The adapter manager as an object: each method updates the maps one by one, and is proved to be one registry step. */
module AdapterManagers {
  import opened Options
  import opened Registry

  class AdapterManager {
    var adapters: set<Id>
    var forwarderHandles: map<Id, Handle>
    var connectionLanguages: map<Id, string>
    var connectionDecisions: map<Id, Decision>
    var connectionDebugSources: map<Id, string>
    var connectionDropCounts: map<Id, nat>
    var activeConnections: nat
    var scanRefreshRequested: bool
    var spawned: seq<Id>
    var aborted: set<Handle>
    var created: nat
    var updates: seq<Update>
    var counters: seq<nat>

    function Parts(): Installed
      reads this
    {
      Installed(adapters, forwarderHandles, activeConnections, spawned, aborted)
    }

    function Notes(): Records
      reads this
    {
      Records(connectionLanguages, connectionDecisions, connectionDebugSources, connectionDropCounts, created)
    }

    function Model(): Reg
      reads this
    {
      Reg(Parts(), Notes(), scanRefreshRequested, updates, counters)
    }

    /** Adapters, forwarders, records and gauge are in step. */
    ghost predicate Valid()
      reads this
    {
      Inv(Model())
    }

    constructor ()
      ensures Valid() && Model() == EMPTY
    {
      adapters, forwarderHandles := {}, map[];
      connectionLanguages, connectionDecisions := map[], map[];
      connectionDebugSources, connectionDropCounts := map[], map[];
      activeConnections, scanRefreshRequested, spawned, aborted, created := 0, false, [], {}, 0;
      updates, counters := [], [];
    }

    method ForgetConnection(id: Id)
      modifies `connectionLanguages, `connectionDecisions, `connectionDebugSources, `connectionDropCounts
      ensures Notes() == Forget(old(Notes()), id)
    {
      connectionLanguages := connectionLanguages - {id};
      connectionDecisions := connectionDecisions - {id};
      connectionDebugSources := connectionDebugSources - {id};
      connectionDropCounts := connectionDropCounts - {id};
    }

    method ForgetAll()
      modifies `connectionLanguages, `connectionDecisions, `connectionDebugSources, `connectionDropCounts
      ensures Notes() == Records(map[], map[], map[], map[], old(created))
    {
      connectionLanguages := map[];
      connectionDecisions := map[];
      connectionDebugSources := map[];
      connectionDropCounts := map[];
    }

    /** A failed update also clears the records of the connection. */
    method SendConnectionUpdate(id: Id, status: Status)
      modifies this
      ensures Model() == if status == Failed then Fail(old(Model()), id) else Report(old(Model()), id, status)
    {
      var decision := if id in connectionDecisions then Some(connectionDecisions[id]) else None;
      var source := if id in connectionDebugSources then Some(connectionDebugSources[id]) else None;
      updates := updates + [Update(id, status, decision, source)];
      if status == Failed {
        ForgetConnection(id);
      }
    }

    method ReplaceConnection(id: Id)
      modifies this
      ensures Model() == old(Model()).(installed := Detach(old(Parts()), id))
    {
      if id in forwarderHandles {
        aborted := aborted + {forwarderHandles[id]};
        forwarderHandles := forwarderHandles - {id};
      }
      if id in adapters {
        adapters := adapters - {id};
        activeConnections := Gauge(|adapters|);
      }
    }

    method InsertAdapter(id: Id)
      modifies this
      ensures Notes() == old(Notes()) && Model() == old(Model()).(installed := Parts())
      ensures Parts() == old(Parts()).(adapters := old(adapters) + {id}, active := Gauge(|old(adapters) + {id}|))
    {
      adapters := adapters + {id};
      activeConnections := Gauge(|adapters|);
    }

    method SpawnEventForwarder(id: Id)
      modifies this
      ensures Model() ==
              old(Model()).(installed := Parts(), records := NeedCounter(old(Notes()), id), counters := counters)
      ensures counters == old(counters) + [connectionDropCounts[id]]
      ensures Parts() ==
              old(Parts()).(spawned := old(spawned) + [id], handles := old(forwarderHandles)[id := |old(spawned)|])
    {
      if id !in connectionDropCounts {
        connectionDropCounts := connectionDropCounts[id := created];
        created := created + 1;
      }
      counters := counters + [connectionDropCounts[id]];
      forwarderHandles := forwarderHandles[id := |spawned|];
      spawned := spawned + [id];
    }

    /** Start, subscribe, install: the common end of every successful branch. */
    method BringUp(id: Id, ok: bool, started: bool, subscribed: bool)
      modifies this
      ensures Model() == if ok && started && subscribed then Report(Install(old(Model()), id), id, Connected)
                         else Fail(old(Model()), id)
    {
      if !ok {
        SendConnectionUpdate(id, Failed);
        return;
      }
      if !started {
        SendConnectionUpdate(id, Failed);
        return;
      }
      if subscribed {
        InsertAdapter(id);
        SpawnEventForwarder(id);
        SendConnectionUpdate(id, Connected);
      } else {
        SendConnectionUpdate(id, Failed);
      }
    }

    /** Tear down what the id had, and record the new connection. */
    method AdmitConnection(id: Id, language: string, decision: Decision)
      modifies this
      ensures Model() == Admit(old(Model()), id, language, decision)
    {
      ReplaceConnection(id);
      connectionLanguages := connectionLanguages[id := language];
      connectionDecisions := connectionDecisions[id := decision];
      connectionDropCounts := connectionDropCounts[id := created];
      created := created + 1;
    }

    /** The checks made before anything is torn down: the chosen backend, or a refusal. */
    method Admission(id: Id, q: Request) returns (selected: Option<Backend>)
      modifies this
      ensures selected == Choose(q)
      ensures Model() == old(Model()).(records := NoteSource(old(Notes()), id, q))
    {
      if q.backend.None? {
        return None;
      }
      if q.profile.None? {
        return if q.backend.value == Ebpf && q.dynamicReady then Some(Ebpf) else None;
      }
      if !ProfileFits(q.language, q.profile.value) {
        return None;
      }
      if q.language == "go" || q.language == "rust" {
        connectionDebugSources := connectionDebugSources[id := q.debugSource];
        return q.resolved;
      }
      return if q.backend.value == Ebpf then None else Some(Dap);
    }

    /** A create request leaves the maps in step whatever fails, keeps what they hold about every other id, and installs
        the id with a forwarder of its own exactly when its adapter comes up. */
    method CreateConnection(id: Id, q: Request)
      requires Valid()
      modifies this
      ensures Valid() && Model() == Create(old(Model()), id, q)
      ensures forall x :: x != id ==> EntryOf(Model(), x) == old(EntryOf(Model(), x))
      ensures (id in forwarderHandles && forwarderHandles[id] == |old(spawned)|) <==>
              Choose(q).Some? && ComesUp(q, Choose(q).value)
    {
      CreateFacts(Model(), id, q);
      var selected := Admission(id, q);
      if selected.None? {
        SendConnectionUpdate(id, Failed);
        return;
      }
      AdmitConnection(id, q.language, Decision(selected.value, q.profile.None?));
      var built := false;
      if selected.value == Ebpf {
        built := q.built;
      } else if q.language == "go" {
        built := if selected.value == Dap then q.portOk else q.built;
      } else if q.language == "python" || q.language == "rust" {
        built := q.portOk;
      }
      BringUp(id, built, q.started, q.subscribed);
    }

    /** Closing leaves nothing of the id, keeps the others, and asks for a full scan. */
    method CloseConnection(id: Id)
      requires Valid()
      modifies this
      ensures Valid() && Model() == Close(old(Model()), id)
      ensures forall x :: x != id ==> EntryOf(Model(), x) == old(EntryOf(Model(), x))
      ensures EntryOf(Model(), id) == Entry(false, None, None, None, None, None) && scanRefreshRequested
    {
      CloseFacts(Model(), id);
      DropConnection(id);
    }

    /** The map-by-map updates of a close. */
    method DropConnection(id: Id)
      modifies this
      ensures Model() == Close(old(Model()), id)
    {
      scanRefreshRequested := true;
      ReplaceConnection(id);
      ForgetConnection(id);
    }

    /** Abort every forwarder, one key at a time. */
    method AbortForwarders()
      modifies this`forwarderHandles, this`aborted
      ensures forwarderHandles == map[] && aborted == old(aborted) + old(forwarderHandles).Values
    {
      var keys := forwarderHandles.Keys;
      while keys != {}
        invariant forwarderHandles.Keys == keys
        invariant aborted + forwarderHandles.Values == old(aborted) + old(forwarderHandles).Values
      {
        var id :| id in keys;
        RemoveValue(forwarderHandles, id);
        aborted := aborted + {forwarderHandles[id]};
        forwarderHandles := forwarderHandles - {id};
        keys := keys - {id};
      }
      assert forwarderHandles == map[];
      assert forwarderHandles.Values == {};
    }

    /** Stop every adapter, one key at a time. */
    method StopAdapters()
      modifies this`adapters, this`activeConnections
      ensures adapters == {} && activeConnections == 0
    {
      var keys := adapters;
      while keys != {}
        invariant keys == adapters
      {
        var id :| id in keys;
        adapters := adapters - {id};
        keys := keys - {id};
      }
      activeConnections := Gauge(|adapters|);
    }

    /** Afterwards nothing is installed, and no forwarder ever spawned is left un-aborted. */
    method StopAllConnections()
      requires Valid()
      modifies this
      ensures Valid() && Model() == StopAll(old(Model()))
      ensures adapters == {} && spawned == old(spawned) && forall h :: 0 <= h < |spawned| ==> h in aborted
    {
      StopAllKeeps(Model());
      DropAll();
    }

    /** The map-by-map updates of a stop. */
    method DropAll()
      modifies this
      ensures Model() == StopAll(old(Model()))
    {
      AbortForwarders();
      StopAdapters();
      ForgetAll();
    }
  }

  lemma CreateFacts(r: Reg, id: Id, q: Request)
    requires Inv(r)
    ensures var r' := Create(r, id, q);
            && Inv(r') && (forall x :: x != id ==> EntryOf(r', x) == EntryOf(r, x))
            && ((id in r'.installed.handles && r'.installed.handles[id] == |r.installed.spawned|) <==>
                Choose(q).Some? && ComesUp(q, Choose(q).value))
  {
    CreateKeeps(r, id, q);
    forall x | x != id ensures EntryOf(Create(r, id, q), x) == EntryOf(r, x) {
      OthersAreUntouched(r, id, q, x);
    }
    CreateShape(r, id, q);
    assert id in r.installed.handles ==> r.installed.handles[id] < |r.installed.spawned|;
  }

  lemma CloseFacts(r: Reg, id: Id)
    requires Inv(r)
    ensures var r' := Close(r, id);
            && Inv(r') && (forall x :: x != id ==> EntryOf(r', x) == EntryOf(r, x))
            && EntryOf(r', id) == Entry(false, None, None, None, None, None)
  {
    CloseKeeps(r, id);
    CloseLeavesNothing(r, id);
    forall x | x != id ensures EntryOf(Close(r, id), x) == EntryOf(r, x) {
      DetachLeavesOthers(r.installed, id, x);
    }
  }

  lemma RemoveValue(m: map<Id, Handle>, id: Id)
    requires id in m
    ensures m.Values == (m - {id}).Values + {m[id]}
  {
    forall v | v in m.Values ensures v in (m - {id}).Values + {m[id]} {
      var x :| x in m && m[x] == v;
      assert x != id ==> x in m - {id};
    }
  }
}
