/**
  The MCP client tracker: clients with their last activity, a cleanup pass that removes silent ones, and the
  delayed shutdown of a daemon that was spawned for them. Time is a number of clock ticks.

  The code between two lock operations or suspension points is one step. So leaving the client map empty and
  deciding to arm the shutdown timer are two steps, and an expired timer reads the client map and the
  connection count in two steps; other steps may come in between.
*/
module Tracker {
  import opened Options

  type Client = string
  type Time = nat
  type Clients = map<Client, Time>

  datatype Config = Config(
    toolTimeout: nat, bridgeTimeout: nat,
    heartbeatInterval: nat, heartbeatTimeout: nat, cleanupInterval: nat, gracePeriod: nat)

  /** The configurations that validation accepts. */
  predicate Validated(c: Config) {
    && c.toolTimeout < c.bridgeTimeout
    && c.heartbeatInterval < c.heartbeatTimeout
    && c.cleanupInterval <= c.heartbeatTimeout
  }

  /** `Register` and `Cleanup` read the clock before they get the lock, at `stamp`. */
  datatype Event =
    | Register(client: Client, stamp: Time)
    | Heartbeat(client: Client)
    | Touch(client: Client)
    | Unregister(client: Client)
    | Cleanup(stamp: Time)
    | SetCount(count: nat)
    | RunTask(id: nat)

  datatype Moment = Moment(now: Time, event: Event)

  /** A shutdown attempt. It remembers the steps at which the map was emptied, the timer armed, and the map read
      again. */
  datatype Task =
    | Deciding(emptied: nat)
    | Sleeping(emptied: nat, armed: nat, due: Time)
    | Checked(emptied: nat, armed: nat, checked: nat, noClients: bool)

  /** Tasks are named by the step that started them. */
  datatype State = State(clients: Clients, count: nat, shutdown: bool, tasks: map<nat, Task>)

  function Elapsed(since: Time, now: Time): nat {
    if since <= now then now - since else 0
  }

  /** The clients whose last activity is not more than the timeout ago. */
  function Reap(clients: Clients, timeout: nat, stamp: Time): Clients {
    map c | c in clients && Elapsed(clients[c], stamp) <= timeout :: clients[c]
  }

  /** A removal that leaves the map empty starts a shutdown attempt, in a daemon spawned for MCP. */
  function AfterRemoval(s: State, clients: Clients, spawned: bool, step: nat): State {
    if spawned && |clients| < |s.clients| && clients == map[]
    then s.(clients := clients, tasks := s.tasks[step := Deciding(step)])
    else s.(clients := clients)
  }

  function RunTaskStep(c: Config, s: State, id: nat, now: Time, step: nat): State
    requires id in s.tasks
  {
    match s.tasks[id]
    case Deciding(emptied) =>
      if s.count > 0 then s.(tasks := s.tasks - {id})
      else s.(tasks := s.tasks[id := Sleeping(emptied, step, now + c.gracePeriod)])
    case Sleeping(emptied, armed, due) =>
      if now < due then s else s.(tasks := s.tasks[id := Checked(emptied, armed, step, s.clients == map[])])
    case Checked(_, _, _, noClients) =>
      s.(tasks := s.tasks - {id}, shutdown := s.shutdown || (noClients && s.count == 0))
  }

  function Step(c: Config, spawned: bool, s: State, m: Moment, step: nat): State {
    match m.event
    case Register(x, stamp) => if x in s.clients then s else s.(clients := s.clients[x := stamp])
    case Heartbeat(x) => if x in s.clients then s.(clients := s.clients[x := m.now]) else s
    case Touch(x) => s.(clients := s.clients[x := m.now])
    case Unregister(x) => AfterRemoval(s, s.clients - {x}, spawned, step)
    case Cleanup(stamp) => AfterRemoval(s, Reap(s.clients, c.heartbeatTimeout, stamp), spawned, step)
    case SetCount(n) => s.(count := n)
    case RunTask(id) => if id in s.tasks then RunTaskStep(c, s, id, m.now, step) else s
  }

  /** The state before step n of a run. */
  function Before(c: Config, spawned: bool, run: seq<Moment>, n: nat): State
    requires n <= |run|
  {
    if n == 0 then State(map[], 0, false, map[])
    else Step(c, spawned, Before(c, spawned, run, n - 1), run[n - 1], n - 1)
  }

  /** The clock never goes back, and a stamp is never in the future. */
  ghost predicate IsRun(run: seq<Moment>) {
    && (forall i, j :: 0 <= i <= j < |run| ==> run[i].now <= run[j].now)
    && (forall i :: 0 <= i < |run| ==> Stamp(run[i]) <= run[i].now)
  }

  function Stamp(m: Moment): Time {
    if m.event.Register? || m.event.Cleanup? then m.event.stamp else m.now
  }

  // ---------------------------------------------------------------- active clients stay

  /** The step marks the client as active. */
  predicate Activity(m: Moment, x: Client) {
    Beat(m, x) || (m.event.Register? && m.event.client == x)
  }

  predicate Beat(m: Moment, x: Client) {
    (m.event.Heartbeat? || m.event.Touch?) && m.event.client == x
  }

  /** One step, as one client sees it. */
  lemma StepOnClient(c: Config, spawned: bool, s: State, m: Moment, step: nat, x: Client)
    ensures var s' := Step(c, spawned, s, m, step).clients;
            && (Beat(m, x) && (x in s.clients || m.event.Touch?) ==> x in s' && s'[x] == m.now)
            && (m.event.Cleanup? ==>
                  (x in s' <==> x in s.clients && Elapsed(s.clients[x], m.event.stamp) <= c.heartbeatTimeout))
            && (!Activity(m, x) && x in s' ==> x in s.clients && s'[x] == s.clients[x])
            && (!m.event.Cleanup? && m.event != Unregister(x) && x in s.clients ==> x in s')
            && (x in s.clients && !Beat(m, x) && x in s' ==> s'[x] == s.clients[x])
            && (x !in s.clients && x in s' ==> Activity(m, x) && s'[x] == Stamp(m))
  {
    match m.event
    case Unregister(y) => RemovalClients(s, s.clients - {y}, spawned, step);
    case Cleanup(stamp) => RemovalClients(s, Reap(s.clients, c.heartbeatTimeout, stamp), spawned, step);
    case RunTask(id) => TasksLeaveClients(c, s, id, m.now, step);
    case _ =>
  }

  lemma RemovalClients(s: State, clients: Clients, spawned: bool, step: nat)
    ensures var s' := AfterRemoval(s, clients, spawned, step);
            s'.clients == clients && s'.count == s.count && s'.shutdown == s.shutdown
  {
  }

  lemma TasksLeaveClients(c: Config, s: State, id: nat, now: Time, step: nat)
    ensures id in s.tasks ==>
              var s' := RunTaskStep(c, s, id, now, step);
              s'.clients == s.clients && s'.count == s.count && (s.shutdown ==> s'.shutdown)
  {
  }

  /** From step i, at which it joins, to step n the client does not leave, and every cleanup pass finds its joining or a
      later activity at most one heartbeat interval old. */
  ghost predicate ActiveEvery(c: Config, run: seq<Moment>, x: Client, i: nat, n: nat)
    requires n <= |run|
  {
    && (forall j :: i < j < n ==> run[j].event != Unregister(x))
    && (forall j :: i < j < n && run[j].event.Cleanup? ==> RecentlyActive(c, run, x, i, j))
  }

  ghost predicate RecentlyActive(c: Config, run: seq<Moment>, x: Client, i: nat, j: nat)
    requires j < |run|
  {
    exists k :: i <= k < j && (k == i || Beat(run[k], x)) && Stamp(run[j]) <= Stamp(run[k]) + c.heartbeatInterval
  }

  /** A step that does not remove the client, and finds it active if it is a cleanup pass. */
  lemma ActiveStep(c: Config, spawned: bool, s: State, m: Moment, step: nat, x: Client)
    requires Validated(c) && x in s.clients && s.clients[x] <= m.now && m.event != Unregister(x)
    requires m.event.Cleanup? ==> m.event.stamp <= s.clients[x] + c.heartbeatInterval
    ensures var s' := Step(c, spawned, s, m, step).clients;
            x in s' && s.clients[x] <= s'[x] && (Beat(m, x) ==> s'[x] == m.now)
  {
    StepOnClient(c, spawned, s, m, step, x);
  }

  /** The last activity recorded for the client is no older than any activity since it joined. */
  ghost predicate SeenUpTo(run: seq<Moment>, x: Client, i: nat, n: nat, last: Time)
    requires n <= |run|
  {
    forall k :: i <= k < n && (k == i || Beat(run[k], x)) ==> Stamp(run[k]) <= last
  }

  lemma {:induction false} SeenSince(c: Config, spawned: bool, run: seq<Moment>, x: Client, i: nat, n: nat)
    requires IsRun(run) && Validated(c) && i < n <= |run|
    requires x !in Before(c, spawned, run, i).clients && x in Before(c, spawned, run, i + 1).clients
    requires ActiveEvery(c, run, x, i, n)
    ensures x in Before(c, spawned, run, n).clients
    ensures SeenUpTo(run, x, i, n, Before(c, spawned, run, n).clients[x])
  {
    if n == i + 1 {
      JoinIsSeen(c, spawned, run, x, i);
    } else {
      SeenSince(c, spawned, run, x, i, n - 1);
      LastIsPast(c, spawned, run, n - 1, x);
      SeenNext(c, spawned, run, x, i, n - 1, Before(c, spawned, run, n - 1));
    }
  }

  lemma JoinIsSeen(c: Config, spawned: bool, run: seq<Moment>, x: Client, i: nat)
    requires i < |run| && x !in Before(c, spawned, run, i).clients && x in Before(c, spawned, run, i + 1).clients
    ensures SeenUpTo(run, x, i, i + 1, Before(c, spawned, run, i + 1).clients[x])
  {
    StepOnClient(c, spawned, Before(c, spawned, run, i), run[i], i, x);
  }

  lemma {:induction false} LastIsPast(c: Config, spawned: bool, run: seq<Moment>, n: nat, x: Client)
    requires IsRun(run) && 0 < n <= |run| && x in Before(c, spawned, run, n).clients
    ensures Before(c, spawned, run, n).clients[x] <= run[n - 1].now
  {
    var s := Before(c, spawned, run, n - 1);
    StepOnClient(c, spawned, s, run[n - 1], n - 1, x);
    if n > 1 && x in s.clients {
      LastIsPast(c, spawned, run, n - 1, x);
      assert run[n - 2].now <= run[n - 1].now;
    }
    assert Stamp(run[n - 1]) <= run[n - 1].now;
  }

  lemma SeenNext(c: Config, spawned: bool, run: seq<Moment>, x: Client, i: nat, n: nat, s: State)
    requires IsRun(run) && Validated(c) && i < n < |run| && ActiveEvery(c, run, x, i, n + 1)
    requires x in s.clients && s.clients[x] <= run[n - 1].now && SeenUpTo(run, x, i, n, s.clients[x])
    ensures var s' := Step(c, spawned, s, run[n], n).clients; x in s' && SeenUpTo(run, x, i, n + 1, s'[x])
  {
    assert run[n - 1].now <= run[n].now;
    if run[n].event.Cleanup? {
      assert RecentlyActive(c, run, x, i, n);
    }
    ActiveStep(c, spawned, s, run[n], n, x);
  }

  /** With any accepted configuration, a client that shows activity at least every heartbeat interval is never reaped.
      */
  lemma ActiveClientStays(c: Config, spawned: bool, run: seq<Moment>, x: Client, i: nat, n: nat)
    requires IsRun(run) && Validated(c) && i < n <= |run|
    requires x !in Before(c, spawned, run, i).clients && x in Before(c, spawned, run, i + 1).clients
    requires ActiveEvery(c, run, x, i, n)
    ensures forall m :: i < m <= n ==> x in Before(c, spawned, run, m).clients
  {
    forall m | i < m <= n ensures x in Before(c, spawned, run, m).clients {
      SeenSince(c, spawned, run, x, i, m);
    }
  }

  // ---------------------------------------------------------------- silent clients go

  /** Every stretch of one cleanup interval, from `start` until before step n, has a cleanup pass. */
  ghost predicate CleansRegularly(c: Config, run: seq<Moment>, start: Time, n: nat)
    requires n < |run|
  {
    forall t: Time :: start <= t && t + c.cleanupInterval < run[n].now ==> CleansIn(c, run, t, n)
  }

  ghost predicate CleansIn(c: Config, run: seq<Moment>, t: Time, n: nat)
    requires n <= |run|
  {
    exists j :: 0 <= j < n && run[j].event.Cleanup? && t < run[j].event.stamp <= t + c.cleanupInterval
  }

  lemma {:induction false} SilentStays(c: Config, spawned: bool, run: seq<Moment>, x: Client, k: nat, n: nat)
    requires k <= n <= |run| && forall j :: k <= j < n ==> !Activity(run[j], x)
    ensures x in Before(c, spawned, run, n).clients ==>
              x in Before(c, spawned, run, k).clients
              && Before(c, spawned, run, n).clients[x] == Before(c, spawned, run, k).clients[x]
  {
    if k < n {
      SilentStays(c, spawned, run, x, k, n - 1);
      StepOnClient(c, spawned, Before(c, spawned, run, n - 1), run[n - 1], n - 1, x);
    }
  }

  /** A client whose last activity is step k is gone once more than the heartbeat timeout plus the cleanup interval has
      passed since. */
  lemma SilentClientGoes(c: Config, spawned: bool, run: seq<Moment>, x: Client, k: nat, start: Time, n: nat)
    requires IsRun(run) && k < n < |run| && forall j :: k < j < n ==> !Activity(run[j], x)
    requires CleansRegularly(c, run, start, n) && start <= run[k].now + c.heartbeatTimeout
    requires run[n].now > run[k].now + c.heartbeatTimeout + c.cleanupInterval
    ensures x !in Before(c, spawned, run, n).clients
  {
    var j := CleanupAfter(c, run, run[k].now + c.heartbeatTimeout, start, n);
    SilentClientIsReaped(c, spawned, run, x, k, j);
    SilentStays(c, spawned, run, x, j + 1, n);
  }

  lemma CleanupAfter(c: Config, run: seq<Moment>, t: Time, start: Time, n: nat) returns (j: nat)
    requires n < |run| && CleansRegularly(c, run, start, n) && start <= t && t + c.cleanupInterval < run[n].now
    ensures j < n && run[j].event.Cleanup? && run[j].event.stamp > t
  {
    assert CleansIn(c, run, t, n);
    j :| 0 <= j < n && run[j].event.Cleanup? && t < run[j].event.stamp <= t + c.cleanupInterval;
  }

  lemma SilentClientIsReaped(c: Config, spawned: bool, run: seq<Moment>, x: Client, k: nat, j: nat)
    requires IsRun(run) && k < |run| && j < |run| && forall i :: k < i < j ==> !Activity(run[i], x)
    requires run[j].event.Cleanup? && run[j].event.stamp > run[k].now + c.heartbeatTimeout
    ensures j > k && x !in Before(c, spawned, run, j + 1).clients
  {
    assert Stamp(run[j]) <= run[j].now;
    assert j > k;
    SilentStays(c, spawned, run, x, k + 1, j);
    if x in Before(c, spawned, run, k + 1).clients {
      LastIsPast(c, spawned, run, k + 1, x);
    }
    StepOnClient(c, spawned, Before(c, spawned, run, j), run[j], j, x);
  }

  /** A cleanup task that ticks at `start`, `start + interval`, and so on, cleans regularly. */
  lemma TicksCleanRegularly(c: Config, run: seq<Moment>, start: Time, n: nat)
    requires n < |run| && c.cleanupInterval > 0
    requires forall q: nat {:trigger TickAt(c, start, q)} :: TickAt(c, start, q) < run[n].now ==>
               exists j :: 0 <= j < n && run[j].event == Cleanup(TickAt(c, start, q))
    ensures CleansRegularly(c, run, start, n)
  {
    forall t: Time | start <= t && t + c.cleanupInterval < run[n].now ensures CleansIn(c, run, t, n) {
      var q := (t - start) / c.cleanupInterval + 1;
      NextTick(c, start, t);
      assert TickAt(c, start, q) < run[n].now;
      var j :| 0 <= j < n && run[j].event == Cleanup(TickAt(c, start, q));
    }
  }

  function TickAt(c: Config, start: Time, q: nat): Time {
    start + q * c.cleanupInterval
  }

  lemma NextTick(c: Config, start: Time, t: Time)
    requires c.cleanupInterval > 0 && start <= t
    ensures t < TickAt(c, start, (t - start) / c.cleanupInterval + 1) <= t + c.cleanupInterval
  {
    var i, q, r := c.cleanupInterval, (t - start) / c.cleanupInterval, (t - start) % c.cleanupInterval;
    assert t - start == q * i + r && (q + 1) * i == q * i + i;
  }

  // ---------------------------------------------------------------- shutdown

  /** Step a removes clients and leaves the map empty. */
  predicate Emptied(c: Config, spawned: bool, run: seq<Moment>, a: nat)
    requires a < |run|
  {
    && (run[a].event.Unregister? || run[a].event.Cleanup?)
    && Before(c, spawned, run, a).clients != map[] && Before(c, spawned, run, a + 1).clients == map[]
  }

  /** The attempt `id` is this task when step n begins. */
  predicate TaskAt(c: Config, spawned: bool, run: seq<Moment>, n: nat, id: nat, t: Task)
    requires n <= |run|
  {
    id in Before(c, spawned, run, n).tasks && Before(c, spawned, run, n).tasks[id] == t
  }

  /** The attempt `id` was started by the removal at step `id`. */
  predicate Began(c: Config, spawned: bool, run: seq<Moment>, id: nat) {
    spawned && id < |run| && Emptied(c, spawned, run, id)
  }

  /** Step b arms the timer of attempt `id`: it finds the attempt deciding, and no connections. */
  predicate Arms(c: Config, spawned: bool, run: seq<Moment>, id: nat, b: nat) {
    && id < b < |run| && run[b].event == RunTask(id)
    && TaskAt(c, spawned, run, b, id, Deciding(id)) && Before(c, spawned, run, b).count == 0
  }

  /** Step e is the expired timer of attempt `id`, armed at step b, reading the client map. */
  predicate Rereads(c: Config, spawned: bool, run: seq<Moment>, id: nat, b: nat, e: nat) {
    && b < e < |run| && run[e].event == RunTask(id)
    && TaskAt(c, spawned, run, e, id, Sleeping(id, b, run[b].now + c.gracePeriod))
    && run[e].now >= run[b].now + c.gracePeriod
  }

  /** What attempt `id` remembers is what it did. */
  predicate TaskIsTrue(c: Config, spawned: bool, run: seq<Moment>, n: nat, id: nat, t: Task)
    requires n <= |run|
  {
    && id < n && Began(c, spawned, run, id) && t.emptied == id
    && (!t.Deciding? ==> t.armed < n && Arms(c, spawned, run, id, t.armed))
    && (t.Sleeping? ==> t.due == run[t.armed].now + c.gracePeriod)
    && (t.Checked? ==>
          && t.checked < n && Rereads(c, spawned, run, id, t.armed, t.checked)
          && (t.noClients <==> Before(c, spawned, run, t.checked).clients == map[]))
  }

  ghost predicate TasksAreTrue(c: Config, spawned: bool, run: seq<Moment>, n: nat, tasks: map<nat, Task>)
    requires n <= |run|
  {
    forall id :: id in tasks ==> TaskIsTrue(c, spawned, run, n, id, tasks[id])
  }

  lemma RemovalEmpties(c: Config, spawned: bool, run: seq<Moment>, n: nat)
    requires n < |run| && (run[n].event.Unregister? || run[n].event.Cleanup?)
    ensures var s, s' := Before(c, spawned, run, n), Before(c, spawned, run, n + 1);
            && s'.count == s.count && s'.shutdown == s.shutdown
            && (s'.tasks == s.tasks
                || (spawned && Emptied(c, spawned, run, n) && s'.tasks == s.tasks[n := Deciding(n)]))
  {
    var s := Before(c, spawned, run, n);
    assert |s.clients| > 0 ==> s.clients != map[];
  }

  lemma TrueTaskStaysTrue(c: Config, spawned: bool, run: seq<Moment>, n: nat, id: nat, t: Task)
    requires n < |run| && TaskIsTrue(c, spawned, run, n, id, t)
    ensures TaskIsTrue(c, spawned, run, n + 1, id, t)
  {
  }

  /** A step that runs an attempt moves it on truthfully. */
  lemma RunTaskIsTrue(c: Config, spawned: bool, run: seq<Moment>, n: nat, id: nat, t: Task, t': Task)
    requires n < |run| && run[n].event == RunTask(id) && TaskAt(c, spawned, run, n, id, t)
    requires TaskIsTrue(c, spawned, run, n, id, t) && TaskAt(c, spawned, run, n + 1, id, t')
    ensures TaskIsTrue(c, spawned, run, n + 1, id, t')
  {
    var s := Before(c, spawned, run, n);
    assert Before(c, spawned, run, n + 1) == RunTaskStep(c, s, id, run[n].now, n);
    TrueTaskStaysTrue(c, spawned, run, n, id, t);
  }

  /** A task after step n is an unchanged one, the one the step ran, or the one it started. */
  lemma TaskComesFrom(c: Config, spawned: bool, run: seq<Moment>, n: nat, id: nat)
    requires n < |run| && id in Before(c, spawned, run, n + 1).tasks
    ensures var s, s' := Before(c, spawned, run, n).tasks, Before(c, spawned, run, n + 1).tasks;
            || (id in s && s'[id] == s[id])
            || (id in s && run[n].event == RunTask(id))
            || (id == n && s'[id] == Deciding(n) && spawned && Emptied(c, spawned, run, n))
  {
    if run[n].event.Unregister? || run[n].event.Cleanup? {
      RemovalEmpties(c, spawned, run, n);
    }
  }

  lemma TaskIsTrueNext(c: Config, spawned: bool, run: seq<Moment>, n: nat, id: nat)
    requires n < |run| && TasksAreTrue(c, spawned, run, n, Before(c, spawned, run, n).tasks)
    requires id in Before(c, spawned, run, n + 1).tasks
    ensures TaskIsTrue(c, spawned, run, n + 1, id, Before(c, spawned, run, n + 1).tasks[id])
  {
    TaskComesFrom(c, spawned, run, n, id);
    var s, s' := Before(c, spawned, run, n).tasks, Before(c, spawned, run, n + 1).tasks;
    if id in s {
      assert TaskIsTrue(c, spawned, run, n, id, s[id]);
      if run[n].event == RunTask(id) {
        RunTaskIsTrue(c, spawned, run, n, id, s[id], s'[id]);
      } else if s'[id] == s[id] {
        TrueTaskStaysTrue(c, spawned, run, n, id, s[id]);
      }
    }
  }

  lemma TasksAreTrueNext(c: Config, spawned: bool, run: seq<Moment>, n: nat, tasks: map<nat, Task>)
    requires n < |run| && TasksAreTrue(c, spawned, run, n, Before(c, spawned, run, n).tasks)
    requires tasks == Before(c, spawned, run, n + 1).tasks
    ensures TasksAreTrue(c, spawned, run, n + 1, tasks)
  {
    forall id | id in tasks ensures TaskIsTrue(c, spawned, run, n + 1, id, tasks[id]) {
      TaskIsTrueNext(c, spawned, run, n, id);
    }
  }

  lemma {:induction false} TasksStayTrue(c: Config, spawned: bool, run: seq<Moment>, n: nat)
    requires n <= |run|
    ensures TasksAreTrue(c, spawned, run, n, Before(c, spawned, run, n).tasks)
  {
    if n > 0 {
      TasksStayTrue(c, spawned, run, n - 1);
      TasksAreTrueNext(c, spawned, run, n - 1, Before(c, spawned, run, n).tasks);
    }
  }

  /** The step at which shutdown is signalled. */
  lemma {:induction false} SignalledAt(c: Config, spawned: bool, run: seq<Moment>, n: nat) returns (d: nat)
    requires n <= |run| && Before(c, spawned, run, n).shutdown
    ensures d < n && !Before(c, spawned, run, d).shutdown && Before(c, spawned, run, d + 1).shutdown
  {
    if Before(c, spawned, run, n - 1).shutdown {
      d := SignalledAt(c, spawned, run, n - 1);
    } else {
      d := n - 1;
    }
  }

  /** One attempt from beginning to end: the removal at step `a` empties the map and starts it; its step `b` finds no
      connections and arms its timer; at least a grace period later, its step `e` reads the map again and finds it
      empty; its step `d` finds no connections and signals. */
  predicate Causes(c: Config, spawned: bool, run: seq<Moment>, a: nat, b: nat, e: nat, d: nat) {
    && Began(c, spawned, run, a)
    && Arms(c, spawned, run, a, b)
    && Rereads(c, spawned, run, a, b, e) && Before(c, spawned, run, e).clients == map[]
    && e < d < |run| && run[d].event == RunTask(a) && TaskAt(c, spawned, run, d, a, Checked(a, b, e, true))
    && Before(c, spawned, run, d).count == 0
    && !Before(c, spawned, run, d).shutdown && Before(c, spawned, run, d + 1).shutdown
  }

  /** Shutdown is signalled only in a daemon spawned for MCP, and only by one attempt that went through all its steps.
      */
  lemma ShutdownHasCause(c: Config, spawned: bool, run: seq<Moment>, n: nat) returns (a: nat, b: nat, e: nat, d: nat)
    requires n <= |run| && Before(c, spawned, run, n).shutdown
    ensures spawned && d < n && Causes(c, spawned, run, a, b, e, d)
  {
    d := SignalledAt(c, spawned, run, n);
    TasksStayTrue(c, spawned, run, d);
    a := SignalledBy(c, spawned, run, d);
    var t := Before(c, spawned, run, d).tasks[a];
    assert TaskIsTrue(c, spawned, run, d, a, t);
    b, e := t.armed, t.checked;
  }

  /** Only a task that found the map empty, and now finds no connections, signals. */
  lemma SignalledBy(c: Config, spawned: bool, run: seq<Moment>, d: nat) returns (id: nat)
    requires d < |run| && !Before(c, spawned, run, d).shutdown && Before(c, spawned, run, d + 1).shutdown
    ensures run[d].event == RunTask(id) && id in Before(c, spawned, run, d).tasks
    ensures var t := Before(c, spawned, run, d).tasks[id]; t.Checked? && t.noClients
    ensures Before(c, spawned, run, d).count == 0
  {
    var m := run[d];
    if m.event.Unregister? || m.event.Cleanup? {
      RemovalEmpties(c, spawned, run, d);
    }
    assert m.event.RunTask?;
    id := m.event.id;
  }

  // ---------------------------------------------------------------- the grace period

  /** The step can add a client. */
  predicate Joins(e: Event) {
    e.Register? || e.Touch?
  }

  ghost predicate NobodyJoins(run: seq<Moment>, a: nat, n: nat)
    requires n <= |run|
  {
    forall j :: a < j < n ==> !Joins(run[j].event)
  }

  /** No client is there when any of the steps after a, up to n, begins. */
  ghost predicate EmptyFrom(c: Config, spawned: bool, run: seq<Moment>, a: nat, n: nat)
    requires n <= |run|
  {
    forall j :: a < j <= n ==> Before(c, spawned, run, j).clients == map[]
  }

  lemma EmptyStep(c: Config, spawned: bool, s: State, m: Moment, step: nat)
    requires s.clients == map[]
    ensures Step(c, spawned, s, m, step).clients == map[] <==> !Joins(m.event)
  {
    match m.event
    case Unregister(y) => RemovalClients(s, s.clients - {y}, spawned, step);
    case Cleanup(stamp) =>
      RemovalClients(s, Reap(s.clients, c.heartbeatTimeout, stamp), spawned, step);
      assert Reap(s.clients, c.heartbeatTimeout, stamp) == map[];
    case RunTask(id) => TasksLeaveClients(c, s, id, m.now, step);
    case Register(y, stamp) => assert y in s.clients[y := stamp];
    case Touch(y) => assert y in s.clients[y := m.now];
    case _ =>
  }

  lemma EmptyFromNext(c: Config, spawned: bool, run: seq<Moment>, a: nat, n: nat)
    requires a < n < |run|
    ensures EmptyFrom(c, spawned, run, a, n + 1) <==>
            EmptyFrom(c, spawned, run, a, n) && Before(c, spawned, run, n + 1).clients == map[]
  {
    if EmptyFrom(c, spawned, run, a, n + 1) {
      assert Before(c, spawned, run, n + 1).clients == map[];
    }
  }

  lemma NobodyJoinsNext(run: seq<Moment>, a: nat, n: nat)
    requires a < n < |run|
    ensures NobodyJoins(run, a, n + 1) <==> NobodyJoins(run, a, n) && !Joins(run[n].event)
  {
  }

  lemma {:induction false} EmptyIffNobodyJoins(c: Config, spawned: bool, run: seq<Moment>, a: nat, n: nat)
    requires a < n <= |run| && Emptied(c, spawned, run, a)
    ensures EmptyFrom(c, spawned, run, a, n) <==> NobodyJoins(run, a, n)
  {
    if n > a + 1 {
      EmptyIffNobodyJoins(c, spawned, run, a, n - 1);
      EmptyFromNext(c, spawned, run, a, n - 1);
      NobodyJoinsNext(run, a, n - 1);
      if EmptyFrom(c, spawned, run, a, n - 1) {
        EmptyStep(c, spawned, Before(c, spawned, run, n - 1), run[n - 1], n - 1);
      }
    }
  }

  /** When an attempt signals shutdown, all clients have been gone ever since the removal that started it, which is at
      least a grace period ago, if and only if no client joined in the meantime. An attempt is not called off by a
      client that joins and leaves again before it reads the map, nor by one that joins after. */
  lemma GraceIffNobodyJoined(c: Config, spawned: bool, run: seq<Moment>, a: nat, b: nat, e: nat, d: nat)
    requires IsRun(run) && Causes(c, spawned, run, a, b, e, d)
    ensures EmptyFrom(c, spawned, run, a, d) <==> NobodyJoins(run, a, d)
    ensures EmptyFrom(c, spawned, run, a, e) <==> NobodyJoins(run, a, e)
    ensures run[d].now >= run[a].now + c.gracePeriod
  {
    EmptyIffNobodyJoins(c, spawned, run, a, d);
    EmptyIffNobodyJoins(c, spawned, run, a, e);
  }

  /** The run's first steps, with the attempt that step 1 starts and step 2 arms. */
  const ARMED: seq<Moment> := [Moment(0, Touch("x")), Moment(0, Unregister("x")), Moment(0, RunTask(1))]

  /** For every grace period: the last client leaves and shutdown is signalled in the same instant. */
  function LeavesLate(c: Config): seq<Moment> {
    ARMED + [Moment(0, Touch("y")), Moment(c.gracePeriod, Unregister("y")),
                Moment(c.gracePeriod, RunTask(1)), Moment(c.gracePeriod, RunTask(1))]
  }

  /** For every grace period: shutdown is signalled while a client is there. */
  function JoinsLate(c: Config): seq<Moment> {
    ARMED + [Moment(c.gracePeriod, RunTask(1)), Moment(c.gracePeriod, Touch("y")), Moment(c.gracePeriod, RunTask(1))]
  }

  function Waiting(c: Config): Task {
    Sleeping(1, 2, c.gracePeriod)
  }

  lemma ArmedState(c: Config, run: seq<Moment>)
    requires |run| >= 3 && run[..3] == ARMED
    ensures Before(c, true, run, 3) == State(map[], 0, false, map[1 := Waiting(c)])
  {
    assert run[0] == run[..3][0] && run[1] == run[..3][1] && run[2] == run[..3][2];
    var s1 := State(map["x" := 0], 0, false, map[]);
    assert Before(c, true, run, 1) == s1;
    assert s1.clients - {"x"} == map[];
    assert Before(c, true, run, 2) == State(map[], 0, false, map[1 := Deciding(1)]);
    assert map[1 := Deciding(1)][1 := Waiting(c)] == map[1 := Waiting(c)];
  }

  lemma LastClientLeavesAtShutdown(c: Config)
    ensures var run := LeavesLate(c);
            && IsRun(run) && |run| == 7 && Emptied(c, true, run, 4) && run[4].now == run[6].now
            && Before(c, true, run, 7).shutdown && !Before(c, true, run, 6).shutdown
  {
    var run, g := LeavesLate(c), c.gracePeriod;
    assert run[..3] == ARMED;
    ArmedState(c, run);
    var t3 := map[1 := Waiting(c)];
    assert Before(c, true, run, 4) == State(map["y" := 0], 0, false, t3);
    assert map["y" := 0] - {"y"} == map[];
    var t5 := t3[4 := Deciding(4)];
    assert Before(c, true, run, 5) == State(map[], 0, false, t5);
    assert Before(c, true, run, 6) == State(map[], 0, false, t5[1 := Checked(1, 2, 5, true)]);
    WitnessesAreRuns(c);
  }

  lemma WitnessesAreRuns(c: Config)
    ensures IsRun(LeavesLate(c)) && IsRun(JoinsLate(c))
  {
  }

  lemma ShutdownWithAClient(c: Config)
    ensures var run := JoinsLate(c);
            && IsRun(run) && |run| == 6 && "y" in Before(c, true, run, 5).clients
            && Before(c, true, run, 6).shutdown && !Before(c, true, run, 5).shutdown
  {
    var run := JoinsLate(c);
    assert run[..3] == ARMED;
    ArmedState(c, run);
    var t4 := map[1 := Waiting(c)][1 := Checked(1, 2, 3, true)];
    assert Before(c, true, run, 4) == State(map[], 0, false, t4);
    assert Before(c, true, run, 5) == State(map["y" := c.gracePeriod], 0, false, t4);
    WitnessesAreRuns(c);
  }

  lemma StepKeepsShutdown(c: Config, spawned: bool, s: State, m: Moment, step: nat)
    requires s.shutdown
    ensures Step(c, spawned, s, m, step).shutdown
  {
    if m.event.RunTask? {
      TasksLeaveClients(c, s, m.event.id, m.now, step);
    }
  }

  /** Once signalled, shutdown stays signalled. */
  lemma {:induction false} ShutdownIsFinal(c: Config, spawned: bool, run: seq<Moment>, m: nat, n: nat)
    requires m <= n <= |run| && Before(c, spawned, run, m).shutdown
    ensures Before(c, spawned, run, n).shutdown
  {
    if m < n {
      ShutdownIsFinal(c, spawned, run, m, n - 1);
      StepKeepsShutdown(c, spawned, Before(c, spawned, run, n - 1), run[n - 1], n - 1);
    }
  }

  // ---------------------------------------------------------------- shutdown does come

  /** This attempt has not been passed over: time stands still until a runnable task runs, and timers expire on time. */
  predicate OnTime(run: seq<Moment>, t: Task, now: Time) {
    match t
    case Deciding(emptied) => emptied < |run| ==> now <= run[emptied].now
    case Sleeping(_, _, due) => now <= due
    case Checked(_, _, checked, _) => checked < |run| ==> now <= run[checked].now
  }

  ghost predicate Prompt(c: Config, spawned: bool, run: seq<Moment>) {
    forall j, id :: 0 <= j < |run| && id in Before(c, spawned, run, j).tasks ==>
      OnTime(run, Before(c, spawned, run, j).tasks[id], run[j].now)
  }

  /** A step that adds no client and does not change the connection count. */
  predicate Quiet(e: Event) {
    e.RunTask? || e.Cleanup? || e.Unregister? || e.Heartbeat?
  }

  /** The attempt started at step a is on its way, or shutdown has been signalled. */
  predicate UnderWay(c: Config, run: seq<Moment>, a: nat, s: State)
    requires a < |run|
  {
    && s.clients == map[] && s.count == 0
    && (s.shutdown || (a in s.tasks &&
          match s.tasks[a]
          case Deciding(emptied) => emptied == a
          case Sleeping(_, _, due) => due <= run[a].now + c.gracePeriod
          case Checked(_, _, checked, noClients) =>
            noClients && checked < |run| && run[checked].now <= run[a].now + c.gracePeriod))
  }

  lemma QuietStepKeepsUnderWay(c: Config, run: seq<Moment>, a: nat, s: State, j: nat)
    requires a < |run| && j < |run| && UnderWay(c, run, a, s) && Quiet(run[j].event)
    requires a in s.tasks ==> OnTime(run, s.tasks[a], run[j].now)
    ensures UnderWay(c, run, a, Step(c, true, s, run[j], j))
  {
    var s' := Step(c, true, s, run[j], j);
    if run[j].event.Cleanup? {
      assert Reap(s.clients, c.heartbeatTimeout, run[j].event.stamp) == map[];
    } else if run[j].event.RunTask? && run[j].event.id in s.tasks && run[j].event.id != a {
      assert a in s.tasks ==> a in s'.tasks && s'.tasks[a] == s.tasks[a];
    }
  }

  lemma EmptyingStartsAnAttempt(c: Config, run: seq<Moment>, a: nat)
    requires a < |run| && Emptied(c, true, run, a) && Before(c, true, run, a).count == 0
    ensures UnderWay(c, run, a, Before(c, true, run, a + 1))
  {
    var s, s' := Before(c, true, run, a), Before(c, true, run, a + 1);
    assert |s.clients| > |s'.clients|;
    assert s' == AfterRemoval(s, s'.clients, true, a);
  }

  lemma {:induction false} StaysUnderWay(c: Config, run: seq<Moment>, a: nat, n: nat)
    requires Prompt(c, true, run) && a < n <= |run| && Emptied(c, true, run, a) && Before(c, true, run, a).count == 0
    requires forall j :: a < j < n ==> Quiet(run[j].event)
    ensures UnderWay(c, run, a, Before(c, true, run, n))
  {
    if n == a + 1 {
      EmptyingStartsAnAttempt(c, run, a);
    } else {
      StaysUnderWay(c, run, a, n - 1);
      QuietStepKeepsUnderWay(c, run, a, Before(c, true, run, n - 1), n - 1);
    }
  }

  /** If the last client leaves while there are no connections, and nothing follows but background steps that run on
      time, shutdown is signalled by the time a grace period has passed. */
  lemma ShutdownFollows(c: Config, run: seq<Moment>, a: nat, n: nat)
    requires IsRun(run) && Prompt(c, true, run) && a < n < |run|
    requires Emptied(c, true, run, a) && Before(c, true, run, a).count == 0
    requires forall j :: a < j < n ==> Quiet(run[j].event)
    requires run[n].now > run[a].now + c.gracePeriod
    ensures Before(c, true, run, n).shutdown
  {
    StaysUnderWay(c, run, a, n);
    var s := Before(c, true, run, n);
    assert a in s.tasks ==> OnTime(run, s.tasks[a], run[n].now);
  }

  // ---------------------------------------------------------------- the tracker object

  class McpClientTracker {
    const config: Config
    const mcpSpawned: bool
    var clients: Clients
    var activeConnectionCount: nat
    var shutdown: bool

    constructor (mcpSpawned: bool, config: Config)
      ensures this.mcpSpawned == mcpSpawned && this.config == config
      ensures clients == map[] && activeConnectionCount == 0 && !shutdown
    {
      this.mcpSpawned, this.config := mcpSpawned, config;
      clients, activeConnectionCount, shutdown := map[], 0, false;
    }

    /** The fields, with the given tasks. */
    function Model(tasks: map<nat, Task>): State
      reads this
    {
      State(clients, activeConnectionCount, shutdown, tasks)
    }

    /** The id is a fresh UUID. */
    method RegisterClient(x: Client, stamp: Time)
      requires x !in clients
      modifies this`clients
      ensures forall ts, now, step ::
                Model(ts) == Step(config, mcpSpawned, old(Model(ts)), Moment(now, Register(x, stamp)), step)
    {
      clients := clients[x := stamp];
    }

    method RecordHeartbeat(x: Client, now: Time) returns (known: bool)
      modifies this`clients
      ensures known <==> x in old(clients)
      ensures forall ts, step :: Model(ts) == Step(config, mcpSpawned, old(Model(ts)), Moment(now, Heartbeat(x)), step)
    {
      known := x in clients;
      if known {
        clients := clients[x := now];
      }
    }

    method TouchClient(x: Client, now: Time)
      modifies this`clients
      ensures forall ts, step :: Model(ts) == Step(config, mcpSpawned, old(Model(ts)), Moment(now, Touch(x)), step)
    {
      if x in clients {
        clients := clients[x := now];
      } else {
        clients := clients[x := now];
      }
    }

    /** Returns whether a shutdown attempt starts. */
    method UnregisterClient(x: Client) returns (schedules: bool)
      modifies this`clients
      ensures forall ts, now, step :: Started(ts, step, schedules) ==
                Step(config, mcpSpawned, old(Model(ts)), Moment(now, Unregister(x)), step)
    {
      schedules := false;
      if x in clients {
        clients := clients - {x};
        if mcpSpawned && |clients| == 0 {
          schedules := true;
        }
      } else {
        assert clients - {x} == clients;
      }
    }

    /** The fields, with the given tasks and perhaps one that starts at this step. */
    function Started(tasks: map<nat, Task>, step: nat, schedules: bool): State
      reads this
    {
      Model(if schedules then tasks[step := Deciding(step)] else tasks)
    }

    /** Keep the clients that are not stale, one by one; returns whether a shutdown attempt starts. */
    method CleanupStale(stamp: Time) returns (schedules: bool)
      modifies this`clients
      ensures forall ts, now, step :: Started(ts, step, schedules) ==
                Step(config, mcpSpawned, old(Model(ts)), Moment(now, Cleanup(stamp)), step)
    {
      var beforeCount := |clients|;
      var todo := clients.Keys;
      while todo != {}
        invariant todo <= old(clients).Keys
        invariant forall x :: x in todo ==> x in clients && clients[x] == old(clients)[x]
        invariant forall x :: x in clients ==> x in old(clients) && clients[x] == old(clients)[x]
        invariant forall x :: x in old(clients) && x !in todo ==>
                    (x in clients <==> Elapsed(old(clients)[x], stamp) <= config.heartbeatTimeout)
      {
        var x :| x in todo;
        if Elapsed(clients[x], stamp) > config.heartbeatTimeout {
          clients := clients - {x};
        }
        todo := todo - {x};
      }
      assert clients == Reap(old(clients), config.heartbeatTimeout, stamp);
      schedules := beforeCount > |clients| && mcpSpawned && |clients| == 0;
    }

    method UpdateConnectionCount(n: nat)
      modifies this`activeConnectionCount
      ensures forall ts, now, step ::
                Model(ts) == Step(config, mcpSpawned, old(Model(ts)), Moment(now, SetCount(n)), step)
    {
      activeConnectionCount := n;
    }

    /** What is left of the attempts once attempt `id` has decided whether to arm its timer. */
    function Decided(ts: map<nat, Task>, id: nat, step: nat, due: Option<Time>): map<nat, Task>
      requires id in ts
    {
      if due.None? then ts - {id} else ts[id := Sleeping(ts[id].emptied, step, due.value)]
    }

    /** The decision to arm the timer: the time at which it expires, if it is armed. */
    method ScheduleShutdown(now: Time) returns (due: Option<Time>)
      ensures due.Some? ==> mcpSpawned
      ensures mcpSpawned ==> forall ts: map<nat, Task>, id, step :: id in ts && ts[id].Deciding? ==>
                Model(Decided(ts, id, step, due)) == RunTaskStep(config, Model(ts), id, now, step)
    {
      if !mcpSpawned {
        return None;
      }
      if activeConnectionCount > 0 {
        return None;
      }
      return Some(now + config.gracePeriod);
    }

    /** The end of an expired timer, which found the map empty or not. */
    method SignalShutdown(noClients: bool)
      modifies this`shutdown
      ensures forall ts: map<nat, Task>, id, now, step ::
                id in ts && ts[id].Checked? && ts[id].noClients == noClients ==>
                  Model(ts - {id}) == RunTaskStep(config, old(Model(ts)), id, now, step)
    {
      var noConnections := activeConnectionCount == 0;
      if noClients && noConnections {
        shutdown := true;
      }
    }
  }
}
