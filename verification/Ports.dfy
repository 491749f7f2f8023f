/**
  Test port allocation: three 16-bit counters that hand out windows of ten ports and wrap around the circle of 65536
  ports. Whether a port can be bound is an input; the probes of one request may be answered at any time.
*/
module Ports {
  const CIRCLE: nat := 65536
  const WINDOW: nat := 10

  newtype u16 = x: int | 0 <= x < 0x1_0000

  datatype Kind = Any | Http | Grpc

  /** Where the counters start, before the offset of the process. */
  function Start(kind: Kind): nat {
    match kind
    case Any => 5000
    case Http => 8000
    case Grpc => 50000
  }

  /** How many ports of each kind are sure to be distinct. */
  function Limit(kind: Kind): nat {
    match kind
    case Any => 300
    case Http => 4200
    case Grpc => 2053
  }

  function Offset(seed: nat): nat {
    seed % 1000 * 10
  }

  function Wrap(x: int): int {
    x % CIRCLE
  }

  /** One request, with the answers its probes would get. */
  datatype Request = Request(kind: Kind, available: seq<bool>)

  /** The first available port of a window, counted from its base; the base itself when none is. */
  function First(available: seq<bool>, from: nat): nat
    decreases |available| - from
  {
    if from >= |available| then 0 else if available[from] then from else First(available, from + 1)
  }

  lemma {:induction false} FirstInWindow(available: seq<bool>, from: nat)
    requires 0 < |available| && from <= |available|
    ensures First(available, from) < |available|
    decreases |available| - from
  {
    if from < |available| && !available[from] {
      FirstInWindow(available, from + 1);
    }
  }

  // ---------------------------------------------------------------- the allocator

  class TestPortAllocator {
    var httpCounter: u16
    var grpcCounter: u16
    var generalCounter: u16

    constructor (seed: nat)
      ensures forall k: Kind :: Counter(k) as int == Start(k) + Offset(seed)
    {
      var offset := (seed % 1000) as u16 * 10;
      httpCounter := 8000 + offset;
      grpcCounter := 50000 + offset;
      generalCounter := 5000 + offset;
    }

    function Counter(kind: Kind): u16
      reads this
    {
      match kind
      case Any => generalCounter
      case Http => httpCounter
      case Grpc => grpcCounter
    }

    /** Takes the next window of a counter and returns its first available port. */
    method Allocate(kind: Kind, available: seq<bool>) returns (port: u16)
      requires |available| == WINDOW
      modifies this
      ensures port as int == Wrap(old(Counter(kind)) as int + First(available, 0))
      ensures Counter(kind) as int == Wrap(old(Counter(kind)) as int + WINDOW)
      ensures forall k: Kind :: k != kind ==> Counter(k) == old(Counter(k))
    {
      var base: u16 := 0;
      match kind {
        case Any => base := generalCounter; generalCounter := WrappingAdd(generalCounter, 10);
        case Http => base := httpCounter; httpCounter := WrappingAdd(httpCounter, 10);
        case Grpc => base := grpcCounter; grpcCounter := WrappingAdd(grpcCounter, 10);
      }
      port := FindAvailablePortFrom(base, available);
    }
  }

  function WrappingAdd(a: u16, b: u16): (r: u16)
    ensures r as int == Wrap(a as int + b as int)
  {
    if a as int + b as int < CIRCLE then a + b else (a as int + b as int - CIRCLE) as u16
  }

  method FindAvailablePortFrom(base: u16, available: seq<bool>) returns (port: u16)
    requires |available| == WINDOW
    ensures port as int == Wrap(base as int + First(available, 0))
  {
    for offset := 0 to WINDOW
      invariant First(available, 0) == First(available, offset)
    {
      if available[offset] {
        return WrappingAdd(base, offset as u16);
      }
    }
    return base;
  }

  // ---------------------------------------------------------------- any sequence of requests

  /** How many of the first i requests are of a kind. */
  function Count(requests: seq<Request>, kind: Kind, i: nat): nat
    requires i <= |requests|
  {
    if i == 0 then 0 else Count(requests, kind, i - 1) + if requests[i - 1].kind == kind then 1 else 0
  }

  /** A counter after n windows. */
  function CounterAfter(seed: nat, kind: Kind, n: nat): int {
    if n == 0 then Start(kind) + Offset(seed) else Wrap(CounterAfter(seed, kind, n - 1) + WINDOW)
  }

  /** The port that request i gets, whatever the interleaving of the kinds. */
  function Port(seed: nat, requests: seq<Request>, i: nat): int
    requires i < |requests|
  {
    var q := requests[i];
    Wrap(CounterAfter(seed, q.kind, Count(requests, q.kind, i)) + First(q.available, 0))
  }

  /** Runs the requests one after the other, in the order in which they take their windows. */
  method AllocateAll(seed: nat, requests: seq<Request>) returns (ports: seq<int>)
    requires forall i :: 0 <= i < |requests| ==> |requests[i].available| == WINDOW
    ensures |ports| == |requests| && forall i :: 0 <= i < |ports| ==> ports[i] == Port(seed, requests, i)
  {
    var allocator := new TestPortAllocator(seed);
    ports := [];
    for i := 0 to |requests|
      invariant |ports| == i && forall j :: 0 <= j < i ==> ports[j] == Port(seed, requests, j)
      invariant fresh(allocator)
      invariant forall k: Kind :: allocator.Counter(k) as int == CounterAfter(seed, k, Count(requests, k, i))
    {
      var q := requests[i];
      var port := allocator.Allocate(q.kind, q.available);
      assert port as int == Port(seed, requests, i);
      ports := ports + [port as int];
    }
  }

  // ---------------------------------------------------------------- distinct ports

  lemma WrapTwice(a: int, b: int)
    ensures Wrap(Wrap(a) + b) == Wrap(a + b)
  {
  }

  lemma {:induction false} CounterIsLinear(seed: nat, kind: Kind, n: nat)
    ensures CounterAfter(seed, kind, n) == Wrap(Start(kind) + Offset(seed) + WINDOW * n)
  {
    if n > 0 {
      CounterIsLinear(seed, kind, n - 1);
      WrapTwice(Start(kind) + Offset(seed) + WINDOW * (n - 1), WINDOW);
    }
  }

  /** The windows are numbered once around the circle: 300 general ones, then 4200 for HTTP, then 2053 for gRPC. */
  function Slot(kind: Kind, n: nat): nat {
    match kind
    case Any => n
    case Http => 300 + n
    case Grpc => 4500 + n
  }

  lemma {:induction false} CountGrows(requests: seq<Request>, kind: Kind, i: nat, j: nat)
    requires i <= j <= |requests|
    ensures Count(requests, kind, i) <= Count(requests, kind, j)
  {
    if i < j {
      CountGrows(requests, kind, i, j - 1);
    }
  }

  function SlotOf(requests: seq<Request>, i: nat): nat
    requires i < |requests|
  {
    Slot(requests[i].kind, Count(requests, requests[i].kind, i))
  }

  ghost predicate WithinLimits(requests: seq<Request>) {
    forall kind: Kind :: Count(requests, kind, |requests|) <= Limit(kind)
  }

  lemma SlotsDiffer(requests: seq<Request>, i: nat, j: nat)
    requires i < j < |requests| && WithinLimits(requests)
    ensures SlotOf(requests, i) != SlotOf(requests, j) && SlotOf(requests, i) < 6553 && SlotOf(requests, j) < 6553
  {
    var a, b := requests[i].kind, requests[j].kind;
    CountGrows(requests, a, i + 1, |requests|);
    CountGrows(requests, b, j + 1, |requests|);
    CountGrows(requests, a, i + 1, j);
    assert Count(requests, a, |requests|) <= Limit(a) && Count(requests, b, |requests|) <= Limit(b);
  }

  /** A port's distance from the first general port, around the circle. */
  lemma PortPosition(seed: nat, requests: seq<Request>, i: nat)
    requires i < |requests| && |requests[i].available| == WINDOW
    ensures var d := First(requests[i].available, 0);
            d < WINDOW && Port(seed, requests, i) == Wrap(5000 + Offset(seed) + WINDOW * SlotOf(requests, i) + d)
  {
    var q := requests[i];
    var n, d := Count(requests, q.kind, i), First(q.available, 0);
    FirstInWindow(q.available, 0);
    CounterIsLinear(seed, q.kind, n);
    WrapTwice(Start(q.kind) + Offset(seed) + WINDOW * n, d);
    assert Start(q.kind) + WINDOW * n == 5000 + WINDOW * Slot(q.kind, n);
  }

  lemma WrapIsInjective(origin: int, a: int, b: int)
    requires 0 <= a < CIRCLE && 0 <= b < CIRCLE && Wrap(origin + a) == Wrap(origin + b)
    ensures a == b
  {
  }

  /** For every seed, interleaving and pattern of busy ports, the first 300 general, 4200 HTTP and 2053 gRPC ports are
      pairwise distinct. */
  lemma PortsAreDistinct(seed: nat, requests: seq<Request>, i: nat, j: nat)
    requires i < j < |requests| && WithinLimits(requests)
    requires forall k :: 0 <= k < |requests| ==> |requests[k].available| == WINDOW
    ensures Port(seed, requests, i) != Port(seed, requests, j)
  {
    SlotsDiffer(requests, i, j);
    PortPosition(seed, requests, i);
    PortPosition(seed, requests, j);
    var a := WINDOW * SlotOf(requests, i) + First(requests[i].available, 0);
    var b := WINDOW * SlotOf(requests, j) + First(requests[j].available, 0);
    if Port(seed, requests, i) == Port(seed, requests, j) {
      WrapIsInjective(5000 + Offset(seed), a, b);
    }
  }

  // ---------------------------------------------------------------- the limits are tight

  const FREE: seq<bool> := [true, true, true, true, true, true, true, true, true, true]

  /** Six ports are left over between the last gRPC window and the first general one. */
  const SIX_BUSY: seq<bool> := [false, false, false, false, false, false, true, true, true, true]

  /** The kind whose first window comes after the last sure window of this kind. */
  function Following(kind: Kind): Kind {
    match kind
    case Any => Http
    case Http => Grpc
    case Grpc => Any
  }

  /** One request of the following kind, then one more of this kind than its limit. */
  function OneTooMany(kind: Kind): seq<Request> {
    [Request(Following(kind), FREE)] + seq(Limit(kind), _ => Request(kind, FREE))
    + [Request(kind, if kind == Grpc then SIX_BUSY else FREE)]
  }

  lemma {:induction false} CountTooMany(kind: Kind, i: nat)
    requires 1 <= i <= |OneTooMany(kind)|
    ensures forall k: Kind ::
              Count(OneTooMany(kind), k, i) == if k == kind then i - 1 else if k == Following(kind) then 1 else 0
  {
    var requests := OneTooMany(kind);
    assert requests[i - 1].kind == if i == 1 then Following(kind) else kind;
    if i > 1 {
      CountTooMany(kind, i - 1);
    } else {
      assert forall k: Kind :: Count(requests, k, 0) == 0;
    }
  }

  lemma FirstOfSixBusy()
    ensures First(SIX_BUSY, 0) == 6 && First(FREE, 0) == 0
  {
    assert First(SIX_BUSY, 2) == First(SIX_BUSY, 4);
    assert First(SIX_BUSY, 4) == First(SIX_BUSY, 6);
  }

  lemma WindowsMeet(seed: nat, kind: Kind)
    ensures Wrap(CounterAfter(seed, kind, Limit(kind)) + if kind == Grpc then 6 else 0) ==
            CounterAfter(seed, Following(kind), 0)
  {
    CounterIsLinear(seed, kind, Limit(kind));
  }

  /** No limit can be raised: for every seed and kind, one request more than the limit of that kind, with the others
      within theirs, can get a port that was handed out before. */
  lemma LimitsAreTight(seed: nat, kind: Kind) returns (requests: seq<Request>, i: nat, j: nat)
    ensures forall n :: 0 <= n < |requests| ==> |requests[n].available| == WINDOW
    ensures forall k: Kind :: Count(requests, k, |requests|) <= Limit(k) + if k == kind then 1 else 0
    ensures i < j < |requests| && Port(seed, requests, i) == Port(seed, requests, j)
  {
    requests, i, j := OneTooMany(kind), 0, Limit(kind) + 1;
    CountTooMany(kind, |requests|);
    CountTooMany(kind, j);
    FirstOfSixBusy();
    WindowsMeet(seed, kind);
    assert Count(requests, Following(kind), 0) == 0 && Count(requests, kind, j) == Limit(kind);
    assert requests[j].kind == kind && requests[0] == Request(Following(kind), FREE);
  }
}
