/** The agent's reconnect loop: how long it waits after each session, and when it stops. */
module Backoff {
  newtype u64 = x: int | 0 <= x < 0x1_0000_0000_0000_0000

  const U64_MAX: nat := 0xFFFF_FFFF_FFFF_FFFF
  const HALF: nat := U64_MAX / 2

  /** How a session ended. */
  datatype Outcome = Clean | Lost | Fatal

  function Pow2(n: nat): nat {
    if n == 0 then 1 else 2 * Pow2(n - 1)
  }

  function Min(a: nat, b: nat): nat {
    if a < b then a else b
  }

  /** Sessions since the last clean end, or since the start. */
  function Since(outcomes: seq<Outcome>, i: nat): nat
    requires i < |outcomes|
  {
    if i == 0 || outcomes[i] == Clean then 0 else Since(outcomes, i - 1) + 1
  }

  /** The wait after the session that is j sessions past the last clean end. */
  function Wait(base: nat, max: nat, j: nat): nat {
    if j == 0 then base else Min(base * Pow2(j), max)
  }

  lemma WaitDoubles(base: nat, max: nat, j: nat)
    ensures Wait(base, max, j + 1) == Min(2 * Wait(base, max, j), max)
  {
    assert base * Pow2(j + 1) == 2 * (base * Pow2(j));
    if j == 0 {
      assert base * Pow2(0) == base;
    }
  }

  lemma Pow2Of64()
    ensures Pow2(64) == U64_MAX + 1
  {
    assert Pow2(8) == 0x100 by { assert Pow2(4) == 16; }
    assert Pow2(16) == 0x1_0000 by { assert Pow2(12) == 0x1000; }
    assert Pow2(32) == 0x1_0000_0000 by {
      assert Pow2(20) == 0x10_0000; assert Pow2(24) == 0x100_0000; assert Pow2(28) == 0x1000_0000;
    }
    assert Pow2(48) == 0x1_0000_0000_0000 by {
      assert Pow2(36) == 0x10_0000_0000; assert Pow2(40) == 0x100_0000_0000; assert Pow2(44) == 0x1000_0000_0000;
    }
    assert Pow2(64) == 0x1_0000_0000_0000_0000 by {
      assert Pow2(52) == 0x10_0000_0000_0000; assert Pow2(56) == 0x100_0000_0000_0000;
      assert Pow2(60) == 0x1000_0000_0000_0000;
    }
  }

  /** The settings for which doubling never overflows. */
  predicate Safe(base: nat, max: nat) {
    base == 0 || (base <= HALF && max <= HALF)
  }

  /** No wait overflows when doubled, in any run, if and only if the settings are safe. */
  lemma OverflowFreeIffSafe(base: nat, max: nat)
    requires base <= U64_MAX && max <= U64_MAX
    ensures (forall j: nat :: 2 * Wait(base, max, j) <= U64_MAX) <==> Safe(base, max)
  {
    if Safe(base, max) {
      forall j: nat ensures 2 * Wait(base, max, j) <= U64_MAX {
        assert base == 0 ==> base * Pow2(j) == 0;
      }
    } else {
      Pow2Of64();
      assert Wait(base, max, 0) == base;
      assert base >= 1 ==> base * Pow2(64) >= Pow2(64);
      assert base >= 1 ==> Wait(base, max, 64) == max;
    }
  }

  /** With a base not above the maximum, no wait is above the maximum, and waits grow until a clean end. */
  lemma WaitIsBounded(base: nat, max: nat, j: nat)
    requires base <= max
    ensures Wait(base, max, j) == Min(base * Pow2(j), max) <= max
    ensures Wait(base, max, j) <= Wait(base, max, j + 1)
  {
    assert base * Pow2(0) == base;
    WaitDoubles(base, max, j);
  }

  // ---------------------------------------------------------------- with and without overflow checks

  /** Doubling as 64 bits hold it. */
  function Doubled(w: nat): nat {
    if w <= HALF then 2 * w else 2 * w - (U64_MAX + 1)
  }

  /** The wait in a build without overflow checks, where doubling wraps around. */
  function WrappedWait(base: nat, max: nat, j: nat): nat {
    if j == 0 then base else Min(Doubled(WrappedWait(base, max, j - 1)), max)
  }

  /** The settings for which wrapping is not seen: either nothing wraps, or only the base does, and stays above max. */
  predicate Unseen(base: nat, max: nat) {
    base == 0 || (max <= HALF && (base <= HALF || 2 * base - (U64_MAX + 1) >= max))
  }

  lemma DoubledWraps(w: nat)
    requires w <= U64_MAX
    ensures Doubled(w) == 2 * w % (U64_MAX + 1)
  {
  }

  lemma {:induction false} UnseenIsClosed(base: nat, max: nat, j: nat)
    requires base <= U64_MAX && Unseen(base, max)
    ensures WrappedWait(base, max, j) == Wait(base, max, j)
  {
    if j > 0 {
      UnseenIsClosed(base, max, j - 1);
      WaitDoubles(base, max, j - 1);
      assert base == 0 ==> base * Pow2(j - 1) == 0;
    }
  }

  lemma SeenIsNotClosed(base: nat, max: nat) returns (j: nat)
    requires base <= U64_MAX && max <= U64_MAX && !Unseen(base, max)
    ensures WrappedWait(base, max, j) != Wait(base, max, j)
  {
    if max <= HALF {
      j := 1;
      WaitDoubles(base, max, 0);
    } else {
      Pow2Of64();
      assert base * Pow2(64) >= Pow2(64);
      assert Wait(base, max, 64) == max;
      WaitDoubles(base, max, 64);
      j := if WrappedWait(base, max, 64) == max then 65 else 64;
    }
  }

  /** In a build without overflow checks the waits follow the closed form, in every run, if and only if wrapping is not
      seen; for a base that validation accepts, that is when doubling never overflows. */
  lemma ClosedFormIffUnseen(base: nat, max: nat)
    requires base <= U64_MAX && max <= U64_MAX
    ensures (forall j: nat :: WrappedWait(base, max, j) == Wait(base, max, j)) <==> Unseen(base, max)
    ensures base <= max ==> (Unseen(base, max) <==> Safe(base, max))
  {
    if Unseen(base, max) {
      forall j: nat ensures WrappedWait(base, max, j) == Wait(base, max, j) {
        UnseenIsClosed(base, max, j);
      }
    } else {
      var j := SeenIsNotClosed(base, max);
    }
  }

  // ---------------------------------------------------------------- the loop

  /** Still going after the given sessions, stopped by a fatal end, or stopped by an overflow check. */
  datatype End = Going | Stopped | Overflowed

  predicate Overflows(w: u64) {
    w as nat > HALF
  }

  ghost predicate EndsAs(outcomes: seq<Outcome>, checks: bool, waits: seq<u64>, end: End) {
    && |waits| <= |outcomes| && (forall i :: 0 <= i < |waits| ==> outcomes[i] != Fatal)
    && (checks ==> forall i :: 0 <= i < |waits| - 1 ==> !Overflows(waits[i]))
    && (end == Going ==> |waits| == |outcomes|)
    && (end == Stopped <==> |waits| < |outcomes| && outcomes[|waits|] == Fatal && end != Overflowed)
    && (end == Overflowed <==> checks && |waits| > 0 && Overflows(waits[|waits| - 1]))
  }

  /** The loop over the first sessions of a run, for any settings: the waits, and how it stands afterwards. It leaves
      only on a fatal end or, in a build with overflow checks, when a wait cannot be doubled. */
  method Run(base: u64, max: u64, outcomes: seq<Outcome>, checks: bool) returns (waits: seq<u64>, end: End)
    ensures EndsAs(outcomes, checks, waits, end)
    ensures forall i {:trigger waits[i]} :: 0 <= i < |waits| ==>
              waits[i] as nat == WrappedWait(base as nat, max as nat, Since(outcomes, i))
  {
    var reconnectSecs := base;
    ghost var j := 0;
    waits, end := [], Going;
    for i := 0 to |outcomes|
      invariant |waits| == i && forall k :: 0 <= k < i ==> outcomes[k] != Fatal
      invariant checks ==> forall k :: 0 <= k < i ==> !Overflows(waits[k])
      invariant forall k {:trigger waits[k]} :: 0 <= k < i ==>
                  waits[k] as nat == WrappedWait(base as nat, max as nat, Since(outcomes, k))
      invariant j == if i == 0 then 0 else Since(outcomes, i - 1) + 1
      invariant reconnectSecs as nat == WrappedWait(base as nat, max as nat, j)
    {
      match outcomes[i] {
        case Clean =>
          reconnectSecs, j := base, 0;
        case Lost =>
        case Fatal =>
          end := Stopped;
          return;
      }
      assert j == Since(outcomes, i);
      waits := waits + [reconnectSecs];
      if checks && Overflows(reconnectSecs) {
        end := Overflowed;
        return;
      }
      reconnectSecs, j := DoubleUpTo(reconnectSecs, max), j + 1;
    }
  }

  function DoubleUpTo(w: u64, max: u64): (r: u64)
    ensures r as nat == Min(Doubled(w as nat), max as nat)
  {
    var doubled := WrappingDouble(w);
    if doubled < max then doubled else max
  }

  function WrappingDouble(w: u64): (r: u64)
    ensures r as nat == Doubled(w as nat) == 2 * w as nat % (U64_MAX + 1)
  {
    DoubledWraps(w as nat);
    if w as nat <= HALF then w * 2 else (2 * w as nat - (U64_MAX + 1)) as u64
  }

  /** With settings for which wrapping is not seen, every wait of the loop is the closed form; and with settings for
      which doubling never overflows, no overflow check ends it. */
  lemma LoopFollowsClosedForm(base: u64, max: u64, outcomes: seq<Outcome>, checks: bool, waits: seq<u64>, end: End)
    requires EndsAs(outcomes, checks, waits, end)
    requires forall i {:trigger waits[i]} :: 0 <= i < |waits| ==>
               waits[i] as nat == WrappedWait(base as nat, max as nat, Since(outcomes, i))
    ensures Unseen(base as nat, max as nat) ==>
              forall i :: 0 <= i < |waits| ==> waits[i] as nat == Wait(base as nat, max as nat, Since(outcomes, i))
    ensures Safe(base as nat, max as nat) ==> end != Overflowed
  {
    if Unseen(base as nat, max as nat) {
      forall i | 0 <= i < |waits| ensures waits[i] as nat == Wait(base as nat, max as nat, Since(outcomes, i)) {
        UnseenIsClosed(base as nat, max as nat, Since(outcomes, i));
      }
    }
    if Safe(base as nat, max as nat) && |waits| > 0 {
      OverflowFreeIffSafe(base as nat, max as nat);
      var j := Since(outcomes, |waits| - 1);
      assert 2 * Wait(base as nat, max as nat, j) <= U64_MAX;
    }
  }
}
