/** Paths of a step relation, and a measure for bringing every one of a finite number of calls to its end. */
module Paths {
  ghost predicate IsPath<S(!new)>(next: (S, S) -> bool, path: seq<S>) {
    |path| > 0 && forall i :: 0 <= i < |path| - 1 ==> next(path[i], path[i + 1])
  }

  ghost predicate Leads<S(!new)>(next: (S, S) -> bool, from: S, s: S) {
    exists path :: IsPath(next, path) && path[0] == from && path[|path| - 1] == s
  }

  lemma Stay<S(!new)>(next: (S, S) -> bool, s: S)
    ensures Leads(next, s, s)
  {
    assert IsPath(next, [s]);
  }

  lemma Extend<S(!new)>(next: (S, S) -> bool, from: S, s: S, s': S)
    requires Leads(next, from, s) && next(s, s')
    ensures Leads(next, from, s')
  {
    var path :| IsPath(next, path) && path[0] == from && path[|path| - 1] == s;
    var path' := path + [s'];
    forall i | 0 <= i < |path'| - 1 ensures next(path'[i], path'[i + 1]) {
      assert i < |path| - 1 ==> next(path[i], path[i + 1]);
    }
    assert IsPath(next, path');
  }

  /** The sum of the ranks of the calls below n. */
  function Total(ranks: map<nat, nat>, n: nat): nat {
    if n == 0 then 0 else Total(ranks, n - 1) + if n - 1 in ranks then ranks[n - 1] else 0
  }

  lemma {:induction false} TotalDrops(ranks: map<nat, nat>, c: nat, r: nat, n: nat)
    requires c in ranks
    ensures Total(ranks[c := r], n) == Total(ranks, n) + if c < n then r - ranks[c] else 0
  {
    if n > 0 {
      TotalDrops(ranks, c, r, n - 1);
    }
  }

  lemma {:induction false} Below(calls: set<nat>) returns (n: nat)
    ensures forall c :: c in calls ==> c < n
  {
    if calls == {} {
      n := 0;
    } else {
      var c :| c in calls;
      var m := Below(calls - {c});
      n := if m <= c then c + 1 else m;
      assert forall d :: d in calls ==> d == c || d in calls - {c};
    }
  }
}
