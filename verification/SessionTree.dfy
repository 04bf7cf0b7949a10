/** Resetting a session (bot/opencode_generator.go, lines 448-500 and 614-640): the walk over
    the child listings, which may share children or run in cycles, and what it drives. */
module SessionTree {

  datatype Listing = Children(ids: seq<string>) | ListingFailed

  /** What the server answers for each session; one it does not know has no children. */
  type Graph = map<string, Listing>

  predicate Lists(g: Graph, a: string, b: string) {
    a in g && g[a].Children? && b in g[a].ids
  }

  predicate Fails(g: Graph, a: string) {
    a in g && g[a].ListingFailed?
  }

  ghost predicate Distinct(ids: seq<string>) {
    forall i, j | 0 <= i < j < |ids| :: ids[i] != ids[j]
  }

  ghost predicate ListedBefore(g: Graph, ids: seq<string>, i: nat)
    requires i < |ids|
  {
    exists j | 0 <= j < i :: Lists(g, ids[j], ids[i])
  }

  /** Everything the visited session `a` lists has been visited. */
  ghost predicate Closed(g: Graph, seen: set<string>, a: string) {
    forall b :: Lists(g, a, b) ==> b in seen
  }

  function SetOf(ids: seq<string>): set<string> {
    set x | x in ids
  }

  /** `ids` is a walk from `root` that avoids `before`. */
  ghost predicate IsWalk(g: Graph, root: string, before: set<string>, ids: seq<string>, failed: bool) {
    && (if root in before then ids == [] else ids != [] && ids[0] == root)
    && Distinct(ids) && SetOf(ids) !! before
    && (forall i | 0 < i < |ids| :: ListedBefore(g, ids, i))
    && (failed <==> exists a :: a in ids && Fails(g, a))
    && (!failed ==> forall a :: a in ids ==> Closed(g, before + SetOf(ids), a))
  }

  function Kids(g: Graph, a: string): seq<string> {
    if a in g && g[a].Children? then g[a].ids else []
  }

  /** What a walk finds: the ids in order, the sessions seen by then, and whether it was cut
      short by a listing that failed. */
  datatype Found = Found(ids: seq<string>, seen: set<string>, failed: bool)

  function After(ids: seq<string>, r: Found): Found {
    r.(ids := ids + r.ids)
  }

  /** The walk, depth first and in the order of the listings. */
  function Walk(g: Graph, root: string, seen: set<string>): (r: Found)
    ensures seen <= r.seen
    decreases |g.Keys - seen|, 0
  {
    if root in seen then Found([], seen, false)
    else if root !in g || g[root].ListingFailed? then Found([root], seen + {root}, Fails(g, root))
    else
      SmallerSet(g.Keys, seen, seen + {root}, root);
      After([root], WalkAll(g, Kids(g, root), seen + {root}))
  }

  function WalkAll(g: Graph, children: seq<string>, seen: set<string>): (r: Found)
    ensures seen <= r.seen
    decreases |g.Keys - seen|, 1 + |children|
  {
    if children == [] then Found([], seen, false)
    else
      var first := Walk(g, children[0], seen);
      if first.failed then first
      else
        SubsetSize(g.Keys - first.seen, g.Keys - seen);
        After(first.ids, WalkAll(g, children[1..], first.seen))
  }

  class TreeWalk {
    const graph: Graph
    var seen: set<string>

    constructor (g: Graph)
      ensures graph == g && seen == {}
    {
      graph, seen := g, {};
    }

    method Collect(root: string) returns (ids: seq<string>, failed: bool)
      modifies this
      ensures Found(ids, seen, failed) == Walk(graph, root, old(seen))
      decreases |graph.Keys - seen|
    {
      if root in seen {
        return [], false;
      }
      ghost var before := seen;
      seen := seen + {root};
      ids := [root];
      if Fails(graph, root) {
        return ids, true;
      }
      var children := if root in graph then graph[root].ids else [];
      for i := 0 to |children|
        invariant before + {root} <= seen
        invariant Walk(graph, root, before) == After(ids, WalkAll(graph, children[i..], seen))
      {
        SmallerSet(graph.Keys, before, seen, root);
        assert children[i..][0] == children[i] && children[i..][1..] == children[i + 1..];
        ghost var now := seen;
        var more, childFailed := Collect(children[i]);
        WalkAllStep(graph, children[i..], now, ids);
        ids := ids + more;
        if childFailed {
          return ids, true;
        }
      }
      return ids, false;
    }
  }

  lemma WalkAllStep(g: Graph, children: seq<string>, seen: set<string>, ids: seq<string>)
    requires children != []
    ensures var first := Walk(g, children[0], seen);
            After(ids, WalkAll(g, children, seen)) ==
            if first.failed then After(ids, first) else After(ids + first.ids, WalkAll(g, children[1..], first.seen))
  {
    var first := Walk(g, children[0], seen);
    if !first.failed {
      var rest := WalkAll(g, children[1..], first.seen);
      assert ids + (first.ids + rest.ids) == ids + first.ids + rest.ids;
    }
  }

  /** A walk from `root` of whose children only `done` have been walked. */
  ghost predicate IsPartialWalk(g: Graph, root: string, before: set<string>, ids: seq<string>, done: seq<string>) {
    && root !in before && ids != [] && ids[0] == root
    && Distinct(ids) && SetOf(ids) !! before
    && (forall i | 0 < i < |ids| :: ListedBefore(g, ids, i))
    && (forall a :: a in ids ==> !Fails(g, a))
    && (forall a :: a in ids && a != root ==> Closed(g, before + SetOf(ids), a))
    && (forall c :: c in done ==> c in before + SetOf(ids))
  }

  lemma SmallerSet(keys: set<string>, before: set<string>, seen: set<string>, root: string)
    requires root in keys && root !in before && before + {root} <= seen
    ensures |keys - seen| < |keys - before|
  {
    SubsetSize(keys - seen, keys - before - {root});
  }

  lemma SetOfAppend(a: seq<string>, b: seq<string>)
    ensures SetOf(a + b) == SetOf(a) + SetOf(b)
  {
  }

  lemma StartWalk(g: Graph, root: string, before: set<string>)
    ensures SetOf([]) == {} && SetOf([root]) == {root}
    ensures root in before ==> IsWalk(g, root, before, [], false)
    ensures root !in before && Fails(g, root) ==> IsWalk(g, root, before, [root], true)
    ensures root !in before && !Fails(g, root) ==> IsPartialWalk(g, root, before, [root], [])
  {
  }

  lemma EndWalk(g: Graph, root: string, before: set<string>, ids: seq<string>, children: seq<string>)
    requires IsPartialWalk(g, root, before, ids, children)
    requires children == Kids(g, root)
    ensures IsWalk(g, root, before, ids, false)
  {
    assert Closed(g, before + SetOf(ids), root);
  }

  lemma {:induction false} SubsetSize(a: set<string>, b: set<string>)
    requires a <= b
    ensures |a| <= |b|
  {
    if a != {} {
      var x :| x in a;
      SubsetSize(a - {x}, b - {x});
    }
  }

  lemma ExtendWalk(
    g: Graph, root: string, before: set<string>, ids: seq<string>, done: seq<string>,
    child: string, more: seq<string>, failed: bool)
    requires IsPartialWalk(g, root, before, ids, done)
    requires Lists(g, root, child) && IsWalk(g, child, before + SetOf(ids), more, failed)
    ensures !failed ==> IsPartialWalk(g, root, before, ids + more, done + [child])
    ensures failed ==> IsWalk(g, root, before, ids + more, true)
  {
    var all := ids + more;
    SetOfAppend(ids, more);
    assert forall a :: a in all <==> a in ids || a in more;
    forall i, j | 0 <= i < j < |all| ensures all[i] != all[j] {
      assert all[i] in SetOf(ids) || all[i] in SetOf(more);
      if i < |ids| <= j { assert all[i] in SetOf(ids) && all[j] in SetOf(more); }
    }
    if failed {
      var a :| a in more && Fails(g, a);
      assert a in all;
    }
    forall i | 0 < i < |all| ensures ListedBefore(g, all, i) {
      if i < |ids| {
        assert ListedBefore(g, ids, i);
        var j :| 0 <= j < i && Lists(g, ids[j], ids[i]);
        assert all[j] == ids[j];
      } else if i == |ids| {
        assert all[0] == root && all[i] == more[0] == child;
      } else {
        assert ListedBefore(g, more, i - |ids|);
        var j :| 0 <= j < i - |ids| && Lists(g, more[j], more[i - |ids|]);
        assert all[j + |ids|] == more[j];
      }
    }
  }

  /** Whatever the walk finds is a walk, and what it has seen is what it found. */
  lemma {:induction false} WalkIsWalk(g: Graph, root: string, seen: set<string>)
    ensures var r := Walk(g, root, seen);
            IsWalk(g, root, seen, r.ids, r.failed) && r.seen == seen + SetOf(r.ids)
    decreases |g.Keys - seen|, 0
  {
    hide IsWalk, IsPartialWalk, SetOf;
    StartWalk(g, root, seen);
    if root !in seen && root in g && g[root].Children? {
      SmallerSet(g.Keys, seen, seen + {root}, root);
      WalkAllExtends(g, root, seen, seen + {root}, [root], [], Kids(g, root));
      assert [] + Kids(g, root) == Kids(g, root);
      var r := WalkAll(g, Kids(g, root), seen + {root});
      if !r.failed { EndWalk(g, root, seen, [root] + r.ids, Kids(g, root)); }
    } else if root !in seen && root !in g {
      EndWalk(g, root, seen, [root], []);
    }
  }

  lemma {:induction false} WalkAllExtends(
    g: Graph, root: string, before: set<string>, seen: set<string>, ids: seq<string>,
    done: seq<string>, children: seq<string>)
    requires IsPartialWalk(g, root, before, ids, done) && seen == before + SetOf(ids)
    requires forall c :: c in children ==> Lists(g, root, c)
    ensures var r := WalkAll(g, children, seen);
            && r.seen == before + SetOf(ids + r.ids)
            && if r.failed then IsWalk(g, root, before, ids + r.ids, true)
               else IsPartialWalk(g, root, before, ids + r.ids, done + children)
    decreases |g.Keys - seen|, 1 + |children|
  {
    hide IsWalk, IsPartialWalk, SetOf, Lists, Walk, WalkAll;
    WalkAllCons(g, children, seen);
    if children == [] {
      assert ids + [] == ids && done + [] == done;
    } else {
      var first := Walk(g, children[0], seen);
      WalkIsWalk(g, children[0], seen);
      SetOfAppend(ids, first.ids);
      Union(before, SetOf(ids), SetOf(first.ids));
      assert children[0] in children;
      ExtendWalk(g, root, before, ids, done, children[0], first.ids, first.failed);
      if !first.failed {
        SubsetSize(g.Keys - first.seen, g.Keys - seen);
        WalkAllExtends(g, root, before, first.seen, ids + first.ids, done + [children[0]], children[1..]);
        Regroup(ids, first.ids, WalkAll(g, children[1..], first.seen).ids, done, children);
      }
    }
  }

  lemma WalkAllCons(g: Graph, children: seq<string>, seen: set<string>)
    ensures children == [] ==> WalkAll(g, children, seen) == Found([], seen, false)
    ensures children != [] ==>
              var first := Walk(g, children[0], seen);
              WalkAll(g, children, seen) ==
              if first.failed then first else After(first.ids, WalkAll(g, children[1..], first.seen))
  {
    hide Walk;
  }

  lemma Regroup(a: seq<string>, b: seq<string>, c: seq<string>, done: seq<string>, children: seq<string>)
    requires children != []
    ensures a + b + c == a + (b + c)
    ensures done + [children[0]] + children[1..] == done + children
  {
  }

  lemma Union(a: set<string>, b: set<string>, c: set<string>)
    ensures a + (b + c) == a + b + c
  {
  }

  // ----- the walk finds exactly the reachable sessions -----

  ghost predicate IsPath(g: Graph, p: seq<string>) {
    var n := |p| - 1;
    n >= 0 && (n == 0 || (IsPath(g, p[..n]) && Lists(g, p[n - 1], p[n])))
  }

  ghost predicate Reaches(g: Graph, a: string, b: string) {
    exists p :: IsPath(g, p) && p[0] == a && p[|p| - 1] == b
  }

  lemma ReachesStep(g: Graph, a: string, b: string, c: string)
    requires Reaches(g, a, b) && Lists(g, b, c)
    ensures Reaches(g, a, c)
  {
    var p :| IsPath(g, p) && p[0] == a && p[|p| - 1] == b;
    assert (p + [c])[..|p|] == p;
    assert IsPath(g, p + [c]);
  }

  lemma {:induction false} WalkedIsReachable(g: Graph, root: string, ids: seq<string>, failed: bool, i: nat)
    requires IsWalk(g, root, {}, ids, failed) && i < |ids|
    ensures Reaches(g, root, ids[i])
    decreases i
  {
    if i == 0 {
      assert IsPath(g, [root]);
    } else {
      assert ListedBefore(g, ids, i);
      var j :| 0 <= j < i && Lists(g, ids[j], ids[i]);
      WalkedIsReachable(g, root, ids, failed, j);
      ReachesStep(g, root, ids[j], ids[i]);
    }
  }

  lemma {:induction false} PathIsWalked(g: Graph, root: string, ids: seq<string>, p: seq<string>)
    requires IsWalk(g, root, {}, ids, false) && IsPath(g, p) && p[0] == root
    ensures p[|p| - 1] in ids
    decreases |p|
  {
    if |p| > 1 {
      var q := p[..|p| - 1];
      PathIsWalked(g, root, ids, q);
      var a := q[|q| - 1];
      assert Closed(g, {} + SetOf(ids), a);
    }
  }

  lemma ReachableIsWalked(g: Graph, root: string, ids: seq<string>, failed: bool)
    requires IsWalk(g, root, {}, ids, failed)
    ensures !failed ==> forall x :: x in ids <==> Reaches(g, root, x)
    ensures failed <==> exists x :: Reaches(g, root, x) && Fails(g, x)
  {
    forall x | x in ids ensures Reaches(g, root, x) {
      var i :| 0 <= i < |ids| && ids[i] == x;
      WalkedIsReachable(g, root, ids, failed, i);
    }
    if !failed {
      forall x | Reaches(g, root, x) ensures x in ids {
        var p :| IsPath(g, p) && p[0] == root && p[|p| - 1] == x;
        PathIsWalked(g, root, ids, p);
      }
    }
  }

  /** When no listing fails, the walk returns every session reachable from the root, once,
      the root first and every other session after one that lists it; and it fails exactly
      when the listing of a session it can reach does. */
  lemma {:induction false} TreeIsFoundExactly(g: Graph, root: string)
    ensures var r := Walk(g, root, {});
            && (!r.failed ==> forall x :: x in r.ids <==> Reaches(g, root, x))
            && (r.failed <==> exists x :: Reaches(g, root, x) && Fails(g, x))
            && Distinct(r.ids) && r.ids != [] && r.ids[0] == root
            && forall i | 0 < i < |r.ids| :: ListedBefore(g, r.ids, i)
  {
    hide Reaches, Distinct, ListedBefore, Walk;
    var r := Walk(g, root, {});
    WalkIsWalk(g, root, {});
    ReachableIsWalked(g, root, r.ids, r.failed);
  }

  // ----- waiting until the session is not busy -----

  datatype Poll = StatusError | Unknown | Idle | Busy

  /** How a wait ends after `made` polls: every poll but the last found the session busy, and the
      last did not, or the deadline had passed, or the pause after it was cut short. */
  ghost predicate WaitEnds(
    maxWait: int, start: int, polls: nat -> Poll, now: nat -> int, cancelled: nat -> bool, failed: bool, made: nat)
  {
    if maxWait <= 0 then made == 0 && !failed
    else
      && made > 0
      && (forall k: nat :: k + 1 < made ==> polls(k) == Busy && now(k) <= start + maxWait && !cancelled(k))
      && match polls(made - 1)
         case StatusError => failed
         case Unknown => !failed
         case Idle => !failed
         case Busy => if now(made - 1) > start + maxWait then !failed else failed && cancelled(made - 1)
  }

  /** A wait polls on only while it finds the session busy.  It stops at the first other answer, which
      is a failure if it is an error, or when time is up, which is none, or when cancelled, which is. */
  lemma {:induction false} WaitStopsOnlyWhenNotBusy(
    maxWait: int, start: int, polls: nat -> Poll, now: nat -> int, cancelled: nat -> bool, failed: bool, made: nat)
    requires WaitEnds(maxWait, start, polls, now, cancelled, failed, made)
    ensures forall k: nat :: k + 1 < made ==> polls(k) == Busy
    ensures made == 0 <==> maxWait <= 0
    ensures made > 0 && polls(made - 1) == Busy ==>
              if failed then cancelled(made - 1) && now(made - 1) <= start + maxWait
              else now(made - 1) > start + maxWait
    ensures made > 0 && (polls(made - 1) == Idle || polls(made - 1) == Unknown) ==> !failed
    ensures made > 0 && polls(made - 1) == StatusError ==> failed
    ensures forall f: bool, m: nat ::
              WaitEnds(maxWait, start, polls, now, cancelled, f, m) ==> f == failed && m == made
  {
    forall f: bool, m: nat | WaitEnds(maxWait, start, polls, now, cancelled, f, m) ensures f == failed && m == made {
      WaitGoesNoFurther(maxWait, start, polls, now, cancelled, failed, made, f, m);
      WaitGoesNoFurther(maxWait, start, polls, now, cancelled, f, m, failed, made);
    }
  }

  lemma WaitGoesNoFurther(
    maxWait: int, start: int, polls: nat -> Poll, now: nat -> int, cancelled: nat -> bool, failed: bool, made: nat,
    f: bool, m: nat)
    requires WaitEnds(maxWait, start, polls, now, cancelled, failed, made)
    requires WaitEnds(maxWait, start, polls, now, cancelled, f, m)
    ensures m <= made
  {
  }

  /** `polls(k)` is the answer to poll `k`, `now(k)` the clock after it, `cancelled(k)` whether
      the pause of at least 200 ms after it is cut short; times are in milliseconds. */
  method WaitForSessionNotBusy(
    maxWait: int, start: int, polls: nat -> Poll, now: nat -> int, cancelled: nat -> bool)
    returns (failed: bool, made: nat)
    requires start <= now(0) && forall k: nat :: now(k) + 200 <= now(k + 1)
    ensures WaitEnds(maxWait, start, polls, now, cancelled, failed, made)
    ensures forall k: nat :: k + 1 < made ==> polls(k) == Busy
    ensures made > 0 && (polls(made - 1) == Idle || polls(made - 1) == Unknown) ==> !failed
    ensures maxWait > 0 ==> 200 * made <= maxWait + 400
  {
    failed, made := false, 0;
    if maxWait <= 0 {
      return;
    }
    var deadline := start + maxWait;
    while true
      invariant !failed
      invariant forall k: nat :: k < made ==> polls(k) == Busy && now(k) <= deadline && !cancelled(k)
      invariant made > 0 ==> start + 200 * (made - 1) <= now(made - 1)
      decreases maxWait + 400 - 200 * made
    {
      var k := made;
      made := made + 1;
      assert k > 0 ==> now(k - 1) + 200 <= now(k - 1 + 1);
      if polls(k) == StatusError {
        return true, made;
      }
      if polls(k) == Unknown || polls(k) == Idle {
        return false, made;
      }
      if now(k) > deadline {
        return false, made;
      }
      if cancelled(k) {
        return true, made;
      }
    }
  }

  // ----- abort and delete -----

  function Reverse(ids: seq<string>): (r: seq<string>)
    ensures |r| == |ids|
  {
    seq(|ids|, i requires 0 <= i < |ids| => ids[|ids| - 1 - i])
  }

  ghost predicate Succeed(ids: seq<string>, calls: string -> bool) {
    forall id :: id in ids ==> calls(id)
  }

  /** `aborts` and `deletes` tell which calls succeed; no session is named twice. */
  class SessionReset {
    const graph: Graph
    const aborts: string -> bool
    const deletes: string -> bool
    ghost var aborted: seq<string>   // sessions named by the abort calls, in order
    ghost var deleted: seq<string>   // and by the delete calls

    constructor (g: Graph, aborts: string -> bool, deletes: string -> bool)
      ensures graph == g && this.aborts == aborts && this.deletes == deletes && aborted == [] && deleted == []
    {
      graph, this.aborts, this.deletes, aborted, deleted := g, aborts, deletes, [], [];
    }

    method Abort(id: string) returns (ok: bool)
      modifies this`aborted
      ensures aborted == old(aborted) + [id] && ok == aborts(id)
    {
      aborted := aborted + [id];
      ok := aborts(id);
    }

    method Delete(id: string) returns (ok: bool)
      modifies this`deleted
      ensures deleted == old(deleted) + [id] && ok == deletes(id)
    {
      deleted := deleted + [id];
      ok := deletes(id);
    }

    /** `abortAndDeleteSessionTree`: calls may fail, none is left out for it, and the result
        tells whether all went well.  `polls`, `now` and `cancelled` describe the wait in
        between, limited to 2 s. */
    method AbortAndDelete(
      root: string, start: int, polls: nat -> Poll, now: nat -> int, cancelled: nat -> bool)
      returns (ok: bool, waitFailed: bool, made: nat)
      requires start <= now(0) && forall k: nat :: now(k) + 200 <= now(k + 1)
      modifies this
      ensures var r := Walk(graph, root, {});
              if r.failed then !ok && made == 0 && aborted == old(aborted) && deleted == old(deleted)
              else
                && aborted == old(aborted) + r.ids && deleted == old(deleted) + Reverse(r.ids)
                && made <= 12 && WaitEnds(2000, start, polls, now, cancelled, waitFailed, made)
                && (ok <==> !waitFailed && Succeed(r.ids, aborts) && Succeed(r.ids, deletes))
    {
      hide WaitEnds, Walk, Succeed, Reverse;
      var walk := new TreeWalk(graph);
      var ids, failed := walk.Collect(root);
      ok, waitFailed, made := !failed, false, 0;
      if failed {
        return;
      }
      NoCalls(aborts);
      NoCalls(deletes);
      for i := 0 to |ids|
        invariant aborted == old(aborted) + ids[..i] && deleted == old(deleted)
        invariant ok <==> Succeed(ids[..i], aborts)
      {
        var done := Abort(ids[i]);
        ok := ok && done;
        OneMoreCall(ids[..i], ids[i], aborts);
        assert ids[..i + 1] == ids[..i] + [ids[i]];
      }
      assert ids[..|ids|] == ids && ids[|ids|..] == [];
      waitFailed, made := WaitForSessionNotBusy(2000, start, polls, now, cancelled);
      ghost var aborting := ok;
      ok := ok && !waitFailed;
      var i := |ids|;
      ghost var backwards := Reverse(ids);
      while i > 0
        invariant 0 <= i <= |ids| == |backwards| && aborted == old(aborted) + ids
        invariant deleted == old(deleted) + backwards[..|ids| - i]
        invariant ok <==> aborting && !waitFailed && Succeed(ids[i..], deletes)
      {
        i := i - 1;
        var done := Delete(ids[i]);
        ok := ok && done;
        OneCallBefore(ids, i, deletes);
        ReverseStep(ids, i);
      }
      assert ids[0..] == ids && backwards[..|ids|] == backwards;
    }
  }

  lemma NoCalls(calls: string -> bool)
    ensures Succeed([], calls)
  {
  }

  lemma OneMoreCall(ids: seq<string>, id: string, calls: string -> bool)
    ensures Succeed(ids + [id], calls) <==> Succeed(ids, calls) && calls(id)
  {
    assert forall x :: x in ids + [id] <==> x in ids || x == id;
  }

  lemma OneCallBefore(ids: seq<string>, i: nat, calls: string -> bool)
    requires i < |ids|
    ensures Succeed(ids[i..], calls) <==> calls(ids[i]) && Succeed(ids[i + 1..], calls)
  {
    assert ids[i..] == [ids[i]] + ids[i + 1..];
    assert forall x :: x in ids[i..] <==> x == ids[i] || x in ids[i + 1..];
  }

  lemma ReverseStep(ids: seq<string>, i: nat)
    requires i < |ids|
    ensures Reverse(ids)[..|ids| - i] == Reverse(ids)[..|ids| - i - 1] + [ids[i]]
  {
  }

  // ----- the order of the deletions -----

  /** Each session of the walk is deleted only after all its descendants. */
  ghost predicate DescendantsFirst(g: Graph, ids: seq<string>) {
    forall x, y | 0 <= x < |ids| && 0 <= y < |ids| && x != y ::
      Reaches(g, Reverse(ids)[x], Reverse(ids)[y]) ==> y < x
  }

  /** No session of the walk lists one that the walk found before it. */
  ghost predicate ListsForward(g: Graph, ids: seq<string>) {
    forall i, k | 0 <= i < |ids| && 0 <= k < |ids| && i != k :: Lists(g, ids[i], ids[k]) ==> i < k
  }

  lemma {:induction false} DescendantLater(g: Graph, root: string, ids: seq<string>, p: seq<string>, i: nat, k: nat)
    requires IsWalk(g, root, {}, ids, false) && ListsForward(g, ids)
    requires i < |ids| && k < |ids| && IsPath(g, p) && p[0] == ids[i] && p[|p| - 1] == ids[k]
    ensures i <= k
    decreases |p|
  {
    if |p| > 1 {
      var q := p[..|p| - 1];
      WalkedPath(g, root, ids, q, i);
      var m :| 0 <= m < |ids| && ids[m] == q[|q| - 1];
      DescendantLater(g, root, ids, q, i, m);
    }
  }

  lemma {:induction false} WalkedPath(g: Graph, root: string, ids: seq<string>, p: seq<string>, i: nat)
    requires IsWalk(g, root, {}, ids, false) && i < |ids| && IsPath(g, p) && p[0] == ids[i]
    ensures p[|p| - 1] in ids
    decreases |p|
  {
    if |p| > 1 {
      var q := p[..|p| - 1];
      WalkedPath(g, root, ids, q, i);
      assert Closed(g, {} + SetOf(ids), q[|q| - 1]);
    }
  }

  lemma ListedIsReached(g: Graph, a: string, b: string)
    requires Lists(g, a, b)
    ensures Reaches(g, a, b)
  {
    assert IsPath(g, [a]) && [a][0] == a;
    ReachesStep(g, a, a, b);
  }

  /** Descendants go first exactly when no listing points backwards in the walk. */
  lemma DescendantsFirstIffListsForward(g: Graph, root: string, ids: seq<string>)
    requires IsWalk(g, root, {}, ids, false)
    ensures DescendantsFirst(g, ids) <==> ListsForward(g, ids)
  {
    hide IsWalk, Reaches, Lists;
    if DescendantsFirst(g, ids) {
      forall i, k | 0 <= i < |ids| && 0 <= k < |ids| && i != k && Lists(g, ids[i], ids[k]) ensures i < k {
        ListedIsReached(g, ids[i], ids[k]);
        var x, y := |ids| - 1 - i, |ids| - 1 - k;
        assert Reverse(ids)[x] == ids[i] && Reverse(ids)[y] == ids[k];
      }
    }
    if ListsForward(g, ids) {
      forall x, y | 0 <= x < |ids| && 0 <= y < |ids| && x != y && Reaches(g, Reverse(ids)[x], Reverse(ids)[y])
        ensures y < x
      {
        ReachedLater(g, root, ids, |ids| - 1 - x, |ids| - 1 - y);
      }
    }
  }

  lemma ReachedLater(g: Graph, root: string, ids: seq<string>, i: nat, k: nat)
    requires IsWalk(g, root, {}, ids, false) && ListsForward(g, ids)
    requires i < |ids| && k < |ids| && Reaches(g, ids[i], ids[k])
    ensures i <= k
  {
    var p :| IsPath(g, p) && p[0] == ids[i] && p[|p| - 1] == ids[k];
    DescendantLater(g, root, ids, p, i, k);
  }

  /** Below `root` every session has one parent, and none has `root` as a child; that a session
      lists itself makes no difference. */
  ghost predicate SingleParents(g: Graph, root: string) {
    && (forall a, b, c ::
          Reaches(g, root, a) && Reaches(g, root, b) && Lists(g, a, c) && Lists(g, b, c) && c != a && c != b ==> a == b)
    && (forall a :: Reaches(g, root, a) && a != root ==> !Lists(g, a, root))
  }

  lemma ParentFirst(g: Graph, root: string, ids: seq<string>, i: nat, k: nat)
    requires IsWalk(g, root, {}, ids, false) && SingleParents(g, root)
    requires i < |ids| && k < |ids| && i != k && Lists(g, ids[i], ids[k])
    ensures i < k
  {
    WalkedIsReachable(g, root, ids, false, i);
    if k > 0 {
      assert ListedBefore(g, ids, k);
      var j :| 0 <= j < k && Lists(g, ids[j], ids[k]);
      WalkedIsReachable(g, root, ids, false, j);
      assert ids[j] == ids[i];
    }
  }

  lemma DescendantsAreDeletedFirst(g: Graph, root: string, ids: seq<string>)
    requires IsWalk(g, root, {}, ids, false) && SingleParents(g, root)
    ensures DescendantsFirst(g, ids)
  {
    hide IsWalk, Reaches, SingleParents, DescendantsFirst, Lists;
    forall i, k | 0 <= i < |ids| && 0 <= k < |ids| && i != k && Lists(g, ids[i], ids[k]) ensures i < k {
      ParentFirst(g, root, ids, i, k);
    }
    DescendantsFirstIffListsForward(g, root, ids);
  }

  /** The same listings, each in some other order: children pass through a Go map, which is
      ranged over in any order. */
  ghost predicate Reordered(g: Graph, g': Graph) {
    g'.Keys == g.Keys &&
    forall a | a in g ::
      g[a] == g'[a] || (g[a].Children? && g'[a].Children? && multiset(g[a].ids) == multiset(g'[a].ids))
  }

  lemma ReorderedLists(g: Graph, g': Graph, a: string, b: string)
    requires Reordered(g, g')
    ensures Lists(g, a, b) <==> Lists(g', a, b)
    ensures Fails(g, a) <==> Fails(g', a)
  {
    if a in g && g[a].Children? {
      assert b in g[a].ids <==> b in multiset(g[a].ids);
      assert b in g'[a].ids <==> b in multiset(g'[a].ids);
    }
  }

  lemma {:induction false} ReorderedPath(g: Graph, g': Graph, p: seq<string>)
    requires Reordered(g, g') && IsPath(g, p)
    ensures IsPath(g', p)
  {
    hide Reordered, Lists;
    if |p| > 1 {
      ReorderedPath(g, g', p[..|p| - 1]);
      ReorderedLists(g, g', p[|p| - 2], p[|p| - 1]);
    }
  }

  lemma ReorderedBack(g: Graph, g': Graph)
    requires Reordered(g, g')
    ensures Reordered(g', g)
  {
  }

  lemma ReorderedReaches(g: Graph, g': Graph, a: string, b: string)
    requires Reordered(g, g')
    ensures Reaches(g, a, b) <==> Reaches(g', a, b)
  {
    hide Reordered, Lists;
    ReorderedBack(g, g');
    if Reaches(g, a, b) {
      var p :| IsPath(g, p) && p[0] == a && p[|p| - 1] == b;
      ReorderedPath(g, g', p);
    }
    if Reaches(g', a, b) {
      var p :| IsPath(g', p) && p[0] == a && p[|p| - 1] == b;
      ReorderedPath(g', g, p);
    }
  }

  lemma ReorderedWalk(g: Graph, g': Graph, root: string)
    requires Reordered(g, g') && !Walk(g, root, {}).failed
    ensures !Walk(g', root, {}).failed
  {
    hide Reordered, Reaches, Fails, Walk, Distinct, ListedBefore;
    TreeIsFoundExactly(g, root);
    TreeIsFoundExactly(g', root);
    if Walk(g', root, {}).failed {
      var x :| Reaches(g', root, x) && Fails(g', x);
      ReorderedReaches(g, g', root, x);
      ReorderedLists(g, g', x, x);
    }
  }

  lemma ReorderedParents(g: Graph, g': Graph, root: string)
    requires Reordered(g, g') && SingleParents(g, root)
    ensures SingleParents(g', root)
  {
    hide Reordered, Reaches, Lists;
    forall a ensures Reaches(g, root, a) <==> Reaches(g', root, a) { ReorderedReaches(g, g', root, a); }
    forall a, b ensures Lists(g, a, b) <==> Lists(g', a, b) { ReorderedLists(g, g', a, b); }
  }

  /** The listing of `a` with its child `c` moved to the front. */
  lemma MoveToFront(g: Graph, a: string, c: string) returns (g': Graph)
    requires Lists(g, a, c) && c != a
    ensures Reordered(g, g') && Moved(g, g', a, c)
  {
    var ids := g[a].ids;
    var k :| 0 <= k < |ids| && ids[k] == c;
    g' := g[a := Children([c] + ids[..k] + ids[k + 1..])];
    assert ids == ids[..k] + [c] + ids[k + 1..];
  }

  ghost predicate SameBut(g: Graph, g': Graph, a: string) {
    g.Keys == g'.Keys && forall x | x in g && x != a :: g[x] == g'[x]
  }

  /** The walk `r'` is `r` up to `a`, which is at `n`, and then goes to `c` unless it had seen it. */
  ghost predicate Keeps(r: Found, r': Found, seen: set<string>, a: string, c: string, n: nat) {
    if a !in r.ids then r' == r
    else
      && n < |r.ids| && n < |r'.ids| && r.ids[n] == a && r'.ids[..n + 1] == r.ids[..n + 1]
      && (c !in seen && c !in r.ids[..n + 1] ==> n + 1 < |r'.ids| && r'.ids[n + 1] == c)
  }

  ghost predicate Moved(g: Graph, g': Graph, a: string, c: string) {
    SameBut(g, g', a) && a in g && g[a].Children? && c != a && Kids(g', a) != [] && Kids(g', a)[0] == c
  }

  lemma KeepsAfter(r: Found, r': Found, seen: set<string>, a: string, c: string, n: nat, ids: seq<string>)
    requires Keeps(r, r', seen + SetOf(ids), a, c, n) && a !in ids
    ensures Keeps(After(ids, r), After(ids, r'), seen, a, c, |ids| + n)
  {
    if a in r.ids {
      var all, all' := ids + r.ids, ids + r'.ids;
      assert all[..|ids| + n + 1] == ids + r.ids[..n + 1] && all'[..|ids| + n + 1] == ids + r'.ids[..n + 1];
      assert a in all by { assert all[|ids| + n] == a; }
    }
  }

  lemma KeepsBefore(r: Found, r': Found, seen: set<string>, a: string, c: string, n: nat, rest: Found, rest': Found)
    requires Keeps(r, r', seen, a, c, n) && a in r.ids
    ensures Keeps(After(r.ids, rest), After(r'.ids, rest'), seen, a, c, n)
  {
    var all, all' := r.ids + rest.ids, r'.ids + rest'.ids;
    assert all[..n + 1] == r.ids[..n + 1] && all'[..n + 1] == r'.ids[..n + 1];
    assert a in all by { assert all[n] == a; }
  }

  lemma {:induction false} WalkUpTo(g: Graph, g': Graph, a: string, c: string, root: string, seen: set<string>)
    returns (n: nat)
    requires Moved(g, g', a, c) && a !in seen
    requires !Walk(g, root, seen).failed && !Walk(g', root, seen).failed
    ensures Keeps(Walk(g, root, seen), Walk(g', root, seen), seen, a, c, n)
    decreases |g.Keys - seen|, 0
  {
    hide Walk, WalkAll, Keeps, SetOf;
    n := 0;
    if root == a {
      WalkFrom(g, g', a, c, seen);
    } else if root !in seen && root in g {
      WalkCons(g, root, seen);
      WalkCons(g', root, seen);
      SmallerSet(g.Keys, seen, seen + {root}, root);
      var kids, now := Kids(g, root), seen + {root};
      n := WalkAllUpTo(g, g', a, c, kids, now);
      KeepsAfter(WalkAll(g, kids, now), WalkAll(g', kids, now), seen, a, c, n, [root]);
      n := n + 1;
    } else {
      WalkNowhere(g, g', root, seen, a, c);
    }
  }

  lemma WalkCons(g: Graph, root: string, seen: set<string>)
    requires root in g && root !in seen && !Walk(g, root, seen).failed
    ensures g[root].Children? && Walk(g, root, seen) == After([root], WalkAll(g, Kids(g, root), seen + {root}))
    ensures seen + {root} == seen + SetOf([root])
  {
    hide WalkAll;
  }

  lemma WalkNowhere(g: Graph, g': Graph, root: string, seen: set<string>, a: string, c: string)
    requires g.Keys == g'.Keys && a in g && (root in seen || root !in g)
    ensures Keeps(Walk(g, root, seen), Walk(g', root, seen), seen, a, c, 0)
  {
  }

  lemma WalkFrom(g: Graph, g': Graph, a: string, c: string, seen: set<string>)
    requires Moved(g, g', a, c) && a !in seen
    requires !Walk(g, a, seen).failed && !Walk(g', a, seen).failed
    ensures Keeps(Walk(g, a, seen), Walk(g', a, seen), seen, a, c, 0)
  {
    var kids' := Kids(g', a);
    WalkAllCons(g', kids', seen + {a});
    WalkIsWalk(g', c, seen + {a});
    var r, r' := Walk(g, a, seen), Walk(g', a, seen);
    assert r.ids[0] == a && r'.ids[0] == a;
    assert r.ids[..1] == [a] == r'.ids[..1];
  }

  lemma {:induction false} WalkAllUpTo(
    g: Graph, g': Graph, a: string, c: string, children: seq<string>, seen: set<string>) returns (n: nat)
    requires Moved(g, g', a, c) && a !in seen
    requires !WalkAll(g, children, seen).failed && !WalkAll(g', children, seen).failed
    ensures Keeps(WalkAll(g, children, seen), WalkAll(g', children, seen), seen, a, c, n)
    decreases |g.Keys - seen|, 1 + |children|
  {
    hide Walk, WalkAll, Moved, SetOf, Keeps;
    if children == [] {
      n := 0;
      WalkAllNone(g, g', seen, a, c);
    } else {
      FirstWorks(g, children, seen);
      FirstWorks(g', children, seen);
      n := WalkUpTo(g, g', a, c, children[0], seen);
      var first, first' := Walk(g, children[0], seen), Walk(g', children[0], seen);
      if a in first.ids {
        KeepsFirst(g, g', a, c, children, seen, n);
      } else {
        AbsentSeen(g, children[0], seen, a);
        KeepsAbsent(first, first', seen, a, c, n);
        var m := WalkAllUpTo(g, g', a, c, children[1..], first.seen);
        KeepsRest(g, g', a, c, children, seen, m);
        n := |first.ids| + m;
      }
    }
  }

  lemma FirstWorks(g: Graph, children: seq<string>, seen: set<string>)
    requires children != [] && !WalkAll(g, children, seen).failed
    ensures var first := Walk(g, children[0], seen);
            !first.failed && !WalkAll(g, children[1..], first.seen).failed
  {
    hide Walk;
  }

  lemma KeepsFirst(g: Graph, g': Graph, a: string, c: string, children: seq<string>, seen: set<string>, n: nat)
    requires children != [] && !Walk(g, children[0], seen).failed && !Walk(g', children[0], seen).failed
    requires Keeps(Walk(g, children[0], seen), Walk(g', children[0], seen), seen, a, c, n)
    requires a in Walk(g, children[0], seen).ids
    ensures Keeps(WalkAll(g, children, seen), WalkAll(g', children, seen), seen, a, c, n)
  {
    hide Walk, Keeps;
    var first, first' := Walk(g, children[0], seen), Walk(g', children[0], seen);
    var rest, rest' := WalkAll(g, children[1..], first.seen), WalkAll(g', children[1..], first'.seen);
    KeepsBefore(first, first', seen, a, c, n, rest, rest');
  }

  lemma KeepsRest(g: Graph, g': Graph, a: string, c: string, children: seq<string>, seen: set<string>, n: nat)
    requires children != [] && !Walk(g, children[0], seen).failed
    requires Walk(g, children[0], seen) == Walk(g', children[0], seen) && a !in Walk(g, children[0], seen).ids
    requires var first := Walk(g, children[0], seen);
             Keeps(WalkAll(g, children[1..], first.seen), WalkAll(g', children[1..], first.seen), first.seen, a, c, n)
    ensures Keeps(WalkAll(g, children, seen), WalkAll(g', children, seen), seen, a, c,
                  |Walk(g, children[0], seen).ids| + n)
  {
    hide Walk, Keeps, SetOf, IsWalk;
    var first := Walk(g, children[0], seen);
    WalkIsWalk(g, children[0], seen);
    KeepsAfter(WalkAll(g, children[1..], first.seen), WalkAll(g', children[1..], first.seen), seen, a, c, n, first.ids);
  }

  lemma WalkAllNone(g: Graph, g': Graph, seen: set<string>, a: string, c: string)
    ensures Keeps(WalkAll(g, [], seen), WalkAll(g', [], seen), seen, a, c, 0)
  {
  }

  lemma KeepsAbsent(r: Found, r': Found, seen: set<string>, a: string, c: string, n: nat)
    requires Keeps(r, r', seen, a, c, n) && a !in r.ids
    ensures r' == r
  {
  }

  lemma AbsentSeen(g: Graph, root: string, seen: set<string>, a: string)
    requires a !in seen && a !in Walk(g, root, seen).ids
    ensures var r := Walk(g, root, seen);
            a !in r.seen && |g.Keys - r.seen| <= |g.Keys - seen|
  {
    hide IsWalk, Walk;
    var r := Walk(g, root, seen);
    WalkIsWalk(g, root, seen);
    SubsetSize(g.Keys - r.seen, g.Keys - seen);
  }

  lemma FoundOnce(ids: seq<string>, i: nat, k: nat)
    requires Distinct(ids) && i < |ids| && k < |ids| && ids[i] == ids[k]
    ensures i == k
  {
  }

  /** Some order of the listings deletes a session with two parents after one of them. */
  lemma TwoParents(g: Graph, root: string, i: nat, j: nat, k: nat)
    requires var r := Walk(g, root, {});
             && !r.failed && i < j < |r.ids| && i < k < |r.ids| && j != k
             && Lists(g, r.ids[i], r.ids[k]) && Lists(g, r.ids[j], r.ids[k])
    ensures exists g' :: Reordered(g, g') && !DescendantsFirst(g', Walk(g', root, {}).ids)
  {
    hide Walk, Lists, Reordered, Reaches, DescendantsFirst, Moved;
    var r := Walk(g, root, {});
    var a, b, c := r.ids[i], r.ids[j], r.ids[k];
    TreeIsFoundExactly(g, root);
    assert c != a by { if c == a { FoundOnce(r.ids, i, k); } }
    assert b != c by { if b == c { FoundOnce(r.ids, j, k); } }
    var g' := MoveToFront(g, a, c);
    var r' := Walk(g', root, {});
    ReorderedWalk(g, g', root);
    TreeIsFoundExactly(g', root);
    WalkIsWalk(g', root, {});
    var n := WalkUpTo(g, g', a, c, root, {});
    FoundOnce(r.ids, n, i);
    NotYet(r.ids, n, k);
    ReorderedReaches(g, g', root, b);
    var q :| 0 <= q < |r'.ids| && r'.ids[q] == b;
    forall m | 0 <= m <= n ensures r'.ids[m] == r.ids[m] { assert r'.ids[..n + 1][m] == r.ids[..n + 1][m]; }
    Later(r.ids, r'.ids, n, j, q);
    ReorderedLists(g, g', b, c);
    DescendantsFirstIffListsForward(g', root, r'.ids);
  }

  lemma NotYet(ids: seq<string>, n: nat, k: nat)
    requires Distinct(ids) && n < k < |ids|
    ensures ids[k] !in ids[..n + 1]
  {
  }

  lemma Later(ids: seq<string>, ids': seq<string>, n: nat, j: nat, q: nat)
    requires Distinct(ids) && n < j < |ids| && q < |ids'| && n < |ids'|
    requires (forall m | 0 <= m <= n :: ids'[m] == ids[m]) && ids'[q] == ids[j]
    ensures n < q
  {
  }

  /** Descendants are deleted first in every order of the listings exactly when, below the root,
      every session has one parent and none lists the root, self-listings aside. */
  lemma DescendantsFirstIffSingleParents(g: Graph, root: string)
    requires !Walk(g, root, {}).failed
    ensures (forall g' :: Reordered(g, g') ==> DescendantsFirst(g', Walk(g', root, {}).ids)) <==> SingleParents(g, root)
  {
    hide Walk, Lists, Reordered, Reaches, DescendantsFirst, SingleParents;
    if SingleParents(g, root) {
      forall g' | Reordered(g, g') ensures DescendantsFirst(g', Walk(g', root, {}).ids) {
        ReorderedWalk(g, g', root);
        ReorderedParents(g, g', root);
        WalkIsWalk(g', root, {});
        DescendantsAreDeletedFirst(g', root, Walk(g', root, {}).ids);
      }
    }
    if forall g' :: Reordered(g, g') ==> DescendantsFirst(g', Walk(g', root, {}).ids) {
      AlwaysFirst(g, root);
    }
  }

  lemma AlwaysFirst(g: Graph, root: string)
    requires !Walk(g, root, {}).failed
    requires forall g' :: Reordered(g, g') ==> DescendantsFirst(g', Walk(g', root, {}).ids)
    ensures SingleParents(g, root)
  {
    hide Walk, Lists, Reaches, DescendantsFirst;
    var ids := Walk(g, root, {}).ids;
    assert Reordered(g, g);
    hide Reordered;
    TreeIsFoundExactly(g, root);
    WalkIsWalk(g, root, {});
    DescendantsFirstIffListsForward(g, root, ids);
    forall a | Reaches(g, root, a) && a != root ensures !Lists(g, a, root) {
      var i :| 0 <= i < |ids| && ids[i] == a;
      assert ids[0] == root;
    }
    forall a, b, c | Reaches(g, root, a) && Reaches(g, root, b) && Lists(g, a, c) && Lists(g, b, c) && c != a && c != b
      ensures a == b
    {
      ReachesStep(g, root, a, c);
      var i :| 0 <= i < |ids| && ids[i] == a;
      var j :| 0 <= j < |ids| && ids[j] == b;
      var k :| 0 <= k < |ids| && ids[k] == c;
      if i < j { TwoParents(g, root, i, j, k); } else if j < i { TwoParents(g, root, j, i, k); }
    }
  }

  const Diamond: Graph := map["r" := Children(["a", "b"]), "a" := Children(["c"]), "b" := Children(["c"])]

  /** A child shared by two parents can outlive one of them: the walk over a diamond finds "c"
      below "a", so "b" goes before its child. */
  lemma SharedChildOutlivesParent()
    ensures Walk(Diamond, "r", {}) == Found(["r", "a", "c", "b"], {"r", "a", "c", "b"}, false)
    ensures Lists(Diamond, "b", "c") && !DescendantsFirst(Diamond, ["r", "a", "c", "b"])
  {
    var g := Diamond;
    LeafWalk(g, "c", {"r", "a"});
    OneChildWalk(g, "a", "c", {"r"});
    assert {"r"} + {"a", "c"} == {"r", "a", "c"} && {"r", "a", "c"} + {"b"} == {"r", "a", "c", "b"};
    OneChildWalk(g, "b", "c", {"r", "a", "c"});
    WalkAllCons(g, ["a", "b"], {"r"});
    WalkAllCons(g, ["b"], {"r", "a", "c"});
    WalkAllCons(g, [], {"r", "a", "c", "b"});
    assert ["a", "b"][1..] == ["b"] && ["b"][1..] == [] && {} + {"r"} == {"r"};
    assert Kids(g, "r") == ["a", "b"];
    assert WalkAll(g, ["a", "b"], {"r"}) == Found(["a", "c", "b"], {"r", "a", "c", "b"}, false);
    ListedIsReached(g, "b", "c");
    var ids := ["r", "a", "c", "b"];
    assert Reverse(ids)[0] == "b" && Reverse(ids)[1] == "c";
  }

  lemma LeafWalk(g: Graph, x: string, seen: set<string>)
    requires x !in g && x !in seen
    ensures Walk(g, x, seen) == Found([x], seen + {x}, false)
  {
  }

  lemma OneChildWalk(g: Graph, x: string, y: string, seen: set<string>)
    requires x in g && g[x] == Children([y]) && y !in g && x !in seen && x != y
    ensures Walk(g, x, seen) ==
            if y in seen then Found([x], seen + {x}, false) else Found([x, y], seen + {x, y}, false)
  {
    WalkAllCons(g, [y], seen + {x});
    WalkAllCons(g, [], seen + {x});
    WalkAllCons(g, [], seen + {x} + {y});
    assert [y][1..] == [] && seen + {x} + {y} == seen + {x, y};
  }
}
