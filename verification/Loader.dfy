/**
 Native.require: a depth-first search over the built-in modules that puts a module in the cache
 before it runs the module's source, so that cyclic requires terminate.
 */
module Loader {
  import opened Outcomes

  type Id = string

  const NATIVE: Id := "native"

  /** A module's source, as far as loading goes: the require() calls it makes, in order, and whether
      it then throws. */
  datatype Source = Source(needs: seq<Id>, fails: bool)

  type Sources = map<Id, Source>

  /** What has become of a cached module. */
  datatype Status = Loading | Loaded | Failed

  predicate Known(sources: Sources, id: Id) {
    id == NATIVE || id in sources
  }

  /** Every require in every source names a built-in module. */
  ghost predicate Complete(sources: Sources) {
    forall id :: id in sources ==> forall d :: d in sources[id].needs ==> Known(sources, d)
  }

  ghost predicate Edge(sources: Sources, x: Id, y: Id) {
    x in sources && y != NATIVE && y in sources[x].needs
  }

  /** A chain of requires from x to y that stays out of `avoid`. */
  ghost predicate Path(sources: Sources, avoid: set<Id>, x: Id, y: Id, p: seq<Id>) {
    && p != [] && p[0] == x && p[|p| - 1] == y
    && (forall i :: 0 <= i < |p| ==> p[i] !in avoid)
    && (forall i :: 0 < i < |p| ==> Edge(sources, p[i - 1], p[i]))
  }

  ghost predicate Reaches(sources: Sources, avoid: set<Id>, x: Id, y: Id) {
    exists p :: Path(sources, avoid, x, y, p)
  }

  /** Some module that x reaches outside `avoid` throws while it is loaded. */
  ghost predicate Broken(sources: Sources, avoid: set<Id>, x: Id) {
    exists y :: Reaches(sources, avoid, x, y) && y in sources && sources[y].fails
  }

  ghost predicate OnCycle(sources: Sources, x: Id) {
    exists y :: Reaches(sources, {}, x, y) && Edge(sources, y, x)
  }

  lemma ReachesSelf(sources: Sources, avoid: set<Id>, x: Id)
    requires x !in avoid
    ensures Reaches(sources, avoid, x, x)
  {
    assert Path(sources, avoid, x, x, [x]);
  }

  lemma ReachesThrough(sources: Sources, avoid: set<Id>, more: set<Id>, x: Id, d: Id, y: Id)
    requires avoid <= more && x !in avoid && Edge(sources, x, d)
    requires Reaches(sources, more, d, y)
    ensures Reaches(sources, avoid, x, y)
  {
    var p :| Path(sources, more, d, y, p);
    var q := [x] + p;
    forall i | 0 < i < |q| ensures Edge(sources, q[i - 1], q[i]) {
      if i > 1 {
        assert Edge(sources, p[i - 2], p[i - 1]);
      }
    }
    assert Path(sources, avoid, x, y, q);
  }

  lemma BrokenThrough(sources: Sources, avoid: set<Id>, more: set<Id>, x: Id, d: Id)
    requires avoid <= more && x !in avoid && Edge(sources, x, d)
    requires Broken(sources, more, d)
    ensures Broken(sources, avoid, x)
  {
    var y :| Reaches(sources, more, d, y) && y in sources && sources[y].fails;
    ReachesThrough(sources, avoid, more, x, d, y);
  }

  /** A set that contains every require of its members outside `avoid` contains every path. */
  lemma {:induction false} ClosedUnderPaths(sources: Sources, avoid: set<Id>, s: set<Id>, p: seq<Id>, i: nat)
    requires p != [] && p[0] in s && i < |p|
    requires Path(sources, avoid, p[0], p[|p| - 1], p)
    requires forall x, d :: x in s && x !in avoid && Edge(sources, x, d) ==> d in s
    ensures p[i] in s
  {
    if i > 0 {
      ClosedUnderPaths(sources, avoid, s, p, i - 1);
      assert Edge(sources, p[i - 1], p[i]);
    }
  }

  /** The stack holds the modules that are loading, each requiring the next. */
  ghost predicate Stacked(sources: Sources, stack: seq<Id>, cache: map<Id, Status>) {
    && (forall x :: x in cache && cache[x] == Loading ==> x in stack)
    && (forall i :: 0 <= i < |stack| ==> stack[i] in cache && cache[stack[i]] == Loading)
    && (forall i, j :: 0 <= i < j < |stack| ==> stack[i] != stack[j])
    && (forall i :: 0 < i < |stack| ==> Edge(sources, stack[i - 1], stack[i]))
  }

  ghost predicate Follows(sources: Sources, stack: seq<Id>, id: Id) {
    stack == [] || Edge(sources, stack[|stack| - 1], id)
  }

  lemma StackedPush(sources: Sources, stack: seq<Id>, cache: map<Id, Status>, id: Id)
    requires Stacked(sources, stack, cache) && id !in cache && Follows(sources, stack, id)
    ensures Stacked(sources, stack + [id], cache[id := Loading])
  {
  }

  lemma StackedPop(sources: Sources, stack: seq<Id>, cache: map<Id, Status>, id: Id, status: Status)
    requires Stacked(sources, stack + [id], cache) && status != Loading
    ensures Stacked(sources, stack, cache[id := status])
  {
    var s := stack + [id];
    assert forall i :: 0 <= i < |stack| ==> s[i] == stack[i];
    assert s[|stack|] == id;
  }

  lemma StackIsCyclic(sources: Sources, stack: seq<Id>, cache: map<Id, Status>, id: Id)
    requires Stacked(sources, stack, cache) && id in cache && cache[id] == Loading && Follows(sources, stack, id)
    ensures OnCycle(sources, id)
  {
    var i :| 0 <= i < |stack| && stack[i] == id;
    assert Path(sources, {}, id, stack[|stack| - 1], stack[i..]);
  }

  /** Each cached module has been compiled once, and no other has. */
  ghost predicate OncePerModule(compiled: seq<Id>, cached: set<Id>) {
    && (forall i, j :: 0 <= i < j < |compiled| ==> compiled[i] != compiled[j])
    && (forall x :: x in cached <==> x in compiled)
  }

  lemma OnceMore(compiled: seq<Id>, cached: set<Id>, id: Id)
    requires OncePerModule(compiled, cached) && id !in cached
    ensures OncePerModule(compiled + [id], cached + {id})
  {
  }

  /** x stopped at one of its requires, because that one threw, or threw at its own end: all requires
      before the stop have been made. */
  ghost predicate StoppedAt(sources: Sources, cache: map<Id, Status>, x: Id, j: nat, before: set<Id>) {
    && x in sources && j <= |sources[x].needs|
    && (forall i :: 0 <= i < j ==> sources[x].needs[i] == NATIVE || sources[x].needs[i] in cache)
    && if j == |sources[x].needs| then sources[x].fails
       else sources[x].needs[j] !in before && sources[x].needs[j] in cache && cache[sources[x].needs[j]] == Failed
  }

  ghost predicate Stopped(sources: Sources, cache: map<Id, Status>, x: Id, before: set<Id>) {
    exists j: nat :: StoppedAt(sources, cache, x, j, before)
  }

  /** Each module newly cached has been loaded with all its requires, or has failed after some of them. */
  ghost predicate Accounted(sources: Sources, cache: map<Id, Status>, before: set<Id>) {
    forall x :: x in cache && x !in before ==>
      || (cache[x] == Loaded && forall d :: Edge(sources, x, d) ==> d in cache)
      || (cache[x] == Failed && Stopped(sources, cache, x, before))
  }

  /** The same, kept closed where it is only passed on. */
  ghost predicate Explained(sources: Sources, cache: map<Id, Status>, before: set<Id>) {
    forall c :: c == cache ==> Accounted(sources, c, before)
  }

  ghost predicate Extends(cache: map<Id, Status>, earlier: map<Id, Status>) {
    forall x :: x in earlier ==> x in cache && cache[x] == earlier[x]
  }

  lemma ExplainedMore(
    sources: Sources, mid: map<Id, Status>, cache: map<Id, Status>, before: set<Id>)
    requires Explained(sources, mid, before) && Explained(sources, cache, mid.Keys)
    requires Extends(cache, mid) && before <= mid.Keys
    ensures Explained(sources, cache, before)
  {
    assert Accounted(sources, mid, before) && Accounted(sources, cache, mid.Keys);
    forall x | x in cache && x !in before && cache[x] == Failed ensures Stopped(sources, cache, x, before) {
      var c := if x in mid then mid else cache;
      var j: nat :| StoppedAt(sources, c, x, j, if x in mid then before else mid.Keys);
      assert StoppedAt(sources, cache, x, j, before);
    }
  }

  lemma ExplainedLeave(
    sources: Sources, cache: map<Id, Status>, id: Id, status: Status, before: set<Id>)
    requires id in cache && cache[id] == Loading && id !in before && status != Loading
    requires Explained(sources, cache, before + {id})
    requires status == Loaded ==> forall d :: Edge(sources, id, d) ==> d in cache
    requires status == Failed ==> Stopped(sources, cache, id, before)
    ensures Explained(sources, cache[id := status], before)
  {
    var now := cache[id := status];
    assert Accounted(sources, cache, before + {id});
    forall x | x in now && x !in before && now[x] == Failed ensures Stopped(sources, now, x, before) {
      var j: nat :| StoppedAt(sources, cache, x, j, if x == id then before else before + {id});
      assert StoppedAt(sources, now, x, j, before);
    }
  }

  class Native {
    const sources: Sources
    var cache: map<Id, Status>
    ghost var stack: seq<Id>     // the modules whose sources are running, outermost first
    ghost var compiled: seq<Id>  // every compile() ever begun

    ghost predicate Valid()
      reads this
    {
      && Complete(sources) && NATIVE !in sources
      && cache.Keys <= sources.Keys
      && (forall x :: x in cache && cache[x] == Loaded ==> !sources[x].fails)
      && (forall s :: s == stack ==> Stacked(sources, s, cache))
      && (forall c :: c == compiled ==> OncePerModule(c, cache.Keys))
    }

    constructor (sources: Sources)
      requires Complete(sources) && NATIVE !in sources
      ensures Valid() && this.sources == sources
      ensures cache == map[] && stack == [] && compiled == []
    {
      this.sources := sources;
      cache, stack, compiled := map[], [], [];
    }

    /** Cached modules stay cached, with whatever exports they had. */
    twostate predicate Grown()
      reads this
    {
      && stack == old(stack)
      && (forall x :: x in old(cache) ==> x in cache && cache[x] == old(cache)[x])
    }

    ghost predicate Settled(before: set<Id>)
      reads this
    {
      forall x :: x in cache && x !in before ==>
        && cache[x] == Loaded
        && forall d :: Edge(sources, x, d) ==> d in cache
    }

    method Require(id: Id) returns (c: Completion)
      requires Valid() && Known(sources, id)
      requires id == NATIVE || Follows(sources, stack, id)
      modifies this
      ensures Valid() && Grown()
      // what is cached now is what was, and what the module reaches without passing through that
      ensures forall x :: x in cache && x !in old(cache) ==> Reaches(sources, old(cache.Keys), id, x)
      ensures id == NATIVE || id in old(cache) ==> c == Normal && unchanged(this)
      ensures c == Normal && id !in old(cache) ==>
                forall x :: Reaches(sources, old(cache.Keys), id, x) && id != NATIVE ==> x in cache
      ensures c == Normal ==> Settled(old(cache.Keys))
      ensures Explained(sources, cache, old(cache.Keys))
      // the module handed out is complete, or is still loading and so on a cycle, or failed before
      ensures c == Normal && id != NATIVE ==> id in cache
      ensures c == Normal && id != NATIVE && id !in old(cache) ==> cache[id] == Loaded
      ensures id in cache && cache[id] == Loading ==> OnCycle(sources, id)
      ensures c == Throw ==> id in cache && cache[id] == Failed
      ensures c == Throw <==> id != NATIVE && id !in old(cache) && Broken(sources, old(cache.Keys), id)
      decreases sources.Keys - cache.Keys, 1, 0
    {
      c := Normal;
      if id == NATIVE {
        return;
      }
      if id in cache {
        if cache[id] == Loading {
          StackIsCyclic(sources, stack, cache, id);
        }
        return;
      }
      Enter(id);
      assert sources.Keys - cache.Keys < sources.Keys - old(cache.Keys) by {
        assert id in sources.Keys - old(cache.Keys);
      }
      c := Compile(id, old(cache.Keys));
      assert old(cache)[id := Loading].Keys == old(cache.Keys) + {id};
      ExplainedLeave(sources, cache, id, if c == Normal then Loaded else Failed, old(cache.Keys));
      Leave(id, if c == Normal then Loaded else Failed, old(stack));
      ReachesSelf(sources, old(cache.Keys), id);
      if c == Normal {
        SettledIsClosed(old(cache.Keys), id);
      }
    }

    lemma SettledIsClosed(before: set<Id>, id: Id)
      requires Settled(before) && id in cache
      ensures forall x :: Reaches(sources, before, id, x) ==> x in cache && x !in before
    {
      forall x | Reaches(sources, before, id, x) ensures x in cache && x !in before {
        var p :| Path(sources, before, id, x, p);
        ClosedUnderPaths(sources, before, cache.Keys, p, |p| - 1);
      }
    }

    /** The module goes into the cache before its source is compiled. */
    method Enter(id: Id)
      requires Valid() && id in sources && id !in cache && Follows(sources, stack, id)
      modifies this
      ensures Valid()
      ensures cache == old(cache)[id := Loading] && stack == old(stack) + [id]
    {
      StackedPush(sources, stack, cache, id);
      OnceMore(compiled, cache.Keys, id);
      assert cache[id := Loading].Keys == cache.Keys + {id};
      cache := cache[id := Loading];
      stack, compiled := stack + [id], compiled + [id];
    }

    /** The source has run to its end, or has thrown. */
    method Leave(id: Id, status: Status, ghost outer: seq<Id>)
      requires Valid() && status != Loading && id in cache && (status == Loaded ==> !sources[id].fails)
      requires stack == outer + [id]
      modifies this
      ensures Valid()
      ensures cache == old(cache)[id := status] && stack == outer
    {
      StackedPop(sources, outer, cache, id, status);
      assert cache[id := status].Keys == cache.Keys;
      cache := cache[id := status];
      stack := outer;
    }

    method Compile(id: Id, ghost before: set<Id>) returns (c: Completion)
      requires Valid() && stack != [] && stack[|stack| - 1] == id && id in sources
      requires before <= cache.Keys && id !in before
      modifies this
      ensures Valid() && Grown()
      ensures forall x :: x in cache && x !in old(cache) ==> Reaches(sources, before, id, x)
      ensures c == Throw ==> Broken(sources, before, id)
      ensures c == Normal ==> !sources[id].fails
      ensures c == Normal ==> Settled(old(cache.Keys))
      ensures Explained(sources, cache, old(cache.Keys))
      ensures c == Throw ==> Stopped(sources, cache, id, before)
      ensures c == Normal ==> forall d :: Edge(sources, id, d) ==> d in cache
      decreases sources.Keys - cache.Keys, 2
    {
      var needs := sources[id].needs;
      var i := 0;
      while i < |needs|
        invariant 0 <= i <= |needs|
        invariant Valid() && Grown()
        invariant forall x :: x in cache && x !in old(cache) ==> Reaches(sources, before, id, x)
        invariant Settled(old(cache.Keys))
        invariant Explained(sources, cache, old(cache.Keys))
        invariant forall j :: 0 <= j < i ==> needs[j] == NATIVE || needs[j] in cache
      {
        ghost var cached, mid := cache.Keys, cache;
        c := Require(needs[i]);
        ExplainedMore(sources, mid, cache, old(cache.Keys));
        forall x | x in cache && x !in cached ensures Reaches(sources, before, id, x) {
          if needs[i] != NATIVE {
            ReachesThrough(sources, before, cached, id, needs[i], x);
          }
        }
        if c == Throw {
          BrokenThrough(sources, before, cached, id, needs[i]);
          assert StoppedAt(sources, cache, id, i, before);
          return;
        }
        i := i + 1;
      }
      ReachesSelf(sources, before, id);
      assert sources[id].fails ==> StoppedAt(sources, cache, id, |needs|, before);
      c := if sources[id].fails then Throw else Normal;
    }
  }
}
