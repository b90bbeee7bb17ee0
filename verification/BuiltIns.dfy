/** The built-in modules and what their sources require as they are loaded. */
module BuiltIns {
  import opened Loader

  /** The modules on top of nothing but one another are the stream modules. */
  predicate IsStream(id: Id) {
    id == "stream" || id == "stream_readable" || id == "stream_writable" || id == "stream_duplex"
  }

  function Needs(id: Id): seq<Id> {
    if id == "stream" then ["events", "util", "stream_readable", "stream_writable", "stream_duplex"]
    else if id == "stream_readable" then ["stream", "util", "assert"]
    else if id == "stream_writable" then ["stream", "util"]
    else if id == "stream_duplex" then ["util", "stream_readable", "stream_writable"]
    else if id == "net" then ["events", "stream", "util"]
    else if id == "fs" then ["constants", "util"]
    else if id == "module" then [NATIVE, "fs"]
    else if id == "assert" || id == "buffer" || id == "events" || id == "timers" then ["util"]
    else []
  }

  const IDS: set<Id> := {"assert", "buffer", "constants", "events", "fs", "module", "net", "stream",
    "stream_duplex", "stream_readable", "stream_writable", "timers", "util"}

  const SOURCES: Sources := map id | id in IDS :: Source(Needs(id), false)

  /** How far a module is above the modules that require nothing. */
  function Height(id: Id): nat {
    if IsStream(id) then 2
    else if id == "net" || id == "module" then 3
    else if Needs(id) == [] then 0
    else 1
  }

  lemma SourcesComplete()
    ensures Complete(SOURCES) && NATIVE !in SOURCES
  {
  }

  lemma EdgesGoDown(x: Id, y: Id)
    requires Edge(SOURCES, x, y)
    ensures Height(y) < Height(x) || (IsStream(x) && IsStream(y))
  {
  }

  lemma {:induction false} PathsGoDown(x: Id, y: Id, p: seq<Id>)
    requires Path(SOURCES, {}, x, y, p)
    ensures Height(y) <= Height(x)
    ensures Height(y) == Height(x) ==> x == y || (IsStream(x) && IsStream(y))
    decreases |p|
  {
    if |p| > 1 {
      var q := p[..|p| - 1];
      forall i | 0 < i < |q| ensures Edge(SOURCES, q[i - 1], q[i]) {
        assert Edge(SOURCES, p[i - 1], p[i]);
      }
      PathsGoDown(x, q[|q| - 1], q);
      assert Edge(SOURCES, p[|p| - 2], p[|p| - 1]);
      EdgesGoDown(q[|q| - 1], y);
    }
  }

  /** The modules on cycles, the only ones that require() can hand out unfinished, are the stream
      modules. */
  lemma CyclesAreStreams(x: Id)
    ensures OnCycle(SOURCES, x) <==> IsStream(x)
  {
    if OnCycle(SOURCES, x) {
      var y :| Reaches(SOURCES, {}, x, y) && Edge(SOURCES, y, x);
      var p :| Path(SOURCES, {}, x, y, p);
      PathsGoDown(x, y, p);
      EdgesGoDown(y, x);
    }
    if IsStream(x) {
      StreamsCycle(x);
    }
  }

  lemma StreamsCycle(x: Id)
    requires IsStream(x)
    ensures OnCycle(SOURCES, x)
  {
    if x == "stream" {
      OnCycleBy(x, ["stream", "stream_readable"]);
    } else if x == "stream_duplex" {
      OnCycleBy(x, ["stream_duplex", "stream_readable", "stream"]);
    } else {
      OnCycleBy(x, [x, "stream"]);
    }
  }

  lemma OnCycleBy(x: Id, p: seq<Id>)
    requires |p| > 1 && p[0] == x && Edge(SOURCES, p[|p| - 1], x)
    requires forall i :: 0 < i < |p| ==> Edge(SOURCES, p[i - 1], p[i])
    ensures OnCycle(SOURCES, x)
  {
    assert Path(SOURCES, {}, x, p[|p| - 1], p);
  }
}
