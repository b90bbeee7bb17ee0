/** How often the listener of one once() runs. */
module EventOnce {
  import opened Outcomes
  import opened Users
  import opened Events
  import opened EventWalks

  function Calls(runs: seq<Run>, l: Listener): nat {
    if runs == [] then 0 else Calls(runs[..|runs| - 1], l) + if runs[|runs| - 1].listener == l then 1 else 0
  }

  /** Calls of a wrapper by an emitter that it was not registered on: it does not find itself in that
      emitter's list, and stays in its own. */
  function Strays(runs: seq<Run>, l: Listener): nat {
    if runs == [] then 0
    else Strays(runs[..|runs| - 1], l)
         + if runs[|runs| - 1].listener == l && !AtHome(runs[|runs| - 1]) then 1 else 0
  }

  lemma {:induction false} CallsAreStraysButOne(runs: seq<Run>, l: Listener)
    requires l.Once?
    requires forall a, b :: 0 <= a < b < |runs| && AtHome(runs[a]) ==> runs[a] != runs[b]
    ensures Calls(runs, l) == Strays(runs, l) + if Run(l, l.home.emitter) in runs then 1 else 0
  {
    if runs != [] {
      var u, r := runs[..|runs| - 1], runs[|runs| - 1];
      assert runs == u + [r];
      assert forall a :: 0 <= a < |u| ==> u[a] == runs[a];
      CallsAreStraysButOne(u, l);
    }
  }

  /** A listener registered by one once() runs at most once, not counting the times that another
      emitter's emit calls its wrapper. */
  lemma OnceRunsOnce(script: Script, l: Listener)
    requires l.Once?
    ensures var runs := RunUser(NEW_STATE, script).s.runs;
            Calls(runs, l) <= 1 + Strays(runs, l)
  {
    assert Sound(RunUser(NEW_STATE, script).s);
    CallsAreStraysButOne(RunUser(NEW_STATE, script).s.runs, l);
  }

  /** The one way to a second run: a wrapper that an emit calls stays registered, for a later emit of its
      own emitter, exactly when it is not in a list of the emitter that calls it. */
  lemma StaysIfStray(s: State, emitter: nat)
    requires Wrapped(s) && s.i < |s.List(s.listeners)| && s.List(s.listeners)[s.i].Once?
    ensures var l := s.List(s.listeners)[s.i];
            var t := Splice(s, Channel(emitter, l.home.event), l);
            && (l in t.List(l.home) <==> s.listeners.emitter != emitter)
            && (AtHome(Run(l, emitter)) <==> s.listeners.emitter == emitter)
  {
    var l := s.List(s.listeners)[s.i];
    AtOwnPosition(s, l);
    SpliceWrapped(s, Channel(emitter, l.home.event), l);
    assert Sound(s);
  }

  // As long as no emit begins while one of another emitter is in progress, none is called that way.

  predicate ActOn(act: Act, emitter: nat) {
    act.ch.emitter == emitter
  }

  ghost predicate ScriptOn(script: Script, emitter: nat) {
    forall k :: 0 <= k < |script| && script[k].Call? ==> ActOn(script[k].act, emitter)
  }

  /** Wrappers have been called by their own emitter only, and an emit in progress walks a list of its
      emitter; or emits have crossed. */
  ghost predicate Orderly(s: State) {
    s.crossed
    || (&& (forall r :: r in s.runs && r.listener.Once? ==> AtHome(r))
        && (s.active.Some? ==> s.listeners.emitter == s.active.value))
  }

  /** Whatever is in progress is one emitter's. */
  ghost predicate Single(s: State, script: Script, emitter: nat) {
    !s.crossed && (s.active.Some? ==> s.active.value == emitter) && ScriptOn(script, emitter)
  }

  ghost predicate Keeps(s: State, script: Script, r: Result, emitter: nat) {
    && r.s.active == s.active
    && (s.crossed ==> r.s.crossed)
    && (Orderly(s) ==> Orderly(r.s))
    && (Single(s, script, emitter) ==> Single(r.s, r.script, emitter))
  }

  lemma {:induction false} UserKeeps(s: State, script: Script, e: nat)
    requires Wrapped(s)
    ensures Keeps(s, script, RunUser(s, script), e)
    decreases |script|, Armed(s), 0, 0
  {
    if script != [] {
      var rest := script[1..];
      match script[0]
      case Return =>
      case Catch => UserKeeps(s, rest, e);
      case Raise =>
      case Call(act) =>
        assert ScriptOn(script, e) ==> ActOn(script[0].act, e);
        PerformKeeps(s, rest, act, e);
        var r := Perform(s, rest, act);
        if r.c == Normal {
          UserKeeps(r.s, r.script, e);
        } else if r.script != [] && r.script[0] == Catch {
          UserKeeps(r.s, r.script[1..], e);
        }
    }
  }

  lemma {:induction false} PerformKeeps(s: State, script: Script, act: Act, e: nat)
    requires Wrapped(s)
    ensures var r := Perform(s, script, act);
            && r.s.active == s.active && (s.crossed ==> r.s.crossed) && (Orderly(s) ==> Orderly(r.s))
            && (Single(s, script, e) && ActOn(act, e) ==> Single(r.s, r.script, e))
    decreases |script|, Armed(s), 4, 0
  {
    match act
    case CallOn(ch, id) =>
    case CallOnce(ch) =>
    case CallRemove(ch, l) => SpliceWrapped(s, ch, l); RemoveKeeps(s, script, ch, l, e);
    case CallEmit(ch) => EmitKeeps(s, script, ch, e);
  }

  lemma {:induction false} RemoveKeeps(s: State, script: Script, ch: Channel, l: Listener, e: nat)
    requires Wrapped(s)
    ensures var r := RemoveListener(s, script, ch, l);
            && r.s.active == s.active && (s.crossed ==> r.s.crossed) && (Orderly(s) ==> Orderly(r.s))
            && (Single(s, script, e) && ch.emitter == e ==> Single(r.s, r.script, e))
    decreases |script|, Armed(Splice(s, ch, l)), if l in s.List(ch) then 3 else 0, 0
  {
    SpliceWrapped(s, ch, l);
    if l in s.List(ch) {
      EmitKeeps(Splice(s, ch, l), script, Channel(ch.emitter, "removeListener"), e);
    }
  }

  lemma {:induction false} EmitKeeps(s: State, script: Script, ch: Channel, e: nat)
    requires Wrapped(s)
    ensures var r := Emit(s, script, ch);
            && r.s.active == s.active && (s.crossed ==> r.s.crossed) && (Orderly(s) ==> Orderly(r.s))
            && (Single(s, script, e) && ch.emitter == e ==> Single(r.s, r.script, e))
    decreases |script|, Armed(s), 2, 0
  {
    if ch in s.lists {
      WrappedAs(s, Begin(s, ch));
      WalkKeepsOrder(Begin(s, ch), script, ch.emitter, e);
    }
  }

  lemma {:induction false} WalkKeepsOrder(s: State, script: Script, emitter: nat, e: nat)
    requires Wrapped(s) && s.active == Some(emitter)
    ensures Keeps(s, script, Walk(s, script, emitter), e)
    decreases |script|, Armed(s), 1, Left(s)
  {
    if s.i < |s.List(s.listeners)| {
      InvokeKeeps(s, script, emitter, e);
      var r := Invoke(s, script, emitter, s.List(s.listeners)[s.i]);
      if r.c == Normal {
        WalkStep(s, script, emitter);
        WalkKeepsOrder(Next(r.s), r.script, emitter, e);
      }
    }
  }

  lemma {:induction false} InvokeKeeps(s: State, script: Script, emitter: nat, e: nat)
    requires Wrapped(s) && s.active == Some(emitter) && s.i < |s.List(s.listeners)|
    ensures Keeps(s, script, Invoke(s, script, emitter, s.List(s.listeners)[s.i]), e)
    decreases |script|, Armed(s), 1, 0
  {
    var l := s.List(s.listeners)[s.i];
    if l.Plain? {
      LogWrapped(s, l, emitter);
      UserKeeps(Log(s, l, emitter), script, e);
    } else {
      StaysIfStray(s, emitter);
      var ch := Channel(emitter, l.home.event);
      SpliceWrapped(s, ch, l);
      RemoveKeeps(s, script, ch, l, e);
      var r := RemoveListener(s, script, ch, l);
      if r.c == Normal {
        WrapperRuns(s, l, emitter, r.s);
        LogKeeps(s, r.s, l, emitter);
        UserKeeps(Log(r.s, l, emitter), r.script, e);
      }
    }
  }

  lemma LogKeeps(s: State, t: State, l: Listener, emitter: nat)
    requires s.active == Some(emitter) && (AtHome(Run(l, emitter)) <==> s.listeners.emitter == emitter)
    requires (s.crossed ==> t.crossed) && (Orderly(s) ==> Orderly(t))
    ensures Orderly(s) ==> Orderly(Log(t, l, emitter))
  {
  }

  lemma {:induction false} NoStrays(runs: seq<Run>, l: Listener)
    requires l.Once? && forall r :: r in runs && r.listener.Once? ==> AtHome(r)
    ensures Strays(runs, l) == 0
  {
    if runs != [] {
      var u := runs[..|runs| - 1];
      assert forall r :: r in u ==> r in runs;
      NoStrays(u, l);
    }
  }

  /** If no emit is made while an emit of another emitter is in progress, one once() means at most one
      run, whatever else listeners do, nested emits and exceptions included. */
  lemma OnceRunsOnceUncrossed(script: Script, l: Listener)
    requires l.Once? && !RunUser(NEW_STATE, script).s.crossed
    ensures Calls(RunUser(NEW_STATE, script).s.runs, l) <= 1
  {
    UserKeeps(NEW_STATE, script, 0);
    OnceRunsOnce(script, l);
    NoStrays(RunUser(NEW_STATE, script).s.runs, l);
  }

  /** That is so in every program that uses one emitter. */
  lemma OneEmitterNeverCrosses(script: Script, emitter: nat)
    requires ScriptOn(script, emitter)
    ensures !RunUser(NEW_STATE, script).s.crossed
  {
    UserKeeps(NEW_STATE, script, emitter);
  }

  // Two programs in which a listener registered once runs twice.  In both, a listener of emitter 0 makes
  // an emit of emitter 1, which leaves the shared variables in emitter 1's list, before its end; so
  // emitter 0 goes on with what it finds there, the wrapper, and calls it without taking it out.

  const X := Channel(0, "x")
  const Y := Channel(1, "y")
  const W := Once(0, Y)

  /** The emit of emitter 1 is cut short by an exception, which the listener of emitter 0 catches. */
  const CUT_SHORT: Script :=
    [Call(CallOn(X, 0)), Call(CallOn(Y, 1)), Call(CallOnce(Y)),
     Call(CallEmit(X)), Call(CallEmit(Y)), Raise, Catch, Return, Return, Call(CallEmit(Y))]

  /** The emit of emitter 1 comes to its end, and then the listener of emitter 0 makes the list longer. */
  const MADE_LONGER: Script :=
    [Call(CallOn(X, 0)), Call(CallOn(Y, 1)),
     Call(CallEmit(X)), Call(CallEmit(Y)), Return, Call(CallOn(Y, 2)), Call(CallOnce(Y)), Return, Return,
     Call(CallEmit(Y))]

  /** Once both listeners are there. */
  ghost predicate SetUp(s: State, ys: seq<Listener>) {
    Wrapped(s) && s.lists == map[X := [Plain(0)], Y := ys] && s.active == None
  }

  lemma RunCall(s: State, act: Act, rest: Script)
    requires Wrapped(s) && Perform(s, rest, act).c == Normal
    ensures RunUser(s, [Call(act)] + rest) == RunUser(Perform(s, rest, act).s, Perform(s, rest, act).script)
  {
    assert ([Call(act)] + rest)[1..] == rest;
  }

  lemma PlainRuns(s: State, script: Script, emitter: nat, l: Listener)
    requires Wrapped(s) && l.Plain? && l in s.List(s.listeners)
    ensures Wrapped(Log(s, l, emitter)) && Invoke(s, script, emitter, l) == RunUser(Log(s, l, emitter), script)
  {
    LogWrapped(s, l, emitter);
  }

  /** Emitter 0 calls the wrapper, last in emitter 1's list, and it stays there. */
  lemma StrayTurn(s: State, script: Script)
    requires Wrapped(s) && s.listeners == Y && s.i + 1 == |s.List(Y)| && s.List(Y)[s.i] == W
    requires Channel(0, "y") !in s.lists && script != [] && script[0] == Return
    ensures var t := Next(Log(s, W, 0));
            Wrapped(t) && Walk(s, script, 0) == Result(t, script[1..], Normal)
  {
    var t := Log(s, W, 0);
    LogWrapped(s, W, 0);
    WrappedAs(t, Next(t));
    assert Splice(s, Channel(0, "y"), W) == s;
    assert RemoveListener(s, script, Channel(0, "y"), W) == Result(s, script, Normal);
    assert RunUser(t, script) == Result(t, script[1..], Normal);
    assert Invoke(s, script, 0, W) == Result(t, script[1..], Normal);
    assert Walk(Next(t), script[1..], 0) == Result(Next(t), script[1..], Normal);
  }

  /** The inner emit, and the listener of emitter 0 that makes it, up to the stray call. */
  lemma CutShort(s: State, q: Script)
    requires SetUp(s, [Plain(1), W])
    requires |q| >= 5 && q[0] == Call(CallEmit(Y)) && q[1] == Raise && q[2] == Catch && q[3] == q[4] == Return
    ensures var r := Emit(s, q, X);
            && r.c == Normal && r.script == q[5..] && SetUp(r.s, [Plain(1), W]) && r.s.crossed
            && r.s.runs == s.runs + [Run(Plain(0), 0), Run(Plain(1), 1), Run(W, 0)]
  {
    var s1 := Begin(s, X);
    WrappedAs(s, s1);
    PlainRuns(s1, q, 0, Plain(0));
    var s2 := Log(s1, Plain(0), 0);
    var s3 := Begin(s2, Y);
    WrappedAs(s2, s3);
    PlainRuns(s3, q[1..], 1, Plain(1));
    var s4 := Log(s3, Plain(1), 1);
    var s5 := End(s4, Some(0));
    WrappedAs(s4, s5);
    assert RunUser(s4, q[1..]) == Result(s4, q[2..], Throw);
    assert Walk(s3, q[1..], 1) == Result(s4, q[2..], Throw);
    assert Emit(s2, q[1..], Y) == Result(s5, q[2..], Throw);
    assert Unwind(s5, q[2..]) == RunUser(s5, q[3..]) == Result(s5, q[4..], Normal);
    assert RunUser(s2, q) == Result(s5, q[4..], Normal);
    WrappedAs(s5, Next(s5));
    StrayTurn(Next(s5), q[4..]);
    var s6 := Next(Log(Next(s5), W, 0));
    WrappedAs(s6, End(s6, None));
    assert Walk(s1, q, 0) == Result(s6, q[5..], Normal);
  }

  lemma MadeLonger(s: State, q: Script)
    requires SetUp(s, [Plain(1)]) && s.wrappers == 0
    requires |q| >= 6 && q[0] == Call(CallEmit(Y)) && q[1] == Return
    requires q[2] == Call(CallOn(Y, 2)) && q[3] == Call(CallOnce(Y)) && q[4] == q[5] == Return
    ensures var r := Emit(s, q, X);
            && r.c == Normal && r.script == q[6..] && SetUp(r.s, [Plain(1), Plain(2), W]) && r.s.crossed
            && r.s.runs == s.runs + [Run(Plain(0), 0), Run(Plain(1), 1), Run(W, 0)]
  {
    var s1 := Begin(s, X);
    WrappedAs(s, s1);
    PlainRuns(s1, q, 0, Plain(0));
    var s2 := Log(s1, Plain(0), 0);
    InnerEmitEnds(s2, q[1..]);
    var s5 := End(Next(Log(Begin(s2, Y), Plain(1), 1)), Some(0));
    ListGrows(s5, q[2..]);
    var s7 := AddWrapper(Add(s5, Y, Plain(2)), Y);
    assert RunUser(s2, q) == Result(s7, q[5..], Normal);
    WrappedAs(s7, Next(s7));
    StrayTurn(Next(s7), q[5..]);
    var s8 := Next(Log(Next(s7), W, 0));
    WrappedAs(s8, End(s8, None));
    assert Walk(s1, q, 0) == Result(s8, q[6..], Normal);
  }

  lemma ListGrows(s: State, q: Script)
    requires Wrapped(s) && s.lists == map[X := [Plain(0)], Y := [Plain(1)]] && s.wrappers == 0
    requires |q| >= 3 && q[0] == Call(CallOn(Y, 2)) && q[1] == Call(CallOnce(Y)) && q[2] == Return
    ensures var t := AddWrapper(Add(s, Y, Plain(2)), Y);
            && Wrapped(t) && RunUser(s, q) == Result(t, q[3..], Normal)
            && t.lists == map[X := [Plain(0)], Y := [Plain(1), Plain(2), W]]
  {
    var s1 := Add(s, Y, Plain(2));
    var s2 := AddWrapper(s1, Y);
    AddWrapped(s, Y, 2);
    AddWrapperWrapped(s1, Y);
    assert [Plain(1)] + [Plain(2)] + [W] == [Plain(1), Plain(2), W];
    assert RunUser(s1, q[1..]) == RunUser(s2, q[2..]) == Result(s2, q[3..], Normal);
  }

  lemma InnerEmitEnds(s: State, q: Script)
    requires Wrapped(s) && Y in s.lists && s.lists[Y] == [Plain(1)] && q != [] && q[0] == Return
    ensures var t := End(Next(Log(Begin(s, Y), Plain(1), 1)), s.active);
            Wrapped(t) && Emit(s, q, Y) == Result(t, q[1..], Normal)
  {
    var s1 := Begin(s, Y);
    WrappedAs(s, s1);
    PlainRuns(s1, q, 1, Plain(1));
    var s2 := Log(s1, Plain(1), 1);
    WrappedAs(s2, Next(s2));
    WrappedAs(Next(s2), End(Next(s2), s.active));
    assert RunUser(s2, q) == Result(s2, q[1..], Normal);
    assert Walk(Next(s2), q[1..], 1) == Result(Next(s2), q[1..], Normal);
  }

  lemma OnBoth(rest: Script) returns (s: State)
    ensures SetUp(s, [Plain(1)]) && s.wrappers == 0 && s.runs == []
    ensures RunUser(NEW_STATE, [Call(CallOn(X, 0)), Call(CallOn(Y, 1))] + rest) == RunUser(s, rest)
  {
    var s1 := Add(NEW_STATE, X, Plain(0));
    s := Add(s1, Y, Plain(1));
    AddWrapped(NEW_STATE, X, 0);
    AddWrapped(s1, Y, 1);
    var nobody: seq<Listener> := [];
    assert nobody + [Plain(0)] == [Plain(0)] && nobody + [Plain(1)] == [Plain(1)];
    RunCall(NEW_STATE, CallOn(X, 0), [Call(CallOn(Y, 1))] + rest);
    RunCall(s1, CallOn(Y, 1), rest);
    assert [Call(CallOn(X, 0)), Call(CallOn(Y, 1))] + rest == [Call(CallOn(X, 0))] + ([Call(CallOn(Y, 1))] + rest);
  }

  /** The last emit, of emitter 1: all its listeners are called, the wrapper last. */
  lemma LastEmit(s: State, plain: seq<Listener>)
    requires SetUp(s, plain + [W]) && forall j :: 0 <= j < |plain| ==> plain[j].Plain?
    ensures var t := RunUser(s, [Call(CallEmit(Y))]).s;
            t.runs == s.runs + RunsOf(plain + [W], 1) && (s.crossed ==> t.crossed)
  {
    var n := EmitCalls(s, [], Y);
    CalledAll(plain + [W]);
    assert Called(plain + [W])[..n] == plain + [W];
    EmitKeeps(s, [], Y, 1);
    RunCall(s, CallEmit(Y), []);
    assert [Call(CallEmit(Y))] == [Call(CallEmit(Y))] + [];
  }

  lemma {:induction false} CallsPlus(a: seq<Run>, b: seq<Run>, l: Listener)
    ensures Calls(a + b, l) == Calls(a, l) + Calls(b, l)
  {
    if b == [] {
      assert a + b == a;
    } else {
      assert (a + b)[..|a + b| - 1] == a + b[..|b| - 1];
      CallsPlus(a, b[..|b| - 1], l);
    }
  }

  lemma LastCalls(runs: seq<Run>, r: Run)
    requires runs != [] && runs[|runs| - 1] == r
    ensures Calls(runs, r.listener) >= 1
  {
  }

  lemma TwoCalls(first: seq<Run>, plain: seq<Listener>)
    ensures Calls(first + [Run(Plain(0), 0), Run(Plain(1), 1), Run(W, 0)] + RunsOf(plain + [W], 1), W) >= 2
  {
    var a, b := [Run(Plain(0), 0), Run(Plain(1), 1), Run(W, 0)], RunsOf(plain + [W], 1);
    LastCalls(a, Run(W, 0));
    LastCalls(b, Run(W, 1));
    CallsPlus(first, a, W);
    CallsPlus(first + a, b, W);
  }

  lemma OnBothAndOnce(rest: Script) returns (t: State)
    ensures SetUp(t, [Plain(1), W]) && t.runs == []
    ensures RunUser(NEW_STATE, [Call(CallOn(X, 0)), Call(CallOn(Y, 1)), Call(CallOnce(Y))] + rest) == RunUser(t, rest)
  {
    var more := [Call(CallOnce(Y))] + rest;
    var s := OnBoth(more);
    assert [Call(CallOn(X, 0)), Call(CallOn(Y, 1)), Call(CallOnce(Y))] + rest
        == [Call(CallOn(X, 0)), Call(CallOn(Y, 1))] + more;
    t := AddWrapper(s, Y);
    AddWrapperWrapped(s, Y);
    assert [Plain(1)] + [W] == [Plain(1), W];
    RunCall(s, CallOnce(Y), rest);
  }

  lemma CutShortRunsTwice()
    ensures Calls(RunUser(NEW_STATE, CUT_SHORT).s.runs, W) > 1 && RunUser(NEW_STATE, CUT_SHORT).s.crossed
  {
    var q := CUT_SHORT[4..];
    var t := OnBothAndOnce([Call(CallEmit(X))] + q);
    assert CUT_SHORT == [Call(CallOn(X, 0)), Call(CallOn(Y, 1)), Call(CallOnce(Y))] + ([Call(CallEmit(X))] + q);
    CutShort(t, q);
    var r := Emit(t, q, X);
    RunCall(t, CallEmit(X), q);
    assert r.script == [Call(CallEmit(Y))];
    assert [Plain(1)] + [W] == [Plain(1), W];
    LastEmit(r.s, [Plain(1)]);
    TwoCalls([], [Plain(1)]);
  }

  lemma MadeLongerRunsTwice()
    ensures Calls(RunUser(NEW_STATE, MADE_LONGER).s.runs, W) > 1 && RunUser(NEW_STATE, MADE_LONGER).s.crossed
  {
    var rest := MADE_LONGER[2..];
    var s := OnBoth(rest);
    assert MADE_LONGER == [Call(CallOn(X, 0)), Call(CallOn(Y, 1))] + rest;
    var q := MADE_LONGER[3..];
    MadeLonger(s, q);
    var r := Emit(s, q, X);
    RunCall(s, CallEmit(X), q);
    assert rest == [Call(CallEmit(X))] + q;
    assert r.script == [Call(CallEmit(Y))];
    assert [Plain(1), Plain(2)] + [W] == [Plain(1), Plain(2), W];
    LastEmit(r.s, [Plain(1), Plain(2)]);
    TwoCalls([], [Plain(1), Plain(2)]);
  }
}
