/**
 The event emitter: what each operation does, as functions on the state that all emitters share.
 `emit` walks the live listener list with a variable that it never declares, and so do the emits
 nested in it: all of them share one `listeners` and one `i`.
 */
module Events {
  import opened Outcomes
  import opened Users

  /** The listener list of one event of one emitter. */
  datatype Channel = Channel(emitter: nat, event: string)

  /** A function given to on(), or the wrapper that one call of once() makes.  A wrapper knows its
      event; its emitter is remembered here only to say where it belongs. */
  datatype Listener = Plain(id: nat) | Once(id: nat, home: Channel)

  /** A listener called by an emit of the given emitter. */
  datatype Run = Run(listener: Listener, emitter: nat)

  /** A call that user code can make. */
  datatype Act =
    | CallOn(ch: Channel, id: nat)
    | CallOnce(ch: Channel)
    | CallRemove(ch: Channel, listener: Listener)
    | CallEmit(ch: Channel)

  /** A change of a list: what was added at its end, or the position taken out of it, and where the
      shared position stood then. */
  datatype Edit = Added(ch: Channel, l: Listener) | Removed(ch: Channel, k: nat, i: nat)

  datatype State = State(
    lists: map<Channel, seq<Listener>>,
    listeners: Channel,   // the list walked by the latest emit,
    i: nat,               // and the position in it: both shared by all emits
    wrappers: nat,        // calls of once() so far
    // history, which nothing the program does depends on
    runs: seq<Run>,       // the listeners called,
    edits: seq<Edit>,     // the changes of lists,
    active: Option<nat>,  // the emitter of the innermost emit in progress,
    crossed: bool)        // and whether an emit began while one of another emitter was in progress
  {
    function List(ch: Channel): seq<Listener> {
      if ch in lists then lists[ch] else []
    }
  }

  type Script = seq<Move<Act>>

  datatype Result = Result(s: State, script: Script, c: Completion)

  function Without<X>(s: seq<X>, k: nat): seq<X>
    requires k < |s|
  {
    s[..k] + s[k + 1..]
  }

  /** The last position of x in s, or |s|. */
  function LastIndex<X(==)>(s: seq<X>, x: X): (k: nat)
    ensures k <= |s|
    ensures k < |s| ==> s[k] == x
    ensures forall j :: k < j < |s| ==> s[j] != x
    ensures k == |s| ==> x !in s
  {
    if s == [] then 0
    else if s[|s| - 1] == x then |s| - 1
    else
      assert s == s[..|s| - 1] + [s[|s| - 1]];
      var k := LastIndex(s[..|s| - 1], x);
      if k == |s| - 1 then |s| else k
  }

  // ---------------------------------------------------------------- invariant

  predicate AtHome(r: Run) {
    r.listener.Once? && r.emitter == r.listener.home.emitter
  }

  /** A list holds only wrappers of its own, none of them twice. */
  ghost predicate Listed(list: seq<Listener>, ch: Channel, wrappers: nat) {
    && (forall j :: 0 <= j < |list| && list[j].Once? ==> list[j].home == ch && list[j].id < wrappers)
    && (forall j, k :: 0 <= j < k < |list| && list[j].Once? ==> list[j] != list[k])
  }

  /** The state is sound.  (The bound variable keeps the verifier from looking inside.) */
  ghost predicate Wrapped(s: State) {
    forall t :: t == s ==> Sound(t)
  }

  /** A wrapper called by its own emitter has been called once and is in its list no more. */
  ghost predicate Sound(s: State) {
    && (forall ch :: ch in s.lists ==> Listed(s.lists[ch], ch, s.wrappers))
    && (forall a :: 0 <= a < |s.runs| && AtHome(s.runs[a]) ==>
          && s.runs[a].listener.id < s.wrappers
          && s.runs[a].listener !in s.List(s.runs[a].listener.home))
    && (forall a, b :: 0 <= a < b < |s.runs| && AtHome(s.runs[a]) ==> s.runs[a] != s.runs[b])
  }

  /** A wrapper that is in its list no more, and that its emitter has not called. */
  ghost predicate Spent(s: State, l: Listener) {
    && l.Once? && l.id < s.wrappers
    && l !in s.List(l.home) && Run(l, l.home.emitter) !in s.runs
  }

  ghost predicate SpentStay(s: State, t: State) {
    s.wrappers <= t.wrappers && forall l :: Spent(s, l) ==> Spent(t, l)
  }

  /** The wrappers still registered. */
  ghost function Armed(s: State): set<Listener> {
    set ch, l | ch in s.lists && l in s.lists[ch] && l.Once? :: l
  }

  ghost function Left(s: State): nat {
    if s.i < |s.List(s.listeners)| then |s.List(s.listeners)| - s.i else 0
  }

  function Add(s: State, ch: Channel, l: Listener): State {
    s.(lists := s.lists[ch := s.List(ch) + [l]], edits := s.edits + [Added(ch, l)])
  }

  function AddWrapper(s: State, ch: Channel): State {
    Add(s, ch, Once(s.wrappers, ch)).(wrappers := s.wrappers + 1)
  }

  function Splice(s: State, ch: Channel, l: Listener): State {
    var list := s.List(ch);
    var k := LastIndex(list, l);
    if k < |list| then s.(lists := s.lists[ch := Without(list, k)], edits := s.edits + [Removed(ch, k, s.i)])
    else s
  }

  function Log(s: State, l: Listener, emitter: nat): State {
    s.(runs := s.runs + [Run(l, emitter)])
  }

  lemma AddWrapped(s: State, ch: Channel, id: nat)
    requires Wrapped(s)
    ensures Wrapped(Add(s, ch, Plain(id))) && SpentStay(s, Add(s, ch, Plain(id)))
  {
    assert Sound(s);
    assert Listed(s.List(ch), ch, s.wrappers);
  }

  lemma AddWrapperWrapped(s: State, ch: Channel)
    requires Wrapped(s)
    ensures Wrapped(AddWrapper(s, ch)) && SpentStay(s, AddWrapper(s, ch))
  {
    assert Sound(s);
    assert Listed(s.List(ch), ch, s.wrappers);
  }

  lemma WithoutListed(list: seq<Listener>, k: nat, ch: Channel, wrappers: nat)
    requires k < |list| && Listed(list, ch, wrappers)
    ensures Listed(Without(list, k), ch, wrappers)
    ensures list[k].Once? ==> list[k] !in Without(list, k)
    ensures forall l :: l in Without(list, k) ==> l in list
  {
    forall j | 0 <= j < |list| - 1 ensures Without(list, k)[j] == list[if j < k then j else j + 1] {}
  }

  /** removeListener takes out the last occurrence, and touches nothing else. */
  lemma {:induction false} SpliceTakesLast(s: State, ch: Channel, l: Listener)
    requires l in s.List(ch)
    ensures exists k :: 0 <= k < |s.List(ch)| && s.List(ch)[k] == l && l !in s.List(ch)[k + 1..]
                     && Splice(s, ch, l).List(ch) == s.List(ch)[..k] + s.List(ch)[k + 1..]
    ensures forall c :: c != ch ==> Splice(s, ch, l).List(c) == s.List(c)
  {
    var k := LastIndex(s.List(ch), l);
    assert s.List(ch)[k] == l && l !in s.List(ch)[k + 1..];
  }

  lemma SpliceWrapped(s: State, ch: Channel, l: Listener)
    requires Wrapped(s)
    ensures Wrapped(Splice(s, ch, l)) && SpentStay(s, Splice(s, ch, l))
    ensures Armed(Splice(s, ch, l)) <= Armed(s)
    ensures l.Once? && l in s.List(ch) ==> l in Armed(s) && l !in Armed(Splice(s, ch, l))
    ensures l.Once? && l.home == ch && l in s.List(ch) ==> Spent(Splice(s, ch, l), l)
  {
    assert Sound(s);
    var k := LastIndex(s.List(ch), l);
    if k < |s.List(ch)| {
      WithoutListed(s.List(ch), k, ch, s.wrappers);
    }
  }

  /** The state as the listener `l` begins to run, called by `emitter`. */
  lemma LogWrapped(s: State, l: Listener, emitter: nat)
    requires Wrapped(s)
    requires AtHome(Run(l, emitter)) ==> Spent(s, l)
    ensures Wrapped(Log(s, l, emitter))
    ensures forall d :: Spent(s, d) && Run(d, d.home.emitter) != Run(l, emitter) ==> Spent(Log(s, l, emitter), d)
    ensures Armed(Log(s, l, emitter)) == Armed(s)
  {
    assert Sound(s);
  }

  /** Soundness depends on the lists and the calls alone. */
  lemma WrappedAs(s: State, t: State)
    requires Wrapped(s) && t.lists == s.lists && t.wrappers == s.wrappers && t.runs == s.runs
    ensures Wrapped(t) && SpentStay(s, t) && Armed(t) == Armed(s)
  {
    assert Sound(s);
  }

  /** The step of the loop of emit. */
  function Next(s: State): State {
    s.(i := s.i + 1)
  }

  function Begin(s: State, ch: Channel): State {
    s.(listeners := ch, i := 0, active := Some(ch.emitter),
       crossed := s.crossed || (s.active.Some? && s.active.value != ch.emitter))
  }

  function End(s: State, outer: Option<nat>): State {
    s.(active := outer)
  }

  /** A wrapper that was in the list being walked may run once it has been taken out of its own. */
  lemma WrapperRuns(s: State, l: Listener, emitter: nat, t: State)
    requires Wrapped(s) && l.Once? && l in s.List(s.listeners)
    requires Wrapped(t) && SpentStay(s, t) && SpentStay(Splice(s, Channel(emitter, l.home.event), l), t)
    ensures Wrapped(Log(t, l, emitter)) && SpentStay(s, Log(t, l, emitter))
    ensures Armed(Log(t, l, emitter)) == Armed(t)
  {
    assert Sound(s);
    assert Listed(s.lists[s.listeners], s.listeners, s.wrappers);
    SpliceWrapped(s, Channel(emitter, l.home.event), l);
    LogWrapped(t, l, emitter);
  }

  // ---------------------------------------------------------------- operations

  /** User code, until it returns or an exception leaves it. */
  function RunUser(s: State, script: Script): (r: Result)
    requires Wrapped(s)
    ensures Wrapped(r.s) && SpentStay(s, r.s) && |r.script| <= |script|
    ensures |r.script| == |script| ==> r == Result(s, script, Normal)
    decreases |script|, Armed(s), 0, 0
  {
    if script == [] then Result(s, [], Normal)
    else
      var rest := script[1..];
      match script[0]
      case Return => Result(s, rest, Normal)
      case Catch => RunUser(s, rest)
      case Raise => Result(s, rest, Throw)
      case Call(act) =>
        var r := Perform(s, rest, act);
        if r.c == Throw then Unwind(r.s, r.script) else RunUser(r.s, r.script)
  }

  /** The exception of a call arrives in the user code that made it. */
  function Unwind(s: State, script: Script): (r: Result)
    requires Wrapped(s)
    ensures Wrapped(r.s) && SpentStay(s, r.s) && |r.script| <= |script|
    decreases |script|, Armed(s), 0, 1
  {
    if script != [] && script[0] == Catch then RunUser(s, script[1..]) else Result(s, script, Throw)
  }

  function Perform(s: State, script: Script, act: Act): (r: Result)
    requires Wrapped(s)
    ensures Wrapped(r.s) && SpentStay(s, r.s) && |r.script| <= |script|
    decreases |script|, Armed(s), 4, 0
  {
    match act
    case CallOn(ch, id) => AddWrapped(s, ch, id); Result(Add(s, ch, Plain(id)), script, Normal)
    case CallOnce(ch) => AddWrapperWrapped(s, ch); Result(AddWrapper(s, ch), script, Normal)
    case CallRemove(ch, l) => SpliceWrapped(s, ch, l); RemoveListener(s, script, ch, l)
    case CallEmit(ch) => Emit(s, script, ch)
  }

  /** Takes out the last occurrence, and emits 'removeListener' if there was one. */
  function RemoveListener(s: State, script: Script, ch: Channel, l: Listener): (r: Result)
    requires Wrapped(s)
    ensures Wrapped(r.s) && SpentStay(s, r.s) && |r.script| <= |script|
    ensures |r.script| == |script| ==> Armed(r.s) <= Armed(Splice(s, ch, l))
    ensures SpentStay(Splice(s, ch, l), r.s)
    ensures l !in s.List(ch) ==> r == Result(s, script, Normal)
    decreases |script|, Armed(Splice(s, ch, l)), if l in s.List(ch) then 3 else 0, 0
  {
    SpliceWrapped(s, ch, l);
    if l in s.List(ch) then Emit(Splice(s, ch, l), script, Channel(ch.emitter, "removeListener"))
    else Result(s, script, Normal)
  }

  function Emit(s: State, script: Script, ch: Channel): (r: Result)
    requires Wrapped(s)
    ensures Wrapped(r.s) && SpentStay(s, r.s) && |r.script| <= |script|
    ensures |r.script| == |script| ==> Armed(r.s) <= Armed(s)
    decreases |script|, Armed(s), 2, 0
  {
    if ch in s.lists then
      WrappedAs(s, Begin(s, ch));
      var r := Walk(Begin(s, ch), script, ch.emitter);
      WrappedAs(r.s, End(r.s, s.active));
      r.(s := End(r.s, s.active))
    else Result(s, script, Normal)
  }

  /** The loop of emit: the listener to call, the loop test and the step all look at the shared
      variables as they are now. */
  function Walk(s: State, script: Script, emitter: nat): (r: Result)
    requires Wrapped(s)
    ensures Wrapped(r.s) && SpentStay(s, r.s) && |r.script| <= |script|
    ensures |r.script| == |script| ==> Armed(r.s) <= Armed(s)
    decreases |script|, Armed(s), 1, Left(s)
  {
    if s.i < |s.List(s.listeners)| then
      var r := Invoke(s, script, emitter, s.List(s.listeners)[s.i]);
      if r.c == Throw then r
      else
        WrappedAs(r.s, Next(r.s));
        Walk(Next(r.s), r.script, emitter)
    else Result(s, script, Normal)
  }

  /** A wrapper takes itself out of its event's list, on the emitter that calls it, and then runs its
      listener. */
  function Invoke(s: State, script: Script, emitter: nat, l: Listener): (r: Result)
    requires Wrapped(s) && l in s.List(s.listeners)
    ensures Wrapped(r.s) && SpentStay(s, r.s) && |r.script| <= |script|
    ensures |r.script| == |script| ==> Armed(r.s) <= Armed(s)
    ensures |r.script| == |script| && Armed(r.s) == Armed(s) ==>
              r.s.lists == s.lists && r.s.listeners == s.listeners && r.s.i == s.i
    decreases |script|, Armed(s), 1, 0
  {
    if l.Plain? then
      LogWrapped(s, l, emitter);
      RunUser(Log(s, l, emitter), script)
    else
      var ch := Channel(emitter, l.home.event);
      SpliceWrapped(s, ch, l);
      var r := RemoveListener(s, script, ch, l);
      if r.c == Throw then r
      else
        WrapperRuns(s, l, emitter, r.s);
        RunUser(Log(r.s, l, emitter), r.script)
  }

  /** One turn of the loop of emit. */
  lemma WalkStep(s: State, script: Script, emitter: nat)
    requires Wrapped(s) && s.i < |s.List(s.listeners)|
    ensures var r := Invoke(s, script, emitter, s.List(s.listeners)[s.i]);
            var t := Next(r.s);
            && Wrapped(t) && Armed(t) == Armed(r.s)
            && Walk(s, script, emitter) == (if r.c == Throw then r else Walk(t, r.script, emitter))
            && (|r.script| < |script|
                || (|r.script| == |script| && Armed(t) < Armed(s))
                || (|r.script| == |script| && Armed(t) == Armed(s) && Left(t) < Left(s)))
  {
    var r := Invoke(s, script, emitter, s.List(s.listeners)[s.i]);
    WrappedAs(r.s, Next(r.s));
  }

  const NEW_STATE := State(map[], Channel(0, ""), 0, 0, [], [], None, false)
}
