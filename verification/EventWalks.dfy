/** What an emit calls: the loop over a list that the listeners themselves change. */
module EventWalks {
  import opened Outcomes
  import opened Users
  import opened Events
  import Turns

  function RunsOf(list: seq<Listener>, emitter: nat): seq<Run> {
    seq(|list|, k requires 0 <= k < |list| => Run(list[k], emitter))
  }

  /** `sub` is `list` with some elements left out. */
  predicate Subsequence<X(==)>(sub: seq<X>, list: seq<X>) {
    if sub == [] then true
    else
      && list != []
      && (Subsequence(sub, list[1..]) || (sub[0] == list[0] && Subsequence(sub[1..], list[1..])))
  }

  lemma {:induction false} SubsequenceSelf<X>(list: seq<X>)
    ensures Subsequence(list, list)
  {
    if list != [] {
      SubsequenceSelf(list[1..]);
    }
  }

  lemma {:induction false} SubsequenceTrans<X>(a: seq<X>, b: seq<X>, c: seq<X>)
    requires Subsequence(a, b) && Subsequence(b, c)
    ensures Subsequence(a, c)
    decreases |c|
  {
    if a != [] {
      if Subsequence(b, c[1..]) {
        SubsequenceTrans(a, b, c[1..]);
      } else if Subsequence(a, b[1..]) {
        SubsequenceTrans(a, b[1..], c[1..]);
      } else {
        SubsequenceTrans(a[1..], b[1..], c[1..]);
      }
    }
  }

  lemma {:induction false} SubsequencePlus<X>(a: seq<X>, b: seq<X>, c: seq<X>)
    requires Subsequence(a, b)
    ensures Subsequence(a + c, b + c)
  {
    if b == [] {
      assert a + c == b + c == c;
      SubsequenceSelf(c);
    } else {
      assert (b + c)[1..] == b[1..] + c;
      if a == [] || Subsequence(a, b[1..]) {
        SubsequencePlus(a, b[1..], c);
        assert Subsequence(a + c, (b + c)[1..]);
      } else {
        SubsequencePlus(a[1..], b[1..], c);
        assert (a + c)[1..] == a[1..] + c;
        assert (a + c)[0] == (b + c)[0];
      }
    }
  }

  lemma {:induction false} SubsequenceWithout<X>(list: seq<X>, k: nat)
    requires k < |list|
    ensures Subsequence(Without(list, k), list)
  {
    if k == 0 {
      assert Without(list, 0) == list[1..];
      SubsequenceSelf(list[1..]);
    } else {
      SubsequenceWithout(list[1..], k - 1);
      assert Without(list, k)[1..] == Without(list[1..], k - 1);
    }
  }

  lemma {:induction false} SubsequenceFull<X>(sub: seq<X>, list: seq<X>)
    requires Subsequence(sub, list)
    ensures |sub| <= |list|
    ensures |sub| == |list| ==> sub == list
  {
    if sub != [] {
      if Subsequence(sub, list[1..]) {
        SubsequenceFull(sub, list[1..]);
      } else {
        SubsequenceFull(sub[1..], list[1..]);
        assert sub == [sub[0]] + sub[1..] && list == [list[0]] + list[1..];
      }
    }
  }

  // ---------------------------------------------------------------- listeners that change the list

  /** While a listener runs: the listeners still to be called; `owed`, how many more the walk will miss,
      none of them being there yet; those that it has missed, and those taken out before their turn. */
  datatype Ahead = Ahead(next: seq<Listener>, owed: nat, missed: seq<Listener>, dropped: seq<Listener>)

  /** What a change of the list does to what lies ahead.  If something goes at or before the current
      position, the first listener ahead slides under it and is missed. */
  function Meet(a: Ahead, e: Edit, ch: Channel): Ahead {
    if e.ch != ch then a
    else
      match e
      case Added(_, l) =>
        if a.owed > 0 then a.(owed := a.owed - 1, missed := a.missed + [l]) else a.(next := a.next + [l])
      case Removed(_, k, i) =>
        if k <= i then
          if a.next == [] then a.(owed := a.owed + 1)
          else a.(next := a.next[1..], missed := a.missed + [a.next[0]])
        else if k - i - 1 < |a.next| then
          a.(next := Without(a.next, k - i - 1), dropped := a.dropped + [a.next[k - i - 1]])
        else a
  }

  function MeetAll(a: Ahead, edits: seq<Edit>, ch: Channel): Ahead
    decreases |edits|
  {
    if edits == [] then a else MeetAll(Meet(a, edits[0], ch), edits[1..], ch)
  }

  function AddedTo(edits: seq<Edit>, ch: Channel): seq<Listener> {
    if edits == [] then []
    else (if edits[0].Added? && edits[0].ch == ch then [edits[0].l] else []) + AddedTo(edits[1..], ch)
  }

  /** How often something went at or before the current position. */
  function Behind(edits: seq<Edit>, ch: Channel): nat {
    if edits == [] then 0
    else (if edits[0].Removed? && edits[0].ch == ch && edits[0].k <= edits[0].i then 1 else 0)
         + Behind(edits[1..], ch)
  }

  /** One turn of the loop: the first of the listeners to come is called and makes the changes `turn`. */
  function TurnOf(upcoming: seq<Listener>, turn: seq<Edit>, ch: Channel): Ahead
    requires upcoming != []
  {
    MeetAll(Ahead(upcoming[1..], 0, [], []), turn, ch)
  }

  /** A whole walk, given what each listener does to the list: the listeners called, missed, taken out
      before their turn, and left when the walk stops. */
  datatype Walked = Walked(calls: seq<Listener>, missed: seq<Listener>, dropped: seq<Listener>, left: seq<Listener>)

  function WalkOf(upcoming: seq<Listener>, turns: seq<seq<Edit>>, ch: Channel): Walked
    decreases |turns|
  {
    if upcoming == [] || turns == [] then Walked([], [], [], upcoming)
    else
      var a := TurnOf(upcoming, turns[0], ch);
      var w := WalkOf(a.next, turns[1..], ch);
      Walked([upcoming[0]] + w.calls, a.missed + w.missed, a.dropped + w.dropped, w.left)
  }

  function Flat(turns: seq<seq<Edit>>): seq<Edit> {
    if turns == [] then [] else turns[0] + Flat(turns[1..])
  }

  lemma {:induction false} AddedMore(x: seq<Edit>, y: seq<Edit>, ch: Channel)
    ensures AddedTo(x + y, ch) == AddedTo(x, ch) + AddedTo(y, ch)
    ensures Behind(x + y, ch) == Behind(x, ch) + Behind(y, ch)
  {
    if x == [] {
      assert x + y == y;
    } else {
      assert (x + y)[1..] == x[1..] + y;
      AddedMore(x[1..], y, ch);
    }
  }

  lemma {:induction false} MeetMore(a: Ahead, x: seq<Edit>, y: seq<Edit>, ch: Channel)
    ensures MeetAll(a, x + y, ch) == MeetAll(MeetAll(a, x, ch), y, ch)
    decreases |x|
  {
    if x == [] {
      assert x + y == y;
    } else {
      assert (x + y)[1..] == x[1..] + y;
      MeetMore(Meet(a, x[0], ch), x[1..], y, ch);
    }
  }

  /** How often x is in a list. */
  function Times(list: seq<Listener>, x: Listener): nat {
    if list == [] then 0 else (if list[0] == x then 1 else 0) + Times(list[1..], x)
  }

  function Known(a: Ahead, x: Listener): nat {
    Times(a.next, x) + Times(a.missed, x) + Times(a.dropped, x)
  }

  lemma {:induction false} TimesPlus(list: seq<Listener>, more: seq<Listener>, x: Listener)
    ensures Times(list + more, x) == Times(list, x) + Times(more, x)
  {
    if list == [] {
      assert list + more == more;
    } else {
      TimesPlus(list[1..], more, x);
      assert (list + more)[1..] == list[1..] + more;
    }
  }

  lemma TimesOne(l: Listener, x: Listener)
    ensures Times([l], x) == if l == x then 1 else 0
  {
  }

  lemma WithoutKeeps(list: seq<Listener>, k: nat, x: Listener)
    requires k < |list|
    ensures Times(list, x) == Times(Without(list, k), x) + Times([list[k]], x)
    ensures k == 0 ==> list[1..] == Without(list, 0)
  {
    assert list == list[..k] + ([list[k]] + list[k + 1..]);
    TimesPlus(list[..k], [list[k]] + list[k + 1..], x);
    TimesPlus([list[k]], list[k + 1..], x);
    TimesPlus(list[..k], list[k + 1..], x);
  }

  lemma MeetKeeps(a: Ahead, e: Edit, ch: Channel, x: Listener)
    ensures Known(Meet(a, e, ch), x) == Known(a, x) + if e.Added? && e.ch == ch && e.l == x then 1 else 0
  {
    if e.ch == ch {
      if e.Added? {
        TimesPlus(if a.owed > 0 then a.missed else a.next, [e.l], x);
        TimesOne(e.l, x);
      } else if e.k <= e.i && a.next != [] {
        MissKeeps(a, x);
      } else if 0 <= e.k - e.i - 1 < |a.next| {
        DropKeeps(a, e.k - e.i - 1, x);
      }
    }
  }

  lemma MissKeeps(a: Ahead, x: Listener)
    requires a.next != []
    ensures Times(a.next[1..], x) + Times(a.missed + [a.next[0]], x) == Times(a.next, x) + Times(a.missed, x)
  {
    WithoutKeeps(a.next, 0, x);
    TimesPlus(a.missed, [a.next[0]], x);
  }

  lemma DropKeeps(a: Ahead, j: nat, x: Listener)
    requires j < |a.next|
    ensures Times(Without(a.next, j), x) + Times(a.dropped + [a.next[j]], x) == Times(a.next, x) + Times(a.dropped, x)
  {
    WithoutKeeps(a.next, j, x);
    TimesPlus(a.dropped, [a.next[j]], x);
  }

  lemma {:induction false} MeetAllKeeps(a: Ahead, edits: seq<Edit>, ch: Channel, x: Listener)
    ensures Known(MeetAll(a, edits, ch), x) == Known(a, x) + Times(AddedTo(edits, ch), x)
    decreases |edits|
  {
    if edits != [] {
      var e := edits[0];
      MeetKeeps(a, e, ch, x);
      MeetAllKeeps(Meet(a, e, ch), edits[1..], ch, x);
      if e.Added? && e.ch == ch {
        TimesPlus([e.l], AddedTo(edits[1..], ch), x);
        TimesOne(e.l, x);
      } else {
        assert AddedTo(edits, ch) == AddedTo(edits[1..], ch);
      }
    }
  }

  lemma {:induction false} MissedCount(a: Ahead, edits: seq<Edit>, ch: Channel)
    requires a.owed > 0 ==> a.next == []
    ensures var b := MeetAll(a, edits, ch);
            && |b.missed| + b.owed == |a.missed| + a.owed + Behind(edits, ch)
            && (b.owed > 0 ==> b.next == [])
    decreases |edits|
  {
    if edits != [] {
      MissedCount(Meet(a, edits[0], ch), edits[1..], ch);
    }
  }

  /** A turn misses a listener exactly when something at or before the current position is removed: one
      for each such removal, as far as there are, or come to be, listeners to miss. */
  lemma MissedByRemoval(upcoming: seq<Listener>, turn: seq<Edit>, ch: Channel)
    requires upcoming != []
    ensures var a := TurnOf(upcoming, turn, ch);
            && |a.missed| + a.owed == Behind(turn, ch)
            && (a.owed > 0 ==> a.next == [])
  {
    MissedCount(Ahead(upcoming[1..], 0, [], []), turn, ch);
  }

  /** Every listener of the list, and every one added, is called, missed, taken out before its turn, or
      left when the walk stops; and none of them twice. */
  lemma {:induction false} WalkKeeps(upcoming: seq<Listener>, turns: seq<seq<Edit>>, ch: Channel, x: Listener)
    requires |WalkOf(upcoming, turns, ch).calls| == |turns|
    ensures var w := WalkOf(upcoming, turns, ch);
            Times(upcoming, x) + Times(AddedTo(Flat(turns), ch), x)
            == Times(w.calls, x) + Times(w.missed, x) + Times(w.dropped, x) + Times(w.left, x)
    decreases |turns|
  {
    if upcoming != [] && turns != [] {
      var rest, a := upcoming[1..], TurnOf(upcoming, turns[0], ch);
      MeetAllKeeps(Ahead(rest, 0, [], []), turns[0], ch, x);
      WalkKeeps(a.next, turns[1..], ch, x);
      AddedMore(turns[0], Flat(turns[1..]), ch);
      TimesPlus(AddedTo(turns[0], ch), AddedTo(Flat(turns[1..]), ch), x);
      WalkedPlus(upcoming[0], a, WalkOf(a.next, turns[1..], ch), x);
      TimesPlus([upcoming[0]], rest, x);
      assert upcoming == [upcoming[0]] + rest;
    }
  }

  lemma WalkedPlus(l: Listener, a: Ahead, w: Walked, x: Listener)
    ensures Times([l] + w.calls, x) == Times([l], x) + Times(w.calls, x)
    ensures Times(a.missed + w.missed, x) == Times(a.missed, x) + Times(w.missed, x)
    ensures Times(a.dropped + w.dropped, x) == Times(a.dropped, x) + Times(w.dropped, x)
  {
    TimesPlus([l], w.calls, x);
    TimesPlus(a.missed, w.missed, x);
    TimesPlus(a.dropped, w.dropped, x);
  }

  lemma {:induction false} MeetAllInOrder(a: Ahead, base: seq<Listener>, edits: seq<Edit>, ch: Channel)
    requires Subsequence(a.next, base) && (a.owed > 0 ==> a.next == [])
    ensures Subsequence(MeetAll(a, edits, ch).next, base + AddedTo(edits, ch))
    decreases |edits|
  {
    if edits == [] {
      assert base + [] == base;
    } else {
      var more := if edits[0].Added? && edits[0].ch == ch then [edits[0].l] else [];
      MeetInOrder(a, base, edits[0], ch);
      MeetAllInOrder(Meet(a, edits[0], ch), base + more, edits[1..], ch);
      assert (base + more) + AddedTo(edits[1..], ch) == base + AddedTo(edits, ch);
    }
  }

  lemma MeetInOrder(a: Ahead, base: seq<Listener>, e: Edit, ch: Channel)
    requires Subsequence(a.next, base) && (a.owed > 0 ==> a.next == [])
    ensures Subsequence(Meet(a, e, ch).next, base + if e.Added? && e.ch == ch then [e.l] else [])
  {
    if e.ch == ch && e.Added? {
      SubsequencePlus(a.next, base, [e.l]);
    } else {
      assert base + [] == base;
      var j := if e.Added? || e.k <= e.i then 0 else e.k - e.i - 1;
      if j < |a.next| {
        SubsequenceWithout(a.next, j);
        assert a.next[1..] == Without(a.next, 0);
        SubsequenceTrans(Without(a.next, j), a.next, base);
      }
    }
  }

  /** What a walk calls is, in order, part of the list and what is added to it. */
  lemma {:induction false} WalkInOrder(upcoming: seq<Listener>, turns: seq<seq<Edit>>, ch: Channel)
    ensures Subsequence(WalkOf(upcoming, turns, ch).calls, upcoming + AddedTo(Flat(turns), ch))
    decreases |turns|
  {
    if upcoming != [] && turns != [] {
      var a, rest := TurnOf(upcoming, turns[0], ch), upcoming[1..];
      var x, y := AddedTo(turns[0], ch), AddedTo(Flat(turns[1..]), ch);
      SubsequenceSelf(rest);
      MeetAllInOrder(Ahead(rest, 0, [], []), rest, turns[0], ch);
      WalkInOrder(a.next, turns[1..], ch);
      SubsequencePlus(a.next, rest + x, y);
      var calls := WalkOf(a.next, turns[1..], ch).calls;
      SubsequenceTrans(calls, a.next + y, rest + x + y);
      AddedMore(turns[0], Flat(turns[1..]), ch);
      assert (upcoming + (x + y))[1..] == rest + x + y;
      assert ([upcoming[0]] + calls)[1..] == calls;
    }
  }

  // What the functions of Events do with the list is what WalkOf says.

  function Since(s: State, t: State): seq<Edit> {
    if |s.edits| <= |t.edits| then t.edits[|s.edits|..] else []
  }

  /** What each listener called by a walk does to the lists. */
  ghost function TurnsOf(s: State, script: Script, emitter: nat): seq<seq<Edit>>
    requires Wrapped(s)
    decreases |script|, Armed(s), Left(s)
  {
    if s.i < |s.List(s.listeners)| then
      var r := Invoke(s, script, emitter, s.List(s.listeners)[s.i]);
      WalkStep(s, script, emitter);
      [Since(s, r.s)] + if r.c == Throw then [] else TurnsOf(Next(r.s), r.script, emitter)
    else []
  }

  /** Listeners may change any list of any emitter, throw, and catch, but make no emit themselves; and no
      one listens for 'removeListener', which every removal emits. */
  predicate Harmless(act: Act) {
    act.CallRemove? || ((act.CallOn? || act.CallOnce?) && act.ch.event != "removeListener")
  }

  // What is said of listeners is said of the moves they make: those of `script` before `rest`, which is
  // what they leave of it.

  ghost predicate NoEmits(script: Script, rest: Script) {
    forall k :: 0 <= k < |script| - |rest| && script[k].Call? ==> Harmless(script[k].act)
  }

  ghost predicate NoRaise(script: Script, rest: Script) {
    forall k :: 0 <= k < |script| - |rest| ==> script[k] != Raise
  }

  /** Listeners that change other lists only. */
  ghost predicate LeavesAlone(script: Script, rest: Script, ch: Channel) {
    forall k :: 0 <= k < |script| - |rest| && script[k].Call? ==> script[k].act.ch != ch
  }

  ghost predicate Suffix(rest: Script, script: Script) {
    |rest| <= |script| && script[|script| - |rest|..] == rest
  }

  /** What holds of the moves before `rest` holds of those before and those after `mid`. */
  lemma InParts(script: Script, mid: Script, rest: Script, ch: Channel)
    requires Suffix(mid, script) && |rest| <= |mid|
    ensures NoEmits(script, rest) ==> NoEmits(script, mid) && NoEmits(mid, rest)
    ensures NoRaise(script, rest) ==> NoRaise(script, mid) && NoRaise(mid, rest)
    ensures LeavesAlone(script, rest, ch) ==> LeavesAlone(script, mid, ch) && LeavesAlone(mid, rest, ch)
    ensures Suffix(rest, mid) ==> Suffix(rest, script)
  {
    var n := |script| - |mid|;
    forall k | 0 <= k < |mid| ensures mid[k] == script[n + k] {
      assert script[n..][k] == script[n + k];
    }
    if Suffix(rest, mid) {
      assert script[|script| - |rest|..] == script[n..][|mid| - |rest|..];
    }
  }

  ghost predicate Unheard(s: State) {
    forall ch :: ch in s.lists ==> ch.event != "removeListener"
  }

  /** `a` is what lies ahead of the shared position in the list being walked. */
  ghost predicate Tracks(a: Ahead, s: State) {
    var list := s.List(s.listeners);
    if s.i + 1 <= |list| then a.next == list[s.i + 1..] && a.owed == 0
    else a.next == [] && a.owed == s.i + 1 - |list|
  }

  /** From s to t lists have changed, and nothing else that a walk looks at. */
  ghost predicate OnlyEdits(s: State, t: State) {
    && s.edits <= t.edits && t.listeners == s.listeners && t.i == s.i
    && (Unheard(s) ==> Unheard(t))
  }

  lemma AddTracks(a: Ahead, s: State, ch: Channel, l: Listener)
    requires Tracks(a, s) && ch.event != "removeListener"
    ensures OnlyEdits(s, Add(s, ch, l)) && Tracks(MeetAll(a, Since(s, Add(s, ch, l)), s.listeners), Add(s, ch, l))
  {
    var t := Add(s, ch, l);
    assert Since(s, t) == [Added(ch, l)];
    if ch == s.listeners && s.i + 1 <= |s.List(ch)| {
      assert t.List(ch)[s.i + 1..] == s.List(ch)[s.i + 1..] + [l];
    }
  }

  lemma SpliceTracks(a: Ahead, s: State, ch: Channel, l: Listener)
    requires Tracks(a, s)
    ensures OnlyEdits(s, Splice(s, ch, l))
    ensures Tracks(MeetAll(a, Since(s, Splice(s, ch, l)), s.listeners), Splice(s, ch, l))
  {
    var t, list := Splice(s, ch, l), s.List(ch);
    var k := LastIndex(list, l);
    if k < |list| {
      assert Since(s, t) == [Removed(ch, k, s.i)];
      if ch == s.listeners && s.i + 1 <= |list| {
        if k > s.i {
          assert t.List(ch)[s.i + 1..] == Without(list[s.i + 1..], k - s.i - 1);
        } else if s.i + 1 < |list| {
          assert t.List(ch)[s.i + 1..] == list[s.i + 1..][1..];
        }
      }
    } else {
      assert Since(s, t) == [];
    }
  }

  lemma QuietRemove(s: State, script: Script, ch: Channel, l: Listener)
    requires Wrapped(s) && Unheard(s)
    ensures Wrapped(Splice(s, ch, l)) && RemoveListener(s, script, ch, l) == Result(Splice(s, ch, l), script, Normal)
  {
    SpliceWrapped(s, ch, l);
    assert Channel(ch.emitter, "removeListener") !in Splice(s, ch, l).lists;
  }

  lemma QuietPerform(a: Ahead, s: State, script: Script, act: Act)
    requires Wrapped(s) && Unheard(s) && Harmless(act) && Tracks(a, s)
    ensures var r := Perform(s, script, act);
            && r.c == Normal && r.script == script && OnlyEdits(s, r.s) && r.s.runs == s.runs
            && Tracks(MeetAll(a, Since(s, r.s), s.listeners), r.s)
  {
    match act
    case CallOn(ch, id) => AddTracks(a, s, ch, Plain(id));
    case CallOnce(ch) =>
      var l := Once(s.wrappers, ch);
      AddTracks(a, s, ch, l);
      assert Since(s, AddWrapper(s, ch)) == Since(s, Add(s, ch, l));
    case CallRemove(ch, l) => QuietRemove(s, script, ch, l); SpliceTracks(a, s, ch, l);
    case CallEmit(_) =>
  }

  lemma SinceMore(a: Ahead, s: State, t: State, u: State, ch: Channel)
    requires s.edits <= t.edits <= u.edits
    ensures Since(s, u) == Since(s, t) + Since(t, u)
    ensures MeetAll(a, Since(s, u), ch) == MeetAll(MeetAll(a, Since(s, t), ch), Since(t, u), ch)
  {
    MeetMore(a, Since(s, t), Since(t, u), ch);
  }

  lemma {:induction false} QuietUser(a: Ahead, s: State, script: Script)
    requires Wrapped(s) && Unheard(s) && NoEmits(script, RunUser(s, script).script) && Tracks(a, s)
    ensures var r := RunUser(s, script);
            && OnlyEdits(s, r.s) && r.s.runs == s.runs && Suffix(r.script, script)
            && (NoRaise(script, r.script) ==> r.c == Normal)
            && Tracks(MeetAll(a, Since(s, r.s), s.listeners), r.s)
    decreases |script|
  {
    if script != [] {
      var rest, end := script[1..], RunUser(s, script).script;
      assert Suffix(rest, script);
      InParts(script, rest, end, s.listeners);
      match script[0]
      case Return =>
      case Raise =>
      case Catch => QuietUser(a, s, rest);
      case Call(act) =>
        assert Harmless(script[0].act);
        QuietPerform(a, s, rest, act);
        var t := Perform(s, rest, act).s;
        QuietUser(MeetAll(a, Since(s, t), s.listeners), t, rest);
        SinceMore(a, s, t, RunUser(t, rest).s, s.listeners);
    }
  }

  lemma LogTracks(a: Ahead, s: State, l: Listener, emitter: nat)
    requires Tracks(a, s)
    ensures Tracks(a, Log(s, l, emitter))
  {
  }

  lemma QuietInvoke(a: Ahead, s: State, script: Script, emitter: nat)
    requires Wrapped(s) && Unheard(s) && Tracks(a, s) && s.i < |s.List(s.listeners)|
    requires NoEmits(script, Invoke(s, script, emitter, s.List(s.listeners)[s.i]).script)
    ensures var l := s.List(s.listeners)[s.i];
            var r := Invoke(s, script, emitter, l);
            && OnlyEdits(s, r.s) && r.s.runs == s.runs + [Run(l, emitter)] && Suffix(r.script, script)
            && (NoRaise(script, r.script) ==> r.c == Normal)
            && Tracks(MeetAll(a, Since(s, r.s), s.listeners), r.s)
  {
    var l := s.List(s.listeners)[s.i];
    if l.Once? {
      var ch := Channel(emitter, l.home.event);
      var t := Splice(s, ch, l);
      QuietRemove(s, script, ch, l);
      SpliceTracks(a, s, ch, l);
      SpliceWrapped(s, ch, l);
      WrapperRuns(s, l, emitter, t);
      var b := MeetAll(a, Since(s, t), s.listeners);
      QuietRun(b, t, script, emitter, l);
      SinceMore(a, s, t, RunUser(Log(t, l, emitter), script).s, s.listeners);
    } else {
      LogWrapped(s, l, emitter);
      QuietRun(a, s, script, emitter, l);
    }
  }

  lemma QuietRun(a: Ahead, s: State, script: Script, emitter: nat, l: Listener)
    requires Wrapped(Log(s, l, emitter)) && Unheard(s) && Tracks(a, s)
    requires NoEmits(script, RunUser(Log(s, l, emitter), script).script)
    ensures var r := RunUser(Log(s, l, emitter), script);
            && OnlyEdits(s, r.s) && r.s.runs == s.runs + [Run(l, emitter)] && Suffix(r.script, script)
            && (NoRaise(script, r.script) ==> r.c == Normal)
            && Tracks(MeetAll(a, Since(s, r.s), s.listeners), r.s)
  {
    var t := Log(s, l, emitter);
    LogTracks(a, s, l, emitter);
    QuietUser(a, t, script);
    assert Since(s, RunUser(t, script).s) == Since(t, RunUser(t, script).s);
  }

  lemma RunsCons(l: Listener, list: seq<Listener>, emitter: nat)
    ensures RunsOf([l] + list, emitter) == [Run(l, emitter)] + RunsOf(list, emitter)
  {
  }

  /** The state after one turn of the loop. */
  function Turned(s: State, script: Script, emitter: nat): Result
    requires Wrapped(s) && s.i < |s.List(s.listeners)|
  {
    var r := Invoke(s, script, emitter, s.List(s.listeners)[s.i]);
    r.(s := Next(r.s))
  }

  function From(list: seq<Listener>, i: nat): seq<Listener> {
    if i <= |list| then list[i..] else []
  }

  lemma QuietStep(s: State, script: Script, emitter: nat)
    requires Wrapped(s) && Unheard(s) && s.i < |s.List(s.listeners)|
    requires NoEmits(script, Turned(s, script, emitter).script)
    ensures Turned(s, script, emitter).s.runs == s.runs + [Run(s.List(s.listeners)[s.i], emitter)]
    ensures Wrapped(Turned(s, script, emitter).s) && Unheard(Turned(s, script, emitter).s)
    ensures Suffix(Turned(s, script, emitter).script, script)
    ensures NoRaise(script, Turned(s, script, emitter).script) ==> Turned(s, script, emitter).c == Normal
    ensures s.edits <= Turned(s, script, emitter).s.edits
    ensures Turned(s, script, emitter).s.listeners == s.listeners && Turned(s, script, emitter).s.i == s.i + 1
    ensures TurnOf(s.List(s.listeners)[s.i..], Since(s, Turned(s, script, emitter).s), s.listeners).next
         == From(Turned(s, script, emitter).s.List(s.listeners), s.i + 1)
  {
    var list := s.List(s.listeners);
    assert list[s.i..][1..] == list[s.i + 1..];
    QuietInvoke(Ahead(list[s.i + 1..], 0, [], []), s, script, emitter);
    WalkStep(s, script, emitter);
  }

  /** From s to r an emit has called what WalkOf says. */
  ghost predicate Agrees(upcoming: seq<Listener>, turns: seq<seq<Edit>>, ch: Channel, s: State, r: Result, emitter: nat)
  {
    var w := WalkOf(upcoming, turns, ch);
    && r.s.runs == s.runs + RunsOf(w.calls, emitter) && |w.calls| == |turns|
    && (r.c == Normal ==> w.left == [])
    && s.edits <= r.s.edits && Flat(turns) == Since(s, r.s)
  }

  lemma AgreesMore(
    upcoming: seq<Listener>, turns: seq<seq<Edit>>, ch: Channel, s: State, t: State, r: Result, emitter: nat)
    requires upcoming != [] && s.edits <= t.edits && t.runs == s.runs + [Run(upcoming[0], emitter)]
    requires Agrees(TurnOf(upcoming, Since(s, t), ch).next, turns, ch, t, r, emitter)
    ensures Agrees(upcoming, [Since(s, t)] + turns, ch, s, r, emitter)
  {
    assert ([Since(s, t)] + turns)[1..] == turns;
    RunsCons(upcoming[0], WalkOf(TurnOf(upcoming, Since(s, t), ch).next, turns, ch).calls, emitter);
  }

  lemma {:induction false} QuietWalk(s: State, script: Script, emitter: nat)
    requires Wrapped(s) && Unheard(s) && s.i <= |s.List(s.listeners)|
    requires NoEmits(script, Walk(s, script, emitter).script)
    ensures Agrees(s.List(s.listeners)[s.i..], TurnsOf(s, script, emitter), s.listeners, s,
                   Walk(s, script, emitter), emitter)
    decreases |script|, Armed(s), Left(s)
  {
    if s.i < |s.List(s.listeners)| {
      var upcoming := s.List(s.listeners)[s.i..];
      var r := Turned(s, script, emitter);
      var t, rest, thrown := r.s, r.script, r.c == Throw;
      WalkStep(s, script, emitter);
      QuietStep(s, script, emitter);
      InParts(script, rest, Walk(s, script, emitter).script, s.listeners);
      if !thrown && t.i <= |t.List(t.listeners)| {
        QuietWalk(t, rest, emitter);
      }
      AgreesMore(upcoming, if thrown then [] else TurnsOf(t, rest, emitter), s.listeners,
                 s, t, Walk(s, script, emitter), emitter);
    }
  }

  /** Such a walk makes moves from the front of the script, and ends normally if none of them raises. */
  lemma {:induction false} QuietMoves(s: State, script: Script, emitter: nat)
    requires Wrapped(s) && Unheard(s) && s.i <= |s.List(s.listeners)|
    requires NoEmits(script, Walk(s, script, emitter).script)
    ensures Suffix(Walk(s, script, emitter).script, script)
    ensures NoRaise(script, Walk(s, script, emitter).script) ==> Walk(s, script, emitter).c == Normal
    decreases |script|, Armed(s), Left(s)
  {
    if s.i < |s.List(s.listeners)| {
      var r := Turned(s, script, emitter);
      WalkStep(s, script, emitter);
      QuietStep(s, script, emitter);
      InParts(script, r.script, Walk(s, script, emitter).script, s.listeners);
      if r.c == Normal && r.s.i <= |r.s.List(r.s.listeners)| {
        QuietMoves(r.s, r.script, emitter);
      }
    }
  }

  /** An emit whose listeners make none themselves, whatever else they do, calls what WalkOf says, from
      the list it finds and the changes that each listener makes to it. */
  lemma {:induction false} EmitWalks(s: State, script: Script, ch: Channel)
    requires Wrapped(s) && Unheard(s) && ch in s.lists && Wrapped(Begin(s, ch))
    requires NoEmits(script, Emit(s, script, ch).script)
    ensures Agrees(s.lists[ch], TurnsOf(Begin(s, ch), script, ch.emitter), ch, s, Emit(s, script, ch), ch.emitter)
    ensures Suffix(Emit(s, script, ch).script, script)
    ensures NoRaise(script, Emit(s, script, ch).script) ==> Emit(s, script, ch).c == Normal
  {
    QuietWalk(Begin(s, ch), script, ch.emitter);
    QuietMoves(Begin(s, ch), script, ch.emitter);
    assert s.lists[ch][0..] == s.lists[ch];
  }

  /** So it calls, in order and none twice, part of the listeners that it finds and those added. */
  lemma {:induction false} EmitInOrder(s: State, script: Script, ch: Channel) returns (calls: seq<Listener>)
    requires Wrapped(s) && Unheard(s) && ch in s.lists && NoEmits(script, Emit(s, script, ch).script)
    ensures var t := Emit(s, script, ch).s;
            && t.runs == s.runs + RunsOf(calls, ch.emitter)
            && Subsequence(calls, s.lists[ch] + AddedTo(Since(s, t), ch))
  {
    WrappedAs(s, Begin(s, ch));
    EmitWalks(s, script, ch);
    var turns := TurnsOf(Begin(s, ch), script, ch.emitter);
    calls := WalkOf(s.lists[ch], turns, ch).calls;
    WalkInOrder(s.lists[ch], turns, ch);
  }

  // ---------------------------------------------------------------- listeners that leave the list alone

  function Onces(list: seq<Listener>): seq<bool> {
    seq(|list|, k requires 0 <= k < |list| => list[k].Once?)
  }

  function Skip(list: seq<Listener>): nat
    requires list != []
  {
    Turns.Skip(Onces(list))
  }

  /** The listeners that an undisturbed emit calls: every wrapper makes it miss the listener after. */
  function Called(list: seq<Listener>): seq<Listener> {
    if list == [] then []
    else [list[0]] + Called(list[Skip(list)..])
  }

  ghost predicate NoneOn(edits: seq<Edit>, ch: Channel) {
    forall k :: 0 <= k < |edits| ==> edits[k].ch != ch
  }

  lemma {:induction false} NoneMeets(a: Ahead, edits: seq<Edit>, ch: Channel)
    requires NoneOn(edits, ch)
    ensures MeetAll(a, edits, ch) == a
    decreases |edits|
  {
    if edits != [] {
      NoneMeets(a, edits[1..], ch);
    }
  }

  function AheadOf(s: State): Ahead {
    var list := s.List(s.listeners);
    if s.i + 1 <= |list| then Ahead(list[s.i + 1..], 0, [], []) else Ahead([], s.i + 1 - |list|, [], [])
  }

  lemma {:induction false} AsideUser(s: State, script: Script, ch: Channel)
    requires Wrapped(s) && Unheard(s)
    requires NoEmits(script, RunUser(s, script).script) && LeavesAlone(script, RunUser(s, script).script, ch)
    ensures var r := RunUser(s, script); s.edits <= r.s.edits && NoneOn(Since(s, r.s), ch)
    decreases |script|
  {
    if script != [] {
      var rest := script[1..];
      assert Suffix(rest, script);
      InParts(script, rest, RunUser(s, script).script, ch);
      match script[0]
      case Return =>
      case Raise =>
      case Catch => AsideUser(s, rest, ch);
      case Call(act) =>
        assert Harmless(script[0].act) && script[0].act.ch != ch;
        QuietPerform(AheadOf(s), s, rest, act);
        AsidePerform(s, rest, act, ch);
        var t := Perform(s, rest, act).s;
        AsideUser(t, rest, ch);
        NoneOnMore(s, t, RunUser(t, rest).s, ch);
    }
  }

  lemma NoneOnMore(s: State, t: State, u: State, ch: Channel)
    requires s.edits <= t.edits <= u.edits && NoneOn(Since(s, t), ch) && NoneOn(Since(t, u), ch)
    ensures NoneOn(Since(s, u), ch)
  {
    assert Since(s, u) == Since(s, t) + Since(t, u);
  }

  lemma AsidePerform(s: State, script: Script, act: Act, ch: Channel)
    requires Wrapped(s) && Unheard(s) && Harmless(act) && act.ch != ch
    ensures NoneOn(Since(s, Perform(s, script, act).s), ch)
  {
    if act.CallRemove? {
      QuietRemove(s, script, act.ch, act.listener);
    }
  }

  /** What such a listener leaves ahead: its wrapper is gone, so the walk passes over the next one. */
  lemma AsideInvoke(s: State, script: Script)
    requires Wrapped(s) && Unheard(s) && s.i < |s.List(s.listeners)|
    requires var r := Invoke(s, script, s.listeners.emitter, s.List(s.listeners)[s.i]);
             NoEmits(script, r.script) && LeavesAlone(script, r.script, s.listeners)
    ensures var upcoming := s.List(s.listeners)[s.i..];
            var r := Invoke(s, script, s.listeners.emitter, upcoming[0]);
            TurnOf(upcoming, Since(s, r.s), s.listeners).next == upcoming[Skip(upcoming)..]
  {
    var l := s.List(s.listeners)[s.i];
    if l.Once? {
      AsideWrapper(s, script, l);
    } else {
      LogWrapped(s, l, s.listeners.emitter);
      AsideRun(s, s, script, l, []);
    }
  }

  lemma AsideWrapper(s: State, script: Script, l: Listener)
    requires Wrapped(s) && Unheard(s)
    requires s.i < |s.List(s.listeners)| && l == s.List(s.listeners)[s.i] && l.Once?
    requires var r := Invoke(s, script, s.listeners.emitter, l);
             NoEmits(script, r.script) && LeavesAlone(script, r.script, s.listeners)
    ensures var upcoming := s.List(s.listeners)[s.i..];
            var r := Invoke(s, script, s.listeners.emitter, l);
            TurnOf(upcoming, Since(s, r.s), s.listeners).next == upcoming[Skip(upcoming)..]
  {
    var ch := s.listeners;
    AtOwnPosition(s, l);
    QuietRemove(s, script, ch, l);
    SpliceWrapped(s, ch, l);
    WrapperRuns(s, l, ch.emitter, Splice(s, ch, l));
    assert Invoke(s, script, ch.emitter, l) == RunUser(Log(Splice(s, ch, l), l, ch.emitter), script);
    AsideRun(s, Splice(s, ch, l), script, l, [Removed(ch, s.i, s.i)]);
    OwnRemoval(s.List(ch)[s.i..], s.i, ch);
  }

  lemma OwnRemoval(upcoming: seq<Listener>, i: nat, ch: Channel)
    requires upcoming != [] && upcoming[0].Once?
    ensures TurnOf(upcoming, [Removed(ch, i, i)], ch).next == upcoming[Skip(upcoming)..]
  {
    var a := Ahead(upcoming[1..], 0, [], []);
    assert MeetAll(a, [Removed(ch, i, i)], ch) == Meet(a, Removed(ch, i, i), ch);
  }

  lemma AtOwnPosition(s: State, l: Listener)
    requires Wrapped(s) && s.i < |s.List(s.listeners)| && l == s.List(s.listeners)[s.i] && l.Once?
    ensures s.listeners == l.home && LastIndex(s.List(l.home), l) == s.i
  {
    assert Sound(s);
    assert Listed(s.lists[s.listeners], s.listeners, s.wrappers);
  }

  /** The listener `l` runs in state t, after the changes `first` to state s. */
  lemma AsideRun(s: State, t: State, script: Script, l: Listener, first: seq<Edit>)
    requires s.i < |s.List(s.listeners)| && t.edits == s.edits + first && Unheard(t)
    requires Wrapped(Log(t, l, s.listeners.emitter))
    requires var r := RunUser(Log(t, l, s.listeners.emitter), script);
             NoEmits(script, r.script) && LeavesAlone(script, r.script, s.listeners)
    ensures var upcoming, r := s.List(s.listeners)[s.i..], RunUser(Log(t, l, s.listeners.emitter), script);
            TurnOf(upcoming, Since(s, r.s), s.listeners) == TurnOf(upcoming, first, s.listeners)
  {
    var u, a := Log(t, l, s.listeners.emitter), Ahead(s.List(s.listeners)[s.i..][1..], 0, [], []);
    AsideUser(u, script, s.listeners);
    var r := RunUser(u, script);
    assert Since(s, r.s) == first + Since(u, r.s);
    MeetMore(a, first, Since(u, r.s), s.listeners);
    NoneMeets(MeetAll(a, first, s.listeners), Since(u, r.s), s.listeners);
  }

  lemma {:induction false} AsideWalk(s: State, script: Script)
    requires Wrapped(s) && Unheard(s) && s.i <= |s.List(s.listeners)|
    requires var r := Walk(s, script, s.listeners.emitter);
             NoEmits(script, r.script) && LeavesAlone(script, r.script, s.listeners)
    ensures var upcoming, turns := s.List(s.listeners)[s.i..], TurnsOf(s, script, s.listeners.emitter);
            var w := WalkOf(upcoming, turns, s.listeners);
            w.calls <= Called(upcoming) && (w.left == [] ==> w.calls == Called(upcoming))
    decreases |script|, Armed(s), Left(s)
  {
    if s.i < |s.List(s.listeners)| {
      var emitter, ch, upcoming := s.listeners.emitter, s.listeners, s.List(s.listeners)[s.i..];
      var r := Turned(s, script, emitter);
      var t, rest, thrown := r.s, r.script, r.c == Throw;
      WalkStep(s, script, emitter);
      QuietStep(s, script, emitter);
      InParts(script, rest, Walk(s, script, emitter).script, ch);
      AsideInvoke(s, script);
      assert TurnOf(upcoming, Since(s, t), ch).next == upcoming[Skip(upcoming)..];
      if !thrown && t.i <= |t.List(ch)| {
        AsideWalk(t, rest);
      }
      CalledMore(upcoming, Since(s, t), if thrown then [] else TurnsOf(t, rest, emitter), ch);
    }
  }

  lemma CalledMore(upcoming: seq<Listener>, turn: seq<Edit>, turns: seq<seq<Edit>>, ch: Channel)
    requires upcoming != [] && TurnOf(upcoming, turn, ch).next == upcoming[Skip(upcoming)..]
    requires var w := WalkOf(upcoming[Skip(upcoming)..], turns, ch);
             && w.calls <= Called(upcoming[Skip(upcoming)..])
             && (w.left == [] ==> w.calls == Called(upcoming[Skip(upcoming)..]))
    ensures var w := WalkOf(upcoming, [turn] + turns, ch);
            w.calls <= Called(upcoming) && (w.left == [] ==> w.calls == Called(upcoming))
  {
    assert ([turn] + turns)[1..] == turns;
  }

  /** An emit whose listeners make none themselves and leave the list alone calls, in order and once
      each, the listeners that Called selects: all of them, or the first n if the last of these throws. */
  lemma {:induction false} EmitCalls(s: State, script: Script, ch: Channel) returns (n: nat)
    requires Wrapped(s) && Unheard(s) && ch in s.lists
    requires var r := Emit(s, script, ch); NoEmits(script, r.script) && LeavesAlone(script, r.script, ch)
    ensures var r := Emit(s, script, ch);
            && n <= |Called(s.lists[ch])|
            && r.s.runs == s.runs + RunsOf(Called(s.lists[ch])[..n], ch.emitter)
            && (r.c == Normal ==> n == |Called(s.lists[ch])|)
            && (NoRaise(script, r.script) ==> r.c == Normal)
  {
    WrappedAs(s, Begin(s, ch));
    EmitWalks(s, script, ch);
    AsideWalk(Begin(s, ch), script);
    assert s.lists[ch][0..] == s.lists[ch];
    var calls := WalkOf(s.lists[ch], TurnsOf(Begin(s, ch), script, ch.emitter), ch).calls;
    n := |calls|;
    assert calls == Called(s.lists[ch])[..n];
  }

  lemma {:induction false} CalledInOrder(list: seq<Listener>)
    ensures Subsequence(Called(list), list)
  {
    if list != [] {
      var skip := Skip(list);
      CalledInOrder(list[skip..]);
      if skip == 2 {
        assert list[1..][1..] == list[2..];
        assert Subsequence(Called(list[2..]), list[1..]);
      }
      assert Called(list)[1..] == Called(list[skip..]);
    }
  }

  lemma {:induction false} CalledLength(list: seq<Listener>)
    ensures |Called(list)| <= |list|
    ensures |Called(list)| == |list| <==> forall j :: 0 <= j < |list| - 1 ==> list[j].Plain?
  {
    if list != [] {
      var skip := Skip(list);
      CalledLength(list[skip..]);
      if skip == 1 {
        assert forall j :: 1 <= j < |list| - 1 ==> list[j] == list[1..][j - 1];
        assert forall j :: 0 <= j < |list[1..]| - 1 ==> list[1..][j] == list[j + 1];
      }
    }
  }

  /** All listeners are called just when no wrapper stands before the last one. */
  lemma {:induction false} CalledAll(list: seq<Listener>)
    ensures Called(list) == list <==> forall j :: 0 <= j < |list| - 1 ==> list[j].Plain?
  {
    CalledLength(list);
    CalledInOrder(list);
    if |Called(list)| == |list| {
      SubsequenceFull(Called(list), list);
    }
  }

  /** The listeners, from position k on, that stand behind an even run of wrappers. */
  function AfterEvenRuns(list: seq<Listener>, k: nat): seq<Listener>
    requires k <= |list|
    decreases |list| - k
  {
    if k == |list| then []
    else (if Turns.RunBefore(Onces(list), k) % 2 == 0 then [list[k]] else []) + AfterEvenRuns(list, k + 1)
  }

  /** A listener is called just when an even number of wrappers stands directly before it. */
  lemma {:induction false} CalledAfterEvenRuns(list: seq<Listener>, k: nat)
    requires k <= |list| && (k < |list| ==> Turns.Reached(Onces(list), k))
    ensures Called(list[k..]) == AfterEvenRuns(list, k)
    decreases |list| - k
  {
    if k < |list| {
      var rest := list[k..];
      assert Onces(rest) == Onces(list)[k..];
      Turns.ReachedAfterEvenRun(Onces(list), k);
      if rest[0].Once? && |rest| > 1 {
        Turns.ReachedAfterEvenRun(Onces(list), k + 1);
        assert AfterEvenRuns(list, k + 1) == AfterEvenRuns(list, k + 2);
        assert rest[2..] == list[k + 2..];
        CalledAfterEvenRuns(list, k + 2);
      } else {
        assert rest[1..] == list[k + 1..];
        CalledAfterEvenRuns(list, k + 1);
      }
    }
  }

  // ---------------------------------------------------------------- what single operations do

  ghost predicate AllPlain(list: seq<Listener>) {
    forall j :: 0 <= j < |list| ==> list[j].Plain?
  }

  /** From s to t listeners have been called, and the shared position has gone past the end of their list. */
  ghost predicate Ran(s: State, t: State, ch: Channel, list: seq<Listener>) {
    && t.lists == s.lists && t.runs == s.runs + RunsOf(list, ch.emitter)
    && t.listeners == ch && t.i == |s.List(ch)|
  }

  /** Listeners that are not wrappers and do nothing are all called. */
  lemma {:induction false} PlainWalk(s: State)
    requires Wrapped(s) && s.i <= |s.List(s.listeners)| && AllPlain(s.List(s.listeners))
    ensures var r := Walk(s, [], s.listeners.emitter);
            && r.c == Normal && r.script == [] && r.s.wrappers == s.wrappers
            && Ran(s, r.s, s.listeners, s.List(s.listeners)[s.i..])
    decreases |s.List(s.listeners)| - s.i
  {
    var list, emitter := s.List(s.listeners), s.listeners.emitter;
    if s.i < |list| {
      LogWrapped(s, list[s.i], emitter);
      var t := Log(s, list[s.i], emitter);
      WrappedAs(t, Next(t));
      PlainWalk(Next(t));
      assert list[s.i..] == [list[s.i]] + list[s.i + 1..];
      RunsCons(list[s.i], list[s.i + 1..], emitter);
    }
  }

  lemma {:induction false} PlainEmit(s: State, ch: Channel)
    requires Wrapped(s) && ch in s.lists && AllPlain(s.lists[ch])
    ensures var r := Emit(s, [], ch);
            r.c == Normal && r.script == [] && r.s.wrappers == s.wrappers && Ran(s, r.s, ch, s.lists[ch])
  {
    WrappedAs(s, Begin(s, ch));
    PlainWalk(Begin(s, ch));
    assert s.lists[ch][0..] == s.lists[ch];
  }

  /** removeListener takes out the last occurrence and then emits 'removeListener': here to listeners that
      are not wrappers and do nothing. */
  lemma {:induction false} RemovalIsEmitted(s: State, ch: Channel, l: Listener)
    requires Wrapped(s) && l in s.List(ch)
    requires var rch := Channel(ch.emitter, "removeListener");
             rch in s.lists && ch != rch && AllPlain(s.lists[rch])
    ensures var r, rch := RemoveListener(s, [], ch, l), Channel(ch.emitter, "removeListener");
            && r.c == Normal && r.script == []
            && r.s.List(ch) == Without(s.List(ch), LastIndex(s.List(ch), l))
            && (forall c :: c != ch ==> r.s.List(c) == s.List(c))
            && r.s.runs == s.runs + RunsOf(s.lists[rch], ch.emitter)
            && r.s.listeners == rch && r.s.i == |s.lists[rch]|
  {
    SpliceWrapped(s, ch, l);
    PlainEmit(Splice(s, ch, l), Channel(ch.emitter, "removeListener"));
  }

  /** An exception of a 'removeListener' listener comes out of the emit that called a wrapper, and the
      wrapper's own listener does not run. */
  lemma {:induction false} RemovalThrows(s: State, rest: Script)
    requires Wrapped(s) && s.i < |s.List(s.listeners)| && s.List(s.listeners)[s.i].Once?
    requires var rch := Channel(s.listeners.emitter, "removeListener");
             rch in s.lists && s.listeners != rch && s.lists[rch] != [] && s.lists[rch][0].Plain?
    ensures var emitter := s.listeners.emitter;
            var rch := Channel(emitter, "removeListener");
            var r := Walk(s, [Raise] + rest, emitter);
            && r.c == Throw && r.script == rest
            && r.s.runs == s.runs + [Run(s.lists[rch][0], emitter)]
            && s.List(s.listeners)[s.i] !in r.s.List(s.listeners)
  {
    var l, ch, script := s.List(s.listeners)[s.i], s.listeners, [Raise] + rest;
    var rch := Channel(ch.emitter, "removeListener");
    assert script[1..] == rest;
    AtOwnPosition(s, l);
    SpliceWrapped(s, ch, l);
    assert Sound(s) && Listed(s.lists[ch], ch, s.wrappers);
    var t := Splice(s, ch, l);
    var u := Begin(t, rch);
    WrappedAs(t, u);
    LogWrapped(u, s.lists[rch][0], ch.emitter);
    var v := Log(u, s.lists[rch][0], ch.emitter);
    assert RunUser(v, script) == Result(v, rest, Throw);
    assert Invoke(u, script, ch.emitter, s.lists[rch][0]) == Result(v, rest, Throw);
    assert Walk(u, script, ch.emitter) == Result(v, rest, Throw);
    WrappedAs(v, End(v, t.active));
    assert Emit(t, script, rch) == Result(End(v, t.active), rest, Throw);
    assert ch == Channel(ch.emitter, l.home.event) && l in s.List(ch);
    assert RemoveListener(s, script, ch, l) == Result(End(v, t.active), rest, Throw);
    assert Invoke(s, script, ch.emitter, l) == Result(End(v, t.active), rest, Throw);
    WithoutListed(s.List(ch), s.i, ch, s.wrappers);
  }

  /** An exception of a listener comes out of the emit, and out of the user code that made it, unless that
      catches it. */
  lemma {:induction false} ExceptionComesOut(s: State, ch: Channel, rest: Script)
    requires Wrapped(s) && ch in s.lists && s.lists[ch] != [] && s.lists[ch][0].Plain?
    ensures var r := RunUser(s, [Call(CallEmit(ch)), Raise] + rest);
            && (rest == [] || rest == [Catch] || rest[0] != Catch ==>
                  r.s.lists == s.lists && r.s.runs == s.runs + [Run(s.lists[ch][0], ch.emitter)])
            && (rest == [] || rest[0] != Catch ==> r.c == Throw && r.script == rest)
            && (rest == [Catch] ==> r.c == Normal && r.script == [])
  {
    var script, l := [Call(CallEmit(ch)), Raise] + rest, s.lists[ch][0];
    var u := Begin(s, ch);
    WrappedAs(s, u);
    LogWrapped(u, l, ch.emitter);
    var v := Log(u, l, ch.emitter);
    assert script[1..] == [Raise] + rest && ([Raise] + rest)[1..] == rest;
    assert RunUser(v, [Raise] + rest) == Result(v, rest, Throw);
    assert Invoke(u, [Raise] + rest, ch.emitter, l) == Result(v, rest, Throw);
    assert Walk(u, [Raise] + rest, ch.emitter) == Result(v, rest, Throw);
    WrappedAs(v, End(v, s.active));
    assert Perform(s, [Raise] + rest, CallEmit(ch)) == Result(End(v, s.active), rest, Throw);
  }

  /** A call made by user code takes effect. */
  lemma {:induction false} CallsTakeEffect(s: State, act: Act)
    requires Wrapped(s)
    ensures var t := RunUser(s, [Call(act)]).s;
            match act
            case CallOn(ch, id) =>
              t.List(ch) == s.List(ch) + [Plain(id)] && (forall c :: c != ch ==> t.List(c) == s.List(c))
            case CallOnce(ch) =>
              t.List(ch) == s.List(ch) + [Once(s.wrappers, ch)] && (forall c :: c != ch ==> t.List(c) == s.List(c))
            case CallRemove(ch, l) =>
              l in s.List(ch) && Channel(ch.emitter, "removeListener") !in s.lists ==>
                t.List(ch) == Without(s.List(ch), LastIndex(s.List(ch), l))
            case CallEmit(ch) =>
              ch in s.lists && AllPlain(s.lists[ch]) ==> Ran(s, t, ch, s.lists[ch])
  {
    var r := Perform(s, [], act);
    assert [Call(act)][1..] == [];
    match act
    case CallOn(ch, id) => AddWrapped(s, ch, id);
    case CallOnce(ch) => AddWrapperWrapped(s, ch);
    case CallRemove(ch, l) =>
      SpliceWrapped(s, ch, l);
      if l in s.List(ch) && Channel(ch.emitter, "removeListener") !in s.lists {
        assert Channel(ch.emitter, "removeListener") !in Splice(s, ch, l).lists;
        assert RemoveListener(s, [], ch, l) == Result(Splice(s, ch, l), [], Normal);
        assert RunUser(s, [Call(act)]) == RunUser(r.s, r.script);
      }
    case CallEmit(ch) =>
      if ch in s.lists && AllPlain(s.lists[ch]) {
        PlainEmit(s, ch);
      }
  }

  // ---------------------------------------------------------------- listeners that make emits

  /** An emit that comes to its end leaves the shared position past the end of the shared list. */
  lemma {:induction false} WalkExhausts(s: State, script: Script, emitter: nat)
    requires Wrapped(s) && Walk(s, script, emitter).c == Normal
    ensures var t := Walk(s, script, emitter).s; t.i >= |t.List(t.listeners)|
    decreases |script|, Armed(s), Left(s)
  {
    if s.i < |s.List(s.listeners)| {
      var r := Invoke(s, script, emitter, s.List(s.listeners)[s.i]);
      WalkStep(s, script, emitter);
      WalkExhausts(Next(r.s), r.script, emitter);
    }
  }

  /** So a listener in which an emit of anything comes to its end, and which after that begins no other
      and adds nothing to the list that it walked, ends the emit that called it: no listener after it is
      called.  (The listener comes to an emit of `ch` in state u, with q to do, and goes on from there.) */
  lemma NestedEmitEndsWalk(s: State, script: Script, emitter: nat, u: State, q: Script, ch: Channel)
    requires Wrapped(s) && s.i < |s.List(s.listeners)| && Wrapped(u) && ch in u.lists
    requires Emit(u, q, ch).c == Normal
    requires var l, r := s.List(s.listeners)[s.i], Emit(u, q, ch);
             var v := Invoke(s, script, emitter, l);
             && v == RunUser(r.s, r.script)
             && v.s.listeners == r.s.listeners && v.s.i == r.s.i
             && |v.s.List(v.s.listeners)| <= |r.s.List(r.s.listeners)|
    ensures var v := Invoke(s, script, emitter, s.List(s.listeners)[s.i]);
            Walk(s, script, emitter) == if v.c == Throw then v else Result(Next(v.s), v.script, Normal)
  {
    WrappedAs(u, Begin(u, ch));
    WalkExhausts(Begin(u, ch), q, ch.emitter);
    WalkStep(s, script, emitter);
  }
}
