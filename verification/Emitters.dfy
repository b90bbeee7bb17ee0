/** The event emitter as it is written: lists changed in place, and loops over the live lists. */
module Emitters {
  import opened Outcomes
  import opened Users
  import Events
  import EventWalks

  type Channel = Events.Channel
  type Listener = Events.Listener

  /** All emitters of a program together with the two variables that their emits share. */
  class EventEmitters {
    const user: User<Events.Act>
    var lists: map<Channel, seq<Listener>>
    var listeners: Channel
    var i: nat
    var wrappers: nat
    ghost var runs: seq<Events.Run>
    ghost var edits: seq<Events.Edit>
    ghost var active: Option<nat>
    ghost var crossed: bool

    ghost function Abs(): Events.State
      reads this
    {
      Events.State(lists, listeners, i, wrappers, runs, edits, active, crossed)
    }

    ghost predicate Valid()
      reads this
    {
      Events.Wrapped(Abs())
    }

    constructor (user: User<Events.Act>)
      ensures Valid() && Abs() == Events.NEW_STATE && this.user == user
    {
      this.user := user;
      lists, listeners, i, wrappers, runs := map[], Events.Channel(0, ""), 0, 0, [];
      edits, active, crossed := [], None, false;
    }

    function List(ch: Channel): seq<Listener>
      reads this
    {
      if ch in lists then lists[ch] else []
    }

    method RunUser() returns (c: Completion)
      requires Valid()
      modifies this, user
      ensures Valid()
      ensures Events.Result(Abs(), user.script, c) == Events.RunUser(old(Abs()), old(user.script))
      decreases |user.script|, Events.Armed(Abs()), 0, 0
    {
      c := Normal;
      var move := user.Next();
      match move {
        case Return => return Normal;
        case Raise => return Throw;
        case Catch =>
        case Call(act) =>
          c := Perform(act);
          if c == Throw {
            var caught := user.Catches();
            if !caught {
              return Throw;
            }
          }
      }
      c := RunUser();
    }

    method Perform(act: Events.Act) returns (c: Completion)
      requires Valid()
      modifies this, user
      ensures Valid()
      ensures Events.Result(Abs(), user.script, c) == Events.Perform(old(Abs()), old(user.script), act)
      decreases |user.script|, Events.Armed(Abs()), 4, 0
    {
      c := Normal;
      match act
      case CallOn(ch, id) => Events.AddWrapped(Abs(), ch, id); AddListener(ch, Events.Plain(id));
      case CallOnce(ch) => Once(ch);
      case CallRemove(ch, l) => Events.SpliceWrapped(Abs(), ch, l); c := RemoveListener(ch, l);
      case CallEmit(ch) => c := Emit(ch);
    }

    method AddListener(ch: Channel, l: Listener)
      modifies this`lists, this`edits
      ensures Abs() == Events.Add(old(Abs()), ch, l)
    {
      if ch !in lists {
        lists := lists[ch := []];
      }
      lists := lists[ch := lists[ch] + [l]];
      edits := edits + [Events.Added(ch, l)];
    }

    method Once(ch: Channel)
      requires Valid()
      modifies this
      ensures Valid() && Abs() == Events.AddWrapper(old(Abs()), ch)
    {
      Events.AddWrapperWrapped(Abs(), ch);
      AddListener(ch, Events.Once(wrappers, ch));
      wrappers := wrappers + 1;
    }

    method RemoveListener(ch: Channel, l: Listener) returns (c: Completion)
      requires Valid()
      modifies this, user
      ensures Valid()
      ensures Events.Result(Abs(), user.script, c) == Events.RemoveListener(old(Abs()), old(user.script), ch, l)
      // to listeners that are not wrappers and do nothing it says that it has removed the last occurrence
      ensures var rch := Events.Channel(ch.emitter, "removeListener");
              old(user.script) == [] && l in old(List(ch)) && rch in old(lists) && ch != rch
              && EventWalks.AllPlain(old(lists)[rch]) ==>
                && c == Normal && List(ch) == Events.Without(old(List(ch)), Events.LastIndex(old(List(ch)), l))
                && runs == old(runs) + EventWalks.RunsOf(old(lists)[rch], ch.emitter)
                && listeners == rch && i == |old(lists)[rch]|
      decreases |user.script|, Events.Armed(Events.Splice(Abs(), ch, l)), if l in List(ch) then 3 else 0, 0
    {
      Events.SpliceWrapped(Abs(), ch, l);
      ghost var rch := Events.Channel(ch.emitter, "removeListener");
      if l in List(ch) && rch in lists && ch != rch && EventWalks.AllPlain(lists[rch]) {
        EventWalks.RemovalIsEmitted(Abs(), ch, l);
      }
      c := Normal;
      var list := List(ch);
      var k := |list|;
      while k > 0
        invariant 0 <= k <= |list|
        invariant unchanged(this) && unchanged(user) && c == Normal
        invariant forall j :: k <= j < |list| ==> list[j] != l
      {
        k := k - 1;
        if list[k] == l {
          lists := lists[ch := Events.Without(list, k)];
          edits := edits + [Events.Removed(ch, k, i)];
          c := Emit(Events.Channel(ch.emitter, "removeListener"));
          return;
        }
      }
    }

    method Emit(ch: Channel) returns (c: Completion)
      requires Valid()
      modifies this, user
      ensures Valid()
      ensures Events.Result(Abs(), user.script, c) == Events.Emit(old(Abs()), old(user.script), ch)
      decreases |user.script|, Events.Armed(Abs()), 2, 0
    {
      c := Normal;
      if ch in lists {
        Events.WrappedAs(Abs(), Events.Begin(Abs(), ch));
        ghost var outer := active;
        crossed := crossed || (active.Some? && active.value != ch.emitter);
        active := Some(ch.emitter);
        listeners := ch;
        i := 0;
        c := Walk(ch.emitter);
        Events.WrappedAs(Abs(), Events.End(Abs(), outer));
        active := outer;
      }
    }

    /** The loop of emit. */
    method Walk(emitter: nat) returns (c: Completion)
      requires Valid()
      modifies this, user
      ensures Valid()
      ensures Events.Result(Abs(), user.script, c) == Events.Walk(old(Abs()), old(user.script), emitter)
      decreases |user.script|, Events.Armed(Abs()), 1, Events.Left(Abs()), 1
    {
      c := Normal;
      while i < |List(listeners)|
        invariant Valid() && c == Normal
        invariant Events.Walk(Abs(), user.script, emitter) == Events.Walk(old(Abs()), old(user.script), emitter)
        invariant |user.script| <= |old(user.script)|
        invariant |user.script| == |old(user.script)| ==> Events.Armed(Abs()) <= Events.Armed(old(Abs()))
        decreases |user.script|, Events.Armed(Abs()), Events.Left(Abs())
      {
        c := CallOne(emitter);
        if c == Throw {
          return;
        }
      }
    }

    /** The body of the loop, and its step. */
    method CallOne(emitter: nat) returns (c: Completion)
      requires Valid() && i < |List(listeners)|
      modifies this, user
      ensures Valid()
      ensures Events.Walk(old(Abs()), old(user.script), emitter)
           == if c == Throw then Events.Result(Abs(), user.script, c) else Events.Walk(Abs(), user.script, emitter)
      ensures |user.script| <= |old(user.script)|
      ensures |user.script| == |old(user.script)| ==> Events.Armed(Abs()) <= Events.Armed(old(Abs()))
      ensures |user.script| == |old(user.script)| && Events.Armed(Abs()) == Events.Armed(old(Abs())) && c == Normal ==>
                Events.Left(Abs()) < old(Events.Left(Abs()))
      decreases |user.script|, Events.Armed(Abs()), 1, Events.Left(Abs()), 0
    {
      Events.WalkStep(Abs(), user.script, emitter);
      c := Invoke(emitter, List(listeners)[i]);
      if c == Normal {
        i := i + 1;
      }
    }

    method Invoke(emitter: nat, l: Listener) returns (c: Completion)
      requires Valid() && l in List(listeners)
      modifies this, user
      ensures Valid()
      ensures Events.Result(Abs(), user.script, c) == Events.Invoke(old(Abs()), old(user.script), emitter, l)
      decreases |user.script|, Events.Armed(Abs()), 1, 0
    {
      if l.Once? {
        Events.SpliceWrapped(Abs(), Events.Channel(emitter, l.home.event), l);
        c := RemoveListener(Events.Channel(emitter, l.home.event), l);
        if c == Throw {
          return;
        }
        Events.WrapperRuns(old(Abs()), l, emitter, Abs());
      } else {
        Events.LogWrapped(Abs(), l, emitter);
      }
      runs := runs + [Events.Run(l, emitter)];
      c := RunUser();
    }
  }
}
