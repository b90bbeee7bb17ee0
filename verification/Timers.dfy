/** setTimeout and setInterval: the registry of timeouts and the native timers behind them. */
module Timers {
  import opened Outcomes
  import opened Users

  const TIMEOUT_MAX := 2147483647

  /** A call that user code can make; it names a timeout by the order of creation. */
  datatype Act =
    | CallSet(delay: int, repeats: bool)
    | CallClearTimeout(k: nat)
    | CallClearInterval(k: nat)
    | CallClose(k: nat)

  /** The native timer. */
  class Timer {
    var timeoutObj: Timeout?
    var running: bool
    var repeat: int

    constructor ()
      ensures timeoutObj == null && !running && repeat == 0
    {
      timeoutObj, running, repeat := null, false, 0;
    }
  }

  class Timeout {
    const after: int
    const isRepeat: bool
    var callback: bool        // whether a callback is set
    var handler: Timer?

    constructor (after: int, isRepeat: bool)
      ensures this.after == after && this.isRepeat == isRepeat && callback && handler == null
    {
      this.after, this.isRepeat, callback, handler := after, isRepeat, true, null;
    }
  }

  datatype Event = Fired(timeout: Timeout) | Closed(timeout: Timeout)

  function Delay(delay: int): (d: int)
    ensures 1 <= d <= TIMEOUT_MAX
    ensures d == delay || (d == 1 && !(1 <= delay <= TIMEOUT_MAX))
  {
    if delay < 1 || delay > TIMEOUT_MAX then 1 else delay
  }

  ghost predicate Distinct(list: seq<Timeout>) {
    forall i, j :: 0 <= i < j < |list| ==> list[i] != list[j]
  }

  ghost predicate NoneAfterClose(log: seq<Event>) {
    forall i, j :: 0 <= i < j < |log| && log[i].Closed? ==> log[j] != Fired(log[i].timeout)
  }

  lemma NoneAfterCloseMore(log: seq<Event>, e: Event)
    requires NoneAfterClose(log) && (e.Fired? ==> Closed(e.timeout) !in log)
    ensures NoneAfterClose(log + [e])
  {
  }

  /** A list stays without duplicates just when it gets something new. */
  lemma DistinctMore(list: seq<Timeout>, t: Timeout)
    requires Distinct(list)
    ensures Distinct(list + [t]) <==> t !in list
  {
    var more := list + [t];
    if i :| 0 <= i < |list| && list[i] == t {
      assert more[i] == more[|list|];
    }
  }

  class Registry {
    const user: User<Act>
    var timersList: seq<Timeout>
    var created: seq<Timeout>            // what setTimeout and setInterval have returned to user code
    ghost var timeouts: set<Timeout>     // the same as a set
    ghost var timers: set<Timer>         // all native timers
    ghost var log: seq<Event>

    ghost predicate Valid()
      reads this, timeouts, timers
    {
      Registered() && Linked() && Logged()
    }

    /** The list holds, once each, exactly the timeouts whose handler is set. */
    ghost predicate Registered()
      reads this, timeouts
    {
      && Distinct(timersList)
      && (forall t :: t in created ==> t in timeouts)
      && (forall t :: t in timersList ==> t in timeouts)
      && (forall t :: t in timeouts ==> (t in timersList <==> t.handler != null))
      && (forall t :: t in timeouts ==> (t.callback <==> t.handler != null))
    }

    /** A handler points back to its timeout, and no other timer does. */
    ghost predicate Linked()
      reads this, timeouts, timers
    {
      && (forall t :: t in timeouts && t.handler != null ==>
            t.handler in timers && t.handler.timeoutObj == t && t.handler.repeat == if t.isRepeat then t.after else 0)
      && (forall h :: h in timers && h.timeoutObj != null ==> h.timeoutObj in timeouts && h.timeoutObj.handler == h)
      && (forall h :: h in timers && h.running ==> h.timeoutObj != null)
    }

    /** The callback of a closed timeout is never called again. */
    ghost predicate Logged()
      reads this, timeouts
    {
      && (forall t :: t in timeouts ==> (t.callback <==> Closed(t) !in log))
      && (forall l :: l == log ==> NoneAfterClose(l))
      && (forall e :: e in log ==> e.timeout in timeouts)
    }

    twostate predicate Later()
      reads this, user, timeouts, timers
    {
      && |user.script| <= |old(user.script)|
      && old(timeouts) <= timeouts && fresh(timeouts - old(timeouts))
      && old(timers) <= timers && fresh(timers - old(timers))
      && old(log) <= log
      && (forall t :: t in old(timeouts) && !old(t.callback) ==> !t.callback)
    }

    /** What comes of a call made by user code. */
    twostate predicate Made(act: Act, c: Completion)
      reads this, timeouts
    {
      match act
      case CallSet(delay, repeats) =>
        && c == Normal && |created| == |old(created)| + 1
        && var t := created[|created| - 1];
           && created == old(created) + [t] && timersList == old(timersList) + [t]
           && t.after == Delay(delay) && t.isRepeat == repeats
      case CallClearTimeout(k) =>
        && created == old(created)
        && c == (if k < |created| && !old(created[k].callback) then Throw else Normal)
        && (k < |created| ==> created[k] in timeouts && !created[k].callback && created[k] !in timersList)
      case CallClearInterval(k) =>
        && created == old(created)
        && c == (if k < |created| && !created[k].isRepeat then Throw else Normal)
        && (k < |created| && created[k].isRepeat ==>
              created[k] in timeouts && !created[k].callback && created[k] !in timersList)
      case CallClose(k) =>
        && created == old(created) && c == Normal
        && (k < |created| ==> created[k] in timeouts && !created[k].callback && created[k] !in timersList)
    }

    constructor (user: User<Act>)
      ensures Valid() && timersList == [] && created == [] && this.user == user
    {
      this.user := user;
      timersList, created, timeouts, timers, log := [], [], {}, {}, [];
    }

    method Close(t: Timeout)
      requires Valid() && t in timeouts
      modifies this, timeouts, timers
      ensures Valid() && Later()
      ensures created == old(created) && timeouts == old(timeouts) && timers == old(timers)
      ensures log == old(log) + [Closed(t)]
      ensures t !in timersList && !t.callback
      ensures forall x :: x in old(timersList) && x != t ==> x in timersList
      ensures old(!t.callback) ==> timersList == old(timersList)
    {
      NoneAfterCloseMore(log, Closed(t));
      log := log + [Closed(t)];
      t.callback := false;
      if t.handler != null {
        t.handler.timeoutObj := null;
        t.handler.running := false;
        t.handler := null;
      }
      Unlist(t);
    }

    method Unlist(t: Timeout)
      requires Distinct(timersList)
      modifies this`timersList
      ensures Distinct(timersList)
      ensures forall x :: x in timersList <==> x in old(timersList) && x != t
      ensures t !in old(timersList) ==> timersList == old(timersList)
    {
      var idx := 0;
      while idx < |timersList| && timersList[idx] != t
        invariant 0 <= idx <= |timersList|
        invariant t !in timersList[..idx]
      {
        idx := idx + 1;
      }
      if idx < |timersList| {
        timersList := timersList[..idx] + timersList[idx + 1..];
      }
    }

    method Activate(t: Timeout)
      requires Valid() && t !in timeouts && t.callback && t.handler == null
      modifies this`timersList, this`created, this`timeouts, this`timers, t
      ensures Valid()
      ensures created == old(created) + [t] && timersList == old(timersList) + [t]
      ensures timeouts == old(timeouts) + {t}
      ensures t.callback && t.handler != null && t.handler.running
      ensures fresh(t.handler) && timers == old(timers) + {t.handler}
    {
      var handler := StartTimer(t);
      t.handler := handler;
      timers, timeouts := timers + {handler}, timeouts + {t};
      created := created + [t];
      assert Linked();
      assert Logged() by {
        assert forall e :: e in log ==> e.timeout in old(timeouts);
      }
      Enlist(t);
    }

    /** Activating a listed timeout once more lists it twice.  It gets a second timer, and the first still
        points to it, and runs if it did. */
    method ActivateAgain(t: Timeout)
      requires Valid() && t in timersList
      modifies this`timersList, this`timers, t
      ensures timersList == old(timersList) + [t] && !Distinct(timersList)
      ensures t.handler != null && fresh(t.handler) && t.handler.running && t.handler.timeoutObj == t
      ensures old(t.handler).timeoutObj == t && old(t.handler).running == old(t.handler.running)
      ensures timers == old(timers) + {t.handler}
    {
      var handler := StartTimer(t);
      t.handler := handler;
      timers := timers + {handler};
      DistinctMore(timersList, t);
      timersList := timersList + [t];
    }

    method StartTimer(t: Timeout) returns (handler: Timer)
      ensures fresh(handler) && handler.timeoutObj == t && handler.running
      ensures handler.repeat == if t.isRepeat then t.after else 0
    {
      handler := new Timer();
      if t.isRepeat {
        handler.repeat := t.after;
      }
      handler.timeoutObj := t;
      handler.running := true;
    }

    method Enlist(t: Timeout)
      requires Distinct(timersList) && t !in timersList
      modifies this`timersList
      ensures Distinct(timersList) && timersList == old(timersList) + [t]
      ensures forall x :: x in timersList <==> x in old(timersList) || x == t
    {
      timersList := timersList + [t];
    }

    method Set(delay: int, repeats: bool) returns (t: Timeout)
      requires Valid()
      modifies this
      ensures Valid() && Later()
      ensures t.handler != null && t.handler.running && t.callback
      ensures timeouts == old(timeouts) + {t} && timers == old(timers) + {t.handler}
      ensures fresh(t) && t.isRepeat == repeats && t.after == Delay(delay)
      ensures created == old(created) + [t] && timersList == old(timersList) + [t]
    {
      t := new Timeout(Delay(delay), repeats);
      Activate(t);
    }

    method ClearTimeout(t: Timeout) returns (c: Completion)
      requires Valid() && t in timeouts
      modifies this, timeouts, timers
      ensures Valid() && Later()
      ensures c == if old(t.callback) then Normal else Throw
      ensures t !in timersList && !t.callback
      ensures created == old(created) && timeouts == old(timeouts)
      ensures old(!t.callback) ==> timersList == old(timersList)
    {
      c := Throw;
      if t.callback {
        Close(t);
        c := Normal;
      }
    }

    method ClearInterval(t: Timeout) returns (c: Completion)
      requires Valid() && t in timeouts
      modifies this, timeouts, timers
      ensures Valid() && Later()
      ensures c == if t.isRepeat then Normal else Throw
      ensures c == Normal ==> t !in timersList && !t.callback
      ensures created == old(created) && timeouts == old(timeouts)
      ensures c == Throw ==> timersList == old(timersList)
    {
      c := Throw;
      if t.isRepeat {
        Close(t);
        c := Normal;
      }
    }

    method RunUser() returns (c: Completion)
      requires Valid()
      modifies this, user, timeouts, timers
      ensures Valid() && Later()
      ensures old(user.script) == [] ==>
                c == Normal && user.script == [] && unchanged(this) && unchanged(timeouts) && unchanged(timers)
      ensures old(user.script) != [] ==> |user.script| < |old(user.script)|
      ensures old(user.script) != [] && (old(user.script)[0].Raise? || old(user.script)[0].Return?) ==>
                && c == (if old(user.script)[0].Raise? then Throw else Normal)
                && user.script == old(user.script)[1..]
                && unchanged(this) && unchanged(timeouts) && unchanged(timers)
      // what follows a call or a Catch is done as well
      ensures old(user.script) == [Catch] ==> c == Normal
      ensures |old(user.script)| > 1 && old(user.script)[1].Raise? ==> !old(user.script)[0].Return? ==> c == Throw
      ensures |old(user.script)| == 1 && old(user.script)[0].Call? ==> Made(old(user.script)[0].act, c)
      ensures |old(user.script)| == 2 && old(user.script)[0].Call? && old(user.script)[1].Catch? ==> c == Normal
      decreases |user.script|
    {
      c := Normal;
      var move := user.Next();
      match move {
        case Return => return Normal;
        case Raise => return Throw;
        case Catch =>
        case Call(act) =>
          :- Try(act);
      }
      c := RunUser();
    }

    /** A call, whose exception user code may catch. */
    method Try(act: Act) returns (c: Completion)
      requires Valid()
      modifies this, user, timeouts, timers
      ensures Valid() && Later()
      ensures c == Throw ==> user.script == old(user.script) && (user.script == [] || !user.script[0].Catch?)
      ensures user.script == old(user.script) || (old(user.script)[0].Catch? && user.script == old(user.script)[1..])
      ensures old(user.script) == [] ==> Made(act, c)
    {
      c := Perform(act);
      if c == Throw {
        var caught := user.Catches();
        c := if caught then Normal else Throw;
      }
    }

    method Perform(act: Act) returns (c: Completion)
      requires Valid()
      modifies this, timeouts, timers
      ensures Valid() && Later() && Made(act, c)
    {
      c := Normal;
      match act
      case CallSet(delay, repeats) => var _ := Set(delay, repeats);
      case CallClearTimeout(k) => if k < |created| { c := ClearTimeout(created[k]); }
      case CallClearInterval(k) => if k < |created| { c := ClearInterval(created[k]); }
      case CallClose(k) => if k < |created| { Close(created[k]); }
    }

    /** The event loop finds a running timer due.  A timer without repeat has stopped by then. */
    method OnTimeout(h: Timer) returns (c: Completion)
      requires Valid() && h in timers && h.running
      modifies this, user, timeouts, timers
      ensures Valid() && Later()
      ensures old(log) + [Fired(old(h.timeoutObj))] <= log
      ensures c == Normal && !old(h.timeoutObj.isRepeat) ==> old(h.timeoutObj) !in timersList
      // an interval whose callback leaves it alone goes on
      ensures old(h.timeoutObj.isRepeat) && old(user.script) == [] ==>
                && timersList == old(timersList) && h.timeoutObj == old(h.timeoutObj)
                && h.running == (old(h.repeat) != 0)
      ensures old(user.script) != [] ==> |user.script| < |old(user.script)|
      // if the callback throws at once, even a one-shot timeout stays listed, and its timer has stopped
      ensures old(user.script) != [] && old(user.script)[0].Raise? ==>
                && c == Throw && timersList == old(timersList) && old(h.timeoutObj) in timersList
                && h.running == (h.repeat != 0)
    {
      if h.repeat == 0 {
        h.running := false;
      }
      c := HandleTimeout(h);
    }

    method HandleTimeout(h: Timer) returns (c: Completion)
      requires Valid() && h in timers
      modifies this, user, timeouts, timers
      ensures Valid() && Later()
      ensures old(h.timeoutObj) == null ==> log == old(log) && c == Normal
      ensures old(h.timeoutObj) != null ==> old(log) + [Fired(old(h.timeoutObj))] <= log
      ensures c == Normal && old(h.timeoutObj) != null && !old(h.timeoutObj.isRepeat) ==>
                old(h.timeoutObj) !in timersList
      ensures old(h.timeoutObj) != null && old(user.script) != [] && old(user.script)[0].Raise? ==>
                && c == Throw && timersList == old(timersList) && old(h.timeoutObj) in timersList
                && h.running == old(h.running) && h.repeat == old(h.repeat)
      // an interval whose callback leaves it alone stays
      ensures old(h.timeoutObj) != null && old(h.timeoutObj.isRepeat) && old(user.script) == [] ==>
                && c == Normal && timersList == old(timersList) && old(h.timeoutObj).callback
                && h.running == old(h.running) && h.timeoutObj == old(h.timeoutObj) && h.repeat == old(h.repeat)
      ensures old(h.timeoutObj) != null && old(user.script) != [] ==> |user.script| < |old(user.script)|
    {
      c := Normal;
      var t := h.timeoutObj;
      if t != null && t.callback {
        NoneAfterCloseMore(log, Fired(t));
        log := log + [Fired(t)];
        c := RunUser();
        if c == Normal && !t.isRepeat {
          Close(t);
        }
      }
    }
  }
}
