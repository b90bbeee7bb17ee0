/**
 process.nextTick, process.exit, uncaught exceptions and the main loop, with user code given as a
 script: callbacks and listeners may call back in, nested to any depth.
 */
module Processes {
  import opened Outcomes
  import opened Users

  /** How a call ends: it returns, it throws, or the process is gone. */
  datatype Outcome = Returned | Threw | Exited {
    predicate IsFailure() {
      !Returned?
    }

    function PropagateFailure(): Outcome {
      this
    }
  }

  /** A call that user code can make. */
  datatype Act =
    | CallNextTick
    | CallNative                         // something native that calls back through MakeCallback
    | CallExit(code: Option<int>)
    | CallSetExitCode(value: int)
    | CallListenUncaught(count: nat)     // leaves so many 'uncaughtException' listeners

  /** One uv_run(UV_RUN_ONCE): how many callbacks it makes, its result, and whether handles are
      still alive afterwards. */
  datatype Poll = Poll(callbacks: nat, more: bool, alive: bool) {
    predicate Over() {
      !more && !alive
    }
  }

  /** What a poll finds when there is nothing to wait for. */
  const NOTHING_LEFT := Poll(0, false, false)

  /** `used` polls are made up to the first that leaves nothing to do, or all of them and then one more
      that finds nothing; `last` is what the last one finds. */
  ghost predicate Polled(polls: seq<Poll>, used: nat, last: Poll)
    requires used <= |polls|
  {
    || (used > 0 && last == polls[used - 1] && last.Over() && forall j :: 0 <= j < used - 1 ==> !polls[j].Over())
    || (used == |polls| && last == NOTHING_LEFT && forall j :: 0 <= j < used ==> !polls[j].Over())
  }

  function Callbacks(polls: seq<Poll>): nat {
    if polls == [] then 0 else Callbacks(polls[..|polls| - 1]) + polls[|polls| - 1].callbacks
  }

  lemma CallbacksMore(polls: seq<Poll>, k: nat, n: nat)
    requires k <= n <= |polls| && n <= k + 1
    ensures Callbacks(polls[..n]) == Callbacks(polls[..k]) + if k < n then polls[k].callbacks else 0
  {
    if k < n {
      assert polls[..n][..k] == polls[..k];
    }
  }

  function Concat(parts: seq<seq<nat>>): seq<nat> {
    if parts == [] then [] else Concat(parts[..|parts| - 1]) + parts[|parts| - 1]
  }

  function Iota(n: nat): seq<nat> {
    seq(n, i => i)
  }

  lemma ConcatPush(parts: seq<seq<nat>>, last: seq<nat>)
    ensures Concat(parts + [last]) == Concat(parts) + last
  {
    assert (parts + [last])[..|parts|] == parts;
  }

  /** Of n callbacks each has been begun, or is still to be run by a drain under way, or is in the
      queue; and while drains have not nested, all this in the order of their enqueueing. */
  ghost predicate Accounts(n: nat, executed: seq<nat>, unread: seq<seq<nat>>, queue: seq<nat>, nested: bool) {
    && multiset(Iota(n)) == multiset(executed) + multiset(Concat(unread)) + multiset(queue)
    && (!nested ==> |unread| <= 1 && Iota(n) == executed + Concat(unread) + queue)
  }

  lemma AccountsEnqueue(n: nat, executed: seq<nat>, unread: seq<seq<nat>>, queue: seq<nat>, nested: bool)
    requires Accounts(n, executed, unread, queue, nested)
    ensures Accounts(n + 1, executed, unread, queue + [n], nested)
  {
    assert Iota(n + 1) == Iota(n) + [n];
    assert executed + Concat(unread) + (queue + [n]) == executed + Concat(unread) + queue + [n];
  }

  lemma {:induction false} AccountsDrain(
    n: nat, executed: seq<nat>, unread: seq<seq<nat>>, queue: seq<nat>, nested: bool)
    requires Accounts(n, executed, unread, queue, nested)
    ensures Accounts(n, executed, unread + [queue], [], nested || unread != [])
  {
    ConcatPush(unread, queue);
    if unread == [] {
      assert executed + [] + queue == executed + queue + [];
    }
  }

  lemma AccountsBegin(n: nat, executed: seq<nat>, outer: seq<seq<nat>>, rest: seq<nat>, queue: seq<nat>, nested: bool)
    requires rest != []
    requires Accounts(n, executed, outer + [rest], queue, nested)
    ensures Accounts(n, executed + [rest[0]], outer + [rest[1..]], queue, nested)
  {
    ConcatPush(outer, rest);
    ConcatPush(outer, rest[1..]);
    assert rest == [rest[0]] + rest[1..];
    if !nested {
      assert outer == [];
      assert executed + rest + queue == executed + [rest[0]] + rest[1..] + queue;
    }
  }

  lemma AccountsEnd(n: nat, executed: seq<nat>, outer: seq<seq<nat>>, queue: seq<nat>, nested: bool)
    requires Accounts(n, executed, outer + [[]], queue, nested)
    ensures Accounts(n, executed, outer, queue, nested)
  {
    ConcatPush(outer, []);
    assert Concat(outer) + [] == Concat(outer);
  }

  lemma {:induction false} IotaCounts(n: nat, k: nat)
    ensures multiset(Iota(n))[k] == if k < n then 1 else 0
  {
    if n > 0 {
      IotaCounts(n - 1, k);
      assert Iota(n) == Iota(n - 1) + [n - 1];
    }
  }

  lemma CountTwice(s: seq<nat>, i: nat, j: nat)
    requires i < j < |s| && s[i] == s[j]
    ensures multiset(s)[s[i]] >= 2
  {
    assert s == s[..i] + [s[i]] + s[i + 1..j] + [s[j]] + s[j + 1..];
  }

  /** No callback is begun twice, and none that was begun is still waiting. */
  lemma NoneTwice(n: nat, executed: seq<nat>, unread: seq<seq<nat>>, queue: seq<nat>, nested: bool)
    requires Accounts(n, executed, unread, queue, nested)
    ensures forall i, j :: 0 <= i < j < |executed| ==> executed[i] != executed[j]
    ensures forall k :: k in executed ==> k < n && k !in queue && k !in Concat(unread)
  {
    forall i, j | 0 <= i < j < |executed| ensures executed[i] != executed[j] {
      IotaCounts(n, executed[i]);
      if executed[i] == executed[j] {
        CountTwice(executed, i, j);
      }
    }
    forall k | k in executed ensures k < n && k !in queue && k !in Concat(unread) {
      IotaCounts(n, k);
      assert multiset(executed)[k] >= 1;
      assert multiset(executed)[k] + multiset(Concat(unread))[k] + multiset(queue)[k] <= 1;
    }
  }

  /** With nothing left to run, every callback has been begun; without nesting, in order. */
  lemma AllRun(n: nat, executed: seq<nat>, nested: bool)
    requires Accounts(n, executed, [], [], nested)
    ensures |executed| == n
    ensures forall k :: 0 <= k < n ==> k in executed
    ensures !nested ==> executed == Iota(n)
  {
    assert multiset(Iota(n)) == multiset(executed);
    assert |executed| == |multiset(executed)| == |multiset(Iota(n))| == |Iota(n)|;
    forall k | 0 <= k < n ensures k in executed {
      IotaCounts(n, k);
      assert k in multiset(executed);
    }
    assert executed + [] + [] == executed;
  }

  class Process {
    const user: User<Act>

    // a callback is the number of nextTick() calls made before its own
    var enqueued: nat
    var nextTickQueue: seq<nat>
    var exiting: bool
    var exitCode: int
    var uncaughtListeners: nat

    ghost var executed: seq<nat>       // callbacks in the order in which they were begun
    ghost var unread: seq<seq<nat>>    // what the drains under way have still to run, innermost last
    ghost var nested: bool             // some drain was begun while another was under way
    ghost var exitEvents: nat          // 'exit' events emitted
    ghost var exits: seq<int>          // doExit() calls
    ghost var loose: bool              // an exception has left user code and has not been handled

    ghost predicate Valid()
      reads this
    {
      && Accounted()
      && exitEvents == (if exiting then 1 else 0)
      && |exits| <= 1
      && (exits != [] ==> exiting && exits[0] == exitCode)
    }

    ghost predicate Accounted()
      reads this
    {
      forall n :: n == enqueued ==> Accounts(n, executed, unread, nextTickQueue, nested)
    }

    ghost predicate Running()
      reads this
    {
      Valid() && exits == [] && !loose
    }

    ghost predicate Ended(o: Outcome)
      reads this
    {
      Valid() && (o == Exited <==> exits != []) && (o != Exited ==> (loose <==> o == Threw))
    }

    /** What every call that comes back leaves behind. */
    twostate predicate Later()
      reads this, user
    {
      && |user.script| <= |old(user.script)|
      && unread == old(unread)
      && old(enqueued) <= enqueued
      && (old(exiting) ==> exiting)
      && (old(nested) ==> nested)
      && (old(unread) != [] && !nested ==> executed == old(executed))
    }

    /** What comes of a call made by user code that does nothing else. */
    twostate predicate Made(act: Act, o: Outcome)
      reads this
    {
      match act
      case CallNextTick =>
        && o == Returned && nextTickQueue == old(nextTickQueue) + [old(enqueued)] && enqueued == old(enqueued) + 1
        && executed == old(executed)
      case CallNative => o == Returned && nextTickQueue == [] && executed == old(executed) + old(nextTickQueue)
      case CallExit(code) =>
        o == Exited && exits == [if code.Some? && !old(exiting) then code.value else old(exitCode)]
      case CallSetExitCode(value) => o == Returned && exitCode == value && nextTickQueue == old(nextTickQueue)
      case CallListenUncaught(count) => o == Returned && uncaughtListeners == count
    }

    /** At least n moves of the script have been made, or all there are. */
    twostate predicate Moved(n: nat)
      reads this, user
    {
      user.script == [] || |user.script| + n <= |old(user.script)|
    }

    ghost function Fuse(): nat
      reads this
    {
      if exiting then 0 else 1
    }

    constructor (user: User<Act>)
      ensures Running()
      ensures this.user == user && nextTickQueue == [] && unread == [] && !exiting && exitCode == 0
    {
      this.user := user;
      nextTickQueue, exiting, exitCode, uncaughtListeners := [], false, 0, 0;
      enqueued, executed, unread, nested, exitEvents, exits, loose := 0, [], [], false, 0, [], false;
    }

    // ---------------------------------------------------------------- user code

    method RunUser() returns (o: Outcome)
      requires Running()
      modifies this, user
      ensures Ended(o) && (o != Exited ==> Later())
      ensures old(user.script) == [] ==> o == Returned && unchanged(this) && user.script == []
      ensures o != Exited ==> Moved(1)
      ensures old(user.script) != [] && (old(user.script)[0].Raise? || old(user.script)[0].Return?) ==>
                && o == (if old(user.script)[0].Raise? then Threw else Returned)
                && user.script == old(user.script)[1..]
                && unchanged(`enqueued, `nextTickQueue, `exiting, `exitCode, `uncaughtListeners, `executed, `exits)
      // what follows a call or a Catch is done as well
      ensures |old(user.script)| > 1 && old(user.script)[1].Raise? && old(user.script)[0].Catch? ==> o == Threw
      ensures |old(user.script)| > 1 && old(user.script)[1].Raise? && old(user.script)[0] == Call(CallNextTick) ==>
                o == Threw
      ensures |old(user.script)| == 1 && old(user.script)[0].Call? ==> Made(old(user.script)[0].act, o)
      ensures old(user.script) != [] && old(user.script)[0].Call? && old(user.script)[0].act.CallExit? ==> o == Exited
      ensures old(user.script) != [] && old(user.script)[0] == Call(CallNextTick) ==>
                o != Exited ==> enqueued > old(enqueued)
      decreases |user.script|, Fuse(), 0
    {
      var move := user.Next();
      match move {
        case Return => return Returned;
        case Raise =>
          loose := true;
          return Threw;
        case Catch =>
        case Call(act) =>
          :- Perform(act);
      }
      o := RunUser();
    }

    method Perform(act: Act) returns (o: Outcome)
      requires Running()
      modifies this, user
      ensures Ended(o) && (o != Exited ==> Later()) && o != Threw
      ensures old(user.script) == [] ==> Made(act, o) && (o == Returned ==> user.script == [])
      ensures act.CallExit? ==> o == Exited
      ensures act.CallNextTick? ==> o == Returned && enqueued > old(enqueued) && user.script == old(user.script)
      decreases |user.script|, Fuse(), 10
    {
      o := Returned;
      match act
      case CallNextTick => NextTick();
      case CallNative => o := MakeCallback();
      case CallExit(code) => o := Exit(code);
      case CallSetExitCode(value) => exitCode := value;
      case CallListenUncaught(count) => uncaughtListeners := count;
    }

    // ---------------------------------------------------------------- next tick

    method NextTick()
      requires Running()
      modifies `nextTickQueue, `enqueued
      ensures Running() && Later()
      ensures nextTickQueue == old(nextTickQueue) + [old(enqueued)] && enqueued == old(enqueued) + 1
    {
      AccountsEnqueue(enqueued, executed, unread, nextTickQueue, nested);
      nextTickQueue := nextTickQueue + [enqueued];
      enqueued := enqueued + 1;
    }

    /** Runs the callbacks that are in the queue now; says whether they have left others there. */
    method OnNextTick() returns (o: Outcome, more: bool)
      requires Running()
      modifies this, user
      ensures Ended(o) && (o != Exited ==> Later()) && o != Threw
      ensures o == Returned ==> more == (nextTickQueue != [])
      ensures o == Returned && |user.script| == |old(user.script)| ==> nextTickQueue == []
      ensures old(nextTickQueue) == [] ==>
                o == Returned && user.script == old(user.script) && Same() && executed == old(executed)
      // each callback it finds is called
      ensures o == Returned ==> Moved(|old(nextTickQueue)|)
      ensures old(user.script) == [] ==>
                o == Returned && Idle() && nextTickQueue == [] && executed == old(executed) + old(nextTickQueue)
      // the first that throws ends the process if no one listens for that
      ensures old(nextTickQueue) != [] && old(user.script) == [Raise] && old(uncaughtListeners) == 0 ==>
                && o == Exited
                && exits == [if old(exiting) then old(exitCode) else 1]
                && executed == old(executed) + [old(nextTickQueue)[0]]
      // while drains do not nest, a drain runs what it found, in order, and nothing added meanwhile
      ensures o == Returned && !nested ==> executed == old(executed) + old(nextTickQueue)
      decreases |user.script|, Fuse(), 6, 1
    {
      more := false;
      var callbacks := TakeQueue();
      var i := 0;
      while i < |callbacks|
        invariant 0 <= i <= |callbacks|
        invariant Running() && |user.script| <= |old(user.script)| && old(enqueued) <= enqueued
        invariant unread == old(unread) + [callbacks[i..]]
        invariant old(exiting) ==> exiting
        invariant old(nested) || old(unread) != [] ==> nested
        invariant !nested ==> executed == old(executed) + callbacks[..i]
        invariant |user.script| == |old(user.script)| ==> nextTickQueue == []
        invariant Moved(i)
        invariant old(user.script) == [] ==> Idle() && nextTickQueue == [] && executed == old(executed) + callbacks[..i]
        invariant i == 0 ==> user.script == old(user.script) && executed == old(executed) && Same()
        invariant old(user.script) == [Raise] && old(uncaughtListeners) == 0 ==> i == 0
        decreases |callbacks| - i
      {
        :- RunCallback(old(unread), callbacks[i..]);
        i := i + 1;
      }
      assert callbacks[i..] == [];
      EndDrain(old(unread));
      o, more := Returned, |nextTickQueue| > 0;
    }

    /** One turn of the loop: a callback is called, and its exception handled. */
    method RunCallback(ghost outer: seq<seq<nat>>, ghost rest: seq<nat>) returns (o: Outcome)
      requires Running() && rest != [] && unread == outer + [rest]
      modifies this, user
      ensures Ended(o) && o != Threw
      ensures o == Returned ==>
                && Moved(1) && |user.script| <= |old(user.script)| && old(enqueued) <= enqueued
                && unread == outer + [rest[1..]]
                && (old(exiting) ==> exiting) && (old(nested) ==> nested)
                && (!nested ==> executed == old(executed) + [rest[0]])
                && (|user.script| == |old(user.script)| ==> nextTickQueue == old(nextTickQueue))
      ensures old(user.script) == [] ==>
                o == Returned && Idle() && nextTickQueue == old(nextTickQueue) && executed == old(executed) + [rest[0]]
      ensures old(user.script) == [Raise] && old(uncaughtListeners) == 0 ==>
                && o == Exited && executed == old(executed) + [rest[0]]
                && exits == [if old(exiting) then old(exitCode) else 1]
      decreases |user.script|, Fuse(), 6, 0
    {
      BeginCallback(outer, rest);
      o := RunUser();
      if o == Threw {
        o := OnUncaughtException();
      }
    }

    /** User code has done nothing, */
    twostate predicate Idle()
      reads this, user
    {
      user.script == [] && Same() && enqueued == old(enqueued)
    }

    /** and nothing has been changed that it could notice. */
    twostate predicate Same()
      reads this
    {
      && exitCode == old(exitCode) && exiting == old(exiting) && exits == old(exits)
      && uncaughtListeners == old(uncaughtListeners)
    }

    /** The queue is cloned and replaced by an empty one. */
    method TakeQueue() returns (callbacks: seq<nat>)
      requires Running()
      modifies `nextTickQueue, `nested, `unread
      ensures Running() && callbacks == old(nextTickQueue) && nextTickQueue == []
      ensures unread == old(unread) + [callbacks]
      ensures nested == (old(nested) || old(unread) != [])
      ensures executed == old(executed) && exiting == old(exiting) && enqueued == old(enqueued)
    {
      AccountsDrain(enqueued, executed, unread, nextTickQueue, nested);
      callbacks := nextTickQueue;
      nested := nested || unread != [];
      unread := unread + [callbacks];
      nextTickQueue := [];
    }

    ghost method BeginCallback(outer: seq<seq<nat>>, rest: seq<nat>)
      requires Running() && rest != [] && unread == outer + [rest]
      modifies this`executed, this`unread
      ensures Running() && unread == outer + [rest[1..]] && executed == old(executed) + [rest[0]]
    {
      AccountsBegin(enqueued, executed, outer, rest, nextTickQueue, nested);
      executed := executed + [rest[0]];
      unread := outer + [rest[1..]];
    }

    ghost method EndDrain(outer: seq<seq<nat>>)
      requires Running() && unread == outer + [[]]
      modifies this`unread
      ensures Running() && unread == outer
    {
      AccountsEnd(enqueued, executed, outer, nextTickQueue, nested);
      unread := outer;
    }

    /** The end of every call from native code into JavaScript. */
    method MakeCallback() returns (o: Outcome)
      requires Running()
      modifies this, user
      ensures Ended(o) && (o != Exited ==> Later()) && o != Threw
      ensures o == Returned && |user.script| == |old(user.script)| ==> nextTickQueue == []
      ensures o == Returned ==> Moved(1)
      ensures old(user.script) == [] ==>
                o == Returned && Idle() && nextTickQueue == [] && executed == old(executed) + old(nextTickQueue)
      ensures old(user.script) == [Raise] && old(uncaughtListeners) == 0 ==>
                && o == Exited && executed == old(executed)
                && exits == [if old(exiting) then old(exitCode) else 1]
      decreases |user.script|, Fuse(), 7
    {
      o := RunUser();
      if o == Threw {
        o := OnUncaughtException();
      }
      if o == Returned {
        var more;
        o, more := OnNextTick();
      }
    }

    // ---------------------------------------------------------------- exit

    method OnUncaughtException() returns (o: Outcome)
      requires Valid() && exits == [] && loose
      modifies this, user
      ensures Ended(o) && (o != Exited ==> Later()) && o != Threw
      ensures old(uncaughtListeners) == 0 ==> o == Exited
      ensures old(uncaughtListeners) == 0 && old(exiting) ==> exits == [old(exitCode)]
      ensures old(uncaughtListeners) == 0 && !old(exiting) && old(user.script) == [] ==> exits == [1]
      ensures old(user.script) == [] ==> executed == old(executed)
      ensures old(uncaughtListeners) > 0 && old(user.script) == [] ==> o == Returned && exitCode == old(exitCode)
      ensures o == Returned ==> Moved(1)
      // a listener that throws ends the process too
      ensures old(uncaughtListeners) > 0 && old(user.script) == [Raise] ==>
                o == Exited && exits == [if old(exiting) then old(exitCode) else 1]
      decreases |user.script|, Fuse(), 5
    {
      loose := false;
      if uncaughtListeners > 0 {
        o := RunUser();
        if o == Threw {
          loose := false; // its listener has thrown in turn
          o := Exit(Some(1));
        }
      } else {
        o := Exit(Some(1));
      }
    }

    method EmitExit(code: Option<int>) returns (o: Outcome)
      requires Running()
      modifies this, user
      ensures Ended(o) && (o != Exited ==> Later())
      ensures exiting
      ensures old(exiting) ==> o == Returned && unchanged(this) && unchanged(user)
      ensures old(user.script) == [] ==> executed == old(executed)
      ensures old(user.script) == [] ==>
                o == Returned && exitCode == if code.Some? && !old(exiting) then code.value else old(exitCode)
      ensures !old(exiting) && o == Returned ==> Moved(1)
      ensures !old(exiting) && old(user.script) != [] && old(user.script)[0].Raise? ==>
                o == Threw && user.script == old(user.script)[1..]
      decreases |user.script|, Fuse(), 1
    {
      o := Returned;
      if !exiting {
        exiting := true;
        if code.Some? {
          exitCode := code.value;
        }
        exitEvents := exitEvents + 1;
        o := RunUser();
      }
    }

    /** process.exit never comes back: the process is gone, once, whatever its listeners do. */
    method Exit(code: Option<int>) returns (o: Outcome)
      requires Running()
      modifies this, user
      ensures Ended(o) && o == Exited
      ensures old(exiting) ==> exits == [old(exitCode)] && user.script == old(user.script)
      ensures old(user.script) == [] ==> executed == old(executed)
      ensures old(user.script) == [] ==>
                exits == [if code.Some? && !old(exiting) then code.value else old(exitCode)]
      decreases |user.script|, Fuse(), 4
    {
      o := EmitExit(code);
      if o == Threw {
        o := ExitListenerThrew();
      }
      if o == Exited {
        return;
      }
      DoExit(exitCode);
      o := Exited;
    }

    /** The catch clause of process.exit. */
    method ExitListenerThrew() returns (o: Outcome)
      requires Valid() && exits == [] && loose && exiting
      modifies this, user
      ensures Ended(o) && (o != Exited ==> Later()) && o != Threw
      ensures old(uncaughtListeners) == 0 ==> exits == [1]
      decreases |user.script|, Fuse(), 6
    {
      exitCode := 1;
      o := OnUncaughtException();
    }

    method DoExit(code: int)
      requires Running() && exiting && code == exitCode
      modifies `exits
      ensures Valid() && exits == [code] && exitCode == old(exitCode)
    {
      exits := exits + [code];
    }

    // ---------------------------------------------------------------- main loop

    method MakeCallbacks(count: nat) returns (o: Outcome)
      requires Running()
      modifies this, user
      ensures Ended(o) && (o != Exited ==> Later()) && o != Threw
      ensures o == Returned && |user.script| == |old(user.script)| && count > 0 ==> nextTickQueue == []
      ensures o == Returned ==> Moved(count)
      ensures old(user.script) == [] ==> o == Returned && Idle() && (count > 0 ==> nextTickQueue == [])
      ensures count == 0 ==> o == Returned && unchanged(this) && unchanged(user)
    {
      o := Returned;
      if count > 0 {
        o := MakeCallback();
        if o == Returned && count > 1 {
          o := MakeCallbacks(count - 1);
        }
      }
    }

    /** The loop in StartIoTjs, which ends with nothing queued and no handle alive; `used` is the number of
        polls it has made, of those given. */
    method MainLoop(polls: seq<Poll>) returns (o: Outcome, last: Poll, used: nat)
      requires Running() && unread == []
      modifies this, user
      ensures Ended(o) && o != Threw
      ensures o == Returned ==> nextTickQueue == [] && unread == [] && !last.more && !last.alive
      // every callback ever enqueued has been run (once, by NoneTwice)
      ensures o == Returned ==> |executed| == enqueued && forall k :: 0 <= k < enqueued ==> k in executed
      // every callback that a poll makes is called
      ensures used <= |polls| && (o == Returned ==> Moved(Callbacks(polls[..used])))
      // user code apart, it goes on exactly as long as the polls say
      ensures old(user.script) == [] ==>
                && o == Returned && Idle()
                && Polled(polls, used, last)
      ensures polls == [] && old(nextTickQueue) == [] ==>
                o == Returned && Same() && user.script == old(user.script)
    {
      last, used := NOTHING_LEFT, 0;
      var more := true;
      while more
        invariant Running() && unread == [] && used <= |polls|
        invariant !more ==> nextTickQueue == [] && !last.more && !last.alive
        invariant Moved(Callbacks(polls[..used]))
        invariant old(user.script) == [] ==>
                    Idle() && if more then forall j :: 0 <= j < used ==> !polls[j].Over() else Polled(polls, used, last)
        invariant polls == [] && old(nextTickQueue) == [] ==>
                    Same() && user.script == old(user.script) && nextTickQueue == []
        decreases |polls| - used, |user.script|, nextTickQueue != [], more
      {
        ghost var before := used;
        last := NOTHING_LEFT; // once nothing is left to wait for
        if used < |polls| {
          last := polls[used];
          used := used + 1;
        }
        o := MakeCallbacks(last.callbacks);
        if o == Exited {
          return;
        }
        CallbacksMore(polls, before, used);
        var ticks;
        o, ticks := OnNextTick();
        if o == Exited {
          return;
        }
        more := last.more || ticks;
        if !more {
          more := last.alive;
        }
      }
      AllRun(enqueued, executed, nested);
      o := Returned;
    }

    /** A whole run, the main script first.  However it ends, there has been exactly one 'exit' event. */
    method Start(polls: seq<Poll>) returns (o: Outcome)
      requires Running() && unread == []
      modifies this, user
      ensures Valid() && exitEvents == 1 && o != Threw
      ensures o == Returned ==> Moved(1)
      // left alone it ends with the exit code 0
      ensures old(user.script) == [] && !old(exiting) ==> o == Returned && exits == [] && exitCode == 0
      // a main script that throws, and a listener of 'exit' that throws at the end, give the codes 1 and 2
      ensures old(user.script) == [Raise] && old(uncaughtListeners) == 0 && !old(exiting) ==>
                o == Exited && exits == [1]
      ensures old(user.script) == [Return, Raise] && polls == [] && old(nextTickQueue) == [] && !old(exiting) ==>
                o == Exited && exits == [2]
    {
      o := RunUser();
      if o == Threw {
        o := OnUncaughtException();
      }
      if o == Exited {
        return;
      }
      var last, used;
      o, last, used := MainLoop(polls);
      if o == Returned {
        o := EmitExit(Some(0));
        if o == Threw {
          loose := false;
          exitCode := 2;
          DoExit(2);
          o := Exited;
        }
      }
    }
  }
}
