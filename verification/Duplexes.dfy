/**
 Readable and writable streams and the TCP socket built from them.  In JavaScript a socket is one
 object whose methods come from three prototypes; here it is one class, and `isSocket` says whether
 the socket's overriding methods are on the prototype chain.

 Wherever the original runs user code (a listener, a write callback, a plain stream's _write), the
 model calls RunUser.
 */
module Duplexes {
  import opened Outcomes
  import opened Protocol
  import opened Flat
  import opened Users
  import Turns

  /** The argument of push(). */
  datatype Pushed = Null | Invalid | Buf(bytes: Bytes)

  /** The last argument of end(): none, a function, or something that is neither. */
  datatype Callback = Absent | Function | NotFunction

  /** A call that user code can make. */
  datatype Act =
    | CallWrite(chunk: Chunk, notify: bool)
    | CallEnd(data: Option<Chunk>, callback: Callback)
    | CallRead(n: Option<int>)
    | CallPause
    | CallOnFinish(once: bool)       // on('finish', f) or once('finish', f)
    | CallRemoveFinish(k: nat)       // removeListener('finish', f)
    | CallEmit                       // emit() of an event with listeners, on this or any other emitter
    | CallResume
    | CallConnect                    // sockets
    | CallDestroy
    | CallDestroySoon
    | CallPush(pushed: Pushed)       // implementers of plain streams
    | CallReadyToWrite
    | CallOnWrite

  /** What the event loop reports to a socket. */
  datatype Report =
    | Turn                           // user code alone: a timer, a next-tick callback of its own
    | Tick                           // the next of the stream's own next-tick callbacks
    | Connection                     // a server has made the socket for a connection
    | Connected(status: int)
    | Written
    | Incoming(nread: int, isEof: bool, bytes: Bytes)
    | ShutdownDone
    | Closed

  /** A next-tick callback that a stream has queued. */
  datatype Tick = ReadStart | Refused(callback: bool)

  /** A listener of 'finish', other than the socket's own, which is the first: a wrapper that destroys
      the socket, or a user function, wrapped by once() or not. */
  datatype Finisher = Closer | OnceCallback | OnCallback

  function Onces(fs: seq<Finisher>): seq<bool> {
    seq(|fs|, k requires 0 <= k < |fs| => !fs[k].OnCallback?)
  }

  function From(fs: seq<Finisher>, i: nat): seq<Finisher> {
    if i <= |fs| then fs[i..] else []
  }

  /** An undisturbed 'finish' reaches a wrapper that destroys the socket. */
  predicate Closes(fs: seq<Finisher>) {
    fs != [] && (fs[0] == Closer || Closes(fs[Turns.Skip(Onces(fs))..]))
  }

  /** It reaches one just when an even number of wrappers stands directly before one of them. */
  lemma {:induction false} ClosesMeans(fs: seq<Finisher>)
    ensures Closes(fs) <==>
            exists k :: 0 <= k < |fs| && fs[k] == Closer && Turns.RunBefore(Onces(fs), k) % 2 == 0
  {
    forall k | 0 <= k < |fs| ensures Turns.Reached(Onces(fs), k) <==> Turns.RunBefore(Onces(fs), k) % 2 == 0 {
      Turns.ReachedAfterEvenRun(Onces(fs), k);
    }
    ClosesReached(fs);
  }

  lemma {:induction false} ClosesReached(fs: seq<Finisher>)
    ensures Closes(fs) <==> exists k :: 0 <= k < |fs| && fs[k] == Closer && Turns.Reached(Onces(fs), k)
  {
    if fs != [] && fs[0] != Closer {
      var n := Turns.Skip(Onces(fs));
      Turns.SkipReaches(Onces(fs));
      ClosesReached(fs[n..]);
      assert Onces(fs)[n..] == Onces(fs[n..]);
      forall k | n <= k < |fs| ensures Turns.Reached(Onces(fs[n..]), k - n) <==> Turns.Reached(Onces(fs), k) {
        Turns.ReachedFrom(Onces(fs), n, k);
      }
      forall k | 0 <= k < |fs| - n ensures fs[n..][k] == fs[n + k] {}
      if k :| 0 <= k < |fs[n..]| && fs[n..][k] == Closer && Turns.Reached(Onces(fs[n..]), k) {
        assert fs[n + k] == Closer && Turns.Reached(Onces(fs), n + k);
      }
    }
  }

  /** How many writes are reported to be completed. */
  function Writes(reports: seq<Report>): nat {
    if reports == [] then 0 else (if reports[0] == Written then 1 else 0) + Writes(reports[1..])
  }

  function Least(a: int, b: int): int {
    if a < b then a else b
  }

  class Duplex {
    const user: User<Act>
    const isSocket: bool
    const allowHalfOpen: bool

    // _writableState
    var ready: bool
    var writing: bool
    var ending: bool
    var ended: bool
    var buffer: seq<Chunk>

    // _readableState
    var chunks: seq<Bytes>
    var length: nat
    var flowing: bool
    var eof: bool
    var endEmitted: bool

    // _socketState
    var connecting: bool
    var connected: bool
    var reading: bool
    var writable: bool
    var readable: bool

    // _handle, and whether its native wrapper still holds a libuv handle
    var hasHandle: bool
    var uvHandle: bool

    // the listeners of 'finish' after the socket's own, in order; and whether, during 'finish', another
    // emit has taken over the variables of the loop in emit, which all emits share
    var finishers: seq<Finisher>
    var diverted: bool

    var ticks: seq<Tick>

    ghost var trace: seq<Event>
    ghost var w: Writer
    ghost var r: Reader
    ghost var uvCloses: nat

    /** The fields agree with the trace, `queue` standing for the write queue and `passing` for bytes
        that are about to be handed to 'data'. */
    ghost predicate Linked(queue: seq<Chunk>, passing: Bytes)
      reads `trace, `w, `r, `ready, `writing, `ending, `ended
      reads `chunks, `length, `flowing, `eof, `endEmitted
      reads `connecting, `connected, `writable, `readable, `hasHandle, `uvHandle, `uvCloses
    {
      && Recorded()
      && WriterLinked(queue)
      && ReaderLinked(passing)
      && SocketLinked()
    }

    /** `w` and `r` are where the automata stand after `trace`.  (The bound variable keeps the
        verifier from unfolding the automata except where an event is recorded.) */
    ghost predicate Recorded()
      reads `trace, `w, `r
    {
      forall t :: t == trace ==> w == WriterAfter(t) && r == ReaderAfter(t)
    }

    ghost predicate WriterLinked(queue: seq<Chunk>)
      reads `w, `ready, `writing, `ending, `ended
    {
      && w.ok && w.Inv()
      && ready == w.ready && ending == w.ending && ended == w.finished
      && writing == (w.submitted == w.completed + 1)
      && queue == w.accepted[w.submitted..]
    }

    ghost predicate ReaderLinked(passing: Bytes)
      reads `r, `chunks, `length, `flowing, `eof, `endEmitted
    {
      && r.ok && r.Inv()
      && eof == r.eof && endEmitted == r.ended
      && BytesLinked(passing)
      && (flowing ==> length == 0)
    }

    /** (Bound as in Recorded: the bytes are looked at only where they move.) */
    ghost predicate BytesLinked(passing: Bytes)
      reads `r, `chunks, `length
    {
      forall cs :: cs == chunks ==> length == |Flatten(cs)| && r.pushed == r.out + Flatten(cs) + passing
    }

    ghost predicate SocketLinked()
      reads `w, `ending, `eof, `endEmitted, `connecting, `connected, `writable, `readable
      reads `hasHandle, `uvHandle, `uvCloses
    {
      && (!isSocket ==> writable && readable && !hasHandle)
      && (!writable ==> ending)
      && (!readable ==> eof && endEmitted)
      && (connecting || connected || w.shut || w.closed ==> hasHandle)
      && !(connecting && connected)
      && (isSocket && eof ==> connected)
      && uvHandle == (hasHandle && !w.closed)
      && uvCloses == if w.closed then 1 else 0
    }

    /** What holds wherever user code can run.  (An equation: the verifier keeps it in one piece.) */
    ghost predicate Valid()
      reads `trace, `w, `r, `ready, `writing, `ending, `ended
      reads `chunks, `length, `flowing, `eof, `endEmitted
      reads `connecting, `connected, `writable, `readable, `hasHandle, `uvHandle, `uvCloses, `buffer
    {
      true == (Linked(buffer, []) && w.Quiet() && EndQuiet() && ConnectQuiet())
    }

    /** The same, but for the writing side, which may have something to do. */
    ghost predicate Startable()
      reads `trace, `w, `r, `ready, `writing, `ending, `ended
      reads `chunks, `length, `flowing, `eof, `endEmitted
      reads `connecting, `connected, `writable, `readable, `hasHandle, `uvHandle, `uvCloses, `buffer
    {
      Linked(buffer, []) && EndQuiet() && ConnectQuiet()
    }

    ghost predicate ConnectQuiet()
      reads `w, `connected
    {
      (connected ==> w.ready) && (isSocket && w.ready ==> connected)
    }

    /** After the end of file 'end' is outstanding either because bytes are left, or because resume()
        delivered the last of them: resume() does not emit 'end'.  A read() that holds bytes while user
        code runs is emitting 'end'. */
    ghost predicate EndQuiet()
      reads `r, `length, `eof, `endEmitted
    {
      && (eof && !endEmitted ==> (length == 0 <==> r.drained))
      && (r.held != [] ==> endEmitted)
    }

    /** What no amount of activity undoes; but for reports from the event loop, which complete a socket's
        writes and make the callbacks of next ticks. */
    twostate predicate Later()
      reads this, user
    {
      Lasting() && (isSocket ==> w.completed == old(w.completed)) && old(ticks) <= ticks
    }

    /** What not even they undo. */
    twostate predicate Lasting()
      reads this, user
    {
      true == (
        && old(trace) <= trace
        && |user.script| <= old(|user.script|)
        && (old(ending) ==> ending && w.accepted == old(w.accepted))
        && (old(ending) && !old(w.jammed) ==> !w.jammed)
        && (old(w.ready) ==> w.ready)
        && (isSocket && old(w.jammed) && old(w.ready) ==> w.jammed)
        && (old(ended) ==> ended)
        && (old(w.shut) ==> w.shut)
        && (old(w.closed) ==> w.closed)
        && (old(eof) ==> eof && length <= old(length))
        && (old(endEmitted) ==> endEmitted && r.held == old(r.held) && r.lost == old(r.lost))
        && (old(ended && diverted) ==> diverted)
        && (old(hasHandle) ==> hasHandle)
        && (old(connected) ==> connected)
        && (!old(writable) ==> !writable)
        && (!old(readable) ==> !readable)
        && (isSocket && old(eof) && !old(ended) && ended ==> w.closed)
      )
    }

    /** The next thing that user code does is to throw. */
    ghost predicate WillThrow()
      reads user
    {
      user.script != [] && user.script[0].Raise?
    }

    /** At least n moves of the script have been made, or all there are. */
    twostate predicate Moved(n: nat)
      reads user
    {
      user.script == [] || |user.script| + n <= |old(user.script)|
    }

    twostate predicate Emitted(e: Event)
      reads `trace
    {
      exists j :: |old(trace)| <= j < |trace| && trace[j] == e
    }

    /** What the stream leaves alone as long as user code does nothing. */
    twostate predicate Kept()
      reads this, user
    {
      && user.script == old(user.script) == []
      && w == old(w) && eof == old(eof) && connected == old(connected) && hasHandle == old(hasHandle)
      && finishers == old(finishers) && diverted == old(diverted) && reading == old(reading)
    }

    /** The same while the writing side goes on by itself; the listeners of 'finish' are then `fs`. */
    twostate predicate ByItself(fs: seq<Finisher>)
      reads this, user
    {
      old(user.script) == [] ==>
        && user.script == []
        && w.completed == old(w.completed) && eof == old(eof) && connected == old(connected)
        && (!ended ==> finishers == fs)
    }

    /** How a connected socket gets on while user code does nothing and there is no end of file: when it
        finishes, the listeners of 'finish', `fs`, decide whether it is closed. */
    twostate predicate Alone(c: Completion, fs: seq<Finisher>)
      reads this, user
    {
      old(user.script) == [] && old(isSocket && connected && !eof) ==>
        && c == Normal && user.script == [] && connected && !eof
        && (old(ended) ==> w.closed == old(w.closed) && finishers == old(finishers))
        && (!old(ended) && ended ==> (w.closed <==> Closes(fs)))
        && (!ended ==> finishers == fs)
    }

    /** What becomes of a socket that has finished and met the end of file, while user code does nothing:
        the answer to its shutdown closes it, and nothing else does. */
    twostate predicate LeftOpen(answered: bool)
      reads this, user
    {
      old(user.script) == [] && old(isSocket && eof && ended) ==>
        user.script == [] && (w.closed <==> old(w.closed) || answered)
    }

    /** The next step of the writing side runs user code. */
    ghost predicate Busy()
      reads `buffer, `ending, `ended, `finishers, `hasHandle
    {
      if buffer != [] then !isSocket else ending && !ended && finishers != [] && (isSocket ==> hasHandle)
    }

    /** The listeners of 'finish' when end() has registered its callback. */
    ghost function Finishers(callback: Callback): seq<Finisher>
      reads `finishers
    {
      if callback == Function then finishers + [OnceCallback] else finishers
    }

    /** Bounds the library's own recursion: each of these happens once. */
    ghost function Steps(): nat
      reads this
    {
      (if ending then 0 else 1) + (if ended then 0 else 1) + if endEmitted then 0 else 1
    }

    constructor (user: User<Act>, isSocket: bool, allowHalfOpen: bool, handle: bool)
      requires handle ==> isSocket
      ensures Valid()
      ensures trace == []
      ensures this.isSocket == isSocket && this.allowHalfOpen == allowHalfOpen
      ensures this.user == user && hasHandle == handle && !connecting && !connected
      ensures !ready && !ending && !writing && !eof && !flowing && chunks == [] && length == 0
      ensures finishers == [] && ticks == []
    {
      this.isSocket, this.allowHalfOpen := isSocket, allowHalfOpen;
      ready, writing, ending, ended, buffer := false, false, false, false, [];
      chunks, length, flowing, eof, endEmitted := [], 0, false, false, false;
      connecting, connected, reading, writable, readable := false, false, false, true, true;
      finishers, diverted, ticks := [], false, [];
      hasHandle, uvHandle := handle, handle;
      this.user := user;
      trace, w, r, uvCloses := [], NEW_WRITER, NEW_READER, 0;
    }

    ghost method Record(e: Event)
      requires Recorded()
      modifies this`trace, this`w, this`r
      ensures trace == old(trace) + [e]
      ensures w == Write1(old(w), e) && r == Read1(old(r), e)
      ensures Recorded()
    {
      WriterStep(trace, e);
      ReaderStep(trace, e);
      trace, w, r := trace + [e], Write1(w, e), Read1(r, e);
    }

    // ---------------------------------------------------------------- user code

    /** The event that a call must begin with; None for a call that has none to make. */
    ghost function Mark(act: Act): Option<Event>
      reads this
    {
      match act
      case CallWrite(chunk, _) => MarkOfWrite(chunk)
      case CallEnd(data, callback) =>
        if data.Some? then MarkOfWrite(data.value)
        else if ending then None else Some(Ending(callback != NotFunction))
      case CallRead(n) =>
        if Drains(n) then Some(Hold(Flatten(chunks)))
        else if eof && length == 0 && !endEmitted then Some(End) else None
      case CallPause => if flowing then Some(Signal("pause")) else None
      case CallResume => if !flowing && length > 0 then Some(Deliver(Flatten(chunks))) else None
      case CallOnFinish(_) => None
      case CallRemoveFinish(k) =>
        if k < |finishers| && finishers[k] != Closer then Some(Signal("removeListener")) else None
      case CallEmit => None
      case CallConnect => if isSocket && !connecting && !connected then Some(Dial) else None
      case CallDestroy =>
        if isSocket && writable && !ending then Some(Ending(true))
        else if isSocket && ended && hasHandle then Some(Close) else None
      case CallDestroySoon => if isSocket && writable && !ending then Some(Ending(true)) else None
      case CallPush(p) =>
        if isSocket then None
        else if p.Null? then Some(Eof)
        else if p.Invalid? || eof then Some(Signal("error")) else Some(Push(p.bytes))
      case CallReadyToWrite => if isSocket then None else Some(Ready)
      case CallOnWrite => if !isSocket && writing then Some(Done) else None
    }

    ghost function MarkOfWrite(chunk: Chunk): Option<Event>
      reads `ending
    {
      if isSocket && chunk.NotData? then None else Some(if ending then Refuse(chunk) else Accept(chunk))
    }

    /** A call that throws, whatever user code does. */
    ghost predicate Throws(act: Act)
      reads this
    {
      match act
      case CallWrite(chunk, _) => isSocket && chunk.NotData?
      case CallEnd(data, callback) =>
        if data.Some? then isSocket && data.value.NotData? else !ending && callback == NotFunction
      case CallRead(n) => n.Some? && 0 < n.value < length
      case CallDestroy => isSocket && ended && !hasHandle
      case _ => false
    }

    predicate Ends(act: Act) {
      (act.CallEnd? && act.data.None?) || (isSocket && (act.CallDestroy? || act.CallDestroySoon?))
    }

    /** A call has been made: what must have come of it, for good. */
    twostate predicate Made(act: Act)
      reads this
    {
      && (old(Mark(act)).Some? ==> old(trace) + [old(Mark(act)).value] <= trace)
      && (Ends(act) ==> ending)
      && (act.CallEmit? && old(ended) ==> diverted)
    }

    /** What has come of a move and of what follows it: what follows a Catch or a call is done as well. */
    twostate predicate Played(move: Move<Act>, rest: seq<Move<Act>>, c: Completion)
      reads this, user
    {
      match move
      case Return => c == Normal && user.script == rest && unchanged(this)
      case Raise => c == Throw && user.script == rest && unchanged(this)
      case Catch => rest != [] ==> (rest[0].Raise? ==> c == Throw) && (rest[0].Call? ==> Made(rest[0].act))
      case Call(act) =>
        && Made(act)
        && (old(Throws(act)) ==>
              if rest == [] || !rest[0].Catch? then c == Throw else rest == [Catch] ==> c == Normal)
        && (act.CallConnect? && rest != [] ==>
              (rest[0].Raise? ==> c == Throw) && (rest[0].Call? && Ends(rest[0].act) ==> ending))
    }

    /** The moves of user code are made one after the other: a call is made, an exception that no Catch
        follows ends it, and so does a return. */
    method RunUser() returns (c: Completion)
      requires Valid()
      modifies this, user
      ensures Valid() && Later()
      ensures |user.script| < |old(user.script)|
              || (c == Normal && unchanged(this) && user.script == old(user.script) == [])
      ensures old(user.script) != [] ==> Played(old(user.script)[0], old(user.script)[1..], c)
      decreases |user.script|, Steps(), 0
    {
      var move := user.Next();
      match move {
        case Return => return Normal;
        case Raise => return Throw;
        case Catch =>
        case Call(act) => :- Try(act);
      }
      c := RunUser();
    }

    /** A call, whose exception user code may catch. */
    method Try(act: Act) returns (c: Completion)
      requires Valid()
      modifies this, user
      ensures Valid() && Later() && Made(act)
      ensures old(Throws(act)) ==>
                && (c == Throw <==> old(user.script) == [] || !old(user.script)[0].Catch?)
                && (c == Normal ==> user.script == old(user.script)[1..])
      ensures act.CallConnect? ==> c == Normal && user.script == old(user.script)
      decreases |user.script|, Steps(), 31
    {
      c := Perform(act);
      if c == Throw {
        var caught := user.Catches();
        c := if caught then Normal else Throw;
      }
    }

    /** An event that only user code listens to. */
    method Emit(name: string) returns (c: Completion)
      requires Valid()
      modifies this, user
      ensures Valid() && Later()
      ensures old(trace) + [Signal(name)] <= trace
      ensures |user.script| < |old(user.script)|
              || (c == Normal && Kept() && trace == old(trace) + [Signal(name)]
                  && unchanged(`flowing, `connecting, `writing, `buffer, `chunks, `length, `endEmitted))
      ensures old(WillThrow()) ==>
                && c == Throw && user.script == old(user.script)[1..]
                && trace == old(trace) + [Signal(name)] && w == old(w) && r == old(r)
                && unchanged(`finishers, `diverted, `ticks, `connecting, `flowing)
      decreases |user.script|, Steps(), 1
    {
      Record(Signal(name));
      c := RunUser();
    }

    /** What a single call guarantees when it ends. */
    twostate predicate Performed(act: Act, c: Completion)
      reads this, user
    {
      && Made(act)
      && (old(Throws(act)) ==> c == Throw && user.script == old(user.script))
      && (old(Mark(act)).None? && !act.CallEmit? ==> trace == old(trace))
      && (act.CallConnect? ==> c == Normal && user.script == old(user.script))
      && (act.CallOnFinish? ==> finishers == old(finishers) + [if act.once then OnceCallback else OnCallback])
    }

    /** One call made by user code. */
    method Perform(act: Act) returns (c: Completion)
      requires Valid()
      modifies this, user
      ensures Valid() && Later() && Performed(act, c)
      decreases |user.script|, Steps(), 30
    {
      if act.CallWrite? || act.CallEnd? || act.CallRead? || act.CallPause? || act.CallResume? {
        c := PerformStream(act);
      } else if act.CallOnFinish? || act.CallRemoveFinish? || act.CallEmit? {
        c := PerformEmitter(act);
      } else if isSocket {
        c := PerformSocket(act);
      } else {
        c := PerformImplementer(act);
      }
    }

    method PerformStream(act: Act) returns (c: Completion)
      requires Valid() && (act.CallWrite? || act.CallEnd? || act.CallRead? || act.CallPause? || act.CallResume?)
      modifies this, user
      ensures Valid() && Later() && Performed(act, c)
      decreases |user.script|, Steps(), 29
    {
      match act
      case CallWrite(chunk, notify) => c := Write(chunk, notify);
      case CallEnd(data, callback) => c := EndStream(data, callback);
      case CallRead(n) => var out; c, out := Read(n);
      case CallPause => c := Pause();
      case CallResume => c := Resume();
    }

    method PerformEmitter(act: Act) returns (c: Completion)
      requires Valid() && (act.CallOnFinish? || act.CallRemoveFinish? || act.CallEmit?)
      modifies this, user
      ensures Valid() && Later() && Performed(act, c)
      ensures act.CallEmit? ==> |user.script| < |old(user.script)| || (c == Normal && trace == old(trace))
      decreases |user.script|, Steps(), 29
    {
      c := Normal;
      match act
      case CallOnFinish(once) => AddFinisher(if once then OnceCallback else OnCallback);
      case CallRemoveFinish(k) => c := RemoveFinisher(k);
      case CallEmit => diverted := true; c := RunUser();
    }

    /** Other calls than these are not a socket's user's to make, and do nothing. */
    method PerformSocket(act: Act) returns (c: Completion)
      requires Valid() && isSocket
      modifies this, user
      ensures Valid() && Later()
      ensures act.CallConnect? || act.CallDestroy? || act.CallDestroySoon? ==> Performed(act, c)
      ensures !(act.CallConnect? || act.CallDestroy? || act.CallDestroySoon?) ==>
                c == Normal && unchanged(this) && unchanged(user)
      decreases |user.script|, Steps(), 29
    {
      c := Normal;
      match act
      case CallConnect => Connect();
      case CallDestroy => c := Destroy();
      case CallDestroySoon => c := DestroySoon();
      case _ =>
    }

    /** The calls by which a plain stream is implemented. */
    method PerformImplementer(act: Act) returns (c: Completion)
      requires Valid() && !isSocket
      modifies this, user
      ensures Valid() && Later()
      ensures act.CallPush? || act.CallReadyToWrite? || act.CallOnWrite? ==> Performed(act, c)
      ensures !(act.CallPush? || act.CallReadyToWrite? || act.CallOnWrite?) ==>
                c == Normal && unchanged(this) && unchanged(user)
      decreases |user.script|, Steps(), 29
    {
      c := Normal;
      match act
      case CallPush(p) => c := PushChunk(p);
      case CallReadyToWrite => c := ReadyToWrite();
      case CallOnWrite => if writing { c := OnWrite(); }
      case _ =>
    }

    // ---------------------------------------------------------------- stream_writable.js

    method AddFinisher(f: Finisher)
      requires Valid()
      modifies `finishers
      ensures Valid() && Later() && finishers == old(finishers) + [f]
    {
      finishers := finishers + [f];
    }

    /** User code takes back a listener of its own; the wrappers that destroy the socket are not its to
        name. */
    method RemoveFinisher(k: nat) returns (c: Completion)
      requires Valid()
      modifies this, user
      ensures Valid() && Later()
      ensures if k < |old(finishers)| && old(finishers)[k] != Closer
              then old(trace) + [Signal("removeListener")] <= trace
              else c == Normal && unchanged(this) && unchanged(user)
      ensures old(user.script) == [] ==>
                finishers == if k < |old(finishers)| && old(finishers)[k] != Closer
                             then old(finishers)[..k] + old(finishers)[k + 1..] else old(finishers)
      decreases |user.script|, Steps(), 2
    {
      c := Normal;
      if k < |finishers| && finishers[k] != Closer {
        finishers := finishers[..k] + finishers[k + 1..];
        c := Emit("removeListener");
      }
    }

    /** `this.write`: a socket refuses anything but data, then both do the same. */
    method Write(chunk: Chunk, callback: bool) returns (c: Completion)
      requires Valid()
      modifies this, user
      ensures Valid() && Later()
      ensures isSocket && chunk.NotData? ==> c == Throw && unchanged(this) && unchanged(user)
      ensures old(user.script) == [] && !old(ending) && !(isSocket && chunk.NotData?) ==>
                c == Normal && !ending && !ended && ByItself(old(finishers))
      ensures (isSocket && chunk.NotData?) ||
              old(trace) + [if old(ending) then Refuse(chunk) else Accept(chunk)] <= trace
      ensures c == Normal && old(ending) ==> ticks != [] && ticks[|ticks| - 1] == Refused(callback)
      decreases |user.script|, Steps(), 9
    {
      if isSocket && chunk.NotData? {
        return Throw;
      }
      if ended || ending {
        c := WriteAfterEnd(chunk, callback);
      } else {
        c := WriteOrBuffer(chunk);
      }
    }

    /** The callback hears of the error in a later tick. */
    method WriteAfterEnd(chunk: Chunk, callback: bool) returns (c: Completion)
      requires Valid() && ending
      modifies this, user
      ensures Valid() && Later()
      ensures old(trace) + [Refuse(chunk), Signal("error")] <= trace
      ensures c == Normal ==> ticks != [] && ticks[|ticks| - 1] == Refused(callback)
      ensures old(WillThrow()) ==> c == Throw && ticks == old(ticks)
      decreases |user.script|, Steps(), 8
    {
      Record(Refuse(chunk));
      c := Normal;
      :- Emit("error");
      ticks := ticks + [Refused(callback)];
      c := Normal;
    }

    method WriteOrBuffer(chunk: Chunk) returns (c: Completion)
      requires Valid() && !ending
      modifies this, user
      ensures Valid() && Later()
      ensures old(trace) + [Accept(chunk)] <= trace
      ensures old(user.script) == [] ==> c == Normal && !ending && !ended && ByItself(old(finishers))
      decreases |user.script|, Steps(), 8
    {
      Record(Accept(chunk));
      if !ready || writing || |buffer| > 0 {
        buffer := buffer + [chunk];
        c := Normal;
      } else {
        c := DoWrite(chunk);
      }
    }

    method DoWrite(chunk: Chunk) returns (c: Completion)
      requires Linked([chunk] + buffer, []) && EndQuiet() && ConnectQuiet()
      requires (ready || ending) && !w.jammed && !writing
      modifies this, user
      ensures Valid() && Later() && ByItself(old(finishers)) && Alone(c, old(finishers))
      ensures old(trace) + [Submit(chunk)] <= trace
      ensures old(user.script) == [] && (isSocket ==> hasHandle) ==>
                c == Normal && ending == old(ending) && ended == old(ended)
      ensures if isSocket then c == (if old(hasHandle) then Normal else Throw) && user.script == old(user.script)
              else Moved(1) && (old(WillThrow()) ==> c == Throw && user.script == old(user.script)[1..])
      decreases |user.script|, Steps(), 2
    {
      if writing {
        assert false; // "write during writing" cannot happen
      }
      BeginWrite(chunk);
      c := SendChunk();
    }

    method BeginWrite(chunk: Chunk)
      requires Linked([chunk] + buffer, []) && EndQuiet() && ConnectQuiet()
      requires (ready || ending) && !w.jammed && !writing
      modifies `writing, `trace, `w, `r
      ensures Valid() && writing && trace == old(trace) + [Submit(chunk)]
      ensures w == old(w).(submitted := old(w.submitted) + 1) && r == old(r)
    {
      assert w.accepted[w.submitted] == chunk && w.accepted[w.submitted + 1..] == buffer by {
        assert w.accepted[w.submitted..] == [chunk] + buffer;
      }
      writing := true;
      Record(Submit(chunk));
    }

    /** `_write`: a socket passes the chunk to its handle, a plain stream's _write is user code. */
    method SendChunk() returns (c: Completion)
      requires Valid()
      modifies this, user
      ensures Valid() && Later() && ByItself(old(finishers))
      ensures old(user.script) == [] && !isSocket ==> c == Normal && unchanged(this)
      ensures !isSocket ==> Moved(1) && (old(WillThrow()) ==> c == Throw && user.script == old(user.script)[1..])
      ensures isSocket ==> unchanged(this) && unchanged(user) && c == if hasHandle then Normal else Throw
      decreases |user.script|, Steps(), 1
    {
      if !isSocket {
        c := RunUser();
      } else if !hasHandle {
        c := Throw;
      } else {
        c := Normal;
      }
    }

    method WriteBuffered() returns (c: Completion)
      requires Startable() && (ready || ending) && !w.jammed
      modifies this, user
      ensures Valid() && Later() && ByItself(old(finishers)) && Alone(c, old(finishers))
      // an exception of a listener, or of a plain stream's _write, comes out
      ensures old(WillThrow() && !writing && Busy()) ==> c == Throw && user.script == old(user.script)[1..]
      decreases |user.script|, Steps(), 5
    {
      c := Normal;
      if !writing {
        if |buffer| == 0 {
          c := OnEmptyBuffer();
        } else {
          var chunk := buffer[0];
          buffer := buffer[1..];
          c := DoWrite(chunk);
        }
      }
    }

    method OnEmptyBuffer() returns (c: Completion)
      requires Startable() && !w.jammed && buffer == [] && !writing
      modifies this, user
      ensures Valid() && Later() && ByItself(old(finishers)) && Alone(c, old(finishers))
      // an exception of a listener, or of a plain stream's _write, comes out
      ensures old(WillThrow() && Busy()) ==> c == Throw && user.script == old(user.script)[1..]
      decreases |user.script|, Steps(), 4
    {
      c := Normal;
      if ending {
        c := EmitFinish();
      }
    }

    method EmitFinish() returns (c: Completion)
      requires Startable() && ending && !w.jammed && buffer == [] && !writing
      modifies this, user
      ensures Valid() && Later() && ByItself(old(finishers)) && Alone(c, old(finishers))
      ensures !old(ended) ==> old(trace) + [Finish] <= trace
      ensures !old(ended) && hasHandle ==>
        old(trace) + [Finish, if old(eof) then Close else Shutdown] <= trace
      ensures isSocket && !old(ended) && !old(hasHandle) ==> c == Throw
      ensures old(WillThrow() && !ended && finishers != [] && (isSocket ==> hasHandle)) ==>
                c == Throw && user.script == old(user.script)[1..]
      decreases |user.script|, Steps(), 3
    {
      c := Normal;
      if !ended {
        BeginFinish();
        if isSocket {
          :- OnSocketFinish();
        }
        c := CallFinishers(0);
      }
    }

    method BeginFinish()
      requires Startable() && ending && !w.jammed && buffer == [] && !writing && !ended
      modifies `ended, `diverted, `trace, `w, `r
      ensures Valid() && ended && !diverted
      ensures trace == old(trace) + [Finish] && w == old(w).(finished := true) && r == old(r)
    {
      ended := true;
      diverted := false;
      Record(Finish);
    }

    /** The loop of emit over the live list of 'finish' listeners, from position i on. */
    method CallFinishers(i: nat) returns (c: Completion)
      requires Valid() && ended
      modifies this, user
      ensures Valid() && Later() && ByItself(old(finishers))
      ensures old(user.script) == [] && !old(diverted) && isSocket && old(hasHandle) ==>
                c == Normal && (w.closed <==> old(w.closed) || Closes(From(old(finishers), i)))
      ensures old(diverted && user.script == []) ==> c == Normal && unchanged(this)
      ensures old(WillThrow()) && (old(diverted) || i < |old(finishers)|) ==>
                c == Throw && (i < |old(finishers)| ==> user.script == old(user.script)[1..])
      decreases |user.script|, Steps(), 20, if i < |finishers| then |finishers| - i else 0
    {
      c := Normal;
      if diverted {
        c := RunUser(); // the loop goes on in another event's list
      } else if i < |finishers| {
        ghost var rest := finishers[i..];
        :- CallFinisher(i);
        c := CallFinishers(i + 1);
        assert From(old(finishers)[..i] + old(finishers)[i + 1..], i + 1) == From(rest, 2);
        assert From(old(finishers), i + 1) == rest[1..];
      }
    }

    method CallFinisher(i: nat) returns (c: Completion)
      requires Valid() && ended && i < |finishers|
      modifies this, user
      ensures Valid() && Later() && ByItself(old(finishers))
      ensures |user.script| < |old(user.script)|
              || finishers == if old(finishers)[i].OnCallback? then old(finishers)
                              else old(finishers)[..i] + old(finishers)[i + 1..]
      ensures old(user.script) == [] && isSocket && old(hasHandle) ==>
                && c == Normal && diverted == old(diverted)
                && (w.closed <==> old(w.closed) || old(finishers)[i] == Closer)
      // a wrapper is taken out, and that is made known, before its listener runs
      ensures !old(finishers)[i].OnCallback? ==> old(trace) + [Signal("removeListener")] <= trace
      ensures c == Normal && old(finishers)[i] != Closer ==> Moved(if old(finishers)[i].OnCallback? then 1 else 2)
      ensures old(WillThrow()) ==> c == Throw && user.script == old(user.script)[1..] && w == old(w)
      decreases |user.script|, Steps(), 19
    {
      c := Normal;
      var f := finishers[i];
      if !f.OnCallback? {
        finishers := finishers[..i] + finishers[i + 1..];
        :- Emit("removeListener");
      }
      if f != Closer {
        c := RunUser();
      } else if isSocket {
        c := Destroy();
      }
    }

    /** `this.end`. */
    method EndStream(data: Option<Chunk>, callback: Callback) returns (c: Completion)
      requires Valid()
      modifies this, user
      ensures Valid() && Later()
      ensures c == Normal ==> ending && (isSocket ==> !writable)
      ensures data.None? ==> ending && w.accepted == old(w.accepted)
      ensures data.None? && old(ending) ==>
                && c == Normal && trace == old(trace) && w == old(w) && user.script == old(user.script)
                && eof == old(eof) && hasHandle == old(hasHandle)
                && finishers == old(finishers) && diverted == old(diverted)
      ensures data.None? && callback == NotFunction && !old(ending) ==>
                && c == Throw && user.script == old(user.script)
                && trace == old(trace) + [Ending(false)] && w.jammed == !old(writing)
                && writable == old(writable) && finishers == old(finishers)
      ensures data.None? && callback != NotFunction && !old(ending) ==>
                ByItself(old(Finishers(callback))) && Alone(c, old(Finishers(callback))) && !w.jammed
      ensures data.None? && !old(ending) ==> old(trace) + [Ending(callback != NotFunction)] <= trace
      ensures data.Some? && isSocket && data.value.NotData? ==> c == Throw && unchanged(this) && unchanged(user)
      ensures data.Some? && !old(ending) && !(isSocket && data.value.NotData?) && old(user.script) == [] ==>
                && ending && (callback == NotFunction ==> c == Throw)
                && Ending(callback != NotFunction) in trace
                && (!ended ==> finishers == old(Finishers(callback)))
      ensures data.Some? && !(isSocket && data.value.NotData?) ==>
                old(trace) + [if old(ending) then Refuse(data.value) else Accept(data.value)] <= trace
      decreases |user.script|, Steps(), 11
    {
      c := Normal;
      :- EndWriting(data, callback);
      if isSocket {
        NoLongerWritable();
      }
      c := Normal;
    }

    method NoLongerWritable()
      requires Valid() && ending && isSocket
      modifies `writable
      ensures Valid() && !writable
    {
      writable := false;
    }

    /** Writable.prototype.end. */
    method EndWriting(data: Option<Chunk>, callback: Callback) returns (c: Completion)
      requires Valid()
      modifies this, user
      ensures Valid() && Later()
      ensures c == Normal ==> ending
      ensures data.None? ==> ending && w.accepted == old(w.accepted)
      ensures data.None? && old(ending) ==> c == Normal && unchanged(this) && unchanged(user)
      ensures data.None? && callback == NotFunction && !old(ending) ==>
                && c == Throw && user.script == old(user.script)
                && trace == old(trace) + [Ending(false)] && w.jammed == !old(writing)
                && writable == old(writable) && finishers == old(finishers)
      ensures data.None? && callback != NotFunction && !old(ending) ==>
                ByItself(old(Finishers(callback))) && Alone(c, old(Finishers(callback))) && !w.jammed
      ensures data.None? && !old(ending) ==> old(trace) + [Ending(callback != NotFunction)] <= trace
      ensures data.Some? && isSocket && data.value.NotData? ==> c == Throw && unchanged(this) && unchanged(user)
      ensures data.Some? && !old(ending) && !(isSocket && data.value.NotData?) && old(user.script) == [] ==>
                && ending && (callback == NotFunction ==> c == Throw)
                && Ending(callback != NotFunction) in trace
                && (!ended ==> finishers == old(Finishers(callback)))
      ensures data.Some? && !(isSocket && data.value.NotData?) ==>
                old(trace) + [if old(ending) then Refuse(data.value) else Accept(data.value)] <= trace
      decreases |user.script|, Steps(), 10
    {
      if data.Some? {
        :- Write(data.value, false);
      }
      c := Normal;
      if !ending {
        ghost var before := trace;
        c := EndWritable(callback);
        assert trace[|before|] == Ending(callback != NotFunction);
      }
    }

    /** A callback that is not a function makes once() throw when `ending` is set and nothing started. */
    method EndWritable(callback: Callback) returns (c: Completion)
      requires Valid() && !ending
      modifies this, user
      ensures Valid() && Later()
      ensures ending && w.accepted == old(w.accepted)
      ensures old(trace) + [Ending(callback != NotFunction)] <= trace
      ensures callback == NotFunction ==>
                && c == Throw && user.script == old(user.script)
                && trace == old(trace) + [Ending(false)] && w.jammed == !old(writing)
                && writable == old(writable) && finishers == old(finishers)
      ensures callback != NotFunction ==> !w.jammed
      ensures callback != NotFunction ==> ByItself(old(Finishers(callback))) && Alone(c, old(Finishers(callback)))
      decreases |user.script|, Steps(), 6
    {
      BeginEnding(callback != NotFunction);
      if callback == NotFunction {
        return Throw;
      }
      if callback == Function {
        finishers := finishers + [OnceCallback];
      }
      c := WriteBuffered();
    }

    method BeginEnding(started: bool)
      requires Valid() && !ending
      modifies `ending, `trace, `w, `r
      ensures Startable() && ending && trace == old(trace) + [Ending(started)]
      ensures w == old(w).(ending := true, jammed := !started && !writing) && r == old(r)
      ensures !started ==> w.Quiet()
    {
      ending := true;
      Record(Ending(started));
    }

    method ReadyToWrite() returns (c: Completion)
      requires Linked(buffer, []) && w.Quiet() && EndQuiet() && (isSocket ==> connected && !w.ready)
      modifies this, user
      ensures Valid() && Later()
      ensures old(trace) + [Ready] <= trace
      ensures ready
      // an exception of a listener, or of a plain stream's _write, comes out
      ensures old(WillThrow() && !writing && Busy()) ==> c == Throw && user.script == old(user.script)[1..]
      decreases |user.script|, Steps(), 6
    {
      ready := true;
      Record(Ready);
      c := WriteBuffered();
    }

    /** `_onwrite`: called by the underlying system when the chunk in flight has been written. */
    method OnWrite() returns (c: Completion)
      requires Valid() && writing
      modifies this, user
      ensures Valid() && Lasting() && old(ticks) <= ticks && Alone(c, old(finishers))
      ensures isSocket ==> w.completed == old(w.completed) + 1
      ensures old(trace) + [Done] <= trace
      // an exception of a listener, or of a plain stream's _write, comes out
      ensures old(WillThrow() && Busy()) ==> c == Throw && user.script == old(user.script)[1..]
      decreases |user.script|, Steps(), 6
    {
      writing := false;
      Record(Done);
      c := WriteBuffered();
    }

    // ---------------------------------------------------------------- stream_readable.js

    /** 'end' is emitted before the bytes are returned: if that throws, they are lost. */
    method Read(n: Option<int>) returns (c: Completion, out: Option<Bytes>)
      requires Valid()
      modifies this, user
      ensures Valid() && Later()
      // asking for less than there is fails, asking for any more takes everything there is
      ensures n.Some? && 0 < n.value < old(length) ==> c == Throw && unchanged(this) && unchanged(user)
      ensures !old(Drains(n)) ==> out == None && r.held == old(r.held) && r.lost == old(r.lost)
      ensures !old(Drains(n)) ==>
                if old(eof && length == 0 && !endEmitted) then old(trace) + [End] <= trace else trace == old(trace)
      ensures old(Drains(n)) ==> old(trace) + [Hold(old(Flatten(chunks)))] <= trace && r.held == []
      ensures old(Drains(n)) && c == Normal ==>
                out == Some(old(Flatten(chunks))) && r.lost == []
      ensures old(Drains(n)) && c == Throw ==>
                out == None && r.lost == old(Flatten(chunks)) != [] && endEmitted
      ensures old(Drains(n)) && !old(eof) ==> c == Normal
      ensures old(Drains(n) && eof && user.script != [] && user.script[0].Raise? && !isSocket) ==> c == Throw
      ensures old(eof && !endEmitted && (length == 0 || Drains(n))) && isSocket && !allowHalfOpen ==>
                ending && w.accepted == old(w.accepted) && (!old(w.jammed) ==> !w.jammed)
      ensures old(eof && !endEmitted && (length == 0 || Drains(n))) && isSocket && old(ended && user.script == []) ==>
                w == old(w) && user.script == []
      ensures c == Normal && eof && length == 0 ==> endEmitted
      decreases |user.script|, Steps(), 18
    {
      var m := if n.None? || n.value > length then length else if n.value < 0 then 0 else n.value;
      out := None;
      var bytes := None;
      if m > 0 {
        c, bytes := TakeBuffered(m);
        if c == Throw {
          return;
        }
      } else {
        assert |Flatten(chunks)| == length;
      }
      c, out := FinishRead(bytes);
    }

    /** The rest of read(): 'end' if there is nothing more to come, then the result. */
    method FinishRead(bytes: Option<Bytes>) returns (c: Completion, out: Option<Bytes>)
      requires if bytes.None? then Valid() else Holding(bytes.value)
      modifies this, user
      ensures Valid() && Later()
      ensures bytes.None? ==> out == None && r.held == old(r.held) && r.lost == old(r.lost)
      ensures bytes.None? ==>
                if old(eof && length == 0 && !endEmitted) then old(trace) + [End] <= trace else trace == old(trace)
      ensures bytes.Some? ==> r.held == []
      ensures bytes.Some? && c == Normal ==> out == bytes && r.lost == []
      ensures bytes.Some? && c == Throw ==> out == None && r.lost == bytes.value && endEmitted
      ensures bytes.Some? && !old(eof) ==> c == Normal
      ensures bytes.Some? && !isSocket && old(eof && user.script != [] && user.script[0].Raise?) ==> c == Throw
      ensures old(eof && length == 0 && !endEmitted) && isSocket && !allowHalfOpen ==>
                ending && w.accepted == old(w.accepted) && (!old(w.jammed) ==> !w.jammed)
      ensures old(eof && length == 0 && !endEmitted) && isSocket && old(ended && user.script == []) ==>
                w == old(w) && user.script == []
      ensures c == Normal && eof && length == 0 ==> endEmitted
      decreases |user.script|, Steps(), 17
    {
      c, out := Normal, None;
      if eof && length == 0 {
        c := EmitEnd();
      }
      if bytes.Some? {
        LetGo(if c == Normal then Take(bytes.value) else Lose(bytes.value));
        out := if c == Normal then bytes else None;
      }
    }

    /** In the middle of a read() that has emptied the buffer. */
    ghost predicate Holding(bytes: Bytes)
      reads this
    {
      && Linked(buffer, []) && w.Quiet() && ConnectQuiet()
      && r.held == bytes != [] && r.lost == [] && length == 0 && !endEmitted && !(eof && r.drained)
    }

    /** read() returns what it has taken out of the buffer, or throws. */
    ghost method LetGo(e: Event)
      requires Linked(buffer, []) && w.Quiet() && ConnectQuiet()
      requires (e.Take? || (e.Lose? && endEmitted)) && e.bytes == r.held != [] && (eof ==> endEmitted)
      modifies `trace, `w, `r
      ensures Valid() && trace == old(trace) + [e]
      ensures w == old(w) && r == Read1(old(r), e)
    {
      Record(e);
    }

    /** read(n) asks for all that is buffered. */
    ghost predicate Drains(n: Option<int>)
      reads this
    {
      length > 0 && (n.None? || n.value >= length)
    }

    method TakeBuffered(n: nat) returns (c: Completion, out: Option<Bytes>)
      requires Valid() && 0 < n <= length
      modifies `chunks, `length, `trace, `w, `r
      ensures n < old(length) ==> c == Throw && out == None && unchanged(this)
      ensures n == old(length) ==>
                && c == Normal && out == Some(old(Flatten(chunks))) && Holding(out.value)
                && trace == old(trace) + [Hold(out.value)] && w == old(w) && Later()
    {
      assert |Flatten(chunks)| == length;
      c, out := ReadBuffer(Some(n));
      if out.Some? {
        Record(Hold(out.value));
      }
    }

    method Pause() returns (c: Completion)
      requires Valid()
      modifies this, user
      ensures Valid() && Later()
      ensures old(flowing) ==> old(trace) + [Signal("pause")] <= trace
      ensures !old(flowing) ==> unchanged(this)
      ensures old(user.script) == [] ==> !flowing
      decreases |user.script|, Steps(), 2
    {
      c := Normal;
      if flowing {
        flowing := false;
        c := Emit("pause");
      }
    }

    method Resume() returns (c: Completion)
      requires Valid()
      modifies this, user
      ensures Valid() && Later()
      ensures !old(flowing) && old(length) > 0 ==>
                old(trace) + [Deliver(old(Flatten(chunks)))] <= trace
      ensures old(flowing || length == 0) ==> flowing && trace == old(trace)
      // left alone by user code it emits 'data' and nothing more, even if that was the last before the end
      ensures !old(flowing) && old(length) > 0 && old(user.script) == [] ==>
                && c == Normal && trace == old(trace) + [Deliver(old(Flatten(chunks)))]
                && flowing && length == 0 && eof == old(eof) && endEmitted == old(endEmitted)
      decreases |user.script|, Steps(), 2
    {
      c := Normal;
      if !flowing {
        var bytes := StartFlowing();
        if bytes.Some? {
          c := EmitData(bytes.value);
        }
      }
    }

    method StartFlowing() returns (bytes: Option<Bytes>)
      requires Valid() && !flowing
      modifies `flowing, `chunks, `length
      ensures flowing && length == 0
      ensures bytes == if old(length) > 0 then Some(old(Flatten(chunks))) else None
      ensures if bytes.None? then Valid() else
                Linked(buffer, bytes.value) && ConnectQuiet() && r.held == r.lost == [] && (eof ==> !endEmitted)
    {
      assert |Flatten(chunks)| == length && r.out + [] + [] == r.out;
      flowing := true;
      bytes := None;
      if length > 0 {
        var c;
        c, bytes := ReadBuffer(None);
        assert r.out + [] + bytes.value == r.out + bytes.value + [];
      }
    }

    method PushChunk(p: Pushed) returns (c: Completion)
      requires Valid() && (isSocket && p.Null? ==> connected)
      modifies this, user
      ensures Valid() && Later()
      ensures p.Null? ==> length <= old(length)
      ensures p.Null? ==> eof && old(trace) + [Eof] <= trace
      ensures p.Null? && isSocket && !old(ended) && ended ==> w.closed
      ensures p.Null? && c == Normal && length == 0 ==> endEmitted
      ensures p.Null? && isSocket && !allowHalfOpen && old(length) == 0 && !old(endEmitted) ==>
                ending && w.accepted == old(w.accepted) && (!old(w.jammed) ==> !w.jammed) && (c == Normal ==> !writable)
      ensures p.Buf? && !old(eof) ==> old(trace) + [Push(p.bytes)] <= trace
      ensures p.Buf? && !old(eof) && old(flowing) ==>
                old(trace) + [Push(p.bytes), Deliver(p.bytes)] <= trace
      ensures p.Buf? && !old(eof) && !old(flowing) ==>
                old(trace) + [Push(p.bytes), Signal("readable")] <= trace
      ensures p.Invalid? || (p.Buf? && old(eof)) ==> old(trace) + [Signal("error")] <= trace
      ensures !p.Null? ==> |user.script| < |old(user.script)| || (c == Normal && Kept())
      ensures p.Buf? && old(user.script) == [] && !old(eof) && !old(flowing) ==>
                && !flowing && chunks == old(chunks) + [p.bytes] && length == old(length) + |p.bytes|
                && trace == old(trace) + [Push(p.bytes), Signal("readable")]
      ensures p.Null? && old(length) > 0 ==>
                && c == Normal && trace == old(trace) + [Eof] && chunks == old(chunks)
                && length == old(length) && flowing == old(flowing) && user.script == old(user.script)
      decreases |user.script|, Steps(), 17
    {
      if p.Invalid? {
        c := Emit("error");
      } else if p.Null? {
        c := OnEof();
      } else if eof {
        c := Emit("error");
      } else {
        c := TakeIn(p.bytes);
      }
    }

    method TakeIn(bytes: Bytes) returns (c: Completion)
      requires Valid() && !eof
      modifies this, user
      ensures Valid() && Later()
      ensures old(flowing) ==> old(trace) + [Push(bytes), Deliver(bytes)] <= trace
      ensures !old(flowing) ==> old(trace) + [Push(bytes), Signal("readable")] <= trace
      ensures |user.script| < |old(user.script)| || (c == Normal && Kept())
      ensures old(user.script) == [] && !old(flowing) ==>
                && !flowing && chunks == old(chunks) + [bytes] && length == old(length) + |bytes|
                && trace == old(trace) + [Push(bytes), Signal("readable")]
      decreases |user.script|, Steps(), 16
    {
      Admit(bytes);
      if flowing {
        c := EmitData(bytes);
      } else {
        Store(bytes);
        c := Emit("readable");
      }
    }

    ghost method Admit(bytes: Bytes)
      requires Valid() && !eof
      modifies `trace, `w, `r
      ensures Linked(buffer, bytes) && EndQuiet() && ConnectQuiet()
      ensures trace == old(trace) + [Push(bytes)]
      ensures w == old(w) && r == old(r).(pushed := old(r).pushed + bytes)
    {
      assert r.out + Flatten(chunks) + [] == r.out + Flatten(chunks);
      Record(Push(bytes));
    }

    method Store(bytes: Bytes)
      requires Linked(buffer, bytes) && w.Quiet() && EndQuiet() && ConnectQuiet() && !eof && !flowing
      modifies `length, `chunks
      ensures Valid()
      ensures chunks == old(chunks) + [bytes] && length == old(length) + |bytes|
    {
      FlattenAppend(chunks, bytes);
      assert r.out + (Flatten(chunks) + bytes) + [] == r.out + Flatten(chunks) + bytes;
      length := length + |bytes|;
      chunks := chunks + [bytes];
    }

    /** All the buffered bytes at once; reading a part of them is not implemented. */
    method ReadBuffer(n: Option<nat>) returns (c: Completion, out: Option<Bytes>)
      requires length == |Flatten(chunks)|
      modifies this`chunks, this`length
      ensures c == if n.Some? && 0 < n.value < old(length) then Throw else Normal
      ensures out == if c == Throw || old(length) == 0 then None else Some(old(Flatten(chunks)))
      ensures if out.Some? then chunks == [] && length == 0
              else chunks == old(chunks) && length == old(length)
    {
      var m := if n.None? || n.value == 0 then length else n.value;
      c, out := Normal, None;
      if |chunks| == 0 || length == 0 {
        return;
      }
      if m >= length {
        out := Some(Flatten(chunks));
        chunks, length := [], 0;
      } else {
        c := Throw;
      }
    }

    /** (The original also throws if the stream has a positive `length`, but no stream has that field.) */
    method EmitEnd() returns (c: Completion)
      requires Linked(buffer, []) && w.Quiet() && ConnectQuiet() && eof && length == 0
      modifies this, user
      ensures Valid() && Later()
      ensures old(endEmitted) ==> c == Normal && unchanged(this) && unchanged(user)
      ensures !old(endEmitted) ==> old(trace) + [End] <= trace
      ensures !old(endEmitted) && isSocket && old(ended) ==> diverted
      ensures r.held == old(r.held) && r.lost == old(r.lost)
      ensures !old(endEmitted) && !isSocket && old(user.script != [] && user.script[0].Raise?) ==>
                c == Throw && trace == old(trace) + [End]
      ensures !old(endEmitted) && isSocket && !allowHalfOpen ==>
                ending && w.accepted == old(w.accepted) && (!old(w.jammed) ==> !w.jammed) && (c == Normal ==> !writable)
      ensures !old(endEmitted) && isSocket && old(ended && user.script == []) ==>
                w == old(w) && user.script == []
      ensures endEmitted
      decreases |user.script|, Steps(), 15
    {
      c := Normal;
      if !endEmitted {
        BeginEnd();
        if isSocket {
          diverted := true;
          :- OnSocketEnd();
        }
        c := RunUser();
      }
    }

    method BeginEnd()
      requires Linked(buffer, []) && w.Quiet() && ConnectQuiet() && eof && length == 0 && !endEmitted
      modifies `endEmitted, `trace, `w, `r
      ensures Valid() && endEmitted && trace == old(trace) + [End]
      ensures w == old(w) && r == old(r).(ended := true)
    {
      assert |Flatten(chunks)| == 0 && r.out + [] + [] == r.out;
      endEmitted := true;
      Record(End);
    }

    method EmitData(bytes: Bytes) returns (c: Completion)
      requires Linked(buffer, bytes) && w.Quiet() && ConnectQuiet() && length == 0 && flowing
      requires r.held == r.lost == [] && (eof ==> !endEmitted)
      modifies this, user
      ensures Valid() && Later()
      ensures old(trace) + [Deliver(bytes)] <= trace
      ensures |user.script| < |old(user.script)|
              || (c == Normal && Kept() && trace == old(trace) + [Deliver(bytes)]
                  && flowing && length == 0 && endEmitted == old(endEmitted))
      decreases |user.script|, Steps(), 1
    {
      var left;
      c, left := ReadBuffer(None);
      assert left == None; // the assertion the original makes here
      Pass(bytes);
      c := RunUser();
    }

    ghost method Pass(bytes: Bytes)
      requires Linked(buffer, bytes) && w.Quiet() && ConnectQuiet() && length == 0 && flowing
      requires r.held == r.lost == [] && (eof ==> !endEmitted)
      modifies `trace, `w, `r
      ensures Valid() && trace == old(trace) + [Deliver(bytes)]
      ensures w == old(w) && r.held == r.lost == [] && r.ended == old(r.ended)
    {
      assert |Flatten(chunks)| == 0 && r.out + [] + bytes == r.out + bytes + [] + [];
      Record(Deliver(bytes));
    }

    method OnEof() returns (c: Completion)
      requires Valid() && (isSocket ==> connected)
      modifies this, user
      ensures Valid() && Later()
      ensures old(trace) + [Eof] <= trace
      ensures eof && length <= old(length)
      ensures isSocket && !old(ended) && ended ==> w.closed
      ensures c == Normal && length == 0 ==> endEmitted
      ensures isSocket && !allowHalfOpen && old(length) == 0 && !old(endEmitted) ==>
                ending && w.accepted == old(w.accepted) && (!old(w.jammed) ==> !w.jammed) && (c == Normal ==> !writable)
      ensures old(length) > 0 ==>
                && c == Normal && trace == old(trace) + [Eof] && chunks == old(chunks)
                && length == old(length) && flowing == old(flowing) && user.script == old(user.script)
      decreases |user.script|, Steps(), 16
    {
      eof := true;
      Record(Eof);
      c := Normal;
      if length == 0 {
        c := EmitEnd();
      }
    }

    // ---------------------------------------------------------------- net.js

    /** The start of an outgoing connection; a call while one is under way or made does nothing. */
    method Connect()
      requires Valid() && isSocket
      modifies `connecting, `hasHandle, `uvHandle, `trace, `w, `r
      ensures Valid() && Later()
      ensures old(connecting || connected) ==> unchanged(this)
      ensures !old(connecting || connected) ==> trace == old(trace) + [Dial] && connecting
    {
      if connecting || connected {
        return;
      }
      if !hasHandle {
        hasHandle, uvHandle := true, true;
      }
      connecting := true;
      Record(Dial);
    }

    /** `_handle.close()`: HandleWrap::Close closes the libuv handle the first time only. */
    method CloseHandle() returns (c: Completion)
      requires Valid() && isSocket && ended
      modifies `uvHandle, `uvCloses, `trace, `w, `r
      ensures Valid() && Later()
      ensures c == Normal <==> hasHandle
      ensures trace == if hasHandle then old(trace) + [Close] else old(trace)
      ensures hasHandle ==> w.closed
      ensures w.completed == old(w.completed)
    {
      if !hasHandle {
        return Throw;
      }
      Record(Close);
      if uvHandle {
        uvCloses := uvCloses + 1;
        uvHandle := false;
      }
      c := Normal;
    }

    /** Closes the handle of a socket that has finished; any other will be destroyed again on 'finish'. */
    method Destroy() returns (c: Completion)
      requires Valid() && isSocket
      modifies this, user
      ensures Valid() && Later()
      ensures old(user.script) == [] ==>
                user.script == [] && w.completed == old(w.completed) && eof == old(eof) && connected == old(connected)
      ensures old(user.script == [] && connected && !eof) ==> c == Normal
      ensures ending && w.accepted == old(w.accepted)
      ensures c == Normal ==> !writable && (ended ==> w.closed)
      ensures c == Normal && !ended ==> finishers != [] && finishers[|finishers| - 1] == Closer
      ensures c == Normal && !ended && old(user.script) == [] ==> finishers == old(finishers) + [Closer]
      ensures !old(w.jammed) ==> !w.jammed
      ensures old(writable && !ending) ==> old(trace) + [Ending(true)] <= trace
      ensures old(!(writable && !ending) && !ended) ==> trace == old(trace)
      ensures old(ended) ==>
                && user.script == old(user.script) && finishers == old(finishers) && diverted == old(diverted)
                && hasHandle == old(hasHandle)
                && trace == (if hasHandle then old(trace) + [Close] else old(trace))
                && (c == Normal <==> hasHandle)
      decreases |user.script|, Steps(), 12
    {
      if writable {
        :- EndStream(None, Absent);
      }
      c := Normal;
      if ended {
        c := CloseHandle();
      } else {
        AddFinisher(Closer);
      }
    }

    /** Ends the socket.  Whether it is closed is left to 'finish': `_writableState.finished` is never
        set, so destroy() is registered there even if that event is past. */
    method DestroySoon() returns (c: Completion)
      requires Valid() && isSocket
      modifies this, user
      ensures Valid() && Later()
      ensures ending && w.accepted == old(w.accepted) && (!old(w.jammed) ==> !w.jammed)
      ensures c == Normal ==> !writable && finishers != [] && finishers[|finishers| - 1] == Closer
      ensures old(writable && !ending) ==> old(trace) + [Ending(true)] <= trace
      ensures !old(writable) || old(ending) ==>
                && c == Normal && trace == old(trace) && w == old(w)
                && eof == old(eof) && user.script == old(user.script)
      // after the end of file a socket not yet closed is closed by this call just when the call finishes it
      ensures old(eof && !w.closed) ==> (w.closed <==> !old(ended) && ended)
      // before it, with user code idle, 'finish' decides: destroy() is among its listeners if it comes later
      ensures old(user.script == [] && connected && !eof) ==>
                && c == Normal && user.script == [] && connected && !eof && w.completed == old(w.completed)
                && (w.closed <==> if old(ended) then old(w.closed) else ended && Closes(old(finishers)))
                && (!ended ==> finishers == old(finishers) + [Closer])
      decreases |user.script|, Steps(), 12
    {
      if writable {
        :- EndStream(None, Absent);
      }
      AddFinisher(Closer);
      c := Normal;
    }

    /** The first listener of a socket's 'finish'. */
    method OnSocketFinish() returns (c: Completion)
      requires Valid() && isSocket && ended && !w.shut && !w.closed
      modifies this, user
      ensures Valid() && Later() && ByItself(old(finishers))
      ensures user.script == old(user.script) && hasHandle == old(hasHandle)
      ensures finishers == old(finishers) && diverted == old(diverted)
      ensures c == Normal <==> hasHandle
      ensures trace == if !hasHandle then old(trace) else old(trace) + [if old(eof) then Close else Shutdown]
      ensures if old(eof) then hasHandle && w.closed else !w.closed
      decreases |user.script|, Steps(), 13
    {
      if !readable || eof {
        c := Destroy();
      } else if !hasHandle {
        c := Throw;
      } else {
        Record(Shutdown);
        c := Normal;
      }
    }

    /** The first listener of a socket's 'end'. */
    method OnSocketEnd() returns (c: Completion)
      requires Valid() && isSocket && eof
      modifies this, user
      ensures Valid() && Later()
      ensures !allowHalfOpen ==>
                && ending && w.accepted == old(w.accepted) && (!old(w.jammed) ==> !w.jammed)
                && (c == Normal ==> !writable)
      ensures allowHalfOpen && old(connecting || writable || readable) ==> c == Normal && unchanged(this)
      ensures old(ended && readable && user.script == []) ==> w == old(w) && user.script == []
      ensures c == Normal && old(!connecting && !writable && !readable) ==> ended ==> w.closed
      decreases |user.script|, Steps(), 14
    {
      c := Normal;
      :- MaybeDestroy();
      if !allowHalfOpen {
        c := DestroySoon();
      }
    }

    method MaybeDestroy() returns (c: Completion)
      requires Valid() && isSocket
      modifies this, user
      ensures Valid() && Later()
      ensures w.accepted == old(w.accepted) && (!old(w.jammed) ==> !w.jammed)
      ensures c == Throw ==> ending
      ensures c == Normal && old(!connecting && !writable && !readable) ==> ended ==> w.closed
      ensures old(connecting || writable || readable) ==> c == Normal && unchanged(this) && unchanged(user)
      decreases |user.script|, Steps(), 13
    {
      c := Normal;
      if !connecting && !writable && !readable {
        c := Destroy();
      }
    }

    // Reports from the event loop

    /** `_onread`. */
    method OnRead(nread: int, isEof: bool, bytes: Bytes) returns (c: Completion)
      requires Valid() && isSocket && connected
      modifies this, user
      ensures Valid() && Later()
      ensures isEof ==> eof && old(trace) + [Eof] <= trace
      ensures isEof && !old(ended) && ended ==> w.closed
      ensures isEof && !old(eof) && old(length) == 0 && old(allowHalfOpen ==> !writable) ==>
                && ending && w.accepted == old(w.accepted) && (!old(w.jammed) ==> !w.jammed)
                && (c == Normal ==> !readable && !writable && (ended ==> w.closed))
      ensures !isEof && nread > 0 && !old(eof) ==> old(trace) + [Push(bytes)] <= trace
      ensures !isEof && nread < 0 ==> old(trace) + [Signal("error")] <= trace
      ensures !isEof && nread == 0 ==> c == Normal && unchanged(this)
      ensures !isEof && old(user.script) == [] ==> c == Normal && Kept()
    {
      if isEof {
        c := OnReadEof();
      } else if nread < 0 {
        c := Emit("error");
      } else if nread > 0 {
        c := PushChunk(Buf(bytes));
      } else {
        c := Normal;
      }
    }

    /** The first end of file, with nothing left to read, puts a socket on its way to being closed. */
    method OnReadEof() returns (c: Completion)
      requires Valid() && isSocket && connected
      modifies this, user
      ensures Valid() && Later()
      ensures eof && old(trace) + [Eof] <= trace
      ensures !old(ended) && ended ==> w.closed
      ensures !old(eof) && old(length) == 0 && old(allowHalfOpen ==> !writable) ==>
                && ending && w.accepted == old(w.accepted) && (!old(w.jammed) ==> !w.jammed)
                && (c == Normal ==> !readable && !writable && (ended ==> w.closed))
    {
      c := Normal;
      :- PushChunk(Null);
      if length == 0 {
        readable := false;
        c := MaybeDestroy();
      }
    }

    method OnSocketConnect() returns (c: Completion)
      requires Valid() && isSocket && hasHandle && !connected
      modifies this, user
      ensures Valid() && Later()
      ensures connected
      ensures old(trace) + [Ready] <= trace
      ensures old(WillThrow() && !writing && Busy()) ==>
                c == Throw && user.script == old(user.script)[1..]
      ensures c == Normal ==> ticks != [] && ticks[|ticks| - 1] == ReadStart
    {
      connecting := false;
      connected := true;
      c := Normal;
      :- ReadyToWrite();
      DeferReading();
    }

    method DeferReading()
      modifies `ticks
      ensures ticks == old(ticks) + [ReadStart]
    {
      ticks := ticks + [ReadStart];
    }

    method AfterConnect(status: int) returns (c: Completion)
      requires Valid() && isSocket && connecting
      modifies this, user
      ensures Valid() && Later()
      ensures status == 0 ==> connected && old(trace) + [Ready] <= trace
      ensures status == 0 && c == Normal ==> Emitted(Signal("connect")) && ReadStart in ticks
      ensures status == 0 && old(WillThrow() && !writing && Busy()) ==>
                c == Throw && user.script == old(user.script)[1..]
      ensures status != 0 ==> old(trace) + [Signal("error")] <= trace
      ensures status != 0 && old(user.script) == [] ==> !connecting
    {
      connecting := false;
      if status == 0 {
        :- OnSocketConnect();
        ghost var before := trace;
        c := Emit("connect");
        assert trace[|before|] == Signal("connect");
      } else {
        c := Emit("error");
      }
    }

    /** The callback given to `_handle.write`. */
    method AfterWrite() returns (c: Completion)
      requires Valid() && isSocket && writing
      modifies this, user
      ensures Valid() && Lasting() && Alone(c, old(finishers))
      ensures w.completed == old(w.completed) + 1
      ensures c == Normal ==> Moved(1)
      ensures old(WillThrow() && Busy()) ==> c == Throw && user.script == old(user.script)[1..]
      ensures old(trace) + [Done] <= trace
    {
      c := Normal;
      :- OnWrite();
      c := RunUser();
    }

    method OnShutdown() returns (c: Completion)
      requires Valid() && isSocket
      modifies this, user
      ensures Valid() && Later()
      ensures c == Normal && old(eof) ==> ending && (ended ==> w.closed)
      ensures old(eof && ended) ==> c == Normal && w.closed && user.script == old(user.script)
      ensures !old(eof) ==> c == Normal && unchanged(this)
    {
      c := Normal;
      if eof {
        c := Destroy();
      }
    }

    method TakeTick() returns (tick: Tick)
      requires ticks != []
      modifies `ticks
      ensures tick == old(ticks[0]) && ticks == old(ticks)[1..]
    {
      tick := ticks[0];
      ticks := ticks[1..];
    }

    /** The next of the stream's own next-tick callbacks.  The one for a refused write calls the callback
        of that write, which may be missing. */
    method RunTick() returns (c: Completion)
      requires Valid() && ticks != []
      modifies this, user
      ensures Valid() && Lasting() && (isSocket ==> w.completed == old(w.completed))
      ensures old(ticks)[1..] <= ticks && (old(user.script) == [] ==> ticks == old(ticks)[1..])
      ensures old(ticks[0]) == Refused(true) ==> Moved(1) && (old(WillThrow()) ==> c == Throw)
      ensures old(ticks[0]) == ReadStart ==> c == Normal && reading
      ensures old(ticks[0]) == Refused(false) ==> c == Throw
      ensures old(user.script) == [] ==>
                && user.script == [] && w == old(w) && finishers == old(finishers)
                && eof == old(eof) && connected == old(connected)
    {
      var tick := TakeTick();
      if tick == ReadStart {
        reading := true;
        c := Normal;
      } else if tick.callback {
        c := RunUser();
      } else {
        c := Throw;
      }
    }

    /** Each report that says so has completed a write, as long as there was one. */
    twostate predicate Completed(reports: seq<Report>)
      reads `w, `connected, `ending
    {
      isSocket && old(connected && ending && !w.jammed) ==>
        w.completed == old(w.completed) + Least(Writes(reports), old(w.Pending()))
    }

    ghost predicate IsEof(report: Report) {
      report.Incoming? && report.isEof
    }

    /** One turn of the event loop.  What a handle cannot report in its present state is ignored. */
    method Handle(report: Report) returns (c: Completion)
      requires Valid()
      modifies this, user
      ensures Valid() && Lasting()
      ensures report == Written && isSocket && old(writing) ==> old(trace) + [Done] <= trace
      ensures IsEof(report) && isSocket && old(reading && connected) ==> old(trace) + [Eof] <= trace
      ensures report == Connection && isSocket && old(hasHandle && !connecting && !connected) ==>
                connected && old(trace) + [Ready] <= trace
      ensures report == Closed && isSocket ==> old(trace) + [Signal("close")] <= trace
      ensures report == Turn ==> Moved(1) && (old(WillThrow()) ==> c == Throw)
      ensures report == Turn && old(user.script) != [] && old(user.script)[0].Call? ==> Made(old(user.script)[0].act)
      ensures report == Tick && old(ticks) != [] ==>
                && old(ticks)[1..] <= ticks
                && (old(ticks)[0] == ReadStart ==> reading) && (old(ticks)[0] == Refused(false) ==> c == Throw)
      ensures report.Connected? && isSocket && old(connecting) ==>
                if report.status == 0 then connected && old(trace) + [Ready] <= trace
                else old(trace) + [Signal("error")] <= trace
      ensures report.Incoming? && !report.isEof && report.nread > 0 && isSocket && old(reading && connected && !eof) ==>
                old(trace) + [Push(report.bytes)] <= trace
      ensures report == ShutdownDone && isSocket && old(eof && !w.closed && ended) ==> w.closed
      ensures isSocket ==> w.completed == old(w.completed) + if report == Written && old(writing) then 1 else 0
      ensures !IsEof(report) ==> LeftOpen(report == ShutdownDone)
      ensures !IsEof(report) ==> Alone(Normal, old(finishers))
    {
      c := Normal;
      match report
      case Turn => c := RunUser();
      case Tick => if ticks != [] { c := RunTick(); }
      case Connection =>
        if isSocket && hasHandle && !connecting && !connected { c := OnSocketConnect(); }
      case Connected(status) => if isSocket && connecting { c := AfterConnect(status); }
      case Written => if isSocket && writing { c := AfterWrite(); }
      case Incoming(nread, isEof, bytes) =>
        if isSocket && reading && connected { c := OnRead(nread, isEof, bytes); }
      case ShutdownDone => if isSocket { c := OnShutdown(); }
      case Closed => if isSocket { c := Emit("close"); }
    }

    method HandleAll(reports: seq<Report>)
      requires Valid()
      modifies this, user
      ensures Valid() && Lasting()
      ensures Completed(reports)
      ensures isSocket && Closed in reports ==> Signal("close") in trace
      ensures (forall k :: 0 <= k < |reports| ==> !IsEof(reports[k])) ==> LeftOpen(ShutdownDone in reports)
      ensures (forall k :: 0 <= k < |reports| ==> !IsEof(reports[k])) ==> Alone(Normal, old(finishers))
    {
      if reports != [] {
        ghost var before := trace;
        var _ := Handle(reports[0]);
        assert isSocket && reports[0] == Closed ==> trace[|before|] == Signal("close");
        HandleAll(reports[1..]);
      }
    }

    /**
     Closing progress.  End of file reaches a connected socket that has nothing left to read while
     some chunks are still unwritten.  If no listener breaks off that report with an exception then,
     whatever is reported and whatever user code does afterwards, the handle has been asked to close
     exactly when that many more writes have completed, unless an end() has left the socket jammed: then
     it never is.
     */
    method EofCloses(reports: seq<Report>) returns (c: Completion)
      requires Valid() && isSocket && connected && (allowHalfOpen ==> !writable) && !eof && length == 0
      modifies this, user
      ensures Valid() && Lasting()
      ensures w.accepted == old(w.accepted)
      ensures c == Normal ==>
                (w.closed <==> !old(w.jammed) && w.completed == old(w.completed) + old(w.Pending()))
      ensures c == Normal ==> (w.closed <==> !old(w.jammed) && Writes(reports) >= old(w.Pending()))
    {
      c := OnRead(-1, true, []);
      HandleAll(reports);
    }

    /**
     The end of file reaches a socket that has not finished, whatever is unread, and whoever listens.  The
     handle has been asked to close exactly when the socket has finished.
     */
    method EofThenFinish(reports: seq<Report>) returns (c: Completion)
      requires Valid() && isSocket && connected && !ended
      modifies this, user
      ensures Valid() && Lasting()
      ensures w.closed <==> ending && !w.jammed && w.completed == |w.accepted|
      ensures Completed(reports)
    {
      c := OnRead(-1, true, []);
      HandleAll(reports);
    }

    /**
     A socket that met the end of file with bytes unread is drained by a read(), which emits 'end'.  If it
     has not finished by then, the handle has been asked to close exactly when the writes pending have
     completed, whatever is reported and whatever user code does, unless the socket is jammed.
     */
    method DrainCloses(n: Option<int>, reports: seq<Report>) returns (c: Completion, out: Option<Bytes>)
      requires Valid() && isSocket && (allowHalfOpen ==> !writable)
      requires eof && !endEmitted && (length == 0 || Drains(n)) && !ended
      modifies this, user
      ensures Valid() && Lasting()
      ensures w.accepted == old(w.accepted)
      ensures w.closed <==> !old(w.jammed) && w.completed == old(w.completed) + old(w.Pending())
      ensures w.closed <==> !old(w.jammed) && Writes(reports) >= old(w.Pending())
    {
      c, out := Read(n);
      HandleAll(reports);
    }

    /**
     If it has finished by then, draining does not close it.  With user code idle and no further end of
     file, the handle has been asked to close exactly when it had been before or the shutdown is answered.
     */
    method DrainedTooLate(n: Option<int>, reports: seq<Report>) returns (c: Completion, out: Option<Bytes>)
      requires Valid() && isSocket && user.script == []
      requires eof && !endEmitted && (length == 0 || Drains(n)) && ended
      requires forall k :: 0 <= k < |reports| ==> !IsEof(reports[k])
      modifies this, user
      ensures Valid()
      ensures w.closed <==> old(w.closed) || ShutdownDone in reports
    {
      c, out := Read(n);
      HandleAll(reports);
    }

    /**
     How a socket gets jammed.  An end() whose callback is not a function, made on a connected socket
     with nothing in flight, throws, and the socket neither finishes nor is closed, whatever comes.
     */
    method JammedForGood(reports: seq<Report>)
      requires Valid() && isSocket && connected && !ending && !writing
      modifies this, user
      ensures Valid() && w.jammed && ending && !writing && !ended && !w.closed
      ensures old(trace) + [Ending(false)] <= trace && Finish !in trace && Close !in trace
      ensures Closed in reports ==> Signal("close") in trace
    {
      var c := EndStream(None, NotFunction);
      assert c == Throw && w.jammed;
      HandleAll(reports);
      FinishedMeansFinish(trace);
    }

    /**
     destroy() while k writes are unwritten, k being 0 or more, with user code doing nothing and no end
     of file: the handle has been asked to close when k more have been written and, if k is not 0, the
     walk over the listeners of 'finish' reaches a wrapper that destroys the socket; not before, and
     otherwise never.
     */
    method DestroyCloses(reports: seq<Report>)
      requires Valid() && isSocket && connected && !ended && !eof && !w.jammed && user.script == []
      requires forall k :: 0 <= k < |reports| ==> !IsEof(reports[k])
      modifies this, user
      ensures Valid()
      ensures w.closed <==>
              && w.completed == old(w.completed) + old(w.Pending())
              && (old(w.Pending()) == 0 || Closes(old(finishers) + [Closer]))
      ensures w.completed == old(w.completed) + Least(Writes(reports), old(w.Pending()))
    {
      var c := Destroy();
      HandleAll(reports);
    }

    /**
     destroySoon() while k writes are unwritten, with user code doing nothing and no end of file.  A socket
     that has finished is left as it is.  Any other has been asked to close when k more writes have
     completed and the walk over the listeners of 'finish' reaches a wrapper that destroys the socket; the
     one that this call registers is among them if k is not 0, and comes too late otherwise.
     */
    method DestroySoonCloses(reports: seq<Report>)
      requires Valid() && isSocket && connected && !eof && !w.jammed && user.script == []
      requires forall k :: 0 <= k < |reports| ==> !IsEof(reports[k])
      modifies this, user
      ensures Valid()
      ensures w.closed <==>
              if old(ended) then old(w.closed)
              else
                && w.completed == old(w.completed) + old(w.Pending())
                && Closes(if old(w.Pending()) == 0 then old(finishers) else old(finishers) + [Closer])
      ensures w.completed == old(w.completed) + Least(Writes(reports), old(w.Pending()))
    {
      var c := DestroySoon();
      HandleAll(reports);
    }

    /** destroySoon() leaves a socket open that has finished and has not met the end of file. */
    method FinishedStaysOpen(reports: seq<Report>)
      requires Valid() && isSocket && connected && !ending && !writing && !eof && user.script == []
      requires !Closes(finishers)
      requires forall k :: 0 <= k < |reports| ==> !IsEof(reports[k])
      modifies this, user
      ensures Valid() && Finish in trace && Close !in trace
      ensures finishers != [] && finishers[|finishers| - 1] == Closer // too late to be called
      ensures Closed in reports ==> Signal("close") in trace
    {
      var c := EndStream(None, Absent);
      c := DestroySoon();
      HandleAll(reports);
      FinishedMeansFinish(trace);
    }

    /** What a reader of the fields and the trace may rely on wherever user code runs. */
    lemma Guarantees()
      requires Valid()
      ensures Accepted(trace) == Submitted(trace) + buffer
      ensures |Submitted(trace)| == Completions(trace) + if writing then 1 else 0
      ensures !Jammed(trace) && (ready || ending) && !writing ==> buffer == []
      ensures ending && !writing ==> (ended <==> !Jammed(trace))
      ensures !ready && !ending ==> Submitted(trace) == []
      ensures Pushes(trace) == Delivered(trace) + InHand(trace) + Lost(trace) + Flatten(chunks)
      ensures length == |Flatten(chunks)| && (flowing ==> length == 0)
      ensures eof && !endEmitted ==> (length == 0 <==> DataAfterEof(trace))
      ensures InHand(trace) != [] ==> endEmitted
      ensures ended <==> Finish in trace
      ensures eof <==> Eof in trace
      ensures endEmitted <==> End in trace
      ensures uvCloses == if Close in trace then 1 else 0
      ensures Close in trace || Shutdown in trace ==>
                Accepted(trace) == Submitted(trace) && Completions(trace) == |Accepted(trace)|
    {
      FinishedMeansFinish(trace);
      CountsAgree(trace);
      InOrderOneAtATime(trace);
      JammedMeans(trace);
      BytesAgree(trace);
      ReaderFlags(trace);
      assert r.out + [] == r.out;
    }

    /** end() took effect at p, with k chunks unwritten: 'finish' has been emitted just when k more
        have been written, unless the stream is jammed. */
    lemma FinishGuarantee(p: nat)
      requires Valid() && p < |trace| && trace[p].Ending?
      ensures Finish in trace <==>
              (!Jammed(trace)
               && Completions(trace) - Completions(trace[..p]) == |Accepted(trace[..p])| - Completions(trace[..p]))
    {
      FinishAtLastCompletion(trace, p);
    }
  }

  // Two runs in which the code disappoints, with user code that does next to nothing.

  /** A plain stream that is paused, with everything read and the end of file met. */
  method Unread(bytes: Bytes) returns (s: Duplex)
    requires bytes != []
    ensures fresh(s) && fresh(s.user) && s.user.script == [] && s.Valid() && !s.isSocket
    ensures s.eof && !s.flowing && s.length == |bytes| && s.chunks == [bytes]
    ensures s.trace == [Push(bytes), Signal("readable"), Eof]
  {
    var user := new User([]);
    s := new Duplex(user, false, false, false);
    var c := s.PushChunk(Buf(bytes));
    c := s.PushChunk(Null);
  }

  /** A listener of 'end' that throws costs the reader the bytes that the read() had taken out. */
  method ReadLoses(bytes: Bytes) returns (s: Duplex, c: Completion, out: Option<Bytes>)
    requires bytes != []
    ensures c == Throw && out == None && Lost(s.trace) == bytes
    ensures [Push(bytes), Signal("readable"), Eof, Hold(bytes)] <= s.trace
  {
    s := Unread(bytes);
    s.user.script := [Raise];
    assert Flatten([bytes]) == bytes;
    c, out := s.Read(None);
    BytesAgree(s.trace);
  }

  /** resume() after the end of file delivers everything and leaves 'end' outstanding. */
  method ResumeOwesEnd(bytes: Bytes) returns (s: Duplex, c: Completion)
    requires bytes != []
    ensures c == Normal && s.trace == [Push(bytes), Signal("readable"), Eof, Deliver(bytes)]
    ensures s.Valid() && s.eof && s.length == 0 && !s.endEmitted
  {
    s := Unread(bytes);
    c := s.Resume();
    assert Flatten([bytes]) == bytes;
  }
}
