/**
 The observable life of a stream as a sequence of events, and two reference automata that say
 which sequences are legal.  `Writer` follows the writable half together with the socket handle;
 `Reader` follows the readable half.  The automata know nothing of the stream's flags and queues;
 module Duplexes proves that the code only ever produces traces they accept, and the lemmas here
 say what an accepted trace means in terms of the trace alone.
 */
module Protocol {
  import opened Outcomes

  /** What is handed to write(): data, or a value that a socket refuses. */
  datatype Chunk = Data(bytes: Bytes) | NotData

  datatype Event =
    // writable half
    | Accept(chunk: Chunk)   // write() took the chunk
    | Refuse(chunk: Chunk)   // write() after end
    | Ending(started: bool)  // end() took effect; not `started`: its callback was refused, and nothing else done
    | Ready                  // the underlying system may be written to
    | Submit(chunk: Chunk)   // the chunk was passed to _write()
    | Done                   // the chunk in flight was written
    | Finish                 // 'finish' was emitted
    | Shutdown               // the handle was asked to shut down its outgoing side
    | Close                  // the handle was asked to close
    | Dial                   // the handle was asked to connect
    // readable half
    | Push(bytes: Bytes)     // push() took the bytes
    | Eof                    // push(null)
    | Deliver(bytes: Bytes)  // a 'data' event
    | Hold(bytes: Bytes)     // read() took the bytes out of the buffer,
    | Take(bytes: Bytes)     // and returned them,
    | Lose(bytes: Bytes)     // or threw while it held them
    | End                    // 'end' was emitted
    // the remaining events of the emitter
    | Signal(name: string)

  // ------------------------------------------------------------------ writable half

  datatype Writer = Writer(
    ok: bool,
    ready: bool,
    ending: bool,
    jammed: bool,     // end() took effect with nothing in flight, and did not start the writing
    finished: bool,
    accepted: seq<Chunk>,
    submitted: nat,
    completed: nat,
    shut: bool,
    closed: bool)
  {
    /** Accepted chunks that have not been written yet, the one in flight included. */
    function Pending(): int {
      |accepted| - completed
    }

    ghost predicate Inv() {
      && completed <= submitted <= completed + 1
      && submitted <= |accepted|
      && (submitted > 0 ==> ready || ending)
      && (jammed ==> ending && !finished && submitted == completed)
      && (finished ==> ending && completed == |accepted|)
      && (shut || closed ==> finished)
    }

    /** Nothing that could be done now has been left undone, unless the writer is jammed. */
    ghost predicate Quiet() {
      && (!jammed && (ready || ending) && submitted == completed ==> submitted == |accepted|)
      && (!jammed && ending && submitted == completed ==> finished)
    }
  }

  const NEW_WRITER := Writer(true, false, false, false, false, [], 0, 0, false, false)

  function Write1(w: Writer, e: Event): Writer {
    match e
    case Accept(c) => w.(ok := w.ok && !w.ending, accepted := w.accepted + [c])
    case Ending(started) =>
      w.(ok := w.ok && !w.ending, ending := true, jammed := !started && w.submitted == w.completed)
    case Ready => w.(ready := true, jammed := false)
    case Submit(c) =>
      w.(ok := w.ok && (w.ready || w.ending) && !w.jammed && w.submitted == w.completed
               && w.submitted < |w.accepted| && w.accepted[w.submitted] == c,
         submitted := w.submitted + 1)
    case Done => w.(ok := w.ok && w.submitted == w.completed + 1, completed := w.completed + 1)
    case Finish =>
      w.(ok := w.ok && w.ending && !w.jammed && !w.finished && w.completed == |w.accepted|, finished := true)
    case Shutdown => w.(ok := w.ok && w.finished && !w.shut && !w.closed, shut := true)
    case Close => w.(ok := w.ok && w.finished, closed := true)
    case Refuse(_) => w.(ok := w.ok && w.ending)
    case _ => w
  }

  function WriterAfter(t: seq<Event>): Writer {
    if t == [] then NEW_WRITER else Write1(WriterAfter(t[..|t| - 1]), t[|t| - 1])
  }

  lemma WriterStep(t: seq<Event>, e: Event)
    ensures WriterAfter(t + [e]) == Write1(WriterAfter(t), e)
  {
    assert (t + [e])[..|t|] == t;
  }

  // Projections of a trace that do not mention the automaton.

  function Accepted(t: seq<Event>): seq<Chunk> {
    if t == [] then []
    else if t[|t| - 1].Accept? then Accepted(t[..|t| - 1]) + [t[|t| - 1].chunk]
    else Accepted(t[..|t| - 1])
  }

  function Submitted(t: seq<Event>): seq<Chunk> {
    if t == [] then []
    else if t[|t| - 1].Submit? then Submitted(t[..|t| - 1]) + [t[|t| - 1].chunk]
    else Submitted(t[..|t| - 1])
  }

  function Completions(t: seq<Event>): nat {
    if t == [] then 0 else Completions(t[..|t| - 1]) + if t[|t| - 1].Done? then 1 else 0
  }

  lemma StepKeepsInv(w: Writer, e: Event)
    requires w.ok && w.Inv() && Write1(w, e).ok
    ensures Write1(w, e).Inv()
  {
  }

  lemma StepWasLegal(w: Writer, e: Event)
    requires Write1(w, e).ok
    ensures w.ok
  {
  }

  /** Every legal trace leaves the automaton in a state that satisfies its invariant. */
  lemma {:induction false} LegalInv(t: seq<Event>)
    requires WriterAfter(t).ok
    ensures WriterAfter(t).Inv()
  {
    if t != [] {
      StepWasLegal(WriterAfter(t[..|t| - 1]), t[|t| - 1]);
      LegalInv(t[..|t| - 1]);
      StepKeepsInv(WriterAfter(t[..|t| - 1]), t[|t| - 1]);
    }
  }

  lemma StepCounts(w: Writer, e: Event)
    ensures Write1(w, e).accepted == if e.Accept? then w.accepted + [e.chunk] else w.accepted
    ensures Write1(w, e).submitted == if e.Submit? then w.submitted + 1 else w.submitted
    ensures Write1(w, e).completed == if e.Done? then w.completed + 1 else w.completed
  {
  }

  lemma {:induction false} CountsAgree(t: seq<Event>)
    ensures WriterAfter(t).accepted == Accepted(t)
    ensures WriterAfter(t).submitted == |Submitted(t)|
    ensures WriterAfter(t).completed == Completions(t)
  {
    if t != [] {
      var u, e := t[..|t| - 1], t[|t| - 1];
      CountsAgree(u);
      StepCounts(WriterAfter(u), e);
      assert WriterAfter(t) == Write1(WriterAfter(u), e);
    }
  }

  /** Chunks go to the underlying system in the order accepted, one at a time. */
  lemma {:induction false} InOrderOneAtATime(t: seq<Event>)
    requires WriterAfter(t).ok
    ensures Submitted(t) <= Accepted(t)
    ensures Completions(t) <= |Submitted(t)| <= Completions(t) + 1
  {
    LegalInv(t);
    CountsAgree(t);
    if t != [] {
      var u, e := t[..|t| - 1], t[|t| - 1];
      StepWasLegal(WriterAfter(u), e);
      InOrderOneAtATime(u);
      CountsAgree(u);
    }
  }

  /** What later events leave as it is. */
  ghost predicate Settles(w: Writer, v: Writer) {
    && (w.ending ==> v.ending && v.accepted == w.accepted)
    && (w.ending && v.jammed ==> w.jammed)
    && (w.finished ==> v.finished)
    && (w.shut ==> v.shut)
    && (w.closed ==> v.closed)
  }

  lemma StepSettles(w: Writer, e: Event)
    requires Write1(w, e).ok
    ensures w.ok && Settles(w, Write1(w, e))
  {
  }

  /** A prefix of a legal trace is legal, and what it has settled stays settled. */
  lemma {:induction false} LegalPrefix(u: seq<Event>, t: seq<Event>)
    requires u <= t && WriterAfter(t).ok
    ensures WriterAfter(u).ok && WriterAfter(u).Inv()
    ensures Settles(WriterAfter(u), WriterAfter(t))
    decreases |t|
  {
    if |u| < |t| {
      var v, e := t[..|t| - 1], t[|t| - 1];
      assert WriterAfter(t) == Write1(WriterAfter(v), e);
      StepSettles(WriterAfter(v), e);
      LegalPrefix(u, v);
    } else {
      assert u == t;
      LegalInv(t);
    }
  }

  lemma PrefixAndNext(t: seq<Event>, i: nat)
    requires i < |t|
    ensures t[..i] + [t[i]] <= t
  {
    assert t[..i] + [t[i]] == t[..i + 1];
  }

  /** The automaton just before and just after the event at position i. */
  lemma {:induction false} LegalAt(t: seq<Event>, i: nat)
    requires i < |t| && WriterAfter(t).ok
    ensures WriterAfter(t[..i]).ok && WriterAfter(t[..i]).Inv()
    ensures Settles(WriterAfter(t[..i]), WriterAfter(t))
    ensures Write1(WriterAfter(t[..i]), t[i]).ok
    ensures Settles(Write1(WriterAfter(t[..i]), t[i]), WriterAfter(t))
  {
    PrefixAndNext(t, i);
    LegalNext(t[..i], t[i], t);
  }

  lemma {:induction false} LegalNext(u: seq<Event>, e: Event, t: seq<Event>)
    requires u + [e] <= t && WriterAfter(t).ok
    ensures WriterAfter(u).ok && WriterAfter(u).Inv() && Settles(WriterAfter(u), WriterAfter(t))
    ensures Write1(WriterAfter(u), e).ok && Settles(Write1(WriterAfter(u), e), WriterAfter(t))
  {
    assert u <= t;
    LegalPrefix(u, t);
    LegalPrefix(u + [e], t);
    WriterStep(u, e);
  }

  /** At position j the effect of the event at an earlier position i is still there. */
  lemma {:induction false} LegalBetween(t: seq<Event>, i: nat, j: nat)
    requires i < j < |t| && WriterAfter(t).ok
    ensures Settles(Write1(WriterAfter(t[..i]), t[i]), WriterAfter(t[..j]))
  {
    var v := t[..j];
    LegalPrefix(v, t);
    LegalAt(v, i);
    assert v[..i] == t[..i] && v[i] == t[i];
  }

  /** 'finish' comes once and is the end of all writing. */
  lemma {:induction false} FinishIsLast(t: seq<Event>, i: nat, j: nat)
    requires i < j < |t| && WriterAfter(t).ok
    requires t[i] == Finish
    ensures t[j] != Finish && t[j] != Done && !t[j].Ending? && !t[j].Accept? && !t[j].Submit?
  {
    LegalAt(t, i);
    LegalAt(t, j);
    LegalBetween(t, i, j);
  }

  /** A handle is asked to shut down at most once, and never after it was asked to close. */
  lemma {:induction false} ShutdownOnceBeforeClose(t: seq<Event>, i: nat, j: nat)
    requires i < j < |t| && WriterAfter(t).ok
    requires t[i] == Shutdown || t[i] == Close
    ensures t[j] != Shutdown
  {
    LegalAt(t, i);
    LegalAt(t, j);
    LegalBetween(t, i, j);
  }

  /** When a handle is asked to shut down or to close, everything ever accepted has been written. */
  lemma {:induction false} HandleGoesLast(t: seq<Event>, i: nat)
    requires i < |t| && WriterAfter(t).ok
    requires t[i] == Shutdown || t[i] == Close
    ensures Accepted(t) == Accepted(t[..i]) == Submitted(t[..i]) == Submitted(t)
    ensures Completions(t[..i]) == |Accepted(t)| == Completions(t)
  {
    LegalAt(t, i);
    CountsAgree(t);
    CountsAgree(t[..i]);
    InOrderOneAtATime(t);
    InOrderOneAtATime(t[..i]);
    LegalInv(t);
  }

  lemma StepFlags(w: Writer, e: Event)
    ensures Write1(w, e).finished == (w.finished || e == Finish)
    ensures Write1(w, e).shut == (w.shut || e == Shutdown)
    ensures Write1(w, e).closed == (w.closed || e == Close)
  {
    match e
    case Finish =>
    case Shutdown =>
    case Close =>
    case _ =>
  }

  lemma {:induction false} FinishedMeansFinish(t: seq<Event>)
    ensures WriterAfter(t).finished <==> Finish in t
    ensures WriterAfter(t).shut <==> Shutdown in t
    ensures WriterAfter(t).closed <==> Close in t
  {
    if t != [] {
      var u, e := t[..|t| - 1], t[|t| - 1];
      FinishedMeansFinish(u);
      StepFlags(WriterAfter(u), e);
      assert t == u + [e];
      assert WriterAfter(t) == Write1(WriterAfter(u), e);
    }
  }

  /** The end() at p found nothing in flight and started nothing, and nothing has set it off since. */
  ghost predicate JamsAt(t: seq<Event>, p: nat) {
    && p < |t| && t[p] == Ending(false)
    && |Submitted(t[..p])| == Completions(t[..p])
    && Ready !in t[p + 1..]
  }

  ghost predicate Jammed(t: seq<Event>) {
    exists p: nat :: JamsAt(t, p)
  }

  lemma StepJams(w: Writer, e: Event)
    ensures Write1(w, e).jammed ==
            if e.Ending? then !e.started && w.submitted == w.completed
            else w.jammed && e != Ready
  {
  }

  lemma JamsStill(u: seq<Event>, e: Event, p: nat)
    requires p < |u|
    ensures JamsAt(u + [e], p) <==> JamsAt(u, p) && e != Ready
  {
    var t := u + [e];
    assert t[..p] == u[..p] && t[p] == u[p] && t[p + 1..] == u[p + 1..] + [e];
  }

  lemma JamsNow(u: seq<Event>, e: Event)
    ensures JamsAt(u + [e], |u|) <==> e == Ending(false) && |Submitted(u)| == Completions(u)
  {
    var t := u + [e];
    assert t[..|u|] == u && t[|u| + 1..] == [];
  }

  lemma JammedStep(u: seq<Event>, e: Event)
    requires !Jammed(u) || !e.Ending?
    ensures Jammed(u + [e]) <==>
            if e.Ending? then e == Ending(false) && |Submitted(u)| == Completions(u) else Jammed(u) && e != Ready
  {
    JamsNow(u, e);
    if Jammed(u) {
      var p: nat :| JamsAt(u, p);
      JamsStill(u, e, p);
    }
    if Jammed(u + [e]) {
      var p: nat :| JamsAt(u + [e], p);
      if p < |u| {
        JamsStill(u, e, p);
      }
    }
  }

  lemma {:induction false} JammedMeans(t: seq<Event>)
    requires WriterAfter(t).ok
    ensures WriterAfter(t).jammed <==> Jammed(t)
  {
    if t != [] {
      var u, e := t[..|t| - 1], t[|t| - 1];
      assert t == u + [e];
      WriterStep(u, e);
      StepWasLegal(WriterAfter(u), e);
      JammedMeans(u);
      CountsAgree(u);
      StepJams(WriterAfter(u), e);
      if e.Ending? && Jammed(u) {
        var p: nat :| JamsAt(u, p);
        NoneAfterEnd(t, p, |u|);
      }
      JammedStep(u, e);
    }
  }

  /** After end() no chunk is accepted and no end() takes effect, nor is there any after a refusal. */
  lemma {:induction false} NoneAfterEnd(t: seq<Event>, i: nat, j: nat)
    requires i < j < |t| && WriterAfter(t).ok && (t[i].Ending? || t[i].Refuse?)
    ensures !t[j].Ending? && !t[j].Accept?
  {
    LegalAt(t, i);
    LegalAt(t, j);
    LegalBetween(t, i, j);
  }

  /** When end() took effect k chunks were unwritten.  In a trace that leaves undone nothing that it
      could do, 'finish' has been emitted just when k more have been written and the end() was not one
      that left the stream jammed. */
  lemma {:induction false} FinishAtLastCompletion(t: seq<Event>, p: nat)
    requires p < |t| && WriterAfter(t).ok && WriterAfter(t).Quiet()
    requires t[p].Ending?
    ensures Finish in t <==>
            (!Jammed(t) && Completions(t) - Completions(t[..p]) == |Accepted(t[..p])| - Completions(t[..p]))
  {
    LegalAt(t, p);
    LegalInv(t);
    CountsAgree(t);
    CountsAgree(t[..p]);
    FinishedMeansFinish(t);
    JammedMeans(t);
  }

  // ------------------------------------------------------------------ readable half

  datatype Reader = Reader(
    ok: bool,
    pushed: Bytes,
    out: Bytes,     // all that has left the buffer: handed out, in the hands of a read(), or lost
    held: Bytes,    // in the hands of a read() that has not returned
    lost: Bytes,    // in the hands of a read() that threw
    eof: bool,
    ended: bool,
    drained: bool)  // a 'data' event came after the end of file
  {
    ghost predicate Inv() {
      && out <= pushed
      && (ended ==> eof && out == pushed)
      && (lost != [] ==> ended && held == [])
      && (drained ==> eof)
    }
  }

  const NEW_READER := Reader(true, [], [], [], [], false, false, false)

  function Read1(r: Reader, e: Event): Reader {
    match e
    case Push(b) => r.(ok := r.ok && !r.eof, pushed := r.pushed + b)
    case Eof => r.(eof := true)
    case Deliver(b) =>
      r.(ok := r.ok && r.held == r.lost == [] && r.out + b <= r.pushed,
         out := r.out + b,
         drained := r.drained || r.eof)
    case Hold(b) =>
      r.(ok := r.ok && b != [] && r.held == r.lost == [] && r.out + b <= r.pushed,
         out := r.out + b,
         held := b)
    case Take(b) => r.(ok := r.ok && b == r.held != [], held := [])
    case Lose(b) => r.(ok := r.ok && b == r.held != [] && r.ended, held := [], lost := b)
    case End => r.(ok := r.ok && r.eof && !r.ended && r.out == r.pushed, ended := true)
    case _ => r
  }

  function ReaderAfter(t: seq<Event>): Reader {
    if t == [] then NEW_READER else Read1(ReaderAfter(t[..|t| - 1]), t[|t| - 1])
  }

  lemma ReaderStep(t: seq<Event>, e: Event)
    ensures ReaderAfter(t + [e]) == Read1(ReaderAfter(t), e)
  {
    assert (t + [e])[..|t|] == t;
  }

  function Pushes(t: seq<Event>): Bytes {
    if t == [] then []
    else if t[|t| - 1].Push? then Pushes(t[..|t| - 1]) + t[|t| - 1].bytes
    else Pushes(t[..|t| - 1])
  }

  /** What 'data' events and the results of read() have handed over. */
  function Delivered(t: seq<Event>): Bytes {
    if t == [] then []
    else if t[|t| - 1].Deliver? || t[|t| - 1].Take? then Delivered(t[..|t| - 1]) + t[|t| - 1].bytes
    else Delivered(t[..|t| - 1])
  }

  /** What a read() has taken out of the buffer and not yet returned. */
  function InHand(t: seq<Event>): Bytes {
    if t == [] then []
    else if t[|t| - 1].Hold? then t[|t| - 1].bytes
    else if t[|t| - 1].Take? || t[|t| - 1].Lose? then []
    else InHand(t[..|t| - 1])
  }

  function Lost(t: seq<Event>): Bytes {
    if t == [] then []
    else if t[|t| - 1].Lose? then t[|t| - 1].bytes
    else Lost(t[..|t| - 1])
  }

  lemma StepBytes(r: Reader, e: Event)
    ensures Read1(r, e).pushed == if e.Push? then r.pushed + e.bytes else r.pushed
    ensures Read1(r, e).out == if e.Deliver? || e.Hold? then r.out + e.bytes else r.out
    ensures Read1(r, e).held == if e.Hold? then e.bytes else if e.Take? || e.Lose? then [] else r.held
    ensures Read1(r, e).lost == if e.Lose? then e.bytes else r.lost
    ensures Read1(r, e).ok ==> r.ok
  {
  }

  lemma StepKeepsReader(r: Reader, e: Event)
    requires r.Inv() && Read1(r, e).ok
    ensures Read1(r, e).Inv()
    ensures e.Deliver? || e.Hold? ==> r.held == r.lost == []
    ensures e.Take? || e.Lose? ==> e.bytes == r.held && r.lost == []
  {
  }

  lemma NoneHeld(d: Bytes, b: Bytes)
    ensures d + [] + [] == d && d + b + [] == d + b
  {
  }

  /** Bytes are conserved: what has left the buffer was handed over, is in the hands of a read(), or
      is lost. */
  lemma {:induction false} BytesAgree(t: seq<Event>)
    requires ReaderAfter(t).ok
    ensures ReaderAfter(t).Inv()
    ensures ReaderAfter(t).pushed == Pushes(t)
    ensures ReaderAfter(t).held == InHand(t) && ReaderAfter(t).lost == Lost(t)
    ensures ReaderAfter(t).out == Delivered(t) + InHand(t) + Lost(t)
  {
    if t != [] {
      var u, e := t[..|t| - 1], t[|t| - 1];
      var r := ReaderAfter(u);
      assert ReaderAfter(t) == Read1(r, e);
      StepBytes(r, e);
      BytesAgree(u);
      StepKeepsReader(r, e);
      if e.Deliver? || e.Hold? || e.Take? || e.Lose? {
        NoneHeld(Delivered(u), e.bytes);
        NoneHeld(Delivered(u) + e.bytes, []);
      }
    }
  }

  /** What later events leave as it is. */
  ghost predicate Stays(r: Reader, q: Reader) {
    && (r.eof ==> q.eof && q.pushed == r.pushed)
    && (r.ended ==> q.ended && q.out == r.out)
    && (r.lost != [] ==> q.lost == r.lost)
  }

  lemma StepStays(r: Reader, e: Event)
    requires Read1(r, e).ok && r.Inv()
    ensures Stays(r, Read1(r, e))
    ensures r.ended ==> e != End && !e.Push? && !e.Hold?
  {
    if r.ended && (e.Deliver? || e.Hold?) {
      assert |r.out + e.bytes| <= |r.pushed|;
      assert r.out + e.bytes == r.out;
    }
  }

  lemma {:induction false} ReaderPrefix(u: seq<Event>, t: seq<Event>)
    requires u <= t && ReaderAfter(t).ok
    ensures ReaderAfter(u).ok && ReaderAfter(u).Inv()
    ensures Stays(ReaderAfter(u), ReaderAfter(t))
    decreases |t|
  {
    BytesAgree(t);
    if |u| < |t| {
      var v, e := t[..|t| - 1], t[|t| - 1];
      assert ReaderAfter(t) == Read1(ReaderAfter(v), e);
      StepBytes(ReaderAfter(v), e);
      BytesAgree(v);
      StepStays(ReaderAfter(v), e);
      ReaderPrefix(u, v);
    } else {
      assert u == t;
    }
  }

  lemma {:induction false} ReaderAt(t: seq<Event>, i: nat)
    requires i < |t| && ReaderAfter(t).ok
    ensures ReaderAfter(t[..i]).ok && ReaderAfter(t[..i]).Inv()
    ensures Read1(ReaderAfter(t[..i]), t[i]).ok
    ensures Stays(Read1(ReaderAfter(t[..i]), t[i]), ReaderAfter(t))
  {
    PrefixAndNext(t, i);
    ReaderNext(t[..i], t[i], t);
  }

  lemma {:induction false} ReaderNext(u: seq<Event>, e: Event, t: seq<Event>)
    requires u + [e] <= t && ReaderAfter(t).ok
    ensures ReaderAfter(u).ok && ReaderAfter(u).Inv()
    ensures Read1(ReaderAfter(u), e).ok && Stays(Read1(ReaderAfter(u), e), ReaderAfter(t))
  {
    assert u <= t;
    ReaderPrefix(u, t);
    ReaderPrefix(u + [e], t);
    ReaderStep(u, e);
  }

  /** 'end' comes when the buffer is empty: every byte taken in has been handed over, but for those
      that a read() on its way out holds.  No byte comes in or goes out later. */
  lemma {:induction false} EndIsLast(t: seq<Event>, i: nat)
    requires i < |t| && ReaderAfter(t).ok
    requires t[i] == End
    ensures Pushes(t) == Pushes(t[..i]) == Delivered(t[..i]) + InHand(t[..i])
    ensures Pushes(t) == Delivered(t) + InHand(t) + Lost(t)
  {
    ReaderAt(t, i);
    BytesAgree(t);
    BytesAgree(t[..i]);
    assert Delivered(t[..i]) + InHand(t[..i]) + [] == Delivered(t[..i]) + InHand(t[..i]);
  }

  /** 'end' comes once, and after it no byte is taken in and no read() finds any. */
  lemma {:induction false} EndOnce(t: seq<Event>, i: nat, j: nat)
    requires i < j < |t| && ReaderAfter(t).ok
    requires t[i] == End
    ensures t[j] != End && !t[j].Push? && !t[j].Hold?
  {
    var v := t[..j];
    ReaderAt(t, j);
    ReaderAt(v, i);
    assert v[..i] == t[..i] && v[i] == t[i];
    StepStays(ReaderAfter(v), t[j]);
  }

  /** Bytes are lost only by a read() that held them while 'end' was emitted: it took them out before,
      and threw after. */
  lemma {:induction false} LostAroundEnd(t: seq<Event>, j: nat)
    requires j < |t| && ReaderAfter(t).ok
    requires t[j].Lose?
    ensures t[j].bytes != [] && Lost(t) == t[j].bytes
    ensures exists i, k :: 0 <= i < k < j && t[i] == Hold(t[j].bytes) && t[k] == End
  {
    var v := t[..j];
    ReaderAt(t, j);
    BytesAgree(t);
    BytesAgree(v);
    ReaderFlags(v);
    var i := LastHold(v);
    var k :| 0 <= k < |v| && v[k] == End;
    if k <= i {
      EndOnce(v, k, i);
    }
    assert t[i] == v[i] && t[k] == v[k];
  }

  lemma {:induction false} LastHold(t: seq<Event>) returns (i: nat)
    requires InHand(t) != []
    ensures i < |t| && t[i] == Hold(InHand(t))
  {
    if t[|t| - 1].Hold? {
      i := |t| - 1;
    } else {
      i := LastHold(t[..|t| - 1]);
    }
  }

  /** A 'data' event came after the end of file. */
  ghost predicate DataAfterEof(t: seq<Event>) {
    exists i, j :: 0 <= i < j < |t| && t[i] == Eof && t[j].Deliver?
  }

  lemma StepReaderFlags(r: Reader, e: Event)
    ensures Read1(r, e).eof == (r.eof || e == Eof)
    ensures Read1(r, e).ended == (r.ended || e == End)
    ensures Read1(r, e).drained == (r.drained || (r.eof && e.Deliver?))
  {
  }

  lemma {:induction false} ReaderFlags(t: seq<Event>)
    ensures ReaderAfter(t).eof <==> Eof in t
    ensures ReaderAfter(t).ended <==> End in t
    ensures ReaderAfter(t).drained <==> DataAfterEof(t)
  {
    if t != [] {
      var u, e, last := t[..|t| - 1], t[|t| - 1], |t| - 1;
      ReaderFlags(u);
      StepReaderFlags(ReaderAfter(u), e);
      assert t == u + [e];
      assert ReaderAfter(t) == Read1(ReaderAfter(u), e);
      if DataAfterEof(u) {
        var i, j :| 0 <= i < j < |u| && u[i] == Eof && u[j].Deliver?;
        assert t[i] == Eof && t[j].Deliver?;
      }
      if DataAfterEof(t) {
        var i, j :| 0 <= i < j < |t| && t[i] == Eof && t[j].Deliver?;
        assert u[i] == Eof;
        assert j < last ==> u[j].Deliver?;
      }
      if Eof in u && e.Deliver? {
        var i :| 0 <= i < |u| && u[i] == Eof;
        assert t[i] == Eof && t[last].Deliver?;
      }
    }
  }
}
