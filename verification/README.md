# A model of the IoT.js runtime

IoT.js runs Node-style JavaScript on small devices. Its logic is a set of callback-driven state
machines: streams and sockets, the event emitter, the next-tick queue, the loader of the built-in
modules, the timer registry, and a few pointer and ownership structures in C++ under them. This
project models those in Dafny and proves what holds in every run.

**User code.** Listeners and callbacks can call back into the object that called them, at any depth,
and can throw. Wherever the original runs user code, the models take moves from a script (module
`Users`): return, throw, make one of the calls open to user code, catch what that call threw. Every
theorem is for every script, so for every finite run of every program. The `decreases` clauses of the
mutually recursive methods are the proof that the library's own recursion ends: each nested call
either consumes some of the script or uses up something that happens once per object.

| file | models |
|---|---|
| `Protocol.dfy` | the events in a stream's life, and two reference automata that say which traces are legal |
| `Duplexes.dfy` | `stream_writable.js`, `stream_readable.js`, `Socket` of `net.js`, the close guard of `iotjs_handlewrap.cpp` |
| `Loader.dfy`, `BuiltIns.dfy` | `Native.require`, and the actual dependency graph of the built-in modules |
| `Processes.dfy` | next tick, exit, uncaught exceptions, `MakeCallback`, the main loop |
| `Events.dfy`, `Emitters.dfy` | the event emitter: its meaning as functions, and the in-place code proved equal to them |
| `EventWalks.dfy`, `EventOnce.dfy`, `Turns.dfy` | which listeners an emit calls, and how often a once listener runs |
| `LinkedLists.dfy` | the doubly linked list of `iotjs_util.h` |
| `Buffers.dfy`, `Flat.dfy` | `Buffer.copy` and `Buffer.concat` with `size_t` arithmetic |
| `Timers.dfy` | `timers.js` |
| `Bindings.dfy` | reference counting in `iotjs_binding.cpp` |

## Main results

**Streams and sockets.** `Duplex.Valid` holds at every point where user code runs. It says that the
trace so far is accepted by the automata of `Protocol`, that fields, queue and read buffer are what the
trace determines, and that nothing that could be done has been left undone. The lemmas of `Protocol`
turn acceptance into statements about the trace: chunks are submitted in the order accepted, one at a
time; 'finish' comes once, at the last completion; the handle is asked to shut down at most once,
never after a close, and is asked for either only when all that was accepted has been written; bytes
are conserved. `EofCloses`, `EofThenFinish` and `DrainCloses` give closing progress after the end of
file for all user code, with and without unread bytes; `DestroyCloses` and `DestroySoonCloses` give it
for `destroy()` and `destroySoon()` when user code is idle.

Five shortcomings of the code are exact statements here.
- An `end()` whose callback is not a function throws after it has taken effect. If nothing was in flight
  then, the stream is *jammed*: it does not finish, and a connected socket is never closed, not even
  after the end of file. A stream that is ending and not writing has finished if and only if it is not
  jammed (`Guarantees`, `JammedMeans`, `EofCloses`, `JammedForGood`).
- `read()` emits 'end' before it returns. The bytes it has taken are lost if and only if that emit throws
  (`Read`, `LostAroundEnd`, `ReadLoses`).
- After the end of file 'end' is outstanding with nothing left to read if and only if a 'data' event came
  after the end of file, as `resume()` makes it (`Guarantees`, `ResumeOwesEnd`).
- `destroySoon()` with k writes pending closes if and only if the socket had not finished, the k writes
  complete, and 'finish' then reaches a wrapper that destroys: its own is among them only if k is not 0,
  and a socket that had finished is left open, because the field that is tested is never set
  (`DestroySoonCloses`, `FinishedStaysOpen`). For the same reason a finished socket that is drained after
  the end of file is closed only by the answer to its shutdown (`DrainedTooLate`).
- A `destroy()` that has to wait for 'finish' closes if and only if an even number of once wrappers stands
  directly before one that destroys: `end(callback); destroy()` never closes (`DestroyCloses`,
  `ClosesMeans`).

**Loader.** Requiring a module that is not cached caches it and what it reaches along paths outside the
cache, and nothing else; it throws exactly when one of those modules throws, and then each module newly
cached has been loaded with all it requires or stopped at a require that failed. A module that is handed
out unfinished is on a cycle, and among the built-in modules those are the four stream modules.
A module whose source threw stays cached and is later handed out without an error.

**Events.** One `listeners` and one `i` are shared by all emits, because `emit` does not declare them.
As long as listeners make no emits themselves, whatever else they do to any list, an emit calls, in
order and none twice, part of the listeners it finds and those added meanwhile; and each removal at or
before the current position costs one listener its call. An undisturbed emit calls exactly the
listeners directly before which an even number of once wrappers stands, so it calls all of them just when no
wrapper stands before the last one. An emit nested in a listener ends the outer emit. A wrapper that an
emit calls stays registered exactly when the emit is another emitter's; so a listener registered with
one `once()` runs at most once in every program in which no emit is made while another emitter's is in
progress, and two programs in which one is are shown to run it twice.

**Processes.** Every next-tick callback is begun exactly once, whatever drains nest; without nesting, in
order, and no drain runs what was added during it. The main loop ends with nothing queued and nothing
alive, and a run emits 'exit' exactly once, however it ends.

**References.** The count of an object is what the engine holds and what live owning wrappers own, over
any sequence of operations; a whole native call leaves no wrapper behind.

## Model

| member | source | states |
|---|---|---|
| `Protocol.InOrderOneAtATime` | src/js/stream_writable.js:139-182 | in every legal trace the submitted chunks are a prefix of the accepted ones, and at most one is in flight |
| `Protocol.FinishIsLast` | src/js/stream_writable.js:186-214 | after 'finish' there is no second 'finish', no write, no completion, no further end |
| `Protocol.FinishAtLastCompletion` | src/js/stream_writable.js:97-126 | with k chunks unwritten when end() takes effect, 'finish' has been emitted just when k more have been written and the end() has not left the stream jammed, in a trace that otherwise leaves nothing undone |
| `Protocol.NoneAfterEnd` | src/js/stream_writable.js:76-107 | after end() has taken effect, or a chunk has been refused, no chunk is accepted and no end() takes effect |
| `Protocol.JammedMeans` | src/js/stream_writable.js:196-204 | the stream is jammed exactly when an end() whose callback was refused found nothing in flight and no readiness has come since |
| `Protocol.HandleGoesLast` | src/js/net.js:118-163 | when the handle is asked to shut down or close, all that is ever accepted has been submitted and completed |
| `Protocol.ShutdownOnceBeforeClose` | src/js/net.js:250-281 | no shutdown follows a shutdown or a close |
| `Protocol.FinishedMeansFinish` | src/js/stream_writable.js:208-214 | the flags of the automaton are the presence of the events in the trace |
| `Protocol.LegalPrefix` | src/js/stream_writable.js:76-214 | prefixes of legal traces are legal, and end, finish, shutdown and close are never undone |
| `Protocol.EndIsLast` | src/js/stream_readable.js:57-78 | at 'end' every byte taken in has been handed over, or is in the hands of a read() that has not returned; none comes in later |
| `Protocol.BytesAgree` | src/js/stream_readable.js:57-78 | what has left the read buffer is what was handed over, what a read() holds, and what is lost, in this order |
| `Protocol.LostAroundEnd` | src/js/stream_readable.js:70-77 | bytes are lost only by a read() that took them before 'end' was emitted and threw after |
| `Protocol.ReaderFlags` | src/js/stream_readable.js:171-208 | the flags of the automaton are the presence of the events, one of them 'data' after the end of file |
| `Protocol.EndOnce` | src/js/stream_readable.js:171-182 | 'end' comes once; after it push takes nothing in and read() finds nothing |
| `Duplexes.Duplex.Guarantees` | src/js/stream_writable.js:97-214 | wherever user code runs: accepted chunks are the submitted ones followed by the queue; unless jammed, a stream that may write and is not writing has an empty queue; an ending stream that is not writing has finished if and only if it is not jammed; nothing is submitted before readiness or end; pushed bytes are those handed over, held by a read(), lost, and buffered; 'end' is outstanding with nothing buffered if and only if 'data' came after the end of file; at most one native close, and only when all accepted has completed |
| `Duplexes.Duplex.FinishGuarantee` | src/js/stream_writable.js:97-126 | wherever user code runs, 'finish' has been emitted just when as many writes have completed since end() took effect as were pending then, end()'s own chunk included, and the stream is not jammed |
| `Duplexes.Duplex.RunUser` | src/js/stream_writable.js:76-214 | any user code, re-entrant to any depth, preserves all of the above and undoes nothing; it returns and throws where the script says so, a call takes effect when it is made, and only a catch keeps the exception of one from coming out |
| `Duplexes.Duplex.Perform` | src/js/stream_writable.js:76-126 | each call has its event in the trace at once: a write is accepted or refused, end() is recorded, a read() that drains takes the bytes, pause() and resume() signal and deliver, connect() dials, push, readiness and completion are recorded; end(), destroy() and destroySoon() leave the stream ending; a call with a bad argument throws |
| `Duplexes.Duplex.Write` | src/js/stream_writable.js:76-87 | accepts the chunk, or refuses it after end; a socket throws on what is not data |
| `Duplexes.Duplex.WriteAfterEnd` | src/js/stream_writable.js:130-136 | refuses, emits 'error', and queues the call of the callback |
| `Duplexes.Duplex.RunTick` | src/js/stream_writable.js:133-135 | the queued call throws if there was no callback |
| `Duplexes.Duplex.WriteOrBuffer` | src/js/stream_writable.js:139-154 | accepts the chunk into a state that is again quiet |
| `Duplexes.Duplex.WriteBuffered` | src/js/stream_writable.js:157-167 | restores quiescence: submits the head of the queue, or finishes, whether ready or only ending |
| `Duplexes.Duplex.DoWrite` | src/js/stream_writable.js:170-182 | submits the chunk; the test for writing during writing never succeeds |
| `Duplexes.Duplex.SendChunk` | src/js/net.js:103-115 | a socket's _write runs no user code, and throws without a handle |
| `Duplexes.Duplex.EmitFinish` | src/js/stream_writable.js:208-214 | 'finish' once; for a socket with a handle the next event is close after the end of file, shutdown before it |
| `Duplexes.Duplex.CallFinishers` | src/js/events.js:40-43 | the loop over the live list of 'finish' listeners: with user code idle the socket is closed after it exactly if it was before or a destroying wrapper is reached |
| `Duplexes.ClosesMeans` | src/js/net.js:141-145 | one is reached exactly when an even number of once wrappers stands directly before it |
| `Turns.ReachedAfterEvenRun` | src/js/events.js:40-43 | the same for any list: a position is reached exactly after an even run of wrappers |
| `Duplexes.Duplex.EndWriting` | src/js/stream_writable.js:97-107 | after end the stream is ending; repeated without data it changes nothing; a callback that is not a function makes it throw after it has taken effect, and any other is registered for 'finish' unless that comes at once; with data that holds as well, for idle user code |
| `Duplexes.Duplex.EndWritable` | src/js/stream_writable.js:196-204 | end takes effect and freezes the accepted chunks; with a callback that is not a function it throws then, and jams a stream with nothing in flight |
| `Duplexes.Duplex.JammedForGood` | src/js/stream_writable.js:196-204 | a connected socket jammed in this way never finishes and is never closed |
| `Duplexes.Duplex.ReadyToWrite` | src/js/stream_writable.js:112-117 | readiness is recorded and the queue started |
| `Duplexes.Duplex.OnWrite` | src/js/stream_writable.js:121-126 | a completion is recorded and the next chunk submitted, or the stream finished |
| `Duplexes.Duplex.Read` | src/js/stream_readable.js:57-78 | takes all buffered bytes or none; asking for a part throws and changes nothing; what was taken is returned, or lost if and only if emitting 'end' throws; after the end of file a drained stream has emitted 'end' |
| `Duplexes.Duplex.FinishRead` | src/js/stream_readable.js:73-77 | 'end' is emitted while the bytes are still held |
| `Duplexes.ReadLoses` | src/js/stream_readable.js:73-77 | a run in which bytes are lost |
| `Duplexes.ResumeOwesEnd` | src/js/stream_readable.js:105-114 | a run in which resume() leaves 'end' outstanding |
| `Duplexes.Duplex.Pause` | src/js/stream_readable.js:95-102 | emits 'pause' when flowing, else nothing |
| `Duplexes.Duplex.Resume` | src/js/stream_readable.js:105-114 | delivers all buffered bytes in one 'data', and emits no 'end' |
| `Duplexes.Duplex.PushChunk` | src/js/stream_readable.js:122-146 | delivers when flowing, buffers when paused, signals an error for a bad chunk or after the end of file |
| `Duplexes.Duplex.TakeIn` | src/js/stream_readable.js:138-144 | the pushed bytes go to 'data' when flowing, and behind those buffered when not |
| `Duplexes.Duplex.ReadBuffer` | src/js/stream_readable.js:149-168 | everything buffered, nothing, or an exception for a part |
| `Duplexes.Duplex.EmitEnd` | src/js/stream_readable.js:171-182 | 'end' once; a socket that is not half-open is ending from then on |
| `Duplexes.Duplex.EmitData` | src/js/stream_readable.js:189-192 | the assertion that the buffer is empty never fails |
| `Duplexes.Duplex.OnEof` | src/js/stream_readable.js:200-208 | the end of file is recorded, and 'end' emitted if nothing is buffered |
| `Duplexes.Duplex.EndStream` | src/js/net.js:118-127 | the same, and a socket that has been ended is ending and no longer writable |
| `Duplexes.Duplex.Destroy` | src/js/net.js:131-146 | ends the socket; closes the handle if it has finished, and else registers to be called again on 'finish'; accepts no data meanwhile |
| `Duplexes.Duplex.DestroyCloses` | src/js/net.js:131-146 | with user code idle and no end of file: closed exactly when the k pending writes have completed and, if k is not 0, the walk over the 'finish' listeners reaches a destroying wrapper |
| `Duplexes.Duplex.DestroySoon` | src/js/net.js:150-163 | ends the socket and registers destroy for 'finish'; does nothing else to one that was ending; after the end of file it adds a close exactly when it finishes the socket, and before it, with user code idle, exactly when the listeners registered earlier close it at that 'finish' |
| `Duplexes.Duplex.DestroySoonCloses` | src/js/net.js:150-163 | with user code idle and no end of file: a socket that had finished is left as it is; any other is closed exactly when the k pending writes have completed and the walk over the 'finish' listeners, the one registered here among them if k is not 0, reaches a destroying wrapper |
| `Duplexes.Duplex.FinishedStaysOpen` | src/js/net.js:158-162 | end() and then destroySoon() on a socket with nothing in flight leave it finished and open, as long as user code is idle and the end of file does not come |
| `Duplexes.Duplex.MaybeDestroy` | src/js/net.js:205-213 | destroys a socket that is neither connecting, writable nor readable, and no other |
| `Duplexes.Duplex.OnSocketFinish` | src/js/net.js:250-260 | asks for close if the end of file has come, for shutdown if not, throws without a handle |
| `Duplexes.Duplex.OnSocketEnd` | src/js/net.js:264-272 | a socket that is not half-open is ending, and accepts no data meanwhile |
| `Duplexes.Duplex.OnShutdown` | src/js/net.js:275-281 | after the end of file a finished socket is closed |
| `Duplexes.Duplex.OnRead` | src/js/net.js:166-186 | the first end of file with nothing to read ends the socket, and closes it if it has finished |
| `Duplexes.Duplex.OnReadEof` | src/js/net.js:170-179 | the same for the branch that handles the end of file |
| `Duplexes.Duplex.AfterWrite` | src/js/net.js:106-112 | a completed write is passed on before its callback runs |
| `Duplexes.Duplex.HandleAll` | src/js/net.js:103-115 | with any user code, each reported completion completes one of the pending writes of a connected, ending, unjammed socket, as long as there are any |
| `Duplexes.Duplex.AfterConnect` | src/js/net.js:232-246 | connection makes the stream ready, failure emits 'error' |
| `Duplexes.Duplex.OnSocketConnect` | src/js/net.js:216-228 | a connected socket is ready to write, and starts reading on a later tick |
| `Duplexes.Duplex.Connect` | src/js/net.js:71-92 | one connection attempt at a time, on one handle |
| `Duplexes.Duplex.CloseHandle` | src/iotjs_handlewrap.cpp:70-77 | however often close is asked for, libuv is asked once |
| `Duplexes.Duplex.EofCloses` | src/js/net.js:166-213 | end of file with k writes pending at a socket that is not half-open, or has been ended: from then on, through any reports and user code, close has been requested exactly when k more writes have completed, that is when k completions have been reported, and never if an end() has left the socket jammed |
| `Duplexes.Duplex.EofThenFinish` | src/js/net.js:250-256 | end of file at any socket that has not finished: from then on, through any reports and user code, close has been requested exactly when it has finished |
| `Duplexes.Duplex.DrainCloses` | src/js/net.js:264-272 | a read() that drains such a socket after the end of file with k writes pending: from then on close has been requested exactly when k more writes have completed, that is when k completions have been reported, unless it is jammed |
| `Duplexes.Duplex.DrainedTooLate` | src/js/net.js:264-281 | if the socket had finished before, only the answer to its shutdown closes it |
| `Loader.Native.Require` | src/js/iotjs.js:185-200 | a normal end caches exactly what is reachable outside the cache, an exception part of it, each failed module having made its requires up to the one that failed; throws exactly when a module reached throws; hands out a finished module, or one that is still loading and on a cycle, or one that failed before |
| `Loader.Native.Enter` | src/js/iotjs.js:194-196 | a module is cached, unfinished, before it is compiled, and is compiled at most once |
| `Loader.Native.Compile` | src/js/iotjs.js:216-223 | after a normal end every require of the source is cached and every module newly cached is loaded |
| `Loader.Native.SettledIsClosed` | src/js/iotjs.js:185-200 | the cache contains every path from the module that avoids what was cached before |
| `Loader.StackIsCyclic` | src/js/iotjs.js:190-197 | a module required while it is loading is on a cycle of requires |
| `Loader.ClosedUnderPaths` | src/js/iotjs.js:185-200 | a set closed under requires contains every path that starts in it |
| `BuiltIns.CyclesAreStreams` | src/js/stream.js:17-33 | the built-in modules on cycles are exactly the four stream modules |
| `Processes.NoneTwice` | src/js/iotjs.js:96-120 | no next-tick callback is begun twice, and none begun is still waiting |
| `Processes.AllRun` | src/js/iotjs.js:96-120 | with nothing waiting all callbacks have been begun, in order if drains never nested |
| `Processes.AccountsBegin` | src/js/iotjs.js:107-113 | beginning a callback moves it from its drain to the begun ones, under any nesting |
| `Processes.AccountsDrain` | src/js/iotjs.js:104-105 | taking the queue loses and duplicates nothing |
| `Processes.Process.OnNextTick` | src/js/iotjs.js:96-116 | calls each callback it found, in order, and none added meanwhile; the first that throws ends the process if no one listens for that; says whether anything was added |
| `Processes.Process.RunCallback` | src/js/iotjs.js:107-113 | a callback that is begun is called; its exception is handled, or ends the process with the exit code 1 |
| `Processes.Process.TakeQueue` | src/js/iotjs.js:104-105 | the drain gets the whole queue, and the queue is empty |
| `Processes.Process.NextTick` | src/js/iotjs.js:118-120 | queues one callback at the end |
| `Processes.Process.MakeCallback` | src/iotjs_module_process.cpp:108-120 | the callback is called, an exception of it is handled and the queue drained; no exception comes out |
| `Processes.Process.OnUncaughtException` | src/js/iotjs.js:126-142 | never throws, and exits when there is no listener or the listener throws |
| `Processes.Process.EmitExit` | src/js/iotjs.js:151-159 | emits 'exit' the first time only, with the code given |
| `Processes.Process.Exit` | src/js/iotjs.js:162-171 | never returns; a call made while exiting keeps the exit code that is set |
| `Processes.Process.ExitListenerThrew` | src/js/iotjs.js:165-167 | an exit listener that throws makes the exit code 1 when no one listens for uncaught exceptions |
| `Processes.Process.MainLoop` | src/iotjs.cpp:109-116 | every callback that a poll makes is called; it ends only with an empty queue and nothing alive, every next-tick callback having been run; user code apart, it goes on exactly as long as the polls say |
| `Processes.Process.Start` | src/iotjs.cpp:94-121 | a whole run emits 'exit' exactly once; the exit code is 0 if nothing happens, 1 for an exception no one listens for, 2 for one of an exit listener at the end |
| `EventWalks.EmitWalks` | src/js/events.js:28-48 | with listeners that make no emits, an emit calls what `WalkOf` determines from the list and the changes each listener makes to it, exceptions included |
| `EventWalks.EmitInOrder` | src/js/events.js:28-48 | such an emit calls, in order and none twice, part of the listeners it finds and those added to the list meanwhile |
| `EventWalks.WalkKeeps` | src/js/events.js:40-43 | each of these listeners is called, missed, removed before its turn, or left when an exception ends the emit |
| `EventWalks.MissedByRemoval` | src/js/events.js:41 | a turn misses one listener for each removal at or before the current position, as far as there are any to miss, and none otherwise |
| `EventWalks.EmitCalls` | src/js/events.js:28-48 | with listeners that leave the list alone, an emit calls exactly the listeners that `Called` selects, in order, once each, up to an exception |
| `EventWalks.CalledAll` | src/js/events.js:40-43 | all listeners are called if and only if no once wrapper stands before the last one |
| `EventWalks.CalledAfterEvenRuns` | src/js/events.js:40-43 | a listener is called if and only if an even number of once wrappers stands directly before it |
| `EventWalks.CalledInOrder` | src/js/events.js:40-43 | what is called is an order-preserving subsequence of the list |
| `EventWalks.NestedEmitEndsWalk` | src/js/events.js:40-43 | a listener in which an emit comes to its end, and that then begins no other and does not lengthen its list, is the last one its own emit calls |
| `EventWalks.WalkExhausts` | src/js/events.js:41 | an emit that comes to its end leaves the shared position past the end of the shared list |
| `EventWalks.RemovalIsEmitted` | src/js/events.js:97-106 | when it has taken out the last occurrence removeListener emits 'removeListener', whose listeners all run, and which leaves the shared variables at the end of their list |
| `EventWalks.RemovalThrows` | src/js/events.js:77-82 | an exception of one of these, raised when an emit has called a wrapper, comes out of that emit: the wrapper is gone and its own listener has not run |
| `EventWalks.PlainEmit` | src/js/events.js:28-48 | an emit to listeners that are not wrappers and do nothing calls them all, in order |
| `EventWalks.ExceptionComesOut` | src/js/events.js:41-43 | an exception of a listener ends the emit and comes out of the user code that made it, unless that catches it |
| `EventWalks.CallsTakeEffect` | src/js/events.js:51-110 | on, once, removeListener and emit called by user code do what they are for |
| `EventOnce.StaysIfStray` | src/js/events.js:77-82 | a wrapper called by an emit stays registered if and only if the list it was found in is another emitter's |
| `EventOnce.OnceRunsOnceUncrossed` | src/js/events.js:72-89 | in a program that makes no emit while an emit of another emitter is in progress, a once listener runs at most once |
| `EventOnce.OneEmitterNeverCrosses` | src/js/events.js:72-89 | a program that uses one emitter is of this kind |
| `EventOnce.OnceRunsOnce` | src/js/events.js:72-89 | in any program a once listener runs at most once, plus once for each call of its wrapper by another emitter |
| `EventOnce.CallsAreStraysButOne` | src/js/events.js:77-82 | the calls of a wrapper are exactly those by other emitters plus at most one of its own |
| `EventOnce.CutShortRunsTwice` | src/js/events.js:40-43 | a program in which a once listener runs twice, because an inner emit is cut short by an exception |
| `EventOnce.MadeLongerRunsTwice` | src/js/events.js:40-43 | one without exceptions, because a list is made longer after the inner emit has come to its end |
| `Events.SpliceTakesLast` | src/js/events.js:97-106 | removeListener takes out the last occurrence and nothing else |
| `Events.SpliceWrapped` | src/js/events.js:97-106 | a wrapper taken out of its list is registered no more |
| `Emitters.EventEmitters.Emit` | src/js/events.js:28-48 | the loop over the live list computes `Events.Emit` |
| `Emitters.EventEmitters.RemoveListener` | src/js/events.js:92-110 | the search from the end takes out the last occurrence and emits 'removeListener' to the listeners of that event |
| `Emitters.EventEmitters.Walk` | src/js/events.js:41-43 | the loop, with its shared variables, computes `Events.Walk` |
| `Emitters.EventEmitters.AddListener` | src/js/events.js:51-66 | adds the listener at the end of its list |
| `Emitters.EventEmitters.Once` | src/js/events.js:72-89 | registers a new wrapper at the end of the list |
| `Emitters.EventEmitters.Invoke` | src/js/events.js:77-82 | a wrapper removes itself before its listener runs |
| `LinkedLists.LinkedList.WalksAgree` | src/iotjs_util.h:78-175 | next from head gives the list, prev from tail its reverse, and both end there |
| `LinkedLists.LinkedList.ForwardFrom` | src/iotjs_util.h:50-58 | next from any item gives the rest of the list |
| `LinkedLists.LinkedList.BackwardFrom` | src/iotjs_util.h:50-58 | prev from any item gives the items before it in reverse |
| `LinkedLists.LinkedList.InsertHead` | src/iotjs_util.h:95-105 | puts one new item in front |
| `LinkedLists.LinkedList.InsertTail` | src/iotjs_util.h:107-117 | puts one new item behind |
| `LinkedLists.LinkedList.RemoveHead` | src/iotjs_util.h:119-131 | drops the first item |
| `LinkedLists.LinkedList.RemoveTail` | src/iotjs_util.h:133-145 | drops the last item |
| `LinkedLists.LinkedList.RemoveItem` | src/iotjs_util.h:147-160 | drops exactly the given item, wherever it is, and leaves the others in order |
| `LinkedLists.LinkedList.Clear` | src/iotjs_util.h:162-169 | ends, with both ends null |
| `Buffers.EndIsKept` | src/iotjs_module_buffer.cpp:104-107 | through int to size_t conversion and wrap-around, start plus length is the end again, even for a start beyond the end |
| `Buffers.Buffer.Copy` | src/iotjs_module_buffer.cpp:72-112 | copies exactly the bytes that fit, leaves the rest, and copies nothing from a start beyond the end; copied upwards onto itself a buffer repeats the bytes between the two starts |
| `Buffers.Buffer.CopyBytes` | src/iotjs_module_buffer.cpp:228-242 | the copy loop: what every byte is afterwards, and where it came from |
| `Buffers.ConcatBuffers` | src/js/buffer.js:49-72 | the concatenation of any list of buffers, with no copy clipped; an exception if an element is not a buffer |
| `Timers.Registry.Close` | src/js/timers.js:59-72 | takes the timeout out for good; closing again changes no list |
| `Timers.Registry.Activate` | src/js/timers.js:46-56 | lists a new timeout with a running timer that points back to it |
| `Timers.Registry.ActivateAgain` | src/js/timers.js:46-56 | a listed timeout activated once more is listed twice; a second timer runs for it, and the first still points to it and runs if it did |
| `Timers.DistinctMore` | src/js/timers.js:55 | the list stays without duplicates if and only if what is activated is not listed |
| `Timers.Registry.OnTimeout` | src/iotjs_module_timer.cpp:69-75 | the callback of a due timer runs; a one-shot timeout is gone if it returns, and stays listed with a stopped timer if it throws; an interval that its callback leaves alone keeps its timer running |
| `Timers.Registry.HandleTimeout` | src/js/timers.js:35-43 | runs the callback of a live timeout; a one-shot timeout is closed after a callback that returns, however often the callback closed it, and left as it is by one that throws; an interval's timer is left as it is |
| `Timers.Registry.Set` | src/js/timers.js:75-115 | a new listed timeout with its delay brought into range and a running timer; no other timeout or timer is touched |
| `Timers.Registry.ClearTimeout` | src/js/timers.js:93-98 | closes a live timeout, throws for a closed one |
| `Timers.Registry.ClearInterval` | src/js/timers.js:118-123 | closes a repeating timeout, closed or not, and throws for others |
| `Bindings.Engine.Copy` | src/iotjs_binding.cpp:73-77 | a copy is a new live wrapper that owns one more reference |
| `Bindings.Engine.Destroy` | src/iotjs_binding.cpp:125-129 | a live wrapper goes; if it owned a reference it gives it back |
| `Bindings.Engine.Wrap` | src/iotjs_binding.cpp:105-114 | a raw value is borrowed, or its reference taken over, with no change in the count |
| `Bindings.OwnersPlus` | src/iotjs_binding.cpp:73-77 | a new wrapper adds what it owns to what live wrappers own |
| `Bindings.OwnersMinus` | src/iotjs_binding.cpp:125-129 | a wrapper that goes takes away what it owned |
| `Bindings.RunOps` | src/iotjs_binding.cpp:67-129 | over any sequence of making, borrowing, taking over, copying, keeping and destroying, the count is what the engine holds and live wrappers own; when the wrappers made have gone, what is left is what there was and what the engine has been told to keep |
| `Bindings.ArgList.Add` | src/iotjs_binding.cpp:515-518 | the list gets one new wrapper, which owns one more reference |
| `Bindings.ArgList.Set` | src/iotjs_binding.cpp:527-533 | the wrapper replaced goes, and a copy of another takes its place |
| `Bindings.ArgList.AddRaw` | src/iotjs_binding.cpp:521-524 | a raw value's own reference moves into the list, with no change in the count |
| `Bindings.ArgList.Free` | src/iotjs_binding.cpp:494-501 | all the wrappers of the list go, and no others |
| `Bindings.HandlerInfo.constructor` | src/iotjs_binding.cpp:548-564 | function and this are borrowed, each argument is owned once |
| `Bindings.HandlerInfo.Return` | src/iotjs_binding.cpp:591-594 | the engine gets one reference of its own |
| `Bindings.HandlerInfo.Throw` | src/iotjs_binding.cpp:603-610 | the same for what is thrown, once |
| `Bindings.HandlerCall` | src/iotjs_binding.h:274-284 | a whole native call changes the count of any object by the number of times the handler returned or threw it, and leaves no wrapper behind |

## Left out

- libuv and JerryScript are foreign code: libuv appears as arbitrary reports, polls and due timers, the engine as reference counts.
- Infinite runs: a script is finite. Safety statements hold for every finite part of an infinite run.
- Which user functions listen to events other than 'finish', and in what order: at such an emit user code runs.
- An error returned at once by the handle's write is ignored by the code, so the chunk never completes; statements about progress count completions.
- Duplexes.Duplex.Connect: the callback registered for 'connect' is part of the user code that runs at that event.
- Duplexes.Duplex.AfterWrite: whether a write was given a callback is not recorded; user code runs after each completion.
- Duplexes.Duplex.DestroyCloses: user code is idle, because user code can call destroy() again or divert the walk over the 'finish' listeners.
- Duplexes.Duplex.DestroySoonCloses: user code is idle for the same reason.
- Duplexes.Duplex.DrainedTooLate: user code is idle for the same reason; a second end of file, which the model lets the handle report, also closes the socket.
- Duplexes.Duplex.RunUser: user code does not call `push` or `_readyToWrite` on a socket, nor `_onwrite` on one or on a plain stream with nothing in flight, nor `emit('finish')` and `emit('end')`: these belong to implementers.
- The third argument that `_write` gets is `_onwrite` without its `this`; a plain stream's user code is taken to call `_onwrite` on the stream.
- Encodings and the conversion of strings to buffers; a chunk is bytes, or something that is not data.
- `emit` and `write` results (true, false, undefined), and handlers stored as bare functions, which no code path stores.
- Other changes of a timeout by user code than clearing and closing it; a delay that is not a number.
- Timers.Registry.Activate: user code activates no timeout again; `Timers.Registry.ActivateAgain` is what happens if it does.
- Bindings.ArgList.Set: the wrapper given must not be the one replaced, which the original reads after deleting it; object identity reuse in the engine is not modelled.
- EventOnce.OnceRunsOnceUncrossed: goes one way; emits that cross may be harmless, and what makes one harmful is `EventOnce.StaysIfStray`.
- Buffers.Buffer.Copy: a negative end is outside the domain of the original.
- Memory of removed list items: `RemoveItem` does not free, the other removals do.
- `Server`, address handling, the file system, the console, `module.js` path search, argument checks, flags and constants tables.
