# QR edge gateway: codec and job protocol

A Dafny model of the two parts of the QR edge gateway that are easiest to get wrong, and proofs about them.

**The framing path.** A serial emulator sends text as COBS frames (Consistent Overhead Byte Stuffing, Cheshire and
Baker, IEEE/ACM Transactions on Networking, 1999) ended by a zero byte. The service reads the port in short polls
against a time budget, cuts frames out of the byte stream and decodes them.

**The job protocol.** A request handler, the dispatcher's worker and the thread of the current job share a queue of core
operations, a running flag and a store of job results. A granted start must be matched by exactly one finish, a stop
must leave nothing behind, and every stored result must have been earned.

| file | content |
|---|---|
| `Cobs.dfy` | the code, block by block, and its laws |
| `CobsCodec.dfy` | the emulator's bounded encoder and frame builder, the unit tests' growing encoder, the service's decoder |
| `FrameReader.dfy` | the time-budgeted frame reader |
| `EndToEnd.dfy` | emulator, reader and decoder in a row |
| `CoreMachine.dfy` | the core state machine, its class, and laws about histories of operations |
| `JobStore.dfy` | the store of job results |
| `Dispatch.dfy` | the dispatcher under every interleaving of submitters, and its class |
| `JobWorker.dfy` | a job's thread with clock, running flag and stop requests |
| `JobRunner.dfy` | the job loop statement by statement, shown to follow `JobWorker` |
| `Protocol.dfy` | all threads together, the invariant and its proof |
| `JobHistory.dfy` | the log of jobs and the store |
| `Service.dfy` | what holds over every run of the service |
| `Requests.dfy` | what every request comes to |
| `Progress.dfy` | requests are answered, and nothing deadlocks |

How the model stands to the code:

- Loops over buffers are methods with loops over arrays or sequences; objects with fields are classes whose methods are
  proved against functions. What threads do together is a transition system: one event is one atomic action of one
  thread, a run is any sequence of enabled events, and a theorem about runs is about every interleaving.
- `poll`, `read` and `open` are scripts or free choices; a job's thread reads 1 to 256 bytes at a time, the reader alone is
  proved for chunks of any size.
- The clock counts whole milliseconds and moves only while a job's thread sleeps or polls, or is gone. A turn of the
  reader that ends in EINTR is not charged to the budget, so time bounds carry 50 ms for each of them.
- Requests are handled one at a time. The server is multithreaded and `JobRunner::start` and `stop` take no lock, so
  this is an assumption about its callers. The job's thread and the dispatcher's worker interleave freely.
- A handler waiting for the dispatcher may give up at any moment before its answer is there.
- In the dispatcher's class other threads push between two tasks of its worker; pushes while a task runs are in its
  transition system.
- Generated job ids are unused.
- Payloads, frames and stored values are sequences of bytes.

Where the code and its documentation or tests disagree, the model follows the code:

- The comment above the emulator's encoder promises that `in_len + in_len/254 + 1` bytes are enough. They are not:
  `CommentedCapacityFails` gives an input, `CommentedCapacity` says exactly when they are. The caller asks for one more.
- The API test expects that a job asked to stop while it waits never ends as DONE. `DoneAfterStopHappens` gives a run in
  which it does, `DoneDespiteStop` says exactly when.
- A start whose handler gave up can leave the core RUNNING with no job. `OrphanHappens` gives a run, `OneOwner` names it as
  the only exception, `OrphanedExactly` says when it holds in terms of what was granted, given up and run,
  `AbandonedExactly` which starts were given up, and `OrphanedUntilStop` that only a stop ends it.

## Model

| member | source | states |
|---|---|---|
| `Cobs.RoundTrip` | fake_serial/fake_serial.c:31-69 | decoding an encoding returns the original, for every byte sequence |
| `Cobs.EncodeInjective` | fake_serial/fake_serial.c:31-69 | different payloads have different encodings |
| `Cobs.EncodeZeroFree` | fake_serial/fake_serial.c:42-68 | the delimiter never occurs inside a frame |
| `Cobs.EncodeLength` | fake_serial/fake_serial.c:42-68 | an encoding has one byte more than its input plus one for every filled 254-byte block, of which there are at most length/254, and exactly that many without zeros |
| `Cobs.Reencode` | qr-c/src/app/JobRunner.cpp:41-60 | re-encoding what the decoder made of any zero-free frame gives the frame, or the frame and 0x01 exactly when it is empty or ends in a full block |
| `Cobs.EncodeIsCanonical` | qr-c/src/app/JobRunner.cpp:36-63 | the encoding is the only non-empty zero-free frame that decodes to its input and does not end in a full block |
| `Cobs.AcceptsExactly` | qr-c/src/app/JobRunner.cpp:36-63 | the decoder accepts a frame if and only if it falls into blocks as long as their non-zero code bytes say |
| `Cobs.OpenLength` | fake_serial/fake_serial.c:42-65 | the block an encoder has open holds the trailing run of non-zero bytes modulo 254 |
| `CobsCodec.EncodeBounded` | fake_serial/fake_serial.c:31-69 | with back-patched codes the encoder writes exactly the encoding, returns 0 exactly for a null buffer or when `Fits` fails, touches nothing beyond the capacity and, on success, nothing beyond the encoding |
| `CobsCodec.MisfitGrows` | fake_serial/fake_serial.c:42-65 | an encoder that runs out of room on a prefix cannot fit the whole input, so an early return is never premature |
| `CobsCodec.FitsExactly` | fake_serial/fake_serial.c:36-65 | the encoder's success in numbers: length, full blocks and trailing run of the input against the capacity |
| `CobsCodec.CommentedCapacity` | fake_serial/fake_serial.c:30-31 | the capacity the comment names is enough if and only if the input is empty, does not end by opening a block, or filled fewer blocks than its length allows |
| `CobsCodec.CommentedCapacityFails` | fake_serial/fake_serial.c:30-50 | one zero byte does not fit the capacity the comment names |
| `CobsCodec.GuardSuffices` | fake_serial/fake_serial.c:148-162 | every payload that passes the emulator's guard is at most 1018 bytes long, is encoded and leaves room for the delimiter in 1024 bytes |
| `CobsCodec.BuildFrame` | fake_serial/fake_serial.c:145-162 | the emulator sends the encoding and a zero for exactly the payloads of at most 1018 bytes |
| `CobsCodec.EncodeGrowing` | qr-c/src/tests/test_jobrunner.cpp:18-55 | the unit tests' encoder computes the same encoding as the emulator's |
| `CobsCodec.DecodeFrame` | qr-c/src/app/JobRunner.cpp:36-63 | the decoder accepts exactly the frames made of whole blocks and returns what they stand for |
| `FrameReader.ReadFrame` | qr-c/src/app/JobRunner.cpp:141-228 | the reader returns a frame exactly when the first zero arrives in time, unspoiled and after 1 to 4096 bytes, and it is then the bytes before the first zero of everything read |
| `FrameReader.ReadIffDelivers` | qr-c/src/app/JobRunner.cpp:146-227 | the same of the reader turn by turn, for every script; the frame does not depend on chunk boundaries |
| `FrameReader.ReadSound` | qr-c/src/app/JobRunner.cpp:153-227 | a returned frame names the turn that brought its delimiter, and no turn before it failed, was cancelled or overspent |
| `FrameReader.ReadComplete` | qr-c/src/app/JobRunner.cpp:153-227 | whenever such a turn exists the reader returns a frame |
| `FrameReader.ReadEnds` | qr-c/src/app/JobRunner.cpp:146-227 | every read ends at the first turn that stops it and for that reason: budget spent, flag clear, a failing turn, an empty or too long frame, or the end of a good one |
| `FrameReader.Collect` | qr-c/src/app/JobRunner.cpp:206-221 | the inner loop appends a chunk up to its first zero or to one byte over the limit |
| `FrameReader.BudgetHolds` | qr-c/src/app/JobRunner.cpp:148-225 | what is left is the budget less 50 ms a charged turn and never negative, at most ceil(budget/50) turns are not interrupted, and polling takes at most the budget and 50 ms for each interrupted turn |
| `EndToEnd.WireDelivers` | qr-c/src/app/JobRunner.cpp:146-227 | a wire frame that arrives within the budget, in any chunks and followed by anything, is read as the encoding it carries |
| `EndToEnd.Deliver` | docs/PROTOCOL.md:11-19 | emulator, reader and decoder together return the payload unchanged, for every payload of at most 1018 bytes |
| `CoreMachine.Core.Upper` | qr-c/src/core/Core.cpp:34-39 | the letters a to z become A to Z and every other character stays |
| `CoreMachine.Core.HandleSyncCommand` | qr-c/src/core/Core.cpp:41-89 | only INIT and STOP change the state, and INIT not while running; status, message and state of the answers to PING, INIT, STOP, START and unknown commands |
| `CoreMachine.Core.Start` | qr-c/src/core/Core.cpp:91-127 | only an initialised core starts; the grant and the three refusals |
| `CoreMachine.Core.Halt` | qr-c/src/core/Core.cpp:129-137 | a stop always succeeds and is answered 200 OK |
| `CoreMachine.Core.Finish` | qr-c/src/core/Core.cpp:139-167 | only a running core is changed; the success and the two refusals |
| `CoreMachine.CaseInsensitive` | qr-c/src/core/Core.cpp:34-45 | any two commands that differ only in the case of letters have the same effect and the same answer |
| `CoreMachine.EffectsByWord` | qr-c/src/core/Core.cpp:41-89 | which operations initialise, start, stop and finish, by kind and by word |
| `CoreMachine.ReplyIsHonest` | qr-c/src/core/Core.cpp:41-167 | every answer carries the state it leaves, its status is 200 or 202 exactly when it succeeds, and a refusal changes nothing |
| `CoreMachine.StateByHistory` | qr-c/src/core/Core.cpp:17-24 | the state after any operations, read off which came last: stopped iff a stop has no later INIT, running iff a start followed an INIT that no stop followed and no finish came later |
| `CoreMachine.StartsAreConserved` | qr-c/src/core/Core.cpp:91-167 | of any operations run in a row, the starts answered with a grant equal the finishes and stops that came right after an answer saying running, plus one if the core is running |
| `CoreMachine.StartsAreSeparated` | qr-c/src/core/Core.cpp:53-167 | between two starts answered with a grant lies a finish that ended the first, or a stop and a later INIT that was accepted |
| `JobStore.Store.Get` | qr-c/src/app/JobStore.hpp:41-45 | the result of a known id, an error for any other |
| `JobStore.Store.SetDone` | qr-c/src/app/JobStore.hpp:47-54 | records the value; an unknown id is an error and changes nothing; in every result a value is stored exactly when the job is done |
| `JobStore.Store.SetTimeout` | qr-c/src/app/JobStore.hpp:56-63 | records the timeout and drops any value |
| `JobStore.Store.SetCancelled` | qr-c/src/app/JobStore.hpp:65-72 | records the cancellation and drops any value |
| `Dispatch.Linearised` | qr-c/src/app/Dispatcher.hpp:206-265 | under every interleaving every answer is the one its operation gets when all operations run alone in push order, answers come in that order, and the core is where that leaves it |
| `Dispatch.RunConservesStarts` | qr-c/src/app/Dispatcher.hpp:221-265 | in every state of every interleaving, the granted starts among the operations run so far have each been ended once, by a finish or a stop, or the core is running for the one left |
| `Dispatch.RunSeparatesStarts` | qr-c/src/app/Dispatcher.hpp:221-265 | between two grants the answers given show a finish that took the core from running, or a stop and a later accepted INIT |
| `Dispatch.FulfilledOnce` | qr-c/src/app/Dispatcher.hpp:231-263 | a promise is fulfilled once, with its own turn's answer |
| `Dispatch.AnswersStay` | qr-c/src/app/Dispatcher.hpp:221-265 | an answer never changes |
| `Dispatch.DrainedAtExit` | qr-c/src/app/Dispatcher.hpp:187-230 | when the worker leaves, it was asked to and everything pushed so far has been answered |
| `Dispatch.Dispatcher.constructor` | qr-c/src/app/Dispatcher.hpp:104-104 | a dispatcher starts with nothing queued or answered |
| `Dispatch.Dispatcher.Submit` | qr-c/src/app/Dispatcher.hpp:121-213 | an operation is queued last and gets the next ticket |
| `Dispatch.Dispatcher.Stop` | qr-c/src/app/Dispatcher.hpp:187-198 | the first call waits until the worker has left, and everything pushed before and while it drained has been answered in order; a later call returns at once |
| `Dispatch.Dispatcher.RunOnCore` | qr-c/src/app/Dispatcher.hpp:238-253 | each kind of task runs the right core operation |
| `Dispatch.Dispatcher.ServeOne` | qr-c/src/app/Dispatcher.hpp:231-263 | the oldest task is taken, run and answered, and nothing else changes |
| `Dispatch.Dispatcher.Loop` | qr-c/src/app/Dispatcher.hpp:221-265 | with other threads pushing while it waits and between tasks, the worker's loop answers everything pushed in order, and leaves exactly when stopping |
| `JobWorker.StepInv` | qr-c/src/app/JobRunner.cpp:141-341 | every step of a job's thread, the clock or a stop request keeps flag, data, deadline, stop and pace bounds |
| `JobWorker.DecidesInTime` | qr-c/src/app/JobRunner.cpp:247-340 | a job decides by its deadline and 20 ms, plus 50 ms for each interrupted turn of its last read; done only with evidence and not past the deadline, timed out only past it, cancelled only if asked to stop |
| `JobWorker.StopsInTime` | qr-c/src/app/JobRunner.cpp:153-340 | a job asked to stop decides within 50 ms or the reopen delay, whichever is longer |
| `JobWorker.CanGoOn` | qr-c/src/app/JobRunner.cpp:255-340 | in every reachable state the thread or the clock can make a step |
| `JobWorker.PassesTakeTime` | qr-c/src/app/JobRunner.cpp:267-334 | with a reopen delay of at least 1 ms the thread starts over at most once a millisecond |
| `JobWorker.Progress` | qr-c/src/app/JobRunner.cpp:255-340 | every undisturbed step lowers a measure of time left and steps left in this millisecond; a stop request leaves it |
| `JobWorker.JobTerminates` | qr-c/src/app/JobRunner.cpp:242-341 | a job without interrupted turns ends after a number of steps bounded by its timeout, whatever is read and whenever it is stopped |
| `JobWorker.SpinsInPlace` | qr-c/src/app/JobRunner.cpp:271-282 | with a reopen delay of 0 ms it can start over any number of times within a millisecond |
| `JobWorker.DoneDespiteStop` | tests/test_api.py:136-169 | a job asked to stop ends as done if and only if its thread had already made its last look at the flag with a good frame in hand |
| `JobRunner.DoneAfterStopHappens` | qr-c/src/app/JobRunner.cpp:291-329 | a run that is asked to stop and ends as done |
| `JobRunner.ReadPath` | qr-c/src/app/JobRunner.cpp:141-228 | a whole read is a stretch of the thread's path, with the same result, time and view of the flag |
| `JobRunner.BroughtIsReceived` | qr-c/src/app/JobRunner.cpp:284-330 | the wire frame of a payload that arrives within a read's budget is read, decoded to that payload and not mistaken for a cancellation |
| `JobRunner.OutcomeIsDue` | qr-c/src/app/JobRunner.cpp:255-340 | of the outcome the job loop computes: cancelled only in a turn whose flag someone cleared, timed out only when the turns have used up the timeout, done only with a payload starting with "QR:" that a frame brought within the time left |
| `JobRunner.BroughtIsOutcome` | qr-c/src/app/JobRunner.cpp:267-330 | a payload starting with "QR:" that arrives in time, after any number of failed opens, is that outcome |
| `JobRunner.Runner.Conclude` | qr-c/src/app/JobRunner.cpp:261-264 | every exit of the job loop records its outcome, clears the flag and submits one finish |
| `JobRunner.Runner.Attempt` | qr-c/src/app/JobRunner.cpp:267-334 | one turn of the job loop decides exactly what the port and the flag say, takes exactly the time read plus 20 ms or the reopen delay when it decides nothing, never cancels a job nobody asked to stop, and follows the thread's path |
| `JobRunner.Runner.Decide` | qr-c/src/app/JobRunner.cpp:255-334 | the loop computes the outcome of the first deciding turn; a job nobody asks to stop is not cancelled |
| `JobRunner.Runner.RunJob` | qr-c/src/app/JobRunner.cpp:242-341 | that outcome is written to the store and one finish submitted, in time and with evidence; a payload that arrives in time is the outcome; without a stop request it is not cancelled; without interrupted turns there is one after at most timeout + 20 turns; every execution is a path of the thread |
| `Protocol.StepHub` | qr-c/src/app/Dispatcher.hpp:206-265 | every step of the service keeps the dispatcher's invariant |
| `Protocol.StepOwner` | qr-c/src/core/Core.cpp:91-167 | every step keeps this: the core is running exactly when one start has been granted that no stop and no finish run since has ended, and the owner is that start and no other |
| `Protocol.StepLive` | qr-c/src/adapters/rest/RestServer.cpp:357-366 | while a thread is live the core runs for it and no stop or finish is queued, because stop joins before it submits |
| `Protocol.StepFinish` | qr-c/src/app/JobRunner.cpp:261-265 | a queued finish is the only one, belongs to the start the core runs for, and has no stop ahead of it |
| `Protocol.StepClaim` | qr-c/src/adapters/rest/RestServer.cpp:296-322 | a handler that read its grant holds the core and nothing is queued |
| `Protocol.StepWait` | qr-c/src/adapters/rest/RestServer.cpp:296-304 | while a handler waits to start only a finish can follow its operation, and nothing once it is granted |
| `Protocol.StepStop` | qr-c/src/adapters/rest/RestServer.cpp:357-390 | a stop is pushed only after the thread is gone, and the core is stopped once it has run |
| `Protocol.StepPlace` | qr-c/src/adapters/rest/RestServer.cpp:296-322 | the right to run is never lost |
| `Protocol.StepOrphan` | qr-c/src/adapters/rest/RestServer.cpp:296-298 | a start that was given up and granted keeps the core until a stop runs: no finish can end it |
| `Protocol.StepAsk` | qr-c/src/app/JobRunner.cpp:343-348 | every step keeps this: a live job has been asked to stop exactly while a stop request waits for it |
| `JobHistory.StepLog` | qr-c/src/app/JobRunner.cpp:230-341 | every step keeps the log a sequence of created, outcome, finish triples with distinct ids |
| `JobHistory.StepStore` | qr-c/src/app/JobStore.hpp:29-72 | every step keeps the store equal to what the log says |
| `JobHistory.StepStartsMatch` | qr-c/src/adapters/rest/RestServer.cpp:296-322 | every job was created for a granted start operation and has its timeout; `Service.AskedFor` ties the operation to the request |
| `JobHistory.StepRise` | qr-c/src/adapters/rest/RestServer.cpp:296-322 | a job's start came after the starts and finishes of all earlier jobs, so no start makes two jobs |
| `JobHistory.StepFinishes` | qr-c/src/app/JobRunner.cpp:261-265 | the dispatcher's history holds one finish for every completed job, after its start, and no other |
| `JobHistory.PendingIsCurrent` | qr-c/src/app/JobStore.hpp:19-33 | a job is pending exactly while it is the one under way and undecided |
| `Service.OneOwner` | qr-c/src/adapters/rest/RestServer.cpp:296-322 | the core is RUNNING exactly when one of these holds, and never two: a granted start not yet turned into a thread, a thread that has not submitted its finish, a finish not yet run, a granted start whose handler gave up |
| `Service.OrphanedExactly` | qr-c/src/adapters/rest/RestServer.cpp:296-298 | the last holds if and only if some start that was given up has been granted and the core has run no stop since |
| `Service.AbandonedExactly` | qr-c/src/adapters/rest/RestServer.cpp:296-298 | a start counts as given up if and only if its handler's wait timed out |
| `Service.OrphanHappens` | qr-c/src/adapters/rest/RestServer.cpp:296-298 | a run in which it does |
| `Service.OrphanedUntilStop` | qr-c/src/core/Core.cpp:53-111 | an orphaned core stays so, and no job is created, until a stop runs |
| `Service.FinishEndsItsOwnJob` | qr-c/src/core/Core.cpp:139-167 | every finish runs while the core is running for its own job's start, which nothing has ended before, so it is accepted and ends no other |
| `Service.StopEndsOnlyOrphans` | qr-c/src/adapters/rest/RestServer.cpp:361-366 | a stop that finds the core running finds it orphaned: every job's finish has run before the stop |
| `Service.StartsAreAccountedFor` | qr-c/src/core/Core.cpp:91-167 | at any moment the granted starts equal the finishes the core has run, plus the stops that ended an orphan, plus one if it is running |
| `Service.StartCancelsNobody` | qr-c/src/app/JobRunner.cpp:230-240 | the stop inside an accepted start always finds the previous thread gone and its finish run |
| `Service.AskedFor` | qr-c/src/adapters/rest/RestServer.cpp:233-366 | every operation the dispatcher gets was asked for: a finish by the job's thread, a start with its timeout and a command with its text, uppercased, by the request arriving at that moment, a stop by an earlier stop request |
| `Service.StopReachesTheJob` | qr-c/src/app/JobRunner.cpp:343-348 | /stop and the command STOP ask the job to stop: a live job has been asked exactly while such a request waits for it, and decides within 50 ms or the reopen delay |
| `Service.CancelledWasAskedFor` | qr-c/src/app/JobRunner.cpp:291-340 | a job is cancelled only if a stop request came |
| `Service.QuietUnlessRunning` | docs/ARCHITECTURE.md:60-66 | whenever the core is not running, no thread is live, no finish is queued and no job is pending |
| `Service.StopAnswers` | qr-c/src/adapters/rest/RestServer.cpp:361-389 | when the answer to /stop or /command STOP is there it is a success, the core is stopped, no thread is live, nothing is queued and no job is pending |
| `Service.StaysStopped` | qr-c/src/core/Core.cpp:53-69 | after a stop, until a command whose uppercase form is INIT runs, the core stays stopped and no job is created, decided or finished |
| `Service.EachJobOnce` | qr-c/src/app/JobRunner.cpp:230-341 | every job gets exactly one outcome and after it exactly one finish; only the last may lack them; no two jobs share an id or a granted start |
| `Service.OneFinishEach` | qr-c/src/app/JobRunner.cpp:255-341 | the dispatcher gets one finish for every completed job and no other |
| `Service.CreatedAlone` | qr-c/src/app/JobRunner.cpp:230-240 | when a job is created all earlier jobs have outcome and finish |
| `Service.AtMostOnePending` | qr-c/src/app/JobStore.hpp:19-33 | at most one job is ever pending |
| `Service.WritesFindTheJob` | qr-c/src/app/JobStore.hpp:47-72 | the thread always finds its job, pending, so recording an outcome never throws |
| `Service.ResultsAreFinal` | qr-c/src/app/JobStore.hpp:47-72 | a result that is not pending never changes |
| `Service.ResultsAreEarned` | qr-c/src/app/JobRunner.cpp:230-340 | every job was created for a granted start that a /start request asked for; its deadline is that request's timeout; a value is stored exactly for done jobs and is the decoding, starting with "QR:", of the frame its job read in time; timed out only after the deadline, cancelled only after being asked to stop, and always within the time bounds |
| `Requests.CarriedOut` | qr-c/src/adapters/rest/RestServer.cpp:232-389 | every request is carried out as asked: when its handler is ready again its wait has timed out with its own operation unanswered, or a start was refused or became a job with the timeout asked for, a stop left nothing running, a command was answered by the core |
| `Progress.StepFalls` | qr-c/src/adapters/rest/RestServer.cpp:232-366 | while a handler is busy, every undisturbed step of any thread is one of the steps remaining |
| `Progress.RequestsAreAnswered` | qr-c/src/adapters/rest/RestServer.cpp:233-366 | without interrupted turns and with a reopen delay of at least 1 ms, a busy handler replies before the threads have made more steps than a number fixed by its place, the queue and the job's timeout, whatever the schedule |
| `Progress.NoDeadlock` | qr-c/src/adapters/rest/RestServer.cpp:233-366 | while a request is served some thread can make such a step without any wait timing out |

## Left out

- Several requests at once: handlers call `JobRunner::start` and `stop` on one thread object without a lock, so what happens then is not defined by the code.
- `JobRunner::start`, `JobRunner::stop` and the request handlers are steps of the transition system in `Protocol.dfy`, not methods: other threads act between their statements, which a method's contract cannot say.
- Shutdown: in `Protocol.dfy` the dispatcher is never asked to stop; its stop and drain are in `Dispatch.dfy`.
- The dispatcher's catch-all answer ERR:INTERNAL: no core operation throws.
- Optional `jobId` and `qr` fields of a core response: the core never sets them.
- What the decoder leaves in its output when it rejects a frame, and the reader in its frame when it returns none: the service ignores both.
- Serial port configuration, baudrate, sockets, sending, signals and real sleeps.
- JSON parsing, validation of numeric fields and response bodies in the REST adapter; /health, /status and /result, which only read.
- Reads of the core's state by handlers outside the dispatcher: unsynchronised, so they promise nothing.
- Machine integers: lengths and times are unbounded; code bytes are 8 bits wide and shown not to overflow.
- Fractions of a millisecond: the code truncates the time left to whole milliseconds.
- The MQTT gateway, command line, logging, environment parsing and deployment files.
