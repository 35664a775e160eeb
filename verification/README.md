# The libolptnet reactor, modelled and proved in Dafny

libolptnet runs one thread per `ServiceLoop`. The loop keeps a table from descriptors to handlers,
asks one of three event dispatchers (select, poll, epoll) which descriptors are ready, calls the
handlers back one after another, and then runs the tasks other threads have posted. The callbacks
change the table, and even delete handlers, in the middle of a batch. A `ConnectionHandler` keeps an
input and an output buffer, and arms and drops write interest as output comes and goes.

The project has two layers.

* **State machine** (`LoopTable`, `Connections`, `ReactorModel`): one reactor thread over values. A run
  is a sequence of labels that hold every answer of the kernel and every choice of user code: which
  events are ready, what each `recv` and `send` returns, what `on_read` sends and consumes, which
  handlers are opened and closed, which registrations epoll refuses, which tasks are posted, and when
  other threads push or quit. `ReactorSafety`, `NonEmptySends`, `Stalls`, `Progress`, `InputOrder`,
  `StaleEvents`, `OnReadSends` and `EchoServer` prove theorems about all runs; `Callbacks` and
  `Evolution` say what one callback and one step do, `Turns` builds concrete runs, and `LosingRuns`
  those that lose bytes.
* **Classes** (`Streams`, the three dispatchers, `ThreadQueues`, `Reactor`, `Timers`,
  `AcceptorServers`, `PyReactor`): the source's objects, with their loops and updates in place, each
  method proved to be the step of the state machine. `Reactor.ServiceLoop.Run` is the nested loop of
  `ServiceLoop::run`; its contract says which run of the state machine leads to the heap it leaves,
  as a function of what the kernel, user code and other threads did (`RunLabels`), so every theorem
  about runs is a theorem about it.

A buffer is a `std::stringstream`: a content and a put position. `str(x)` puts the position back at
0 (`basic_stringbuf::str`, section 27.7.1.2 of ISO/IEC 14882:2003) and `write` overwrites from the
position on. A buffer is *clean* when the position stands at the end. Each buffer of a connection
carries the history of its puts and takes. Hence the main theorems:

* **Order of the output** (`ReactorSafety.OutputInOrderIff`). In every run of every backend, with user
  code sending from wherever it likes, the bytes on the wire followed by those that wait are all that
  was sent, in order, if and only if every put of the connection's history found a clean buffer.
  `ReactorSafety.InputInOrderIff` says the same of the bytes received.
* **Only on_read sends** (`OnReadSends.FifoOnEpoll`). On epoll, when nothing but `on_read` sends, the
  output is always in order, whatever `on_read` sends and consumes. On every backend the exact
  condition is that no readable event whose `on_read` has something to send meets unsent bytes behind
  the put position (`OnReadSends.FifoIffNeverDirty`).
* **Echo** (`EchoServer.EchoIffEpoll`). The example server gives each peer its own bytes back in
  order, in every run, exactly on the epoll backend. Epoll turns a (read, write) request into
  write-only interest, so a connection with waiting output is not read, and the `send` of `on_read`
  meets an empty buffer.

## What the proofs found

Each line names the lemma that holds the concrete input or the exact condition.

* On select and poll the echo example loses bytes: two arrive, one is sent, a third arrives and takes
  the place of the second (`EchoServer.EchoFailsElsewhere`). On every backend, epoll included, a task
  that sends to a connection with a partly sent buffer does the same (`LosingRuns.SendElsewhereLoses`).
* An `on_read` that returns a length within its input and short of its end leaves the put position
  before what it left, and the next read replaces that (`LosingRuns.PartialReadLoses`). A length out
  of range leaves everything, and loses nothing. In every run the input is in order exactly when no
  `on_read` but the last returned such a length (`InputOrder.InOrderIffNothingLeft`).
* The loop remembers descriptors, not handlers: when a callback frees a descriptor that has an event
  left in the batch and another handler is opened on it, that handler gets the event
  (`StaleEvents.EventReachesNewHandler`). It always is the handler that was polled or one born since
  (`StaleEvents.PolledOrYounger`).
* A `send` of nothing into an empty buffer arms write interest; on epoll the connection is from then
  on not polled for reading, because `do_handle_write` drops the interest only after it has sent
  something. A readable event that is already in the batch is still dispatched; without one, the
  connection is not read until a byte is sent to it or it closes (`Stalls.StallsUntilSend`).
* Urgent data is read under poll, reported as an error under select, on which a connection closes, and
  not seen under epoll; select and poll report the same batch exactly when urgent data comes with an
  error or hang-up and only then, and no error is pending on a full descriptor watched for writing
  (`DispatcherAgreement.UrgentDataDiffers`, `DispatcherAgreement.AgreeIff`).
* `input_stream_buffer::read` returns -1 when an error, `EWOULDBLOCK` included, follows full 64 KiB
  chunks: the connection is closed and the bytes are lost (`Streams.FullChunkThenErrorFails`,
  `Streams.ReadSucceedsIff`). That is the answer of a non-blocking socket; see "Left out".
* A descriptor added twice to the poll vector is still watched after one `del_event`
  (`PollDispatcher.AddedThenErased`); modifying an unregistered descriptor leaves select with bits
  that the table does not know (`SelectDispatcher.DispatcherSelect.ModEvent`).
* `DispatcherEpoll::del_event` increments `fd_count_`, also for a descriptor epoll does not know. The
  count never falls below the number of registered descriptors, so one wait still suffices
  (`EpollDispatcher.DispatcherEpoll.OneWaitSuffices`).
* `TimerHandler::stop` hands `timerfd_settime` a null pointer, so the kernel's timer keeps running;
  it also forgets that the timer repeats (`Timers.StopForgetsRepeat`), and a one-shot that starts
  itself again in `on_timer` is stopped right after (`Timers.RearmedIff`). An interval below one
  nanosecond disarms the timer (`Timers.SplitAcceptedIff`).
* The Python `SocketBuffer.take` rewinds but does not truncate: a message shorter than an earlier one
  comes back with the tail of the longer one, and the second buffer of a connection passes that on
  (`PyReactor.TakeExactIff`, `PyReactor.PyEchoIff`).

## Model

| member | source | states |
|---|---|---|
| EchoServer.EchoIffEpoll | src/example/example-1.cc:26-32 | For each backend: all echo runs keep wire + waiting output = bytes received, for every open connection, if and only if the backend is epoll |
| EchoServer.EchoOnEpoll | src/net/connection_handler.cc:66-124 | On epoll, in every echo run and for every open connection, wire followed by waiting output is exactly what was received, which is what was handed to on_read and what was sent |
| EchoServer.EchoFifoIff | src/net/stream_buffer.cc:106-109 | On every backend the echo of an open connection is exact if and only if no readable event met unsent bytes behind the put position |
| EchoServer.EchoFailsElsewhere | src/net/dispatcher/select.cc:82-103 | On select and poll there is a run that receives 1, 2, 3 and whose output is 1, 3 |
| EchoServer.EchoOnce | src/example/example-1.cc:26-32 | One positive read of an echo session puts exactly the bytes read, empties the input buffer, and overwrites waiting bytes if and only if the output is not clean |
| EchoServer.EchoRunKeeps | src/net/service_loop.cc:182-225 | In every echo run each open connection has an empty input buffer between callbacks, and received = delivered = sent |
| OnReadSends.FifoOnEpoll | src/net/dispatcher/epoll.cc:87-106 | On epoll, in every run in which only on_read sends, whatever it sends and consumes, wire followed by waiting output is exactly what was sent; this covers the handlers of example-1.cc and service_handler.cc |
| OnReadSends.FifoIffNeverDirty | src/net/connection_handler.cc:66-153 | On every backend, on such runs, the output is in order if and only if no readable event whose on_read has something to send met unsent bytes behind the put position |
| OnReadSends.EpollNeverDirty | src/net/dispatcher/epoll.cc:87-106 | On epoll no event left in a batch reads a session with waiting output, whatever earlier callbacks of the batch did, so no run is dirty |
| OnReadSends.BatchKept | src/net/service_loop.cc:203-218 | Each step of the loop keeps the batch free of readable events for sessions with waiting output |
| OnReadSends.DispatchEffect | src/net/service_loop.cc:208-217 | One dispatched event changes only the session it is for, which becomes exactly what its callback makes of it; sessions opened meanwhile are fresh |
| OnReadSends.QuietExec | src/net/service_loop.cc:220-222 | User code that only opens, closes and posts leaves the surviving connections untouched |
| Callbacks.HandleEffect | src/net/service_loop.cc:210-217 | A callback removes its handler or makes its connection a function of what it was; no other handler, no task and no queue changes, and the trace gains that call |
| Callbacks.ReadMeans | src/net/connection_handler.cc:66-80 | on_read is handed all the input there is; what it sends is put in the order of its sends, and what it returns is consumed |
| Callbacks.ActMeans | src/net/connection_handler.cc:37-64 | What each action of user code does: a send puts its data, a close or stop removes handler and registration, an open registers a new handler for reading |
| Callbacks.ConnAfterLoses | src/net/connection_handler.cc:66-153 | A callback loses output of its connection exactly when it is a read whose on_read has something to send and finds the output not clean |
| Callbacks.OneReadAtATime | src/net/connection_handler.cc:66-80 | From an empty input buffer on_read is handed exactly the bytes of one read, and the buffer is empty again if and only if on_read consumed them all |
| LosingRuns.SendElsewhereLoses | src/net/connection_handler.cc:143-153 | On every backend there is a run in which tasks send 1, 2 and then 3, and whose output is 1, 3 |
| LosingRuns.PartialReadLoses | src/net/stream_buffer.h:40-47 | On every backend there is a run that receives 1, 2 and then 3, consumes 1, and is left with 3 |
| Progress.NothingStranded | src/net/connection_handler.cc:82-124 | On every backend, once as many writable events were accepted as bytes were waiting, with no send to the connection since, nothing waits, write interest is gone, and the connection is watched for reading again |
| Progress.RunDrains | src/net/connection_handler.cc:82-124 | Over every continuation without sends to the connection, each accepted writable event takes at least one waiting byte off it |
| StaleEvents.PolledOrYounger | src/net/service_loop.cc:203-218 | In every run the handler an event of a batch is dispatched to is the one whose descriptor was polled, or was born since that poll |
| StaleEvents.EventReachesNewHandler | src/net/service_loop.cc:208 | On every backend there is a run in which an event polled for one handler is dispatched to another, born since on the same descriptor |
| InputOrder.InOrderIffNothingLeft | src/net/connection_handler.cc:77-78 | In every run of every backend everything received is consumed or waits, in order, if and only if no on_read but the last returned a length in range and short of its input |
| InputOrder.OneReadEachTime | src/net/connection_handler.cc:66-80 | In every run a handler that always consumes everything is handed exactly the bytes of one read each time, the next one too, and in all everything that was received |
| Evolution.StepEvolves | src/net/service_loop.cc:182-225 | In one step, whatever user code does, a handler that stays keeps its descriptor, and its connection changes by its own callback and by sends only |
| Stalls.StallsUntilSend | src/net/connection_handler.cc:131-153 | On epoll, from a state with an idle session and no read of it in the batch, every continuation that sends no byte to it, further empty sends included, never reads it and leaves it as it is until it closes |
| Stalls.IdleReached | src/net/connection_handler.cc:143-153 | A run that opens a session and sends it nothing ends in such a state |
| Stalls.EmptySendIdles | src/net/connection_handler.cc:143-153 | A zero-length send into an empty buffer makes the session idle |
| ReactorSafety.RunKeeps | src/net/service_loop.cc:182-225 | Table, connection, life-cycle and task invariants hold in every reachable state of every backend |
| ReactorSafety.NoCallbackAfterClose | src/net/service_loop.cc:203-218 | In every run the pointer a dispatch finds is to an existing handler under the event's descriptor; in the trace each handler is born before anything else, dies at most once, and is not called after that |
| ReactorSafety.TableAgrees | src/net/service_loop.cc:122-167 | In every reachable state, with refused registrations and deletions, the non-null entries of the table are exactly the watched descriptors, and they point one to one to the existing handlers |
| ReactorSafety.ArmedIffPending | src/net/connection_handler.cc:112-153 | In every run write interest of a session is armed exactly while bytes wait or the last send put nothing into an empty buffer; epoll then drops read interest |
| NonEmptySends.ArmedExactlyWhilePending | src/net/connection_handler.cc:112-153 | On runs without zero-length sends write interest is armed exactly while bytes wait, and on epoll read interest exactly while none do |
| NonEmptySends.RunFull | src/net/connection_handler.cc:143-153 | Such runs never leave a session whose last send put nothing, through callbacks, tasks and the tasks they post |
| ReactorSafety.OutputInOrderIff | src/net/connection_handler.cc:82-153 | In every run of every backend, whoever sends: the output buffer is what its history made it, each byte put is on the wire, waits, or was replaced (as multisets), and wire + waiting = all that was put, in order, if and only if every put found a clean buffer |
| ReactorSafety.InputInOrderIff | src/net/connection_handler.cc:66-80 | The same of the input, by its put position: everything received is consumed or waits, in order, if and only if every read found a clean input buffer |
| ReactorSafety.EmptySendStalls | src/net/connection_handler.cc:131-141 | Right after a zero-length send into an empty buffer a poll does not report the session readable, and a writable event changes nothing |
| ReactorSafety.TasksExactlyOnce | src/base/thread_queue.h:31-49 | In every run pushes = executed tasks, then the popped one, then the queue, in lock order; the empty functor is never called |
| ReactorSafety.DispatchKeeps | src/net/service_loop.cc:203-218 | One turn of the dispatch loop keeps all invariants, whatever the callback does, and takes one event off the batch |
| ReactorSafety.NextKeeps | src/net/service_loop.cc:208 | The NULL-inserting lookup keeps the invariants and finds exactly the handler registered under the descriptor |
| ReactorSafety.RetireKeeps | src/net/connection_handler.cc:53-64 | Closing a handler keeps table, connections and life cycles consistent |
| ReactorSafety.StopKeeps | src/net/service_loop.cc:152-167 | Stopping a handler keeps them, also when epoll refuses to delete it |
| ReactorSafety.CreateKeeps | src/net/connection_handler.cc:37-51 | Opening a handler on a free descriptor keeps them too, also when epoll refuses the registration |
| ReactorSafety.SendKeeps | src/net/connection_handler.cc:143-153 | send keeps the ledger and the write-interest invariant |
| ReactorSafety.HandleWriteKeeps | src/net/connection_handler.cc:82-124 | do_handle_write keeps them, whatever send returns, dropping interest only when the buffer drains |
| ReactorSafety.HandleReadKeeps | src/net/connection_handler.cc:66-80 | do_handle_read keeps them, on the closing path and on the on_read path |
| ReactorSafety.StepKeeps | src/net/service_loop.cc:182-232 | Every step, including pushes and quits of other threads at any moment, keeps the invariants |
| ReactorModel.LifeMeaning | src/net/connection_handler.cc:37-64 | An unbroken life means birth first, at most one death, nothing after it |
| ReactorModel.ExecQueue | src/net/service_loop.cc:220-222 | Running a posted functor adds to the queue exactly what its body posts |
| ReactorModel.FrontSize | src/net/service_loop.cc:220-222 | Popping takes exactly the front task's share off the drain loop's measure |
| LoopTable.AgreementKept | src/net/service_loop.cc:122-167 | register of a fresh descriptor, modify of a registered one, delete, failed epoll calls and the lookup all keep the table in agreement with the dispatcher; a lookup finds a handler exactly for watched descriptors |
| LoopTable.CallsMean | src/net/service_loop.cc:122-167 | When register, modify, delete and the lookup succeed, what they change then, and that they change nothing otherwise |
| LoopTable.MeaningIs | src/net/dispatcher/epoll.cc:92-96 | Epoll watches for writing only once writing is asked for; select and poll for what is asked |
| Connections.FifoIffCleanPuts | src/net/stream_buffer.cc:101-109 | Over every history of puts and takes the ledger of a buffer balances byte by byte, and the buffer is first-in first-out if and only if every non-empty put met a clean one |
| Connections.PutKeepsLedger | src/net/stream_buffer.cc:101-109 | A put keeps the ledger, and replaces nothing exactly when the buffer is clean or the data empty |
| Connections.TakeKeepsLedger | src/net/stream_buffer.h:40-47 | Taking a prefix moves bytes and loses none; a length out of range takes nothing |
| Connections.UncleanPutLoses | src/net/stream_buffer.cc:106-109 | Put x, y, take one, put z: what was taken and what waits are x, z |
| Connections.FlushesSendAPrefix | src/net/connection_handler.cc:82-124 | Any number of do_handle_write calls with no put between them sends a prefix of what waited and keeps the rest in order |
| Connections.FlushCleanIff | src/net/stream_buffer.h:40-47 | A flush that sent something leaves the buffer clean exactly when it drained it |
| Connections.SentIsOffered | src/net/connection_handler.cc:86-123 | do_handle_write sends as much as waits and as the kernel has room for before it first blocks, fails or takes nothing |
| Connections.FlushSends | src/net/connection_handler.cc:82-124 | Those first bytes go out and the rest waits |
| Connections.EmitStep | src/net/connection_handler.cc:110-121 | One accepted send followed by the rest of the loop is the whole loop |
| Connections.SendTerminates | src/net/connection_handler.cc:86-123 | The write loop calls send at most once a waiting byte, once an interrupt, and once more |
| Streams.Write | src/net/stream_buffer.cc:101-104 | A write of n bytes replaces min(n, content - position) waiting bytes and extends the content by the others |
| Streams.WriteAppendsIffClean | src/net/stream_buffer.cc:106-109 | A write appends if and only if the buffer is clean or the data empty, and keeps a clean buffer clean |
| Streams.FullChunks | src/net/stream_buffer.cc:59-79 | The read loop passes exactly the full chunks before the first result that is not one |
| Streams.ReadSucceedsIff | src/net/stream_buffer.cc:52-82 | read is positive exactly when it ends on data, or on end of file after a full chunk; zero exactly on immediate end of file; its bytes are the full chunks and the short one |
| Streams.FullChunkThenErrorFails | src/net/stream_buffer.cc:62-66 | A full chunk followed by an error returns -1 although the bytes were written |
| Streams.StreamBuffer.Read | src/net/stream_buffer.cc:52-82 | From an empty buffer the content is the full chunks one after another, in the order recv gave them, and then the short chunk; the result is their number, or -1 and the errno |
| Streams.ReceivedChunked | src/net/stream_buffer.cc:59-79 | The bytes of one read, chunk by chunk |
| Streams.StreamBuffer.IgnoreBytes | src/net/stream_buffer.h:40-47 | ignore drops the first bytes and puts the position back at 0, or does nothing when out of range |
| Streams.StreamBuffer.Put | src/net/stream_buffer.cc:101-109 | put writes at the put position |
| Streams.StreamBuffer.Clear | src/net/stream_buffer.h:35-38 | clear leaves the empty stream |
| Streams.StreamBuffer.Empty | src/net/stream_buffer.h:80-83 | empty tells whether nothing waits |
| Streams.StreamBuffer.Copy | src/net/stream_buffer.cc:21-27 | A copy has the same content and is clean |
| DispatcherAgreement.SelectAndPollAgree | src/net/dispatcher/poll.cc:56-155 | After any valid history both dispatchers hold the same table and report exactly what their system calls see, select ascending; the READ and WRITE pairs agree, and the batches agree, exactly under stated conditions on the kernel's state |
| DispatcherAgreement.AgreeIff | src/net/dispatcher/select.cc:144-161 | The two conditions, as if-and-only-ifs: on errors, hang-ups and urgent data of the registered descriptors |
| DispatcherAgreement.UrgentDataDiffers | src/net/dispatcher/poll.cc:137-150 | Urgent data on a descriptor watched for reading: poll reports READ, select reports ERROR |
| Dispatching.ScanExact | src/net/dispatcher/select.cc:144-161 | A scan that visits every registered descriptor once reports exactly what is ready and asked for, each event once |
| Dispatching.ScanAscends | src/net/dispatcher/select.cc:144-161 | A scan by ascending descriptor reports ascending descriptors |
| SelectDispatcher.DispatcherSelect.AddEvent | src/net/dispatcher/select.cc:60-80 | The descriptor is added to the table, or its interest widened, and stays below the high-water mark |
| SelectDispatcher.DispatcherSelect.ModEvent | src/net/dispatcher/select.cc:82-103 | The interest of a registered descriptor is replaced; for an unregistered one the sets stay consistent only without interest |
| SelectDispatcher.DispatcherSelect.DelEvent | src/net/dispatcher/select.cc:105-112 | The descriptor leaves the table; the high-water mark stays |
| SelectDispatcher.DispatcherSelect.HandleEvents | src/net/dispatcher/select.cc:114-165 | The scan up to the high-water mark reports exactly what select sees of registered descriptors, each pair once, ascending; the result is their number |
| PollDispatcher.DispatcherPoll.AddEvent | src/net/dispatcher/poll.cc:56-72 | A fresh descriptor is added to the table; a registered one breaks the vector's invariant |
| PollDispatcher.DispatcherPoll.ModEvent | src/net/dispatcher/poll.cc:74-101 | The linear search replaces the interest of a registered descriptor and fails exactly on an unregistered one |
| PollDispatcher.DispatcherPoll.DelEvent | src/net/dispatcher/poll.cc:103-117 | The first entry of the descriptor is erased, which removes it from the table |
| PollDispatcher.DispatcherPoll.HandleEvents | src/net/dispatcher/poll.cc:119-155 | The scan reports exactly what poll sees, in vector order, each pair once; the result is the number of descriptors with an event |
| PollDispatcher.Erased | src/net/dispatcher/poll.cc:113-114 | Erasing the entry of a descriptor from a vector without duplicates removes that descriptor and no other |
| PollDispatcher.Replaced | src/net/dispatcher/poll.cc:87-96 | Overwriting the first entry changes the interest of that descriptor only |
| PollDispatcher.AddedThenErased | src/net/dispatcher/poll.cc:103-117 | After add and delete the vector still watches the descriptor exactly when it did before |
| EpollDispatcher.DispatcherEpoll.AddEvent | src/net/dispatcher/epoll.cc:64-85 | Write-only interest when writeable, read-only otherwise; refused for a registered descriptor or by the kernel, and then nothing changes; the count still bounds the table |
| EpollDispatcher.DispatcherEpoll.ModEvent | src/net/dispatcher/epoll.cc:87-106 | The same for a registered descriptor, with ENOENT for an unregistered one |
| EpollDispatcher.DispatcherEpoll.DelEvent | src/net/dispatcher/epoll.cc:108-124 | An unknown descriptor is no failure; success removes and counts up; the count still bounds the table |
| EpollDispatcher.DispatcherEpoll.OneWaitSuffices | src/net/dispatcher/epoll.cc:126-131 | The array sized by fd_count_ has room for every ready descriptor at once |
| EpollDispatcher.DispatcherEpoll.HandleEvents | src/net/dispatcher/epoll.cc:126-167 | For each descriptor epoll_wait returned: READ exactly when reading was asked for and input is there, WRITE when writing was and there is room, ERROR on error or hang-up, in that order; a zero count fails with EINVAL |
| DispatcherAgreement.EpollAgreesIff | src/net/dispatcher/epoll.cc:147-160 | On one table of interests epoll and poll report the same if and only if no urgent data without input is pending on a descriptor watched for reading |
| SelectDispatcher.SelectSays | src/net/dispatcher/select.cc:146-159 | What an exact batch of select says of each descriptor, in the kernel's five sets |
| PollDispatcher.PollSays | src/net/dispatcher/poll.cc:137-150 | The same of poll |
| Dispatching.ScanKinds | src/net/dispatcher/select.cc:146-159 | A scan reports a descriptor readable before writable before in error |
| EventDispatchers.Dispatcher.AddEvent | src/net/event_dispatcher.h:38 | One contract for the three: when it succeeds, and what each backend then watches for |
| EventDispatchers.Dispatcher.ModEvent | src/net/event_dispatcher.h:39 | The same for mod_event, with each backend's errno |
| EventDispatchers.Dispatcher.DelEvent | src/net/event_dispatcher.h:40 | The same for del_event |
| EventDispatchers.Dispatcher.HandleEvents | src/net/event_dispatcher.h:41 | Every batch holds events that were asked for, of registered descriptors, each once, and misses none; on epoll provided the kernel's search finds every ready descriptor |
| EventDispatchers.PicksAll | src/net/dispatcher/epoll.cc:126-131 | With room for every registered descriptor epoll_wait leaves out none it finds |
| EventDispatchers.CreateDispatcher | src/net/event_dispatcher.cc:17-32 | 0, 1, 2 give select, poll, epoll, empty and valid; any other number gives none |
| Reactor.ServiceLoop.constructor | src/net/service_loop.cc:88-103 | A new loop is the initial state of the machine on its backend after the wakeup handler was registered |
| Reactor.ServiceLoop.SetupStep | src/example/example-1.cc:63-70 | What the loop's thread does outside run, such as opening the acceptor, is one step of the machine |
| Reactor.ServiceLoop.RegisterEvent | src/net/service_loop.cc:122-133 | The table and the dispatcher gain the descriptor together, or neither does and the errno is returned |
| Reactor.ServiceLoop.ModifyEvent | src/net/service_loop.cc:135-150 | Interest and handler are replaced together, or neither |
| Reactor.ServiceLoop.DeleteEvent | src/net/service_loop.cc:152-167 | Both lose the descriptor, or neither; a descriptor not in the table is no failure |
| Reactor.ServiceLoop.HandlerAt | src/net/service_loop.cc:208 | The lookup inserts NULL for a missing descriptor |
| Reactor.ServiceLoop.AddRun | src/net/service_loop.cc:169-172 | add_run appends to the queue and touches no handler |
| Reactor.ServiceLoop.CallHandler | src/net/service_loop.cc:210-217 | The virtual call by kind of event is the machine's handler step |
| Reactor.ServiceLoop.Dispatch | src/net/service_loop.cc:203-218 | One turn of the for loop is the machine's dispatch step |
| Reactor.ServiceLoop.DispatchAll | src/net/service_loop.cc:203-218 | The for loop dispatches every event of the batch once, in order, each with its callback |
| Reactor.ServiceLoop.Drain | src/net/service_loop.cc:220-222 | The drain loop ends, leaves the queue empty, and takes exactly a pop, and then a call and a pop for each functor it finds |
| Reactor.ServiceLoop.Run | src/net/service_loop.cc:182-225 | The steps run takes are exactly those of its turns until it finds quit set: what arrived, one poll, one dispatch an event in order with that turn's callbacks, then pops and calls until the queue is empty, with the pushes and quits of other threads where they came |
| Reactor.ServiceLoop.Turn | src/net/service_loop.cc:184-224 | One turn takes those steps, and leaves the queue empty |
| Reactor.ServiceLoop.PollStep | src/net/service_loop.cc:188-189 | The wait reports exactly what the backend sees of the kernel's state among the interests of that moment, nothing when it faults; on epoll provided its search finds every ready descriptor |
| RunLabels.OneEventTurn | src/net/service_loop.cc:203-222 | A turn with one event, one callback and no functor is poll, dispatch, pop |
| Reactor.ServiceLoop.QuitStep | src/net/service_loop.cc:227-232 | quit raises the flag and nothing else |
| Reactor.ConnectionHandler.Open | src/net/connection_handler.cc:37-51 | Whatever the buffers held, they are cleared, and the connection is registered for reading |
| Reactor.ConnectionHandler.Close | src/net/connection_handler.cc:53-64 | close unregisters the descriptor, runs on_close and frees the handler; nothing else of the reactor changes |
| Reactor.ConnectionHandler.DoHandleRead | src/net/connection_handler.cc:66-80 | The read callback is the machine's: close on a read that is not positive, else on_read and drop what it consumed |
| Reactor.ConnectionHandler.OnRead | src/example/example-1.cc:26-32 | on_read makes its sends in order and returns the length it consumed |
| Reactor.ConnectionHandler.DoHandleWrite | src/net/connection_handler.cc:82-124 | The send loop hands one prefix of the buffer to the kernel, and drops write interest exactly when it sent something and emptied the buffer |
| Reactor.ConnectionHandler.Send | src/net/connection_handler.cc:143-153 | send puts at the put position and arms write interest exactly when the buffer was empty |
| ThreadQueues.ThreadQueue.Push | src/base/thread_queue.h:31-35 | push appends, as one atomic step |
| ThreadQueues.ThreadQueue.Pop | src/base/thread_queue.h:37-49 | pop takes the front, or leaves its argument alone when the queue is empty |
| ThreadQueues.ThreadQueue.Size | src/base/thread_queue.h:51-55 | size is the number of queued tasks |
| Timers.SplitExact | src/net/timer_handler.cc:44-45 | For 0 <= interval < 2^31 the nanoseconds are in range and seconds and nanoseconds add up to the interval rounded down to a nanosecond |
| Timers.SplitAcceptedIff | src/net/timer_handler.cc:42-52 | The kernel takes the split exactly above minus one nanosecond, and it arms the timer exactly from one nanosecond on |
| Timers.FiresOnlyAfterStart | src/net/timer_handler.cc:40-95 | In every run each callback stands on a start since which there was no stop and no one-shot callback |
| Timers.FiresOnceUnlessRepeating | src/net/timer_handler.cc:83-95 | In every run two callbacks with no start between them have between them a callback that left the timer repeating |
| Timers.OneShotFiresOnce | src/net/timer_handler.cc:40-95 | In every run of a one-shot timer that is never made to repeat there is a start between any two callbacks |
| Timers.RunAlternates | src/net/timer_handler.cc:83-95 | Callbacks never overlap: each returns before the next begins |
| Timers.StopIdempotent | src/net/timer_handler.cc:62-81 | A second stop changes neither flags nor registration |
| Timers.RearmedIff | src/net/timer_handler.cc:83-95 | After a callback the timer is registered exactly when on_timer left it repeating and registered |
| Timers.StopForgetsRepeat | src/net/timer_handler.cc:67-77 | A repeating timer that was stopped and started again fires once |
| Timers.TimerHandler.StartTimer | src/net/timer_handler.cc:40-60 | start arms the kernel timer with the split interval, repeats it if asked, and registers the descriptor for reading: table and dispatcher gain it |
| Timers.DoMeans | src/net/timer_handler.cc:40-81 | start leaves the timer started and registered, stop leaves it unregistered |
| Timers.StartThenFires | src/net/timer_handler.cc:40-95 | On every run the first readable event after a start calls on_timer |
| Timers.RepeatsForEver | src/net/timer_handler.cc:83-95 | A repeating timer that on_timer leaves alone fires at every further event |
| Timers.TimerHandler.StopTimer | src/net/timer_handler.cc:62-81 | stop unregisters the descriptor and clears the repeat flag; the kernel timer is as before |
| Timers.TimerHandler.DoHandleRead | src/net/timer_handler.cc:83-95 | The callback runs on_timer and then stops the timer unless it repeats |
| AcceptorServers.RoundRobinFair | src/net/thpool_service_loop.cc:51-62 | In any window of k consecutive calls, wherever it begins, each of the n loops of the pool is returned floor(k/n) or ceil(k/n) times; in n calls once |
| AcceptorServers.ThpoolServiceLoop.GetLoop | src/net/thpool_service_loop.cc:51-62 | The call returns the loop its index picks and counts on; the base loop when there is no pool |
| AcceptorServers.ThpoolServiceLoop.Open | src/net/thpool_service_loop.cc:31-39 | The started loops are appended to the pool in order |
| AcceptorServers.AcceptorServer.OnAccept | src/example/acceptor_server.cc:32-51 | Below MAX_CLIENT_COUNT clients the new one is listed last and its open posted to the next loop; from there on it is refused and nothing changes |
| AcceptorServers.RefusedIff | src/example/acceptor_server.cc:34-50 | In every run a client is refused exactly when MAX_CLIENT_COUNT accepted handlers have not closed |
| AcceptorServers.AcceptorServer.RemoveHandler | src/example/acceptor_server.cc:53-64 | The search loop removes the first occurrence of the handler |
| AcceptorServers.RegistryExact | src/example/acceptor_server.cc:32-64 | In every run the registry lists exactly the accepted handlers that have not closed, each once, at most MAX_CLIENT_COUNT; each open is posted once, to the loop of its turn; however often a handler reports its close |
| AcceptorServers.LoadBalanced | src/example/acceptor_server.cc:40-45 | In every run, wherever the round robin stood, the loops of the pool are handed equally many clients, give or take one |
| PyReactor.DispatchTotal | python/mult_thread_reactor_server.py:88-114 | In every run each registered handle is in exactly one of inputs and outputs, once, none in excepts, and every lookup finds its handler |
| PyReactor.StepMeans | python/mult_thread_reactor_server.py:88-114 | In every step: what is opened is read, a connection that is sent to is written, one that has written is read, one that read nothing is neither, and no other handle moves |
| PyReactor.PagesAre | python/mult_thread_reactor_server.py:219-235 | The bytes of one do_read, page by page |
| PyReactor.ModifyKeeps | python/mult_thread_reactor_server.py:84-86 | Switching the mode of a registered handle keeps the three lists and the set of handles; it is in inputs exactly for READ and in outputs exactly for WRITE, and no other handle moves |
| PyReactor.RegisterKeeps | python/mult_thread_reactor_server.py:61-71 | Registering a fresh handle in one mode keeps the three lists |
| PyReactor.UnregisterKeeps | python/mult_thread_reactor_server.py:73-82 | Unregistering keeps them and removes the handle only |
| PyReactor.BothModesFault | python/mult_thread_reactor_server.py:97-102 | When every read of a batch hangs up, the writes find all their handlers exactly when no handle is in both lists |
| PyReactor.ServiceLoop.RegisterHandle | python/mult_thread_reactor_server.py:61-71 | The handle is appended to the lists of its modes unless it is there, and its handler stored |
| PyReactor.ServiceLoop.UnregisterHandle | python/mult_thread_reactor_server.py:73-82 | The handle leaves the lists and the dictionary |
| PyReactor.ServiceLoop.ModifyHandle | python/mult_thread_reactor_server.py:84-86 | Unregister, then register |
| PyReactor.TakeExactIff | python/mult_thread_reactor_server.py:190-196 | take returns just the message pushed exactly when it is at least as long as what the last take returned |
| PyReactor.PyEchoIff | python/mult_thread_reactor_server.py:219-248 | Through the receive buffer and then the send buffer every message comes back exactly when none is shorter than one before it; the second buffer adds no fault |
| PyReactor.TCPConnection.Converse | python/mult_thread_reactor_server.py:219-248 | Calling do_read and do_write in turn sends what two buffers make of the messages, and echoes them exactly when none is shorter than one before it |
| PyReactor.TakesExactIff | python/mult_thread_reactor_server.py:185-196 | One buffer gives every message back exactly when none is shorter than one before it |
| PyReactor.TCPConnection.DoRead | python/mult_thread_reactor_server.py:219-237 | The recv loop pushes the full pages and the short one, the receive buffer is taken, what was taken is pushed into the send buffer and the connection switches to writing; when nothing is read it is unregistered |
| PyReactor.TCPConnection.DoWrite | python/mult_thread_reactor_server.py:239-244 | The send buffer is taken and the connection switches back to reading |
| PyReactor.SocketBuffer.Take | python/mult_thread_reactor_server.py:193-196 | The content is returned and kept; only the position goes back to 0 |

## Left out

- Failed calls inside connection and timer code: `open`, `send`, `do_handle_write` and the timer assert that register, modify and delete succeed, so a refusal of `epoll_ctl` ends the process there. Refusals are modelled at the dispatchers, at `register_event`, `modify_event` and `delete_event`, and in runs for handlers other than connections.
- EventDispatchers.Dispatcher.AddEvent: requires interest in reading or writing, because the source leaves the event bits unset otherwise, and on select and poll a free descriptor, because registering twice means something different on each; what it means is in their own contracts.
- EventDispatchers.Dispatcher.ModEvent: requires interest in reading or writing, and on select a registered descriptor, because select then sets bits its table does not know; its own contract says so.
- Reactor.ServiceLoop.RegisterEvent: requires on select and poll a free descriptor, and on select one below FD_SETSIZE, for the same reasons.
- Reactor.ServiceLoop.ModifyEvent: requires on select a registered descriptor, for the same reason.
- Reactor.ServiceLoop.constructor: the wakeup handler is one more plain handler; that exactly one wakeup was pending, which it asserts, is not modelled.
- Reactor.ServiceLoop.QuitStep: does not write to the wakeup descriptor; that makes a descriptor readable, which the kernel's answers allow at any time.
- Reactor.ServiceLoop.Run: runs the finitely many turns it is given.
- User code that sends from `on_connect`, or whose callback closes its own connection (`close` frees the handler, and `do_handle_read` would go on using it). A callback may close any other connection.
- Tasks that post themselves again for ever: a task is a finite tree of the tasks it posts. Sends and reads are finite lists of answers, after which the kernel would block.
- Pointers: a handler pointer is the identity the handler was allocated with, and identities are never used twice, so reuse of a freed address is not modelled.
- The kernel's answers to recv and send are those of a non-blocking socket. Accepted sockets are never made non-blocking (`net_set_nonblock` of src/net/net_base.cc:184 is not called on them), so where the model's recv or send would block, as recv after an exact 64 KiB chunk, the source's call waits, and the loop with it.
- Readiness is that of Linux: what select makes of errors, hang-ups and urgent data follows the table in select(2). Normal and priority bands, and the peer's half-close, are not told apart from input.
- Buffers above INT_MAX, where `read_bytes` and the casts of `ignore` overflow; overflow of `index` in `get_loop` and of `fd_count_`.
- The timer's interval is a real number: rounding of doubles is not modelled. Neither are timeouts of the wait calls.
- AcceptorServers.RegistryExact: on_accept and on_close are atomic steps and the pool is fixed. In the source `clients_` is touched by several threads without a lock, and a client may close before it is registered.
- Thread start-up, and `src/base/functor.h` memory ownership: a functor is a copied value. A locked region is one atomic step.
- Python socket exceptions, `do_close` of an accepted socket, logging and the thread pool, which is the round robin again.
- PyReactor.PyEchoIff: a connection that reads and answers in turn, as the mode switch makes it; another connection that sends to it in between is not part of it.
- Destructors, addresses, `net_base`, the clients, the fork server and the build files.
