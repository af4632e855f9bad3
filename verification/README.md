# Chops Net IP: a verified model of its protocols

Chops Net IP wraps asynchronous sockets. On top of the socket calls sit a few step-by-step protocols: reading framed or
delimited messages out of a TCP stream, writing with one outstanding operation and a queue, and the start, stop,
notify and restart logic of the TCP handler, acceptor, connector and UDP entity. This project models those protocols
and proves what they keep over every run.

## How the model is built

* Each protocol is a state machine: a state, events (an API call, a posted task, a completion, the return of a
  callback), a step function and a run. An event that cannot happen in a state leaves it unchanged, so "every run"
  is every list of events. Fields marked as history record what happened and influence nothing.
* Beside each machine stands the class with the source's fields and methods. A ghost `machine` follows it; `Valid()`
  ties the fields to the machine, and each method's `ensures` says which steps it took, and also, without the step
  function, what it leaves in the fields, hands out and tells the application.
* The acceptor and connector machines keep three facts of each handler; `HandlerViews` proves that these are what the
  TCP handler's own machine shows, step for step.
* A callback is a point where the application may call back in. In the acceptor, connector and UDP machines a step
  ends at each callback and a stack of frames says what the source does when it returns, so calls from inside
  callbacks, at any depth, are ordinary events. In the TCP handler the message handler is such a point.
* The outside world follows these rules: `async_read` fills its buffer or fails; `async_read_until` appends what
  arrives until the delimiter occurs; `async_write` writes everything, or a part and fails; aborted operations
  complete with an error, but one that had already succeeded still reports success; posted tasks run in order; all
  handlers run on one thread (include/net_ip/detail/io_common.hpp:73). A closed socket has no remote endpoint. A
  message frame reads the mutable buffer it is given and does not alter its bytes.
* `size_t` counters wrap modulo 2^64. Bytes are integers from 0 to 255.

| file | what it models |
|---|---|
| Bytes.dfy | buffers and their concatenation |
| OutputQueue.dfy | the output queue, whole operations and single statements |
| IoCommon.dfy, WritePump.dfy | started flag, write flag, and the write pump over all runs |
| Framing.dfy, StreamReader.dfy | batch split of a stream, and the incremental reader that must agree with it |
| VarLen.dfy, TextFraming.dfy | variable length, delimited and fixed size messages |
| TcpIo.dfy, EndToEnd.dfy | the whole TCP handler, and two of them joined by a byte FIFO |
| NetEntity.dfy, Acceptor.dfy, Connector.dfy, UdpEntity.dfy | the net entities |
| HandlerViews.dfy | the handlers inside the acceptor and connector machines are the TCP handler |
| AcceptorSessions.dfy, ConnectorSessions.dfy | which session everything under way belongs to, kept in a book beside the machine |
| Delivery.dfy | the promises behind the future pairs |

## Where the code differs from what one may expect

Each of these is proved, with the exact condition where there is one.

* A header that announces an empty body leaves `hdr_processed` set. A list of messages survives the stream if and
  only if every non-empty body comes after an even number of empty ones (`VarLen.VarLenRoundTripIff`); an empty and a
  one-byte body in a row do not (`VarLen.EmptyBodyBreaks`).
* A write that completes with an error, or successfully while the handler is stopped, leaves `m_write_in_progress`
  set for good; the handler accepts and queues sends but never writes again, and a restarted UDP entity does not
  either (`WritePump.StuckIffLost`, `WritePump.StuckForever`, `WritePump.WriteErrorSticks`, `UdpEntity.UdpStuckForever`).
* doc/release.md:16 promises one close callback per connection. A successful `stop_io` on a TCP handler that is
  reading notifies twice, once itself and once through the aborted read (`TcpHandler.StopIoNotifiesTwice`); an acceptor's
  handler that was started once gets one close callback if and only if it was not stopped while reading
  (`Acceptor.OneCloseIff`, `Acceptor.StopIoClosesTwice`). On the connector, once no read chain is running, close
  callbacks number the `start_io` calls that got past their flag and the successful `stop_io` calls, so the stop promise
  of a session's future pair is set at most once if and only if there was at most one of these
  (`Connector.CloseCallbacksIff`, `Connector.StopIoClosesTwice`).
* At most one resolve, connect or timer chain is under way in the connector if and only if no `start` gets past the gate
  while one is (`Connector.OneChainIff`, `Connector.RestartMakesTwoChains`).
* What one session leaves behind can stop the next. A connector session is safe from its predecessors, in every run, if
  and only if no operation, read chain or callback was under way when it was started
  (`ConnectorSessions.SafeFromEarlierIff`, `ConnectorSessions.StaleResolveStopsNewSession`); an acceptor session if and
  only if no accept was outstanding and the caller was not inside a callback that leads to a stop or is part of one
  (`AcceptorSessions.SafeFromEarlierIff`, `AcceptorSessions.StaleAcceptStopsNewSession`).
* The assert in the connector's `notify_me` fails, for instance, after an ordinary `stop` while reading
  (`Connector.StopWhileReading`). Once all read chains have ended it has held if and only if the connector never let go
  of a reading handler and `start_io` never got past its flag on a handler the connector did not hold
  (`Connector.AssertIff`). The model goes on after a failed assert, as a release build does, and counts it.
* Left alone by `stop` and `stop_io`, a connector session makes its callbacks in the announced order if and only if
  `start_io` gets past its flag at most once (`Connector.CallbackStoryIff`): a handler whose start found no remote
  endpoint can be started again, and notifies again (`Connector.SecondStartNotifiesTwice`).
* Stopping the connector while an operation is outstanding is final if and only if that operation completes with an
  error (`Connector.StopIsFinalIff`). An accept that had succeeded is still acted on after `stop`
  (`Acceptor.QueuedAcceptSurvivesStop`): a stopped acceptor announces as many handlers as accepts still complete with
  success (`Acceptor.AcceptorStopIsFinalIff`), and stays silent whatever happens if and only if no accept is outstanding
  (`Acceptor.StaysSilentIff`).
* An acceptor started again inside a callback of its own `stop` ends up started with its socket closed
  (`Acceptor.RestartInsideStop`); otherwise, and only otherwise, a started acceptor listens (`Acceptor.ListensIff`).
* UDP open and close callbacks take turns, each close going to the callback of the start that opened, if and only if
  nobody restarts the entity inside the error callback of a `stop_io` (`UdpEntity.UdpLifecycleIff`). When the open of
  such a restart fails there is still one open and one close, but the close goes to the callback of the failed start.
* An aborted receive of an earlier UDP session stops the session it is reported in
  (`UdpEntity.StaleReceiveStopsNewSession`). A session is safe from this, in every run, if and only if at its start no
  receive or write is outstanding and the caller is not inside a message handler or the error callback of a failed
  operation (`UdpEntity.SafeFromEarlierIff`). Every receive outstanding at a start is accounted for, and a session hit by
  the error of one is over when callbacks have returned (`UdpEntity.StaleReceivesAccounted`).
* A queued send without an endpoint can leave for the next session's default (`UdpEntity.QueuedSendFollowsNewDefault`).
  All sends go where they were to go when accepted if and only if no start sets another default while such a send is
  queued that is handed over in the session so begun (`UdpEntity.PromisedDestinationsIff`); a start can lead to that if
  and only if a write is outstanding and such a send is queued (`UdpEntity.StartIsFaithfulIff`). A default changed and
  changed back before the send is handed over does no harm (`UdpEntity.ChangedBackInTime`).

## Model

| member | source | states |
|---|---|---|
| OutQueue.CountersExact | include/net_ip/detail/output_queue.hpp:60-94 | in every run of adds and gets the two counters are queue length and byte sum modulo 2^64, true values when those fit, zero on an empty queue |
| OutQueue.LoadsAreBeforeOrAfter | include/net_ip/detail/output_queue.hpp:60-94 | between any two statements of the run thread each counter shows the contents before or after the operation in progress; both exact between operations; no decrement underflows |
| OutQueue.StatementsMakeOperations | include/net_ip/detail/output_queue.hpp:64-68 | the single statements of one call add up to the whole operation |
| OutQueue.StatsCanBeTorn | doc/overview.md:139 | a pair of loads around one add can be the size and byte count of no queue contents |
| OutQueue.OutputQueue.GetNextElement | include/net_ip/detail/output_queue.hpp:60-69 | takes the oldest element and lowers both counters, or returns nothing |
| OutQueue.OutputQueue.AddElement | include/net_ip/detail/output_queue.hpp:88-94 | appends the element and raises both counters, wrapping |
| OutQueue.OutputQueue.GetQueueStats | include/net_ip/detail/output_queue.hpp:79-84 | the counters, which are the true length and byte count when those fit |
| IoState.IoCommon.SetIoStarted | include/net_ip/detail/io_common.hpp:63-66 | true exactly when it raises the flag |
| IoState.IoCommon.Stop | include/net_ip/detail/io_common.hpp:68-71 | true exactly when it lowers the flag; queue and write flag stay |
| IoState.IoCommon.StartWriteSetup | include/net_ip/detail/io_common.hpp:83-108 | refuses when not started, queues behind a write, otherwise claims the write |
| IoState.IoCommon.GetNextElement | include/net_ip/detail/io_common.hpp:110-118 | next queued element when started, and whether a write goes on |
| WritePump.PumpRunInv | include/net_ip/detail/io_common.hpp:63-118 | every step of every run keeps the pump invariant, restarts while a write is pending included |
| WritePump.PumpSafety | include/net_ip/detail/tcp_io.hpp:143-152 | at most one socket write outstanding; accepted sends are written, failed, in flight, queued, in that order; the wire is a prefix of the accepted bytes; counters exact |
| WritePump.AcceptedIsWhatWasSent | include/net_ip/detail/io_common.hpp:83-94 | the accepted buffers are the sends whose task ran between a start and the next stop, in order |
| WritePump.HealthySession | include/net_ip/detail/tcp_io.hpp:280-301 | without a lost completion the write flag says exactly that a write is outstanding and a queue exists only behind one |
| WritePump.StuckForever | include/net_ip/detail/tcp_io.hpp:290-295 | with the flag set and no write outstanding nothing is ever handed to the socket again, and accepted sends pile up |
| WritePump.StuckIffLost | include/net_ip/detail/io_common.hpp:110-114 | that state is reached exactly through a completion with an error or one that finds the handler stopped |
| WritePump.WriteErrorSticks | include/net_ip/detail/tcp_io.hpp:290-295 | one failed write, after which an accepted send stays queued |
| WritePump.Drain | include/net_ip/detail/tcp_io.hpp:290-301 | in-flight plus queued successful completions, and no fewer, drain a healthy started pump: all written, empty queue, zero stats, flag clear |
| Framing.FirstLocal | include/net_ip/detail/tcp_io.hpp:231-277 | where a message ends depends only on its own bytes |
| Framing.SplitAppend | include/net_ip/detail/tcp_io.hpp:231-277 | splitting a stream that arrives in two parts continues from what the first part left over |
| Framing.RoundTripIff | include/net_ip/detail/tcp_io.hpp:231-277 | a message list survives concatenation and splitting exactly when each is one message in its turn |
| Framing.MessageLength | include/net_ip/detail/tcp_io.hpp:241-257 | a framed message is the header size plus the non-zero values the frame returned for it |
| StreamReader.ReadRunInv | include/net_ip/detail/tcp_io.hpp:231-277 | every read completion keeps buffer, frame state and deliveries in step with the batch split |
| StreamReader.AgreesWithBatch | include/net_ip/detail/tcp_io.hpp:231-277 | for any frame or delimiter and any arrival sizes: deliveries are a prefix of the batch split and all of it when nothing is left to do, nothing lost or duplicated, each completed read used up at least one byte |
| StreamReader.ChunkingDoesNotMatter | include/net_ip/detail/tcp_io.hpp:208-218 | the same bytes in other pieces give the same messages and the same buffer |
| StreamReader.DeliversList | include/net_ip/detail/tcp_io.hpp:231-277 | a parsable message list arrives as exactly that list |
| VarLen.SimpleVarLenMsgFrame.Call | include/net_ip/component/simple_variable_len_msg_frame.hpp:59-67 | flips the flag on each call and returns the decoded length or zero |
| VarLen.HeaderRoundTrip | test/include/net_ip/shared_utility_test.hpp:71-97 | decoding the header of an encoded message gives the body length |
| VarLen.ReadFresh | include/net_ip/component/simple_variable_len_msg_frame.hpp:63-65 | a clean frame reads an encoded message whole, and an empty body leaves the flag set |
| VarLen.ReadAfterEmpty | include/net_ip/component/simple_variable_len_msg_frame.hpp:63-65 | with the flag left set only the two header bytes are taken for a message |
| VarLen.VarLenRoundTripIff | test/include/net_ip/shared_utility_test.hpp:71-97 | encoded bodies come back exactly when every non-empty one follows an even number of empty ones |
| VarLen.EmptyBodyBreaks | include/net_ip/component/simple_variable_len_msg_frame.hpp:63-65 | an empty body followed by a one-byte body does not come back |
| VarLen.EmptyOnlyLast | test/include/net_ip/shared_utility_test.hpp:71-76 | which is so when at most the last body is empty |
| VarLen.VarLenDelivers | include/net_ip/detail/tcp_io.hpp:231-259 | a reader with the simple frame delivers such a list, however it arrives |
| VarLen.VarLenBuffer | include/net_ip/component/simple_variable_len_msg_frame.hpp:59-67 | on any stream the buffer stays within 2+65535 bytes, the decoder gets two bytes, and, in a message that began with the flag clear, the flag is set exactly while the body is read |
| TextFraming.CleanLf | test/include/net_ip/shared_utility_test.hpp:84-88 | an LF message is unambiguous exactly when its body has no LF |
| TextFraming.CleanCrLf | test/include/net_ip/shared_utility_test.hpp:78-82 | a CR LF message is unambiguous exactly when its body has no CR followed by LF |
| TextFraming.TextRoundTripIff | test/include/net_ip/shared_utility_test.hpp:78-88 | terminated bodies come back exactly when the first delimiter in each is the appended one |
| TextFraming.SplitIsDelimited | include/net_ip/detail/tcp_io.hpp:261-277 | the split at successive first occurrences is the only one whose messages end in their only delimiter and whose rest has none |
| TextFraming.DelimiterReads | include/net_ip/detail/tcp_io.hpp:208-218 | delimiter reads give that split of what was received and keep the rest in the buffer, straddling delimiters included |
| TextFraming.FixedSizeReads | include/net_ip/detail/tcp_io.hpp:116-119 | with null_msg_frame every delivery has exactly the read size |
| TcpHandler.HandlerSafety | include/net_ip/detail/tcp_io.hpp:94-301 | every run of a handler keeps its accounts, write pump and reader invariants together |
| TcpHandler.EndOfLife | include/net_ip/detail/tcp_io.hpp:132-189 | at most one read chain ever; one notification per failed start, successful stop_io and ended chain; one shutdown and close per start undone, so at most one for a handler started once |
| TcpHandler.LifeFromEvents | include/net_ip/detail/tcp_io.hpp:132-189 | counted from the events of any run: one notification for each start without a remote endpoint, each stop_io of a started handler and each failed read or false message handler, and no other; at most one start begins to read; the handler reads exactly if it began and did not end |
| TcpHandler.NotifiedIsClosed | include/net_ip/detail/tcp_io.hpp:161-189 | a step that notifies leaves the handler stopped and its socket closed, and a read chain ends only with a notification |
| TcpHandler.StopIoNotifiesTwice | include/net_ip/detail/tcp_io.hpp:132-140 | stop_io on a reading handler and then the aborted read notify the owner twice |
| TcpHandler.TcpIo.StartIo | include/net_ip/detail/tcp_io.hpp:94-104 | begins a framed read chain exactly when the flag was clear, the endpoint known and the socket open, with read size, buffer and pending read set; otherwise nothing happens, or the owner is notified and the socket closed |
| TcpHandler.TcpIo.StartIoUntil | include/net_ip/detail/tcp_io.hpp:106-114 | the same for a delimiter |
| TcpHandler.TcpIo.StartIoSetup | include/net_ip/detail/tcp_io.hpp:178-189 | a missing endpoint notifies the owner, who closes the handler |
| TcpHandler.TcpIo.StopIo | include/net_ip/detail/tcp_io.hpp:132-140 | notifies and returns true exactly when started |
| TcpHandler.TcpIo.Close | include/net_ip/detail/tcp_io.hpp:161-174 | closes the socket only when it lowers the flag |
| TcpHandler.TcpIo.RunSend | include/net_ip/detail/tcp_io.hpp:143-152 | the buffer goes to the socket now, into the queue, or nowhere, as the pump says |
| TcpHandler.TcpIo.HandleWrite | include/net_ip/detail/tcp_io.hpp:290-301 | hands the next queued buffer to the socket; an error ends the chain of writes |
| TcpHandler.TcpIo.HandleRead | include/net_ip/detail/tcp_io.hpp:231-259 | grows m_byte_vec by what the frame asks for, or delivers all of it; an error ends the chain with a notification |
| TcpHandler.TcpIo.HandleReadUntil | include/net_ip/detail/tcp_io.hpp:261-272 | delivers the buffer through the delimiter |
| TcpHandler.TcpIo.AfterMsgHandler | include/net_ip/detail/tcp_io.hpp:243-277 | after true resets or trims m_byte_vec and reads on; after false ends the chain with one notification, the handler stopped and its socket closed |
| EndToEnd.EndToEndPrefix | include/net_ip/detail/tcp_io.hpp:143-152 | in every reachable state of two joined handlers, under any interleaving, deliveries are a prefix of the accepted sends, and all of them once everything was received and processed |
| EndToEnd.EverythingCanArrive | include/net_ip/detail/tcp_io.hpp:143-301 | from every reachable state with a healthy started sender and a reading receiver, write completions, arriving bytes, completed reads and returning handlers alone can deliver everything accepted |
| EndToEnd.VarLenEndToEnd | include/net_ip/detail/tcp_io.hpp:231-301 | the same, completeness included, for messages of a two-byte header and a body of 1 to 65534 bytes, with nothing else assumed |
| EndToEnd.TextEndToEnd | include/net_ip/detail/tcp_io.hpp:261-301 | the same, completeness included, for delimited text |
| NetEntity.StartsAndStopsTakeTurns | include/net_ip/detail/net_entity_common.hpp:55-69 | between two starts that return true there is a stop that returns true, and the other way round |
| NetEntity.CallbacksOfLastStart | include/net_ip/detail/net_entity_common.hpp:55-69 | after any calls the stored callbacks are those of the last start that returned true |
| NetEntity.NetEntityCommon.Start | include/net_ip/detail/net_entity_common.hpp:55-64 | returns true exactly when not started, and then replaces the callbacks; else nothing changes |
| NetEntity.NetEntityCommon.Stop | include/net_ip/detail/net_entity_common.hpp:66-69 | true exactly when it lowers the flag |
| Acceptor.AcceptorLiveSet | include/net_ip/detail/tcp_acceptor.hpp:110-135 | in every reachable state, re-entrant calls and repeated notifications included: the handler list is in accept order, without duplicates, equal to what the callbacks tell the application, every count its size; between callbacks it is opened minus notified |
| Acceptor.AcceptorStop | include/net_ip/detail/tcp_acceptor.hpp:93-106 | stop leaves exactly the handlers never started, in order, after one error and one close per started handler with counts falling by one and then the acceptor's error; a second stop changes nothing |
| Acceptor.AcceptErrorStops | include/net_ip/detail/tcp_acceptor.hpp:116-120 | in any reachable state between callbacks a failed accept is reported and, if the acceptor was started, ends with it stopped, its socket closed and the started handlers notified and erased, as after stop |
| Acceptor.BindErrorStops | include/net_ip/detail/tcp_acceptor.hpp:80-88 | a failed bind is reported and ends with the acceptor stopped, after the callbacks of stop |
| Acceptor.WholeSession | include/net_ip/detail/tcp_acceptor.hpp:74-135 | one session, from a start to a failed accept, with every callback and the final state spelled out |
| Acceptor.LoopIsQuiet | include/net_ip/detail/tcp_acceptor.hpp:97-105 | the steps of the stop loop, callbacks returning at once, add up to the loop of the class |
| Acceptor.LoopEffect | include/net_ip/detail/tcp_acceptor.hpp:97-105 | erasing from the list while iterating its copy removes the started handlers and nothing else |
| Acceptor.OneCloseIff | include/net_ip/detail/tcp_acceptor.hpp:130-135 | between callbacks, a handler's close callbacks are its starts whose reading has ended plus one if stop_io found it reading; started once, it gets one exactly if it was not stopped while reading |
| Acceptor.StopIoClosesTwice | include/net_ip/detail/tcp_acceptor.hpp:130-135 | a run in which a handler stopped while reading gets two close callbacks |
| Acceptor.AcceptorStopIsFinalIff | include/net_ip/detail/tcp_acceptor.hpp:112-127 | from any stopped state, in every run without a start: open callbacks are exactly the accepts that complete with success; when all have completed with an error none is outstanding and none announced ever after |
| Acceptor.StaysSilentIff | include/net_ip/detail/tcp_acceptor.hpp:93-127 | a stopped acceptor announces nothing in any run without a start exactly if no accept is outstanding |
| Acceptor.ListensIff | include/net_ip/detail/tcp_acceptor.hpp:74-106 | in every reachable state between callbacks, started means listening exactly if the latest start was not made inside a callback of an unfinished stop |
| Acceptor.RestartInsideStop | include/net_ip/detail/tcp_acceptor.hpp:93-106 | a restart inside the acceptor-stopped callback ends started and not listening |
| Acceptor.QueuedAcceptSurvivesStop | include/net_ip/detail/tcp_acceptor.hpp:121-125 | an accept that had succeeded when stop ran still adds and announces a handler and accepts again |
| AcceptorSessions.SafeFromEarlierIff | include/net_ip/detail/tcp_acceptor.hpp:74-127 | until the next start, in any run, a session is never stopped and its socket never closed on account of an earlier one, exactly if at its start no accept was outstanding and no callback in progress leads to a stop or is part of one |
| AcceptorSessions.StaleAcceptStopsNewSession | include/net_ip/detail/tcp_acceptor.hpp:116-120 | the aborted accept of one session stops the next |
| Acceptor.TcpAcceptor.Start | include/net_ip/detail/tcp_acceptor.hpp:74-91 | stores the callbacks, listens and accepts; or reports the bind error and ends stopped, with the handlers and callbacks of stop; or, when started, does nothing |
| Acceptor.TcpAcceptor.Stop | include/net_ip/detail/tcp_acceptor.hpp:93-106 | the whole effect of stop on list, flags and callbacks |
| Acceptor.TcpAcceptor.NotifyMe | include/net_ip/detail/tcp_acceptor.hpp:130-135 | closes the handler, reports the error, erases it and reports the close with the new size |
| Acceptor.TcpAcceptor.HandleAccept | include/net_ip/detail/tcp_acceptor.hpp:114-127 | lists and announces the new handler and accepts again; an error is reported and ends with the acceptor stopped, with the handlers and callbacks of stop |
| Connector.SingleChain | include/net_ip/detail/tcp_connector.hpp:118-223 | outstanding operations plus open callbacks never exceed the starts, so one session has one chain and one open callback; attempts are failures, the one in progress and connections; one close callback per notification |
| Connector.OneChainIff | include/net_ip/detail/tcp_connector.hpp:118-217 | in every run at most one chain of operations is ever under way exactly if no start gets past the gate while one is |
| Connector.RestartMakesTwoChains | include/net_ip/detail/tcp_connector.hpp:118-146 | a restart before the aborted operation was reported has two connects outstanding |
| Connector.CallbackStoryIff | include/net_ip/detail/tcp_connector.hpp:183-232 | in one session without a stop or stop_io of the application the callbacks are errors, open, error, close with count 0, connector stopped, cut off anywhere, exactly if start_io gets past its flag at most once; and then the assert in notify_me holds |
| Connector.SecondStartNotifiesTwice | include/net_ip/detail/tcp_io.hpp:178-189 | a second start_io, after one without a remote endpoint, makes a second error callback |
| Connector.PhaseStory | include/net_ip/detail/tcp_connector.hpp:183-232 | the phases that the callbacks step through mean exactly that order |
| Connector.CloseCallbacksIff | include/net_ip/detail/tcp_connector.hpp:225-232 | between callbacks and with no read chain running, close callbacks number the start_io calls past their flag plus the successful stop_io calls; in a session started once no promise of its future pair is set twice exactly if these are at most one |
| Connector.StopIoClosesTwice | include/net_ip/detail/tcp_io.hpp:132-140 | a run of one session in which stop_io while reading makes two close callbacks and the stop promise throws |
| Connector.StopIsFinalIff | include/net_ip/detail/tcp_connector.hpp:159-217 | after stop during an operation, whatever comes between stop and its completion, nothing more is begun, opened or completed in any run exactly when that operation completes with an error |
| Connector.AssertIff | include/net_ip/detail/tcp_connector.hpp:159-226 | in every run, once all read chains ended, the assert in notify_me has held exactly if the connector never let go of a reading handler and start_io never got past its flag on a handler it did not hold |
| Connector.WholeSession | include/net_ip/detail/tcp_connector.hpp:118-232 | one session, from a start over a failed attempt and a connection to its end, with every callback and the final state spelled out |
| Connector.StopCloses | include/net_ip/detail/tcp_connector.hpp:159-181 | a stop that gets past the gate closes the socket of a started handler the connector holds, forgets it and leaves other handlers alone |
| Connector.HandlerStartedIff | include/net_ip/detail/tcp_connector.hpp:159-232 | in every run a handler is started exactly if a start_io succeeded and since then no stop_io came, its read chain did not end and the connector was not stopped while holding it |
| Connector.ResolvedIff | include/net_ip/detail/tcp_connector.hpp:118-146 | in every run the connector has endpoints exactly if made with some or a resolve found some; a start then connects and else resolves |
| Connector.StopWhileReading | include/net_ip/detail/tcp_connector.hpp:225-232 | stop on a reading connection fails the assert and the close callback comes after connector-stopped |
| ConnectorSessions.SafeFromEarlierIff | include/net_ip/detail/tcp_connector.hpp:118-232 | until the next start, in any run, a session is never stopped by an operation, read chain or callback of an earlier one, exactly if none was under way at its start |
| ConnectorSessions.StaleResolveStopsNewSession | include/net_ip/detail/tcp_connector.hpp:129-139 | the aborted resolve of one session stops the next, whose own resolve then opens a connection on the stopped connector |
| Connector.TcpConnector.Start | include/net_ip/detail/tcp_connector.hpp:118-146 | begins a resolve or a connect exactly when not started |
| Connector.TcpConnector.Stop | include/net_ip/detail/tcp_connector.hpp:148-154 | closes and reports connector-stopped exactly when started |
| Connector.TcpConnector.Close | include/net_ip/detail/tcp_connector.hpp:159-181 | closes the held handler if it is started, forgets it and sets the shutdown flag, exactly when started |
| Connector.TcpConnector.HandleResolve | include/net_ip/detail/tcp_connector.hpp:131-139 | connects, or reports the error and stops the entity |
| Connector.TcpConnector.HandleConnect | include/net_ip/detail/tcp_connector.hpp:193-223 | makes and announces the handler; on an error waits, gives up, or stops when the timer throws |
| Connector.TcpConnector.HandleTimer | include/net_ip/detail/tcp_connector.hpp:211-217 | connects again unless the wait was aborted |
| Connector.TcpConnector.NotifyMe | include/net_ip/detail/tcp_connector.hpp:225-232 | closes, reports error and close, and stops |
| UdpEntity.UdpLifecycleIff | include/net_ip/detail/udp_entity_io.hpp:97-176 | over every run IO started implies entity started, and open and close callbacks take turns, each close going to the start that opened, exactly when no start happens inside the error callback of a stop_io |
| UdpEntity.UdpPromises | include/net_ip/component/io_interface_delivery.hpp:182-205 | then each promise of a future pair is set at most once, start first |
| UdpEntity.RestartInsideStopIo | include/net_ip/detail/udp_entity_io.hpp:158-176 | a restart at that point delivers two opens in a row |
| UdpEntity.SafeFromEarlierIff | include/net_ip/detail/udp_entity_io.hpp:97-120 | a session is never stopped because an operation of an earlier one failed, in any run until the next start, exactly if at its start nothing that could fail was left over: no receive, no write, no message handler or error callback in progress |
| UdpEntity.StaleReceivesAccounted | include/net_ip/detail/udp_entity_io.hpp:231-246 | once the receives outstanding at a start were all reported, hits on the running session and harmless reports add up to them; a session once hit is over when callbacks have returned |
| UdpEntity.StaleReceiveStopsNewSession | include/net_ip/detail/udp_entity_io.hpp:231-238 | an aborted receive of an earlier session stops the session running when it is reported |
| UdpEntity.ReceivingFromEvents | include/net_ip/detail/udp_entity_io.hpp:122-141 | counted from the events of any run: outstanding receives and message handlers in progress are the starts that were to receive less the failed receives and false message handlers |
| UdpEntity.FailureStops | include/net_ip/detail/udp_entity_io.hpp:231-263 | in any reachable state a failed receive or write or a false message handler is reported and ends with entity and IO stopped, the socket of started IO closed, and what stop tells told |
| UdpEntity.WholeSession | include/net_ip/detail/udp_entity_io.hpp:97-256 | one session, from a start over a received datagram to a failed receive, with every callback and the final state spelled out |
| UdpEntity.OpenErrorStops | include/net_ip/detail/udp_entity_io.hpp:103-116 | a failed open is reported and ends with the entity stopped |
| UdpEntity.UdpDestinations | include/net_ip/detail/udp_entity_io.hpp:178-198 | in any stretch in which no start gets past the gate, datagrams go out in accepted order with missing endpoints replaced by the default, sent at once or from the queue alike; at most one outstanding |
| UdpEntity.PromisedDestinationsIff | include/net_ip/detail/udp_entity_io.hpp:178-198 | in every run datagrams go out in accepted order, each to its own endpoint or the default in force when it was accepted, exactly if no start set another default while a send without endpoint was queued that is handed over in the session so begun |
| UdpEntity.StartIsFaithfulIff | include/net_ip/detail/udp_entity_io.hpp:258-269 | a start can lead to that, in some run of its session, exactly if a write is outstanding and a send without endpoint is queued that was accepted under another default |
| UdpEntity.QueuedSendFollowsNewDefault | include/net_ip/detail/udp_entity_io.hpp:258-269 | a run in which a send queued in one session leaves for the default endpoint of the next |
| UdpEntity.UdpStuckForever | include/net_ip/detail/udp_entity_io.hpp:258-263 | after a write error, or a write completing while stopped, the entity never sends again, restarted or not |
| UdpEntity.StopIsQuiet | include/net_ip/detail/udp_entity_io.hpp:158-176 | the steps of stop, callbacks returning at once, are the stop of the class |
| UdpEntity.UdpEntityIo.Start | include/net_ip/detail/udp_entity_io.hpp:97-120 | opens, announces and starts IO, or reports the error and stops again |
| UdpEntity.UdpEntityIo.StartIo | include/net_ip/detail/udp_entity_io.hpp:122-156 | starts IO once, setting the default endpoint; asked to receive it sets the buffer size and begins one receive |
| UdpEntity.UdpEntityIo.StopIo | include/net_ip/detail/udp_entity_io.hpp:158-167 | closes, reports the error and then the close, exactly when started |
| UdpEntity.UdpEntityIo.Stop | include/net_ip/detail/udp_entity_io.hpp:169-176 | stops IO and reports entity-stopped exactly when started |
| UdpEntity.UdpEntityIo.ErrNotifyAndStop | include/net_ip/detail/udp_entity_io.hpp:231-263 | the common end of all failures: the error is reported, a started entity stopped with its IO and socket, and that reported too |
| UdpEntity.UdpEntityIo.RunSend | include/net_ip/detail/udp_entity_io.hpp:178-198 | hands the buffer with its own or the default endpoint to the socket, or queues it |
| UdpEntity.UdpEntityIo.HandleWrite | include/net_ip/detail/udp_entity_io.hpp:258-269 | sends the next queued element to its own or the default endpoint; an error stops the entity |
| UdpEntity.UdpEntityIo.HandleRead | include/net_ip/detail/udp_entity_io.hpp:231-240 | gives the received bytes to the message handler; an error stops the entity |
| UdpEntity.UdpEntityIo.AfterMsgHandler | include/net_ip/detail/udp_entity_io.hpp:239-246 | reads on, or reports the termination and stops |
| HandlerViews.ConnectorStep | include/net_ip/detail/tcp_connector.hpp:159-232 | a step of the connector is, for each handler it made, the start, stop_io, end of reading or close of the TCP handler that it asks for |
| HandlerViews.ConnectorHandlers | include/net_ip/detail/tcp_connector.hpp:159-232 | in every run what the connector's machine keeps of a handler is what some run of the TCP handler shows |
| HandlerViews.AcceptorStep | include/net_ip/detail/tcp_acceptor.hpp:93-135 | the same for a step of the acceptor, its stop loop included |
| HandlerViews.AcceptorHandlers | include/net_ip/detail/tcp_acceptor.hpp:93-135 | the same for every run of the acceptor |
| Delivery.PromisesSetOnce | include/net_ip/component/io_interface_delivery.hpp:182-205 | while callbacks take turns no promise of any pair is set twice and none is stopped before it started |
| Delivery.SecondCloseThrows | include/net_ip/component/io_interface_delivery.hpp:198-200 | a second close callback of the same start sets the stop promise twice; `Connector.StopIoClosesTwice` is a run that makes it |
| Delivery.PairOfIs | include/net_ip/component/io_interface_delivery.hpp:182-205 | the promises of a session's pair are set by its first open and close callbacks, and it throws exactly at a second of either |
| Delivery.FuturePair.StateChange | include/net_ip/component/io_interface_delivery.hpp:192-201 | sets the promise of the callback's kind, once |

## Left out

* Sockets, name resolution, timers, the event loop and socket options: replaced by the rules above.
* `net_ip`, `basic_io_interface`, `basic_net_entity`, `endpoints_resolver`, `worker`, `send_to_all`, error categories:
  forwarding and loops over handlers without state of their own.
* Several run threads, and the window inside `net_entity_common::start` between setting the flag and storing the
  callbacks: the code does not define what happens there.
* The `post` queue: a posted send is modelled when its task runs; the order of tasks is the order of calls.
* Weak and shared pointers: a handler is a number in the acceptor and connector; that an expired `basic_io_interface`
  throws is not modelled.
* A read size of zero or an empty delimiter, with which the source delivers empty messages without end: the batch
  split and the results built on it assume at least one byte per message.
- VarLen.DecodeHeader: gives zero for buffers that are not two bytes long, where the source asserts; `VarLen.VarLenBuffer` shows that it never gets one.
- UdpEntity.UdpLifecycleIff: covers open callbacks that call `start_io` first thing and no other `start_io` calls, because the source lets any other use start IO on a stopped entity.
- Acceptor.TcpAcceptor.Start: takes callbacks to return at once; calls from inside callbacks are covered by the machine and `Acceptor.AcceptorLiveSet`.
- Acceptor.TcpAcceptor.Stop: the same.
- Acceptor.TcpAcceptor.NotifyMe: the same.
- Acceptor.TcpAcceptor.HandleAccept: the same.
- Connector.TcpConnector.HandleResolve: takes callbacks to return at once; calls from inside callbacks are covered by the machine, `Connector.SingleChain` and `Connector.AssertIff`.
- Connector.TcpConnector.HandleConnect: the same.
- Connector.TcpConnector.NotifyMe: the same.
- UdpEntity.UdpEntityIo.Start: takes the error callback to return at once, and the open callback to call `start_io` and return; calls from inside callbacks are covered by the machine, `UdpEntity.UdpLifecycleIff` and `UdpEntity.SafeFromEarlierIff`.
- UdpEntity.UdpEntityIo.StopIo: takes callbacks to return at once, covered in the same way.
- UdpEntity.UdpEntityIo.Stop: the same.
- UdpEntity.UdpEntityIo.HandleWrite: the same.
- UdpEntity.UdpEntityIo.HandleRead: the same.
- UdpEntity.UdpEntityIo.AfterMsgHandler: the same.
