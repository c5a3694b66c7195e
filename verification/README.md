# The SMPP client session engine

This project models the session engine of `ksmppc`, an SMPP v5.0 client, and proves what it does over whole
runs. The engine is the class `SessionManager`: seven session states (section 2.3 of SMPP v5.0), a transmit queue of
three levels, a map of sent requests that await a response, a sequence number generator, a send throttle, three
timers, and two flags that say whether to stop and whether to reconnect. Around it stand the reader of
length-prefixed PDUs, `RawPdu`, and the two worker loops of `ksmppc.cpp`.

`dafny verify dfyconfig.toml` verifies the whole project.

## How it is laid out

| file | what is in it |
|---|---|
| `Smpp.dfy` | PDUs and the constants of SMPP v5.0 that the engine looks at |
| `SequenceNumbers.dfy` | the sequence number generator |
| `TransmitQueue.dfy` | the three-level queue |
| `Transmitter.dfy` | the sending half of the engine as a value: queue, numbers, throttle, socket, awaiting map |
| `Session.dfy` | the engine as a function from state and event to state, and its runs |
| `SessionManager.dfy` | the class with its fields and methods, each proved to do what `Session.dfy` says |
| `Protocol.dfy` | what each event makes the engine do, by command ids, times and limits in figures |
| `Refinement.dfy` | two simpler machines that every step of the engine refines, and how invariants lift to runs |
| `Engine.dfy` | what the theorems about runs say about an object of the class |
| `StateSafety.dfy`, `Binding.dfy`, `Reconnection.dfy`, `Recovery.dfy`, `Cleanup.dfy` | session states, getting bound, reconnecting and stopping, when an engine can connect again, what a close leaves behind |
| `Throttle.dfy` | how fast PDUs go out |
| `Accounting.dfy`, `AnswerNumbers.dfy`, `Messages.dfy`, `Failures.dfy`, `Stalling.dfy` | what becomes of each PDU and each request; the numbers of answers; what failed writes lose; queues that never move again |
| `Chain.dfy`, `SendWindow.dfy` | the chain of completions, and the window of ten over whole runs |
| `Awaiting.dfy`, `Answered.dfy`, `Ageing.dfy` | the awaiting map, requests that were answered, the sweep |
| `Numbering.dfy`, `FreshNumbers.dfy`, `NumberOrder.dfy` | sequence numbers: what they stand for, how often they are used, in what order they go out |
| `Silence.dfy` | the link test |
| `Framing.dfy` | the byte stream and `RawPdu` |
| `Locks.dfy` | the mutexes and the threads that take them |
| `Workers.dfy` | the receive and send loops |

A run is a sequence of events: a connect, read or write completes, well or not; a posted close runs; a timer expires or
is aborted; a user sends a PDU or stops the session; time passes. Events come in any order in which each is possible when
it happens. `Legal` says so, `After` is the state a run ends in, `At` the state after its first k events. The lemmas
speak of every run from the initial state with any configuration, unless they say otherwise.

The class keeps the source's fields. What the source leaves to the event loop and the network (connects, reads, writes
and closes under way) and the history of what happened are ghost fields; `State()` puts both together. Every method
of the class is proved to take `State()` to the value of a function on such states, and the lemmas are about these
functions; `Handle` and `Run` tie the object to steps and runs, and `Engine.Operate` states the theorems of an object. Two of the lemmas carry most of the rest: `ControlRefines` reduces an event to one step of a small control
automaton, and `TransmissionRefines` reduces it to a list of actions of the transmitter.

## What is assumed

- The priority queue of the kisscpp library is not part of this model. It is taken to be one first-in first-out line
  for each level; a pop takes the first of the lowest-numbered level that is not empty; `last_pop_object` is what was
  popped last, and stays so; `push_back_last_pop` puts it back in front of its own level.
- `SequenceNumber::Min` and `Max` are 1 and 0x7FFFFFFF (section 4.7.24 of SMPP v5.0); command ids are those of
  section 4.7.5. A PDU without a number has number 0, as PDUs handed over by users have.
- Handlers are atomic. Whatever order the io thread and outside callers take, each event is one step; the locks are the
  matter of `Locks.dfy` alone.
- The clock counts microseconds and never goes back. A throttle sleep takes exactly as long as it asks for; the pauses of
  one and five seconds before a connect are waits of the clock. A timer expires and runs its handler in one step.
- Once the socket is closed, reads and writes that were under way, and writes issued later, complete with an error only.
- Whether a body decodes is part of the event that reads it: the decoder's exception is the flag `decodes`.
- A popped PDU is shared between the queue's memory of it and its writer, so the number it is given shows in both
  (`NumberLastPop`).
- The ageing sweep walks the keys the map had when it began, in order. The source erases entries while its iterator stands
  on them, and erases by the number a PDU has after it was handed on; where that number is not in the map, which takes a
  key not above Min, the source's behaviour is undefined and the model leaves the map as it is. No such key occurs in the
  runs that `EverySweepPartitions` speaks of.
- Frames have a command length of 16 or more, as the reader takes for granted. Where a stream breaks this, `Frames` and
  `ReadStream` end.

## Where the code is weaker than what it is for

The model follows the code. Where the code and its comments, or its evident aim, disagree, a lemma with a concrete case
says so and another gives the condition under which the aim is met, an exact one wherever the name ends in `Iff`.

- `do_enquire_link_failure` is to restart everything (`session_manager.cpp:882`), but `close_session(false)` takes the
  reconnect back. `NeverDeadIff`: a connect, a read or a reconnecting close stays outstanding exactly when no link test times out
  with no read and no connect outstanding. A write under way can still bring the engine back, by failing; `CanConnectIff`
  says exactly when an unstopped engine can connect again. `SilenceComesToThat` and `HangUpThenTimeoutDies`: every configuration has
  a run after which it never can.
- `procpdu_unbind` clears `stopFlag`. `StopIsFinalIff`: a stop is final exactly when no unbind is obeyed.
  `StoppedSessionCanHearUnbind`: any bound session can be stopped and connect again.
- A queue that is not empty is taken to mean that a write is under way (`session_manager.cpp:358`). `SendsIffNoBacklog`: an
  engine that starts with messages left on disk never writes anything, not even its bind, which is the open point at
  `ksmppc.hpp:59`. `ReconnectSendsIff`: the same holds after a close, exactly when a message was queued. `StalledForGood` gives it
  for any state without a write under way on the open socket, and `LostConnectionStalls` shows that one connection lost with a
  message under way is enough.
- The window of ten requests is asked for by `handle_write` and not by `do_write`. `WindowIsNotEnforced`: requests handed
  over one by one all go out and fill the map, as far as there are numbers. `WindowHoldsIff`: the window holds in a run exactly
  if no event is of the kinds that `OverflowsIff` names.
- `throttle_check` reschedules from the clock it read before it slept. `AtMostTwiceTheLimit`: the rate is at most twice the
  configured one; `BurstFillsWindow`: every configuration has a run that reaches it; `IntervalKeptIff`: between two writes the
  interval is kept exactly when the first did not sleep or the second needed no throttle.
- `handle_write` files the PDU popped last, not the one whose write completed. `MapIsHistoryIff`: the map is the history exactly
  if every completion files right, as it does where writes complete one at a time (`MapIsHistory`); `SecondWriteHidesFirst` shows
  a request lost from the map otherwise.
- A failed write likewise puts back the PDU popped last. `MessagesAccountedIff`: every message is accounted for exactly if every
  failed write finds its own message popped last, as it does where no write completes or fails while another is under way
  (`FailedWriteIsPutBack`). `TwoFailuresLoseFirst` and `LostConnectionLosesMessage` show a message lost otherwise; the latter needs no
  more than a connection lost at the wrong moment.
- A response that is read before the write of its request completes takes nothing off the map, and the request is filed
  afterwards. `AnsweredIsDoneIff`: nothing answered is left to be resent exactly if no completion files a request that has
  had a response; `EarlyAnswerIsResent` shows one resent otherwise.
- Some requests are numbered when they are handed over and some when they are written. `NumbersRiseIff`: the numbers on the wire
  rise exactly if no completion writes a request that others have overtaken; `NumbersCanFall` shows them fall otherwise. That they
  differ does not depend on it (`FreshNumbersDiffer`).
- Numbers up to Min are drawn anew, which hits the answer to a request numbered Min. `AnswerCarriesNumberIff`: an answer carries
  its request's number exactly if that is above Min; `FirstTestMisanswered` shows the other case.
- Only a PDU arms the link timer. `UnheardIsUntested`: a connection on which none was ever read is never tested.
- The ageing timer is armed by sweeps only. `AgeingGoesOnIff`: overdue requests go on being resent exactly until the first close
  or the first sweep that finds nothing; `NothingResentAfter`: from then on none is; `LostConnectionEndsAgeing`: a lost connection is
  enough.
- The comment at `session_manager.cpp:948` hopes for a bound on the age of a request. `NoRequestGrowsOld` has the bound that
  holds: 30 seconds and one period of the timer, while it is armed.
- Two mutexes are taken in both orders. `DeadlockFreeIffOneIoThread`: there is no deadlock exactly as long as at most one
  thread runs handlers.

## Model

| member | source | states |
|---|---|---|
| `StateSafety.NeverOutbound` | ksmppc/src/session_manager.cpp:813-832 | In every run OUTBOUND is never entered, and UNBOUND always has a posted close still to run. |
| `StateSafety.BoundOnlyByBindResp` | ksmppc/src/session_manager.cpp:526-540 | A step enters a bound state only from OPEN, only by reading a bind response with ESME_ROK, and the state is the one that response stands for. |
| `StateSafety.BoundAsConfigured` | ksmppc/src/session_manager.cpp:648-657 | With a message centre that answers each bind with its own response id, a bound session is bound as configured. |
| `Binding.GetsReady` | ksmppc/src/session_manager.cpp:217-226 | Every configuration gets bound: connect, bind, answer; it is then at rest with nothing queued, under way or awaiting. |
| `Binding.SendGoesOut` | ksmppc/src/session_manager.cpp:140-151 | What a user sends a bound session with an empty queue is numbered, throttled and written at once. |
| `Reconnection.NeverDeadIff` | ksmppc/src/session_manager.cpp:154-172 | All through a run, while not stopped, a connect or a read is outstanding or a close with the reconnect flag set is posted, if and only if no link test times out while neither read nor connect is outstanding. |
| `Recovery.CanConnectIff` | ksmppc/src/session_manager.cpp:324-334 | An unstopped engine has some run that issues a connect if and only if it is not hopeless: a connect, a read, a reconnecting close or a write is outstanding, or its queue is empty and a user, the link test or the sweep can make it write. |
| `Recovery.HopelessForGood` | ksmppc/src/session_manager.cpp:209-213 | A hopeless engine stays hopeless in every continuation and never issues a connect. |
| `Recovery.HangUpThenTimeoutDies` | ksmppc/src/session_manager.cpp:876-890 | A session at rest whose link test is about to time out dies for good, though never stopped, if an end of file is read first and both closes then run. |
| `Recovery.SilenceComesToThat` | ksmppc/src/session_manager.cpp:856-873 | Every configuration has a run to such a session: bound, then silence, with all its writes completed. |
| `Reconnection.StopIsFinalIff` | ksmppc/src/session_manager.hpp:120 | After a stop, whatever closes, errors, timers and failed connects follow, the stop flag stays set if and only if no unbind of the message centre is obeyed; and then no connect is ever issued. |
| `Reconnection.UnbindUndoesStop` | ksmppc/src/session_manager.cpp:813-832 | A stopped session that obeys an unbind issues a connect when the posted close runs, and is no longer stopped. |
| `Reconnection.StoppedSessionCanHearUnbind` | ksmppc/src/session_manager.hpp:120 | Any bound session can be stopped, hear an unbind before its close has run, and connect again. |
| `Cleanup.NothingLeaks` | ksmppc/src/session_manager.cpp:189-214 | In every run, a CLOSED session with no close posted has its socket shut, both link timers off, the ageing timer off or idle, and, unless stopped, no SESSION or RESPONSE PDU queued, although aborted writes push PDUs back after the queue was cleared. |
| `Throttle.OnTimeRun` | ksmppc/src/session_manager.cpp:338-350 | In every run each write is issued at the clock reading it took, or at the previous write's reading plus the interval if that is later: no other delay, no shorter one. |
| `Throttle.SleepsAreShort` | ksmppc/src/session_manager.cpp:342-345 | No throttle sleep is longer than the interval. |
| `Throttle.TwoPerInterval` | ksmppc/src/session_manager.cpp:349 | Writes that are 2k apart are at least k intervals apart in time. |
| `Throttle.AtMostTwiceTheLimit` | ksmppc/src/session_manager.cpp:184-185 | In every run, any half-open window of as many intervals as the configured limit sees at most twice the limit of writes. |
| `Throttle.RatePerSecond` | ksmppc/src/session_manager.cpp:184-185 | In every run any 1000000 - limit + 1 microseconds see at most twice the limit of writes, for a limit up to a million. |
| `Throttle.IntervalKeptIff` | ksmppc/src/session_manager.cpp:341-349 | Two successive writes are an interval apart if and only if the first did not sleep or the second was asked for late enough to need no throttle. |
| `Throttle.BurstGoesInPairs` | ksmppc/src/session_manager.cpp:368-386 | What a user sends a bound session with an empty queue in a burst goes out in pairs, one pair an interval: write i at (i + 1) / 2 intervals after the burst. |
| `Throttle.BurstFillsWindow` | ksmppc/src/session_manager.cpp:338-386 | The bound is tight: every configuration has a run, connect, bind and burst, with exactly 2n writes in a window of n intervals. |
| `Throttle.BurstOutInOneSecond` | ksmppc/src/session_manager.cpp:184-185 | What a user sends a bound session at rest in a burst of twice the limit is all written within 1000000 microseconds. |
| `Accounting.EachAcceptedWrittenOnce` | ksmppc/src/session_manager.cpp:353-365 | From an empty queue and without write errors the queue is empty between events, and the wire is the sequence of accepted PDUs, each once and in order, changed at most in a number not above Min. |
| `Accounting.EachRequestAnsweredOnce` | ksmppc/src/session_manager.cpp:492-523 | In every run the responses accepted for sending are, in order and one each, the ESME_ROK answers to the deliver_sm, enquire_link and unbind requests that arrived in a state that takes them; and the receive queue got exactly the deliver_sm among them. |
| `Accounting.EachAnswerOnWireOnce` | ksmppc/src/session_manager.cpp:737-749 | From an empty queue and without write errors the responses on the wire are those answers, one each and in order, ESME_ROK, and with the request's number whenever that is above Min. |
| `Accounting.AckedOnlyIfQueued` | ksmppc/src/session_manager.cpp:698-730 | In every run the acknowledgements of deliver_sm accepted for sending are those of the messages pushed to the receive queue, in order and one each. |
| `AnswerNumbers.ResponsesInKind` | ksmppc/src/session_manager.cpp:698-749 | In every run the responses handed over are, in order and one each, enquire_link_resp to enquire_link, unbind_resp to unbind and deliver_sm_resp to deliver_sm, by id, without error, under the request's number. |
| `AnswerNumbers.WireAnswersInKind` | ksmppc/src/session_manager.cpp:813-832 | From an empty queue and without write errors the same is true of the responses on the wire, the number being kept if it is above 1. |
| `AnswerNumbers.AnswerCarriesNumberIff` | ksmppc/src/session_manager.cpp:373-375 | Within one cycle of numbers, from an empty queue and without write errors, the i-th answer on the wire is the answer to the i-th request owed one, number included, if and only if that number is above Min. |
| `AnswerNumbers.NothingUnderMinimum` | ksmppc/src/session_manager.cpp:373-375 | In every run within one cycle of numbers, with any backlog and any write errors, nothing on the wire carries Min or no number. |
| `AnswerNumbers.FirstTestMisanswered` | ksmppc/src/session_manager.cpp:737-749 | A bound session answers a link test numbered Min under the number it draws next. |
| `Messages.MessagesConserved` | ksmppc/src/session_manager.cpp:324-333 | In every run, through closes, reconnects, write errors and sweeps, messages queued and messages written, well or not, balance the backlog, those accepted and those put back: closing drops none from the queue. |
| `Failures.PutsBackOwnIff` | ksmppc/src/session_manager.cpp:326 | A write that fails, on the open socket or one closed since, has its own PDU put back in front of its level if and only if that is the PDU popped last. |
| `Failures.FailureAccountsIff` | ksmppc/src/session_manager.cpp:324-326 | A failure keeps the messages accounted for (each queued, under way or written with success, once for each time it was handed over) if and only if it finds its own message popped last. |
| `Failures.MessagesAccountedIff` | ksmppc/src/session_manager.cpp:313-334 | All through a run of any configuration and backlog, messages queued, under way and written with success are as a multiset the backlog and those accepted, if and only if every write that fails in it finds its own message popped last. |
| `Failures.FailedWriteIsPutBack` | ksmppc/src/session_manager.cpp:324-326 | In a run in which no write completes or fails while another is under way, on the same socket or one closed since, every failed write has its own PDU put back in front of its level, and every message is accounted for. |
| `Failures.TwoFailuresLoseFirst` | ksmppc/src/session_manager.cpp:326 | Of two PDUs that a user sends back to back and that both fail, the second is queued twice and the first is gone. |
| `Failures.LostConnectionLosesMessage` | ksmppc/src/session_manager.cpp:189-214 | A bound session that loses its connection with a message under way loses the message, if the aborted write completes after the next bind was written. |
| `Stalling.StalledForGood` | ksmppc/src/session_manager.cpp:358-364 | From a state with a message queued and no write under way on the open socket, whatever is under way on closed ones, no run ever writes anything again. |
| `Stalling.SendsIffNoBacklog` | ksmppc/src/ksmppc.hpp:59-60 | Some run of the engine writes something if and only if no message was left on disk at the start. |
| `Stalling.ReconnectSendsIff` | ksmppc/src/session_manager.cpp:209-213 | After a close with reconnect some run writes again, its bind to begin with, if and only if no message was queued at the close. |
| `Stalling.LostConnectionStalls` | ksmppc/src/session_manager.cpp:324-334 | A bound session that loses its connection with a message under way, the aborted write completing after the close, is about to connect again and yet never writes anything again in any continuation. |
| `Chain.DrainsInOrder` | ksmppc/src/session_manager.cpp:313-323 | From one write outstanding, successive completions write the queue out in SESSION, RESPONSE, MESSAGE order, first in first out; they stop with the queue empty, the session unbound or ten awaiting; and awaiting plus outstanding never exceeds ten or its starting value. |
| `Chain.DrainIsARun` | ksmppc/src/session_manager.cpp:321-323 | That chain is what a session goes through when its writes complete and nothing else happens. |
| `Chain.Completion` | ksmppc/src/session_manager.cpp:113-131 | A completion writes the next PDU in line if and only if the session is bound, the queue is not empty and fewer than ten requests await a response; otherwise nothing is left outstanding. |
| `Chain.WindowIsNotEnforced` | ksmppc/src/session_manager.cpp:362-364 | n requests handed over one by one, each completing before the next, are all written and all await a response, for any n up to a cycle of numbers. |
| `SendWindow.OverflowsIff` | ksmppc/src/session_manager.cpp:353-365 | An event makes requests awaiting and writes under way more than they were and more than ten if and only if it hands a PDU to an empty queue on a working socket with ten or more of them and takes none off the map, or is a completion that overtakes another; where writes complete one at a time, only the former. |
| `SendWindow.WindowHoldsIff` | ksmppc/src/session_manager.cpp:113-131 | In every run within one cycle of numbers, requests awaiting and writes under way stay within ten throughout if and only if no event in it is of that kind. |
| `Awaiting.AwaitedMeans` | ksmppc/src/session_manager.hpp:222 | A number counts as awaited if and only if a completed write of a request carries it that no later response or resending names. |
| `Awaiting.AnswersAreThoseRead` | ksmppc/src/session_manager.cpp:281-283 | In every run the numbers recorded as answered are, in order, those of the PDUs read whose id is above generic_nack, whatever their status. |
| `Awaiting.FilesOnlyRequests` | ksmppc/src/session_manager.cpp:904-913 | In every run the map holds requests only, never a response, and each under its own number. |
| `Awaiting.MapIsHistoryIff` | ksmppc/src/session_manager.cpp:313-319 | All through a run the map holds exactly the requests awaited by the history of completions, responses and resendings, if and only if every completion files right: the PDU popped last is the one whose write completes, or both are filed as they are already, as far as they are requests. |
| `Awaiting.MapIsHistory` | ksmppc/src/session_manager.cpp:916-926 | In particular this is so in a run whose writes complete one at a time. |
| `Awaiting.SecondWriteHidesFirst` | ksmppc/src/session_manager.cpp:319 | Of two requests that a user sends back to back, both completed, only the second is in the map. |
| `Answered.AnsweredIsDoneIff` | ksmppc/src/session_manager.cpp:281-283 | All through a run no request on the map, and so none that a sweep can resend, has had a response, if and only if at each completion the request that it files has had none yet. |
| `Answered.EarlyAnswerIsResent` | ksmppc/src/session_manager.cpp:929-943 | A request whose response is read before its write completes is resent by the sweep, though answered. |
| `Numbering.NumberStandsForOneRequest` | ksmppc/src/session_manager.cpp:368-375 | In a run within one cycle of numbers, with users that hand over unnumbered requests: requests on the wire, queued or awaiting that share a number above Min are equal; all were drawn; none written carries Min. |
| `FreshNumbers.NumbersUsedWithReason` | ksmppc/src/session_manager.cpp:373-375 | In such a run, with any backlog and any write errors, requests numbered n are on the wire and in the queue together at most as often as n was drawn, put back and resent. |
| `FreshNumbers.FreshNumbersDiffer` | ksmppc/src/session_manager.cpp:368-375 | In such a run two requests on the wire carry different numbers, drawn and above Min, unless theirs was put back or resent. |
| `FreshNumbers.FilingDisplacesNothing` | ksmppc/src/session_manager.cpp:911 | In such a run, filing a request never pushes a different one out of the map; and a number on the map that was never put back or resent was written once at most. |
| `NumberOrder.NumbersRiseIff` | ksmppc/src/session_manager.cpp:321-323 | Within one cycle of numbers, with any backlog and any write errors, the numbers of requests on the wire rise all through a run, but for resendings, if and only if no completion goes on to write a request that was numbered before and is not above all that were written since. |
| `NumberOrder.NumbersRise` | ksmppc/src/session_manager.cpp:401 | In particular they rise, starting from an empty queue, as long as no write fails. |
| `NumberOrder.NumbersCanFall` | ksmppc/src/session_manager.cpp:326 | A stopped session still bound whose write fails and that then tests its link writes the failed request after the link test, under a lower number. |
| `SequenceNumbers.NthIsCyclic` | ksmppc/src/session_manager.hpp:63-72 | Draw k returns Min + k mod (Max - Min + 1). |
| `SequenceNumbers.SameNumberIffWholeCycles` | ksmppc/src/session_manager.hpp:63-72 | Two draws return the same number if and only if a whole number of cycles lies between them. |
| `SequenceNumbers.SequenceNumberGenerator.constructor` | ksmppc/src/session_manager.hpp:61 | The first number to be drawn is Min. |
| `SequenceNumbers.SequenceNumberGenerator.Next` | ksmppc/src/session_manager.hpp:63-72 | Returns the current number and moves to its successor, which after Max is Min. |
| `Ageing.AscendingVisitsAll` | ksmppc/src/session_manager.cpp:934 | The walk over the map visits each key once, in rising order. |
| `Ageing.SweepPartitions` | ksmppc/src/session_manager.cpp:934-940 | A sweep hands over exactly the requests expired when visited, once each, in rising order and with their numbers, all to the wire or all to the MESSAGE level; the others keep their place and time stamp; all that had expired at the start are handed over. |
| `Ageing.EverySweepPartitions` | ksmppc/src/session_manager.cpp:929-943 | In every run within one cycle of numbers, every sweep is such a partition. |
| `Ageing.SweepsApart` | ksmppc/src/session_manager.cpp:946-953 | In every run a sweep starts at least one period after the last one ended, and the first at least one period after the start. |
| `Ageing.NoRequestGrowsOld` | ksmppc/src/session_manager.cpp:946-953 | In such a run, while the ageing timer is armed, no request has awaited a response for 30 seconds plus the period or more, apart from the time the sweep takes and the timer is late. |
| `Ageing.AgeingGoesOnIff` | ksmppc/src/session_manager.cpp:946-953 | At the end of a run the ageing timer is armed if and only if there was no close in it and no sweep that found the map empty. |
| `Ageing.AgeingDoesNotRestart` | ksmppc/src/session_manager.cpp:931-941 | Once the ageing timer is off it stays off in every continuation, and nothing more is resent. |
| `Ageing.NothingResentAfter` | ksmppc/src/session_manager.cpp:198 | After the first close of a run, or the first sweep of an empty map, nothing is ever resent. |
| `Ageing.LostConnectionEndsAgeing` | ksmppc/src/session_manager.cpp:189-214 | A bound session that loses its connection connects again with the ageing timer off. |
| `Silence.NeverBothTimers` | ksmppc/src/session_manager.cpp:845-873 | In every run at most one of the two link timers is armed. |
| `Silence.SilenceIsNoticed` | ksmppc/src/session_manager.cpp:845-890 | After any PDU in any run, once the clock has passed its time by period, response timeout and one throttle interval (plus twice the lateness of the event loop), a close has been asked for, unless another PDU or a stop came. |
| `Silence.UnheardIsUntested` | ksmppc/src/session_manager.cpp:845-853 | With both link timers off, as at the start and after every close, neither is armed nor expires until a PDU is read: a message centre that never says anything is never tested. |
| `Framing.RoundTrip` | ksmppc/src/session_manager.cpp:247-258 | A stream made of PDUs whose length field is their length, followed by an incomplete one, is read as exactly those PDUs. |
| `Framing.FramesBeginStream` | ksmppc/src/session_manager.cpp:277-294 | Whatever is read is complete PDUs that, put together, begin the stream. |
| `Framing.TruncatedStream` | ksmppc/src/session_manager.cpp:247-294 | A stream of PDUs cut off anywhere is read as the PDUs that fit, and as all of them. |
| `Framing.EncodeRoundTrip` | ksmppc/src/rawpdu.hpp:66-69 | The four big-endian header fields and the body of an encoded PDU read back as they were (section 3.2.1 of SMPP v5.0). |
| `Framing.LinkTestBytes` | ksmppc/src/rawpdu.hpp:65-69 | A link test is a given sequence of sixteen bytes: length, id, status and number, highest byte first. |
| `Framing.PdusSurviveStream` | ksmppc/src/session_manager.cpp:247-294 | A sequence of PDUs encoded into one stream is read back as that sequence. |
| `Framing.RawPdu.constructor` | ksmppc/src/rawpdu.hpp:31-37 | A new buffer has 16 bytes for the header and no full buffer. |
| `Framing.RawPdu.BodyBuf` | ksmppc/src/rawpdu.hpp:48-59 | The header buffer becomes the front of a fresh buffer as long as the PDU; all four header fields stay. |
| `Framing.ReadHeader` | ksmppc/src/session_manager.cpp:228-233 | The header read fills a fresh buffer with the 16 bytes. |
| `Framing.ReadBody` | ksmppc/src/session_manager.cpp:256-258 | After the body read the full buffer is header and body, put together. |
| `Framing.ReadStream` | ksmppc/src/session_manager.cpp:247-294 | The loop of the two read handlers over a stream returns its complete PDUs and what is left. |
| `Locks.CallIsDisciplined` | ksmppc/src/session_manager.cpp:904-943 | Every entry point lets go of what it takes, takes nothing it holds, takes nothing while it draws a number; and only handlers touch the awaiting map's mutex. |
| `Locks.CallTakes` | ksmppc/src/session_manager.cpp:353-365 | A call takes the map's mutex exactly in a pop, a sweep and a completion that files; the one for writing in all but a pop and a sweep that resends nothing; the generator's exactly where a number is drawn. |
| `Locks.DeadlockFreeIffOneIoThread` | ksmppc/src/ksmppc.cpp:76-82 | No interleaving of any threads closes a ring of waiting threads, or has one wait for itself, if and only if at most one thread runs handlers. |
| `Locks.SomeThreadGoesOn` | ksmppc/src/ksmppc.cpp:35-36 | With one io thread, whenever a thread is inside a call, some thread can go on. |
| `Locks.TwoIoThreadsCanDeadlock` | ksmppc/src/session_manager.cpp:318-319 | With two io threads, a write completion and a sweep can wait for each other. |
| `Workers.MessagesAreSomewhere` | ksmppc/src/ksmppc.cpp:89-117 | Under any interleaving of pushes, pops and outcomes of delivery, each message is in the buffer, in hand, in the error buffer or delivered, as often as it was pushed. |
| `Workers.MessagesGoByOutcome` | ksmppc/src/ksmppc.cpp:107-115 | Under any interleaving the error buffer grows by exactly the messages whose delivery failed for good, what was delivered by those that succeeded, the receive buffer by those pushed and those to be retried, which wait behind; it is taken from in front. |
| `Workers.AcknowledgedIsSomewhere` | ksmppc/src/ksmppc.cpp:85-118 | For any run of the session and any interleaving with the receive loop, the acknowledgements accepted for sending are those of the messages pushed, in turn, and each of these messages is in one of these places, as often as it was pushed. |
| `Workers.TurnIsInterleaving` | ksmppc/src/ksmppc.cpp:89-117 | A pass of the receive loop is one of these interleavings, and ends with nothing in hand. |
| `Workers.SendsWhatStateAllows` | ksmppc/src/session_manager.cpp:140-151 | In every run, whatever else happens in between, of what the send loop hands over the session accepts exactly the PDUs its state allows at the time, in order; all accepted at level MESSAGE is these and what sweeps hand over. |
| `Workers.LoopSendsInTurn` | ksmppc/src/ksmppc.cpp:121-137 | What the loop popped and what it still holds are the buffer and all that arrived, in order; and the loop's sends are what it popped. |
| `Workers.Ksmppc.constructor` | ksmppc/src/ksmppc.cpp:24-37 | The buffers start empty. |
| `Workers.Ksmppc.ReceivePass` | ksmppc/src/ksmppc.cpp:90-116 | One pass takes the oldest message and delivers it, puts it back at the end, or moves it to the error buffer, by the outcome of delivery; an empty buffer changes nothing. |
| `Workers.Ksmppc.RecieveProcessor` | ksmppc/src/ksmppc.cpp:85-118 | The loop is its passes one after the other. |
| `Workers.Ksmppc.SendPass` | ksmppc/src/ksmppc.cpp:126-135 | One pass, with the io thread handling any events before the PDU is handed on, takes the session through those events and the send of the oldest PDU, if there is one. |
| `Workers.Ksmppc.SendingProcessor` | ksmppc/src/ksmppc.cpp:121-137 | The loop with the io thread interleaved takes the session through a run of the events in between and one send for each PDU popped; the buffer keeps the rest in order. |
| `Refinement.ProcessReacts` | ksmppc/src/session_manager.cpp:492-645 | The dispatch over state and command id does what one table of reactions says. |
| `Refinement.ControlRefines` | ksmppc/src/session_manager.cpp:154-335 | For every event the engine's state, flags and pending continuations change as in a control automaton that does not look at what is sent. |
| `Refinement.TransmissionRefines` | ksmppc/src/session_manager.cpp:313-422 | For every event the engine does to its transmitter what a list of actions does that depends only on control and on the keys of the awaiting map. |
| `Protocol.ConnectionBinds` | ksmppc/src/session_manager.cpp:389-412 | A connection hands over one PDU: bind_transmitter, bind_receiver or bind_transceiver as configured, with the configured credentials, at level SESSION; on an empty queue it goes on the wire. |
| `Protocol.OutbindBinds` | ksmppc/src/session_manager.cpp:537 | An outbind read in OPEN hands over the same. |
| `Protocol.LinkTimerTests` | ksmppc/src/session_manager.cpp:860-866 | The link timer hands over one enquire_link, at level SESSION. |
| `Protocol.ClosingUnbinds` | ksmppc/src/session_manager.cpp:157-168 | A stop, a link test that timed out and a read error hand over one unbind if the session is bound, and nothing if not. |
| `Protocol.UndecodableUnbinds` | ksmppc/src/session_manager.cpp:514-522 | So does a body that does not decode. |
| `Protocol.OthersHandOverNothing` | ksmppc/src/session_manager.cpp:189-244 | Of itself the engine hands over nothing else, apart from what it answers and resends. |
| `Protocol.SendTakesIff` | ksmppc/src/session_manager.cpp:425-489 | What a user sends is handed over unchanged if its id is one of nine requests and the session is bound to transmit, or one of two responses and it is bound to receive; else nothing changes. |
| `Protocol.SubmitGoesOut` | ksmppc/src/session_manager.cpp:437-440 | A submit_sm is written at once out of an empty queue in BOUND_TX and BOUND_TRX. |
| `Protocol.ResponseTakesOff` | ksmppc/src/session_manager.cpp:916-926 | A PDU read with an id above 0x80000000 takes its number off the map, whatever its status; no other touches the map. |
| `Protocol.CompletionFiles` | ksmppc/src/session_manager.cpp:904-913 | A completion files the PDU popped last if its id is below 0x80000001, under its number and with the second it is, and changes nothing else on the map. |
| `Protocol.CompletionWritesIff` | ksmppc/src/session_manager.cpp:113-131 | A completion writes the next PDU if and only if the session is bound, something is queued and fewer than ten await a response. |
| `Protocol.VisitResendsIff` | ksmppc/src/session_manager.cpp:935-939 | The sweep resends a request if and only if thirty seconds or more have passed since it was filed, and takes off the map the number it then has. |
| `Protocol.UndecodableCloses` | ksmppc/src/session_manager.cpp:514-522 | A body that does not decode asks for a close with reconnect if and only if the engine looks into it: enquire_link, unbind, deliver_sm and submit_sm_resp without error, each in the states that decode it. |
| `Protocol.ReadErrorEndsOne` | ksmppc/src/session_manager.cpp:259-273 | A read error ends that read only, and unless stopped asks for a close with reconnect, in CLOSED at an end of file. |
| `Protocol.ReconnectWaits` | ksmppc/src/session_manager.cpp:209-239 | A reconnect waits one second after a close and five after a failed connect. |
| `Protocol.LinkTimersSet` | ksmppc/src/session_manager.cpp:845-869 | The link timer is set one period after a PDU is read, the response timer one timeout after the test is written. |
| `Protocol.NumbersDrawn` | ksmppc/src/session_manager.hpp:63-72 | Draw k is 1 plus k modulo 0x7FFFFFFF. |
| `TransmitQueue.PopTakesFirst` | ksmppc/src/session_manager.cpp:371 | A pop takes the head of the order SESSION, RESPONSE, MESSAGE and leaves the rest of that order as it was. |
| `TransmitQueue.PushKeepsOrder` | ksmppc/src/session_manager.cpp:360 | A push lands behind its own and more urgent levels and ahead of less urgent ones; nothing else moves. |
| `TransmitQueue.PushBackUndoesPop` | ksmppc/src/session_manager.cpp:326 | Putting back what was just popped makes it first in line again, with the number it was given, and leaves the rest as it was. |
| `TransmitQueue.TransmitQ.constructor` | ksmppc/src/transmit_queue.hpp:36-46 | A new queue keeps the stored messages and nothing of the two session levels. |
| `TransmitQueue.TransmitQ.ClearSessionQueues` | ksmppc/src/transmit_queue.hpp:48-52 | Empties the SESSION and RESPONSE levels and leaves the messages. |
| `TransmitQueue.TransmitQ.Push` | ksmppc/src/session_manager.cpp:360 | Adds a PDU at the end of its level. |
| `TransmitQueue.TransmitQ.Pop` | ksmppc/src/session_manager.cpp:371 | Takes the front and remembers it as the last pop. |
| `TransmitQueue.TransmitQ.PushBackLastPop` | ksmppc/src/session_manager.cpp:326 | Puts the last popped PDU back in front of its level. |
| `TransmitQueue.TransmitQ.NumberLastPop` | ksmppc/src/session_manager.cpp:373-375 | The number given to a popped PDU shows in the queue's memory of it. |
| `Engine.Operate` | ksmppc/src/session_manager.cpp:27-47 | A fresh engine object that has handled any events that can happen in that order is in the state the run ends in: never OUTBOUND, bound as configured, clean when closed, within twice the rate, its map and its acknowledgements as the lemmas on runs say. |
| `SessionManager.SessionManager.Run` | ksmppc/src/ksmppc.cpp:80-81 | The event loop: the object goes through the states of the run. |
| `SessionManager.SessionManager.Handle` | ksmppc/src/session_manager.cpp:217-943 | Any event that is possible takes the object to the state of one step. |
| `SessionManager.SessionManager.constructor` | ksmppc/src/session_manager.cpp:27-47 | A new engine is CLOSED, with the stored messages queued, the ageing timer armed and one connect outstanding. |
| `SessionManager.SessionManager.Connect` | ksmppc/src/session_manager.cpp:82-89 | One more connect is outstanding. |
| `SessionManager.SessionManager.CloseSession` | ksmppc/src/session_manager.cpp:154-172 | The reconnect flag is as asked; a session that is bound or OUTBOUND sends an unbind; a close is posted. |
| `SessionManager.SessionManager.Stop` | ksmppc/src/session_manager.hpp:120 | The stop flag is set and the session closed without reconnect. |
| `SessionManager.SessionManager.CloseConnection` | ksmppc/src/session_manager.cpp:189-214 | CLOSED, all timers off, session levels cleared, what is under way on the socket stale; a connect one second later if a reconnect was asked for and no stop, and the request is used up. |
| `SessionManager.SessionManager.HandleConnect` | ksmppc/src/session_manager.cpp:217-244 | Connected: OPEN, a bind request handed over, a header read outstanding. Failed: a new connect five seconds later unless stopped. |
| `SessionManager.SessionManager.HandleReadHeader` | ksmppc/src/session_manager.cpp:251-258 | A header read is replaced by a body read. |
| `SessionManager.SessionManager.HandleReadBody` | ksmppc/src/session_manager.cpp:277-294 | The awaited request is answered, the PDU processed in the present state, the next header read. |
| `SessionManager.SessionManager.HandleReadError` | ksmppc/src/session_manager.cpp:262-272 | Unless stopped: at end of file CLOSED with a close posted and reconnect set; at any other error the session is closed with reconnect. |
| `SessionManager.SessionManager.HandleWrite` | ksmppc/src/session_manager.cpp:317-323 | The PDU popped last is filed; the next is written if the session may send. |
| `SessionManager.SessionManager.HandleWriteError` | ksmppc/src/session_manager.cpp:324-334 | The PDU popped last goes back to the front of its level; unless stopped, CLOSED with a close posted and reconnect set. |
| `SessionManager.SessionManager.ThrottleCheck` | ksmppc/src/session_manager.cpp:338-350 | The clock waits for the next send time, which becomes the reading before the wait plus the interval. |
| `SessionManager.SessionManager.WritePdu` | ksmppc/src/session_manager.cpp:368-386 | The front PDU is numbered, throttled and written; its write is outstanding. |
| `SessionManager.SessionManager.DoWrite` | ksmppc/src/session_manager.cpp:353-365 | The PDU is queued, and the front written if the queue was empty. |
| `SessionManager.SessionManager.DoBindRequest` | ksmppc/src/session_manager.cpp:389-412 | A bind request of the configured kind is handed over with a number drawn for it. |
| `SessionManager.SessionManager.DoUnbindRequest` | ksmppc/src/session_manager.cpp:415-422 | An unbind request is handed over without a number. |
| `SessionManager.SessionManager.SendPdu` | ksmppc/src/session_manager.cpp:140-151 | A user's PDU is handed over exactly if the state allows its command id. |
| `SessionManager.SessionManager.Process4State` | ksmppc/src/session_manager.cpp:492-523 | Puts off the link test, then dispatches on the state; the decoder's exception closes the session with reconnect. |
| `SessionManager.SessionManager.Process4StateOpen` | ksmppc/src/session_manager.cpp:526-540 | OPEN takes bind responses, outbind and link tests. |
| `SessionManager.SessionManager.Process4StateOutbound` | ksmppc/src/session_manager.cpp:632-645 | OUTBOUND takes bind responses and link tests. |
| `SessionManager.SessionManager.Process4StateBoundTx` | ksmppc/src/session_manager.cpp:543-564 | BOUND_TX takes unbind, its response and link tests. |
| `SessionManager.SessionManager.Process4StateBoundRx` | ksmppc/src/session_manager.cpp:567-609 | BOUND_RX and BOUND_TRX take deliver_sm besides; they differ only in PDUs whose handlers do nothing. |
| `SessionManager.SessionManager.Process4StateUnbound` | ksmppc/src/session_manager.cpp:612-622 | UNBOUND takes link tests only. |
| `SessionManager.SessionManager.ProcBindResp` | ksmppc/src/session_manager.cpp:648-657 | The state becomes the bound one exactly at ESME_ROK. |
| `SessionManager.SessionManager.ProcDeliverSm` | ksmppc/src/session_manager.cpp:698-730 | The message is pushed to the receive queue and acknowledged at level RESPONSE. |
| `SessionManager.SessionManager.ProcUnbind` | ksmppc/src/session_manager.cpp:813-832 | UNBOUND, answered, the stop undone, a close posted with reconnect. |
| `SessionManager.SessionManager.ProcUnbindResp` | ksmppc/src/session_manager.cpp:835-842 | OPEN, then closed without reconnect. |
| `SessionManager.SessionManager.RescheduleEnquireLink` | ksmppc/src/session_manager.cpp:845-853 | The link timer is set one period ahead and the response timer is off. |
| `SessionManager.SessionManager.DoEnquireLink` | ksmppc/src/session_manager.cpp:856-873 | On expiry a numbered link test is handed over and the response timer set after it. |
| `SessionManager.SessionManager.DoEnquireLinkFailure` | ksmppc/src/session_manager.cpp:876-890 | On expiry, unless stopped, the session is closed, without reconnect as the code has it. |
| `SessionManager.SessionManager.W4rqPut` | ksmppc/src/session_manager.cpp:904-913 | A request is filed under its number with the present second; a response is not. |
| `SessionManager.SessionManager.W4rqPop` | ksmppc/src/session_manager.cpp:916-926 | A response takes the request of its number off the map. |
| `SessionManager.SessionManager.W4rqAgeCleanup` | ksmppc/src/session_manager.cpp:929-943 | On expiry with a map that is not empty, the sweep, and the timer is set again. |
| `SessionManager.SessionManager.VisitAwaiting` | ksmppc/src/session_manager.cpp:935-939 | An expired request is handed over and what its number then is erased. |
| `SessionManager.SessionManager.SetW4rqAgeingTimer` | ksmppc/src/session_manager.cpp:946-953 | The ageing timer is set one period ahead. |

## Left out

- Sockets, name resolution, real threads and real sleeps: only completions, waits of the clock and lock steps remain.
- Encoding and decoding of PDU fields, hex dumps and the base64 form on disk: they belong to libraries that are not part of this model; a body is opaque bytes.
- The paging of queues to disk in the kisscpp library: only what a new engine finds at level MESSAGE remains.
- `SendHandler`, `deliverSm2Ptree`, configuration, statistics and the read and write counters, logging and `main.cpp`: they only pass data on or count.
- Handlers marked as not supported yet: nothing but what every PDU does, taking its request off the map and putting off the link test.
- `initiate()`: nothing calls it.
- Malformed lengths below 16, the destructor of `RawPdu`, and the lifetime of the buffer handed to `async_write`: memory questions.
- The bind type check of `makeBindType` and a throttle limit of zero, which divides by zero: the configuration has one of three bind types and a positive limit.
- The mutexes inside the queues of the kisscpp library: they are let go before their methods return, so nothing is taken under them.
- Sharing of PDU objects beyond the popped one: an awaiting PDU that is handed over again is a value of its own; its number changes only when it is not above Min.
- The receive queue of the session is the record of all pushes; the worker's buffer, from which messages are taken, is a part of `Workers.dfy`.
- Silence.SilenceIsNoticed: how late the event loop may get is a parameter, because sleeps inside handlers hold it up without a fixed bound.
- Ageing.NoRequestGrowsOld: how long a sweep takes and how late the timer is are parameters, for the same reason.
