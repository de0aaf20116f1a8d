# Voice calls and speech transcription in the STT gateway toolkit: a verified model

The toolkit takes telephone calls from a voice gateway, throttles them, routes them to speech processors, transcribes
them over a WebSocket connection to the speech service, and keeps an access token fresh for that. This project models
the parts of it in which state has to agree over whole runs, and proves that it does.

## What is modelled

**Admission and routing of calls.** `GatewaySource` is the source operator: connections, the start times of the speaking
channels of each call, call sequence numbers, throttled calls and the counters that summarise them, with the handlers for
opened connections, text messages, speech packets, closed connections, the periodic purge and the limit setter. The class
`IBMVoiceGatewaySource` changes its fields step by step as the handlers do, and refines the step function over which the
runs of the other modules range. `CallRouter` is the data router behind it: a class with the counters, the maps and the
cursor, the search loop, and the release of a call after one or two end of call signals (EOCS). `GatewayProperties`,
`GatewayRefinement`, `GatewayOutput` and `RouterProperties` hold what is true of all runs of either. `EndToEnd` composes
the two: the throttling of the source protects the router, exactly as long as the limits it is given fit the processors.
`TwoSignals` says when the router in two-EOCS mode gives back every place behind this source, and `Overflow` what
becomes of it when it does not.

**The handshake of the transcription operator.** `Handshake` is a step relation of two threads. The thread that sends
audio and the thread that receives results each have a program counter; every load and store of `wsState`,
`transcriptionFinalized`, `nextConversationQueued` and `recentOTuple`, every use of the client and every submission is a
step of its own, and steps interleave freely with each other and with what the service and the network may do.
`Transcript` adds what the output tuples contain and what is submitted. `HandshakeSafety` proves one invariant, step by
step; `TranscriptProperties`, `ConnectionTraffic` and `ConversationEnds` derive the results: tuple lifetime, use of the
connection, well-bracketed traffic, no final result lost or doubled, speaker lists that fit, window and final markers.
`HandshakeStates` has the order of the states and the decisions taken in each, `AudioFlow` the conservation of what comes
in. `Submissions` tells what is submitted a second time, without tuples: an account of messages and program counters,
which every submission of every interleaving agrees with. `Handlers` says what each handler of the receiver amounts to as
a whole: the step relation, run without interruption, refines the sequential reading of the code.

**Decoding and alignment.** `Decoder` is the accumulating decoder over a JSON tree (`Json`), as a class whose methods
append in loops; it refines a fold, and `DecoderProperties` says what the fold means. `DecoderRoundTrip` renders what
the service says as a document and gets it back, and `MessageSchema` describes exactly the documents that are accepted.
`SpeakerAlignment` is the assignment of speaker labels to words; the handshake uses it for the tuples it labels.

**Tokens.** `TokenLoop` is the loop that requests and refreshes access tokens, and the removal of interim responses from
a header list (section 15.2 of RFC 9110).

`Wrappers`, `Sets`, `SpeechStream` and `ChannelKey` hold an option type, the size of a set under a name, the tuple
between source and router, and the composite key of the router.

## Findings

- The two-EOCS mode of the router relies on the gateway to speak on both channels of a call. A call is left unsettled by
  the close of its last connection while the other channel has had none that closed, and by a packet after both channels
  have closed. It then keeps its place until a connection on the owed channel answers
  (`TwoSignals.UnsettledKeepsItsPlace`); when none does, and in particular when no session id is used for a second call,
  the processors are idle at the end if and only if no call was left unsettled (`TwoSignals.IdleIffSettled`,
  `TwoSignals.IdleIffSettledOnce`). For calls of at most two connections this means that no connection closed before the
  other channel had spoken (`TwoSignals.IdleIffBothSpeak`). Without any proviso, the places taken are the open accounts of
  a ledger of owed signals (`RouterProperties.PlacesAreOwed`).
- The limit setter accepts any value that is not negative. Above the N * capacity places of the router the throttling no
  longer protects it (`EndToEnd.ProtectedIffLimitsFit`). In two-EOCS mode no limit but 0 protects it by itself, as calls
  that were left unsettled fill the router one after the other (`Overflow.WaitingCallsOverflow`,
  `Overflow.ProtectedIffNoneAdmitted`).
- The peak counter is compared with the active count alone when a call is admitted, and is still the exact historical
  maximum of active plus throttled calls (`GatewayProperties.PeakIsHistoricalMaximum`).
- `receiverHasTransientState` leaves out the error state that the comment at its declaration calls transient, so a
  connection can be requested over an error state (`HandshakeStates.ConnectDecides`). The model does the same. Tuple
  lifetime and results survive it.
- Not every conversation has exactly one window marker. On every run a conversation has one marker, one more for each
  closed connection that was marked in it, and one less if it was abandoned (`ConversationEnds.ConversationMarkers`), so it
  has exactly one if and only if the guards of these two were passed equally often in it (`ConversationEnds.OneMarkerIff`).
  That is so in every conversation without disturbance (`ConversationEnds.OneMarkerPerConversation`); a throw lets a
  conversation be abandoned (`ConversationEnds.FaultLosesMarker`), and a lost connection is marked although the
  conversation goes on (`ConversationEnds.LossMarksEarly`). `ConversationEnds.MarkerLaw` and
  `ConversationEnds.MarkersMatchIff` say the same of the totals, which can agree although single conversations do not.
- The keyword map keeps what the first final result tells about a keyword, although the comment in DecoderResults.hpp
  speaks of concatenation (`DecoderProperties.FirstFinalResultWins`).
- A purge reads sequence numbers of sessions that it has just erased and so re-creates them as 0
  (`GatewaySource.IBMVoiceGatewaySource.ForgetSession`).

## Assumptions

- The WebSocket library opens a connection handle once: a handle that is opened is not in the connection map
  (`GatewayRefinement.FreshOpens`). The accounting of active and throttled calls does not need this.
- The speech service sends one `listening` after the start message of a connection and one after each stop, and no
  results before the first (`Handshake.Expected`). Everything else may arrive at any time: undecodable or contradictory
  messages, errors, closed connections, throws, shutdown requests.
- A newly created output tuple has an address that no live tuple has; addresses of deleted tuples are used again.
- Steps of one thread between two accesses to shared data are one step, as no other thread can tell them apart.

## Model

| member | source | states |
|---|---|---|
| `ChannelKey.KeyInjective` | samples/VgwDataRouter/com.ibm.streamsx.sttgateway.sample/VgwDataRouter.spl:573 | the key session_channel identifies the session and the channel, for arbitrary session strings, separators and digits included |
| `CallRouter.CallsPerProcessor` | samples/VgwDataRouter/com.ibm.streamsx.sttgateway.sample/VgwDataRouter.spl:1360-1377 | defined exactly for an even number of engines; two engines serve one call |
| `CallRouter.PrepareIdleProcessors` | samples/VgwDataRouter/com.ibm.streamsx.sttgateway.sample/VgwDataRouter.spl:1383-1395 | a list of zeros, one for each processor, empty for a negative count |
| `CallRouter.GetSpeechProcessorIdForNewCallProcessing` | samples/VgwDataRouter/com.ibm.streamsx.sttgateway.sample/VgwDataRouter.spl:1400-1470 | finds the first processor with a free place in ring order after the one chosen last, or none if all are full, and increments exactly its counter |
| `CallRouter.ChooseIsFirstFree` | samples/VgwDataRouter/com.ibm.streamsx.sttgateway.sample/VgwDataRouter.spl:1424-1470 | first-free-in-ring-order characterises the processor that the search returns |
| `CallRouter.VoiceCallDataRouter.OnTuple` | samples/VgwDataRouter/com.ibm.streamsx.sttgateway.sample/VgwDataRouter.spl:581-785 | the operator refines its step function: state, fate of the tuple, and what is sent where; that a tuple goes to the processor of its call is stated without that function in OneSignalSticky and TwoSignalsSticky |
| `RouterProperties.RefusedIffFull` | samples/VgwDataRouter/com.ibm.streamsx.sttgateway.sample/VgwDataRouter.spl:596-634 | a fragment of a new call is refused if and only if N * capacity calls are mapped |
| `RouterProperties.ReachableBookkeeping` | samples/VgwDataRouter/com.ibm.streamsx.sttgateway.sample/VgwDataRouter.spl:538-785 | exact counters and the refusal criterion in every state that any input leads to |
| `RouterProperties.BoundedWaiting` | samples/VgwDataRouter/com.ibm.streamsx.sttgateway.sample/VgwDataRouter.spl:596-634 | with interleaved releases and refusals, a processor that is free at each of more assignments than its ring distance is chosen by one of them |
| `RouterProperties.ChosenWithinN` | samples/VgwDataRouter/com.ibm.streamsx.sttgateway.sample/VgwDataRouter.spl:1424-1470 | N assignments suffice from any reachable state |
| `RouterProperties.LoadsFromIdle` | samples/VgwDataRouter/com.ibm.streamsx.sttgateway.sample/VgwDataRouter.spl:1383-1470 | after k admissions from idle without releases, processor p holds k / N calls, plus one if p < k mod N |
| `RouterProperties.TurnsFromIdle` | samples/VgwDataRouter/com.ibm.streamsx.sttgateway.sample/VgwDataRouter.spl:1424-1470 | admission j, from 0, went to the processor with id j mod N + 1 |
| `RouterProperties.StickyUntilBothSignalled` | samples/VgwDataRouter/com.ibm.streamsx.sttgateway.sample/VgwDataRouter.spl:624-738 | all tuples of a call go to one processor until both channels have signalled |
| `RouterProperties.ReleasedBySecondSignal` | samples/VgwDataRouter/com.ibm.streamsx.sttgateway.sample/VgwDataRouter.spl:701-772 | the signal of the second channel, and no other, frees exactly one place and forgets both signals |
| `RouterProperties.RepeatedSignalChangesNothing` | samples/VgwDataRouter/com.ibm.streamsx.sttgateway.sample/VgwDataRouter.spl:701-759 | a repeated signal of one channel changes no counter, no assignment and no remembered signal |
| `RouterProperties.KnownGoesHome` | samples/VgwDataRouter/com.ibm.streamsx.sttgateway.sample/VgwDataRouter.spl:624-738 | while a call is known, every non-empty fragment and every signal of it is sent to the processor it was assigned |
| `RouterProperties.OneSignalSticky` | samples/VgwDataRouter/com.ibm.streamsx.sttgateway.sample/VgwDataRouter.spl:624-759 | one-EOCS mode: from its assignment up to and including its first signal, every non-empty fragment and that signal go to the assigned processor, none is ignored or refused, and with the signal, and no sooner, the call is unknown |
| `RouterProperties.TwoSignalsSticky` | samples/VgwDataRouter/com.ibm.streamsx.sttgateway.sample/VgwDataRouter.spl:624-738 | two-EOCS mode: until both channels have signalled every non-empty fragment and every signal goes to the assigned processor, and none is ignored or refused |
| `RouterProperties.OneProcessorUntilSignal` | samples/VgwDataRouter/com.ibm.streamsx.sttgateway.sample/VgwDataRouter.spl:596-759 | one-EOCS mode, from idle: when nothing is refused, a fragment and a later tuple of its call without a signal in between go to one processor |
| `RouterProperties.UnsentChangesNothing` | samples/VgwDataRouter/com.ibm.streamsx.sttgateway.sample/VgwDataRouter.spl:590-700 | the tuples that are not sent are exactly the empty fragments, the signals of unknown calls, and the first fragments without a place; none of them changes the router |
| `RouterProperties.PlacesAreOwed` | samples/VgwDataRouter/com.ibm.streamsx.sttgateway.sample/VgwDataRouter.spl:596-772 | two-EOCS mode, any input: the places taken are the open accounts of a ledger of owed signals; a first fragment is refused exactly when N * capacity accounts are open, and all processors are idle exactly when no signal is owed |
| `GatewaySource.IBMVoiceGatewaySource.OnText` | com.ibm.streamsx.sttgateway/com.ibm.streamsx.sttgateway.watson/IBMVoiceGatewaySource/IBMVoiceGatewaySource_cpp.cgt:792-1047 | only a complete, acknowledged start message on an opened connection starts a session |
| `GatewaySource.IBMVoiceGatewaySource.OnBinary` | com.ibm.streamsx.sttgateway/com.ibm.streamsx.sttgateway.watson/IBMVoiceGatewaySource/IBMVoiceGatewaySource_cpp.cgt:1425-1651 | counts, channel number, admission and the submitted fragment of a packet |
| `GatewaySource.IBMVoiceGatewaySource.FirstPacket` | com.ibm.streamsx.sttgateway/com.ibm.streamsx.sttgateway.watson/IBMVoiceGatewaySource/IBMVoiceGatewaySource_cpp.cgt:1456-1531 | a new call is numbered and admitted or throttled on channel 1; a further connection gets channel 2 |
| `GatewaySource.IBMVoiceGatewaySource.EndChannel` | com.ibm.streamsx.sttgateway/com.ibm.streamsx.sttgateway.watson/IBMVoiceGatewaySource/IBMVoiceGatewaySource_cpp.cgt:1756-1837 | one EOCS for a speaking channel of a call that is not throttled; the last channel ends the call (its attributes one by one: GatewayOutput.ConnectionTuples) |
| `GatewaySource.IBMVoiceGatewaySource.OnClose` | com.ibm.streamsx.sttgateway/com.ibm.streamsx.sttgateway.watson/IBMVoiceGatewaySource/IBMVoiceGatewaySource_cpp.cgt:1655-2080 | the signal of the closing channel, then the purge if one is due, then the connection is erased (which calls and connections remain: GatewayProperties.CloseLeavesTheYoung) |
| `GatewaySource.IBMVoiceGatewaySource.PurgePeriodically` | com.ibm.streamsx.sttgateway/com.ibm.streamsx.sttgateway.watson/IBMVoiceGatewaySource/IBMVoiceGatewaySource_cpp.cgt:1863-2076 | a purge runs exactly when it is due, and submits exactly the signals for its two stale lists in some order |
| `GatewaySource.IBMVoiceGatewaySource.ForgetSession` | com.ibm.streamsx.sttgateway/com.ibm.streamsx.sttgateway.watson/IBMVoiceGatewaySource/IBMVoiceGatewaySource_cpp.cgt:1905-1962 | erases one stale session; sequence numbers are read, and so re-created, as 0 |
| `GatewaySource.IBMVoiceGatewaySource.ForgetStaleSessions` | com.ibm.streamsx.sttgateway/com.ibm.streamsx.sttgateway.watson/IBMVoiceGatewaySource/IBMVoiceGatewaySource_cpp.cgt:1885-1962 | the loop equals forgetting the whole set at once, and signals both channels of every session that is not throttled |
| `GatewaySource.IBMVoiceGatewaySource.ForgetStaleConnections` | com.ibm.streamsx.sttgateway/com.ibm.streamsx.sttgateway.watson/IBMVoiceGatewaySource/IBMVoiceGatewaySource_cpp.cgt:1975-2076 | drops exactly the connections opened too long ago and signals those whose session bears no throttled mark any more |
| `GatewaySource.IBMVoiceGatewaySource.PurgeStaleSessions` | com.ibm.streamsx.sttgateway/com.ibm.streamsx.sttgateway.watson/IBMVoiceGatewaySource/IBMVoiceGatewaySource_cpp.cgt:1876-2076 | both halves of the purge in their order, with everything they submit |
| `GatewayProperties.StepAccounted` | com.ibm.streamsx.sttgateway/com.ibm.streamsx.sttgateway.watson/IBMVoiceGatewaySource/IBMVoiceGatewaySource_cpp.cgt:1460-1829 | throttled sessions are live, and the active count is live minus throttled and never negative, whatever the event, purge included |
| `GatewayProperties.ActiveWithinLimits` | com.ibm.streamsx.sttgateway/com.ibm.streamsx.sttgateway.watson/IBMVoiceGatewaySource/IBMVoiceGatewaySource_cpp.cgt:1475-1512 | over any run the active count never exceeds the largest limit ever in force |
| `GatewayProperties.LimitIsLatest` | com.ibm.streamsx.sttgateway/com.ibm.streamsx.sttgateway.watson/IBMVoiceGatewaySource/IBMVoiceGatewaySource_cpp.cgt:2449-2457 | the limit in force is the latest value set that was not negative |
| `GatewayProperties.ReachableAccounting` | com.ibm.streamsx.sttgateway/com.ibm.streamsx.sttgateway.watson/IBMVoiceGatewaySource/IBMVoiceGatewaySource_cpp.cgt:1885-1962 | the same from the initial state, for any purge interval |
| `GatewayProperties.PeakIsHistoricalMaximum` | com.ibm.streamsx.sttgateway/com.ibm.streamsx.sttgateway.watson/IBMVoiceGatewaySource/IBMVoiceGatewaySource_cpp.cgt:1475-1512 | with a fixed limit the peak is exactly the largest number of live calls of any state of the run |
| `GatewayProperties.CloseLeavesTheYoung` | com.ibm.streamsx.sttgateway/com.ibm.streamsx.sttgateway.watson/IBMVoiceGatewaySource/IBMVoiceGatewaySource_cpp.cgt:1863-2076 | a purge takes place at most once in an interval, and leaves exactly the calls of which every channel is younger than the interval and the connections that are not older |
| `GatewayProperties.PurgeTells` | com.ibm.streamsx.sttgateway/com.ibm.streamsx.sttgateway.watson/IBMVoiceGatewaySource/IBMVoiceGatewaySource_cpp.cgt:1863-2076 | the signals of a purge, written as tuples, are exactly: for each old call that is not throttled one for either channel with number 0, and for each old connection one with its own attributes, if its call is not throttled or was purged just before |
| `GatewayProperties.FirstPurge` | com.ibm.streamsx.sttgateway/com.ibm.streamsx.sttgateway.watson/IBMVoiceGatewaySource/IBMVoiceGatewaySource_cpp.cgt:1875-1880 | from the initial state no purge takes place within the first interval |
| `GatewayRefinement.ReachableSummary` | com.ibm.streamsx.sttgateway/com.ibm.streamsx.sttgateway.watson/IBMVoiceGatewaySource/IBMVoiceGatewaySource_cpp.cgt:1456-1811 | list lengths count the speaking connections, entries exist exactly for them, both maps have one domain, one channel 1 at most, numbers are distinct and counted by completed plus live calls |
| `GatewayOutput.FragmentAt` | com.ibm.streamsx.sttgateway/com.ibm.streamsx.sttgateway.watson/IBMVoiceGatewaySource/IBMVoiceGatewaySource_cpp.cgt:1540-1611 | fragment i of a connection carries number i + 1 and the prefix sum of the sizes |
| `GatewayOutput.ConnectionGrammar` | com.ibm.streamsx.sttgateway/com.ibm.streamsx.sttgateway.watson/IBMVoiceGatewaySource/IBMVoiceGatewaySource_cpp.cgt:1440-1811 | a connection without a voice submits nothing; one with a voice submits fragments numbered from 1 and, when it closes, exactly one EOCS, all with session, channel and number of its voice, or nothing at all if its call is suppressed |
| `GatewayOutput.ConnectionTuples` | com.ibm.streamsx.sttgateway/com.ibm.streamsx.sttgateway.watson/IBMVoiceGatewaySource/IBMVoiceGatewaySource_cpp.cgt:1540-1785 | attribute by attribute, written as tuples: fragment i of a forwarded connection has session, caller mark, channel and call number of its voice, its own size, number i + 1 and the bytes so far; the one tuple after the close is the EOCS with the same four attributes and zeros |
| `GatewayOutput.ReachableStory` | com.ibm.streamsx.sttgateway/com.ibm.streamsx.sttgateway.watson/IBMVoiceGatewaySource/IBMVoiceGatewaySource_cpp.cgt:693-1047 | in every state a connection has the time of its opening, and session and caller mark of the first complete start message of it that was acknowledged, and it has none of them before |
| `GatewayOutput.VoiceKeepsStart` | com.ibm.streamsx.sttgateway/com.ibm.streamsx.sttgateway.watson/IBMVoiceGatewaySource/IBMVoiceGatewaySource_cpp.cgt:792-1047 | a connection speaks for the session, and with the caller mark, of that start message |
| `GatewayOutput.OneVerdictPerNumber` | com.ibm.streamsx.sttgateway/com.ibm.streamsx.sttgateway.watson/IBMVoiceGatewaySource/IBMVoiceGatewaySource_cpp.cgt:1456-1512 | all connections that ever speak under one call number belong to one session, and all of them are forwarded or none is |
| `GatewayOutput.VerdictIsFinal` | com.ibm.streamsx.sttgateway/com.ibm.streamsx.sttgateway.watson/IBMVoiceGatewaySource/IBMVoiceGatewaySource_cpp.cgt:1475-1512 | the verdict of the first packet holds for as long as the call, recognised by its number, is live |
| `GatewayOutput.FinishedNumberNeverReappears` | com.ibm.streamsx.sttgateway/com.ibm.streamsx.sttgateway.watson/IBMVoiceGatewaySource/IBMVoiceGatewaySource_cpp.cgt:1456-1811 | the number of a finished call appears never again, in the maps or in the output |
| `EndToEnd.OneSignalAdmission` | com.ibm.streamsx.sttgateway/com.ibm.streamsx.sttgateway.watson/IBMVoiceGatewaySource/IBMVoiceGatewaySource_cpp.cgt:1475-1837 | one-EOCS mode, no accepted limit above N * capacity: no tuple of an admitted call is refused, and all processors are idle once every connection has closed |
| `EndToEnd.OneSignalRouting` | samples/VgwDataRouter/com.ibm.streamsx.sttgateway.sample/VgwDataRouter.spl:596-759 | behind the source, in one-EOCS mode: from a fragment of a call to its next signal, that signal included, all its tuples go to one processor, and the signal, and no tuple before it, makes the call unknown |
| `EndToEnd.RefusedAboveCapacity` | com.ibm.streamsx.sttgateway/com.ibm.streamsx.sttgateway.watson/IBMVoiceGatewaySource/IBMVoiceGatewaySource_cpp.cgt:2449-2457 | once any limit above N * capacity is accepted, a run of one call more than there are places has a tuple of an admitted call refused |
| `EndToEnd.ProtectedIffLimitsFit` | com.ibm.streamsx.sttgateway/com.ibm.streamsx.sttgateway.watson/IBMVoiceGatewaySource/IBMVoiceGatewaySource_cpp.cgt:1475-1512 | one-EOCS mode: no run with limits up to a bound is refused a tuple if and only if the bound is at most N * capacity |
| `TwoSignals.SettledAdmission` | samples/VgwDataRouter/com.ibm.streamsx.sttgateway.sample/VgwDataRouter.spl:679-772 | two-EOCS mode, while no call is left unsettled: nothing is refused, every tuple but the surplus signals reaches a processor, the router knows exactly the forwarded calls of which not both channels have gone, and it is idle once every connection has closed |
| `TwoSignals.UnsettledKeepsItsPlace` | samples/VgwDataRouter/com.ibm.streamsx.sttgateway.sample/VgwDataRouter.spl:701-738 | after a lone close or a late packet the call keeps its place over every continuation in which no connection on the owed channel answers |
| `TwoSignals.IdleIffSettled` | samples/VgwDataRouter/com.ibm.streamsx.sttgateway.sample/VgwDataRouter.spl:679-772 | when every connection has closed and nobody answered the first unsettling event: all processors are idle if and only if no event left a call unsettled |
| `TwoSignals.IdleIffSettledOnce` | samples/VgwDataRouter/com.ibm.streamsx.sttgateway.sample/VgwDataRouter.spl:679-772 | the same for all runs that use every session id for one call only, without another proviso |
| `TwoSignals.SettledIffBothSpeak` | com.ibm.streamsx.sttgateway/com.ibm.streamsx.sttgateway.watson/IBMVoiceGatewaySource/IBMVoiceGatewaySource_cpp.cgt:1456-1829 | in calls of at most two connections, exactly a close before the other channel has spoken leaves a call unsettled, and there is no surplus signal |
| `TwoSignals.TwoSignalAdmission` | samples/VgwDataRouter/com.ibm.streamsx.sttgateway.sample/VgwDataRouter.spl:679-772 | when both channels of every forwarded call speak before either closes and no third connection joins: every tuple reaches a processor, and all processors are idle at the end |
| `TwoSignals.IdleIffBothSpeak` | samples/VgwDataRouter/com.ibm.streamsx.sttgateway.sample/VgwDataRouter.spl:701-738 | with at most two connections for a call and one call for a session id: idle at the end if and only if no connection of a forwarded call closed before the other channel had spoken |
| `TwoSignals.LoneChannelKeepsItsPlace` | samples/VgwDataRouter/com.ibm.streamsx.sttgateway.sample/VgwDataRouter.spl:701-738 | the shortest unsettled run: one connection speaks once and closes, and its call keeps its place |
| `Overflow.WaitingCallsOverflow` | samples/VgwDataRouter/com.ibm.streamsx.sttgateway.sample/VgwDataRouter.spl:596-634 | once N * capacity calls have been left unsettled without an answer, the first fragment of any other admitted call is refused, unless something was refused before it |
| `Overflow.ProtectedIffNoneAdmitted` | com.ibm.streamsx.sttgateway/com.ibm.streamsx.sttgateway.watson/IBMVoiceGatewaySource/IBMVoiceGatewaySource_cpp.cgt:1475-1512 | two-EOCS mode: no run with limits up to a bound is refused a tuple if and only if the bound is 0 |
| `HandshakeSafety.StepKeeps` | com.ibm.streamsx.sttgateway/impl/include/WatsonSTTImpl.hpp:432-725 | the invariant under every action of either thread and of the environment |
| `HandshakeSafety.RecycleKeeps` | com.ibm.streamsx.sttgateway/impl/include/WatsonSTTImpl.hpp:478-481 | when the wastebasket is emptied no reference into it is left |
| `HandshakeSafety.FinalizeKeeps` | com.ibm.streamsx.sttgateway/impl/include/WatsonSTTImplReceiver.hpp:784-787 | the conversation is flagged final when the receiver holds nothing of it any more |
| `TranscriptProperties.TuplesInUseAreLive` | com.ibm.streamsx.sttgateway/impl/include/WatsonSTTImpl.hpp:437-482 | no tuple is recycled while the receiver can write or submit it, and when the sender recycles, no reference exists |
| `TranscriptProperties.ConnectionUsedInTurn` | com.ibm.streamsx.sttgateway/impl/include/WatsonSTTImpl.hpp:603-713 | the sender uses client and handle of the connection whose listening it observed, never during a set-up, and only when the service expects it |
| `TranscriptProperties.PublishedTuple` | com.ibm.streamsx.sttgateway/impl/include/WatsonSTTImpl.hpp:534-552 | a published tuple is blank and carries an error exactly if its blob could not be read |
| `AudioFlow.NothingLostOnTheWay` | com.ibm.streamsx.sttgateway/impl/include/WatsonSTTImpl.hpp:432-725 | over every run: audio blobs received are those sent, each once, those given up at a shutdown, and at most one in hand; likewise the requests to end the media; and after each end one stop is sent, or none because the connection was not listening |
| `HandshakeStates.StatesInOrder` | com.ibm.streamsx.sttgateway/impl/include/WatsonSTTImplReceiver.hpp:60-71 | on every run each state is followed only by those that its declaration lets follow, and only the thread named there writes it |
| `HandshakeStates.ConnectDecides` | com.ibm.streamsx.sttgateway/impl/include/WatsonSTTImpl.hpp:603-660 | what the sender does in each state when it looks for a connection: use it, wait, or request one, over the error state too |
| `HandshakeStates.WaitDecides` | com.ibm.streamsx.sttgateway/impl/include/WatsonSTTImpl.hpp:449-468 | the wait for the end of a conversation ends exactly over a final flag or a receiver that had stopped |
| `HandshakeStates.AcceptableIff` | com.ibm.streamsx.sttgateway/impl/include/WatsonSTTImplReceiver.hpp:652-696 | a message throws unless it can be decoded on an open or listening connection and says at most one thing, or an utterance with its labels; a state must be listening |
| `ConnectionTraffic.TrafficIsBracketed` | com.ibm.streamsx.sttgateway/impl/include/WatsonSTTImpl.hpp:449-468 | the frames of every run keep the discipline: greeting, audio, a stop that is answered before anything else |
| `ConnectionTraffic.NothingSentUntilAnswered` | com.ibm.streamsx.sttgateway/impl/include/WatsonSTTImpl.hpp:563-567 | between a stop and the next audio or stop lies the answering listening or the end of the connection |
| `TranscriptProperties.EveryFinalResultOnce` | com.ibm.streamsx.sttgateway/impl/include/WatsonSTTImplReceiver.hpp:750-894 | final results paired with a tuple are, in order, those submitted, those dropped by a crash, and at most one pending |
| `Submissions.FinalUtterancesOnce` | com.ibm.streamsx.sttgateway/impl/include/WatsonSTTImplReceiver.hpp:792-896 | from message to output: the results of the final utterances that met a tuple are, in order, those submitted as final, those dropped by a crash, and at most one pending |
| `Submissions.InterimResultsIfNeeded` | com.ibm.streamsx.sttgateway/impl/include/WatsonSTTImplReceiver.hpp:861-867 | over every run the submissions with an interim utterance are, in order, the interim utterances of the messages that met a tuple if such are requested, and none otherwise |
| `Submissions.EverySubmissionReported` | com.ibm.streamsx.sttgateway/impl/include/WatsonSTTImplReceiver.hpp:748-896 | over every run and interleaving, every submission carries, attribute by attribute, the report of an account that knows messages and program counters but no tuples, one for one and in order |
| `Handlers.ThroughIsARun` | com.ibm.streamsx.sttgateway/impl/include/WatsonSTTImplReceiver.hpp:633-896 | a handler as a whole, as used below, is a run of the step relation in which nobody else moves |
| `Handlers.GreetingHandled` | com.ibm.streamsx.sttgateway/impl/include/WatsonSTTImplReceiver.hpp:709-721 | listening on an open connection makes it usable and does nothing else |
| `Handlers.CompletionHandled` | com.ibm.streamsx.sttgateway/impl/include/WatsonSTTImplReceiver.hpp:722-790 | listening that answers a stop: a waiting result and, if requested, a completion are reported, the conversation is marked and final, and the connection is closed unless another conversation is queued |
| `Handlers.ErrorHandled` | com.ibm.streamsx.sttgateway/impl/include/WatsonSTTImplReceiver.hpp:750-758 | an error message is reported with the waiting result, or else by itself if there is a tuple |
| `Handlers.UtteranceHandled` | com.ibm.streamsx.sttgateway/impl/include/WatsonSTTImplReceiver.hpp:792-895 | an utterance with or without labels: what waited is reported first, then this result, unless it has to wait for labels or is an interim one that nobody asked for |
| `Handlers.HomelessUtteranceHandled` | com.ibm.streamsx.sttgateway/impl/include/WatsonSTTImplReceiver.hpp:801-872 | an utterance without a tuple makes the receiver throw, after what waited was reported |
| `Handlers.LabelsHandled` | com.ibm.streamsx.sttgateway/impl/include/WatsonSTTImplReceiver.hpp:878-895 | labels by themselves go to the waiting result, if speakers are identified |
| `Handlers.NothingHandled` | com.ibm.streamsx.sttgateway/impl/include/WatsonSTTImplReceiver.hpp:697-698 | a message that says nothing changes nothing |
| `Handlers.CloseHandled` | com.ibm.streamsx.sttgateway/impl/include/WatsonSTTImplReceiver.hpp:1049-1115 | a close in each state: error, completion and marker exactly if the connection was listening, completion and marker if an error had come, nothing otherwise |
| `Handlers.RefusedHandled` | com.ibm.streamsx.sttgateway/impl/include/WatsonSTTImplReceiver.hpp:652-696 | a message that is not acceptable loses what waits and leaves the receiver at its loop |
| `Handlers.FaultHandled` | com.ibm.streamsx.sttgateway/impl/include/WatsonSTTImplReceiver.hpp:475-491 | so does a throw anywhere else |
| `Handlers.StartTaken` | com.ibm.streamsx.sttgateway/impl/include/WatsonSTTImplReceiver.hpp:371-470 | a requested connection is dialled with a new client |
| `Handlers.DialSucceeded` | com.ibm.streamsx.sttgateway/impl/include/WatsonSTTImplReceiver.hpp:502-627 | an established connection is open, and has the new handle |
| `Handlers.DialFailed` | com.ibm.streamsx.sttgateway/impl/include/WatsonSTTImplReceiver.hpp:1142-1150 | a failed one leaves no tuple behind |
| `TranscriptProperties.OnlyCrashDrops` | com.ibm.streamsx.sttgateway/impl/include/WatsonSTTImplReceiver.hpp:475-491 | a step that drops a result takes the receiver into its crash handler |
| `TranscriptProperties.SpeakerListsFit` | com.ibm.streamsx.sttgateway/impl/include/WatsonSTTImplReceiver.hpp:878-889 | a tuple submitted with labels has one speaker and one confidence for each of its words, found by start time |
| `ConversationEnds.FinalMarkerIsLast` | com.ibm.streamsx.sttgateway/impl/include/WatsonSTTImpl.hpp:586-599 | after the final marker nothing is submitted, unless a shutdown cut the waiting short |
| `ConversationEnds.MarkerLaw` | com.ibm.streamsx.sttgateway/impl/include/WatsonSTTImplReceiver.hpp:782-787 | on every run, the markers in excess of the conversations begun are the lost connections that were marked less the conversations that were abandoned |
| `ConversationEnds.MarkersMatchIff` | com.ibm.streamsx.sttgateway/impl/include/WatsonSTTImplReceiver.hpp:1081-1103 | in total there are as many markers as conversations, the one in progress not counted, if and only if as many closed connections left a tuple of a conversation behind as conversations were given up over a stopped receiver; the totals do not give each conversation its marker |
| `ConversationEnds.MarkersMatchWhenSmooth` | com.ibm.streamsx.sttgateway/impl/include/WatsonSTTImplReceiver.hpp:782-787 | the totals agree in particular without error message, lost connection, throw or shutdown |
| `ConversationEnds.ConversationMarkers` | com.ibm.streamsx.sttgateway/impl/include/WatsonSTTImplReceiver.hpp:782-787 | every conversation of every run has one marker, one more for each lost connection that was marked in it, and one less if it was abandoned |
| `ConversationEnds.LatestConversationMarkers` | com.ibm.streamsx.sttgateway/impl/include/WatsonSTTImplReceiver.hpp:782-787 | the latest conversation has its marker as soon as it is not in progress any more, and one more for each lost connection that was marked in it |
| `ConversationEnds.OneMarkerIff` | com.ibm.streamsx.sttgateway/impl/include/WatsonSTTImplReceiver.hpp:1081-1103 | a conversation has exactly one marker if and only if as many closed connections left a tuple of it behind as it was given up over a stopped receiver, which is at most once |
| `ConversationEnds.OneMarkerPerConversation` | com.ibm.streamsx.sttgateway/impl/include/WatsonSTTImplReceiver.hpp:782-787 | each conversation up to whose end there was no error message, lost connection, throw or shutdown has exactly one marker |
| `ConversationEnds.FaultLosesMarker` | com.ibm.streamsx.sttgateway/impl/include/WatsonSTTImpl.hpp:453-468 | when the receiver throws during a conversation, the next one can begin although no marker closed this one |
| `ConversationEnds.LossMarksEarly` | com.ibm.streamsx.sttgateway/impl/include/WatsonSTTImplReceiver.hpp:1081-1103 | when the connection is lost during a conversation, a marker is submitted although the conversation goes on |
| `ConversationEnds.ConversationReachable` | com.ibm.streamsx.sttgateway/impl/include/WatsonSTTImpl.hpp:432-568 | a run that reaches such a conversation without any disturbance |
| `ConversationEnds.ConversationCompletes` | com.ibm.streamsx.sttgateway/impl/include/WatsonSTTImpl.hpp:663-725 | and one in which the conversation then ends in order: a window marker, the stop, its answer, one marker, the final flag |
| `SpeakerAlignment.SpeakerProcessor.IndexLabels` | com.ibm.streamsx.sttgateway/impl/include/WatsonSTTImplReceiver.hpp:942-945 | the index map holds the first label of each start time |
| `SpeakerAlignment.SpeakerProcessor.Run` | com.ibm.streamsx.sttgateway/impl/include/WatsonSTTImplReceiver.hpp:937-978 | each word gets the first label at its start time, else -1; the updates are the labels not used, in increasing order |
| `SpeakerAlignment.UpdatesAreUnique` | com.ibm.streamsx.sttgateway/impl/include/WatsonSTTImplReceiver.hpp:971-977 | that property determines the update list |
| `SpeakerAlignment.LabelsArePartitioned` | com.ibm.streamsx.sttgateway/impl/include/WatsonSTTImplReceiver.hpp:954-977 | every label is given to a word or is an update, never both; a label that repeats an earlier time is always an update |
| `SpeakerAlignment.MatchingLabels` | com.ibm.streamsx.sttgateway/impl/include/WatsonSTTImplReceiver.hpp:937-978 | labels at exactly the words' distinct times are taken over unchanged |
| `SpeakerAlignment.WordByWord` | com.ibm.streamsx.sttgateway/impl/include/WatsonSTTImplReceiver.hpp:950-970 | word by word: speaker and confidence of the first label at its start time, and -1 for both if there is none |
| `Decoder.Decoder.DoWorkTimestamps` | com.ibm.streamsx.sttgateway/impl/include/DecoderAlternatives.hpp:125-155 | succeeds exactly on triples of word, start and end, and appends them; first start and last end |
| `Decoder.Decoder.DoWorkWordConfidence` | com.ibm.streamsx.sttgateway/impl/include/DecoderAlternatives.hpp:157-175 | succeeds exactly on pairs and appends their second elements |
| `Decoder.Decoder.DecodeOthers` | com.ibm.streamsx.sttgateway/impl/include/DecoderAlternatives.hpp:78-113 | transcripts of further alternatives are kept for the first result only, and never in complete mode |
| `Decoder.Decoder.DoWorkAlternatives` | com.ibm.streamsx.sttgateway/impl/include/DecoderAlternatives.hpp:74-123 | succeeds exactly on valid alternatives, with what each member gains |
| `Decoder.Decoder.DoWorkWordAlternatives` | com.ibm.streamsx.sttgateway/impl/include/DecoderWordAlternatives.hpp:46-88 | succeeds exactly on valid slots and appends four parallel lists; which member of a slot each comes from: DecoderRoundTrip.RoundTrip |
| `Decoder.Decoder.DoWorkKeywords` | com.ibm.streamsx.sttgateway/impl/include/DecoderKeywordResults.hpp:43-78 | succeeds exactly on valid matches of the configured keywords and inserts those not yet known |
| `Decoder.Decoder.DoWorkSpeakerLabels` | com.ibm.streamsx.sttgateway/impl/include/DecoderSpeakerLabels.hpp:40-60 | succeeds exactly on valid labels; three lists over the same array |
| `Decoder.Decoder.DoWorkResults` | com.ibm.streamsx.sttgateway/impl/include/DecoderResults.hpp:50-80 | the loop refines the fold over the results |
| `Decoder.Decoder.DoWork` | com.ibm.streamsx.sttgateway/impl/include/Decoder.hpp:44-54 | for any prior state: succeeds exactly on a valid document, and then every member is a function of that document alone; which documents are valid: MessageSchema.ValidIffConforms; what the members then hold: DecoderRoundTrip.RoundTrip |
| `DecoderProperties.WordsOfSelection` | com.ibm.streamsx.sttgateway/impl/include/DecoderAlternatives.hpp:104-150 | text, words, start and end times concatenate the first alternatives of exactly the selected results |
| `DecoderProperties.DetailsOfFinals` | com.ibm.streamsx.sttgateway/impl/include/DecoderResults.hpp:72-75 | word confidences, word alternatives and keywords come from exactly the final results; with the values of RoundTrip |
| `DecoderProperties.FirstsAndLasts` | com.ibm.streamsx.sttgateway/impl/include/DecoderAlternatives.hpp:88-150 | start time, confidence and further alternatives come from the first result, the end time from the last word |
| `DecoderProperties.ListsParallel` | com.ibm.streamsx.sttgateway/impl/include/DecoderWordAlternatives.hpp:62-86 | the lists that a document leaves behind have equal lengths: words with start and end times, the four lists of word alternatives with their inner lists, and the three label lists |
| `DecoderProperties.FirstFinalResultWins` | com.ibm.streamsx.sttgateway/impl/include/DecoderKeywordResults.hpp:75 | a configured keyword has an entry if and only if some final result carries it, and the first such result determines it |
| `DecoderRoundTrip.RoundTrip` | com.ibm.streamsx.sttgateway/impl/include/Decoder.hpp:44-54 | any list of utterances with their words, times, confidences, alternatives, slots, choices and keyword matches, any labels, and any error, state and index, rendered as a document with the member names of the service, is accepted and decodes to exactly those values |
| `MessageSchema.ValidIffConforms` | com.ibm.streamsx.sttgateway/impl/include/DecoderCommons.hpp:69-104 | the decoding succeeds on a document if and only if it conforms to a schema: which members are required, which are optional, of which type, and in which results and modes they are looked at |
| `TokenLoop.SkipContinuationHeaders` | com.ibm.streamsx.sttgateway/com.ibm.streamsx.sttgateway.watson/IAMAccessTokenGenerator.spl:524-553 | terminates and computes what remains of the header list, with the status of its first line |
| `TokenLoop.StripsInterimBlocks` | com.ibm.streamsx.sttgateway/com.ibm.streamsx.sttgateway.watson/IAMAccessTokenGenerator.spl:524-553 | any number of leading interim responses is removed, and a final response after them is kept whole (section 15.2 of RFC 9110) |
| `TokenLoop.OnlyInterimStripped` | com.ibm.streamsx.sttgateway/com.ibm.streamsx.sttgateway.watson/IAMAccessTokenGenerator.spl:524-553 | whatever was removed is a sequence of complete interim responses |
| `TokenLoop.SkippedIffFinal` | com.ibm.streamsx.sttgateway/com.ibm.streamsx.sttgateway.watson/IAMAccessTokenGenerator.spl:524-553 | return value 0 exactly if what remains begins with a final status line |
| `TokenLoop.IAMAccessTokenGenerator.TakeReply` | com.ibm.streamsx.sttgateway/com.ibm.streamsx.sttgateway.watson/IAMAccessTokenGenerator.spl:400-469 | what one reply does to refresh token, API key and the loop condition |
| `TokenLoop.IAMAccessTokenGenerator.OuterPass` | com.ibm.streamsx.sttgateway/com.ibm.streamsx.sttgateway.watson/IAMAccessTokenGenerator.spl:363-469 | the inner loop refines the recursion over the replies; when it refreshes: RefreshIffStillGranted |
| `TokenLoop.RefreshOnlyLatestGrant` | com.ibm.streamsx.sttgateway/com.ibm.streamsx.sttgateway.watson/IAMAccessTokenGenerator.spl:363-469 | over all runs a refresh request carries only the token of the latest response, which was successful and for the same API key; the converse is RefreshIffStillGranted |
| `TokenLoop.RefreshIffStillGranted` | com.ibm.streamsx.sttgateway/com.ibm.streamsx.sttgateway.watson/IAMAccessTokenGenerator.spl:363-469 | over all runs: a request is a refresh request, with the granted token, if and only if the latest verdict is a grant for this API key with a non-empty refresh token and no pass since then had another non-empty key; otherwise it is an initial one; and every pass with a key sends one |
| `TokenLoop.FinalStatusDecides` | com.ibm.streamsx.sttgateway/com.ibm.streamsx.sttgateway.watson/IAMAccessTokenGenerator.spl:436-469 | a response that begins with a final status grants exactly for codes from 200 to 299 with an access token |
| `TokenLoop.InterimStatusPasses` | com.ibm.streamsx.sttgateway/com.ibm.streamsx.sttgateway.watson/IAMAccessTokenGenerator.spl:524-553 | a block with a code from 100 to 199 is passed over up to its bare line end, whatever follows |
| `TokenLoop.InitialAfterDenial` | com.ibm.streamsx.sttgateway/com.ibm.streamsx.sttgateway.watson/IAMAccessTokenGenerator.spl:436-453 | after a non-2xx status or an empty access token the next request is an initial one |

## Left out

- Sockets, TLS, ASIO, certificates, HTTP requests and responses, logging, metrics and their counters, and all delays:
  what they lead to appears as the choice of the next event, message or reply.
- Wall-clock text, the phone-number map and the attributes that are only copied into output tuples.
- The integer widths of the counters: all of them are unbounded here.
- JSON text parsing: the decoder starts from a tree. A value whose type the code uses without a check (the elements of a
  timestamp, a keyword match that is not an object, a document that is not an object) makes the decoding fail here; what
  RapidJSON does with it is not modelled.
- The numbers of results of the sub-decoders that only feed trace output, and the getters.
- The request string built when a connection opens, URI assembly, command line and query parsing, and generated code.
- Floating-point times are reals: NaN, and two times that differ only by rounding, are not modelled.
- The replay composite, the simulators, the other samples and the test server: their chunking is straight-line code.
- Progress: nothing is claimed about when a thread moves or when the service answers.
- The call to close the connection on shutdown, from a third thread: a connection may be closed at any time anyway.
- A number that is read through the subscript operator of a map is modelled with its side effect everywhere, also where
  the key is known to be present.
- Handshake: the two threads are a step relation over values rather than classes with methods, because a method would
  hide the points at which the other thread can intervene.
- GatewaySource.IBMVoiceGatewaySource.OnClose: the signals of a purge are stated up to the order of its two stale lists;
  the output grammar and the counting of completed calls are claimed with the purge switched off, because a purge
  re-creates erased numbers.
- GatewaySource.IBMVoiceGatewaySource.ForgetStaleConnections: the loop that signals and the loop that erases are as in
  the original; the collected list is returned so that its order can be spoken of.
- TwoSignals.IdleIffSettled: for limits of at most N * capacity and for runs in which nobody answers the first unsettling
  event; for runs with an answer, RouterProperties.PlacesAreOwed gives the condition in terms of the tuples submitted.
- ConversationEnds.FinalMarkerIsLast: for a final marker after which no further input arrives, as Streams guarantees.
- TokenLoop.IAMAccessTokenGenerator.OuterPass: the life time of a token and the waiting until its refresh are left out.
  An empty header list behind interim responses makes the original fail on an index; the model stops the pass there.
