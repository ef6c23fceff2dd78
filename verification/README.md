# A verified model of the MQTT 3.1.1 client engine

The client library under `client/lib/src` is a single-threaded protocol engine: API calls,
incoming packets and timer ticks change a few lists of operation objects, and packets,
callbacks and reports come out. This project models its hardest parts and proves what holds
of them in every run.

| files | what they hold |
|---|---|
| `History`, `SendModel` | the outgoing publishes of one client: what has been shown to the outside so far, and what each call, packet and timer does, as functions on the state |
| `SendInvariant`, `SendSteps`, `SendRuns`, `SendSession` | the invariant between the list, the entry flags and the history, kept by every piece of the mutually recursive resume/complete chain and by every step |
| `SendBooks`, `SendWakeups`, `SendTimers`, `SendReconnect`, `SendForced`, `SendOverrun` | ownership of `m_ops` entries and packet identifiers, no lost wake-up, response timers, reconnection, acknowledgements out of turn and when their walk comes past the end |
| `SendFlat`, `SendEffects`, `SendTerms`, `SendCompletions` | laws of effect: what each call, packet and timer brings about, event by event, with one flat pass as the reference for the recursion that a departure starts; the terms a publish was issued on; what alone completes it |
| `SendTheorems`, `SendTicks`, `SendFaults`, `SendExamples` | the statements about whole runs, what a tick does and which timers it spares, where exactly an assertion of the code fails, and runs that get there |
| `SendClient` | the same engine in the form of the source: `SendOp` objects updated in place, index loops over a list that shrinks under them, proved to do what `SendModel` says |
| `PacketIds` | the packet identifier allocator |
| `Topics`, `Filters` | topic matching and validation against the level-wise rules, the topic generator, the sorted filter vector as a set |
| `Reception`, `ReceptionEffects`, `ReceptionClient` | incoming publishes, the QoS 2 receiver and the subscription gate: functions with their theorems, which acknowledgement answers what, and the classes that do the same |
| `Timers`, `TimerPool`, `KeepAlive` | the timer slots, who owns them, and the ping protocol over three timers |

A run of the publish engine is `SendModel.Run`: a fresh client and any sequence of events, in
any order, with any arguments. The history (`History.Log`) records the calls that issue
publishes, packets, callbacks, silent departures, losses of the session with the publishes whose timers they found set, and
reconnections that find the session. A tick of the timers is one event that first cancels all
timers that expire in it and then calls their callbacks, as the code does. `History.MayFollow`
says which event may follow a history; that every event of every run was allowed is
`SendTheorems.RunsAreOrderly`, and the lemmas of `History` read off what this means for the
order, the number and the marks of packets.

## What is not as documented

Each of these is a lemma about the code as it is.

- A publish whose response timer is set when the session is lost is never again re-sent or ended
  by it, not even after reconnecting: the suspended timer is set again but never released
  (`SendTimers.SuspendedExactlyWhenHit`, `SendTimers.TimersNeverRunAgain`). Every loss of the session
  that is not a tick hits all publishes on their way (`SendTimers.LossHitsAll`); a tick spares only
  those whose own callback comes after the loss in that very tick (`SendTicks.TickSparesExactly`,
  `SendTimers.SameTickSpares`, a run in `SendExamples.SparedByTheSameTick`). The documentation
  promises the re-send and a final status (`client/lib/doxygen/main.dox:873-880`).
- Objects that are gone are touched, or assertions about them fail, in two places, and
  `SendFaults.FaultsExactlyThere` says for every state that can be reached and every event whether
  that is so. (Meant are the accesses of the walks in `client/lib/src/ClientImpl.cpp:663-700` and
  `client/lib/src/ClientImpl.cpp:974-996`, and the assertions at
  `client/lib/src/op/SendOp.cpp:359` and `client/lib/src/op/SendOp.cpp:372`. The others about publishes
  never fail: `SendFaults.OtherAssertionsHold`.) The first is the walk that ends old publishes after a reconnection without a
  session: it runs into an entry of `m_ops` nulled before or by the walk itself
  (`SendReconnect.SessionAbsentMeetsNullExactly`, runs in `SendExamples.CancelledBeforeConnack` and
  `SendExamples.HeldBackAtConnack`).
- The second is the re-send walk of an acknowledgement out of turn, which can look at a list entry
  that is not there when it names a publish held back that leaves as soon as it is resumed
  (`SendOverrun.OutOfTurnOverrunsExactly`, a run in `SendExamples.NamedPublishVanishes`).
- The allocator can hand out packet identifier 0 (`PacketIds.ZeroExactlyWhenProbeWraps`, a run in
  `PacketIds.ZeroIsReached`).
- Topics that end with `/` are refused by filters whose `+` or parent-of-`#` should take the empty
  last level (`Topics.MatchIsLevelMatch` gives the exact difference).
- A duplicate QoS 2 PUBLISH stops the timer of the reception it belongs to. A reconnection sets it
  again but leaves it suspended if the session had been lost before the duplicate came
  (`Reception.TimerRunsExactly`, `Reception.ResumptionMissesExactly`, runs in
  `Reception.StandsStopped` and `Reception.StandsSuspended`).
- The keep-alive promise holds exactly when the response timeout is not longer than the
  keep-alive period (`KeepAlive.PromptExactlyWhenResponseIsShort`), and the assertion that the
  response timer is idle holds exactly when one of the two is 0
  (`KeepAlive.AssertionFailsExactly`).

## Model

| member | source | states |
|---|---|---|
| SendTheorems.RunsAreOrderly | client/lib/src/op/SendOp.cpp:227-437 | in every run each packet, callback and departure was allowed by `MayFollow` when it happened: DUP marks, attempts, identifiers kept, issue order, nothing after PUBREC or after the end, and with full ordering nothing behind a later publish of lower QoS |
| SendTheorems.CompletionsKeepIssueOrder | client/lib/src/ClientImpl.cpp:950-972 | section 4.6 of MQTT 3.1.1 over whole runs: two publishes of the same QoS above 0 that both complete do so in issue order, whatever acknowledgements arrive |
| SendTheorems.CopiesAreBounded | client/lib/src/op/SendOp.cpp:364-437 | the PUBLISH packets of a publish are at most the attempts told with them plus the session-present reconnections that found it waiting for PUBACK or PUBREC; `SendTerms.CopiesAsAsked` ties the attempts to the call |
| SendTerms.CallsAreKept | client/lib/src/op/SendOp.cpp:175-273 | in every continuation of a run in which a publish is issued, its PUBLISH packets have the QoS and attempts of the call and go out only if the length fits, its callbacks have that QoS, and it is refused or out of memory if and only if it is too long and not aborted or cancelled before |
| SendTerms.CopiesAsAsked | client/lib/src/op/SendOp.cpp:211-220 | its PUBLISH packets are at most the attempts given to the call plus the reconnections that found it on its way, and none when it is too long |
| SendCompletions.OnlyAnswersComplete | client/lib/src/op/SendOp.cpp:42-173 | in every reachable state the number of publishes above QoS 0 told complete grows by one exactly at the PUBACK or PUBCOMP whose turn it is, and by nothing else |
| SendEffects.PubackCompletes | client/lib/src/op/SendOp.cpp:42-75 | in every reachable state PUBACK for a QoS 1 publish on the wire with all earlier ones received ends with its callback Complete, after exactly those it sets free, and it is gone |
| SendEffects.PubrecIsAnswered | client/lib/src/op/SendOp.cpp:78-133 | PUBREC for a QoS 2 publish in its turn adds exactly one PUBREL and leaves it received; if not even that fits, it ends with an error |
| SendEffects.PubcompCompletes | client/lib/src/op/SendOp.cpp:135-173 | PUBCOMP for the oldest publish, received, ends with its callback Complete |
| SendEffects.UnexpectedEndsBoth | client/lib/src/op/SendOp.cpp:52-67 | an acknowledgement of the wrong kind in its turn ends the publish with a protocol error and then the session |
| SendEffects.UnknownIsIgnored | client/lib/src/ClientImpl.cpp:998-1016 | one that no publish waits for changes nothing |
| SendEffects.SendIssues | client/lib/src/op/SendOp.cpp:227-273 | the call issues the prepared publish with its own QoS, length, attempts and the next identifier: held back under full ordering behind one that waits or is of higher QoS, or sent, complete at once with QoS 0, or refused for its length |
| SendEffects.SendDrops | client/lib/src/op/SendOp.cpp:227-244 | without configuration what is prepared leaves and preparation is unlocked |
| SendEffects.PrepareAdds | client/lib/src/ClientImpl.cpp:379-428 | a publish is prepared exactly while connected and not locked, as a new last entry |
| SendEffects.CancelRemoves | client/lib/src/op/SendOp.cpp:275-284 | a cancelled publish leaves without a callback, after exactly those it sets free |
| SendEffects.DisconnectSuspends | client/lib/src/ClientImpl.cpp:706-726 | a disconnection keeps every publish, sends nothing and suspends exactly the timers that are set |
| SendEffects.LinkLeavesAlone | client/lib/src/op/ConnectOp.cpp:220-270 | connecting, or a refused CONNACK, leaves publishes, books and history as they are |
| SendEffects.SessionFoundResumes | client/lib/src/ClientImpl.cpp:656-690 | after the repeated packets of a found session exactly those not kept back go out, in one pass |
| SendEffects.SessionGoneAborts | client/lib/src/ClientImpl.cpp:692-700 | a reconnection without a session, when it gets through, ends every publish with the callback Aborted |
| SendEffects.TickServes | client/lib/src/op/SendOp.cpp:357-399 | a tick gives every publish whose running timer expires in it one more packet, or Timeout when its attempts are used up, and leaves the others; it loses the session exactly when the answer to PINGREQ is overdue |
| SendEffects.OverdueIsTold | client/lib/src/op/KeepAliveOp.cpp:94-99 | over an open session an overdue answer to PINGREQ is told to the application as a loss |
| SendEffects.CleaningKeepsTheRest | client/lib/src/ClientImpl.cpp:855-871 | cleaning removes the null entries of `m_ops` and nothing else |
| SendFlat.ResumeSinceIsFlat | client/lib/src/ClientImpl.cpp:915-930 | the mutually recursive resume loop does what one pass from front to back says: the list afterwards, and every packet and callback in order |
| SendFlat.OpCompleteIsFlat | client/lib/src/ClientImpl.cpp:1048-1056 | so does every departure |
| SendTheorems.NobodyIsOvertaken | client/lib/src/op/SendOp.cpp:439-455 | in every run, while a live publish has had no PUBLISH, no PUBLISH of a later-issued one is in the history, whether that one is still live or gone |
| SendTheorems.FirstCopiesSkipNobody | client/lib/src/op/SendOp.cpp:439-455 | in every run, at the moment a first PUBLISH goes out, be it within the completion of another, nobody in the list before it is without one |
| SendTheorems.EarlierHaveGoneFirst | client/lib/src/op/SendOp.cpp:245-273 | at the end of each step, every publish issued before one whose PUBLISH is in the history has had its own, and not after a first one, or has left the list |
| SendTheorems.ShapeOfTheList | client/lib/src/ClientImpl.cpp:734-774 | in every run the list is the published entries (QoS not decreasing with full ordering), then those held back, then at most one prepared entry; acknowledged entries are a prefix, all of QoS 2 |
| SendTheorems.OnePredecessorIsEnough | client/lib/src/ClientImpl.cpp:734-758 | looking at one predecessor decides whether any earlier publish is held back |
| SendTheorems.EveryPublishAccounted | client/lib/src/ClientImpl.cpp:622-654 | every prepared publish is live without an end, or gone with exactly one: callback, cancellation or refusal |
| SendTheorems.OpsAgreeWithTheList | client/lib/src/ClientImpl.cpp:836-871 | as far as publishes go: those in `m_ops` are those of `m_sendOps` in the same order, and a null entry implies `m_opsDeleted` |
| SendTheorems.OneHolderPerIdentifier | client/lib/src/op/SendOp.cpp:36-39 | a non-zero packet identifier is in the pool exactly when one live operation holds it, never two; the pool stays ascending |
| SendTheorems.NobodyWaitsInVain | client/lib/src/ClientImpl.cpp:1048-1056 | no lost wake-up: between calls of a connected client the first publish held back has an earlier live one of strictly higher QoS, also after completions that happened while disconnected |
| History.CompletionsInIssueOrder | client/lib/src/op/SendOp.cpp:42-173 | in an orderly history Complete callbacks of one QoS above 0 come in issue order |
| History.FirstCopiesInIssueOrder | client/lib/src/op/SendOp.cpp:257-273 | first PUBLISH packets go on the wire in issue order, even through nested resumes |
| History.DupMarksRepeats | client/lib/src/op/SendOp.cpp:373-377 | only the first PUBLISH of a publish has DUP clear, and all copies carry one packet identifier |
| History.HeaderKept | client/lib/src/op/SendOp.cpp:251-255 | identifier, QoS and attempts limit of a publish are the same in all its PUBLISH packets |
| History.PubrelDiscipline | client/lib/src/op/SendOp.cpp:116-132 | after the first PUBREL of a publish no PUBLISH of it follows, and first PUBRELs go out in issue order |
| History.FullOrderingHolds | client/lib/src/op/SendOp.cpp:439-455 | with full ordering, once a later publish has had a PUBLISH no packet of an earlier one of higher QoS goes out any more |
| History.AttemptsNeverExceeded | client/lib/src/op/SendOp.cpp:364-371 | the PUBLISH packets that no reconnection caused are at most the configured attempts |
| History.TimeoutMeansSpent | client/lib/src/op/SendOp.cpp:364-371 | a publish ends with Timeout only after it was sent, and before PUBREC only with all its attempts used |
| History.CopiesWithinResumptions | client/lib/src/op/SendOp.cpp:286-296 | the others are at most one for each reconnection with a session present that found the publish on its way |
| History.EndsOnce | client/lib/src/op/SendOp.cpp:401-414 | a publish ends at most once and is not heard of afterwards |
| History.EndedIsSilent | client/lib/src/op/SendOp.cpp:401-414 | once a publish has ended, its packets and its end stay as they were however the history goes on |
| SendSteps.ResumeSinceKeeps | client/lib/src/ClientImpl.cpp:915-930 | the resume loop and the recursion it starts keep list, flags and history in agreement, leave published entries untouched and keep resumed ones that can stay |
| SendSteps.CompleteWithCbKeeps | client/lib/src/op/SendOp.cpp:401-414 | completing an entry, with all that it resumes before its callback runs, keeps the invariant |
| SendSteps.CanSendInTurn | client/lib/src/op/SendOp.cpp:439-455 | a publish held back that `canSend` lets go has only published entries before it and none of higher QoS |
| SendRuns.LegitExactly | client/lib/src/ClientImpl.cpp:950-972 | an acknowledgement is legitimate if and only if the publish is on the wire, all earlier ones have been received, and a PUBCOMP is for the oldest |
| SendRuns.ResendDupKeeps | client/lib/src/op/SendOp.cpp:364-399 | a further packet, or the Timeout that replaces it, keeps the invariant |
| SendRuns.ResendAllUntilKeeps | client/lib/src/ClientImpl.cpp:974-996 | the walk over a list that shrinks keeps the invariant and ends |
| SendRuns.AckKeeps | client/lib/src/ClientImpl.cpp:998-1016 | any acknowledgement with any identifier keeps the invariant |
| SendSession.SendCallKeeps | client/lib/src/op/SendOp.cpp:227-273 | issuing a publish, whether refused, held back or sent at once, keeps the invariant |
| SendSession.SendCallIs | client/lib/src/op/SendOp.cpp:245-273 | sending at once is the same as holding back and resuming |
| SendSession.CancelKeeps | client/lib/src/op/SendOp.cpp:275-284 | cancelling any publish, prepared, held back or on the wire, keeps the invariant |
| SendSession.ResendLoopIs | client/lib/src/ClientImpl.cpp:663-666 | the re-send loop repeats one packet of every entry that is not held back, in list order, and erases none |
| SendSession.StepKeeps | client/lib/src/ClientImpl.cpp:379-1056 | every call, packet and timer keeps the invariant |
| SendSession.RunKeeps | client/lib/src/ClientImpl.cpp:379-1056 | so every run does |
| SendBooks.RunTidy | client/lib/src/ClientImpl.cpp:622-654 | every run keeps `m_ops`, the list and the identifiers in use in agreement |
| SendBooks.TidyErased | client/lib/src/ClientImpl.cpp:25-52 | an entry that leaves keeps list, `m_ops` and identifiers in agreement |
| SendBooks.LeavesWithItsOwn | client/lib/src/ClientImpl.cpp:1048-1056 | it takes with it just the one entry of `m_ops` that names it, and just its own identifier, which was in use; identifier 0 is never released |
| SendWakeups.OpCompleteWakes | client/lib/src/ClientImpl.cpp:1048-1056 | whoever leaves while the client is not disconnecting, nobody is left waiting in vain |
| SendWakeups.ResumeSinceWakes | client/lib/src/ClientImpl.cpp:915-930 | a resume loop that starts before all publishes held back stops only at one that must wait |
| SendWakeups.SessionPresentWakes | client/lib/src/ClientImpl.cpp:672-686 | a reconnection that finds the session wakes those whose holders left meanwhile |
| SendReconnect.SessionPresentRepeatsAll | client/lib/src/ClientImpl.cpp:656-690 | section 4.4 of MQTT 3.1.1: exactly one packet of every publish on its way, in list order with its identifier, before anything is resumed; nobody is lost and no assertion fails |
| SendReconnect.PubrelsComeFirst | client/lib/src/ClientImpl.cpp:663-666 | all PUBRELs of that loop precede all its PUBLISHes |
| SendReconnect.SessionAbsentMeetsNullExactly | client/lib/src/ClientImpl.cpp:692-700 | the walk over `m_ops` meets a null entry if and only if there was one before or a publish held back behind the first leaves as soon as it is resumed; otherwise every old publish ends |
| SendTimers.SuspendedExactlyWhenHit | client/lib/src/op/SendOp.cpp:345-355 | in every run every publish waiting for the broker has its timer set, and the timer is suspended if and only if some loss of the session found it set |
| SendTimers.TimersNeverRunAgain | client/lib/src/op/SendOp.cpp:345-349 | once a loss of the session found it set, no tick of any continuation calls the timer's callback |
| SendTimers.LossHitsAll | client/lib/src/op/SendOp.cpp:42-75 | an explicit or detected disconnection, or an acknowledgement that its operation does not expect, hits every publish that is on its way afterwards |
| SendTimers.SameTickSpares | client/lib/src/TimerMgr.cpp:55-86 | a publish whose timer expires in the same tick as the response to PINGREQ, behind it, is re-sent while disconnecting and its timer runs on unsuspended |
| SendTicks.TickSparesExactly | client/lib/src/TimerMgr.cpp:55-86 | in every run, of the publishes on their way after a tick that loses the session a publish not hit before is spared if and only if its own callback comes after the loss |
| SendForced.AckOutOfTurnServesAll | client/lib/src/ClientImpl.cpp:974-1016 | an acknowledgement out of turn, whoever it names and however the walk ends, gives every publish on the wire up to the one named one more packet, or ends it with Timeout when its attempts are used up; those held back stay so, leave as they are resumed, or go out and are then served like the others; later ones are left alone unless the one named leaves once resumed |
| SendForced.RepeatsInListOrder | client/lib/src/ClientImpl.cpp:974-996 | whatever the walk repeats, publishes resumed on the way included, goes out in list order, each at most once |
| SendOverrun.OutOfTurnOverrunsExactly | client/lib/src/ClientImpl.cpp:974-996 | for all lists: the walk looks past the end, or comes to the prepared publish, if and only if the one named leaves once resumed, all who keep it or those before it back are doomed, a spent one sets things going, and the same holds of all behind it or one is prepared |
| SendOverrun.ResumeSinceAlike | client/lib/src/ClientImpl.cpp:915-930 | the nested resumes of one departure change nothing of what decides this |
| SendOverrun.LastHeldVanishesExactly | client/lib/src/ClientImpl.cpp:974-996 | when the one named is the last and only one held back, too long for the buffer: if and only if not disconnecting and all that hold it, and the one before it, have used up their attempts |
| SendFaults.FaultsExactlyThere | client/lib/src/ClientImpl.cpp:692-700 | in every run an event makes a walk touch a missing object, or an assertion on a publish re-sent or timed out fail, if and only if it is a CONNACK without a session over a null or fleeting entry, or an acknowledgement that names a publish which vanishes |
| SendFaults.OtherAssertionsHold | client/lib/src/ClientImpl.cpp:776-780 | in every run a prepared publish has locked preparation, an acknowledged one is of QoS 2, one on the wire has used an attempt, one held back waits under full ordering, and every identifier to be released is in use |
| SendExamples.NamedPublishVanishes | client/lib/src/ClientImpl.cpp:974-996 | a run from a fresh client in which the walk looks past the end |
| SendExamples.CancelledBeforeConnack | client/lib/src/ClientImpl.cpp:692-700 | a run in which a publish cancelled before the CONNACK leaves the null entry the walk meets |
| SendExamples.HeldBackAtConnack | client/lib/src/ClientImpl.cpp:692-700 | a run in which a QoS 0 publish held back is resumed by the walk and nulls the entry ahead |
| SendExamples.SparedByTheSameTick | client/lib/src/TimerMgr.cpp:55-86 | a run after which the timer of a publish runs on through a lost session |
| SendClient.ClientImpl.Perform | client/lib/src/ClientImpl.cpp:379-1056 | the objects updated in place do at every event exactly what the functions say, so every run of them is a run of the model |
| SendClient.ClientImpl.ResumeSendOpsSince | client/lib/src/ClientImpl.cpp:915-930 | the index loop does what `ResumeSince` says, and ends although it calls itself through the entries it resumes |
| SendClient.ClientImpl.Resume | client/lib/src/op/SendOp.cpp:307-333 | tells whether the publish went on, and does what `SendModel.Resume` says |
| SendClient.ClientImpl.DoSendInternal | client/lib/src/op/SendOp.cpp:416-437 | sends, counts the attempt, completes QoS 0 at once and arms the timer otherwise; on overflow only the count is reset |
| SendClient.ClientImpl.CompleteWithCb | client/lib/src/op/SendOp.cpp:401-414 | the callback comes after the entry is gone and others were resumed |
| SendClient.ClientImpl.OpComplete | client/lib/src/ClientImpl.cpp:1048-1056 | erases and resumes from the place of the erased entry unless disconnecting |
| SendClient.ClientImpl.EraseFromLists | client/lib/src/ClientImpl.cpp:622-654 | takes the entry out of both lists and gives the identifier back |
| SendClient.ClientImpl.HasPausedSendsBefore | client/lib/src/ClientImpl.cpp:734-758 | the backward search and the look at one predecessor answer as the function does |
| SendClient.ClientImpl.HasHigherQosSendsBefore | client/lib/src/ClientImpl.cpp:760-774 | the forward search finds an earlier entry of higher QoS exactly when there is one |
| SendClient.ClientImpl.CanSend | client/lib/src/op/SendOp.cpp:439-455 | both conditions, skipped with same-QoS ordering |
| SendClient.ClientImpl.FindSendOp | client/lib/src/ClientImpl.cpp:932-948 | the first entry with the identifier |
| SendClient.ClientImpl.IsLegitSendAck | client/lib/src/ClientImpl.cpp:950-972 | the loop decides as the function does |
| SendClient.ClientImpl.ResendDupMsg | client/lib/src/op/SendOp.cpp:364-399 | Timeout, one more packet or an internal error |
| SendClient.ClientImpl.ForceDupResend | client/lib/src/op/SendOp.cpp:298-305 | nothing for a publish held back, a further packet otherwise |
| SendClient.ClientImpl.PostReconnectionResend | client/lib/src/op/SendOp.cpp:286-296 | gives one attempt back, unsigned, and repeats |
| SendClient.ClientImpl.ResendAllUntil | client/lib/src/ClientImpl.cpp:974-996 | the index walk over a list that shrinks under it |
| SendClient.ClientImpl.HandlePuback | client/lib/src/op/SendOp.cpp:42-75 | completion, or protocol error and disconnection |
| SendClient.ClientImpl.HandlePubrec | client/lib/src/op/SendOp.cpp:78-133 | PUBREL, or the error paths |
| SendClient.ClientImpl.HandlePubcomp | client/lib/src/op/SendOp.cpp:135-173 | completion, or protocol error and disconnection |
| SendClient.ClientImpl.ProcessPublishAckMsg | client/lib/src/ClientImpl.cpp:998-1016 | dispatch to the handler or to the re-send walk |
| SendClient.ClientImpl.BrokerDisconnected | client/lib/src/ClientImpl.cpp:706-726 | as far as publishes go: session flags, and suspension of the timers that run |
| SendClient.ClientImpl.BrokerConnected | client/lib/src/ClientImpl.cpp:656-704 | as far as publishes go, both branches: re-send and resume, or the walk that ends all |
| SendClient.ClientImpl.PublishPrepare | client/lib/src/ClientImpl.cpp:379-428 | the new entry, unless one of the four conditions that do not depend on capacities forbids it |
| SendClient.ClientImpl.TimersTick | client/lib/src/TimerMgr.cpp:55-86 | all timers that expire are cancelled before the first callback runs |
| SendClient.ClientImpl.ResponseTimeout | client/lib/src/op/SendOp.cpp:357-362 | the callback repeats or ends the publish, and finds its timer not set |
| SendClient.ClientImpl.Send | client/lib/src/op/SendOp.cpp:227-273 | refused, held back, or sent |
| SendClient.ClientImpl.Cancel | client/lib/src/op/SendOp.cpp:275-284 | leaves silently, and unlocks preparation if it was not sent yet |
| SendClient.ClientImpl.CleanOps | client/lib/src/ClientImpl.cpp:855-871 | null entries are dropped, the rest keeps its order |
| PacketIds.ProbeFindsFirstFree | client/lib/src/op/Op.cpp:61-96 | the cyclic probe ends within size + 1 looks at the first free identifier |
| PacketIds.ZeroExactlyWhenProbeWraps | client/lib/src/op/Op.cpp:61-96 | identifier 0 is returned exactly when the pool is exhausted or the probe steps past 65535 with 0 free |
| PacketIds.ZeroIsReached | client/lib/src/op/Op.cpp:61-113 | a run of allocations and releases, with one identifier held, after which 0 is returned although the pool is not exhausted |
| PacketIds.AllocAddsOne | client/lib/src/op/Op.cpp:61-96 | one identifier is added, new to the pool, and the vector stays strictly ascending |
| PacketIds.ReleaseRemovesOne | client/lib/src/op/Op.cpp:98-113 | exactly that identifier is removed, and 0 never is |
| PacketIds.AllocThenRelease | client/lib/src/op/Op.cpp:61-113 | releasing undoes allocating |
| PacketIds.PacketIdStore.AllocPacketId | client/lib/src/op/Op.cpp:61-96 | the probing loop over the vector computes the specified identifier and pool |
| PacketIds.PacketIdStore.ReleasePacketId | client/lib/src/op/Op.cpp:98-113 | the erasing lookup does what `Release` says |
| Topics.MatchIsLevelMatch | client/lib/src/op/RecvOp.cpp:29-78 | for every filter and non-empty topic the recursion matches exactly by the rules of section 4.7.1 of MQTT 3.1.1, but for the empty last level of a topic against `+` or as parent of `#` |
| Topics.MatchIsSoundAndAlmostComplete | client/lib/src/op/RecvOp.cpp:29-78 | sound for all topics, complete for those that do not end with a separator |
| Topics.VerifySubFilter | client/lib/src/op/Op.cpp:122-197 | the loop over characters accepts exactly the non-empty filters whose wildcards fill a level, `#` only the last |
| Topics.WildcardsByLevel | client/lib/src/op/Op.cpp:142-190 | looking at the neighbours of each wildcard decides what the levels are |
| Topics.VerifyPubTopic | client/lib/src/op/Op.cpp:199-245 | accepts exactly the non-empty topics without wildcards, and no outgoing one that starts with `$` |
| Topics.PubTopicFromFilter | client/afl_fuzz/Generator.cpp:21-49 | the loop spells the wildcards out |
| Topics.GeneratedTopicMatches | client/afl_fuzz/Generator.cpp:21-49 | for every valid filter the generated topic is non-empty, without wildcards and matched by the filter |
| Filters.FoundIsMembership | client/lib/src/op/SubscribeOp.cpp:241-252 | a lookup by `lower_bound` agrees with set membership |
| Filters.LowerBound | client/lib/src/op/SubscribeOp.cpp:241-247 | the binary search finds the place of a filter in the sorted vector |
| Filters.GrantingIsOnSets | client/lib/src/op/SubscribeOp.cpp:184-261 | the return code loop keeps the vector sorted and does to it what the same loop does to a set, with the same verdict |
| Filters.CompletedGrantsAll | client/lib/src/op/SubscribeOp.cpp:184-270 | a SUBACK without errors grants exactly the topics whose code is not failure |
| Filters.CompletesExactly | client/lib/src/op/SubscribeOp.cpp:184-261 | a SUBACK completes if and only if every code is failure or a QoS not above the one asked for, and all that it grants is stored or can be |
| Filters.FailsAt | client/lib/src/op/SubscribeOp.cpp:184-261 | one that fails does so at the first entry that does not fit, a protocol error, or has no room, an internal one, and what was granted before it stays stored |
| Filters.RemovingIsOnSets | client/lib/src/op/UnsubscribeOp.cpp:150-170 | an UNSUBACK removes exactly its topics |
| Reception.VectorIsGranted | client/lib/src/op/ConnectOp.cpp:256-265 | in every run the vector is sorted and holds exactly the filters granted, less those withdrawn, cleared by an accepted CONNACK without a session |
| Reception.ReportsAreSubscribed | client/lib/src/op/RecvOp.cpp:134-168 | with the gate on every reported message came over an open session on a topic that a granted filter matches by the level-wise rules; the report shows the topic up to its first NUL |
| Reception.EveryReportWasSubscribed | client/lib/src/op/RecvOp.cpp:148-165 | over a whole run every report, when it was made, was on a topic that a filter granted at that time matches |
| Reception.ReportedOnce | client/lib/src/ClientImpl.cpp:441-509 | section 4.3.3 of MQTT 3.1.1: between two reports of QoS 2 messages with one identifier the first reception ended by PUBREL, time-out or termination |
| Reception.UnderWayMeansReported | client/lib/src/op/RecvOp.cpp:96-233 | non-zero identifiers of receptions are distinct, and are exactly those reported and not yet ended |
| ReceptionEffects.PublishEffect | client/lib/src/op/RecvOp.cpp:96-211 | what a PUBLISH shows in every state: its report and the acknowledgement of its QoS, a repeated PUBREC for a duplicate, or the loss of the session, and exactly when |
| ReceptionEffects.PubrelEffect | client/lib/src/op/RecvOp.cpp:214-233 | PUBREL for a known identifier is answered by PUBCOMP and ends the reception, or loses the session when malformed |
| ReceptionEffects.OtherEffects | client/lib/src/op/RecvOp.cpp:270-290 | time-outs, SUBACK errors, disconnections and accepted CONNACKs show exactly what they should |
| ReceptionEffects.LossIsTold | client/lib/src/ClientImpl.cpp:706-726 | a packet that costs the session tells so, and the others leave the link as it is |
| ReceptionEffects.AcknowledgedAsAsked | client/lib/src/op/RecvOp.cpp:186-201 | sections 4.3.2 and 4.3.3 of MQTT 3.1.1 over whole runs: each report of QoS 1 is followed at once by PUBACK, each of QoS 2 by PUBREC, each end by PUBREL comes at once after PUBCOMP, and those packets answer nothing else, but for PUBREC to a duplicate |
| ReceptionEffects.MatchingIsReported | client/lib/src/op/RecvOp.cpp:134-201 | in every run a message over an open session on a topic that a granted filter matches by the level-wise rules is reported and acknowledged, unless its QoS 2 reception is under way |
| Reception.TimerRunsExactly | client/lib/src/op/RecvOp.cpp:236-261 | in every run time passes for a reception if and only if its timer was not stopped since its report or the last resumption, and no loss of the session that found it running still holds it |
| Reception.StopsExactlyBy | client/lib/src/ClientImpl.cpp:485-500 | a timer is stopped exactly by a duplicate PUBLISH or a PUBREL of that reception |
| Reception.ResumptionMissesExactly | client/lib/src/op/RecvOp.cpp:243-249 | a reconnection that finds the session leaves exactly those timers standing that a loss caught and that were stopped after it |
| Reception.DuplicateStopsTheClock | client/lib/src/op/RecvOp.cpp:236-249 | in every run, after a duplicate PUBLISH the reception stays and no time passes for it until a valid PUBREL or an accepted CONNACK, whatever else comes |
| Reception.StandsStopped | client/lib/src/ClientImpl.cpp:485-500 | a run to an open session with a timer stopped by a duplicate |
| Reception.StandsSuspended | client/lib/src/TimerMgr.h:56-63 | a run to an open session with a timer that is set and suspended |
| ReceptionClient.ClientImpl.Perform | client/lib/src/ClientImpl.cpp:441-552 | the reception objects and the filter vector do at every event what the functions say |
| ReceptionClient.ClientImpl.HandlePublish | client/lib/src/ClientImpl.cpp:441-509 | a new reception, a repeated PUBREC or a protocol error |
| ReceptionClient.ClientImpl.HandleNew | client/lib/src/op/RecvOp.cpp:96-211 | the checks of a new message in order; a refused one leaves a reception without identifier behind |
| ReceptionClient.ClientImpl.HandlePubrel | client/lib/src/op/RecvOp.cpp:214-233 | PUBCOMP and the end of the reception, or a protocol error |
| ReceptionClient.ClientImpl.StoreGranted | client/lib/src/op/SubscribeOp.cpp:184-261 | the return code loop with its lookups does what `OnSuback` says, verdict included |
| ReceptionClient.ClientImpl.HandleUnsuback | client/lib/src/op/UnsubscribeOp.cpp:150-170 | the erasing loop does what `Removing` says |
| ReceptionClient.ClientImpl.ResumeRecvOps | client/lib/src/op/RecvOp.cpp:243-249 | after a reconnection every reception's timer is released, if it was active, and set again |
| Timers.TickTwiceIsTickOnce | client/lib/src/TimerMgr.cpp:55-86 | two ticks fire the same timers, once each, and leave the same remaining times as one tick of the sum |
| Timers.ShortTickFiresNothing | client/lib/src/TimerMgr.cpp:88-112 | a tick below the least wait fires nothing |
| Timers.ExactTickFiresTheLeast | client/lib/src/TimerMgr.cpp:88-112 | a tick of exactly a non-zero least wait fires exactly the timers with the least remaining time, if that time fits 32 bits |
| Timers.TickLeavesSuspended | client/lib/src/TimerMgr.cpp:68-72 | suspended timers neither age nor fire |
| Timers.TimerMgr.Tick | client/lib/src/TimerMgr.cpp:55-86 | the loop ages every slot and collects the callbacks in slot order |
| Timers.TimerMgr.GetMinWait | client/lib/src/TimerMgr.cpp:88-112 | the least wait, cut to 32 bits, 0 when there is none |
| Timers.TimerMgr.AllocTimer | client/lib/src/TimerMgr.cpp:19-53 | the first free slot or a new one; the branch that should not happen does not; none only when all slots there can be are taken |
| Timers.TimerMgr.FreeTimer | client/lib/src/TimerMgr.cpp:126-138 | the slot is as new and the count goes down |
| Timers.TimerMgr.TimerWait | client/lib/src/TimerMgr.cpp:140-153 | time and callback are set, suspension is kept |
| Timers.TimerMgr.TimerCancel | client/lib/src/TimerMgr.cpp:155-167 | time and callback are cleared, suspension is kept |
| Timers.TimerMgr.SetSuspended | client/lib/src/TimerMgr.h:56-63 | only an active timer is suspended or released |
| Timers.TimerMgr.AllocCount | client/lib/src/TimerMgr.cpp:114-124 | counting the slots gives the number kept in `m_allocatedTimers` |
| TimerPool.NobodyGoesWithout | client/lib/src/ExtConfig.h:19-47 | in every run of operations made and destroyed, timers set, stopped, suspended and run out, every live operation has all its timers on slots in use that no other timer has, in bounded and unbounded builds |
| TimerPool.NoSlotIsLost | client/lib/src/TimerMgr.h:34-39 | the slots in use are as many as the live operations need, and each belongs to exactly one of their timers |
| TimerPool.LimitIsTight | client/lib/src/ExtConfig.h:39-47 | with every kind of operation at its limit all slots are in use |
| TimerPool.MakeTimers | client/lib/src/TimerMgr.cpp:19-53 | the timers of a new operation, one after the other, are the first free slots |
| TimerPool.FreeTimers | client/lib/src/TimerMgr.cpp:126-138 | a destroyed operation gives back all its slots |
| TimerPool.Operations.Perform | client/lib/src/TimerMgr.cpp:19-167 | the manager and the list of operations do at every event what the functions say |
| KeepAlive.PromptExactlyWhenResponseIsShort | client/lib/src/op/KeepAliveOp.cpp:40-99 | section 3.1.2.10 of MQTT 3.1.1: in every run packets are never further apart than the keep-alive period if and only if the response timeout is not longer than it |
| KeepAlive.ResponseTimerIsFirst | client/lib/src/op/KeepAliveOp.cpp:62-92 | with a shorter response timeout the ping timer always runs, and while an answer is awaited the response timer expires strictly before it |
| KeepAlive.AssertionFailsExactly | client/lib/src/op/KeepAliveOp.cpp:94-99 | over all runs the assertion that the response timer is idle never fails if and only if the response timeout or the keep-alive period is 0 |
| KeepAlive.ClashesWhenBothExpire | client/lib/src/op/KeepAliveOp.cpp:82-114 | at a tick it fails if and only if the response timer expires together with the ping or the receive timer |
| KeepAlive.DropsExactlyThen | client/lib/src/op/KeepAliveOp.cpp:94-99 | in every state an event drops the session if and only if it is a tick in which the response timer runs out |
| KeepAlive.DroppedExactlyWhenUnanswered | client/lib/src/op/KeepAliveOp.cpp:82-99 | over all runs and periods the session has been dropped if and only if some PINGREQ stayed without PINGRESP for the whole response timeout |
| KeepAlive.PingreqExactly | client/lib/src/op/KeepAliveOp.cpp:62-92 | a tick sends PINGREQ exactly when a period of sending or of receiving runs out and no answer is awaited any more |
| KeepAlive.SilenceIsProbed | client/lib/src/op/KeepAliveOp.cpp:72-80 | in every run a PINGREQ goes out when the keep-alive period has passed without an incoming packet, unless an answer is awaited |
| KeepAlive.KeepAliveOp.SendPing | client/lib/src/op/KeepAliveOp.cpp:82-92 | no PINGREQ while an answer is awaited; otherwise one goes out, which restarts the ping timer, and the response timer is set |
| KeepAlive.KeepAliveOp.Tick | client/lib/src/op/KeepAliveOp.cpp:101-114 | all three timers age before the callbacks of the expired ones are called in slot order |
| KeepAlive.KeepAliveOp.HandlePingresp | client/lib/src/op/KeepAliveOp.cpp:45-50 | the response timer stops and the receive timer restarts |
| KeepAlive.KeepAliveOp.PingTimeout | client/lib/src/op/KeepAliveOp.cpp:94-99 | the assertion is looked at and the session dropped |

## Left out

- SendModel: a fault is an assertion of the code that fails or an object it touches that is gone; what a release build does then is not modelled, the run stops there.
- SendModel: callbacks only append to the history; an application that calls the library from its callbacks is not covered.
- SendModel: publishes are sent with a completion callback; a null one makes `cancel` take a sent publish for a prepared one.
- SendModel: ordering, attempts and response timeout are fixed before the first publish and at `send`; changing them later is not covered, nor is the destructor of the client.
- SendModel: the other operations take part as entries of `m_ops` and holders of packet identifiers that come and go; their share in the preparation lock, and everything else they do, is left out.
- SendModel: preparing and sending the connect operation is one step, and its own failures end it; identifiers in acknowledgements are not zero.
- SendModel: the bounded list variants (capacity of `m_ops` and of the operation pools) and builds with a maximum QoS below 2 are left out.
- SendClient.ClientImpl.BrokerDisconnected: the end of the other operations, and of those of the keep-alive and connect kind, is left out.
- SendClient.ClientImpl.BrokerConnected: receptions and the making of the keep-alive operation are left out; receptions are in `Reception`.
- SendClient.ClientImpl.PublishPrepare: refusals for want of capacity or memory are left out.
- SendTheorems.OpsAgreeWithTheList: compares publishes; the entries of other operations are names without a list of their own.
- SendClient: `m_ops` holds identities instead of pointers, and the pool of packet identifiers is used through the functions that `PacketIds.PacketIdStore` is proved against; the first and only entry of an operation is nulled by a map over the vector.
- SendModel: the order of callbacks of QoS 0 publishes is not issue order and nothing is claimed about it.
- SendModel: a tick calls back for publishes and for a PINGREQ without answer; the callbacks of other operations are left out, and which timers expire in a tick is free, whatever their remaining times.
- Topics.IsTopicMatch: the code reads the first character of an empty filter rest when a filter ends with a separator and the topic goes on; the model takes that as no match.
- Topics.VerifySubFilter: positions are unbounded integers instead of 32-bit ones; the rule of section 4.7.2 of MQTT 3.1.1 for topics that start with `$` is not in the code's matching either.
- Reception: receptions end with a lost session in one step; the walk over `m_ops` that ends them is modelled for publishes only. Pending subscribe and unsubscribe operations are represented by the SUBACK or UNSUBACK that answers them.
- Reception: an expired reception timer and a loss of the session in one tick are two events, the expiry first; the reception ends either way.
- Filters: the membership check when an unsubscribe is configured is the same lookup and is not modelled as a call.
- KeepAlive: time since the operation was made stands for time since the CONNECT packet; the operation's end with the session is the end of the run; ticks never exceed the least wait the host was given.
- TimerPool: the operation pools are counters with a limit of each kind, and which timer an operation sets when is free; operations without timers are left out.
- Byte-level framing and message fields, the C interface, TCP and TLS sessions, logging and build scripts are not part of this model; sending is an event and a length check.
- Host tick programming (`doApiEnter`, `doApiExit`) is left out: several calls change timers outside that bracket.
