# osmo-sip-connector: the two-leg call bridge

The connector joins a call leg towards the MSC (MNCC) to a call leg towards a PBX (SIP). This
project models the bridge as a state machine, proves what holds after every run of it, and proves
that a program with the connector's own shape (a list of mutable calls, legs with callbacks,
handlers run to completion) follows that machine step by step.

## How it is built

| file | content |
|---|---|
| Domain.dfy | fields of calls and legs, messages, the trace of one call |
| Sdp.dfy, SdpText.dfy, CauseMap.dfy | media selection over a parsed session; forwarding an SDP with another mode; the cause/status table and the Reason line |
| Trace.dfy | a digest of a trace and what each of its fields means in terms of the entries |
| CallMachine.dfy | one event on one call, with the callbacks into the other leg, as a function |
| CallInvariant.dfy | the invariant of a call and its trace, kept by every event |
| Bridge.dfy, CallList.dfy, Lifecycle.dfy | the whole process: list, connection, events, the sweep over the list, the invariant over all runs |
| Locality.dfy, Protocol.dfy | an event acts on each call by itself; the handlers as a flat table of what is said and which legs are left |
| Outcomes.dfy, Relay.dfy, Effects.dfy, Arrivals.dfy | what reaches the other side, event by event and over runs |
| Guarantees.dfy, Hearing.dfy, Guard.dfy, Clearing.dfy, Progress.dfy, Orphans.dfy | the main results |
| Scenario.dfy | a run built event by event, the concrete input where a property has an exception |
| Legs.dfy, Connector.dfy, Dispatch.dfy | calls, legs and process as objects updated in place, proved to follow the functions |

A *trace* is everything sent or heard on behalf of one call, in order; the process keeps one per
call id, also for calls that are gone. A null callback, a failed assertion on a partner and a wrong
cast are entries of the trace, so that their absence can be proved. A run is a sequence of states
and deliverable events (`Lifecycle.IsRun`), `Lifecycle.Reachable` is the set of states that runs
lead to, and the main results are about all of them or about all runs.
`Dispatch.Serve` ties the heap to it: a process fed any such run ends in the state of that run.

## What the environment is assumed to grant

These are the conjuncts of `Lifecycle.Allowed`, `CallInvariant.MnccAllowed` and
`CallInvariant.SipAllowed`.

- Socket writes inside a handler succeed, except the write of SETUP_REQ, whose failure is modelled. Connection loss is an event of its own.
- CALL_CONF_IND, ALERT_IND and SETUP_CNF come for calls towards the mobile, SETUP_COMPL_IND for calls from it, and RTP_CREATE for a call from the mobile only as the answer to a request that is outstanding, or on a leg in release, which refuses it. The handlers do not check this (`Progress.DispatchFailsExactly` says what happens otherwise).
- Callrefs chosen by the MSC are not those of live legs, and call ids do not wrap around.
- Handles from the SIP stack are new, no event comes on a destroyed handle, and a response to an INVITE comes only on a handle an INVITE was sent on.
- An INVITE may lack users or carry a bad call reference: the early returns of `src/sip.c:150-169` are modelled and leave a bare call (`Orphans.RefusalLeavesBareCall`) that no event ever changes or takes off the list (`Orphans.BareCallNeverLeaves`).

## Where the code falls short of a natural property

- The stored SDP. `src/call.h:62-64` promises the SDP most recently received in an MNCC message. An SDP in RTP_CREATE or RTP_CONNECT on a leg in release is refused with the message, and one in DISC_IND, REL_IND, REJ_IND, REL_CNF, HOLD_IND or RETRIEVE_IND is not looked at. `Hearing.SdpIsTakenExactly` gives the exact condition for every message, `Hearing.StoredSdpIsLastTaken` lifts it to runs and `Hearing.ReceivedSdpIsLost` is a run where an SDP is lost.
- The release guard. That an MNCC leg in release always has its command timer armed is false: a 200 to the INVITE that crosses the release runs `mncc_call_leg_connect` on the leg in release, which makes it wait for SETUP_COMPL_IND, and that message then stops the timer. `Guard.LateCompletionDisarms` is such a run, `Guard.GuardIsKeptExactly` gives the exact condition for every event and `Guard.PunctualRunsStayGuarded` lifts it to runs; `Guard.TimelyRunsStayGuarded` states it with what the MSC can see.
- Losing one leg normally releases the other. A re-INVITE or ACK with an offer that is neither a hold nor usable drops the SIP leg and leaves the MNCC leg alone, not in release and, unless one was armed already, without a timer. `Orphans.LegIsStrandedExactly` and `Orphans.ReofferStrandsExactly` give the exact condition, `Orphans.LegIsStranded` is a run, and `Orphans.StrandedLegWaits` says that only the MSC or the loss of the connection then clears the leg.
- An MNCC leg that goes normally takes the SIP leg along or leaves it with a BYE or CANCEL out. A REL_CNF that nobody waits for does not: `Outcomes.PartnerIsReleasedExactly` says that this is the only exception, `Outcomes.PartnerIsForgotten` is a run.
- An INVITE without a connection normally leaves the call list as it was; `Clearing.InviteWithoutConnectionIsRefused` states exactly when, `Clearing.NamelessInviteStays` is the exception.
- ALERT_IND or SETUP_CNF on a call from the mobile calls a callback that is not set (`Progress.DispatchFailsExactly`, with a run in `Progress.MisplacedAlertCrashes`).

Causes are the numbers of section 10.5.4.11 of GSM 04.08; the reason line is that of section 2 of RFC 3326.

## Model

| member | source | states |
|---|---|---|
| `Guarantees.ReleaseIsSymmetric` | src/mncc.c:301-343 | in every reachable state a two-legged call has its MNCC leg in release exactly when its trace holds a BYE or CANCEL, whichever side and path started the release |
| `Guarantees.MediaIsCoherent` | src/mncc.c:189-298 | in every reachable state, for a two-legged call not in release with a SIP port, the last RTP_CONNECT ever sent carries the SIP leg's current address and port |
| `Guarantees.HoldCorresponds` | src/mncc.c:778-830 | in every reachable state an MNCC leg in HOLD has a SIP partner in HOLD |
| `Guarantees.SetupRunsInOrder` | src/mncc.c:253-269 | in the trace of every call, live or past, each INVITE follows a CALL_PROC_REQ, and SETUP_RSP follows one too, comes directly after an RTP_CONNECT and at most once |
| `Guarantees.DialledCallIsDisconnected` | src/mncc.c:315-337 | an MO leg with a SIP partner is never INITIAL, so releasing it on a READY connection sends DISC_REQ with its cause, arms the timer and keeps the leg |
| `Guarantees.NothingCrashes` | src/mncc.c:225-262 | no trace of any run holds a call of an unset callback, a missing partner, or a callback entered on a leg of the other kind, whose assertion would fail |
| `Guarantees.HandlesMatchLegs` | src/sip.c:416-459 | a trace speaks of one handle and never after destroying it; the handle is alive exactly while a SIP leg with it is attached to that call |
| `Guarantees.ScanFindsHandle` | src/sip.c:57-75 | the scan for a live handle finds the call whose trace speaks of it |
| `Guarantees.StoredSdpIsHeard` | src/mncc.c:737-749 | a leg stores the last SDP its trace says it heard; one that is non-empty and no longer marked as changed was carried to the MSC, exactly so, by an earlier message of the call |
| `Guarantees.CallsOwnTheirLegs` | src/call.c:70-152 | a listed call has one or two legs, two legs are one of each kind, MO is exactly the initial slot, and ids are unique |
| `Lifecycle.StepKeeps` | src/mncc.c:1083-1164 | every event the environment may deliver keeps the invariant of the whole process |
| `Lifecycle.RunsKeepInvariant` | src/mncc.c:1083-1164 | the invariant holds in every state of every run from the start state |
| `Hearing.SdpIsTakenExactly` | src/mncc.c:401-472 | for any message, expected or not, on an attached MNCC leg in every reachable state: the leg stores its SDP, cut to 1023 bytes, if there is one and the kind of message and the leg's in_release are such that the code looks at it, and keeps what it had otherwise; the trace says so even when the leg is freed |
| `Hearing.StoredSdpIsLastTaken` | src/call.h:62-65 | after every run a leg of either kind stores the last SDP that an event of the run brought to it, where bringing is defined on the events and not on what was stored; empty if none did |
| `Hearing.ReceivedSdpIsLost` | src/mncc.c:414-419 | a concrete run after which RTP_CONNECT with an SDP reaches an attached leg in release, and the leg still stores the earlier one |
| `Hearing.RefusedMessageIsDropped` | src/mncc.c:450-455 | RTP_CREATE or RTP_CONNECT for a leg in release changes no call and no trace of a call |
| `Hearing.MessageIsHeard` | src/mncc.c:624-905 | which MNCC messages make their leg hear their SDP, and that the other leg hears nothing |
| `Hearing.EventIsHeard` | src/sip.c:359-463 | which SIP events make their leg hear their SDP, and that the other leg hears nothing |
| `Lifecycle.SweepKeeps` | src/app.c:27-59 | the sweep keeps the invariant of the table, leaves no MNCC leg and changes nothing but calls and traces |
| `CallList.SweepReaches` | src/app.c:27-59 | from any position of a list with distinct ids, the sweep takes each call ahead that has an MNCC leg through its disconnection exactly once, leaves each other call and its trace as they were, and says under which value each is listed or that it is gone |
| `Locality.StepIsLocal` | src/mncc.c:1083-1164 | for every deliverable event, what becomes of each listed call and its trace is the event's effect on that call alone, whatever other calls there are |
| `CallInvariant.MnccMsgKeeps` | src/mncc.c:401-860 | each MNCC message the MSC may send keeps the invariant of its call and trace, its identity and its callref |
| `CallInvariant.SipEventKeeps` | src/sip.c:359-463 | each SIP event keeps the invariant of its call and trace |
| `CallInvariant.DisconnectKeeps` | src/app.c:43-57 | releasing both legs of a call on connection loss keeps the invariant and takes the MNCC leg away |
| `Guard.GuardFallsExactly` | src/mncc.c:688-702 | a message leaves the MNCC leg in release without an armed timer if and only if it is a SETUP_COMPL_IND for a leg in release that waits for one |
| `Guard.GuardIsKeptExactly` | src/mncc.c:62-84 | an event keeps the release guard on all calls if and only if it is not such a late SETUP_COMPL_IND |
| `Guard.PunctualRunsStayGuarded` | src/mncc.c:323-336 | in every run, up to the first late SETUP_COMPL_IND, every MNCC leg in release has its timer armed |
| `Guard.TimelyRunsStayGuarded` | src/mncc.c:323-336 | after every run in which SETUP_COMPL_IND comes only for calls that sent no SETUP_RSP after their DISC_REQ or REL_REQ, every MNCC leg in release has its timer armed |
| `Guard.LateCompletionIsVisible` | src/mncc.c:253-269 | a leg in release that waits for SETUP_COMPL_IND has sent a SETUP_RSP after its DISC_REQ or REL_REQ |
| `Guard.LateCompletionDisarms` | src/sip.c:92-114 | a concrete run in which a 200 crosses the release: SETUP_RSP makes the leg wait for SETUP_COMPL_IND, which then stops the timer of the release |
| `Clearing.DisconnectedIsClear` | src/mncc.c:346-358 | in every reachable state DISCONNECTED means that no call has an MNCC leg and the reconnect timer is armed |
| `Clearing.LossClearsMncc` | src/mncc.c:346-358 | losing the connection arms the reconnect timer and leaves no MNCC leg: each call that had one leaves the list or keeps only a SIP leg with BYE or CANCEL out, each other call keeps its value and its trace, and no call appears |
| `Clearing.InviteWithoutConnectionIsRefused` | src/app.c:75-79 | an INVITE that arrives while DISCONNECTED leaves the call list as it was if and only if its offer is refused or its users and call reference are usable |
| `Clearing.NamelessInviteStays` | src/sip.c:164-169 | a concrete INVITE in the start state that leaves a bare call in the list |
| `Orphans.LegIsStrandedExactly` | src/sip.c:255-261 | for every deliverable event on a two-legged call in a reachable state: the SIP leg goes while the MNCC leg stays and is not in release if and only if the MNCC leg was not in release and the event is, on that SIP leg, a re-INVITE or ACK whose offer is neither a hold nor usable, or a response to BYE or CANCEL; the MNCC leg is then just as it was |
| `Orphans.ReofferStrandsExactly` | src/sip.c:212-261 | when responses to BYE and CANCEL come only for ones that were sent, such a leg is left behind if and only if a re-INVITE or ACK brings an offer without a usable address or without an audio codec, and no hold, to a call not in release |
| `Orphans.StrandedLegWaits` | src/mncc.c:48-60 | an MNCC leg left alone with no timer armed stays as it is, with its trace, along every event except a message for its callref and the closing of the connection |
| `Orphans.LegIsStranded` | src/sip.c:255-261 | a concrete run in which a ringing call gets a re-INVITE without an address, and the MNCC leg is left with no timer armed |
| `Orphans.RefusalLeavesBareCall` | src/sip.c:144-169 | an INVITE with a known codec but no users or a bad call reference is refused, its handle destroyed, and a bare call heads the list |
| `Orphans.BareCallStays` | src/sip.c:57-75 | every deliverable event leaves a listed bare call and its trace as they are, and listed |
| `Orphans.BareCallNeverLeaves` | src/sip.c:164-169 | in every run, a bare call is listed as it was, with its trace, in all later states |
| `Protocol.StepTakesTurn` | src/mncc.c:1083-1164 | for every deliverable event on every listed call of a reachable state: the handlers with their callbacks into the other leg say exactly the entries, and leave exactly the legs, that a flat table over the two legs gives |
| `Outcomes.PartnerIsReleasedExactly` | src/mncc.c:649-686 | when an event takes the MNCC leg of a pair away and leaves the SIP leg, a BYE or CANCEL is out on it, except exactly for a REL_CNF on a leg that is not in release |
| `Outcomes.PartnerIsForgotten` | src/mncc.c:674-686 | a concrete run in which such a REL_CNF leaves a SIP leg without BYE or CANCEL |
| `Outcomes.ClearingReachesPbx` | src/mncc.c:624-722 | REL_IND, REJ_IND, DISC_IND and the expiry of the timer on a leg not in release add exactly the farewell to the PBX with their cause, after REL_REQ for DISC_IND; both legs afterwards are given |
| `Outcomes.AnsweredPbxGetsBye` | src/sip.c:525-528 | so clearing an answered call adds exactly BYE on its handle, after REL_REQ for DISC_IND |
| `Outcomes.PbxClearingReachesMsc` | src/sip.c:423-459 | BYE and CANCEL from the PBX destroy the handle, and on a READY connection the MSC gets DISC_REQ, or REL_REQ for an unanswered call, under the timer |
| `Outcomes.EmptyConnectClearsBoth` | src/mncc.c:425-434 | an empty RTP_CONNECT tells the PBX and then the MSC that the call is over |
| `Outcomes.LossReachesPbx` | src/app.c:43-57 | when the connection closes, the SIP leg of every pair is told as if the MSC had cleared the call, and the MNCC leg is gone |
| `Outcomes.FarewellMeans` | src/sip.c:485-531 | the farewell by state and direction: BYE to an answered call, CANCEL to one being called, status and reason of the cause to one calling, the end of the handle before any response |
| `Relay.MediaReachesMsc` | src/mncc.c:190-222 | every RTP_CONNECT that any event adds to any trace carries the callref, the SIP leg's address and payload type after the event, and the last SDP heard from the PBX |
| `Relay.RunTellsMsc` | src/mncc.c:190-222 | in every run the SDP of every RTP_CONNECT is the last one that a SIP event brought for the call |
| `Relay.OfferReachesPbx` | src/sdp.c:245-350 | every INVITE, re-INVITE and 200 with SDP that any event adds is on the SIP leg's handle and its body is the last SDP heard from the MSC, or composed from the MNCC leg's media if there was none, in the mode of the event: send-only for a hold, receive-only for an offer that is one, both ways otherwise |
| `Relay.RunTellsPbx` | src/sdp.c:245-350 | in every run every such body is what the events brought: the last SDP of a message that is looked at, or the address, payload type and codec of the last RTP_CREATE |
| `Relay.StoredMediaIsLastCreated` | src/mncc.c:458-460 | in every state of every run an MNCC leg has the media of the last RTP_CREATE that an event brought to it, or none |
| `Relay.PbxMediaIsFollowed` | src/sip.c:77-114 | a SIP leg's address and payload type after any event are those of the payload the event makes it look at, the payload type of RTP_CREATE for a call to the mobile, and unchanged otherwise |
| `Relay.CodecsAreNamed` | src/app.c:100-111 | the payload message types stand for just the codecs that an offer is screened for |
| `Outcomes.HoldReachesPbx` | src/mncc.c:778-800 | HOLD_IND adds exactly a re-INVITE in send-only mode and HOLD_CNF, and puts both legs on hold |
| `Outcomes.RetrieveReachesBoth` | src/mncc.c:802-830 | RETRIEVE_IND adds exactly a re-INVITE both ways, RETRIEVE_CNF and RTP_CONNECT, and connects both legs |
| `Outcomes.HoldIsRefusedExactly` | src/mncc.c:784-790 | HOLD_REJ is added by an event if and only if it is a HOLD_IND for a leg without a partner |
| `Outcomes.RingingReachesMsc` | src/sip.c:376-405 | a response to the INVITE adds ALERT_REQ if and only if it is 180 or 183, followed by RTP_CONNECT exactly if the picked address has a family and a port |
| `Outcomes.AlertReachesPbx` | src/mncc.c:752-776 | ALERT_IND adds exactly a 180 on the handle and leaves the states alone |
| `Outcomes.AnswerReachesMsc` | src/sip.c:92-114 | the first 200 with usable media adds exactly RTP_CONNECT with the answer's media and SDP, SETUP_RSP and ACK; the timer waits for SETUP_COMPL_IND and the SIP leg is connected |
| `Outcomes.UnusableAnswerClears` | src/sip.c:92-114 | without usable media it adds exactly CANCEL and, on a READY connection, the request to clear the call |
| `Outcomes.AnswerReachesPbx` | src/mncc.c:832-860 | SETUP_CNF adds exactly RTP_CONNECT, SETUP_COMPL_REQ and the 200 with the MSC's SDP, and connects both legs |
| `Outcomes.CallIsDialled` | src/mncc.c:360-379 | an RTP_CREATE that is waited for adds exactly CALL_PROC_REQ and the INVITE with the MSC's SDP or the media just created; without a handle the call is cleared |
| `Outcomes.SocketIsRequested` | src/mncc.c:724-750 | CALL_CONF_IND adds exactly RTP_CREATE with the SDP of the PBX if it was not forwarded before, under the timer |
| `Outcomes.OfferIsAnswered` | src/sip.c:212-288 | a new offer of the PBX adds, after what was heard, exactly its answer: receive-only for a hold and both ways otherwise, after RTP_CONNECT if the media moved, or 406 and the end of the handle if it is not usable |
| `Outcomes.KeyReachesPbx` | src/mncc.c:862-905 | START_DTMF adds exactly INFO with the key and its confirmation, STOP_DTMF its confirmation |
| `Outcomes.ClearMeans` | src/mncc.c:301-343 | the release of an MNCC leg on a READY connection, by state and direction |
| `Outcomes.LoneLegIsCleared` | src/mncc.c:752-860 | ALERT_IND, SETUP_CNF and RETRIEVE_IND on an MNCC leg whose partner is gone clear the call |
| `Outcomes.LoneSipIsReleased` | src/sip.c:212-224 | a new offer on a SIP leg whose partner is gone ends it |
| `Effects.SignalsAreDue` | src/mncc.c:153-159 | every event adds to the trace of a call with an MNCC leg exactly the signal it calls for, besides the refusal of the call |
| `Effects.MnccLegFollows` | src/mncc.c:62-84 | for every event, state, timer, awaited response and release of an MNCC leg follow from the message and from what was said |
| `Effects.SipLegFollows` | src/sip.c:364-405 | for every event, the state of a SIP leg follows from the message or response |
| `Effects.MnccLegEndsExactly` | src/mncc.c:649-722 | on a READY connection that stays open, an MNCC leg goes exactly with REL_IND, REJ_IND, REL_CNF, its timeout or the refusal of its call |
| `Effects.ConnectionFollows` | src/mncc.c:346-358 | for every event, the connection, its socket and the reconnect timer: only the right version makes it READY |
| `Arrivals.MobileCallStarts` | src/mncc.c:495-594 | SETUP_IND is refused on behalf of no call exactly if a number is missing, the plan is unknown to the code or the call reference does not decode; otherwise a call heads the list and asks for its RTP socket under the timer |
| `Arrivals.PbxCallStarts` | src/sip.c:116-210 | an INVITE that is taken heads the list with both legs, and the MSC gets SETUP_REQ with its SDP under the call's id |
| `Arrivals.PbxCallIsTurnedDown` | src/sip.c:138-202 | an INVITE without a known codec, usable media or a connection is refused, its handle destroyed, and leaves no call |
| `Arrivals.RefusalsAreSaid` | src/mncc.c:414-455 | what any event adds on behalf of no call is exactly the refusal of an incomplete SETUP_IND, of media for a callref without a live leg, or of an INVITE without a known codec |
| `Clearing.StatusReachesMsc` | src/sip.c:387-405 | a final status of 300 or more ends in a DISC_REQ or REL_REQ with the cause of that status, REL_REQ only for an unanswered leg towards the mobile |
| `Clearing.CauseReachesPbx` | src/sip.c:485-524 | a cause from the MSC on an unanswered call of the PBX yields the status of that cause with a Q.850 reason of the same cause, and the handle is gone |
| `Clearing.TeardownIsConfluent` | src/call.c:70-92 | with both legs in release the two completions commute: each removes one leg, together they remove this call only, and no other call or trace changes |
| `Progress.SipLegsNeverFallBack` | src/sip.c:364-386 | along every event of every run an attached SIP leg keeps its handle and never falls back in rank, and only a call waiting for its RTP socket gains a SIP leg, so none in release does |
| `Progress.DispatchFailsExactly` | src/mncc.c:752-776 | whatever message the MSC sends in whatever reachable state, expected or not, the process would stop if and only if it is ALERT_IND or SETUP_CNF for a call of the mobile with a SIP partner, and then by calling an unset callback and at no other place |
| `Progress.MisplacedAlertCrashes` | src/sip.c:692-697 | a concrete run after which ALERT_IND calls the unset ring callback of the SIP leg |
| `Sdp.PickRefinesChoice` | src/sdp.c:138-234 | extraction succeeds iff some session-level connection parses and some RTP audio rtpmap matches; it takes the first such address, and port and payload type of the same first matching media; a failure leaves the port |
| `Sdp.ScreenedFailsOnlyForConnection` | src/sdp.c:80-133 | a screened offer passes any-codec extraction iff some connection line is usable |
| `Sdp.PickStaysPlaceable` | src/sdp.c:168-233 | an address with a port always has a family, and a successful extraction sets one |
| `SdpText.ForwardSdp` | src/sdp.c:309-350 | a received SDP is forwarded as the printed text of its parsed session with every media in the mode asked for; one that does not parse or print goes out as it came in |
| `SdpText.SetModes` | src/sdp.c:330-331 | the loop over the media sets the mode of each and nothing else |
| `SdpText.ForwardKeepsOffer` | src/sdp.c:309-350 | with a library that reads back what it prints, the reader of a forwarded SDP picks the same address, port and payload type for any codec and screens it alike; if the text changed, just the modes did |
| `SdpText.ForwardSetsMode` | src/sdp.c:330-331 | the mode read from a changed text is the one asked for; an inactive one reads as none |
| `Sdp.FirstConnIsFirst` | src/sdp.c:168-187 | the connection taken is the first one of the session level that parses, and none is taken iff none does |
| `Sdp.FirstStreamIsFirst` | src/sdp.c:189-211 | the media taken is the first with a matching rtpmap in the order of media and rtpmaps, and none is taken iff none matches |
| `CauseMap.CauseMapIsStable` | src/sip.c:296-357 | cause to status to cause to status equals cause to status for every integer cause, hence cause to status to cause is idempotent |
| `CauseMap.ConsistentTableIsStable` | src/sip.c:465-483 | in any first-match table cause to status to cause to status is stable if every row that answers a search by cause shares its status with a row that is first for its cause and for its status |
| `CauseMap.TableIsConsistent` | src/sip.c:301-345 | each of the 43 rows that answers a search by cause, the last one included, has such a row |
| `CauseMap.ReasonIsNeverCut` | src/sip.c:485-505 | for every 32-bit cause the Q.850 reason with its terminator fits 64 bytes |
| `CauseMap.Status2Cause` | src/sip.c:347-357 | the index loop returns the cause of the first row but the last with that status, otherwise the unspecified normal cause |
| `CauseMap.Cause2Status` | src/sip.c:465-483 | the index loop returns status and reason of the first row with that cause, otherwise those of the last row |
| `CauseMap.Rejection` | src/sip.c:503-505 | status and reason line of a rejection are those of the cause, printed as an unsigned number |
| `Legs.MnccLeg.StartTimer` | src/mncc.c:62-70 | the timer is armed for the response given |
| `Legs.MnccLeg.StopTimer` | src/mncc.c:72-84 | the timer is stopped only by the response it waits for |
| `Legs.MnccLeg.RxSdp` | src/call.c:176-191 | a non-empty SDP that differs is stored, cut to the buffer, and marked as changed; otherwise nothing changes |
| `Legs.SipLeg.RxSdp` | src/call.c:176-191 | the same for a SIP leg |
| `Legs.SipLeg.TakeConnection` | src/sdp.c:168-187 | the loop puts the first usable connection into the leg's address and keeps its port, or changes nothing |
| `Legs.SipLeg.TakeStream` | src/sdp.c:189-211 | the nested loops put the payload type of the first matching rtpmap into the leg and yield its media's port, or change nothing |
| `Legs.SipLeg.ExtractSdp` | src/sdp.c:138-234 | the leg ends with exactly the address and payload type of the declarative pick, also when it fails |
| `Legs.FirstMatch` | src/sdp.c:198-208 | the inner loop finds the first matching rtpmap |
| `Legs.ScreenSdp` | src/sdp.c:80-133 | the nested loops accept exactly the payloads with an RTP audio rtpmap of a known codec |
| `Connector.Process.CallLegRelease` | src/call.c:70-92 | exactly the leg's slot is emptied, and the call leaves the list if and only if that was its last leg |
| `Connector.Process.EndSip` | src/sip.c:416-422 | the handle is destroyed and unbound together with its leg |
| `Connector.Process.FindMncc` | src/mncc.c:87-105 | the scan yields the first call with a leg of that callref, initial legs first, or the length of the list |
| `Connector.Process.FindSip` | src/sip.c:57-75 | the same scan for a SIP handle |
| `Connector.Process.SendClear` | src/mncc.c:118-131 | the cause found by scanning for the callref is the leg's own |
| `Connector.Process.StartRelease` | src/mncc.c:323-336 | the leg is in release, its timer armed for the answer, and the request with its cause sent |
| `Connector.Process.MnccRelease` | src/mncc.c:301-343 | release of an MNCC leg by connection, state and direction, as the call machine has it; nothing but the call, its leg and its trace changes |
| `Connector.Process.SipRelease` | src/sip.c:485-531 | release of a SIP leg by state and direction: destroy, CANCEL, reject with status and reason, or BYE |
| `Connector.Process.Check` | src/mncc.c:303-306 | calling a function pointer fails if it is unset or its function belongs to the other kind of leg, and only then |
| `Connector.Process.ReleaseLeg` | src/mncc.c:56-58 | the release callback of the leg is entered on it; one that is unset or of the other kind is a crash entry |
| `Connector.Process.SendRtpConnect` | src/mncc.c:190-222 | RTP_CONNECT carries address, payload type and last SDP of the other leg; Relay.MediaReachesMsc says what that is by the trace |
| `Connector.Process.MnccRing` | src/mncc.c:272-298 | ALERT_REQ, then RTP_CONNECT if the partner already has an address and port |
| `Connector.Process.MnccConnect` | src/mncc.c:253-269 | RTP_CONNECT, the timer for SETUP_COMPL_IND, SETUP_RSP, in this order |
| `Connector.Process.CreateFile` | src/sdp.c:256-270 | the body forwards the partner's last SDP in the mode asked for, or, when it has none, is composed from its address, payload type and codec, which also fixes the codec looked for in the answer; Relay.OfferReachesPbx says what that is by the trace |
| `Connector.Process.SipConnect` | src/sip.c:544-572 | 200 with the partner's SDP and the leg connected, or a release if the partner is gone |
| `Connector.Process.SipModify` | src/sip.c:590-632 | re-INVITE with the new mode and the new state, or a release if the partner is gone |
| `Connector.Process.CmdTimeout` | src/mncc.c:48-60 | the partner is released, then the leg is freed |
| `Connector.Process.CheckRtpConnect` | src/mncc.c:401-435 | SDP stored; an answer without any address releases both legs |
| `Connector.Process.CheckRtpCreate` | src/mncc.c:437-472 | media fields and SDP stored, the timer stopped if it waits for this, and the call continued by direction |
| `Connector.Process.ContinueMo` | src/mncc.c:360-379 | CALL_PROC_REQ before the call is routed to SIP |
| `Connector.Process.ContinueMt` | src/mncc.c:381-392 | the partner takes over the payload type |
| `Connector.Process.InviteRemote` | src/sip.c:634-706 | a new SIP leg bound to a new handle, with INVITE sent, takes the remote slot whether or not it was free |
| `Connector.Process.RouteToSip` | src/app.c:69-73 | the leg is created, or the initial leg released if the stack gives no handle |
| `Connector.Process.CheckDiscInd` | src/mncc.c:624-647 | REL_REQ guarded by the timer, then the partner released with the cause |
| `Connector.Process.CheckRelInd` | src/mncc.c:649-672 | the leg is freed; the partner is released with the cause unless the leg was in release; Outcomes.ClearingReachesPbx says how the partner is told |
| `Connector.Process.CheckRejInd` | src/mncc.c:704-722 | the partner is released with the cause and the leg freed |
| `Connector.Process.CheckRelCnf` | src/mncc.c:674-686 | the leg is freed and its partner left alone |
| `Connector.Process.CheckSetupComplInd` | src/mncc.c:688-702 | SDP stored, the timer stopped only if it waits for this, the leg connected |
| `Connector.Process.CheckSetupCnf` | src/mncc.c:832-860 | RTP_CONNECT, SETUP_COMPL_REQ, then the partner is connected; without one the leg is released |
| `Connector.Process.OpenRtp` | src/mncc.c:724-750 | SDP stored, RTP_CREATE with the partner's SDP if that is new, which consumes it, under the timer |
| `Connector.Process.CheckAlertInd` | src/mncc.c:752-776 | the partner rings; without one the leg is released |
| `Connector.Process.CheckHoldInd` | src/mncc.c:778-800 | the partner is held and HOLD_CNF sent, or HOLD_REJ without a partner; Outcomes.HoldReachesPbx says in which mode |
| `Connector.Process.CheckRetrieveInd` | src/mncc.c:802-830 | the partner is retrieved, RETRIEVE_CNF and then RTP_CONNECT sent; without a partner the leg is released |
| `Connector.Process.CheckDtmfStart` | src/mncc.c:862-885 | SDP stored, the key relayed as INFO to a partner that can, and confirmed to the MSC |
| `Connector.Process.CheckDtmfStop` | src/mncc.c:887-905 | SDP stored and the key confirmed to the MSC |
| `Connector.Process.TakeMessage` | src/mncc.c:1083-1164 | every MNCC message does to its call what the call machine says |
| `Connector.Process.CallProgress` | src/sip.c:77-90 | early media taken over, then the partner rings |
| `Connector.Process.CallConnect` | src/sip.c:92-114 | media taken over and the partner connected, or the INVITE cancelled and the partner released |
| `Connector.Process.InviteResponse` | src/sip.c:364-405 | provisional, successful and final responses, and the confirmation of the dialogue, as the call machine has them; Outcomes.RingingReachesMsc says which ones ring |
| `Connector.Process.UpdateRtp` | src/mncc.c:225-249 | entered on a leg of either kind: the MNCC leg is sent the address of the SIP leg, and without a partner the leg is released |
| `Connector.Process.HandleReinvite` | src/sip.c:212-288 | re-INVITE by mode: answer, answer on hold, renegotiate and tell the MSC, or refuse and free the leg |
| `Connector.Process.HungUp` | src/sip.c:423-434 | handle and leg go before the partner is released |
| `Connector.Process.TakeEvent` | src/sip.c:359-463 | every SIP event does to its call what the call machine says |
| `Connector.Process.ReleaseAll` | src/app.c:43-57 | both legs of a call are released through pointers taken beforehand, and the second is still attached |
| `Connector.Process.Admit` | src/sip.c:171-202 | a new SIP leg with media is adopted and bound; one without is refused and its call leaves the list |
| `Connector.Process.CreateRemoteMncc` | src/mncc.c:929-1009 | the SDP of the INVITE counts as forwarded; when the write succeeds the call has a new MT leg with its id as callref and SETUP_REQ carried that SDP, otherwise it has no new leg and nothing was sent |
| `Dispatch.Lift` | src/call.c:70-152 | what a handler does to one call is one step of the state machine, and keeps ownership, list membership and the handle bijection of the whole heap |
| `Dispatch.BindingAgreesWithScan` | src/sip.c:406-415 | the leg bound to a live handle is the one the scan finds |
| `Dispatch.Resolve` | src/sip.c:406-446 | looking a leg up by scan or by its binding gives the same leg |
| `Dispatch.TakeMncc` | src/mncc.c:602-622 | a message is dispatched to the leg of its callref; an unknown or releasing leg is refused with REJ_REQ where the source does so |
| `Dispatch.TimerExpired` | src/mncc.c:48-60 | expiry on an attached leg is the timeout step of its call |
| `Dispatch.TakeSip` | src/sip.c:359-463 | a SIP event on a live handle is the step of the state machine |
| `Dispatch.Turn` | src/app.c:31-58 | one turn of the sweep advances to the calls that were ahead, all still listed |
| `Dispatch.SweepCalls` | src/app.c:27-59 | the loop over the shrinking list visits listed calls only and computes the sweep |
| `Dispatch.CloseConnection` | src/mncc.c:346-358 | closing an open connection disconnects, arms the reconnect timer and sweeps; a closed one is left alone |
| `Dispatch.CreateMncc` | src/call.c:94-116 | a new call with the next id and an MNCC leg heads the list; the other calls are as they were |
| `Dispatch.CreateSip` | src/call.c:118-140 | a new call with the next id and a SIP leg heads the list; the other calls are as they were |
| `Dispatch.CheckSetup` | src/mncc.c:495-594 | SETUP_IND is refused or starts a call that waits for its RTP socket |
| `Dispatch.CreateRemoteMncc` | src/mncc.c:929-1013 | both outcomes: the MNCC leg joins the call, or the call has only its offer marked and the connection is closed with its sweep |
| `Dispatch.RouteToMncc` | src/app.c:75-79 | a routed call has its MNCC leg beside the SIP leg; one that cannot be routed is still listed after the sweep and is released |
| `Dispatch.RefusalForgetsOffer` | src/app.c:75-79 | the state after a failed routing is that of closing the connection and refusing the call, as if its offer had not been marked |
| `Dispatch.NewCall` | src/sip.c:116-210 | an INVITE on a new handle is the incoming step of the state machine |
| `Dispatch.CheckHello` | src/mncc.c:907-927 | only the right version makes the connection READY; any other closes it |
| `Dispatch.Reconnect` | src/mncc.c:1015-1033 | a connect that succeeds waits for the version, one that fails rearms the timer |
| `Dispatch.Perform` | src/mncc.c:1083-1164 | every deliverable event takes the heap from one state of the machine to the next |
| `Dispatch.Deliver` | src/mncc.c:1083-1164 | the running process stays within the reachable states |
| `Dispatch.Serve` | src/mncc.c:1083-1188 | a process fed the events of any run ends in the state of that run, with every invariant of the heap |

## Left out

- SDP text: parsing and printing are library calls; a parsed session is an input, and a body in a trace is its origin and mode, whose text is that of `SdpText.ForwardSdp`.
- An SDP with an embedded NUL byte: SDPs are strings.
- Global Call Reference encoding, number, IMSI and URI formatting: foreign calls and format plumbing; only whether a reference is present and decodable is modelled.
- The SIP phrase column of the table and the progress and bearer fields of MNCC messages: they take no part in any decision.
- Write failures in the middle of a handler other than SETUP_REQ, and talloc failures.
- Wrap-around of 32-bit call ids.
- `src/evpoll.c`, `src/vty.c`, `src/main.c`, logging and name tables: event-loop glue and user interface.
- Connector.Process.CreateFile: does not state the text, only which of the two forms the body takes, from which fields, and the codec it fixes; the text of the forwarded form is in `SdpText.ForwardSdp`, the printf template of the legacy form is not modelled.
- SDP in SIP messages other than INVITE, its responses and ACK: no handler looks at it, and the events do not carry it.
- Connector.Process.CheckRtpCreate: takes the handle that the SIP stack will return as part of the message, because the stack is not modelled.
- Dispatch.TimerExpired: time itself is not modelled; an armed timer may expire at any event.
