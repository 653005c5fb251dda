/** What is left behind: the MNCC leg whose SIP leg goes without its release, and the bare call of
    an INVITE that was turned down early. */
module Orphans {
  import opened Domain
  import opened Sdp
  import opened Trace
  import opened CallMachine
  import opened CallInvariant
  import opened Bridge
  import opened CallList
  import opened Lifecycle
  import opened Guarantees
  import opened Locality
  import opened Hearing
  import opened Scenario
  import CauseMap

  // ---------------------------------------------------------------- the leg left behind

  // The MNCC leg in the slot is alone and is not being released.
  predicate Stranded(c: CallV, sl: Slot) {
    c.Get(sl).Mncc? && !c.Get(sl).m.base.inRelease && c.Get(sl.Other()).NoLeg?
  }

  // A new offer that neither holds the call nor names a usable address and an audio codec.
  ghost predicate Hopeless(payload: Payload) {
    && MediaMode(payload) in {Some(RecvOnly), Some(SendRecv)}
    && ((forall i :: !UsableAt(payload.session.value.conns, i))
        || (forall j, k :: !AudioMapAt(payload.session.value.media, j, k)))
  }

  // The event takes the SIP leg away and does not release the other leg.
  ghost predicate Abandons(ev: SipEvent) {
    match ev
    case ByeResponse => true
    case CancelResponse => true
    case GotAck(payload) => Hopeless(payload)
    case GotReinvite(payload) => Hopeless(payload)
    case _ => false
  }

  lemma HopelessFails(payload: Payload, addr: Addr, payloadType: nat)
    requires MediaMode(payload).Some? && MediaMode(payload).value != SendOnly
    ensures Pick(payload, addr, payloadType, None).ok <==> !Hopeless(payload)
  {
    var session := payload.session.value;
    PickRefinesChoice(payload.text, session, addr, payloadType, None);
    if Hopeless(payload) {
      assert forall j, k :: MapAt(session.media, j, k, None) ==> AudioMapAt(session.media, j, k);
    } else {
      assert forall j, k :: AudioMapAt(session.media, j, k) ==> MapAt(session.media, j, k, None);
    }
  }

  // ---------------------------------------------------------------- SIP events

  // The call has both legs, the SIP leg in this slot.
  predicate Bridged(x: Ctx, sl: Slot) {
    Paired(x.call, sl.Other()) && x.Get(sl.Other()).m.base.ops == MNCC_OPS
  }

  lemma RenegotiationStrands(x: Ctx, sl: Slot, payload: Payload, ready: bool)
    requires Bridged(x, sl) && MediaMode(payload).Some? && MediaMode(payload).value != SendOnly
    ensures var y := Renegotiate(x, sl, payload, ready);
            y.Get(sl.Other()) == x.Get(sl.Other()) && (y.Get(sl).NoLeg? <==> Hopeless(payload))
  {
    hide DigestOf, Advance, Pick, Hopeless, MediaMode;
    HopelessFails(payload, x.Get(sl).s.base.addr, x.Get(sl).s.base.payloadType);
  }

  lemma ReinviteStrands(x: Ctx, sl: Slot, payload: Payload, ready: bool)
    requires Bridged(x, sl)
    ensures var y := OnReinvite(x, sl, payload, ready);
            y.Get(sl.Other()) == x.Get(sl.Other()) && (y.Get(sl).NoLeg? <==> Hopeless(payload))
  {
    hide DigestOf, Advance, Hear, Renegotiate, MediaMode;
    HearKeepsLegs(x, sl, Text(payload));
    var x1 := Hear(x, sl, Text(payload));
    if MediaMode(payload).Some? && MediaMode(payload).value != SendOnly {
      RenegotiationStrands(x1, sl, payload, ready);
    }
  }

  lemma ReleaseStrandsNone(x: Ctx, sl: Slot, cause: int, ready: bool)
    requires x.Get(sl).Mncc? && x.Get(sl).m.base.ops == MNCC_OPS
    ensures !Stranded(ReleaseIfAny(x, sl, ready).call, sl)
    ensures !Stranded(ReleaseWithCause(x, sl, cause, ready).call, sl)
  {
    hide DigestOf, Advance;
  }

  // An answer, used or not, leaves the SIP leg attached.
  lemma AnswerStrandsNone(x: Ctx, sl: Slot, payload: Payload, ready: bool)
    requires Bridged(x, sl)
    ensures !OnAccept(x, sl, payload, ready).Get(sl).NoLeg?
    ensures !OnProgress(x, sl, payload).Get(sl).NoLeg?
  {
    hide DigestOf, Advance, Pick;
  }

  lemma StatusStrandsNone(x: Ctx, sl: Slot, status: int, payload: Payload, ready: bool)
    requires Bridged(x, sl)
    ensures !Stranded(OnStatus(x, sl, status, payload, ready).call, sl.Other())
  {
    hide DigestOf, Advance, OnAccept, OnProgress, ReleaseWithCause, CauseMap.StatusToCause;
    AnswerStrandsNone(x, sl, payload, ready);
    var s := x.Get(sl).s;
    ReleaseStrandsNone(DropSip(Send(x, TxCancel(s.handle)), sl), sl.Other(), CauseMap.StatusToCause(status), ready);
  }

  lemma ResponseStrandsNone(x: Ctx, sl: Slot, status: int, payload: Payload, ready: bool)
    requires Bridged(x, sl)
    ensures !Stranded(OnInviteResponse(x, sl, status, payload, ready).call, sl.Other())
  {
    hide DigestOf, Advance, Hear, OnStatus;
    HearKeepsLegs(x, sl, Text(payload));
    StatusStrandsNone(Confirm(x, sl, Text(payload)), sl, status, payload, ready);
  }

  // A SIP event strands the MNCC leg, leaving it as it was, exactly if it abandons it.
  lemma SipStrandsExactly(x: Ctx, sl: Slot, ev: SipEvent, ready: bool)
    requires Bridged(x, sl)
    ensures var y := OnSip(x, sl, ev, ready);
            && (Stranded(y.call, sl.Other()) <==> !x.Get(sl.Other()).m.base.inRelease && Abandons(ev))
            && (Stranded(y.call, sl.Other()) ==> y.Get(sl.Other()) == x.Get(sl.Other()))
  {
    hide DigestOf, Advance, Hear, Hopeless, OnInviteResponse, OnReinvite, ReleaseIfAny;
    match ev
    case InviteResponse(status, payload) => ResponseStrandsNone(x, sl, status, payload, ready);
    case ByeResponse =>
    case CancelResponse =>
    case GotAck(payload) =>
      HearKeepsLegs(x, sl, Text(payload));
      ReinviteStrands(Hear(x, sl, Text(payload)), sl, payload, ready);
      NothingIsNotHopeless(payload);
    case GotReinvite(payload) =>
      HearKeepsLegs(x, sl, Text(payload));
      ReinviteStrands(Hear(x, sl, Text(payload)), sl, payload, ready);
    case _ => ReleaseStrandsNone(DropSip(x, sl), sl.Other(), 0, ready);
  }

  lemma NothingIsNotHopeless(payload: Payload)
    ensures payload.NoPayload? ==> !Hopeless(payload)
  {
  }

  // ---------------------------------------------------------------- MNCC messages

  // The call has both legs, the MNCC leg in this slot.
  lemma ClearingStrandsNone(x: Ctx, sl: Slot, cause: int, ready: bool)
    requires Bridged(x, sl.Other())
    ensures !Stranded(OnDiscInd(x, sl, cause, ready).call, sl)
    ensures !Stranded(OnRelInd(x, sl, cause, ready).call, sl)
    ensures !Stranded(OnRejInd(x, sl, cause, ready).call, sl)
  {
    hide DigestOf, Advance, CauseMap.CauseToStatus, CauseMap.ReasonText;
  }

  lemma ConnectStrandsNone(x: Ctx, sl: Slot, msg: MnccMsg, ready: bool)
    requires Bridged(x, sl.Other()) && msg.RtpConnect?
    ensures !Stranded(OnRtpConnect(x, sl, msg, ready).call, sl)
  {
    hide DigestOf, Advance, Hear, ReleaseIfAny, Store;
    HearKeepsLegs(x, sl, msg.sdp);
    StoreKeeps(x.Get(sl).m.base, msg.sdp);
    var x1 := Hear(x, sl, msg.sdp);
    ReleaseSparesOther(x1, sl.Other(), ready);
    ReleaseStrandsNone(ReleaseIfAny(x1, sl.Other(), ready), sl, 0, ready);
  }

  lemma ReleaseSparesOther(x: Ctx, sl: Slot, ready: bool)
    ensures ReleaseIfAny(x, sl, ready).Get(sl.Other()) == x.Get(sl.Other())
  {
    hide DigestOf, Advance;
  }

  lemma SetupStrandsNone(x: Ctx, sl: Slot, sdp: string, ready: bool)
    requires Bridged(x, sl.Other())
    ensures !OnSetupCnf(x, sl, sdp, ready).Get(sl.Other()).NoLeg?
    ensures !OnAlertInd(x, sl, sdp, ready).Get(sl.Other()).NoLeg?
    ensures !OnCallConfInd(x, sl, sdp).Get(sl.Other()).NoLeg?
    ensures !OnSetupComplInd(x, sl, sdp).Get(sl.Other()).NoLeg?
  {
    hide DigestOf, Advance, Hear, SipRelease;
    HearKeepsLegs(x, sl, sdp);
  }

  lemma HoldStrandsNone(x: Ctx, sl: Slot, ready: bool)
    requires Bridged(x, sl.Other())
    ensures !OnHoldInd(x, sl).Get(sl.Other()).NoLeg?
    ensures !OnRetrieveInd(x, sl, ready).Get(sl.Other()).NoLeg?
  {
    hide DigestOf, Advance, SipRelease, MnccRelease;
  }

  lemma KeyStrandsNone(x: Ctx, sl: Slot, key: int, sdp: string)
    requires Bridged(x, sl.Other())
    ensures !OnStartDtmf(x, sl, key, sdp).Get(sl.Other()).NoLeg?
    ensures !OnStopDtmf(x, sl, key, sdp).Get(sl.Other()).NoLeg?
  {
    hide DigestOf, Advance, Hear;
    HearKeepsLegs(x, sl, sdp);
  }

  // RTP_CREATE for a call with both legs is one towards the mobile.
  lemma CreateStrandsNone(x: Ctx, sl: Slot, msg: MnccMsg, ready: bool)
    requires CallInv(x) && Bridged(x, sl.Other()) && msg.RtpCreate? && MnccAllowed(x.Get(sl).m, msg)
    ensures !OnRtpCreate(x, sl, msg, ready).Get(sl.Other()).NoLeg?
  {
    hide DigestOf, Advance, Hear, ContinueMo;
    HearKeepsLegs(Created(x, sl, msg), sl, msg.sdp);
  }

  lemma MessageStrandsNone(x: Ctx, sl: Slot, msg: MnccMsg, ready: bool)
    requires CallInv(x) && Bridged(x, sl.Other()) && MnccAllowed(x.Get(sl).m, msg)
    ensures !Stranded(OnMncc(x, sl, msg, ready).call, sl)
  {
    hide DigestOf, Advance, CallInv, MnccAllowed, OnRtpCreate, OnRtpConnect, OnDiscInd, OnRelInd, OnRejInd,
      OnSetupComplInd, OnSetupCnf, OnCallConfInd, OnAlertInd, OnHoldInd, OnRetrieveInd, OnStartDtmf, OnStopDtmf;
    match msg
    case RtpCreate(_, _, _, _, _) => CreateStrandsNone(x, sl, msg, ready);
    case RtpConnect(_, _, _) => ConnectStrandsNone(x, sl, msg, ready);
    case DiscInd(cause, _) => ClearingStrandsNone(x, sl, cause, ready);
    case RelIndMsg(cause, _) => ClearingStrandsNone(x, sl, cause, ready);
    case RejInd(cause, _) => ClearingStrandsNone(x, sl, cause, ready);
    case RelCnfMsg(_) =>
    case HoldInd(_) => HoldStrandsNone(x, sl, ready);
    case RetrieveInd(_) => HoldStrandsNone(x, sl, ready);
    case StartDtmf(key, sdp) => KeyStrandsNone(x, sl, key, sdp);
    case StopDtmf(key, sdp) => KeyStrandsNone(x, sl, key, sdp);
    case _ => SetupStrandsNone(x, sl, msg.sdp, ready);
  }

  // ---------------------------------------------------------------- over events

  // The event abandons the MNCC leg of the pair: it is about the SIP leg's handle.
  ghost predicate AbandonedBy(c: CallV, sl: Slot, e: Event)
    requires Paired(c, sl)
  {
    !c.Get(sl).m.base.inRelease && e.FromPbx? && HasHandle(c.Get(sl.Other()), e.handle) && Abandons(e.ev)
  }

  lemma PairIsBridged(x: Ctx, sl: Slot)
    requires CallInv(x) && Paired(x.call, sl)
    ensures Bridged(x, sl.Other())
  {
    hide DigestOf;
  }

  lemma NextStrandsExactly(s: State, e: Event, i: nat, sl: Slot)
    requires Inv(s) && Allowed(s, e) && i < |s.calls| && Paired(s.calls[i], sl)
    ensures var d := Next(s, e, i).call;
            && (Stranded(d, sl) <==> AbandonedBy(s.calls[i], sl, e))
            && (Stranded(d, sl) ==> d.Get(sl) == s.calls[i].Get(sl))
  {
    hide DigestOf, Advance, TableInv, CallInv, OnMncc, OnSip, OnDisconnect, Abandons, FreshHandle, FreshRef, Breaks,
      ReleaseIfAny, MnccAllowed;
    var x, ready := At(s, i), s.conn == Ready;
    ListedKeeps(s, i);
    PairIsBridged(x, sl);
    DisconnectKeeps(x);
    match e
    case FromMsc(callref, msg) =>
      if CallHasRef(x.call, callref) && !Refuses(x.Get(RefSlot(x.call, callref)).m, msg) {
        MessageFindsLeg(s, callref, i, sl);
        MessageStrandsNone(x, sl, msg, ready);
      }
    case FromPbx(handle, ev) =>
      if CallHasHandle(x.call, handle) {
        SipStrandsExactly(x, sl.Other(), ev, ready);
      }
    case _ =>
  }

  // The MNCC leg in the slot of the call with this id was left behind.
  ghost predicate StrandedIn(r: State, id: nat, sl: Slot) {
    exists d | d in r.calls :: d.id == id && Stranded(d, sl)
  }

  // The SIP leg of a pair goes while the MNCC leg stays and is not released exactly if the event
  // abandons it. The leg is then just as it was: no timer is started for it.
  lemma LegIsStrandedExactly(s: State, e: Event, i: nat, sl: Slot)
    requires Reachable(s) && Allowed(s, e) && i < |s.calls| && Paired(s.calls[i], sl)
    ensures var c, r := s.calls[i], Step(s, e);
            && (StrandedIn(r, c.id, sl) <==> AbandonedBy(c, sl, e))
            && forall d | d in r.calls && d.id == c.id && Stranded(d, sl) :: d.Get(sl) == c.Get(sl)
  {
    hide Inv, Reachable, Allowed, Step, Next, AbandonedBy, DigestOf;
    ReachableInv(s);
    StepIsLocal(s, e, i);
    NextStrandsExactly(s, e, i, sl);
  }

  // A response to BYE or CANCEL answers one that was sent on that handle.
  ghost predicate Answers(s: State, e: Event) {
    e.FromPbx? && (e.ev.ByeResponse? || e.ev.CancelResponse?) ==>
      var i := FindHandle(s.calls, e.handle);
      i < |s.calls| && ReleaseOutstanding(TraceOf(s, s.calls[i].id))
  }

  // The event is a re-INVITE or an ACK on the handle that brings a hopeless offer.
  ghost predicate Reoffers(leg: Leg, e: Event) {
    && e.FromPbx? && HasHandle(leg, e.handle)
    && ((e.ev.GotReinvite? && Hopeless(e.ev.payload)) || (e.ev.GotAck? && Hopeless(e.ev.payload)))
  }

  // When the SIP stack reports only the responses that are due, nothing but a hopeless offer in a
  // re-INVITE or ACK leaves an MNCC leg behind.
  lemma ReofferStrandsExactly(s: State, e: Event, i: nat, sl: Slot)
    requires Reachable(s) && Allowed(s, e) && Answers(s, e) && i < |s.calls| && Paired(s.calls[i], sl)
    ensures var c := s.calls[i];
            StrandedIn(Step(s, e), c.id, sl) <==> !c.Get(sl).m.base.inRelease && Reoffers(c.Get(sl.Other()), e)
  {
    hide Inv, Reachable, Allowed, Step, StrandedIn, Stranded, Hopeless, ReleaseOutstanding, DigestOf;
    LegIsStrandedExactly(s, e, i, sl);
    ReleaseIsSymmetric(s, i, sl);
    if e.FromPbx? && HasHandle(s.calls[i].Get(sl.Other()), e.handle) {
      HandleFindsCall(s, i, e.handle, e.ev);
    }
  }

  lemma HandleFindsCall(s: State, i: nat, handle: Handle, ev: SipEvent)
    requires Reachable(s) && Allowed(s, FromPbx(handle, ev)) && i < |s.calls| && CallHasHandle(s.calls[i], handle)
    ensures FindHandle(s.calls, handle) == i
  {
    hide Reachable, TableInv;
    ReachableInv(s);
    SameHandleSameCall(s, i, FindHandle(s.calls, handle), handle);
  }

  // Nor does the connector come back to it: a leg left behind without a timer stays as it is, with
  // its trace, until the MSC speaks of it or the connection closes.
  lemma StrandedLegWaits(s: State, e: Event, i: nat, sl: Slot)
    requires Reachable(s) && Allowed(s, e) && i < |s.calls| && Stranded(s.calls[i], sl) && !s.calls[i].Get(sl).m.timer
    requires !Closes(e) && !(e.FromMsc? && HasRef(s.calls[i].Get(sl), e.callref))
    ensures Lands(Step(s, e), s.calls[i].id, At(s, i))
  {
    hide Reachable, TableInv, Step, Lands, DigestOf, OnMncc, OnSip, OnTimeout, OnDisconnect, Breaks, FreshHandle,
      FreshRef;
    ReachableInv(s);
    StepIsLocal(s, e, i);
    if e.Timeout? && FindId(s.calls, e.id) < |s.calls| && s.calls[i].id == e.id {
      IdsAreDistinct(s, i, FindId(s.calls, e.id));
    }
  }

  // ---------------------------------------------------------------- the exception happens

  const NOWHERE := Payload("v=0", Some(Session([], [Media(true, true, 4000, SendRecv, [RtpMap("GSM", 3)])])))

  lemma ReofferStrands(x: Ctx)
    requires Underway(x, SConfirmed, false, RtpCreateRsp)
    ensures var y := OnSip(x, Remote, GotReinvite(NOWHERE), true);
            y.call.id == x.call.id && Stranded(y.call, Initial) && y.call.initial == x.call.initial
  {
    hide DigestOf, Advance, OnSip;
    assert MediaMode(NOWHERE) == Some(SendRecv);
    assert Hopeless(NOWHERE);
    SipStrandsExactly(x, Remote, GotReinvite(NOWHERE), true);
    EventIsHeard(x, Remote, GotReinvite(NOWHERE), true);
  }

  // A run that leaves an MNCC leg behind, with no timer armed: while the call rings, the PBX sends a
  // new offer without an address.
  lemma LegIsStranded() returns (ss: seq<State>, es: seq<Event>)
    ensures IsRun(ss, es) && es == CALL_SETUP + CALL_RINGS + [FromPbx(HANDLE, GotReinvite(NOWHERE))]
    ensures |ss[|es|].calls| == 1 && Stranded(ss[|es|].calls[0], Initial) && !ss[|es|].calls[0].initial.m.timer
  {
    hide DigestOf, OnSip, Step, Allowed;
    var x;
    ss, es, x := CallRings();
    ReofferStrands(x);
    ss, es := NextFromPbx(ss, es, x, GotReinvite(NOWHERE));
  }

  // ---------------------------------------------------------------- the bare call

  // The call of an INVITE that was turned down before its leg got a handle and callbacks.
  predicate IsBare(c: CallV) {
    c.initial.Sip? && Bare(c.initial.s)
  }

  // An INVITE with a known codec, but without its users or with a bad call reference, is turned
  // down and its handle destroyed, and leaves a bare call at the head of the list.
  lemma RefusalLeavesBareCall(s: State, offer: Offer, writeOk: bool)
    requires Allowed(s, Incoming(offer, writeOk)) && Screened(offer.payload) && !(offer.usersKnown && offer.gcrUsable)
    ensures var r := Step(s, Incoming(offer, writeOk));
            && |r.calls| == |s.calls| + 1 && r.calls[1..] == s.calls && IsBare(r.calls[0])
            && TraceOf(r, r.calls[0].id) == [TxReject(offer.handle, 406, None), Destroy(offer.handle)]
  {
    hide DigestOf, FreshHandle, FreshRef, Screened, Admit, OnAdmitted, OnReconnect, OnHello, CloseConnection,
      OnSetupInd, OnFromMsc, OnTimer, OnFromPbx;
  }

  // No event changes such a call or its trace, or takes it off the list.
  lemma BareCallStays(s: State, e: Event, i: nat)
    requires Inv(s) && Allowed(s, e) && i < |s.calls| && IsBare(s.calls[i])
    ensures Lands(Step(s, e), s.calls[i].id, At(s, i)) && s.calls[i] in Step(s, e).calls
  {
    hide TableInv, Step, DigestOf, OnMncc, OnSip, OnTimeout, OnDisconnect, Breaks, FreshHandle, FreshRef;
    ListedKeeps(s, i);
    StepIsLocal(s, e, i);
  }

  // So it is listed, as it was, for the rest of every run.
  lemma {:induction false} BareCallNeverLeaves(ss: seq<State>, es: seq<Event>, j: nat, i: nat, k: nat)
    requires IsRun(ss, es) && j <= k <= |es| && i < |ss[j].calls| && IsBare(ss[j].calls[i])
    ensures ss[j].calls[i] in ss[k].calls && TraceOf(ss[k], ss[j].calls[i].id) == TraceOf(ss[j], ss[j].calls[i].id)
  {
    hide Inv, Allowed, Step, DigestOf;
    if k > j {
      BareCallNeverLeaves(ss, es, j, i, k - 1);
      RunsKeepInvariant(ss, es, k - 1);
      RunStep(ss, es, k - 1);
      var n :| 0 <= n < |ss[k - 1].calls| && ss[k - 1].calls[n] == ss[j].calls[i];
      BareCallStays(ss[k - 1], es[k - 1], n);
    }
  }
}
