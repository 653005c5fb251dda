/** SIP legs only move forward, and the messages that would stop the process if the MSC sent
    them for the wrong kind of call. */
module Progress {
  import opened Domain
  import opened Sdp
  import opened Trace
  import opened CallMachine
  import opened CallInvariant
  import opened Bridge
  import opened Lifecycle
  import opened Locality
  import opened Hearing
  import opened Guarantees
  import opened Scenario
  import CauseMap

  // ---------------------------------------------------------------- SIP legs only move forward

  // A SIP leg found in the slot afterwards was there before, with its handle and no further on.
  predicate Follows(before: Leg, after: Leg) {
    after.Sip? ==> before.Sip? && before.s.handle == after.s.handle && Rank(before.s.state) <= Rank(after.s.state)
  }

  predicate Advances(c: CallV, d: CallV) {
    d.id == c.id && Follows(c.initial, d.initial) && Follows(c.remote, d.remote)
  }

  lemma SipReleaseAdvances(x: Ctx, sl: Slot)
    requires x.Get(sl).Sip?
    ensures Advances(x.call, SipRelease(x, sl).call)
  {
    hide DigestOf, Advance, CauseMap.CauseToStatus, CauseMap.ReasonText;
  }

  lemma MnccReleaseAdvances(x: Ctx, sl: Slot, ready: bool)
    requires x.Get(sl).Mncc?
    ensures Advances(x.call, MnccRelease(x, sl, ready).call)
  {
    hide DigestOf, Advance;
  }

  lemma ReleaseAdvances(x: Ctx, sl: Slot, ready: bool)
    ensures Advances(x.call, ReleaseIfAny(x, sl, ready).call)
  {
    hide DigestOf, Advance, SipRelease, MnccRelease;
    if x.Get(sl).Sip? {
      SipReleaseAdvances(x, sl);
    } else if x.Get(sl).Mncc? {
      MnccReleaseAdvances(x, sl, ready);
    }
  }

  lemma CauseAdvances(x: Ctx, sl: Slot, cause: int, ready: bool)
    ensures Advances(x.call, ReleaseWithCause(x, sl, cause, ready).call)
  {
    hide DigestOf, Advance, ReleaseLeg;
    if !x.Get(sl).NoLeg? {
      ReleaseAdvances(x.Put(sl, x.Get(sl).WithCommon(x.Get(sl).Common().(cause := cause))), sl, ready);
    }
  }

  lemma ClearingAdvances(x: Ctx, sl: Slot, cause: int, ready: bool)
    requires x.Get(sl).Mncc?
    ensures Advances(x.call, OnDiscInd(x, sl, cause, ready).call)
    ensures Advances(x.call, OnRelInd(x, sl, cause, ready).call)
    ensures Advances(x.call, OnRejInd(x, sl, cause, ready).call)
  {
    hide DigestOf, Advance, ReleaseWithCause;
    CauseAdvances(x, sl.Other(), cause, ready);
    CauseAdvances(StartRelease(x, sl, RelReq, RelCnf), sl.Other(), cause, ready);
  }

  lemma RtpConnectAdvances(x: Ctx, sl: Slot, msg: MnccMsg, ready: bool)
    requires x.Get(sl).Mncc? && msg.RtpConnect?
    ensures Advances(x.call, OnRtpConnect(x, sl, msg, ready).call)
  {
    hide DigestOf, Advance, Hear, ReleaseIfAny;
    HearKeepsLegs(x, sl, msg.sdp);
    var x1 := Hear(x, sl, msg.sdp);
    ReleaseAdvances(x1, sl.Other(), ready);
    ReleaseAdvances(ReleaseIfAny(x1, sl.Other(), ready), sl, ready);
  }

  lemma HoldAdvances(x: Ctx, sl: Slot)
    requires x.Get(sl).Mncc?
    ensures Advances(x.call, OnHoldInd(x, sl).call)
  {
    hide DigestOf, Advance, SipRelease;
  }

  lemma RetrieveAdvances(x: Ctx, sl: Slot, ready: bool)
    requires x.Get(sl).Mncc?
    ensures Advances(x.call, OnRetrieveInd(x, sl, ready).call)
  {
    hide DigestOf, Advance, SipRelease, MnccRelease;
    MnccReleaseAdvances(Send(x, TxSignal(RetrieveCnf, x.Get(sl).m.callref)), sl, ready);
  }

  lemma SetupCnfAdvances(x: Ctx, sl: Slot, sdp: string, ready: bool)
    requires x.Get(sl).Mncc?
    ensures Advances(x.call, OnSetupCnf(x, sl, sdp, ready).call)
  {
    hide DigestOf, Advance, Hear, SipRelease, MnccRelease;
    HearKeepsLegs(x, sl, sdp);
    MnccReleaseAdvances(Hear(x, sl, sdp), sl, ready);
  }

  lemma AlertAdvances(x: Ctx, sl: Slot, sdp: string, ready: bool)
    requires x.Get(sl).Mncc?
    ensures Advances(x.call, OnAlertInd(x, sl, sdp, ready).call)
  {
    hide DigestOf, Advance, Hear, MnccRelease;
    HearKeepsLegs(x, sl, sdp);
    MnccReleaseAdvances(Hear(x, sl, sdp), sl, ready);
  }

  lemma HearingAdvances(x: Ctx, sl: Slot, key: int, sdp: string)
    requires x.Get(sl).Mncc?
    ensures Advances(x.call, OnSetupComplInd(x, sl, sdp).call) && Advances(x.call, OnCallConfInd(x, sl, sdp).call)
    ensures Advances(x.call, OnStartDtmf(x, sl, key, sdp).call) && Advances(x.call, OnStopDtmf(x, sl, key, sdp).call)
  {
    hide DigestOf, Advance, Hear;
    HearKeepsLegs(x, sl, sdp);
  }

  lemma MnccAdvances(x: Ctx, sl: Slot, msg: MnccMsg, ready: bool)
    requires x.Get(sl).Mncc? && !msg.RtpCreate?
    ensures Advances(x.call, OnMncc(x, sl, msg, ready).call)
  {
    hide DigestOf, Advance, OnRtpConnect, OnDiscInd, OnRelInd, OnRejInd, OnSetupComplInd, OnSetupCnf, OnCallConfInd,
      OnAlertInd, OnHoldInd, OnRetrieveInd, OnStartDtmf, OnStopDtmf;
    match msg
    case DiscInd(cause, _) => ClearingAdvances(x, sl, cause, ready);
    case RelIndMsg(cause, _) => ClearingAdvances(x, sl, cause, ready);
    case RejInd(cause, _) => ClearingAdvances(x, sl, cause, ready);
    case RelCnfMsg(_) =>
    case HoldInd(_) => HoldAdvances(x, sl);
    case RetrieveInd(_) => RetrieveAdvances(x, sl, ready);
    case RtpConnect(_, _, _) => RtpConnectAdvances(x, sl, msg, ready);
    case SetupCnf(sdp) => SetupCnfAdvances(x, sl, sdp, ready);
    case AlertInd(sdp) => AlertAdvances(x, sl, sdp, ready);
    case SetupComplIndMsg(sdp) => HearingAdvances(x, sl, 0, sdp);
    case CallConfInd(sdp) => HearingAdvances(x, sl, 0, sdp);
    case StartDtmf(key, sdp) => HearingAdvances(x, sl, key, sdp);
    case StopDtmf(key, sdp) => HearingAdvances(x, sl, key, sdp);
  }

  // RTP_CREATE brings in a SIP leg only for a dialing call.
  lemma CreateAdvances(x: Ctx, sl: Slot, msg: MnccMsg, ready: bool)
    requires CallInv(x) && x.Get(sl).Mncc? && msg.RtpCreate? && MnccAllowed(x.Get(sl).m, msg)
    ensures Dialing(x.call) || Advances(x.call, OnRtpCreate(x, sl, msg, ready).call)
  {
    hide DigestOf, Advance, Hear, ContinueMo;
    HearKeepsLegs(Created(x, sl, msg), sl, msg.sdp);
  }

  lemma MessageAdvances(x: Ctx, sl: Slot, msg: MnccMsg, ready: bool)
    requires CallInv(x) && x.Get(sl).Mncc? && MnccAllowed(x.Get(sl).m, msg)
    ensures Dialing(x.call) || Advances(x.call, OnMncc(x, sl, msg, ready).call)
  {
    hide DigestOf, Advance, CallInv, OnRtpCreate, OnRtpConnect, OnDiscInd, OnRelInd, OnRejInd, OnSetupComplInd,
      OnSetupCnf, OnCallConfInd, OnAlertInd, OnHoldInd, OnRetrieveInd, OnStartDtmf, OnStopDtmf;
    if msg.RtpCreate? {
      CreateAdvances(x, sl, msg, ready);
    } else {
      MnccAdvances(x, sl, msg, ready);
    }
  }

  lemma AnswerAdvances(x: Ctx, sl: Slot, payload: Payload, ready: bool)
    requires x.Get(sl).Sip? && Rank(x.Get(sl).s.state) < 2
    ensures Advances(x.call, OnAccept(x, sl, payload, ready).call)
  {
    hide DigestOf, Advance, Pick, SipRelease, ReleaseLeg;
    var s := x.Get(sl).s;
    var x1 := x.Put(sl, Sip(Placed(s, Pick(payload, s.base.addr, s.base.payloadType, s.codec))));
    ReleaseAdvances(Send(x1, TxCancel(s.handle)), sl.Other(), ready);
    if !x.Get(sl.Other()).NoLeg? {
      ConnectAdvances(x1.Put(sl, Sip(x1.Get(sl).s.(state := SConnected))), sl.Other());
    }
  }

  lemma ConnectAdvances(x: Ctx, sl: Slot)
    requires !x.Get(sl).NoLeg?
    ensures Advances(x.call, ConnectLeg(x, sl).call)
  {
    hide DigestOf, Advance, SipRelease;
    if x.Get(sl).Sip? {
      SipReleaseAdvances(x, sl);
    }
  }

  lemma RingAdvances(x: Ctx, sl: Slot, payload: Payload)
    requires x.Get(sl).Sip?
    ensures Advances(x.call, OnProgress(x, sl, payload).call)
  {
    hide DigestOf, Advance, Pick;
  }

  lemma StatusAdvances(x: Ctx, sl: Slot, status: int, payload: Payload, ready: bool)
    requires x.Get(sl).Sip?
    ensures Advances(x.call, OnStatus(x, sl, status, payload, ready).call)
  {
    hide DigestOf, Advance, ReleaseWithCause, CauseMap.StatusToCause, OnAccept, OnProgress;
    if status == 180 || status == 183 {
      RingAdvances(x, sl, payload);
    } else if status == 200 && Rank(x.Get(sl).s.state) < 2 {
      AnswerAdvances(x, sl, payload, ready);
    } else if status >= 300 {
      var x1 := DropSip(Send(x, TxCancel(x.Get(sl).s.handle)), sl);
      CauseAdvances(x1, sl.Other(), CauseMap.StatusToCause(status), ready);
    }
  }

  lemma ConfirmAdvances(x: Ctx, sl: Slot, sdp: string)
    requires x.Get(sl).Sip?
    ensures Advances(x.call, Confirm(x, sl, sdp).call)
  {
    hide DigestOf, Advance, Hear;
    HearKeepsLegs(x, sl, sdp);
  }

  lemma RenegotiationAdvances(x: Ctx, sl: Slot, payload: Payload, ready: bool)
    requires x.Get(sl).Sip? && !x.Get(sl.Other()).NoLeg?
    ensures Advances(x.call, Renegotiate(x, sl, payload, ready).call)
  {
    hide DigestOf, Advance, Pick, ReleaseLeg;
  }

  lemma ReinviteAdvances(x: Ctx, sl: Slot, payload: Payload, ready: bool)
    requires x.Get(sl).Sip?
    ensures Advances(x.call, OnReinvite(x, sl, payload, ready).call)
  {
    hide DigestOf, Advance, Hear, SipRelease, Renegotiate, MediaMode;
    HearKeepsLegs(x, sl, Text(payload));
    SipReleaseAdvances(x, sl);
    if !x.Get(sl.Other()).NoLeg? {
      RenegotiationAdvances(Hear(x, sl, Text(payload)), sl, payload, ready);
    }
  }

  lemma SipAdvances(x: Ctx, sl: Slot, ev: SipEvent, ready: bool)
    requires x.Get(sl).Sip?
    ensures Advances(x.call, OnSip(x, sl, ev, ready).call)
  {
    hide DigestOf, Advance, Hear, Confirm, OnStatus, OnReinvite, ReleaseIfAny;
    match ev
    case InviteResponse(status, payload) =>
      ConfirmAdvances(x, sl, Text(payload));
      StatusAdvances(Confirm(x, sl, Text(payload)), sl, status, payload, ready);
    case GotAck(payload) =>
      HearKeepsLegs(x, sl, Text(payload));
      ReinviteAdvances(Hear(x, sl, Text(payload)), sl, payload, ready);
    case GotReinvite(payload) =>
      HearKeepsLegs(x, sl, Text(payload));
      ReinviteAdvances(Hear(x, sl, Text(payload)), sl, payload, ready);
    case _ => ReleaseAdvances(DropSip(x, sl), sl.Other(), ready);
  }

  lemma TimeoutAdvances(x: Ctx, sl: Slot, ready: bool)
    requires x.Get(sl).Mncc?
    ensures Advances(x.call, OnTimeout(x, sl, ready).call)
  {
    hide DigestOf, Advance, ReleaseIfAny;
    ReleaseAdvances(x, sl.Other(), ready);
  }

  lemma DisconnectAdvances(x: Ctx)
    ensures Advances(x.call, OnDisconnect(x).call)
  {
    hide DigestOf, Advance, ReleaseIfAny;
    ReleaseAdvances(x, Initial, false);
    ReleaseAdvances(ReleaseIfAny(x, Initial, false), Remote, false);
  }

  // ---------------------------------------------------------------- over events

  // The MSC started the call, it has no SIP leg yet and waits for its RTP socket; it is not
  // in release.
  predicate Dialing(c: CallV) {
    SipPart(c).None? && c.initial.Mncc? && c.initial.m.dir == MO && AwaitsRtp(c.initial.m)
  }

  // A SIP leg on the list afterwards was there before and advanced, or its call was dialing.
  predicate CallAdvances(c: CallV, d: CallV) {
    d.id == c.id ==> Dialing(c) || Advances(c, d)
  }

  predicate AllAdvance(s: State, r: State) {
    forall i, k | 0 <= i < |s.calls| && 0 <= k < |r.calls| :: CallAdvances(s.calls[i], r.calls[k])
  }

  // Along every event, a SIP leg that stays attached keeps its handle and never falls back in
  // the order INITIAL, CONFIRMED, CONNECTED or HOLD; and no call but a dialing one gains a SIP
  // leg, so none that is in release does.
  lemma SipLegsNeverFallBack(s: State, e: Event)
    requires Reachable(s) && Allowed(s, e)
    ensures AllAdvance(s, Step(s, e))
  {
    hide Inv, Reachable, Allowed, Step, Next, Advances, Dialing, DigestOf;
    ReachableInv(s);
    var r := Step(s, e);
    forall i, k | 0 <= i < |s.calls| && 0 <= k < |r.calls| ensures CallAdvances(s.calls[i], r.calls[k]) {
      StepIsLocal(s, e, i);
      NextAdvances(s, e, i);
    }
  }

  lemma NextAdvances(s: State, e: Event, i: nat)
    requires Inv(s) && Allowed(s, e) && i < |s.calls|
    ensures Dialing(s.calls[i]) || Advances(s.calls[i], Next(s, e, i).call)
  {
    hide DigestOf, Advance, CallInv, TableInv, OnMncc, OnSip, OnTimeout, OnDisconnect, FreshHandle, FreshRef, Breaks,
      Dialing;
    var x, ready := At(s, i), s.conn == Ready;
    ListedKeeps(s, i);
    DisconnectAdvances(x);
    match e
    case FromMsc(callref, msg) =>
      if CallHasRef(x.call, callref) && !Refuses(x.Get(RefSlot(x.call, callref)).m, msg) {
        MessageFindsLeg(s, callref, i, RefSlot(x.call, callref));
        MessageAdvances(x, RefSlot(x.call, callref), msg, ready);
      }
    case Timeout(id) => if x.call.HasMncc() { TimeoutAdvances(x, MnccSlot(x.call), ready); }
    case FromPbx(handle, ev) =>
      if CallHasHandle(x.call, handle) {
        SipAdvances(x, HandleSlot(x.call, handle), ev, ready);
      }
    case _ =>
  }

  // ---------------------------------------------------------------- misplaced messages

  // ALERT_IND or SETUP_CNF for a call that the mobile started: its SIP leg has no callback
  // for ringing or connecting.
  predicate Misplaced(c: CallV, sl: Slot, msg: MnccMsg) {
    sl == Initial && c.remote.Sip? && (msg.AlertInd? || msg.SetupCnf?)
  }

  lemma DialingIsClean(x: Ctx, sl: Slot, handle: Handle, ready: bool)
    requires Shape(x.call) && x.Get(sl).Mncc? && x.Get(sl).m.dir == MO && DigestOf(x.log).clean
    ensures DigestOf(ContinueMo(x, sl, handle, ready).log).clean
  {
    hide DigestOf;
  }

  lemma UnaskedCreateIsClean(x: Ctx, sl: Slot, msg: MnccMsg, ready: bool)
    requires CallInv(x) && x.Get(sl).Mncc? && msg.RtpCreate?
    ensures DigestOf(OnRtpCreate(x, sl, msg, ready).log).clean
  {
    hide DigestOf, Advance, Hear, ContinueMo;
    HearKeepsLegs(Created(x, sl, msg), sl, msg.sdp);
    HearEffect(Created(x, sl, msg), sl, msg.sdp);
    var x1 := TakeMedia(x, sl, msg);
    if x1.Get(sl).m.dir == MO {
      DialingIsClean(x1, sl, msg.handle, ready);
    }
  }

  lemma UnaskedHearingIsClean(x: Ctx, sl: Slot, sdp: string)
    requires CallInv(x) && x.Get(sl).Mncc?
    ensures DigestOf(OnCallConfInd(x, sl, sdp).log).clean && DigestOf(OnSetupComplInd(x, sl, sdp).log).clean
  {
    hide DigestOf, Hear;
    HearKeepsLegs(x, sl, sdp);
    HearEffect(x, sl, sdp);
  }

  // Without a partner there is nobody to ring or connect.
  lemma UnaskedAloneIsClean(x: Ctx, sl: Slot, sdp: string, ready: bool)
    requires CallInv(x) && x.Get(sl).Mncc? && x.Get(sl.Other()).NoLeg?
    ensures DigestOf(OnAlertInd(x, sl, sdp, ready).log).clean && DigestOf(OnSetupCnf(x, sl, sdp, ready).log).clean
  {
    hide DigestOf, Advance, Hear, MnccRelease;
    HearKeepsLegs(x, sl, sdp);
    HearEffect(x, sl, sdp);
    MnccReleaseEffect(Hear(x, sl, sdp), sl, ready);
  }

  lemma HoldKeepsClean(x: Ctx)
    requires CallInv(x)
    ensures Shape(x.call) && DigestOf(x.log).clean
  {
    hide DigestOf, Advance;
  }

  // A message that is not misplaced is clean, expected or not.
  lemma PlacedIsClean(x: Ctx, sl: Slot, msg: MnccMsg, ready: bool)
    requires CallInv(x) && x.Get(sl).Mncc? && !Misplaced(x.call, sl, msg)
    ensures DigestOf(OnMncc(x, sl, msg, ready).log).clean
  {
    hide DigestOf, Advance, CallInv, Shape, OnRtpCreate, OnRtpConnect, OnDiscInd, OnRelInd, OnRejInd, OnSetupComplInd,
      OnSetupCnf, OnCallConfInd, OnAlertInd, OnHoldInd, OnRetrieveInd, OnStartDtmf, OnStopDtmf;
    if MnccAllowed(x.Get(sl).m, msg) {
      MnccMsgKeeps(x, sl, msg, ready);
      HoldKeepsClean(OnMncc(x, sl, msg, ready));
    } else if msg.RtpCreate? {
      UnaskedCreateIsClean(x, sl, msg, ready);
    } else if msg.CallConfInd? || msg.SetupComplIndMsg? {
      UnaskedHearingIsClean(x, sl, msg.sdp);
    } else {
      assert x.Get(sl.Other()).NoLeg? by { AloneOrMisplaced(x, sl, msg); }
      UnaskedAloneIsClean(x, sl, msg.sdp, ready);
    }
  }

  lemma AloneOrMisplaced(x: Ctx, sl: Slot, msg: MnccMsg)
    requires CallInv(x) && x.Get(sl).Mncc? && x.Get(sl).m.dir == MO && (msg.AlertInd? || msg.SetupCnf?)
    ensures Misplaced(x.call, sl, msg) || x.Get(sl.Other()).NoLeg?
  {
    hide DigestOf, Advance;
  }

  // A misplaced one calls the unset callback as the last thing it does.
  lemma MisplacedCrashes(x: Ctx, msg: MnccMsg, ready: bool) returns (z: Ctx)
    requires CallInv(x) && x.call.initial.Mncc? && Misplaced(x.call, Initial, msg)
    ensures OnMncc(x, Initial, msg, ready) == Send(z, Crash(UnsetCallback)) && DigestOf(z.log).clean
  {
    hide DigestOf, Hear, OnRtpCreate, OnRtpConnect, OnDiscInd, OnRelInd, OnRejInd, OnSetupComplInd, OnCallConfInd,
      OnHoldInd, OnRetrieveInd, OnStartDtmf, OnStopDtmf;
    HearKeepsLegs(x, Initial, msg.sdp);
    HearEffect(x, Initial, msg.sdp);
    z := if msg.AlertInd? then Hear(x, Initial, msg.sdp) else CompleteSetup(Hear(x, Initial, msg.sdp), Initial);
  }

  ghost predicate CrashAt(t: seq<Entry>, k: int) {
    0 <= k < |t| && t[k].Crash?
  }

  lemma CleanReads(t: seq<Entry>)
    ensures DigestOf(t).clean <==> forall k :: !CrashAt(t, k)
  {
    hide DigestOf, Advance;
    ReleasingReads(t);
    assert forall k | 0 <= k < |t| :: t[k].Crash? ==> CrashAt(t, k);
  }

  // The message is for this call, which the mobile started and which has a SIP leg.
  predicate MisplacedIn(s: State, callref: nat, msg: MnccMsg, id: nat) {
    var i := FindRef(s.calls, callref);
    i < |s.calls| && s.calls[i].id == id && Misplaced(s.calls[i], RefSlot(s.calls[i], callref), msg)
  }

  // The process would have stopped, for this reason and at no other place of the trace.
  ghost predicate StoppedBy(t: seq<Entry>, fault: Fault) {
    t != [] && t[|t| - 1] == Crash(fault) && forall k :: CrashAt(t, k) ==> k == |t| - 1
  }

  lemma CrashOfCall(x: Ctx, sl: Slot, msg: MnccMsg, ready: bool)
    requires CallInv(x) && x.Get(sl).Mncc?
    ensures var t := OnMncc(x, sl, msg, ready).log;
            if Misplaced(x.call, sl, msg) then StoppedBy(t, UnsetCallback) else forall k :: !CrashAt(t, k)
  {
    hide DigestOf, Advance, CallInv, OnMncc;
    var t := OnMncc(x, sl, msg, ready).log;
    if Misplaced(x.call, sl, msg) {
      var z := MisplacedCrashes(x, msg, ready);
      CleanReads(z.log);
      assert forall k | k < |z.log| :: CrashAt(t, k) <==> CrashAt(z.log, k);
      assert t[|z.log|] == Crash(UnsetCallback);
    } else {
      PlacedIsClean(x, sl, msg, ready);
      CleanReads(t);
    }
  }

  // Whatever the MSC sends in whatever state of whatever run, the process would stop exactly for a
  // misplaced message: it then calls an unset callback of that call's SIP leg, and nothing else.
  lemma DispatchFailsExactly(s: State, callref: nat, msg: MnccMsg, id: nat)
    requires Reachable(s) && id != NO_CALL
    ensures var r := Step(s, FromMsc(callref, msg));
            var t := TraceOf(r, id);
            if MisplacedIn(s, callref, msg, id) then StoppedBy(t, UnsetCallback) else forall k :: !CrashAt(t, k)
  {
    hide DigestOf, Advance, Reachable, Inv, OnMncc, CrashAt, StoppedBy, Misplaced, OnReconnect, OnHello,
      CloseConnection, OnSetupInd, OnTimer, OnFromPbx, OnIncoming;
    ReachableInv(s);
    NoCrashSoFar(s, id);
    var i, r := FindRef(s.calls, callref), OnFromMsc(s, callref, msg);
    if i < |s.calls| {
      var sl := RefSlot(s.calls[i], callref);
      NeverMisplaced(s.calls[i], sl, msg);
      if (msg.RtpCreate? || msg.RtpConnect?) && s.calls[i].Get(sl).m.base.inRelease {
        assert TraceOf(r, id) == TraceOf(s, id);
      } else {
        ListedInv(s, i);
        MessageKeepsId(At(s, i), sl, msg, s.conn == Ready);
        CrashOfCall(At(s, i), sl, msg, s.conn == Ready);
        assert s.calls[i].id != id ==> TraceOf(r, id) == TraceOf(s, id);
      }
    } else {
      assert TraceOf(r, id) == TraceOf(s, id);
    }
  }

  lemma NeverMisplaced(c: CallV, sl: Slot, msg: MnccMsg)
    ensures msg.RtpCreate? || msg.RtpConnect? ==> !Misplaced(c, sl, msg)
  {
  }

  lemma ListedInv(s: State, i: nat)
    requires Inv(s) && i < |s.calls|
    ensures CallInv(At(s, i)) && s.calls[i].id != NO_CALL
  {
    hide DigestOf, Advance, CallInv;
    ListedKeeps(s, i);
  }

  lemma NoCrashSoFar(s: State, id: nat)
    requires Inv(s) && id != NO_CALL
    ensures forall k :: !CrashAt(TraceOf(s, id), k)
  {
    hide DigestOf, Advance, TableInv;
    if id in s.traces {
      TraceInvariant(s, id);
      CleanReads(s.traces[id]);
    }
  }

  // The run of a call that rings, and what ALERT_IND would then do.
  lemma MisplacedAlertCrashes() returns (ss: seq<State>, es: seq<Event>, id: nat)
    ensures IsRun(ss, es) && es == CALL_SETUP + CALL_RINGS
    ensures StoppedBy(TraceOf(Step(ss[|es|], FromMsc(CALLREF, AlertInd(""))), id), UnsetCallback)
  {
    hide DigestOf, Advance, Step, Allowed, StoppedBy, Reachable;
    var x;
    ss, es, x := CallRings();
    id := x.call.id;
    var s := ss[|es|];
    assert Reachable(s) by { EndIsReachable(ss, es); }
    assert MisplacedIn(s, CALLREF, AlertInd(""), id) by { FoundFirst(s, x); }
    ReachableInv(s);
    ListedInv(s, 0);
    DispatchFailsExactly(s, CALLREF, AlertInd(""), id);
  }

  lemma FoundFirst(s: State, x: Ctx)
    requires Lone(s, x) && HasRef(x.call.initial, CALLREF)
    ensures FindRef(s.calls, CALLREF) == 0 && |s.calls| == 1 && s.calls[0] == x.call
    ensures RefSlot(s.calls[0], CALLREF) == Initial
  {
    assert CallHasRef(s.calls[0], CALLREF);
  }
}
