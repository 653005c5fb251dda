/** Which received SDPs a leg keeps: for every event, the SDP it carries is stored exactly when the
    message is of a kind, and the leg in a state, for which the code stores it. */
module Hearing {
  import opened Domain
  import opened Sdp
  import opened Trace
  import opened CallMachine
  import opened CallInvariant
  import opened Bridge
  import opened Lifecycle
  import opened Locality
  import opened Guarantees
  import opened Scenario
  import CauseMap

  // ---------------------------------------------------------------- what an event brings

  // Every MNCC message has room for an SDP. RTP_CREATE and RTP_CONNECT are refused on a leg in
  // release, and the messages that clear, hold or retrieve a call are not looked into.
  predicate Stored(msg: MnccMsg, inRelease: bool) {
    match msg
    case RtpCreate(_, _, _, _, _) => !inRelease
    case RtpConnect(_, _, _) => !inRelease
    case DiscInd(_, _) => false
    case RelIndMsg(_, _) => false
    case RejInd(_, _) => false
    case RelCnfMsg(_) => false
    case HoldInd(_) => false
    case RetrieveInd(_) => false
    case _ => true
  }

  function SdpOf(ev: SipEvent): string {
    match ev
    case InviteResponse(_, payload) => Text(payload)
    case GotAck(payload) => Text(payload)
    case GotReinvite(payload) => Text(payload)
    case _ => ""
  }

  // The SDP that an event brings to the leg of a side of a call and that is stored there; "" for none.
  function Brings(s: State, e: Event, id: nat, side: Side): string {
    match e
    case SetupInd(setup) => if side == MnccSide && id == s.lastId + 1 && SetupScreened(setup) then setup.sdp else ""
    case FromMsc(callref, msg) =>
      var i := FindRef(s.calls, callref);
      if side == MnccSide && i < |s.calls| && s.calls[i].id == id
         && Stored(msg, s.calls[i].Get(RefSlot(s.calls[i], callref)).m.base.inRelease)
      then msg.sdp else ""
    case FromPbx(handle, ev) =>
      var i := FindHandle(s.calls, handle);
      if side == SipSide && i < |s.calls| && s.calls[i].id == id then SdpOf(ev) else ""
    case Incoming(offer, _) =>
      if side == SipSide && id == s.lastId + 1 && Screened(offer.payload) && offer.usersKnown && offer.gcrUsable
         && Pick(offer.payload, NO_ADDR, 0, None).ok
      then Text(offer.payload) else ""
    case _ => ""
  }

  // ---------------------------------------------------------------- callbacks hear nothing

  function Held(x: Ctx, side: Side): string {
    var d := DigestOf(x.log);
    if side == MnccSide then d.heardMncc else d.heardSip
  }

  predicate Silent(x: Ctx, y: Ctx) {
    y.call.id == x.call.id && Held(y, MnccSide) == Held(x, MnccSide) && Held(y, SipSide) == Held(x, SipSide)
  }

  // From x to y the leg of the side heard the SDP, and the other leg nothing.
  predicate HeardBy(x: Ctx, y: Ctx, side: Side, sdp: string) {
    && y.call.id == x.call.id
    && Held(y, MnccSide) == After(Held(x, MnccSide), if side == MnccSide then sdp else "")
    && Held(y, SipSide) == After(Held(x, SipSide), if side == SipSide then sdp else "")
  }

  lemma SendIsSilent(x: Ctx, e: Entry)
    requires !e.Heard?
    ensures Silent(x, Send(x, e))
  {
    hide DigestOf;
  }

  lemma SipReleaseIsSilent(x: Ctx, sl: Slot)
    requires x.Get(sl).Sip?
    ensures Silent(x, SipRelease(x, sl))
  {
    hide DigestOf, Advance, CauseMap.CauseToStatus, CauseMap.ReasonText;
    var s := x.Get(sl).s;
    var reject := TxReject(s.handle, CauseMap.CauseToStatus(s.base.cause), Some(CauseMap.ReasonText(s.base.cause)));
    SendIsSilent(x, Destroy(s.handle));
    SendIsSilent(x, TxCancel(s.handle));
    SendIsSilent(x, TxBye(s.handle));
    SendIsSilent(x, reject);
    SendIsSilent(Send(x, reject), Destroy(s.handle));
  }

  lemma MnccReleaseIsSilent(x: Ctx, sl: Slot, ready: bool)
    requires x.Get(sl).Mncc?
    ensures Silent(x, MnccRelease(x, sl, ready))
  {
    hide DigestOf, Advance, StartRelease;
    SendIsSilent(x, TxSignal(RejReq, x.Get(sl).m.callref));
    StartIsSilent(x, sl, DiscReq, RelInd);
    StartIsSilent(x, sl, RelReq, RelCnf);
  }

  lemma StartIsSilent(x: Ctx, sl: Slot, clearing: Clearing, answer: Awaited)
    requires x.Get(sl).Mncc?
    ensures Silent(x, StartRelease(x, sl, clearing, answer))
  {
    hide DigestOf;
  }

  lemma ReleaseIsSilent(x: Ctx, sl: Slot, ready: bool)
    ensures Silent(x, ReleaseIfAny(x, sl, ready))
  {
    hide DigestOf, SipRelease, MnccRelease;
    if x.Get(sl).Sip? {
      SipReleaseIsSilent(x, sl);
    } else if x.Get(sl).Mncc? {
      MnccReleaseIsSilent(x, sl, ready);
    }
  }

  lemma CauseIsSilent(x: Ctx, sl: Slot, cause: int, ready: bool)
    ensures Silent(x, ReleaseWithCause(x, sl, cause, ready))
  {
    hide DigestOf, ReleaseLeg;
    if !x.Get(sl).NoLeg? {
      ReleaseIsSilent(x.Put(sl, x.Get(sl).WithCommon(x.Get(sl).Common().(cause := cause))), sl, ready);
    }
  }

  lemma RingIsSilent(x: Ctx, sl: Slot)
    requires !x.Get(sl).NoLeg?
    ensures Silent(x, RingLeg(x, sl))
  {
    hide DigestOf;
  }

  lemma MnccConnectIsSilent(x: Ctx, sl: Slot)
    requires x.Get(sl).Mncc?
    ensures Silent(x, MnccConnect(x, sl))
  {
    hide DigestOf;
  }

  lemma ConnectIsSilent(x: Ctx, sl: Slot)
    requires !x.Get(sl).NoLeg?
    ensures Silent(x, ConnectLeg(x, sl))
  {
    hide DigestOf, SipRelease, MnccConnect;
    if x.Get(sl).Sip? {
      SipReleaseIsSilent(x, sl);
    } else {
      MnccConnectIsSilent(x, sl);
    }
  }

  lemma ModifyIsSilent(x: Ctx, sl: Slot, mode: Mode, state: SipState)
    requires x.Get(sl).Sip?
    ensures Silent(x, SipModify(x, sl, mode, state))
  {
    hide DigestOf, SipRelease;
    SipReleaseIsSilent(x, sl);
  }

  lemma DropIsSilent(x: Ctx, sl: Slot)
    requires x.Get(sl).Sip?
    ensures Silent(x, DropSip(x, sl))
  {
    hide DigestOf;
  }

  lemma HearHears(x: Ctx, sl: Slot, sdp: string)
    requires !x.Get(sl).NoLeg?
    ensures HeardBy(x, Hear(x, sl, sdp), if x.Get(sl).Mncc? then MnccSide else SipSide, sdp)
  {
    hide DigestOf, Hear;
    HearEffect(x, sl, sdp);
  }

  // ---------------------------------------------------------------- MNCC messages

  lemma ClearingIsSilent(x: Ctx, sl: Slot, cause: int, ready: bool)
    requires x.Get(sl).Mncc?
    ensures Silent(x, OnDiscInd(x, sl, cause, ready))
    ensures Silent(x, OnRelInd(x, sl, cause, ready))
    ensures Silent(x, OnRejInd(x, sl, cause, ready))
  {
    hide DigestOf, Advance, ReleaseWithCause, StartRelease;
    CauseIsSilent(x, sl.Other(), cause, ready);
    StartIsSilent(x, sl, RelReq, RelCnf);
    CauseIsSilent(StartRelease(x, sl, RelReq, RelCnf), sl.Other(), cause, ready);
  }

  lemma HoldIsSilent(x: Ctx, sl: Slot)
    requires x.Get(sl).Mncc?
    ensures Silent(x, OnHoldInd(x, sl))
  {
    hide DigestOf, SipModify;
    if x.Get(sl.Other()).Sip? {
      ModifyIsSilent(x, sl.Other(), SendOnly, SHold);
    }
  }

  lemma ResumeIsSilent(x: Ctx, sl: Slot)
    requires x.Get(sl).Mncc?
    ensures Silent(x, Resume(x, sl))
  {
    hide DigestOf;
  }

  lemma RetrieveIsSilent(x: Ctx, sl: Slot, ready: bool)
    requires x.Get(sl).Mncc?
    ensures Silent(x, OnRetrieveInd(x, sl, ready))
  {
    hide DigestOf, RetrieveLeg, MnccRelease, Resume;
    var confirmed := Send(x, TxSignal(RetrieveCnf, x.Get(sl).m.callref));
    if x.Get(sl.Other()).NoLeg? {
      MnccReleaseIsSilent(confirmed, sl, ready);
    } else {
      RetrieveLegIsSilent(x, sl.Other());
      ResumeIsSilent(RetrieveLeg(x, sl.Other()), sl);
    }
  }

  lemma RetrieveLegIsSilent(x: Ctx, sl: Slot)
    requires !x.Get(sl).NoLeg? && !x.Get(sl.Other()).NoLeg?
    ensures Silent(x, RetrieveLeg(x, sl)) && RetrieveLeg(x, sl).Get(sl.Other()) == x.Get(sl.Other())
  {
    hide DigestOf, SipRelease;
  }

  lemma CreateIsHeard(x: Ctx, sl: Slot, msg: MnccMsg, ready: bool)
    requires x.Get(sl).Mncc? && msg.RtpCreate?
    ensures HeardBy(x, OnRtpCreate(x, sl, msg, ready), MnccSide, msg.sdp)
  {
    hide DigestOf, Hear, ContinueMo;
    HearHears(Created(x, sl, msg), sl, msg.sdp);
    HearKeepsLegs(Created(x, sl, msg), sl, msg.sdp);
    var x1 := TakeMedia(x, sl, msg);
    ContinueIsSilent(x1, sl, msg.handle, ready);
  }

  lemma ContinueIsSilent(x: Ctx, sl: Slot, handle: Handle, ready: bool)
    requires x.Get(sl).Mncc?
    ensures Silent(x, ContinueMo(x, sl, handle, ready))
  {
    hide DigestOf, ReleaseLeg;
    var m := x.Get(sl).m;
    var x1 := Send(x, TxSignal(CallProcReq, m.callref)).Put(sl, Mncc(m.(state := MProceeding)));
    ReleaseIsSilent(x1, Initial, ready);
  }

  lemma ConnectedIsHeard(x: Ctx, sl: Slot, msg: MnccMsg, ready: bool)
    requires x.Get(sl).Mncc? && msg.RtpConnect?
    ensures HeardBy(x, OnRtpConnect(x, sl, msg, ready), MnccSide, msg.sdp)
  {
    hide DigestOf, Hear, ReleaseIfAny;
    HearHears(x, sl, msg.sdp);
    var x1 := Hear(x, sl, msg.sdp);
    ReleaseIsSilent(x1, sl.Other(), ready);
    ReleaseIsSilent(ReleaseIfAny(x1, sl.Other(), ready), sl, ready);
  }

  lemma CompleteIsSilent(x: Ctx, sl: Slot)
    requires x.Get(sl).Mncc? && !x.Get(sl.Other()).NoLeg?
    ensures Silent(x, CompleteSetup(x, sl))
  {
    hide DigestOf;
  }

  lemma SetupCnfIsHeard(x: Ctx, sl: Slot, sdp: string, ready: bool)
    requires x.Get(sl).Mncc?
    ensures HeardBy(x, OnSetupCnf(x, sl, sdp, ready), MnccSide, sdp)
  {
    hide DigestOf, Hear, MnccRelease, CompleteSetup, ConnectLeg;
    HearHears(x, sl, sdp);
    HearKeepsLegs(x, sl, sdp);
    var x1 := Hear(x, sl, sdp);
    if x1.Get(sl.Other()).NoLeg? {
      MnccReleaseIsSilent(x1, sl, ready);
    } else {
      CompleteIsSilent(x1, sl);
      CompleteKeepsPartner(x1, sl);
      ConnectIsSilent(CompleteSetup(x1, sl), sl.Other());
    }
  }

  lemma CompleteKeepsPartner(x: Ctx, sl: Slot)
    requires x.Get(sl).Mncc? && !x.Get(sl.Other()).NoLeg?
    ensures CompleteSetup(x, sl).Get(sl.Other()) == x.Get(sl.Other())
  {
    hide DigestOf;
  }

  lemma AlertIsHeard(x: Ctx, sl: Slot, sdp: string, ready: bool)
    requires x.Get(sl).Mncc?
    ensures HeardBy(x, OnAlertInd(x, sl, sdp, ready), MnccSide, sdp)
  {
    hide DigestOf, Hear, MnccRelease, RingLeg;
    HearHears(x, sl, sdp);
    HearKeepsLegs(x, sl, sdp);
    var x1 := Hear(x, sl, sdp);
    if x1.Get(sl.Other()).NoLeg? {
      MnccReleaseIsSilent(x1, sl, ready);
    } else {
      RingIsSilent(x1, sl.Other());
    }
  }

  lemma ConfirmationIsHeard(x: Ctx, sl: Slot, sdp: string)
    requires x.Get(sl).Mncc?
    ensures HeardBy(x, OnCallConfInd(x, sl, sdp), MnccSide, sdp)
    ensures HeardBy(x, OnSetupComplInd(x, sl, sdp), MnccSide, sdp)
  {
    hide DigestOf, Hear;
    HearHears(x, sl, sdp);
    HearKeepsLegs(x, sl, sdp);
  }

  lemma DtmfIsHeard(x: Ctx, sl: Slot, key: int, sdp: string)
    requires x.Get(sl).Mncc?
    ensures HeardBy(x, OnStartDtmf(x, sl, key, sdp), MnccSide, sdp)
    ensures HeardBy(x, OnStopDtmf(x, sl, key, sdp), MnccSide, sdp)
  {
    hide DigestOf, Advance, Hear, RelayKey;
    HearHears(x, sl, sdp);
    var x1, callref := Hear(x, sl, sdp), x.Get(sl).m.callref;
    RelayIsSilent(x1, sl.Other(), key);
    SendIsSilent(RelayKey(x1, sl.Other(), key), TxKeypad(StartDtmfRsp, callref, key));
    SendIsSilent(x1, TxKeypad(StopDtmfRsp, callref, key));
  }

  lemma RelayIsSilent(x: Ctx, sl: Slot, key: int)
    ensures Silent(x, RelayKey(x, sl, key))
  {
    hide DigestOf, Advance;
    if x.Get(sl).Sip? {
      SendIsSilent(x, TxInfo(x.Get(sl).s.handle, key));
    }
    SendIsSilent(x, Crash(UnsetCallback));
    SendIsSilent(x, Crash(WrongLegType));
  }

  // A message on a leg that is not refused: what its handler stores.
  lemma MessageIsHeard(x: Ctx, sl: Slot, msg: MnccMsg, ready: bool)
    requires x.Get(sl).Mncc?
    ensures HeardBy(x, OnMncc(x, sl, msg, ready), MnccSide, if Stored(msg, false) then msg.sdp else "")
  {
    hide DigestOf, OnRtpCreate, OnRtpConnect, OnDiscInd, OnRelInd, OnRejInd, OnSetupComplInd, OnSetupCnf,
      OnCallConfInd, OnAlertInd, OnHoldInd, OnRetrieveInd, OnStartDtmf, OnStopDtmf;
    match msg
    case RtpCreate(_, _, _, _, _) => CreateIsHeard(x, sl, msg, ready);
    case RtpConnect(_, _, _) => ConnectedIsHeard(x, sl, msg, ready);
    case DiscInd(cause, _) => ClearingIsSilent(x, sl, cause, ready);
    case RelIndMsg(cause, _) => ClearingIsSilent(x, sl, cause, ready);
    case RejInd(cause, _) => ClearingIsSilent(x, sl, cause, ready);
    case RelCnfMsg(_) =>
    case SetupComplIndMsg(sdp) => ConfirmationIsHeard(x, sl, sdp);
    case SetupCnf(sdp) => SetupCnfIsHeard(x, sl, sdp, ready);
    case CallConfInd(sdp) => ConfirmationIsHeard(x, sl, sdp);
    case AlertInd(sdp) => AlertIsHeard(x, sl, sdp, ready);
    case HoldInd(_) => HoldIsSilent(x, sl);
    case RetrieveInd(_) => RetrieveIsSilent(x, sl, ready);
    case StartDtmf(key, sdp) => DtmfIsHeard(x, sl, key, sdp);
    case StopDtmf(key, sdp) => DtmfIsHeard(x, sl, key, sdp);
  }

  lemma MessageKeepsId(x: Ctx, sl: Slot, msg: MnccMsg, ready: bool)
    requires x.Get(sl).Mncc?
    ensures OnMncc(x, sl, msg, ready).call.id == x.call.id
  {
    hide OnMncc, Held, After;
    MessageIsHeard(x, sl, msg, ready);
  }

  // What an MNCC leg stores, as far as it stays attached.
  predicate Stores(y: Ctx, sl: Slot, sdp: string) {
    y.Get(sl).Mncc? ==> y.Get(sl).m.base.rxSdp == sdp
  }

  lemma HearStores(x: Ctx, sl: Slot, sdp: string)
    requires x.Get(sl).Mncc? && |x.Get(sl).m.base.rxSdp| <= SDP_CAPACITY
    ensures var y := Hear(x, sl, sdp);
            && Stores(y, sl, After(x.Get(sl).m.base.rxSdp, sdp)) && y.Get(sl).Mncc?
            && y.Get(sl.Other()) == x.Get(sl.Other())
  {
    hide DigestOf, Advance;
  }

  lemma ReleaseStores(x: Ctx, sl: Slot, who: Slot, sdp: string, ready: bool)
    requires Stores(x, sl, sdp)
    ensures Stores(ReleaseIfAny(x, who, ready), sl, sdp)
  {
    hide DigestOf, Advance, CauseMap.CauseToStatus, CauseMap.ReasonText;
  }

  lemma ClearingStores(x: Ctx, sl: Slot, cause: int, ready: bool)
    requires x.Get(sl).Mncc?
    ensures Stores(OnDiscInd(x, sl, cause, ready), sl, x.Get(sl).m.base.rxSdp)
    ensures Stores(OnRelInd(x, sl, cause, ready), sl, x.Get(sl).m.base.rxSdp)
    ensures Stores(OnRejInd(x, sl, cause, ready), sl, x.Get(sl).m.base.rxSdp)
  {
    hide DigestOf, Advance, CauseMap.CauseToStatus, CauseMap.ReasonText;
  }

  lemma HoldStores(x: Ctx, sl: Slot)
    requires x.Get(sl).Mncc?
    ensures Stores(OnHoldInd(x, sl), sl, x.Get(sl).m.base.rxSdp)
  {
    hide DigestOf, Advance, CauseMap.CauseToStatus, CauseMap.ReasonText;
  }

  lemma RetrieveStores(x: Ctx, sl: Slot, ready: bool)
    requires x.Get(sl).Mncc?
    ensures Stores(OnRetrieveInd(x, sl, ready), sl, x.Get(sl).m.base.rxSdp)
  {
    hide DigestOf, Advance, CauseMap.CauseToStatus, CauseMap.ReasonText;
  }

  lemma CreateStores(x: Ctx, sl: Slot, msg: MnccMsg, ready: bool)
    requires x.Get(sl).Mncc? && |x.Get(sl).m.base.rxSdp| <= SDP_CAPACITY && msg.RtpCreate?
    ensures Stores(OnRtpCreate(x, sl, msg, ready), sl, After(x.Get(sl).m.base.rxSdp, msg.sdp))
  {
    hide DigestOf, Advance, Hear, Cut, ReleaseLeg;
    HearStores(Created(x, sl, msg), sl, msg.sdp);
    var x1 := Proceed(TakeMedia(x, sl, msg), sl);
    ReleaseStores(x1, sl, Initial, After(x.Get(sl).m.base.rxSdp, msg.sdp), ready);
  }

  lemma ConnectedStores(x: Ctx, sl: Slot, msg: MnccMsg, ready: bool)
    requires x.Get(sl).Mncc? && |x.Get(sl).m.base.rxSdp| <= SDP_CAPACITY && msg.RtpConnect?
    ensures Stores(OnRtpConnect(x, sl, msg, ready), sl, After(x.Get(sl).m.base.rxSdp, msg.sdp))
  {
    hide DigestOf, Advance, Hear, After, ReleaseIfAny;
    var x1, sdp := Hear(x, sl, msg.sdp), After(x.Get(sl).m.base.rxSdp, msg.sdp);
    HearStores(x, sl, msg.sdp);
    ReleaseStores(x1, sl, sl.Other(), sdp, ready);
    ReleaseStores(ReleaseIfAny(x1, sl.Other(), ready), sl, sl, sdp, ready);
  }

  lemma FinishStores(x: Ctx, sl: Slot, ready: bool)
    requires x.Get(sl).Mncc?
    ensures Stores(FinishSetup(x, sl, ready), sl, x.Get(sl).m.base.rxSdp)
  {
    hide DigestOf, Advance, CauseMap.CauseToStatus, CauseMap.ReasonText;
  }

  lemma RingStores(x: Ctx, sl: Slot, sdp: string)
    requires !x.Get(sl.Other()).NoLeg? && Stores(x, sl, sdp)
    ensures Stores(RingLeg(x, sl.Other()), sl, sdp)
  {
    hide DigestOf, Advance;
  }

  lemma SetupStores(x: Ctx, sl: Slot, sdp: string, ready: bool)
    requires x.Get(sl).Mncc? && |x.Get(sl).m.base.rxSdp| <= SDP_CAPACITY
    ensures Stores(OnSetupCnf(x, sl, sdp, ready), sl, After(x.Get(sl).m.base.rxSdp, sdp))
    ensures Stores(OnAlertInd(x, sl, sdp, ready), sl, After(x.Get(sl).m.base.rxSdp, sdp))
    ensures Stores(OnCallConfInd(x, sl, sdp), sl, After(x.Get(sl).m.base.rxSdp, sdp))
    ensures Stores(OnSetupComplInd(x, sl, sdp), sl, After(x.Get(sl).m.base.rxSdp, sdp))
  {
    hide DigestOf, Advance, Hear, After, FinishSetup, RingLeg;
    HearStores(x, sl, sdp);
    var x1 := Hear(x, sl, sdp);
    FinishStores(x1, sl, ready);
    if !x1.Get(sl.Other()).NoLeg? {
      RingStores(x1, sl, After(x.Get(sl).m.base.rxSdp, sdp));
    }
  }

  lemma DtmfStores(x: Ctx, sl: Slot, key: int, sdp: string)
    requires x.Get(sl).Mncc? && |x.Get(sl).m.base.rxSdp| <= SDP_CAPACITY
    ensures Stores(OnStartDtmf(x, sl, key, sdp), sl, After(x.Get(sl).m.base.rxSdp, sdp))
    ensures Stores(OnStopDtmf(x, sl, key, sdp), sl, After(x.Get(sl).m.base.rxSdp, sdp))
  {
    hide DigestOf, Advance, Hear, After;
    HearStores(x, sl, sdp);
  }

  // And what the leg then stores.
  lemma MessageIsStored(x: Ctx, sl: Slot, msg: MnccMsg, ready: bool)
    requires x.Get(sl).Mncc? && |x.Get(sl).m.base.rxSdp| <= SDP_CAPACITY
    ensures Stores(OnMncc(x, sl, msg, ready), sl,
                   After(x.Get(sl).m.base.rxSdp, if Stored(msg, false) then msg.sdp else ""))
  {
    hide DigestOf, Advance, OnRtpCreate, OnRtpConnect, OnDiscInd, OnRelInd, OnRejInd, OnSetupComplInd, OnSetupCnf,
      OnCallConfInd, OnAlertInd, OnHoldInd, OnRetrieveInd, OnStartDtmf, OnStopDtmf;
    match msg
    case RtpCreate(_, _, _, _, _) => CreateStores(x, sl, msg, ready);
    case RtpConnect(_, _, _) => ConnectedStores(x, sl, msg, ready);
    case DiscInd(cause, _) => ClearingStores(x, sl, cause, ready);
    case RelIndMsg(cause, _) => ClearingStores(x, sl, cause, ready);
    case RejInd(cause, _) => ClearingStores(x, sl, cause, ready);
    case RelCnfMsg(_) =>
    case HoldInd(_) => HoldStores(x, sl);
    case RetrieveInd(_) => RetrieveStores(x, sl, ready);
    case StartDtmf(key, sdp) => DtmfStores(x, sl, key, sdp);
    case StopDtmf(key, sdp) => DtmfStores(x, sl, key, sdp);
    case _ => SetupStores(x, sl, msg.sdp, ready);
  }

  // ---------------------------------------------------------------- SIP events

  lemma ProgressIsSilent(x: Ctx, sl: Slot, payload: Payload)
    requires x.Get(sl).Sip?
    ensures Silent(x, OnProgress(x, sl, payload))
  {
    hide DigestOf, Pick, RingLeg;
    if !x.Get(sl.Other()).NoLeg? {
      var s := x.Get(sl).s;
      var x1 := x.Put(sl, Sip(Placed(s, Pick(payload, s.base.addr, s.base.payloadType, s.codec))));
      RingIsSilent(x1, sl.Other());
    }
  }

  lemma AcceptIsSilent(x: Ctx, sl: Slot, payload: Payload, ready: bool)
    requires x.Get(sl).Sip?
    ensures Silent(x, OnAccept(x, sl, payload, ready))
  {
    hide DigestOf, Pick, ReleaseLeg, ConnectLeg;
    if !x.Get(sl.Other()).NoLeg? {
      var s := x.Get(sl).s;
      var x1 := x.Put(sl, Sip(Placed(s, Pick(payload, s.base.addr, s.base.payloadType, s.codec))));
      ReleaseIsSilent(Send(x1, TxCancel(s.handle)), sl.Other(), ready);
      ConnectIsSilent(x1.Put(sl, Sip(x1.Get(sl).s.(state := SConnected))), sl.Other());
    }
  }

  lemma StatusIsSilent(x: Ctx, sl: Slot, status: int, payload: Payload, ready: bool)
    requires x.Get(sl).Sip?
    ensures Silent(x, OnStatus(x, sl, status, payload, ready))
  {
    hide DigestOf, OnProgress, OnAccept, DropSip, ReleaseWithCause, CauseMap.StatusToCause;
    ProgressIsSilent(x, sl, payload);
    AcceptIsSilent(x, sl, payload, ready);
    var x1 := Send(x, TxCancel(x.Get(sl).s.handle));
    DropIsSilent(x1, sl);
    CauseIsSilent(DropSip(x1, sl), sl.Other(), CauseMap.StatusToCause(status), ready);
  }

  lemma ResponseIsHeard(x: Ctx, sl: Slot, status: int, payload: Payload, ready: bool)
    requires x.Get(sl).Sip?
    ensures HeardBy(x, OnInviteResponse(x, sl, status, payload, ready), SipSide, Text(payload))
  {
    hide DigestOf, Hear, OnStatus;
    HearHears(x, sl, Text(payload));
    StatusIsSilent(Confirm(x, sl, Text(payload)), sl, status, payload, ready);
  }

  lemma AnswerIsSilent(x: Ctx, sl: Slot, mode: Mode)
    requires x.Get(sl).Sip? && !x.Get(sl.Other()).NoLeg?
    ensures Silent(x, Answer(x, sl, mode))
  {
    hide DigestOf;
  }

  lemma RenegotiationIsSilent(x: Ctx, sl: Slot, payload: Payload, ready: bool)
    requires x.Get(sl).Sip? && !x.Get(sl.Other()).NoLeg?
    ensures Silent(x, Renegotiate(x, sl, payload, ready))
  {
    hide DigestOf, Advance, Pick, UpdateRtp, Answer, DropSip;
    var s := x.Get(sl).s;
    var x1 := x.Put(sl, Sip(Placed(s, Pick(payload, s.base.addr, s.base.payloadType, None))));
    UpdateIsSilent(x1, ready);
    AnswerIsSilent(UpdateRtp(x1, Remote, ready), sl, SendRecv);
    AnswerIsSilent(x1, sl, SendRecv);
    var x2 := Send(x1, TxReject(s.handle, 406, None));
    SendIsSilent(x1, TxReject(s.handle, 406, None));
    DropIsSilent(x2, sl);
  }

  lemma UpdateIsSilent(x: Ctx, ready: bool)
    requires !x.Get(Initial).NoLeg? && !x.Get(Remote).NoLeg?
    ensures Silent(x, UpdateRtp(x, Remote, ready)) && UpdateRtp(x, Remote, ready).call == x.call
  {
    hide DigestOf, ReleaseLeg;
  }

  lemma ReinviteIsHeard(x: Ctx, sl: Slot, payload: Payload, ready: bool)
    requires x.Get(sl).Sip? && Held(x, SipSide) == After(Held(x, SipSide), Text(payload))
    ensures Silent(x, OnReinvite(x, sl, payload, ready))
  {
    hide DigestOf, Hear, SipRelease, Answer, Renegotiate, MediaMode;
    if x.Get(sl.Other()).NoLeg? {
      SipReleaseIsSilent(x, sl);
    } else {
      AnswerIsSilent(x, sl, SendRecv);
      HearHears(x, sl, Text(payload));
      HearKeepsLegs(x, sl, Text(payload));
      var x1 := Hear(x, sl, Text(payload));
      AnswerIsSilent(x1, sl, RecvOnly);
      RenegotiationIsSilent(x1, sl, payload, ready);
    }
  }

  lemma EventIsHeard(x: Ctx, sl: Slot, ev: SipEvent, ready: bool)
    requires x.Get(sl).Sip?
    ensures HeardBy(x, OnSip(x, sl, ev, ready), SipSide, SdpOf(ev))
  {
    hide DigestOf, Hear, OnInviteResponse, OnReinvite, DropSip, ReleaseIfAny;
    match ev
    case InviteResponse(status, payload) => ResponseIsHeard(x, sl, status, payload, ready);
    case GotAck(payload) =>
      HearHears(x, sl, Text(payload));
      HearKeepsLegs(x, sl, Text(payload));
      ReinviteIsHeard(Hear(x, sl, Text(payload)), sl, payload, ready);
    case GotReinvite(payload) =>
      HearHears(x, sl, Text(payload));
      HearKeepsLegs(x, sl, Text(payload));
      ReinviteIsHeard(Hear(x, sl, Text(payload)), sl, payload, ready);
    case _ =>
      DropIsSilent(x, sl);
      ReleaseIsSilent(DropSip(x, sl), sl.Other(), ready);
  }

  // ---------------------------------------------------------------- whole process

  // The last SDP heard on a side according to a call's trace.
  function Kept(s: State, id: nat, side: Side): string {
    LastHeard(TraceOf(s, id), side)
  }

  // No call heard anything from s to r.
  ghost predicate Quietly(s: State, r: State) {
    forall id, side :: id != NO_CALL ==> Kept(r, id, side) == Kept(s, id, side)
  }

  lemma ActHears(s: State, i: nat, y: Ctx, side: Side, sdp: string, id: nat, asked: Side)
    requires i < |s.calls| && HeardBy(At(s, i), y, side, sdp)
    ensures Kept(Act(s, i, y), id, asked) ==
            After(Kept(s, id, asked), if id == s.calls[i].id && asked == side then sdp else "")
  {
    hide DigestOf, LastHeard;
    HeardReads(TraceOf(s, s.calls[i].id));
    HeardReads(y.log);
  }

  lemma ActIsQuiet(s: State, i: nat, y: Ctx)
    requires i < |s.calls| && Silent(At(s, i), y)
    ensures Quietly(s, Act(s, i, y))
  {
    hide DigestOf, LastHeard, Act;
    forall id, side | id != NO_CALL ensures Kept(Act(s, i, y), id, side) == Kept(s, id, side) {
      ActHears(s, i, y, side, "", id, side);
    }
  }

  lemma NoteIsQuiet(s: State, entries: seq<Entry>)
    ensures Quietly(s, Note(s, entries))
  {
    hide LastHeard;
  }

  lemma DisconnectIsSilent(x: Ctx)
    ensures Silent(x, OnDisconnect(x))
  {
    hide DigestOf, ReleaseIfAny;
    ReleaseIsSilent(x, Initial, false);
    ReleaseIsSilent(ReleaseIfAny(x, Initial, false), Remote, false);
  }

  lemma {:induction false} SweepIsQuiet(s: State, i: nat)
    requires i <= |s.calls|
    ensures Quietly(s, Sweep(s, i))
    decreases |s.calls| - i
  {
    hide DigestOf, LastHeard, OnDisconnect, Act;
    if i < |s.calls| {
      if !s.calls[i].HasMncc() {
        SweepIsQuiet(s, i + 1);
      } else {
        var y := OnDisconnect(At(s, i));
        DisconnectIsSilent(At(s, i));
        ActIsQuiet(s, i, y);
        SweepIsQuiet(Act(s, i, y), if y.call.Gone() then i else i + 1);
      }
    }
  }

  lemma CloseIsQuiet(s: State)
    ensures Quietly(s, CloseConnection(s))
  {
    hide LastHeard, Sweep;
    if s.fdOpen {
      SweepIsQuiet(s.(conn := Disconnected, fdOpen := false, reconnect := true), 0);
    }
  }

  // A call as it starts, with nothing heard.
  predicate Begins(y: Ctx, side: Side, sdp: string) {
    Held(y, MnccSide) == After("", if side == MnccSide then sdp else "")
    && Held(y, SipSide) == After("", if side == SipSide then sdp else "")
  }

  lemma NewMnccBegins(id: nat, callref: nat, sdp: string)
    ensures Begins(NewMnccCall(id, callref, sdp), MnccSide, sdp)
  {
    hide DigestOf, Hear;
    DigestEmpty();
    var m := MLeg(NEW_BASE.(ops := MNCC_OPS), MInitial, MO, callref, false, NoResponse);
    HearHears(Ctx(CallV(id, Mncc(m), NoLeg), []), Initial, sdp);
    HearKeepsLegs(Ctx(CallV(id, Mncc(m), NoLeg), []), Initial, sdp);
  }

  lemma DeclineIsSilent(x: Ctx, handle: Handle)
    ensures Silent(x, Decline(x, handle))
  {
    hide DigestOf;
  }

  lemma NewSipBegins(id: nat, handle: Handle, payload: Payload, accepted: bool)
    ensures var ok := accepted && Pick(payload, NO_ADDR, 0, None).ok;
            Begins(NewSipCall(id, handle, payload, accepted), SipSide, if ok then Text(payload) else "")
  {
    hide DigestOf, Hear, Pick, Decline;
    DigestEmpty();
    var bare := SLeg(NEW_BASE, SInitial, MO, NULL_HANDLE, None);
    var x := Ctx(CallV(id, Sip(bare), NoLeg), []);
    DeclineIsSilent(x, handle);
    var p := Pick(payload, NO_ADDR, 0, None);
    var placed := Placed(bare.(state := SConfirmed), p);
    var x1 := x.Put(Initial, Sip(placed));
    DeclineIsSilent(x1, handle);
    var x2 := x1.Put(Initial, Sip(placed.(base := placed.base.(ops := SIP_MO_OPS), handle := handle)));
    HearHears(Send(x2, Bind(handle)), Initial, Text(payload));
  }

  lemma AddHears(s: State, y: Ctx, side: Side, sdp: string, id: nat, asked: Side)
    requires y.call.id == s.lastId + 1 && s.lastId + 1 !in s.traces && Begins(y, side, sdp)
    ensures Kept(Add(s, y), id, asked) ==
            After(Kept(s, id, asked), if id == s.lastId + 1 && asked == side then sdp else "")
  {
    hide DigestOf;
    HeardReads(y.log);
  }

  lemma NextIsNew(s: State)
    requires Inv(s)
    ensures s.lastId + 1 !in s.traces
  {
    hide DigestOf, CallInv;
  }

  lemma SetupHears(s: State, setup: Setup, id: nat, side: Side)
    requires Inv(s) && id != NO_CALL
    ensures Kept(OnSetupInd(s, setup), id, side) == After(Kept(s, id, side), Brings(s, SetupInd(setup), id, side))
  {
    hide DigestOf, LastHeard, Inv, NewMnccCall, Add, Note;
    NextIsNew(s);
    NoteIsQuiet(s, [TxSignal(RejReq, setup.callref)]);
    NewMnccBegins(s.lastId + 1, setup.callref, setup.sdp);
    NewMnccCallOk(s.lastId + 1, setup.callref, setup.sdp);
    AddHears(s, NewMnccCall(s.lastId + 1, setup.callref, setup.sdp), MnccSide, setup.sdp, id, side);
  }

  lemma MscHears(s: State, callref: nat, msg: MnccMsg, id: nat, side: Side)
    requires id != NO_CALL
    ensures Kept(OnFromMsc(s, callref, msg), id, side) ==
            After(Kept(s, id, side), Brings(s, FromMsc(callref, msg), id, side))
  {
    hide DigestOf, LastHeard, OnMncc, Act, Note;
    NoteIsQuiet(s, [TxSignal(RejReq, callref)]);
    var i := FindRef(s.calls, callref);
    if i < |s.calls| {
      var sl := RefSlot(s.calls[i], callref);
      var y := OnMncc(At(s, i), sl, msg, s.conn == Ready);
      MessageIsHeard(At(s, i), sl, msg, s.conn == Ready);
      ActHears(s, i, y, MnccSide, if Stored(msg, false) then msg.sdp else "", id, side);
    }
  }

  lemma PbxHears(s: State, handle: Handle, ev: SipEvent, id: nat, side: Side)
    requires id != NO_CALL
    ensures Kept(OnFromPbx(s, handle, ev), id, side) ==
            After(Kept(s, id, side), Brings(s, FromPbx(handle, ev), id, side))
  {
    hide DigestOf, LastHeard, OnSip, Act;
    var i := FindHandle(s.calls, handle);
    if i < |s.calls| {
      var sl := HandleSlot(s.calls[i], handle);
      EventIsHeard(At(s, i), sl, ev, s.conn == Ready);
      ActHears(s, i, OnSip(At(s, i), sl, ev, s.conn == Ready), SipSide, SdpOf(ev), id, side);
    }
  }

  lemma TimerIsQuiet(s: State, id: nat)
    ensures Quietly(s, OnTimer(s, id))
  {
    hide DigestOf, LastHeard, ReleaseIfAny, Act;
    var i := FindId(s.calls, id);
    if i < |s.calls| && s.calls[i].HasMncc() {
      var sl := MnccSlot(s.calls[i]);
      ReleaseIsSilent(At(s, i), sl.Other(), s.conn == Ready);
      ActIsQuiet(s, i, OnTimeout(At(s, i), sl, s.conn == Ready));
    }
  }

  lemma RouteIsSilent(x: Ctx)
    requires x.Get(Initial).Sip?
    ensures Silent(x, RouteToMncc(x))
  {
    hide DigestOf;
  }

  // Routing the new call, or failing to, makes nothing heard.
  lemma RoutingIsQuiet(s: State, y: Ctx, writeOk: bool)
    requires TableInv(s) && |s.calls| > 0 && At(s, 0) == y && y.call.initial.Sip? && !y.call.HasMncc()
    ensures if s.fdOpen && writeOk then Quietly(s, Act(s, 0, RouteToMncc(y)))
            else |CloseConnection(s).calls| > 0 && Quietly(s, Act(CloseConnection(s), 0, ReleaseLeg(y, Initial, false)))
  {
    hide DigestOf, LastHeard, TableInv, RouteToMncc, ReleaseLeg, Act, CloseConnection;
    if s.fdOpen && writeOk {
      RouteIsSilent(y);
      ActIsQuiet(s, 0, RouteToMncc(y));
    } else {
      CloseIsQuiet(s);
      TableParts(s);
      CloseSparesHead(s, y);
      ReleaseIsSilent(y, Initial, false);
      ActIsQuiet(CloseConnection(s), 0, ReleaseLeg(y, Initial, false));
    }
  }

  lemma IncomingHears(s: State, offer: Offer, writeOk: bool, id: nat, side: Side)
    requires Inv(s) && FreshHandle(s, offer.handle) && id != NO_CALL
    ensures var e := Incoming(offer, writeOk);
            Kept(OnIncoming(s, offer, writeOk), id, side) == After(Kept(s, id, side), Brings(s, e, id, side))
  {
    hide DigestOf, LastHeard, TableInv, NewSipCall, RouteToMncc, ReleaseLeg, FreshHandle, Screened, Pick, CallInv, Act,
      Add, Note, CloseConnection;
    var accepted := offer.usersKnown && offer.gcrUsable;
    var y := NewSipCall(s.lastId + 1, offer.handle, offer.payload, accepted);
    NextIsNew(s);
    NoteIsQuiet(s, [TxReject(offer.handle, 406, None), Destroy(offer.handle)]);
    FreshIsSet(s, offer.handle);
    NewSipCallOk(s.lastId + 1, offer.handle, offer.payload, accepted);
    NewSipBegins(s.lastId + 1, offer.handle, offer.payload, accepted);
    var ok := accepted && Pick(offer.payload, NO_ADDR, 0, None).ok;
    AddHears(s, y, SipSide, if ok then Text(offer.payload) else "", id, side);
    if ok {
      AddKeeps(s, y);
      AddedFirst(s, y);
      RoutingIsQuiet(Add(s, y), y, writeOk);
    }
  }

  // An event makes a leg keep the SDP it brings to it, and no other.
  lemma StepHears(s: State, e: Event, id: nat, side: Side)
    requires Inv(s) && Allowed(s, e) && id != NO_CALL
    ensures Kept(Step(s, e), id, side) == After(Kept(s, id, side), Brings(s, e, id, side))
  {
    hide DigestOf, LastHeard, Inv, OnSetupInd, OnFromMsc, OnTimer, OnFromPbx, OnIncoming, CloseConnection, FreshHandle;
    match e
    case Reconnect(_) =>
    case Hello(_) => CloseIsQuiet(s);
    case BadData => CloseIsQuiet(s);
    case SetupInd(setup) => SetupHears(s, setup, id, side);
    case FromMsc(callref, msg) => MscHears(s, callref, msg, id, side);
    case Timeout(who) => TimerIsQuiet(s, who);
    case FromPbx(handle, ev) => PbxHears(s, handle, ev, id, side);
    case Incoming(offer, writeOk) => IncomingHears(s, offer, writeOk, id, side);
  }

  // ---------------------------------------------------------------- main results

  // The SDP a leg should hold after k events of a run: the last one an event brought to it, cut to
  // the buffer; "" when none did.
  ghost function LastTaken(ss: seq<State>, es: seq<Event>, k: nat, id: nat, side: Side): string
    requires |ss| == |es| + 1 && k <= |es|
  {
    if k == 0 then ""
    else After(LastTaken(ss, es, k - 1, id, side), Brings(ss[k - 1], es[k - 1], id, side))
  }

  lemma {:induction false} RunHears(ss: seq<State>, es: seq<Event>, k: nat, id: nat, side: Side)
    requires IsRun(ss, es) && k <= |es| && id != NO_CALL
    ensures Kept(ss[k], id, side) == LastTaken(ss, es, k, id, side)
  {
    hide Allowed, Step, Inv, Brings;
    if k > 0 {
      RunHears(ss, es, k - 1, id, side);
      RunsKeepInvariant(ss, es, k - 1);
      RunStep(ss, es, k - 1);
      StepHears(ss[k - 1], es[k - 1], id, side);
    }
  }

  function SideOf(leg: Leg): Side {
    if leg.Mncc? then MnccSide else SipSide
  }

  // After every run, what a leg stores is the last SDP that an event brought to it.
  lemma StoredSdpIsLastTaken(ss: seq<State>, es: seq<Event>, i: nat, sl: Slot)
    requires IsRun(ss, es) && i < |ss[|es|].calls| && !ss[|es|].calls[i].Get(sl).NoLeg?
    ensures var c := ss[|es|].calls[i];
            c.Get(sl).Common().rxSdp == LastTaken(ss, es, |es|, c.id, SideOf(c.Get(sl)))
  {
    hide Allowed, Step, LastTaken, Reachable, Brings;
    var s := ss[|es|];
    EndIsReachable(ss, es);
    StoredSdpIsHeard(s, i, sl);
    CallsOwnTheirLegs(s, i);
    RunHears(ss, es, |es|, s.calls[i].id, SideOf(s.calls[i].Get(sl)));
  }

  // Any message for an attached MNCC leg, expected or not: the leg stores the message's SDP, cut,
  // exactly if there is one and the message is of a kind and the leg in a state for which it is
  // looked at; otherwise the leg keeps what it had. The trace says so even when the message frees
  // the leg.
  lemma SdpIsTakenExactly(s: State, callref: nat, msg: MnccMsg, i: nat, sl: Slot)
    requires Reachable(s) && i < |s.calls| && HasRef(s.calls[i].Get(sl), callref)
    ensures var m, id, r := s.calls[i].Get(sl).m, s.calls[i].id, Step(s, FromMsc(callref, msg));
            var taken := msg.sdp != "" && Stored(msg, m.base.inRelease);
            && Kept(r, id, MnccSide) == (if taken then Cut(msg.sdp) else Kept(s, id, MnccSide))
            && forall c | c in r.calls && c.id == id && c.Get(sl).Mncc? ::
                 c.Get(sl).m.base.rxSdp == if taken then Cut(msg.sdp) else m.base.rxSdp
  {
    hide DigestOf, LastHeard, Reachable, TableInv, CallInv, Act, OnMncc, OnReconnect, OnHello, CloseConnection,
      OnSetupInd, OnTimer, OnFromPbx, OnIncoming, HeardBy;
    ReachableInv(s);
    ListedKeeps(s, i);
    MessageFindsLeg(s, callref, i, sl);
    MscHears(s, callref, msg, s.calls[i].id, MnccSide);
    if Refuses(s.calls[i].Get(sl).m, msg) {
      NoteLands(s, [TxSignal(RejReq, callref)], i);
    } else {
      MessageKeepsId(At(s, i), sl, msg, s.conn == Ready);
      ActOn(s, i, OnMncc(At(s, i), sl, msg, s.conn == Ready), i);
      StoredIsCut(At(s, i), sl);
      MessageIsStored(At(s, i), sl, msg, s.conn == Ready);
    }
  }

  lemma StoredIsCut(x: Ctx, sl: Slot)
    requires CallInv(x) && x.Get(sl).Mncc?
    ensures |x.Get(sl).m.base.rxSdp| <= SDP_CAPACITY
  {
    hide DigestOf;
  }

  // A message that is refused on a leg in release changes no call and no trace of a call.
  lemma RefusedMessageIsDropped(s: State, callref: nat, msg: MnccMsg, i: nat, sl: Slot)
    requires Inv(s) && i < |s.calls| && HasRef(s.calls[i].Get(sl), callref) && s.calls[i].Get(sl).m.base.inRelease
    requires msg.RtpCreate? || msg.RtpConnect?
    ensures var r := Step(s, FromMsc(callref, msg));
            r.calls == s.calls && forall id | id != NO_CALL :: TraceOf(r, id) == TraceOf(s, id)
  {
    hide DigestOf, Inv, OnReconnect, OnHello, CloseConnection, OnSetupInd, OnTimer, OnFromPbx, OnIncoming, OnMncc;
    MessageFindsLeg(s, callref, i, sl);
  }

  const LOST := RtpConnect(Addr(Inet, 2, 6000), 3, "v=1")

  // The stored SDP is thus not always the one most recently received: a run in which the mobile
  // hung up, and an RTP_CONNECT whose SDP the leg, still attached, does not take.
  lemma ReceivedSdpIsLost() returns (ss: seq<State>, es: seq<Event>)
    ensures IsRun(ss, es) && es == CALL_SETUP + CALL_RINGS + [CALL_CROSSES[0]]
    ensures Allowed(ss[|es|], FromMsc(CALLREF, LOST))
    ensures var r := Step(ss[|es|], FromMsc(CALLREF, LOST));
            |r.calls| == 1 && HasRef(r.calls[0].initial, CALLREF)
              && r.calls[0].initial.m.base.rxSdp == CREATED.sdp != LOST.sdp
  {
    hide DigestOf, Step, Inv, Reachable;
    var x;
    ss, es, x := CallIsCleared();
    var s := ss[|es|];
    RunsKeepInvariant(ss, es, |es|);
    RefusedMessageIsDropped(s, CALLREF, LOST, 0, Initial);
  }
}
