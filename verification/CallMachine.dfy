/** The bridge as a function: what one event does to one call and what it sends.
    Each function follows one handler or leg callback of src/mncc.c, src/sip.c or
    src/app.c to completion, including the callbacks into the other leg. A slot names the
    leg the handler was entered on; ready says whether the MNCC connection is READY. */
module CallMachine {
  import opened Domain
  import opened Sdp
  import opened Trace
  import CauseMap

  // ---------------------------------------------------------------- elementary effects

  function Send(x: Ctx, e: Entry): (y: Ctx)
    ensures DigestOf(y.log) == Advance(DigestOf(x.log), e)
  {
    DigestSnoc(x.log, e);
    Ctx(x.call, x.log + [e])
  }

  // call_leg_release: detach the leg.
  function Free(x: Ctx, sl: Slot): Ctx {
    x.Put(sl, NoLeg)
  }

  // call_leg_rx_sdp: keep the last non-empty SDP, cut to the buffer.
  function Store(b: Base, sdp: string): Base {
    if sdp == "" || sdp == b.rxSdp then b else b.(rxSdp := Cut(sdp), rxChanged := true)
  }

  function Hear(x: Ctx, sl: Slot, sdp: string): Ctx
    requires !x.Get(sl).NoLeg?
  {
    var leg := x.Get(sl);
    Send(x.Put(sl, leg.WithCommon(Store(leg.Common(), sdp))), Heard(if leg.Mncc? then MnccSide else SipSide, sdp))
  }

  function StartTimer(m: MLeg, response: Awaited): MLeg {
    m.(timer := true, wanted := response)
  }

  function StopTimer(m: MLeg, response: Awaited): MLeg {
    if m.wanted != response then m else m.(timer := false)
  }

  // app_media_name
  function MediaName(msgType: int): string {
    match msgType
    case 0x300 => "GSM"
    case 0x301 => "GSM-EFR"
    case 0x302 => "GSM-HR-08"
    case 0x303 => "AMR"
    case _ => "unknown"
  }

  // sdp_create_file: the legacy form also fixes the codec the SIP leg will look for.
  function BodyFor(other: Base, mode: Mode): Body {
    if other.rxSdp == "" then Compose(other.addr, other.payloadType, MediaName(other.payloadMsgType), mode)
    else Forward(other.rxSdp, mode)
  }

  function CodecFor(s: SLeg, other: Base): SLeg {
    if other.rxSdp == "" then s.(codec := Some(MediaName(other.payloadMsgType))) else s
  }

  function SendRtpConnect(x: Ctx, sl: Slot, from: Base): Ctx
    requires x.Get(sl).Mncc?
  {
    Send(x, TxRtpConnect(x.Get(sl).m.callref, from.addr, from.payloadType, from.rxSdp))
  }

  // ---------------------------------------------------------------- releasing a leg

  function MnccRelease(x: Ctx, sl: Slot, ready: bool): Ctx
    requires x.Get(sl).Mncc?
  {
    var m := x.Get(sl).m;
    if !ready then Free(x, sl)
    else if m.state != MInitial then StartRelease(x, sl, DiscReq, RelInd)
    else if m.dir == MO then Free(Send(x, TxSignal(RejReq, m.callref)), sl)
    else StartRelease(x, sl, RelReq, RelCnf)
  }

  // The release starts with a request, and the timer guards the answer.
  function StartRelease(x: Ctx, sl: Slot, clearing: Clearing, answer: Awaited): Ctx
    requires x.Get(sl).Mncc?
  {
    var m := x.Get(sl).m;
    Send(x.Put(sl, Mncc(StartTimer(m.(base := m.base.(inRelease := true)), answer))),
      TxClear(clearing, m.callref, m.base.cause))
  }

  // The handle is destroyed with the leg.
  function DropSip(x: Ctx, sl: Slot): Ctx
    requires x.Get(sl).Sip?
  {
    Free(Send(x, Destroy(x.Get(sl).s.handle)), sl)
  }

  function SipRelease(x: Ctx, sl: Slot): Ctx
    requires x.Get(sl).Sip?
  {
    var s := x.Get(sl).s;
    match s.state
    case SInitial => DropSip(x, sl)
    case SConfirmed =>
      if s.dir == MT then Send(x, TxCancel(s.handle))
      else
        var reject := TxReject(s.handle, CauseMap.CauseToStatus(s.base.cause), Some(CauseMap.ReasonText(s.base.cause)));
        DropSip(Send(x, reject), sl)
    case _ => Send(x, TxBye(s.handle))
  }

  function ReleaseLeg(x: Ctx, sl: Slot, ready: bool): Ctx
    requires !x.Get(sl).NoLeg?
  {
    var fault := Misfit(x.Get(sl).Common().ops.release, x.Get(sl));
    if fault.Some? then Send(x, Crash(fault.value))
    else if x.Get(sl).Mncc? then MnccRelease(x, sl, ready)
    else SipRelease(x, sl)
  }

  // Release the leg if it is there, after telling it the cause.
  function ReleaseWithCause(x: Ctx, sl: Slot, cause: int, ready: bool): Ctx {
    var leg := x.Get(sl);
    if leg.NoLeg? then x
    else ReleaseLeg(x.Put(sl, leg.WithCommon(leg.Common().(cause := cause))), sl, ready)
  }

  function ReleaseIfAny(x: Ctx, sl: Slot, ready: bool): Ctx {
    if x.Get(sl).NoLeg? then x else ReleaseLeg(x, sl, ready)
  }

  // ---------------------------------------------------------------- ringing and connecting

  function MnccRing(x: Ctx, sl: Slot): Ctx
    requires x.Get(sl).Mncc?
  {
    var x1 := Send(x, TxSignal(AlertReq, x.Get(sl).m.callref));
    var other := x.Get(sl.Other());
    if !other.NoLeg? && other.Common().addr.family != Unspec && other.Common().addr.port != 0
    then SendRtpConnect(x1, sl, other.Common())
    else x1
  }

  function RingLeg(x: Ctx, sl: Slot): Ctx
    requires !x.Get(sl).NoLeg?
  {
    var fault := Misfit(x.Get(sl).Common().ops.ring, x.Get(sl));
    if fault.Some? then Send(x, Crash(fault.value))
    else if x.Get(sl).Mncc? then MnccRing(x, sl)
    else Send(x, TxRinging(x.Get(sl).s.handle))
  }

  function MnccConnect(x: Ctx, sl: Slot): Ctx
    requires x.Get(sl).Mncc?
  {
    var m := x.Get(sl).m;
    var other := x.Get(sl.Other());
    if other.NoLeg? then Send(x, Crash(MissingPartner))
    else
      Send(SendRtpConnect(x, sl, other.Common()).Put(sl, Mncc(StartTimer(m, SetupComplInd))),
           TxSignal(SetupRsp, m.callref))
  }

  // Answer the INVITE on the SIP leg in the slot with the partner's SDP.
  function Answer(x: Ctx, sl: Slot, mode: Mode): Ctx
    requires x.Get(sl).Sip? && !x.Get(sl.Other()).NoLeg?
  {
    var other := x.Get(sl.Other()).Common();
    Send(x.Put(sl, Sip(CodecFor(x.Get(sl).s, other))), TxAnswer(x.Get(sl).s.handle, BodyFor(other, mode)))
  }

  function SipConnect(x: Ctx, sl: Slot): Ctx
    requires x.Get(sl).Sip?
  {
    if x.Get(sl.Other()).NoLeg? then SipRelease(x, sl)
    else Answer(x.Put(sl, Sip(x.Get(sl).s.(state := SConnected))), sl, SendRecv)
  }

  function ConnectLeg(x: Ctx, sl: Slot): Ctx
    requires !x.Get(sl).NoLeg?
  {
    var fault := Misfit(x.Get(sl).Common().ops.connect, x.Get(sl));
    if fault.Some? then Send(x, Crash(fault.value))
    else if x.Get(sl).Mncc? then MnccConnect(x, sl)
    else SipConnect(x, sl)
  }

  // ---------------------------------------------------------------- hold and retrieve

  // sip_hold_call and sip_retrieve_call: a re-INVITE with a new mode.
  function SipModify(x: Ctx, sl: Slot, mode: Mode, state: SipState): Ctx
    requires x.Get(sl).Sip?
  {
    var s := x.Get(sl).s;
    var other := x.Get(sl.Other());
    if other.NoLeg? then SipRelease(x, sl)
    else
      Send(x.Put(sl, Sip(CodecFor(s, other.Common()).(state := state))),
        TxReinvite(s.handle, BodyFor(other.Common(), mode)))
  }

  function HoldLeg(x: Ctx, sl: Slot): Ctx
    requires !x.Get(sl).NoLeg?
  {
    var fault := Misfit(x.Get(sl).Common().ops.hold, x.Get(sl));
    if fault.Some? then Send(x, Crash(fault.value))
    else if x.Get(sl).Sip? then SipModify(x, sl, SendOnly, SHold)
    else Send(x, Crash(WrongLegType))
  }

  function RetrieveLeg(x: Ctx, sl: Slot): Ctx
    requires !x.Get(sl).NoLeg?
  {
    var fault := Misfit(x.Get(sl).Common().ops.retrieve, x.Get(sl));
    if fault.Some? then Send(x, Crash(fault.value))
    else if x.Get(sl).Sip? then SipModify(x, sl, SendRecv, SConnected)
    else Send(x, Crash(WrongLegType))
  }

  // Retrieving gives up the leg only when its partner is gone.
  lemma RetrieveKeepsLeg(x: Ctx, sl: Slot)
    requires !x.Get(sl).NoLeg? && !x.Get(sl.Other()).NoLeg?
    ensures !RetrieveLeg(x, sl).Get(sl).NoLeg?
  {
    hide DigestOf;
  }

  // ---------------------------------------------------------------- routing

  // sip_create_remote_leg and send_invite. A null handle is the stack's refusal, upon
  // which route_to_sip releases the initial leg.
  function RouteToSip(x: Ctx, handle: Handle, ready: bool): Ctx
    requires !x.Get(Initial).NoLeg?
  {
    if handle == NULL_HANDLE then ReleaseLeg(x, Initial, ready)
    else
      var other := x.Get(Initial).Common();
      var s := CodecFor(SLeg(NEW_BASE.(ops := SIP_MT_OPS), SInitial, MT, handle, None), other);
      Send(Send(x, Bind(handle)), TxInvite(handle, BodyFor(other, SendRecv))).Put(Remote, Sip(s))
  }

  // mncc_create_remote_leg when the write succeeds: SETUP_REQ forwards and consumes the
  // SDP of the INVITE.
  function RouteToMncc(x: Ctx): Ctx
    requires x.Get(Initial).Sip?
  {
    var s := x.Get(Initial).s;
    var m := MLeg(NEW_BASE.(ops := MNCC_OPS), MInitial, MT, x.call.id, false, NoResponse);
    Send(Offered(x), TxSetupReq(x.call.id, if s.base.rxChanged then s.base.rxSdp else "")).Put(Remote, Mncc(m))
  }

  // The SDP of the INVITE counts as forwarded before SETUP_REQ is written.
  function Offered(x: Ctx): Ctx
    requires x.Get(Initial).Sip?
  {
    var s := x.Get(Initial).s;
    x.Put(Initial, Sip(s.(base := s.base.(rxChanged := false))))
  }

  // ---------------------------------------------------------------- MNCC messages

  datatype MnccMsg =
    | RtpCreate(addr: Addr, payloadType: nat, payloadMsgType: int, sdp: string, handle: Handle)
    | RtpConnect(addr: Addr, payloadType: nat, sdp: string)
    | DiscInd(cause: int, sdp: string)
    | RelIndMsg(cause: int, sdp: string)
    | RejInd(cause: int, sdp: string)
    | RelCnfMsg(sdp: string)
    | SetupComplIndMsg(sdp: string)
    | SetupCnf(sdp: string)
    | CallConfInd(sdp: string)
    | AlertInd(sdp: string)
    | HoldInd(sdp: string)
    | RetrieveInd(sdp: string)
    | StartDtmf(key: int, sdp: string)
    | StopDtmf(key: int, sdp: string)

  function OnRtpCreate(x: Ctx, sl: Slot, msg: MnccMsg, ready: bool): Ctx
    requires x.Get(sl).Mncc? && msg.RtpCreate?
  {
    var x1 := TakeMedia(x, sl, msg);
    if x1.Get(sl).m.dir == MO then ContinueMo(x1, sl, msg.handle, ready) else ContinueMt(x1, sl)
  }

  // The MSC's end of the media: where it is and what it carries.
  function TakeMedia(x: Ctx, sl: Slot, msg: MnccMsg): (y: Ctx)
    requires x.Get(sl).Mncc? && msg.RtpCreate?
    ensures y.Get(sl).Mncc?
  {
    var x1 := Hear(Created(x, sl, msg), sl, msg.sdp);
    x1.Put(sl, Mncc(StopTimer(x1.Get(sl).m, RtpCreateRsp)))
  }

  function Created(x: Ctx, sl: Slot, msg: MnccMsg): (y: Ctx)
    requires x.Get(sl).Mncc? && msg.RtpCreate?
    ensures y.Get(sl).Mncc?
  {
    var m := x.Get(sl).m;
    var media := m.base.(addr := msg.addr, payloadType := msg.payloadType, payloadMsgType := msg.payloadMsgType);
    x.Put(sl, Mncc(m.(base := media)))
  }

  function ContinueMo(x: Ctx, sl: Slot, handle: Handle, ready: bool): Ctx
    requires x.Get(sl).Mncc?
  {
    var x1 := Proceed(x, sl);
    if x1.Get(Initial).NoLeg? then Send(x1, Crash(MissingPartner)) else RouteToSip(x1, handle, ready)
  }

  function Proceed(x: Ctx, sl: Slot): Ctx
    requires x.Get(sl).Mncc?
  {
    var m := x.Get(sl).m;
    Send(x, TxSignal(CallProcReq, m.callref)).Put(sl, Mncc(m.(state := MProceeding)))
  }

  function ContinueMt(x: Ctx, sl: Slot): Ctx
    requires x.Get(sl).Mncc?
  {
    var other := x.Get(sl.Other());
    if other.NoLeg? then x
    else x.Put(sl.Other(), other.WithCommon(other.Common().(payloadType := x.Get(sl).m.base.payloadType)))
  }

  function OnRtpConnect(x: Ctx, sl: Slot, msg: MnccMsg, ready: bool): Ctx
    requires x.Get(sl).Mncc? && msg.RtpConnect?
  {
    var x1 := Hear(x, sl, msg.sdp);
    if msg.addr.family != Unspec || msg.addr.port != 0 || msg.payloadType != 0 then x1
    else ReleaseIfAny(ReleaseIfAny(x1, sl.Other(), ready), sl, ready)
  }

  function OnDiscInd(x: Ctx, sl: Slot, cause: int, ready: bool): Ctx
    requires x.Get(sl).Mncc?
  {
    ReleaseWithCause(StartRelease(x, sl, RelReq, RelCnf), sl.Other(), cause, ready)
  }

  function OnRelInd(x: Ctx, sl: Slot, cause: int, ready: bool): Ctx
    requires x.Get(sl).Mncc?
  {
    Free(if x.Get(sl).m.base.inRelease then x else ReleaseWithCause(x, sl.Other(), cause, ready), sl)
  }

  function OnRejInd(x: Ctx, sl: Slot, cause: int, ready: bool): Ctx
    requires x.Get(sl).Mncc?
  {
    Free(ReleaseWithCause(x, sl.Other(), cause, ready), sl)
  }

  function OnSetupComplInd(x: Ctx, sl: Slot, sdp: string): Ctx
    requires x.Get(sl).Mncc?
  {
    var x1 := Hear(x, sl, sdp);
    x1.Put(sl, Mncc(StopTimer(x1.Get(sl).m, SetupComplInd).(state := MConnected)))
  }

  function OnSetupCnf(x: Ctx, sl: Slot, sdp: string, ready: bool): Ctx
    requires x.Get(sl).Mncc?
  {
    FinishSetup(Hear(x, sl, sdp), sl, ready)
  }

  function FinishSetup(x: Ctx, sl: Slot, ready: bool): Ctx
    requires x.Get(sl).Mncc?
  {
    if x.Get(sl.Other()).NoLeg? then MnccRelease(x, sl, ready) else ConnectLeg(CompleteSetup(x, sl), sl.Other())
  }

  // The MSC is told where the media is and that the setup is complete.
  function CompleteSetup(x: Ctx, sl: Slot): Ctx
    requires x.Get(sl).Mncc? && !x.Get(sl.Other()).NoLeg?
  {
    var x1 := SendRtpConnect(x, sl, x.Get(sl.Other()).Common());
    var m := x1.Get(sl).m;
    Send(x1.Put(sl, Mncc(m.(state := MConnected))), TxSignal(SetupComplReq, m.callref))
  }

  // RTP_CREATE forwards and consumes an SDP newly received on the other leg.
  function OnCallConfInd(x: Ctx, sl: Slot, sdp: string): Ctx
    requires x.Get(sl).Mncc?
  {
    RequestRtp(Hear(x, sl, sdp), sl)
  }

  function RequestRtp(x: Ctx, sl: Slot): Ctx
    requires x.Get(sl).Mncc?
  {
    var m := x.Get(sl).m;
    Send(ConsumeSdp(x, sl.Other()).Put(sl, Mncc(StartTimer(m, RtpCreateRsp))),
         TxRtpCreate(m.callref, NewSdp(x.Get(sl.Other()))))
  }

  // The SDP of a leg that was not forwarded yet, or none.
  function NewSdp(leg: Leg): string {
    if !leg.NoLeg? && leg.Common().rxChanged then leg.Common().rxSdp else ""
  }

  function ConsumeSdp(x: Ctx, sl: Slot): Ctx {
    var leg := x.Get(sl);
    if NewSdp(leg) == "" then x else x.Put(sl, leg.WithCommon(leg.Common().(rxChanged := false)))
  }

  function OnAlertInd(x: Ctx, sl: Slot, sdp: string, ready: bool): Ctx
    requires x.Get(sl).Mncc?
  {
    var x1 := Hear(x, sl, sdp);
    if x1.Get(sl.Other()).NoLeg? then MnccRelease(x1, sl, ready) else RingLeg(x1, sl.Other())
  }

  function OnHoldInd(x: Ctx, sl: Slot): Ctx
    requires x.Get(sl).Mncc?
  {
    var m := x.Get(sl).m;
    if x.Get(sl.Other()).NoLeg? then Send(x, TxSignal(HoldRej, m.callref))
    else ConfirmHold(HoldLeg(x, sl.Other()), sl)
  }

  function ConfirmHold(x: Ctx, sl: Slot): Ctx
    requires x.Get(sl).Mncc?
  {
    var m := x.Get(sl).m;
    Send(x, TxSignal(HoldCnf, m.callref)).Put(sl, Mncc(m.(state := MHold)))
  }

  function OnRetrieveInd(x: Ctx, sl: Slot, ready: bool): Ctx
    requires x.Get(sl).Mncc?
  {
    var m := x.Get(sl).m;
    if x.Get(sl.Other()).NoLeg? then MnccRelease(Send(x, TxSignal(RetrieveCnf, m.callref)), sl, ready)
    else Resume(RetrieveLeg(x, sl.Other()), sl)
  }

  // The MSC is told that the call goes on and, again, where the media is.
  function Resume(x: Ctx, sl: Slot): Ctx
    requires x.Get(sl).Mncc?
  {
    var m := x.Get(sl).m;
    var x1 := Send(x, TxSignal(RetrieveCnf, m.callref)).Put(sl, Mncc(m.(state := MConnected)));
    if x1.Get(sl.Other()).NoLeg? then x1 else SendRtpConnect(x1, sl, x1.Get(sl.Other()).Common())
  }

  // A key pressed by the mobile is relayed as INFO to a SIP leg, whose SDP stays as it was.
  function DtmfLeg(x: Ctx, sl: Slot, key: int): Ctx
    requires !x.Get(sl).NoLeg?
  {
    var fault := Misfit(x.Get(sl).Common().ops.dtmf, x.Get(sl));
    if fault.Some? then Send(x, Crash(fault.value))
    else if x.Get(sl).Sip? then Send(x, TxInfo(x.Get(sl).s.handle, key))
    else Send(x, Crash(WrongLegType))
  }

  function OnStartDtmf(x: Ctx, sl: Slot, key: int, sdp: string): Ctx
    requires x.Get(sl).Mncc?
  {
    AnswerKey(RelayKey(Hear(x, sl, sdp), sl.Other(), key), x.Get(sl).m.callref, StartDtmfRsp, key)
  }

  function RelayKey(x: Ctx, sl: Slot, key: int): Ctx {
    if !x.Get(sl).NoLeg? && x.Get(sl).Common().ops.dtmf != Unset then DtmfLeg(x, sl, key) else x
  }

  function OnStopDtmf(x: Ctx, sl: Slot, key: int, sdp: string): Ctx
    requires x.Get(sl).Mncc?
  {
    AnswerKey(Hear(x, sl, sdp), x.Get(sl).m.callref, StopDtmfRsp, key)
  }

  function AnswerKey(x: Ctx, callref: nat, answer: KeypadAnswer, key: int): Ctx {
    Send(x, TxKeypad(answer, callref, key))
  }

  function OnMncc(x: Ctx, sl: Slot, msg: MnccMsg, ready: bool): Ctx
    requires x.Get(sl).Mncc?
  {
    match msg
    case RtpCreate(_, _, _, _, _) => OnRtpCreate(x, sl, msg, ready)
    case RtpConnect(_, _, _) => OnRtpConnect(x, sl, msg, ready)
    case DiscInd(cause, _) => OnDiscInd(x, sl, cause, ready)
    case RelIndMsg(cause, _) => OnRelInd(x, sl, cause, ready)
    case RejInd(cause, _) => OnRejInd(x, sl, cause, ready)
    case RelCnfMsg(_) => Free(x, sl)
    case SetupComplIndMsg(sdp) => OnSetupComplInd(x, sl, sdp)
    case SetupCnf(sdp) => OnSetupCnf(x, sl, sdp, ready)
    case CallConfInd(sdp) => OnCallConfInd(x, sl, sdp)
    case AlertInd(sdp) => OnAlertInd(x, sl, sdp, ready)
    case HoldInd(_) => OnHoldInd(x, sl)
    case RetrieveInd(_) => OnRetrieveInd(x, sl, ready)
    case StartDtmf(key, sdp) => OnStartDtmf(x, sl, key, sdp)
    case StopDtmf(key, sdp) => OnStopDtmf(x, sl, key, sdp)
  }

  // cmd_timeout: the awaited response never came.
  function OnTimeout(x: Ctx, sl: Slot, ready: bool): Ctx
    requires x.Get(sl).Mncc?
  {
    Free(ReleaseIfAny(x, sl.Other(), ready), sl)
  }

  // app_mncc_disconnected on a call that has an MNCC leg.
  function OnDisconnect(x: Ctx): Ctx {
    var x1 := ReleaseIfAny(x, Initial, false);
    if x.Get(Remote).NoLeg? then x1 else ReleaseIfAny(x1, Remote, false)
  }

  // ---------------------------------------------------------------- SIP events

  datatype SipEvent =
    | InviteResponse(status: int, payload: Payload)   // nua_r_invite
    | ByeResponse                                     // nua_r_bye
    | CancelResponse                                  // nua_r_cancel
    | GotBye                                          // nua_i_bye
    | GotCancel                                       // nua_i_cancel
    | GotAck(payload: Payload)                        // nua_i_ack
    | GotReinvite(payload: Payload)                   // nua_i_invite on a known handle

  function Placed(s: SLeg, p: Picked): SLeg {
    s.(base := s.base.(addr := p.addr, payloadType := p.payloadType))
  }

  function OnProgress(x: Ctx, sl: Slot, payload: Payload): Ctx
    requires x.Get(sl).Sip?
  {
    if x.Get(sl.Other()).NoLeg? then x
    else
      var s := x.Get(sl).s;
      RingLeg(x.Put(sl, Sip(Placed(s, Pick(payload, s.base.addr, s.base.payloadType, s.codec)))), sl.Other())
  }

  function OnAccept(x: Ctx, sl: Slot, payload: Payload, ready: bool): Ctx
    requires x.Get(sl).Sip?
  {
    var s := x.Get(sl).s;
    if x.Get(sl.Other()).NoLeg? then Send(x, TxCancel(s.handle))
    else
      var p := Pick(payload, s.base.addr, s.base.payloadType, s.codec);
      var x1 := x.Put(sl, Sip(Placed(s, p)));
      if p.ok then AcceptAnswer(x1, sl) else RefuseAnswer(x1, sl, ready)
  }

  function AcceptAnswer(x: Ctx, sl: Slot): Ctx
    requires x.Get(sl).Sip? && !x.Get(sl.Other()).NoLeg?
  {
    var s := x.Get(sl).s;
    Send(ConnectLeg(x.Put(sl, Sip(s.(state := SConnected))), sl.Other()), TxAck(s.handle))
  }

  function RefuseAnswer(x: Ctx, sl: Slot, ready: bool): Ctx
    requires x.Get(sl).Sip? && !x.Get(sl.Other()).NoLeg?
  {
    ReleaseLeg(Send(x, TxCancel(x.Get(sl).s.handle)), sl.Other(), ready)
  }

  function OnInviteResponse(x: Ctx, sl: Slot, status: int, payload: Payload, ready: bool): Ctx
    requires x.Get(sl).Sip?
  {
    OnStatus(Confirm(x, sl, Text(payload)), sl, status, payload, ready)
  }

  function OnStatus(x: Ctx, sl: Slot, status: int, payload: Payload, ready: bool): Ctx
    requires x.Get(sl).Sip?
  {
    var s := x.Get(sl).s;
    if status == 180 || status == 183 then OnProgress(x, sl, payload)
    else if status == 200 then
      if s.state == SConnected || s.state == SHold then Send(x, TxAck(s.handle))
      else OnAccept(x, sl, payload, ready)
    else if status >= 300 then
      ReleaseWithCause(DropSip(Send(x, TxCancel(s.handle)), sl), sl.Other(), CauseMap.StatusToCause(status), ready)
    else x
  }

  // The first response of any kind confirms the dialogue.
  function Confirm(x: Ctx, sl: Slot, sdp: string): (y: Ctx)
    requires x.Get(sl).Sip?
    ensures y.Get(sl).Sip?
  {
    var x1 := Hear(x, sl, sdp);
    var s := x1.Get(sl).s;
    if s.state == SInitial then x1.Put(sl, Sip(s.(state := SConfirmed))) else x1
  }

  // update_rtp, entered on a leg of either kind, forwards the SIP leg's address to the MNCC leg.
  function UpdateRtp(x: Ctx, sl: Slot, ready: bool): Ctx
    requires !x.Get(sl).NoLeg?
  {
    var leg, other := x.Get(sl), x.Get(sl.Other());
    if other.NoLeg? then ReleaseLeg(x, sl, ready)
    else if leg.Mncc? then SendRtpConnect(x, sl, other.Common())
    else if other.Mncc? then SendRtpConnect(x, sl.Other(), leg.Common())
    else Send(x, Crash(WrongLegType))
  }

  function OnReinvite(x: Ctx, sl: Slot, payload: Payload, ready: bool): Ctx
    requires x.Get(sl).Sip?
  {
    if x.Get(sl.Other()).NoLeg? then SipRelease(x, sl)
    else if MediaMode(payload).None? then Answer(x, sl, SendRecv)
    else
      OnMode(Hear(x, sl, Text(payload)), sl, MediaMode(payload).value, payload, ready)
  }

  function OnMode(x: Ctx, sl: Slot, mode: Mode, payload: Payload, ready: bool): Ctx
    requires x.Get(sl).Sip? && !x.Get(sl.Other()).NoLeg?
  {
    if mode == SendOnly then Answer(x, sl, RecvOnly) else Renegotiate(x, sl, payload, ready)
  }

  // The PBX may move its end of the media; the MSC is told if it did. The callback is that of the
  // other leg, but is entered on the leg in the remote slot.
  function Renegotiate(x: Ctx, sl: Slot, payload: Payload, ready: bool): Ctx
    requires x.Get(sl).Sip? && !x.Get(sl.Other()).NoLeg?
  {
    var s := x.Get(sl).s;
    var p := Pick(payload, s.base.addr, s.base.payloadType, None);
    var x1 := x.Put(sl, Sip(Placed(s, p)));
    if !p.ok then DropSip(Send(x1, TxReject(s.handle, 406, None)), sl)
    else
      Resettle(x1, sl, p.addr != s.base.addr && x.Get(sl.Other()).Common().ops.updateRtp != Unset, ready)
  }

  function Resettle(x: Ctx, sl: Slot, moved: bool, ready: bool): Ctx
    requires x.Get(sl).Sip? && !x.Get(sl.Other()).NoLeg?
  {
    Answer(if moved then UpdateRtp(x, Remote, ready) else x, sl, SendRecv)
  }

  function OnSip(x: Ctx, sl: Slot, ev: SipEvent, ready: bool): Ctx
    requires x.Get(sl).Sip?
  {
    match ev
    case InviteResponse(status, payload) => OnInviteResponse(x, sl, status, payload, ready)
    case ByeResponse => DropSip(x, sl)
    case CancelResponse => DropSip(x, sl)
    case GotBye => ReleaseIfAny(DropSip(x, sl), sl.Other(), ready)
    case GotCancel => ReleaseIfAny(DropSip(x, sl), sl.Other(), ready)
    case GotAck(payload) => if payload.NoPayload? then x else OnReinvite(Hear(x, sl, Text(payload)), sl, payload, ready)
    case GotReinvite(payload) => OnReinvite(Hear(x, sl, Text(payload)), sl, payload, ready)
  }

  // ---------------------------------------------------------------- new calls

  // check_setup after screening: a call started by the MSC.
  function NewMnccCall(id: nat, callref: nat, sdp: string): Ctx {
    var m := MLeg(NEW_BASE.(ops := MNCC_OPS), MInitial, MO, callref, false, NoResponse);
    RequestRtp(Hear(Ctx(CallV(id, Mncc(m), NoLeg), []), Initial, sdp), Initial)
  }

  // An INVITE is turned down before its leg got the handle.
  function Decline(x: Ctx, handle: Handle): Ctx {
    Send(Send(x, TxReject(handle, 406, None)), Destroy(handle))
  }

  // The leg gets its callbacks and its handle.
  function Adopt(x: Ctx, handle: Handle, sdp: string): Ctx
    requires x.Get(Initial).Sip?
  {
    var s := x.Get(Initial).s;
    Hear(Send(x.Put(Initial, Sip(s.(base := s.base.(ops := SIP_MO_OPS), handle := handle))), Bind(handle)), Initial,
      sdp)
  }

  function Admit(x: Ctx, handle: Handle, payload: Payload): Ctx
    requires x.Get(Initial).Sip?
  {
    var s := x.Get(Initial).s;
    var p := Pick(payload, s.base.addr, s.base.payloadType, None);
    var x1 := x.Put(Initial, Sip(Placed(s.(state := SConfirmed), p)));
    if p.ok then Adopt(x1, handle, Text(payload)) else Free(Decline(x1, handle), Initial)
  }

  // new_call up to routing: a call started by the PBX. The leg stays bare when the early
  // checks fail, and is freed when the offer has no usable media.
  function NewSipCall(id: nat, handle: Handle, payload: Payload, accepted: bool): (y: Ctx)
    ensures y.call.remote.NoLeg? && !y.call.initial.Mncc?
  {
    var x := Ctx(CallV(id, Sip(SLeg(NEW_BASE, SInitial, MO, NULL_HANDLE, None)), NoLeg), []);
    if accepted then Admit(x, handle, payload) else Decline(x, handle)
  }
}
