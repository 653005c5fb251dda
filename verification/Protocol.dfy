/** The bridge as a table: for each event on a call, what is said on its behalf, in order, and the
    legs it is left with, read off the two legs without callbacks. In every state of every run the
    handlers with their callbacks into the other leg do just that. */
module Protocol {
  import opened Domain
  import opened Sdp
  import opened Trace
  import opened CallMachine
  import opened CallInvariant
  import opened Bridge
  import opened Lifecycle
  import opened CallList
  import opened Locality
  import CauseMap

  // ---------------------------------------------------------------- turns

  // What is said, and the legs afterwards.
  datatype Turn = Turn(said: seq<Entry>, mncc: Option<MLeg>, sip: Option<SLeg>)

  function MLegOf(m: Option<MLeg>): Leg {
    match m case None => NoLeg case Some(leg) => Mncc(leg)
  }

  function SLegOf(s: Option<SLeg>): Leg {
    match s case None => NoLeg case Some(leg) => Sip(leg)
  }

  // The call has its MNCC leg in the slot or none, and beside it a SIP leg or none; their callbacks
  // are those of their kind and direction.
  predicate Cast(c: CallV, sl: Slot, m: Option<MLeg>, s: Option<SLeg>) {
    && c.Get(sl) == MLegOf(m) && c.Get(sl.Other()) == SLegOf(s)
    && (m.Some? ==> m.value.base.ops == MNCC_OPS && m.value.dir == if sl == Initial then MO else MT)
    && (m.Some? && s.Some? ==> s.value.base.ops == if sl == Initial then SIP_MT_OPS else SIP_MO_OPS)
  }

  predicate Plays(x: Ctx, y: Ctx, sl: Slot, t: Turn) {
    y == Ctx(x.call.Put(sl, MLegOf(t.mncc)).Put(sl.Other(), SLegOf(t.sip)), x.log + t.said)
  }

  // ---------------------------------------------------------------- releasing

  // How a SIP leg is released: given up, cancelled, rejected with its cause, or told BYE.
  function Farewell(s: SLeg): (r: seq<Entry>)
    ensures forall a | a in r :: a.Destroy? || a.TxCancel? || a.TxReject? || a.TxBye?
  {
    match s.state
    case SInitial => [Destroy(s.handle)]
    case SConfirmed =>
      if s.dir == MT then [TxCancel(s.handle)]
      else [TxReject(s.handle, CauseMap.CauseToStatus(s.base.cause), Some(CauseMap.ReasonText(s.base.cause))),
            Destroy(s.handle)]
    case _ => [TxBye(s.handle)]
  }

  function Parted(s: SLeg): Option<SLeg> {
    if Lingers(s) then Some(s) else None
  }

  // How an MNCC leg is released.
  function Clear(m: MLeg, ready: bool): (r: seq<Entry>)
    ensures forall a | a in r :: a.TxClear? || a == TxSignal(RejReq, m.callref)
  {
    if !ready then []
    else if m.state != MInitial then [TxClear(DiscReq, m.callref, m.base.cause)]
    else if m.dir == MO then [TxSignal(RejReq, m.callref)]
    else [TxClear(RelReq, m.callref, m.base.cause)]
  }

  function BeingReleased(m: MLeg, answer: Awaited): MLeg {
    StartTimer(m.(base := m.base.(inRelease := true)), answer)
  }

  function Remains(m: MLeg, ready: bool): Option<MLeg> {
    if !ready then None
    else if m.state != MInitial then Some(BeingReleased(m, RelInd))
    else if m.dir == MO then None
    else Some(BeingReleased(m, RelCnf))
  }

  function SCause(s: SLeg, cause: int): SLeg {
    s.(base := s.base.(cause := cause))
  }

  function MCause(m: MLeg, cause: int): MLeg {
    m.(base := m.base.(cause := cause))
  }

  function FarewellOf(s: Option<SLeg>): seq<Entry> {
    if s.None? then [] else Farewell(s.value)
  }

  function PartedOf(s: Option<SLeg>): Option<SLeg> {
    if s.None? then None else Parted(s.value)
  }

  function Blamed(s: Option<SLeg>, cause: int): Option<SLeg> {
    if s.None? then None else Some(SCause(s.value, cause))
  }

  function ClearOf(m: Option<MLeg>, ready: bool): seq<Entry> {
    if m.None? then [] else Clear(m.value, ready)
  }

  function RemainsOf(m: Option<MLeg>, ready: bool): Option<MLeg> {
    if m.None? then None else Remains(m.value, ready)
  }

  // ---------------------------------------------------------------- MNCC messages

  function MHeard(m: MLeg, sdp: string): MLeg {
    m.(base := Store(m.base, sdp))
  }

  function SHeard(s: SLeg, sdp: string): SLeg {
    s.(base := Store(s.base, sdp))
  }

  // The MSC is told of the PBX's media.
  function TellMedia(m: MLeg, s: SLeg): Entry {
    TxRtpConnect(m.callref, s.base.addr, s.base.payloadType, s.base.rxSdp)
  }

  function TakesMedia(m: MLeg, msg: MnccMsg): MLeg
    requires msg.RtpCreate?
  {
    var base := m.base.(addr := msg.addr, payloadType := msg.payloadType, payloadMsgType := msg.payloadMsgType);
    StopTimer(MHeard(m.(base := base), msg.sdp), RtpCreateRsp)
  }

  function Dialled(m: MLeg, handle: Handle): SLeg {
    CodecFor(SLeg(NEW_BASE.(ops := SIP_MT_OPS), SInitial, MT, handle, None), m.base)
  }

  function TurnOfCreate(m: MLeg, s: Option<SLeg>, msg: MnccMsg, ready: bool): Turn
    requires msg.RtpCreate?
  {
    var m1 := TakesMedia(m, msg);
    var m2 := m1.(state := MProceeding);
    var heard := Heard(MnccSide, msg.sdp);
    if m.dir == MT then
      Turn([heard], Some(m1),
           if s.None? then None else Some(s.value.(base := s.value.base.(payloadType := msg.payloadType))))
    else if msg.handle == NULL_HANDLE then
      Turn([heard, TxSignal(CallProcReq, m.callref)] + Clear(m2, ready), Remains(m2, ready), None)
    else
      Turn([heard, TxSignal(CallProcReq, m.callref), Bind(msg.handle),
            TxInvite(msg.handle, BodyFor(m2.base, SendRecv))],
           Some(m2), Some(Dialled(m2, msg.handle)))
  }

  function TurnOfConnect(m: MLeg, s: Option<SLeg>, msg: MnccMsg, ready: bool): Turn
    requires msg.RtpConnect?
  {
    var m1 := MHeard(m, msg.sdp);
    if msg.addr.family != Unspec || msg.addr.port != 0 || msg.payloadType != 0 then
      Turn([Heard(MnccSide, msg.sdp)], Some(m1), s)
    else
      Turn([Heard(MnccSide, msg.sdp)] + FarewellOf(s) + Clear(m1, ready), Remains(m1, ready), PartedOf(s))
  }

  function TurnOfSetupCnf(m: MLeg, s: Option<SLeg>, sdp: string, ready: bool): Turn {
    var m1 := MHeard(m, sdp);
    if s.None? then Turn([Heard(MnccSide, sdp)] + Clear(m1, ready), Remains(m1, ready), None)
    else
      Turn([Heard(MnccSide, sdp), TellMedia(m, s.value), TxSignal(SetupComplReq, m.callref),
            TxAnswer(s.value.handle, BodyFor(m1.base, SendRecv))],
           Some(m1.(state := MConnected)), Some(CodecFor(s.value.(state := SConnected), m1.base)))
  }

  function Consumed(s: SLeg): SLeg {
    if NewSdp(Sip(s)) == "" then s else s.(base := s.base.(rxChanged := false))
  }

  function TurnOfConfirm(m: MLeg, s: Option<SLeg>, sdp: string): Turn {
    Turn([Heard(MnccSide, sdp), TxRtpCreate(m.callref, NewSdp(SLegOf(s)))],
         Some(StartTimer(MHeard(m, sdp), RtpCreateRsp)), if s.None? then None else Some(Consumed(s.value)))
  }

  function TurnOfAlert(m: MLeg, s: Option<SLeg>, sdp: string, ready: bool): Turn {
    var m1 := MHeard(m, sdp);
    if s.None? then Turn([Heard(MnccSide, sdp)] + Clear(m1, ready), Remains(m1, ready), None)
    else Turn([Heard(MnccSide, sdp), TxRinging(s.value.handle)], Some(m1), s)
  }

  function TurnOfHold(m: MLeg, s: Option<SLeg>): Turn {
    if s.None? then Turn([TxSignal(HoldRej, m.callref)], Some(m), None)
    else
      Turn([TxReinvite(s.value.handle, BodyFor(m.base, SendOnly)), TxSignal(HoldCnf, m.callref)],
           Some(m.(state := MHold)), Some(CodecFor(s.value, m.base).(state := SHold)))
  }

  function TurnOfRetrieve(m: MLeg, s: Option<SLeg>, ready: bool): Turn {
    var confirmed := TxSignal(RetrieveCnf, m.callref);
    if s.None? then Turn([confirmed] + Clear(m, ready), Remains(m, ready), None)
    else
      Turn([TxReinvite(s.value.handle, BodyFor(m.base, SendRecv)), confirmed, TellMedia(m, s.value)],
           Some(m.(state := MConnected)), Some(CodecFor(s.value, m.base).(state := SConnected)))
  }

  function TurnOfMessage(m: MLeg, s: Option<SLeg>, msg: MnccMsg, ready: bool): Turn {
    match msg
    case RtpCreate(_, _, _, _, _) => TurnOfCreate(m, s, msg, ready)
    case RtpConnect(_, _, _) => TurnOfConnect(m, s, msg, ready)
    case DiscInd(cause, _) =>
      Turn([TxClear(RelReq, m.callref, m.base.cause)] + FarewellOf(Blamed(s, cause)), Some(BeingReleased(m, RelCnf)),
           PartedOf(Blamed(s, cause)))
    case RelIndMsg(cause, _) =>
      if m.base.inRelease then Turn([], None, s)
      else Turn(FarewellOf(Blamed(s, cause)), None, PartedOf(Blamed(s, cause)))
    case RejInd(cause, _) => Turn(FarewellOf(Blamed(s, cause)), None, PartedOf(Blamed(s, cause)))
    case RelCnfMsg(_) => Turn([], None, s)
    case SetupComplIndMsg(sdp) =>
      Turn([Heard(MnccSide, sdp)], Some(StopTimer(MHeard(m, sdp), SetupComplInd).(state := MConnected)), s)
    case SetupCnf(sdp) => TurnOfSetupCnf(m, s, sdp, ready)
    case CallConfInd(sdp) => TurnOfConfirm(m, s, sdp)
    case AlertInd(sdp) => TurnOfAlert(m, s, sdp, ready)
    case HoldInd(_) => TurnOfHold(m, s)
    case RetrieveInd(_) => TurnOfRetrieve(m, s, ready)
    case StartDtmf(key, sdp) =>
      Turn([Heard(MnccSide, sdp)] + (if s.None? then [] else [TxInfo(s.value.handle, key)])
           + [TxKeypad(StartDtmfRsp, m.callref, key)], Some(MHeard(m, sdp)), s)
    case StopDtmf(key, sdp) =>
      Turn([Heard(MnccSide, sdp), TxKeypad(StopDtmfRsp, m.callref, key)], Some(MHeard(m, sdp)), s)
  }

  // The command timer expired, or the connection is lost.
  function TurnOfTimeout(s: Option<SLeg>): Turn {
    Turn(FarewellOf(s), None, PartedOf(s))
  }

  // ---------------------------------------------------------------- SIP events

  function Confirmed(s: SLeg): SLeg {
    if s.state == SInitial then s.(state := SConfirmed) else s
  }

  // 180 and 183.
  function TurnOfProgress(m: Option<MLeg>, s: SLeg, payload: Payload): Turn {
    if m.None? then Turn([], None, Some(s))
    else
      var s1 := Placed(s, Pick(payload, s.base.addr, s.base.payloadType, s.codec));
      var ringing := TxSignal(AlertReq, m.value.callref);
      Turn(if HasMedia(s1.base.addr) then [ringing, TellMedia(m.value, s1)] else [ringing], m, Some(s1))
  }

  // 200 to the first INVITE.
  function TurnOfAccept(m: Option<MLeg>, s: SLeg, payload: Payload, ready: bool): Turn {
    if m.None? then Turn([TxCancel(s.handle)], None, Some(s))
    else
      var p := Pick(payload, s.base.addr, s.base.payloadType, s.codec);
      var s1 := Placed(s, p);
      if p.ok then
        Turn([TellMedia(m.value, s1), TxSignal(SetupRsp, m.value.callref), TxAck(s.handle)],
             Some(StartTimer(m.value, SetupComplInd)), Some(s1.(state := SConnected)))
      else Turn([TxCancel(s.handle)] + Clear(m.value, ready), Remains(m.value, ready), Some(s1))
  }

  function MBlamed(m: Option<MLeg>, cause: int): Option<MLeg> {
    if m.None? then None else Some(MCause(m.value, cause))
  }

  function TurnOfStatus(m: Option<MLeg>, s: SLeg, status: int, payload: Payload, ready: bool): Turn {
    if status == 180 || status == 183 then TurnOfProgress(m, s, payload)
    else if status == 200 then
      if s.state == SConnected || s.state == SHold then Turn([TxAck(s.handle)], m, Some(s))
      else TurnOfAccept(m, s, payload, ready)
    else if status >= 300 then
      var m1 := MBlamed(m, CauseMap.StatusToCause(status));
      Turn([TxCancel(s.handle), Destroy(s.handle)] + ClearOf(m1, ready), RemainsOf(m1, ready), None)
    else Turn([], m, Some(s))
  }

  // A new offer on a call that has both legs.
  function TurnOfOffer(m: MLeg, s: SLeg, payload: Payload): Turn {
    var mode, text := MediaMode(payload), Text(payload);
    if mode.None? then
      Turn([TxAnswer(s.handle, BodyFor(m.base, SendRecv))], Some(m), Some(CodecFor(s, m.base)))
    else if mode.value == SendOnly then
      Turn([Heard(SipSide, text), TxAnswer(s.handle, BodyFor(m.base, RecvOnly))], Some(m),
           Some(CodecFor(SHeard(s, text), m.base)))
    else
      var p := Pick(payload, s.base.addr, s.base.payloadType, None);
      var s1 := Placed(SHeard(s, text), p);
      if !p.ok then Turn([Heard(SipSide, text), TxReject(s.handle, 406, None), Destroy(s.handle)], Some(m), None)
      else
        var answer := TxAnswer(s.handle, BodyFor(m.base, SendRecv));
        Turn(if p.addr != s.base.addr then [Heard(SipSide, text), TellMedia(m, s1), answer]
             else [Heard(SipSide, text), answer], Some(m), Some(CodecFor(s1, m.base)))
  }

  function TurnOfReinvite(m: Option<MLeg>, s: SLeg, payload: Payload): Turn {
    if m.None? then Turn(Farewell(s), None, Parted(s)) else TurnOfOffer(m.value, s, payload)
  }

  function Then(first: seq<Entry>, t: Turn): Turn {
    t.(said := first + t.said)
  }

  function TurnOfEvent(m: Option<MLeg>, s: SLeg, ev: SipEvent, ready: bool): Turn {
    match ev
    case InviteResponse(status, payload) =>
      Then([Heard(SipSide, Text(payload))],
           TurnOfStatus(m, Confirmed(SHeard(s, Text(payload))), status, payload, ready))
    case ByeResponse => Turn([Destroy(s.handle)], m, None)
    case CancelResponse => Turn([Destroy(s.handle)], m, None)
    case GotBye => Turn([Destroy(s.handle)] + ClearOf(m, ready), RemainsOf(m, ready), None)
    case GotCancel => Turn([Destroy(s.handle)] + ClearOf(m, ready), RemainsOf(m, ready), None)
    case GotAck(payload) =>
      if payload.NoPayload? then Turn([], m, Some(s))
      else Then([Heard(SipSide, Text(payload))], TurnOfReinvite(m, SHeard(s, Text(payload)), payload))
    case GotReinvite(payload) =>
      Then([Heard(SipSide, Text(payload))], TurnOfReinvite(m, SHeard(s, Text(payload)), payload))
  }

  // ---------------------------------------------------------------- the handlers play the table

  // Releasing, one leg at a time.
  lemma SipReleasePlays(x: Ctx, sl: Slot)
    requires x.Get(sl).Sip?
    ensures SipRelease(x, sl) == Ctx(x.call.Put(sl, SLegOf(Parted(x.Get(sl).s))), x.log + Farewell(x.Get(sl).s))
  {
    hide DigestOf, Advance, CauseMap.CauseToStatus, CauseMap.ReasonText;
  }

  lemma MnccReleasePlays(x: Ctx, sl: Slot, ready: bool)
    requires x.Get(sl).Mncc?
    ensures var m := x.Get(sl).m;
            MnccRelease(x, sl, ready) == Ctx(x.call.Put(sl, MLegOf(Remains(m, ready))), x.log + Clear(m, ready))
  {
    hide DigestOf, Advance;
  }

  lemma ReleaseIfAnyPlays(x: Ctx, sl: Slot, m: Option<MLeg>, s: Option<SLeg>, ready: bool)
    requires Cast(x.call, sl, m, s) && m.Some?
    ensures Plays(x, ReleaseIfAny(x, sl.Other(), ready), sl, Turn(FarewellOf(s), m, PartedOf(s)))
    ensures Plays(x, ReleaseIfAny(x, sl, ready), sl, Turn(Clear(m.value, ready), Remains(m.value, ready), s))
  {
    hide DigestOf, Advance, SipRelease, MnccRelease, Farewell, Parted, Clear, Remains;
    MnccReleasePlays(x, sl, ready);
    if s.Some? {
      SipReleasePlays(x, sl.Other());
    }
  }

  lemma ReleaseWithCausePlays(x: Ctx, sl: Slot, m: MLeg, s: Option<SLeg>, cause: int, ready: bool)
    requires Cast(x.call, sl, Some(m), s)
    ensures Plays(x, ReleaseWithCause(x, sl.Other(), cause, ready), sl,
                  Turn(FarewellOf(Blamed(s, cause)), Some(m), PartedOf(Blamed(s, cause))))
  {
    hide DigestOf, Advance, SipRelease, Farewell, Parted;
    if s.Some? {
      SipReleasePlays(x.Put(sl.Other(), Sip(SCause(s.value, cause))), sl.Other());
    }
  }

  // One turn after another.
  lemma PlaysOn(x: Ctx, y: Ctx, z: Ctx, sl: Slot, first: Turn, second: Turn)
    requires Plays(x, y, sl, first) && Plays(y, z, sl, second)
    ensures Plays(x, z, sl, Then(first.said, second))
  {
  }

  lemma HearPlays(x: Ctx, sl: Slot, m: MLeg, s: Option<SLeg>, sdp: string)
    requires Cast(x.call, sl, Some(m), s)
    ensures Plays(x, Hear(x, sl, sdp), sl, Turn([Heard(MnccSide, sdp)], Some(MHeard(m, sdp)), s))
    ensures Cast(Hear(x, sl, sdp).call, sl, Some(MHeard(m, sdp)), s)
  {
    hide DigestOf, Advance, Store;
    StoreKeeps(m.base, sdp);
  }

  // ---------------------------------------------------------------- MNCC messages

  lemma MediaPlays(x: Ctx, sl: Slot, m: MLeg, s: Option<SLeg>, msg: MnccMsg)
    requires Cast(x.call, sl, Some(m), s) && msg.RtpCreate?
    ensures var y := TakeMedia(x, sl, msg);
            && Plays(x, y, sl, Turn([Heard(MnccSide, msg.sdp)], Some(TakesMedia(m, msg)), s))
            && Cast(y.call, sl, Some(TakesMedia(m, msg)), s)
  {
    hide DigestOf, Advance, Store;
    StoreKeeps(Created(x, sl, msg).Get(sl).m.base, msg.sdp);
  }

  lemma CreatePlays(x: Ctx, sl: Slot, m: MLeg, s: Option<SLeg>, msg: MnccMsg, ready: bool)
    requires Cast(x.call, sl, Some(m), s) && msg.RtpCreate? && (m.dir == MO ==> s.None?)
    ensures Plays(x, OnRtpCreate(x, sl, msg, ready), sl, TurnOfCreate(m, s, msg, ready))
  {
    hide DigestOf, Advance, Store, TakeMedia, MnccRelease, BodyFor, CodecFor, Clear, Remains;
    MediaPlays(x, sl, m, s, msg);
    StoreKeeps(Created(x, sl, msg).Get(sl).m.base, msg.sdp);
    if m.dir == MO {
      MnccReleasePlays(Proceed(TakeMedia(x, sl, msg), sl), sl, ready);
    }
  }

  lemma ConnectPlays(x: Ctx, sl: Slot, m: MLeg, s: Option<SLeg>, msg: MnccMsg, ready: bool)
    requires Cast(x.call, sl, Some(m), s) && msg.RtpConnect?
    ensures Plays(x, OnRtpConnect(x, sl, msg, ready), sl, TurnOfConnect(m, s, msg, ready))
  {
    hide DigestOf, Advance, Hear, Store, ReleaseIfAny, FarewellOf, PartedOf, Clear, Remains;
    HearPlays(x, sl, m, s, msg.sdp);
    var x1, m1 := Hear(x, sl, msg.sdp), MHeard(m, msg.sdp);
    ReleaseIfAnyPlays(x1, sl, Some(m1), s, ready);
    var x2 := ReleaseIfAny(x1, sl.Other(), ready);
    CastParted(x1, sl, m1, s, x2);
    ReleaseIfAnyPlays(x2, sl, Some(m1), PartedOf(s), ready);
    PlaysOn(x, x1, x2, sl, Turn([Heard(MnccSide, msg.sdp)], Some(m1), s), Turn(FarewellOf(s), Some(m1), PartedOf(s)));
    PlaysOn(x, x2, ReleaseIfAny(x2, sl, ready), sl,
            Turn([Heard(MnccSide, msg.sdp)] + FarewellOf(s), Some(m1), PartedOf(s)),
            Turn(Clear(m1, ready), Remains(m1, ready), PartedOf(s)));
  }

  lemma CastParted(x: Ctx, sl: Slot, m: MLeg, s: Option<SLeg>, y: Ctx)
    requires Cast(x.call, sl, Some(m), s) && y.call == x.call.Put(sl, Mncc(m)).Put(sl.Other(), SLegOf(PartedOf(s)))
    ensures Cast(y.call, sl, Some(m), PartedOf(s))
  {
  }

  lemma ClearingPlays(x: Ctx, sl: Slot, m: MLeg, s: Option<SLeg>, msg: MnccMsg, ready: bool)
    requires Cast(x.call, sl, Some(m), s) && (msg.DiscInd? || msg.RelIndMsg? || msg.RejInd?)
    ensures Plays(x, OnMncc(x, sl, msg, ready), sl, TurnOfMessage(m, s, msg, ready))
  {
    hide DigestOf, Advance, ReleaseWithCause, FarewellOf, PartedOf, OnRtpCreate, OnRtpConnect, OnSetupComplInd,
      OnSetupCnf, OnCallConfInd, OnAlertInd, OnHoldInd, OnRetrieveInd, OnStartDtmf, OnStopDtmf;
    ReleaseWithCausePlays(x, sl, m, s, msg.cause, ready);
    var x1 := StartRelease(x, sl, RelReq, RelCnf);
    ReleaseWithCausePlays(x1, sl, BeingReleased(m, RelCnf), s, msg.cause, ready);
  }

  lemma SetupCnfPlays(x: Ctx, sl: Slot, m: MLeg, s: Option<SLeg>, sdp: string, ready: bool)
    requires Cast(x.call, sl, Some(m), s) && m.dir == MT
    ensures Plays(x, OnSetupCnf(x, sl, sdp, ready), sl, TurnOfSetupCnf(m, s, sdp, ready))
  {
    hide DigestOf, Advance, Hear, Store, MnccRelease, BodyFor, CodecFor, Clear, Remains;
    HearPlays(x, sl, m, s, sdp);
    MnccReleasePlays(Hear(x, sl, sdp), sl, ready);
    CodecKeepsMedia(m, s, sdp);
  }

  lemma CodecKeepsMedia(m: MLeg, s: Option<SLeg>, sdp: string)
    ensures MHeard(m, sdp).callref == m.callref
    ensures forall leg, b :: CodecFor(leg, b).base == leg.base && CodecFor(leg, b).handle == leg.handle
  {
  }

  lemma ConfirmationPlays(x: Ctx, sl: Slot, m: MLeg, s: Option<SLeg>, msg: MnccMsg, ready: bool)
    requires Cast(x.call, sl, Some(m), s) && (msg.SetupComplIndMsg? || msg.CallConfInd?)
    ensures Plays(x, OnMncc(x, sl, msg, ready), sl, TurnOfMessage(m, s, msg, ready))
  {
    hide DigestOf, Advance, Hear, Store, OnRtpCreate, OnRtpConnect, OnDiscInd, OnRelInd, OnRejInd,
      OnSetupCnf, OnAlertInd, OnHoldInd, OnRetrieveInd, OnStartDtmf, OnStopDtmf;
    HearPlays(x, sl, m, s, msg.sdp);
  }

  lemma KeyPlays(x: Ctx, sl: Slot, m: MLeg, s: Option<SLeg>, msg: MnccMsg, ready: bool)
    requires Cast(x.call, sl, Some(m), s) && (msg.StartDtmf? || msg.StopDtmf?)
    ensures Plays(x, OnMncc(x, sl, msg, ready), sl, TurnOfMessage(m, s, msg, ready))
  {
    hide DigestOf, Advance, Hear, Store, OnRtpCreate, OnRtpConnect, OnDiscInd, OnRelInd, OnRejInd,
      OnSetupComplInd, OnSetupCnf, OnCallConfInd, OnAlertInd, OnHoldInd, OnRetrieveInd;
    HearPlays(x, sl, m, s, msg.sdp);
  }

  lemma AlertPlays(x: Ctx, sl: Slot, m: MLeg, s: Option<SLeg>, sdp: string, ready: bool)
    requires Cast(x.call, sl, Some(m), s) && m.dir == MT
    ensures Plays(x, OnAlertInd(x, sl, sdp, ready), sl, TurnOfAlert(m, s, sdp, ready))
  {
    hide DigestOf, Advance, Hear, Store, MnccRelease, Clear, Remains;
    HearPlays(x, sl, m, s, sdp);
    MnccReleasePlays(Hear(x, sl, sdp), sl, ready);
  }

  lemma HoldPlays(x: Ctx, sl: Slot, m: MLeg, s: Option<SLeg>)
    requires Cast(x.call, sl, Some(m), s)
    ensures Plays(x, OnHoldInd(x, sl), sl, TurnOfHold(m, s))
  {
    hide DigestOf, Advance, BodyFor, CodecFor;
    CodecKeepsMedia(m, s, "");
  }

  lemma RetrievePlays(x: Ctx, sl: Slot, m: MLeg, s: Option<SLeg>, ready: bool)
    requires Cast(x.call, sl, Some(m), s)
    ensures Plays(x, OnRetrieveInd(x, sl, ready), sl, TurnOfRetrieve(m, s, ready))
  {
    hide DigestOf, Advance, BodyFor, CodecFor, MnccRelease, Clear, Remains;
    MnccReleasePlays(Send(x, TxSignal(RetrieveCnf, m.callref)), sl, ready);
    CodecKeepsMedia(m, s, "");
  }

  lemma MessagePlays(x: Ctx, sl: Slot, m: MLeg, s: Option<SLeg>, msg: MnccMsg, ready: bool)
    requires Cast(x.call, sl, Some(m), s) && MnccAllowed(m, msg)
    requires msg.RtpCreate? && m.dir == MO ==> s.None?
    ensures Plays(x, OnMncc(x, sl, msg, ready), sl, TurnOfMessage(m, s, msg, ready))
  {
    hide DigestOf, Advance, OnRtpCreate, OnRtpConnect, OnSetupCnf, OnCallConfInd, OnAlertInd, OnHoldInd,
      OnRetrieveInd, OnStartDtmf, OnStopDtmf, OnDiscInd, OnRelInd, OnRejInd, OnSetupComplInd, TurnOfCreate,
      TurnOfConnect, TurnOfSetupCnf, TurnOfConfirm, TurnOfAlert, TurnOfHold, TurnOfRetrieve;
    match msg
    case RtpCreate(_, _, _, _, _) => CreatePlays(x, sl, m, s, msg, ready);
    case RtpConnect(_, _, _) => ConnectPlays(x, sl, m, s, msg, ready);
    case DiscInd(_, _) => ClearingPlays(x, sl, m, s, msg, ready);
    case RelIndMsg(_, _) => ClearingPlays(x, sl, m, s, msg, ready);
    case RejInd(_, _) => ClearingPlays(x, sl, m, s, msg, ready);
    case RelCnfMsg(_) =>
    case SetupCnf(sdp) => SetupCnfPlays(x, sl, m, s, sdp, ready);
    case AlertInd(sdp) => AlertPlays(x, sl, m, s, sdp, ready);
    case HoldInd(_) => HoldPlays(x, sl, m, s);
    case RetrieveInd(_) => RetrievePlays(x, sl, m, s, ready);
    case StartDtmf(_, _) => KeyPlays(x, sl, m, s, msg, ready);
    case StopDtmf(_, _) => KeyPlays(x, sl, m, s, msg, ready);
    case _ => ConfirmationPlays(x, sl, m, s, msg, ready);
  }

  lemma TimeoutPlays(x: Ctx, sl: Slot, m: MLeg, s: Option<SLeg>, ready: bool)
    requires Cast(x.call, sl, Some(m), s)
    ensures Plays(x, OnTimeout(x, sl, ready), sl, TurnOfTimeout(s))
  {
    hide DigestOf, Advance, ReleaseIfAny, FarewellOf, PartedOf;
    ReleaseIfAnyPlays(x, sl, Some(m), s, ready);
  }

  lemma DisconnectPlays(x: Ctx, sl: Slot, m: MLeg, s: Option<SLeg>)
    requires Cast(x.call, sl, Some(m), s)
    ensures Plays(x, OnDisconnect(x), sl, TurnOfTimeout(s))
  {
    hide DigestOf, Advance, SipRelease, Farewell, Parted;
    if s.Some? {
      SipReleasePlays(x, sl.Other());
      SipReleasePlays(Free(x, sl), sl.Other());
    }
  }

  // ---------------------------------------------------------------- SIP events

  lemma SipHearPlays(x: Ctx, sl: Slot, m: Option<MLeg>, s: SLeg, sdp: string)
    requires Cast(x.call, sl, m, Some(s))
    ensures Plays(x, Hear(x, sl.Other(), sdp), sl, Turn([Heard(SipSide, sdp)], m, Some(SHeard(s, sdp))))
    ensures Cast(Hear(x, sl.Other(), sdp).call, sl, m, Some(SHeard(s, sdp)))
  {
    hide DigestOf, Advance, Store;
    StoreKeeps(s.base, sdp);
  }

  lemma ProgressPlays(x: Ctx, sl: Slot, m: Option<MLeg>, s: SLeg, payload: Payload)
    requires Cast(x.call, sl, m, Some(s))
    ensures Plays(x, OnProgress(x, sl.Other(), payload), sl, TurnOfProgress(m, s, payload))
  {
    hide DigestOf, Advance, Pick;
  }

  lemma AcceptPlays(x: Ctx, sl: Slot, m: Option<MLeg>, s: SLeg, payload: Payload, ready: bool)
    requires Cast(x.call, sl, m, Some(s))
    ensures Plays(x, OnAccept(x, sl.Other(), payload, ready), sl, TurnOfAccept(m, s, payload, ready))
  {
    hide DigestOf, Advance, Pick, MnccRelease, Clear, Remains;
    var s1 := Placed(s, Pick(payload, s.base.addr, s.base.payloadType, s.codec));
    var x1 := Send(x.Put(sl.Other(), Sip(s1)), TxCancel(s.handle));
    if m.Some? {
      MnccReleasePlays(x1, sl, ready);
    }
  }

  // A SIP leg goes with a cause for the other leg.
  lemma FailPlays(x: Ctx, sl: Slot, m: Option<MLeg>, cause: int, ready: bool)
    requires Cast(x.call, sl, m, None)
    ensures Plays(x, ReleaseWithCause(x, sl, cause, ready), sl,
                  Turn(ClearOf(MBlamed(m, cause), ready), RemainsOf(MBlamed(m, cause), ready), None))
    ensures Plays(x, ReleaseIfAny(x, sl, ready), sl, Turn(ClearOf(m, ready), RemainsOf(m, ready), None))
  {
    hide DigestOf, Advance, MnccRelease, Clear, Remains;
    if m.Some? {
      MnccReleasePlays(x, sl, ready);
      MnccReleasePlays(x.Put(sl, Mncc(MCause(m.value, cause))), sl, ready);
    }
  }

  lemma StatusPlays(x: Ctx, sl: Slot, m: Option<MLeg>, s: SLeg, status: int, payload: Payload, ready: bool)
    requires Cast(x.call, sl, m, Some(s))
    ensures Plays(x, OnStatus(x, sl.Other(), status, payload, ready), sl, TurnOfStatus(m, s, status, payload, ready))
  {
    hide DigestOf, Advance, OnProgress, OnAccept, ReleaseWithCause, TurnOfProgress, TurnOfAccept, ClearOf, RemainsOf,
      CauseMap.StatusToCause;
    ProgressPlays(x, sl, m, s, payload);
    AcceptPlays(x, sl, m, s, payload, ready);
    FailPlays(DropSip(Send(x, TxCancel(s.handle)), sl.Other()), sl, m, CauseMap.StatusToCause(status), ready);
  }

  lemma ConfirmPlays(x: Ctx, sl: Slot, m: Option<MLeg>, s: SLeg, sdp: string)
    requires Cast(x.call, sl, m, Some(s))
    ensures var s1 := Confirmed(SHeard(s, sdp));
            && Plays(x, Confirm(x, sl.Other(), sdp), sl, Turn([Heard(SipSide, sdp)], m, Some(s1)))
            && Cast(Confirm(x, sl.Other(), sdp).call, sl, m, Some(s1))
  {
    hide DigestOf, Advance, Hear, Store;
    SipHearPlays(x, sl, m, s, sdp);
  }

  lemma OfferPlays(x: Ctx, sl: Slot, m: MLeg, s: SLeg, payload: Payload, ready: bool)
    requires Cast(x.call, sl, Some(m), Some(s))
    ensures Plays(x, OnReinvite(x, sl.Other(), payload, ready), sl, TurnOfOffer(m, s, payload))
  {
    hide DigestOf, Advance, Hear, Store, Pick, MediaMode, BodyFor, CodecFor, Renegotiate;
    SipHearPlays(x, sl, Some(m), s, Text(payload));
    StoreKeeps(s.base, Text(payload));
    var x1, s1 := Hear(x, sl.Other(), Text(payload)), SHeard(s, Text(payload));
    RenegotiationPlays(x1, sl, m, s1, payload, ready);
  }

  lemma RenegotiationPlays(x: Ctx, sl: Slot, m: MLeg, s: SLeg, payload: Payload, ready: bool)
    requires Cast(x.call, sl, Some(m), Some(s))
    ensures var p := Pick(payload, s.base.addr, s.base.payloadType, None);
            var answer := TxAnswer(s.handle, BodyFor(m.base, SendRecv));
            Plays(x, Renegotiate(x, sl.Other(), payload, ready), sl,
                  if !p.ok then Turn([TxReject(s.handle, 406, None), Destroy(s.handle)], Some(m), None)
                  else
                    Turn(if p.addr != s.base.addr then [TellMedia(m, Placed(s, p)), answer] else [answer], Some(m),
                         Some(CodecFor(Placed(s, p), m.base))))
  {
    hide DigestOf, Advance, Pick, BodyFor, CodecFor, ReleaseLeg;
  }

  lemma ReinvitePlays(x: Ctx, sl: Slot, m: Option<MLeg>, s: SLeg, payload: Payload, ready: bool)
    requires Cast(x.call, sl, m, Some(s))
    ensures Plays(x, OnReinvite(x, sl.Other(), payload, ready), sl, TurnOfReinvite(m, s, payload))
  {
    hide DigestOf, Advance, Hear, OnMode, SipRelease, Farewell, Parted, TurnOfOffer;
    if m.Some? {
      OfferPlays(x, sl, m.value, s, payload, ready);
    } else {
      SipReleasePlays(x, sl.Other());
    }
  }

  lemma HeardOfferPlays(x: Ctx, sl: Slot, m: Option<MLeg>, s: SLeg, payload: Payload, ready: bool)
    requires Cast(x.call, sl, m, Some(s))
    ensures Plays(x, OnReinvite(Hear(x, sl.Other(), Text(payload)), sl.Other(), payload, ready), sl,
                  Then([Heard(SipSide, Text(payload))], TurnOfReinvite(m, SHeard(s, Text(payload)), payload)))
  {
    hide DigestOf, Advance, Hear, OnReinvite, TurnOfReinvite, Store;
    SipHearPlays(x, sl, m, s, Text(payload));
    var x1, s1 := Hear(x, sl.Other(), Text(payload)), SHeard(s, Text(payload));
    ReinvitePlays(x1, sl, m, s1, payload, ready);
  }

  lemma EventPlays(x: Ctx, sl: Slot, m: Option<MLeg>, s: SLeg, ev: SipEvent, ready: bool)
    requires Cast(x.call, sl, m, Some(s))
    ensures Plays(x, OnSip(x, sl.Other(), ev, ready), sl, TurnOfEvent(m, s, ev, ready))
  {
    hide DigestOf, Advance, Hear, Confirm, Confirmed, SHeard, OnStatus, TurnOfStatus, OnReinvite, TurnOfReinvite,
      ReleaseIfAny, ClearOf, RemainsOf;
    match ev
    case InviteResponse(status, payload) =>
      ConfirmPlays(x, sl, m, s, Text(payload));
      var x1, s1 := Confirm(x, sl.Other(), Text(payload)), Confirmed(SHeard(s, Text(payload)));
      StatusPlays(x1, sl, m, s1, status, payload, ready);
    case GotAck(payload) => HeardOfferPlays(x, sl, m, s, payload, ready);
    case GotReinvite(payload) => HeardOfferPlays(x, sl, m, s, payload, ready);
    case GotBye => FailPlays(DropSip(x, sl.Other()), sl, m, 0, ready);
    case GotCancel => FailPlays(DropSip(x, sl.Other()), sl, m, 0, ready);
    case _ =>
  }

  // ---------------------------------------------------------------- over events

  // Where the MNCC leg of a call is, or would be beside its SIP leg.
  function MnccPlace(c: CallV): Slot {
    if c.initial.Sip? || c.remote.Mncc? then Remote else Initial
  }

  // What one event does on behalf of the i-th listed call.
  function TurnOf(s: State, e: Event, i: nat): Turn
    requires i < |s.calls|
  {
    var c, ready := s.calls[i], s.conn == Ready;
    var m, p := MnccPart(c), SipPart(c);
    var lost := if s.fdOpen && m.Some? then TurnOfTimeout(p) else Turn([], m, p);
    match e
    case Hello(version) => if version == SOCKET_VERSION then Turn([], m, p) else lost
    case BadData => lost
    case FromMsc(callref, msg) =>
      if m.Some? && m.value.callref == callref && !Refuses(m.value, msg) then TurnOfMessage(m.value, p, msg, ready)
      else Turn([], m, p)
    case Timeout(id) => if c.id == id && m.Some? then TurnOfTimeout(p) else Turn([], m, p)
    case FromPbx(handle, ev) =>
      if p.Some? && p.value.handle == handle then TurnOfEvent(m, p.value, ev, ready) else Turn([], m, p)
    case Incoming(offer, writeOk) => if Breaks(offer, writeOk) then lost else Turn([], m, p)
    case _ => Turn([], m, p)
  }

  lemma ListedIsCast(x: Ctx)
    requires CallInv(x)
    ensures Cast(x.call, MnccPlace(x.call), MnccPart(x.call), SipPart(x.call))
    ensures MnccPart(x.call).Some? && MnccPart(x.call).value.dir == MO && AwaitsRtp(MnccPart(x.call).value)
            ==> SipPart(x.call).None?
  {
    hide DigestOf;
  }

  lemma NextPlays(s: State, e: Event, i: nat)
    requires Inv(s) && Allowed(s, e) && i < |s.calls|
    ensures Plays(At(s, i), Next(s, e, i), MnccPlace(s.calls[i]), TurnOf(s, e, i))
  {
    hide DigestOf, Advance, TableInv, CallInv, OnMncc, OnSip, OnTimeout, OnDisconnect, FreshHandle, FreshRef, Breaks,
      TurnOfMessage, TurnOfEvent, TurnOfTimeout, MnccAllowed, AwaitsRtp;
    var x, ready, sl := At(s, i), s.conn == Ready, MnccPlace(s.calls[i]);
    var m, p := MnccPart(x.call), SipPart(x.call);
    ListedKeeps(s, i);
    ListedIsCast(x);
    if m.Some? {
      DisconnectPlays(x, sl, m.value, p);
    }
    match e
    case FromMsc(callref, msg) =>
      if CallHasRef(x.call, callref) && !Refuses(m.value, msg) {
        MessageFindsLeg(s, callref, i, sl);
        CreateIsAwaited(m.value, msg);
        MessagePlays(x, sl, m.value, p, msg, ready);
      }
    case Timeout(id) => if m.Some? { TimeoutPlays(x, sl, m.value, p, ready); }
    case FromPbx(handle, ev) =>
      if CallHasHandle(x.call, handle) {
        EventPlays(x, sl, m, p.value, ev, ready);
      }
    case _ =>
  }

  lemma CreateIsAwaited(m: MLeg, msg: MnccMsg)
    ensures msg.RtpCreate? && m.dir == MO && MnccAllowed(m, msg) ==> AwaitsRtp(m)
  {
  }

  // The call as its turn leaves it.
  function Taken(x: Ctx, t: Turn): Ctx {
    var sl := MnccPlace(x.call);
    Ctx(x.call.Put(sl, MLegOf(t.mncc)).Put(sl.Other(), SLegOf(t.sip)), x.log + t.said)
  }

  // Every event the environment may deliver takes every listed call through its turn: its trace grows
  // by what the table says and by nothing else, and its legs are those of the table.
  lemma StepTakesTurn(s: State, e: Event, i: nat)
    requires Reachable(s) && Allowed(s, e) && i < |s.calls|
    ensures Lands(Step(s, e), s.calls[i].id, Taken(At(s, i), TurnOf(s, e, i)))
  {
    hide Reachable, Inv, Allowed, Step, Next, TurnOf, Lands;
    ReachableInv(s);
    StepIsLocal(s, e, i);
    NextPlays(s, e, i);
  }
}
