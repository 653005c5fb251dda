/** What holds of one call and its trace in every run, and that each event keeps it. */
module CallInvariant {
  import opened Domain
  import opened Sdp
  import opened Trace
  import opened CallMachine
  import CauseMap

  function MnccPart(c: CallV): Option<MLeg> {
    if c.initial.Mncc? then Some(c.initial.m) else if c.remote.Mncc? then Some(c.remote.m) else None
  }

  function SipPart(c: CallV): Option<SLeg> {
    if c.initial.Sip? then Some(c.initial.s) else if c.remote.Sip? then Some(c.remote.s) else None
  }

  // A leg that new_call gave up on before it got a handle and callbacks.
  predicate Bare(s: SLeg) {
    s.base.ops == NO_OPS && s.handle == NULL_HANDLE && s.state == SInitial
  }

  function Rank(state: SipState): nat {
    match state case SInitial => 0 case SConfirmed => 1 case _ => 2
  }

  // Who may sit in which slot, with which callbacks. A call never has two legs of a kind.
  predicate Shape(c: CallV) {
    && (c.initial.Mncc? ==> c.initial.m.dir == MO && c.initial.m.base.ops == MNCC_OPS)
    && (c.initial.Sip? ==>
          && c.initial.s.dir == MO
          && ((Bare(c.initial.s) && c.remote.NoLeg?)
              || (c.initial.s.base.ops == SIP_MO_OPS && c.initial.s.handle != NULL_HANDLE)))
    && (c.remote.Mncc? ==> !c.initial.Mncc? && c.remote.m.dir == MT && c.remote.m.base.ops == MNCC_OPS)
    && (c.remote.Sip? ==>
          && !c.initial.Sip? && c.remote.s.dir == MT
          && c.remote.s.base.ops == SIP_MT_OPS && c.remote.s.handle != NULL_HANDLE)
  }

  // An RTP_CREATE is outstanding.
  predicate AwaitsRtp(m: MLeg) {
    !m.base.inRelease && m.timer && m.wanted == RtpCreateRsp
  }

  // The handle of an attached SIP leg is in use; without one it is unset or destroyed.
  predicate HandleInv(sp: Option<SLeg>, d: Digest) {
    if sp.Some? && !Bare(sp.value) then d.handle == Some(sp.value.handle) && !d.destroyed
    else d.handle.None? || d.destroyed
  }

  predicate SipInv(s: SLeg, d: Digest) {
    && Placeable(s.base.addr)
    && s.base.rxSdp == d.heardSip && |s.base.rxSdp| <= SDP_CAPACITY
    && (!s.base.rxChanged && s.base.rxSdp != "" ==> s.base.rxSdp in d.carried)
    && (d.releasing ==> Rank(s.state) == 2 || (s.state == SConfirmed && s.dir == MT))
    && (s.dir == MO ==> d.setupRsps == 0 && (Bare(s) || s.state != SInitial) && (d.asked ==> Rank(s.state) == 2))
    && (s.dir == MT ==> d.procReq && (Rank(s.state) < 2 ==> d.setupRsps == 0))
  }

  predicate MnccInv(m: MLeg, d: Digest) {
    && m.base.rxSdp == d.heardMncc && |m.base.rxSdp| <= SDP_CAPACITY
    && (m.base.rxSdp != "" ==> m.base.rxChanged)
    && (m.dir == MT ==> d.setupRsps == 0)
    && (m.base.inRelease <==> d.cleared)
    && (m.base.inRelease && m.wanted == SetupComplInd ==> d.lateRsp)
  }

  // Before its RTP socket exists, a call from the MSC has not touched the SIP side.
  predicate UntouchedSip(sp: Option<SLeg>, d: Digest) {
    sp.None? && d.handle.None? && !d.destroyed && !d.asked && !d.releasing && d.media.None? && d.setupRsps == 0
      && d.heardSip == ""
  }

  predicate MediaCoherent(m: MLeg, s: SLeg, d: Digest) {
    !m.base.inRelease && d.media.Some? && s.base.addr.port != 0 ==> d.media == Some(s.base.addr)
  }

  predicate PairInv(m: MLeg, s: SLeg, d: Digest) {
    && (m.base.inRelease <==> d.releasing)
    && MediaCoherent(m, s, d)
    && (m.state == MHold ==> s.state == SHold)
    && (m.dir == MO ==> m.state != MInitial)
  }

  predicate CallInv(x: Ctx) {
    var d, mp, sp := DigestOf(x.log), MnccPart(x.call), SipPart(x.call);
    && Shape(x.call)
    && d.ordered && d.safe && d.clean && d.setupRsps <= 1
    && HandleInv(sp, d)
    && (sp.Some? ==> SipInv(sp.value, d))
    && (mp.Some? ==> MnccInv(mp.value, d))
    && (mp.Some? && mp.value.dir == MO && AwaitsRtp(mp.value) ==> UntouchedSip(sp, d))
    && (mp.Some? && sp.Some? ==> PairInv(mp.value, sp.value, d))
  }

  // How a call may change in one event: it keeps its identity and its MNCC leg's callref,
  // gains no MNCC leg, and takes up no handle but the one it is given.
  predicate Evolves(x: Ctx, y: Ctx, taken: Option<Handle>) {
    && y.call.id == x.call.id
    && (y.call.initial.Mncc? ==> x.call.initial.Mncc? && y.call.initial.m.callref == x.call.initial.m.callref)
    && (y.call.remote.Mncc? ==> x.call.remote.Mncc? && y.call.remote.m.callref == x.call.remote.m.callref)
    && (DigestOf(y.log).handle == DigestOf(x.log).handle
        || (DigestOf(x.log).handle.None? && taken.Some? && DigestOf(y.log).handle == taken))
  }

  function Given(handle: Handle): Option<Handle> {
    if handle == NULL_HANDLE then None else Some(handle)
  }

  function TakenBy(msg: MnccMsg): Option<Handle> {
    if msg.RtpCreate? then Given(msg.handle) else None
  }

  predicate Keeps(x: Ctx, y: Ctx) {
    CallInv(y) && Evolves(x, y, None)
  }

  // ---------------------------------------------------------------- what the environment grants

  // The MSC answers only what was asked: RTP_CREATE for a call from the mobile when one is
  // outstanding; CALL_CONF_IND, ALERT_IND and SETUP_CNF for calls towards the mobile,
  // SETUP_COMPL_IND for calls from it.
  predicate MnccAllowed(m: MLeg, msg: MnccMsg) {
    match msg
    case RtpCreate(_, _, _, _, _) => if m.dir == MO then AwaitsRtp(m) else !m.base.inRelease
    case CallConfInd(_) => m.dir == MT
    case AlertInd(_) => m.dir == MT
    case SetupCnf(_) => m.dir == MT
    case SetupComplIndMsg(_) => m.dir == MO
    case _ => true
  }

  // The SIP stack reports responses only to INVITEs that were sent.
  predicate SipAllowed(t: seq<Entry>, ev: SipEvent) {
    ev.InviteResponse? ==> DigestOf(t).asked
  }

  // ---------------------------------------------------------------- effects of the callbacks
  //
  // Each lemma gives the call and the digest a callback leaves behind on one of its paths.
  // The digest's recursion is hidden: Send's own contract says how an entry changes it.

  // The SIP leg's handle is bound and not destroyed.
  predicate InUse(x: Ctx, sl: Slot)
    requires x.Get(sl).Sip?
  {
    DigestOf(x.log).handle == Some(x.Get(sl).s.handle) && !DigestOf(x.log).destroyed
  }

  // Released by BYE or CANCEL, the leg stays until the response; otherwise it goes at once.
  predicate Lingers(s: SLeg) {
    Rank(s.state) == 2 || (s.state == SConfirmed && s.dir == MT)
  }

  function Quiet(x: Ctx): Digest {
    DigestOf(x.log).(atRtpConnect := false)
  }

  // An entry about the leg's handle while it is in use.
  lemma SayEffect(x: Ctx, sl: Slot, e: Entry)
    requires x.Get(sl).Sip? && InUse(x, sl) && Mention(e) == Some(x.Get(sl).s.handle) && !e.TxInvite?
    ensures DigestOf(Send(x, e).log) ==
            Quiet(x).(releasing := DigestOf(x.log).releasing || IsRelease(e), asked := DigestOf(x.log).asked || Asks(e),
                      destroyed := e.Destroy?)
  {
    hide DigestOf;
  }

  lemma SipReleaseLingers(x: Ctx, sl: Slot)
    requires x.Get(sl).Sip? && InUse(x, sl) && Lingers(x.Get(sl).s)
    ensures var y := SipRelease(x, sl); y.call == x.call && DigestOf(y.log) == Quiet(x).(releasing := true)
  {
    hide DigestOf, Advance, DropSip, CauseMap.CauseToStatus, CauseMap.ReasonText;
    SayEffect(x, sl, TxCancel(x.Get(sl).s.handle));
    SayEffect(x, sl, TxBye(x.Get(sl).s.handle));
  }

  lemma SipReleaseDrops(x: Ctx, sl: Slot)
    requires x.Get(sl).Sip? && InUse(x, sl) && x.Get(sl).s.state == SInitial
    ensures var y := SipRelease(x, sl);
            y.call == x.call.Put(sl, NoLeg) && DigestOf(y.log) == Quiet(x).(destroyed := true)
  {
    hide DigestOf, Advance, CauseMap.CauseToStatus, CauseMap.ReasonText;
    SayEffect(x, sl, Destroy(x.Get(sl).s.handle));
  }

  lemma SipReleaseRejects(x: Ctx, sl: Slot)
    requires x.Get(sl).Sip? && InUse(x, sl) && x.Get(sl).s.state == SConfirmed && x.Get(sl).s.dir == MO
    ensures var y := SipRelease(x, sl);
            y.call == x.call.Put(sl, NoLeg) && DigestOf(y.log) == Quiet(x).(destroyed := true)
  {
    hide DigestOf, Advance, CauseMap.CauseToStatus, CauseMap.ReasonText;
    var s := x.Get(sl).s;
    var reject := TxReject(s.handle, CauseMap.CauseToStatus(s.base.cause), Some(CauseMap.ReasonText(s.base.cause)));
    SayEffect(x, sl, reject);
    SayEffect(Send(x, reject), sl, Destroy(s.handle));
  }

  lemma SipReleaseEffect(x: Ctx, sl: Slot)
    requires x.Get(sl).Sip? && InUse(x, sl)
    ensures var y := SipRelease(x, sl);
            if Lingers(x.Get(sl).s) then y.call == x.call && DigestOf(y.log) == Quiet(x).(releasing := true)
            else y.call == x.call.Put(sl, NoLeg) && DigestOf(y.log) == Quiet(x).(destroyed := true)
  {
    hide DigestOf, SipRelease;
    if Lingers(x.Get(sl).s) {
      SipReleaseLingers(x, sl);
    } else if x.Get(sl).s.state == SInitial {
      SipReleaseDrops(x, sl);
    } else {
      SipReleaseRejects(x, sl);
    }
  }

  function Releasing(m: MLeg, response: Awaited): MLeg {
    StartTimer(m.(base := m.base.(inRelease := true)), response)
  }

  // What MNCC release leaves in the slot on a READY connection.
  function AfterRelease(m: MLeg): Leg {
    if m.state != MInitial then Mncc(Releasing(m, RelInd))
    else if m.dir == MO then NoLeg
    else Mncc(Releasing(m, RelCnf))
  }

  function AfterRequest(x: Ctx, m: MLeg): Digest {
    if m.state == MInitial && m.dir == MO then Quiet(x) else Quiet(x).(cleared := true)
  }

  lemma MnccReleaseRejects(x: Ctx, sl: Slot)
    requires x.Get(sl).Mncc? && x.Get(sl).m.state == MInitial && x.Get(sl).m.dir == MO
    ensures var y := MnccRelease(x, sl, true); DigestOf(y.log) == Quiet(x) && y.call == x.call.Put(sl, NoLeg)
  {
    hide DigestOf;
  }

  lemma MnccReleaseUnanswered(x: Ctx, sl: Slot)
    requires x.Get(sl).Mncc? && x.Get(sl).m.state == MInitial && x.Get(sl).m.dir == MT
    ensures var y, m := MnccRelease(x, sl, true), x.Get(sl).m;
            DigestOf(y.log) == AfterRequest(x, m) && y.call == x.call.Put(sl, AfterRelease(m))
  {
    hide DigestOf;
  }

  lemma MnccReleaseLater(x: Ctx, sl: Slot)
    requires x.Get(sl).Mncc? && x.Get(sl).m.state != MInitial
    ensures var y, m := MnccRelease(x, sl, true), x.Get(sl).m;
            DigestOf(y.log) == AfterRequest(x, m) && y.call == x.call.Put(sl, AfterRelease(m))
  {
    hide DigestOf;
  }

  lemma MnccReleaseEffect(x: Ctx, sl: Slot, ready: bool)
    requires x.Get(sl).Mncc?
    ensures var y, m := MnccRelease(x, sl, ready), x.Get(sl).m;
            if ready then DigestOf(y.log) == AfterRequest(x, m) && y.call == x.call.Put(sl, AfterRelease(m))
            else y == Free(x, sl)
  {
    if ready {
      hide DigestOf, MnccRelease;
      if x.Get(sl).m.state != MInitial {
        MnccReleaseLater(x, sl);
      } else if x.Get(sl).m.dir == MO {
        MnccReleaseRejects(x, sl);
      } else {
        MnccReleaseUnanswered(x, sl);
      }
    }
  }

  predicate HasMedia(addr: Addr) {
    addr.family != Unspec && addr.port != 0
  }

  lemma MnccRingsWithMedia(x: Ctx, sl: Slot)
    requires x.Get(sl).Mncc? && x.Get(sl.Other()).Sip? && HasMedia(x.Get(sl.Other()).s.base.addr)
    ensures var y := MnccRing(x, sl);
            && y.call == x.call
            && DigestOf(y.log) == DigestOf(x.log).(atRtpConnect := true, media := Some(x.Get(sl.Other()).s.base.addr))
  {
    hide DigestOf;
  }

  lemma MnccRingEffect(x: Ctx, sl: Slot)
    requires x.Get(sl).Mncc? && x.Get(sl.Other()).Sip?
    ensures var y, addr := MnccRing(x, sl), x.Get(sl.Other()).s.base.addr;
            && y.call == x.call
            && DigestOf(y.log) == if HasMedia(addr) then DigestOf(x.log).(atRtpConnect := true, media := Some(addr))
               else Quiet(x)
  {
    hide DigestOf;
    if HasMedia(x.Get(sl.Other()).s.base.addr) {
      hide MnccRing;
      MnccRingsWithMedia(x, sl);
    }
  }

  lemma RtpConnectEffect(x: Ctx, sl: Slot, from: Base)
    requires x.Get(sl).Mncc?
    ensures DigestOf(SendRtpConnect(x, sl, from).log) ==
            DigestOf(x.log).(atRtpConnect := true, media := Some(from.addr))
  {
    hide DigestOf;
  }

  lemma SetupRspEffect(x: Ctx, callref: nat)
    requires DigestOf(x.log).procReq && DigestOf(x.log).setupRsps == 0 && DigestOf(x.log).atRtpConnect
    ensures var d := DigestOf(x.log);
            DigestOf(Send(x, TxSignal(SetupRsp, callref)).log) ==
            d.(setupRsps := 1, atRtpConnect := false, lateRsp := d.lateRsp || d.cleared)
  {
    hide DigestOf;
  }

  lemma MnccConnectEffect(x: Ctx, sl: Slot)
    requires x.Get(sl).Mncc? && x.Get(sl.Other()).Sip? && DigestOf(x.log).procReq && DigestOf(x.log).setupRsps == 0
    ensures var y := MnccConnect(x, sl);
            && y.call == x.call.Put(sl, Mncc(StartTimer(x.Get(sl).m, SetupComplInd)))
            && DigestOf(y.log) ==
               var d := DigestOf(x.log);
               Quiet(x).(setupRsps := 1, media := Some(x.Get(sl.Other()).s.base.addr),
                 lateRsp := d.lateRsp || d.cleared)
  {
    hide DigestOf, Advance;
    var m, from := x.Get(sl).m, x.Get(sl.Other()).Common();
    RtpConnectEffect(x, sl, from);
    SetupRspEffect(SendRtpConnect(x, sl, from).Put(sl, Mncc(StartTimer(m, SetupComplInd))), m.callref);
  }

  lemma AnswerEffect(x: Ctx, sl: Slot, mode: Mode)
    requires x.Get(sl).Sip? && InUse(x, sl) && !x.Get(sl.Other()).NoLeg?
    ensures var y := Answer(x, sl, mode);
            && y.call == x.call.Put(sl, Sip(CodecFor(x.Get(sl).s, x.Get(sl.Other()).Common())))
            && DigestOf(y.log) == Quiet(x)
  {
    hide DigestOf;
  }

  lemma SipModifyEffect(x: Ctx, sl: Slot, mode: Mode, state: SipState)
    requires x.Get(sl).Sip? && InUse(x, sl) && !x.Get(sl.Other()).NoLeg?
    ensures var y := SipModify(x, sl, mode, state);
            && y.call == x.call.Put(sl, Sip(CodecFor(x.Get(sl).s, x.Get(sl.Other()).Common()).(state := state)))
            && DigestOf(y.log) == Quiet(x).(asked := true)
  {
    hide DigestOf;
  }

  lemma HearEffect(x: Ctx, sl: Slot, sdp: string)
    requires !x.Get(sl).NoLeg?
    ensures var y, d, leg := Hear(x, sl, sdp), DigestOf(x.log), x.Get(sl);
            && y.call == x.call.Put(sl, leg.WithCommon(Store(leg.Common(), sdp)))
            && (leg.Mncc? ==> DigestOf(y.log) == Quiet(x).(heardMncc := After(d.heardMncc, sdp)))
            && (leg.Sip? ==> DigestOf(y.log) == Quiet(x).(heardSip := After(d.heardSip, sdp)))
  {
    hide DigestOf, Store, Cut;
  }

  lemma HearKeepsLegs(x: Ctx, sl: Slot, sdp: string)
    requires !x.Get(sl).NoLeg?
    ensures var y := Hear(x, sl, sdp);
            && y.call.id == x.call.id && y.Get(sl.Other()) == x.Get(sl.Other())
            && y.Get(sl) == x.Get(sl).WithCommon(Store(x.Get(sl).Common(), sdp))
  {
    hide DigestOf;
  }

  // ---------------------------------------------------------------- parts of the invariant
  //
  // What the invariant of a leg depends on, so that the rest of the digest can change freely.

  lemma MnccFrame(m: MLeg, d: Digest, e: Digest)
    requires MnccInv(m, d) && e.heardMncc == d.heardMncc && e.setupRsps == d.setupRsps
    requires e.cleared == d.cleared && e.lateRsp == d.lateRsp
    ensures MnccInv(m, e)
  {
  }

  lemma MnccReleases(m: MLeg, d: Digest, e: Digest, answer: Awaited, cause: int)
    requires MnccInv(m, d) && e.heardMncc == d.heardMncc && e.setupRsps == d.setupRsps && e.cleared
    requires answer != SetupComplInd
    ensures MnccInv(Releasing(m, answer), e)
    ensures MnccInv(Releasing(m.(base := m.base.(cause := cause)), answer), e)
  {
  }

  lemma MnccMoves(m: MLeg, d: Digest, e: Digest, state: MnccState)
    requires MnccInv(m, d) && e.heardMncc == d.heardMncc && e.setupRsps == d.setupRsps
    requires e.cleared == d.cleared && e.lateRsp == d.lateRsp
    ensures MnccInv(m.(state := state), e)
  {
  }

  lemma SipFrame(s: SLeg, d: Digest, e: Digest)
    requires SipInv(s, d) && e.heardSip == d.heardSip && e.carried == d.carried && e.setupRsps == d.setupRsps
    requires e.asked == d.asked && e.procReq == d.procReq && (e.releasing ==> d.releasing || Lingers(s))
    ensures SipInv(s, e)
  {
  }

  lemma StoreKeeps(b: Base, sdp: string)
    ensures var r := Store(b, sdp); r == b.(rxSdp := r.rxSdp, rxChanged := r.rxChanged)
  {
  }

  lemma MnccStores(m: MLeg, d: Digest, e: Digest, sdp: string)
    requires MnccInv(m, d) && e == d.(atRtpConnect := false, heardMncc := After(d.heardMncc, sdp))
    ensures MnccInv(m.(base := Store(m.base, sdp)), e)
  {
  }

  lemma SipStores(s: SLeg, d: Digest, e: Digest, sdp: string)
    requires SipInv(s, d) && e == d.(atRtpConnect := false, heardSip := After(d.heardSip, sdp))
    ensures SipInv(s.(base := Store(s.base, sdp)), e)
  {
  }

  lemma PairAtMncc(m: MLeg, s: SLeg, d: Digest, e: Digest, sdp: string)
    requires PairInv(m, s, d) && e.cleared == d.cleared && e.releasing == d.releasing && e.media == d.media
    ensures PairInv(m.(base := Store(m.base, sdp)), s, e)
  {
  }

  lemma PairAtSip(m: MLeg, s: SLeg, d: Digest, e: Digest, sdp: string)
    requires PairInv(m, s, d) && e.cleared == d.cleared && e.releasing == d.releasing && e.media == d.media
    ensures PairInv(m, s.(base := Store(s.base, sdp)), e)
  {
  }

  lemma HearMnccKeeps(x: Ctx, sl: Slot, sdp: string)
    requires CallInv(x) && x.Get(sl).Mncc?
    ensures Keeps(x, Hear(x, sl, sdp))
  {
    hide DigestOf, Advance, Hear, After, Store, CallInv, Keeps;
    HearEffect(x, sl, sdp);
    MnccHeardKeeps(x, sl, Hear(x, sl, sdp), sdp);
  }

  lemma MnccHeardKeeps(x: Ctx, sl: Slot, y: Ctx, sdp: string)
    requires CallInv(x) && x.Get(sl).Mncc? && y.call.id == x.call.id && y.Get(sl.Other()) == x.Get(sl.Other())
    requires y.Get(sl) == Mncc(x.Get(sl).m.(base := Store(x.Get(sl).m.base, sdp)))
    requires DigestOf(y.log) == Quiet(x).(heardMncc := After(DigestOf(x.log).heardMncc, sdp))
    ensures Keeps(x, y)
  {
    hide DigestOf, Advance, After, Store, SipInv, MnccInv, PairInv;
    var m, d, e := x.Get(sl).m, DigestOf(x.log), DigestOf(y.log);
    StoreKeeps(m.base, sdp);
    MnccStores(m, d, e, sdp);
    if x.Get(sl.Other()).Sip? {
      SipFrame(x.Get(sl.Other()).s, d, e);
      PairAtMncc(m, x.Get(sl.Other()).s, d, e, sdp);
    }
  }

  lemma HearSipKeeps(x: Ctx, sl: Slot, sdp: string)
    requires CallInv(x) && x.Get(sl).Sip?
    ensures Keeps(x, Hear(x, sl, sdp))
  {
    hide DigestOf, Advance, Hear, After, Store, CallInv, Keeps;
    HearEffect(x, sl, sdp);
    SipHeardKeeps(x, sl, Hear(x, sl, sdp), sdp);
  }

  lemma SipHeardKeeps(x: Ctx, sl: Slot, y: Ctx, sdp: string)
    requires CallInv(x) && x.Get(sl).Sip? && y.call.id == x.call.id && y.Get(sl.Other()) == x.Get(sl.Other())
    requires y.Get(sl) == Sip(x.Get(sl).s.(base := Store(x.Get(sl).s.base, sdp)))
    requires DigestOf(y.log) == Quiet(x).(heardSip := After(DigestOf(x.log).heardSip, sdp))
    ensures Keeps(x, y)
  {
    hide DigestOf, Advance, After, Store, SipInv, MnccInv, PairInv;
    var s, d, e := x.Get(sl).s, DigestOf(x.log), DigestOf(y.log);
    StoreKeeps(s.base, sdp);
    SipStores(s, d, e, sdp);
    if x.Get(sl.Other()).Mncc? {
      MnccFrame(x.Get(sl.Other()).m, d, e);
      PairAtSip(x.Get(sl.Other()).m, s, d, e, sdp);
    }
  }

  lemma HearKeeps(x: Ctx, sl: Slot, sdp: string)
    requires CallInv(x) && !x.Get(sl).NoLeg?
    ensures Keeps(x, Hear(x, sl, sdp))
    ensures Hear(x, sl, sdp).call == x.call.Put(sl, x.Get(sl).WithCommon(Store(x.Get(sl).Common(), sdp)))
  {
    hide DigestOf, Advance, Hear, CallInv, Store, Cut;
    HearEffect(x, sl, sdp);
    if x.Get(sl).Mncc? {
      HearMnccKeeps(x, sl, sdp);
    } else {
      HearSipKeeps(x, sl, sdp);
    }
  }

  // ---------------------------------------------------------------- MNCC messages

  lemma StartReleaseEffect(x: Ctx, sl: Slot, clearing: Clearing, answer: Awaited)
    requires x.Get(sl).Mncc?
    ensures var y := StartRelease(x, sl, clearing, answer);
            y.call == x.call.Put(sl, Mncc(Releasing(x.Get(sl).m, answer)))
              && DigestOf(y.log) == Quiet(x).(cleared := true)
  {
    hide DigestOf;
  }

  lemma StartAloneKeeps(x: Ctx, sl: Slot, clearing: Clearing, answer: Awaited)
    requires CallInv(x) && x.Get(sl).Mncc? && x.Get(sl.Other()).NoLeg? && (answer == RelCnf || answer == RelInd)
    ensures Keeps(x, StartRelease(x, sl, clearing, answer))
  {
    hide DigestOf, Advance, StartRelease;
    StartReleaseEffect(x, sl, clearing, answer);
  }

  lemma DiscIndKeeps(x: Ctx, sl: Slot, cause: int, ready: bool)
    requires CallInv(x) && x.Get(sl).Mncc?
    ensures Keeps(x, OnDiscInd(x, sl, cause, ready))
  {
    hide DigestOf, Advance, CallInv, StartRelease, ReleaseLeg;
    StartReleaseEffect(x, sl, RelReq, RelCnf);
    if x.Get(sl.Other()).NoLeg? {
      StartAloneKeeps(x, sl, RelReq, RelCnf);
    } else {
      DiscPairKeeps(x, sl, cause, ready);
    }
  }

  lemma DiscPairKeeps(x: Ctx, sl: Slot, cause: int, ready: bool)
    requires CallInv(x) && x.Get(sl).Mncc? && !x.Get(sl.Other()).NoLeg?
    ensures Keeps(x, OnDiscInd(x, sl, cause, ready))
  {
    hide DigestOf, Advance, SipRelease, MnccRelease, StartRelease, MnccInv, SipInv, PairInv, UntouchedSip;
    StartReleaseEffect(x, sl, RelReq, RelCnf);
    var x1 := StartRelease(x, sl, RelReq, RelCnf);
    var s := x1.Get(sl.Other()).s;
    SipReleaseEffect(x1.Put(sl.Other(), Sip(s.(base := s.base.(cause := cause)))), sl.Other());
    DiscLegsKeep(x, sl, OnDiscInd(x, sl, cause, ready), cause);
  }

  lemma DiscLegsKeep(x: Ctx, sl: Slot, y: Ctx, cause: int)
    requires CallInv(x) && x.Get(sl).Mncc? && x.Get(sl.Other()).Sip? && y.call.id == x.call.id
    requires y.Get(sl) == Mncc(Releasing(x.Get(sl).m, RelCnf))
    requires var s, d := x.Get(sl.Other()).s, Quiet(x).(cleared := true);
             if Lingers(s)
             then y.Get(sl.Other()) == Sip(s.(base := s.base.(cause := cause)))
               && DigestOf(y.log) == d.(releasing := true)
             else y.Get(sl.Other()) == NoLeg && DigestOf(y.log) == d.(destroyed := true)
    ensures Keeps(x, y)
  {
    hide DigestOf, Advance, MnccInv, SipInv;
    var s, d, e := x.Get(sl.Other()).s, DigestOf(x.log), DigestOf(y.log);
    MnccReleases(x.Get(sl).m, d, e, RelCnf, 0);
    if Lingers(s) {
      SipFrame(s, d, e);
      SipTold(s, e, cause);
    }
  }

  lemma SipTold(s: SLeg, d: Digest, cause: int)
    requires SipInv(s, d)
    ensures SipInv(s.(base := s.base.(cause := cause)), d)
  {
  }

  // Telling the SIP leg a cause and releasing it, when the MNCC leg goes as well.
  lemma PartnerReleaseKeeps(x: Ctx, sl: Slot, cause: int, ready: bool)
    requires CallInv(x) && x.Get(sl).Mncc?
    ensures Keeps(x, Free(ReleaseWithCause(x, sl.Other(), cause, ready), sl))
    ensures Keeps(x, Free(ReleaseIfAny(x, sl.Other(), ready), sl))
  {
    hide DigestOf, Advance, SipRelease, MnccRelease, MnccInv, PairInv;
    if x.Get(sl.Other()).Sip? {
      var s := x.Get(sl.Other()).s;
      SipReleaseEffect(x, sl.Other());
      SipReleaseEffect(x.Put(sl.Other(), Sip(s.(base := s.base.(cause := cause)))), sl.Other());
    }
  }

  lemma CreatedKeeps(x: Ctx, sl: Slot, msg: MnccMsg)
    requires CallInv(x) && x.Get(sl).Mncc? && msg.RtpCreate?
    ensures Keeps(x, Created(x, sl, msg))
  {
    hide DigestOf;
  }

  lemma RtpCreateKeepsMt(x: Ctx, sl: Slot, msg: MnccMsg, ready: bool)
    requires CallInv(x) && x.Get(sl).Mncc? && msg.RtpCreate? && x.Get(sl).m.dir == MT
    ensures Keeps(x, OnRtpCreate(x, sl, msg, ready))
  {
    hide DigestOf, Hear, CallInv, ContinueMt;
    CreatedKeeps(x, sl, msg);
    HearKeeps(Created(x, sl, msg), sl, msg.sdp);
    ContinueMtKeeps(Hear(Created(x, sl, msg), sl, msg.sdp), sl);
  }

  lemma ContinueMtKeeps(x: Ctx, sl: Slot)
    requires CallInv(x) && x.Get(sl).Mncc? && x.Get(sl).m.dir == MT
    ensures Keeps(x, ContinueMt(x.Put(sl, Mncc(StopTimer(x.Get(sl).m, RtpCreateRsp))), sl))
  {
    hide DigestOf;
    assert sl == Remote;
  }

  lemma RtpCreateKeepsMo(x: Ctx, sl: Slot, msg: MnccMsg, ready: bool)
    requires CallInv(x) && x.Get(sl).Mncc? && msg.RtpCreate? && x.Get(sl).m.dir == MO && AwaitsRtp(x.Get(sl).m)
    ensures CallInv(OnRtpCreate(x, sl, msg, ready)) && Evolves(x, OnRtpCreate(x, sl, msg, ready), Given(msg.handle))
  {
    hide DigestOf, Hear, CallInv, ContinueMo;
    CreatedKeeps(x, sl, msg);
    HearKeeps(Created(x, sl, msg), sl, msg.sdp);
    ContinueMoKeeps(Hear(Created(x, sl, msg), sl, msg.sdp), sl, msg.handle, ready);
  }

  lemma ContinueMoKeeps(x: Ctx, sl: Slot, handle: Handle, ready: bool)
    requires CallInv(x) && x.Get(sl).Mncc? && x.Get(sl).m.dir == MO && AwaitsRtp(x.Get(sl).m)
    ensures var y := ContinueMo(x.Put(sl, Mncc(StopTimer(x.Get(sl).m, RtpCreateRsp))), sl, handle, ready);
            CallInv(y) && Evolves(x, y, Given(handle))
  {
    hide DigestOf, RouteToSip;
    assert sl == Initial;
    var m := x.call.initial.m;
    var x1 := x.Put(sl, Mncc(StopTimer(m, RtpCreateRsp)));
    var x2 := Send(x1, TxSignal(CallProcReq, m.callref)).Put(sl, Mncc(x1.call.initial.m.(state := MProceeding)));
    if handle == NULL_HANDLE {
      RouteFails(x2, ready);
    } else {
      RouteToSipKeeps(x2, handle, ready);
    }
  }

  lemma RouteToSipKeeps(x: Ctx, handle: Handle, ready: bool)
    requires CallInv(x) && x.call.initial.Mncc? && x.call.initial.m.state == MProceeding
             && !x.call.initial.m.base.inRelease
    requires !AwaitsRtp(x.call.initial.m)
    requires UntouchedSip(SipPart(x.call), DigestOf(x.log)) && DigestOf(x.log).procReq && handle != NULL_HANDLE
    ensures var y := RouteToSip(x, handle, ready); CallInv(y) && Evolves(x, y, Some(handle))
  {
    hide DigestOf;
  }

  lemma RouteFails(x: Ctx, ready: bool)
    requires CallInv(x) && x.call.initial.Mncc? && x.call.remote.NoLeg?
    ensures Keeps(x, RouteToSip(x, NULL_HANDLE, ready))
  {
    hide DigestOf, Advance, MnccRelease, HandleInv, SipInv, MnccInv, PairInv, UntouchedSip;
    ReleaseAloneKeeps(x, Initial, ready);
  }

  lemma RtpConnectKeeps(x: Ctx, sl: Slot, msg: MnccMsg, ready: bool)
    requires CallInv(x) && x.Get(sl).Mncc? && msg.RtpConnect?
    ensures Keeps(x, OnRtpConnect(x, sl, msg, ready))
  {
    hide DigestOf, Hear, SipRelease;
    HearKeeps(x, sl, msg.sdp);
    var x1 := Hear(x, sl, msg.sdp);
    BothReleaseKeeps(x1, sl, ready);
  }

  // A failed RTP_CONNECT releases the partner and then the leg itself.
  lemma BothReleaseKeeps(x: Ctx, sl: Slot, ready: bool)
    requires CallInv(x) && x.Get(sl).Mncc?
    ensures Keeps(x, ReleaseIfAny(ReleaseIfAny(x, sl.Other(), ready), sl, ready))
  {
    hide DigestOf, MnccRelease, SipRelease, HandleInv, SipInv, MnccInv, PairInv, UntouchedSip;
    if x.Get(sl.Other()).NoLeg? {
      ReleaseAloneKeeps(x, sl, ready);
    } else {
      PairReleaseKeeps(x, sl, ready);
    }
  }

  lemma PairReleaseKeeps(x: Ctx, sl: Slot, ready: bool)
    requires CallInv(x) && x.Get(sl).Mncc? && x.Get(sl.Other()).Sip?
    ensures Keeps(x, MnccRelease(SipRelease(x, sl.Other()), sl, ready))
    ensures SipRelease(x, sl.Other()).Get(sl) == x.Get(sl)
  {
    hide DigestOf, Advance, SipRelease, MnccRelease, MnccInv, SipInv, PairInv;
    SipReleaseEffect(x, sl.Other());
    if Lingers(x.Get(sl.Other()).s) {
      PairLingersKeeps(x, sl, ready);
    } else {
      var x1 := SipRelease(x, sl.Other());
      MnccFrame(x.Get(sl).m, DigestOf(x.log), DigestOf(x1.log));
      ReleaseAloneKeeps(x1, sl, ready);
    }
  }

  lemma PairLingersKeeps(x: Ctx, sl: Slot, ready: bool)
    requires CallInv(x) && x.Get(sl).Mncc? && x.Get(sl.Other()).Sip? && Lingers(x.Get(sl.Other()).s)
    ensures Keeps(x, MnccRelease(SipRelease(x, sl.Other()), sl, ready))
  {
    hide DigestOf, Advance, SipRelease, MnccRelease, MnccInv, SipInv, HandleInv, UntouchedSip;
    var x1 := SipRelease(x, sl.Other());
    InUseByInv(x, sl.Other());
    SipReleaseEffect(x, sl.Other());
    MnccReleaseEffect(x1, sl, ready);
    if ready {
      PairClearsKeeps(x, sl, MnccRelease(x1, sl, ready));
    } else {
      PairDropsKeeps(x, sl, MnccRelease(x1, sl, ready));
    }
  }

  lemma InUseByInv(x: Ctx, sl: Slot)
    requires CallInv(x) && x.Get(sl).Sip? && !Bare(x.Get(sl).s)
    ensures InUse(x, sl)
  {
    hide DigestOf;
  }

  // BYE or CANCEL is out, and the MNCC leg is in release as well.
  lemma PairClearsKeeps(x: Ctx, sl: Slot, y: Ctx)
    requires CallInv(x) && x.Get(sl).Mncc? && x.Get(sl.Other()).Sip? && Lingers(x.Get(sl.Other()).s)
    requires y.call == x.call.Put(sl, AfterRelease(x.Get(sl).m))
    requires DigestOf(y.log) == AfterRequest(x, x.Get(sl).m).(releasing := true)
    ensures Keeps(x, y)
  {
    hide DigestOf, Advance, MnccInv, SipInv;
    var m, s, d, e := x.Get(sl).m, x.Get(sl.Other()).s, DigestOf(x.log), DigestOf(y.log);
    SipFrame(s, d, e);
    MnccReleases(m, d, Quiet(x).(releasing := true, cleared := true), RelInd, 0);
    MnccReleases(m, d, Quiet(x).(releasing := true, cleared := true), RelCnf, 0);
  }

  // BYE or CANCEL is out, and the MNCC leg is gone.
  lemma PairDropsKeeps(x: Ctx, sl: Slot, y: Ctx)
    requires CallInv(x) && x.Get(sl).Mncc? && x.Get(sl.Other()).Sip? && Lingers(x.Get(sl.Other()).s)
    requires y.call == x.call.Put(sl, NoLeg) && DigestOf(y.log) == Quiet(x).(releasing := true)
    ensures Keeps(x, y)
  {
    hide DigestOf, Advance, MnccInv, SipInv, PairInv;
    SipFrame(x.Get(sl.Other()).s, DigestOf(x.log), DigestOf(y.log));
  }

  lemma SetupComplIndKeeps(x: Ctx, sl: Slot, sdp: string)
    requires CallInv(x) && x.Get(sl).Mncc?
    ensures Keeps(x, OnSetupComplInd(x, sl, sdp))
  {
    hide DigestOf, Hear, CallInv;
    HearKeeps(x, sl, sdp);
    CompletedKeeps(Hear(x, sl, sdp), sl);
  }

  lemma CompletedKeeps(x: Ctx, sl: Slot)
    requires CallInv(x) && x.Get(sl).Mncc?
    ensures Keeps(x, x.Put(sl, Mncc(StopTimer(x.Get(sl).m, SetupComplInd).(state := MConnected))))
  {
    hide DigestOf;
  }

  lemma SetupCnfKeeps(x: Ctx, sl: Slot, sdp: string, ready: bool)
    requires CallInv(x) && x.Get(sl).Mncc? && x.Get(sl).m.dir == MT
    ensures Keeps(x, OnSetupCnf(x, sl, sdp, ready))
  {
    hide DigestOf, Hear, MnccRelease, ConnectLeg;
    assert sl == Remote;
    HearKeeps(x, sl, sdp);
    var x1 := Hear(x, sl, sdp);
    if x1.Get(Initial).Sip? {
      SetupCnfConnects(x1);
    } else {
      MnccReleaseEffect(x1, sl, ready);
    }
  }

  lemma CompleteEffect(x: Ctx, sl: Slot)
    requires x.Get(sl).Mncc? && !x.Get(sl.Other()).NoLeg?
    ensures var y := CompleteSetup(x, sl);
            && y.call == x.call.Put(sl, Mncc(x.Get(sl).m.(state := MConnected)))
            && DigestOf(y.log) == Quiet(x).(media := Some(x.Get(sl.Other()).Common().addr))
  {
    hide DigestOf;
  }

  lemma SetupCnfConnects(x: Ctx)
    requires CallInv(x) && x.call.remote.Mncc? && x.call.initial.Sip?
    ensures Keeps(x, ConnectLeg(CompleteSetup(x, Remote), Initial))
  {
    hide DigestOf, Advance, CompleteSetup, Answer, SipInv, MnccInv, PairInv, UntouchedSip;
    CompleteEffect(x, Remote);
    var x1 := CompleteSetup(x, Remote);
    var x2 := x1.Put(Initial, Sip(x1.Get(Initial).s.(state := SConnected)));
    AnswerEffect(x2, Initial, SendRecv);
    SetupLegsKeep(x, ConnectLeg(x1, Initial));
  }

  lemma SetupLegsKeep(x: Ctx, y: Ctx)
    requires CallInv(x) && x.call.remote.Mncc? && x.call.initial.Sip?
    requires y.call == CallV(x.call.id, Sip(CodecFor(x.call.initial.s.(state := SConnected), x.call.remote.m.base)),
                             Mncc(x.call.remote.m.(state := MConnected)))
    requires DigestOf(y.log) == Quiet(x).(media := Some(x.call.initial.s.base.addr))
    ensures Keeps(x, y)
  {
    hide DigestOf, Advance;
  }

  lemma CallConfIndKeeps(x: Ctx, sl: Slot, sdp: string)
    requires CallInv(x) && x.Get(sl).Mncc? && x.Get(sl).m.dir == MT
    ensures Keeps(x, OnCallConfInd(x, sl, sdp))
  {
    hide DigestOf, Hear, CallInv;
    assert sl == Remote by { MtIsRemote(x, sl); }
    HearKeeps(x, sl, sdp);
    var x1 := Hear(x, sl, sdp);
    var other := x1.Get(Initial);
    if !other.NoLeg? && other.Common().rxSdp != "" && other.Common().rxChanged {
      ForwardKeeps(x1, other.Common().rxSdp);
    } else {
      AskRtpKeeps(x1);
    }
  }

  lemma MtIsRemote(x: Ctx, sl: Slot)
    requires CallInv(x) && x.Get(sl).Mncc? && x.Get(sl).m.dir == MT
    ensures sl == Remote
  {
    hide DigestOf;
  }

  lemma AskRtpKeeps(x: Ctx)
    requires CallInv(x) && x.call.remote.Mncc?
    ensures Keeps(x, Send(x.Put(Remote, Mncc(StartTimer(x.call.remote.m, RtpCreateRsp))),
            TxRtpCreate(x.call.remote.m.callref, "")))
  {
    hide DigestOf;
  }

  lemma ForwardKeeps(x: Ctx, sdp: string)
    requires CallInv(x) && x.call.remote.Mncc? && !x.call.initial.NoLeg? && x.call.initial.Common().rxSdp == sdp
    ensures var leg := x.call.initial;
            var x2 := x.Put(Initial, leg.WithCommon(leg.Common().(rxChanged := false)));
            Keeps(x, Send(x2.Put(Remote, Mncc(StartTimer(x.call.remote.m, RtpCreateRsp))),
              TxRtpCreate(x.call.remote.m.callref, sdp)))
  {
    hide DigestOf;
  }

  lemma AlertIndKeeps(x: Ctx, sl: Slot, sdp: string, ready: bool)
    requires CallInv(x) && x.Get(sl).Mncc? && x.Get(sl).m.dir == MT
    ensures Keeps(x, OnAlertInd(x, sl, sdp, ready))
  {
    hide DigestOf, Hear, CallInv, MnccRelease, RingLeg;
    HearKeeps(x, sl, sdp);
    var x1 := Hear(x, sl, sdp);
    if x1.Get(sl.Other()).NoLeg? {
      ReleaseAloneKeeps(x1, sl, ready);
    } else {
      RingKeeps(x1, sl);
    }
  }

  lemma RingKeeps(x: Ctx, sl: Slot)
    requires CallInv(x) && x.Get(sl).Mncc? && x.Get(sl).m.dir == MT && !x.Get(sl.Other()).NoLeg?
    ensures Keeps(x, RingLeg(x, sl.Other()))
  {
    hide DigestOf, MnccRing;
  }

  lemma HoldIndKeeps(x: Ctx, sl: Slot)
    requires CallInv(x) && x.Get(sl).Mncc?
    ensures Keeps(x, OnHoldInd(x, sl))
  {
    hide DigestOf, HoldLeg, CallInv;
    if x.Get(sl.Other()).NoLeg? {
      SignalKeeps(x, HoldRej, x.Get(sl).m.callref);
    } else {
      HoldPairKeeps(x, sl);
    }
  }

  lemma SignalKeeps(x: Ctx, signal: Signal, callref: nat)
    requires CallInv(x) && signal != SetupRsp
    ensures Keeps(x, Send(x, TxSignal(signal, callref)))
  {
    hide DigestOf;
  }

  lemma HoldPairKeeps(x: Ctx, sl: Slot)
    requires CallInv(x) && x.Get(sl).Mncc? && !x.Get(sl.Other()).NoLeg?
    ensures Keeps(x, OnHoldInd(x, sl))
  {
    hide DigestOf, Advance, SipModify, ConfirmHold, MnccInv, SipInv, PairInv, UntouchedSip;
    SipModifyEffect(x, sl.Other(), SendOnly, SHold);
    ConfirmHoldEffect(HoldLeg(x, sl.Other()), sl);
    ModifiedKeeps(x, sl, OnHoldInd(x, sl), MHold, SHold);
  }

  // A re-INVITE went out, and the legs are in corresponding states.
  lemma ModifiedKeeps(x: Ctx, sl: Slot, y: Ctx, state: MnccState, sip: SipState)
    requires CallInv(x) && x.Get(sl).Mncc? && x.Get(sl.Other()).Sip? && y.call.id == x.call.id
    requires (state == MHold && sip == SHold) || (state == MConnected && sip == SConnected)
    requires y.Get(sl) == Mncc(x.Get(sl).m.(state := state))
    requires y.Get(sl.Other()) == Sip(CodecFor(x.Get(sl.Other()).s, x.Get(sl).m.base).(state := sip))
    requires var d, e := DigestOf(x.log), DigestOf(y.log);
             && e == d.(asked := true, atRtpConnect := e.atRtpConnect, media := e.media)
             && (e.media == d.media || e.media == Some(x.Get(sl.Other()).s.base.addr))
    ensures Keeps(x, y)
  {
    hide DigestOf, Advance, MnccInv;
    MnccMoves(x.Get(sl).m, DigestOf(x.log), DigestOf(y.log), state);
  }

  lemma ConfirmHoldEffect(x: Ctx, sl: Slot)
    requires x.Get(sl).Mncc?
    ensures var y := ConfirmHold(x, sl);
            y.call == x.call.Put(sl, Mncc(x.Get(sl).m.(state := MHold))) && DigestOf(y.log) == Quiet(x)
  {
    hide DigestOf;
  }

  lemma RetrieveIndKeeps(x: Ctx, sl: Slot, ready: bool)
    requires CallInv(x) && x.Get(sl).Mncc?
    ensures Keeps(x, OnRetrieveInd(x, sl, ready))
  {
    hide DigestOf, MnccRelease, RetrieveLeg, CallInv;
    if x.Get(sl.Other()).NoLeg? {
      SignalKeeps(x, RetrieveCnf, x.Get(sl).m.callref);
      ReleaseAloneKeeps(Send(x, TxSignal(RetrieveCnf, x.Get(sl).m.callref)), sl, ready);
    } else {
      RetrievePairKeeps(x, sl, ready);
    }
  }

  lemma ReleaseAloneKeeps(x: Ctx, sl: Slot, ready: bool)
    requires CallInv(x) && x.Get(sl).Mncc? && x.Get(sl.Other()).NoLeg?
    ensures Keeps(x, MnccRelease(x, sl, ready))
  {
    hide DigestOf, Advance, CallInv, StartRelease;
    var m := x.Get(sl).m;
    FreeKeeps(x, sl);
    SignalKeeps(x, RejReq, m.callref);
    FreeKeeps(Send(x, TxSignal(RejReq, m.callref)), sl);
    StartAloneKeeps(x, sl, DiscReq, RelInd);
    StartAloneKeeps(x, sl, RelReq, RelCnf);
  }

  lemma FreeKeeps(x: Ctx, sl: Slot)
    requires CallInv(x) && x.Get(sl).Mncc?
    ensures Keeps(x, Free(x, sl))
  {
    hide DigestOf, Advance;
  }

  lemma RetrievePairKeeps(x: Ctx, sl: Slot, ready: bool)
    requires CallInv(x) && x.Get(sl).Mncc? && !x.Get(sl.Other()).NoLeg?
    ensures Keeps(x, OnRetrieveInd(x, sl, ready))
  {
    hide DigestOf, Advance, SipModify, MnccRelease, Resume, MnccInv, SipInv, PairInv, UntouchedSip;
    SipModifyEffect(x, sl.Other(), SendRecv, SConnected);
    ResumeEffect(RetrieveLeg(x, sl.Other()), sl);
    ModifiedKeeps(x, sl, OnRetrieveInd(x, sl, ready), MConnected, SConnected);
  }

  lemma ResumeEffect(x: Ctx, sl: Slot)
    requires x.Get(sl).Mncc? && !x.Get(sl.Other()).NoLeg?
    ensures var y := Resume(x, sl);
            && y.call == x.call.Put(sl, Mncc(x.Get(sl).m.(state := MConnected)))
            && DigestOf(y.log) == DigestOf(x.log).(media := Some(x.Get(sl.Other()).Common().addr), atRtpConnect := true)
  {
    hide DigestOf, Advance;
    var m := x.Get(sl).m;
    SignalEffect(x, RetrieveCnf, m.callref);
    var x1 := Send(x, TxSignal(RetrieveCnf, m.callref)).Put(sl, Mncc(m.(state := MConnected)));
    RtpConnectEffect(x1, sl, x1.Get(sl.Other()).Common());
  }

  lemma SignalEffect(x: Ctx, signal: Signal, callref: nat)
    requires signal != SetupRsp && signal != CallProcReq
    ensures DigestOf(Send(x, TxSignal(signal, callref)).log) == Quiet(x)
  {
    hide DigestOf;
  }

  lemma TimeoutKeeps(x: Ctx, sl: Slot, ready: bool)
    requires CallInv(x) && x.Get(sl).Mncc?
    ensures Keeps(x, OnTimeout(x, sl, ready))
  {
    hide DigestOf, CallInv;
    PartnerReleaseKeeps(x, sl, 0, ready);
  }

  lemma RelIndKeeps(x: Ctx, sl: Slot, cause: int, ready: bool)
    requires CallInv(x) && x.Get(sl).Mncc?
    ensures Keeps(x, OnRelInd(x, sl, cause, ready))
    ensures Keeps(x, Free(x, sl))
  {
    hide DigestOf, ReleaseWithCause;
    PartnerReleaseKeeps(x, sl, cause, ready);
  }

  lemma AnswerKeyKeeps(x: Ctx, callref: nat, answer: KeypadAnswer, key: int)
    requires CallInv(x)
    ensures Keeps(x, AnswerKey(x, callref, answer, key))
  {
    hide DigestOf;
  }

  lemma DtmfLegKeeps(x: Ctx, sl: Slot, key: int)
    requires CallInv(x) && x.Get(sl).Sip? && x.Get(sl).Common().ops.dtmf != Unset
    ensures Keeps(x, DtmfLeg(x, sl, key))
  {
    hide DigestOf;
  }

  lemma StartDtmfKeeps(x: Ctx, sl: Slot, key: int, sdp: string)
    requires CallInv(x) && x.Get(sl).Mncc?
    ensures Keeps(x, OnStartDtmf(x, sl, key, sdp))
  {
    hide DigestOf, Hear, CallInv, DtmfLeg, AnswerKey;
    HearKeeps(x, sl, sdp);
    var x1 := Hear(x, sl, sdp);
    var callref := x1.Get(sl).m.callref;
    AnswerKeyKeeps(x1, callref, StartDtmfRsp, key);
    var other := x1.Get(sl.Other());
    if !other.NoLeg? && other.Common().ops.dtmf != Unset {
      assert other.Sip? by { OneMnccLeg(x1, sl); }
      DtmfLegKeeps(x1, sl.Other(), key);
      AnswerKeyKeeps(DtmfLeg(x1, sl.Other(), key), callref, StartDtmfRsp, key);
    }
  }

  lemma OneSipLeg(x: Ctx, sl: Slot)
    requires CallInv(x) && x.Get(sl).Sip?
    ensures !x.Get(sl.Other()).Sip?
  {
    hide DigestOf;
  }

  lemma OneMnccLeg(x: Ctx, sl: Slot)
    requires CallInv(x) && x.Get(sl).Mncc?
    ensures !x.Get(sl.Other()).Mncc?
  {
    hide DigestOf;
  }

  lemma StopDtmfKeeps(x: Ctx, sl: Slot, key: int, sdp: string)
    requires CallInv(x) && x.Get(sl).Mncc?
    ensures Keeps(x, OnStopDtmf(x, sl, key, sdp))
  {
    hide DigestOf, Hear, CallInv, AnswerKey;
    HearKeeps(x, sl, sdp);
    AnswerKeyKeeps(Hear(x, sl, sdp), x.Get(sl).m.callref, StopDtmfRsp, key);
  }

  lemma MnccMsgKeeps(x: Ctx, sl: Slot, msg: MnccMsg, ready: bool)
    requires CallInv(x) && x.Get(sl).Mncc? && MnccAllowed(x.Get(sl).m, msg)
    ensures CallInv(OnMncc(x, sl, msg, ready))
    ensures Evolves(x, OnMncc(x, sl, msg, ready), TakenBy(msg))
  {
    hide DigestOf, CallInv, OnRtpCreate, OnRtpConnect, OnDiscInd, OnRelInd, OnSetupComplInd, OnSetupCnf, OnCallConfInd,
      OnAlertInd, OnHoldInd, OnRetrieveInd, OnStartDtmf, OnStopDtmf, ReleaseWithCause;
    match msg
    case RtpCreate(_, _, _, _, _) =>
      if x.Get(sl).m.dir == MO { RtpCreateKeepsMo(x, sl, msg, ready); } else { RtpCreateKeepsMt(x, sl, msg, ready); }
    case RtpConnect(_, _, _) => RtpConnectKeeps(x, sl, msg, ready);
    case DiscInd(cause, _) => DiscIndKeeps(x, sl, cause, ready);
    case RelIndMsg(cause, _) => RelIndKeeps(x, sl, cause, ready);
    case RejInd(cause, _) => PartnerReleaseKeeps(x, sl, cause, ready);
    case RelCnfMsg(_) => RelIndKeeps(x, sl, 0, ready);
    case SetupComplIndMsg(sdp) => SetupComplIndKeeps(x, sl, sdp);
    case SetupCnf(sdp) => SetupCnfKeeps(x, sl, sdp, ready);
    case CallConfInd(sdp) => CallConfIndKeeps(x, sl, sdp);
    case AlertInd(sdp) => AlertIndKeeps(x, sl, sdp, ready);
    case HoldInd(_) => HoldIndKeeps(x, sl);
    case RetrieveInd(_) => RetrieveIndKeeps(x, sl, ready);
    case StartDtmf(key, sdp) => StartDtmfKeeps(x, sl, key, sdp);
    case StopDtmf(key, sdp) => StopDtmfKeeps(x, sl, key, sdp);
  }

  // ---------------------------------------------------------------- SIP events

  // Releasing the MNCC leg once the SIP leg is gone.
  lemma DropEffect(x: Ctx, sl: Slot)
    requires x.Get(sl).Sip? && InUse(x, sl)
    ensures var y := DropSip(x, sl);
            y.call == x.call.Put(sl, NoLeg) && DigestOf(y.log) == Quiet(x).(destroyed := true)
  {
    hide DigestOf, Advance;
    SayEffect(x, sl, Destroy(x.Get(sl).s.handle));
  }

  lemma DropKeeps(x: Ctx, sl: Slot)
    requires CallInv(x) && x.Get(sl).Sip? && !Bare(x.Get(sl).s)
    ensures Keeps(x, DropSip(x, sl))
  {
    hide DigestOf, Advance, DropSip, MnccInv, SipInv, PairInv;
    DropEffect(x, sl);
    if x.Get(sl.Other()).Mncc? {
      MnccFrame(x.Get(sl.Other()).m, DigestOf(x.log), DigestOf(DropSip(x, sl).log));
    }
  }

  lemma KeepsTwice(x: Ctx, y: Ctx, z: Ctx)
    requires Keeps(x, y) && Keeps(y, z)
    ensures Keeps(x, z)
  {
    hide DigestOf, CallInv;
  }

  lemma SipGoneKeeps(x: Ctx, sl: Slot, ready: bool)
    requires CallInv(x) && x.Get(sl).Sip? && !Bare(x.Get(sl).s)
    ensures var y := DropSip(x, sl);
            Keeps(x, y) && Keeps(x, ReleaseIfAny(y, sl.Other(), ready))
  {
    hide DigestOf, Advance, MnccRelease, CallInv;
    DropKeeps(x, sl);
    var y := DropSip(x, sl);
    assert !y.Get(sl.Other()).Sip? by { OneSipLeg(x, sl); }
    ReleaseLoneKeeps(y, sl.Other(), ready);
    KeepsTwice(x, y, ReleaseIfAny(y, sl.Other(), ready));
  }

  // What is left when the SIP leg is gone is an MNCC leg or nothing.
  lemma ReleaseLoneKeeps(x: Ctx, sl: Slot, ready: bool)
    requires CallInv(x) && !x.Get(sl).Sip? && x.Get(sl.Other()).NoLeg?
    ensures Keeps(x, ReleaseIfAny(x, sl, ready))
  {
    hide DigestOf, Advance, MnccRelease, HandleInv, MnccInv, SipInv, PairInv, UntouchedSip;
    if x.Get(sl).Mncc? {
      ReleaseAloneKeeps(x, sl, ready);
    }
  }

  lemma CauseLoneKeeps(x: Ctx, sl: Slot, cause: int, ready: bool)
    requires CallInv(x) && !x.Get(sl).Sip? && x.Get(sl.Other()).NoLeg?
    ensures Keeps(x, ReleaseWithCause(x, sl, cause, ready))
  {
    hide DigestOf, Advance, CallInv, ReleaseLeg;
    if x.Get(sl).Mncc? {
      var m := x.Get(sl).m;
      var x1 := x.Put(sl, Mncc(m.(base := m.base.(cause := cause))));
      CauseKeeps(x, sl, cause);
      ReleaseLoneKeeps(x1, sl, ready);
      KeepsTwice(x, x1, ReleaseIfAny(x1, sl, ready));
    }
  }

  lemma CauseKeeps(x: Ctx, sl: Slot, cause: int)
    requires CallInv(x) && x.Get(sl).Mncc?
    ensures var m := x.Get(sl).m; Keeps(x, x.Put(sl, Mncc(m.(base := m.base.(cause := cause)))))
  {
    hide DigestOf;
  }

  lemma ProgressKeeps(x: Ctx, sl: Slot, payload: Payload)
    requires CallInv(x) && x.Get(sl).Sip? && !Bare(x.Get(sl).s)
    ensures Keeps(x, OnProgress(x, sl, payload))
  {
    hide DigestOf, Advance, MnccRing, Pick, HandleInv, MnccInv, PairInv, UntouchedSip;
    if x.Get(sl.Other()).Mncc? {
      var s := x.Get(sl).s;
      PickStaysPlaceable(payload, s.base.addr, s.base.payloadType, s.codec);
      EarlyMediaKeeps(x, sl, Pick(payload, s.base.addr, s.base.payloadType, s.codec));
    }
  }

  lemma EarlyMediaKeeps(x: Ctx, sl: Slot, p: Picked)
    requires CallInv(x) && x.Get(sl).Sip? && !Bare(x.Get(sl).s) && x.Get(sl.Other()).Mncc? && Placeable(p.addr)
    ensures Keeps(x, MnccRing(x.Put(sl, Sip(Placed(x.Get(sl).s, p))), sl.Other()))
  {
    hide DigestOf, Advance, MnccRing, MnccInv;
    MnccRingEffect(x.Put(sl, Sip(Placed(x.Get(sl).s, p))), sl.Other());
    MnccAtMedia(x.Get(sl.Other()).m, DigestOf(x.log), p.addr);
  }

  lemma MnccAtMedia(m: MLeg, d: Digest, addr: Addr)
    requires MnccInv(m, d)
    ensures MnccInv(m, d.(atRtpConnect := false))
    ensures MnccInv(m, d.(atRtpConnect := true, media := Some(addr)))
  {
  }

  lemma AcceptKeeps(x: Ctx, sl: Slot, payload: Payload, ready: bool)
    requires CallInv(x) && x.Get(sl).Sip? && !Bare(x.Get(sl).s)
    requires x.Get(sl).s.state == SConfirmed && x.Get(sl).s.dir == MT
    ensures Keeps(x, OnAccept(x, sl, payload, ready))
  {
    hide DigestOf, ConnectLeg, RefuseAnswer, Pick;
    assert sl == Remote;
    var s := x.Get(sl).s;
    var p := Pick(payload, s.base.addr, s.base.payloadType, s.codec);
    PickStaysPlaceable(payload, s.base.addr, s.base.payloadType, s.codec);
    if x.call.initial.Mncc? {
      if p.ok {
        ConnectedKeeps(x, p);
      } else {
        RefusedKeeps(x, p, ready);
      }
    }
  }

  lemma RefusedKeeps(x: Ctx, p: Picked, ready: bool)
    requires CallInv(x) && x.call.remote.Sip? && x.call.initial.Mncc? && x.call.remote.s.state == SConfirmed
             && Placeable(p.addr)
    ensures Keeps(x, RefuseAnswer(x.Put(Remote, Sip(Placed(x.call.remote.s, p))), Remote, ready))
  {
    hide DigestOf, MnccRelease;
    var s := x.call.remote.s;
    MnccReleaseEffect(Send(x.Put(Remote, Sip(Placed(s, p))), TxCancel(s.handle)), Initial, ready);
  }

  lemma ConnectedKeeps(x: Ctx, p: Picked)
    requires CallInv(x) && x.call.remote.Sip? && x.call.initial.Mncc? && x.call.remote.s.state == SConfirmed
    requires Placeable(p.addr)
    ensures var s := x.call.remote.s;
            Keeps(x, Send(ConnectLeg(x.Put(Remote, Sip(Placed(s, p).(state := SConnected))), Initial), TxAck(s.handle)))
  {
    hide DigestOf, Advance, MnccConnect, MnccInv, PairInv, UntouchedSip;
    var s := x.call.remote.s;
    var x1 := x.Put(Remote, Sip(Placed(s, p).(state := SConnected)));
    MnccConnectEffect(x1, Initial);
    SayEffect(ConnectLeg(x1, Initial), Remote, TxAck(s.handle));
    ConnectedLegsKeep(x, Send(ConnectLeg(x1, Initial), TxAck(s.handle)), p);
  }

  lemma ConnectedLegsKeep(x: Ctx, y: Ctx, p: Picked)
    requires CallInv(x) && x.call.remote.Sip? && x.call.initial.Mncc? && x.call.remote.s.state == SConfirmed
    requires Placeable(p.addr)
    requires y.call == CallV(x.call.id, Mncc(StartTimer(x.call.initial.m, SetupComplInd)),
                             Sip(Placed(x.call.remote.s, p).(state := SConnected)))
    requires var d := DigestOf(x.log);
             DigestOf(y.log) == Quiet(x).(setupRsps := 1, media := Some(p.addr), lateRsp := d.lateRsp || d.cleared)
    ensures Keeps(x, y)
  {
    hide DigestOf, Advance;
  }

  lemma ConfirmKeeps(x: Ctx, sl: Slot)
    requires CallInv(x) && x.Get(sl).Sip? && x.Get(sl).s.state == SInitial && !Bare(x.Get(sl).s)
    ensures Keeps(x, x.Put(sl, Sip(x.Get(sl).s.(state := SConfirmed))))
  {
    hide DigestOf;
  }

  lemma CancelDropEffect(x: Ctx, sl: Slot)
    requires x.Get(sl).Sip? && InUse(x, sl)
    ensures var y := DropSip(Send(x, TxCancel(x.Get(sl).s.handle)), sl);
            y.call == x.call.Put(sl, NoLeg) && DigestOf(y.log) == Quiet(x).(releasing := true, destroyed := true)
  {
    hide DigestOf;
  }

  lemma CancelDropKeeps(x: Ctx, sl: Slot)
    requires CallInv(x) && x.Get(sl).Sip? && !Bare(x.Get(sl).s)
    ensures Keeps(x, DropSip(Send(x, TxCancel(x.Get(sl).s.handle)), sl))
  {
    hide DigestOf, Advance, DropSip, MnccInv, SipInv, PairInv;
    CancelDropEffect(x, sl);
    if x.Get(sl.Other()).Mncc? {
      MnccFrame(x.Get(sl.Other()).m, DigestOf(x.log), DigestOf(DropSip(Send(x, TxCancel(x.Get(sl).s.handle)), sl).log));
    }
  }

  lemma FinalStatusKeeps(x: Ctx, sl: Slot, status: int, ready: bool)
    requires CallInv(x) && x.Get(sl).Sip? && !Bare(x.Get(sl).s)
    ensures var s := x.Get(sl).s;
            Keeps(x, ReleaseWithCause(DropSip(Send(x, TxCancel(s.handle)), sl), sl.Other(),
                                      CauseMap.StatusToCause(status), ready))
  {
    hide DigestOf, Advance, CallInv, ReleaseWithCause, CauseMap.StatusToCause;
    var y, cause := DropSip(Send(x, TxCancel(x.Get(sl).s.handle)), sl), CauseMap.StatusToCause(status);
    CancelDropKeeps(x, sl);
    assert !y.Get(sl.Other()).Sip? by { OneSipLeg(x, sl); }
    CauseLoneKeeps(y, sl.Other(), cause, ready);
    KeepsTwice(x, y, ReleaseWithCause(y, sl.Other(), cause, ready));
  }

  // Only an outgoing leg can still be unanswered when a response comes.
  lemma AnsweredLegIsMt(x: Ctx, sl: Slot)
    requires CallInv(x) && x.Get(sl).Sip? && DigestOf(x.log).asked && Rank(x.Get(sl).s.state) < 2
    ensures x.Get(sl).s.dir == MT
  {
    hide DigestOf;
  }

  lemma InviteResponseKeeps(x: Ctx, sl: Slot, status: int, payload: Payload, ready: bool)
    requires CallInv(x) && x.Get(sl).Sip? && !Bare(x.Get(sl).s) && DigestOf(x.log).asked
    ensures Keeps(x, OnInviteResponse(x, sl, status, payload, ready))
  {
    hide DigestOf, CallInv, Hear, OnAccept, OnProgress, ReleaseWithCause, CauseMap.StatusToCause;
    HearKeeps(x, sl, Text(payload));
    var x1 := Hear(x, sl, Text(payload));
    var s := x1.Get(sl).s;
    if s.state == SInitial { ConfirmKeeps(x1, sl); }
    var x2 := if s.state == SInitial then x1.Put(sl, Sip(s.(state := SConfirmed))) else x1;
    if status == 180 || status == 183 {
      ProgressKeeps(x2, sl, payload);
    } else if status == 200 {
      if Rank(s.state) < 2 { AnsweredLegIsMt(x, sl); AcceptKeeps(x2, sl, payload, ready); } else { AckKeeps(x2, sl); }
    } else if status >= 300 {
      FinalStatusKeeps(x2, sl, status, ready);
    }
  }

  lemma AckKeeps(x: Ctx, sl: Slot)
    requires CallInv(x) && x.Get(sl).Sip? && !Bare(x.Get(sl).s)
    ensures Keeps(x, Send(x, TxAck(x.Get(sl).s.handle)))
  {
    hide DigestOf;
  }

  lemma AnswerKeeps(x: Ctx, sl: Slot, mode: Mode)
    requires CallInv(x) && x.Get(sl).Sip? && !Bare(x.Get(sl).s) && !x.Get(sl.Other()).NoLeg?
    ensures Keeps(x, Answer(x, sl, mode))
  {
    hide DigestOf, Answer;
    AnswerEffect(x, sl, mode);
  }

  // A re-INVITE that moves the media.
  lemma MovedKeeps(x: Ctx, sl: Slot, p: Picked, ready: bool)
    requires CallInv(x) && x.Get(sl).Sip? && !Bare(x.Get(sl).s) && x.Get(sl.Other()).Mncc?
    requires p.ok && Placeable(p.addr)
    ensures var x2 := x.Put(sl, Sip(Placed(x.Get(sl).s, p)));
            Keeps(x, if p.addr != x.Get(sl).s.base.addr then UpdateRtp(x2, Remote, ready) else x2)
  {
    hide DigestOf;
  }

  // One without usable media: the leg is dropped and its partner stays.
  lemma DroppedKeeps(x: Ctx, sl: Slot, p: Picked)
    requires CallInv(x) && x.Get(sl).Sip? && !Bare(x.Get(sl).s)
    ensures var h := x.Get(sl).s.handle;
            Keeps(x, DropSip(Send(x.Put(sl, Sip(Placed(x.Get(sl).s, p))), TxReject(h, 406, None)), sl))
  {
    hide DigestOf;
  }

  lemma SipReleaseKeepsAlone(x: Ctx, sl: Slot)
    requires CallInv(x) && x.Get(sl).Sip? && !Bare(x.Get(sl).s) && x.Get(sl.Other()).NoLeg?
    ensures Keeps(x, SipRelease(x, sl))
  {
    hide DigestOf, SipRelease;
    SipReleaseEffect(x, sl);
  }

  lemma ReinviteKeeps(x: Ctx, sl: Slot, payload: Payload, ready: bool)
    requires CallInv(x) && x.Get(sl).Sip? && !Bare(x.Get(sl).s)
    ensures Keeps(x, OnReinvite(x, sl, payload, ready))
  {
    hide DigestOf, Hear, SipRelease, Answer, Pick, UpdateRtp, MediaMode;
    var s := x.Get(sl).s;
    if x.Get(sl.Other()).NoLeg? {
      SipReleaseKeepsAlone(x, sl);
    } else if MediaMode(payload).None? {
      AnswerKeeps(x, sl, SendRecv);
    } else {
      HearKeeps(x, sl, Text(payload));
      var x1 := Hear(x, sl, Text(payload));
      var p := Pick(payload, s.base.addr, s.base.payloadType, None);
      PickStaysPlaceable(payload, s.base.addr, s.base.payloadType, None);
      if MediaMode(payload).value == SendOnly {
        AnswerKeeps(x1, sl, RecvOnly);
      } else if !p.ok {
        DroppedKeeps(x1, sl, p);
      } else {
        MovedKeeps(x1, sl, p, ready);
        var x2 := x1.Put(sl, Sip(Placed(x1.Get(sl).s, p)));
        var x3 := if p.addr != s.base.addr then UpdateRtp(x2, Remote, ready) else x2;
        assert x3.call == x2.call by { UpdateRtpKeepsLegs(x2, ready); }
        AnswerKeeps(x3, sl, SendRecv);
      }
    }
  }

  lemma UpdateRtpKeepsLegs(x: Ctx, ready: bool)
    requires !x.Get(Initial).NoLeg? && !x.Get(Remote).NoLeg?
    ensures UpdateRtp(x, Remote, ready).call == x.call
  {
  }

  lemma SipEventKeeps(x: Ctx, sl: Slot, ev: SipEvent, ready: bool)
    requires CallInv(x) && x.Get(sl).Sip? && !Bare(x.Get(sl).s) && SipAllowed(x.log, ev)
    ensures Keeps(x, OnSip(x, sl, ev, ready))
  {
    hide DigestOf, CallInv, Hear, OnInviteResponse, OnReinvite, ReleaseIfAny;
    match ev
    case InviteResponse(status, payload) => InviteResponseKeeps(x, sl, status, payload, ready);
    case GotAck(payload) =>
      if payload.Payload? {
        HearKeeps(x, sl, Text(payload));
        ReinviteKeeps(Hear(x, sl, Text(payload)), sl, payload, ready);
      }
    case GotReinvite(payload) =>
      HearKeeps(x, sl, Text(payload));
      ReinviteKeeps(Hear(x, sl, Text(payload)), sl, payload, ready);
    case _ => SipGoneKeeps(x, sl, ready);
  }

  // ---------------------------------------------------------------- connection loss and new calls

  lemma DisconnectKeeps(x: Ctx)
    requires CallInv(x) && x.call.HasMncc()
    ensures Keeps(x, OnDisconnect(x))
    ensures !OnDisconnect(x).call.HasMncc()
    ensures !OnDisconnect(x).call.Gone() ==> DigestOf(OnDisconnect(x).log).releasing
  {
    hide DigestOf, SipRelease;
    if x.call.initial.Sip? {
      SipReleaseEffect(x, Initial);
    } else if x.call.remote.Sip? {
      SipReleaseEffect(Free(x, Initial), Remote);
    }
  }

  lemma NewMnccCallOk(id: nat, callref: nat, sdp: string)
    ensures var y := NewMnccCall(id, callref, sdp);
            && CallInv(y) && y.call.id == id && y.call.initial.Mncc? && y.call.initial.m.callref == callref
            && y.call.remote.NoLeg? && DigestOf(y.log).handle.None?
  {
    hide DigestOf, Hear;
    var m := MLeg(NEW_BASE.(ops := MNCC_OPS), MInitial, MO, callref, false, NoResponse);
    DigestEmpty();
    HearEffect(Ctx(CallV(id, Mncc(m), NoLeg), []), Initial, sdp);
  }

  // A call from the PBX that is ready to be routed.
  predicate Routable(x: Ctx) {
    var d := DigestOf(x.log);
    && x.call.initial.Sip? && !Bare(x.call.initial.s) && x.call.initial.s.state == SConfirmed && x.call.remote.NoLeg?
    && x.call.initial.s.base.ops.release == OfSip && !d.cleared
    && !d.releasing && !d.asked && d.media.None? && d.heardMncc == "" && d.setupRsps == 0
  }

  lemma DeclinedOk(id: nat, handle: Handle, payload: Payload)
    requires handle != NULL_HANDLE
    ensures var y := NewSipCall(id, handle, payload, false);
            && CallInv(y) && y.call.id == id && DigestOf(y.log).handle == Some(handle)
            && y.call.initial.Sip? && Bare(y.call.initial.s) && y.call.remote.NoLeg?
  {
    hide DigestOf, Admit;
    DigestEmpty();
  }

  // The new leg before and after it is bound.
  lemma BoundOk(id: nat, handle: Handle, p: Picked)
    requires handle != NULL_HANDLE && Placeable(p.addr)
    ensures var s := SLeg(NEW_BASE.(ops := SIP_MO_OPS, addr := p.addr, payloadType := p.payloadType), SConfirmed, MO,
            handle, None);
            var x := Send(Ctx(CallV(id, Sip(s), NoLeg), []), Bind(handle));
            CallInv(x) && Routable(x) && DigestOf(x.log).handle == Some(handle)
  {
    hide DigestOf;
    DigestEmpty();
  }

  lemma HearStaysRoutable(x: Ctx, sdp: string)
    requires CallInv(x) && Routable(x)
    ensures Routable(Hear(x, Initial, sdp)) && DigestOf(Hear(x, Initial, sdp).log).handle == DigestOf(x.log).handle
  {
    hide DigestOf, Advance, Hear, Store, Cut;
    HearEffect(x, Initial, sdp);
    StoreKeeps(x.call.initial.s.base, sdp);
  }

  lemma UnplacedOk(id: nat, handle: Handle, s: SLeg)
    requires handle != NULL_HANDLE
    ensures var y := Free(Decline(Ctx(CallV(id, Sip(s), NoLeg), []), handle), Initial);
            CallInv(y) && y.call.id == id && DigestOf(y.log).handle == Some(handle) && y.call.Gone()
  {
    hide DigestOf;
    DigestEmpty();
  }

  lemma AdmittedOk(id: nat, handle: Handle, payload: Payload)
    requires handle != NULL_HANDLE
    ensures var y := NewSipCall(id, handle, payload, true);
            && CallInv(y) && y.call.id == id && DigestOf(y.log).handle == Some(handle)
            && if Pick(payload, NO_ADDR, 0, None).ok then Routable(y) else y.call.Gone()
  {
    hide DigestOf, Advance, Hear, Pick, CallInv, Decline;
    var p := Pick(payload, NO_ADDR, 0, None);
    PickStaysPlaceable(payload, NO_ADDR, 0, None);
    BoundOk(id, handle, p);
    var s := SLeg(NEW_BASE.(ops := SIP_MO_OPS, addr := p.addr, payloadType := p.payloadType), SConfirmed, MO, handle,
      None);
    var x := Send(Ctx(CallV(id, Sip(s), NoLeg), []), Bind(handle));
    HearKeeps(x, Initial, Text(payload));
    HearStaysRoutable(x, Text(payload));
    UnplacedOk(id, handle, Placed(SLeg(NEW_BASE, SConfirmed, MO, NULL_HANDLE, None), p));
  }

  lemma NewSipCallOk(id: nat, handle: Handle, payload: Payload, accepted: bool)
    requires handle != NULL_HANDLE
    ensures var y := NewSipCall(id, handle, payload, accepted);
            && CallInv(y) && y.call.id == id && !y.call.HasMncc() && DigestOf(y.log).handle == Some(handle)
            && (y.call.Gone() <==> accepted && !Pick(payload, NO_ADDR, 0, None).ok)
            && (!y.call.Gone() ==> if accepted then Routable(y) else Bare(y.call.initial.s) && y.call.remote.NoLeg?)
  {
    hide DigestOf, Pick, NewSipCall, CallInv;
    DeclinedOk(id, handle, payload);
    AdmittedOk(id, handle, payload);
  }

  lemma RouteToMnccKeeps(x: Ctx)
    requires CallInv(x) && Routable(x)
    ensures var y := RouteToMncc(x);
            && CallInv(y) && y.call.id == x.call.id && DigestOf(y.log).handle == DigestOf(x.log).handle
            && y.call.initial.Sip? && y.call.remote.Mncc? && y.call.remote.m.callref == x.call.id
  {
    hide DigestOf;
  }

  // A call that cannot be routed is refused and gone.
  lemma UnroutableIsGone(x: Ctx)
    requires CallInv(x) && Routable(x)
    ensures Keeps(x, SipRelease(x, Initial)) && SipRelease(x, Initial).call.Gone()
  {
    hide DigestOf, SipRelease;
    SipReleaseEffect(x, Initial);
  }
}
