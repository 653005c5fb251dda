/** What reaches the other side: which entries an event adds to a call's trace, and what they carry,
    in every state of every run. */
module Outcomes {
  import opened Domain
  import opened Sdp
  import opened Trace
  import opened CallMachine
  import opened CallInvariant
  import opened Bridge
  import opened CallList
  import opened Lifecycle
  import opened Guarantees
  import opened Locality
  import opened Scenario
  import opened Protocol
  import opened Relay
  import opened Effects
  import CauseMap

  // ---------------------------------------------------------------- a pair and its turn

  // The event is a message for the MNCC leg in the slot.
  predicate IsFor(c: CallV, sl: Slot, e: Event) {
    e.FromMsc? && HasRef(c.Get(sl), e.callref)
  }

  // The event is one on the SIP leg beside it.
  predicate IsOn(c: CallV, sl: Slot, e: Event) {
    e.FromPbx? && HasHandle(c.Get(sl.Other()), e.handle)
  }

  lemma PairTurn(s: State, e: Event, i: nat, sl: Slot)
    requires Reachable(s) && Allowed(s, e) && i < |s.calls| && Paired(s.calls[i], sl)
    ensures var c, t := s.calls[i], TraceOf(s, s.calls[i].id);
            var m, p := c.Get(sl).m, c.Get(sl.Other()).s;
            && Lands(Step(s, e), c.id, Taken(At(s, i), TurnOf(s, e, i)))
            && MnccPart(c) == Some(m) && SipPart(c) == Some(p) && MnccPlace(c) == sl
            && m.base.rxSdp == LastHeard(t, MnccSide) && p.base.rxSdp == LastHeard(t, SipSide)
            && m.dir == (if sl == Initial then MO else MT) && p.dir == (if sl == Initial then MT else MO)
            && (m.dir == MO ==> m.state != MInitial)
  {
    hide Reachable, Allowed, Step, DigestOf, Lands, TurnOf, Taken, TableInv, LastHeard;
    StepTakesTurn(s, e, i);
    StoredSdpIsHeard(s, i, sl);
    StoredSdpIsHeard(s, i, sl.Other());
    CallsOwnTheirLegs(s, i);
    ReachableInv(s);
    PairedInv(s, i, sl);
  }

  // ---------------------------------------------------------------- clearing

  // The MSC confirms a release that nobody asked for.
  predicate Forgets(c: CallV, sl: Slot, e: Event) {
    IsFor(c, sl, e) && e.msg.RelCnfMsg? && !c.Get(sl).m.base.inRelease
  }

  lemma FarewellReleases(s: SLeg, first: seq<Entry>, last: seq<Entry>)
    requires Lingers(s)
    ensures ReleaseOutstanding(first + Farewell(s) + last)
  {
    hide CauseMap.CauseToStatus, CauseMap.ReasonText;
    assert IsRelease((first + Farewell(s) + last)[|first|]);
  }

  // The MNCC leg goes and the SIP leg stays.
  predicate Leaves(t: Turn) {
    t.mncc.None? && t.sip.Some?
  }

  lemma MessageReleases(m: MLeg, p: SLeg, msg: MnccMsg, ready: bool)
    requires !m.base.inRelease && (msg.RtpCreate? ==> m.dir == MT) && Leaves(TurnOfMessage(m, Some(p), msg, ready))
    ensures var said := TurnOfMessage(m, Some(p), msg, ready).said;
            if msg.RelCnfMsg? then said == [] else ReleaseOutstanding(said)
  {
    hide Store, BodyFor, CodecFor, Farewell, Clear, ReleaseOutstanding;
    var said := TurnOfMessage(m, Some(p), msg, ready).said;
    if msg.RtpConnect? {
      FarewellReleases(p, [Heard(MnccSide, msg.sdp)], Clear(MHeard(m, msg.sdp), ready));
    } else if msg.RelIndMsg? || msg.RejInd? {
      FarewellReleases(SCause(p, msg.cause), [], []);
      assert [] + Farewell(SCause(p, msg.cause)) + [] == said;
    }
  }

  lemma EventReleases(m: MLeg, p: SLeg, ev: SipEvent, ready: bool)
    requires Leaves(TurnOfEvent(Some(m), p, ev, ready))
    ensures ReleaseOutstanding(TurnOfEvent(Some(m), p, ev, ready).said)
  {
    hide Store, Pick, BodyFor, CodecFor, CauseMap.StatusToCause;
    assert IsRelease(TurnOfEvent(Some(m), p, ev, ready).said[1]);
  }

  lemma TurnReleases(s: State, e: Event, i: nat, sl: Slot)
    requires Reachable(s) && Allowed(s, e) && i < |s.calls| && Paired(s.calls[i], sl)
    requires !s.calls[i].Get(sl).m.base.inRelease && Leaves(TurnOf(s, e, i))
    ensures var said := TurnOf(s, e, i).said;
            if Forgets(s.calls[i], sl, e) then said == [] else ReleaseOutstanding(said)
  {
    hide Reachable, Inv, Step, DigestOf, Lands, TurnOfMessage, TurnOfEvent, Farewell, Parted, ReleaseOutstanding,
      LastHeard, Breaks, FreshHandle, FreshRef, MnccAllowed;
    PairTurn(s, e, i, sl);
    var c := s.calls[i];
    var m, p, ready := c.Get(sl).m, c.Get(sl.Other()).s, s.conn == Ready;
    if IsFor(c, sl, e) {
      PairCreates(s, i, sl, e.callref, e.msg);
      if !Refuses(m, e.msg) { MessageReleases(m, p, e.msg, ready); }
    } else if IsOn(c, sl, e) {
      EventReleases(m, p, e.ev, ready);
    } else if TurnOf(s, e, i) == TurnOfTimeout(Some(p)) {
      PartedLingers(p);
      FarewellReleases(p, [], []);
      assert [] + Farewell(p) + [] == TurnOf(s, e, i).said;
    }
  }

  lemma PartedLingers(p: SLeg)
    ensures Parted(p).Some? <==> Lingers(p)
  {
  }

  // RTP_CREATE comes on a call with both legs only if that call goes to the mobile.
  lemma PairCreates(s: State, i: nat, sl: Slot, callref: nat, msg: MnccMsg)
    requires Reachable(s) && Allowed(s, FromMsc(callref, msg)) && i < |s.calls| && Paired(s.calls[i], sl)
    requires HasRef(s.calls[i].Get(sl), callref)
    ensures MnccAllowed(s.calls[i].Get(sl).m, msg) || Refuses(s.calls[i].Get(sl).m, msg)
    ensures msg.RtpCreate? && !Refuses(s.calls[i].Get(sl).m, msg) ==> s.calls[i].Get(sl).m.dir == MT
  {
    hide Reachable, TableInv, CallInv, DigestOf, FreshHandle;
    ReachableInv(s);
    ListedKeeps(s, i);
    ListedIsCast(At(s, i));
    MessageFindsLeg(s, callref, i, sl);
  }

  // When an event takes the MNCC leg of a pair away and leaves the SIP leg, a BYE or CANCEL is out on
  // it, except exactly when the MSC confirmed a release that was not asked for.
  lemma PartnerIsReleasedExactly(s: State, e: Event, i: nat, sl: Slot, d: CallV)
    requires Reachable(s) && Allowed(s, e) && i < |s.calls| && Paired(s.calls[i], sl)
    requires d in Step(s, e).calls && d.id == s.calls[i].id && d.Get(sl).NoLeg? && !d.Get(sl.Other()).NoLeg?
    ensures ReleaseOutstanding(TraceOf(Step(s, e), d.id)) <==> !Forgets(s.calls[i], sl, e)
  {
    hide Reachable, Allowed, Step, DigestOf, TurnOf, LastHeard;
    PairTurn(s, e, i, sl);
    ReleaseIsSymmetric(s, i, sl);
    var t, said := TraceOf(s, d.id), TurnOf(s, e, i).said;
    if s.calls[i].Get(sl).m.base.inRelease {
      var k :| 0 <= k < |t| && IsRelease(t[k]);
      assert IsRelease((t + said)[k]);
    } else {
      TurnReleases(s, e, i, sl);
      if !Forgets(s.calls[i], sl, e) {
        var k :| 0 <= k < |said| && IsRelease(said[k]);
        assert IsRelease((t + said)[|t| + k]);
      }
    }
  }

  // The MSC clears the call or fails to answer in time.
  predicate Clears(c: CallV, sl: Slot, e: Event) {
    || (IsFor(c, sl, e) && (e.msg.RelIndMsg? || e.msg.RejInd? || e.msg.DiscInd?))
    || (e.Timeout? && e.id == c.id)
  }

  // The cause the SIP leg is released with: that of the message, or the one it has.
  function ClearingCause(p: SLeg, e: Event): int {
    if e.FromMsc? && (e.msg.RelIndMsg? || e.msg.RejInd? || e.msg.DiscInd?) then e.msg.cause else p.base.cause
  }

  // The farewell to the PBX: BYE once the call was answered, CANCEL while the PBX is being called, a final
  // failure with the cause while it is calling, and before its first response just the end of the handle.
  lemma FarewellMeans(p: SLeg)
    ensures Rank(p.state) == 2 ==> Farewell(p) == [TxBye(p.handle)]
    ensures p.state == SConfirmed && p.dir == MT ==> Farewell(p) == [TxCancel(p.handle)]
    ensures p.state == SConfirmed && p.dir == MO ==>
              Farewell(p) == [TxReject(p.handle, CauseMap.CauseToStatus(p.base.cause),
                                       Some(CauseMap.ReasonText(p.base.cause))), Destroy(p.handle)]
    ensures p.state == SInitial ==> Farewell(p) == [Destroy(p.handle)]
  {
    hide CauseMap.CauseToStatus, CauseMap.ReasonText;
  }

  // What is said before the farewell: DISC_IND is answered.
  function Front(m: MLeg, e: Event): seq<Entry> {
    if e.FromMsc? && e.msg.DiscInd? then [TxClear(RelReq, m.callref, m.base.cause)] else []
  }

  // REL_IND, REJ_IND, DISC_IND and the expiry of the timer tell the PBX that the call is over, with their
  // cause. The MNCC leg goes, except that after DISC_IND it is in release under the timer.
  lemma ClearingReachesPbx(s: State, e: Event, i: nat, sl: Slot)
    requires Reachable(s) && Allowed(s, e) && i < |s.calls| && Paired(s.calls[i], sl) && Clears(s.calls[i], sl, e)
    requires !s.calls[i].Get(sl).m.base.inRelease
    ensures var c, m, p := s.calls[i], s.calls[i].Get(sl).m, s.calls[i].Get(sl.Other()).s;
            var q := p.(base := p.base.(cause := ClearingCause(p, e)));
            var mncc := if Front(m, e) == [] then NoLeg
                        else Mncc(m.(base := m.base.(inRelease := true), timer := true, wanted := RelCnf));
            Lands(Step(s, e), c.id, Ctx(c.Put(sl, mncc).Put(sl.Other(), if Lingers(q) then Sip(q) else NoLeg),
                                        TraceOf(s, c.id) + Front(m, e) + Farewell(q)))
  {
    hide Reachable, Allowed, Step, DigestOf, LastHeard, Lands, Farewell, Lingers;
    PairTurn(s, e, i, sl);
    var c := s.calls[i];
    var m, p := c.Get(sl).m, c.Get(sl.Other()).s;
    var q := SCause(p, ClearingCause(p, e));
    assert e.Timeout? ==> q == p;
    assert TraceOf(s, c.id) + (Front(m, e) + Farewell(q)) == TraceOf(s, c.id) + Front(m, e) + Farewell(q);
    assert Front(m, e) + Farewell(q) == TurnOf(s, e, i).said;
  }

  // So an answered PBX gets its BYE.
  lemma AnsweredPbxGetsBye(s: State, e: Event, i: nat, sl: Slot)
    requires Reachable(s) && Allowed(s, e) && i < |s.calls| && Paired(s.calls[i], sl) && Clears(s.calls[i], sl, e)
    requires !s.calls[i].Get(sl).m.base.inRelease && Rank(s.calls[i].Get(sl.Other()).s.state) == 2
    ensures var c := s.calls[i];
            TraceOf(Step(s, e), c.id) ==
            TraceOf(s, c.id) + Front(c.Get(sl).m, e) + [TxBye(c.Get(sl.Other()).s.handle)]
  {
    hide Reachable, Allowed, Step, DigestOf, Farewell, Front;
    ClearingReachesPbx(s, e, i, sl);
    var p := s.calls[i].Get(sl.Other()).s;
    FarewellMeans(SCause(p, ClearingCause(p, e)));
  }

  // How the MSC is told to clear the call.
  function ClearRequest(m: MLeg): Entry {
    TxClear(if m.state == MInitial then RelReq else DiscReq, m.callref, m.base.cause)
  }

  // BYE and CANCEL from the PBX: the handle is destroyed with its leg, and on a READY connection the
  // MSC is told under the timer; otherwise the MNCC leg goes too.
  lemma PbxClearingReachesMsc(s: State, e: Event, i: nat, sl: Slot)
    requires Reachable(s) && Allowed(s, e) && i < |s.calls| && Paired(s.calls[i], sl) && IsOn(s.calls[i], sl, e)
    requires e.ev.GotBye? || e.ev.GotCancel?
    ensures var c, m, h := s.calls[i], s.calls[i].Get(sl).m, e.handle;
            var d, t := c.Put(sl.Other(), NoLeg), TraceOf(s, c.id) + [Destroy(h)];
            var answer := if m.state == MInitial then RelCnf else RelInd;
            var mncc := Mncc(m.(base := m.base.(inRelease := true), timer := true, wanted := answer));
            Lands(Step(s, e), c.id, if s.conn == Ready then Ctx(d.Put(sl, mncc), t + [ClearRequest(m)])
                                    else Ctx(d.Put(sl, NoLeg), t))
  {
    hide Reachable, Allowed, Step, DigestOf, LastHeard, Lands;
    PairTurn(s, e, i, sl);
    assert [Destroy(e.handle)] + [] == [Destroy(e.handle)];
    assert TraceOf(s, s.calls[i].id) + ([Destroy(e.handle)] + [ClearRequest(s.calls[i].Get(sl).m)]) ==
           TraceOf(s, s.calls[i].id) + [Destroy(e.handle)] + [ClearRequest(s.calls[i].Get(sl).m)];
  }

  // ---------------------------------------------------------------- hold and retrieve

  // The codec a SIP leg looks for after a body was sent: that of the body, if it was composed.
  function Seeking(p: SLeg, text: string, msgType: int): SLeg {
    if text != "" then p else p.(codec := Some(MediaName(msgType)))
  }

  // The body that tells the PBX of the MNCC leg, as it was heard up to here.
  function TellPbx(t: seq<Entry>, m: MLeg, mode: Mode): Body {
    Told(LastHeard(t, MnccSide), m.base.addr, m.base.payloadType, m.base.payloadMsgType, mode)
  }

  // And the entry that tells the MSC of the SIP leg.
  function TellMsc(t: seq<Entry>, callref: nat, addr: Addr, payloadType: nat): Entry {
    TxRtpConnect(callref, addr, payloadType, LastHeard(t, SipSide))
  }

  // HOLD_IND: the PBX is asked to receive only, and the MSC is told it is done.
  lemma HoldReachesPbx(s: State, e: Event, i: nat, sl: Slot)
    requires Reachable(s) && Allowed(s, e) && i < |s.calls| && Paired(s.calls[i], sl)
    requires IsFor(s.calls[i], sl, e) && e.msg.HoldInd?
    ensures var c, t := s.calls[i], TraceOf(s, s.calls[i].id);
            var m, p := c.Get(sl).m, c.Get(sl.Other()).s;
            var q := Seeking(p, LastHeard(t, MnccSide), m.base.payloadMsgType).(state := SHold);
            Lands(Step(s, e), c.id, Ctx(c.Put(sl, Mncc(m.(state := MHold))).Put(sl.Other(), Sip(q)),
              t + [TxReinvite(p.handle, TellPbx(t, m, SendOnly)), TxSignal(HoldCnf, m.callref)]))
  {
    hide Reachable, Allowed, Step, DigestOf, LastHeard, Lands, MediaName;
    PairTurn(s, e, i, sl);
  }

  // RETRIEVE_IND: the PBX is asked to go on, and the MSC is told so and where the media is.
  lemma RetrieveReachesBoth(s: State, e: Event, i: nat, sl: Slot)
    requires Reachable(s) && Allowed(s, e) && i < |s.calls| && Paired(s.calls[i], sl)
    requires IsFor(s.calls[i], sl, e) && e.msg.RetrieveInd?
    ensures var c, t := s.calls[i], TraceOf(s, s.calls[i].id);
            var m, p := c.Get(sl).m, c.Get(sl.Other()).s;
            var q := Seeking(p, LastHeard(t, MnccSide), m.base.payloadMsgType).(state := SConnected);
            Lands(Step(s, e), c.id, Ctx(c.Put(sl, Mncc(m.(state := MConnected))).Put(sl.Other(), Sip(q)),
              t + [TxReinvite(p.handle, TellPbx(t, m, SendRecv)), TxSignal(RetrieveCnf, m.callref),
                   TellMsc(t, m.callref, p.base.addr, p.base.payloadType)]))
  {
    hide Reachable, Allowed, Step, DigestOf, LastHeard, Lands, MediaName;
    PairTurn(s, e, i, sl);
  }

  // ---------------------------------------------------------------- ringing

  // What is said after the SDP of a response was heard, when sdp is the one the SIP leg then has.
  lemma ResponseRings(m: MLeg, p: SLeg, status: int, payload: Payload, ready: bool, rest: seq<Entry>)
    requires TurnOfEvent(Some(m), p, InviteResponse(status, payload), ready).said ==
             [Heard(SipSide, Text(payload))] + rest
    ensures var q := TurnOfEvent(Some(m), p, InviteResponse(status, payload), ready).sip;
            var picked := Pick(payload, p.base.addr, p.base.payloadType, p.codec);
            var ringing := TxSignal(AlertReq, m.callref);
            if status == 180 || status == 183 then
              && q.Some?
              && rest == [ringing] + if picked.addr.family == Unspec || picked.addr.port == 0 then []
                                     else [TxRtpConnect(m.callref, picked.addr, picked.payloadType, q.value.base.rxSdp)]
            else ringing !in rest
  {
    hide Pick, Clear, Remains, Store, CauseMap.StatusToCause;
    StoreKeeps(p.base, Text(payload));
    var said := TurnOfStatus(Some(m), Confirmed(SHeard(p, Text(payload))), status, payload, ready).said;
    assert rest == said by {
      assert ([Heard(SipSide, Text(payload))] + rest)[1..] == rest;
      assert ([Heard(SipSide, Text(payload))] + said)[1..] == said;
    }
  }

  // A response to the INVITE rings at the MSC if and only if it is 180 or 183; the MSC is then told of
  // the early media exactly if the response, or what came before it, gave an address and a port.
  lemma RingingReachesMsc(s: State, e: Event, i: nat, sl: Slot) returns (rest: seq<Entry>)
    requires Reachable(s) && Allowed(s, e) && i < |s.calls| && Paired(s.calls[i], sl)
    requires IsOn(s.calls[i], sl, e) && e.ev.InviteResponse?
    ensures var c, t, r := s.calls[i], TraceOf(s, s.calls[i].id), TraceOf(Step(s, e), s.calls[i].id);
            var m, p, ringing := c.Get(sl).m, c.Get(sl.Other()).s, TxSignal(AlertReq, c.Get(sl).m.callref);
            var picked := Pick(e.ev.payload, p.base.addr, p.base.payloadType, p.codec);
            && r == t + [Heard(SipSide, Text(e.ev.payload))] + rest
            && if e.ev.status == 180 || e.ev.status == 183 then
                 rest == [ringing] + if picked.addr.family == Unspec || picked.addr.port == 0 then []
                                     else [TellMsc(r, m.callref, picked.addr, picked.payloadType)]
               else ringing !in rest
  {
    hide Reachable, Allowed, Step, DigestOf, LastHeard, Pick, TurnOfEvent;
    PairTurn(s, e, i, sl);
    TurnTexts(s, e, i);
    var m, p, payload := s.calls[i].Get(sl).m, s.calls[i].Get(sl.Other()).s, e.ev.payload;
    rest := SaidAfterHearing(m, p, e.ev, s.conn == Ready);
    ResponseRings(m, p, e.ev.status, payload, s.conn == Ready, rest);
  }

  lemma SaidAfterHearing(m: MLeg, p: SLeg, ev: SipEvent, ready: bool) returns (rest: seq<Entry>)
    requires ev.InviteResponse? || ev.GotReinvite? || (ev.GotAck? && ev.payload.Payload?)
    ensures TurnOfEvent(Some(m), p, ev, ready).said == [Heard(SipSide, Text(ev.payload))] + rest
  {
    hide TurnOfStatus, TurnOfReinvite, Confirmed, SHeard;
    rest := TurnOfEvent(Some(m), p, ev, ready).said[1..];
  }

  // ALERT_IND rings at the PBX.
  lemma AlertReachesPbx(s: State, e: Event, i: nat, sl: Slot)
    requires Reachable(s) && Allowed(s, e) && i < |s.calls| && Paired(s.calls[i], sl)
    requires IsFor(s.calls[i], sl, e) && e.msg.AlertInd?
    ensures var c, t, r := s.calls[i], TraceOf(s, s.calls[i].id), Step(s, e);
            && TraceOf(r, c.id) == t + [Heard(MnccSide, e.msg.sdp), TxRinging(c.Get(sl.Other()).s.handle)]
            && forall d | d in r.calls && d.id == c.id ::
                 d.Get(sl).Mncc? && d.Get(sl).m.state == c.Get(sl).m.state && d.Get(sl.Other()) == c.Get(sl.Other())
  {
    hide Reachable, Allowed, Step, DigestOf, LastHeard, Store;
    PairTurn(s, e, i, sl);
  }

  // ---------------------------------------------------------------- answers

  // 200 to an INVITE that was not answered before, with usable media: the MSC is told where the media is
  // and that the call is answered, the PBX gets its ACK, and the timer guards the MSC's reply.
  lemma AnswerReachesMsc(s: State, e: Event, i: nat, sl: Slot)
    requires Reachable(s) && Allowed(s, e) && i < |s.calls| && Paired(s.calls[i], sl) && IsOn(s.calls[i], sl, e)
    requires e.ev.InviteResponse? && e.ev.status == 200 && Rank(s.calls[i].Get(sl.Other()).s.state) < 2
    requires var b := s.calls[i].Get(sl.Other()).s.base;
             Pick(e.ev.payload, b.addr, b.payloadType, s.calls[i].Get(sl.Other()).s.codec).ok
    ensures var c, t, r := s.calls[i], TraceOf(s, s.calls[i].id), TraceOf(Step(s, e), s.calls[i].id);
            var m, p := c.Get(sl).m, c.Get(sl.Other()).s;
            var picked := Pick(e.ev.payload, p.base.addr, p.base.payloadType, p.codec);
            && r == t + [Heard(SipSide, Text(e.ev.payload)),
                         TellMsc(r, m.callref, picked.addr, picked.payloadType),
                         TxSignal(SetupRsp, m.callref), TxAck(p.handle)]
            && forall d | d in Step(s, e).calls && d.id == c.id ::
                 && d.Get(sl) == Mncc(m.(timer := true, wanted := SetupComplInd))
                 && d.Get(sl.Other()).Sip? && d.Get(sl.Other()).s.state == SConnected
  {
    hide Reachable, Allowed, Step, DigestOf, LastHeard, Pick, Clear, Remains, Store;
    PairTurn(s, e, i, sl);
    TurnTexts(s, e, i);
    StoreKeeps(s.calls[i].Get(sl.Other()).s.base, Text(e.ev.payload));
    ThreeAfter(Heard(SipSide, Text(e.ev.payload)), TurnOf(s, e, i).said);
  }

  // A sequence of four as its head and the rest.
  lemma ThreeAfter(head: Entry, said: seq<Entry>)
    requires |said| == 4 && said[0] == head
    ensures said == [head, said[1], said[2], said[3]]
  {
  }

  // Without usable media it is cancelled, and the MSC is told to clear the call if it can be.
  lemma UnusableAnswerClears(s: State, e: Event, i: nat, sl: Slot)
    requires Reachable(s) && Allowed(s, e) && i < |s.calls| && Paired(s.calls[i], sl) && IsOn(s.calls[i], sl, e)
    requires e.ev.InviteResponse? && e.ev.status == 200 && Rank(s.calls[i].Get(sl.Other()).s.state) < 2
    requires var b := s.calls[i].Get(sl.Other()).s.base;
             !Pick(e.ev.payload, b.addr, b.payloadType, s.calls[i].Get(sl.Other()).s.codec).ok
    ensures var c, t, r := s.calls[i], TraceOf(s, s.calls[i].id), TraceOf(Step(s, e), s.calls[i].id);
            var m, p := c.Get(sl).m, c.Get(sl.Other()).s;
            && r == t + [Heard(SipSide, Text(e.ev.payload)), TxCancel(p.handle)]
                    + (if s.conn == Ready then [ClearRequest(m)] else [])
            && forall d | d in Step(s, e).calls && d.id == c.id ::
                 && d.Get(sl.Other()).Sip?
                 && if s.conn == Ready then d.Get(sl).Mncc? && d.Get(sl).m.base.inRelease && d.Get(sl).m.timer
                    else d.Get(sl).NoLeg?
  {
    hide Reachable, Allowed, Step, DigestOf, LastHeard, Pick, Store;
    PairTurn(s, e, i, sl);
    StoreKeeps(s.calls[i].Get(sl.Other()).s.base, Text(e.ev.payload));
    var m, p := s.calls[i].Get(sl).m, s.calls[i].Get(sl.Other()).s;
    var front := [Heard(SipSide, Text(e.ev.payload)), TxCancel(p.handle)];
    var last := if s.conn == Ready then [ClearRequest(m)] else [];
    assert TurnOf(s, e, i).said == front + last;
    assert TraceOf(s, s.calls[i].id) + (front + last) == TraceOf(s, s.calls[i].id) + front + last;
  }

  // SETUP_CNF: the MSC is told where the PBX's media is and that the setup is complete, and the PBX
  // gets its answer with the MSC's SDP.
  lemma AnswerReachesPbx(s: State, e: Event, i: nat, sl: Slot)
    requires Reachable(s) && Allowed(s, e) && i < |s.calls| && Paired(s.calls[i], sl)
    requires IsFor(s.calls[i], sl, e) && e.msg.SetupCnf?
    ensures var c, t, r := s.calls[i], TraceOf(s, s.calls[i].id), TraceOf(Step(s, e), s.calls[i].id);
            var m, p := c.Get(sl).m, c.Get(sl.Other()).s;
            && r == t + [Heard(MnccSide, e.msg.sdp), TellMsc(r, m.callref, p.base.addr, p.base.payloadType),
                         TxSignal(SetupComplReq, m.callref), TxAnswer(p.handle, TellPbx(r, m, SendRecv))]
            && forall d | d in Step(s, e).calls && d.id == c.id ::
                 && d.Get(sl).Mncc? && d.Get(sl).m.state == MConnected
                 && d.Get(sl.Other()).Sip? && d.Get(sl.Other()).s.state == SConnected
  {
    hide Reachable, Allowed, Step, DigestOf, LastHeard, Store, MediaName;
    PairTurn(s, e, i, sl);
    TurnTexts(s, e, i);
    StoreKeeps(s.calls[i].Get(sl).m.base, e.msg.sdp);
  }

  // ---------------------------------------------------------------- RTP sockets and dialling

  // RTP_CREATE for a call that waits for its socket: the MSC is told that the call proceeds, and the PBX
  // is invited with the MSC's SDP or with the media just created. Without a handle from the stack,
  // the call is cleared instead.
  lemma CallIsDialled(s: State, e: Event, i: nat)
    requires Reachable(s) && Allowed(s, e) && i < |s.calls| && IsFor(s.calls[i], Initial, e)
    requires e.msg.RtpCreate? && !s.calls[i].initial.m.base.inRelease
    ensures var c, t, r := s.calls[i], TraceOf(s, s.calls[i].id), TraceOf(Step(s, e), s.calls[i].id);
            var m, h := c.initial.m, e.msg.handle;
            var body := Told(LastHeard(r, MnccSide), e.msg.addr, e.msg.payloadType, e.msg.payloadMsgType, SendRecv);
            var front := t + [Heard(MnccSide, e.msg.sdp), TxSignal(CallProcReq, m.callref)];
            if h != NULL_HANDLE then
              && r == front + [Bind(h), TxInvite(h, body)]
              && forall d | d in Step(s, e).calls && d.id == c.id ::
                   && d.initial.Mncc? && d.initial.m.state == MProceeding
                   && HasHandle(d.remote, h) && d.remote.s.state == SInitial && d.remote.s.dir == MT
            else r == front + if s.conn == Ready then [TxClear(DiscReq, m.callref, m.base.cause)] else []
  {
    hide Reachable, Allowed, Step, DigestOf, LastHeard, Store, MediaName;
    DiallingTurn(s, e, i);
    TurnTexts(s, e, i);
    var m := s.calls[i].initial.m;
    var base := m.base.(addr := e.msg.addr, payloadType := e.msg.payloadType, payloadMsgType := e.msg.payloadMsgType);
    StoreKeeps(base, e.msg.sdp);
    var front := [Heard(MnccSide, e.msg.sdp), TxSignal(CallProcReq, m.callref)];
    var said := TurnOf(s, e, i).said;
    assert said[..2] == front;
    assert TraceOf(s, s.calls[i].id) + (front + said[2..]) == TraceOf(s, s.calls[i].id) + front + said[2..];
    assert front + said[2..] == said;
  }

  lemma DiallingTurn(s: State, e: Event, i: nat)
    requires Reachable(s) && Allowed(s, e) && i < |s.calls| && IsFor(s.calls[i], Initial, e)
    requires e.msg.RtpCreate? && !s.calls[i].initial.m.base.inRelease
    ensures var c := s.calls[i];
            && Lands(Step(s, e), c.id, Taken(At(s, i), TurnOf(s, e, i)))
            && MnccPart(c) == Some(c.initial.m) && SipPart(c) == None && MnccPlace(c) == Initial
            && c.initial.m.dir == MO
  {
    hide Reachable, CallInv, TableInv, Step, DigestOf, Lands, TurnOf, Taken, FreshHandle;
    StepTakesTurn(s, e, i);
    ReachableInv(s);
    ListedKeeps(s, i);
    ListedIsCast(At(s, i));
    CallsOwnTheirLegs(s, i);
    MessageFindsLeg(s, e.callref, i, Initial);
  }

  // CALL_CONF_IND asks the MSC for a socket under the timer, and hands it the SDP of the PBX if that
  // was not handed on before.
  lemma SocketIsRequested(s: State, e: Event, i: nat, sl: Slot)
    requires Reachable(s) && Allowed(s, e) && i < |s.calls| && Paired(s.calls[i], sl)
    requires IsFor(s.calls[i], sl, e) && e.msg.CallConfInd?
    ensures var c, t, r := s.calls[i], TraceOf(s, s.calls[i].id), TraceOf(Step(s, e), s.calls[i].id);
            var m, p := c.Get(sl).m, c.Get(sl.Other()).s;
            && r == t + [Heard(MnccSide, e.msg.sdp),
                         TxRtpCreate(m.callref, if p.base.rxChanged then LastHeard(t, SipSide) else "")]
            && forall d | d in Step(s, e).calls && d.id == c.id ::
                 && d.Get(sl).Mncc? && d.Get(sl).m.timer && d.Get(sl).m.wanted == RtpCreateRsp
                 && d.Get(sl.Other()).Sip?
                 && (LastHeard(t, SipSide) != "" ==> !d.Get(sl.Other()).s.base.rxChanged)
  {
    hide Reachable, Allowed, Step, DigestOf, LastHeard, Store;
    PairTurn(s, e, i, sl);
    StoreKeeps(s.calls[i].Get(sl).m.base, e.msg.sdp);
  }

  // ---------------------------------------------------------------- new offers and keys

  // What is said on a new offer, when sdp is the one the SIP leg then has and text the MNCC leg's: a hold is
  // answered in receive-only mode, all else both ways; before that, the MSC is told of the media if it
  // moved. An offer without usable media is refused and the handle destroyed.
  function AnswerTo(m: MLeg, text: string, p: SLeg, payload: Payload, sdp: string): seq<Entry> {
    var mode := MediaMode(payload);
    var picked := Pick(payload, p.base.addr, p.base.payloadType, None);
    var both := TxAnswer(p.handle, Told(text, m.base.addr, m.base.payloadType, m.base.payloadMsgType, SendRecv));
    if mode == Some(SendOnly) then
      [TxAnswer(p.handle, Told(text, m.base.addr, m.base.payloadType, m.base.payloadMsgType, RecvOnly))]
    else if mode.None? then [both]
    else if !picked.ok then [TxReject(p.handle, 406, None), Destroy(p.handle)]
    else if picked.addr == p.base.addr then [both]
    else [TxRtpConnect(m.callref, picked.addr, picked.payloadType, sdp), both]
  }

  lemma OfferIsTold(m: MLeg, p: SLeg, payload: Payload)
    ensures var t, heard := TurnOfOffer(m, p, payload), Heard(SipSide, Text(payload));
            && t.mncc == Some(m)
            && (t.sip.None? ==> t.said == [heard] + AnswerTo(m, m.base.rxSdp, p, payload, ""))
            && (t.sip.Some? ==>
                  t.said == (if MediaMode(payload).None? then [] else [heard])
                            + AnswerTo(m, m.base.rxSdp, p, payload, t.sip.value.base.rxSdp))
  {
    hide Pick, MediaMode, MediaName, Store;
    StoreKeeps(p.base, Text(payload));
  }

  // A refused offer does not speak of the SDP.
  lemma RefusalIsSilent(m: MLeg, p: SLeg, payload: Payload, sdp: string)
    requires TurnOfOffer(m, p, payload).sip.None?
    ensures AnswerTo(m, m.base.rxSdp, p, payload, "") == AnswerTo(m, m.base.rxSdp, p, payload, sdp)
    ensures MediaMode(payload).Some?
  {
    hide Pick, MediaMode, MediaName, Store;
  }

  lemma OfferIsHeardFirst(m: MLeg, p: SLeg, ev: SipEvent, ready: bool, sdp: string)
    requires ev.GotReinvite? || (ev.GotAck? && ev.payload.Payload?)
    requires var q := TurnOfEvent(Some(m), p, ev, ready).sip; q.Some? ==> sdp == q.value.base.rxSdp
    ensures var t, heard := TurnOfEvent(Some(m), p, ev, ready), Heard(SipSide, Text(ev.payload));
            && t.mncc == Some(m)
            && t.said == (if MediaMode(ev.payload).None? then [heard] else [heard, heard])
                         + AnswerTo(m, m.base.rxSdp, p, ev.payload, sdp)
  {
    hide Pick, MediaMode, MediaName, Store, TurnOfOffer, AnswerTo;
    var q, heard := SHeard(p, Text(ev.payload)), Heard(SipSide, Text(ev.payload));
    StoreKeeps(p.base, Text(ev.payload));
    OfferIsTold(m, q, ev.payload);
    SameAnswer(m, p, q, ev.payload, sdp);
    if TurnOfOffer(m, q, ev.payload).sip.None? {
      RefusalIsSilent(m, q, ev.payload, sdp);
    }
    var tail := AnswerTo(m, m.base.rxSdp, p, ev.payload, sdp);
    assert [heard] + ([heard] + tail) == [heard, heard] + tail;
    assert [] + tail == tail;
  }

  lemma SameAnswer(m: MLeg, p: SLeg, q: SLeg, payload: Payload, sdp: string)
    requires q.handle == p.handle && q.base.addr == p.base.addr && q.base.payloadType == p.base.payloadType
    ensures AnswerTo(m, m.base.rxSdp, p, payload, sdp) == AnswerTo(m, m.base.rxSdp, q, payload, sdp)
  {
  }

  // A re-INVITE, or an ACK with an SDP, adds what was heard and exactly its answer.
  lemma OfferIsAnswered(s: State, e: Event, i: nat, sl: Slot)
    requires Reachable(s) && Allowed(s, e) && i < |s.calls| && Paired(s.calls[i], sl) && IsOn(s.calls[i], sl, e)
    requires e.ev.GotReinvite? || (e.ev.GotAck? && e.ev.payload.Payload?)
    ensures var c, t, r := s.calls[i], TraceOf(s, s.calls[i].id), TraceOf(Step(s, e), s.calls[i].id);
            var m, p, heard := c.Get(sl).m, c.Get(sl.Other()).s, Heard(SipSide, Text(e.ev.payload));
            r == t + (if MediaMode(e.ev.payload).None? then [heard] else [heard, heard])
                 + AnswerTo(m, LastHeard(r, MnccSide), p, e.ev.payload, LastHeard(r, SipSide))
  {
    hide Reachable, Allowed, Step, DigestOf, LastHeard, AnswerTo, MediaMode, TurnOfEvent;
    PairTurn(s, e, i, sl);
    TurnTexts(s, e, i);
    var m, p, heard := s.calls[i].Get(sl).m, s.calls[i].Get(sl.Other()).s, Heard(SipSide, Text(e.ev.payload));
    var t, r := TraceOf(s, s.calls[i].id), TraceOf(Step(s, e), s.calls[i].id);
    OfferIsHeardFirst(m, p, e.ev, s.conn == Ready, LastHeard(r, SipSide));
    var front := if MediaMode(e.ev.payload).None? then [heard] else [heard, heard];
    var tail := AnswerTo(m, LastHeard(r, MnccSide), p, e.ev.payload, LastHeard(r, SipSide));
    assert t + (front + tail) == t + front + tail;
  }

  // A key that the mobile presses is relayed to the PBX and confirmed; its release is confirmed.
  lemma KeyReachesPbx(s: State, e: Event, i: nat, sl: Slot)
    requires Reachable(s) && Allowed(s, e) && i < |s.calls| && Paired(s.calls[i], sl)
    requires IsFor(s.calls[i], sl, e) && (e.msg.StartDtmf? || e.msg.StopDtmf?)
    ensures var c, t, r := s.calls[i], TraceOf(s, s.calls[i].id), TraceOf(Step(s, e), s.calls[i].id);
            var m, p, heard := c.Get(sl).m, c.Get(sl.Other()).s, Heard(MnccSide, e.msg.sdp);
            r == t + if e.msg.StartDtmf? then [heard, TxInfo(p.handle, e.msg.key),
                                               TxKeypad(StartDtmfRsp, m.callref, e.msg.key)]
                     else [heard, TxKeypad(StopDtmfRsp, m.callref, e.msg.key)]
  {
    hide Reachable, Allowed, Step, DigestOf, LastHeard, Store;
    PairTurn(s, e, i, sl);
  }

  // ---------------------------------------------------------------- other ways a call ends

  // An empty RTP_CONNECT releases both legs.
  lemma EmptyConnectClearsBoth(s: State, e: Event, i: nat, sl: Slot)
    requires Reachable(s) && Allowed(s, e) && s.conn == Ready && i < |s.calls| && Paired(s.calls[i], sl)
    requires IsFor(s.calls[i], sl, e) && e.msg.RtpConnect? && !s.calls[i].Get(sl).m.base.inRelease
    requires e.msg.addr.family == Unspec && e.msg.addr.port == 0 && e.msg.payloadType == 0
    ensures var c, t, r := s.calls[i], TraceOf(s, s.calls[i].id), TraceOf(Step(s, e), s.calls[i].id);
            r == t + [Heard(MnccSide, e.msg.sdp)] + Farewell(c.Get(sl.Other()).s) + [ClearRequest(c.Get(sl).m)]
  {
    hide Reachable, Allowed, Step, DigestOf, LastHeard, Store, Farewell, Parted;
    PairTurn(s, e, i, sl);
    StoreKeeps(s.calls[i].Get(sl).m.base, e.msg.sdp);
    var t, front := TraceOf(s, s.calls[i].id), [Heard(MnccSide, e.msg.sdp)];
    var farewell, last := Farewell(s.calls[i].Get(sl.Other()).s), [ClearRequest(s.calls[i].Get(sl).m)];
    assert t + (front + farewell + last) == t + front + farewell + last;
  }

  // How the PBX is told that the connection to the MSC is lost: as if the MSC had cleared the call.
  lemma LossReachesPbx(s: State, e: Event, i: nat, sl: Slot)
    requires Reachable(s) && Allowed(s, e) && s.fdOpen && Closes(e) && i < |s.calls| && Paired(s.calls[i], sl)
    ensures var c, p := s.calls[i], s.calls[i].Get(sl.Other()).s;
            Lands(Step(s, e), c.id, Ctx(c.Put(sl, NoLeg).Put(sl.Other(), if Lingers(p) then Sip(p) else NoLeg),
                                        TraceOf(s, c.id) + Farewell(p)))
  {
    hide Reachable, Allowed, Step, DigestOf, LastHeard, Farewell, Lands, Breaks, Lingers;
    PairTurn(s, e, i, sl);
  }

  // How an MNCC leg is released on a READY connection: REJ_REQ before its RTP socket was there, REL_REQ when
  // the mobile did not answer yet, and DISC_REQ later.
  lemma ClearMeans(m: MLeg)
    ensures m.state != MInitial ==> Clear(m, true) == [TxClear(DiscReq, m.callref, m.base.cause)]
    ensures m.state == MInitial && m.dir == MO ==> Clear(m, true) == [TxSignal(RejReq, m.callref)]
    ensures m.state == MInitial && m.dir == MT ==> Clear(m, true) == [TxClear(RelReq, m.callref, m.base.cause)]
  {
  }

  lemma HearingClearsAlike(m: MLeg, sdp: string)
    ensures Clear(MHeard(m, sdp), true) == Clear(m, true)
  {
    hide Store;
    StoreKeeps(m.base, sdp);
  }

  // A message that needs the partner clears the call when the SIP leg is gone.
  lemma LoneLegIsCleared(s: State, e: Event, i: nat, sl: Slot)
    requires Reachable(s) && Allowed(s, e) && s.conn == Ready && i < |s.calls| && IsFor(s.calls[i], sl, e)
    requires s.calls[i].Get(sl.Other()).NoLeg? && (e.msg.AlertInd? || e.msg.SetupCnf? || e.msg.RetrieveInd?)
    ensures var c, m := s.calls[i], s.calls[i].Get(sl).m;
            var first := if e.msg.RetrieveInd? then TxSignal(RetrieveCnf, m.callref) else Heard(MnccSide, e.msg.sdp);
            TraceOf(Step(s, e), c.id) == TraceOf(s, c.id) + [first] + Clear(m, true)
  {
    hide Reachable, Allowed, Step, DigestOf, LastHeard, Store, Clear, Remains, MHeard;
    LoneTurn(s, e, i, sl);
    var m, t := s.calls[i].Get(sl).m, TraceOf(s, s.calls[i].id);
    HearingClearsAlike(m, e.msg.sdp);
    var first := if e.msg.RetrieveInd? then TxSignal(RetrieveCnf, m.callref) else Heard(MnccSide, e.msg.sdp);
    assert t + ([first] + Clear(m, true)) == t + [first] + Clear(m, true);
  }

  lemma LoneTurn(s: State, e: Event, i: nat, sl: Slot)
    requires Reachable(s) && Allowed(s, e) && i < |s.calls| && s.calls[i].Get(sl).Mncc?
    requires s.calls[i].Get(sl.Other()).NoLeg?
    ensures var c := s.calls[i];
            && Lands(Step(s, e), c.id, Taken(At(s, i), TurnOf(s, e, i)))
            && MnccPart(c) == Some(c.Get(sl).m) && SipPart(c) == None && MnccPlace(c) == sl
  {
    hide Reachable, Allowed, Step, DigestOf, Lands, TurnOf, Taken;
    StepTakesTurn(s, e, i);
    CallsOwnTheirLegs(s, i);
  }

  // HOLD_REJ goes out exactly for a hold that no SIP leg is there for.
  lemma HoldIsRefusedExactly(s: State, e: Event, i: nat, sl: Slot)
    requires Reachable(s) && Allowed(s, e) && i < |s.calls| && s.calls[i].Get(sl).Mncc?
    ensures TxSignal(HoldRej, s.calls[i].Get(sl).m.callref) in AddedTo(s, e, s.calls[i].id) <==>
            IsFor(s.calls[i], sl, e) && e.msg.HoldInd? && s.calls[i].Get(sl.Other()).NoLeg?
  {
    hide Reachable, Allowed, Step, DigestOf, AddedTo;
    SignalsAreDue(s, e, i);
    CallsOwnTheirLegs(s, i);
  }

  // A new offer on a SIP leg whose partner is gone ends it.
  lemma LoneSipIsReleased(s: State, e: Event, i: nat, sl: Slot)
    requires Reachable(s) && Allowed(s, e) && i < |s.calls| && IsOn(s.calls[i], sl, e) && s.calls[i].Get(sl).NoLeg?
    requires e.ev.GotReinvite? || (e.ev.GotAck? && e.ev.payload.Payload?)
    ensures var c, p := s.calls[i], s.calls[i].Get(sl.Other()).s;
            TraceOf(Step(s, e), c.id) == TraceOf(s, c.id) + [Heard(SipSide, Text(e.ev.payload))] + Farewell(p)
  {
    hide Reachable, Allowed, Step, DigestOf, LastHeard, Store, CauseMap.CauseToStatus, CauseMap.ReasonText;
    StepTakesTurn(s, e, i);
    CallsOwnTheirLegs(s, i);
    var p, t := s.calls[i].Get(sl.Other()).s, TraceOf(s, s.calls[i].id);
    StoreKeeps(p.base, Text(e.ev.payload));
    var heard := [Heard(SipSide, Text(e.ev.payload))];
    assert t + (heard + Farewell(p)) == t + heard + Farewell(p);
  }

  // ---------------------------------------------------------------- the exception happens

  lemma ConfirmationForgets(x: Ctx)
    requires Underway(x, SConfirmed, false, RtpCreateRsp)
    ensures var y := OnMncc(x, Initial, RelCnfMsg(""), true);
            y.call.id == x.call.id && y.call.initial.NoLeg? && y.call.remote == x.call.remote && y.log == x.log
  {
    hide DigestOf, Advance;
  }

  // A run that leaves a SIP leg without BYE or CANCEL: the PBX rings, and the MSC confirms a release that
  // nobody asked for.
  lemma PartnerIsForgotten() returns (ss: seq<State>, es: seq<Event>)
    ensures IsRun(ss, es) && es == CALL_SETUP + CALL_RINGS + [FromMsc(CALLREF, RelCnfMsg(""))]
    ensures var s := ss[|es|];
            && |s.calls| == 1 && s.calls[0].initial.NoLeg? && HasHandle(s.calls[0].remote, HANDLE)
            && !ReleaseOutstanding(TraceOf(s, s.calls[0].id))
  {
    hide DigestOf, Advance, OnMncc, Step, Allowed, Reachable;
    var x;
    ss, es, x := CallRings();
    EndIsReachable(ss, es);
    ReleaseIsSymmetric(ss[|es|], 0, Initial);
    ConfirmationForgets(x);
    ss, es := NextFromMsc(ss, es, x, RelCnfMsg(""));
  }
}
