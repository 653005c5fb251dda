/** How calls begin and what is said on behalf of no call: SETUP_IND and INVITE as the MSC and the PBX
    see them taken or turned down. */
module Arrivals {
  import opened Domain
  import opened Sdp
  import opened Trace
  import opened CallMachine
  import opened CallInvariant
  import opened Bridge
  import opened CallList
  import opened Lifecycle
  import opened Locality
  import CauseMap

  // ---------------------------------------------------------------- calls from the mobile

  // The called number may be missing only from an emergency call, the calling number never; the
  // numbering plan is unknown (0) or ISDN (1), and a call reference that is there can be decoded.
  predicate Complete(setup: Setup) {
    && (setup.hasCalled || setup.emergency) && setup.hasCalling && setup.plan in {0, 1}
    && (setup.gcrPresent ==> setup.gcrValid)
  }

  // SETUP_IND is refused on behalf of no call, or starts a call that asks for its RTP socket.
  lemma MobileCallStarts(s: State, setup: Setup)
    requires Inv(s)
    ensures var r, id := Step(s, SetupInd(setup)), s.lastId + 1;
            if !Complete(setup) then
              r == s.(traces := s.traces[NO_CALL := TraceOf(s, NO_CALL) + [TxSignal(RejReq, setup.callref)]])
            else
              && |r.calls| == |s.calls| + 1 && r.calls[1..] == s.calls && r.calls[0].id == id && r.lastId == id
              && r.calls[0].remote.NoLeg? && r.calls[0].initial.Mncc?
              && r.traces == s.traces[id := [Heard(MnccSide, setup.sdp), TxRtpCreate(setup.callref, "")]]
              && var m := r.calls[0].initial.m;
                 m.callref == setup.callref && m.dir == MO && m.state == MInitial && m.timer && m.wanted == RtpCreateRsp
  {
    hide DigestOf, Advance, TableInv, OnReconnect, OnHello, OnFromMsc, OnTimer, OnFromPbx, OnIncoming, CloseConnection;
    assert [Heard(MnccSide, setup.sdp)] + [TxRtpCreate(setup.callref, "")] ==
           [Heard(MnccSide, setup.sdp), TxRtpCreate(setup.callref, "")];
    assert [] + [Heard(MnccSide, setup.sdp)] == [Heard(MnccSide, setup.sdp)];
  }

  // ---------------------------------------------------------------- calls from the PBX

  // The SIP leg of an INVITE that was taken: bound to its handle, with the offer's media and SDP.
  predicate Taking(s: SLeg, offer: Offer) {
    var picked := Pick(offer.payload, NO_ADDR, 0, None);
    && s.dir == MO && s.state == SConfirmed && s.handle == offer.handle
    && s.base.addr == picked.addr && s.base.payloadType == picked.payloadType
    && s.base.rxSdp == Cut(Text(offer.payload))
  }

  lemma AdmitSays(id: nat, offer: Offer)
    requires Pick(offer.payload, NO_ADDR, 0, None).ok
    ensures var y := NewSipCall(id, offer.handle, offer.payload, true);
            && y.call.id == id && y.call.initial.Sip? && y.call.remote.NoLeg? && Taking(y.call.initial.s, offer)
            && (y.call.initial.s.base.rxChanged <==> Text(offer.payload) != "")
            && y.call.initial.s.base.cause == 0
            && y.log == [Bind(offer.handle), Heard(SipSide, Text(offer.payload))]
  {
    hide DigestOf, Advance, Pick;
  }

  lemma RouteSays(y: Ctx, offer: Offer)
    requires y.call.initial.Sip? && y.call.remote.NoLeg? && Taking(y.call.initial.s, offer)
    requires y.call.initial.s.base.rxChanged <==> Text(offer.payload) != ""
    ensures var z := RouteToMncc(y);
            && z.call.id == y.call.id && z.call.initial.Sip? && Taking(z.call.initial.s, offer)
            && !z.call.initial.s.base.rxChanged
            && z.call.remote.Mncc? && z.call.remote.m.dir == MT && z.call.remote.m.callref == y.call.id
            && z.call.remote.m.state == MInitial
            && z.log == y.log + [TxSetupReq(y.call.id, Cut(Text(offer.payload)))]
  {
    hide DigestOf, Advance, Pick;
  }

  // INVITE with a known codec, its users, a usable call reference and usable media, when SETUP_REQ can be
  // written: a call with both legs heads the list, and the MSC got the SDP of the INVITE under the
  // call's id.
  lemma PbxCallStarts(s: State, offer: Offer, writeOk: bool)
    requires Inv(s) && Screened(offer.payload) && offer.usersKnown && offer.gcrUsable && s.fdOpen && writeOk
    requires Pick(offer.payload, NO_ADDR, 0, None).ok
    ensures var r, id := Step(s, Incoming(offer, writeOk)), s.lastId + 1;
            && |r.calls| == |s.calls| + 1 && r.calls[1..] == s.calls && r.calls[0].id == id && r.lastId == id
            && r.calls[0].initial.Sip? && Taking(r.calls[0].initial.s, offer)
            && r.calls[0].remote.Mncc? && r.calls[0].remote.m.callref == id && r.calls[0].remote.m.dir == MT
            && r.traces == s.traces[id := [Bind(offer.handle), Heard(SipSide, Text(offer.payload)),
                                           TxSetupReq(id, Cut(Text(offer.payload)))]]
  {
    hide DigestOf, TableInv, Screened, Pick, NewSipCall, RouteToMncc, CloseConnection, Taking, OnReconnect, OnHello,
      OnSetupInd, OnFromMsc, OnTimer, OnFromPbx;
    var y := NewSipCall(s.lastId + 1, offer.handle, offer.payload, true);
    AdmitSays(s.lastId + 1, offer);
    RouteSays(y, offer);
    AddThenRoute(s, y, RouteToMncc(y));
    assert y.log + [TxSetupReq(s.lastId + 1, Cut(Text(offer.payload)))] ==
           [Bind(offer.handle), Heard(SipSide, Text(offer.payload)),
            TxSetupReq(s.lastId + 1, Cut(Text(offer.payload)))];
  }

  // An INVITE that is turned down, for its codec, its media or for want of a connection, leaves no call: it is
  // refused, its handle destroyed, and it is no longer spoken of.
  lemma PbxCallIsTurnedDown(s: State, offer: Offer, writeOk: bool)
    requires Inv(s) && Allowed(s, Incoming(offer, writeOk))
    requires !Screened(offer.payload)
             || (offer.usersKnown && offer.gcrUsable
                 && (!Pick(offer.payload, NO_ADDR, 0, None).ok || !s.fdOpen || !writeOk))
    ensures var r, id := Step(s, Incoming(offer, writeOk)), s.lastId + 1;
            var refusal := [TxReject(offer.handle, 406, None), Destroy(offer.handle)];
            && !Listed(r.calls, id)
            && if !Screened(offer.payload) then TraceOf(r, NO_CALL) == TraceOf(s, NO_CALL) + refusal
               else if !Pick(offer.payload, NO_ADDR, 0, None).ok then TraceOf(r, id) == refusal
               else
                 TraceOf(r, id) == [Bind(offer.handle), Heard(SipSide, Text(offer.payload)),
                                    TxReject(offer.handle, CauseMap.CauseToStatus(0), Some(CauseMap.ReasonText(0))),
                                    Destroy(offer.handle)]
  {
    hide DigestOf, TableInv, Screened, Pick, NewSipCall, RouteToMncc, ReleaseLeg, CloseConnection, Taking, OnReconnect,
      OnHello, OnSetupInd, OnFromMsc, OnTimer, OnFromPbx, FreshHandle, FreshRef, CauseMap.CauseToStatus,
      CauseMap.ReasonText;
    var id := s.lastId + 1;
    NewIdIsUnlisted(s);
    if Screened(offer.payload) {
      FreshIsSet(s, offer.handle);
      NewSipCallOk(id, offer.handle, offer.payload, true);
      var y := NewSipCall(id, offer.handle, offer.payload, true);
      AddKeeps(s, y);
      if Pick(offer.payload, NO_ADDR, 0, None).ok {
        AdmitSays(id, offer);
        RefusalSays(s, y, offer);
      } else {
        UnusableSays(id, offer);
      }
    }
  }

  lemma NewIdIsUnlisted(s: State)
    requires TableInv(s)
    ensures !Listed(s.calls, s.lastId + 1)
  {
    hide DigestOf, CallInv;
    if Listed(s.calls, s.lastId + 1) {
      var i :| 0 <= i < |s.calls| && s.calls[i].id == s.lastId + 1;
      ListedKeeps(s, i);
    }
  }

  lemma UnusableSays(id: nat, offer: Offer)
    requires !Pick(offer.payload, NO_ADDR, 0, None).ok
    ensures var y := NewSipCall(id, offer.handle, offer.payload, true);
            y.call.Gone() && y.log == [TxReject(offer.handle, 406, None), Destroy(offer.handle)]
  {
    hide DigestOf, Advance, Pick;
  }

  lemma RefusalSays(s: State, y: Ctx, offer: Offer)
    requires TableInv(Add(s, y)) && y.call.id == s.lastId + 1 && CallInv(y) && Routable(y)
    requires Taking(y.call.initial.s, offer) && y.call.initial.s.base.cause == 0
    requires y.log == [Bind(offer.handle), Heard(SipSide, Text(offer.payload))]
    ensures var q := CloseConnection(Add(s, y));
            q.calls != [] &&
            var r := Act(q, 0, ReleaseLeg(y, Initial, false));
            && !Listed(r.calls, y.call.id)
            && TraceOf(r, y.call.id) ==
               [Bind(offer.handle), Heard(SipSide, Text(offer.payload)),
                TxReject(offer.handle, CauseMap.CauseToStatus(0), Some(CauseMap.ReasonText(0))), Destroy(offer.handle)]
  {
    hide DigestOf, Advance, TableInv, CloseConnection, CauseMap.CauseToStatus, CauseMap.ReasonText, Pick, DistinctIds;
    AddedFirst(s, y);
    TableParts(Add(s, y));
    CloseSparesHead(Add(s, y), y);
    CloseKeepsIds(Add(s, y));
    ActIds(CloseConnection(Add(s, y)), 0, ReleaseLeg(y, Initial, false));
  }

  lemma CloseKeepsIds(s: State)
    requires TableInv(s)
    ensures DistinctIds(CloseConnection(s).calls)
  {
    hide TableInv, Sweep;
    if s.fdOpen {
      var s1 := s.(conn := Disconnected, fdOpen := false, reconnect := true);
      SameTable(s, s1);
      SweepKeeps(s1, 0);
    }
    TableParts(CloseConnection(s));
  }

  // ---------------------------------------------------------------- on behalf of no call

  // RTP_CREATE or RTP_CONNECT for a callref that no leg has, or whose leg is in release.
  predicate Unwelcome(s: State, callref: nat, msg: MnccMsg) {
    && (msg.RtpCreate? || msg.RtpConnect?)
    && forall i | 0 <= i < |s.calls| && CallHasRef(s.calls[i], callref) ::
         s.calls[i].Get(RefSlot(s.calls[i], callref)).m.base.inRelease
  }

  function Refusal(s: State, e: Event): seq<Entry> {
    match e
    case SetupInd(setup) => if Complete(setup) then [] else [TxSignal(RejReq, setup.callref)]
    case FromMsc(callref, msg) => if Unwelcome(s, callref, msg) then [TxSignal(RejReq, callref)] else []
    case Incoming(offer, _) =>
      if Screened(offer.payload) then [] else [TxReject(offer.handle, 406, None), Destroy(offer.handle)]
    case _ => []
  }

  lemma CloseSparesNoCall(s: State)
    requires TableInv(s)
    ensures TraceOf(CloseConnection(s), NO_CALL) == TraceOf(s, NO_CALL)
  {
    hide DigestOf, CallInv, Sweep;
    forall k | 0 <= k < |s.calls| ensures s.calls[k].id != NO_CALL { ListedKeeps(s, k); }
    var none := Ctx(CallV(NO_CALL, NoLeg, NoLeg), TraceOf(s, NO_CALL));
    if s.fdOpen {
      SweepSpares(s.(conn := Disconnected, fdOpen := false, reconnect := true), 0, NO_CALL, none);
    }
  }

  lemma MscRefusesExactly(s: State, callref: nat, msg: MnccMsg)
    requires Inv(s) && Allowed(s, FromMsc(callref, msg))
    ensures TraceOf(OnFromMsc(s, callref, msg), NO_CALL) ==
            TraceOf(s, NO_CALL) + Refusal(s, FromMsc(callref, msg))
  {
    hide DigestOf, CallInv, TableInv, OnMncc, FreshHandle, MnccAllowed;
    var i := FindRef(s.calls, callref);
    if i < |s.calls| {
      var sl := RefSlot(s.calls[i], callref);
      ListedKeeps(s, i);
      TableParts(s);
      assert forall j | 0 <= j < |s.calls| && CallHasRef(s.calls[j], callref) :: j == i;
      if !Refuses(s.calls[i].Get(sl).m, msg) {
        MnccMsgKeeps(At(s, i), sl, msg, s.conn == Ready);
      }
    }
  }

  // What an event adds on behalf of no call is exactly a refusal: of an incomplete SETUP_IND, of media for a
  // call the MSC should no longer speak of, or of an INVITE without a known codec.
  lemma RefusalsAreSaid(s: State, e: Event)
    requires Inv(s) && Allowed(s, e)
    ensures TraceOf(Step(s, e), NO_CALL) == TraceOf(s, NO_CALL) + Refusal(s, e)
  {
    hide DigestOf, TableInv, CallInv, OnMncc, OnSip, OnTimeout, OnFromMsc, OnIncoming, CloseConnection, NewMnccCall,
      FreshHandle, FreshRef, MnccAllowed, Screened;
    match e
    case SetupInd(setup) => NewMnccCallOk(s.lastId + 1, setup.callref, setup.sdp);
    case FromMsc(callref, msg) => MscRefusesExactly(s, callref, msg);
    case Timeout(id) =>
      var i := FindId(s.calls, id);
      ListedKeeps(s, i);
      TimeoutKeeps(At(s, i), MnccSlot(s.calls[i]), s.conn == Ready);
    case FromPbx(handle, ev) =>
      var i := FindHandle(s.calls, handle);
      ListedKeeps(s, i);
      SipEventKeeps(At(s, i), HandleSlot(s.calls[i], handle), ev, s.conn == Ready);
    case Incoming(offer, writeOk) => IncomingSpeaks(s, offer, writeOk);
    case Reconnect(_) =>
    case Hello(_) => CloseSparesNoCall(s);
    case BadData => CloseSparesNoCall(s);
  }

  lemma IncomingSpeaks(s: State, offer: Offer, writeOk: bool)
    requires Inv(s) && Allowed(s, Incoming(offer, writeOk))
    ensures TraceOf(OnIncoming(s, offer, writeOk), NO_CALL) ==
            TraceOf(s, NO_CALL) + Refusal(s, Incoming(offer, writeOk))
  {
    hide DigestOf, TableInv, CallInv, CloseConnection, NewSipCall, RouteToMncc, ReleaseLeg, FreshHandle, FreshRef,
      Screened, Pick;
    if Screened(offer.payload) {
      var accepted := offer.usersKnown && offer.gcrUsable;
      FreshIsSet(s, offer.handle);
      NewSipCallOk(s.lastId + 1, offer.handle, offer.payload, accepted);
      var y := NewSipCall(s.lastId + 1, offer.handle, offer.payload, accepted);
      AddKeeps(s, y);
      CloseSparesNoCall(Add(s, y));
      if y.call.initial.Sip? {
        RoutedId(y);
        ReleasedId(y);
      }
    }
  }
}
