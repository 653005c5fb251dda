/** How calls end: the sweep after connection loss, causes across the bridge and confluent
    teardown. */
module Clearing {
  import opened Domain
  import opened Sdp
  import opened Trace
  import opened CallMachine
  import opened CallInvariant
  import opened Bridge
  import opened CallList
  import opened Lifecycle
  import opened Locality
  import opened Guarantees
  import opened Scenario
  import CauseMap

  // ---------------------------------------------------------------- connection loss

  // Without a connection no call has an MNCC leg and the reconnect timer is armed.
  lemma DisconnectedIsClear(s: State)
    requires Reachable(s) && s.conn == Disconnected
    ensures NoMncc(s.calls) && s.reconnect && !s.fdOpen
  {
    hide Reachable, TableInv;
    ReachableInv(s);
  }

  // Losing the connection leaves no MNCC leg; a call that had one is gone or keeps just a SIP
  // leg with a BYE or CANCEL out; a SIP-only call is untouched; no call appears.
  lemma LossClearsMncc(s: State)
    requires Reachable(s) && s.fdOpen
    ensures var r := CloseConnection(s);
            && r.conn == Disconnected && !r.fdOpen && r.reconnect && NoMncc(r.calls)
            && (forall i | 0 <= i < |s.calls| :: Fate(s, r, s.calls[i]))
            && (forall id | Listed(r.calls, id) :: Listed(s.calls, id))
  {
    hide Reachable, DigestOf, CallInv, Sweep, Fate, TableInv, Listed;
    ReachableInv(s);
    CloseKeeps(s);
    var s1 := s.(conn := Disconnected, fdOpen := false, reconnect := true);
    SameTable(s, s1);
    SweepKeeps(s1, 0);
    forall i | 0 <= i < |s.calls| ensures Fate(s, CloseConnection(s), s.calls[i]) { CloseFate(s, i); }
    forall id | !Listed(s.calls, id) ensures !Listed(CloseConnection(s).calls, id) { SweepAddsNone(s1, 0, id); }
  }

  // A call that had an MNCC leg is gone, or keeps just a SIP leg with a BYE or CANCEL out.
  predicate Cleared(r: State, id: nat) {
    forall c | c in r.calls && c.id == id ::
      LegCount(c) == 1 && SipPart(c).Some? && DigestOf(TraceOf(r, id)).releasing
  }

  // What becomes of each call when the connection closes.
  predicate Fate(s: State, r: State, c: CallV) {
    if c.HasMncc() then Cleared(r, c.id) else c in r.calls && TraceOf(r, c.id) == TraceOf(s, c.id)
  }

  lemma CloseFate(s: State, i: nat)
    requires TableInv(s) && s.fdOpen && i < |s.calls|
    ensures Fate(s, CloseConnection(s), s.calls[i])
  {
    hide DigestOf, CallInv, CloseConnection, OnDisconnect, TableInv;
    CloseLands(s, i);
    ListedKeeps(s, i);
    if s.calls[i].HasMncc() {
      DisconnectKeeps(At(s, i));
      DisconnectLeavesSip(At(s, i));
    }
  }

  lemma DisconnectLeavesSip(x: Ctx)
    requires CallInv(x) && x.call.HasMncc()
    ensures var y := OnDisconnect(x); !y.call.Gone() ==> LegCount(y.call) == 1 && SipPart(y.call).Some?
  {
    hide DigestOf, SipRelease;
    if x.call.initial.Sip? {
      SipReleaseEffect(x, Initial);
    } else if x.call.remote.Sip? {
      SipReleaseEffect(Free(x, Initial), Remote);
    }
  }

  // An INVITE that arrives without a connection leaves the calls as they were, except that one
  // with a usable offer but without users or with a bad call reference leaves a bare call.
  lemma InviteWithoutConnectionIsRefused(s: State, offer: Offer, writeOk: bool)
    requires Reachable(s) && s.conn == Disconnected && Allowed(s, Incoming(offer, writeOk))
    ensures OnIncoming(s, offer, writeOk).calls == s.calls <==>
              !Screened(offer.payload) || (offer.usersKnown && offer.gcrUsable)
  {
    hide Reachable, DigestOf, CallInv, NewSipCall, SipRelease, Screened, TableInv, Pick, FreshRef;
    ReachableInv(s);
    var y := NewSipCall(s.lastId + 1, offer.handle, offer.payload, true);
    assert offer.handle != NULL_HANDLE;
    NewSipCallOk(s.lastId + 1, offer.handle, offer.payload, true);
    NewSipCallOk(s.lastId + 1, offer.handle, offer.payload, false);
    if !y.call.Gone() {
      UnroutableIsGone(y);
    }
  }

  const NAMELESS := Offer(HANDLE, ANSWER, false, true)

  // Such an INVITE as the first event of all.
  lemma NamelessInviteStays()
    ensures Reachable(INIT) && INIT.conn == Disconnected && Allowed(INIT, Incoming(NAMELESS, true))
    ensures OnIncoming(INIT, NAMELESS, true).calls != INIT.calls
  {
    hide Reachable, DigestOf, OnIncoming;
    EmptyRun();
    EndIsReachable([INIT], []);
    assert Screened(ANSWER) by { AnswerIsScreened(); }
    InviteWithoutConnectionIsRefused(INIT, NAMELESS, true);
  }

  lemma AnswerIsScreened()
    ensures Screened(ANSWER)
  {
    var maps := ANSWER.session.value.media[0].maps;
    assert KnownCodec(maps[0].encoding);
    assert KnownIn(maps);
  }

  // ---------------------------------------------------------------- causes across the bridge

  // A final SIP status of 300 or more reaches the MSC as the cause the table gives for it:
  // the last message of the step clears the MNCC leg with that cause. A leg that went past
  // its initial state gets DISC_REQ; only an unanswered one towards the mobile gets REL_REQ.
  lemma StatusReachesMsc(s: State, i: nat, sl: Slot, status: int, payload: Payload)
    requires Reachable(s) && s.conn == Ready && i < |s.calls| && Paired(s.calls[i], sl)
    requires status >= 300
    ensures var m, h := s.calls[i].Get(sl).m, s.calls[i].Get(sl.Other()).s.handle;
            var t := TraceOf(OnFromPbx(s, h, InviteResponse(status, payload)), s.calls[i].id);
            && |t| > 0
            && t[|t| - 1] ==
               TxClear(if m.state == MInitial then RelReq else DiscReq, m.callref, CauseMap.StatusToCause(status))
            && (m.dir == MO ==> m.state != MInitial)
  {
    hide Reachable, DigestOf, TableInv, CallInv, OnInviteResponse;
    ReachableInv(s);
    PairedInv(s, i, sl);
    ListedKeeps(s, i);
    var h := s.calls[i].Get(sl.Other()).s.handle;
    SameHandleSameCall(s, FindHandle(s.calls, h), i, h);
    StatusClears(At(s, i), sl, status, payload);
  }

  lemma StatusClears(x: Ctx, sl: Slot, status: int, payload: Payload)
    requires CallInv(x) && Paired(x.call, sl) && status >= 300
    ensures var y := OnInviteResponse(x, sl.Other(), status, payload, true);
            var m := x.Get(sl).m;
            && y.call.id == x.call.id && |y.log| > 0
            && y.log[|y.log| - 1] ==
               TxClear(if m.state == MInitial then RelReq else DiscReq, m.callref, CauseMap.StatusToCause(status))
  {
    hide DigestOf, Advance, Confirm, ReleaseWithCause, OnProgress, OnAccept, CauseMap.StatusToCause;
    ConfirmSparesPartner(x, sl.Other(), Text(payload));
    var x1 := Confirm(x, sl.Other(), Text(payload));
    var x2 := DropSip(Send(x1, TxCancel(x1.Get(sl.Other()).s.handle)), sl.Other());
    assert x2.Get(sl) == x.Get(sl);
    CauseClears(x2, sl, CauseMap.StatusToCause(status));
  }

  lemma ConfirmSparesPartner(x: Ctx, sl: Slot, sdp: string)
    requires x.Get(sl).Sip?
    ensures var y := Confirm(x, sl, sdp); y.call.id == x.call.id && y.Get(sl.Other()) == x.Get(sl.Other())
  {
    hide DigestOf, Advance, Hear;
    HearKeepsLegs(x, sl, sdp);
  }

  // Releasing an MNCC leg that is no fresh call of the mobile ends in a request with the cause.
  lemma CauseClears(x: Ctx, sl: Slot, cause: int)
    requires x.Get(sl).Mncc? && x.Get(sl).m.base.ops.release == OfMncc
    requires x.Get(sl).m.dir == MO ==> x.Get(sl).m.state != MInitial
    ensures var y, m := ReleaseWithCause(x, sl, cause, true), x.Get(sl).m;
            && y.call.id == x.call.id && |y.log| > 0
            && y.log[|y.log| - 1] == TxClear(if m.state == MInitial then RelReq else DiscReq, m.callref, cause)
  {
    hide DigestOf, Advance;
  }

  // A cause from the MSC on a call the PBX started and nobody answered yet is answered with
  // the status the table gives for it and a Q.850 reason with the same cause; the SIP leg and
  // its handle go.
  lemma CauseReachesPbx(s: State, i: nat, msg: MnccMsg)
    requires Reachable(s) && i < |s.calls| && Paired(s.calls[i], Remote) && s.calls[i].initial.s.state == SConfirmed
    requires msg.DiscInd? || msg.RelIndMsg? || msg.RejInd?
    ensures var h, callref := s.calls[i].initial.s.handle, s.calls[i].remote.m.callref;
            var r := OnFromMsc(s, callref, msg);
            var t, id := TraceOf(r, s.calls[i].id), s.calls[i].id;
            && |t| >= 2
            && t[|t| - 2] == TxReject(h, CauseMap.CauseToStatus(msg.cause), Some(CauseMap.ReasonText(msg.cause)))
            && t[|t| - 1] == Destroy(h)
            && FindHandle(r.calls, h) == |r.calls|
  {
    hide Reachable, DigestOf, TableInv, CallInv, OnMncc, CauseMap.CauseToStatus, CauseMap.ReasonText;
    ReachableInv(s);
    PairedInv(s, i, Remote);
    ListedKeeps(s, i);
    var c := s.calls[i];
    RefsAreDistinct(s, FindRef(s.calls, c.remote.m.callref), i, c.remote.m.callref);
    assert !c.remote.m.base.inRelease;
    CauseRejects(At(s, i), msg, s.conn == Ready);
    var y := OnMncc(At(s, i), Remote, msg, s.conn == Ready);
    HandleLeavesList(s, i, y, c.initial.s.handle);
  }

  lemma RefsAreDistinct(s: State, i: nat, j: nat, callref: nat)
    requires TableInv(s) && i < |s.calls| && j < |s.calls| && CallHasRef(s.calls[i], callref)
             && CallHasRef(s.calls[j], callref)
    ensures i == j
  {
    hide DigestOf, Advance, CallInv;
  }

  // The two entries that refuse an INVITE with a cause, and a call without its SIP leg.
  predicate Refused(y: Ctx, id: nat, h: Handle, cause: int) {
    && y.call.id == id && y.call.initial.NoLeg? && !y.call.remote.Sip? && |y.log| >= 2
    && y.log[|y.log| - 2] == TxReject(h, CauseMap.CauseToStatus(cause), Some(CauseMap.ReasonText(cause)))
    && y.log[|y.log| - 1] == Destroy(h)
  }

  lemma ReleaseRefuses(x: Ctx, cause: int, ready: bool)
    requires x.call.initial.Sip? && x.call.remote.Mncc? && x.call.initial.s.base.ops.release == OfSip
    requires x.call.initial.s.state == SConfirmed && x.call.initial.s.dir == MO
    ensures Refused(ReleaseWithCause(x, Initial, cause, ready), x.call.id, x.call.initial.s.handle, cause)
  {
    hide DigestOf, Advance, CauseMap.CauseToStatus, CauseMap.ReasonText;
  }

  lemma CauseRejects(x: Ctx, msg: MnccMsg, ready: bool)
    requires Shape(x.call) && Paired(x.call, Remote) && x.call.initial.s.state == SConfirmed
             && !x.call.remote.m.base.inRelease
    requires msg.DiscInd? || msg.RelIndMsg? || msg.RejInd?
    ensures Refused(OnMncc(x, Remote, msg, ready), x.call.id, x.call.initial.s.handle, msg.cause)
  {
    hide DigestOf, Advance, ReleaseWithCause, CauseMap.CauseToStatus, CauseMap.ReasonText, OnRtpCreate, OnRtpConnect,
      OnSetupComplInd, OnSetupCnf, OnCallConfInd, OnAlertInd, OnHoldInd, OnRetrieveInd, OnStartDtmf, OnStopDtmf;
    ReleaseRefuses(x, msg.cause, ready);
    ReleaseRefuses(StartRelease(x, Remote, RelReq, RelCnf), msg.cause, ready);
  }

  lemma HandleLeavesList(s: State, i: nat, y: Ctx, h: Handle)
    requires TableInv(s) && i < |s.calls| && CallHasHandle(s.calls[i], h) && h != NULL_HANDLE && SipPart(y.call).None?
    ensures var calls := Act(s, i, y).calls; FindHandle(calls, h) == |calls|
  {
    hide DigestOf, Advance, CallInv, TableInv;
    var calls := Act(s, i, y).calls;
    var f := FindHandle(calls, h);
    if f < |calls| {
      var k := if y.call.Gone() && f >= i then f + 1 else f;
      if k != i {
        assert calls[f] == s.calls[k];
        SameHandleSameCall(s, k, i, h);
      }
    }
  }

  // ---------------------------------------------------------------- confluent teardown

  // The event completes the release of the MNCC leg: the MSC's answer, or the guard's expiry.
  predicate EndsMncc(c: CallV, sl: Slot, e: Event)
    requires c.Get(sl).Mncc?
  {
    || (e.FromMsc? && e.callref == c.Get(sl).m.callref && (e.msg.RelIndMsg? || e.msg.RelCnfMsg?))
    || e == Timeout(c.id)
  }

  // The event ends the SIP leg: the response to BYE or CANCEL, or one from the PBX that crossed it.
  predicate EndsSip(c: CallV, sl: Slot, e: Event, ready: bool)
    requires c.Get(sl).Sip?
  {
    && e.FromPbx? && e.handle == c.Get(sl).s.handle
    && (e.ev.ByeResponse? || e.ev.CancelResponse? || (ready && (e.ev.GotBye? || e.ev.GotCancel?)))
  }

  lemma MnccEnds(x: Ctx, sl: Slot, e: Event, ready: bool)
    requires CallInv(x) && x.Get(sl).Mncc? && x.Get(sl).m.base.inRelease && EndsMncc(x.call, sl, e)
    ensures var y := if e.FromMsc? then OnMncc(x, sl, e.msg, ready) else OnTimeout(x, sl, ready);
            && Keeps(x, y) && y.call == x.call.Put(sl, NoLeg)
  {
    hide DigestOf, Advance, SipRelease;
    if e.Timeout? {
      TimeoutKeeps(x, sl, ready);
      if x.Get(sl.Other()).Sip? { SipReleaseEffect(x, sl.Other()); }
    } else {
      RelIndKeeps(x, sl, 0, ready);
    }
  }

  lemma SipEnds(x: Ctx, sl: Slot, e: Event, ready: bool)
    requires CallInv(x) && x.Get(sl).Sip? && !Bare(x.Get(sl).s) && EndsSip(x.call, sl, e, ready)
    requires x.Get(sl.Other()).Mncc? ==> x.Get(sl.Other()).m.base.inRelease
    ensures var y := OnSip(x, sl, e.ev, ready);
            && Keeps(x, y) && y.Get(sl).NoLeg? && (x.Get(sl.Other()).NoLeg? ==> y.Get(sl.Other()).NoLeg?)
            && (x.Get(sl.Other()).Mncc? ==> y.Get(sl.Other()).Mncc? && y.Get(sl.Other()).m.base.inRelease)
  {
    hide DigestOf, Advance, MnccRelease;
    SipGoneKeeps(x, sl, ready);
    var y := DropSip(x, sl);
    if y.Get(sl.Other()).Mncc? { MnccReleaseEffect(y, sl.Other(), ready); }
  }

  lemma StepEndsMncc(s: State, i: nat, sl: Slot, e: Event) returns (y: Ctx)
    requires TableInv(s) && i < |s.calls| && s.calls[i].Get(sl).Mncc? && s.calls[i].Get(sl).m.base.inRelease
    requires EndsMncc(s.calls[i], sl, e)
    ensures Step(s, e) == Act(s, i, y) && TableInv(Act(s, i, y)) && y.call == s.calls[i].Put(sl, NoLeg)
  {
    hide DigestOf, Advance, TableInv, OnMncc, OnTimeout, CallInv;
    ListedKeeps(s, i);
    MnccEnds(At(s, i), sl, e, s.conn == Ready);
    OneMnccLeg(At(s, i), sl);
    if e.FromMsc? {
      RefsAreDistinct(s, FindRef(s.calls, e.callref), i, e.callref);
      y := OnMncc(At(s, i), sl, e.msg, s.conn == Ready);
    } else {
      IdsAreDistinct(s, FindId(s.calls, e.id), i);
      y := OnTimeout(At(s, i), sl, s.conn == Ready);
    }
    ActKeeps(s, i, y, None);
  }

  lemma StepEndsSip(s: State, i: nat, sl: Slot, e: Event) returns (y: Ctx)
    requires TableInv(s) && i < |s.calls| && s.calls[i].Get(sl).Sip? && s.calls[i].Get(sl).s.handle != NULL_HANDLE
    requires EndsSip(s.calls[i], sl, e, s.conn == Ready)
    requires s.calls[i].Get(sl.Other()).Mncc? ==> s.calls[i].Get(sl.Other()).m.base.inRelease
    ensures Step(s, e) == Act(s, i, y) && TableInv(Act(s, i, y)) && y.call.id == s.calls[i].id
    ensures y.Get(sl).NoLeg? && (s.calls[i].Get(sl.Other()).NoLeg? ==> y.Get(sl.Other()).NoLeg?)
    ensures s.calls[i].Get(sl.Other()).Mncc? ==>
              && y.Get(sl.Other()).Mncc? && y.Get(sl.Other()).m.base.inRelease
              && y.Get(sl.Other()).m.callref == s.calls[i].Get(sl.Other()).m.callref
  {
    hide DigestOf, Advance, TableInv, OnSip, CallInv;
    ListedKeeps(s, i);
    SipEnds(At(s, i), sl, e, s.conn == Ready);
    SameHandleSameCall(s, FindHandle(s.calls, e.handle), i, e.handle);
    OneSipLeg(At(s, i), sl);
    y := OnSip(At(s, i), sl, e.ev, s.conn == Ready);
    ActKeeps(s, i, y, None);
  }

  // Both legs being released, the two completions may come in either order: each removes one
  // leg, together they remove just this call, and no other call or trace changes.
  lemma TeardownIsConfluent(s: State, i: nat, sl: Slot, eM: Event, eS: Event)
    requires Reachable(s) && i < |s.calls| && Paired(s.calls[i], sl) && s.calls[i].Get(sl).m.base.inRelease
    requires EndsMncc(s.calls[i], sl, eM) && EndsSip(s.calls[i], sl.Other(), eS, s.conn == Ready)
    ensures var mid, mid' := Step(s, eM), Step(s, eS);
            var end, end' := Step(mid, eS), Step(mid', eM);
            && |mid.calls| == |mid'.calls| == |s.calls|
            && LegCount(mid.calls[i]) == 1 && LegCount(mid'.calls[i]) == 1
            && end.calls == s.calls[..i] + s.calls[i + 1..] == end'.calls
            && (forall id | id != s.calls[i].id :: TraceOf(end, id) == TraceOf(s, id) == TraceOf(end', id))
  {
    hide Reachable, DigestOf, TableInv, CallInv, Step, EndsMncc, EndsSip, Shape, PairInv, SipInv;
    ReachableInv(s);
    assert s.calls[i].Get(sl.Other()).s.handle != NULL_HANDLE by { PairedHandle(s, i, sl); }
    MnccFirst(s, i, sl, eM, eS);
    SipFirst(s, i, sl, eM, eS);
  }

  lemma PairedHandle(s: State, i: nat, sl: Slot)
    requires TableInv(s) && i < |s.calls| && Paired(s.calls[i], sl)
    ensures s.calls[i].Get(sl.Other()).s.handle != NULL_HANDLE
  {
    hide DigestOf, Advance, TableInv, CallInv;
    PairedInv(s, i, sl);
  }

  lemma MnccFirst(s: State, i: nat, sl: Slot, eM: Event, eS: Event)
    requires TableInv(s) && i < |s.calls| && Paired(s.calls[i], sl) && s.calls[i].Get(sl).m.base.inRelease
    requires EndsMncc(s.calls[i], sl, eM) && EndsSip(s.calls[i], sl.Other(), eS, s.conn == Ready)
    requires s.calls[i].Get(sl.Other()).s.handle != NULL_HANDLE
    ensures var mid := Step(s, eM); var end := Step(mid, eS);
            && |mid.calls| == |s.calls| && LegCount(mid.calls[i]) == 1
            && end.calls == s.calls[..i] + s.calls[i + 1..]
            && (forall id | id != s.calls[i].id :: TraceOf(end, id) == TraceOf(s, id))
  {
    hide DigestOf, Advance, TableInv, CallInv, Step;
    var y := StepEndsMncc(s, i, sl, eM);
    var mid := Step(s, eM);
    var z := StepEndsSip(mid, i, sl.Other(), eS);
    assert z.call.Gone();
  }

  lemma SipFirst(s: State, i: nat, sl: Slot, eM: Event, eS: Event)
    requires TableInv(s) && i < |s.calls| && Paired(s.calls[i], sl) && s.calls[i].Get(sl).m.base.inRelease
    requires EndsMncc(s.calls[i], sl, eM) && EndsSip(s.calls[i], sl.Other(), eS, s.conn == Ready)
    requires s.calls[i].Get(sl.Other()).s.handle != NULL_HANDLE
    ensures var mid := Step(s, eS); var end := Step(mid, eM);
            && |mid.calls| == |s.calls| && LegCount(mid.calls[i]) == 1
            && end.calls == s.calls[..i] + s.calls[i + 1..]
            && (forall id | id != s.calls[i].id :: TraceOf(end, id) == TraceOf(s, id))
  {
    hide DigestOf, Advance, TableInv, CallInv, Step;
    var y := StepEndsSip(s, i, sl.Other(), eS);
    var mid := Step(s, eS);
    var z := StepEndsMncc(mid, i, sl, eM);
    assert z.call.Gone();
  }
}
