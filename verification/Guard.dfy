/** The release guard: an MNCC leg in release has its command timer armed, so that a lost
    answer cannot leave it behind. The code keeps this with one exception: a 200 to the
    INVITE that crosses the release makes the leg wait for SETUP_COMPL_IND again, and that
    message then stops the timer. */
module Guard {
  import opened Domain
  import opened Sdp
  import opened Trace
  import opened CallMachine
  import opened CallInvariant
  import opened Bridge
  import opened Lifecycle
  import opened Scenario
  import CauseMap

  // An MNCC leg in release has its command timer armed.
  predicate Guarded(c: CallV) {
    var mp := MnccPart(c);
    mp.Some? && mp.value.base.inRelease ==> mp.value.timer
  }

  // A SETUP_RSP crossed the release, and is now answered.
  predicate LateCompletion(m: MLeg, msg: MnccMsg) {
    msg.SetupComplIndMsg? && m.base.inRelease && m.wanted == SetupComplInd
  }

  // Every handler leaves the call in shape and guarded; which handler is named by the lemma.

  lemma GuardAtRelease(x: Ctx, sl: Slot, ready: bool)
    requires Shape(x.call) && Guarded(x.call)
    ensures var y := ReleaseIfAny(x, sl, ready).call; Shape(y) && Guarded(y)
  {
    hide DigestOf, Advance, SipRelease, MnccRelease;
    if x.Get(sl).Mncc? {
      GuardAtMnccRelease(x, sl, ready);
    } else if x.Get(sl).Sip? {
      GuardAtSipRelease(x, sl);
    }
  }

  lemma GuardAtMnccRelease(x: Ctx, sl: Slot, ready: bool)
    requires Shape(x.call) && x.Get(sl).Mncc?
    ensures var y := MnccRelease(x, sl, ready).call; Shape(y) && Guarded(y)
  {
    hide DigestOf, Advance;
  }

  lemma GuardAtSipRelease(x: Ctx, sl: Slot)
    requires Shape(x.call) && Guarded(x.call) && x.Get(sl).Sip?
    ensures var y := SipRelease(x, sl).call; Shape(y) && Guarded(y)
  {
    hide DigestOf, Advance, CauseMap.CauseToStatus, CauseMap.ReasonText;
  }

  lemma GuardAtReleaseWithCause(x: Ctx, sl: Slot, cause: int, ready: bool)
    requires Shape(x.call) && Guarded(x.call)
    ensures var y := ReleaseWithCause(x, sl, cause, ready).call; Shape(y) && Guarded(y)
  {
    hide DigestOf, Advance, ReleaseLeg;
    if !x.Get(sl).NoLeg? {
      GuardAtRelease(x.Put(sl, x.Get(sl).WithCommon(x.Get(sl).Common().(cause := cause))), sl, ready);
    }
  }

  lemma GuardAtFree(x: Ctx, sl: Slot)
    requires Shape(x.call) && Guarded(x.call)
    ensures Guarded(Free(x, sl).call)
  {
    hide DigestOf, Advance;
  }

  lemma GuardAtStart(x: Ctx, sl: Slot)
    requires Shape(x.call) && x.Get(sl).Mncc?
    ensures var y := StartRelease(x, sl, RelReq, RelCnf).call; Shape(y) && Guarded(y)
  {
    hide DigestOf, Advance;
  }

  lemma GuardAtClearing(x: Ctx, sl: Slot, cause: int, ready: bool)
    requires Shape(x.call) && x.Get(sl).Mncc? && Guarded(x.call)
    ensures Guarded(OnDiscInd(x, sl, cause, ready).call)
    ensures Guarded(OnRelInd(x, sl, cause, ready).call)
    ensures Guarded(OnRejInd(x, sl, cause, ready).call)
    ensures Guarded(Free(x, sl).call)
  {
    hide DigestOf, Advance, ReleaseWithCause, StartRelease, Free, Shape, Guarded;
    GuardAtFree(x, sl);
    GuardAtReleaseWithCause(x, sl.Other(), cause, ready);
    GuardAtFree(ReleaseWithCause(x, sl.Other(), cause, ready), sl);
    GuardAtStart(x, sl);
    GuardAtReleaseWithCause(StartRelease(x, sl, RelReq, RelCnf), sl.Other(), cause, ready);
  }

  lemma GuardAtHear(x: Ctx, sl: Slot, sdp: string)
    requires Shape(x.call) && !x.Get(sl).NoLeg? && (x.Get(sl).Sip? ==> !Bare(x.Get(sl).s)) && Guarded(x.call)
    ensures var y := Hear(x, sl, sdp).call; Shape(y) && Guarded(y)
  {
    hide DigestOf, Advance, Hear;
    HearKeepsLegs(x, sl, sdp);
  }

  lemma GuardAtRtpCreate(x: Ctx, sl: Slot, msg: MnccMsg, ready: bool)
    requires Shape(x.call) && x.Get(sl).Mncc? && Guarded(x.call) && msg.RtpCreate? && !x.Get(sl).m.base.inRelease
    ensures Guarded(OnRtpCreate(x, sl, msg, ready).call)
  {
    hide DigestOf, Advance, Hear, ReleaseLeg;
    HearKeepsLegs(Created(x, sl, msg), sl, msg.sdp);
    var x1 := TakeMedia(x, sl, msg);
    var x2 := Send(x1, TxSignal(CallProcReq, x1.Get(sl).m.callref)).Put(sl, Mncc(x1.Get(sl).m.(state := MProceeding)));
    GuardAtRelease(x2, Initial, ready);
  }

  lemma GuardAtRtpConnect(x: Ctx, sl: Slot, msg: MnccMsg, ready: bool)
    requires Shape(x.call) && x.Get(sl).Mncc? && Guarded(x.call) && msg.RtpConnect?
    ensures Guarded(OnRtpConnect(x, sl, msg, ready).call)
  {
    hide DigestOf, Advance, Hear, ReleaseIfAny, Shape, Guarded;
    GuardAtHear(x, sl, msg.sdp);
    var x1 := Hear(x, sl, msg.sdp);
    GuardAtRelease(x1, sl.Other(), ready);
    GuardAtRelease(ReleaseIfAny(x1, sl.Other(), ready), sl, ready);
  }

  lemma GuardAtSetupCnf(x: Ctx, sl: Slot, sdp: string, ready: bool)
    requires Shape(x.call) && x.Get(sl).Mncc? && Guarded(x.call)
    ensures Guarded(OnSetupCnf(x, sl, sdp, ready).call)
  {
    hide DigestOf, Advance, Hear, MnccRelease, SipRelease;
    HearKeepsLegs(x, sl, sdp);
    GuardAtMnccRelease(Hear(x, sl, sdp), sl, ready);
  }

  lemma GuardAtCallConf(x: Ctx, sl: Slot, sdp: string)
    requires Shape(x.call) && x.Get(sl).Mncc? && Guarded(x.call)
    ensures Guarded(OnCallConfInd(x, sl, sdp).call)
  {
    hide DigestOf, Advance, Hear;
    HearKeepsLegs(x, sl, sdp);
  }

  lemma GuardAtAlert(x: Ctx, sl: Slot, sdp: string, ready: bool)
    requires Shape(x.call) && x.Get(sl).Mncc? && Guarded(x.call)
    ensures Guarded(OnAlertInd(x, sl, sdp, ready).call)
  {
    hide DigestOf, Advance, Hear, MnccRelease;
    HearKeepsLegs(x, sl, sdp);
    GuardAtMnccRelease(Hear(x, sl, sdp), sl, ready);
  }

  lemma GuardAtHold(x: Ctx, sl: Slot)
    requires Shape(x.call) && x.Get(sl).Mncc? && Guarded(x.call)
    ensures Guarded(OnHoldInd(x, sl).call)
  {
    hide DigestOf, Advance, SipRelease;
  }

  lemma GuardAtRetrieve(x: Ctx, sl: Slot, ready: bool)
    requires Shape(x.call) && x.Get(sl).Mncc? && Guarded(x.call)
    ensures Guarded(OnRetrieveInd(x, sl, ready).call)
  {
    hide DigestOf, Advance, SipRelease, MnccRelease;
    GuardAtMnccRelease(Send(x, TxSignal(RetrieveCnf, x.Get(sl).m.callref)), sl, ready);
  }

  lemma GuardAtDtmf(x: Ctx, sl: Slot, key: int, sdp: string)
    requires Shape(x.call) && x.Get(sl).Mncc? && Guarded(x.call)
    ensures Guarded(OnStartDtmf(x, sl, key, sdp).call) && Guarded(OnStopDtmf(x, sl, key, sdp).call)
  {
    hide DigestOf, Advance, Hear;
    HearKeepsLegs(x, sl, sdp);
  }

  lemma GuardAtCompletion(x: Ctx, sl: Slot, sdp: string)
    requires Shape(x.call) && x.Get(sl).Mncc? && Guarded(x.call)
    ensures Guarded(OnSetupComplInd(x, sl, sdp).call) <==> !LateCompletion(x.Get(sl).m, SetupComplIndMsg(sdp))
  {
    hide DigestOf, Advance, Hear;
    HearKeepsLegs(x, sl, sdp);
  }

  // No message but a late completion disarms the guard, and a late completion always does.
  lemma GuardFallsExactly(x: Ctx, sl: Slot, msg: MnccMsg, ready: bool)
    requires CallInv(x) && x.Get(sl).Mncc? && Guarded(x.call)
    requires msg.RtpCreate? || msg.RtpConnect? ==> !x.Get(sl).m.base.inRelease
    ensures Guarded(OnMncc(x, sl, msg, ready).call) <==> !LateCompletion(x.Get(sl).m, msg)
  {
    hide DigestOf, Advance, Guarded, Shape, Free, OnRtpCreate, OnRtpConnect, OnDiscInd, OnRelInd, OnRejInd,
      OnSetupComplInd, OnSetupCnf, OnCallConfInd, OnAlertInd, OnHoldInd, OnRetrieveInd, OnStartDtmf, OnStopDtmf;
    match msg
    case SetupComplIndMsg(sdp) => GuardAtCompletion(x, sl, sdp);
    case RtpCreate(_, _, _, _, _) => GuardAtRtpCreate(x, sl, msg, ready);
    case RtpConnect(_, _, _) => GuardAtRtpConnect(x, sl, msg, ready);
    case SetupCnf(sdp) => GuardAtSetupCnf(x, sl, sdp, ready);
    case CallConfInd(sdp) => GuardAtCallConf(x, sl, sdp);
    case AlertInd(sdp) => GuardAtAlert(x, sl, sdp, ready);
    case HoldInd(_) => GuardAtHold(x, sl);
    case RetrieveInd(_) => GuardAtRetrieve(x, sl, ready);
    case StartDtmf(key, sdp) => GuardAtDtmf(x, sl, key, sdp);
    case StopDtmf(key, sdp) => GuardAtDtmf(x, sl, key, sdp);
    case DiscInd(cause, _) => GuardAtClearing(x, sl, cause, ready);
    case RelIndMsg(cause, _) => GuardAtClearing(x, sl, cause, ready);
    case RejInd(cause, _) => GuardAtClearing(x, sl, cause, ready);
    case RelCnfMsg(_) => GuardAtClearing(x, sl, 0, ready);
  }

  lemma GuardAtDrop(x: Ctx, sl: Slot)
    requires Shape(x.call) && Guarded(x.call) && x.Get(sl).Sip?
    ensures var y := DropSip(x, sl).call; Shape(y) && Guarded(y)
  {
    hide DigestOf, Advance;
  }

  lemma GuardAtRenegotiation(x: Ctx, sl: Slot, payload: Payload, ready: bool)
    requires Shape(x.call) && Guarded(x.call) && x.Get(sl).Sip? && !x.Get(sl.Other()).NoLeg?
    ensures Guarded(Renegotiate(x, sl, payload, ready).call)
  {
    hide DigestOf, Advance, Pick, ReleaseLeg;
  }

  lemma GuardAtReinvite(x: Ctx, sl: Slot, payload: Payload, ready: bool)
    requires Shape(x.call) && Guarded(x.call) && x.Get(sl).Sip? && !Bare(x.Get(sl).s)
    ensures Guarded(OnReinvite(x, sl, payload, ready).call)
  {
    hide DigestOf, Advance, Hear, SipRelease, Renegotiate, MediaMode;
    HearKeepsLegs(x, sl, Text(payload));
    GuardAtSipRelease(x, sl);
    if !x.Get(sl.Other()).NoLeg? {
      GuardAtRenegotiation(Hear(x, sl, Text(payload)), sl, payload, ready);
    }
  }

  lemma GuardAtProgress(x: Ctx, sl: Slot, payload: Payload)
    requires Shape(x.call) && Guarded(x.call) && x.Get(sl).Sip?
    ensures Guarded(OnProgress(x, sl, payload).call)
  {
    hide DigestOf, Advance, Pick;
  }

  lemma GuardAtAccept(x: Ctx, sl: Slot, payload: Payload, ready: bool)
    requires Shape(x.call) && Guarded(x.call) && x.Get(sl).Sip? && !Bare(x.Get(sl).s)
    ensures Guarded(OnAccept(x, sl, payload, ready).call)
  {
    hide DigestOf, Advance, Pick, ReleaseLeg, SipRelease;
    var s := x.Get(sl).s;
    var x1 := x.Put(sl, Sip(Placed(s, Pick(payload, s.base.addr, s.base.payloadType, s.codec))));
    GuardAtRelease(Send(x1, TxCancel(s.handle)), sl.Other(), ready);
  }

  lemma GuardAtStatus(x: Ctx, sl: Slot, status: int, payload: Payload, ready: bool)
    requires Shape(x.call) && Guarded(x.call) && x.Get(sl).Sip? && !Bare(x.Get(sl).s)
    ensures Guarded(OnStatus(x, sl, status, payload, ready).call)
  {
    hide DigestOf, Advance, OnProgress, OnAccept, DropSip, ReleaseWithCause, CauseMap.StatusToCause;
    GuardAtProgress(x, sl, payload);
    GuardAtAccept(x, sl, payload, ready);
    var x1 := Send(x, TxCancel(x.Get(sl).s.handle));
    GuardAtDrop(x1, sl);
    GuardAtReleaseWithCause(DropSip(x1, sl), sl.Other(), CauseMap.StatusToCause(status), ready);
  }

  lemma GuardAtConfirm(x: Ctx, sl: Slot, sdp: string)
    requires Shape(x.call) && Guarded(x.call) && x.Get(sl).Sip? && !Bare(x.Get(sl).s)
    ensures var y := Confirm(x, sl, sdp); Shape(y.call) && Guarded(y.call) && !Bare(y.Get(sl).s)
  {
    hide DigestOf, Advance, Hear;
    HearKeepsLegs(x, sl, sdp);
  }

  lemma GuardAtSip(x: Ctx, sl: Slot, ev: SipEvent, ready: bool)
    requires Shape(x.call) && Guarded(x.call) && x.Get(sl).Sip? && !Bare(x.Get(sl).s)
    ensures Guarded(OnSip(x, sl, ev, ready).call)
  {
    hide DigestOf, Advance, Hear, Confirm, OnStatus, OnReinvite, ReleaseIfAny, DropSip, Shape, Guarded;
    match ev
    case InviteResponse(status, payload) =>
      GuardAtConfirm(x, sl, Text(payload));
      GuardAtStatus(Confirm(x, sl, Text(payload)), sl, status, payload, ready);
    case GotAck(payload) =>
      GuardAtHear(x, sl, Text(payload));
      HearKeepsLegs(x, sl, Text(payload));
      GuardAtReinvite(Hear(x, sl, Text(payload)), sl, payload, ready);
    case GotReinvite(payload) =>
      GuardAtHear(x, sl, Text(payload));
      HearKeepsLegs(x, sl, Text(payload));
      GuardAtReinvite(Hear(x, sl, Text(payload)), sl, payload, ready);
    case _ =>
      GuardAtDrop(x, sl);
      GuardAtRelease(DropSip(x, sl), sl.Other(), ready);
  }

  // ---------------------------------------------------------------- over runs

  predicate GuardHeld(s: State) {
    forall i | 0 <= i < |s.calls| :: Guarded(s.calls[i])
  }

  // The event is not a SETUP_COMPL_IND for a SETUP_RSP that crossed the release.
  predicate Punctual(s: State, e: Event) {
    e.FromMsc? ==>
      var i := FindRef(s.calls, e.callref);
      i < |s.calls| ==> !LateCompletion(s.calls[i].Get(RefSlot(s.calls[i], e.callref)).m, e.msg)
  }

  lemma ActGuard(s: State, i: nat, y: Ctx)
    requires i < |s.calls| && GuardHeld(s)
    ensures GuardHeld(Act(s, i, y)) <==> Guarded(y.call)
  {
    var s1 := Act(s, i, y);
    if y.call.Gone() {
      assert forall j | 0 <= j < |s1.calls| :: s1.calls[j] == s.calls[if j < i then j else j + 1];
    } else {
      assert s1.calls[i] == y.call;
    }
  }

  lemma FromMscGuard(s: State, callref: nat, msg: MnccMsg)
    requires Inv(s) && Allowed(s, FromMsc(callref, msg)) && GuardHeld(s)
    ensures GuardHeld(OnFromMsc(s, callref, msg)) <==> Punctual(s, FromMsc(callref, msg))
  {
    hide DigestOf, Advance, CallInv, TableInv, OnMncc, FreshHandle, Guarded;
    var i := FindRef(s.calls, callref);
    if i < |s.calls| {
      var sl := RefSlot(s.calls[i], callref);
      if !((msg.RtpCreate? || msg.RtpConnect?) && s.calls[i].Get(sl).m.base.inRelease) {
        ListedKeeps(s, i);
        GuardFallsExactly(At(s, i), sl, msg, s.conn == Ready);
        ActGuard(s, i, OnMncc(At(s, i), sl, msg, s.conn == Ready));
      }
    }
  }

  lemma FromPbxGuard(s: State, handle: Handle, ev: SipEvent)
    requires Inv(s) && Allowed(s, FromPbx(handle, ev)) && GuardHeld(s)
    ensures GuardHeld(OnFromPbx(s, handle, ev))
  {
    hide DigestOf, Advance, TableInv, OnSip, Guarded;
    var i := FindHandle(s.calls, handle);
    var sl := HandleSlot(s.calls[i], handle);
    ListedKeeps(s, i);
    GuardAtSip(At(s, i), sl, ev, s.conn == Ready);
    ActGuard(s, i, OnSip(At(s, i), sl, ev, s.conn == Ready));
  }

  lemma TimerGuard(s: State, id: nat)
    requires Inv(s) && GuardHeld(s)
    ensures GuardHeld(OnTimer(s, id))
  {
    hide DigestOf, Advance, TableInv, CauseMap.CauseToStatus, CauseMap.ReasonText;
    var i := FindId(s.calls, id);
    if i < |s.calls| && s.calls[i].HasMncc() {
      ListedKeeps(s, i);
      ActGuard(s, i, OnTimeout(At(s, i), MnccSlot(s.calls[i]), s.conn == Ready));
    }
  }

  // Nothing to guard: no call has an MNCC leg.
  lemma CloseGuard(s: State)
    requires TableInv(s) && GuardHeld(s)
    ensures GuardHeld(CloseConnection(s))
  {
    hide DigestOf, Advance, TableInv, Sweep;
    if s.fdOpen {
      var s1 := s.(conn := Disconnected, fdOpen := false, reconnect := true);
      SameTable(s, s1);
      SweepKeeps(s1, 0);
    }
  }

  lemma AddGuard(s: State, y: Ctx)
    requires GuardHeld(s) && !y.call.HasMncc()
    ensures GuardHeld(Add(s, y))
  {
    assert Guarded(y.call);
  }

  lemma RoutedGuard(y: Ctx)
    requires y.call.initial.Sip?
    ensures Guarded(RouteToMncc(y).call)
  {
    hide DigestOf, Advance;
  }

  // Routing the new call, or failing to.
  lemma RoutingGuard(s: State, y: Ctx, writeOk: bool)
    requires TableInv(s) && GuardHeld(s) && |s.calls| > 0 && At(s, 0) == y && CallInv(y) && Routable(y)
    ensures GuardHeld(Act(s, 0, RouteToMncc(y)))
    ensures |CloseConnection(s).calls| > 0 && GuardHeld(Act(CloseConnection(s), 0, SipRelease(y, Initial)))
  {
    hide DigestOf, Advance, CallInv, TableInv, SipRelease, RouteToMncc, CloseConnection, Act, GuardHeld;
    RoutedGuard(y);
    ActGuard(s, 0, RouteToMncc(y));
    CloseGuard(s);
    UnroutableIsGone(y);
    TableParts(s);
    CloseSparesHead(s, y);
    ActGuard(CloseConnection(s), 0, SipRelease(y, Initial));
  }

  lemma IncomingGuard(s: State, offer: Offer, writeOk: bool)
    requires Inv(s) && Allowed(s, Incoming(offer, writeOk)) && GuardHeld(s)
    ensures GuardHeld(OnIncoming(s, offer, writeOk))
  {
    hide DigestOf, Advance, CallInv, NewSipCall, SipRelease, RouteToMncc, Screened, Pick, TableInv, CloseConnection,
      FreshRef, Act, Add, GuardHeld;
    var y := NewSipCall(s.lastId + 1, offer.handle, offer.payload, offer.usersKnown && offer.gcrUsable);
    NewSipCallOk(s.lastId + 1, offer.handle, offer.payload, offer.usersKnown && offer.gcrUsable);
    AddGuard(s, y);
    NoteGuard(s, [TxReject(offer.handle, 406, None), Destroy(offer.handle)]);
    if !y.call.Gone() && Routable(y) {
      AddKeeps(s, y);
      AddedFirst(s, y);
      RoutingGuard(Add(s, y), y, writeOk);
    }
  }

  lemma NoteGuard(s: State, entries: seq<Entry>)
    requires GuardHeld(s)
    ensures GuardHeld(Note(s, entries))
  {
  }

  // One event keeps the guard on all calls exactly if it is punctual.
  lemma GuardIsKeptExactly(s: State, e: Event)
    requires Inv(s) && Allowed(s, e) && GuardHeld(s)
    ensures GuardHeld(Step(s, e)) <==> Punctual(s, e)
  {
    hide DigestOf, Advance, CallInv, TableInv, FreshHandle, OnFromMsc, OnFromPbx, OnTimer, OnIncoming, CloseConnection,
      Guarded, NewMnccCall;
    match e
    case Hello(version) => CloseGuard(s);
    case BadData => CloseGuard(s);
    case SetupInd(setup) => NewCallGuard(s.lastId + 1, setup);
    case FromMsc(callref, msg) => FromMscGuard(s, callref, msg);
    case Timeout(id) => TimerGuard(s, id);
    case FromPbx(handle, ev) => FromPbxGuard(s, handle, ev);
    case Incoming(offer, writeOk) => IncomingGuard(s, offer, writeOk);
    case Reconnect(_) =>
  }

  lemma NewCallGuard(id: nat, setup: Setup)
    ensures Guarded(NewMnccCall(id, setup.callref, setup.sdp).call)
  {
    hide DigestOf, Advance;
  }

  // After every run without a late completion, every leg in release is guarded.
  lemma {:induction false} PunctualRunsStayGuarded(ss: seq<State>, es: seq<Event>, k: nat)
    requires IsRun(ss, es) && k <= |es| && forall j | 0 <= j < k :: Punctual(ss[j], es[j])
    ensures GuardHeld(ss[k])
  {
    hide Step, Inv, GuardHeld, Punctual, Allowed;
    if k > 0 {
      PunctualRunsStayGuarded(ss, es, k - 1);
      RunsKeepInvariant(ss, es, k - 1);
      RunStep(ss, es, k - 1);
      assert Punctual(ss[k - 1], es[k - 1]);
      GuardIsKeptExactly(ss[k - 1], es[k - 1]);
    } else {
      NothingToGuard();
    }
  }

  lemma NothingToGuard()
    ensures GuardHeld(INIT)
  {
  }

  // ---------------------------------------------------------------- as the MSC can see it

  // A SETUP_COMPL_IND answers no SETUP_RSP that the call sent after its DISC_REQ or REL_REQ.
  ghost predicate Timely(s: State, e: Event) {
    e.FromMsc? && e.msg.SetupComplIndMsg? ==>
      var i := FindRef(s.calls, e.callref);
      i < |s.calls| ==> !AnsweredLate(TraceOf(s, s.calls[i].id))
  }

  // A leg in release that waits for SETUP_COMPL_IND sent its SETUP_RSP after the release began.
  lemma LateCompletionIsVisible(x: Ctx, sl: Slot)
    requires CallInv(x) && x.Get(sl).Mncc? && x.Get(sl).m.base.inRelease && x.Get(sl).m.wanted == SetupComplInd
    ensures AnsweredLate(x.log)
  {
    hide DigestOf, Advance;
    LateReads(x.log);
  }

  lemma TimelyIsPunctual(s: State, e: Event)
    requires Inv(s) && Timely(s, e)
    ensures Punctual(s, e)
  {
    hide DigestOf, Advance, TableInv, CallInv, AnsweredLate;
    if e.FromMsc? {
      var i := FindRef(s.calls, e.callref);
      if i < |s.calls| {
        var sl := RefSlot(s.calls[i], e.callref);
        if LateCompletion(s.calls[i].Get(sl).m, e.msg) {
          ListedKeeps(s, i);
          LateCompletionIsVisible(At(s, i), sl);
        }
      }
    }
  }

  // If the MSC completes only setups that were answered before the release, every leg in release
  // is guarded.
  lemma TimelyRunsStayGuarded(ss: seq<State>, es: seq<Event>)
    requires IsRun(ss, es) && forall j | 0 <= j < |es| :: Timely(ss[j], es[j])
    ensures GuardHeld(ss[|es|])
  {
    hide Step, Inv, GuardHeld, Punctual, Allowed, Timely;
    forall j | 0 <= j < |es| ensures Punctual(ss[j], es[j]) {
      RunsKeepInvariant(ss, es, j);
      assert Timely(ss[j], es[j]);
      TimelyIsPunctual(ss[j], es[j]);
    }
    PunctualRunsStayGuarded(ss, es, |es|);
  }

  // ---------------------------------------------------------------- the exception happens

  lemma CompletionDisarms(x: Ctx)
    requires Underway(x, SConnected, true, SetupComplInd)
    ensures var y := OnMncc(x, Initial, SetupComplIndMsg(""), true);
            y.call.id == x.call.id && y.call.initial.Mncc? && !Guarded(y.call)
  {
    hide DigestOf, Advance;
  }

  // A run that ends with a leg in release that nothing guards: the mobile hangs up just as the
  // PBX answers, and the MSC then completes the setup it had been told about.
  lemma LateCompletionDisarms() returns (ss: seq<State>, es: seq<Event>)
    ensures IsRun(ss, es) && es == CALL_SETUP + CALL_RINGS + CALL_CROSSES + [FromMsc(CALLREF, SetupComplIndMsg(""))]
    ensures !GuardHeld(ss[|es|])
  {
    hide DigestOf, Advance, OnMncc, Step, Allowed;
    var x;
    ss, es, x := CallCrosses();
    CompletionDisarms(x);
    ss, es := NextFromMsc(ss, es, x, SetupComplIndMsg(""));
    assert !Guarded(ss[|es|].calls[0]);
  }
}
