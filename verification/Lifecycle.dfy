/** The invariant of the whole process and that every event the environment may deliver
    keeps it, hence that it holds after every run. */
module Lifecycle {
  import opened Domain
  import opened Sdp
  import opened Trace
  import opened CallMachine
  import opened CallInvariant
  import opened Bridge
  import opened CallList

  // ---------------------------------------------------------------- the invariant

  // A listed call has a leg, and keeps its invariant with its trace.
  predicate CallOk(s: State, c: CallV) {
    && NO_CALL < c.id <= s.lastId && c.id in s.traces
    && !c.Gone() && CallInv(Ctx(c, s.traces[c.id]))
  }

  // What is left of a call that left the list.
  predicate PastOk(s: State, id: nat)
    requires id in s.traces
  {
    CallInv(Ctx(CallV(id, NoLeg, NoLeg), s.traces[id]))
  }

  ghost predicate DistinctRefs(calls: seq<CallV>) {
    forall i, j, callref: nat | 0 <= i < |calls| && 0 <= j < |calls| && CallHasRef(calls[i], callref)
      && CallHasRef(calls[j], callref) :: i == j
  }

  // No two traces speak of the same handle.
  ghost predicate DistinctHandles(traces: map<nat, seq<Entry>>) {
    forall a, b, h | a in traces && b in traces && h in MentionsOf(traces[a]) && h in MentionsOf(traces[b]) :: a == b
  }

  ghost predicate TableInv(s: State) {
    && (forall i | 0 <= i < |s.calls| :: CallOk(s, s.calls[i]))
    && (forall id | id in s.traces :: id <= s.lastId && (id != NO_CALL && !Listed(s.calls, id) ==> PastOk(s, id)))
    && DistinctIds(s.calls) && DistinctRefs(s.calls) && DistinctHandles(s.traces)
  }

  predicate NoMncc(calls: seq<CallV>) {
    forall i | 0 <= i < |calls| :: !calls[i].HasMncc()
  }

  predicate ConnInv(s: State) {
    && (s.fdOpen <==> s.conn != Disconnected)
    && (s.conn == Disconnected ==> s.reconnect && NoMncc(s.calls))
  }

  ghost predicate Inv(s: State) {
    TableInv(s) && ConnInv(s)
  }

  // ---------------------------------------------------------------- what the environment grants

  ghost predicate FreshHandle(s: State, h: Handle) {
    h != NULL_HANDLE && forall id | id in s.traces :: h !in MentionsOf(s.traces[id])
  }

  // No live MNCC leg uses the callref.
  predicate FreshRef(s: State, callref: nat) {
    forall i | 0 <= i < |s.calls| :: !CallHasRef(s.calls[i], callref)
  }

  ghost predicate Allowed(s: State, e: Event) {
    match e
    case Reconnect(_) => s.reconnect && !s.fdOpen
    case Hello(_) => s.fdOpen
    case BadData => s.fdOpen
    case SetupInd(setup) => s.fdOpen && FreshRef(s, setup.callref)
    case FromMsc(callref, msg) =>
      var i := FindRef(s.calls, callref);
      && s.fdOpen
      && (i < |s.calls| ==>
            var m := s.calls[i].Get(RefSlot(s.calls[i], callref)).m;
            (msg.RtpCreate? && m.base.inRelease) || MnccAllowed(m, msg))
      && (msg.RtpCreate? && msg.handle != NULL_HANDLE ==> FreshHandle(s, msg.handle))
    case Timeout(id) =>
      var i := FindId(s.calls, id);
      i < |s.calls| && s.calls[i].HasMncc() && s.calls[i].Get(MnccSlot(s.calls[i])).m.timer
    case FromPbx(handle, ev) =>
      var i := FindHandle(s.calls, handle);
      handle != NULL_HANDLE && i < |s.calls| && SipAllowed(TraceOf(s, s.calls[i].id), ev)
    case Incoming(offer, _) => FreshHandle(s, offer.handle) && FreshRef(s, s.lastId + 1)
  }

  // ---------------------------------------------------------------- one call changes

  // A trace that keeps the handle discipline mentions just the digest's handle.
  lemma MentionsAreHandle(t: seq<Entry>)
    requires DigestOf(t).safe
    ensures forall h :: h in MentionsOf(t) <==> DigestOf(t).handle == Some(h)
  {
    HandleReads(t);
  }

  predicate Changes(s: State, i: nat, y: Ctx, taken: Option<Handle>)
    requires i < |s.calls|
  {
    CallInv(y) && Evolves(At(s, i), y, taken)
  }

  lemma ActHandles(s: State, i: nat, y: Ctx, taken: Option<Handle>)
    requires TableInv(s) && i < |s.calls| && Changes(s, i, y, taken) && (taken.Some? ==> FreshHandle(s, taken.value))
    ensures DistinctHandles(s.traces[y.call.id := y.log])
  {
    hide DigestOf;
    assert CallOk(s, s.calls[i]);
    MentionsAreHandle(s.traces[s.calls[i].id]);
    MentionsAreHandle(y.log);
  }

  lemma ActRefs(s: State, i: nat, y: Ctx, taken: Option<Handle>)
    requires i < |s.calls| && DistinctRefs(s.calls) && Evolves(At(s, i), y, taken)
    ensures DistinctRefs(Relist(s.calls, i, y.call))
  {
    hide DigestOf;
    assert forall callref :: CallHasRef(y.call, callref) ==> CallHasRef(s.calls[i], callref);
  }

  lemma ActKeeps(s: State, i: nat, y: Ctx, taken: Option<Handle>)
    requires TableInv(s) && i < |s.calls| && Changes(s, i, y, taken) && (taken.Some? ==> FreshHandle(s, taken.value))
    ensures TableInv(Act(s, i, y))
  {
    hide DigestOf, CallInv, FreshHandle;
    ActHandles(s, i, y, taken);
    ActIds(s, i, y);
    ActRefs(s, i, y, taken);
    assert CallOk(s, s.calls[i]);
    var s1 := Act(s, i, y);
    forall j | 0 <= j < |s1.calls| ensures CallOk(s1, s1.calls[j]) {
      if y.call.Gone() {
        assert s1.calls[j] == s.calls[if j < i then j else j + 1];
      }
    }
    forall id | id in s1.traces && id != NO_CALL && !Listed(s1.calls, id) ensures PastOk(s1, id) {
      if id == y.call.id {
        assert y.call == CallV(id, NoLeg, NoLeg);
      }
    }
  }

  // ---------------------------------------------------------------- a call is added

  lemma AddKeeps(s: State, y: Ctx)
    requires TableInv(s) && CallInv(y) && y.call.id == s.lastId + 1
    requires forall h :: DigestOf(y.log).handle == Some(h) ==> FreshHandle(s, h)
    requires forall callref: nat :: CallHasRef(y.call, callref) ==> FreshRef(s, callref)
    ensures TableInv(Add(s, y))
  {
    hide DigestOf, CallInv, FreshHandle, FreshRef, CallOk, PastOk, DistinctIds, DistinctRefs, DistinctHandles;
    AddKeepsList(s, y);
    AddKeepsHandles(s, y);
    AddKeepsPast(s, y);
  }

  // The handle of a listed SIP leg is not fresh.
  lemma ListedHandleIsOld(s: State, i: nat, h: Handle)
    requires TableInv(s) && i < |s.calls| && h != NULL_HANDLE && CallHasHandle(s.calls[i], h)
    ensures !FreshHandle(s, h)
  {
    hide DigestOf;
    assert CallOk(s, s.calls[i]);
    MentionsAreHandle(s.traces[s.calls[i].id]);
  }

  // The new call heads the list.
  lemma AddedFirst(s: State, y: Ctx)
    requires !y.call.Gone()
    ensures |Add(s, y).calls| > 0 && At(Add(s, y), 0) == y && Add(s, y).fdOpen == s.fdOpen
  {
  }

  lemma AddKeepsPast(s: State, y: Ctx)
    requires TableInv(s) && CallInv(y) && y.call.id == s.lastId + 1
    ensures var s1 := Add(s, y);
            forall id | id in s1.traces ::
              id <= s1.lastId && (id != NO_CALL && !Listed(s1.calls, id) ==> PastOk(s1, id))
  {
    hide DigestOf, CallInv, Listed, CallOk, PastOk, DistinctIds, DistinctRefs, DistinctHandles;
    var s1 := Add(s, y);
    forall id | id in s1.traces && id != NO_CALL && !Listed(s1.calls, id) ensures PastOk(s1, id) {
      if id == y.call.id {
        assert y.call.Gone() by { NewIsListed(s, y); }
        NewIsPast(s, y);
      } else {
        if Listed(s.calls, id) {
          AddKeepsListed(s, y, id);
        }
        assert PastOk(s, id);
        PastStays(s, y, id);
      }
    }
  }

  lemma AddKeepsListed(s: State, y: Ctx, id: nat)
    requires Listed(s.calls, id)
    ensures Listed(Add(s, y).calls, id)
  {
    var i :| 0 <= i < |s.calls| && s.calls[i].id == id;
    assert Add(s, y).calls[if y.call.Gone() then i else i + 1].id == id;
  }

  // A new call is listed unless it lost its leg at once.
  lemma NewIsPast(s: State, y: Ctx)
    requires CallInv(y) && y.call.Gone()
    ensures PastOk(Add(s, y), y.call.id)
  {
    hide DigestOf, CallInv;
    assert y.call == CallV(y.call.id, NoLeg, NoLeg);
  }

  lemma NewIsListed(s: State, y: Ctx)
    ensures !y.call.Gone() ==> Listed(Add(s, y).calls, y.call.id)
  {
    if !y.call.Gone() {
      assert Add(s, y).calls[0].id == y.call.id;
    }
  }

  lemma PastStays(s: State, y: Ctx, id: nat)
    requires id in s.traces && id != y.call.id && PastOk(s, id)
    ensures PastOk(Add(s, y), id)
  {
    hide DigestOf, CallInv;
  }

  lemma AddKeepsList(s: State, y: Ctx)
    requires TableInv(s) && CallInv(y) && y.call.id == s.lastId + 1
    requires forall callref: nat :: CallHasRef(y.call, callref) ==> FreshRef(s, callref)
    ensures var s1 := Add(s, y);
            (forall i | 0 <= i < |s1.calls| :: CallOk(s1, s1.calls[i])) && DistinctIds(s1.calls)
              && DistinctRefs(s1.calls)
  {
    hide DigestOf, CallInv;
    assert forall i | 0 <= i < |s.calls| :: CallOk(s, s.calls[i]);
  }

  lemma AddKeepsHandles(s: State, y: Ctx)
    requires TableInv(s) && CallInv(y)
    requires forall h :: DigestOf(y.log).handle == Some(h) ==> FreshHandle(s, h)
    ensures DistinctHandles(Add(s, y).traces)
  {
    hide DigestOf, CallInv;
    InvIsSafe(y);
    MentionsAreHandle(y.log);
  }

  lemma InvIsSafe(x: Ctx)
    requires CallInv(x)
    ensures DigestOf(x.log).safe
  {
    hide DigestOf;
  }

  lemma NoteKeeps(s: State, entries: seq<Entry>)
    requires TableInv(s) && forall h | h in MentionsOf(entries) :: FreshHandle(s, h)
    ensures TableInv(Note(s, entries))
  {
    hide DigestOf, CallInv;
    var t, s1 := TraceOf(s, NO_CALL), Note(s, entries);
    forall h | h in MentionsOf(t + entries) && h !in MentionsOf(t) ensures h in MentionsOf(entries) {
      var i :| 0 <= i < |t + entries| && Mention((t + entries)[i]) == Some(h);
      assert i >= |t|;
      assert Mention(entries[i - |t|]) == Some(h);
    }
    forall i | 0 <= i < |s1.calls| ensures CallOk(s1, s1.calls[i]) {
      assert CallOk(s, s.calls[i]);
    }
  }

  // ---------------------------------------------------------------- the sweep

  lemma {:induction false} SweepKeeps(s: State, i: nat)
    requires TableInv(s) && i <= |s.calls| && NoMncc(s.calls[..i])
    ensures var r := Sweep(s, i);
            && TableInv(r) && NoMncc(r.calls)
            && r == s.(calls := r.calls, traces := r.traces) && r.traces.Keys == s.traces.Keys
    decreases |s.calls| - i
  {
    hide DigestOf, TableInv, OnDisconnect;
    if i < |s.calls| {
      if !s.calls[i].HasMncc() {
        assert s.calls[..i + 1] == s.calls[..i] + [s.calls[i]];
        SweepKeeps(s, i + 1);
      } else {
        TurnKeeps(s, i);
        var y := OnDisconnect(At(s, i));
        SweepKeeps(Act(s, i, y), if y.call.Gone() then i else i + 1);
      }
    }
  }

  lemma TurnKeeps(s: State, i: nat)
    requires TableInv(s) && i < |s.calls| && NoMncc(s.calls[..i]) && s.calls[i].HasMncc()
    ensures var y := OnDisconnect(At(s, i));
            var r := Act(s, i, y);
            && TableInv(r) && NoMncc(r.calls[..if y.call.Gone() then i else i + 1]) && r.traces.Keys == s.traces.Keys
  {
    hide DigestOf, CallInv, OnDisconnect;
    assert CallOk(s, s.calls[i]);
    var y := OnDisconnect(At(s, i));
    DisconnectKeeps(At(s, i));
    ActKeeps(s, i, y, None);
    if !y.call.Gone() {
      assert Act(s, i, y).calls[..i + 1] == s.calls[..i] + [y.call];
    }
  }

  // ---------------------------------------------------------------- every event keeps the invariant

  lemma CloseKeeps(s: State)
    requires Inv(s)
    ensures Inv(CloseConnection(s))
  {
    hide TableInv, Sweep;
    if s.fdOpen {
      var s1 := s.(conn := Disconnected, fdOpen := false, reconnect := true);
      assert TableInv(s1) by { SameTable(s, s1); }
      SweepKeeps(s1, 0);
    }
  }

  // The table's invariant does not look at the connection.
  lemma SameTable(s: State, s1: State)
    requires TableInv(s) && s1.calls == s.calls && s1.traces == s.traces && s1.lastId == s.lastId
    ensures TableInv(s1)
  {
    hide DigestOf, CallInv;
    assert forall i | 0 <= i < |s.calls| :: CallOk(s, s.calls[i]) ==> CallOk(s1, s1.calls[i]);
    assert forall id | id in s.traces :: PastOk(s, id) ==> PastOk(s1, id);
  }

  // A change that brings in no MNCC leg leaves a disconnected list without one.
  lemma ActNoMncc(s: State, i: nat, y: Ctx, taken: Option<Handle>)
    requires i < |s.calls| && Evolves(At(s, i), y, taken)
    ensures NoMncc(s.calls) ==> NoMncc(Act(s, i, y).calls)
  {
    hide DigestOf;
  }

  lemma FromMscKeeps(s: State, callref: nat, msg: MnccMsg)
    requires Inv(s) && Allowed(s, FromMsc(callref, msg))
    ensures Inv(OnFromMsc(s, callref, msg))
  {
    hide DigestOf, CallInv, TableInv, OnMncc, FreshHandle;
    assert forall h :: h !in MentionsOf([TxSignal(RejReq, callref)]);
    NoteKeeps(s, [TxSignal(RejReq, callref)]);
    var i := FindRef(s.calls, callref);
    if i < |s.calls| {
      var sl := RefSlot(s.calls[i], callref);
      if !((msg.RtpCreate? || msg.RtpConnect?) && s.calls[i].Get(sl).m.base.inRelease) {
        ListedKeeps(s, i);
        MnccMsgKeeps(At(s, i), sl, msg, s.conn == Ready);
        ActKeeps(s, i, OnMncc(At(s, i), sl, msg, s.conn == Ready), TakenBy(msg));
      }
    }
  }

  lemma ListedKeeps(s: State, i: nat)
    requires TableInv(s) && i < |s.calls|
    ensures CallInv(At(s, i)) && !s.calls[i].Gone() && 0 < s.calls[i].id <= s.lastId && s.calls[i].id in s.traces
  {
    hide DigestOf, CallInv;
    assert CallOk(s, s.calls[i]);
  }

  lemma TableParts(s: State)
    requires TableInv(s)
    ensures DistinctIds(s.calls) && DistinctRefs(s.calls) && forall k | 0 <= k < |s.calls| :: CallInv(At(s, k))
  {
    hide DigestOf, CallInv;
    forall k | 0 <= k < |s.calls| ensures CallInv(At(s, k)) { ListedKeeps(s, k); }
  }

  lemma TimeoutEventKeeps(s: State, id: nat)
    requires Inv(s)
    ensures Inv(OnTimer(s, id))
  {
    hide DigestOf, CallInv, TableInv, OnTimeout;
    var i := FindId(s.calls, id);
    if i < |s.calls| && s.calls[i].HasMncc() {
      var sl := MnccSlot(s.calls[i]);
      ListedKeeps(s, i);
      TimeoutKeeps(At(s, i), sl, s.conn == Ready);
      ActKeeps(s, i, OnTimeout(At(s, i), sl, s.conn == Ready), None);
    }
  }

  lemma FromPbxKeeps(s: State, handle: Handle, ev: SipEvent)
    requires Inv(s) && Allowed(s, FromPbx(handle, ev))
    ensures Inv(OnFromPbx(s, handle, ev))
  {
    hide DigestOf, CallInv, TableInv, OnSip;
    var i := FindHandle(s.calls, handle);
    var sl := HandleSlot(s.calls[i], handle);
    ListedKeeps(s, i);
    SipEventKeeps(At(s, i), sl, ev, s.conn == Ready);
    var y := OnSip(At(s, i), sl, ev, s.conn == Ready);
    ActKeeps(s, i, y, None);
    ActNoMncc(s, i, y, None);
  }

  lemma SetupIndKeeps(s: State, setup: Setup)
    requires Inv(s) && Allowed(s, SetupInd(setup))
    ensures Inv(OnSetupInd(s, setup))
  {
    hide DigestOf, CallInv, TableInv, NewMnccCall;
    assert forall h :: h !in MentionsOf([TxSignal(RejReq, setup.callref)]);
    NoteKeeps(s, [TxSignal(RejReq, setup.callref)]);
    NewMnccCallOk(s.lastId + 1, setup.callref, setup.sdp);
    AddKeeps(s, NewMnccCall(s.lastId + 1, setup.callref, setup.sdp));
  }

  // Routing a call just added is adding the routed call.
  lemma AddThenRoute(s: State, y: Ctx, z: Ctx)
    requires !y.call.Gone() && !z.call.Gone() && z.call.id == y.call.id
    ensures Act(Add(s, y), 0, z) == Add(s, z)
  {
    assert Add(s, z).traces == Act(Add(s, y), 0, z).traces;
  }

  lemma IncomingKeeps(s: State, offer: Offer, writeOk: bool)
    requires Inv(s) && Allowed(s, Incoming(offer, writeOk))
    ensures Inv(OnIncoming(s, offer, writeOk))
  {
    hide DigestOf, CallInv, TableInv, NewSipCall, Sweep, RouteToMncc, SipRelease, Screened, Pick, FreshHandle;
    if !Screened(offer.payload) {
      RefusalKeeps(s, offer.handle);
    } else {
      var accepted := offer.usersKnown && offer.gcrUsable;
      var y := NewSipCall(s.lastId + 1, offer.handle, offer.payload, accepted);
      assert offer.handle != NULL_HANDLE by { FreshIsSet(s, offer.handle); }
      NewSipCallOk(s.lastId + 1, offer.handle, offer.payload, accepted);
      AddKeeps(s, y);
      if !y.call.Gone() && accepted {
        RoutingKeeps(s, y, writeOk);
      }
    }
  }

  lemma FreshIsSet(s: State, h: Handle)
    requires FreshHandle(s, h)
    ensures h != NULL_HANDLE
  {
  }

  lemma RefusalKeeps(s: State, h: Handle)
    requires Inv(s) && FreshHandle(s, h)
    ensures Inv(Note(s, [TxReject(h, 406, None), Destroy(h)]))
  {
    hide DigestOf, CallInv, TableInv;
    NoteKeeps(s, [TxReject(h, 406, None), Destroy(h)]);
  }

  lemma RoutingKeeps(s: State, y: Ctx, writeOk: bool)
    requires Inv(s) && TableInv(Add(s, y)) && CallInv(y) && Routable(y) && y.call.id == s.lastId + 1
    requires FreshRef(s, s.lastId + 1) && DigestOf(y.log).handle.Some? && FreshHandle(s, DigestOf(y.log).handle.value)
    ensures if s.fdOpen && writeOk then Inv(Act(Add(s, y), 0, RouteToMncc(y)))
            else Inv(Act(CloseConnection(Add(s, y)), 0, SipRelease(y, Initial)))
  {
    hide DigestOf, CallInv, TableInv, RouteToMncc, SipRelease, Sweep;
    if s.fdOpen && writeOk {
      RouteToMnccKeeps(y);
      AddThenRoute(s, y, RouteToMncc(y));
      AddKeeps(s, RouteToMncc(y));
    } else {
      RefusedRouteKeeps(s, y);
    }
  }

  lemma RefusedRouteKeeps(s: State, y: Ctx)
    requires Inv(s) && TableInv(Add(s, y)) && CallInv(y) && Routable(y) && y.call.id == s.lastId + 1
    ensures Inv(Act(CloseConnection(Add(s, y)), 0, SipRelease(y, Initial)))
  {
    hide DigestOf, CallInv, TableInv, SipRelease, Sweep;
    var s1 := Add(s, y);
    CloseKeeps(s1);
    var s2 := CloseConnection(s1);
    TableParts(s1);
    assert At(s2, 0) == y by { CloseSparesHead(s1, y); }
    UnroutableIsGone(y);
    ActKeeps(s2, 0, SipRelease(y, Initial), None);
    ActNoMncc(s2, 0, SipRelease(y, Initial), None);
  }

  // Closing the connection skips the call being routed: it has no MNCC leg yet.
  lemma CloseSparesHead(s: State, y: Ctx)
    requires DistinctIds(s.calls) && |s.calls| > 0 && At(s, 0) == y && !y.call.HasMncc() && !y.call.Gone()
    ensures |CloseConnection(s).calls| > 0 && At(CloseConnection(s), 0) == y
  {
    hide DigestOf, Sweep, OnDisconnect;
    if s.fdOpen {
      var s1 := s.(conn := Disconnected, fdOpen := false, reconnect := true);
      ListedLands(s1, 0);
      SweepReaches(s1, 0, 0);
    }
  }

  lemma StepKeeps(s: State, e: Event)
    requires Inv(s) && Allowed(s, e)
    ensures Inv(Step(s, e))
  {
    hide DigestOf, CallInv, TableInv, FreshHandle, OnFromMsc, OnFromPbx, OnTimer, OnIncoming, OnSetupInd,
      CloseConnection;
    match e
    case Reconnect(connected) => SameTable(s, OnReconnect(s, connected));
    case Hello(version) =>
      CloseKeeps(s);
      SameTable(s, s.(conn := Ready));
    case BadData => CloseKeeps(s);
    case SetupInd(setup) => SetupIndKeeps(s, setup);
    case FromMsc(callref, msg) => FromMscKeeps(s, callref, msg);
    case Timeout(id) => TimeoutEventKeeps(s, id);
    case FromPbx(handle, ev) => FromPbxKeeps(s, handle, ev);
    case Incoming(offer, writeOk) => IncomingKeeps(s, offer, writeOk);
  }

  // ---------------------------------------------------------------- runs

  // A run: the states it passes through from the start, and the events in between, each of which
  // the environment may deliver in the state it meets.
  ghost predicate IsRun(ss: seq<State>, es: seq<Event>) {
    && |ss| == |es| + 1 && ss[0] == INIT
    && forall k {:trigger es[k]} | 0 <= k < |es| :: Allowed(ss[k], es[k]) && ss[k + 1] == Step(ss[k], es[k])
  }

  // A state some run leads to.
  ghost predicate Reachable(s: State) {
    exists ss, es :: IsRun(ss, es) && ss[|es|] == s
  }

  lemma EmptyRun()
    ensures IsRun([INIT], [])
  {
  }

  lemma RunGrows(ss: seq<State>, es: seq<Event>, e: Event)
    requires IsRun(ss, es) && Allowed(ss[|es|], e)
    ensures IsRun(ss + [Step(ss[|es|], e)], es + [e])
  {
    hide Allowed, Step;
    var ss', es' := ss + [Step(ss[|es|], e)], es + [e];
    forall k | 0 <= k < |es'| ensures Allowed(ss'[k], es'[k]) && ss'[k + 1] == Step(ss'[k], es'[k]) {
      assert k < |es| ==> es'[k] == es[k];
    }
  }

  lemma EndIsReachable(ss: seq<State>, es: seq<Event>)
    requires IsRun(ss, es)
    ensures Reachable(ss[|es|])
  {
    hide Allowed, Step;
  }

  lemma StepIsReachable(s: State, e: Event)
    requires Reachable(s) && Allowed(s, e)
    ensures Reachable(Step(s, e))
  {
    hide Allowed, Step;
    var ss, es :| IsRun(ss, es) && ss[|es|] == s;
    RunGrows(ss, es, e);
    assert (ss + [Step(s, e)])[|es + [e]|] == Step(s, e);
  }

  // One step of a run.
  lemma RunStep(ss: seq<State>, es: seq<Event>, k: nat)
    requires IsRun(ss, es) && k < |es|
    ensures Allowed(ss[k], es[k]) && ss[k + 1] == Step(ss[k], es[k])
  {
    hide Allowed, Step;
  }

  lemma {:induction false} RunsKeepInvariant(ss: seq<State>, es: seq<Event>, k: nat)
    requires IsRun(ss, es) && k <= |es|
    ensures Inv(ss[k])
  {
    hide Allowed, Step, DigestOf, CallInv;
    if k > 0 {
      RunsKeepInvariant(ss, es, k - 1);
      RunStep(ss, es, k - 1);
      StepKeeps(ss[k - 1], es[k - 1]);
    }
  }

  lemma ReachableInv(s: State)
    requires Reachable(s)
    ensures Inv(s)
  {
    hide Inv, Allowed, Step;
    var ss, es :| IsRun(ss, es) && ss[|es|] == s;
    RunsKeepInvariant(ss, es, |es|);
  }
}
