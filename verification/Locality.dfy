/** An event acts on each call by itself: what becomes of a listed call and of its trace is a
    function of that call, its trace and the event, whatever other calls there are. */
module Locality {
  import opened Domain
  import opened Sdp
  import opened Trace
  import opened CallMachine
  import opened CallInvariant
  import opened Bridge
  import opened CallList
  import opened Lifecycle
  import opened Guarantees

  // ---------------------------------------------------------------- what an event does to one call

  // RTP_CREATE and RTP_CONNECT are refused on a leg in release.
  predicate Refuses(m: MLeg, msg: MnccMsg) {
    (msg.RtpCreate? || msg.RtpConnect?) && m.base.inRelease
  }

  function Lost(s: State, x: Ctx): Ctx {
    if s.fdOpen && x.call.HasMncc() then OnDisconnect(x) else x
  }

  // An INVITE that was admitted but cannot be written to the MSC closes the connection.
  predicate Breaks(offer: Offer, writeOk: bool) {
    && Screened(offer.payload) && offer.usersKnown && offer.gcrUsable && Pick(offer.payload, NO_ADDR, 0, None).ok
    && !writeOk
  }

  // The event closes the connection.
  predicate Closes(e: Event) {
    match e
    case Hello(version) => version != SOCKET_VERSION
    case BadData => true
    case Incoming(offer, writeOk) => Breaks(offer, writeOk)
    case _ => false
  }

  // The i-th listed call and its trace after the event.
  function Next(s: State, e: Event, i: nat): Ctx
    requires i < |s.calls|
  {
    var x, ready := At(s, i), s.conn == Ready;
    match e
    case Hello(version) => if version == SOCKET_VERSION then x else Lost(s, x)
    case BadData => Lost(s, x)
    case FromMsc(callref, msg) =>
      if CallHasRef(x.call, callref) && !Refuses(x.Get(RefSlot(x.call, callref)).m, msg)
      then OnMncc(x, RefSlot(x.call, callref), msg, ready) else x
    case Timeout(id) => if x.call.id == id && x.call.HasMncc() then OnTimeout(x, MnccSlot(x.call), ready) else x
    case FromPbx(handle, ev) =>
      if CallHasHandle(x.call, handle) then OnSip(x, HandleSlot(x.call, handle), ev, ready) else x
    case Incoming(offer, writeOk) => if Breaks(offer, writeOk) then Lost(s, x) else x
    case _ => x
  }

  // ---------------------------------------------------------------- connection loss

  lemma TableLands(s: State, i: nat)
    requires TableInv(s) && i < |s.calls|
    ensures Lands(s, s.calls[i].id, At(s, i)) && s.calls[i].id != NO_CALL && s.calls[i].id <= s.lastId
  {
    hide DigestOf, CallInv;
    ListedKeeps(s, i);
    ListedLands(s, i);
  }

  lemma CloseLands(s: State, i: nat)
    requires TableInv(s) && i < |s.calls|
    ensures Lands(CloseConnection(s), s.calls[i].id, Lost(s, At(s, i)))
  {
    hide DigestOf, CallInv, OnDisconnect, Sweep, Lands;
    TableLands(s, i);
    if s.fdOpen {
      var s1 := s.(conn := Disconnected, fdOpen := false, reconnect := true);
      SameTable(s, s1);
      TableLands(s1, i);
      SweepReaches(s1, 0, i);
    }
  }

  // ---------------------------------------------------------------- events

  lemma NoteLands(s: State, entries: seq<Entry>, i: nat)
    requires TableInv(s) && i < |s.calls|
    ensures Lands(Note(s, entries), s.calls[i].id, At(s, i))
  {
    hide DigestOf, CallInv;
    TableLands(s, i);
  }

  lemma ActOn(s: State, j: nat, y: Ctx, i: nat)
    requires TableInv(s) && j < |s.calls| && i < |s.calls| && y.call.id == s.calls[j].id
    ensures Lands(Act(s, j, y), s.calls[i].id, if i == j then y else At(s, i))
  {
    hide DigestOf, CallInv, Lands, Act;
    if i == j {
      ActLands(s, j, y);
    } else {
      TableLands(s, i);
      ActSpares(s, j, y, s.calls[i].id, At(s, i));
    }
  }

  // The scan for a callref finds the leg that has it.
  lemma MessageFindsLeg(s: State, callref: nat, i: nat, sl: Slot)
    requires Inv(s) && i < |s.calls| && HasRef(s.calls[i].Get(sl), callref)
    ensures FindRef(s.calls, callref) == i && RefSlot(s.calls[i], callref) == sl
  {
    hide DigestOf;
    assert CallHasRef(s.calls[i], callref);
    ListedKeeps(s, i);
  }

  lemma MscIsLocal(s: State, callref: nat, msg: MnccMsg, i: nat)
    requires Inv(s) && Allowed(s, FromMsc(callref, msg)) && i < |s.calls|
    ensures Lands(OnFromMsc(s, callref, msg), s.calls[i].id, Next(s, FromMsc(callref, msg), i))
  {
    hide DigestOf, CallInv, OnMncc, Lands, Act, Note, FreshHandle;
    NoteLands(s, [TxSignal(RejReq, callref)], i);
    TableLands(s, i);
    var j := FindRef(s.calls, callref);
    if j < |s.calls| {
      var sl := RefSlot(s.calls[j], callref);
      if !Refuses(s.calls[j].Get(sl).m, msg) {
        ListedKeeps(s, j);
        MnccMsgKeeps(At(s, j), sl, msg, s.conn == Ready);
        ActOn(s, j, OnMncc(At(s, j), sl, msg, s.conn == Ready), i);
      }
    }
  }

  lemma PbxIsLocal(s: State, handle: Handle, ev: SipEvent, i: nat)
    requires Inv(s) && Allowed(s, FromPbx(handle, ev)) && i < |s.calls|
    ensures Lands(OnFromPbx(s, handle, ev), s.calls[i].id, Next(s, FromPbx(handle, ev), i))
  {
    hide DigestOf, CallInv, TableInv, OnSip, Lands, Act;
    var j := FindHandle(s.calls, handle);
    var sl := HandleSlot(s.calls[j], handle);
    ListedKeeps(s, j);
    SipEventKeeps(At(s, j), sl, ev, s.conn == Ready);
    ActOn(s, j, OnSip(At(s, j), sl, ev, s.conn == Ready), i);
    if CallHasHandle(s.calls[i], handle) {
      SameHandleSameCall(s, i, j, handle);
    }
  }

  lemma TimerIsLocal(s: State, id: nat, i: nat)
    requires Inv(s) && i < |s.calls|
    ensures Lands(OnTimer(s, id), s.calls[i].id, Next(s, Timeout(id), i))
  {
    hide DigestOf, CallInv, TableInv, OnTimeout, Lands, Act;
    TableLands(s, i);
    var j := FindId(s.calls, id);
    if j < |s.calls| && s.calls[j].id == s.calls[i].id {
      IdsAreDistinct(s, i, j);
    }
    if j < |s.calls| && s.calls[j].HasMncc() {
      var sl := MnccSlot(s.calls[j]);
      ListedKeeps(s, j);
      TimeoutKeeps(At(s, j), sl, s.conn == Ready);
      ActOn(s, j, OnTimeout(At(s, j), sl, s.conn == Ready), i);
    }
  }

  lemma IncomingIsLocal(s: State, offer: Offer, writeOk: bool, i: nat)
    requires Inv(s) && Allowed(s, Incoming(offer, writeOk)) && i < |s.calls|
    ensures Lands(OnIncoming(s, offer, writeOk), s.calls[i].id, Next(s, Incoming(offer, writeOk), i))
  {
    hide DigestOf, CallInv, TableInv, NewSipCall, Screened, Pick, RouteToMncc, ReleaseLeg, OnDisconnect, Lands, Act,
      Add, Note, CloseConnection, FreshHandle, FreshRef;
    var accepted := offer.usersKnown && offer.gcrUsable;
    NoteLands(s, [TxReject(offer.handle, 406, None), Destroy(offer.handle)], i);
    FreshIsSet(s, offer.handle);
    var y := NewSipCall(s.lastId + 1, offer.handle, offer.payload, accepted);
    NewSipCallOk(s.lastId + 1, offer.handle, offer.payload, accepted);
    TableLands(s, i);
    AddSpares(s, y, s.calls[i].id, At(s, i));
    if Screened(offer.payload) && accepted && !y.call.Gone() {
      AddKeeps(s, y);
      RoutingIsLocal(s, y, i, writeOk);
    }
  }

  // The call just added and its routing, or the failure to route it, do not concern the others
  // beyond the sweep.
  lemma RoutingIsLocal(s: State, y: Ctx, i: nat, writeOk: bool)
    requires TableInv(s) && i < |s.calls| && TableInv(Add(s, y)) && y.call.id == s.lastId + 1 && Routable(y)
    ensures Lands(Act(Add(s, y), 0, RouteToMncc(y)), s.calls[i].id, At(s, i))
    ensures var s1 := CloseConnection(Add(s, y));
            s1.calls != [] && Lands(Act(s1, 0, ReleaseLeg(y, Initial, false)), s.calls[i].id, Lost(s, At(s, i)))
  {
    hide DigestOf, CallInv, TableInv, RouteToMncc, ReleaseLeg, OnDisconnect, Lands, Act, CloseConnection;
    TableLands(s, i);
    AddSpares(s, y, s.calls[i].id, At(s, i));
    var s1, id := Add(s, y), s.calls[i].id;
    assert s1.calls[i + 1] == s.calls[i];
    RoutedId(y);
    ActSpares(s1, 0, RouteToMncc(y), id, At(s, i));
    CloseLands(s1, i + 1);
    ReleasedId(y);
    ActSpares(CloseConnection(s1), 0, ReleaseLeg(y, Initial, false), id, Lost(s, At(s, i)));
  }

  lemma RoutedId(y: Ctx)
    requires y.call.initial.Sip?
    ensures RouteToMncc(y).call.id == y.call.id
  {
    hide DigestOf;
  }

  lemma ReleasedId(y: Ctx)
    requires y.call.initial.Sip?
    ensures ReleaseLeg(y, Initial, false).call.id == y.call.id
  {
    hide ReleaseLeg;
    ReleaseKeepsId(y, Initial);
  }

  // Every event the environment may deliver: each call comes out as the event's effect on it alone.
  lemma StepIsLocal(s: State, e: Event, i: nat)
    requires Inv(s) && Allowed(s, e) && i < |s.calls|
    ensures Lands(Step(s, e), s.calls[i].id, Next(s, e, i))
  {
    hide DigestOf, CallInv, TableInv, OnFromMsc, OnFromPbx, OnTimer, OnIncoming, CloseConnection, NewMnccCall,
      OnMncc, OnSip, OnTimeout, OnDisconnect, FreshHandle, Breaks, Add, Note;
    TableLands(s, i);
    match e
    case Reconnect(_) =>
    case Hello(_) => CloseLands(s, i);
    case BadData => CloseLands(s, i);
    case SetupInd(setup) =>
      NoteLands(s, [TxSignal(RejReq, setup.callref)], i);
      NewMnccCallOk(s.lastId + 1, setup.callref, setup.sdp);
      AddSpares(s, NewMnccCall(s.lastId + 1, setup.callref, setup.sdp), s.calls[i].id, At(s, i));
    case FromMsc(callref, msg) => MscIsLocal(s, callref, msg, i);
    case Timeout(id) => TimerIsLocal(s, id, i);
    case FromPbx(handle, ev) => PbxIsLocal(s, handle, ev, i);
    case Incoming(offer, writeOk) => IncomingIsLocal(s, offer, writeOk, i);
  }
}
