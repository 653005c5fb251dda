/** The whole process as a state machine: the call list, the MNCC connection and the traces
    of all calls, driven by MNCC messages, SIP events, timers and connection loss. */
module Bridge {
  import opened Domain
  import opened Sdp
  import opened CallMachine

  // Messages sent on behalf of no call are kept under this id.
  const NO_CALL: nat := 0
  const SOCKET_VERSION := 8

  datatype State = State(
    calls: seq<CallV>,             // newest first
    traces: map<nat, seq<Entry>>,  // by call id, of live and past calls
    lastId: nat,
    conn: ConnState,
    fdOpen: bool,
    reconnect: bool)               // the reconnect timer is armed

  // Right after mncc_connection_start.
  const INIT := State([], map[], FIRST_ID, Disconnected, false, true)

  datatype Setup = Setup(callref: nat, hasCalled: bool, emergency: bool, hasCalling: bool, plan: int,
                         gcrPresent: bool, gcrValid: bool, sdp: string)

  datatype Offer = Offer(handle: Handle, payload: Payload, usersKnown: bool, gcrUsable: bool)

  datatype Event =
    | Reconnect(connected: bool)                       // mncc_reconnect
    | Hello(version: int)
    | BadData                                          // short, oversized or failed read
    | SetupInd(setup: Setup)
    | FromMsc(callref: nat, msg: MnccMsg)
    | Timeout(id: nat)                                 // the command timer of the call's MNCC leg
    | FromPbx(handle: Handle, ev: SipEvent)
    | Incoming(offer: Offer, writeOk: bool)            // nua_i_invite on an unknown handle

  // ---------------------------------------------------------------- looking up calls

  function TraceOf(s: State, id: nat): seq<Entry> {
    if id in s.traces then s.traces[id] else []
  }

  function At(s: State, i: nat): Ctx
    requires i < |s.calls|
  {
    Ctx(s.calls[i], TraceOf(s, s.calls[i].id))
  }

  predicate HasRef(leg: Leg, callref: nat) {
    leg.Mncc? && leg.m.callref == callref
  }

  predicate HasHandle(leg: Leg, handle: Handle) {
    leg.Sip? && leg.s.handle == handle
  }

  predicate CallHasRef(c: CallV, callref: nat) {
    HasRef(c.initial, callref) || HasRef(c.remote, callref)
  }

  predicate CallHasHandle(c: CallV, handle: Handle) {
    HasHandle(c.initial, handle) || HasHandle(c.remote, handle)
  }

  // mncc_find_leg and sip_find_leg scan the list from its head, initial legs first; the
  // length of the list stands for not found.
  function FindRef(calls: seq<CallV>, callref: nat): (i: nat)
    ensures i <= |calls|
    ensures i < |calls| ==> CallHasRef(calls[i], callref)
    ensures forall j | 0 <= j < i :: !CallHasRef(calls[j], callref)
  {
    if calls == [] || CallHasRef(calls[0], callref) then 0 else 1 + FindRef(calls[1..], callref)
  }

  function FindHandle(calls: seq<CallV>, handle: Handle): (i: nat)
    ensures i <= |calls|
    ensures i < |calls| ==> CallHasHandle(calls[i], handle)
    ensures forall j | 0 <= j < i :: !CallHasHandle(calls[j], handle)
  {
    if calls == [] || CallHasHandle(calls[0], handle) then 0 else 1 + FindHandle(calls[1..], handle)
  }

  function FindId(calls: seq<CallV>, id: nat): (i: nat)
    ensures i <= |calls|
    ensures i < |calls| ==> calls[i].id == id
    ensures forall j | 0 <= j < i :: calls[j].id != id
  {
    if calls == [] || calls[0].id == id then 0 else 1 + FindId(calls[1..], id)
  }

  function RefSlot(c: CallV, callref: nat): (sl: Slot)
    requires CallHasRef(c, callref)
    ensures HasRef(c.Get(sl), callref)
  {
    if HasRef(c.initial, callref) then Initial else Remote
  }

  function HandleSlot(c: CallV, handle: Handle): (sl: Slot)
    requires CallHasHandle(c, handle)
    ensures HasHandle(c.Get(sl), handle)
  {
    if HasHandle(c.initial, handle) then Initial else Remote
  }

  function MnccSlot(c: CallV): (sl: Slot)
    requires c.HasMncc()
    ensures c.Get(sl).Mncc?
  {
    if c.initial.Mncc? then Initial else Remote
  }

  // ---------------------------------------------------------------- changing the list

  // A call without legs leaves the list.
  function Relist(calls: seq<CallV>, i: nat, c: CallV): seq<CallV>
    requires i < |calls|
  {
    if c.Gone() then calls[..i] + calls[i + 1..] else calls[i := c]
  }

  function Act(s: State, i: nat, y: Ctx): (r: State)
    requires i < |s.calls|
    ensures |r.calls| == |s.calls| - (if y.call.Gone() then 1 else 0) && r.calls[..i] == s.calls[..i]
    ensures !y.call.Gone() ==> r.calls[i] == y.call
  {
    s.(calls := Relist(s.calls, i, y.call), traces := s.traces[y.call.id := y.log])
  }

  function Note(s: State, entries: seq<Entry>): State {
    s.(traces := s.traces[NO_CALL := TraceOf(s, NO_CALL) + entries])
  }

  // llist_add: a new call goes to the head of the list.
  function Add(s: State, y: Ctx): State {
    s.(calls := if y.call.Gone() then s.calls else [y.call] + s.calls,
       traces := s.traces[y.call.id := y.log],
       lastId := s.lastId + 1)
  }

  // app_mncc_disconnected from position i of the list on: release both legs of every call
  // that has an MNCC leg. A call that leaves the list makes room for the next one.
  function Sweep(s: State, i: nat): (r: State)
    requires i <= |s.calls|
    ensures i <= |r.calls| && r.calls[..i] == s.calls[..i]
    decreases |s.calls| - i
  {
    hide OnDisconnect, Act;
    if i == |s.calls| then s
    else if !s.calls[i].HasMncc() then Sweep(s, i + 1)
    else
      var y := OnDisconnect(At(s, i));
      var s1 := Act(s, i, y);
      if y.call.Gone() then Sweep(s1, i) else assert s1.calls[..i + 1][..i] == s1.calls[..i]; Sweep(s1, i + 1)
  }

  function CloseConnection(s: State): (r: State)
    ensures s.calls != [] && !s.calls[0].HasMncc() ==> r.calls != [] && r.calls[0] == s.calls[0]
  {
    hide OnDisconnect, Act;
    if !s.fdOpen then s
    else Sweep(s.(conn := Disconnected, fdOpen := false, reconnect := true), 0)
  }

  // ---------------------------------------------------------------- events

  function OnReconnect(s: State, connected: bool): State {
    if connected then s.(conn := WaitVersion, fdOpen := true, reconnect := false)
    else s.(conn := Disconnected, fdOpen := false, reconnect := true)
  }

  function OnHello(s: State, version: int): State {
    if version != SOCKET_VERSION then CloseConnection(s) else s.(conn := Ready)
  }

  // The called number may be missing only from an emergency call; the numbering plan must
  // be unknown or ISDN.
  predicate SetupScreened(setup: Setup) {
    && (setup.hasCalled || setup.emergency) && setup.hasCalling
    && (setup.plan == 0 || setup.plan == 1)
    && (setup.gcrPresent ==> setup.gcrValid)
  }

  function OnSetupInd(s: State, setup: Setup): State {
    if !SetupScreened(setup) then Note(s, [TxSignal(RejReq, setup.callref)])
    else Add(s, NewMnccCall(s.lastId + 1, setup.callref, setup.sdp))
  }

  function OnFromMsc(s: State, callref: nat, msg: MnccMsg): State {
    var i := FindRef(s.calls, callref);
    var needsLive := msg.RtpCreate? || msg.RtpConnect?;
    if i == |s.calls| then
      if needsLive then Note(s, [TxSignal(RejReq, callref)]) else s
    else
      var sl := RefSlot(s.calls[i], callref);
      if needsLive && s.calls[i].Get(sl).m.base.inRelease then Note(s, [TxSignal(RejReq, callref)])
      else Act(s, i, OnMncc(At(s, i), sl, msg, s.conn == Ready))
  }

  function OnTimer(s: State, id: nat): State {
    var i := FindId(s.calls, id);
    if i == |s.calls| || !s.calls[i].HasMncc() then s
    else Act(s, i, OnTimeout(At(s, i), MnccSlot(s.calls[i]), s.conn == Ready))
  }

  function OnFromPbx(s: State, handle: Handle, ev: SipEvent): State {
    var i := FindHandle(s.calls, handle);
    if i == |s.calls| then s
    else Act(s, i, OnSip(At(s, i), HandleSlot(s.calls[i], handle), ev, s.conn == Ready))
  }

  // new_call. The write of SETUP_REQ is the one that may fail inside a handler; the
  // failure first closes an open connection, which sweeps the other calls.
  function OnIncoming(s: State, offer: Offer, writeOk: bool): State {
    if !Screened(offer.payload) then Note(s, [TxReject(offer.handle, 406, None), Destroy(offer.handle)])
    else if offer.usersKnown && offer.gcrUsable then OnAdmitted(s, offer, writeOk)
    else Add(s, NewSipCall(s.lastId + 1, offer.handle, offer.payload, false))
  }

  function OnAdmitted(s: State, offer: Offer, writeOk: bool): State {
    hide NewSipCall, CloseConnection, RouteToMncc, ReleaseLeg;
    var y := NewSipCall(s.lastId + 1, offer.handle, offer.payload, true);
    var s1 := Add(s, y);
    if y.call.Gone() then s1
    else if s.fdOpen && writeOk then Act(s1, 0, RouteToMncc(y))
    else Act(CloseConnection(s1), 0, ReleaseLeg(y, Initial, false))
  }

  function Step(s: State, e: Event): State {
    match e
    case Reconnect(connected) => OnReconnect(s, connected)
    case Hello(version) => OnHello(s, version)
    case BadData => CloseConnection(s)
    case SetupInd(setup) => OnSetupInd(s, setup)
    case FromMsc(callref, msg) => OnFromMsc(s, callref, msg)
    case Timeout(id) => OnTimer(s, id)
    case FromPbx(handle, ev) => OnFromPbx(s, handle, ev)
    case Incoming(offer, writeOk) => OnIncoming(s, offer, writeOk)
  }
}
