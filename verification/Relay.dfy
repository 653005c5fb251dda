/** What crosses the bridge: the MSC is told where and what the PBX's media is and the PBX is told
    the MSC's, by every message that says so, in every run. */
module Relay {
  import opened Domain
  import opened Sdp
  import opened Trace
  import opened CallMachine
  import opened CallInvariant
  import opened Bridge
  import opened CallList
  import opened Lifecycle
  import opened Guarantees
  import opened Locality
  import opened Hearing
  import opened Protocol
  import CauseMap

  // ---------------------------------------------------------------- media towards the MSC

  // Every RTP_CONNECT of a turn tells of the SIP leg that the turn leaves.
  predicate ConnectsTell(t: Turn) {
    forall a | a in t.said && a.TxRtpConnect? ::
      && t.mncc.Some? && t.sip.Some?
      && var b := t.sip.value.base;
         a == TxRtpConnect(t.mncc.value.callref, b.addr, b.payloadType, b.rxSdp)
  }

  lemma MessageConnects(m: MLeg, p: Option<SLeg>, msg: MnccMsg, ready: bool)
    ensures ConnectsTell(TurnOfMessage(m, p, msg, ready))
  {
    hide BodyFor, MediaName, NewSdp, Farewell, Parted, Clear, Remains, Store;
  }

  lemma EventConnects(m: Option<MLeg>, p: SLeg, ev: SipEvent, ready: bool)
    ensures ConnectsTell(TurnOfEvent(m, p, ev, ready))
  {
    hide Pick, BodyFor, MediaName, Farewell, Parted, Clear, Remains, Store, CauseMap.StatusToCause;
  }

  // ---------------------------------------------------------------- SDP towards the PBX

  function BodyOf(a: Entry): Option<Body> {
    match a
    case TxInvite(_, body) => Some(body)
    case TxReinvite(_, body) => Some(body)
    case TxAnswer(_, body) => Some(body)
    case _ => None
  }

  // What the PBX is told of the MSC's SDP and media: the SDP, or if there is none, the media.
  function Told(text: string, addr: Addr, payloadType: nat, msgType: int, mode: Mode): Body {
    if text != "" then Forward(text, mode) else Compose(addr, payloadType, MediaName(msgType), mode)
  }

  // The payload message types of the MSC and the codecs they stand for: just those that an offer is
  // screened for.
  lemma CodecsAreNamed(msgType: int)
    ensures MediaName(0x300) == "GSM" && MediaName(0x301) == "GSM-EFR"
    ensures MediaName(0x302) == "GSM-HR-08" && MediaName(0x303) == "AMR"
    ensures KnownCodec(MediaName(msgType)) <==> msgType in {0x300, 0x301, 0x302, 0x303}
  {
    if msgType !in {0x300, 0x301, 0x302, 0x303} {
      assert Lower(MediaName(msgType))[0] == 'u';
    } else {
      assert SameCodec(MediaName(msgType), MediaName(msgType));
    }
  }

  // A hold asks the PBX to receive only; an offer of the PBX to send only is answered likewise, and
  // everything else is both ways.
  function ModeOf(e: Event): Mode {
    match e
    case FromMsc(_, HoldInd(_)) => SendOnly
    case FromPbx(_, GotReinvite(payload)) => if MediaMode(payload) == Some(SendOnly) then RecvOnly else SendRecv
    case FromPbx(_, GotAck(payload)) => if MediaMode(payload) == Some(SendOnly) then RecvOnly else SendRecv
    case _ => SendRecv
  }

  predicate BodiesTell(t: Turn, mode: Mode) {
    forall a | a in t.said && BodyOf(a).Some? ::
      && t.mncc.Some? && t.sip.Some? && Mention(a) == Some(t.sip.value.handle)
      && var b := t.mncc.value.base;
         && BodyOf(a).value == Told(b.rxSdp, b.addr, b.payloadType, b.payloadMsgType, mode)
         && (BodyOf(a).value.Compose? ==> t.sip.value.codec == Some(BodyOf(a).value.codec))
  }

  lemma MessageTells(callref: nat, m: MLeg, p: Option<SLeg>, msg: MnccMsg, ready: bool)
    ensures BodiesTell(TurnOfMessage(m, p, msg, ready), ModeOf(FromMsc(callref, msg)))
  {
    hide MediaName, NewSdp, Farewell, Parted, Clear, Remains, Store;
    StoreKeeps(m.base, msg.sdp);
  }

  lemma EventTells(handle: Handle, m: Option<MLeg>, p: SLeg, ev: SipEvent, ready: bool)
    ensures BodiesTell(TurnOfEvent(m, p, ev, ready), ModeOf(FromPbx(handle, ev)))
  {
    hide Pick, MediaName, MediaMode, Farewell, Parted, Clear, Remains, Store, CauseMap.StatusToCause;
  }

  lemma TurnTells(s: State, e: Event, i: nat)
    requires i < |s.calls|
    ensures ConnectsTell(TurnOf(s, e, i)) && BodiesTell(TurnOf(s, e, i), ModeOf(e))
  {
    hide DigestOf, TurnOfMessage, TurnOfEvent, Farewell, Parted, Breaks, Told, ModeOf;
    var c, ready := s.calls[i], s.conn == Ready;
    var m, p := MnccPart(c), SipPart(c);
    match e
    case FromMsc(callref, msg) =>
      if m.Some? {
        MessageConnects(m.value, p, msg, ready);
        MessageTells(callref, m.value, p, msg, ready);
      }
    case FromPbx(handle, ev) =>
      if p.Some? {
        EventConnects(m, p.value, ev, ready);
        EventTells(handle, m, p.value, ev, ready);
      }
    case _ =>
  }

  // ---------------------------------------------------------------- per event

  // Entry k of a call's trace is one that the event added.
  predicate Added(s: State, e: Event, id: nat, k: nat) {
    |TraceOf(s, id)| <= k < |TraceOf(Step(s, e), id)|
  }

  // The call with this id, with both its legs.
  predicate BothLegs(r: State, id: nat, d: CallV) {
    d in r.calls && d.id == id && MnccPart(d).Some? && SipPart(d).Some?
  }

  // The legs that a turn leaves store what the trace then heard last.
  lemma TurnTexts(s: State, e: Event, i: nat)
    requires Reachable(s) && Allowed(s, e) && i < |s.calls|
    ensures var t, r := TurnOf(s, e, i), TraceOf(Step(s, e), s.calls[i].id);
            && (t.mncc.Some? ==> t.mncc.value.base.rxSdp == LastHeard(r, MnccSide))
            && (t.sip.Some? ==> t.sip.value.base.rxSdp == LastHeard(r, SipSide))
  {
    hide Reachable, Allowed, Step, TurnOf, DigestOf, LastHeard;
    StepTakesTurn(s, e, i);
    var d, sl := Taken(At(s, i), TurnOf(s, e, i)).call, MnccPlace(s.calls[i]);
    if !d.Gone() {
      StepIsReachable(s, e);
      var n :| 0 <= n < |Step(s, e).calls| && Step(s, e).calls[n] == d;
      if !d.Get(sl).NoLeg? { StoredSdpIsHeard(Step(s, e), n, sl); }
      if !d.Get(sl.Other()).NoLeg? { StoredSdpIsHeard(Step(s, e), n, sl.Other()); }
    }
  }

  // An added entry is one of the turn's.
  lemma AddedInTurn(s: State, e: Event, i: nat, k: nat) returns (d: CallV)
    requires Reachable(s) && Allowed(s, e) && i < |s.calls| && Added(s, e, s.calls[i].id, k)
    ensures var t := TurnOf(s, e, i);
            && TraceOf(Step(s, e), s.calls[i].id)[k] in t.said
            && (t.mncc.Some? && t.sip.Some? ==>
                  && BothLegs(Step(s, e), s.calls[i].id, d) && MnccPart(d) == t.mncc && SipPart(d) == t.sip)
  {
    hide Reachable, Allowed, Step, TurnOf, DigestOf;
    StepTakesTurn(s, e, i);
    var t := TurnOf(s, e, i);
    d := Taken(At(s, i), t).call;
    assert TraceOf(Step(s, e), s.calls[i].id)[k] == t.said[k - |TraceOf(s, s.calls[i].id)|];
  }

  // Every RTP_CONNECT that an event adds to a trace names the MNCC leg's callref and carries the
  // SIP leg's address and payload type as the event leaves them, and the last SDP heard from the PBX.
  lemma MediaReachesMsc(s: State, e: Event, i: nat, k: nat) returns (d: CallV)
    requires Reachable(s) && Allowed(s, e) && i < |s.calls| && Added(s, e, s.calls[i].id, k)
    requires TraceOf(Step(s, e), s.calls[i].id)[k].TxRtpConnect?
    ensures BothLegs(Step(s, e), s.calls[i].id, d)
    ensures var t, b := TraceOf(Step(s, e), d.id), SipPart(d).value.base;
            t[k] == TxRtpConnect(MnccPart(d).value.callref, b.addr, b.payloadType, LastHeard(t, SipSide))
  {
    hide Reachable, Allowed, Step, TurnOf, DigestOf, LastHeard;
    d := AddedInTurn(s, e, i, k);
    TurnTexts(s, e, i);
    TurnTells(s, e, i);
  }

  // Every INVITE, re-INVITE and 200 with SDP that an event adds is about the SIP leg's handle, and its
  // body is the last SDP heard from the MSC or, if there was none, composed from the MNCC leg's
  // media, whose codec the SIP leg then looks for; its mode is that of the event.
  lemma OfferReachesPbx(s: State, e: Event, i: nat, k: nat) returns (d: CallV)
    requires Reachable(s) && Allowed(s, e) && i < |s.calls| && Added(s, e, s.calls[i].id, k)
    requires BodyOf(TraceOf(Step(s, e), s.calls[i].id)[k]).Some?
    ensures BothLegs(Step(s, e), s.calls[i].id, d)
    ensures var t, b := TraceOf(Step(s, e), d.id), MnccPart(d).value.base;
            && Mention(t[k]) == Some(SipPart(d).value.handle)
            && BodyOf(t[k]).value ==
               Told(LastHeard(t, MnccSide), b.addr, b.payloadType, b.payloadMsgType, ModeOf(e))
            && (BodyOf(t[k]).value.Compose? ==> SipPart(d).value.codec == Some(BodyOf(t[k]).value.codec))
  {
    hide Reachable, Allowed, Step, TurnOf, DigestOf, LastHeard, Told;
    d := AddedInTurn(s, e, i, k);
    TurnTexts(s, e, i);
    TurnTells(s, e, i);
  }

  // ---------------------------------------------------------------- the MSC's media

  // Where the MSC's media is, as RTP_CREATE says.
  datatype Socket = Socket(addr: Addr, payloadType: nat, msgType: int)
  const NO_SOCKET := Socket(NO_ADDR, 0, 0)

  function SocketOf(m: MLeg): Socket {
    Socket(m.base.addr, m.base.payloadType, m.base.payloadMsgType)
  }

  // The event brings RTP_CREATE to the MNCC leg of the call, which is not in release.
  function Creates(s: State, e: Event, id: nat): Option<Socket> {
    if !(e.FromMsc? && e.msg.RtpCreate?) then None
    else
      var i := FindRef(s.calls, e.callref);
      if i < |s.calls| && s.calls[i].id == id && !s.calls[i].Get(RefSlot(s.calls[i], e.callref)).m.base.inRelease
      then Some(Socket(e.msg.addr, e.msg.payloadType, e.msg.payloadMsgType)) else None
  }

  lemma MessageMoves(m: MLeg, p: Option<SLeg>, msg: MnccMsg, ready: bool)
    requires TurnOfMessage(m, p, msg, ready).mncc.Some?
    ensures SocketOf(TurnOfMessage(m, p, msg, ready).mncc.value) ==
            if msg.RtpCreate? then Socket(msg.addr, msg.payloadType, msg.payloadMsgType) else SocketOf(m)
  {
    hide BodyFor, MediaName, NewSdp, Farewell, Parted, Clear, Store;
    StoreKeeps(m.base, msg.sdp);
    if msg.RtpCreate? {
      var base := m.base.(addr := msg.addr, payloadType := msg.payloadType, payloadMsgType := msg.payloadMsgType);
      StoreKeeps(base, msg.sdp);
    }
  }

  lemma EventMovesNothing(m: Option<MLeg>, p: SLeg, ev: SipEvent, ready: bool)
    requires TurnOfEvent(m, p, ev, ready).mncc.Some?
    ensures m.Some? && SocketOf(TurnOfEvent(m, p, ev, ready).mncc.value) == SocketOf(m.value)
  {
    hide Pick, BodyFor, MediaName, Farewell, Parted, Clear, Store, CauseMap.StatusToCause;
  }

  lemma TurnMoves(s: State, e: Event, i: nat)
    requires Inv(s) && Allowed(s, e) && i < |s.calls| && TurnOf(s, e, i).mncc.Some?
    ensures MnccPart(s.calls[i]).Some?
    ensures SocketOf(TurnOf(s, e, i).mncc.value) ==
            match Creates(s, e, s.calls[i].id) case Some(socket) => socket
                                               case None => SocketOf(MnccPart(s.calls[i]).value)
  {
    hide DigestOf, TableInv, TurnOfMessage, TurnOfEvent, Farewell, Parted, Breaks, FreshHandle, FreshRef, MnccAllowed;
    var c, ready := s.calls[i], s.conn == Ready;
    var m, p := MnccPart(c), SipPart(c);
    match e
    case FromMsc(callref, msg) =>
      if m.Some? && m.value.callref == callref {
        MessageFindsLeg(s, callref, i, if c.initial.Mncc? then Initial else Remote);
        if !Refuses(m.value, msg) { MessageMoves(m.value, p, msg, ready); }
      } else {
        var j := FindRef(s.calls, callref);
        if j < |s.calls| && s.calls[j].id == c.id {
          IdsAreDistinct(s, i, j);
          ListedIsShaped(s, i);
        }
      }
    case FromPbx(handle, ev) =>
      if p.Some? && p.value.handle == handle { EventMovesNothing(m, p.value, ev, ready); }
    case _ =>
  }

  lemma ListedIsShaped(s: State, i: nat)
    requires TableInv(s) && i < |s.calls|
    ensures Shape(s.calls[i])
  {
    hide DigestOf;
    ListedKeeps(s, i);
  }

  // ---------------------------------------------------------------- new calls

  // Every call of r was listed in s, or is the one with this new id and has heard no RTP_CREATE.
  predicate OldOrNew(s: State, r: State) {
    forall d | d in r.calls ::
      || Listed(s.calls, d.id)
      || (d.id == s.lastId + 1 && (MnccPart(d).Some? ==> SocketOf(MnccPart(d).value) == NO_SOCKET))
  }

  lemma StaysOld(s: State, r: State)
    requires r.calls == s.calls
    ensures OldOrNew(s, r)
  {
    forall d | d in r.calls ensures Listed(s.calls, d.id) {
      var k :| 0 <= k < |r.calls| && r.calls[k] == d;
      assert s.calls[k].id == d.id;
    }
  }

  lemma ActIsOld(s: State, i: nat, y: Ctx)
    requires i < |s.calls| && y.call.id == s.calls[i].id
    ensures OldOrNew(s, Act(s, i, y))
  {
    forall d | d in Act(s, i, y).calls ensures Listed(s.calls, d.id) {
      assert d in s.calls || d == y.call;
    }
  }

  lemma CloseIsOld(s: State, d: CallV)
    requires d in CloseConnection(s).calls
    ensures Listed(s.calls, d.id)
  {
    hide Sweep;
    var r := CloseConnection(s);
    assert Listed(r.calls, d.id);
    if s.fdOpen && !Listed(s.calls, d.id) {
      SweepAddsNone(s.(conn := Disconnected, fdOpen := false, reconnect := true), 0, d.id);
    }
  }

  lemma AddIsNew(s: State, y: Ctx)
    requires y.call.id == s.lastId + 1 && (MnccPart(y.call).Some? ==> SocketOf(MnccPart(y.call).value) == NO_SOCKET)
    ensures OldOrNew(s, Add(s, y))
  {
    forall d | d in Add(s, y).calls ensures d == y.call || Listed(s.calls, d.id) {
      assert d in s.calls || d == y.call;
    }
  }

  lemma NewMnccIsUnplaced(id: nat, callref: nat, sdp: string)
    ensures var y := NewMnccCall(id, callref, sdp);
            y.call.id == id && y.call.initial.Mncc? && SocketOf(y.call.initial.m) == NO_SOCKET
  {
    hide DigestOf, Advance;
  }

  lemma RouteIsUnplaced(y: Ctx)
    requires y.call.initial.Sip?
    ensures var z := RouteToMncc(y);
            && z.call.id == y.call.id && z.call.initial.Sip?
            && z.call.remote.Mncc? && SocketOf(z.call.remote.m) == NO_SOCKET
  {
    hide DigestOf, Advance;
  }

  lemma IncomingIsNew(s: State, offer: Offer, writeOk: bool)
    requires Inv(s) && Allowed(s, Incoming(offer, writeOk))
    ensures OldOrNew(s, OnIncoming(s, offer, writeOk))
  {
    hide DigestOf, CallInv, TableInv, NewSipCall, Screened, Pick, RouteToMncc, ReleaseLeg, Add, CloseConnection,
      FreshHandle, FreshRef, OldOrNew;
    StaysOld(s, Note(s, [TxReject(offer.handle, 406, None), Destroy(offer.handle)]));
    FreshIsSet(s, offer.handle);
    var accepted := offer.usersKnown && offer.gcrUsable;
    var y := NewSipCall(s.lastId + 1, offer.handle, offer.payload, accepted);
    NewSipCallOk(s.lastId + 1, offer.handle, offer.payload, accepted);
    AddIsNew(s, y);
    if accepted && !y.call.Gone() {
      RouteIsUnplaced(y);
      AddThenRoute(s, y, RouteToMncc(y));
      AddIsNew(s, RouteToMncc(y));
      AddKeeps(s, y);
      RefusalIsNew(s, y);
    }
  }

  lemma RefusalIsNew(s: State, y: Ctx)
    requires TableInv(Add(s, y)) && y.call.id == s.lastId + 1 && !y.call.Gone() && CallInv(y) && Routable(y)
    ensures var r := CloseConnection(Add(s, y));
            r.calls != [] && OldOrNew(s, Act(r, 0, ReleaseLeg(y, Initial, false)))
  {
    hide DigestOf, CallInv, TableInv, SipRelease, CloseConnection;
    UnroutableIsGone(y);
    AddedFirst(s, y);
    var s1, r := Add(s, y), CloseConnection(Add(s, y));
    CloseLands(s1, 0);
    var q := Act(r, 0, ReleaseLeg(y, Initial, false));
    forall d | d in q.calls ensures Listed(s.calls, d.id) || (d.id == s.lastId + 1 && MnccPart(d).None?) {
      assert q.calls == r.calls[1..];
      assert d in r.calls;
      CloseIsOld(s1, d);
      AddedOnce(s, y, d.id);
    }
  }

  lemma AddedOnce(s: State, y: Ctx, id: nat)
    requires Listed(Add(s, y).calls, id)
    ensures Listed(s.calls, id) || id == y.call.id
  {
    var k :| 0 <= k < |Add(s, y).calls| && Add(s, y).calls[k].id == id;
    assert Add(s, y).calls[k] in s.calls || Add(s, y).calls[k] == y.call;
  }

  lemma StepIsOldOrNew(s: State, e: Event)
    requires Inv(s) && Allowed(s, e)
    ensures OldOrNew(s, Step(s, e)) && s.lastId <= Step(s, e).lastId
  {
    hide DigestOf, CallInv, TableInv, OnMncc, OnSip, OnTimeout, OnIncoming, CloseConnection, NewMnccCall, MnccAllowed,
      FreshHandle, FreshRef, OldOrNew, Act, Add;
    LastIdGrows(s, e);
    match e
    case SetupInd(setup) =>
      StaysOld(s, Note(s, [TxSignal(RejReq, setup.callref)]));
      NewMnccCallOk(s.lastId + 1, setup.callref, setup.sdp);
      NewMnccIsUnplaced(s.lastId + 1, setup.callref, setup.sdp);
      AddIsNew(s, NewMnccCall(s.lastId + 1, setup.callref, setup.sdp));
    case FromMsc(callref, msg) =>
      StaysOld(s, Note(s, [TxSignal(RejReq, callref)]));
      var i := FindRef(s.calls, callref);
      if i < |s.calls| {
        var sl := RefSlot(s.calls[i], callref);
        MessageKeepsId(At(s, i), sl, msg, s.conn == Ready);
        ActIsOld(s, i, OnMncc(At(s, i), sl, msg, s.conn == Ready));
      }
      StaysOld(s, s);
    case Timeout(id) =>
      var i := FindId(s.calls, id);
      var sl := MnccSlot(s.calls[i]);
      ListedKeeps(s, i);
      TimeoutKeeps(At(s, i), sl, s.conn == Ready);
      ActIsOld(s, i, OnTimeout(At(s, i), sl, s.conn == Ready));
    case FromPbx(handle, ev) =>
      var i := FindHandle(s.calls, handle);
      var sl := HandleSlot(s.calls[i], handle);
      ListedKeeps(s, i);
      SipEventKeeps(At(s, i), sl, ev, s.conn == Ready);
      ActIsOld(s, i, OnSip(At(s, i), sl, ev, s.conn == Ready));
    case Incoming(offer, writeOk) => IncomingIsNew(s, offer, writeOk);
    case Reconnect(_) => StaysOld(s, Step(s, e));
    case Hello(_) =>
      CloseIsOldOrNew(s);
      StaysOld(s, s.(conn := Ready));
    case BadData => CloseIsOldOrNew(s);
  }

  lemma CloseIsOldOrNew(s: State)
    ensures OldOrNew(s, CloseConnection(s))
  {
    hide CloseConnection;
    forall d | d in CloseConnection(s).calls ensures Listed(s.calls, d.id) { CloseIsOld(s, d); }
  }

  lemma LastIdGrows(s: State, e: Event)
    ensures s.lastId <= Step(s, e).lastId
  {
    hide DigestOf, OnMncc, OnSip, OnTimeout, CloseConnection, NewMnccCall, NewSipCall, RouteToMncc, ReleaseLeg,
      Screened;
    CloseFrame(s);
    if e.Incoming? {
      CloseFrame(Add(s, NewSipCall(s.lastId + 1, e.offer.handle, e.offer.payload, true)));
    }
  }

  // ---------------------------------------------------------------- over runs

  // The MSC's media as the RTP_CREATE that came last in the first k events of a run has it.
  ghost function LastCreated(ss: seq<State>, es: seq<Event>, k: nat, id: nat): Socket
    requires |ss| == |es| + 1 && k <= |es|
  {
    if k == 0 then NO_SOCKET
    else match Creates(ss[k - 1], es[k - 1], id) case Some(socket) => socket case None => LastCreated(ss, es, k - 1, id)
  }

  lemma {:induction false} NewIsUncreated(ss: seq<State>, es: seq<Event>, k: nat, id: nat)
    requires IsRun(ss, es) && k <= |es| && id > ss[k].lastId
    ensures LastCreated(ss, es, k, id) == NO_SOCKET
  {
    hide Inv, Allowed, Step;
    if k > 0 {
      RunStep(ss, es, k - 1);
      LastIdGrows(ss[k - 1], es[k - 1]);
      NewIsUncreated(ss, es, k - 1, id);
      RunsKeepInvariant(ss, es, k - 1);
      UnlistedIsUncreated(ss[k - 1], es[k - 1], id);
    }
  }

  lemma UnlistedIsUncreated(s: State, e: Event, id: nat)
    requires Inv(s) && (id > s.lastId || !Listed(s.calls, id))
    ensures Creates(s, e, id).None?
  {
    hide DigestOf, TableInv;
    if e.FromMsc? {
      var i := FindRef(s.calls, e.callref);
      if i < |s.calls| { ListedKeeps(s, i); }
    }
  }

  // After k events, an attached MNCC leg has the media of the last RTP_CREATE brought to it.
  lemma {:induction false} StoredMediaIsLastCreated(ss: seq<State>, es: seq<Event>, k: nat, d: CallV)
    requires IsRun(ss, es) && k <= |es| && d in ss[k].calls && MnccPart(d).Some?
    ensures SocketOf(MnccPart(d).value) == LastCreated(ss, es, k, d.id)
  {
    hide Inv, Allowed, Step, TurnOf, DigestOf;
    if k > 0 {
      var s, e := ss[k - 1], es[k - 1];
      RunStep(ss, es, k - 1);
      RunsKeepInvariant(ss, es, k - 1);
      StepIsOldOrNew(s, e);
      if Listed(s.calls, d.id) {
        var i :| 0 <= i < |s.calls| && s.calls[i].id == d.id;
        CameFrom(ss, es, k - 1, i, d);
        StoredMediaIsLastCreated(ss, es, k - 1, s.calls[i]);
      } else {
        NewIsUncreated(ss, es, k - 1, d.id);
        UnlistedIsUncreated(s, e, d.id);
      }
    }
  }

  lemma CameFrom(ss: seq<State>, es: seq<Event>, k: nat, i: nat, d: CallV)
    requires IsRun(ss, es) && k < |es| && i < |ss[k].calls| && ss[k].calls[i].id == d.id
    requires d in ss[k + 1].calls && MnccPart(d).Some?
    ensures MnccPart(ss[k].calls[i]).Some?
    ensures SocketOf(MnccPart(d).value) ==
            match Creates(ss[k], es[k], d.id) case Some(socket) => socket
                                              case None => SocketOf(MnccPart(ss[k].calls[i]).value)
  {
    hide Inv, Allowed, Step, TurnOf, DigestOf;
    RunStep(ss, es, k);
    RunsKeepInvariant(ss, es, k);
    PrefixIsReachable(ss, es, k);
    StepTakesTurn(ss[k], es[k], i);
    TurnMoves(ss[k], es[k], i);
  }

  // A state in the middle of a run is reachable too.
  lemma PrefixIsReachable(ss: seq<State>, es: seq<Event>, k: nat)
    requires IsRun(ss, es) && k <= |es|
    ensures Reachable(ss[k])
  {
    hide Allowed, Step;
    var ss', es' := ss[..k + 1], es[..k];
    forall n | 0 <= n < |es'| ensures Allowed(ss'[n], es'[n]) && ss'[n + 1] == Step(ss'[n], es'[n]) {
      assert es'[n] == es[n];
    }
    assert IsRun(ss', es') && ss'[|es'|] == ss[k];
  }

  // In every run, whatever a body tells the PBX is what the events brought: the last SDP the MSC sent
  // for the call in a message that is looked at, or the media of its last RTP_CREATE.
  lemma RunTellsPbx(ss: seq<State>, es: seq<Event>, n: nat, i: nat, k: nat)
    requires IsRun(ss, es) && n < |es| && i < |ss[n].calls| && Added(ss[n], es[n], ss[n].calls[i].id, k)
    requires BodyOf(TraceOf(ss[n + 1], ss[n].calls[i].id)[k]).Some?
    ensures var id := ss[n].calls[i].id;
            var media := LastCreated(ss, es, n + 1, id);
            BodyOf(TraceOf(ss[n + 1], id)[k]).value ==
            Told(LastTaken(ss, es, n + 1, id, MnccSide), media.addr, media.payloadType, media.msgType, ModeOf(es[n]))
  {
    hide Inv, Allowed, Step, DigestOf, LastHeard, Told, ModeOf, BodyOf, LastTaken, LastCreated, Reachable;
    RunStep(ss, es, n);
    PrefixIsReachable(ss, es, n);
    var d := OfferReachesPbx(ss[n], es[n], i, k);
    StoredMediaIsLastCreated(ss, es, n + 1, d);
    RealId(ss[n], i);
    RunHears(ss, es, n + 1, d.id, MnccSide);
  }

  // And the SDP of every RTP_CONNECT is the last one that a SIP event brought.
  lemma RunTellsMsc(ss: seq<State>, es: seq<Event>, n: nat, i: nat, k: nat)
    requires IsRun(ss, es) && n < |es| && i < |ss[n].calls| && Added(ss[n], es[n], ss[n].calls[i].id, k)
    requires TraceOf(ss[n + 1], ss[n].calls[i].id)[k].TxRtpConnect?
    ensures TraceOf(ss[n + 1], ss[n].calls[i].id)[k].sdp ==
            LastTaken(ss, es, n + 1, ss[n].calls[i].id, SipSide)
  {
    hide Inv, Allowed, Step, DigestOf, LastHeard, LastTaken, Reachable;
    RunStep(ss, es, n);
    PrefixIsReachable(ss, es, n);
    var d := MediaReachesMsc(ss[n], es[n], i, k);
    RealId(ss[n], i);
    RunHears(ss, es, n + 1, d.id, SipSide);
  }

  lemma RealId(s: State, i: nat)
    requires Reachable(s) && i < |s.calls|
    ensures s.calls[i].id != NO_CALL
  {
    hide Reachable, TableInv, DigestOf;
    ReachableInv(s);
    ListedKeeps(s, i);
  }

  // ---------------------------------------------------------------- the PBX's media

  // The payload that the event makes the SIP leg take its media from, and the codec it looks for:
  // early media and the first answer of a PBX that is being called, for the codec it was offered;
  // a new offer that is not a hold, for any.
  function Looks(c: CallV, e: Event): Option<(Payload, Option<string>)>
    requires SipPart(c).Some?
  {
    var p := SipPart(c).value;
    if !e.FromPbx? || e.handle != p.handle || MnccPart(c).None? then None
    else
      match e.ev
      case InviteResponse(status, payload) =>
        if status == 180 || status == 183 || (status == 200 && Rank(p.state) < 2) then Some((payload, p.codec))
        else None
      case GotReinvite(payload) =>
        if MediaMode(payload) in {Some(RecvOnly), Some(SendRecv)} then Some((payload, None)) else None
      case GotAck(payload) =>
        if MediaMode(payload) in {Some(RecvOnly), Some(SendRecv)} then Some((payload, None)) else None
      case _ => None
  }

  // Where a SIP leg's media is after the event: where the payload says, with the payload type of
  // RTP_CREATE for a call to the mobile, and where it was otherwise.
  predicate FollowsPbx(c: CallV, e: Event, d: CallV, created: Option<Socket>)
    requires SipPart(c).Some? && SipPart(d).Some?
  {
    var b, p := SipPart(c).value.base, SipPart(d).value.base;
    if Looks(c, e).Some? then
      var (payload, codec) := Looks(c, e).value;
      var picked := Pick(payload, b.addr, b.payloadType, codec);
      p.addr == picked.addr && p.payloadType == picked.payloadType
    else
      p.addr == b.addr && p.payloadType == if created.Some? then created.value.payloadType else b.payloadType
  }

  lemma MessageFollows(m: MLeg, p: SLeg, msg: MnccMsg, ready: bool)
    requires TurnOfMessage(m, Some(p), msg, ready).sip.Some? && (msg.RtpCreate? ==> m.dir == MT)
    ensures var b := TurnOfMessage(m, Some(p), msg, ready).sip.value.base;
            b.addr == p.base.addr && b.payloadType == if msg.RtpCreate? then msg.payloadType else p.base.payloadType
  {
    hide BodyFor, MediaName, NewSdp, Farewell, Clear, Remains, Store;
  }

  lemma ModeIsActive(ev: SipEvent)
    ensures ev.GotReinvite? || ev.GotAck? ==> MediaMode(ev.payload) != Some(Inactive)
    ensures ev.GotAck? && ev.payload.NoPayload? ==> MediaMode(ev.payload) == None
  {
  }

  lemma EventFollows(c: CallV, handle: Handle, ev: SipEvent, ready: bool, d: CallV)
    requires SipPart(c).Some? && SipPart(c).value.handle == handle && SipPart(d).Some?
    requires SipPart(d) == TurnOfEvent(MnccPart(c), SipPart(c).value, ev, ready).sip
    ensures FollowsPbx(c, FromPbx(handle, ev), d, None)
  {
    hide Pick, MediaMode, BodyFor, MediaName, Farewell, Clear, Remains, Store, MnccPart, SipPart,
      CauseMap.StatusToCause;
    ModeIsActive(ev);
    StoreKeeps(SipPart(c).value.base, SdpOf(ev));
    StoreKeeps(SHeard(SipPart(c).value, SdpOf(ev)).base, SdpOf(ev));
    StoreKeeps(Confirmed(SHeard(SipPart(c).value, SdpOf(ev))).base, SdpOf(ev));
  }

  lemma PbxMediaIsFollowed(s: State, e: Event, i: nat, d: CallV)
    requires Reachable(s) && Allowed(s, e) && i < |s.calls| && SipPart(s.calls[i]).Some?
    requires d in Step(s, e).calls && d.id == s.calls[i].id && SipPart(d).Some?
    ensures FollowsPbx(s.calls[i], e, d, Creates(s, e, d.id))
  {
    hide Reachable, TableInv, Step, DigestOf, TurnOfMessage, TurnOfEvent, Farewell, Pick, MediaMode, Breaks,
      FreshHandle, FreshRef, MnccAllowed;
    ReachableInv(s);
    StepTakesTurn(s, e, i);
    var c, ready := s.calls[i], s.conn == Ready;
    var m, p := MnccPart(c), SipPart(c).value;
    ListedKeeps(s, i);
    ListedIsCast(At(s, i));
    match e
    case FromMsc(callref, msg) =>
      if m.Some? && m.value.callref == callref {
        MessageFindsLeg(s, callref, i, MnccPlace(c));
        if !Refuses(m.value, msg) {
          CreateIsAwaited(m.value, msg);
          MessageFollows(m.value, p, msg, ready);
        }
      } else {
        OtherIsNotCreated(s, e, i);
      }
    case FromPbx(handle, ev) => if p.handle == handle { EventFollows(c, handle, ev, ready, d); }
    case _ => PartedKeepsMedia(p);
  }

  lemma PartedKeepsMedia(p: SLeg)
    ensures Parted(p).Some? ==> Parted(p).value == p
  {
  }

  lemma OtherIsNotCreated(s: State, e: Event, i: nat)
    requires Inv(s) && e.FromMsc? && i < |s.calls| && !CallHasRef(s.calls[i], e.callref)
    ensures Creates(s, e, s.calls[i].id).None?
  {
    hide DigestOf, TableInv;
    var j := FindRef(s.calls, e.callref);
    if j < |s.calls| && s.calls[j].id == s.calls[i].id {
      IdsAreDistinct(s, i, j);
    }
  }
}
