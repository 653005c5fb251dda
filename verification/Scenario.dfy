/** A run in which a mobile calls and hangs up just as the PBX answers, built event by event. It
    serves as the concrete input where a property of the code has an exception. */
module Scenario {
  import opened Domain
  import opened Sdp
  import opened Trace
  import opened CallMachine
  import opened CallInvariant
  import opened Bridge
  import opened Lifecycle

  const CALLREF: nat := 77
  const HANDLE: Handle := 1
  const CREATED := RtpCreate(Addr(Inet, 2, 5000), 3, 0x300, "v=0", HANDLE)
  const ANSWER := Payload("v=0", Some(Session([ConnLine(Inet, Some(1))],
                                              [Media(true, true, 4000, SendRecv, [RtpMap("GSM", 3)])])))

  const CALL_SETUP: seq<Event> := [
    Reconnect(true),
    Hello(SOCKET_VERSION),
    SetupInd(Setup(CALLREF, true, false, true, 0, false, false, ""))
  ]
  const CALL_RINGS: seq<Event> := [
    FromMsc(CALLREF, CREATED),
    FromPbx(HANDLE, InviteResponse(183, NoPayload))
  ]
  const CALL_CROSSES: seq<Event> := [
    FromMsc(CALLREF, DiscInd(16, "")),
    FromPbx(HANDLE, InviteResponse(200, ANSWER))
  ]

  // ---------------------------------------------------------------- one call on the list

  // The connection is up and this is the one call.
  predicate Lone(s: State, x: Ctx) {
    s.conn == Ready && s.fdOpen && s.calls == [x.call] && TraceOf(s, x.call.id) == x.log
  }

  ghost predicate Stage(ss: seq<State>, es: seq<Event>, x: Ctx) {
    IsRun(ss, es) && Lone(ss[|es|], x)
  }

  lemma LoneMsc(s: State, x: Ctx, msg: MnccMsg)
    requires Lone(s, x) && HasRef(x.call.initial, CALLREF) && MnccAllowed(x.call.initial.m, msg)
    requires msg.RtpCreate? ==> !x.call.initial.m.base.inRelease && FreshHandle(s, msg.handle)
    requires !msg.RtpConnect? && !OnMncc(x, Initial, msg, true).call.Gone()
    requires OnMncc(x, Initial, msg, true).call.id == x.call.id
    ensures var e := FromMsc(CALLREF, msg); Allowed(s, e) && Lone(Step(s, e), OnMncc(x, Initial, msg, true))
  {
    hide OnMncc, DigestOf, MnccAllowed, FreshHandle, OnReconnect, OnHello, CloseConnection, OnSetupInd, OnTimer,
      OnFromPbx, OnIncoming;
    assert FindRef(s.calls, CALLREF) == 0;
    assert At(s, 0) == x;
  }

  lemma LonePbx(s: State, x: Ctx, ev: SipEvent)
    requires Lone(s, x) && !HasHandle(x.call.initial, HANDLE) && HasHandle(x.call.remote, HANDLE)
             && SipAllowed(x.log, ev)
    requires !OnSip(x, Remote, ev, true).call.Gone() && OnSip(x, Remote, ev, true).call.id == x.call.id
    ensures var e := FromPbx(HANDLE, ev); Allowed(s, e) && Lone(Step(s, e), OnSip(x, Remote, ev, true))
  {
    hide OnSip, DigestOf, SipAllowed, OnReconnect, OnHello, CloseConnection, OnSetupInd, OnTimer, OnFromMsc,
      OnIncoming;
    assert FindHandle(s.calls, HANDLE) == 0;
    assert At(s, 0) == x;
  }

  lemma NextFromMsc(ss: seq<State>, es: seq<Event>, x: Ctx, msg: MnccMsg) returns (ss': seq<State>, es': seq<Event>)
    requires Stage(ss, es, x) && HasRef(x.call.initial, CALLREF) && MnccAllowed(x.call.initial.m, msg)
    requires msg.RtpCreate? ==> !x.call.initial.m.base.inRelease && FreshHandle(ss[|es|], msg.handle)
    requires !msg.RtpConnect? && !OnMncc(x, Initial, msg, true).call.Gone()
    requires OnMncc(x, Initial, msg, true).call.id == x.call.id
    ensures es' == es + [FromMsc(CALLREF, msg)] && Stage(ss', es', OnMncc(x, Initial, msg, true))
  {
    hide OnMncc, Step, Allowed, MnccAllowed, FreshHandle, Lone, DigestOf;
    LoneMsc(ss[|es|], x, msg);
    RunGrows(ss, es, FromMsc(CALLREF, msg));
    ss', es' := ss + [Step(ss[|es|], FromMsc(CALLREF, msg))], es + [FromMsc(CALLREF, msg)];
  }

  lemma NextFromPbx(ss: seq<State>, es: seq<Event>, x: Ctx, ev: SipEvent) returns (ss': seq<State>, es': seq<Event>)
    requires Stage(ss, es, x) && !HasHandle(x.call.initial, HANDLE) && HasHandle(x.call.remote, HANDLE)
    requires SipAllowed(x.log, ev)
    requires !OnSip(x, Remote, ev, true).call.Gone() && OnSip(x, Remote, ev, true).call.id == x.call.id
    ensures es' == es + [FromPbx(HANDLE, ev)] && Stage(ss', es', OnSip(x, Remote, ev, true))
  {
    hide OnSip, Step, Allowed, SipAllowed, Lone, DigestOf;
    LonePbx(ss[|es|], x, ev);
    RunGrows(ss, es, FromPbx(HANDLE, ev));
    ss', es' := ss + [Step(ss[|es|], FromPbx(HANDLE, ev))], es + [FromPbx(HANDLE, ev)];
  }

  // ---------------------------------------------------------------- the call

  const READY_STATE := State([], map[], FIRST_ID, Ready, true, false)
  const NEW_CALL := NewMnccCall(FIRST_ID + 1, CALLREF, "")

  lemma ConnectionComesUp() returns (ss: seq<State>, es: seq<Event>)
    ensures IsRun(ss, es) && es == CALL_SETUP[..2] && ss[|es|] == READY_STATE
  {
    hide IsRun, OnSetupInd, OnFromMsc, OnTimer, OnFromPbx, OnIncoming, CloseConnection;
    EmptyRun();
    RunGrows([INIT], [], Reconnect(true));
    ss, es := [INIT] + [Step(INIT, Reconnect(true))], [] + [Reconnect(true)];
    RunGrows(ss, es, Hello(SOCKET_VERSION));
    ss, es := ss + [Step(ss[|es|], Hello(SOCKET_VERSION))], es + [Hello(SOCKET_VERSION)];
    assert es == CALL_SETUP[..2];
  }

  lemma CallIsSetUp()
    ensures var r := Step(READY_STATE, CALL_SETUP[2]);
            Allowed(READY_STATE, CALL_SETUP[2]) && FreshHandle(r, HANDLE) && Lone(r, NEW_CALL)
  {
    hide DigestOf, Advance, NewMnccCall, OnReconnect, OnHello, OnFromMsc, OnTimer, OnFromPbx, OnIncoming,
      CloseConnection;
    NewMnccCallOk(FIRST_ID + 1, CALLREF, "");
    MentionsAreHandle(NEW_CALL.log);
  }

  lemma CallStarts() returns (ss: seq<State>, es: seq<Event>)
    ensures Stage(ss, es, NEW_CALL) && es == CALL_SETUP && FreshHandle(ss[|es|], HANDLE)
  {
    hide Step, Allowed, FreshHandle, Lone, NewMnccCall;
    ss, es := ConnectionComesUp();
    CallIsSetUp();
    RunGrows(ss, es, CALL_SETUP[2]);
    ss, es := ss + [Step(ss[|es|], CALL_SETUP[2])], es + [CALL_SETUP[2]];
  }

  // The call waits for its RTP socket.
  predicate Waiting(x: Ctx) {
    && HasRef(x.call.initial, CALLREF) && AwaitsRtp(x.call.initial.m) && x.call.initial.m.dir == MO
    && x.call.initial.m.base.ops == MNCC_OPS && x.call.remote.NoLeg?
  }

  // The INVITE is out, the SIP leg is in this state, and the MNCC leg is in release or not,
  // waiting for this response.
  predicate Underway(x: Ctx, state: SipState, inRelease: bool, wanted: Awaited) {
    && HasRef(x.call.initial, CALLREF) && x.call.initial.m.dir == MO && x.call.initial.m.state == MProceeding
    && x.call.initial.m.base.ops == MNCC_OPS && x.call.initial.m.base.rxSdp == CREATED.sdp
    && x.call.initial.m.base.inRelease == inRelease && x.call.initial.m.wanted == wanted
    && HasHandle(x.call.remote, HANDLE) && x.call.remote.s.dir == MT && x.call.remote.s.state == state
    && x.call.remote.s.base.ops == SIP_MT_OPS && x.call.remote.s.codec == None && DigestOf(x.log).asked
  }

  lemma CallWaits()
    ensures Waiting(NEW_CALL)
  {
    hide DigestOf, Advance;
  }

  lemma CallDials(x: Ctx)
    requires Waiting(x)
    ensures var y := OnMncc(x, Initial, CREATED, true);
            y.call.id == x.call.id && Underway(y, SInitial, false, RtpCreateRsp) && !y.call.initial.m.timer
  {
    hide DigestOf, Hear, ReleaseLeg, OnRtpConnect, OnDiscInd, OnRelInd, OnRejInd, OnSetupComplInd, OnSetupCnf,
      OnCallConfInd, OnAlertInd, OnHoldInd, OnRetrieveInd, OnStartDtmf, OnStopDtmf;
    HearKeepsLegs(Created(x, Initial, CREATED), Initial, CREATED.sdp);
    HearEffect(Created(x, Initial, CREATED), Initial, CREATED.sdp);
  }

  lemma CallAlerts(x: Ctx)
    requires Underway(x, SConfirmed, false, RtpCreateRsp) && !x.call.initial.m.timer
    ensures var y := OnProgress(x, Remote, NoPayload);
            y.call.id == x.call.id && Underway(y, SConfirmed, false, RtpCreateRsp) && !y.call.initial.m.timer
  {
    hide DigestOf, Advance, Pick, MnccRing;
    var s := x.call.remote.s;
    PickNothing(s.base.addr, s.base.payloadType, s.codec);
    assert x.Put(Remote, Sip(Placed(s, Pick(NoPayload, s.base.addr, s.base.payloadType, s.codec)))) == x;
    MnccRingEffect(x, Initial);
  }

  lemma PickNothing(addr: Addr, payloadType: nat, wanted: Option<string>)
    ensures Pick(NoPayload, addr, payloadType, wanted) == Picked(false, addr, payloadType)
  {
  }

  lemma CallProgresses(x: Ctx)
    requires Underway(x, SInitial, false, RtpCreateRsp) && !x.call.initial.m.timer
    ensures var y := OnSip(x, Remote, InviteResponse(183, NoPayload), true);
            y.call.id == x.call.id && Underway(y, SConfirmed, false, RtpCreateRsp) && !y.call.initial.m.timer
  {
    hide DigestOf, Advance, Hear, OnProgress, OnAccept, ReleaseWithCause, DropSip, OnReinvite, ReleaseIfAny;
    HearKeepsLegs(x, Remote, "");
    HearEffect(x, Remote, "");
    CallAlerts(Confirm(x, Remote, ""));
  }

  // The PBX rings.
  lemma CallRings() returns (ss: seq<State>, es: seq<Event>, x: Ctx)
    ensures Stage(ss, es, x) && es == CALL_SETUP + CALL_RINGS
    ensures Underway(x, SConfirmed, false, RtpCreateRsp) && !x.call.initial.m.timer
  {
    hide IsRun, Lone, OnMncc, OnSip, FreshHandle, DigestOf, NewMnccCall;
    ss, es := CallStarts();
    CallWaits();
    CallDials(NEW_CALL);
    ss, es := NextFromMsc(ss, es, NEW_CALL, CREATED);
    x := OnMncc(NEW_CALL, Initial, CREATED, true);
    CallProgresses(x);
    ss, es := NextFromPbx(ss, es, x, InviteResponse(183, NoPayload));
    x := OnSip(x, Remote, InviteResponse(183, NoPayload), true);
  }

  lemma CallIsReleased(x: Ctx)
    requires Underway(x, SConfirmed, false, RtpCreateRsp)
    ensures var y := OnMncc(x, Initial, DiscInd(16, ""), true);
            y.call.id == x.call.id && Underway(y, SConfirmed, true, RelCnf)
  {
    hide DigestOf;
  }

  // The mobile hangs up.
  lemma CallIsCleared() returns (ss: seq<State>, es: seq<Event>, x: Ctx)
    ensures Stage(ss, es, x) && es == CALL_SETUP + CALL_RINGS + [CALL_CROSSES[0]]
    ensures Underway(x, SConfirmed, true, RelCnf)
  {
    hide IsRun, Lone, OnMncc, DigestOf;
    ss, es, x := CallRings();
    CallIsReleased(x);
    ss, es := NextFromMsc(ss, es, x, DiscInd(16, ""));
    x := OnMncc(x, Initial, DiscInd(16, ""), true);
  }

  lemma AnswerIsUsable(addr: Addr, payloadType: nat)
    ensures Pick(ANSWER, addr, payloadType, None).ok
  {
    assert UsableAt(ANSWER.session.value.conns, 0) && MapAt(ANSWER.session.value.media, 0, 0, None);
    PickRefinesChoice(ANSWER.text, ANSWER.session.value, addr, payloadType, None);
  }

  lemma CallIsAccepted(x: Ctx)
    requires Underway(x, SConfirmed, true, RelCnf)
    ensures var y := OnAccept(x, Remote, ANSWER, true);
            y.call.id == x.call.id && Underway(y, SConnected, true, SetupComplInd)
  {
    hide DigestOf, Pick, ReleaseLeg, SipConnect;
    AnswerIsUsable(x.call.remote.s.base.addr, x.call.remote.s.base.payloadType);
  }

  lemma CallIsAnswered(x: Ctx)
    requires Underway(x, SConfirmed, true, RelCnf)
    ensures var y := OnSip(x, Remote, InviteResponse(200, ANSWER), true);
            y.call.id == x.call.id && Underway(y, SConnected, true, SetupComplInd)
  {
    hide DigestOf, Advance, Hear, OnProgress, OnAccept, ReleaseWithCause, OnReinvite;
    HearKeepsLegs(x, Remote, Text(ANSWER));
    HearEffect(x, Remote, Text(ANSWER));
    CallIsAccepted(Confirm(x, Remote, Text(ANSWER)));
  }

  // The PBX answers all the same.
  lemma CallCrosses() returns (ss: seq<State>, es: seq<Event>, x: Ctx)
    ensures Stage(ss, es, x) && es == CALL_SETUP + CALL_RINGS + CALL_CROSSES
    ensures Underway(x, SConnected, true, SetupComplInd)
  {
    hide IsRun, Lone, OnSip, DigestOf;
    ss, es, x := CallIsCleared();
    CallIsAnswered(x);
    ss, es := NextFromPbx(ss, es, x, InviteResponse(200, ANSWER));
    x := OnSip(x, Remote, InviteResponse(200, ANSWER), true);
  }
}
