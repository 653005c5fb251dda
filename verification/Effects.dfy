/** What an event means for the legs and the signals of a call: states, timer and release follow from
    the event and from what was said, in every state of every run. */
module Effects {
  import opened Domain
  import opened Sdp
  import opened Trace
  import opened CallMachine
  import opened CallInvariant
  import opened Bridge
  import opened CallList
  import opened Lifecycle
  import opened Locality
  import opened Protocol
  import CauseMap

  // ---------------------------------------------------------------- which event calls for what

  // A message that reaches the MNCC leg, and a SIP event that reaches the SIP leg.
  function Message(c: CallV, e: Event): Option<MnccMsg> {
    if e.FromMsc? && MnccPart(c).Some? && MnccPart(c).value.callref == e.callref && !Refuses(MnccPart(c).value, e.msg)
    then Some(e.msg) else None
  }

  function Stimulus(c: CallV, e: Event): Option<SipEvent> {
    if e.FromPbx? && SipPart(c).Some? && SipPart(c).value.handle == e.handle then Some(e.ev) else None
  }

  // The first 200 to an INVITE of a call with both legs, with usable media.
  predicate Accepts(c: CallV, e: Event) {
    && MnccPart(c).Some? && Stimulus(c, e).Some? && e.ev.InviteResponse? && e.ev.status == 200
    && var p := SipPart(c).value;
       Rank(p.state) < 2 && Pick(e.ev.payload, p.base.addr, p.base.payloadType, p.codec).ok
  }

  predicate Rings(c: CallV, e: Event) {
    && MnccPart(c).Some? && Stimulus(c, e).Some? && e.ev.InviteResponse?
    && (e.ev.status == 180 || e.ev.status == 183)
  }

  // The signal to the MSC that a message calls for.
  function Reply(m: MLeg, paired: bool, msg: MnccMsg): Option<Signal> {
    match msg
    case RtpCreate(_, _, _, _, _) => if m.dir == MO then Some(CallProcReq) else None
    case SetupCnf(_) => if paired then Some(SetupComplReq) else None
    case HoldInd(_) => Some(if paired then HoldCnf else HoldRej)
    case RetrieveInd(_) => Some(RetrieveCnf)
    case _ => None
  }

  // The one that an event calls for, besides the refusal of a call.
  function SignalFor(c: CallV, e: Event): Option<Signal> {
    if Message(c, e).Some? then Reply(MnccPart(c).value, SipPart(c).Some?, e.msg)
    else if Rings(c, e) then Some(AlertReq)
    else if Accepts(c, e) then Some(SetupRsp)
    else None
  }

  // A signal that is said is the one called for, or the refusal of a call, and is about the callref.
  predicate SignalsFollow(callref: nat, wanted: Option<Signal>, said: seq<Entry>) {
    && (forall a | a in said && a.TxSignal? :: a.callref == callref && (a.signal == RejReq || wanted == Some(a.signal)))
    && (wanted.Some? ==> TxSignal(wanted.value, callref) in said)
  }

  lemma MessageSignals(m: MLeg, p: Option<SLeg>, msg: MnccMsg, ready: bool)
    ensures SignalsFollow(m.callref, Reply(m, p.Some?, msg), TurnOfMessage(m, p, msg, ready).said)
  {
    hide BodyFor, MediaName, NewSdp, Farewell, Parted, Clear, Remains, Store;
  }

  lemma StatusSignals(m: MLeg, p: SLeg, status: int, payload: Payload, ready: bool)
    ensures var accepts := status == 200 && Rank(p.state) < 2
                           && Pick(payload, p.base.addr, p.base.payloadType, p.codec).ok;
            SignalsFollow(m.callref,
                          if status == 180 || status == 183 then Some(AlertReq)
                          else if accepts then Some(SetupRsp) else None,
                          TurnOfStatus(Some(m), p, status, payload, ready).said)
  {
    hide Pick, Clear, Remains, CauseMap.StatusToCause;
  }

  lemma EventSignals(c: CallV, e: Event, ready: bool)
    requires Stimulus(c, e).Some? && MnccPart(c).Some? && Message(c, e).None?
    ensures SignalsFollow(MnccPart(c).value.callref, SignalFor(c, e),
                          TurnOfEvent(MnccPart(c), SipPart(c).value, e.ev, ready).said)
  {
    hide MnccPart, SipPart, Pick, BodyFor, MediaMode, MediaName, Farewell, Parted, Clear, Remains, Store, TurnOfStatus;
    var m, p := MnccPart(c).value, SipPart(c).value;
    if e.ev.InviteResponse? {
      StoreKeeps(p.base, Text(e.ev.payload));
      StatusSignals(m, Confirmed(SHeard(p, Text(e.ev.payload))), e.ev.status, e.ev.payload, ready);
    }
  }

  // ---------------------------------------------------------------- timer and release

  // The response that the MSC is given time for after this entry.
  function ArmedBy(a: Entry): Option<Awaited> {
    match a
    case TxRtpCreate(_, _) => Some(RtpCreateRsp)
    case TxSignal(signal, _) => if signal == SetupRsp then Some(SetupComplInd) else None
    case TxClear(clearing, _, _) => Some(if clearing == DiscReq then RelInd else RelCnf)
    case _ => None
  }

  // The response that a message is.
  function ResponseIn(msg: MnccMsg): Awaited {
    match msg
    case RtpCreate(_, _, _, _, _) => RtpCreateRsp
    case SetupComplIndMsg(_) => SetupComplInd
    case _ => NoResponse
  }

  // The timer of a leg that stays: armed by what was said, else stopped by the response it waits for,
  // else as it was. In release is a leg that was, or that was asked to clear the call.
  predicate TimerFollows(m: MLeg, response: Awaited, said: seq<Entry>, n: MLeg) {
    && (forall a | a in said && ArmedBy(a).Some? :: n.timer && n.wanted == ArmedBy(a).value)
    && ((forall a | a in said :: ArmedBy(a).None?) ==>
          n.wanted == m.wanted && n.timer == (m.timer && (response == NoResponse || response != m.wanted)))
    && (n.base.inRelease <==> m.base.inRelease || exists a | a in said :: a.TxClear?)
  }

  // Nothing that starts the timer was said.
  predicate Idle(said: seq<Entry>) {
    forall a | a in said :: ArmedBy(a).None?
  }

  lemma IdleFollows(m: MLeg, response: Awaited, said: seq<Entry>, n: MLeg)
    requires Idle(said) && n.wanted == m.wanted && n.base.inRelease == m.base.inRelease
    requires n.timer == (m.timer && (response == NoResponse || response != m.wanted))
    ensures TimerFollows(m, response, said, n)
  {
    assert forall a | a in said :: a.TxClear? ==> ArmedBy(a).Some?;
  }

  lemma ArmingFollows(m: MLeg, response: Awaited, said: seq<Entry>, k: nat, n: MLeg)
    requires k < |said| && ArmedBy(said[k]).Some? && Idle(said[..k]) && Idle(said[k + 1..])
    requires n.timer && n.wanted == ArmedBy(said[k]).value
    requires n.base.inRelease == (m.base.inRelease || said[k].TxClear?)
    ensures TimerFollows(m, response, said, n)
  {
    forall a | a in said && a != said[k] ensures ArmedBy(a).None? && !a.TxClear? {
      var j :| 0 <= j < |said| && said[j] == a;
      assert if j < k then said[..k][j] == a else said[k + 1..][j - k - 1] == a;
    }
    assert said[k] in said;
  }

  // A release at the end of a turn.
  lemma ClearFollows(m: MLeg, response: Awaited, front: seq<Entry>, m1: MLeg, ready: bool)
    requires Idle(front) && Remains(m1, ready).Some?
    ensures TimerFollows(m, response, front + Clear(m1, ready), Remains(m1, ready).value)
  {
    var said := front + Clear(m1, ready);
    assert said[..|front|] == front && said[|front| + 1..] == [];
    ArmingFollows(m, response, said, |front|, Remains(m1, ready).value);
  }

  lemma FarewellIsIdle(p: Option<SLeg>, front: seq<Entry>)
    requires Idle(front)
    ensures Idle(front + FarewellOf(p))
  {
    hide Farewell;
  }

  lemma MessageArms(m: MLeg, p: Option<SLeg>, msg: MnccMsg, ready: bool)
    requires TurnOfMessage(m, p, msg, ready).mncc.Some?
    ensures var t := TurnOfMessage(m, p, msg, ready);
            TimerFollows(m, ResponseIn(msg), t.said, t.mncc.value)
  {
    hide BodyFor, MediaName, NewSdp, Farewell, Parted, Store, FarewellOf, TimerFollows;
    StoreKeeps(m.base, msg.sdp);
    var t, m1, front := TurnOfMessage(m, p, msg, ready), MHeard(m, msg.sdp), [Heard(MnccSide, msg.sdp)];
    match msg
    case RtpCreate(_, _, _, _, handle) => CreateArms(m, p, msg, ready);
    case RtpConnect(_, _, _) =>
      if t.said == front {
        IdleFollows(m, NoResponse, t.said, t.mncc.value);
      } else {
        FarewellIsIdle(p, front);
        ClearFollows(m, NoResponse, front + FarewellOf(p), m1, ready);
      }
    case DiscInd(cause, _) =>
      FarewellIsIdle(Blamed(p, cause), []);
      assert t.said[..0] == [] && t.said[1..] == [] + FarewellOf(Blamed(p, cause));
      ArmingFollows(m, NoResponse, t.said, 0, t.mncc.value);
    case SetupCnf(_) =>
      if p.None? {
        ClearFollows(m, NoResponse, front, m1, ready);
      } else {
        IdleFollows(m, NoResponse, t.said, t.mncc.value);
      }
    case AlertInd(_) =>
      if p.None? {
        ClearFollows(m, NoResponse, front, m1, ready);
      } else {
        IdleFollows(m, NoResponse, t.said, t.mncc.value);
      }
    case RetrieveInd(_) =>
      if p.None? {
        ClearFollows(m, NoResponse, [TxSignal(RetrieveCnf, m.callref)], m, ready);
      } else {
        IdleFollows(m, NoResponse, t.said, t.mncc.value);
      }
    case CallConfInd(_) =>
      assert t.said[..1] == front && t.said[2..] == [];
      ArmingFollows(m, NoResponse, t.said, 1, t.mncc.value);
    case RelIndMsg(_, _) =>
    case RejInd(_, _) =>
    case RelCnfMsg(_) =>
    case _ => IdleFollows(m, ResponseIn(msg), t.said, t.mncc.value);
  }

  lemma CreateArms(m: MLeg, p: Option<SLeg>, msg: MnccMsg, ready: bool)
    requires msg.RtpCreate? && TurnOfCreate(m, p, msg, ready).mncc.Some?
    ensures var t := TurnOfCreate(m, p, msg, ready);
            TimerFollows(m, RtpCreateRsp, t.said, t.mncc.value)
  {
    hide BodyFor, MediaName, Store, TimerFollows;
    var base := m.base.(addr := msg.addr, payloadType := msg.payloadType, payloadMsgType := msg.payloadMsgType);
    StoreKeeps(base, msg.sdp);
    var t, m2 := TurnOfCreate(m, p, msg, ready), TakesMedia(m, msg).(state := MProceeding);
    if m.dir == MO && msg.handle == NULL_HANDLE {
      ClearFollows(m, RtpCreateRsp, [Heard(MnccSide, msg.sdp), TxSignal(CallProcReq, m.callref)], m2, ready);
    } else {
      IdleFollows(m, RtpCreateRsp, t.said, t.mncc.value);
    }
  }

  lemma AcceptArms(m: MLeg, p: SLeg, payload: Payload, ready: bool, heard: Entry)
    requires TurnOfAccept(Some(m), p, payload, ready).mncc.Some? && Idle([heard])
    ensures var t := TurnOfAccept(Some(m), p, payload, ready);
            TimerFollows(m, NoResponse, [heard] + t.said, t.mncc.value)
  {
    hide Pick, TimerFollows, Clear, Remains;
    var t := TurnOfAccept(Some(m), p, payload, ready);
    var said := [heard] + t.said;
    if Pick(payload, p.base.addr, p.base.payloadType, p.codec).ok {
      assert |said| == 4 && said[..2] == [heard, said[1]] && said[3..] == [TxAck(p.handle)];
      ArmingFollows(m, NoResponse, said, 2, t.mncc.value);
    } else {
      assert said == [heard, TxCancel(p.handle)] + Clear(m, ready);
      ClearFollows(m, NoResponse, [heard, TxCancel(p.handle)], m, ready);
    }
  }

  lemma StatusArms(m: MLeg, p: SLeg, status: int, payload: Payload, ready: bool, heard: Entry)
    requires TurnOfStatus(Some(m), p, status, payload, ready).mncc.Some? && Idle([heard])
    ensures var t := TurnOfStatus(Some(m), p, status, payload, ready);
            TimerFollows(m, NoResponse, [heard] + t.said, t.mncc.value)
  {
    hide Pick, TimerFollows, Clear, Remains, TurnOfAccept, CauseMap.StatusToCause;
    var t := TurnOfStatus(Some(m), p, status, payload, ready);
    var said := [heard] + t.said;
    if status == 200 && p.state != SConnected && p.state != SHold {
      AcceptArms(m, p, payload, ready, heard);
    } else if status >= 300 {
      var m1 := MCause(m, CauseMap.StatusToCause(status));
      assert said == [heard, TxCancel(p.handle), Destroy(p.handle)] + Clear(m1, ready);
      ClearFollows(m, NoResponse, [heard, TxCancel(p.handle), Destroy(p.handle)], m1, ready);
    } else {
      assert heard in [heard];
      IdleFollows(m, NoResponse, said, t.mncc.value);
    }
  }

  lemma EventArms(m: MLeg, p: SLeg, ev: SipEvent, ready: bool)
    requires TurnOfEvent(Some(m), p, ev, ready).mncc.Some?
    ensures var t := TurnOfEvent(Some(m), p, ev, ready);
            TimerFollows(m, NoResponse, t.said, t.mncc.value)
  {
    hide Pick, BodyFor, MediaMode, MediaName, Clear, Remains, Store, TimerFollows, TurnOfStatus, Confirmed, SHeard,
      CodecFor;
    var t := TurnOfEvent(Some(m), p, ev, ready);
    match ev
    case InviteResponse(status, payload) =>
      StatusArms(m, Confirmed(SHeard(p, Text(payload))), status, payload, ready, Heard(SipSide, Text(payload)));
    case GotBye => ClearFollows(m, NoResponse, [Destroy(p.handle)], m, ready);
    case GotCancel => ClearFollows(m, NoResponse, [Destroy(p.handle)], m, ready);
    case _ => IdleFollows(m, NoResponse, t.said, t.mncc.value);
  }

  // ---------------------------------------------------------------- states

  // A message moves the MNCC leg to the state it stands for, if there is a partner to act on.
  function MnccStateAfter(m: MLeg, paired: bool, msg: MnccMsg): MnccState {
    match msg
    case RtpCreate(_, _, _, _, _) => if m.dir == MO then MProceeding else m.state
    case SetupComplIndMsg(_) => MConnected
    case SetupCnf(_) => if paired then MConnected else m.state
    case RetrieveInd(_) => if paired then MConnected else m.state
    case HoldInd(_) => if paired then MHold else m.state
    case _ => m.state
  }

  function SipStateAfter(state: SipState, msg: MnccMsg): SipState {
    match msg case SetupCnf(_) => SConnected case RetrieveInd(_) => SConnected case HoldInd(_) => SHold case _ => state
  }

  lemma MessageStates(m: MLeg, p: Option<SLeg>, msg: MnccMsg, ready: bool)
    ensures var t := TurnOfMessage(m, p, msg, ready);
            && (t.mncc.Some? ==> t.mncc.value.state == MnccStateAfter(m, p.Some?, msg))
            && (t.sip.Some? && p.Some? && !(msg.RtpCreate? && m.dir == MO) ==>
                  t.sip.value.state == SipStateAfter(p.value.state, msg))
  {
    hide BodyFor, MediaName, NewSdp, Farewell, Clear, Store;
    StoreKeeps(m.base, msg.sdp);
  }

  // The first 200 with usable media connects the leg, and any response confirms it.
  function SipStateOn(p: SLeg, paired: bool, ev: SipEvent): SipState {
    match ev
    case InviteResponse(status, payload) =>
      if status == 200 && Rank(p.state) < 2 && paired
         && Pick(payload, p.base.addr, p.base.payloadType, p.codec).ok then SConnected
      else if p.state == SInitial then SConfirmed else p.state
    case _ => p.state
  }

  lemma EventStates(m: Option<MLeg>, p: SLeg, ev: SipEvent, ready: bool)
    ensures var t := TurnOfEvent(m, p, ev, ready);
            && (t.mncc.Some? ==> m.Some? && t.mncc.value.state == m.value.state)
            && (t.sip.Some? ==> t.sip.value.state == SipStateOn(p, m.Some?, ev))
  {
    hide Pick, BodyFor, MediaMode, MediaName, Farewell, Clear, Store, CauseMap.StatusToCause;
    if ev.InviteResponse? {
      StoreKeeps(p.base, Text(ev.payload));
    }
  }

  // ---------------------------------------------------------------- when the MNCC leg goes

  // On a READY connection a released leg goes at once only with the refusal of the call.
  lemma ClearEnds(m: MLeg)
    ensures Remains(m, true).None? <==> TxSignal(RejReq, m.callref) in Clear(m, true)
  {
  }

  lemma MessageEnds(m: MLeg, p: Option<SLeg>, msg: MnccMsg)
    ensures var t := TurnOfMessage(m, p, msg, true);
            t.mncc.None? <==> msg.RelIndMsg? || msg.RejInd? || msg.RelCnfMsg? || TxSignal(RejReq, m.callref) in t.said
  {
    hide BodyFor, MediaName, NewSdp, Farewell, Clear, Remains, Store;
    ClearEnds(m);
    ClearEnds(MHeard(m, msg.sdp));
    if msg.RtpCreate? {
      ClearEnds(TakesMedia(m, msg).(state := MProceeding));
    }
  }

  lemma EventEnds(m: MLeg, p: SLeg, ev: SipEvent)
    ensures var t := TurnOfEvent(Some(m), p, ev, true);
            t.mncc.None? <==> TxSignal(RejReq, m.callref) in t.said
  {
    hide Pick, BodyFor, MediaMode, MediaName, Farewell, Clear, Remains, Store, CauseMap.StatusToCause;
    ClearEnds(m);
    if ev.InviteResponse? {
      ClearEnds(MCause(m, CauseMap.StatusToCause(ev.status)));
    }
  }

  // ---------------------------------------------------------------- over events

  // What the event added to the trace of the call.
  function AddedTo(s: State, e: Event, id: nat): seq<Entry> {
    var t, r := TraceOf(s, id), TraceOf(Step(s, e), id);
    if |t| <= |r| then r[|t|..] else []
  }

  lemma TurnIsAdded(s: State, e: Event, i: nat)
    requires Reachable(s) && Allowed(s, e) && i < |s.calls|
    ensures AddedTo(s, e, s.calls[i].id) == TurnOf(s, e, i).said
    ensures TraceOf(Step(s, e), s.calls[i].id) == TraceOf(s, s.calls[i].id) + AddedTo(s, e, s.calls[i].id)
    ensures forall d | d in Step(s, e).calls && d.id == s.calls[i].id ::
              MnccPart(d) == TurnOf(s, e, i).mncc && SipPart(d) == TurnOf(s, e, i).sip
    ensures TurnOf(s, e, i).mncc.Some? || TurnOf(s, e, i).sip.Some? ==> Listed(Step(s, e).calls, s.calls[i].id)
  {
    hide Reachable, Allowed, Step, TurnOf, DigestOf;
    StepTakesTurn(s, e, i);
    var d := Taken(At(s, i), TurnOf(s, e, i)).call;
    if !d.Gone() {
      var k :| 0 <= k < |Step(s, e).calls| && Step(s, e).calls[k] == d;
    }
  }

  // Every event: the signals it adds to the trace of a call with an MNCC leg are the one it calls for,
  // exactly then, or the refusal of the call.
  lemma SignalsAreDue(s: State, e: Event, i: nat)
    requires Reachable(s) && Allowed(s, e) && i < |s.calls| && MnccPart(s.calls[i]).Some?
    ensures SignalsFollow(MnccPart(s.calls[i]).value.callref, SignalFor(s.calls[i], e), AddedTo(s, e, s.calls[i].id))
  {
    hide Reachable, Allowed, Step, DigestOf, TurnOf, TurnOfMessage, TurnOfEvent, MnccPart, SipPart, Message, Stimulus,
      SignalsFollow, SignalFor, Reply;
    TurnIsAdded(s, e, i);
    TurnIsDue(s, e, i);
    var c, ready := s.calls[i], s.conn == Ready;
    var m := MnccPart(c).value;
    if Message(c, e).Some? {
      MessageSignals(m, SipPart(c), e.msg, ready);
      MessageIsAnswered(c, e);
    } else if Stimulus(c, e).Some? {
      EventSignals(c, e, ready);
    } else {
      NothingIsDue(c, e, TurnOf(s, e, i).said);
    }
  }

  // The turn is that of the message or event that reaches the call; without one, nothing is signalled.
  lemma TurnIsDue(s: State, e: Event, i: nat)
    requires i < |s.calls|
    ensures var c, t, ready := s.calls[i], TurnOf(s, e, i), s.conn == Ready;
            var m, p, msg, ev := MnccPart(c), SipPart(c), Message(c, e), Stimulus(c, e);
            && (msg.Some? ==> m.Some? && e.FromMsc? && e.msg == msg.value && ev.None?
                              && t == TurnOfMessage(m.value, p, e.msg, ready))
            && (ev.Some? ==> p.Some? && e.FromPbx? && e.ev == ev.value && t == TurnOfEvent(m, p.value, e.ev, ready))
            && (msg.None? && ev.None? ==>
                  && (forall a | a in t.said :: !a.TxSignal?)
                  && (t.mncc.Some? ==> t.mncc == m && t.said == [])
                  && (t.sip.Some? ==> t.sip == p))
  {
    hide TurnOfMessage, TurnOfEvent, Farewell, Breaks, MnccPart, SipPart;
  }

  lemma MessageIsAnswered(c: CallV, e: Event)
    requires Message(c, e).Some?
    ensures SignalFor(c, e) == Reply(MnccPart(c).value, SipPart(c).Some?, e.msg)
  {
  }

  lemma NothingIsDue(c: CallV, e: Event, said: seq<Entry>)
    requires MnccPart(c).Some? && Message(c, e).None? && Stimulus(c, e).None? && forall a | a in said :: !a.TxSignal?
    ensures SignalsFollow(MnccPart(c).value.callref, SignalFor(c, e), said)
  {
  }

  // Every event, for the MNCC leg of a call that keeps it: its state, its timer and whether it is in
  // release follow from the message and from what was said.
  lemma MnccLegFollows(s: State, e: Event, i: nat, d: CallV)
    requires Reachable(s) && Allowed(s, e) && i < |s.calls|
    requires d in Step(s, e).calls && d.id == s.calls[i].id && MnccPart(d).Some?
    ensures MnccPart(s.calls[i]).Some?
    ensures var c, msg := s.calls[i], Message(s.calls[i], e);
            var m, n := MnccPart(c).value, MnccPart(d).value;
            && n.callref == m.callref && n.dir == m.dir
            && n.state == (if msg.Some? then MnccStateAfter(m, SipPart(c).Some?, msg.value) else m.state)
            && TimerFollows(m, if msg.Some? then ResponseIn(msg.value) else NoResponse, AddedTo(s, e, c.id), n)
  {
    hide Reachable, Allowed, Step, DigestOf, TurnOf, TurnOfMessage, TurnOfEvent, MnccPart, SipPart, Message, Stimulus,
      TimerFollows, MnccStateAfter, ResponseIn;
    TurnIsAdded(s, e, i);
    TurnIsDue(s, e, i);
    var c, ready := s.calls[i], s.conn == Ready;
    var m, p := MnccPart(c), SipPart(c);
    if Message(c, e).Some? {
      MessageArms(m.value, p, e.msg, ready);
      MessageStates(m.value, p, e.msg, ready);
      MessageKeepsRef(m.value, p, e.msg, ready);
    } else if Stimulus(c, e).Some? {
      EventStates(m, p.value, e.ev, ready);
      EventArms(m.value, p.value, e.ev, ready);
      EventKeepsRef(m.value, p.value, e.ev, ready);
    } else {
      IdleFollows(m.value, NoResponse, [], m.value);
    }
  }

  lemma MessageKeepsRef(m: MLeg, p: Option<SLeg>, msg: MnccMsg, ready: bool)
    ensures var n := TurnOfMessage(m, p, msg, ready).mncc;
            n.Some? ==> n.value.callref == m.callref && n.value.dir == m.dir
  {
    hide BodyFor, MediaName, NewSdp, Farewell, Clear, Parted, Store;
  }

  lemma EventKeepsRef(m: MLeg, p: SLeg, ev: SipEvent, ready: bool)
    ensures var n := TurnOfEvent(Some(m), p, ev, ready).mncc;
            n.Some? ==> n.value.callref == m.callref && n.value.dir == m.dir
  {
    hide Pick, BodyFor, MediaMode, MediaName, Farewell, Clear, Parted, Store, CauseMap.StatusToCause;
  }

  // Every event, for a SIP leg that was there and stays.
  lemma SipLegFollows(s: State, e: Event, i: nat, d: CallV)
    requires Reachable(s) && Allowed(s, e) && i < |s.calls| && SipPart(s.calls[i]).Some?
    requires d in Step(s, e).calls && d.id == s.calls[i].id && SipPart(d).Some?
    ensures var c, msg, ev := s.calls[i], Message(s.calls[i], e), Stimulus(s.calls[i], e);
            var state := SipPart(d).value.state;
            if msg.Some? then state == SipStateAfter(SipPart(c).value.state, msg.value)
            else if ev.Some? then state == SipStateOn(SipPart(c).value, MnccPart(c).Some?, ev.value)
            else state == SipPart(c).value.state
  {
    hide Reachable, Allowed, Step, DigestOf, TurnOf, TurnOfMessage, TurnOfEvent, MnccPart, SipPart, Message, Stimulus,
      SipStateAfter, SipStateOn;
    TurnIsAdded(s, e, i);
    TurnIsDue(s, e, i);
    var c, ready := s.calls[i], s.conn == Ready;
    var m, p := MnccPart(c), SipPart(c);
    if Message(c, e).Some? {
      if e.msg.RtpCreate? { PairedCreateIsMt(s, e, i); }
      MessageStates(m.value, p, e.msg, ready);
    } else if Stimulus(c, e).Some? {
      EventStates(m, p.value, e.ev, ready);
    }
  }

  lemma PairedCreateIsMt(s: State, e: Event, i: nat)
    requires Reachable(s) && Allowed(s, e) && i < |s.calls| && SipPart(s.calls[i]).Some?
    requires Message(s.calls[i], e).Some? && e.msg.RtpCreate?
    ensures MnccPart(s.calls[i]).value.dir == MT
  {
    hide Reachable, TableInv, DigestOf, CallInv, FreshHandle;
    ReachableInv(s);
    ListedKeeps(s, i);
    ListedIsCast(At(s, i));
    MessageFindsLeg(s, e.callref, i, MnccPlace(s.calls[i]));
    CreateIsAwaited(MnccPart(s.calls[i]).value, e.msg);
  }

  // On a READY connection that stays open, the MNCC leg goes exactly with REL_IND, REJ_IND or REL_CNF, when
  // its timer expires, or when the call is refused.
  lemma MnccLegEndsExactly(s: State, e: Event, i: nat)
    requires Reachable(s) && Allowed(s, e) && i < |s.calls| && MnccPart(s.calls[i]).Some?
    requires s.conn == Ready && Step(s, e).conn == Ready
    ensures var c, msg := s.calls[i], Message(s.calls[i], e);
            (forall d | d in Step(s, e).calls && d.id == c.id :: MnccPart(d).None?) <==>
            || (msg.Some? && (msg.value.RelIndMsg? || msg.value.RejInd? || msg.value.RelCnfMsg?))
            || (e.Timeout? && e.id == c.id)
            || TxSignal(RejReq, MnccPart(c).value.callref) in AddedTo(s, e, c.id)
  {
    hide Reachable, Allowed, DigestOf, Step, TurnOfMessage, TurnOfEvent, Farewell, Parted, MnccPart, SipPart, Breaks;
    TurnIsAdded(s, e, i);
    StaysOpen(s, e);
    var c := s.calls[i];
    var m, p := MnccPart(c), SipPart(c);
    match e
    case FromMsc(callref, msg) => if Message(c, e).Some? { MessageEnds(m.value, p, msg); }
    case FromPbx(handle, ev) => if Stimulus(c, e).Some? { EventEnds(m.value, p.value, ev); }
    case _ =>
  }

  // ---------------------------------------------------------------- the connection

  // Connecting waits for the version, only the right version makes the connection READY, and closing
  // disconnects it; nothing else changes it, its socket or the reconnect timer.
  lemma ConnectionFollows(s: State, e: Event)
    requires Inv(s) && Allowed(s, e)
    ensures var r := Step(s, e);
            (r.conn, r.fdOpen, r.reconnect) ==
            match e
            case Reconnect(connected) => if connected then (WaitVersion, true, false) else (Disconnected, false, true)
            case Hello(version) =>
              if version == SOCKET_VERSION then (Ready, true, s.reconnect) else (Disconnected, false, true)
            case BadData => (Disconnected, false, true)
            case Incoming(offer, writeOk) =>
              if Closes(e) && s.fdOpen then (Disconnected, false, true) else (s.conn, s.fdOpen, s.reconnect)
            case _ => (s.conn, s.fdOpen, s.reconnect)
  {
    hide DigestOf, TableInv, OnMncc, OnSip, OnTimeout, CloseConnection, NewMnccCall, NewSipCall, RouteToMncc,
      ReleaseLeg, Screened, Pick, FreshRef, FreshHandle, MnccAllowed, SipAllowed;
    CloseFrame(s);
    if e.Incoming? {
      var accepted := e.offer.usersKnown && e.offer.gcrUsable;
      FreshIsSet(s, e.offer.handle);
      NewSipCallOk(s.lastId + 1, e.offer.handle, e.offer.payload, accepted);
      CloseFrame(Add(s, NewSipCall(s.lastId + 1, e.offer.handle, e.offer.payload, true)));
    }
  }

  // The connection stayed open, so no event closed it.
  lemma StaysOpen(s: State, e: Event)
    requires Reachable(s) && Allowed(s, e) && s.conn == Ready && Step(s, e).conn == Ready
    ensures s.fdOpen && !Closes(e)
  {
    hide Reachable, Allowed, Step, TableInv, DigestOf, Breaks;
    ReachableInv(s);
    ConnectionFollows(s, e);
  }
}
