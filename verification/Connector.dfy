/** The connector as it runs: the call list and the connection belong to the process, calls and
    legs are updated in place, and each handler is proved to do to them what the call machine
    says. */
module Connector {
  import opened Domain
  import opened Sdp
  import opened Trace
  import opened Legs
  import M = CallMachine
  import CauseMap

  // llist_del
  function Without<T(==)>(calls: seq<T>, c: T): seq<T> {
    if calls == [] then []
    else if calls[0] == c then Without(calls[1..], c)
    else [calls[0]] + Without(calls[1..], c)
  }

  class Process {
    var calls: seq<Call>
    var lastId: nat
    var conn: ConnState
    var fdOpen: bool
    var reconnect: bool
    var bound: map<Handle, SipLeg>
    var traces: map<nat, seq<Entry>>
    ghost var repr: set<object>   // every call and leg there ever was

    // Right after mncc_connection_start: not connected, and about to try.
    constructor ()
      ensures calls == [] && lastId == FIRST_ID && conn == Disconnected && !fdOpen && reconnect && bound == map[]
              && traces == map[]
      ensures repr == {}
    {
      calls, lastId, conn, fdOpen, reconnect, bound, traces := [], FIRST_ID, Disconnected, false, true, map[], map[];
      repr := {};
    }

    ghost function Cx(c: Call): Ctx
      reads this`traces, c, c.LegObjects()
      requires c.id in traces
    {
      Ctx(c.View(), traces[c.id])
    }

    // The call has become x.call and its trace x.log.
    twostate predicate Became(c: Call, x: Ctx)
      reads this`traces, c, c.LegObjects()
    {
      c.View() == x.call && traces == old(traces)[c.id := x.log]
    }

    // The legs are those it had or fewer; it left the list if it lost the last one, and the
    // handle of a freed SIP leg is unbound.
    twostate predicate Settled(c: Call)
      reads this`calls, this`bound, this`repr, c, c.LegObjects()
    {
      && repr == old(repr)
      && (c.initial == old(c.initial) || c.initial == NoRef)
      && (c.remote == old(c.remote) || c.remote == NoRef)
      && calls == (if c.Empty() then Without(old(calls), c) else old(calls))
      && if c.SipHandle() == old(c.SipHandle()) then bound == old(bound)
         else c.SipHandle() == None && bound == old(bound) - {old(c.SipHandle()).value}
    }

    // It got a new SIP leg, bound to the handle.
    twostate predicate Extended(c: Call, handle: Handle)
      reads this`calls, this`bound, this`repr, c, c.LegObjects()
    {
      && c.initial == old(c.initial) && calls == old(calls)
      && c.remote.SipRef? && fresh(c.remote.sip) && c.remote.sip.handle == handle != NULL_HANDLE
      && bound == old(bound)[handle := c.remote.sip] && repr == old(repr) + {c.remote.sip}
    }

    // A call from the PBX got its MNCC leg.
    twostate predicate Joined(c: Call)
      reads this`calls, this`bound, this`repr, c, c.LegObjects()
    {
      && c.initial == old(c.initial) && old(c.remote) == NoRef && c.remote.MnccRef? && fresh(c.remote.mncc)
      && c.SipHandle() == old(c.SipHandle()) && calls == old(calls) && bound == old(bound)
      && repr == old(repr) + {c.remote.mncc}
    }

    // The slot beside sl still holds the leg it held.
    twostate predicate Spares(c: Call, sl: Slot)
      reads c
    {
      c.At(sl.Other()) == old(c.At(sl.Other()))
    }

    ghost predicate Local(c: Call)
      reads this`traces, c
    {
      c.Owns() && c.id in traces
    }

    // ---------------------------------------------------------------- elementary effects

    method Emit(c: Call, e: Entry)
      requires c.id in traces
      modifies this`traces
      ensures traces == old(traces)[c.id := old(traces)[c.id] + [e]]
    {
      traces := traces[c.id := traces[c.id] + [e]];
    }

    method Transmit(c: Call, e: Entry)
      requires Local(c)
      modifies this`traces
      ensures Local(c) && Became(c, M.Send(old(Cx(c)), e))
    {
      hide DigestOf, Advance;
      Emit(c, e);
    }

    // Calling a function pointer: it is set, and its function asserts the kind of the leg.
    method Check(callback: Callback, leg: LegRef) returns (fault: Option<Fault>)
      ensures fault == Misfit(callback, leg.View())
    {
      match callback
      case Unset => fault := Some(UnsetCallback);
      case OfMncc => fault := if leg.MnccRef? then None else Some(WrongLegType);
      case OfSip => fault := if leg.SipRef? then None else Some(WrongLegType);
    }

    // call_leg_release
    method CallLegRelease(c: Call, leg: LegRef)
      requires leg in {c.initial, c.remote} && leg != NoRef && c.Owns()
      modifies this`calls, c
      ensures c.initial == (if leg == old(c.initial) then NoRef else old(c.initial))
      ensures c.remote == (if leg == old(c.remote) then NoRef else old(c.remote))
      ensures calls == if c.Empty() then Without(old(calls), c) else old(calls)
    {
      if leg == c.initial {
        c.initial := NoRef;
      } else {
        c.remote := NoRef;
      }
      if c.initial.NoRef? && c.remote.NoRef? {
        calls := Without(calls, c);
      }
    }

    // nua_handle_destroy
    method DestroyHandle(c: Call, h: Handle)
      requires c.id in traces
      modifies this`traces, this`bound
      ensures traces == old(traces)[c.id := old(traces)[c.id] + [Destroy(h)]]
      ensures bound == old(bound) - {h}
    {
      Emit(c, Destroy(h));
      bound := bound - {h};
    }

    // Destroying the handle and releasing the leg always go together.
    method EndSip(c: Call, ghost sl: Slot, leg: SipLeg)
      requires Local(c) && c.At(sl) == SipRef(leg)
      modifies this`calls, this`traces, this`bound, c
      ensures Local(c) && Settled(c) && Spares(c, sl) && c.At(sl) == NoRef && Became(c, M.DropSip(old(Cx(c)), sl))
    {
      DestroyHandle(c, leg.handle);
      CallLegRelease(c, SipRef(leg));
    }

    method HearMncc(c: Call, ghost sl: Slot, leg: MnccLeg, sdp: string)
      requires Local(c) && c.At(sl) == MnccRef(leg)
      modifies this`traces, leg
      ensures Local(c) && Settled(c) && Became(c, M.Hear(old(Cx(c)), sl, sdp))
    {
      hide DigestOf, Advance, M.Store;
      leg.RxSdp(sdp);
      Emit(c, Heard(MnccSide, sdp));
    }

    method HearSip(c: Call, ghost sl: Slot, leg: SipLeg, sdp: string)
      requires Local(c) && c.At(sl) == SipRef(leg)
      modifies this`traces, leg
      ensures Local(c) && Settled(c) && Became(c, M.Hear(old(Cx(c)), sl, sdp))
    {
      hide DigestOf, Advance, M.Store;
      leg.RxSdp(sdp);
      Emit(c, Heard(SipSide, sdp));
    }

    // ---------------------------------------------------------------- releasing a leg

    // sip_release_call on a confirmed leg that the PBX started.
    method SipReject(c: Call, ghost sl: Slot, leg: SipLeg)
      requires Local(c) && c.At(sl) == SipRef(leg) && leg.state == SConfirmed && leg.dir == MO
      modifies this`calls, this`traces, this`bound, c
      ensures Local(c) && Settled(c) && Spares(c, sl) && Became(c, M.SipRelease(old(Cx(c)), sl))
    {
      hide DigestOf, Advance, M.DropSip, CauseMap.CauseToStatus, CauseMap.ReasonText;
      var status, reason := CauseMap.Rejection(leg.base.cause);
      Emit(c, TxReject(leg.handle, status, Some(reason)));
      EndSip(c, sl, leg);
    }

    method SipRelease(c: Call, ghost sl: Slot, leg: SipLeg)
      requires Local(c) && c.At(sl) == SipRef(leg)
      modifies this`calls, this`traces, this`bound, c
      ensures Local(c) && Settled(c) && Spares(c, sl) && Became(c, M.SipRelease(old(Cx(c)), sl))
    {
      hide DigestOf, Advance, M.DropSip, CauseMap.CauseToStatus, CauseMap.ReasonText;
      match leg.state
      case SInitial => EndSip(c, sl, leg);
      case SConfirmed =>
        if leg.dir == MT {
          Emit(c, TxCancel(leg.handle));
        } else {
          SipReject(c, sl, leg);
        }
      case _ => Emit(c, TxBye(leg.handle));
    }

    // Leg `leg` is what a scan for its callref finds.
    ghost predicate Found(leg: MnccLeg)
      reads this`calls, calls, leg.call
    {
      && leg.call in calls && MnccRef(leg) in {leg.call.initial, leg.call.remote}
      && forall d | d in calls ::
           && (d.initial.MnccRef? && d.initial.mncc.callref == leg.callref ==> d.initial.mncc == leg)
           && (d.remote.MnccRef? && d.remote.mncc.callref == leg.callref ==> d.remote.mncc == leg)
    }

    // mncc_find_leg
    method FindMncc(callref: nat) returns (i: nat, sl: Slot)
      ensures i <= |calls|
      ensures i < |calls| ==> calls[i].At(sl).MnccRef? && calls[i].At(sl).mncc.callref == callref
      ensures i < |calls| && sl == Remote ==> !(calls[i].initial.MnccRef? && calls[i].initial.mncc.callref == callref)
      ensures forall j | 0 <= j < i ::
                && !(calls[j].initial.MnccRef? && calls[j].initial.mncc.callref == callref)
                && !(calls[j].remote.MnccRef? && calls[j].remote.mncc.callref == callref)
    {
      i := 0;
      while i < |calls|
        invariant 0 <= i <= |calls|
        invariant forall j | 0 <= j < i ::
                    && !(calls[j].initial.MnccRef? && calls[j].initial.mncc.callref == callref)
                    && !(calls[j].remote.MnccRef? && calls[j].remote.mncc.callref == callref)
      {
        if calls[i].initial.MnccRef? && calls[i].initial.mncc.callref == callref {
          return i, Initial;
        }
        if calls[i].remote.MnccRef? && calls[i].remote.mncc.callref == callref {
          return i, Remote;
        }
        i := i + 1;
      }
      sl := Initial;
    }

    // sip_find_leg
    method FindSip(handle: Handle) returns (i: nat, sl: Slot)
      ensures i <= |calls|
      ensures i < |calls| ==> calls[i].At(sl).SipRef? && calls[i].At(sl).sip.handle == handle
      ensures i < |calls| && sl == Remote ==> !(calls[i].initial.SipRef? && calls[i].initial.sip.handle == handle)
      ensures forall j | 0 <= j < i ::
                && !(calls[j].initial.SipRef? && calls[j].initial.sip.handle == handle)
                && !(calls[j].remote.SipRef? && calls[j].remote.sip.handle == handle)
    {
      i := 0;
      while i < |calls|
        invariant 0 <= i <= |calls|
        invariant forall j | 0 <= j < i ::
                    && !(calls[j].initial.SipRef? && calls[j].initial.sip.handle == handle)
                    && !(calls[j].remote.SipRef? && calls[j].remote.sip.handle == handle)
      {
        if calls[i].initial.SipRef? && calls[i].initial.sip.handle == handle {
          return i, Initial;
        }
        if calls[i].remote.SipRef? && calls[i].remote.sip.handle == handle {
          return i, Remote;
        }
        i := i + 1;
      }
      sl := Initial;
    }

    // mncc_fill_header for DISC_REQ and REL_REQ: the cause is fetched by a scan for the callref.
    method SendClear(c: Call, leg: MnccLeg, clearing: Clearing)
      requires c.id in traces && Found(leg)
      modifies this`traces
      ensures traces == old(traces)[c.id := old(traces)[c.id] + [TxClear(clearing, leg.callref, leg.base.cause)]]
    {
      var i, sl := FindMncc(leg.callref);
      assert leg.call in calls;
      var found := calls[i].At(sl).mncc;
      Emit(c, TxClear(clearing, leg.callref, found.base.cause));
    }

    method MnccRelease(c: Call, ghost sl: Slot, leg: MnccLeg)
      requires Local(c) && c.At(sl) == MnccRef(leg) && (conn == Ready ==> Found(leg))
      modifies this`calls, this`traces, c, leg
      ensures Local(c) && Settled(c) && Spares(c, sl) && Became(c, M.MnccRelease(old(Cx(c)), sl, conn == Ready))
    {
      hide DigestOf, Advance;
      if conn != Ready {
        CallLegRelease(c, MnccRef(leg));
        return;
      }
      match leg.state
      case MInitial =>
        if leg.dir == MO {
          Emit(c, TxSignal(RejReq, leg.callref));
          CallLegRelease(c, MnccRef(leg));
        } else {
          StartRelease(c, sl, leg, RelReq, RelCnf);
        }
      case _ =>
        StartRelease(c, sl, leg, DiscReq, RelInd);
    }

    // other->release_call(other)
    method ReleaseLeg(c: Call, ghost sl: Slot, leg: LegRef)
      requires Local(c) && c.At(sl) == leg && leg != NoRef && (leg.MnccRef? && conn == Ready ==> Found(leg.mncc))
      modifies this`calls, this`traces, this`bound, c, leg.Objects()
      ensures Local(c) && Settled(c) && Spares(c, sl) && Became(c, M.ReleaseLeg(old(Cx(c)), sl, conn == Ready))
    {
      hide DigestOf, Advance, M.MnccRelease, M.SipRelease;
      var fault := Check(leg.Base().ops.release, leg);
      if fault.Some? {
        Emit(c, Crash(fault.value));
      } else if leg.MnccRef? {
        MnccRelease(c, sl, leg.mncc);
      } else {
        SipRelease(c, sl, leg.sip);
      }
    }

    method ReleaseIfAny(c: Call, ghost sl: Slot, leg: LegRef)
      requires Local(c) && !c.Empty() && c.At(sl) == leg && (leg.MnccRef? && conn == Ready ==> Found(leg.mncc))
      modifies this`calls, this`traces, this`bound, c, leg.Objects()
      ensures Local(c) && Settled(c) && Spares(c, sl) && Became(c, M.ReleaseIfAny(old(Cx(c)), sl, conn == Ready))
    {
      hide DigestOf, Advance, M.ReleaseLeg;
      if leg != NoRef {
        ReleaseLeg(c, sl, leg);
      }
    }

    method ReleaseWithCause(c: Call, ghost sl: Slot, leg: LegRef, cause: int)
      requires Local(c) && !c.Empty() && c.At(sl) == leg && (leg.MnccRef? && conn == Ready ==> Found(leg.mncc))
      modifies this`calls, this`traces, this`bound, c, leg.Objects()
      ensures Local(c) && Settled(c) && Spares(c, sl)
              && Became(c, M.ReleaseWithCause(old(Cx(c)), sl, cause, conn == Ready))
    {
      hide DigestOf, Advance, M.ReleaseLeg;
      if leg != NoRef {
        leg.SetBase(leg.Base().(cause := cause));
        ReleaseLeg(c, sl, leg);
      }
    }

    // ---------------------------------------------------------------- ringing and connecting

    method SendRtpConnect(c: Call, ghost sl: Slot, leg: MnccLeg, other: LegRef)
      requires Local(c) && c.At(sl) == MnccRef(leg) && other != NoRef
      modifies this`traces
      ensures Local(c) && Became(c, M.SendRtpConnect(old(Cx(c)), sl, other.Base()))
    {
      hide DigestOf, Advance;
      Emit(c, TxRtpConnect(leg.callref, other.Base().addr, other.Base().payloadType, other.Base().rxSdp));
    }

    method MnccRing(c: Call, ghost sl: Slot, leg: MnccLeg)
      requires Local(c) && c.At(sl) == MnccRef(leg)
      modifies this`traces
      ensures Local(c) && Became(c, M.MnccRing(old(Cx(c)), sl))
    {
      hide DigestOf, Advance;
      Emit(c, TxSignal(AlertReq, leg.callref));
      var other := c.Other(MnccRef(leg));
      if other != NoRef && other.Base().addr.family != Unspec && other.Base().addr.port != 0 {
        SendRtpConnect(c, sl, leg, other);
      }
    }

    method RingLeg(c: Call, ghost sl: Slot, leg: LegRef)
      requires Local(c) && c.At(sl) == leg && leg != NoRef
      modifies this`traces
      ensures Local(c) && Became(c, M.RingLeg(old(Cx(c)), sl))
    {
      hide DigestOf, Advance, M.MnccRing;
      var fault := Check(leg.Base().ops.ring, leg);
      if fault.Some? {
        Emit(c, Crash(fault.value));
      } else if leg.MnccRef? {
        MnccRing(c, sl, leg.mncc);
      } else {
        Emit(c, TxRinging(leg.sip.handle));
      }
    }

    method MnccConnect(c: Call, ghost sl: Slot, leg: MnccLeg)
      requires Local(c) && c.At(sl) == MnccRef(leg)
      modifies this`traces, leg
      ensures Local(c) && Became(c, M.MnccConnect(old(Cx(c)), sl))
    {
      hide DigestOf, Advance;
      var other := c.Other(MnccRef(leg));
      if other == NoRef {
        Emit(c, Crash(MissingPartner));
        return;
      }
      SendRtpConnect(c, sl, leg, other);
      leg.StartTimer(SetupComplInd);
      Emit(c, TxSignal(SetupRsp, leg.callref));
    }

    // sdp_create_file: the legacy form also fixes the codec the leg will look for.
    method CreateFile(leg: SipLeg, other: LegRef, mode: Mode) returns (body: Body)
      requires other != NoRef && leg !in other.Objects()
      modifies leg
      ensures body == M.BodyFor(other.Base(), mode)
      ensures leg.View() == M.CodecFor(old(leg.View()), other.Base())
    {
      if other.Base().rxSdp != "" {
        return Forward(other.Base().rxSdp, mode);
      }
      leg.codec := Some(M.MediaName(other.Base().payloadMsgType));
      body := Compose(other.Base().addr, other.Base().payloadType, M.MediaName(other.Base().payloadMsgType), mode);
    }

    method Answer(c: Call, ghost sl: Slot, leg: SipLeg, other: LegRef, mode: Mode)
      requires Local(c) && c.At(sl) == SipRef(leg) && other == c.At(sl.Other()) && other != NoRef
      modifies this`traces, leg
      ensures Local(c) && Settled(c) && Spares(c, sl) && Became(c, M.Answer(old(Cx(c)), sl, mode))
    {
      hide DigestOf, Advance, M.BodyFor;
      var body := CreateFile(leg, other, mode);
      Emit(c, TxAnswer(leg.handle, body));
    }

    method SipConnect(c: Call, ghost sl: Slot, leg: SipLeg)
      requires Local(c) && c.At(sl) == SipRef(leg)
      modifies this`calls, this`traces, this`bound, c, leg
      ensures Local(c) && Settled(c) && Spares(c, sl) && Became(c, M.SipConnect(old(Cx(c)), sl))
    {
      hide DigestOf, Advance, M.Answer, M.SipRelease;
      var other := c.Other(SipRef(leg));
      if other == NoRef {
        SipRelease(c, sl, leg);
        return;
      }
      leg.state := SConnected;
      Answer(c, sl, leg, other, SendRecv);
    }

    method ConnectLeg(c: Call, ghost sl: Slot, leg: LegRef)
      requires Local(c) && c.At(sl) == leg && leg != NoRef
      modifies this`calls, this`traces, this`bound, c, leg.Objects()
      ensures Local(c) && Settled(c) && Spares(c, sl) && Became(c, M.ConnectLeg(old(Cx(c)), sl))
    {
      hide DigestOf, Advance, M.MnccConnect, M.SipConnect;
      var fault := Check(leg.Base().ops.connect, leg);
      if fault.Some? {
        Emit(c, Crash(fault.value));
      } else if leg.MnccRef? {
        MnccConnect(c, sl, leg.mncc);
      } else {
        SipConnect(c, sl, leg.sip);
      }
    }

    // ---------------------------------------------------------------- hold and retrieve

    // sip_hold_call and sip_retrieve_call
    method SipModify(c: Call, ghost sl: Slot, leg: SipLeg, mode: Mode, state: SipState)
      requires Local(c) && c.At(sl) == SipRef(leg)
      modifies this`calls, this`traces, this`bound, c, leg
      ensures Local(c) && Settled(c) && Spares(c, sl) && Became(c, M.SipModify(old(Cx(c)), sl, mode, state))
    {
      hide DigestOf, Advance, M.BodyFor, M.SipRelease;
      var other := c.Other(SipRef(leg));
      if other == NoRef {
        SipRelease(c, sl, leg);
        return;
      }
      var body := CreateFile(leg, other, mode);
      Emit(c, TxReinvite(leg.handle, body));
      leg.state := state;
    }

    method HoldLeg(c: Call, ghost sl: Slot, leg: LegRef)
      requires Local(c) && c.At(sl) == leg && leg != NoRef
      modifies this`calls, this`traces, this`bound, c, leg.Objects()
      ensures Local(c) && Settled(c) && Spares(c, sl) && Became(c, M.HoldLeg(old(Cx(c)), sl))
    {
      hide DigestOf, Advance, M.SipModify;
      var fault := Check(leg.Base().ops.hold, leg);
      if fault.Some? {
        Emit(c, Crash(fault.value));
      } else if leg.SipRef? {
        SipModify(c, sl, leg.sip, SendOnly, SHold);
      } else {
        Emit(c, Crash(WrongLegType));
      }
    }

    method RetrieveLeg(c: Call, ghost sl: Slot, leg: LegRef)
      requires Local(c) && c.At(sl) == leg && leg != NoRef
      modifies this`calls, this`traces, this`bound, c, leg.Objects()
      ensures Local(c) && Settled(c) && Spares(c, sl) && Became(c, M.RetrieveLeg(old(Cx(c)), sl))
    {
      hide DigestOf, Advance, M.SipModify;
      var fault := Check(leg.Base().ops.retrieve, leg);
      if fault.Some? {
        Emit(c, Crash(fault.value));
      } else if leg.SipRef? {
        SipModify(c, sl, leg.sip, SendRecv, SConnected);
      } else {
        Emit(c, Crash(WrongLegType));
      }
    }

    // ---------------------------------------------------------------- MNCC messages

    // mncc_leg_release; the leg's timer goes with it.
    method FreeMncc(c: Call, ghost sl: Slot, leg: MnccLeg)
      requires Local(c) && c.At(sl) == MnccRef(leg)
      modifies this`calls, c
      ensures Local(c) && Settled(c) && Spares(c, sl) && Became(c, M.Free(old(Cx(c)), sl))
    {
      CallLegRelease(c, MnccRef(leg));
    }

    method CmdTimeout(c: Call, ghost sl: Slot, leg: MnccLeg)
      requires Local(c) && c.At(sl) == MnccRef(leg)
      modifies this`calls, this`traces, this`bound, c, c.LegObjects()
      ensures Local(c) && Settled(c) && Became(c, M.OnTimeout(old(Cx(c)), sl, conn == Ready))
    {
      hide DigestOf, Advance, M.ReleaseIfAny;
      var other := c.Other(MnccRef(leg));
      ReleaseIfAny(c, sl.Other(), other);
      FreeMncc(c, sl, leg);
    }

    method ReleaseBoth(c: Call, ghost sl: Slot, leg: MnccLeg)
      requires Local(c) && c.At(sl) == MnccRef(leg) && Found(leg)
      modifies this`calls, this`traces, this`bound, c, c.LegObjects()
      ensures Local(c) && Settled(c)
      ensures Became(c, M.ReleaseIfAny(M.ReleaseIfAny(old(Cx(c)), sl.Other(), conn == Ready), sl, conn == Ready))
    {
      hide DigestOf, Advance, Without, M.ReleaseIfAny;
      ReleaseIfAny(c, sl.Other(), c.Other(MnccRef(leg)));
      assert c.At(sl) == MnccRef(leg) && calls == old(calls);
      ReleaseIfAny(c, sl, MnccRef(leg));
    }

    method CheckRtpConnect(c: Call, ghost sl: Slot, leg: MnccLeg, msg: M.MnccMsg)
      requires Local(c) && c.At(sl) == MnccRef(leg) && Found(leg) && msg.RtpConnect?
      modifies this`calls, this`traces, this`bound, c, c.LegObjects()
      ensures Local(c) && Settled(c) && Became(c, M.OnRtpConnect(old(Cx(c)), sl, msg, conn == Ready))
    {
      hide DigestOf, Found, Advance, M.Hear, M.ReleaseIfAny;
      HearMncc(c, sl, leg, msg.sdp);
      if msg.addr.family != Unspec || msg.addr.port != 0 || msg.payloadType != 0 {
        return;
      }
      ReleaseBoth(c, sl, leg);
    }

    // The release starts with a request, and the timer guards the answer.
    method StartRelease(c: Call, ghost sl: Slot, leg: MnccLeg, clearing: Clearing, answer: Awaited)
      requires Local(c) && c.At(sl) == MnccRef(leg) && Found(leg)
      modifies this`traces, leg
      ensures Local(c) && Became(c, M.StartRelease(old(Cx(c)), sl, clearing, answer))
    {
      hide DigestOf, Advance;
      leg.base := leg.base.(inRelease := true);
      leg.StartTimer(answer);
      SendClear(c, leg, clearing);
    }

    method CheckDiscInd(c: Call, ghost sl: Slot, leg: MnccLeg, cause: int)
      requires Local(c) && c.At(sl) == MnccRef(leg) && Found(leg)
      modifies this`calls, this`traces, this`bound, c, c.LegObjects()
      ensures Local(c) && Settled(c) && Became(c, M.OnDiscInd(old(Cx(c)), sl, cause, conn == Ready))
    {
      hide DigestOf, Advance, M.StartRelease, M.ReleaseWithCause;
      StartRelease(c, sl, leg, RelReq, RelCnf);
      ReleaseWithCause(c, sl.Other(), c.Other(MnccRef(leg)), cause);
    }

    method CheckRelInd(c: Call, ghost sl: Slot, leg: MnccLeg, cause: int)
      requires Local(c) && c.At(sl) == MnccRef(leg)
      modifies this`calls, this`traces, this`bound, c, c.LegObjects()
      ensures Local(c) && Settled(c) && Became(c, M.OnRelInd(old(Cx(c)), sl, cause, conn == Ready))
    {
      hide DigestOf, Advance, M.ReleaseWithCause;
      if leg.base.inRelease {
        leg.StopTimer(RelInd);
      } else {
        ReleaseWithCause(c, sl.Other(), c.Other(MnccRef(leg)), cause);
      }
      FreeMncc(c, sl, leg);
    }

    method CheckRejInd(c: Call, ghost sl: Slot, leg: MnccLeg, cause: int)
      requires Local(c) && c.At(sl) == MnccRef(leg)
      modifies this`calls, this`traces, this`bound, c, c.LegObjects()
      ensures Local(c) && Settled(c) && Became(c, M.OnRejInd(old(Cx(c)), sl, cause, conn == Ready))
    {
      hide DigestOf, Advance, M.ReleaseWithCause;
      ReleaseWithCause(c, sl.Other(), c.Other(MnccRef(leg)), cause);
      FreeMncc(c, sl, leg);
    }

    method CheckRelCnf(c: Call, ghost sl: Slot, leg: MnccLeg)
      requires Local(c) && c.At(sl) == MnccRef(leg)
      modifies this`calls, c, leg
      ensures Local(c) && Settled(c) && Became(c, M.Free(old(Cx(c)), sl))
    {
      leg.StopTimer(RelCnf);
      FreeMncc(c, sl, leg);
    }

    method CheckSetupComplInd(c: Call, ghost sl: Slot, leg: MnccLeg, sdp: string)
      requires Local(c) && c.At(sl) == MnccRef(leg)
      modifies this`traces, leg
      ensures Local(c) && Settled(c) && Became(c, M.OnSetupComplInd(old(Cx(c)), sl, sdp))
    {
      hide DigestOf, Advance;
      HearMncc(c, sl, leg, sdp);
      leg.StopTimer(SetupComplInd);
      leg.state := MConnected;
    }

    method CompleteSetup(c: Call, ghost sl: Slot, leg: MnccLeg, other: LegRef)
      requires Local(c) && c.At(sl) == MnccRef(leg) && other == c.At(sl.Other()) && other != NoRef
      modifies this`traces, leg
      ensures Local(c) && Became(c, M.CompleteSetup(old(Cx(c)), sl))
    {
      hide DigestOf, Advance;
      SendRtpConnect(c, sl, leg, other);
      leg.state := MConnected;
      Emit(c, TxSignal(SetupComplReq, leg.callref));
    }

    method CheckSetupCnf(c: Call, ghost sl: Slot, leg: MnccLeg, sdp: string)
      requires Local(c) && c.At(sl) == MnccRef(leg) && Found(leg)
      modifies this`calls, this`traces, this`bound, c, c.LegObjects()
      ensures Local(c) && Settled(c) && Became(c, M.OnSetupCnf(old(Cx(c)), sl, sdp, conn == Ready))
    {
      hide DigestOf, Advance, Found, Without, M.Hear, M.FinishSetup;
      HearMncc(c, sl, leg, sdp);
      FinishSetup(c, sl, leg);
    }

    method FinishSetup(c: Call, ghost sl: Slot, leg: MnccLeg)
      requires Local(c) && c.At(sl) == MnccRef(leg) && Found(leg)
      modifies this`calls, this`traces, this`bound, c, c.LegObjects()
      ensures Local(c) && Settled(c) && Became(c, M.FinishSetup(old(Cx(c)), sl, conn == Ready))
    {
      hide DigestOf, Advance, Found, Without, M.MnccRelease, M.CompleteSetup, M.ConnectLeg;
      var other := c.Other(MnccRef(leg));
      if other == NoRef {
        MnccRelease(c, sl, leg);
      } else {
        CompleteThenConnect(c, sl, leg, other);
      }
    }

    method CompleteThenConnect(c: Call, ghost sl: Slot, leg: MnccLeg, other: LegRef)
      requires Local(c) && c.At(sl) == MnccRef(leg) && other == c.At(sl.Other()) && other != NoRef
      modifies this`calls, this`traces, this`bound, c, c.LegObjects()
      ensures Local(c) && Settled(c)
      ensures Became(c, M.ConnectLeg(M.CompleteSetup(old(Cx(c)), sl), sl.Other()))
    {
      hide DigestOf, Advance, Without, M.CompleteSetup, M.ConnectLeg;
      CompleteSetup(c, sl, leg, other);
      ConnectLeg(c, sl.Other(), other);
    }

    // The partner's SDP if it was not forwarded yet, which marks it as forwarded.
    method ConsumeSdp(c: Call, ghost sl: Slot, leg: LegRef) returns (sdp: string)
      requires Local(c) && c.At(sl) == leg
      modifies leg.Objects()
      ensures sdp == M.NewSdp(old(leg.View()))
      ensures Local(c) && Became(c, M.ConsumeSdp(old(Cx(c)), sl)) && c.SipHandle() == old(c.SipHandle())
    {
      sdp := "";
      if leg != NoRef && leg.Base().rxSdp != "" && leg.Base().rxChanged {
        sdp := leg.Base().rxSdp;
        leg.SetBase(leg.Base().(rxChanged := false));
      }
    }

    method RequestRtp(c: Call, ghost sl: Slot, leg: MnccLeg)
      requires Local(c) && c.At(sl) == MnccRef(leg)
      modifies this`traces, c.LegObjects()
      ensures Local(c) && Settled(c) && Became(c, M.RequestRtp(old(Cx(c)), sl))
    {
      hide DigestOf, Advance, M.NewSdp;
      var forward := ConsumeSdp(c, sl.Other(), c.Other(MnccRef(leg)));
      leg.StartTimer(RtpCreateRsp);
      Emit(c, TxRtpCreate(leg.callref, forward));
    }

    // check_cnf_ind, and how check_setup ends: store the SDP and ask for an RTP socket.
    method OpenRtp(c: Call, ghost sl: Slot, leg: MnccLeg, sdp: string)
      requires Local(c) && c.At(sl) == MnccRef(leg)
      modifies this`traces, c.LegObjects()
      ensures Local(c) && Settled(c) && Became(c, M.OnCallConfInd(old(Cx(c)), sl, sdp))
    {
      hide DigestOf, Advance, M.Hear, M.RequestRtp;
      HearMncc(c, sl, leg, sdp);
      RequestRtp(c, sl, leg);
    }

    method CheckAlertInd(c: Call, ghost sl: Slot, leg: MnccLeg, sdp: string)
      requires Local(c) && c.At(sl) == MnccRef(leg) && Found(leg)
      modifies this`calls, this`traces, this`bound, c, c.LegObjects()
      ensures Local(c) && Settled(c) && Became(c, M.OnAlertInd(old(Cx(c)), sl, sdp, conn == Ready))
    {
      hide DigestOf, Found, Advance, M.Hear, M.RingLeg, M.MnccRelease;
      HearMncc(c, sl, leg, sdp);
      var other := c.Other(MnccRef(leg));
      if other == NoRef {
        MnccRelease(c, sl, leg);
        return;
      }
      RingLeg(c, sl.Other(), other);
    }

    method ConfirmHold(c: Call, ghost sl: Slot, leg: MnccLeg)
      requires Local(c) && c.At(sl) == MnccRef(leg)
      modifies this`traces, leg
      ensures Local(c) && Became(c, M.ConfirmHold(old(Cx(c)), sl))
    {
      hide DigestOf, Advance;
      Emit(c, TxSignal(HoldCnf, leg.callref));
      leg.state := MHold;
    }

    method CheckHoldInd(c: Call, ghost sl: Slot, leg: MnccLeg)
      requires Local(c) && c.At(sl) == MnccRef(leg)
      modifies this`calls, this`traces, this`bound, c, c.LegObjects()
      ensures Local(c) && Settled(c) && Became(c, M.OnHoldInd(old(Cx(c)), sl))
    {
      hide DigestOf, Advance, Without, M.HoldLeg, M.ConfirmHold;
      var other := c.Other(MnccRef(leg));
      if other == NoRef {
        Emit(c, TxSignal(HoldRej, leg.callref));
        return;
      }
      HoldLeg(c, sl.Other(), other);
      ConfirmHold(c, sl, leg);
    }

    method Resume(c: Call, ghost sl: Slot, leg: MnccLeg, other: LegRef)
      requires Local(c) && c.At(sl) == MnccRef(leg) && other == c.At(sl.Other()) && other != NoRef
      modifies this`traces, leg
      ensures Local(c) && Became(c, M.Resume(old(Cx(c)), sl))
    {
      hide DigestOf, Advance;
      Emit(c, TxSignal(RetrieveCnf, leg.callref));
      leg.state := MConnected;
      SendRtpConnect(c, sl, leg, other);
    }

    method CheckRetrieveInd(c: Call, ghost sl: Slot, leg: MnccLeg)
      requires Local(c) && c.At(sl) == MnccRef(leg) && Found(leg)
      modifies this`calls, this`traces, this`bound, c, c.LegObjects()
      ensures Local(c) && Settled(c) && Became(c, M.OnRetrieveInd(old(Cx(c)), sl, conn == Ready))
    {
      hide DigestOf, Advance, Without, M.RetrieveLeg, M.MnccRelease, M.Resume;
      var other := c.Other(MnccRef(leg));
      if other == NoRef {
        Emit(c, TxSignal(RetrieveCnf, leg.callref));
        MnccRelease(c, sl, leg);
        return;
      }
      M.RetrieveKeepsLeg(Cx(c), sl.Other());
      RetrieveLeg(c, sl.Other(), other);
      Resume(c, sl, leg, other);
    }

    // sip_dtmf_call
    method DtmfLeg(c: Call, ghost sl: Slot, leg: LegRef, key: int)
      requires Local(c) && c.At(sl) == leg && leg != NoRef
      modifies this`traces
      ensures Local(c) && Became(c, M.DtmfLeg(old(Cx(c)), sl, key))
    {
      hide DigestOf, Advance;
      var fault := Check(leg.Base().ops.dtmf, leg);
      if fault.Some? {
        Emit(c, Crash(fault.value));
      } else if leg.SipRef? {
        Emit(c, TxInfo(leg.sip.handle, key));
      } else {
        Emit(c, Crash(WrongLegType));
      }
    }

    method RelayKey(c: Call, ghost sl: Slot, leg: LegRef, key: int)
      requires Local(c) && c.At(sl) == leg
      modifies this`traces
      ensures Local(c) && Became(c, M.RelayKey(old(Cx(c)), sl, key))
    {
      hide DigestOf, Advance, M.DtmfLeg;
      if leg != NoRef && leg.Base().ops.dtmf != Unset {
        DtmfLeg(c, sl, leg, key);
      }
    }

    method AnswerKey(c: Call, callref: nat, answer: KeypadAnswer, key: int)
      requires Local(c)
      modifies this`traces
      ensures Local(c) && Became(c, M.AnswerKey(old(Cx(c)), callref, answer, key))
    {
      hide DigestOf, Advance;
      Emit(c, TxKeypad(answer, callref, key));
    }

    method CheckDtmfStart(c: Call, ghost sl: Slot, leg: MnccLeg, key: int, sdp: string)
      requires Local(c) && c.At(sl) == MnccRef(leg)
      modifies this`traces, leg
      ensures Local(c) && Settled(c) && Became(c, M.OnStartDtmf(old(Cx(c)), sl, key, sdp))
    {
      hide DigestOf, Advance, Without, M.Hear, M.RelayKey, M.AnswerKey;
      HearMncc(c, sl, leg, sdp);
      RelayAndAnswer(c, sl.Other(), c.Other(MnccRef(leg)), leg.callref, key);
    }

    method RelayAndAnswer(c: Call, ghost sl: Slot, leg: LegRef, callref: nat, key: int)
      requires Local(c) && c.At(sl) == leg
      modifies this`traces
      ensures Local(c) && Became(c, M.AnswerKey(M.RelayKey(old(Cx(c)), sl, key), callref, StartDtmfRsp, key))
    {
      hide DigestOf, Advance, M.RelayKey, M.AnswerKey;
      RelayKey(c, sl, leg, key);
      AnswerKey(c, callref, StartDtmfRsp, key);
    }

    method CheckDtmfStop(c: Call, ghost sl: Slot, leg: MnccLeg, key: int, sdp: string)
      requires Local(c) && c.At(sl) == MnccRef(leg)
      modifies this`traces, leg
      ensures Local(c) && Settled(c) && Became(c, M.OnStopDtmf(old(Cx(c)), sl, key, sdp))
    {
      hide DigestOf, Advance, M.Hear, M.AnswerKey;
      HearMncc(c, sl, leg, sdp);
      AnswerKey(c, leg.callref, StopDtmfRsp, key);
    }

    method Dial(c: Call, handle: Handle, body: Body)
      requires Local(c)
      modifies this`traces
      ensures Local(c) && Became(c, M.Send(M.Send(old(Cx(c)), Bind(handle)), TxInvite(handle, body)))
    {
      hide DigestOf, Advance;
      Emit(c, Bind(handle));
      Emit(c, TxInvite(handle, body));
    }

    // A remote SIP leg with its callbacks and handle, and the body of its INVITE.
    method NewRemote(c: Call, handle: Handle) returns (leg: SipLeg, body: Body)
      requires c.initial != NoRef
      ensures fresh(leg) && leg.call == c && body == M.BodyFor(c.initial.Base(), SendRecv)
      ensures leg.View() == M.CodecFor(SLeg(NEW_BASE.(ops := SIP_MT_OPS), SInitial, MT, handle, None), c.initial.Base())
    {
      leg := new SipLeg(c, MT);
      leg.base := leg.base.(ops := SIP_MT_OPS);
      leg.handle := handle;
      body := CreateFile(leg, c.initial, SendRecv);
    }

    // sip_create_remote_leg and send_invite
    method InviteRemote(c: Call, handle: Handle)
      requires Local(c) && c.initial.MnccRef? && handle != NULL_HANDLE
      modifies this`traces, this`bound, this`repr, c
      ensures Local(c) && Extended(c, handle) && Became(c, M.RouteToSip(old(Cx(c)), handle, conn == Ready))
    {
      hide DigestOf, Advance, M.Send, M.BodyFor, M.ReleaseLeg;
      var leg, body := NewRemote(c, handle);
      bound := bound[handle := leg];
      Dial(c, handle, body);
      c.remote := SipRef(leg);
      repr := repr + {leg};
    }

    method RouteToSip(c: Call, leg: MnccLeg, handle: Handle)
      requires Local(c) && c.initial == MnccRef(leg) && Found(leg)
      modifies this`calls, this`traces, this`bound, this`repr, c, leg
      ensures Local(c) && (Settled(c) || Extended(c, handle))
              && Became(c, M.RouteToSip(old(Cx(c)), handle, conn == Ready))
    {
      hide DigestOf, Advance, M.ReleaseLeg;
      if handle == NULL_HANDLE {
        ReleaseLeg(c, Initial, c.initial);
      } else {
        InviteRemote(c, handle);
      }
    }

    method Proceed(c: Call, ghost sl: Slot, leg: MnccLeg)
      requires Local(c) && c.At(sl) == MnccRef(leg)
      modifies this`traces, leg
      ensures Local(c) && Became(c, M.Proceed(old(Cx(c)), sl))
    {
      hide DigestOf, Advance;
      Emit(c, TxSignal(CallProcReq, leg.callref));
      leg.state := MProceeding;
    }

    method ContinueMo(c: Call, leg: MnccLeg, handle: Handle)
      requires Local(c) && c.initial == MnccRef(leg) && Found(leg)
      modifies this`calls, this`traces, this`bound, this`repr, c, leg
      ensures Local(c) && (Settled(c) || Extended(c, handle))
      ensures Became(c, M.ContinueMo(old(Cx(c)), Initial, handle, conn == Ready))
    {
      hide DigestOf, Found, Advance, Without, M.Proceed, M.RouteToSip;
      Proceed(c, Initial, leg);
      RouteToSip(c, leg, handle);
    }

    method ContinueMt(c: Call, ghost sl: Slot, leg: MnccLeg)
      requires Local(c) && c.At(sl) == MnccRef(leg)
      modifies c.LegObjects()
      ensures Local(c) && Settled(c) && Became(c, M.ContinueMt(old(Cx(c)), sl))
    {
      var other := c.Other(MnccRef(leg));
      if other != NoRef {
        other.SetBase(other.Base().(payloadType := leg.base.payloadType));
      }
    }

    method TakeMedia(c: Call, ghost sl: Slot, leg: MnccLeg, msg: M.MnccMsg)
      requires Local(c) && c.At(sl) == MnccRef(leg) && msg.RtpCreate?
      modifies this`traces, leg
      ensures Local(c) && Became(c, M.TakeMedia(old(Cx(c)), sl, msg))
    {
      hide DigestOf, Advance;
      leg.base := leg.base.(addr := msg.addr, payloadType := msg.payloadType, payloadMsgType := msg.payloadMsgType);
      HearMncc(c, sl, leg, msg.sdp);
      leg.StopTimer(RtpCreateRsp);
    }

    method CheckRtpCreate(c: Call, ghost sl: Slot, leg: MnccLeg, msg: M.MnccMsg)
      requires Local(c) && c.At(sl) == MnccRef(leg) && Found(leg) && msg.RtpCreate?
      requires leg.dir == MO ==> sl == Initial
      modifies this`calls, this`traces, this`bound, this`repr, c, c.LegObjects()
      ensures Local(c) && (Settled(c) || (leg.dir == MO && Extended(c, msg.handle)))
      ensures Became(c, M.OnRtpCreate(old(Cx(c)), sl, msg, conn == Ready))
    {
      hide DigestOf, Found, Advance, M.TakeMedia, M.ContinueMo, M.ContinueMt;
      TakeMedia(c, sl, leg, msg);
      if leg.dir == MO {
        ContinueMo(c, leg, msg.handle);
      } else {
        ContinueMt(c, sl, leg);
      }
    }

    // mncc_data, once the leg is found
    method TakeMessage(c: Call, ghost sl: Slot, leg: MnccLeg, msg: M.MnccMsg)
      requires Local(c) && c.At(sl) == MnccRef(leg) && Found(leg)
      requires leg.dir == MO ==> sl == Initial
      modifies this`calls, this`traces, this`bound, this`repr, c, c.LegObjects()
      ensures Local(c) && (Settled(c) || (msg.RtpCreate? && leg.dir == MO && Extended(c, msg.handle)))
      ensures Became(c, M.OnMncc(old(Cx(c)), sl, msg, conn == Ready))
    {
      hide DigestOf, Found, Advance, M.OnRtpCreate, M.OnRtpConnect, M.OnDiscInd, M.OnRelInd, M.OnRejInd,
        M.OnSetupComplInd, M.OnSetupCnf, M.OnCallConfInd, M.OnAlertInd, M.OnHoldInd, M.OnRetrieveInd, M.OnStartDtmf,
        M.OnStopDtmf, M.Free;
      match msg
      case RtpCreate(_, _, _, _, _) => CheckRtpCreate(c, sl, leg, msg);
      case RtpConnect(_, _, _) => CheckRtpConnect(c, sl, leg, msg);
      case DiscInd(cause, _) => CheckDiscInd(c, sl, leg, cause);
      case RelIndMsg(cause, _) => CheckRelInd(c, sl, leg, cause);
      case RejInd(cause, _) => CheckRejInd(c, sl, leg, cause);
      case RelCnfMsg(_) => CheckRelCnf(c, sl, leg);
      case SetupComplIndMsg(sdp) => CheckSetupComplInd(c, sl, leg, sdp);
      case SetupCnf(sdp) => CheckSetupCnf(c, sl, leg, sdp);
      case CallConfInd(sdp) => OpenRtp(c, sl, leg, sdp);
      case AlertInd(sdp) => CheckAlertInd(c, sl, leg, sdp);
      case HoldInd(_) => CheckHoldInd(c, sl, leg);
      case RetrieveInd(_) => CheckRetrieveInd(c, sl, leg);
      case StartDtmf(key, sdp) => CheckDtmfStart(c, sl, leg, key, sdp);
      case StopDtmf(key, sdp) => CheckDtmfStop(c, sl, leg, key, sdp);
    }

    // The body of the loop of app_mncc_disconnected.
    method ReleaseAll(c: Call)
      requires Local(c) && !c.Empty() && conn != Ready
      modifies this`calls, this`traces, this`bound, c, c.LegObjects()
      ensures Local(c) && Settled(c) && Became(c, M.OnDisconnect(old(Cx(c))))
    {
      hide DigestOf, Advance, Without, M.ReleaseLeg;
      var initial, remote := c.initial, c.remote;
      if initial != NoRef {
        ReleaseLeg(c, Initial, initial);
      }
      if remote != NoRef {
        ReleaseLeg(c, Remote, remote);
      }
    }

    // ---------------------------------------------------------------- SIP events

    method CallProgress(c: Call, ghost sl: Slot, leg: SipLeg, payload: Payload)
      requires Local(c) && c.At(sl) == SipRef(leg)
      modifies this`traces, c.LegObjects()
      ensures Local(c) && Settled(c) && Became(c, M.OnProgress(old(Cx(c)), sl, payload))
    {
      hide DigestOf, Advance, Pick, M.RingLeg;
      var other := c.Other(SipRef(leg));
      if other != NoRef {
        var _ := leg.ExtractSdp(payload, false);
        RingLeg(c, sl.Other(), other);
      }
    }

    method AcceptAnswer(c: Call, ghost sl: Slot, leg: SipLeg, other: LegRef)
      requires Local(c) && c.At(sl) == SipRef(leg) && other == c.At(sl.Other()) && other != NoRef
      modifies this`calls, this`traces, this`bound, c, c.LegObjects()
      ensures Local(c) && Settled(c) && Became(c, M.AcceptAnswer(old(Cx(c)), sl))
    {
      hide DigestOf, Advance, Without, M.ConnectLeg;
      leg.state := SConnected;
      ConnectLeg(c, sl.Other(), other);
      Emit(c, TxAck(leg.handle));
    }

    method RefuseAnswer(c: Call, ghost sl: Slot, leg: SipLeg, other: LegRef)
      requires Local(c) && c.At(sl) == SipRef(leg) && other == c.At(sl.Other()) && other != NoRef
      requires other.MnccRef? ==> Found(other.mncc)
      modifies this`calls, this`traces, this`bound, c, c.LegObjects()
      ensures Local(c) && Settled(c) && Became(c, M.RefuseAnswer(old(Cx(c)), sl, conn == Ready))
    {
      hide DigestOf, Advance, M.ReleaseLeg;
      Emit(c, TxCancel(leg.handle));
      ReleaseLeg(c, sl.Other(), other);
    }

    method CallConnect(c: Call, ghost sl: Slot, leg: SipLeg, payload: Payload)
      requires Local(c) && c.At(sl) == SipRef(leg) && (c.At(sl.Other()).MnccRef? ==> Found(c.At(sl.Other()).mncc))
      modifies this`calls, this`traces, this`bound, c, c.LegObjects()
      ensures Local(c) && Settled(c) && Became(c, M.OnAccept(old(Cx(c)), sl, payload, conn == Ready))
    {
      hide DigestOf, Found, Advance, Pick, M.AcceptAnswer, M.RefuseAnswer;
      var other := c.Other(SipRef(leg));
      if other == NoRef {
        Emit(c, TxCancel(leg.handle));
        return;
      }
      var ok := leg.ExtractSdp(payload, false);
      if ok {
        AcceptAnswer(c, sl, leg, other);
      } else {
        RefuseAnswer(c, sl, leg, other);
      }
    }

    method CancelSip(c: Call, ghost sl: Slot, leg: SipLeg)
      requires Local(c) && c.At(sl) == SipRef(leg)
      modifies this`calls, this`traces, this`bound, c
      ensures Local(c) && Settled(c) && Spares(c, sl) && c.At(sl) == NoRef
      ensures Became(c, M.DropSip(M.Send(old(Cx(c)), TxCancel(leg.handle)), sl))
    {
      hide DigestOf, Advance, M.DropSip;
      Emit(c, TxCancel(leg.handle));
      EndSip(c, sl, leg);
    }

    method InviteFailed(c: Call, ghost sl: Slot, leg: SipLeg, status: int)
      requires Local(c) && c.At(sl) == SipRef(leg) && (c.At(sl.Other()).MnccRef? ==> Found(c.At(sl.Other()).mncc))
      modifies this`calls, this`traces, this`bound, c, c.LegObjects()
      ensures Local(c) && Settled(c)
      ensures Became(c, M.ReleaseWithCause(M.DropSip(M.Send(old(Cx(c)), TxCancel(old(leg.handle))), sl),
                                           sl.Other(), CauseMap.StatusToCause(status), conn == Ready))
    {
      hide DigestOf, Advance, Without, M.DropSip, M.Send, M.ReleaseLeg, CauseMap.StatusToCause;
      var other := c.Other(SipRef(leg));
      CancelSip(c, sl, leg);
      if other != NoRef {
        var cause := CauseMap.Status2Cause(status);
        ReleaseWithCause(c, sl.Other(), other, cause);
      }
    }

    // The first response of any kind confirms the dialogue.
    method ConfirmDialogue(c: Call, ghost sl: Slot, leg: SipLeg, sdp: string)
      requires Local(c) && c.At(sl) == SipRef(leg)
      modifies this`traces, leg
      ensures Local(c) && Settled(c) && Became(c, M.Confirm(old(Cx(c)), sl, sdp))
    {
      hide DigestOf, Advance;
      HearSip(c, sl, leg, sdp);
      if leg.state == SInitial {
        leg.state := SConfirmed;
      }
    }

    method TakeStatus(c: Call, ghost sl: Slot, leg: SipLeg, status: int, payload: Payload)
      requires Local(c) && c.At(sl) == SipRef(leg) && (c.At(sl.Other()).MnccRef? ==> Found(c.At(sl.Other()).mncc))
      modifies this`calls, this`traces, this`bound, c, c.LegObjects()
      ensures Local(c) && Settled(c) && Became(c, M.OnStatus(old(Cx(c)), sl, status, payload, conn == Ready))
    {
      hide DigestOf, Found, Advance, M.OnProgress, M.OnAccept, M.DropSip, M.Send, M.ReleaseWithCause,
        CauseMap.StatusToCause;
      if status == 180 || status == 183 {
        CallProgress(c, sl, leg, payload);
      } else if status == 200 {
        if leg.state == SConnected || leg.state == SHold {
          Transmit(c, TxAck(leg.handle));
        } else {
          CallConnect(c, sl, leg, payload);
        }
      } else if status >= 300 {
        InviteFailed(c, sl, leg, status);
      }
    }

    method InviteResponse(c: Call, ghost sl: Slot, leg: SipLeg, status: int, payload: Payload)
      requires Local(c) && c.At(sl) == SipRef(leg) && (c.At(sl.Other()).MnccRef? ==> Found(c.At(sl.Other()).mncc))
      modifies this`calls, this`traces, this`bound, c, c.LegObjects()
      ensures Local(c) && Settled(c) && Became(c, M.OnInviteResponse(old(Cx(c)), sl, status, payload, conn == Ready))
    {
      hide DigestOf, Found, Advance, Without, M.Confirm, M.OnStatus;
      ConfirmDialogue(c, sl, leg, Text(payload));
      TakeStatus(c, sl, leg, status, payload);
    }

    method UpdateRtp(c: Call, ghost sl: Slot, leg: LegRef)
      requires Local(c) && c.At(sl) == leg && leg != NoRef
      requires leg.MnccRef? && c.At(sl.Other()) == NoRef && conn == Ready ==> Found(leg.mncc)
      modifies this`calls, this`traces, this`bound, c, leg.Objects()
      ensures Local(c) && Settled(c) && Became(c, M.UpdateRtp(old(Cx(c)), sl, conn == Ready))
      ensures old(c.At(sl.Other())) != NoRef ==> c.initial == old(c.initial) && c.remote == old(c.remote)
    {
      hide DigestOf, Advance, M.SendRtpConnect, M.ReleaseLeg;
      var other := c.Other(leg);
      if other == NoRef {
        ReleaseLeg(c, sl, leg);
      } else if leg.MnccRef? {
        SendRtpConnect(c, sl, leg.mncc, other);
      } else {
        SendRtpConnect(c, sl.Other(), other.mncc, leg);
      }
    }

    method RefuseOffer(c: Call, ghost sl: Slot, leg: SipLeg)
      requires Local(c) && c.At(sl) == SipRef(leg)
      modifies this`calls, this`traces, this`bound, c
      ensures Local(c) && Settled(c)
      ensures Became(c, M.DropSip(M.Send(old(Cx(c)), TxReject(leg.handle, 406, None)), sl))
    {
      hide DigestOf, Advance, M.DropSip;
      Emit(c, TxReject(leg.handle, 406, None));
      EndSip(c, sl, leg);
    }

    // Tell the MSC where the media moved to, and answer.
    method Resettle(c: Call, ghost sl: Slot, leg: SipLeg, other: LegRef, moved: bool)
      requires Local(c) && c.At(sl) == SipRef(leg) && other == c.At(sl.Other()) && other != NoRef
      modifies this`calls, this`traces, this`bound, c, c.LegObjects()
      ensures Local(c) && Settled(c) && Became(c, M.Resettle(old(Cx(c)), sl, moved, conn == Ready))
    {
      hide DigestOf, Advance, Without, M.UpdateRtp, M.Answer;
      if moved {
        UpdateRtp(c, Remote, c.remote);
      }
      Answer(c, sl, leg, other, SendRecv);
    }

    method Renegotiate(c: Call, ghost sl: Slot, leg: SipLeg, other: LegRef, payload: Payload)
      requires Local(c) && c.At(sl) == SipRef(leg) && other == c.At(sl.Other()) && other != NoRef
      modifies this`calls, this`traces, this`bound, c, c.LegObjects()
      ensures Local(c) && Settled(c) && Became(c, M.Renegotiate(old(Cx(c)), sl, payload, conn == Ready))
    {
      hide DigestOf, Advance, Without, Pick, M.DropSip, M.Resettle, M.Send;
      var previous := leg.base.addr;
      var ok := leg.ExtractSdp(payload, true);
      if ok {
        Resettle(c, sl, leg, other, previous != leg.base.addr && other.Base().ops.updateRtp != Unset);
      } else {
        RefuseOffer(c, sl, leg);
      }
    }

    method HandleReinvite(c: Call, ghost sl: Slot, leg: SipLeg, payload: Payload)
      requires Local(c) && c.At(sl) == SipRef(leg)
      modifies this`calls, this`traces, this`bound, c, c.LegObjects()
      ensures Local(c) && Settled(c) && Became(c, M.OnReinvite(old(Cx(c)), sl, payload, conn == Ready))
    {
      hide DigestOf, Advance, Without, MediaMode, M.Hear, M.SipRelease, M.Answer, M.OnMode;
      var other := c.Other(SipRef(leg));
      if other == NoRef {
        SipRelease(c, sl, leg);
        return;
      }
      var mode := MediaMode(payload);
      if mode == None {
        Answer(c, sl, leg, other, SendRecv);
        return;
      }
      HearOffer(c, sl, leg, other, mode.value, payload);
    }

    method HearOffer(c: Call, ghost sl: Slot, leg: SipLeg, other: LegRef, mode: Mode, payload: Payload)
      requires Local(c) && c.At(sl) == SipRef(leg) && other == c.At(sl.Other()) && other != NoRef
      modifies this`calls, this`traces, this`bound, c, c.LegObjects()
      ensures Local(c) && Settled(c)
      ensures Became(c, M.OnMode(M.Hear(old(Cx(c)), sl, Text(payload)), sl, mode, payload, conn == Ready))
    {
      hide DigestOf, Advance, Without, M.Hear, M.OnMode;
      HearSip(c, sl, leg, Text(payload));
      TakeMode(c, sl, leg, other, mode, payload);
    }

    method TakeMode(c: Call, ghost sl: Slot, leg: SipLeg, other: LegRef, mode: Mode, payload: Payload)
      requires Local(c) && c.At(sl) == SipRef(leg) && other == c.At(sl.Other()) && other != NoRef
      modifies this`calls, this`traces, this`bound, c, c.LegObjects()
      ensures Local(c) && Settled(c) && Became(c, M.OnMode(old(Cx(c)), sl, mode, payload, conn == Ready))
    {
      hide DigestOf, Advance, Without, M.Answer, M.Renegotiate;
      if mode == SendOnly {
        Answer(c, sl, leg, other, RecvOnly);
      } else {
        Renegotiate(c, sl, leg, other, payload);
      }
    }

    method HungUp(c: Call, ghost sl: Slot, leg: SipLeg)
      requires Local(c) && c.At(sl) == SipRef(leg) && (c.At(sl.Other()).MnccRef? ==> Found(c.At(sl.Other()).mncc))
      modifies this`calls, this`traces, this`bound, c, c.LegObjects()
      ensures Local(c) && Settled(c) && Became(c, M.ReleaseIfAny(M.DropSip(old(Cx(c)), sl), sl.Other(), conn == Ready))
    {
      hide DigestOf, Advance, M.DropSip, M.ReleaseLeg;
      var other := c.Other(SipRef(leg));
      EndSip(c, sl, leg);
      if other != NoRef {
        ReleaseLeg(c, sl.Other(), other);
      }
    }

    method Reoffer(c: Call, ghost sl: Slot, leg: SipLeg, payload: Payload)
      requires Local(c) && c.At(sl) == SipRef(leg)
      modifies this`calls, this`traces, this`bound, c, c.LegObjects()
      ensures Local(c) && Settled(c)
              && Became(c, M.OnReinvite(M.Hear(old(Cx(c)), sl, Text(payload)), sl, payload, conn == Ready))
    {
      hide DigestOf, Advance, M.Hear, M.OnReinvite;
      HearSip(c, sl, leg, Text(payload));
      HandleReinvite(c, sl, leg, payload);
    }

    // nua_callback, once the leg is found
    method TakeEvent(c: Call, ghost sl: Slot, leg: SipLeg, ev: M.SipEvent)
      requires Local(c) && c.At(sl) == SipRef(leg) && (c.At(sl.Other()).MnccRef? ==> Found(c.At(sl.Other()).mncc))
      modifies this`calls, this`traces, this`bound, c, c.LegObjects()
      ensures Local(c) && Settled(c) && Became(c, M.OnSip(old(Cx(c)), sl, ev, conn == Ready))
    {
      hide DigestOf, Found, Advance, M.OnInviteResponse, M.DropSip, M.ReleaseIfAny, M.OnReinvite, M.Hear;
      match ev
      case InviteResponse(status, payload) => InviteResponse(c, sl, leg, status, payload);
      case ByeResponse => EndSip(c, sl, leg);
      case CancelResponse => EndSip(c, sl, leg);
      case GotBye => HungUp(c, sl, leg);
      case GotCancel => HungUp(c, sl, leg);
      case GotAck(payload) =>
        if !payload.NoPayload? {
          Reoffer(c, sl, leg, payload);
        }
      case GotReinvite(payload) => Reoffer(c, sl, leg, payload);
    }

    // ---------------------------------------------------------------- new calls

    method Decline(c: Call, handle: Handle)
      requires Local(c)
      modifies this`traces
      ensures Local(c) && Became(c, M.Decline(old(Cx(c)), handle))
    {
      hide DigestOf, Advance;
      Emit(c, TxReject(handle, 406, None));
      Emit(c, Destroy(handle));
    }

    method Adopt(c: Call, leg: SipLeg, handle: Handle, sdp: string)
      requires Local(c) && c.initial == SipRef(leg)
      modifies this`traces, this`bound, leg
      ensures Local(c) && bound == old(bound)[handle := leg] && leg.handle == handle
      ensures Became(c, M.Adopt(old(Cx(c)), handle, sdp))
    {
      hide DigestOf, Advance, M.Hear;
      leg.base := leg.base.(ops := SIP_MO_OPS);
      leg.handle := handle;
      bound := bound[handle := leg];
      Emit(c, Bind(handle));
      HearSip(c, Initial, leg, sdp);
    }

    // new_call, once the call exists and its header checks passed
    method Admit(c: Call, leg: SipLeg, handle: Handle, payload: Payload) returns (ok: bool)
      requires Local(c) && c.initial == SipRef(leg) && c.remote == NoRef
      modifies this`calls, this`traces, this`bound, c, leg
      ensures Local(c) && Became(c, M.Admit(old(Cx(c)), handle, payload))
      ensures ok == !M.Admit(old(Cx(c)), handle, payload).call.Gone()
      ensures if ok then c.initial == SipRef(leg) && c.remote == NoRef && calls == old(calls) && leg.handle == handle
                         && bound == old(bound)[handle := leg]
              else c.Empty() && calls == Without(old(calls), c) && bound == old(bound)
    {
      hide DigestOf, Advance, Pick, M.Adopt, M.Decline;
      leg.state := SConfirmed;
      ok := leg.ExtractSdp(payload, true);
      if ok {
        Adopt(c, leg, handle, Text(payload));
      } else {
        Decline(c, handle);
        CallLegRelease(c, SipRef(leg));
      }
    }

    // mncc_create_remote_leg up to the outcome of the write: without it, the new leg is not attached
    method CreateRemoteMncc(c: Call, leg: SipLeg, writable: bool) returns (ok: bool)
      requires Local(c) && c.initial == SipRef(leg) && c.remote == NoRef
      modifies this`traces, this`repr, c, leg
      ensures ok == writable && Local(c)
      ensures if ok then Joined(c) && Became(c, M.RouteToMncc(old(Cx(c))))
              else Settled(c) && Became(c, M.Offered(old(Cx(c))))
    {
      hide DigestOf, Advance;
      var remote := new MnccLeg(c, MT, c.id);
      var sdp := if leg.base.rxChanged then leg.base.rxSdp else "";
      leg.base := leg.base.(rxChanged := false);
      if !writable {
        return false;
      }
      Emit(c, TxSetupReq(c.id, sdp));
      c.remote := MnccRef(remote);
      repr := repr + {remote};
      ok := true;
    }
  }
}
