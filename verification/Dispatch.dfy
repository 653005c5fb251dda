/** The process as a whole: the events find their leg by a scan or by the binding of its
    handle, run its handler, and the heap of calls and legs follows the state machine. */
module Dispatch {
  import opened Domain
  import opened Sdp
  import opened Trace
  import opened Legs
  import opened Connector
  import M = CallMachine
  import B = Bridge
  import opened CallInvariant
  import opened CallList
  import opened Lifecycle

  // ---------------------------------------------------------------- the heap as a state

  ghost function Views(calls: seq<Call>): (r: seq<CallV>)
    reads calls, set c, o | c in calls && o in c.LegObjects() :: o
    ensures |r| == |calls|
    ensures forall i | 0 <= i < |calls| :: r[i] == calls[i].View()
  {
    if calls == [] then [] else [calls[0].View()] + Views(calls[1..])
  }

  ghost function View(p: Process): (s: B.State)
    reads p, p.calls, set c, o | c in p.calls && o in c.LegObjects() :: o
    ensures |s.calls| == |p.calls|
  {
    B.State(Views(p.calls), p.traces, p.lastId, p.conn, p.fdOpen, p.reconnect)
  }

  // A SIP leg with a handle is the one bound to it.
  ghost predicate BoundLeg(p: Process, leg: LegRef)
    reads p`bound, leg.Objects()
  {
    leg.SipRef? && leg.sip.handle != NULL_HANDLE ==> leg.sip.handle in p.bound && p.bound[leg.sip.handle] == leg.sip
  }

  ghost predicate CallValid(p: Process, c: Call)
    reads p`traces, p`bound, p`repr, c, c.LegObjects()
  {
    c in p.repr && c.LegObjects() <= p.repr && c.Owns() && !c.Empty() && c.id in p.traces && BoundLeg(p, c.initial)
      && BoundLeg(p, c.remote)
  }

  ghost predicate Distinct(calls: seq<Call>) {
    forall i, j | 0 <= i < j < |calls| :: calls[i] != calls[j]
  }

  ghost predicate Bijective(p: Process)
    reads p`calls, p`bound, p.calls, p.bound.Values, set c, o | c in p.calls && o in c.LegObjects() :: o
  {
    forall h | h in p.bound ::
      var leg := p.bound[h];
      leg.call in p.calls && SipRef(leg) in {leg.call.initial, leg.call.remote} && h != NULL_HANDLE && leg.handle == h
  }

  ghost predicate Valid(p: Process)
    reads p`calls, p`bound, p`traces, p`repr, p.calls, p.bound.Values, set c, o | c in p.calls
          && o in c.LegObjects() :: o
  {
    Distinct(p.calls) && (forall c | c in p.calls :: CallValid(p, c)) && Bijective(p)
  }

  lemma {:induction false} WithoutAt(calls: seq<Call>, i: nat)
    requires i < |calls| && Distinct(calls)
    ensures Without(calls, calls[i]) == calls[..i] + calls[i + 1..]
  {
    if i == 0 {
      WithoutAbsent(calls[1..], calls[0]);
    } else {
      WithoutAt(calls[1..], i - 1);
      assert calls == [calls[0]] + calls[1..];
    }
  }

  lemma {:induction false} WithoutAbsent(calls: seq<Call>, c: Call)
    requires c !in calls
    ensures Without(calls, c) == calls
  {
    if calls != [] {
      WithoutAbsent(calls[1..], c);
    }
  }

  lemma WithoutHead(calls: seq<Call>)
    requires calls != [] && calls[0] !in calls[1..]
    ensures Without(calls, calls[0]) == calls[1..]
  {
    WithoutAbsent(calls[1..], calls[0]);
  }

  // Call c, number i of the list of p, becomes x.
  datatype Change = Change(p: Process, c: Call, i: nat, x: Ctx)

  // Nothing but the call changed.
  twostate predicate Alone(k: Change)
    reads *
  {
    && k.i < |old(k.p.calls)| && old(k.p.calls)[k.i] == k.c && Distinct(old(k.p.calls))
    && k.p.lastId == old(k.p.lastId) && k.p.conn == old(k.p.conn)
    && k.p.fdOpen == old(k.p.fdOpen) && k.p.reconnect == old(k.p.reconnect)
    && forall d | d in old(k.p.calls) && d != k.c ::
         d.initial == old(d.initial) && d.remote == old(d.remote) && d.View() == old(d.View())
  }

  // The handler of the call did its work; the handle of a leg that the call gains is new.
  twostate predicate Reaches(k: Change)
    reads *
  {
    && Alone(k) && k.p.Local(k.c) && k.p.Became(k.c, k.x)
    && (k.p.Settled(k.c) || k.p.Joined(k.c)
        || (old(k.c.remote) == NoRef && exists h | h !in old(k.p.bound) :: k.p.Extended(k.c, h)))
  }

  twostate lemma OthersStayValid(k: Change)
    requires old(Valid(k.p)) && Reaches(k)
    ensures forall d | d in old(k.p.calls) && d != k.c :: CallValid(k.p, d)
  {
    assert old(CallValid(k.p, k.c));
    forall d | d in old(k.p.calls) && d != k.c ensures CallValid(k.p, d) {
      assert old(CallValid(k.p, d));
    }
  }

  twostate lemma CallStaysValid(k: Change)
    requires old(Valid(k.p)) && Reaches(k) && !k.c.Empty()
    ensures CallValid(k.p, k.c)
  {
    assert old(CallValid(k.p, k.c));
  }

  twostate lemma ListFollows(k: Change)
    requires Reaches(k)
    ensures Distinct(k.p.calls) && fresh(k.p.repr - old(k.p.repr))
    ensures forall d :: d in k.p.calls <==> d in old(k.p.calls) && (d == k.c ==> !k.c.Empty())
  {
    if k.c.Empty() {
      WithoutAt(old(k.p.calls), k.i);
    }
  }

  twostate lemma BindingStaysBijective(k: Change)
    requires old(Valid(k.p)) && Reaches(k)
    ensures Bijective(k.p)
  {
    ListFollows(k);
    assert old(CallValid(k.p, k.c));
    forall h | h in k.p.bound
      ensures var leg := k.p.bound[h];
              leg.call in k.p.calls && SipRef(leg) in {leg.call.initial, leg.call.remote} && h != NULL_HANDLE
                && leg.handle == h
    {
      if h in old(k.p.bound) && old(k.p.bound)[h].call != k.c {
        assert old(CallValid(k.p, k.p.bound[h].call));
      }
    }
  }

  twostate lemma ListKeeps(k: Change)
    requires Reaches(k) && !k.c.Empty()
    ensures Views(k.p.calls) == old(Views(k.p.calls))[k.i := k.x.call]
  {
    forall j | 0 <= j < |k.p.calls| ensures Views(k.p.calls)[j] == old(Views(k.p.calls))[k.i := k.x.call][j] {
      assert j != k.i ==> k.p.calls[j] != k.c;
    }
  }

  lemma WithoutOne<T>(rest: seq<T>, all: seq<T>, i: nat)
    requires i < |all| && |rest| == |all| - 1
    requires forall j | 0 <= j < |rest| :: rest[j] == all[if j < i then j else j + 1]
    ensures rest == all[..i] + all[i + 1..]
  {
  }

  twostate lemma ListLoses(k: Change)
    requires Alone(k) && k.p.calls == Without(old(k.p.calls), k.c)
    ensures Views(k.p.calls) == old(Views(k.p.calls))[..k.i] + old(Views(k.p.calls))[k.i + 1..]
  {
    hide Views, Without;
    WithoutAt(old(k.p.calls), k.i);
    forall j | 0 <= j < |k.p.calls| ensures Views(k.p.calls)[j] == old(Views(k.p.calls))[if j < k.i then j else j + 1] {
      var o := if j < k.i then j else j + 1;
      assert k.p.calls[j] == old(k.p.calls)[o] && old(k.p.calls)[o] != k.c;
    }
    WithoutOne(Views(k.p.calls), old(Views(k.p.calls)), k.i);
  }

  twostate lemma ViewFollows(k: Change)
    requires Reaches(k)
    ensures View(k.p) == B.Act(old(View(k.p)), k.i, k.x)
  {
    assert k.x.call.Gone() <==> k.c.Empty();
    if k.c.Empty() {
      ListLoses(k);
    } else {
      ListKeeps(k);
    }
  }

  // What a handler did to its call is one step of the state machine.
  twostate lemma Lift(k: Change)
    requires old(Valid(k.p)) && Reaches(k)
    ensures Valid(k.p) && fresh(k.p.repr - old(k.p.repr)) && View(k.p) == B.Act(old(View(k.p)), k.i, k.x)
  {
    hide CallValid, Bijective, Reaches, Distinct, B.Act;
    ViewFollows(k);
    BindingStaysBijective(k);
    OthersStayValid(k);
    ListFollows(k);
    if !k.c.Empty() {
      CallStaysValid(k);
    }
  }

  // ---------------------------------------------------------------- what the invariant gives the handlers

  // The process is in good order, and in a state some run leads to.
  ghost predicate Running(p: Process)
    reads p, p.calls, p.bound.Values, set c, o | c in p.calls && o in c.LegObjects() :: o
  {
    Valid(p) && Reachable(View(p))
  }

  lemma NextIsReachable(p: Process, e: B.Event)
    requires Running(p) && Allowed(View(p), e)
    ensures Inv(View(p)) && Reachable(B.Step(View(p), e))
  {
    hide Valid, Inv, Allowed, Reachable, B.Step;
    ReachableInv(View(p));
    StepIsReachable(View(p), e);
  }

  // A scan for an attached MNCC leg's callref finds that leg.
  lemma LegIsFound(p: Process, leg: MnccLeg)
    requires Valid(p) && DistinctRefs(Views(p.calls))
    requires leg.call in p.calls && MnccRef(leg) in {leg.call.initial, leg.call.remote}
    ensures p.Found(leg)
  {
    var i :| 0 <= i < |p.calls| && p.calls[i] == leg.call;
    assert CallValid(p, leg.call);
    assert B.CallHasRef(Views(p.calls)[i], leg.callref);
    forall d | d in p.calls
      ensures d.initial.MnccRef? && d.initial.mncc.callref == leg.callref ==> d.initial.mncc == leg
      ensures d.remote.MnccRef? && d.remote.mncc.callref == leg.callref ==> d.remote.mncc == leg
    {
      var j :| 0 <= j < |p.calls| && p.calls[j] == d;
      assert CallValid(p, d);
      if B.CallHasRef(Views(p.calls)[j], leg.callref) {
        assert i == j;
      }
    }
  }

  // The leg of a call that the MSC started is in the initial slot; while the call waits for its RTP
  // socket it has no SIP leg.
  lemma RoutesOnce(x: Ctx, sl: Slot)
    requires CallInv(x) && x.Get(sl).Mncc? && x.Get(sl).m.dir == MO
    ensures sl == Initial && (AwaitsRtp(x.Get(sl).m) ==> x.call.remote.NoLeg?)
  {
    hide DigestOf;
  }

  // A handle the stack hands out is not in use.
  lemma HandleIsUnbound(p: Process, h: Handle)
    requires Valid(p) && TableInv(View(p)) && (h != NULL_HANDLE ==> FreshHandle(View(p), h))
    ensures h !in p.bound
  {
    hide DigestOf, TableInv, Views, FreshHandle;
    if h in p.bound {
      var leg := p.bound[h];
      var i :| 0 <= i < |p.calls| && p.calls[i] == leg.call;
      ListedHandleIsOld(View(p), i, h);
    }
  }

  // ---------------------------------------------------------------- events

  // The calls that were listed are as they were.
  twostate predicate SameCalls(p: Process)
    reads *
  {
    forall d | d in old(p.calls) ::
      d.initial == old(d.initial) && d.remote == old(d.remote) && d.View() == old(d.View())
  }

  // Calls and legs stayed as they were.
  twostate predicate Still(p: Process)
    reads *
  {
    && old(p.repr) <= p.repr && p.calls == old(p.calls) && p.bound == old(p.bound)
       && (forall id | id in old(p.traces) :: id in p.traces)
    && SameCalls(p)
  }

  twostate lemma StillValid(p: Process)
    requires old(Valid(p)) && Still(p)
    ensures Valid(p) && Views(p.calls) == old(Views(p.calls))
  {
    forall c | c in p.calls ensures CallValid(p, c) {
      assert old(CallValid(p, c));
    }
  }

  // Messages on behalf of no call.
  method Note(p: Process, entries: seq<Entry>)
    requires Valid(p)
    modifies p`traces
    ensures Valid(p) && View(p) == B.Note(old(View(p)), entries)
  {
    hide Valid;
    p.traces := p.traces[B.NO_CALL := (if B.NO_CALL in p.traces then p.traces[B.NO_CALL] else []) + entries];
    StillValid(p);
  }

  // Calls share no legs, and all belong to the process.
  lemma LegsApart(p: Process, c: Call)
    requires Valid(p) && c in p.calls
    ensures c in p.repr && c.LegObjects() <= p.repr
    ensures Distinct(p.calls) && p.Local(c) && !c.Empty()
    ensures forall d | d in p.calls && d != c :: d.LegObjects() !! c.LegObjects()
  {
    assert CallValid(p, c);
    forall d | d in p.calls && d != c ensures d.LegObjects() !! c.LegObjects() {
      assert CallValid(p, d);
    }
  }

  // mncc_find_leg agrees with the value model's scan.
  method Scan(p: Process, callref: nat) returns (i: nat, sl: Slot)
    ensures i == B.FindRef(Views(p.calls), callref)
    ensures i < |p.calls| ==> sl == B.RefSlot(Views(p.calls)[i], callref) && p.calls[i].At(sl).MnccRef?
  {
    hide Views, B.FindRef;
    i, sl := p.FindMncc(callref);
    var j := B.FindRef(Views(p.calls), callref);
    assert j < i ==> B.CallHasRef(Views(p.calls)[j], callref);
  }

  // What a message needs of its leg and call.
  lemma MessageIsHandled(p: Process, i: nat, sl: Slot, msg: M.MnccMsg)
    requires Valid(p) && Inv(View(p)) && i < |p.calls| && p.calls[i].At(sl).MnccRef?
    requires MnccAllowed(p.calls[i].At(sl).mncc.View(), msg)
    ensures p.Found(p.calls[i].At(sl).mncc)
    ensures p.calls[i].At(sl).mncc.dir == MO ==> sl == Initial && (msg.RtpCreate? ==> p.calls[i].remote == NoRef)
  {
    hide DigestOf, CallInv;
    var c := p.calls[i];
    assert CallValid(p, c) && CallOk(View(p), View(p).calls[i]);
    LegIsFound(p, c.At(sl).mncc);
    if c.At(sl).mncc.dir == MO {
      RoutesOnce(Ctx(c.View(), p.traces[c.id]), sl);
    }
  }

  method RunMessage(p: Process, ghost i: nat, c: Call, ghost sl: Slot, leg: MnccLeg, msg: M.MnccMsg)
    requires Valid(p) && i < |p.calls| && p.calls[i] == c && c.At(sl) == MnccRef(leg) && p.Found(leg)
    requires leg.dir == MO ==> sl == Initial && (msg.RtpCreate? ==> c.remote == NoRef)
    requires msg.RtpCreate? ==> msg.handle !in p.bound
    requires p.Local(c)
    modifies p, p.repr
    ensures Reaches(Change(p, c, i, M.OnMncc(old(p.Cx(c)), sl, msg, old(p.conn) == Ready)))
  {
    hide Valid, Without, Process.Settled, Process.Joined, Process.Extended, Process.Became, Process.Found, M.OnMncc;
    LegsApart(p, c);
    p.TakeMessage(c, sl, leg, msg);
    if !p.Settled(c) {
      assert p.Extended(c, msg.handle) && msg.handle !in old(p.bound);
    }
  }

  method HandleMessage(p: Process, i: nat, sl: Slot, msg: M.MnccMsg)
    requires Valid(p) && Inv(View(p)) && i < |p.calls| && p.calls[i].At(sl).MnccRef?
    requires MnccAllowed(p.calls[i].At(sl).mncc.View(), msg)
    requires msg.RtpCreate? && msg.handle != NULL_HANDLE ==> FreshHandle(View(p), msg.handle)
    modifies p, p.repr
    ensures Valid(p) && fresh(p.repr - old(p.repr))
    ensures View(p) == B.Act(old(View(p)), i, M.OnMncc(B.At(old(View(p)), i), sl, msg, old(p.conn) == Ready))
  {
    hide Valid, Reaches, TableInv, FreshHandle, M.OnMncc, B.Act;
    MessageIsHandled(p, i, sl, msg);
    if msg.RtpCreate? {
      HandleIsUnbound(p, msg.handle);
    }
    var c := p.calls[i];
    LegsApart(p, c);
    ghost var x := p.Cx(c);
    assert x == B.At(View(p), i);
    RunMessage(p, i, c, sl, c.At(sl).mncc, msg);
    Lift(Change(p, c, i, M.OnMncc(x, sl, msg, old(p.conn) == Ready)));
  }

  // mncc_data
  method TakeMncc(p: Process, callref: nat, msg: M.MnccMsg)
    requires Valid(p) && Inv(View(p)) && Allowed(View(p), B.FromMsc(callref, msg))
    modifies p, p.repr
    ensures Valid(p) && fresh(p.repr - old(p.repr))
    ensures View(p) == B.OnFromMsc(old(View(p)), callref, msg)
  {
    hide Valid, Inv, MnccAllowed, FreshHandle, Views, M.OnMncc, B.Act, B.Note, B.FindRef;
    var i, sl := Scan(p, callref);
    StillValid(p);
    var needsLive := msg.RtpCreate? || msg.RtpConnect?;
    if i == |p.calls| {
      if needsLive {
        Note(p, [TxSignal(RejReq, callref)]);
      }
      return;
    }
    assert p.calls[i].At(sl).mncc.View() == View(p).calls[i].Get(sl).m;
    if needsLive && p.calls[i].At(sl).mncc.base.inRelease {
      Note(p, [TxSignal(RejReq, callref)]);
    } else {
      HandleMessage(p, i, sl, msg);
    }
  }

  // ---------------------------------------------------------------- timer expiry

  method RunTimeout(p: Process, ghost i: nat, c: Call, ghost sl: Slot, leg: MnccLeg)
    requires Valid(p) && i < |p.calls| && p.calls[i] == c && c.At(sl) == MnccRef(leg) && p.Local(c)
    modifies p, p.repr
    ensures Reaches(Change(p, c, i, M.OnTimeout(old(p.Cx(c)), sl, old(p.conn) == Ready)))
  {
    hide Valid, Process.Settled, Process.Became, M.OnTimeout;
    LegsApart(p, c);
    p.CmdTimeout(c, sl, leg);
  }

  // The timer of an attached leg names its call.
  lemma TimerFindsCall(p: Process, i: nat, sl: Slot)
    requires Valid(p) && Inv(View(p)) && i < |p.calls| && p.calls[i].At(sl).MnccRef?
    ensures i == B.FindId(Views(p.calls), p.calls[i].id)
    ensures Views(p.calls)[i].HasMncc() && sl == B.MnccSlot(Views(p.calls)[i])
  {
    hide DigestOf, CallInv;
    assert CallValid(p, p.calls[i]);
    var j := B.FindId(Views(p.calls), p.calls[i].id);
    assert Views(p.calls)[i].id == p.calls[i].id;
  }

  // cmd_timeout
  method TimerExpired(p: Process, leg: MnccLeg)
    requires Valid(p) && Inv(View(p)) && leg.call in p.calls && MnccRef(leg) in {leg.call.initial, leg.call.remote}
    modifies p, p.repr
    ensures Valid(p) && fresh(p.repr - old(p.repr))
    ensures View(p) == B.OnTimer(old(View(p)), leg.call.id)
  {
    hide Valid, Inv, Reaches, Views, M.OnTimeout, B.Act, B.FindId;
    var c := leg.call;
    LegsApart(p, c);
    ghost var i :| 0 <= i < |p.calls| && p.calls[i] == c;
    ghost var sl := if c.initial == MnccRef(leg) then Initial else Remote;
    TimerFindsCall(p, i, sl);
    ghost var x := p.Cx(c);
    assert x == B.At(View(p), i);
    RunTimeout(p, i, c, sl, leg);
    Lift(Change(p, c, i, M.OnTimeout(x, sl, old(p.conn) == Ready)));
  }

  // ---------------------------------------------------------------- SIP events

  // sip_find_leg agrees with the value model's scan.
  method ScanSip(p: Process, handle: Handle) returns (i: nat, sl: Slot)
    ensures i == B.FindHandle(Views(p.calls), handle)
    ensures i < |p.calls| ==> sl == B.HandleSlot(Views(p.calls)[i], handle) && p.calls[i].At(sl).SipRef?
  {
    hide Views, B.FindHandle;
    i, sl := p.FindSip(handle);
    var j := B.FindHandle(Views(p.calls), handle);
    assert j < i ==> B.CallHasHandle(Views(p.calls)[j], handle);
  }

  // The binding of a live handle and the scan for it lead to the same leg.
  lemma BindingAgreesWithScan(p: Process, handle: Handle)
    requires Valid(p) && handle != NULL_HANDLE && B.FindHandle(Views(p.calls), handle) < |p.calls|
    ensures handle in p.bound
    ensures var i := B.FindHandle(Views(p.calls), handle);
            p.calls[i] == p.bound[handle].call
            && p.calls[i].At(B.HandleSlot(Views(p.calls)[i], handle)) == SipRef(p.bound[handle])
  {
    var i := B.FindHandle(Views(p.calls), handle);
    assert CallValid(p, p.calls[i]);
  }

  // An INVITE or ACK looks its leg up, all else relies on the binding.
  method Resolve(p: Process, handle: Handle, ev: M.SipEvent) returns (leg: SipLeg)
    requires Valid(p) && handle != NULL_HANDLE && B.FindHandle(Views(p.calls), handle) < |p.calls|
    ensures handle in p.bound && leg == p.bound[handle]
  {
    hide Valid, Views, B.FindHandle;
    BindingAgreesWithScan(p, handle);
    if ev.GotAck? || ev.GotReinvite? {
      var i, sl := ScanSip(p, handle);
      return p.calls[i].At(sl).sip;
    }
    return p.bound[handle];
  }

  method RunEvent(p: Process, ghost i: nat, c: Call, ghost sl: Slot, leg: SipLeg, ev: M.SipEvent)
    requires Valid(p) && i < |p.calls| && p.calls[i] == c && c.At(sl) == SipRef(leg) && p.Local(c)
    requires c.At(sl.Other()).MnccRef? ==> p.Found(c.At(sl.Other()).mncc)
    modifies p, p.repr
    ensures Reaches(Change(p, c, i, M.OnSip(old(p.Cx(c)), sl, ev, old(p.conn) == Ready)))
  {
    hide Valid, Process.Settled, Process.Became, Process.Found, M.OnSip;
    LegsApart(p, c);
    p.TakeEvent(c, sl, leg, ev);
  }

  method HandleEvent(p: Process, ghost i: nat, ghost sl: Slot, leg: SipLeg, ev: M.SipEvent)
    requires Valid(p) && Inv(View(p)) && i < |p.calls| && p.calls[i] == leg.call && leg.call.At(sl) == SipRef(leg)
    modifies p, p.repr
    ensures Valid(p) && fresh(p.repr - old(p.repr))
    ensures View(p) == B.Act(old(View(p)), i, M.OnSip(B.At(old(View(p)), i), sl, ev, old(p.conn) == Ready))
  {
    hide Valid, Reaches, M.OnSip, B.Act, CallInv;
    var c := leg.call;
    LegsApart(p, c);
    if c.At(sl.Other()).MnccRef? {
      LegIsFound(p, c.At(sl.Other()).mncc);
    }
    ghost var x := p.Cx(c);
    assert x == B.At(View(p), i);
    RunEvent(p, i, c, sl, leg, ev);
    Lift(Change(p, c, i, M.OnSip(x, sl, ev, old(p.conn) == Ready)));
  }

  // nua_callback
  method TakeSip(p: Process, handle: Handle, ev: M.SipEvent)
    requires Valid(p) && Inv(View(p)) && Allowed(View(p), B.FromPbx(handle, ev))
    modifies p, p.repr
    ensures Valid(p) && fresh(p.repr - old(p.repr))
    ensures View(p) == B.OnFromPbx(old(View(p)), handle, ev)
  {
    hide Valid, Inv, Views, SipAllowed, M.OnSip, B.Act, B.FindHandle;
    BindingAgreesWithScan(p, handle);
    ghost var i := B.FindHandle(Views(p.calls), handle);
    ghost var sl := B.HandleSlot(Views(p.calls)[i], handle);
    var leg := Resolve(p, handle, ev);
    StillValid(p);
    HandleEvent(p, i, sl, leg, ev);
  }

  // ---------------------------------------------------------------- new calls

  // A new call heads the list.
  twostate predicate Headed(p: Process)
    reads *
  {
    && |p.calls| == |old(p.calls)| + 1 && p.calls[1..] == old(p.calls) && p.calls[0] !in old(p.calls)
    && p.calls[0].id == p.lastId == old(p.lastId) + 1
    && p.repr == old(p.repr) + {p.calls[0]} + p.calls[0].initial.Objects() && fresh(p.repr - old(p.repr))
    && p.lastId in p.traces && p.traces == old(p.traces)[p.lastId := p.traces[p.lastId]]
    && p.conn == old(p.conn) && p.fdOpen == old(p.fdOpen) && p.reconnect == old(p.reconnect)
  }

  // Its SIP leg, if it has one with a handle, was bound to a handle not in use.
  twostate predicate NewlyBound(p: Process, new leg: LegRef)
    reads *
  {
    && BoundLeg(p, leg)
    && (p.bound == old(p.bound)
        || (leg.SipRef? && leg.sip.handle != NULL_HANDLE && leg.sip.handle !in old(p.bound)
            && p.bound == old(p.bound)[leg.sip.handle := leg.sip]))
  }

  twostate lemma NewCallIsAdded(p: Process)
    requires Headed(p) && SameCalls(p) && !p.calls[0].Empty()
    ensures View(p) == B.Add(old(View(p)), p.Cx(p.calls[0]))
  {
    assert Views(p.calls) == [p.calls[0].View()] + old(Views(p.calls));
  }

  twostate lemma NewCallIsValid(p: Process)
    requires old(Valid(p)) && Headed(p) && SameCalls(p) && !p.calls[0].Empty() && p.calls[0].Owns()
             && p.calls[0].remote == NoRef
    requires NewlyBound(p, p.calls[0].initial)
    ensures Valid(p)
  {
    forall d | d in old(p.calls) ensures CallValid(p, d) {
      assert old(CallValid(p, d));
    }
  }

  // call_mncc_create
  method CreateMncc(p: Process, callref: nat) returns (c: Call, leg: MnccLeg)
    requires Valid(p)
    modifies p
    ensures Headed(p) && fresh(c) && fresh(leg) && p.calls[0] == c && p.bound == old(p.bound)
    ensures c.initial == MnccRef(leg) && c.remote == NoRef && leg.call == c
    ensures p.Cx(c) == Ctx(CallV(c.id,
            Mncc(MLeg(NEW_BASE.(ops := MNCC_OPS), MInitial, MO, callref, false, NoResponse)), NoLeg), [])
  {
    hide Valid;
    p.lastId := p.lastId + 1;
    c := new Call(p.lastId);
    leg := new MnccLeg(c, MO, callref);
    c.initial := MnccRef(leg);
    p.calls := [c] + p.calls;
    p.traces := p.traces[c.id := []];
    p.repr := p.repr + {c, leg};
  }

  method BeginMncc(p: Process, callref: nat, sdp: string)
    requires Valid(p)
    modifies p
    ensures Headed(p) && !p.calls[0].Empty() && p.calls[0].Owns() && p.calls[0].remote == NoRef
    ensures NewlyBound(p, p.calls[0].initial)
    ensures p.Cx(p.calls[0]) == M.NewMnccCall(old(p.lastId) + 1, callref, sdp)
  {
    hide Valid, DigestOf, M.Hear, M.RequestRtp;
    var c, leg := CreateMncc(p, callref);
    p.OpenRtp(c, Initial, leg, sdp);
  }

  // check_setup past its screening
  method StartMncc(p: Process, callref: nat, sdp: string)
    requires Valid(p)
    modifies p
    ensures Valid(p) && fresh(p.repr - old(p.repr))
    ensures View(p) == B.Add(old(View(p)), M.NewMnccCall(old(p.lastId) + 1, callref, sdp))
  {
    hide Valid, M.NewMnccCall, B.Add;
    BeginMncc(p, callref, sdp);
    NewCallIsAdded(p);
    NewCallIsValid(p);
  }

  // ---------------------------------------------------------------- losing the connection

  method RunRelease(p: Process, ghost i: nat, c: Call)
    requires Valid(p) && i < |p.calls| && p.calls[i] == c && p.conn != Ready && p.Local(c)
    modifies p`calls, p`traces, p`bound, c, c.LegObjects()
    ensures Reaches(Change(p, c, i, M.OnDisconnect(old(p.Cx(c))))) && p.Settled(c)
  {
    hide Valid, M.OnDisconnect;
    LegsApart(p, c);
    p.ReleaseAll(c);
  }

  // One turn of the sweep. Only the call itself may leave the list.
  method Visit(p: Process, ghost i: nat, c: Call)
    requires Valid(p) && i < |p.calls| && p.calls[i] == c && p.conn != Ready
    modifies p`calls, p`traces, p`bound, c, c.LegObjects()
    ensures Valid(p) && View(p) == B.Act(old(View(p)), i, M.OnDisconnect(B.At(old(View(p)), i)))
    ensures c.Empty() <==> M.OnDisconnect(B.At(old(View(p)), i)).call.Gone()
    ensures p.calls == if c.Empty() then old(p.calls)[..i] + old(p.calls)[i + 1..] else old(p.calls)
  {
    hide Valid, M.OnDisconnect, B.Act;
    LegsApart(p, c);
    ghost var x := p.Cx(c);
    assert x == B.At(View(p), i);
    RunRelease(p, i, c);
    Lift(Change(p, c, i, M.OnDisconnect(x)));
    WithoutAt(old(p.calls), i);
  }

  lemma SweepTurns(s: B.State, i: nat)
    requires i < |s.calls| && s.calls[i].HasMncc()
    ensures var y := M.OnDisconnect(B.At(s, i));
            B.Sweep(s, i) == B.Sweep(B.Act(s, i, y), if y.call.Gone() then i else i + 1)
  {
    hide DigestOf, M.OnDisconnect;
  }

  lemma SweepSkips(s: B.State, i: nat)
    requires i < |s.calls| && !s.calls[i].HasMncc()
    ensures B.Sweep(s, i) == B.Sweep(s, i + 1)
  {
    hide DigestOf, M.OnDisconnect;
  }

  lemma SweepEnds(s: B.State)
    ensures B.Sweep(s, |s.calls|) == s
  {
  }

  lemma CallIsCovered(p: Process, c: Call)
    requires Valid(p) && c in p.calls
    ensures c in p.repr && c.LegObjects() <= p.repr
  {
    assert CallValid(p, c);
  }

  method Turn(p: Process, ghost i: nat, c: Call) returns (ghost next: nat)
    requires Valid(p) && i < |p.calls| && p.calls[i] == c && p.conn != Ready
    modifies p`calls, p`traces, p`bound, c, c.LegObjects()
    ensures Valid(p) && next <= |p.calls| && p.calls[next..] == old(p.calls)[i + 1..]
    ensures B.Sweep(View(p), next) == B.Sweep(old(View(p)), i) && p.conn == old(p.conn)
    ensures forall d | d in p.calls :: d in old(p.calls)
  {
    hide Valid, Views, M.OnDisconnect, B.Act, B.Sweep;
    next := i + 1;
    if c.initial.MnccRef? || c.remote.MnccRef? {
      SweepTurns(View(p), i);
      Visit(p, i, c);
      next := if c.Empty() then i else i + 1;
    } else {
      SweepSkips(View(p), i);
    }
  }

  // app_mncc_disconnected: the calls ahead are remembered before each turn.
  method SweepCalls(p: Process)
    requires Valid(p) && p.conn != Ready
    modifies p, p.repr
    ensures Valid(p) && View(p) == B.Sweep(old(View(p)), 0) && p.repr == old(p.repr) && p.conn == old(p.conn)
    ensures forall d | d in p.calls :: d in old(p.calls)
  {
    hide Valid, View, B.Sweep;
    var ahead := p.calls;
    ghost var i: nat := 0;
    while ahead != []
      invariant Valid(p) && i <= |p.calls| && p.calls[i..] == ahead
      invariant B.Sweep(View(p), i) == B.Sweep(old(View(p)), 0)
      invariant p.repr == old(p.repr) && p.conn == old(p.conn)
      invariant forall d | d in p.calls :: d in old(p.calls)
      decreases |ahead|
    {
      var c := ahead[0];
      ahead := ahead[1..];
      assert p.calls[i] == c;
      CallIsCovered(p, c);
      i := Turn(p, i, c);
    }
    SweepEnds(View(p));
  }

  method CloseConnection(p: Process)
    requires Valid(p)
    modifies p, p.repr
    ensures Valid(p) && View(p) == B.CloseConnection(old(View(p))) && p.repr == old(p.repr)
    ensures forall d | d in p.calls :: d in old(p.calls)
    ensures p.conn == if old(p.fdOpen) then Disconnected else old(p.conn)
  {
    hide Valid, Views, B.Sweep;
    if !p.fdOpen {
      return;
    }
    p.fdOpen := false;
    p.reconnect := true;
    p.conn := Disconnected;
    StillValid(p);
    SweepCalls(p);
  }

  // ---------------------------------------------------------------- INVITEs

  // call_sip_create
  method CreateSip(p: Process) returns (c: Call, leg: SipLeg)
    requires Valid(p)
    modifies p
    ensures Headed(p) && fresh(c) && fresh(leg) && p.calls[0] == c && p.bound == old(p.bound)
    ensures c.initial == SipRef(leg) && c.remote == NoRef && leg.call == c
    ensures p.Cx(c) == Ctx(CallV(c.id, Sip(SLeg(NEW_BASE, SInitial, MO, NULL_HANDLE, None)), NoLeg), [])
  {
    hide Valid;
    p.lastId := p.lastId + 1;
    c := new Call(p.lastId);
    leg := new SipLeg(c, MO);
    c.initial := SipRef(leg);
    p.calls := [c] + p.calls;
    p.traces := p.traces[c.id := []];
    p.repr := p.repr + {c, leg};
  }

  // The new call is in the list and became y, or it left the list again.
  twostate predicate Started(p: Process, y: Ctx)
    reads *
  {
    fresh(p.repr - old(p.repr)) &&
    if y.call.Gone() then
      p.calls == old(p.calls) && p.bound == old(p.bound) && old(p.repr) <= p.repr
      && p.lastId == old(p.lastId) + 1 && p.traces == old(p.traces)[p.lastId := y.log]
      && p.conn == old(p.conn) && p.fdOpen == old(p.fdOpen) && p.reconnect == old(p.reconnect)
    else
      Headed(p) && !p.calls[0].Empty() && p.calls[0].Owns() && p.calls[0].remote == NoRef
      && NewlyBound(p, p.calls[0].initial) && p.Cx(p.calls[0]) == y
  }

  method BeginBare(p: Process, handle: Handle, payload: Payload)
    requires Valid(p) && handle != NULL_HANDLE
    modifies p
    ensures Started(p, M.NewSipCall(old(p.lastId) + 1, handle, payload, false))
  {
    hide Valid, DigestOf, Advance, M.Admit, M.Decline;
    var c, leg := CreateSip(p);
    p.Decline(c, handle);
  }

  method BeginAdmitted(p: Process, handle: Handle, payload: Payload) returns (ok: bool)
    requires Valid(p) && handle != NULL_HANDLE && handle !in p.bound
    modifies p
    ensures Started(p, M.NewSipCall(old(p.lastId) + 1, handle, payload, true))
    ensures ok == !M.NewSipCall(old(p.lastId) + 1, handle, payload, true).call.Gone()
    ensures ok ==> p.calls != [] && p.calls[0].initial.SipRef?
    ensures p.conn == old(p.conn) && p.fdOpen == old(p.fdOpen)
  {
    hide Valid, Without, DigestOf, Advance, M.Admit, M.Decline;
    var c, leg := CreateSip(p);
    WithoutHead(p.calls);
    ok := p.Admit(c, leg, handle, payload);
  }

  twostate lemma StartIsAdded(k: (Process, Ctx))
    requires old(Valid(k.0)) && Started(k.0, k.1) && SameCalls(k.0) && k.1.call.id == old(k.0.lastId) + 1
    ensures Valid(k.0) && View(k.0) == B.Add(old(View(k.0)), k.1)
  {
    hide Valid, Headed;
    if k.1.call.Gone() {
      StillValid(k.0);
    } else {
      NewCallIsAdded(k.0);
      NewCallIsValid(k.0);
    }
  }

  // What mncc_create_remote_leg leaves of the call, by the outcome of its write.
  function Routed(x: Ctx, sent: bool): Ctx
    requires x.Get(Initial).Sip?
  {
    if sent then M.RouteToMncc(x) else M.Offered(x)
  }

  method RunRoute(p: Process, c: Call, leg: SipLeg, writable: bool) returns (ok: bool)
    requires Valid(p) && p.calls != [] && p.calls[0] == c && c.initial == SipRef(leg) && c.remote == NoRef && p.Local(c)
    modifies p, p.repr
    ensures ok == writable && Reaches(Change(p, c, 0, Routed(old(p.Cx(c)), ok))) && p.calls == old(p.calls)
  {
    hide Valid, M.RouteToMncc, M.Offered;
    LegsApart(p, c);
    ok := p.CreateRemoteMncc(c, leg, writable);
  }

  // mncc_create_remote_leg: the MNCC leg joins the call, or the connection is closed.
  method CreateRemoteMncc(p: Process, writeOk: bool) returns (ok: bool)
    requires Valid(p) && p.calls != [] && p.calls[0].initial.SipRef? && p.calls[0].remote == NoRef
    modifies p, p.repr
    ensures Valid(p) && fresh(p.repr - old(p.repr)) && ok == (old(p.fdOpen) && writeOk)
    ensures var s := B.Act(old(View(p)), 0, Routed(B.At(old(View(p)), 0), ok));
            View(p) == if ok then s else B.CloseConnection(s)
    ensures !ok ==> (forall d | d in p.calls :: d in old(p.calls))
                    && p.conn == if old(p.fdOpen) then Disconnected else old(p.conn)
  {
    hide Valid, Reaches, Routed, B.CloseConnection;
    var c := p.calls[0];
    LegsApart(p, c);
    ghost var x := p.Cx(c);
    assert x == B.At(View(p), 0);
    ok := RunRoute(p, c, c.initial.sip, p.fdOpen && writeOk);
    Lift(Change(p, c, 0, Routed(x, ok)));
    if !ok {
      CloseConnection(p);
    }
  }

  method RunRefusal(p: Process, c: Call)
    requires Valid(p) && p.calls != [] && p.calls[0] == c && c.initial.SipRef? && p.Local(c)
    modifies p, p.repr
    ensures Reaches(Change(p, c, 0, M.ReleaseLeg(old(p.Cx(c)), Initial, old(p.conn) == Ready)))
  {
    hide Valid, Without, DigestOf, Advance, M.ReleaseLeg;
    LegsApart(p, c);
    p.ReleaseLeg(c, Initial, c.initial);
  }

  // call->initial->release_call(call->initial)
  method RefuseCall(p: Process, c: Call)
    requires Valid(p) && p.calls != [] && p.calls[0] == c && c.initial.SipRef?
    modifies p, p.repr
    ensures Valid(p) && fresh(p.repr - old(p.repr))
    ensures View(p) == B.Act(old(View(p)), 0, M.ReleaseLeg(B.At(old(View(p)), 0), Initial, old(p.conn) == Ready))
  {
    hide Valid, Reaches, M.ReleaseLeg, B.Act;
    LegsApart(p, c);
    ghost var x := p.Cx(c);
    assert x == B.At(View(p), 0);
    RunRefusal(p, c);
    Lift(Change(p, c, 0, M.ReleaseLeg(x, Initial, old(p.conn) == Ready)));
  }

  // The call at the head is told by its id.
  twostate lemma HeadStays(p: Process)
    requires old(p.calls) != [] && p.calls != [] && p.calls[0] in old(p.calls) && DistinctIds(old(Views(p.calls)))
    requires p.calls[0].id == old(p.calls)[0].id
    ensures p.calls[0] == old(p.calls)[0]
  {
    var j :| 0 <= j < |old(p.calls)| && old(p.calls)[j] == p.calls[0];
    assert old(Views(p.calls))[j].id == old(Views(p.calls))[0].id;
  }

  // The new call and its offer outlive the closing of the connection.
  lemma OfferSurvives(s: B.State)
    requires DistinctIds(s.calls) && s.calls != [] && s.calls[0].initial.Sip? && s.calls[0].remote.NoLeg?
    ensures var z := M.Offered(B.At(s, 0));
            B.CloseConnection(B.Act(s, 0, z)).calls != [] && B.At(B.CloseConnection(B.Act(s, 0, z)), 0) == z
  {
    hide B.CloseConnection;
    var z := M.Offered(B.At(s, 0));
    ActIds(s, 0, z);
    CloseSparesHead(B.Act(s, 0, z), z);
  }

  // route_to_mncc: the call at the head is routed, or refused.
  ghost function RoutedOrRefused(s: B.State, sent: bool): B.State
    requires DistinctIds(s.calls) && s.calls != [] && s.calls[0].initial.Sip? && s.calls[0].remote.NoLeg?
  {
    hide M.RouteToMncc, M.ReleaseLeg, B.CloseConnection;
    OfferSurvives(s);
    var x := B.At(s, 0);
    if sent then B.Act(s, 0, M.RouteToMncc(x))
    else B.Act(B.CloseConnection(B.Act(s, 0, M.Offered(x))), 0, M.ReleaseLeg(M.Offered(x), Initial, false))
  }

  method RouteToMncc(p: Process, writeOk: bool)
    requires Valid(p) && DistinctIds(Views(p.calls)) && (!p.fdOpen ==> p.conn != Ready)
    requires p.calls != [] && p.calls[0].initial.SipRef? && p.calls[0].remote == NoRef
    modifies p, p.repr
    ensures Valid(p) && fresh(p.repr - old(p.repr))
    ensures View(p) == RoutedOrRefused(old(View(p)), old(p.fdOpen) && writeOk)
  {
    hide Valid, Views, DistinctIds, M.ReleaseLeg, M.RouteToMncc, B.Act, B.CloseConnection;
    var c := p.calls[0];
    OfferSurvives(View(p));
    var ok := CreateRemoteMncc(p, writeOk);
    if !ok {
      HeadStays(p);
      RefuseCall(p, c);
    }
  }

  // Of the refused call, no trace of the flag remains: it is gone, as if it had not been offered.
  lemma RefusalForgetsOffer(s: B.State, y: Ctx)
    requires DistinctIds(s.calls) && s.calls != [] && B.At(s, 0) == y && y.call.id in s.traces
    requires CallInv(y) && Routable(y)
    ensures B.CloseConnection(s).calls != []
            && RoutedOrRefused(s, false) == B.Act(B.CloseConnection(s), 0, M.ReleaseLeg(y, Initial, false))
  {
    hide DigestOf, Advance, B.CloseConnection, M.ReleaseLeg;
    CloseIgnoresOffer(s, y);
    SameRefusal(y);
  }

  lemma CloseIgnoresOffer(s: B.State, y: Ctx)
    requires s.calls != [] && B.At(s, 0) == y && y.call.id in s.traces && y.call.initial.Sip? && y.call.remote.NoLeg?
    ensures var r := B.CloseConnection(s);
            && r.calls != []
            && B.CloseConnection(B.Act(s, 0, M.Offered(y))) == r.(calls := r.calls[0 := M.Offered(y).call])
  {
    hide B.Sweep;
    var s1, z := s.(conn := Disconnected, fdOpen := false, reconnect := true), M.Offered(y);
    assert B.Act(s, 0, z) == s.(calls := s.calls[0 := z.call]);
    SweepSkipsHead(s1);
    SweepSkipsHead(s1.(calls := s1.calls[0 := z.call]));
    SweepIgnoresHead(s1, z.call, 1);
  }

  lemma SweepSkipsHead(s: B.State)
    requires s.calls != [] && !s.calls[0].HasMncc()
    ensures B.Sweep(s, 0) == B.Sweep(s, 1)
  {
  }

  lemma SameRefusal(y: Ctx)
    requires CallInv(y) && Routable(y)
    ensures var r, q := M.ReleaseLeg(y, Initial, false), M.ReleaseLeg(M.Offered(y), Initial, false);
            r.log == q.log && r.call == q.call && r.call.Gone() && r.call.id == y.call.id
  {
    hide DigestOf, Advance;
  }

  lemma NewCallIsTabled(s: B.State, offer: B.Offer)
    requires Inv(s) && FreshHandle(s, offer.handle)
    ensures var y := M.NewSipCall(s.lastId + 1, offer.handle, offer.payload, true);
            && DistinctIds(B.Add(s, y).calls) && y.call.id in B.Add(s, y).traces
            && CallInv(y) && (!y.call.Gone() ==> Routable(y))
  {
    hide DigestOf, CallInv, TableInv, M.NewSipCall, FreshHandle;
    FreshIsSet(s, offer.handle);
    NewSipCallOk(s.lastId + 1, offer.handle, offer.payload, true);
    AddKeeps(s, M.NewSipCall(s.lastId + 1, offer.handle, offer.payload, true));
    TableParts(B.Add(s, M.NewSipCall(s.lastId + 1, offer.handle, offer.payload, true)));
  }

  method StartBare(p: Process, handle: Handle, payload: Payload)
    requires Valid(p) && handle != NULL_HANDLE
    modifies p
    ensures Valid(p) && fresh(p.repr - old(p.repr))
    ensures View(p) == B.Add(old(View(p)), M.NewSipCall(old(p.lastId) + 1, handle, payload, false))
  {
    hide Valid, Headed, M.NewSipCall, B.Add;
    NewSipCallOk(p.lastId + 1, handle, payload, false);
    BeginBare(p, handle, payload);
    StartIsAdded((p, M.NewSipCall(old(p.lastId) + 1, handle, payload, false)));
  }

  method StartAdmitted(p: Process, handle: Handle, payload: Payload) returns (ok: bool)
    requires Valid(p) && handle != NULL_HANDLE && handle !in p.bound
    modifies p
    ensures Valid(p) && fresh(p.repr - old(p.repr))
    ensures View(p) == B.Add(old(View(p)), M.NewSipCall(old(p.lastId) + 1, handle, payload, true))
    ensures ok == !M.NewSipCall(old(p.lastId) + 1, handle, payload, true).call.Gone()
    ensures ok ==> p.calls != [] && p.calls[0].initial.SipRef? && p.calls[0].remote == NoRef
    ensures p.conn == old(p.conn) && p.fdOpen == old(p.fdOpen)
  {
    hide Valid, Headed, M.NewSipCall, B.Add;
    NewSipCallOk(p.lastId + 1, handle, payload, true);
    ok := BeginAdmitted(p, handle, payload);
    StartIsAdded((p, M.NewSipCall(old(p.lastId) + 1, handle, payload, true)));
  }

  method Route(p: Process, offer: B.Offer, writeOk: bool)
    requires Valid(p) && Inv(View(p)) && FreshHandle(View(p), offer.handle)
    modifies p, p.repr
    ensures Valid(p) && fresh(p.repr - old(p.repr))
    ensures View(p) == B.OnAdmitted(old(View(p)), offer, writeOk)
  {
    hide Valid, View, TableInv, FreshHandle, M.NewSipCall, M.RouteToMncc, M.ReleaseLeg, B.Act, B.Add, B.At,
      B.CloseConnection;
    HandleIsUnbound(p, offer.handle);
    FreshIsSet(View(p), offer.handle);
    NewCallIsTabled(View(p), offer);
    ghost var s, y := View(p), M.NewSipCall(View(p).lastId + 1, offer.handle, offer.payload, true);
    ViewFields(p);
    var ok := StartAdmitted(p, offer.handle, offer.payload);
    if ok {
      AddedFirst(s, y);
      RefusalForgetsOffer(B.Add(s, y), y);
      ViewFields(p);
      RouteToMncc(p, writeOk);
    }
  }

  lemma ViewFields(p: Process)
    ensures var s := View(p);
            s.calls == Views(p.calls) && s.lastId == p.lastId && s.conn == p.conn && s.fdOpen == p.fdOpen
  {
  }

  // new_call
  method NewCall(p: Process, offer: B.Offer, writeOk: bool)
    requires Valid(p) && Inv(View(p)) && Allowed(View(p), B.Incoming(offer, writeOk))
    modifies p, p.repr
    ensures Valid(p) && fresh(p.repr - old(p.repr))
    ensures View(p) == B.OnIncoming(old(View(p)), offer, writeOk)
  {
    hide Valid, Views, Inv, FreshHandle, Screened, M.NewSipCall, B.Note, B.Add, B.OnAdmitted;
    FreshIsSet(View(p), offer.handle);
    var ok := ScreenSdp(offer.payload);
    StillValid(p);
    if !ok {
      Note(p, [TxReject(offer.handle, 406, None), Destroy(offer.handle)]);
    } else if offer.usersKnown && offer.gcrUsable {
      Route(p, offer, writeOk);
    } else {
      StartBare(p, offer.handle, offer.payload);
    }
  }

  // ---------------------------------------------------------------- the event loop

  // check_setup
  method CheckSetup(p: Process, setup: B.Setup)
    requires Valid(p)
    modifies p
    ensures Valid(p) && fresh(p.repr - old(p.repr))
    ensures View(p) == B.OnSetupInd(old(View(p)), setup)
  {
    hide Valid, M.NewMnccCall, B.Add, B.Note;
    if (!setup.hasCalled && !setup.emergency) || !setup.hasCalling || !(setup.plan == 0 || setup.plan == 1)
       || (setup.gcrPresent && !setup.gcrValid) {
      Note(p, [TxSignal(RejReq, setup.callref)]);
    } else {
      StartMncc(p, setup.callref, setup.sdp);
    }
  }

  // check_hello
  method CheckHello(p: Process, version: int)
    requires Valid(p)
    modifies p, p.repr
    ensures Valid(p) && fresh(p.repr - old(p.repr))
    ensures View(p) == B.OnHello(old(View(p)), version)
  {
    hide Valid, B.CloseConnection;
    if version != B.SOCKET_VERSION {
      CloseConnection(p);
    } else {
      p.conn := Ready;
      StillValid(p);
    }
  }

  // mncc_reconnect
  method Reconnect(p: Process, connected: bool)
    requires Valid(p) && p.reconnect
    modifies p
    ensures Valid(p) && p.repr == old(p.repr) && View(p) == B.OnReconnect(old(View(p)), connected)
  {
    hide Valid;
    p.reconnect := !connected;
    p.fdOpen := connected;
    p.conn := if connected then WaitVersion else Disconnected;
    StillValid(p);
  }

  // The leg whose timer expires: the MNCC leg of the call with that id.
  method TimerOf(p: Process, id: nat) returns (leg: MnccLeg)
    requires Valid(p)
    requires var i := B.FindId(Views(p.calls), id); i < |p.calls| && Views(p.calls)[i].HasMncc()
    ensures leg.call in p.calls && leg.call.id == id && MnccRef(leg) in {leg.call.initial, leg.call.remote}
  {
    hide Views, B.FindId, Bijective;
    var i := 0;
    while p.calls[i].id != id
      invariant i <= B.FindId(Views(p.calls), id)
      decreases |p.calls| - i
    {
      i := i + 1;
    }
    var c := p.calls[i];
    assert CallValid(p, c);
    leg := if c.initial.MnccRef? then c.initial.mncc else c.remote.mncc;
  }

  method Expire(p: Process, id: nat)
    requires Valid(p) && Inv(View(p)) && Allowed(View(p), B.Timeout(id))
    modifies p, p.repr
    ensures Valid(p) && fresh(p.repr - old(p.repr))
    ensures View(p) == B.OnTimer(old(View(p)), id)
  {
    hide Valid, Inv, Views, B.OnTimer, B.FindId;
    var leg := TimerOf(p, id);
    StillValid(p);
    TimerExpired(p, leg);
  }

  method Perform(p: Process, e: B.Event)
    requires Valid(p) && Inv(View(p)) && Allowed(View(p), e)
    modifies p, p.repr
    ensures Valid(p) && fresh(p.repr - old(p.repr))
    ensures View(p) == B.Step(old(View(p)), e)
  {
    hide Valid, Inv, Views, B.OnReconnect, B.OnHello, B.CloseConnection, B.OnSetupInd, B.OnFromMsc, B.OnTimer,
      B.OnFromPbx, B.OnIncoming;
    match e
    case Reconnect(connected) => Reconnect(p, connected);
    case Hello(version) => CheckHello(p, version);
    case BadData => CloseConnection(p);
    case SetupInd(setup) => CheckSetup(p, setup);
    case FromMsc(callref, msg) => TakeMncc(p, callref, msg);
    case Timeout(id) => Expire(p, id);
    case FromPbx(handle, ev) => TakeSip(p, handle, ev);
    case Incoming(offer, writeOk) => NewCall(p, offer, writeOk);
  }

  // The process only visits states that runs of the state machine lead to.
  method Deliver(p: Process, e: B.Event)
    requires Running(p) && Allowed(View(p), e)
    modifies p, p.repr
    ensures Running(p) && fresh(p.repr - old(p.repr)) && View(p) == B.Step(old(View(p)), e)
  {
    hide Valid, Inv, Reachable, Allowed, View, B.Step;
    NextIsReachable(p, e);
    Perform(p, e);
  }

  method Boot() returns (p: Process)
    ensures Valid(p) && View(p) == B.INIT && fresh(p) && p.repr == {}
  {
    p := new Process();
  }

  // A process fed the events of any run ends in the state of that run.
  method Serve(es: seq<B.Event>, ghost ss: seq<B.State>) returns (p: Process)
    requires IsRun(ss, es)
    ensures Valid(p) && View(p) == ss[|es|]
  {
    hide Valid, View, Allowed, Inv, B.Step;
    p := Boot();
    var k := 0;
    while k < |es|
      invariant k <= |es| && Valid(p) && fresh(p) && fresh(p.repr) && View(p) == ss[k]
    {
      RunStep(ss, es, k);
      RunsKeepInvariant(ss, es, k);
      Perform(p, es[k]);
      k := k + 1;
    }
  }
}
