/** The connector's guarantees, read off the invariant: what holds after every run. */
module Guarantees {
  import opened Domain
  import opened Trace
  import opened CallMachine
  import opened CallInvariant
  import opened Bridge
  import opened CallList
  import opened Lifecycle

  // The i-th listed call has its MNCC leg in slot sl and a SIP leg beside it.
  predicate Paired(c: CallV, sl: Slot) {
    c.Get(sl).Mncc? && c.Get(sl.Other()).Sip?
  }

  // A BYE or CANCEL was sent; as long as the leg is attached it is unanswered.
  ghost predicate ReleaseOutstanding(t: seq<Entry>) {
    exists k | 0 <= k < |t| :: IsRelease(t[k])
  }

  lemma PairedInv(s: State, i: nat, sl: Slot)
    requires TableInv(s) && i < |s.calls| && Paired(s.calls[i], sl)
    ensures CallInv(At(s, i)) && SipInv(s.calls[i].Get(sl.Other()).s, DigestOf(At(s, i).log))
    ensures PairInv(s.calls[i].Get(sl).m, s.calls[i].Get(sl.Other()).s, DigestOf(At(s, i).log))
    ensures Shape(s.calls[i]) && !Bare(s.calls[i].Get(sl.Other()).s)
    ensures s.calls[i].Get(sl).m.dir == if sl == Initial then MO else MT
  {
    hide DigestOf;
    ListedKeeps(s, i);
  }

  // Release is symmetric: the MNCC leg of a two-legged call is in release exactly when a BYE
  // or CANCEL is outstanding on its SIP leg.
  lemma ReleaseIsSymmetric(s: State, i: nat, sl: Slot)
    requires Reachable(s) && i < |s.calls| && Paired(s.calls[i], sl)
    ensures s.calls[i].Get(sl).m.base.inRelease <==> ReleaseOutstanding(TraceOf(s, s.calls[i].id))
  {
    hide Reachable, DigestOf, TableInv, CallInv;
    ReachableInv(s);
    PairedInv(s, i, sl);
    ListedKeeps(s, i);
    ReleasingReads(TraceOf(s, s.calls[i].id));
  }

  // Media is coherent: the last RTP_CONNECT sent for a call that is not being released
  // carries the SIP leg's current address and port.
  lemma MediaIsCoherent(s: State, i: nat, sl: Slot)
    requires Reachable(s) && i < |s.calls| && Paired(s.calls[i], sl)
    ensures var m, leg, t := s.calls[i].Get(sl).m, s.calls[i].Get(sl.Other()).s, TraceOf(s, s.calls[i].id);
            !m.base.inRelease && leg.base.addr.port != 0 && (exists k | 0 <= k < |t| :: t[k].TxRtpConnect?)
            ==> LastMediaIs(t, leg.base.addr)
  {
    hide Reachable, DigestOf, TableInv, CallInv;
    ReachableInv(s);
    PairedInv(s, i, sl);
    ListedKeeps(s, i);
    MediaReads(TraceOf(s, s.calls[i].id));
  }

  // A call on hold towards the MSC is on hold towards the PBX.
  lemma HoldCorresponds(s: State, i: nat, sl: Slot)
    requires Reachable(s) && i < |s.calls| && Paired(s.calls[i], sl)
    ensures var c := s.calls[i]; c.Get(sl).m.state == MHold ==> c.Get(sl.Other()).s.state == SHold
  {
    hide Reachable, DigestOf, TableInv, CallInv;
    ReachableInv(s);
    PairedInv(s, i, sl);
  }

  // The trace of a call, live or past.
  lemma TraceInvariant(s: State, id: nat)
    requires TableInv(s) && id in s.traces && id != NO_CALL
    ensures var d := DigestOf(TraceOf(s, id)); d.ordered && d.safe && d.clean
    ensures !Listed(s.calls, id) ==> DigestOf(TraceOf(s, id)).handle.None? || DigestOf(TraceOf(s, id)).destroyed
  {
    hide DigestOf;
    if Listed(s.calls, id) {
      var i :| 0 <= i < |s.calls| && s.calls[i].id == id;
      ListedKeeps(s, i);
    } else {
      assert PastOk(s, id);
    }
  }

  // Setup is in order in the trace of every call, live or past.
  lemma SetupRunsInOrder(s: State, id: nat)
    requires Reachable(s) && id in s.traces && id != NO_CALL
    ensures SetupInOrder(TraceOf(s, id))
  {
    hide Reachable, DigestOf, TableInv;
    ReachableInv(s);
    TraceInvariant(s, id);
    OrderReads(TraceOf(s, id));
  }

  // A call the MSC started that has a SIP leg left its initial state, so releasing it on a
  // READY connection is DISC_REQ and never REJ_REQ, and the leg stays until it is answered.
  lemma DialledCallIsDisconnected(s: State, i: nat)
    requires Reachable(s) && i < |s.calls| && Paired(s.calls[i], Initial)
    ensures var m, y := s.calls[i].initial.m, ReleaseLeg(At(s, i), Initial, true);
            && m.state != MInitial
            && y.log == TraceOf(s, s.calls[i].id) + [TxClear(DiscReq, m.callref, m.base.cause)]
            && y.call.initial.Mncc? && y.call.initial.m.base.inRelease && y.call.initial.m.timer
               && y.call.remote == s.calls[i].remote
  {
    hide Reachable, DigestOf, TableInv, CallInv;
    ReachableInv(s);
    PairedInv(s, i, Initial);
    ListedKeeps(s, i);
  }

  // No handler calls an unset callback, misses an asserted partner or casts the wrong leg.
  lemma NothingCrashes(s: State, id: nat)
    requires Reachable(s) && id in s.traces && id != NO_CALL
    ensures var t := TraceOf(s, id); forall k | 0 <= k < |t| :: !t[k].Crash?
  {
    hide Reachable, DigestOf, TableInv;
    ReachableInv(s);
    TraceInvariant(s, id);
    ReleasingReads(TraceOf(s, id));
  }

  ghost predicate Alive(t: seq<Entry>, h: Handle) {
    h in MentionsOf(t) && forall k :: !DestroyedAt(t, k)
  }

  // A call's trace speaks of one handle and never after destroying it, so it is destroyed at
  // most once; the handle is alive exactly while a SIP leg with it is attached to that call.
  lemma HandlesMatchLegs(s: State, id: nat, h: Handle)
    requires Reachable(s) && id in s.traces && id != NO_CALL && h != NULL_HANDLE
    ensures HandleDiscipline(TraceOf(s, id))
    ensures Alive(TraceOf(s, id), h) <==>
              exists i | 0 <= i < |s.calls| :: s.calls[i].id == id && CallHasHandle(s.calls[i], h)
  {
    hide Reachable, DigestOf, TableInv, CallInv, HandleDiscipline;
    ReachableInv(s);
    TraceInvariant(s, id);
    AliveReads(TraceOf(s, id), h);
    if Listed(s.calls, id) {
      var i :| 0 <= i < |s.calls| && s.calls[i].id == id;
      ListedHandle(s, i, h);
      forall j | 0 <= j < |s.calls| && s.calls[j].id == id ensures j == i { IdsAreDistinct(s, i, j); }
    }
  }

  lemma AliveReads(t: seq<Entry>, h: Handle)
    requires DigestOf(t).safe
    ensures HandleDiscipline(t)
    ensures Alive(t, h) <==> DigestOf(t).handle == Some(h) && !DigestOf(t).destroyed
  {
    hide DigestOf;
    HandleReads(t);
    DestroyedReads(t);
    SafeReads(t);
    MentionsAreHandle(t);
  }

  // The scan for a live handle finds the call whose trace speaks of it.
  lemma ScanFindsHandle(s: State, id: nat, h: Handle)
    requires Reachable(s) && id in s.traces && id != NO_CALL && h != NULL_HANDLE && Alive(TraceOf(s, id), h)
    ensures FindHandle(s.calls, h) < |s.calls| && s.calls[FindHandle(s.calls, h)].id == id
  {
    hide Reachable, DigestOf, TableInv, CallInv, HandleDiscipline, Alive;
    ReachableInv(s);
    HandlesMatchLegs(s, id, h);
    var i :| 0 <= i < |s.calls| && s.calls[i].id == id && CallHasHandle(s.calls[i], h);
    SameHandleSameCall(s, FindHandle(s.calls, h), i, h);
  }

  lemma IdsAreDistinct(s: State, i: nat, j: nat)
    requires TableInv(s) && i < |s.calls| && j < |s.calls| && s.calls[i].id == s.calls[j].id
    ensures i == j
  {
    hide DigestOf, CallInv;
  }

  lemma ListedHandle(s: State, i: nat, h: Handle)
    requires TableInv(s) && i < |s.calls| && h != NULL_HANDLE
    ensures var d := DigestOf(TraceOf(s, s.calls[i].id));
            CallHasHandle(s.calls[i], h) <==> (d.handle == Some(h) && !d.destroyed)
  {
    hide DigestOf;
    ListedKeeps(s, i);
  }

  lemma SameHandleSameCall(s: State, i: nat, j: nat, h: Handle)
    requires TableInv(s) && i < |s.calls| && j < |s.calls| && h != NULL_HANDLE
    requires CallHasHandle(s.calls[i], h) && CallHasHandle(s.calls[j], h)
    ensures i == j
  {
    hide DigestOf, CallInv;
    ListedKeeps(s, i);
    ListedKeeps(s, j);
    ListedHandle(s, i, h);
    ListedHandle(s, j, h);
    InvIsSafe(At(s, i));
    InvIsSafe(At(s, j));
    MentionsAreHandle(TraceOf(s, s.calls[i].id));
    MentionsAreHandle(TraceOf(s, s.calls[j].id));
  }

  // A leg stores the last non-empty SDP it heard, cut to its buffer; one no longer marked as
  // changed was carried to the MSC by an earlier message of the call.
  lemma StoredSdpIsHeard(s: State, i: nat, sl: Slot)
    requires Reachable(s) && i < |s.calls| && !s.calls[i].Get(sl).NoLeg?
    ensures var leg, t := s.calls[i].Get(sl), TraceOf(s, s.calls[i].id);
            && leg.Common().rxSdp == LastHeard(t, if leg.Mncc? then MnccSide else SipSide)
            && (!leg.Common().rxChanged && leg.Common().rxSdp != "" ==>
                  exists k | 0 <= k < |t| :: Carries(t[k]) == leg.Common().rxSdp)
  {
    hide Reachable, DigestOf, TableInv;
    ReachableInv(s);
    ListedKeeps(s, i);
    HeardReads(TraceOf(s, s.calls[i].id));
    CarriedReads(TraceOf(s, s.calls[i].id));
  }

  // Ownership: a listed call has a leg; its two legs are of different kinds; the initial
  // slot holds the leg of the side that started it; a call that left the list has no handle.
  lemma CallsOwnTheirLegs(s: State, i: nat)
    requires Reachable(s) && i < |s.calls|
    ensures var c := s.calls[i];
            && 1 <= LegCount(c) && NO_CALL < c.id <= s.lastId && c.id in s.traces
            && (LegCount(c) == 2 ==> c.initial.Mncc? != c.remote.Mncc?)
            && (forall sl | c.Get(sl).Mncc? :: c.Get(sl).m.dir == if sl == Initial then MO else MT)
            && (forall sl | c.Get(sl).Sip? :: c.Get(sl).s.dir == if sl == Initial then MO else MT)
            && (forall j | 0 <= j < |s.calls| && s.calls[j].id == c.id :: j == i)
  {
    hide Reachable, DigestOf, TableInv;
    ReachableInv(s);
    ListedKeeps(s, i);
    forall j | 0 <= j < |s.calls| && s.calls[j].id == s.calls[i].id ensures j == i { IdsAreDistinct(s, i, j); }
  }
}
