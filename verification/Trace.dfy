/** What a call's trace says about its past, kept as a running digest, and what each field
    of the digest means in terms of the trace's entries. */
module Trace {
  import opened Domain

  // The handle an entry is about, if any.
  function Mention(e: Entry): Option<Handle> {
    match e
    case TxInvite(h, _) => Some(h)
    case TxReinvite(h, _) => Some(h)
    case TxAnswer(h, _) => Some(h)
    case TxRinging(h) => Some(h)
    case TxReject(h, _, _) => Some(h)
    case TxCancel(h) => Some(h)
    case TxBye(h) => Some(h)
    case TxAck(h) => Some(h)
    case TxInfo(h, _) => Some(h)
    case Bind(h) => Some(h)
    case Destroy(h) => Some(h)
    case _ => None
  }

  predicate IsRelease(e: Entry) {
    e.TxBye? || e.TxCancel?
  }

  predicate Asks(e: Entry) {
    e.TxInvite? || e.TxReinvite?
  }

  // The SDP an MNCC message forwards and thereby consumes.
  function Carries(e: Entry): string {
    match e
    case TxRtpCreate(_, sdp) => sdp
    case TxSetupReq(_, sdp) => sdp
    case _ => ""
  }

  datatype Digest = Digest(
    procReq: bool,             // CALL_PROC_REQ was sent
    setupRsps: nat,            // how many SETUP_RSP were sent
    cleared: bool,             // a DISC_REQ or REL_REQ was sent
    lateRsp: bool,             // a SETUP_RSP was sent after one
    atRtpConnect: bool,        // the last entry is an RTP_CONNECT
    media: Option<Addr>,       // address of the last RTP_CONNECT
    releasing: bool,           // a BYE or CANCEL was sent
    asked: bool,               // an INVITE was sent, first or repeated
    handle: Option<Handle>,    // the handle spoken about
    destroyed: bool,           // it was destroyed
    heardMncc: string,         // the last non-empty SDP heard on either leg, cut
    heardSip: string,
    carried: set<string>,      // SDPs that MNCC messages carried
    ordered: bool,             // setup messages came in order
    safe: bool,                // one handle only, and nothing after its destruction
    clean: bool)               // no crash

  const BLANK := Digest(false, 0, false, false, false, None, false, false, None, false, "", "", {}, true, true, true)

  predicate Is(e: Entry, signal: Signal) {
    e.TxSignal? && e.signal == signal
  }

  predicate Hears(e: Entry, side: Side) {
    e.Heard? && e.side == side && e.sdp != ""
  }

  function Advance(d: Digest, e: Entry): Digest {
    var h := Mention(e);
    Digest(
      d.procReq || Is(e, CallProcReq),
      if Is(e, SetupRsp) then d.setupRsps + 1 else d.setupRsps,
      d.cleared || e.TxClear?,
      d.lateRsp || (d.cleared && Is(e, SetupRsp)),
      e.TxRtpConnect?,
      if e.TxRtpConnect? then Some(e.addr) else d.media,
      d.releasing || IsRelease(e),
      d.asked || Asks(e),
      if h.Some? then h else d.handle,
      d.destroyed || e.Destroy?,
      if Hears(e, MnccSide) then Cut(e.sdp) else d.heardMncc,
      if Hears(e, SipSide) then Cut(e.sdp) else d.heardSip,
      if e.TxRtpCreate? || e.TxSetupReq? then d.carried + {Carries(e)} else d.carried,
      && d.ordered && (e.TxInvite? ==> d.procReq)
      && (Is(e, SetupRsp) ==> d.procReq && d.atRtpConnect && d.setupRsps == 0),
      d.safe && (h.Some? ==> !d.destroyed && (d.handle.None? || d.handle == h)),
      d.clean && !e.Crash?)
  }

  function DigestOf(t: seq<Entry>): Digest {
    if t == [] then BLANK else Advance(DigestOf(t[..|t| - 1]), t[|t| - 1])
  }

  lemma DigestEmpty()
    ensures DigestOf([]) == BLANK
  {
  }

  lemma DigestSnoc(t: seq<Entry>, e: Entry)
    ensures DigestOf(t + [e]) == Advance(DigestOf(t), e)
  {
    assert (t + [e])[..|t|] == t;
  }

  function MentionsOf(t: seq<Entry>): set<Handle> {
    set i | 0 <= i < |t| && Mention(t[i]).Some? :: Mention(t[i]).value
  }

  // ---------------------------------------------------------------- reading the digest

  // The digest's recursion, one level at a time.
  lemma DigestSplit(t: seq<Entry>) returns (s: seq<Entry>, e: Entry)
    requires t != []
    ensures t == s + [e] && |s| < |t| && DigestOf(t) == Advance(DigestOf(s), e)
    ensures forall i | 0 <= i < |s| :: t[i] == s[i]
    ensures t[|s|] == e
  {
    s, e := t[..|t| - 1], t[|t| - 1];
  }

  // Entry i is the last RTP_CONNECT, and carries the address.
  ghost predicate LastMediaAt(t: seq<Entry>, i: int, addr: Addr) {
    && 0 <= i < |t| && t[i].TxRtpConnect? && t[i].addr == addr
    && forall j | i < j < |t| :: !t[j].TxRtpConnect?
  }

  ghost predicate LastMediaIs(t: seq<Entry>, addr: Addr) {
    exists i :: LastMediaAt(t, i, addr)
  }

  lemma MediaStays(s: seq<Entry>, e: Entry, addr: Addr)
    requires LastMediaIs(s, addr) && !e.TxRtpConnect?
    ensures LastMediaIs(s + [e], addr)
  {
    var i :| LastMediaAt(s, i, addr);
    assert LastMediaAt(s + [e], i, addr);
  }

  lemma {:induction false} MediaReads(t: seq<Entry>)
    ensures DigestOf(t).media.None? ==> forall i | 0 <= i < |t| :: !t[i].TxRtpConnect?
    ensures DigestOf(t).media.Some? ==> LastMediaIs(t, DigestOf(t).media.value)
    decreases |t|
  {
    hide DigestOf;
    if t == [] {
      DigestEmpty();
    } else {
      var s, e := DigestSplit(t);
      MediaReads(s);
      if e.TxRtpConnect? {
        assert LastMediaAt(t, |s|, e.addr);
      } else if DigestOf(s).media.Some? {
        MediaStays(s, e, DigestOf(s).media.value);
      }
    }
  }

  lemma {:induction false} ReleasingReads(t: seq<Entry>)
    ensures DigestOf(t).releasing <==> exists i | 0 <= i < |t| :: IsRelease(t[i])
    ensures DigestOf(t).asked <==> exists i | 0 <= i < |t| :: Asks(t[i])
    ensures DigestOf(t).clean <==> forall i | 0 <= i < |t| :: !t[i].Crash?
    ensures DigestOf(t).procReq <==> exists i | 0 <= i < |t| :: Is(t[i], CallProcReq)
    decreases |t|
  {
    hide DigestOf;
    if t == [] {
      DigestEmpty();
    } else {
      var s, e := DigestSplit(t);
      ReleasingReads(s);
    }
  }

  // A SETUP_RSP at position i, and one after a DISC_REQ or REL_REQ.
  ghost predicate AnsweredSetup(t: seq<Entry>, i: int) {
    0 <= i < |t| && Is(t[i], SetupRsp)
  }

  ghost predicate ClearedBefore(t: seq<Entry>, i: int) {
    exists j | 0 <= j < i && j < |t| :: t[j].TxClear?
  }

  ghost predicate AnsweredLate(t: seq<Entry>) {
    exists i :: AnsweredSetup(t, i) && ClearedBefore(t, i)
  }

  lemma LateStays(s: seq<Entry>, e: Entry)
    requires AnsweredLate(s)
    ensures AnsweredLate(s + [e])
  {
    var i :| AnsweredSetup(s, i) && ClearedBefore(s, i);
    var j :| 0 <= j < i && j < |s| && s[j].TxClear?;
    var t := s + [e];
    assert t[j] == s[j] && AnsweredSetup(t, i) && ClearedBefore(t, i);
  }

  lemma {:induction false} LateReads(t: seq<Entry>)
    ensures DigestOf(t).cleared <==> exists i | 0 <= i < |t| :: t[i].TxClear?
    ensures DigestOf(t).lateRsp <==> AnsweredLate(t)
    decreases |t|
  {
    hide DigestOf;
    if t == [] {
      DigestEmpty();
    } else {
      var s, e := DigestSplit(t);
      LateReads(s);
      if DigestOf(s).lateRsp {
        LateStays(s, e);
      } else {
        LateAtEnd(s, e);
      }
    }
  }

  lemma LateAtEnd(s: seq<Entry>, e: Entry)
    requires !AnsweredLate(s)
    ensures AnsweredLate(s + [e]) <==> Is(e, SetupRsp) && exists j | 0 <= j < |s| :: s[j].TxClear?
  {
    var t := s + [e];
    if AnsweredLate(t) {
      var i :| AnsweredSetup(t, i) && ClearedBefore(t, i);
      var j :| 0 <= j < i && j < |t| && t[j].TxClear?;
      assert s[j].TxClear?;
      assert i < |s| ==> AnsweredSetup(s, i) && ClearedBefore(s, i);
    }
    if Is(e, SetupRsp) && exists j | 0 <= j < |s| :: s[j].TxClear? {
      var j :| 0 <= j < |s| && s[j].TxClear?;
      assert t[j].TxClear? && ClearedBefore(t, |s|) && AnsweredSetup(t, |s|);
    }
  }

  ghost predicate ProcBefore(t: seq<Entry>, i: int) {
    exists j | 0 <= j < i && j < |t| :: Is(t[j], CallProcReq)
  }

  // Setup runs in order: INVITE after CALL_PROC_REQ; SETUP_RSP after it too, right after an
  // RTP_CONNECT, and once.
  ghost predicate SetupInOrder(t: seq<Entry>) {
    && (forall i | 0 <= i < |t| && t[i].TxInvite? :: ProcBefore(t, i))
    && (forall i | AnsweredSetup(t, i) :: ProcBefore(t, i) && i > 0 && t[i - 1].TxRtpConnect?)
    && (forall i, j | AnsweredSetup(t, i) && AnsweredSetup(t, j) :: i == j)
  }

  lemma {:induction false} CountReads(t: seq<Entry>)
    ensures DigestOf(t).setupRsps == 0 ==> forall i :: !AnsweredSetup(t, i)
    ensures DigestOf(t).atRtpConnect ==> t != [] && t[|t| - 1].TxRtpConnect?
    decreases |t|
  {
    hide DigestOf;
    if t == [] {
      DigestEmpty();
    } else {
      var s, e := DigestSplit(t);
      CountReads(s);
      assert forall i | i < |s| :: AnsweredSetup(t, i) <==> AnsweredSetup(s, i);
    }
  }

  lemma {:induction false} OrderReads(t: seq<Entry>)
    ensures DigestOf(t).ordered ==> SetupInOrder(t)
    decreases |t|
  {
    hide DigestOf;
    if t != [] && DigestOf(t).ordered {
      var s, e := DigestSplit(t);
      OrderReads(s);
      CountReads(s);
      ReleasingReads(s);
      OrderGrows(s, e, DigestOf(s));
    }
  }

  lemma ProcStays(s: seq<Entry>, e: Entry, i: int)
    requires ProcBefore(s, i) && i <= |s|
    ensures ProcBefore(s + [e], i)
  {
    var j :| 0 <= j < i && j < |s| && Is(s[j], CallProcReq);
    assert (s + [e])[j] == s[j];
  }

  lemma OrderGrows(s: seq<Entry>, e: Entry, d: Digest)
    requires SetupInOrder(s) && Advance(d, e).ordered
    requires d.setupRsps == 0 ==> forall i :: !AnsweredSetup(s, i)
    requires d.procReq ==> exists j | 0 <= j < |s| :: Is(s[j], CallProcReq)
    requires d.atRtpConnect ==> s != [] && s[|s| - 1].TxRtpConnect?
    ensures SetupInOrder(s + [e])
  {
    hide ProcBefore;
    var t, n := s + [e], |s|;
    assert forall i | i < n :: AnsweredSetup(t, i) <==> AnsweredSetup(s, i);
    forall i | 0 <= i < |t| && t[i].TxInvite? ensures ProcBefore(t, i) {
      ProcIsThere(s, e, i, d);
    }
    forall i | AnsweredSetup(t, i) ensures ProcBefore(t, i) && i > 0 && t[i - 1].TxRtpConnect? {
      ProcIsThere(s, e, i, d);
    }
  }

  lemma ProcIsThere(s: seq<Entry>, e: Entry, i: nat, d: Digest)
    requires i <= |s| && (i < |s| ==> ProcBefore(s, i))
    requires i == |s| && d.procReq ==> exists j | 0 <= j < |s| :: Is(s[j], CallProcReq)
    ensures i < |s| || d.procReq ==> ProcBefore(s + [e], i)
  {
    if i < |s| || d.procReq {
      ProcStays(s, e, i);
    }
  }

  ghost predicate DestroyedAt(t: seq<Entry>, i: int) {
    0 <= i < |t| && t[i].Destroy?
  }

  // A trace speaks of at most one handle, and never after destroying it.
  ghost predicate HandleDiscipline(t: seq<Entry>) {
    && (forall i, j | 0 <= i < |t| && 0 <= j < |t| && Mention(t[i]).Some? && Mention(t[j]).Some? ::
          Mention(t[i]) == Mention(t[j]))
    && (forall i, j | DestroyedAt(t, i) && i < j < |t| :: Mention(t[j]).None?)
  }

  lemma {:induction false} DestroyedReads(t: seq<Entry>)
    ensures DigestOf(t).destroyed <==> exists i :: DestroyedAt(t, i)
    decreases |t|
  {
    hide DigestOf;
    if t == [] {
      DigestEmpty();
    } else {
      var s, e := DigestSplit(t);
      DestroyedReads(s);
      assert forall i | i < |s| :: DestroyedAt(s, i) <==> DestroyedAt(t, i);
      assert e.Destroy? ==> DestroyedAt(t, |s|);
    }
  }

  lemma {:induction false} HandleReads(t: seq<Entry>)
    ensures forall i | 0 <= i < |t| && Mention(t[i]).Some? :: DigestOf(t).handle.Some?
    ensures DigestOf(t).safe ==>
              forall i | 0 <= i < |t| && Mention(t[i]).Some? :: Mention(t[i]) == DigestOf(t).handle
    ensures DigestOf(t).handle.Some? ==> exists i | 0 <= i < |t| :: Mention(t[i]) == DigestOf(t).handle
    decreases |t|
  {
    hide DigestOf;
    if t == [] {
      DigestEmpty();
    } else {
      var s, e := DigestSplit(t);
      HandleReads(s);
    }
  }

  lemma {:induction false} SafeReads(t: seq<Entry>)
    ensures DigestOf(t).safe ==> HandleDiscipline(t)
    decreases |t|
  {
    hide DigestOf;
    HandleReads(t);
    if t != [] && DigestOf(t).safe {
      var s, e := DigestSplit(t);
      SafeReads(s);
      DestroyedReads(s);
      assert forall i | i < |s| :: DestroyedAt(t, i) ==> DestroyedAt(s, i);
    }
  }

  // The last non-empty SDP heard on a side, cut to the buffer; "" when none was.
  function LastHeard(t: seq<Entry>, side: Side): string {
    if t == [] then ""
    else
      var e := t[|t| - 1];
      if Hears(e, side) then Cut(e.sdp) else LastHeard(t[..|t| - 1], side)
  }

  lemma {:induction false} HeardReads(t: seq<Entry>)
    ensures DigestOf(t).heardMncc == LastHeard(t, MnccSide)
    ensures DigestOf(t).heardSip == LastHeard(t, SipSide)
    decreases |t|
  {
    hide DigestOf;
    if t == [] {
      DigestEmpty();
    } else {
      var s, e := DigestSplit(t);
      assert s == t[..|t| - 1];
      HeardReads(s);
    }
  }

  lemma {:induction false} CarriedReads(t: seq<Entry>)
    ensures forall sdp :: sdp != "" && sdp in DigestOf(t).carried ==> exists i | 0 <= i < |t| :: Carries(t[i]) == sdp
    decreases |t|
  {
    hide DigestOf;
    if t == [] {
      DigestEmpty();
    } else {
      var s, e := DigestSplit(t);
      CarriedReads(s);
    }
  }
}
