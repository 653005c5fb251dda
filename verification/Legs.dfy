/** Calls and their legs as objects that are updated in place: the command timer, the stored
    SDP and the media loops, each proved to compute what the value model says. */
module Legs {
  import opened Domain
  import opened Sdp
  import M = CallMachine

  // A leg slot of a call: a pointer to a leg of either kind, or none.
  datatype LegRef = NoRef | MnccRef(mncc: MnccLeg) | SipRef(sip: SipLeg)
  {
    ghost function Objects(): set<object> {
      match this case NoRef => {} case MnccRef(l) => {l} case SipRef(l) => {l}
    }

    ghost function View(): Leg
      reads Objects()
    {
      match this case NoRef => NoLeg case MnccRef(l) => Mncc(l.View()) case SipRef(l) => Sip(l.View())
    }

    function Base(): Base
      reads Objects()
      requires !NoRef?
    {
      match this case MnccRef(l) => l.base case SipRef(l) => l.base
    }

    method SetBase(b: Base)
      requires !NoRef?
      modifies Objects()
      ensures View() == old(View()).WithCommon(b)
    {
      match this
      case MnccRef(l) => l.base := b;
      case SipRef(l) => l.base := b;
    }

    ghost predicate OwnedBy(c: Call) {
      match this case NoRef => true case MnccRef(l) => l.call == c case SipRef(l) => l.call == c
    }
  }

  class MnccLeg {
    const call: Call
    var base: Base
    var state: MnccState
    const dir: Dir
    const callref: nat
    var timer: bool
    var wanted: Awaited

    constructor (call: Call, dir: Dir, callref: nat)
      ensures View() == MLeg(NEW_BASE.(ops := MNCC_OPS), MInitial, dir, callref, false, NoResponse) && this.call == call
    {
      this.call, this.dir, this.callref := call, dir, callref;
      base := NEW_BASE.(ops := MNCC_OPS);
      state, timer, wanted := MInitial, false, NoResponse;
    }

    ghost function View(): MLeg
      reads this
    {
      MLeg(base, state, dir, callref, timer, wanted)
    }

    // start_cmd_timer
    method StartTimer(response: Awaited)
      modifies this
      ensures View() == M.StartTimer(old(View()), response)
    {
      wanted := response;
      timer := true;
    }

    // stop_cmd_timer
    method StopTimer(response: Awaited)
      modifies this
      ensures View() == M.StopTimer(old(View()), response)
    {
      if wanted != response {
        return;
      }
      timer := false;
    }

    // call_leg_rx_sdp
    method RxSdp(sdp: string)
      modifies this
      ensures View() == old(View()).(base := M.Store(old(base), sdp))
    {
      if sdp == "" || sdp == base.rxSdp {
        return;
      }
      base := base.(rxSdp := Cut(sdp));
      base := base.(rxChanged := true);
    }
  }

  class SipLeg {
    const call: Call
    var base: Base
    var state: SipState
    const dir: Dir
    var handle: Handle
    var codec: Option<string>

    constructor (call: Call, dir: Dir)
      ensures View() == SLeg(NEW_BASE, SInitial, dir, NULL_HANDLE, None) && this.call == call
    {
      this.call, this.dir := call, dir;
      base, state, handle, codec := NEW_BASE, SInitial, NULL_HANDLE, None;
    }

    ghost function View(): SLeg
      reads this
    {
      SLeg(base, state, dir, handle, codec)
    }

    // call_leg_rx_sdp
    method RxSdp(sdp: string)
      modifies this
      ensures View() == old(View()).(base := M.Store(old(base), sdp))
    {
      if sdp == "" || sdp == base.rxSdp {
        return;
      }
      base := base.(rxSdp := Cut(sdp));
      base := base.(rxChanged := true);
    }

    // The first loop of sdp_extract_sdp: take the first connection line that parses.
    method TakeConnection(conns: seq<ConnLine>) returns (found: bool)
      modifies this
      ensures found <==> FirstConn(conns).Some?
      ensures FirstConn(conns).Some? ==>
                && FirstConn(conns).value.number.Some?
                && View() == AtConn(old(View()), FirstConn(conns).value)
      ensures FirstConn(conns).None? ==> View() == old(View())
    {
      found := false;
      var i := 0;
      while i < |conns| && !found
        invariant 0 <= i <= |conns|
        invariant !found ==> View() == old(View()) && FirstConn(conns) == FirstConn(conns[i..])
        invariant found ==> FirstConn(conns).Some? && FirstConn(conns).value.number.Some?
        invariant found ==> View() == AtConn(old(View()), FirstConn(conns).value)
        decreases |conns| - i, !found
      {
        var conn := conns[i];
        assert conns[i..][0] == conn && conns[i..][1..] == conns[i + 1..];
        if conn.family != Unspec && conn.number.Some? {
          base := base.(addr := Addr(conn.family, conn.number.value, base.addr.port));
          found := true;
        } else {
          i := i + 1;
        }
      }
    }

    // The second, nested loop: take port and payload type of the first rtpmap that matches.
    method TakeStream(media: seq<Media>, wanted: Option<string>) returns (found: bool, port: nat)
      modifies this
      ensures found <==> FirstStream(media, wanted).Some?
      ensures FirstStream(media, wanted).Some? ==>
                && port == FirstStream(media, wanted).value.port
                && View() == AtStream(old(View()), FirstStream(media, wanted).value)
      ensures FirstStream(media, wanted).None? ==> View() == old(View())
    {
      found, port := false, 0;
      var i := 0;
      while i < |media| && !found
        invariant 0 <= i <= |media|
        invariant !found ==> View() == old(View()) && FirstStream(media, wanted) == FirstStream(media[i..], wanted)
        invariant found ==> FirstStream(media, wanted).Some? && port == FirstStream(media, wanted).value.port
        invariant found ==> View() == AtStream(old(View()), FirstStream(media, wanted).value)
        decreases |media| - i, !found
      {
        assert media[i..][0] == media[i] && media[i..][1..] == media[i + 1..];
        if media[i].rtp && media[i].audio {
          var pt := FirstMatch(media[i].maps, wanted);
          if pt.Some? {
            port := media[i].port % 0x1_0000;
            base := base.(payloadType := pt.value);
            found := true;
          } else {
            i := i + 1;
          }
        } else {
          i := i + 1;
        }
      }
    }

    // sdp_extract_sdp
    method ExtractSdp(payload: Payload, anyCodec: bool) returns (ok: bool)
      modifies this
      ensures var p := Pick(payload, old(base.addr), old(base.payloadType), if anyCodec then None else old(codec));
              ok == p.ok && View() == M.Placed(old(View()), p)
    {
      if payload.NoPayload? || payload.session.None? {
        return false;
      }
      var wanted := if anyCodec then None else codec;
      var foundConn := TakeConnection(payload.session.value.conns);
      var foundMap, port := TakeStream(payload.session.value.media, wanted);
      if !foundConn || !foundMap {
        return false;
      }
      base := base.(addr := base.addr.(port := port));
      return true;
    }
  }

  // What the two loops do to a leg: the address of a connection line, the payload type of a stream.
  ghost function AtConn(s: SLeg, conn: ConnLine): SLeg
    requires conn.number.Some?
  {
    s.(base := s.base.(addr := Addr(conn.family, conn.number.value, s.base.addr.port)))
  }

  ghost function AtStream(s: SLeg, stream: Stream): SLeg {
    s.(base := s.base.(payloadType := stream.pt))
  }

  // The inner loop over a media's rtpmaps.
  method FirstMatch(maps: seq<RtpMap>, wanted: Option<string>) returns (pt: Option<nat>)
    ensures pt == FirstInMaps(maps, wanted)
  {
    var k := 0;
    while k < |maps|
      invariant 0 <= k <= |maps|
      invariant FirstInMaps(maps, wanted) == FirstInMaps(maps[k..], wanted)
    {
      assert maps[k..][0] == maps[k] && maps[k..][1..] == maps[k + 1..];
      if Takes(maps[k], wanted) {
        return Some(maps[k].pt);
      }
      k := k + 1;
    }
    return None;
  }

  // sdp_screen_sdp
  method ScreenSdp(payload: Payload) returns (ok: bool)
    ensures ok <==> Screened(payload)
  {
    if payload.NoPayload? || payload.session.None? {
      return false;
    }
    var media := payload.session.value.media;
    var j := 0;
    while j < |media|
      invariant 0 <= j <= |media|
      invariant forall i | 0 <= i < j :: !(media[i].rtp && media[i].audio && KnownIn(media[i].maps))
    {
      if media[j].rtp && media[j].audio {
        var k := 0;
        while k < |media[j].maps|
          invariant 0 <= k <= |media[j].maps|
          invariant forall i | 0 <= i < k :: !KnownCodec(media[j].maps[i].encoding)
        {
          if KnownCodec(media[j].maps[k].encoding) {
            return true;
          }
          k := k + 1;
        }
      }
      j := j + 1;
    }
    return false;
  }

  class Call {
    const id: nat
    var initial: LegRef
    var remote: LegRef

    constructor (id: nat)
      ensures this.id == id && initial == remote == NoRef
    {
      this.id, initial, remote := id, NoRef, NoRef;
    }

    ghost function LegObjects(): set<object>
      reads this
    {
      initial.Objects() + remote.Objects()
    }

    ghost function View(): CallV
      reads this, LegObjects()
    {
      CallV(id, initial.View(), remote.View())
    }

    function At(sl: Slot): LegRef
      reads this
    {
      match sl case Initial => initial case Remote => remote
    }

    // call_leg_other
    function Other(leg: LegRef): LegRef
      reads this
    {
      if initial == leg then remote else if remote == leg then initial else NoRef
    }

    // Every attached leg points back here, and the legs are of different kinds.
    ghost predicate Owns()
      reads this
    {
      && initial.OwnedBy(this) && remote.OwnedBy(this)
      && !(initial.MnccRef? && remote.MnccRef?) && !(initial.SipRef? && remote.SipRef?)
    }

    // The handle of its SIP leg, if it has one.
    ghost function SipHandle(): Option<Handle>
      reads this, LegObjects()
    {
      if initial.SipRef? then Some(initial.sip.handle) else if remote.SipRef? then Some(remote.sip.handle) else None
    }

    predicate Empty()
      reads this
    {
      initial.NoRef? && remote.NoRef?
    }
  }
}
