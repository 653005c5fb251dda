/** Media selection over a parsed session (src/sdp.c): screening an offer for a known
    codec, and picking the address, port and payload type of the legacy MNCC fields.
    The text parser belongs to the SIP library; a payload carries its result. */
module Sdp {
  import opened Domain

  // One connection line: its family (Unspec for an address type the code skips) and the
  // address it parses to, if it does.
  datatype ConnLine = ConnLine(family: Family, number: Option<nat>)
  datatype RtpMap = RtpMap(encoding: string, pt: nat)
  datatype Media = Media(rtp: bool, audio: bool, port: nat, mode: Mode, maps: seq<RtpMap>)
  datatype Session = Session(conns: seq<ConnLine>, media: seq<Media>)
  datatype Payload = NoPayload | Payload(text: string, session: Option<Session>)

  function Text(pl: Payload): string {
    match pl case NoPayload => "" case Payload(text, _) => text
  }

  function Lower(s: string): (r: string)
    ensures |r| == |s|
  {
    seq(|s|, i requires 0 <= i < |s| => if 'A' <= s[i] <= 'Z' then (s[i] as int + 32) as char else s[i])
  }

  predicate SameCodec(a: string, b: string) {
    Lower(a) == Lower(b)
  }

  predicate KnownCodec(encoding: string) {
    || SameCodec(encoding, "GSM")
    || SameCodec(encoding, "GSM-EFR")
    || SameCodec(encoding, "GSM-HR-08")
    || SameCodec(encoding, "AMR")
  }

  // A wanted codec of None takes any.
  predicate Takes(m: RtpMap, wanted: Option<string>) {
    wanted.Some? ==> SameCodec(m.encoding, wanted.value)
  }

  // ---------------------------------------------------------------- declarative reading

  ghost predicate UsableAt(conns: seq<ConnLine>, i: int) {
    0 <= i < |conns| && conns[i].family != Unspec && conns[i].number.Some?
  }

  ghost predicate FirstUsableAt(conns: seq<ConnLine>, i: int) {
    UsableAt(conns, i) && forall i' | 0 <= i' < i :: !UsableAt(conns, i')
  }

  ghost predicate AudioMapAt(media: seq<Media>, j: int, k: int) {
    0 <= j < |media| && media[j].rtp && media[j].audio && 0 <= k < |media[j].maps|
  }

  ghost predicate MapAt(media: seq<Media>, j: int, k: int, wanted: Option<string>) {
    AudioMapAt(media, j, k) && Takes(media[j].maps[k], wanted)
  }

  ghost predicate FirstMapAt(media: seq<Media>, j: int, k: int, wanted: Option<string>) {
    && MapAt(media, j, k, wanted)
    && (forall j', k' | MapAt(media, j', k', wanted) :: j < j' || (j == j' && k <= k'))
  }

  // ---------------------------------------------------------------- what the loops compute

  function FirstConn(conns: seq<ConnLine>): Option<ConnLine> {
    if conns == [] then None
    else if conns[0].family != Unspec && conns[0].number.Some? then Some(conns[0])
    else FirstConn(conns[1..])
  }

  function FirstInMaps(maps: seq<RtpMap>, wanted: Option<string>): Option<nat> {
    if maps == [] then None
    else if Takes(maps[0], wanted) then Some(maps[0].pt)
    else FirstInMaps(maps[1..], wanted)
  }

  datatype Stream = Stream(port: nat, pt: nat)

  function FirstStream(media: seq<Media>, wanted: Option<string>): Option<Stream> {
    if media == [] then None
    else
      var pt := if media[0].rtp && media[0].audio then FirstInMaps(media[0].maps, wanted) else None;
      if pt.Some? then Some(Stream(media[0].port % 0x1_0000, pt.value)) else FirstStream(media[1..], wanted)
  }

  datatype Picked = Picked(ok: bool, addr: Addr, payloadType: nat)

  // The address and payload type a leg is left with. A failed pick may already have
  // replaced the address's number or the payload type, never the port.
  function Pick(pl: Payload, addr: Addr, payloadType: nat, wanted: Option<string>): Picked {
    if pl.NoPayload? || pl.session.None? then Picked(false, addr, payloadType)
    else
      var conn := FirstConn(pl.session.value.conns);
      var stream := FirstStream(pl.session.value.media, wanted);
      var addr1 := if conn.Some? && conn.value.number.Some?
                   then Addr(conn.value.family, conn.value.number.value, addr.port) else addr;
      var pt1 := if stream.Some? then stream.value.pt else payloadType;
      if conn.Some? && stream.Some? then Picked(true, addr1.(port := stream.value.port), pt1)
      else Picked(false, addr1, pt1)
  }

  predicate KnownIn(maps: seq<RtpMap>) {
    exists k | 0 <= k < |maps| :: KnownCodec(maps[k].encoding)
  }

  predicate Screened(pl: Payload) {
    && pl.Payload? && pl.session.Some?
    && exists j | 0 <= j < |pl.session.value.media| ::
         pl.session.value.media[j].rtp && pl.session.value.media[j].audio && KnownIn(pl.session.value.media[j].maps)
  }

  // The mode of the first media; an inactive one reads as none.
  function MediaMode(pl: Payload): Option<Mode> {
    if pl.NoPayload? || pl.session.None? || pl.session.value.media == [] then None
    else
      var mode := pl.session.value.media[0].mode;
      if mode == Inactive then None else Some(mode)
  }

  // ---------------------------------------------------------------- proofs

  lemma {:induction false} FirstConnIsFirst(conns: seq<ConnLine>)
    ensures FirstConn(conns).Some? <==> exists i :: UsableAt(conns, i)
    ensures FirstConn(conns).Some? ==> exists i :: FirstUsableAt(conns, i) && FirstConn(conns).value == conns[i]
  {
    if conns != [] {
      if UsableAt(conns, 0) {
        assert FirstUsableAt(conns, 0);
      } else {
        var rest := conns[1..];
        FirstConnIsFirst(rest);
        assert forall i :: UsableAt(rest, i) <==> UsableAt(conns, i + 1) && i >= 0;
        assert forall i :: UsableAt(conns, i) ==> UsableAt(rest, i - 1);
        if FirstConn(rest).Some? {
          var i :| FirstUsableAt(rest, i) && FirstConn(rest).value == rest[i];
          assert FirstUsableAt(conns, i + 1);
        }
      }
    }
  }

  lemma {:induction false} FirstInMapsIsFirst(maps: seq<RtpMap>, wanted: Option<string>)
    ensures FirstInMaps(maps, wanted).None? ==> forall k | 0 <= k < |maps| :: !Takes(maps[k], wanted)
    ensures FirstInMaps(maps, wanted).Some? ==>
              exists k | 0 <= k < |maps| :: Takes(maps[k], wanted) && maps[k].pt == FirstInMaps(maps, wanted).value
                                            && forall k' | 0 <= k' < k :: !Takes(maps[k'], wanted)
  {
    if maps != [] && !Takes(maps[0], wanted) {
      FirstInMapsIsFirst(maps[1..], wanted);
      if FirstInMaps(maps, wanted).Some? {
        var k :| 0 <= k < |maps[1..]| && Takes(maps[1..][k], wanted)
          && maps[1..][k].pt == FirstInMaps(maps, wanted).value
                 && forall k' | 0 <= k' < k :: !Takes(maps[1..][k'], wanted);
        assert maps[k + 1] == maps[1..][k];
        forall k' | 0 <= k' < k + 1 ensures !Takes(maps[k'], wanted) {
          if k' > 0 { assert maps[k'] == maps[1..][k' - 1]; }
        }
      } else {
        forall k | 0 <= k < |maps| ensures !Takes(maps[k], wanted) {
          if k > 0 { assert maps[k] == maps[1..][k - 1]; }
        }
      }
    }
  }

  lemma {:induction false} FirstStreamIsFirst(media: seq<Media>, wanted: Option<string>)
    ensures FirstStream(media, wanted).Some? <==> exists j, k :: MapAt(media, j, k, wanted)
    ensures FirstStream(media, wanted).Some? ==>
              exists j, k :: FirstMapAt(media, j, k, wanted)
                             && FirstStream(media, wanted).value ==
                                Stream(media[j].port % 0x1_0000, media[j].maps[k].pt)
  {
    if media != [] {
      var rest := media[1..];
      FirstInMapsIsFirst(media[0].maps, wanted);
      FirstStreamIsFirst(rest, wanted);
      assert forall j, k :: MapAt(rest, j, k, wanted) ==> MapAt(media, j + 1, k, wanted);
      assert forall j, k :: MapAt(media, j, k, wanted) && j > 0 ==> MapAt(rest, j - 1, k, wanted);
      if media[0].rtp && media[0].audio && FirstInMaps(media[0].maps, wanted).Some? {
        var maps := media[0].maps;
        var k :| 0 <= k < |maps| && Takes(maps[k], wanted) && maps[k].pt == FirstInMaps(maps, wanted).value
                 && forall k' | 0 <= k' < k :: !Takes(maps[k'], wanted);
        assert FirstMapAt(media, 0, k, wanted);
      } else {
        assert forall k :: !MapAt(media, 0, k, wanted);
        if FirstStream(rest, wanted).Some? {
          var j, k :| FirstMapAt(rest, j, k, wanted)
                      && FirstStream(rest, wanted).value == Stream(rest[j].port % 0x1_0000, rest[j].maps[k].pt);
          assert FirstMapAt(media, j + 1, k, wanted);
        }
      }
    }
  }

  // A pick succeeds exactly when some connection line is usable and some audio rtpmap is
  // taken; it then takes the first such line, and the port and payload type of the same
  // first rtpmap.
  lemma PickRefinesChoice(text: string, session: Session, addr: Addr, payloadType: nat, wanted: Option<string>)
    ensures var p := Pick(Payload(text, Some(session)), addr, payloadType, wanted);
            && (p.ok <==>
                  (exists i :: UsableAt(session.conns, i)) && (exists j, k :: MapAt(session.media, j, k, wanted)))
            && (p.ok ==> exists i, j, k ::
                  && FirstUsableAt(session.conns, i) && FirstMapAt(session.media, j, k, wanted)
                  && p.addr == Addr(session.conns[i].family, session.conns[i].number.value,
                     session.media[j].port % 0x1_0000)
                  && p.payloadType == session.media[j].maps[k].pt)
            && (!p.ok ==> p.addr.port == addr.port)
  {
    FirstConnIsFirst(session.conns);
    FirstStreamIsFirst(session.media, wanted);
  }

  // An offer that passes screening fails an any-codec pick exactly for lack of a usable
  // connection line.
  lemma ScreenedFailsOnlyForConnection(pl: Payload, addr: Addr, payloadType: nat)
    requires Screened(pl)
    ensures Pick(pl, addr, payloadType, None).ok <==> exists i :: UsableAt(pl.session.value.conns, i)
  {
    var media := pl.session.value.media;
    var j :| 0 <= j < |media| && media[j].rtp && media[j].audio && KnownIn(media[j].maps);
    var k :| 0 <= k < |media[j].maps| && KnownCodec(media[j].maps[k].encoding);
    assert MapAt(media, j, k, None);
    FirstConnIsFirst(pl.session.value.conns);
    FirstStreamIsFirst(media, None);
  }

  // An address with a port has a family.
  predicate Placeable(addr: Addr) {
    addr.port != 0 ==> addr.family != Unspec
  }

  lemma PickStaysPlaceable(pl: Payload, addr: Addr, payloadType: nat, wanted: Option<string>)
    requires Placeable(addr)
    ensures Placeable(Pick(pl, addr, payloadType, wanted).addr)
    ensures Pick(pl, addr, payloadType, wanted).ok ==> Pick(pl, addr, payloadType, wanted).addr.family != Unspec
  {
    if pl.Payload? && pl.session.Some? {
      FirstConnIsFirst(pl.session.value.conns);
    }
  }
}
