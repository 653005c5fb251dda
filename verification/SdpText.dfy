/** The text of a forwarded SDP (src/sdp.c): the SDP that one leg received is parsed, its media get
    the mode that the caller asks for, and it is printed again; one that the SIP library cannot
    parse or print goes out as it came in. */
module SdpText {
  import opened Domain
  import opened Sdp

  // The SIP library's parser, and its printer into a buffer of limited size.
  datatype Library = Library(parse: string -> Option<Session>, render: Session -> Option<string>)

  // The library reads back what it prints.
  ghost predicate ReadsBack(lib: Library) {
    forall session :: lib.render(session).Some? ==> lib.parse(lib.render(session).value) == Some(session)
  }

  function InMode(media: seq<Media>, mode: Mode): (r: seq<Media>)
    ensures |r| == |media| && forall j | 0 <= j < |media| :: r[j] == media[j].(mode := mode)
  {
    if media == [] then [] else [media[0].(mode := mode)] + InMode(media[1..], mode)
  }

  function Forwarded(lib: Library, text: string, mode: Mode): string {
    match lib.parse(text)
    case None => text
    case Some(session) =>
      match lib.render(session.(media := InMode(session.media, mode)))
      case None => text
      case Some(printed) => printed
  }

  method SetModes(media: array<Media>, mode: Mode)
    modifies media
    ensures media[..] == InMode(old(media[..]), mode)
  {
    var j := 0;
    while j < media.Length
      invariant j <= media.Length
      invariant forall k | 0 <= k < j :: media[k] == old(media[k]).(mode := mode)
      invariant forall k | j <= k < media.Length :: media[k] == old(media[k])
    {
      media[j] := media[j].(mode := mode);
      j := j + 1;
    }
  }

  // sdp_create_file, for an SDP that was received
  method ForwardSdp(lib: Library, text: string, mode: Mode) returns (out: string)
    ensures out == Forwarded(lib, text, mode)
  {
    var parsed := lib.parse(text);
    if parsed.None? {
      return text;
    }
    var session := parsed.value;
    var media := new Media[|session.media|](j requires 0 <= j < |session.media| => session.media[j]);
    assert media[..] == session.media;
    SetModes(media, mode);
    var printed := lib.render(session.(media := media[..]));
    if printed.None? {
      return text;
    }
    out := printed.value;
  }

  // ---------------------------------------------------------------- what forwarding keeps

  lemma {:induction false} StreamIgnoresMode(media: seq<Media>, mode: Mode, wanted: Option<string>)
    ensures FirstStream(InMode(media, mode), wanted) == FirstStream(media, wanted)
  {
    if media != [] {
      StreamIgnoresMode(media[1..], mode, wanted);
      assert InMode(media, mode)[1..] == InMode(media[1..], mode);
    }
  }

  // The received SDP as the other end would read it.
  function Read(lib: Library, text: string): Payload {
    Payload(text, lib.parse(text))
  }

  // Forwarding changes nothing but the mode: the reader picks the same address, port and payload
  // type as from the original, for any codec it looks for, and screens it alike; and every media has
  // the mode asked for, unless the text went out as it came in.
  lemma ForwardKeepsOffer(lib: Library, text: string, mode: Mode, addr: Addr, payloadType: nat, wanted: Option<string>)
    requires ReadsBack(lib)
    ensures var out := Forwarded(lib, text, mode);
            && Pick(Read(lib, out), addr, payloadType, wanted) == Pick(Read(lib, text), addr, payloadType, wanted)
            && (Screened(Read(lib, out)) <==> Screened(Read(lib, text)))
            && (out == text
                || (lib.parse(text).Some? && lib.parse(out) ==
                      Some(Session(lib.parse(text).value.conns, InMode(lib.parse(text).value.media, mode)))))
  {
    hide Pick;
    var out := Forwarded(lib, text, mode);
    if out != text {
      var session := lib.parse(text).value;
      var changed := session.(media := InMode(session.media, mode));
      assert lib.parse(out) == Some(changed);
      StreamIgnoresMode(session.media, mode, wanted);
      SamePick(text, out, session, changed, addr, payloadType, wanted);
    }
  }

  lemma SamePick(text: string, out: string, a: Session, b: Session, addr: Addr, payloadType: nat,
                 wanted: Option<string>)
    requires a.conns == b.conns && FirstStream(a.media, wanted) == FirstStream(b.media, wanted)
    ensures Pick(Payload(text, Some(a)), addr, payloadType, wanted) ==
            Pick(Payload(out, Some(b)), addr, payloadType, wanted)
  {
    hide FirstStream, FirstConn;
  }

  // The mode the reader finds is the one asked for; an inactive one reads as none.
  lemma ForwardSetsMode(lib: Library, text: string, mode: Mode)
    requires ReadsBack(lib) && lib.parse(text).Some? && Forwarded(lib, text, mode) != text
    ensures MediaMode(Read(lib, Forwarded(lib, text, mode))) ==
            if lib.parse(text).value.media == [] || mode == Inactive then None else Some(mode)
  {
    ForwardKeepsOffer(lib, text, mode, NO_ADDR, 0, None);
  }
}
