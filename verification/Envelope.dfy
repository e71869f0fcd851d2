/** The signed message format: headers, sealing, archival stripping and opening.

    JSON, base64, SHA-256 and Ed25519 are abstract: `Ops` carries them as
    functions, and `Lawful` says what is assumed of them. */
module Envelope {
  import opened Base

  /** A message kind; `Unknown` stands for every string this version does not define. */
  datatype Kind = Text | Image | Shush | Unknown(name: string) {
    predicate Valid() { !Unknown? }
  }

  const VERSION := 1

  /** What an image payload becomes on its way to disk. */
  const PAYLOAD_STRIPPED: string := ""

  datatype Header = Header(
    v: i64, room: string, sn: u64, ts: i64, nick: string, kind: Kind,
    hash: string, keyId: string, mime: string, w: i64, h: i64)
  {
    predicate Validate() {
      kind.Valid() && room != "" && nick != "" && (kind.Image? ==> mime != "")
    }
  }

  /** The three JSON strings of a message on the wire. */
  datatype WireEnvelope = WireEnvelope(h: Bytes, sig: string, p: string)

  /** A sealed message; `wire` is its encoded envelope. */
  datatype Message = Message(header: Header, raw: Bytes, sig: Bytes, payload: string, wire: Bytes) {
    predicate Stripped() { header.kind.Image? && payload == PAYLOAD_STRIPPED }
  }

  type PubKey = Bytes

  datatype Ops = Ops(
    validJson: Bytes -> bool,
    encHeader: Header -> Bytes,
    decHeader: Bytes -> Option<Header>,
    peekHeader: Bytes -> Option<(u64, Kind)>,
    peekKeyId: Bytes -> Option<string>,
    encWire: WireEnvelope -> Bytes,
    decWire: Bytes -> Option<WireEnvelope>,
    peekWire: Bytes -> Option<(Bytes, string)>,
    encB64: Bytes -> string,
    decB64: string -> Option<Bytes>,
    encShush: u64 -> string,
    decShush: string -> Option<u64>,
    hash: string -> string,
    keyId: string,
    sign: Bytes -> Bytes,
    keys: string -> Option<PubKey>,
    verify: (PubKey, Bytes, Bytes) -> bool)

  /** JSON encoders escape every control character, so none appears raw
      (section 7 of RFC 8259). */
  predicate NoControl(b: Bytes) { forall i :: 0 <= i < |b| ==> b[i] >= 0x20 }

  ghost predicate LawfulHeader(o: Ops, h: Header) {
    && o.encHeader(h) != []
    && o.decHeader(o.encHeader(h)) == Some(h)
    && o.peekHeader(o.encHeader(h)) == Some((h.sn, h.kind))
    && o.peekKeyId(o.encHeader(h)) == Some(h.keyId)
    && |h.mime| <= |o.encHeader(h)|
  }

  ghost predicate LawfulWire(o: Ops, w: WireEnvelope) {
    && o.encWire(w) != []
    && NoControl(o.encWire(w))
    && o.validJson(o.encWire(w))
    && o.decWire(o.encWire(w)) == Some(w)
    && o.peekWire(o.encWire(w)) == Some((w.h, w.p))
    && |w.h| <= |o.encWire(w)|
  }

  /** What is assumed of the libraries: decoding inverts encoding on the headers
      that can be sealed and on the envelopes of such headers; an encoded
      envelope is valid JSON without raw control characters and no shorter than
      the strings inside it; and the server's own signature verifies under the
      key its key id resolves to. Nothing is assumed of a header with an
      undefined kind, or of an envelope around bytes that encode no header. */
  ghost predicate Lawful(o: Ops) {
    && (forall h: Header :: h.Validate() ==> LawfulHeader(o, h))
    && (forall h: Header, sig: string, p: string :: h.Validate() ==>
         LawfulWire(o, WireEnvelope(o.encHeader(h), sig, p)))
    && (forall b :: o.decB64(o.encB64(b)) == Some(b))
    && (forall s: u64 :: o.decShush(o.encShush(s)) == Some(s) && o.encShush(s) != "")
    && o.keys(o.keyId).Some?
    && (forall raw :: o.verify(o.keys(o.keyId).value, raw, o.sign(raw)))
  }

  function EncodeWire(o: Ops, raw: Bytes, sig: Bytes, payload: string): Bytes {
    o.encWire(WireEnvelope(raw, o.encB64(sig), payload))
  }

  /** Fills in the server-owned fields, serialises the header once and signs
      those bytes. `None` is the ErrMalformed return. */
  function Seal(o: Ops, h: Header, payload: string): Option<Message> {
    if payload == "" then None else
    var h' := h.(v := VERSION, keyId := o.keyId, hash := o.hash(payload));
    if !h'.Validate() then None else
    var raw := o.encHeader(h');
    var sig := o.sign(raw);
    Some(Message(h', raw, sig, payload, EncodeWire(o, raw, sig, payload)))
  }

  /** The form of a message that belongs on disk. */
  function Archival(o: Ops, m: Message): Message {
    if !m.header.kind.Image? || m.Stripped() then m
    else m.(payload := PAYLOAD_STRIPPED, wire := EncodeWire(o, m.raw, m.sig, PAYLOAD_STRIPPED))
  }

  datatype OpenError = Malformed | UnknownKey | BadSignature | HashMismatch
  datatype OpenResult = Opened(m: Message) | Refused(why: OpenError)

  /** Parses and verifies an encoded envelope: the signature is checked over
      the header bytes before they are parsed. */
  function Open(o: Ops, data: Bytes): OpenResult {
    match o.decWire(data)
    case None => Refused(Malformed)
    case Some(w) =>
      if w.h == [] then Refused(Malformed) else
      match o.decB64(w.sig)
      case None => Refused(Malformed)
      case Some(sig) =>
        match o.peekKeyId(w.h)
        case None => Refused(Malformed)
        case Some(id) =>
          match o.keys(id)
          case None => Refused(UnknownKey)
          case Some(pub) =>
            if !o.verify(pub, w.h, sig) then Refused(BadSignature) else
            match o.decHeader(w.h)
            case None => Refused(Malformed)
            case Some(h) =>
              var m := Message(h, w.h, sig, w.p, data);
              if !m.Stripped() && h.hash != o.hash(w.p) then Refused(HashMismatch) else Opened(m)
  }

  function MarshalShush(o: Ops, sn: u64): string { o.encShush(sn) }

  function ParseShush(o: Ops, payload: string): Option<u64> {
    match o.decShush(payload)
    case Some(s) => if s == 0 then None else Some(s)
    case None => None
  }

  /** A message as this server's signer seals it. */
  ghost predicate Genuine(o: Ops, m: Message) {
    && m.payload != ""
    && m.header.Validate()
    && m.header.v == VERSION
    && m.header.keyId == o.keyId
    && m.header.hash == o.hash(m.payload)
    && m.raw == o.encHeader(m.header)
    && m.sig == o.sign(m.raw)
    && m.wire == EncodeWire(o, m.raw, m.sig, m.payload)
  }

  /** The sequence a marker withholds, if the message is a marker. */
  function ShushTarget(o: Ops, m: Message): Option<u64> {
    if m.header.kind.Shush? then ParseShush(o, m.payload) else None
  }

  /** Sealing succeeds exactly if there is a payload, the kind is a known one, room
      and nickname are not empty, and an image has a MIME type. What it returns is
      genuine, never stripped, and carries the caller's fields. */
  lemma SealExact(o: Ops, h: Header, payload: string)
    ensures Seal(o, h, payload).Some? <==>
      && payload != "" && (h.kind.Text? || h.kind.Image? || h.kind.Shush?) && h.room != "" && h.nick != ""
      && (h.kind.Image? ==> h.mime != "")
    ensures Seal(o, h, payload).Some? ==>
      var m := Seal(o, h, payload).value;
      && Genuine(o, m) && !m.Stripped() && m.payload == payload
      && m.header == Header(VERSION, h.room, h.sn, h.ts, h.nick, h.kind, o.hash(payload), o.keyId, h.mime, h.w, h.h)
  {
  }

  /** A genuine message and its archival form both open to exactly themselves:
      stripping an image's bytes never costs the record its signature. */
  lemma GenuineOpens(o: Ops, m: Message)
    requires Lawful(o) && Genuine(o, m)
    ensures Open(o, m.wire) == Opened(m)
    ensures Open(o, Archival(o, m).wire) == Opened(Archival(o, m))
    ensures Archival(o, Archival(o, m)) == Archival(o, m)
    ensures Archival(o, m).header == m.header
    ensures Archival(o, m).Stripped() <==> m.header.kind.Image?
    ensures Archival(o, m) != m <==> m.header.kind.Image?
  {
    assert LawfulHeader(o, m.header);
    assert LawfulWire(o, WireEnvelope(m.raw, o.encB64(m.sig), m.payload));
    assert LawfulWire(o, WireEnvelope(m.raw, o.encB64(m.sig), PAYLOAD_STRIPPED));
  }

  /** What opens is exactly this: an envelope whose header bytes carry a signature
      that holds under the key they name, whichever of the known keys that is,
      and whose payload matches the header unless it is a stripped image. */
  lemma OpenedIsAuthentic(o: Ops, data: Bytes, m: Message)
    ensures Open(o, data) == Opened(m) <==>
      && m.wire == data && m.raw != []
      && o.decWire(data).Some? && o.decWire(data).value.h == m.raw && o.decWire(data).value.p == m.payload
      && o.decB64(o.decWire(data).value.sig) == Some(m.sig)
      && o.peekKeyId(m.raw).Some? && o.keys(o.peekKeyId(m.raw).value).Some?
      && o.verify(o.keys(o.peekKeyId(m.raw).value).value, m.raw, m.sig)
      && o.decHeader(m.raw) == Some(m.header)
      && (m.header.hash == o.hash(m.payload) || (m.header.kind.Image? && m.payload == ""))
  {
  }

  /** The signature is checked before the header is parsed: under a bad one the
      answer is the same whatever the parser would have made of the header. */
  lemma VerifiedBeforeParsed(o: Ops, data: Bytes, parse: Bytes -> Option<Header>)
    requires Open(o, data) == Refused(BadSignature)
    ensures Open(o.(decHeader := parse), data) == Refused(BadSignature)
  {
  }

  /** A payload swapped after sealing is refused, unless it is an image whose
      payload became the archival placeholder. */
  lemma SwappedPayloadRefused(o: Ops, m: Message, p: string)
    requires Lawful(o) && Genuine(o, m)
    requires o.hash(p) != m.header.hash
    ensures Open(o, EncodeWire(o, m.raw, m.sig, p)) ==
      if m.header.kind.Image? && p == PAYLOAD_STRIPPED then Opened(Archival(o, m)) else Refused(HashMismatch)
  {
    assert LawfulHeader(o, m.header);
    assert LawfulWire(o, WireEnvelope(m.raw, o.encB64(m.sig), p));
  }

  /** A marker's payload reads back as the sequence it was made for; sequence
      zero is not a target. */
  lemma ShushRoundTrip(o: Ops, s: u64)
    requires Lawful(o)
    ensures MarshalShush(o, s) != ""
    ensures ParseShush(o, MarshalShush(o, s)) == if s == 0 then None else Some(s)
  {
  }
}
