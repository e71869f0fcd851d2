/** What a room accepts from its clients and turns into a message to broadcast. */
module RoomRules {
  import opened Base
  import opened Envelope
  import opened HistorySpec

  const MAX_ROOM_NAME := 64
  const MAX_NICK := 32

  predicate RoomChar(c: char) { 'a' <= c <= 'z' || '0' <= c <= '9' || c == '-' || c == '_' }

  /** A name that can safely become a file name. */
  predicate ValidRoomName(name: string) {
    name != "" && ByteLen(name) <= MAX_ROOM_NAME && forall i :: 0 <= i < |name| ==> RoomChar(name[i])
  }

  /** The characters Unicode counts as white space. */
  predicate IsSpace(c: char) {
    var x := c as int;
    || 0x09 <= x <= 0x0D || x == 0x20 || x == 0x85 || x == 0xA0 || x == 0x1680
    || 0x2000 <= x <= 0x200A || x == 0x2028 || x == 0x2029 || x == 0x202F || x == 0x205F || x == 0x3000
  }

  function TrimLeft(s: string): string {
    if s != "" && IsSpace(s[0]) then TrimLeft(s[1..]) else s
  }

  function TrimRight(s: string): string {
    if s != "" && IsSpace(s[|s| - 1]) then TrimRight(s[..|s| - 1]) else s
  }

  predicate IsControl(c: char) { c as int < 0x20 || c as int == 0x7F }

  /** The nickname to sign, or `None` if it is refused. */
  function CleanNick(nick: string): Option<string> {
    var n := TrimRight(TrimLeft(nick));
    if n == "" then None
    else if ByteLen(n) > MAX_NICK then None
    else if exists i :: 0 <= i < |n| && IsControl(n[i]) then None
    else Some(n)
  }

  /** White space from end to end. */
  predicate Blank(s: string) { forall i :: 0 <= i < |s| ==> IsSpace(s[i]) }

  /** Empty, or visible at both ends. */
  predicate Tight(s: string) { s == "" || (!IsSpace(s[0]) && !IsSpace(s[|s| - 1])) }

  /** What is left of a nickname without the white space around it. */
  ghost predicate Trims(nick: string, n: string) {
    Tight(n) && exists l, r :: Blank(l) && Blank(r) && nick == l + n + r
  }

  lemma {:induction false} TrimLeftExact(l: string, s: string)
    requires Blank(l) && (s == "" || !IsSpace(s[0]))
    ensures TrimLeft(l + s) == s
  {
    if l == "" {
      assert l + s == s;
    } else {
      assert (l + s)[1..] == l[1..] + s;
      TrimLeftExact(l[1..], s);
    }
  }

  lemma {:induction false} TrimRightExact(s: string, r: string)
    requires Blank(r) && (s == "" || !IsSpace(s[|s| - 1]))
    ensures TrimRight(s + r) == s
  {
    if r == "" {
      assert s + r == s;
    } else {
      assert (s + r)[..|s + r| - 1] == s + r[..|r| - 1];
      TrimRightExact(s, r[..|r| - 1]);
    }
  }

  lemma {:induction false} TrimLeftCuts(s: string) returns (l: string)
    ensures Blank(l) && s == l + TrimLeft(s) && (TrimLeft(s) == "" || !IsSpace(TrimLeft(s)[0]))
  {
    if s != "" && IsSpace(s[0]) {
      l := TrimLeftCuts(s[1..]);
      l := [s[0]] + l;
    } else {
      l := "";
    }
  }

  lemma {:induction false} TrimRightCuts(s: string) returns (r: string)
    ensures Blank(r) && s == TrimRight(s) + r && (TrimRight(s) == "" || !IsSpace(TrimRight(s)[|TrimRight(s)| - 1]))
  {
    if s != "" && IsSpace(s[|s| - 1]) {
      r := TrimRightCuts(s[..|s| - 1]);
      r := r + [s[|s| - 1]];
    } else {
      r := "";
    }
  }

  /** Every nickname is some n with white space around it, and nothing else. */
  lemma NickTrims(nick: string) returns (n: string)
    ensures Trims(nick, n)
  {
    var l := TrimLeftCuts(nick);
    var r := TrimRightCuts(TrimLeft(nick));
    n := TrimRight(TrimLeft(nick));
    assert nick == l + n + r;
    assert n != "" ==> n[0] == TrimLeft(nick)[0];
  }

  /** A nickname fit to be signed. */
  predicate GoodNick(n: string) {
    n != "" && ByteLen(n) <= MAX_NICK && forall i :: 0 <= i < |n| ==> !IsControl(n[i])
  }

  /** For every nickname: what is signed is all of it but the white space around
      it, and it is refused exactly if that is empty, too long, or has control
      characters. */
  lemma CleanNickExact(nick: string, n: string)
    requires Trims(nick, n)
    ensures CleanNick(nick) == if GoodNick(n) then Some(n) else None
  {
    var l, r :| Blank(l) && Blank(r) && nick == l + n + r;
    assert TrimRight(TrimLeft(nick)) == n by {
      if n == "" {
        assert nick == (l + r) + "";
        TrimLeftExact(l + r, "");
      } else {
        assert nick == l + (n + r);
        TrimLeftExact(l, n + r);
        TrimRightExact(n, r);
      }
    }
  }

  const ALPHABET := "abcdefghijklmnopqrstuvwxyz0123456789-_"

  lemma InAlphabet(c: char)
    requires RoomChar(c)
    ensures c in ALPHABET
  {
    if 'a' <= c <= 'z' {
      assert ALPHABET[c as int - 'a' as int] == c;
    } else if '0' <= c <= '9' {
      assert ALPHABET[26 + c as int - '0' as int] == c;
    } else {
      assert ALPHABET[36] == '-' && ALPHABET[37] == '_';
    }
  }

  /** The names that are accepted, spelled out: 1 to 64 of these 38 characters, so
      no path separator and no dot. */
  lemma RoomNameExact(name: string)
    ensures ValidRoomName(name) <==> 1 <= |name| <= 64 && forall i :: 0 <= i < |name| ==> name[i] in ALPHABET
  {
    if forall i :: 0 <= i < |name| ==> RoomChar(name[i]) {
      forall i | 0 <= i < |name| ensures name[i] in ALPHABET {
        InAlphabet(name[i]);
      }
      AsciiBytes(name);
    }
    hide ByteLen;
    if forall i :: 0 <= i < |name| ==> name[i] in ALPHABET {
      forall i | 0 <= i < |name| ensures RoomChar(name[i]) {
        OfAlphabet(name[i]);
      }
    }
    hide *;
  }

  lemma OfAlphabet(c: char)
    requires c in ALPHABET
    ensures RoomChar(c)
  {
    var i :| 0 <= i < 38 && ALPHABET[i] == c;
  }

  lemma {:induction false} AsciiBytes(s: string)
    requires forall i :: 0 <= i < |s| ==> s[i] as int < 0x80
    ensures ByteLen(s) == |s|
  {
    if s != "" {
      AsciiBytes(s[1..]);
    }
  }

  datatype HubConfig = HubConfig(store: Config, imageMaxBytes: i64, maxTextBytes: i64, outboundBuffer: i64) {
    function Buffer(): (n: nat)
      ensures n >= 1
    {
      if outboundBuffer < 1 then 1 else outboundBuffer
    }
  }

  /** A frame a session passes on to its room. */
  datatype Frame =
    | SendFrame(nick: string, kind: Kind, p: string, mime: string, w: i64, h: i64)
    | ShushFrame(nick: string, sn: u64)
    | BackfillFrame(from: u64, to: u64)

  /** What the room makes of a frame: a refusal, nothing, or a header and payload
      to number, seal, archive and fan out. */
  datatype Draft = Rejected | Ignored | Cast(header: Header, payload: string)

  function BlankHeader(room: string, nick: string, kind: Kind): Header {
    Header(0, room, 0, 0, nick, kind, "", "", "", 0, 0)
  }

  function Publish(cfg: HubConfig, room: string, f: Frame): Draft
    requires f.SendFrame?
  {
    match CleanNick(f.nick)
    case None => Rejected
    case Some(nick) =>
      var header := BlankHeader(room, nick, f.kind);
      match f.kind
      case Text =>
        if f.p == "" || ByteLen(f.p) > cfg.maxTextBytes then Rejected else Cast(header, f.p)
      case Image =>
        if f.p == "" || ByteLen(f.p) > cfg.imageMaxBytes || f.mime == "" then Rejected
        else Cast(header.(mime := f.mime, w := f.w, h := f.h), f.p)
      case _ => Rejected
  }

  function ShushDraft(o: Ops, room: string, h: Hist, f: Frame): Draft
    requires f.ShushFrame?
  {
    match CleanNick(f.nick)
    case None => Rejected
    case Some(nick) =>
      if f.sn == 0 || f.sn > h.lastSeq then Rejected
      else if f.sn in h.shushed then Ignored
      else Cast(BlankHeader(room, nick, Shush), MarshalShush(o, f.sn))
  }

  /** The numbered and sealed message of a draft; `None` if sealing refuses it. */
  function SealDraft(o: Ops, d: Draft, sn: u64, ts: i64): Option<Message>
    requires d.Cast?
  {
    Seal(o, d.header.(sn := sn, ts := ts), d.payload)
  }

  /** The header of what a client sends: its room, its trimmed nickname and its
      kind, an image's own description, and nothing else. */
  function SentHeader(room: string, n: string, f: Frame): Header
    requires f.SendFrame?
  {
    if f.kind.Image? then Header(0, room, 0, 0, n, f.kind, "", "", f.mime, f.w, f.h)
    else Header(0, room, 0, 0, n, f.kind, "", "", "", 0, 0)
  }

  /** A send is broadcast exactly if its trimmed nickname is good, its kind is one
      clients may send, its payload is within that kind's ceiling, and an image
      has a MIME type; what is broadcast is what the client sent, under the
      trimmed nickname. Otherwise it is refused. */
  lemma PublishExact(cfg: HubConfig, room: string, f: Frame, n: string)
    requires f.SendFrame? && Trims(f.nick, n)
    ensures Publish(cfg, room, f) ==
      if GoodNick(n) && f.p != ""
         && ((f.kind.Text? && ByteLen(f.p) <= cfg.maxTextBytes)
             || (f.kind.Image? && ByteLen(f.p) <= cfg.imageMaxBytes && f.mime != ""))
      then Cast(SentHeader(room, n, f), f.p) else Rejected
  {
    CleanNickExact(f.nick, n);
    hide CleanNick, GoodNick, Trims;
  }

  /** A shush is refused exactly if the nickname is bad or the target is not
      assigned; one that is withheld already is ignored, without spending a
      sequence; any other is broadcast as a marker for it. */
  lemma ShushExact(o: Ops, room: string, h: Hist, f: Frame, n: string)
    requires f.ShushFrame? && Trims(f.nick, n)
    ensures ShushDraft(o, room, h, f) ==
      if !GoodNick(n) || !(1 <= f.sn <= h.lastSeq) then Rejected
      else if f.sn in h.shushed then Ignored
      else Cast(Header(0, room, 0, 0, n, Shush, "", "", "", 0, 0), MarshalShush(o, f.sn))
  {
    CleanNickExact(f.nick, n);
    hide CleanNick, GoodNick, Trims;
  }

  /** Sealing never rejects what the room lets through, so no sequence is spent
      on a message that is not written. */
  lemma PublishSeals(o: Ops, cfg: HubConfig, room: string, f: Frame, sn: u64, ts: i64)
    requires f.SendFrame? && ValidRoomName(room)
    ensures Publish(cfg, room, f).Cast? ==>
      var m := SealDraft(o, Publish(cfg, room, f), sn, ts);
      m.Some? && Genuine(o, m.value) && m.value.header.sn == sn && ShushTarget(o, m.value) == None
  {
  }

  /** The same for a marker; and it withholds an assigned sequence that was not
      withheld yet. */
  lemma ShushSeals(o: Ops, room: string, h: Hist, f: Frame, sn: u64, ts: i64)
    requires Lawful(o) && f.ShushFrame? && ValidRoomName(room)
    ensures ShushDraft(o, room, h, f).Cast? ==>
      var m := SealDraft(o, ShushDraft(o, room, h, f), sn, ts);
      && m.Some? && Genuine(o, m.value) && m.value.header.sn == sn
      && ShushTarget(o, m.value) == Some(f.sn) && 1 <= f.sn <= h.lastSeq && f.sn !in h.shushed
  {
  }
}
