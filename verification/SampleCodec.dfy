/** The assumptions on the libraries can be met: a toy codec and signer that
    satisfy every one of them, though its decoders yield nothing but headers that
    can be sealed and envelopes around them. */
module SampleCodec {
  import opened Base
  import opened Envelope

  const MORE: byte := 0x31
  const END: byte := 0x30

  /** A number as that many marks. */
  function EncNat(n: nat): Bytes { if n == 0 then [END] else [MORE] + EncNat(n - 1) }

  function EncNats(ns: seq<nat>): Bytes {
    if ns == [] then [END] else [MORE] + (EncNat(ns[0]) + EncNats(ns[1..]))
  }

  function EncFields(fs: seq<seq<nat>>): Bytes {
    if fs == [] then [END] else [MORE] + (EncNats(fs[0]) + EncFields(fs[1..]))
  }

  lemma HeadTail(a: byte, b: byte, x: Bytes, y: Bytes, p: Bytes, q: Bytes)
    requires ([a] + p) + x == ([b] + q) + y
    ensures a == b && p + x == q + y
  {
    assert ([a] + p) + x == [a] + (p + x) && ([b] + q) + y == [b] + (q + y);
    assert ([a] + (p + x))[0] == ([b] + (q + y))[0];
    assert ([a] + (p + x))[1..] == ([b] + (q + y))[1..];
  }

  lemma {:induction false} NatPrefix(n: nat, m: nat, x: Bytes, y: Bytes)
    requires EncNat(n) + x == EncNat(m) + y
    ensures n == m && x == y
  {
    var p, q: Bytes := if n == 0 then [] else EncNat(n - 1), if m == 0 then [] else EncNat(m - 1);
    HeadTail(if n == 0 then END else MORE, if m == 0 then END else MORE, x, y, p, q) by {
      assert EncNat(n) == [if n == 0 then END else MORE] + p && EncNat(m) == [if m == 0 then END else MORE] + q;
    }
    if n > 0 {
      NatPrefix(n - 1, m - 1, x, y);
    } else {
      assert [] + x == x && [] + y == y;
    }
  }

  lemma {:induction false} NatsPrefix(a: seq<nat>, b: seq<nat>, x: Bytes, y: Bytes)
    requires EncNats(a) + x == EncNats(b) + y
    ensures a == b && x == y
  {
    var p := if a == [] then [] else EncNat(a[0]) + EncNats(a[1..]);
    var q := if b == [] then [] else EncNat(b[0]) + EncNats(b[1..]);
    HeadTail(if a == [] then END else MORE, if b == [] then END else MORE, x, y, p, q) by {
      assert EncNats(a) == [if a == [] then END else MORE] + p && EncNats(b) == [if b == [] then END else MORE] + q;
    }
    if a != [] {
      assert p + x == EncNat(a[0]) + (EncNats(a[1..]) + x) && q + y == EncNat(b[0]) + (EncNats(b[1..]) + y);
      NatPrefix(a[0], b[0], EncNats(a[1..]) + x, EncNats(b[1..]) + y);
      NatsPrefix(a[1..], b[1..], x, y);
      assert a == [a[0]] + a[1..] && b == [b[0]] + b[1..];
    } else {
      assert [] + x == x && [] + y == y;
    }
  }

  lemma {:induction false} FieldsInjective(a: seq<seq<nat>>, b: seq<seq<nat>>)
    requires EncFields(a) == EncFields(b)
    ensures a == b
  {
    assert EncFields(a)[0] == EncFields(b)[0];
    if a != [] {
      assert EncFields(a)[1..] == EncNats(a[0]) + EncFields(a[1..]);
      assert EncFields(b)[1..] == EncNats(b[0]) + EncFields(b[1..]);
      NatsPrefix(a[0], b[0], EncFields(a[1..]), EncFields(b[1..]));
      FieldsInjective(a[1..], b[1..]);
      assert a == [a[0]] + a[1..] && b == [b[0]] + b[1..];
    }
  }

  lemma {:induction false} NatShape(n: nat)
    ensures NoControl(EncNat(n)) && |EncNat(n)| >= 1
  {
    if n > 0 {
      NatShape(n - 1);
    }
  }

  lemma {:induction false} NatsShape(ns: seq<nat>)
    ensures NoControl(EncNats(ns)) && |EncNats(ns)| >= 1 + |ns|
  {
    if ns != [] {
      NatShape(ns[0]);
      NatsShape(ns[1..]);
    }
  }

  lemma {:induction false} FieldsShape(fs: seq<seq<nat>>)
    ensures NoControl(EncFields(fs)) && |EncFields(fs)| >= 1
    ensures forall i :: 0 <= i < |fs| ==> |fs[i]| <= |EncFields(fs)|
  {
    if fs != [] {
      NatsShape(fs[0]);
      FieldsShape(fs[1..]);
      assert fs == [fs[0]] + fs[1..];
    }
  }

  // ---- Values as fields ------------------------------------------------

  function Chars(s: string): seq<nat> { seq(|s|, i requires 0 <= i < |s| => s[i] as nat) }

  function Numbers(b: Bytes): seq<nat> { seq(|b|, i requires 0 <= i < |b| => b[i] as nat) }

  function Signed(i: int): seq<nat> { if i < 0 then [1, -i] else [0, i] }

  function KindField(k: Kind): seq<nat> {
    match k
    case Text => [0]
    case Image => [1]
    case Shush => [2]
    case Unknown(name) => [3] + Chars(name)
  }

  function HeaderFields(h: Header): seq<seq<nat>> {
    [Signed(h.v), Chars(h.room), [h.sn], Signed(h.ts), Chars(h.nick), KindField(h.kind), Chars(h.hash),
     Chars(h.keyId), Chars(h.mime), Signed(h.w), Signed(h.h)]
  }

  function WireFields(w: WireEnvelope): seq<seq<nat>> { [Numbers(w.h), Chars(w.sig), Chars(w.p)] }

  lemma CharsInjective(s: string, t: string)
    requires Chars(s) == Chars(t)
    ensures s == t
  {
    assert |s| == |t|;
    forall i | 0 <= i < |s| ensures s[i] == t[i] {
      assert Chars(s)[i] == Chars(t)[i];
    }
  }

  lemma NumbersInjective(a: Bytes, b: Bytes)
    requires Numbers(a) == Numbers(b)
    ensures a == b
  {
    assert |a| == |b|;
    forall i | 0 <= i < |a| ensures a[i] == b[i] {
      assert Numbers(a)[i] == Numbers(b)[i];
    }
  }

  lemma KindInjective(a: Kind, b: Kind)
    requires KindField(a) == KindField(b)
    ensures a == b
  {
    assert KindField(a)[0] == KindField(b)[0];
    if a.Unknown? {
      assert KindField(a)[1..] == Chars(a.name) && KindField(b)[1..] == Chars(b.name);
      CharsInjective(a.name, b.name);
    }
  }

  function EncHeader(h: Header): Bytes { EncFields(HeaderFields(h)) }

  function EncEnvelope(w: WireEnvelope): Bytes { EncFields(WireFields(w)) }

  lemma HeaderInjective(a: Header, b: Header)
    requires EncHeader(a) == EncHeader(b)
    ensures a == b
  {
    var x, y := HeaderFields(a), HeaderFields(b);
    FieldsInjective(x, y);
    assert forall i :: 0 <= i < 11 ==> x[i] == y[i];
    assert x[0] == y[0] && x[1] == y[1] && x[2] == y[2] && x[3] == y[3] && x[4] == y[4] && x[5] == y[5] && x[6] == y[6]
      && x[7] == y[7] && x[8] == y[8] && x[9] == y[9] && x[10] == y[10];
    CharsInjective(a.room, b.room);
    CharsInjective(a.nick, b.nick);
    KindInjective(a.kind, b.kind);
    CharsInjective(a.hash, b.hash);
    CharsInjective(a.keyId, b.keyId);
    CharsInjective(a.mime, b.mime);
  }

  lemma WireInjective(a: WireEnvelope, b: WireEnvelope)
    requires EncEnvelope(a) == EncEnvelope(b)
    ensures a == b
  {
    var x, y := WireFields(a), WireFields(b);
    FieldsInjective(x, y);
    assert x[0] == y[0] && x[1] == y[1] && x[2] == y[2];
    NumbersInjective(a.h, b.h);
    CharsInjective(a.sig, b.sig);
    CharsInjective(a.p, b.p);
  }

  // ---- The sample libraries --------------------------------------------

  ghost function DecHeader(b: Bytes): Option<Header> {
    if exists h: Header :: h.Validate() && EncHeader(h) == b
    then (var h: Header :| h.Validate() && EncHeader(h) == b; Some(h)) else None
  }

  /** The envelope is around a header that can be sealed. */
  ghost predicate OfHeader(w: WireEnvelope) { exists h: Header :: h.Validate() && EncHeader(h) == w.h }

  ghost function DecEnvelope(b: Bytes): Option<WireEnvelope> {
    if exists w :: OfHeader(w) && EncEnvelope(w) == b
    then (var w :| OfHeader(w) && EncEnvelope(w) == b; Some(w)) else None
  }

  function EncText(b: Bytes): string { seq(|b|, i requires 0 <= i < |b| => b[i] as char) }

  ghost function DecText(s: string): Option<Bytes> {
    if exists b :: EncText(b) == s then (var b :| EncText(b) == s; Some(b)) else None
  }

  function EncTarget(x: u64): string { EncText(EncNat(x)) }

  ghost function DecTarget(s: string): Option<u64> {
    if exists x: u64 :: EncTarget(x) == s then (var x: u64 :| EncTarget(x) == s; Some(x)) else None
  }

  lemma TextInjective(a: Bytes, b: Bytes)
    requires EncText(a) == EncText(b)
    ensures a == b
  {
    assert |a| == |b|;
    forall i | 0 <= i < |a| ensures a[i] == b[i] {
      assert EncText(a)[i] == EncText(b)[i];
    }
  }

  lemma TargetInjective(a: u64, b: u64)
    requires EncTarget(a) == EncTarget(b)
    ensures a == b
  {
    TextInjective(EncNat(a), EncNat(b));
    assert EncNat(a) + [] == EncNat(a) && EncNat(b) + [] == EncNat(b);
    NatPrefix(a, b, [], []);
  }

  /** Its signatures say nothing and its one key accepts them all. */
  ghost function SampleOps(): Ops {
    Ops(
      b => true,
      h => EncHeader(h),
      b => DecHeader(b),
      b => match DecHeader(b) case None => None case Some(h) => Some((h.sn, h.kind)),
      b => match DecHeader(b) case None => None case Some(h) => Some(h.keyId),
      w => EncEnvelope(w),
      b => DecEnvelope(b),
      b => match DecEnvelope(b) case None => None case Some(w) => Some((w.h, w.p)),
      b => EncText(b),
      s => DecText(s),
      (x: u64) => EncTarget(x),
      s => DecTarget(s),
      p => "",
      "key",
      raw => [],
      id => Some([]),
      (k, raw, sig) => true)
  }

  lemma SampleHeader(h: Header)
    requires h.Validate()
    ensures LawfulHeader(SampleOps(), h)
  {
    var d := DecHeader(EncHeader(h));
    HeaderInjective(d.value, h);
    FieldsShape(HeaderFields(h));
    assert HeaderFields(h)[8] == Chars(h.mime);
    hide EncFields, HeaderFields;
  }

  lemma SampleWire(w: WireEnvelope)
    requires OfHeader(w)
    ensures LawfulWire(SampleOps(), w)
  {
    var d := DecEnvelope(EncEnvelope(w));
    WireInjective(d.value, w);
    FieldsShape(WireFields(w));
    assert WireFields(w)[0] == Numbers(w.h);
    hide EncFields, WireFields;
  }

  /** So what is proved of lawful libraries is proved of something. */
  lemma SampleIsLawful()
    ensures Lawful(SampleOps())
    ensures forall b :: SampleOps().decHeader(b).Some? ==> SampleOps().decHeader(b).value.Validate()
    ensures forall b :: SampleOps().decWire(b).Some? ==> OfHeader(SampleOps().decWire(b).value)
  {
    var o := SampleOps();
    forall h: Header | h.Validate() ensures LawfulHeader(o, h) {
      SampleHeader(h);
    }
    forall h: Header, sig: string, p: string | h.Validate()
      ensures LawfulWire(o, WireEnvelope(o.encHeader(h), sig, p))
    {
      SampleWire(WireEnvelope(EncHeader(h), sig, p));
    }
    forall b ensures o.decB64(o.encB64(b)) == Some(b) {
      TextInjective(DecText(EncText(b)).value, b);
    }
    forall x: u64 ensures o.decShush(o.encShush(x)) == Some(x) && o.encShush(x) != "" {
      TargetInjective(DecTarget(EncTarget(x)).value, x);
      NatShape(x);
    }
  }
}
