/** What a room's warm ring holds and serves, as functions of everything that
    was ever appended to it. */
module RingSpec {
  import opened Base
  import opened Envelope

  /** The images of a log, or everything else. */
  function OfKind(log: seq<Message>, image: bool): seq<Message> {
    if log == [] then [] else
    OfKind(log[..|log| - 1], image) +
    (if log[|log| - 1].header.kind.Image? == image then [log[|log| - 1]] else [])
  }

  function Texts(log: seq<Message>): seq<Message> { OfKind(log, false) }

  function Images(log: seq<Message>): seq<Message> { OfKind(log, true) }

  function PayloadBytes(ms: seq<Message>): nat {
    if ms == [] then 0 else ByteLen(ms[0].payload) + PayloadBytes(ms[1..])
  }

  /** The last n messages, or all of them. */
  function Last(ms: seq<Message>, n: nat): seq<Message> {
    if |ms| <= n then ms else ms[|ms| - n..]
  }

  /** The text window is the newest maxText texts ever appended, or all of them. */
  lemma TextWindowIsNewest(log: seq<Message>, maxText: nat)
    ensures var ts, w := Texts(log), TextWindow(log, maxText);
      |w| == (if |ts| < maxText then |ts| else maxText) && w == ts[|ts| - |w|..]
  {
  }

  lemma LastPop(ms: seq<Message>, n: nat)
    requires |ms| > n
    ensures Last(ms[1..], n) == Last(ms, n)
  {
  }

  /** Drops messages from the front until the payloads fit the budget. */
  function Fitting(ms: seq<Message>, budget: nat): seq<Message>
    decreases |ms|
  {
    if PayloadBytes(ms) <= budget then ms else assert ms != []; Fitting(ms[1..], budget)
  }

  function TextWindow(log: seq<Message>, maxText: nat): seq<Message> { Last(Texts(log), maxText) }

  function ImageWindow(log: seq<Message>, budget: nat): seq<Message> { Fitting(Images(log), budget) }

  /** Skips the leading messages at or below `since`. */
  function Seek(ms: seq<Message>, since: u64): seq<Message> {
    if ms != [] && ms[0].header.sn <= since then Seek(ms[1..], since) else ms
  }

  /** The two-way merge by sequence. */
  function Merge(text: seq<Message>, images: seq<Message>): seq<Message> {
    if images == [] then text
    else if text == [] then images
    else if text[0].header.sn < images[0].header.sn then [text[0]] + Merge(text[1..], images)
    else [images[0]] + Merge(text, images[1..])
  }

  function RingSince(log: seq<Message>, maxText: nat, budget: nat, since: u64): seq<Message> {
    Merge(Seek(TextWindow(log, maxText), since), Seek(ImageWindow(log, budget), since))
  }

  predicate Ascending(ms: seq<Message>) {
    forall i, j :: 0 <= i < j < |ms| ==> ms[i].header.sn < ms[j].header.sn
  }

  /** The ring still holds the message. */
  predicate Retained(log: seq<Message>, maxText: nat, budget: nat, m: Message) {
    m in TextWindow(log, maxText) || m in ImageWindow(log, budget)
  }

  // ---- The image window ------------------------------------------------

  lemma {:induction false} PayloadBytesAppend(a: seq<Message>, b: seq<Message>)
    ensures PayloadBytes(a + b) == PayloadBytes(a) + PayloadBytes(b)
    ensures |b| == 1 ==> PayloadBytes(b) == ByteLen(b[0].payload)
  {
    if a == [] {
      assert a + b == b;
    } else {
      assert (a + b)[1..] == a[1..] + b;
      PayloadBytesAppend(a[1..], b);
    }
  }

  /** The window is a suffix that fits, and no longer suffix does. */
  lemma {:induction false} FittingIsLongest(ms: seq<Message>, budget: nat)
    ensures |Fitting(ms, budget)| <= |ms|
    ensures Fitting(ms, budget) == ms[|ms| - |Fitting(ms, budget)|..]
    ensures PayloadBytes(Fitting(ms, budget)) <= budget
    ensures forall k :: 0 <= k < |ms| - |Fitting(ms, budget)| ==> PayloadBytes(ms[k..]) > budget
    decreases |ms|
  {
    if PayloadBytes(ms) <= budget {
      assert ms[0..] == ms;
    } else {
      FittingIsLongest(ms[1..], budget);
      var n := |Fitting(ms, budget)|;
      assert ms[1..][|ms| - 1 - n..] == ms[|ms| - n..];
      forall k | 0 <= k < |ms| - n ensures PayloadBytes(ms[k..]) > budget {
        if k == 0 {
          assert ms[0..] == ms;
        } else {
          assert ms[1..][k - 1..] == ms[k..];
        }
      }
    }
  }

  /** What was evicted once never has to be looked at again. */
  lemma {:induction false} FittingAppend(ms: seq<Message>, m: Message, budget: nat)
    ensures Fitting(Fitting(ms, budget) + [m], budget) == Fitting(ms + [m], budget)
    decreases |ms|
  {
    if PayloadBytes(ms) > budget {
      PayloadBytesAppend(ms, [m]);
      assert (ms + [m])[1..] == ms[1..] + [m];
      FittingAppend(ms[1..], m, budget);
    }
  }

  lemma TextWindowAppend(log: seq<Message>, m: Message, n: nat)
    ensures TextWindow(log + [m], n) ==
      if m.header.kind.Image? then TextWindow(log, n) else Last(TextWindow(log, n) + [m], n)
  {
    assert (log + [m])[..|log|] == log;
  }

  lemma ImageWindowAppend(log: seq<Message>, m: Message, budget: nat)
    ensures ImageWindow(log + [m], budget) ==
      if m.header.kind.Image? then Fitting(ImageWindow(log, budget) + [m], budget) else ImageWindow(log, budget)
  {
    assert (log + [m])[..|log|] == log;
    if m.header.kind.Image? {
      FittingAppend(Images(log), m, budget);
    } else {
      assert Images(log + [m]) == Images(log);
    }
  }

  // ---- Serving ---------------------------------------------------------

  lemma SnocAscends(ms: seq<Message>, x: Message)
    requires Ascending(ms)
    requires forall m :: m in ms ==> m.header.sn < x.header.sn
    ensures Ascending(ms + [x])
  {
  }

  lemma LastIsGreatest(ms: seq<Message>)
    requires Ascending(ms) && ms != []
    ensures Ascending(ms[..|ms| - 1]) && ms == ms[..|ms| - 1] + [ms[|ms| - 1]]
    ensures forall m :: m in ms[..|ms| - 1] ==> m.header.sn < ms[|ms| - 1].header.sn
  {
  }

  lemma {:induction false} OfKindMembers(log: seq<Message>, image: bool)
    ensures forall m :: m in OfKind(log, image) <==> m in log && m.header.kind.Image? == image
  {
    if log != [] {
      OfKindMembers(log[..|log| - 1], image);
      assert log == log[..|log| - 1] + [log[|log| - 1]];
    }
  }

  lemma {:induction false} OfKindAscends(log: seq<Message>, image: bool)
    requires Ascending(log)
    ensures Ascending(OfKind(log, image))
  {
    if log != [] {
      LastIsGreatest(log);
      OfKindAscends(log[..|log| - 1], image);
      OfKindMembers(log[..|log| - 1], image);
      if log[|log| - 1].header.kind.Image? == image {
        SnocAscends(OfKind(log[..|log| - 1], image), log[|log| - 1]);
      }
    }
  }

  lemma {:induction false} SeekKeepsNewer(ms: seq<Message>, since: u64)
    requires Ascending(ms)
    ensures Ascending(Seek(ms, since))
    ensures forall m :: m in Seek(ms, since) <==> m in ms && m.header.sn > since
  {
    if ms != [] && ms[0].header.sn <= since {
      SeekKeepsNewer(ms[1..], since);
      assert ms == [ms[0]] + ms[1..];
    } else {
      forall m | m in ms ensures m.header.sn > since {}
    }
  }

  lemma ConsAscends(x: Message, rest: seq<Message>)
    requires Ascending(rest)
    requires forall m :: m in rest ==> x.header.sn < m.header.sn
    ensures Ascending([x] + rest)
  {
  }

  lemma HeadIsLeast(ms: seq<Message>)
    requires Ascending(ms) && ms != []
    ensures Ascending(ms[1..]) && ms == [ms[0]] + ms[1..]
    ensures forall m :: m in ms[1..] ==> ms[0].header.sn < m.header.sn
  {
  }

  lemma {:induction false} MergeMembers(a: seq<Message>, b: seq<Message>)
    ensures forall m :: m in Merge(a, b) <==> m in a || m in b
    decreases |a| + |b|
  {
    if b != [] && a != [] {
      assert a == [a[0]] + a[1..] && b == [b[0]] + b[1..];
      if a[0].header.sn < b[0].header.sn {
        MergeMembers(a[1..], b);
      } else {
        MergeMembers(a, b[1..]);
      }
    }
  }

  lemma {:induction false} MergeAscends(a: seq<Message>, b: seq<Message>)
    requires Ascending(a) && Ascending(b)
    requires forall x, y :: x in a && y in b ==> x.header.sn != y.header.sn
    ensures Ascending(Merge(a, b))
    decreases |a| + |b|
  {
    if b != [] && a != [] {
      HeadIsLeast(a);
      HeadIsLeast(b);
      if a[0].header.sn < b[0].header.sn {
        MergeAscends(a[1..], b);
        MergeMembers(a[1..], b);
        ConsAscends(a[0], Merge(a[1..], b));
      } else {
        MergeAscends(a, b[1..]);
        MergeMembers(a, b[1..]);
        assert a[0] in a && b[0] in b;
        ConsAscends(b[0], Merge(a, b[1..]));
      }
    }
  }

  lemma SuffixAscends(ms: seq<Message>, tail: seq<Message>)
    requires Ascending(ms) && |tail| <= |ms| && tail == ms[|ms| - |tail|..]
    ensures Ascending(tail)
    ensures forall m :: m in tail ==> m in ms
  {
  }

  lemma WindowsAscend(log: seq<Message>, maxText: nat, budget: nat)
    requires Ascending(log)
    ensures Ascending(TextWindow(log, maxText)) && Ascending(ImageWindow(log, budget))
    ensures forall m :: m in TextWindow(log, maxText) ==> m in log && !m.header.kind.Image?
    ensures forall m :: m in ImageWindow(log, budget) ==> m in log && m.header.kind.Image?
  {
    OfKindAscends(log, false);
    OfKindAscends(log, true);
    OfKindMembers(log, false);
    OfKindMembers(log, true);
    FittingIsLongest(Images(log), budget);
    SuffixAscends(Texts(log), TextWindow(log, maxText));
    SuffixAscends(Images(log), ImageWindow(log, budget));
  }

  /** With sequences increasing, the merge serves exactly the retained messages
      above `since`, in strictly increasing order. */
  lemma RingSinceExact(log: seq<Message>, maxText: nat, budget: nat, since: u64)
    requires Ascending(log)
    ensures Ascending(RingSince(log, maxText, budget, since))
    ensures forall m :: m in RingSince(log, maxText, budget, since) <==>
      Retained(log, maxText, budget, m) && m.header.sn > since
    ensures forall m :: Retained(log, maxText, budget, m) ==> m in log
  {
    var t, i := TextWindow(log, maxText), ImageWindow(log, budget);
    WindowsAscend(log, maxText, budget);
    SeekKeepsNewer(t, since);
    SeekKeepsNewer(i, since);
    forall x, y | x in Seek(t, since) && y in Seek(i, since) ensures x.header.sn != y.header.sn {
      var p, q :| 0 <= p < |log| && 0 <= q < |log| && log[p] == x && log[q] == y;
      assert p != q;
    }
    MergeAscends(Seek(t, since), Seek(i, since));
    MergeMembers(Seek(t, since), Seek(i, since));
  }
}
