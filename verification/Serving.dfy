/** What one history response says, whatever the ring and the archive hold:
    nothing is silently spliced. */
module Serving {
  import opened Base
  import opened Envelope
  import opened RingSpec
  import opened ArchiveSpec
  import opened HistorySpec

  predicate InGap(g: Gap, x: int) { g.from <= x <= g.to }

  ghost predicate InGaps(gaps: seq<Gap>, x: int) { exists i :: 0 <= i < |gaps| && InGap(gaps[i], x) }

  /** Disjoint, ascending, within [from, upto), and with something served or
      withheld between any two: each is a maximal run. */
  ghost predicate GapsOrdered(gaps: seq<Gap>, from: int, upto: int) {
    && (forall i :: 0 <= i < |gaps| ==> from <= gaps[i].from <= gaps[i].to < upto)
    && (forall i, j :: 0 <= i < j < |gaps| ==> gaps[i].to + 1 < gaps[j].from)
  }

  /** The messages of a response are exactly those found and not withheld. */
  ghost predicate MsgsExact(found: Found, shushed: set<u64>, from: int, upto: int, msgs: seq<Message>) {
    && Ascending(msgs)
    && (forall m :: m in msgs <==>
         from <= m.header.sn < upto && m.header.sn !in shushed && m.header.sn in found && found[m.header.sn] == m)
  }

  /** The gaps of a response are exactly what is neither found nor withheld. */
  ghost predicate GapsExact(found: Found, shushed: set<u64>, from: int, upto: int, gaps: seq<Gap>) {
    && GapsOrdered(gaps, from, upto)
    && (forall x: u64 :: from <= x < upto ==> (InGaps(gaps, x) <==> x !in found && x !in shushed))
  }

  ghost predicate Keyed(found: Found) { forall x :: x in found ==> found[x].header.sn == x }

  lemma PlaceMsgs(found: Found, shushed: set<u64>, from: u64, x: u64, r: Response)
    requires Keyed(found) && 0 < from <= x
    requires MsgsExact(found, shushed, from, x, r.msgs)
    ensures MsgsExact(found, shushed, from, x + 1, Place(found, shushed, x, r).msgs)
  {
  }

  lemma PlaceGaps(found: Found, shushed: set<u64>, from: u64, x: u64, r: Response)
    requires 0 < from <= x
    requires GapsExact(found, shushed, from, x, r.gaps)
    ensures GapsExact(found, shushed, from, x + 1, Place(found, shushed, x, r).gaps)
  {
    var gaps := r.gaps;
    var gaps' := Place(found, shushed, x, r).gaps;
    assert !InGaps(gaps, x);
    if x in shushed || x in found {
      assert gaps' == gaps;
    } else if gaps != [] && gaps[|gaps| - 1].to == x - 1 {
      ExtendGap(gaps, x);
    } else {
      NewGap(gaps, x);
      assert gaps != [] ==> gaps[|gaps| - 1].to < x;
    }
  }

  lemma ExtendGap(gaps: seq<Gap>, x: u64)
    requires gaps != [] && gaps[|gaps| - 1].from <= gaps[|gaps| - 1].to == x - 1
    ensures var gaps' := gaps[|gaps| - 1 := gaps[|gaps| - 1].(to := x)];
      forall y :: InGaps(gaps', y) <==> InGaps(gaps, y) || y == x
  {
    var n := |gaps| - 1;
    var gaps' := gaps[n := gaps[n].(to := x)];
    forall y ensures InGaps(gaps', y) <==> InGaps(gaps, y) || y == x {
      if InGaps(gaps, y) {
        var i :| 0 <= i < |gaps| && InGap(gaps[i], y);
        assert InGap(gaps'[i], y);
      }
      if y == x {
        assert InGap(gaps'[n], y);
      }
      if InGaps(gaps', y) {
        var i :| 0 <= i < |gaps'| && InGap(gaps'[i], y);
        assert y == x || InGap(gaps[i], y);
      }
    }
  }

  lemma NewGap(gaps: seq<Gap>, x: u64)
    ensures forall y :: InGaps(gaps + [Gap(x, x)], y) <==> InGaps(gaps, y) || y == x
  {
    AppendGaps(gaps, [Gap(x, x)]);
    forall y ensures InGaps([Gap(x, x)], y) <==> y == x {
      assert InGaps([Gap(x, x)], y) <==> InGap([Gap(x, x)][0], y);
    }
  }

  lemma AppendGaps(a: seq<Gap>, b: seq<Gap>)
    ensures forall y :: InGaps(a + b, y) <==> InGaps(a, y) || InGaps(b, y)
  {
    forall y ensures InGaps(a + b, y) <==> InGaps(a, y) || InGaps(b, y) {
      if InGaps(a, y) {
        var i :| 0 <= i < |a| && InGap(a[i], y);
        assert InGap((a + b)[i], y);
      }
      if InGaps(b, y) {
        var i :| 0 <= i < |b| && InGap(b[i], y);
        assert InGap((a + b)[|a| + i], y);
      }
    }
  }

  lemma {:induction false} PlaceAllExact(found: Found, shushed: set<u64>, from: u64, x: u64, to: u64, r: Response)
    requires Keyed(found) && 0 < from <= x <= to + 1 && to < U64_MAX
    requires MsgsExact(found, shushed, from, x, r.msgs) && GapsExact(found, shushed, from, x, r.gaps)
    ensures var r' := PlaceAll(found, shushed, x, to, r);
      MsgsExact(found, shushed, from, to + 1, r'.msgs) && GapsExact(found, shushed, from, to + 1, r'.gaps)
    decreases 1 + to - x
  {
    if x <= to {
      hide MsgsExact, GapsExact, Keyed, Place;
      PlaceMsgs(found, shushed, from, x, r);
      PlaceGaps(found, shushed, from, x, r);
      PlaceAllExact(found, shushed, from, x + 1, to, Place(found, shushed, x, r));
    }
  }

  // ---- What was found --------------------------------------------------

  lemma {:induction false} RingFoundExact(ms: seq<Message>, to: u64, acc: Found)
    requires Ascending(ms) && Keyed(acc)
    ensures var f := RingFound(ms, to, acc);
      && Keyed(f)
      && (forall m :: m in ms && m.header.sn <= to ==> m.header.sn in f && f[m.header.sn] == m)
      && (forall x :: x in f ==> (x in acc && f[x] == acc[x]) || (f[x] in ms && x <= to))
      && (forall x :: x in acc ==> x in f)
  {
    if ms != [] {
      HeadIsLeast(ms);
      var m, rest := ms[0], ms[1..];
      var acc' := if m.header.sn <= to then acc[m.header.sn := m] else acc;
      RingFoundExact(rest, to, acc');
      var f := RingFound(rest, to, acc');
      if m.header.sn <= to {
        assert m.header.sn in acc' && m.header.sn in f;
        assert f[m.header.sn] == m;
      }
    }
  }

  lemma {:induction false} AddArchivedExact(ms: seq<Message>, acc: Found)
    requires Keyed(acc)
    ensures var f := AddArchived(ms, acc);
      && Keyed(f)
      && (forall x :: x in acc ==> x in f && f[x] == acc[x])
      && (forall m :: m in ms ==> m.header.sn in f)
      && (forall x :: x in f ==> x in acc || f[x] in ms)
  {
    if ms != [] {
      var m := ms[0];
      AddArchivedExact(ms[1..], if m.header.sn in acc then acc else acc[m.header.sn := m]);
      assert ms == [m] + ms[1..];
    }
  }

  lemma {:induction false} RingFoundKeyed(ms: seq<Message>, to: u64, acc: Found)
    requires Keyed(acc)
    ensures Keyed(RingFound(ms, to, acc))
  {
    if ms != [] {
      RingFoundKeyed(ms[1..], to, if ms[0].header.sn <= to then acc[ms[0].header.sn := ms[0]] else acc);
    }
  }

  lemma LookupKeyed(o: Ops, c: Config, h: Hist, file: Bytes, from: u64, to: u64)
    requires from > 0
    ensures Lookup(o, c, h, file, from, to).Some? ==> Keyed(Lookup(o, c, h, file, from, to).value)
  {
    hide RingFound, AddArchived, RingSince, Range;
    var ms := RingSince(h.warm, c.TextCap(), c.ImageBudget(), from - 1);
    RingFoundKeyed(ms, to, map[]);
    var archived := Range(o, file, from, to);
    if archived.Some? {
      AddArchivedExact(archived.value, RingFound(ms, to, map[]));
    }
  }

  /** Whatever ring and archive hold, a served span is partitioned: each
      sequence is in exactly one of the messages, the gaps and the withheld. */
  lemma ServePartition(o: Ops, c: Config, h: Hist, file: Bytes, from: u64, to: u64)
    requires 0 < from && from <= to + 1 && to < U64_MAX
    ensures Serve(o, c, h, file, from, to).Some? ==>
      var r := Serve(o, c, h, file, from, to).value;
      && Lookup(o, c, h, file, from, to).Some?
      && MsgsExact(Lookup(o, c, h, file, from, to).value, h.shushed, from, to + 1, r.msgs)
      && GapsExact(Lookup(o, c, h, file, from, to).value, h.shushed, from, to + 1, r.gaps)
  {
    LookupKeyed(o, c, h, file, from, to);
    var found := Lookup(o, c, h, file, from, to);
    if found.Some? {
      PlaceAllExact(found.value, h.shushed, from, from, to, Response([], []));
    }
  }

  ghost predicate HasSeq(ms: seq<Message>, x: int) { exists i :: 0 <= i < |ms| && ms[i].header.sn == x }

  /** Each sequence of [from, to] is in exactly one place: a message, a gap, or
      the withheld part of the window [lo, hi] that was actually assembled. */
  ghost predicate Partitioned(r: Response, shushed: set<u64>, from: int, to: int, lo: int, hi: int) {
    && from <= lo && hi <= to
    && Ascending(r.msgs)
    && (forall m :: m in r.msgs ==> lo <= m.header.sn <= hi)
    && (forall i :: 0 <= i < |r.gaps| ==> from <= r.gaps[i].from <= r.gaps[i].to <= to)
    && (forall i, j :: 0 <= i < j < |r.gaps| ==> r.gaps[i].to < r.gaps[j].from)
    && (forall x: u64 :: from <= x <= to ==>
          var withheld := lo <= x <= hi && x in shushed;
          && (withheld ==> !HasSeq(r.msgs, x) && !InGaps(r.gaps, x))
          && (HasSeq(r.msgs, x) ==> !InGaps(r.gaps, x))
          && (withheld || HasSeq(r.msgs, x) || InGaps(r.gaps, x)))
  }

  lemma ExactIsPartitioned(found: Found, shushed: set<u64>, from: u64, to: u64, r: Response)
    requires from <= to + 1
    requires Keyed(found)
    requires MsgsExact(found, shushed, from, to + 1, r.msgs) && GapsExact(found, shushed, from, to + 1, r.gaps)
    ensures Partitioned(r, shushed, from, to, from, to)
  {
  }

  /** At most one message per sequence of the window. */
  lemma {:induction false} AscendingFits(ms: seq<Message>, lo: int, hi: int)
    requires Ascending(ms) && (forall m :: m in ms ==> lo <= m.header.sn <= hi) && lo <= hi + 1
    ensures |ms| <= hi - lo + 1
    decreases |ms|
  {
    if ms != [] {
      LastIsGreatest(ms);
      var last := ms[|ms| - 1];
      assert last in ms;
      assert forall m :: m in ms[..|ms| - 1] ==> m in ms;
      AscendingFits(ms[..|ms| - 1], lo, last.header.sn - 1);
    }
  }

  lemma WindowFits(r: Response, shushed: set<u64>, lo: int, hi: int)
    requires Partitioned(r, shushed, lo, hi, lo, hi) && lo <= hi + 1
    ensures |r.msgs| <= hi - lo + 1
  {
    AscendingFits(r.msgs, lo, hi);
  }

  lemma PrependGap(r: Response, shushed: set<u64>, from: u64, start: u64, to: u64)
    requires 0 < from < start <= to
    requires Partitioned(r, shushed, start, to, start, to)
    ensures Partitioned(r.(gaps := [Gap(from, start - 1)] + r.gaps), shushed, from, to, start, to)
  {
    var g := [Gap(from, start - 1)];
    AppendGaps(g, r.gaps);
    OneGap(from, start - 1);
    assert forall x: u64 :: x < start ==> !HasSeq(r.msgs, x);
    assert forall x: u64 :: x < start ==> !InGaps(r.gaps, x);
  }

  lemma AppendGap(r: Response, shushed: set<u64>, from: u64, end: u64, to: u64)
    requires 0 < from <= end < to
    requires Partitioned(r, shushed, from, end, from, end)
    ensures Partitioned(r.(gaps := r.gaps + [Gap(end + 1, to)]), shushed, from, to, from, end)
  {
    var g := [Gap(end + 1, to)];
    AppendGaps(r.gaps, g);
    OneGap(end + 1, to);
    assert forall x: u64 :: x > end ==> !HasSeq(r.msgs, x);
    assert forall x: u64 :: x > end ==> !InGaps(r.gaps, x);
  }

  lemma OneGap(from: u64, to: u64)
    ensures forall y :: InGaps([Gap(from, to)], y) <==> from <= y <= to
  {
    forall y ensures InGaps([Gap(from, to)], y) <==> from <= y <= to {
      assert InGaps([Gap(from, to)], y) <==> InGap([Gap(from, to)][0], y);
    }
  }

  /** The window Since assembles itself: everything, or the newest part of it. */
  function SinceStart(c: Config, h: Hist, since: u64): (s: int)
    ensures since < s && (since < h.lastSeq ==> s <= h.lastSeq)
    ensures c.Limit() > 0 && since < h.lastSeq ==> h.lastSeq - s + 1 <= c.Limit()
  {
    if c.Limit() > 0 && h.lastSeq - since > c.Limit() then h.lastSeq - c.Limit() + 1 else since + 1
  }

  /** Since in terms of the window it assembles. */
  lemma SinceByWindow(o: Ops, c: Config, h: Hist, file: Bytes, since: u64)
    requires since < h.lastSeq < U64_MAX
    ensures var start := SinceStart(c, h, since);
      Since(o, c, h, file, since) ==
        match Serve(o, c, h, file, start, h.lastSeq)
        case None => None
        case Some(r) => Some(if start > since + 1 then r.(gaps := [Gap(since + 1, start - 1)] + r.gaps) else r)
  {
  }

  /** How much of n sequences one response covers: all, or as many as the
      configured cap. */
  predicate Capped(c: Config, n: int, window: int) {
    if c.maxBackfill > 0 && n > c.maxBackfill then window == c.maxBackfill else
    c.maxBackfill >= 0 ==> window == n
  }

  lemma SinceWindow(o: Ops, c: Config, h: Hist, file: Bytes, since: u64)
    requires since < h.lastSeq < U64_MAX
    ensures Since(o, c, h, file, since).Some? ==>
      var r, start := Since(o, c, h, file, since).value, SinceStart(c, h, since);
      && Partitioned(r, h.shushed, since + 1, h.lastSeq, start, h.lastSeq) && |r.msgs| <= h.lastSeq - start + 1
  {
    hide Since, Serve, Lookup, MsgsExact, GapsExact, SinceStart, Partitioned;
    var start := SinceStart(c, h, since);
    var s := Serve(o, c, h, file, start, h.lastSeq);
    SinceByWindow(o, c, h, file, since);
    ServePartition(o, c, h, file, start, h.lastSeq);
    LookupKeyed(o, c, h, file, start, h.lastSeq);
    if s.Some? {
      ExactIsPartitioned(Lookup(o, c, h, file, start, h.lastSeq).value, h.shushed, start, h.lastSeq, s.value);
      WindowFits(s.value, h.shushed, start, h.lastSeq);
      if start > since + 1 {
        PrependGap(s.value, h.shushed, since + 1, start, h.lastSeq);
      }
    }
  }

  lemma SinceCapped(c: Config, h: Hist, since: u64)
    requires since < h.lastSeq
    ensures Capped(c, h.lastSeq - since, h.lastSeq - SinceStart(c, h, since) + 1)
  {
  }

  /** For every `since`, ring, archive and withheld set: each newer sequence is
      accounted for exactly once, the window is all of them or the newest as many
      as the cap, and messages never exceed the cap. A client at or above the
      newest gets nothing: no message, no gap, no error. */
  lemma SincePartition(o: Ops, c: Config, h: Hist, file: Bytes, since: u64)
    requires h.lastSeq < U64_MAX
    ensures since >= h.lastSeq ==> Since(o, c, h, file, since) == Some(Response([], []))
    ensures since < h.lastSeq ==> Capped(c, h.lastSeq - since, h.lastSeq - SinceStart(c, h, since) + 1)
    ensures Since(o, c, h, file, since).Some? ==>
      var r := Since(o, c, h, file, since).value;
      && Partitioned(r, h.shushed, since + 1, h.lastSeq, SinceStart(c, h, since), h.lastSeq)
      && (c.maxBackfill > 0 ==> |r.msgs| <= c.maxBackfill)
  {
    if since < h.lastSeq {
      hide Since, SinceStart, Partitioned;
      SinceWindow(o, c, h, file, since);
      SinceCapped(c, h, since);
    }
  }

  function RangeFrom(from: u64): u64 { if from == 0 then 1 else from }

  function RangeTo(h: Hist, to: u64): u64 { if to > h.lastSeq then h.lastSeq else to }

  function RangeEnd(c: Config, h: Hist, from: u64, to: u64): (e: u64)
    requires RangeFrom(from) <= RangeTo(h, to)
    ensures RangeFrom(from) <= e <= RangeTo(h, to)
    ensures c.Limit() > 0 ==> e - RangeFrom(from) + 1 <= c.Limit()
  {
    if c.Limit() > 0 && RangeTo(h, to) - RangeFrom(from) + 1 > c.Limit()
    then RangeFrom(from) + c.Limit() - 1 else RangeTo(h, to)
  }

  /** An explicit range in terms of the window it assembles. */
  lemma RangeByWindow(o: Ops, c: Config, h: Hist, file: Bytes, from: u64, to: u64)
    requires h.lastSeq < U64_MAX && RangeFrom(from) <= RangeTo(h, to)
    ensures var end := RangeEnd(c, h, from, to);
      RangeOf(o, c, h, file, from, to) ==
        match Serve(o, c, h, file, RangeFrom(from), end)
        case None => None
        case Some(r) => Some(if end < RangeTo(h, to) then r.(gaps := r.gaps + [Gap(end + 1, RangeTo(h, to))]) else r)
  {
  }

  lemma RangeWindow(o: Ops, c: Config, h: Hist, file: Bytes, from: u64, to: u64)
    requires h.lastSeq < U64_MAX && RangeFrom(from) <= RangeTo(h, to)
    ensures RangeOf(o, c, h, file, from, to).Some? ==>
      var r, end := RangeOf(o, c, h, file, from, to).value, RangeEnd(c, h, from, to);
      && Partitioned(r, h.shushed, RangeFrom(from), RangeTo(h, to), RangeFrom(from), end)
      && |r.msgs| <= end - RangeFrom(from) + 1
  {
    hide RangeOf, Serve, Lookup, MsgsExact, GapsExact, RangeEnd, Partitioned;
    var a, b, end := RangeFrom(from), RangeTo(h, to), RangeEnd(c, h, from, to);
    var s := Serve(o, c, h, file, a, end);
    RangeByWindow(o, c, h, file, from, to);
    ServePartition(o, c, h, file, a, end);
    LookupKeyed(o, c, h, file, a, end);
    if s.Some? {
      ExactIsPartitioned(Lookup(o, c, h, file, a, end).value, h.shushed, a, end, s.value);
      WindowFits(s.value, h.shushed, a, end);
      if end < b {
        AppendGap(s.value, h.shushed, a, end, b);
      }
    }
  }

  lemma RangeCapped(c: Config, h: Hist, from: u64, to: u64)
    requires RangeFrom(from) <= RangeTo(h, to)
    ensures Capped(c, RangeTo(h, to) - RangeFrom(from) + 1, RangeEnd(c, h, from, to) - RangeFrom(from) + 1)
  {
  }

  /** The same for an explicit range, clipped to what has been assigned; one that
      is empty then gets nothing. */
  lemma RangePartition(o: Ops, c: Config, h: Hist, file: Bytes, from: u64, to: u64)
    requires h.lastSeq < U64_MAX
    ensures RangeFrom(from) > RangeTo(h, to) ==> RangeOf(o, c, h, file, from, to) == Some(Response([], []))
    ensures RangeFrom(from) <= RangeTo(h, to) ==>
      Capped(c, RangeTo(h, to) - RangeFrom(from) + 1, RangeEnd(c, h, from, to) - RangeFrom(from) + 1)
    ensures RangeFrom(from) <= RangeTo(h, to) && RangeOf(o, c, h, file, from, to).Some? ==>
      var r := RangeOf(o, c, h, file, from, to).value;
      && Partitioned(r, h.shushed, RangeFrom(from), RangeTo(h, to), RangeFrom(from), RangeEnd(c, h, from, to))
      && (c.maxBackfill > 0 ==> |r.msgs| <= c.maxBackfill)
  {
    if RangeFrom(from) <= RangeTo(h, to) {
      hide RangeOf, RangeEnd, Partitioned;
      RangeWindow(o, c, h, file, from, to);
      RangeCapped(c, h, from, to);
    }
  }

  // ---- The final sort --------------------------------------------------

  /** A uint64 converted to a Go int. */
  function AsInt(x: u64): i64 { if x < 0x8000_0000_0000_0000 then x else x - U64_MAX - 1 }

  /** The int difference the comparator computes, wrapped to 64 bits. */
  function Compare(a: Message, b: Message): i64 { AsInt((AsInt(a.header.sn) - AsInt(b.header.sn)) % (U64_MAX + 1)) }

  /** The wrapped difference has the sign of the true one exactly while the
      sequences are less than 2^63 apart (or exactly that far, ascending). */
  lemma CompareExact(a: Message, b: Message)
    ensures (Compare(a, b) < 0 <==> a.header.sn < b.header.sn) <==>
      -0x8000_0000_0000_0000 <= a.header.sn - b.header.sn < 0x8000_0000_0000_0000
    ensures -0x8000_0000_0000_0000 <= a.header.sn - b.header.sn < 0x8000_0000_0000_0000 ==>
      Compare(a, b) == a.header.sn - b.header.sn
  {
  }

  predicate SortedByCompare(ms: seq<Message>) {
    forall i, j :: 0 <= i < j < |ms| ==> Compare(ms[i], ms[j]) <= 0
  }

  /** The sequences of a response lie less than 2^63 apart. */
  predicate Narrow(ms: seq<Message>) {
    forall m, x :: m in ms && x in ms ==> m.header.sn - x.header.sn < 0x8000_0000_0000_0000
  }

  /** The comparator orders a response by sequence exactly if it is narrow. */
  lemma ComparesExactlyIfNarrow(ms: seq<Message>)
    ensures Narrow(ms) <==>
      forall m, x :: m in ms && x in ms ==> (Compare(m, x) < 0 <==> m.header.sn < x.header.sn)
  {
    hide Compare;
    if Narrow(ms) {
      forall m, x | m in ms && x in ms ensures Compare(m, x) < 0 <==> m.header.sn < x.header.sn {
        CompareExact(m, x);
      }
    }
    if forall m, x :: m in ms && x in ms ==> (Compare(m, x) < 0 <==> m.header.sn < x.header.sn) {
      forall m, x | m in ms && x in ms ensures m.header.sn - x.header.sn < 0x8000_0000_0000_0000 {
        CompareExact(m, x);
      }
    }
  }

  lemma LastComesLast(ms: seq<Message>, sorted: seq<Message>)
    requires Ascending(ms) && Narrow(ms) && ms != [] && |sorted| == |ms|
    requires multiset(sorted) == multiset(ms) && SortedByCompare(sorted)
    ensures sorted[|ms| - 1] == ms[|ms| - 1]
  {
    hide Compare;
    var n := |ms| - 1;
    var last, top := ms[n], sorted[n];
    LastIsGreatest(ms);
    assert top in multiset(ms) && last in multiset(sorted);
    var i :| 0 <= i < |sorted| && sorted[i] == last;
    CompareExact(last, top);
    if i < n {
      assert Compare(sorted[i], sorted[n]) <= 0;
      assert top == last;
    }
  }

  lemma Front(ms: seq<Message>)
    requires ms != []
    ensures SortedByCompare(ms) ==> SortedByCompare(ms[..|ms| - 1])
    ensures Narrow(ms) ==> Narrow(ms[..|ms| - 1])
    ensures Ascending(ms) ==> Ascending(ms[..|ms| - 1])
  {
    hide Compare;
  }

  lemma FrontAndLast(ms: seq<Message>)
    requires ms != []
    ensures ms == ms[..|ms| - 1] + [ms[|ms| - 1]]
    ensures multiset(ms[..|ms| - 1]) == multiset(ms) - multiset{ms[|ms| - 1]}
  {
    assert ms == ms[..|ms| - 1] + [ms[|ms| - 1]];
  }

  lemma SameLength(a: seq<Message>, b: seq<Message>)
    requires multiset(a) == multiset(b)
    ensures |a| == |b|
  {
    assert |multiset(a)| == |a| && |multiset(b)| == |b|;
  }

  /** Whatever permutation a correct sort returns for a narrow ascending
      response, it is that response unchanged. */
  lemma {:induction false} SortIsIdentity(ms: seq<Message>, sorted: seq<Message>)
    requires Ascending(ms) && Narrow(ms)
    requires multiset(sorted) == multiset(ms) && SortedByCompare(sorted)
    ensures sorted == ms
    decreases |ms|
  {
    hide *;
    SameLength(sorted, ms);
    if ms != [] {
      LastComesLast(ms, sorted);
      FrontAndLast(sorted);
      FrontAndLast(ms);
      Front(sorted);
      Front(ms);
      SortIsIdentity(ms[..|ms| - 1], sorted[..|ms| - 1]);
    }
  }

  /** Two responses, or two failures, with the same gaps and the same messages in
      some order. */
  ghost predicate SameUpToOrder(r: Option<Response>, s: Option<Response>) {
    && (r.None? <==> s.None?)
    && (r.Some? ==> r.value.gaps == s.value.gaps && multiset(r.value.msgs) == multiset(s.value.msgs))
  }

  lemma ServedIsNarrow(o: Ops, c: Config, h: Hist, file: Bytes, from: u64, to: u64)
    requires 0 < from && from <= to + 1 && to < U64_MAX && to - from < 0x8000_0000_0000_0000
    ensures Serve(o, c, h, file, from, to).Some? ==>
      var ms := Serve(o, c, h, file, from, to).value.msgs; Ascending(ms) && Narrow(ms)
  {
    hide Serve, Lookup, GapsExact;
    ServePartition(o, c, h, file, from, to);
  }

  /** The sort at the end of a served span of less than 2^63 sequences, whatever
      algorithm it uses, returns the span's messages as they were assembled. */
  lemma ServeSortsNothing(o: Ops, c: Config, h: Hist, file: Bytes, from: u64, to: u64, sorted: seq<Message>)
    requires 0 < from && from <= to + 1 && to < U64_MAX && to - from < 0x8000_0000_0000_0000
    requires Serve(o, c, h, file, from, to).Some?
    requires multiset(sorted) == multiset(Serve(o, c, h, file, from, to).value.msgs) && SortedByCompare(sorted)
    ensures sorted == Serve(o, c, h, file, from, to).value.msgs
  {
    hide *;
    ServedIsNarrow(o, c, h, file, from, to);
    SortIsIdentity(Serve(o, c, h, file, from, to).value.msgs, sorted);
  }

  /** The cap is positive, or no sequence beyond 2^63 was assigned yet. */
  predicate Orderable(c: Config, h: Hist) { c.maxBackfill > 0 || h.lastSeq <= 0x8000_0000_0000_0000 }

  /** Then every window a request assembles is short enough for the sort. */
  lemma OrderableWindows(c: Config, h: Hist, since: u64, from: u64, to: u64)
    requires Orderable(c, h)
    ensures since < h.lastSeq ==> h.lastSeq - SinceStart(c, h, since) < 0x8000_0000_0000_0000
    ensures RangeFrom(from) <= RangeTo(h, to) ==> RangeEnd(c, h, from, to) - RangeFrom(from) < 0x8000_0000_0000_0000
  {
  }

  // ---- Skipping the archive --------------------------------------------

  lemma {:induction false} PlaceAllSame(found: Found, more: Found, shushed: set<u64>, x: u64, to: u64, r: Response)
    requires 0 < x && to < U64_MAX
    requires forall y: u64 :: x <= y <= to && y !in shushed ==> y in found && y in more && found[y] == more[y]
    ensures PlaceAll(found, shushed, x, to, r) == PlaceAll(more, shushed, x, to, r)
    decreases 1 + to - x
  {
    if x <= to {
      PlaceAllSame(found, more, shushed, x + 1, to, Place(found, shushed, x, r));
    }
  }

  lemma {:induction false} AddArchivedKeeps(ms: seq<Message>, acc: Found)
    ensures forall x :: x in acc ==> x in AddArchived(ms, acc) && AddArchived(ms, acc)[x] == acc[x]
  {
    if ms != [] {
      AddArchivedKeeps(ms[1..], if ms[0].header.sn in acc then acc else acc[ms[0].header.sn := ms[0]]);
    }
  }

  /** Skipping the archive when nothing is missing never changes the answer:
      whatever records the archive would have given, what is served is the same. */
  lemma SkipIsHarmless(found: Found, shushed: set<u64>, archived: seq<Message>, from: u64, to: u64, r: Response)
    requires 0 < from && to < U64_MAX && !Missing(from, to, found, shushed)
    ensures PlaceAll(AddArchived(archived, found), shushed, from, to, r) == PlaceAll(found, shushed, from, to, r)
  {
    AddArchivedKeeps(archived, found);
    hide AddArchived;
    PlaceAllSame(found, AddArchived(archived, found), shushed, from, to, r);
  }
}
