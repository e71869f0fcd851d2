/** The history object as the source keeps it, each method tied to HistorySpec. */
module History {
  import opened Base
  import opened Envelope
  import opened ArchiveSpec
  import opened HistorySpec
  import opened Serving
  import R = Ring
  import A = Archive

  class History {
    const ops: Ops
    const cfg: Config
    const ring: R.Ring
    const archive: A.Archive
    var shushed: set<u64>
    var lastSeq: u64

    ghost predicate Valid()
      reads this, ring, ring.text, ring.images
    {
      && ring.Valid() && archive.ops == ops
      && ring.maxText == cfg.TextCap() && ring.maxImageBytes == cfg.ImageBudget()
    }

    ghost function State(): Hist
      reads this, ring
    {
      Hist(ring.log, shushed, lastSeq)
    }

    /** The memory of a freshly opened room. */
    constructor (archive: A.Archive, cfg: Config, r: Recovered)
      ensures Valid() && this.archive == archive && this.cfg == cfg && this.ops == archive.ops
      ensures State() == Hist([], r.shushed, r.lastSeq)
      ensures fresh(ring) && fresh(ring.text) && fresh(ring.images)
    {
      this.ops := archive.ops;
      this.cfg := cfg;
      this.archive := archive;
      this.ring := new R.Ring(cfg.maxText, cfg.maxImageBytes);
      shushed := r.shushed;
      lastSeq := r.lastSeq;
    }

    method NextSeq() returns (sn: u64)
      requires Valid() && lastSeq < U64_MAX
      modifies this
      ensures Valid() && State() == HistorySpec.NextSeq(old(State())) && sn == lastSeq
    {
      lastSeq := lastSeq + 1;
      sn := lastSeq;
    }

    /** Records a message in both tiers; `landed` and `failed` are the outcome
        of the write. Memory is updated even when the write fails. */
    method Append(m: Message, landed: nat, failed: bool) returns (ok: bool)
      requires Valid()
      requires landed <= |Line(ops, m)| && (!failed ==> landed == |Line(ops, m)|)
      modifies this, ring, ring.text, ring.images, archive
      ensures Valid() && State() == Remember(ops, old(State()), m)
      ensures archive.file == old(archive.file) + Line(ops, m)[..landed]
      ensures ok == !failed
    {
      if m.header.sn > lastSeq {
        lastSeq := m.header.sn;
      }
      ring.Append(m);
      if m.header.kind.Shush? {
        var target := ParseShush(ops, m.payload);
        if target.Some? {
          shushed := shushed + {target.value};
        }
      }
      ok := archive.Append(Archival(ops, m), landed, failed);
    }

    method MissingAny(from: u64, to: u64, found: Found) returns (b: bool)
      requires to < U64_MAX
      ensures b == Missing(from, to, found, shushed)
    {
      var x: u64 := from;
      while x <= to
        invariant from <= x && (x <= to + 1 || x == from)
        invariant forall y :: from <= y < x ==> y in found || y in shushed
        decreases 1 + to - x
      {
        if x !in found && x !in shushed {
          return true;
        }
        x := x + 1;
      }
      return false;
    }

    /** Assembles [from, to] out of the ring, falling back to the archive, and
        sorts what it found. A span of less than 2^63 sequences comes back as
        assembled; of a wider one the sort may permute the messages. */
    method Serve(from: u64, to: u64) returns (r: Option<Response>)
      requires Valid() && 0 < from && to < U64_MAX
      ensures SameUpToOrder(r, HistorySpec.Serve(ops, cfg, State(), archive.file, from, to))
      ensures to - from < 0x8000_0000_0000_0000 ==> r == HistorySpec.Serve(ops, cfg, State(), archive.file, from, to)
    {
      var warm := ring.Since(from - 1);
      var found: Found := CollectWarm(warm, to);
      var missing := MissingAny(from, to, found);
      if missing {
        var archived := archive.Range(from, to);
        if archived == None {
          return None;
        }
        found := CollectArchived(archived.value, found);
      }
      var msgs, gaps := Assemble(from, to, found);
      var sorted := SortMessages(msgs);
      ghost var spec := HistorySpec.Serve(ops, cfg, State(), archive.file, from, to);
      assert spec == Some(Response(msgs, gaps));
      if from > to {
        assert msgs == [];
        SameLength(sorted, msgs);
      } else if to - from < 0x8000_0000_0000_0000 {
        hide HistorySpec.Serve, SortedByCompare, Narrow;
        ServedIsNarrow(ops, cfg, State(), archive.file, from, to);
        ServeSortsNothing(ops, cfg, State(), archive.file, from, to, sorted);
      }
      return Some(Response(sorted, gaps));
    }

    /** The serving loop, with the open run tracked as the last gap. */
    method Assemble(from: u64, to: u64, found: Found) returns (msgs: seq<Message>, gaps: seq<Gap>)
      requires 0 < from && to < U64_MAX
      ensures Response(msgs, gaps) == PlaceAll(found, shushed, from, to, Response([], []))
    {
      msgs, gaps := [], [];
      var run := false;
      var x: u64 := from;
      while x <= to
        invariant from <= x && (x <= to + 1 || x == from)
        invariant run == (gaps != [])
        invariant PlaceAll(found, shushed, x, to, Response(msgs, gaps))
          == PlaceAll(found, shushed, from, to, Response([], []))
        decreases 1 + to - x
      {
        if x in shushed {
        } else if x in found {
          msgs := msgs + [found[x]];
        } else if run && gaps[|gaps| - 1].to == x - 1 {
          gaps := gaps[|gaps| - 1 := gaps[|gaps| - 1].(to := x)];
        } else {
          gaps := gaps + [Gap(x, x)];
          run := true;
        }
        x := x + 1;
      }
    }

    method Since(since: u64) returns (r: Option<Response>)
      requires Valid() && lastSeq < U64_MAX
      ensures SameUpToOrder(r, HistorySpec.Since(ops, cfg, State(), archive.file, since))
      ensures Orderable(cfg, State()) ==> r == HistorySpec.Since(ops, cfg, State(), archive.file, since)
    {
      if since >= lastSeq {
        return Some(Response([], []));
      }
      var from: u64, to: u64 := since + 1, lastSeq;
      var truncated: seq<Gap> := [];
      var limit := cfg.Limit();
      var span: u64 := to - from + 1;
      if limit > 0 && span > limit {
        var windowStart: u64 := to - limit + 1;
        truncated := [Gap(from, windowStart - 1)];
        from := windowStart;
      }
      var served := Serve(from, to);
      if served == None {
        return None;
      }
      assert [] + served.value.gaps == served.value.gaps;
      return Some(Response(served.value.msgs, truncated + served.value.gaps));
    }

    method Range(from0: u64, to0: u64) returns (r: Option<Response>)
      requires Valid() && lastSeq < U64_MAX
      ensures SameUpToOrder(r, RangeOf(ops, cfg, State(), archive.file, from0, to0))
      ensures Orderable(cfg, State()) ==> r == RangeOf(ops, cfg, State(), archive.file, from0, to0)
    {
      var from, to := from0, to0;
      if from == 0 {
        from := 1;
      }
      if to > lastSeq {
        to := lastSeq;
      }
      if from > to {
        return Some(Response([], []));
      }
      var truncated: seq<Gap> := [];
      var limit := cfg.Limit();
      var span: u64 := to - from + 1;
      if limit > 0 && span > limit {
        var windowEnd: u64 := from + limit - 1;
        truncated := [Gap(windowEnd + 1, to)];
        to := windowEnd;
      }
      var served := Serve(from, to);
      if served == None {
        return None;
      }
      assert served.value.gaps + [] == served.value.gaps;
      return Some(Response(served.value.msgs, served.value.gaps + truncated));
    }
  }

  /** A sort by the comparator. It returns some permutation, and where the
      comparator is an order, one sorted by it; no more is used of it. */
  method SortMessages(ms: seq<Message>) returns (sorted: seq<Message>)
    ensures multiset(sorted) == multiset(ms)
    ensures Narrow(ms) ==> SortedByCompare(sorted)
  {
    sorted := [];
    var i: nat := 0;
    while i < |ms|
      invariant i <= |ms| && multiset(sorted) == multiset(ms[..i])
      invariant Narrow(ms) ==> SortedByCompare(sorted)
    {
      assert forall x :: x in sorted ==> x in multiset(sorted);
      sorted := InsertSorted(sorted, ms[i], ms);
      assert ms[..i + 1] == ms[..i] + [ms[i]];
      i := i + 1;
    }
    assert ms[..|ms|] == ms;
  }

  /** Inserts m behind everything the comparator puts before it or beside it. */
  method InsertSorted(sorted: seq<Message>, m: Message, ghost all: seq<Message>) returns (r: seq<Message>)
    requires forall x :: x in sorted ==> x in all
    requires m in all && (Narrow(all) ==> SortedByCompare(sorted))
    ensures multiset(r) == multiset(sorted) + multiset{m}
    ensures Narrow(all) ==> SortedByCompare(r)
  {
    var k := |sorted|;
    while k > 0 && Compare(sorted[k - 1], m) > 0
      invariant 0 <= k <= |sorted|
      invariant forall j :: k <= j < |sorted| ==> Compare(sorted[j], m) > 0
    {
      k := k - 1;
    }
    r := sorted[..k] + [m] + sorted[k..];
    assert sorted == sorted[..k] + sorted[k..];
    if Narrow(all) {
      InsertKeepsSorted(sorted, m, all, k);
    }
  }

  lemma InsertKeepsSorted(sorted: seq<Message>, m: Message, all: seq<Message>, k: nat)
    requires Narrow(all) && m in all && (forall x :: x in sorted ==> x in all) && SortedByCompare(sorted)
    requires k <= |sorted| && (forall j :: k <= j < |sorted| ==> Compare(sorted[j], m) > 0)
    requires k > 0 ==> Compare(sorted[k - 1], m) <= 0
    ensures SortedByCompare(sorted[..k] + [m] + sorted[k..])
  {
    var r := sorted[..k] + [m] + sorted[k..];
    hide Compare;
    forall i, j | 0 <= i < j < |r| ensures Compare(r[i], r[j]) <= 0 {
      var a, b := r[i], r[j];
      assert a in all && b in all;
      CompareExact(a, b);
      if i < k <= j {
        CompareExact(a, sorted[k - 1]);
        CompareExact(sorted[k - 1], m);
        CompareExact(a, m);
        assert i < k - 1 ==> Compare(sorted[i], sorted[k - 1]) <= 0;
      }
      if j > k {
        CompareExact(b, m);
        CompareExact(m, b);
      }
    }
  }

  method CollectWarm(ms: seq<Message>, to: u64) returns (found: Found)
    ensures found == RingFound(ms, to, map[])
  {
    found := map[];
    var i: nat := 0;
    while i < |ms|
      invariant i <= |ms| && RingFound(ms[i..], to, found) == RingFound(ms, to, map[])
    {
      if ms[i].header.sn <= to {
        found := found[ms[i].header.sn := ms[i]];
      }
      i := i + 1;
    }
  }

  method CollectArchived(ms: seq<Message>, warm: Found) returns (found: Found)
    ensures found == AddArchived(ms, warm)
  {
    found := warm;
    var i: nat := 0;
    while i < |ms|
      invariant i <= |ms| && AddArchived(ms[i..], found) == AddArchived(ms, warm)
    {
      if ms[i].header.sn !in found {
        found := found[ms[i].header.sn := ms[i]];
      }
      i := i + 1;
    }
  }

  /** Opens the archive behind `file`, repairs its tail and recovers the counter
      and the withheld set. The repaired bytes are on disk even if this fails. */
  method OpenHistory(ops: Ops, cfg: Config, archive: A.Archive) returns (h: Option<History>)
    requires archive.ops == ops
    modifies archive
    ensures archive.file == Repair(ops, old(archive.file), REPAIR_ATTEMPTS).0
    ensures h.Some? <==>
      Repair(ops, old(archive.file), REPAIR_ATTEMPTS).1 && OpenMemory(ops, archive.file).Some?
    ensures h.Some? ==>
      && h.value.Valid() && fresh(h.value) && h.value.archive == archive && h.value.cfg == cfg
      && h.value.State() == OpenMemory(ops, archive.file).value
  {
    var ok := archive.RepairTail();
    if !ok {
      return None;
    }
    var r := archive.Recover();
    if r == None {
      return None;
    }
    var got := new History(archive, cfg, r.value);
    return Some(got);
  }
}
