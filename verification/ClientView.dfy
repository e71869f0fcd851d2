/** What a client can rely on over several responses: walking back through a cut
    reaches everything once, and every withheld message is explained. */
module ClientView {
  import opened Base
  import opened Envelope
  import opened ArchiveSpec
  import opened HistorySpec
  import opened Serving
  import opened TwoTier

  // ---- Walking back through a truncation gap ---------------------------

  /** The room at the time of one request. */
  datatype Snapshot = Snapshot(h: Hist, file: Bytes, log: seq<Message>)

  /** Requests to one room whose log may grow from one to the next, and whose
      archive reads succeed. */
  ghost predicate Growing(o: Ops, snaps: seq<Snapshot>) {
    && (forall i :: 0 <= i < |snaps| ==> Agrees(o, snaps[i].h, snaps[i].file, snaps[i].log) && AllFit(o, snaps[i].log))
    && (forall i, j :: 0 <= i < j < |snaps| ==> snaps[i].log <= snaps[j].log)
  }

  function SinceAt(o: Ops, c: Config, s: Snapshot, since: u64): Option<Response> {
    if s.h.lastSeq == U64_MAX then None else Since(o, c, s.h, s.file, since)
  }

  function RangeAt(o: Ops, c: Config, s: Snapshot, from: u64, to: u64): Option<Response> {
    if s.h.lastSeq == U64_MAX then None else RangeOf(o, c, s.h, s.file, from, to)
  }

  /** Asks for a span and then, as long as there is one, for the remaining gap. */
  function Walk(o: Ops, c: Config, snaps: seq<Snapshot>, from: u64, to: u64): seq<Response>
    decreases |snaps|, 0
  {
    if snaps == [] then [] else
    match RangeAt(o, c, snaps[0], from, to)
    case None => []
    case Some(r) => [r] + Follow(o, c, snaps[1..], r.gaps)
  }

  /** Walks the last of some gaps. */
  function Follow(o: Ops, c: Config, snaps: seq<Snapshot>, gaps: seq<Gap>): seq<Response>
    decreases |snaps|, 1
  {
    if gaps == [] then [] else Walk(o, c, snaps, gaps[|gaps| - 1].from, gaps[|gaps| - 1].to)
  }

  /** How many responses of at most k messages a span of n takes. */
  function Calls(n: nat, k: nat): nat
    requires k > 0
  {
    if n == 0 then 0 else if n <= k then 1 else 1 + Calls(n - k, k)
  }

  /** It is the ceiling of n / k: the least count whose responses can hold n. */
  lemma {:induction false} CallsIsCeiling(n: nat, k: nat)
    requires k > 0
    ensures n <= Calls(n, k) * k
    ensures n > 0 ==> (Calls(n, k) - 1) * k < n
  {
    if n > k {
      CallsIsCeiling(n - k, k);
      var q := Calls(n - k, k);
      assert (1 + q) * k == k + q * k && q * k == k + (q - 1) * k;
    }
  }

  lemma {:induction false} VisibleSeqs(o: Ops, c: Config, h: Hist, log: seq<Message>, from: nat, to: nat)
    requires 0 < from && to <= |log| && Contiguous(log, 0)
    ensures forall x: nat :: HasSeq(Visible(o, c, h, log, from, to), x) <==> from <= x <= to && x !in h.shushed
    decreases 1 + to - from
  {
    var ms := Visible(o, c, h, log, from, to);
    if from <= to {
      VisibleSeqs(o, c, h, log, from + 1, to);
      var head := if from in h.shushed then [] else [Best(o, c, h, At(log, from))];
      var rest := Visible(o, c, h, log, from + 1, to);
      assert ms == head + rest;
      ArchivalSeq(o, At(log, from));
      forall x: nat ensures HasSeq(ms, x) <==> HasSeq(head, x) || HasSeq(rest, x) {
        HasSeqAppend(head, rest, x);
      }
      forall x: nat ensures HasSeq(head, x) <==> x == from && from !in h.shushed {
        if from !in h.shushed {
          assert head[0].header.sn == from;
        }
      }
    }
  }

  lemma HasSeqAppend(a: seq<Message>, b: seq<Message>, x: nat)
    ensures HasSeq(a + b, x) <==> HasSeq(a, x) || HasSeq(b, x)
  {
    if HasSeq(a, x) {
      var i :| 0 <= i < |a| && a[i].header.sn == x;
      assert (a + b)[i].header.sn == x;
    }
    if HasSeq(b, x) {
      var i :| 0 <= i < |b| && b[i].header.sn == x;
      assert (a + b)[|a| + i].header.sn == x;
    }
  }

  /** Which response of a walk from `from` is to serve sequence x. */
  function Turn(x: nat, from: nat, k: nat): nat
    requires k > 0 && from <= x
    decreases x - from
  {
    if x < from + k then 0 else 1 + Turn(x, from + k, k)
  }

  /** Sequence x is served by response j alone, unless it was withheld by then. */
  ghost predicate OnceAt(snaps: seq<Snapshot>, rs: seq<Response>, x: nat, j: nat) {
    && j < |rs| <= |snaps|
    && (HasSeq(rs[j].msgs, x) <==> x !in snaps[j].h.shushed)
    && (forall i :: 0 <= i < |rs| && i != j ==> !HasSeq(rs[i].msgs, x))
  }

  /** No response serves anything outside [from, to]. */
  ghost predicate Inside(rs: seq<Response>, from: nat, to: nat) {
    forall x: nat, i :: 0 <= i < |rs| && HasSeq(rs[i].msgs, x) ==> from <= x <= to
  }

  ghost predicate OnceEach(snaps: seq<Snapshot>, rs: seq<Response>, from: nat, to: nat, k: nat)
    requires k > 0
  {
    forall x: nat :: from <= x <= to ==> OnceAt(snaps, rs, x, Turn(x, from, k))
  }

  /** The same for a walk whose responses come after a first one. */
  ghost predicate OnceEachAfter(snaps: seq<Snapshot>, rs: seq<Response>, from: nat, to: nat, k: nat)
    requires k > 0
  {
    forall x: nat :: from <= x <= to ==> OnceAt(snaps, rs, x, TurnAfter(x, from, k))
  }

  function TurnAfter(x: nat, from: nat, k: nat): nat
    requires k > 0 && from <= x
  {
    1 + Turn(x, from, k)
  }

  ghost predicate ServesSpan(s: Snapshot, r: Response, from: nat, end: nat) {
    forall x: nat :: HasSeq(r.msgs, x) <==> from <= x <= end && x !in s.h.shushed
  }

  /** One request of the walk: a full window and the gap behind it, or the rest. */
  lemma WalkStep(o: Ops, c: Config, s: Snapshot, from: u64, to: u64)
    requires Lawful(o) && Agrees(o, s.h, s.file, s.log) && AllFit(o, s.log)
    requires c.Limit() > 0 && 0 < from <= to <= |s.log|
    ensures RangeAt(o, c, s, from, to).Some?
    ensures var r := RangeAt(o, c, s, from, to).value;
      var end := if to - from + 1 > c.Limit() then from + c.Limit() - 1 else to;
      r.gaps == (if end < to then [Gap(end + 1, to)] else []) && ServesSpan(s, r, from, end)
  {
    hide Lawful, AllFit, Visible, RangeOf, Contiguous, HasSeq, Targets, FileOf;
    assert s.h.lastSeq == |s.log| && |s.log| < U64_MAX && Contiguous(s.log, 0);
    var end := RangeEnd(c, s.h, from, to);
    assert end == if to - from + 1 > c.Limit() then from + c.Limit() - 1 else to;
    hide *;
    RangeRefines(o, c, s.h, s.file, s.log, from, to);
    VisibleSeqs(o, c, s.h, s.log, from, end);
  }

  lemma GrowingTail(o: Ops, snaps: seq<Snapshot>)
    requires Growing(o, snaps) && snaps != []
    ensures Agrees(o, snaps[0].h, snaps[0].file, snaps[0].log) && AllFit(o, snaps[0].log)
    ensures Growing(o, snaps[1..]) && (|snaps| > 1 ==> |snaps[0].log| <= |snaps[1].log|)
  {
  }

  lemma OnceFirst(snaps: seq<Snapshot>, r: Response, rest: seq<Response>, x: nat)
    requires 1 + |rest| <= |snaps|
    requires HasSeq(r.msgs, x) <==> x !in snaps[0].h.shushed
    requires forall i :: 0 <= i < |rest| ==> !HasSeq(rest[i].msgs, x)
    ensures OnceAt(snaps, [r] + rest, x, 0)
  {
  }

  lemma OnceLater(snaps: seq<Snapshot>, r: Response, rest: seq<Response>, x: nat, j: nat)
    requires snaps != []
    requires !HasSeq(r.msgs, x) && OnceAt(snaps[1..], rest, x, j)
    ensures OnceAt(snaps, [r] + rest, x, j + 1)
  {
  }

  /** A served window followed by a complete walk of what lies behind it. */
  lemma OnceJoin(snaps: seq<Snapshot>, r: Response, rest: seq<Response>, from: nat, next: nat, to: nat, k: nat)
    requires snaps != [] && k > 0 && from < next == from + k <= to
    requires ServesSpan(snaps[0], r, from, next - 1)
    requires |rest| < |snaps| && OnceEach(snaps[1..], rest, next, to, k) && Inside(rest, next, to)
    ensures OnceEach(snaps, [r] + rest, from, to, k) && Inside([r] + rest, from, to)
  {
  }

  lemma OnceOnly(snaps: seq<Snapshot>, r: Response, from: nat, to: nat, k: nat)
    requires snaps != [] && from <= to < from + k
    requires ServesSpan(snaps[0], r, from, to)
    ensures OnceEach(snaps, [r], from, to, k) && Inside([r], from, to)
  {
  }

  /** Walking a span takes exactly ceil(n / k) requests and serves each sequence
      exactly once, in the response its place in the span says, unless it was
      withheld when that response was made; whatever is appended meanwhile. */
  lemma {:induction false} WalkIsComplete(o: Ops, c: Config, snaps: seq<Snapshot>, from: u64, to: u64)
    requires Lawful(o) && Growing(o, snaps) && c.Limit() > 0
    requires snaps != [] && 0 < from <= to <= |snaps[0].log|
    requires |snaps| >= Calls(to - from + 1, c.Limit())
    ensures var rs := Walk(o, c, snaps, from, to);
      && |rs| == Calls(to - from + 1, c.Limit())
      && OnceEach(snaps, rs, from, to, c.Limit())
      && Inside(rs, from, to)
    decreases |snaps|
  {
    hide RangeAt, Agrees, AllFit, Lawful, Growing, OnceEach, Inside, ServesSpan;
    var k := c.Limit();
    GrowingTail(o, snaps);
    WalkStep(o, c, snaps[0], from, to);
    var r := RangeAt(o, c, snaps[0], from, to).value;
    if to - from + 1 <= k {
      OnceOnly(snaps, r, from, to, k);
      assert [r] + [] == [r];
    } else {
      WalkIsComplete(o, c, snaps[1..], from + k, to);
      var rest := Walk(o, c, snaps[1..], from + k, to);
      OnceJoin(snaps, r, rest, from, from + k, to, k);
    }
  }

  lemma FirstWindow(o: Ops, c: Config, s: Snapshot, since: u64)
    requires Lawful(o) && Agrees(o, s.h, s.file, s.log) && AllFit(o, s.log) && since < |s.log|
    ensures SinceAt(o, c, s, since).Some?
    ensures var first, start := SinceAt(o, c, s, since).value, SinceStart(c, s.h, since);
      && first.gaps == (if start > since + 1 then [Gap(since + 1, start - 1)] else [])
      && ServesSpan(s, first, start, |s.log|)
  {
    assert s.h.lastSeq == |s.log| && |s.log| < U64_MAX && Contiguous(s.log, 0);
    hide Lawful, AllFit, Visible, Since, HasSeq, Agrees, Contiguous, SinceStart;
    SinceRefines(o, c, s.h, s.file, s.log, since);
    VisibleSeqs(o, c, s.h, s.log, SinceStart(c, s.h, since), |s.log|);
  }

  /** A client that resumes from `since` and walks back through the gap it was
      given has, after ceil(n / k) further requests for a gap of n, been served
      every sequence since exactly once, unless withheld. */
  lemma ResumeIsComplete(o: Ops, c: Config, snaps: seq<Snapshot>, since: u64)
    requires Lawful(o) && Growing(o, snaps) && c.Limit() > 0
    requires snaps != [] && since < |snaps[0].log| == snaps[0].h.lastSeq
    requires |snaps| > Calls(SinceStart(c, snaps[0].h, since) - since - 1, c.Limit())
    ensures SinceAt(o, c, snaps[0], since).Some?
    ensures var first := SinceAt(o, c, snaps[0], since).value;
      var rest := Follow(o, c, snaps[1..], first.gaps);
      var start := SinceStart(c, snaps[0].h, since);
      && |rest| == Calls(start - since - 1, c.Limit())
      && (forall x: nat :: start <= x <= |snaps[0].log| ==> OnceAt(snaps, [first] + rest, x, 0))
      && OnceEachAfter(snaps, [first] + rest, since + 1, start - 1, c.Limit())
  {
    hide SinceAt, HasSeq, OnceAt, AllFit, Lawful, Growing, Agrees, Walk, SinceStart, Turn;
    var s := snaps[0];
    var start := SinceStart(c, s.h, since);
    GrowingTail(o, snaps);
    FirstWindow(o, c, s, since);
    var first := SinceAt(o, c, s, since).value;
    var rest := Follow(o, c, snaps[1..], first.gaps);
    if start > since + 1 {
      WalkIsComplete(o, c, snaps[1..], since + 1, start - 1);
    }
    forall x: nat | start <= x <= |s.log| ensures OnceAt(snaps, [first] + rest, x, 0) {
      OnceFirst(snaps, first, rest, x);
    }
    var from := since + 1;
    forall x: nat | from <= x <= start - 1 ensures OnceAt(snaps, [first] + rest, x, TurnAfter(x, from, c.Limit())) {
      OnceLater(snaps, first, rest, x, Turn(x, from, c.Limit()));
    }
  }

  // ---- Withheld messages are explained ---------------------------------

  /** The message with sequence y is a marker withholding x. */
  ghost predicate Withholds(o: Ops, log: seq<Message>, y: int, x: u64) {
    1 <= y <= |log| && ShushTarget(o, At(log, y)) == Some(x)
  }

  /** What the room's shush rule keeps: a marker is newer than its target, and no
      sequence has two. */
  ghost predicate MarkersOK(o: Ops, log: seq<Message>) {
    && (forall x: u64, y: int :: Withholds(o, log, y, x) ==> 1 <= x < y)
    && (forall x: u64, y: int, z: int :: Withholds(o, log, y, x) && Withholds(o, log, z, x) ==> y == z)
  }

  lemma MarkerOf(o: Ops, log: seq<Message>, x: u64)
    ensures x in Targets(o, log) <==> exists y :: Withholds(o, log, y, x)
  {
    if x in Targets(o, log) {
      var m :| m in log && ShushTarget(o, m) == Some(x);
      var i :| 0 <= i < |log| && log[i] == m;
      assert Withholds(o, log, i + 1, x);
    }
    if y :| Withholds(o, log, y, x) {
      assert At(log, y) in log;
    }
  }

  /** Appending a text or image, or a marker for an assigned sequence that is not
      withheld yet, keeps the rule. */
  lemma MarkersAppend(o: Ops, log: seq<Message>, m: Message)
    requires MarkersOK(o, log)
    requires ShushTarget(o, m).Some? ==>
      var x := ShushTarget(o, m).value; 1 <= x <= |log| && x !in Targets(o, log)
    ensures MarkersOK(o, log + [m])
  {
    hide Targets, ShushTarget;
    var log' := log + [m];
    assert forall y :: 1 <= y <= |log| ==> At(log', y) == At(log, y);
    assert At(log', |log'|) == m;
    forall x: u64, y | Withholds(o, log', y, x)
      ensures Withholds(o, log, y, x) || (y == |log'| && 1 <= x <= |log| && !exists z :: Withholds(o, log, z, x))
    {
      if y == |log'| {
        MarkerOf(o, log, x);
      }
    }
  }

  /** Markers leading from a withheld sequence to one that is served: each
      element withholds the one before it, and the last is not withheld. */
  ghost predicate Explains(o: Ops, log: seq<Message>, chain: seq<u64>) {
    && chain != []
    && (forall i :: 0 <= i < |chain| ==> 1 <= chain[i] <= |log|)
    && (forall i :: 0 < i < |chain| ==> Withholds(o, log, chain[i], chain[i - 1]) && chain[i - 1] < chain[i])
    && chain[|chain| - 1] !in Targets(o, log)
  }

  lemma {:induction false} ChainOf(o: Ops, log: seq<Message>, x: u64) returns (chain: seq<u64>)
    requires LogOK(o, log) && MarkersOK(o, log) && 1 <= x <= |log|
    ensures Explains(o, log, chain) && chain[0] == x
    ensures forall i :: 0 <= i < |chain| ==> chain[i] >= x
    decreases |log| - x
  {
    if x !in Targets(o, log) {
      chain := [x];
    } else {
      hide Targets;
      MarkerOf(o, log, x);
      var y :| Withholds(o, log, y, x);
      var rest := ChainOf(o, log, y);
      chain := [x] + rest;
    }
  }

  /** In a rejoin response every withheld sequence of the served window leads,
      through markers of that window, to a marker the response carries. */
  lemma WithheldIsExplained(o: Ops, c: Config, h: Hist, file: Bytes, log: seq<Message>, since: u64, x: u64)
      returns (chain: seq<u64>)
    requires Lawful(o) && Agrees(o, h, file, log) && MarkersOK(o, log) && since < |log|
    requires SinceStart(c, h, since) <= x <= |log| && x in h.shushed
    requires Since(o, c, h, file, since).Some?
    ensures Explains(o, log, chain) && chain[0] == x && |chain| > 1
    ensures forall i :: 0 <= i < |chain| ==> SinceStart(c, h, since) <= chain[i] <= |log|
    ensures HasSeq(Since(o, c, h, file, since).value.msgs, chain[|chain| - 1])
  {
    var start := SinceStart(c, h, since);
    chain := ChainOf(o, log, x);
    SinceRefines(o, c, h, file, log, since);
    VisibleSeqs(o, c, h, log, start, |log|);
  }
}
