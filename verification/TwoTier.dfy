/** The two tiers refine one log: what is kept true by opening, appending and
    failing, and what a request over the log then returns. */
module TwoTier {
  import opened Base
  import opened Envelope
  import opened Lines
  import opened RingSpec
  import opened ArchiveSpec
  import opened HistorySpec
  import opened Serving

  // ---- Memory and file follow the log ----------------------------------

  /** The message the room is about to append. */
  ghost predicate NextOf(o: Ops, log: seq<Message>, m: Message) {
    Genuine(o, m) && m.header.sn == |log| + 1 && |log| + 1 < U64_MAX
  }

  lemma LogOKAppend(o: Ops, log: seq<Message>, m: Message)
    requires LogOK(o, log) && NextOf(o, log, m)
    ensures LogOK(o, log + [m])
  {
  }

  /** A complete write extends file, memory and log together. */
  lemma AppendKeeps(o: Ops, h: Hist, file: Bytes, log: seq<Message>, m: Message)
    requires Agrees(o, h, file, log) && NextOf(o, log, m)
    ensures Agrees(o, Remember(o, NextSeq(h), m), file + Line(o, m), log + [m])
  {
    hide FileOf, LogLines, Line, ShushTarget;
    LogOKAppend(o, log, m);
    LogLinesAppend(o, log, m);
    TargetsAppend(o, log, m);
    var h' := Remember(o, NextSeq(h), m);
    assert h'.warm == (log + [m])[|log| + 1 - |h'.warm|..];
  }

  /** The file of a log, followed by what an interrupted write left. */
  ghost predicate OnDisk(o: Ops, file: Bytes, log: seq<Message>) {
    LogOK(o, log) && exists torn :: Torn(torn) && file == FileOf(o, log) + torn
  }

  /** A write that stops anywhere leaves either the old log with a torn tail, or,
      if every byte landed before it was reported failed, the new log. */
  lemma PartialWrite(o: Ops, log: seq<Message>, m: Message, landed: nat)
    requires Lawful(o) && LogOK(o, log) && NextOf(o, log, m) && landed <= |Line(o, m)|
    ensures var file := FileOf(o, log) + Line(o, m)[..landed];
      if landed == |Line(o, m)| then file == FileOf(o, log + [m]) && OnDisk(o, file, log + [m])
      else OnDisk(o, file, log)
  {
    LineReads(o, m);
    var line := Line(o, m);
    if landed == |line| {
      assert line[..landed] == line;
      LogLinesAppend(o, log, m);
      LogOKAppend(o, log, m);
      assert Torn([]) && FileOf(o, log + [m]) + [] == FileOf(o, log + [m]);
    } else {
      assert line[..landed] == line[..|line| - 1][..landed];
      assert Torn(line[..landed]);
    }
  }

  /** Opening after any crash or failed write: repair leaves exactly the log, and
      memory recovered from the bytes agrees with it. The open fails exactly
      if some record is longer than the scanner reads. */
  lemma OpenRecovers(o: Ops, file: Bytes, log: seq<Message>)
    requires Lawful(o) && OnDisk(o, file, log)
    ensures Repair(o, file, REPAIR_ATTEMPTS) == (FileOf(o, log), true)
    ensures OpenMemory(o, FileOf(o, log)).Some? <==> AllFit(o, log)
    ensures OpenMemory(o, FileOf(o, log)).Some? ==>
      Agrees(o, OpenMemory(o, FileOf(o, log)).value, FileOf(o, log), log)
  {
    hide Lawful, Repair, FileOf, AllGenuine, AllFit, Recover, Targets;
    var torn :| Torn(torn) && file == FileOf(o, log) + torn;
    RepairLog(o, log, torn);
    RecoverLog(o, log);
    assert log[|log|..] == [];
  }

  /** In every state memory agrees with the file, replaying the file yields the
      live counter and withheld set. */
  lemma ReplayIsLive(o: Ops, h: Hist, file: Bytes, log: seq<Message>)
    requires Lawful(o) && Agrees(o, h, file, log)
    ensures Recover(o, file) == if AllFit(o, log) then Some(Recovered(h.lastSeq, h.shushed)) else None
  {
    RecoverLog(o, log);
  }

  /** A room whose every write succeeded can still fail to reopen: an image whose
      MIME type alone fills a scanner buffer is sealed and archived, and the
      scan refuses its line. */
  lemma LongMimeDoesNotFit(o: Ops, m: Message)
    requires Lawful(o) && Genuine(o, m) && m.header.kind.Image? && |m.header.mime| >= MAX_LINE
    ensures !Fits(o, m)
    ensures OpenMemory(o, FileOf(o, [m])).None?
  {
    GenuineOpens(o, m);
    assert LawfulHeader(o, m.header);
    assert LawfulWire(o, WireEnvelope(m.raw, o.encB64(m.sig), PAYLOAD_STRIPPED));
    assert m in [m];
    LineReads(o, m);
    LogCons(o, m, [], m.header.sn);
    RecoverCons(o, Line(o, m), [], Recovered(0, {}));
    assert [m] + [] == [m] && LogLines(o, []) == [] && [Line(o, m)] + [] == [Line(o, m)];
    SplitLog(o, [m]);
  }

  // ---- Serving refines the log -----------------------------------------

  /** In a log, a message is found by its own sequence. */
  lemma Numbered(log: seq<Message>)
    requires Contiguous(log, 0)
    ensures forall x: int :: 1 <= x <= |log| ==> At(log, x) in log && At(log, x).header.sn == x
    ensures forall m :: m in log ==> 1 <= m.header.sn <= |log| && At(log, m.header.sn) == m
  {
  }

  lemma WarmAscends(o: Ops, h: Hist, file: Bytes, log: seq<Message>)
    requires Agrees(o, h, file, log)
    ensures Ascending(h.warm)
    ensures forall m :: m in h.warm ==> m in log
  {
  }

  lemma WarmExact(o: Ops, c: Config, h: Hist, file: Bytes, log: seq<Message>, from: u64, to: u64)
    requires Agrees(o, h, file, log) && from > 0
    ensures var f := WarmFound(c, h, from, to);
      && Keyed(f)
      && (forall x: u64 :: x in f ==> 1 <= x <= |log| && f[x] == At(log, x))
      && (forall x: u64 :: from <= x <= to && x <= |log| ==>
           (x in f <==> Retained(h.warm, c.TextCap(), c.ImageBudget(), At(log, x))))
  {
    assert Contiguous(log, 0);
    WarmAscends(o, h, file, log);
    Numbered(log);
    var capText, budget := c.TextCap(), c.ImageBudget();
    hide Agrees, RingSince, RingFound, Retained, At, Contiguous, Ascending;
    var ms := RingSince(h.warm, capText, budget, from - 1);
    RingSinceExact(h.warm, capText, budget, from - 1);
    RingFoundExact(ms, to, map[]);
    var f := WarmFound(c, h, from, to);
    assert f == RingFound(ms, to, map[]);
    forall x: u64 | x in f ensures 1 <= x <= |log| && f[x] == At(log, x) {
      assert f[x] in ms && f[x].header.sn == x;
      assert Retained(h.warm, capText, budget, f[x]);
    }
    forall x: u64 | from <= x <= to && x <= |log|
      ensures x in f <==> Retained(h.warm, capText, budget, At(log, x))
    {
      var m := At(log, x);
      assert m.header.sn == x;
      assert m in ms <==> Retained(h.warm, capText, budget, m);
    }
  }

  lemma {:induction false} BetweenMembers(log: seq<Message>, from: u64, to: u64)
    ensures forall m :: m in Between(log, from, to) <==> m in log && from <= m.header.sn <= to
  {
    if log != [] {
      BetweenMembers(log[1..], from, to);
      assert log == [log[0]] + log[1..];
    }
  }

  lemma {:induction false} ArchivalMembers(o: Ops, ms: seq<Message>)
    ensures forall m :: m in ms ==> Archival(o, m) in ArchivalAll(o, ms)
    ensures forall a :: a in ArchivalAll(o, ms) ==> exists m :: m in ms && a == Archival(o, m)
  {
    hide Archival;
    if ms != [] {
      ArchivalMembers(o, ms[1..]);
      assert ms == [ms[0]] + ms[1..];
    }
  }

  /** The archive's share: one archival message per sequence of the span. */
  lemma ArchivedExact(o: Ops, log: seq<Message>, from: u64, to: u64)
    requires LogOK(o, log) && 0 < from
    ensures var ms := ArchivalAll(o, Between(log, from, to));
      && (forall x: u64 :: from <= x <= to && x <= |log| ==> Archival(o, At(log, x)) in ms)
      && (forall a :: a in ms ==> 1 <= a.header.sn <= |log| && a == Archival(o, At(log, a.header.sn)))
  {
    Numbered(log);
    BetweenMembers(log, from, to);
    var between := Between(log, from, to);
    ArchivalMembers(o, between);
    hide Between, ArchivalAll, LogOK, At, Archival;
    forall a | a in ArchivalAll(o, between)
      ensures 1 <= a.header.sn <= |log| && a == Archival(o, At(log, a.header.sn))
    {
      var m :| m in between && a == Archival(o, m);
      ArchivalSeq(o, m);
    }
  }

  lemma ArchivalSeq(o: Ops, m: Message)
    ensures Archival(o, m).header == m.header
  {
  }

  /** Everything of the span that is not withheld is in `f`, in its best form. */
  ghost predicate Covers(o: Ops, c: Config, h: Hist, log: seq<Message>, f: Found, from: u64, to: u64)
    requires 0 < from && to <= |log|
  {
    forall x: u64 :: from <= x <= to && x !in h.shushed ==> x in f && f[x] == Best(o, c, h, At(log, x))
  }

  lemma BothTiersCover(o: Ops, c: Config, h: Hist, file: Bytes, log: seq<Message>, from: u64, to: u64)
    requires Agrees(o, h, file, log) && 0 < from && to <= |log|
    ensures Covers(o, c, h, log,
      AddArchived(ArchivalAll(o, Between(log, from, to)), WarmFound(c, h, from, to)), from, to)
  {
    assert LogOK(o, log);
    hide LogOK, Agrees, WarmFound, Retained, AddArchived, ArchivalAll, Between, Archival, At;
    WarmExact(o, c, h, file, log, from, to);
    ArchivedExact(o, log, from, to);
    var warm, archived := WarmFound(c, h, from, to), ArchivalAll(o, Between(log, from, to));
    AddArchivedExact(archived, warm);
    var f := AddArchived(archived, warm);
    forall x: u64 | from <= x <= to && x !in h.shushed
      ensures x in f && f[x] == Best(o, c, h, At(log, x))
    {
      var a := Archival(o, At(log, x));
      assert a in archived;
      ArchivalSeq(o, At(log, x));
      AtSeq(o, log, x);
    }
  }

  lemma AtSeq(o: Ops, log: seq<Message>, x: u64)
    requires LogOK(o, log) && 1 <= x <= |log|
    ensures At(log, x).header.sn == x
  {
  }

  lemma LookupExact(o: Ops, c: Config, h: Hist, file: Bytes, log: seq<Message>, from: u64, to: u64)
    requires Lawful(o) && Agrees(o, h, file, log) && 0 < from && to <= |log|
    ensures AllFit(o, log) ==> Lookup(o, c, h, file, from, to).Some?
    ensures Lookup(o, c, h, file, from, to).Some? ==>
      Covers(o, c, h, log, Lookup(o, c, h, file, from, to).value, from, to)
  {
    assert file == FileOf(o, log) && AllGenuine(o, log) && Contiguous(log, 0);
    hide Lawful, Agrees, WarmFound, Range, Retained, AddArchived, ArchivalAll, Between, AllFit, Archival, At,
      FileOf, AllGenuine, Contiguous;
    WarmExact(o, c, h, file, log, from, to);
    RangeLog(o, log, from, to);
    BothTiersCover(o, c, h, file, log, from, to);
  }

  lemma {:induction false} PlaceAllVisible(
      o: Ops, c: Config, h: Hist, log: seq<Message>, found: Found, x: u64, to: u64, r: Response)
    requires 0 < x && to <= |log| < U64_MAX
    requires Covers(o, c, h, log, found, x, to)
    ensures PlaceAll(found, h.shushed, x, to, r) == Response(r.msgs + Visible(o, c, h, log, x, to), r.gaps)
    decreases 1 + to - x
  {
    hide Best;
    if x <= to {
      var r' := Place(found, h.shushed, x, r);
      PlaceAllVisible(o, c, h, log, found, x + 1, to, r');
      if x !in h.shushed {
        Assoc(r.msgs, [Best(o, c, h, At(log, x))], Visible(o, c, h, log, x + 1, to));
      }
    }
  }

  /** The refinement: a span of the log comes back whole, in order, without
      gaps, each message from the better tier that has it. */
  lemma ServeRefines(o: Ops, c: Config, h: Hist, file: Bytes, log: seq<Message>, from: u64, to: u64)
    requires Lawful(o) && Agrees(o, h, file, log) && 0 < from && to <= |log|
    ensures AllFit(o, log) ==> Serve(o, c, h, file, from, to).Some?
    ensures Serve(o, c, h, file, from, to).Some? ==>
      Serve(o, c, h, file, from, to).value == Response(Visible(o, c, h, log, from, to), [])
  {
    assert |log| < U64_MAX;
    hide Lawful, Agrees, AllFit, Lookup, PlaceAll, Visible, Best, Covers;
    LookupExact(o, c, h, file, log, from, to);
    var found := Lookup(o, c, h, file, from, to);
    if found.Some? {
      PlaceAllVisible(o, c, h, log, found.value, from, to, Response([], []));
      assert [] + Visible(o, c, h, log, from, to) == Visible(o, c, h, log, from, to);
    }
  }

  /** A rejoin gets everything newer than `since`, or the newest window of it
      with the one gap that was cut off. */
  lemma SinceRefines(o: Ops, c: Config, h: Hist, file: Bytes, log: seq<Message>, since: u64)
    requires Lawful(o) && Agrees(o, h, file, log) && since < |log|
    ensures AllFit(o, log) ==> Since(o, c, h, file, since).Some?
    ensures Since(o, c, h, file, since).Some? ==>
      var start := SinceStart(c, h, since);
      Since(o, c, h, file, since).value ==
        Response(Visible(o, c, h, log, start, |log|), if start > since + 1 then [Gap(since + 1, start - 1)] else [])
  {
    assert h.lastSeq == |log| && |log| < U64_MAX;
    hide Lawful, Agrees, AllFit, Visible, Serve, Since, SinceStart;
    SinceByWindow(o, c, h, file, since);
    var start := SinceStart(c, h, since);
    ServeRefines(o, c, h, file, log, start, |log|);
    assert [Gap(since + 1, start - 1)] + [] == [Gap(since + 1, start - 1)];
  }

  /** An explicit span inside the log comes back oldest first, up to the cap. */
  lemma RangeRefines(o: Ops, c: Config, h: Hist, file: Bytes, log: seq<Message>, from: u64, to: u64)
    requires Lawful(o) && Agrees(o, h, file, log) && RangeFrom(from) <= RangeTo(h, to)
    ensures AllFit(o, log) ==> RangeOf(o, c, h, file, from, to).Some?
    ensures RangeOf(o, c, h, file, from, to).Some? ==>
      var end, top := RangeEnd(c, h, from, to), RangeTo(h, to);
      RangeOf(o, c, h, file, from, to).value ==
        Response(Visible(o, c, h, log, RangeFrom(from), end), if end < top then [Gap(end + 1, top)] else [])
  {
    assert h.lastSeq == |log| && |log| < U64_MAX;
    hide Lawful, Agrees, AllFit, Visible, Serve, RangeOf, RangeEnd;
    RangeByWindow(o, c, h, file, from, to);
    var end := RangeEnd(c, h, from, to);
    ServeRefines(o, c, h, file, log, RangeFrom(from), end);
    assert [] + [Gap(end + 1, RangeTo(h, to))] == [Gap(end + 1, RangeTo(h, to))];
  }
}
