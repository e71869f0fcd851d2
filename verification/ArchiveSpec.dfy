/** What the archive file means: which records it holds, what crash repair
    leaves of it, and what recovery and range reads return. */
module ArchiveSpec {
  import opened Base
  import opened Envelope
  import opened Lines

  const MAX_LINE := 0x10_0000
  const REPAIR_ATTEMPTS := 8

  /** The record `Append` writes for a message: its archival form and a newline. */
  function Line(o: Ops, m: Message): Bytes { Archival(o, m).wire + [NL] }

  function LogLines(o: Ops, log: seq<Message>): seq<Bytes> {
    if log == [] then [] else [Line(o, log[0])] + LogLines(o, log[1..])
  }

  function FileOf(o: Ops, log: seq<Message>): Bytes { Join(LogLines(o, log)) }

  // ---- Crash repair ----------------------------------------------------

  predicate GoodLine(o: Ops, l: Bytes) {
    l != [] && l[|l| - 1] == NL && o.validJson(l[..|l| - 1])
  }

  /** Truncates bad final lines, one per attempt; reports success only from an
      attempt that found nothing to truncate. */
  function Repair(o: Ops, f: Bytes, attempts: nat): (Bytes, bool) {
    if attempts == 0 then (f, false)
    else if f == [] then (f, true)
    else if GoodLine(o, f[LastStart(f)..]) then (f, true)
    else Repair(o, f[..LastStart(f)], attempts - 1)
  }

  /** How many lines at the end of the file are bad. */
  function BadTail(o: Ops, ls: seq<Bytes>): (n: nat)
    ensures n <= |ls|
  {
    if ls == [] || GoodLine(o, ls[|ls| - 1]) then 0 else 1 + BadTail(o, ls[..|ls| - 1])
  }

  /** The same repair on the lines of the file. */
  function RepairLines(o: Ops, ls: seq<Bytes>, attempts: nat): (seq<Bytes>, bool) {
    if attempts == 0 then (ls, false)
    else if ls == [] || GoodLine(o, ls[|ls| - 1]) then (ls, true)
    else RepairLines(o, ls[..|ls| - 1], attempts - 1)
  }

  lemma {:induction false} RepairByLines(o: Ops, f: Bytes, attempts: nat)
    ensures var r := RepairLines(o, Split(f), attempts);
      Repair(o, f, attempts) == (Join(r.0), r.1)
    decreases attempts
  {
    JoinSplit(f);
    if attempts > 0 && f != [] {
      var s := LastStart(f);
      LastLineExact(f);
      assert Split(f)[|Split(f)| - 1] == f[s..] && Split(f)[..|Split(f)| - 1] == Split(f[..s]);
      if !GoodLine(o, f[s..]) {
        RepairByLines(o, f[..s], attempts - 1);
      }
    }
  }

  lemma {:induction false} RepairLinesExact(o: Ops, ls: seq<Bytes>, attempts: nat)
    ensures var bad := BadTail(o, ls);
      RepairLines(o, ls, attempts) == (ls[..|ls| - if bad <= attempts then bad else attempts], bad < attempts)
    decreases attempts
  {
    assert ls[..|ls|] == ls;
    if attempts > 0 && ls != [] && !GoodLine(o, ls[|ls| - 1]) {
      var front := ls[..|ls| - 1];
      RepairLinesExact(o, front, attempts - 1);
      assert forall k :: 0 <= k <= |front| ==> front[..k] == ls[..k];
    }
  }

  /** For every file: repair removes its bad trailing lines, one an attempt and
      never a byte before them, and succeeds exactly if there were fewer bad
      lines than attempts. */
  lemma RepairExact(o: Ops, f: Bytes, attempts: nat)
    ensures var bad := BadTail(o, Split(f));
      Repair(o, f, attempts) ==
        (Join(Split(f)[..|Split(f)| - if bad <= attempts then bad else attempts]), bad < attempts)
  {
    hide *;
    RepairByLines(o, f, attempts);
    RepairLinesExact(o, Split(f), attempts);
  }

  /** A crash or a failed write leaves complete records and a torn one; repair
      leaves exactly the complete records. */
  lemma TornTailRepair(o: Ops, ls: seq<Bytes>, torn: Bytes)
    requires forall l :: l in ls ==> Complete(l) && GoodLine(o, l)
    requires Torn(torn)
    ensures Repair(o, Join(ls) + torn, REPAIR_ATTEMPTS) == (Join(ls), true)
  {
    var f := Join(ls) + torn;
    SplitJoin(ls, torn);
    RepairExact(o, f, REPAIR_ATTEMPTS);
    if torn == [] {
      assert Split(f) == ls;
      assert ls != [] ==> ls[|ls| - 1] in ls;
      assert ls[..|ls|] == ls;
    } else {
      assert Split(f)[..|ls|] == ls;
      assert ls != [] ==> ls[|ls| - 1] in ls;
      assert !GoodLine(o, torn) by {
        assert torn[|torn| - 1] in torn;
      }
      assert BadTail(o, ls) == 0;
    }
  }

  /** The last line of a file that ends in this one. */
  lemma LastIsThis(f: Bytes, l: Bytes)
    requires AtLineStart(f) && (Complete(l) || (l != [] && Torn(l)))
    ensures LastStart(f + l) == |f| && (f + l)[..|f|] == f && (f + l)[|f|..] == l && f + l != []
  {
    SplitOne(l);
    SplitAppend(f, l);
    LastLineExact(f + l);
    var s := LastStart(f + l);
    assert (f + l)[s..] == Split(f + l)[|Split(f + l)| - 1] == l;
  }

  /** A final line is cut whether it is torn or, though terminated, not JSON;
      what comes before it stays, and is what the next attempt looks at. */
  lemma BadLineIsCut(o: Ops, f: Bytes, l: Bytes, attempts: nat)
    requires AtLineStart(f) && attempts > 0
    requires (Torn(l) && l != []) || (Complete(l) && !o.validJson(l[..|l| - 1]))
    ensures Repair(o, f + l, attempts) == Repair(o, f, attempts - 1)
  {
    LastIsThis(f, l);
    assert !GoodLine(o, l) by {
      if Torn(l) {
        assert l[|l| - 1] in l;
      }
    }
    hide GoodLine, LastStart, Torn, Complete, AtLineStart;
  }

  // ---- Scanning --------------------------------------------------------

  /** A line as the scanner hands it over: without its newline, and without a
      carriage return before that. */
  function Token(l: Bytes): Bytes {
    var t := if l != [] && l[|l| - 1] == NL then l[..|l| - 1] else l;
    if t != [] && t[|t| - 1] == CR then t[..|t| - 1] else t
  }

  /** The scanner's buffer cannot hold the line, so the scan fails here. */
  predicate TooLong(l: Bytes) {
    (if l != [] && l[|l| - 1] == NL then |l| - 1 else |l|) >= MAX_LINE
  }

  datatype Record = Record(sn: u64, kind: Kind, payload: string)

  function Peek(o: Ops, t: Bytes): Option<Record> {
    match o.peekWire(t)
    case None => None
    case Some(outer) =>
      match o.peekHeader(outer.0)
      case None => None
      case Some(h) => Some(Record(h.0, h.1, outer.1))
  }

  /** The record of a line, unless the scan skips it. */
  function LineRecord(o: Ops, l: Bytes): Option<Record> {
    if Token(l) == [] then None else Peek(o, Token(l))
  }

  datatype Recovered = Recovered(lastSeq: u64, shushed: set<u64>)

  /** Recovery over the remaining lines, from what was gathered so far; `None`
      is a scan error. */
  function RecoverOnto(o: Ops, ls: seq<Bytes>, acc: Recovered): Option<Recovered> {
    if ls == [] then Some(acc)
    else if TooLong(ls[0]) then None
    else RecoverOnto(o, ls[1..], Gather(o, acc, LineRecord(o, ls[0])))
  }

  function Gather(o: Ops, acc: Recovered, r: Option<Record>): Recovered {
    match r
    case None => acc
    case Some(rec) =>
      var last := if rec.sn > acc.lastSeq then rec.sn else acc.lastSeq;
      match (if rec.kind.Shush? then ParseShush(o, rec.payload) else None)
      case Some(target) => Recovered(last, acc.shushed + {target})
      case None => Recovered(last, acc.shushed)
  }

  function Recover(o: Ops, f: Bytes): Option<Recovered> {
    RecoverOnto(o, Split(f), Recovered(0, {}))
  }

  /** The verified messages in [from, to], reading until the first record past `to`. */
  function RangeOnto(o: Ops, ls: seq<Bytes>, from: u64, to: u64, out: seq<Message>): Option<seq<Message>> {
    if ls == [] then Some(out)
    else if TooLong(ls[0]) then None
    else
      match LineRecord(o, ls[0])
      case None => RangeOnto(o, ls[1..], from, to, out)
      case Some(rec) =>
        if rec.sn < from then RangeOnto(o, ls[1..], from, to, out)
        else if rec.sn > to then Some(out)
        else RangeOnto(o, ls[1..], from, to, out + OpenedMessage(o, Token(ls[0])))
  }

  function OpenedMessage(o: Ops, data: Bytes): seq<Message> {
    match Open(o, data)
    case Opened(m) => [m]
    case Refused(_) => []
  }

  function Range(o: Ops, f: Bytes, from: u64, to: u64): Option<seq<Message>> {
    RangeOnto(o, Split(f), from, to, [])
  }

  // ---- Any file --------------------------------------------------------

  /** The records of some lines, skipping the lines a scan skips. */
  function Parsed(o: Ops, ls: seq<Bytes>): seq<Record> {
    if ls == [] then [] else
    (if LineRecord(o, ls[0]).Some? then [LineRecord(o, ls[0]).value] else []) + Parsed(o, ls[1..])
  }

  /** What a marker's record withholds. */
  function RecordTarget(o: Ops, rec: Record): Option<u64> {
    if rec.kind.Shush? then ParseShush(o, rec.payload) else None
  }

  lemma {:induction false} RecoverOntoExact(o: Ops, ls: seq<Bytes>, acc: Recovered)
    ensures RecoverOnto(o, ls, acc).None? <==> exists l :: l in ls && TooLong(l)
    ensures RecoverOnto(o, ls, acc).Some? ==>
      var r := RecoverOnto(o, ls, acc).value;
      && r.lastSeq >= acc.lastSeq
      && (forall rec :: rec in Parsed(o, ls) ==> rec.sn <= r.lastSeq)
      && (r.lastSeq == acc.lastSeq || exists rec :: rec in Parsed(o, ls) && rec.sn == r.lastSeq)
      && (forall x :: x in r.shushed <==>
           x in acc.shushed || exists rec :: rec in Parsed(o, ls) && RecordTarget(o, rec) == Some(x))
  {
    hide LineRecord, TooLong, ParseShush;
    if ls != [] && !TooLong(ls[0]) {
      var head, rest := LineRecord(o, ls[0]), ls[1..];
      assert ls == [ls[0]] + rest;
      RecoverOntoExact(o, rest, Gather(o, acc, head));
      if head.Some? {
        assert Parsed(o, ls) == [head.value] + Parsed(o, rest);
        assert head.value in Parsed(o, ls);
        assert forall rec :: rec in Parsed(o, rest) ==> rec in Parsed(o, ls);
      } else {
        assert Parsed(o, ls) == Parsed(o, rest);
      }
    }
  }

  /** For every file, whatever is in it: recovery fails exactly if some line is too
      long to scan; otherwise it skips what does not parse, and yields the greatest
      sequence of the rest and exactly the targets of its markers. */
  lemma RecoverExact(o: Ops, f: Bytes)
    ensures Recover(o, f).None? <==> exists l :: l in Split(f) && TooLong(l)
    ensures Recover(o, f).Some? ==>
      var recs, r := Parsed(o, Split(f)), Recover(o, f).value;
      && (forall rec :: rec in recs ==> rec.sn <= r.lastSeq)
      && (r.lastSeq == 0 || exists rec :: rec in recs && rec.sn == r.lastSeq)
      && (forall x :: x in r.shushed <==> exists rec :: rec in recs && RecordTarget(o, rec) == Some(x))
  {
    RecoverOntoExact(o, Split(f), Recovered(0, {}));
    hide *;
  }

  /** A line of the span whose message opens, hence verifies. */
  predicate Verifies(o: Ops, l: Bytes, from: u64, to: u64, m: Message) {
    && LineRecord(o, l).Some? && from <= LineRecord(o, l).value.sn <= to && Open(o, Token(l)) == Opened(m)
  }

  /** The read stops here: at a record past its upper bound. */
  predicate Stops(o: Ops, l: Bytes, from: u64, to: u64) {
    !TooLong(l) && LineRecord(o, l).Some? && from <= LineRecord(o, l).value.sn && to < LineRecord(o, l).value.sn
  }

  /** The lines before the first at which the read stops. */
  function Reached(o: Ops, ls: seq<Bytes>, from: u64, to: u64): seq<Bytes> {
    if ls == [] || Stops(o, ls[0], from, to) then [] else [ls[0]] + Reached(o, ls[1..], from, to)
  }

  lemma {:induction false} RangeOntoExact(o: Ops, ls: seq<Bytes>, from: u64, to: u64, out: seq<Message>)
    ensures var reached, r := Reached(o, ls, from, to), RangeOnto(o, ls, from, to, out);
      && (r.None? <==> exists l :: l in reached && TooLong(l))
      && (r.Some? ==>
            && out <= r.value
            && forall m :: m in r.value[|out|..] <==> exists l :: l in reached && Verifies(o, l, from, to, m))
  {
    hide LineRecord, TooLong, Open, Token;
    if ls != [] && !Stops(o, ls[0], from, to) {
      var head, rest := LineRecord(o, ls[0]), ls[1..];
      var reached, before := Reached(o, ls, from, to), Reached(o, rest, from, to);
      assert reached == [ls[0]] + before;
      if TooLong(ls[0]) {
        assert ls[0] in reached;
      } else {
        var more := if head.Some? && from <= head.value.sn then OpenedMessage(o, Token(ls[0])) else [];
        RangeOntoExact(o, rest, from, to, out + more);
        assert out + [] == out;
        var r := RangeOnto(o, rest, from, to, out + more);
        if r.Some? {
          assert r.value[|out|..] == more + r.value[|out + more|..];
          assert forall m :: m in more <==> Verifies(o, ls[0], from, to, m);
        }
      }
    }
  }

  /** For every file, whatever is in it: a range read looks at the lines before the
      first record past its end, fails exactly if one of those is too long to scan,
      and otherwise returns exactly the messages of the span among them that
      verify. A record that does not is left out, not served. */
  lemma RangeExact(o: Ops, f: Bytes, from: u64, to: u64)
    ensures var reached, r := Reached(o, Split(f), from, to), Range(o, f, from, to);
      && (r.None? <==> exists l :: l in reached && TooLong(l))
      && (r.Some? ==> forall m :: m in r.value <==> exists l :: l in reached && Verifies(o, l, from, to, m))
  {
    RangeOntoExact(o, Split(f), from, to, []);
    var r := Range(o, f, from, to);
    hide RangeOnto, Split, Verifies, TooLong, Reached;
    if r.Some? {
      assert r.value[0..] == r.value;
    }
  }

  // ---- The file of a log -----------------------------------------------

  ghost predicate AllGenuine(o: Ops, log: seq<Message>) { forall m :: m in log ==> Genuine(o, m) }

  predicate Fits(o: Ops, m: Message) { |Archival(o, m).wire| < MAX_LINE }

  predicate AllFit(o: Ops, log: seq<Message>) { forall m :: m in log ==> Fits(o, m) }

  /** Everything the readers see of one record is what was sealed. */
  lemma LineReads(o: Ops, m: Message)
    requires Lawful(o) && Genuine(o, m)
    ensures var l := Line(o, m);
      && Complete(l) && GoodLine(o, l)
      && Token(l) == Archival(o, m).wire
      && LineRecord(o, l) == Some(Record(m.header.sn, m.header.kind, Archival(o, m).payload))
      && Open(o, Token(l)) == Opened(Archival(o, m))
      && (TooLong(l) <==> !Fits(o, m))
  {
    GenuineOpens(o, m);
    var a := Archival(o, m);
    assert LawfulHeader(o, m.header);
    assert LawfulWire(o, WireEnvelope(m.raw, o.encB64(m.sig), a.payload));
    var l := Line(o, m);
    assert l[..|l| - 1] == a.wire;
    assert NoControl(a.wire);
  }

  lemma {:induction false} LogLinesGood(o: Ops, log: seq<Message>)
    requires Lawful(o) && AllGenuine(o, log)
    ensures |LogLines(o, log)| == |log|
    ensures forall i :: 0 <= i < |log| ==> LogLines(o, log)[i] == Line(o, log[i])
    ensures forall l :: l in LogLines(o, log) ==> Complete(l) && GoodLine(o, l)
  {
    if log != [] {
      LineReads(o, log[0]);
      LogLinesGood(o, log[1..]);
    }
  }

  lemma {:induction false} LogLinesAppend(o: Ops, log: seq<Message>, m: Message)
    ensures LogLines(o, log + [m]) == LogLines(o, log) + [Line(o, m)]
    ensures FileOf(o, log + [m]) == FileOf(o, log) + Line(o, m)
  {
    if log == [] {
      assert LogLines(o, [m]) == [Line(o, m)];
    } else {
      assert (log + [m])[1..] == log[1..] + [m];
      LogLinesAppend(o, log[1..], m);
    }
    JoinAppend(LogLines(o, log), [Line(o, m)]);
    JoinCons(Line(o, m), []);
  }

  /** Opening the file of a log, with whatever a crash tore off after it, gives
      back exactly that file. */
  lemma RepairLog(o: Ops, log: seq<Message>, torn: Bytes)
    requires Lawful(o) && AllGenuine(o, log) && Torn(torn)
    ensures Repair(o, FileOf(o, log) + torn, REPAIR_ATTEMPTS) == (FileOf(o, log), true)
  {
    LogLinesGood(o, log);
    TornTailRepair(o, LogLines(o, log), torn);
  }

  lemma SplitLog(o: Ops, log: seq<Message>)
    requires Lawful(o) && AllGenuine(o, log)
    ensures Split(FileOf(o, log)) == LogLines(o, log)
  {
    LogLinesGood(o, log);
    SplitJoin(LogLines(o, log), []);
    assert FileOf(o, log) + [] == FileOf(o, log);
  }

  ghost function TargetOf(o: Ops, m: Message): set<u64> {
    if ShushTarget(o, m).Some? then {ShushTarget(o, m).value} else {}
  }

  /** The sequences the markers of a log withhold. */
  ghost function Targets(o: Ops, log: seq<Message>): set<u64> {
    set m | m in log && ShushTarget(o, m).Some? :: ShushTarget(o, m).value
  }

  lemma TargetsCons(o: Ops, m: Message, rest: seq<Message>)
    ensures Targets(o, [m] + rest) == TargetOf(o, m) + Targets(o, rest)
  {
  }

  lemma TargetsAppend(o: Ops, log: seq<Message>, m: Message)
    ensures Targets(o, log + [m]) == Targets(o, log) + TargetOf(o, m)
  {
  }

  /** The log carries sequences base+1, base+2, ... with none missing or repeated. */
  predicate Contiguous(log: seq<Message>, base: nat) {
    forall i :: 0 <= i < |log| ==> log[i].header.sn == base + i + 1
  }

  lemma GatherGenuine(o: Ops, m: Message, acc: Recovered)
    requires Lawful(o) && Genuine(o, m) && acc.lastSeq < m.header.sn
    ensures Gather(o, acc, LineRecord(o, Line(o, m))) == Recovered(m.header.sn, acc.shushed + TargetOf(o, m))
  {
    LineReads(o, m);
  }

  lemma RecoverCons(o: Ops, l: Bytes, ls: seq<Bytes>, acc: Recovered)
    ensures RecoverOnto(o, [l] + ls, acc) ==
      if TooLong(l) then None else RecoverOnto(o, ls, Gather(o, acc, LineRecord(o, l)))
  {
  }

  lemma LogCons(o: Ops, m: Message, rest: seq<Message>, base: nat)
    ensures LogLines(o, [m] + rest) == [Line(o, m)] + LogLines(o, rest)
    ensures AllGenuine(o, [m] + rest) <==> Genuine(o, m) && AllGenuine(o, rest)
    ensures AllFit(o, [m] + rest) <==> Fits(o, m) && AllFit(o, rest)
    ensures Contiguous([m] + rest, base) <==> m.header.sn == base + 1 && Contiguous(rest, base + 1)
  {
  }

  lemma RecoverNil(o: Ops, acc: Recovered)
    ensures RecoverOnto(o, LogLines(o, []), acc) == Some(Recovered(acc.lastSeq, acc.shushed + Targets(o, [])))
    ensures AllFit(o, [])
  {
    assert acc.shushed + Targets(o, []) == acc.shushed;
  }

  lemma {:induction false} RecoverLogFrom(o: Ops, log: seq<Message>, base: nat, acc: Recovered)
    requires Lawful(o) && AllGenuine(o, log) && Contiguous(log, base)
    requires acc.lastSeq == base && base + |log| <= U64_MAX
    ensures RecoverOnto(o, LogLines(o, log), acc) ==
      if AllFit(o, log) then Some(Recovered(base + |log|, acc.shushed + Targets(o, log))) else None
  {
    hide *;
    if log == [] {
      RecoverNil(o, acc);
    } else {
      var m, rest := log[0], log[1..];
      assert log == [m] + rest;
      LogCons(o, m, rest, base);
      LineReads(o, m);
      GatherGenuine(o, m, acc);
      RecoverCons(o, Line(o, m), LogLines(o, rest), acc);
      TargetsCons(o, m, rest);
      RecoverLogFrom(o, rest, base + 1, Recovered(base + 1, acc.shushed + TargetOf(o, m)));
      assert acc.shushed + TargetOf(o, m) + Targets(o, rest) == acc.shushed + Targets(o, log);
    }
  }

  /** Recovery reads the counter and the withheld set back from the bytes
      alone; it fails exactly if some record is longer than the scanner takes. */
  lemma RecoverLog(o: Ops, log: seq<Message>)
    requires Lawful(o) && AllGenuine(o, log) && Contiguous(log, 0) && |log| <= U64_MAX
    ensures Recover(o, FileOf(o, log)) ==
      if AllFit(o, log) then Some(Recovered(|log|, Targets(o, log))) else None
  {
    hide Lawful, AllGenuine, Contiguous, RecoverOnto, FileOf, LogLines, AllFit, Targets, Split;
    SplitLog(o, log);
    RecoverLogFrom(o, log, 0, Recovered(0, {}));
    assert {} + Targets(o, log) == Targets(o, log);
  }

  /** The messages of a log with sequences in [from, to]. */
  function Between(log: seq<Message>, from: u64, to: u64): seq<Message> {
    if log == [] then []
    else (if from <= log[0].header.sn <= to then [log[0]] else []) + Between(log[1..], from, to)
  }

  function ArchivalAll(o: Ops, ms: seq<Message>): seq<Message> {
    if ms == [] then [] else [Archival(o, ms[0])] + ArchivalAll(o, ms[1..])
  }

  lemma BetweenCons(m: Message, rest: seq<Message>, from: u64, to: u64)
    ensures Between([m] + rest, from, to) ==
      if from <= m.header.sn <= to then [m] + Between(rest, from, to) else Between(rest, from, to)
  {
  }

  lemma ArchivalNil(o: Ops)
    ensures ArchivalAll(o, []) == []
  {
  }

  lemma ArchivalCons(o: Ops, m: Message, ms: seq<Message>)
    ensures ArchivalAll(o, [m] + ms) == [Archival(o, m)] + ArchivalAll(o, ms)
  {
  }

  lemma {:induction false} NothingBetween(log: seq<Message>, base: nat, from: u64, to: u64)
    requires Contiguous(log, base) && base >= to
    ensures Between(log, from, to) == []
  {
    if log != [] {
      NothingBetween(log[1..], base + 1, from, to);
    }
  }

  lemma RangeCons(o: Ops, m: Message, ls: seq<Bytes>, from: u64, to: u64, out: seq<Message>)
    requires Lawful(o) && Genuine(o, m)
    ensures RangeOnto(o, [Line(o, m)] + ls, from, to, out) ==
      if !Fits(o, m) then None
      else if m.header.sn < from then RangeOnto(o, ls, from, to, out)
      else if m.header.sn > to then Some(out)
      else RangeOnto(o, ls, from, to, out + [Archival(o, m)])
  {
    LineReads(o, m);
    assert ([Line(o, m)] + ls)[1..] == ls;
  }

  lemma {:induction false} RangeLogFrom(o: Ops, log: seq<Message>, base: nat, from: u64, to: u64, out: seq<Message>)
    requires Lawful(o) && AllGenuine(o, log) && Contiguous(log, base)
    ensures var r := RangeOnto(o, LogLines(o, log), from, to, out);
      && (r.Some? ==> r.value == out + ArchivalAll(o, Between(log, from, to)))
      && (AllFit(o, log) ==> r.Some?)
  {
    if log == [] {
      assert out + [] == out;
    } else {
      hide *;
      var m, rest := log[0], log[1..];
      assert log == [m] + rest;
      LogCons(o, m, rest, base);
      RangeCons(o, m, LogLines(o, rest), from, to, out);
      BetweenCons(m, rest, from, to);
      if m.header.sn < from {
        RangeLogFrom(o, rest, base + 1, from, to, out);
      } else if m.header.sn > to {
        NothingBetween(rest, base + 1, from, to);
        ArchivalNil(o);
        assert out + [] == out;
      } else {
        RangeLogFrom(o, rest, base + 1, from, to, out + [Archival(o, m)]);
        ArchivalCons(o, m, Between(rest, from, to));
        Assoc(out, [Archival(o, m)], ArchivalAll(o, Between(rest, from, to)));
      }
    }
  }

  /** A range read of a log's file returns the archival form of exactly the
      records asked for; stopping at the first sequence past `to` loses nothing. */
  lemma RangeLog(o: Ops, log: seq<Message>, from: u64, to: u64)
    requires Lawful(o) && AllGenuine(o, log) && Contiguous(log, 0)
    ensures var r := Range(o, FileOf(o, log), from, to);
      && (r.Some? ==> r.value == ArchivalAll(o, Between(log, from, to)))
      && (AllFit(o, log) ==> r.Some?)
  {
    SplitLog(o, log);
    RangeLogFrom(o, log, 0, from, to, []);
  }
}
