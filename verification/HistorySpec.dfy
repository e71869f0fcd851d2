/** One room's two-tier history as functions of its memory and its file, and the
    relation that ties both to the room's log of sealed messages. */
module HistorySpec {
  import opened Base
  import opened Envelope
  import opened RingSpec
  import opened ArchiveSpec

  datatype Config = Config(maxText: i64, maxImageBytes: i64, maxBackfill: i64) {
    function TextCap(): nat { if maxText < 0 then 0 else maxText }

    function ImageBudget(): nat { if maxImageBytes < 0 then 0 else maxImageBytes }

    /** MaxBackfill converted to uint64. */
    function Limit(): u64 { if maxBackfill < 0 then maxBackfill + U64_MAX + 1 else maxBackfill }
  }

  /** What a room holds in memory; `warm` is everything appended since it was opened. */
  datatype Hist = Hist(warm: seq<Message>, shushed: set<u64>, lastSeq: u64)

  datatype Gap = Gap(from: u64, to: u64)

  datatype Response = Response(msgs: seq<Message>, gaps: seq<Gap>)

  function NextSeq(h: Hist): Hist
    requires h.lastSeq < U64_MAX
  {
    h.(lastSeq := h.lastSeq + 1)
  }

  /** The in-memory part of Append. */
  function Remember(o: Ops, h: Hist, m: Message): Hist {
    Hist(
      h.warm + [m],
      (match ShushTarget(o, m) case Some(t) => h.shushed + {t} case None => h.shushed),
      if m.header.sn > h.lastSeq then m.header.sn else h.lastSeq)
  }

  // ---- Serving ---------------------------------------------------------

  type Found = map<u64, Message>

  /** The ring's messages up to `to`, later ones replacing earlier ones. */
  function RingFound(ms: seq<Message>, to: u64, acc: Found): Found {
    if ms == [] then acc
    else RingFound(ms[1..], to, if ms[0].header.sn <= to then acc[ms[0].header.sn := ms[0]] else acc)
  }

  /** The archive's messages wherever the ring had none. */
  function AddArchived(ms: seq<Message>, acc: Found): Found {
    if ms == [] then acc
    else AddArchived(ms[1..], if ms[0].header.sn in acc then acc else acc[ms[0].header.sn := ms[0]])
  }

  predicate Missing(from: u64, to: u64, found: Found, shushed: set<u64>) {
    exists x :: from <= x <= to && x !in found && x !in shushed
  }

  function WarmFound(c: Config, h: Hist, from: u64, to: u64): Found
    requires from > 0
  {
    RingFound(RingSince(h.warm, c.TextCap(), c.ImageBudget(), from - 1), to, map[])
  }

  /** Everything that can be served of [from, to]; `None` is a failed archive read. */
  function Lookup(o: Ops, c: Config, h: Hist, file: Bytes, from: u64, to: u64): Option<Found>
    requires from > 0
  {
    var found := WarmFound(c, h, from, to);
    if !Missing(from, to, found, h.shushed) then Some(found) else
    match Range(o, file, from, to)
    case None => None
    case Some(archived) => Some(AddArchived(archived, found))
  }

  /** What one sequence adds to the response: nothing if withheld, its message if
      found, and otherwise an extension of the last gap or a new one. */
  function Place(found: Found, shushed: set<u64>, x: u64, r: Response): Response
    requires x > 0
  {
    if x in shushed then r
    else if x in found then r.(msgs := r.msgs + [found[x]])
    else if r.gaps != [] && r.gaps[|r.gaps| - 1].to == x - 1 then
      r.(gaps := r.gaps[|r.gaps| - 1 := r.gaps[|r.gaps| - 1].(to := x)])
    else r.(gaps := r.gaps + [Gap(x, x)])
  }

  function PlaceAll(found: Found, shushed: set<u64>, x: u64, to: u64, r: Response): Response
    requires 0 < x && to < U64_MAX
    decreases 1 + to - x
  {
    if x > to then r else PlaceAll(found, shushed, x + 1, to, Place(found, shushed, x, r))
  }

  function Serve(o: Ops, c: Config, h: Hist, file: Bytes, from: u64, to: u64): Option<Response>
    requires 0 < from && to < U64_MAX
  {
    match Lookup(o, c, h, file, from, to)
    case None => None
    case Some(found) => Some(PlaceAll(found, h.shushed, from, to, Response([], [])))
  }

  /** Everything newer than `since`; over the cap, the newest window with the
      older remainder as a gap. */
  function Since(o: Ops, c: Config, h: Hist, file: Bytes, since: u64): Option<Response>
    requires h.lastSeq < U64_MAX
  {
    if since >= h.lastSeq then Some(Response([], [])) else
    var to := h.lastSeq;
    if c.Limit() > 0 && to - (since + 1) + 1 > c.Limit() then
      var start := to - c.Limit() + 1;
      match Serve(o, c, h, file, start, to)
      case None => None
      case Some(r) => Some(r.(gaps := [Gap(since + 1, start - 1)] + r.gaps))
    else Serve(o, c, h, file, since + 1, to)
  }

  /** An explicitly requested span, oldest first; over the cap, the newer
      remainder comes back as a gap. */
  function RangeOf(o: Ops, c: Config, h: Hist, file: Bytes, from0: u64, to0: u64): Option<Response>
    requires h.lastSeq < U64_MAX
  {
    var from := if from0 == 0 then 1 else from0;
    var to := if to0 > h.lastSeq then h.lastSeq else to0;
    if from > to then Some(Response([], [])) else
    if c.Limit() > 0 && to - from + 1 > c.Limit() then
      var end := from + c.Limit() - 1;
      match Serve(o, c, h, file, from, end)
      case None => None
      case Some(r) => Some(r.(gaps := r.gaps + [Gap(end + 1, to)]))
    else Serve(o, c, h, file, from, to)
  }

  /** What opening the archive yields after repair: an empty ring, and the rest
      from the file. `None` is a failed scan. */
  function OpenMemory(o: Ops, file: Bytes): Option<Hist> {
    match Recover(o, file)
    case None => None
    case Some(r) => Some(Hist([], r.shushed, r.lastSeq))
  }

  // ---- The log behind both tiers --------------------------------------

  /** A room's log: sealed messages numbered 1, 2, ..., n. */
  ghost predicate LogOK(o: Ops, log: seq<Message>) {
    AllGenuine(o, log) && Contiguous(log, 0) && |log| < U64_MAX
  }

  /** The file holds exactly the log, and memory agrees with it. */
  ghost predicate Agrees(o: Ops, h: Hist, file: Bytes, log: seq<Message>) {
    && LogOK(o, log)
    && file == FileOf(o, log)
    && h.lastSeq == |log|
    && h.shushed == Targets(o, log)
    && |h.warm| <= |log| && h.warm == log[|log| - |h.warm|..]
  }

  /** The message with sequence x. */
  function At(log: seq<Message>, x: int): Message
    requires 1 <= x <= |log|
  {
    log[x - 1]
  }

  /** A message as it is best served: whole while the ring has it, archival after. */
  function Best(o: Ops, c: Config, h: Hist, m: Message): Message {
    if Retained(h.warm, c.TextCap(), c.ImageBudget(), m) then m else Archival(o, m)
  }

  /** The log's messages from..to that are not withheld, as they are best served. */
  function Visible(o: Ops, c: Config, h: Hist, log: seq<Message>, from: nat, to: nat): seq<Message>
    requires 0 < from && to <= |log|
    decreases 1 + to - from
  {
    if from > to then [] else
    (if from in h.shushed then [] else [Best(o, c, h, At(log, from))]) + Visible(o, c, h, log, from + 1, to)
  }
}
