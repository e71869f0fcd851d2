/** The hub as a transition system: sessions, the registry and room instances,
    each stepping on its own, meeting only in channel handoffs.

    A label names one atomic step: one goroutine's work up to its next channel
    operation, or one handoff between two of them. Which step comes next, what
    `select` picks, how long anything takes and how writes end are all free. */
module HubModel {
  import opened Base
  import opened Envelope
  import opened ArchiveSpec
  import opened HistorySpec
  import opened RoomRules
  import opened Client

  type Name = string

  /** A room instance. Its identity is not its name: a name can be reopened. */
  type Rid = nat

  /** A connection, with its session. */
  type Cid = nat

  datatype Hub = Hub(ops: Ops, cfg: HubConfig)

  /** What is queued for a client: signed messages and control frames. */
  datatype Out =
    | Signed(m: Message)
    | Joined(room: Name, newest: u64)
    | GapNote(room: Name, gap: Gap)
    | Activity(note: Note)
    | Refusal

  datatype Note = Note(room: Name, sn: u64)

  /** Where a session's goroutine is. All but `Idle` and `Gone` are at a channel
      operation, or about to send. */
  datatype Session =
    | Adding
    | Idle(room: Option<Rid>)
    | Leaving(rid: Rid, name: Name, since: u64)
    | RegLeaving(name: Name, since: u64)
    | RegJoining(name: Name, since: u64, tries: nat)
    | Awaiting(name: Name, since: u64, tries: nat, handed: Option<Rid>)
    | RoomJoining(rid: Rid, name: Name, since: u64, tries: nat)
    | AwaitingRoom(rid: Rid, name: Name, since: u64, tries: nat, verdict: Option<bool>)
    | Submitting(rid: Rid, frame: Frame)
    | Refusing(room: Option<Rid>)
    | Closing(rid: Rid)
    | Removing
    | Gone

  /** Where a room's goroutine is. `Fanning` with nobody left is at the activity
      note; `Evicting` is at the evict command. */
  datatype Phase =
    | Opening
    | Repaired
    | Running
    | Delivering(client: Cid, frames: seq<Out>, joining: bool)
    | Writing(m: Message)
    | Fanning(m: Message, rest: set<Cid>)
    | Evicting(fatal: bool)
    | Flushing
    | Killing(rest: set<Cid>)
    | Done

  /** `stop` is the token in the shutdown channel; `worker` the client whose join
      or frame the room last took up (for a new room, its creator). */
  datatype Room = Room(name: Name, phase: Phase, hist: Hist, members: set<Cid>, stop: bool, worker: Cid)

  datatype Mode = Receiving | Pinging(note: Note, rest: set<Cid>) | Winding | Stopped

  datatype Registry = Registry(
    mode: Mode,
    table: map<Name, Rid>,
    clients: map<Cid, Option<Name>>,
    notes: seq<Note>,
    waiting: int)  // the wait group's counter

  const NOTE_BUFFER := 256
  const JOIN_ATTEMPTS := 3

  /** History variable of a subscription: the sequence it resumed from, the
      room's newest then, the response computed for it (`None` if the archive
      could not be read), and every signed message queued since the join other
      than backfills the client asked for. */
  datatype Stream = Stream(since: u64, start: nat, resp: Option<Response>, got: seq<Message>)

  /** `logs`, `delivered` and `streams` are history variables: what every file is
      to hold, which messages were queued for any client, and in what order. */
  datatype State = State(
    sessions: map<Cid, Session>,
    rooms: map<Rid, Room>,
    reg: Registry,
    queues: map<Cid, Queue<Out>>,
    disk: map<Name, Bytes>,
    logs: map<Name, seq<Message>>,
    delivered: set<(Name, Message)>,
    streams: map<Cid, Stream>)

  function FreshRegistry(): Registry { Registry(Receiving, map[], map[], [], 0) }

  function Init(): State { State(map[], map[], FreshRegistry(), map[], map[], map[], {}, map[]) }

  function File(st: State, n: Name): Bytes { if n in st.disk then st.disk[n] else [] }

  function Log(st: State, n: Name): seq<Message> { if n in st.logs then st.logs[n] else [] }

  predicate Stopping(reg: Registry) { reg.mode.Winding? || reg.mode.Stopped? }

  function SetSession(st: State, c: Cid, s: Session): State { st.(sessions := st.sessions[c := s]) }

  function SetRoom(st: State, r: Rid, room: Room): State { st.(rooms := st.rooms[r := room]) }

  function Enqueue(w: Hub, st: State, c: Cid, out: Out, drop: bool): State {
    if c !in st.queues then st else st.(queues := st.queues[c := Send(w.cfg.Buffer(), st.queues[c], out, drop)])
  }

  /** A room's send: queued signed messages are recorded as delivered, and, unless
      they answer a backfill, as part of the client's stream. */
  function Hand(w: Hub, st: State, n: Name, c: Cid, out: Out, drop: bool, live: bool): State {
    var st' := Enqueue(w, st, c, out, drop);
    if c !in st.queues || !out.Signed? || !Accepted(w.cfg.Buffer(), st.queues[c], drop) then st' else
    var st'' := st'.(delivered := st'.delivered + {(n, out.m)});
    if live && c in st.streams then
      st''.(streams := st''.streams[c := st.streams[c].(got := st.streams[c].got + [out.m])])
    else st''
  }

  function KillClient(st: State, c: Cid, code: int): State {
    if c !in st.queues then st else st.(queues := st.queues[c := Kill(st.queues[c], code)])
  }

  // ---- Sessions --------------------------------------------------------

  /** The registry's Join validates the name before anything is submitted. */
  function EnterJoin(name: Name, since: u64): Session {
    if ValidRoomName(name) then RegJoining(name, since, JOIN_ATTEMPTS) else Refusing(None)
  }

  function Retry(name: Name, since: u64, tries: nat): Session {
    if tries > 1 then RegJoining(name, since, tries - 1) else Refusing(None)
  }

  function Connect(st: State, c: Cid): State {
    SetSession(st, c, Adding).(queues := st.queues[c := Queue([], None)])
  }

  function BeginJoin(s: Session, name: Name, since: u64): Session
    requires s.Idle?
  {
    if s.room.Some? then Leaving(s.room.value, name, since) else EnterJoin(name, since)
  }

  /** A frame for the room; `target` is the room name it carries, if any. */
  function BeginSubmit(st: State, s: Session, target: Name, f: Frame): Session
    requires s.Idle? && (s.room.Some? ==> s.room.value in st.rooms)
  {
    if s.room.None? || (target != "" && target != st.rooms[s.room.value].name) then Refusing(s.room)
    else Submitting(s.room.value, f)
  }

  function BeginClose(s: Session): Session
    requires s.Idle?
  {
    if s.room.Some? then Closing(s.room.value) else Removing
  }

  predicate AtRegistry(s: Session) { s.Adding? || s.RegLeaving? || s.RegJoining? || s.Removing? }

  /** The session after its command was taken; `handed` is the registry's reply. */
  function AfterCommand(s: Session, handed: Option<Rid>): Session
    requires AtRegistry(s)
  {
    match s
    case Adding => Idle(None)
    case RegLeaving(name, since) => EnterJoin(name, since)
    case RegJoining(name, since, tries) => Awaiting(name, since, tries, handed)
    case Removing => Gone
  }

  /** The session after it saw that the registry has shut down. */
  function AfterShutdown(s: Session): Session
    requires AtRegistry(s) || s.Awaiting?
  {
    match s
    case Adding => Idle(None)
    case RegLeaving(name, since) => EnterJoin(name, since)
    case Removing => Gone
    case _ => Refusing(None)
  }

  /** The room a session holds, is joining, or is talking to. */
  function Pin(s: Session): Option<Rid> {
    match s
    case Idle(room) => room
    case Refusing(room) => room
    case Leaving(r, _, _) => Some(r)
    case Awaiting(_, _, _, handed) => handed
    case RoomJoining(r, _, _, _) => Some(r)
    case AwaitingRoom(r, _, _, _, _) => Some(r)
    case Submitting(r, _) => Some(r)
    case Closing(r) => Some(r)
    case _ => None
  }

  predicate AtRoom(s: Session) {
    s.Leaving? || s.RoomJoining? || s.AwaitingRoom? || s.Submitting? || s.Closing?
  }

  /** The session after it saw that its room is done. */
  function AfterRoomDone(s: Session): Session
    requires AtRoom(s)
  {
    match s
    case Leaving(_, name, since) => RegLeaving(name, since)
    case RoomJoining(_, name, since, tries) => Retry(name, since, tries)
    case AwaitingRoom(_, name, since, tries, _) => Retry(name, since, tries)
    case Submitting(r, _) => Refusing(Some(r))
    case Closing(_) => Removing
  }

  // ---- The registry ----------------------------------------------------

  function NewRoom(name: Name, creator: Cid): Room {
    Room(name, Opening, Hist([], {}, 0), {}, false, creator)
  }

  /** The registry takes a command that opens no room. */
  function PlainCommand(st: State, c: Cid, s: Session): State
    requires s.Adding? || s.RegLeaving? || s.Removing?
  {
    var clients := if s.Removing? then st.reg.clients - {c} else st.reg.clients[c := None];
    st.(sessions := st.sessions[c := AfterCommand(s, None)], reg := st.reg.(clients := clients))
  }

  /** A join of a room the table has. The client is recorded before the reply. */
  function JoinExisting(st: State, c: Cid, s: Session): State
    requires s.RegJoining? && s.name in st.reg.table
  {
    st.(
      sessions := st.sessions[c := AfterCommand(s, Some(st.reg.table[s.name]))],
      reg := st.reg.(clients := st.reg.clients[c := Some(s.name)]))
  }

  /** A join that creates the instance and starts its goroutine. */
  function JoinCreated(st: State, c: Cid, s: Session, id: Rid): State
    requires s.RegJoining?
  {
    st.(
      sessions := st.sessions[c := AfterCommand(s, Some(id))],
      rooms := st.rooms[id := NewRoom(s.name, c)],
      reg := st.reg.(
        clients := st.reg.clients[c := Some(s.name)],
        table := st.reg.table[s.name := id],
        waiting := st.reg.waiting + 1))
  }

  /** The registry takes a session's command; while winding down it only drains. */
  function Command(st: State, c: Cid, id: Rid): State
    requires c in st.sessions && AtRegistry(st.sessions[c])
  {
    var s := st.sessions[c];
    if !st.reg.mode.Receiving? then SetSession(st, c, AfterCommand(s, None))
    else if !s.RegJoining? then PlainCommand(st, c, s)
    else if s.name in st.reg.table then JoinExisting(st, c, s)
    else JoinCreated(st, c, s, id)
  }

  function Elsewhere(reg: Registry, n: Name): set<Cid> {
    set c | c in reg.clients && reg.clients[c] != Some(n)
  }

  predicate Occupied(reg: Registry, n: Name) {
    exists c :: c in reg.clients && reg.clients[c] == Some(n)
  }

  /** The sweep evicts one unoccupied room. */
  function SweepOne(st: State, n: Name): State
    requires n in st.reg.table && st.reg.table[n] in st.rooms
  {
    var r := st.reg.table[n];
    SetRoom(st, r, st.rooms[r].(stop := true)).(reg := st.reg.(table := st.reg.table - {n}))
  }

  /** Stops every room in the table and kills every recorded client. */
  function Shutdown(st: State): State {
    st.(
      rooms := map r | r in st.rooms :: if r in st.reg.table.Values then st.rooms[r].(stop := true) else st.rooms[r],
      queues := map c | c in st.queues ::
        if c in st.reg.clients then Kill(st.queues[c], CLOSE_SERVER_ERROR) else st.queues[c],
      reg := st.reg.(mode := Winding))
  }

  /** The registry's pings, one client at a time; after the last it receives again. */
  function Pinged(reg: Registry, rest: set<Cid>, note: Note): Registry {
    reg.(mode := if rest == {} then Receiving else Pinging(note, rest))
  }

  function TakeNote(st: State): State
    requires st.reg.notes != []
  {
    var note := st.reg.notes[0];
    st.(reg := Pinged(st.reg.(notes := st.reg.notes[1..]), Elsewhere(st.reg, note.room), note))
  }

  function Ping(w: Hub, st: State, c: Cid, drop: bool): State
    requires st.reg.mode.Pinging?
  {
    var note := st.reg.mode.note;
    Enqueue(w, st, c, Activity(note), drop).(reg := Pinged(st.reg, st.reg.mode.rest - {c}, note))
  }

  // ---- Clients and the process -----------------------------------------

  /** The write pump sends the oldest queued frame. */
  function Pump(st: State, c: Cid): State
    requires c in st.queues && st.queues[c].out != []
  {
    st.(queues := st.queues[c := st.queues[c].(out := st.queues[c].out[1..])])
  }

  /** The process dies and starts again: only the files survive. */
  function Restart(st: State): State {
    State(map[], map[], FreshRegistry(), map[], st.disk, st.logs, st.delivered, map[])
  }

  // ---- Rooms -----------------------------------------------------------

  function Notes(n: Name, gaps: seq<Gap>): seq<Out> {
    if gaps == [] then [] else [GapNote(n, gaps[0])] + Notes(n, gaps[1..])
  }

  function SignedAll(ms: seq<Message>): seq<Out> {
    if ms == [] then [] else [Signed(ms[0])] + SignedAll(ms[1..])
  }

  /** Gaps first, then messages; a failed archive read is reported as an error. */
  function Answer(n: Name, r: Option<Response>): seq<Out> {
    match r
    case None => [Refusal]
    case Some(resp) => Notes(n, resp.gaps) + SignedAll(resp.msgs)
  }

  /** There is a sequence number left to assign. */
  predicate CanCount(h: Hist) { h.lastSeq + 1 < U64_MAX }

  /** The room takes a join: subscribe, then deliver everything newer. */
  function TakeJoin(w: Hub, st: State, r: Rid, c: Cid): State
    requires c in st.sessions && st.sessions[c].RoomJoining? && r in st.rooms && CanCount(st.rooms[r].hist)
  {
    var room := st.rooms[r];
    var RoomJoining(_, name, since, tries) := st.sessions[c];
    var resp := Since(w.ops, w.cfg.store, room.hist, File(st, room.name), since);
    var frames := [Joined(room.name, room.hist.lastSeq)] + Answer(room.name, resp);
    SetRoom(SetSession(st, c, AwaitingRoom(r, name, since, tries, None)), r,
      room.(members := room.members + {c}, phase := Delivering(c, frames, true), worker := c)).(
      streams := st.streams[c := Stream(since, room.hist.lastSeq, resp, [])])
  }

  /** The room takes a leave. */
  function TakeLeave(st: State, r: Rid, c: Cid): State
    requires c in st.sessions && (st.sessions[c].Leaving? || st.sessions[c].Closing?) && r in st.rooms
  {
    SetRoom(SetSession(st, c, AfterRoomDone(st.sessions[c])), r,
      st.rooms[r].(members := st.rooms[r].members - {c}))
  }

  /** What the room does next about a frame: answer it, ignore it, or write. */
  function Handle(w: Hub, room: Room, file: Bytes, c: Cid, f: Frame, ts: i64): Room
    requires CanCount(room.hist)
  {
    var o := w.ops;
    if f.BackfillFrame? then
      var frames := if f.from == 0 || f.to < f.from then [Refusal]
                    else Answer(room.name, RangeOf(o, w.cfg.store, room.hist, file, f.from, f.to));
      room.(phase := Delivering(c, frames, false), worker := c)
    else
      var draft := if f.SendFrame? then Publish(w.cfg, room.name, f) else ShushDraft(o, room.name, room.hist, f);
      match draft
      case Rejected => room.(phase := Delivering(c, [Refusal], false), worker := c)
      case Ignored => room
      case Cast(_, _) =>
        var h := NextSeq(room.hist);
        match SealDraft(o, draft, h.lastSeq, ts)
        case None => room.(hist := h, phase := Delivering(c, [Refusal], false), worker := c)
        case Some(m) => room.(hist := h, phase := Writing(m), worker := c)
  }

  /** The room takes a frame; the session goes on as soon as it is taken. */
  function TakeFrame(w: Hub, st: State, r: Rid, c: Cid, ts: i64): State
    requires c in st.sessions && st.sessions[c].Submitting? && r in st.rooms && CanCount(st.rooms[r].hist)
  {
    SetRoom(SetSession(st, c, Idle(Some(r))), r,
      Handle(w, st.rooms[r], File(st, st.rooms[r].name), c, st.sessions[c].frame, ts))
  }

  /** One step of delivering an answer; after the last frame, a join is confirmed. */
  function DeliverOne(w: Hub, st: State, r: Rid, drop: bool): State
    requires r in st.rooms && st.rooms[r].phase.Delivering?
  {
    var room := st.rooms[r];
    var Delivering(c, frames, joining) := room.phase;
    if frames != [] then
      SetRoom(Hand(w, st, room.name, c, frames[0], drop, joining), r,
        room.(phase := Delivering(c, frames[1..], joining)))
    else
      var st' := SetRoom(st, r, room.(phase := Running));
      if joining && c in st.sessions && st.sessions[c].AwaitingRoom? then
        SetSession(st', c, st.sessions[c].(verdict := Some(true)))
      else st'
  }

  /** The archive write: `landed` bytes of the record reach the disk. */
  function WriteRecord(w: Hub, st: State, r: Rid, landed: nat, failed: bool): State
    requires r in st.rooms && st.rooms[r].phase.Writing? && landed <= |Line(w.ops, st.rooms[r].phase.m)|
  {
    var room := st.rooms[r];
    var m, n := room.phase.m, room.name;
    var line := Line(w.ops, m);
    SetRoom(st, r, room.(
        hist := Remember(w.ops, room.hist, m),
        phase := if failed then Evicting(true) else Fanning(m, room.members))).(
      disk := st.disk[n := File(st, n) + line[..landed]],
      logs := if landed == |line| then st.logs[n := Log(st, n) + [m]] else st.logs)
  }

  function FanOne(w: Hub, st: State, r: Rid, c: Cid, drop: bool): State
    requires r in st.rooms && st.rooms[r].phase.Fanning?
  {
    var room := st.rooms[r];
    SetRoom(Hand(w, st, room.name, c, Signed(room.phase.m), drop, true), r,
      room.(phase := Fanning(room.phase.m, room.phase.rest - {c})))
  }

  /** The activity note, or its omission once the registry is stopping. */
  function NotifyActivity(st: State, r: Rid, skip: bool): State
    requires r in st.rooms && st.rooms[r].phase.Fanning?
  {
    var room := st.rooms[r];
    var st' := SetRoom(st, r, room.(phase := Running));
    if skip then st'
    else st'.(reg := st.reg.(notes := st.reg.notes + [Note(room.name, room.phase.m.header.sn)]))
  }

  function RepairFile(w: Hub, st: State, r: Rid): State
    requires r in st.rooms
  {
    var room := st.rooms[r];
    var (file, ok) := Repair(w.ops, File(st, room.name), REPAIR_ATTEMPTS);
    SetRoom(st, r, room.(phase := if ok then Repaired else Evicting(false))).(disk := st.disk[room.name := file])
  }

  function RecoverMemory(w: Hub, st: State, r: Rid): State
    requires r in st.rooms
  {
    var room := st.rooms[r];
    SetRoom(st, r,
      match OpenMemory(w.ops, File(st, room.name))
      case None => room.(phase := Evicting(false))
      case Some(h) => room.(phase := Running, hist := h))
  }

  /** The evict command names the room; the registry deletes whatever the table
      has under that name. `skip` is the stopping branch, or a drained command. */
  function EvictByName(st: State, r: Rid, skip: bool): State
    requires r in st.rooms && st.rooms[r].phase.Evicting?
  {
    var room := st.rooms[r];
    var st' := SetRoom(st, r, room.(phase := if room.phase.fatal then Killing(room.members) else Flushing));
    if skip then st' else st'.(reg := st.reg.(table := st.reg.table - {room.name}))
  }

  /** The session after a room that failed to open answered it. */
  function Flushed(s: Session): Session
    requires AtRoom(s) && !s.AwaitingRoom?
  {
    match s
    case RoomJoining(r, name, since, tries) => AwaitingRoom(r, name, since, tries, Some(false))
    case Submitting(r, _) => Idle(Some(r))
    case _ => AfterRoomDone(s)
  }

  /** A room that failed to open answers one waiting session. */
  function FlushOne(w: Hub, st: State, c: Cid, drop: bool): State
    requires c in st.sessions && AtRoom(st.sessions[c]) && !st.sessions[c].AwaitingRoom?
  {
    var s := st.sessions[c];
    SetSession(if s.Submitting? then Enqueue(w, st, c, Refusal, drop) else st, c, Flushed(s))
  }

  function KillOne(st: State, r: Rid, c: Cid): State
    requires r in st.rooms && st.rooms[r].phase.Killing?
  {
    SetRoom(KillClient(st, c, CLOSE_SERVER_ERROR), r,
      st.rooms[r].(phase := Killing(st.rooms[r].phase.rest - {c})))
  }

  /** The room's goroutine returns: done is closed and the wait group counted down. */
  function Finish(st: State, r: Rid): State
    requires r in st.rooms
  {
    SetRoom(st, r, st.rooms[r].(phase := Done)).(reg := st.reg.(waiting := st.reg.waiting - 1))
  }

  /** The archive cannot be opened or read: a transient fault of the file system. */
  function OpenFails(st: State, r: Rid): State
    requires r in st.rooms
  {
    SetRoom(st, r, st.rooms[r].(phase := Evicting(false)))
  }

  // ---- Labels ----------------------------------------------------------

  datatype Label =
    | LConnect(c: Cid)
    | LBeginJoin(c: Cid, name: Name, since: u64)
    | LBeginSubmit(c: Cid, target: Name, frame: Frame)
    | LBadFrame(c: Cid)
    | LBeginClose(c: Cid)
    | LCommand(c: Cid, id: Rid)
    | LRegistryDone(c: Cid)
    | LTakeRoom(c: Cid)
    | LTakeVerdict(c: Cid)
    | LRoomDone(c: Cid)
    | LRefuse(c: Cid, drop: bool)
    | LTakeJoin(r: Rid, c: Cid)
    | LTakeLeave(r: Rid, c: Cid)
    | LTakeFrame(r: Rid, c: Cid, ts: i64)
    | LRepair(r: Rid)
    | LRecover(r: Rid)
    | LOpenFails(r: Rid)
    | LDeliver(r: Rid, drop: bool)
    | LWrite(r: Rid, landed: nat, failed: bool)
    | LFan(r: Rid, c: Cid, drop: bool)
    | LNotify(r: Rid, skip: bool)
    | LEvict(r: Rid, skip: bool)
    | LFlush(r: Rid, c: Cid, drop: bool)
    | LKill(r: Rid, c: Cid)
    | LFinish(r: Rid)
    | LTakeNote
    | LPing(c: Cid, drop: bool)
    | LDiscardNote
    | LSweep(n: Name)
    | LShutdown
    | LAllDone
    | LPump(c: Cid)
    | LHangup(c: Cid, code: int)
    | LRestart

  predicate SessionAt(st: State, c: Cid, r: Rid) { c in st.sessions && Pin(st.sessions[c]) == Some(r) }

  /** The steps in which one session moves on its own. */
  predicate SessionLabel(l: Label) {
    l.LBeginJoin? || l.LBeginSubmit? || l.LBadFrame? || l.LBeginClose? || l.LRegistryDone? || l.LTakeRoom? ||
    l.LTakeVerdict? || l.LRoomDone? || l.LRefuse?
  }

  predicate SessionGuard(st: State, l: Label)
    requires SessionLabel(l)
  {
    && l.c in st.sessions
    && var s := st.sessions[l.c];
       match l
       case LBeginJoin(_, _, _) => s.Idle?
       case LBeginSubmit(_, _, _) => s.Idle? && (s.room.Some? ==> s.room.value in st.rooms)
       case LBadFrame(_) => s.Idle?
       case LBeginClose(_) => s.Idle?
       case LRegistryDone(_) => (AtRegistry(s) || s.Awaiting?) && st.reg.mode.Stopped?
       case LTakeRoom(_) => s.Awaiting? && s.handed.Some?
       case LTakeVerdict(_) => s.AwaitingRoom? && s.verdict.Some?
       case LRoomDone(_) => AtRoom(s) && s.rid in st.rooms && st.rooms[s.rid].phase.Done?
       case LRefuse(_, _) => s.Refusing?
  }

  function SessionAfter(st: State, l: Label): Session
    requires SessionLabel(l) && SessionGuard(st, l)
  {
    var s := st.sessions[l.c];
    match l
    case LBeginJoin(_, name, since) => BeginJoin(s, name, since)
    case LBeginSubmit(_, target, f) => BeginSubmit(st, s, target, f)
    case LBadFrame(_) => Refusing(s.room)
    case LBeginClose(_) => BeginClose(s)
    case LRegistryDone(_) => AfterShutdown(s)
    case LTakeRoom(_) => RoomJoining(s.handed.value, s.name, s.since, s.tries)
    case LTakeVerdict(_) => if s.verdict.value then Idle(Some(s.rid)) else Refusing(None)
    case LRoomDone(_) => AfterRoomDone(s)
    case LRefuse(_, _) => Idle(s.room)
  }

  function SessionStep(w: Hub, st: State, l: Label): State
    requires SessionLabel(l) && SessionGuard(st, l)
  {
    SetSession(if l.LRefuse? then Enqueue(w, st, l.c, Refusal, l.drop) else st, l.c, SessionAfter(st, l))
  }

  /** The steps of a room, alone or with a session. */
  predicate RoomLabel(l: Label) {
    l.LTakeJoin? || l.LTakeLeave? || l.LTakeFrame? || l.LRepair? || l.LRecover? || l.LOpenFails? || l.LDeliver? ||
    l.LWrite? || l.LFan? || l.LNotify? || l.LEvict? || l.LFlush? || l.LKill? || l.LFinish?
  }

  predicate RoomGuard(w: Hub, st: State, l: Label)
    requires RoomLabel(l)
  {
    && l.r in st.rooms
    && var room := st.rooms[l.r];
       var p := room.phase;
       match l
       case LTakeJoin(r, c) => p.Running? && SessionAt(st, c, r) && st.sessions[c].RoomJoining? && CanCount(room.hist)
       case LTakeLeave(r, c) =>
         p.Running? && SessionAt(st, c, r) && (st.sessions[c].Leaving? || st.sessions[c].Closing?)
       case LTakeFrame(r, c, _) =>
         p.Running? && SessionAt(st, c, r) && st.sessions[c].Submitting? && CanCount(room.hist)
       case LRepair(_) => p.Opening?
       case LRecover(_) => p.Repaired?
       case LOpenFails(_) => p.Opening? || p.Repaired?
       case LDeliver(_, _) => p.Delivering?
       case LWrite(_, landed, failed) =>
         p.Writing? && landed <= |Line(w.ops, p.m)| && (!failed ==> landed == |Line(w.ops, p.m)|)
       case LFan(_, c, _) => p.Fanning? && c in p.rest
       case LNotify(_, skip) =>
         p.Fanning? && p.rest == {} && (if skip then Stopping(st.reg) else |st.reg.notes| < NOTE_BUFFER)
       case LEvict(_, skip) => p.Evicting? && (if skip then Stopping(st.reg) else st.reg.mode.Receiving?)
       case LFlush(r, c, _) =>
         p.Flushing? && SessionAt(st, c, r) && AtRoom(st.sessions[c]) && !st.sessions[c].AwaitingRoom?
       case LKill(_, c) => p.Killing? && c in p.rest
       case LFinish(_) => p.Flushing? || (p.Killing? && p.rest == {}) || (p.Running? && room.stop)
  }

  function RoomStep(w: Hub, st: State, l: Label): State
    requires RoomLabel(l) && RoomGuard(w, st, l)
  {
    match l
    case LTakeJoin(r, c) => TakeJoin(w, st, r, c)
    case LTakeLeave(r, c) => TakeLeave(st, r, c)
    case LTakeFrame(r, c, ts) => TakeFrame(w, st, r, c, ts)
    case LRepair(r) => RepairFile(w, st, r)
    case LRecover(r) => RecoverMemory(w, st, r)
    case LOpenFails(r) => OpenFails(st, r)
    case LDeliver(r, drop) => DeliverOne(w, st, r, drop)
    case LWrite(r, landed, failed) => WriteRecord(w, st, r, landed, failed)
    case LFan(r, c, drop) => FanOne(w, st, r, c, drop)
    case LNotify(r, skip) => NotifyActivity(st, r, skip)
    case LEvict(r, skip) => EvictByName(st, r, skip)
    case LFlush(_, c, drop) => FlushOne(w, st, c, drop)
    case LKill(r, c) => KillOne(st, r, c)
    case LFinish(r) => Finish(st, r)
  }

  /** The registry's steps, and those of the world around the hub. */
  predicate HubGuard(st: State, l: Label)
    requires !SessionLabel(l) && !RoomLabel(l)
  {
    match l
    case LConnect(c) => c !in st.sessions
    case LCommand(c, id) =>
      && c in st.sessions && AtRegistry(st.sessions[c]) && id !in st.rooms
      && (st.reg.mode.Receiving? || st.reg.mode.Winding?)
    case LTakeNote => st.reg.mode.Receiving? && st.reg.notes != []
    case LPing(c, _) => st.reg.mode.Pinging? && c in st.reg.mode.rest
    case LDiscardNote => st.reg.mode.Winding? && st.reg.notes != []
    case LSweep(n) =>
      st.reg.mode.Receiving? && n in st.reg.table && st.reg.table[n] in st.rooms && !Occupied(st.reg, n)
    case LShutdown => st.reg.mode.Receiving?
    case LAllDone => st.reg.mode.Winding? && st.reg.waiting == 0
    case LPump(c) => c in st.queues && st.queues[c].out != []
    case LHangup(c, _) => c in st.queues
    case LRestart => true
  }

  function HubStep(w: Hub, st: State, l: Label): State
    requires !SessionLabel(l) && !RoomLabel(l) && HubGuard(st, l)
  {
    match l
    case LConnect(c) => Connect(st, c)
    case LCommand(c, id) => Command(st, c, id)
    case LTakeNote => TakeNote(st)
    case LPing(c, drop) => Ping(w, st, c, drop)
    case LDiscardNote => st.(reg := st.reg.(notes := st.reg.notes[1..]))
    case LSweep(n) => SweepOne(st, n)
    case LShutdown => Shutdown(st)
    case LAllDone => st.(reg := st.reg.(mode := Stopped))
    case LPump(c) => Pump(st, c)
    case LHangup(c, code) => KillClient(st, c, code)
    case LRestart => Restart(st)
  }

  /** Which steps are possible. */
  predicate Guard(w: Hub, st: State, l: Label) {
    if SessionLabel(l) then SessionGuard(st, l) else if RoomLabel(l) then RoomGuard(w, st, l) else HubGuard(st, l)
  }

  function Apply(w: Hub, st: State, l: Label): State
    requires Guard(w, st, l)
  {
    if SessionLabel(l) then SessionStep(w, st, l) else if RoomLabel(l) then RoomStep(w, st, l) else HubStep(w, st, l)
  }

  /** A run: any sequence of possible steps. */
  predicate Run(w: Hub, st: State, ls: seq<Label>)
    decreases |ls|
  {
    ls == [] || (Guard(w, st, ls[0]) && Run(w, Apply(w, st, ls[0]), ls[1..]))
  }

  function Outcome(w: Hub, st: State, ls: seq<Label>): State
    requires Run(w, st, ls)
    decreases |ls|
  {
    if ls == [] then st else Outcome(w, Apply(w, st, ls[0]), ls[1..])
  }
}
