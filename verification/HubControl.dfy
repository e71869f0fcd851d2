/** Who holds, joins and owns which room: the discipline that makes a room's
    archive single-writer without a lock, and keeps the hub from blocking. */
module HubControl {
  import opened Base
  import opened RoomRules
  import opened HubModel

  /** The room has not yet given itself up. */
  predicate Live(p: Phase) { !p.Flushing? && !p.Killing? && !p.Done? }

  /** The room is opening, or in the middle of someone's request. */
  predicate Active(p: Phase) { Live(p) && !p.Running? }

  /** The table has this very instance under its name. */
  predicate Tabled(st: State, r: Rid) {
    r in st.rooms && st.rooms[r].name in st.reg.table && st.reg.table[st.rooms[r].name] == r
  }

  predicate RecordedIn(st: State, c: Cid, n: Name) { c in st.reg.clients && st.reg.clients[c] == Some(n) }

  ghost predicate TableOK(st: State) {
    forall n :: n in st.reg.table ==>
      st.reg.table[n] in st.rooms && st.rooms[st.reg.table[n]].name == n && ValidRoomName(n)
  }

  /** A session holding or joining a live room is recorded in it, and the table
      still has that instance. */
  ghost predicate PinsOK(st: State) {
    forall c :: c in st.sessions && Pin(st.sessions[c]).Some? ==>
      var r := Pin(st.sessions[c]).value;
      r in st.rooms && (Live(st.rooms[r].phase) ==> RecordedIn(st, c, st.rooms[r].name) && Tabled(st, r))
  }

  /** A room at work is pinned by the client it works for. */
  ghost predicate WorkersOK(st: State) {
    forall r :: r in st.rooms && Active(st.rooms[r].phase) ==> SessionAt(st, st.rooms[r].worker, r)
  }

  /** A live room's members are the sessions that hold it. */
  ghost predicate MembersOK(st: State) {
    forall r, c :: r in st.rooms && Live(st.rooms[r].phase) && c in st.rooms[r].members ==> SessionAt(st, c, r)
  }

  /** Until shutdown the table has only rooms that are live and not told to stop. */
  ghost predicate TableLive(st: State) {
    !Stopping(st.reg) ==> forall n :: n in st.reg.table && st.reg.table[n] in st.rooms ==>
      Live(st.rooms[st.reg.table[n]].phase) && !st.rooms[st.reg.table[n]].stop
  }

  /** Every live room is in the table or told to stop; in shutdown, told to stop. */
  ghost predicate NoneForgotten(st: State) {
    forall r :: r in st.rooms && Live(st.rooms[r].phase) ==>
      (Tabled(st, r) || st.rooms[r].stop) && (Stopping(st.reg) ==> st.rooms[r].stop)
  }

  function Unfinished(rooms: map<Rid, Room>): set<Rid> { set r | r in rooms && !rooms[r].phase.Done? }

  /** The wait group counts the rooms that have not returned; the registry is
      stopped only once there are none, and pings only while someone is left. */
  ghost predicate Counted(st: State) {
    && st.reg.waiting == |Unfinished(st.rooms)| && (st.reg.mode.Stopped? ==> st.reg.waiting == 0)
    && (st.reg.mode.Pinging? ==> st.reg.mode.rest != {})
  }

  /** A session waiting for a verdict is being answered; one refused by a room
      that failed to open waits no more; no reply is lost before shutdown. */
  ghost predicate RepliesOK(st: State) {
    && (forall c :: c in st.sessions && st.sessions[c].AwaitingRoom? ==>
         var s := st.sessions[c];
         s.rid in st.rooms && match s.verdict
           case None =>
             var p := st.rooms[s.rid].phase; p.Delivering? && p.joining && p.client == c
           case Some(joined) => !joined ==> !Live(st.rooms[s.rid].phase))
    && (forall r :: r in st.rooms && st.rooms[r].phase.Delivering? && st.rooms[r].phase.joining ==>
         var c := st.rooms[r].phase.client;
         c in st.sessions && st.sessions[c].AwaitingRoom? && st.sessions[c].rid == r && st.sessions[c].verdict == None)
    && (forall c :: c in st.sessions && st.sessions[c].Awaiting? && st.sessions[c].handed == None ==> Stopping(st.reg))
  }

  ghost predicate NamesOK(st: State) {
    && (forall r :: r in st.rooms ==> ValidRoomName(st.rooms[r].name))
    && (forall c :: c in st.sessions ==>
         var s := st.sessions[c];
         (s.RegJoining? || s.Awaiting? || s.RoomJoining? || s.AwaitingRoom? ==> ValidRoomName(s.name)))
  }

  ghost predicate QueuesOK(w: Hub, st: State) {
    && (forall c :: c in st.sessions ==> c in st.queues)
    && (forall c :: c in st.queues ==> |st.queues[c].out| <= w.cfg.Buffer())
  }

  ghost predicate Control(w: Hub, st: State) {
    && TableOK(st) && PinsOK(st) && WorkersOK(st) && MembersOK(st) && TableLive(st) && NoneForgotten(st)
    && Counted(st) && RepliesOK(st) && NamesOK(st) && QueuesOK(w, st)
  }

  // ---- Two kinds of step -----------------------------------------------

  /** Only session c moves: it keeps its pin, or drops one on a room that is no
      longer live. */
  ghost predicate SessionMove(st: State, st': State, c: Cid, s: Session) {
    && c in st.sessions
    && st'.sessions == st.sessions[c := s] && st'.rooms == st.rooms && st'.reg == st.reg
    && (Pin(s) == Pin(st.sessions[c]) ||
        (Pin(s) == None && Pin(st.sessions[c]).value in st.rooms && !Live(st.rooms[Pin(st.sessions[c]).value].phase)))
  }

  lemma SessionMoveKeeps(st: State, st': State, c: Cid, s: Session)
    requires PinsOK(st) && WorkersOK(st) && MembersOK(st) && SessionMove(st, st', c, s)
    ensures PinsOK(st') && WorkersOK(st') && MembersOK(st')
  {
    forall d, r | SessionAt(st, d, r) && r in st.rooms && Live(st.rooms[r].phase) ensures SessionAt(st', d, r) {}
    forall d | d in st'.sessions && Pin(st'.sessions[d]).Some?
      ensures var r := Pin(st'.sessions[d]).value;
        r in st'.rooms && (Live(st'.rooms[r].phase) ==> RecordedIn(st', d, st'.rooms[r].name) && Tabled(st', r))
    {
      assert Pin(st'.sessions[d]) == Pin(st.sessions[d]);
    }
  }

  /** Only room r moves, keeping its name and table entry: it stays live or gives
      itself up, takes on no member, and works for whom it worked before. */
  ghost predicate RoomMove(st: State, st': State, r: Rid, room: Room) {
    && r in st.rooms
    && st'.sessions == st.sessions && st'.rooms == st.rooms[r := room]
    && st'.reg.table == st.reg.table && st'.reg.clients == st.reg.clients
    && Stopping(st'.reg) == Stopping(st.reg)
    && room.name == st.rooms[r].name && room.worker == st.rooms[r].worker && room.members <= st.rooms[r].members
    && room.stop == st.rooms[r].stop
    && (Live(room.phase) ==> Live(st.rooms[r].phase))
    && (Active(room.phase) ==> Active(st.rooms[r].phase))
  }

  lemma RoomMoveKeeps(st: State, st': State, r: Rid, room: Room)
    requires TableOK(st) && PinsOK(st) && WorkersOK(st) && MembersOK(st) && NoneForgotten(st)
    requires RoomMove(st, st', r, room)
    ensures TableOK(st') && PinsOK(st') && WorkersOK(st') && MembersOK(st') && NoneForgotten(st')
    ensures TableLive(st) && Live(room.phase) ==> TableLive(st')
  {
    forall q ensures Tabled(st', q) == Tabled(st, q) {}
    forall d, q | SessionAt(st, d, q) ensures SessionAt(st', d, q) {}
  }

  // ---- What a room's send leaves alone ---------------------------------

  /** A room's send changes queues, deliveries and streams only, and takes nothing
      back that was delivered. */
  lemma HandIs(w: Hub, st: State, n: Name, c: Cid, out: Out, drop: bool, live: bool)
    ensures var st' := Hand(w, st, n, c, out, drop, live);
      && st' == st.(queues := st'.queues, delivered := st'.delivered, streams := st'.streams)
      && st.delivered <= st'.delivered
  {
  }
}
