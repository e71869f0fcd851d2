/** Every step keeps the control discipline. */
module HubSteps {
  import opened Base
  import opened ArchiveSpec
  import opened HistorySpec
  import opened RoomRules
  import opened Client
  import opened HubModel
  import opened HubControl

  lemma NoneUnfinished(st: State)
    requires Counted(st) && st.reg.mode.Stopped?
    ensures forall r :: r in st.rooms ==> st.rooms[r].phase.Done?
  {
    var u := Unfinished(st.rooms);
    assert u == {};
    forall r | r in st.rooms ensures st.rooms[r].phase.Done? {
      assert r !in u;
    }
  }

  /** Pins that the step keeps. */
  lemma PinKept(w: Hub, st: State, l: Label)
    requires SessionLabel(l) && SessionGuard(st, l)
    requires l.LBeginJoin? || l.LBeginSubmit? || l.LBadFrame? || l.LBeginClose? || l.LTakeRoom? || l.LRefuse?
    ensures Pin(SessionAfter(st, l)) == Pin(st.sessions[l.c])
  {
  }

  /** Pins that the step drops were on rooms no longer live. */
  lemma PinDropped(w: Hub, st: State, l: Label)
    requires SessionLabel(l) && SessionGuard(st, l) && PinsOK(st) && RepliesOK(st) && Counted(st)
    requires l.LRegistryDone? || l.LTakeVerdict? || l.LRoomDone?
    ensures var p, p' := Pin(st.sessions[l.c]), Pin(SessionAfter(st, l));
      p' == p || (p' == None && p.value in st.rooms && !Live(st.rooms[p.value].phase))
  {
    if st.reg.mode.Stopped? {
      NoneUnfinished(st);
    }
  }

  lemma SessionStepMoves(w: Hub, st: State, l: Label)
    requires PinsOK(st) && RepliesOK(st) && Counted(st) && SessionLabel(l) && SessionGuard(st, l)
    ensures SessionMove(st, SessionStep(w, st, l), l.c, SessionAfter(st, l))
  {
    if l.LRegistryDone? || l.LTakeVerdict? || l.LRoomDone? {
      PinDropped(w, st, l);
    } else {
      PinKept(w, st, l);
    }
    hide PinsOK, RepliesOK, Counted, Pin, BeginJoin, BeginSubmit, BeginClose, AfterShutdown, AfterRoomDone, Send;
    assert l.LRefuse? ==> SessionStep(w, st, l).rooms == st.rooms;
  }

  /** One session moves without starting to wait for a verdict, and without
      leaving a room that is still answering it. */
  ghost predicate Unanswered(st: State, st': State, c: Cid, s: Session) {
    && c in st.sessions && st'.sessions == st.sessions[c := s] && st'.rooms == st.rooms
    && Stopping(st'.reg) == Stopping(st.reg)
    && !s.AwaitingRoom?
    && (s.Awaiting? && s.handed == None ==> Stopping(st.reg))
    && (st.sessions[c].AwaitingRoom? && st.sessions[c].verdict == None ==>
         st.sessions[c].rid in st.rooms && st.rooms[st.sessions[c].rid].phase.Done?)
  }

  lemma RepliesKept(st: State, st': State, c: Cid, s: Session)
    requires RepliesOK(st) && Unanswered(st, st', c, s)
    ensures RepliesOK(st')
  {
  }

  lemma NamesKept(st: State, st': State, c: Cid, s: Session)
    requires NamesOK(st) && c in st.sessions && st'.sessions == st.sessions[c := s] && st'.rooms == st.rooms
    requires s.RegJoining? || s.Awaiting? || s.RoomJoining? || s.AwaitingRoom? ==> ValidRoomName(s.name)
    ensures NamesOK(st')
  {
  }

  /** The invariants that do not mention sessions. */
  ghost predicate RoomsOK(st: State) { TableOK(st) && TableLive(st) && NoneForgotten(st) && Counted(st) }

  lemma RoomsKept(st: State, st': State)
    requires RoomsOK(st) && st'.rooms == st.rooms && st'.reg.table == st.reg.table
    requires st'.reg.mode == st.reg.mode && st'.reg.waiting == st.reg.waiting
    ensures RoomsOK(st')
  {
  }

  lemma SameQueues(w: Hub, st: State, c: Cid, out: Out, drop: bool)
    requires QueuesOK(w, st)
    ensures QueuesOK(w, Enqueue(w, st, c, out, drop))
    ensures var st' := Enqueue(w, st, c, out, drop); st' == st.(queues := st'.queues)
    ensures Enqueue(w, st, c, out, drop).queues.Keys == st.queues.Keys
  {
  }

  lemma SessionStepUnanswered(w: Hub, st: State, l: Label)
    requires SessionLabel(l) && SessionGuard(st, l) && NamesOK(st)
    ensures Unanswered(st, SessionStep(w, st, l), l.c, SessionAfter(st, l))
    ensures var s := SessionAfter(st, l);
      s.RegJoining? || s.Awaiting? || s.RoomJoining? || s.AwaitingRoom? ==> ValidRoomName(s.name)
  {
    hide ValidRoomName, Send;
  }

  lemma SessionStepKeeps(w: Hub, st: State, l: Label)
    requires Control(w, st) && SessionLabel(l) && SessionGuard(st, l)
    ensures Control(w, SessionStep(w, st, l))
  {
    var st' := SessionStep(w, st, l);
    var s := SessionAfter(st, l);
    SessionStepMoves(w, st, l);
    SessionStepUnanswered(w, st, l);
    if l.LRefuse? {
      SameQueues(w, st, l.c, Refusal, l.drop);
    }
    assert QueuesOK(w, st') by {
      hide PinsOK, WorkersOK, MembersOK, TableOK, TableLive, NoneForgotten, RepliesOK, NamesOK, Counted;
    }
    hide SessionStep, SessionGuard, SessionAfter, PinsOK, WorkersOK, MembersOK, TableOK, TableLive, NoneForgotten,
      RepliesOK, NamesOK, Counted, QueuesOK;
    SessionMoveKeeps(st, st', l.c, s);
    RepliesKept(st, st', l.c, s);
    NamesKept(st, st', l.c, s);
    RoomsKept(st, st');
  }

  lemma ConnectPins(st: State, c: Cid)
    requires PinsOK(st) && WorkersOK(st) && MembersOK(st) && c !in st.sessions
    ensures var st' := Connect(st, c); PinsOK(st') && WorkersOK(st') && MembersOK(st')
  {
  }

  lemma ConnectRest(w: Hub, st: State, c: Cid)
    requires RepliesOK(st) && NamesOK(st) && QueuesOK(w, st) && c !in st.sessions
    ensures var st' := Connect(st, c); RepliesOK(st') && NamesOK(st') && QueuesOK(w, st')
  {
    hide ValidRoomName, Live;
  }

  lemma ConnectKeeps(w: Hub, st: State, c: Cid)
    requires Control(w, st) && HubGuard(st, LConnect(c))
    ensures Control(w, Connect(st, c))
  {
    hide PinsOK, WorkersOK, MembersOK, TableOK, TableLive, NoneForgotten, RepliesOK, NamesOK, QueuesOK, Counted;
    ConnectPins(st, c);
    ConnectRest(w, st, c);
    RoomsKept(st, Connect(st, c));
  }

  // ---- Commands to the registry ---------------------------------------

  /** Client c, with no pin before, is the only one whose session and record
      change; rooms and table entries stay. */
  ghost predicate CommandMove(st: State, st': State, c: Cid) {
    && c in st.sessions && Pin(st.sessions[c]) == None
    && c in st'.sessions && (forall d :: d != c ==> (d in st'.sessions <==> d in st.sessions))
    && (forall d :: d != c && d in st.sessions ==> st'.sessions[d] == st.sessions[d])
    && (forall d :: d != c && d in st.reg.clients ==> d in st'.reg.clients && st'.reg.clients[d] == st.reg.clients[d])
    && (forall r :: r in st.rooms ==> r in st'.rooms && st'.rooms[r] == st.rooms[r])
    && (forall n :: n in st.reg.table ==> n in st'.reg.table && st'.reg.table[n] == st.reg.table[n])
    && (forall r :: r in st'.rooms && r !in st.rooms ==>
          st'.rooms[r].phase.Opening? && st'.rooms[r].worker == c && st'.rooms[r].members == {} && SessionAt(st', c, r))
  }

  lemma CommandPins(st: State, st': State, c: Cid)
    requires PinsOK(st) && CommandMove(st, st', c)
    requires Pin(st'.sessions[c]).Some? ==>
      var r := Pin(st'.sessions[c]).value; r in st'.rooms && RecordedIn(st', c, st'.rooms[r].name) && Tabled(st', r)
    ensures PinsOK(st')
  {
  }

  lemma CommandWorkers(st: State, st': State, c: Cid)
    requires WorkersOK(st) && MembersOK(st) && CommandMove(st, st', c)
    ensures WorkersOK(st') && MembersOK(st')
  {
  }

  /** What a command that creates no room comes to: only client c moves, and if
      it is handed a room, it is recorded in it, and the table has it. */
  ghost predicate NoRoomMade(st: State, st': State, c: Cid) {
    && c in st'.sessions && CommandMove(st, st', c)
    && var s' := st'.sessions[c];
       && Unanswered(st, st', c, s') && (s'.RegJoining? || s'.Awaiting? ==> ValidRoomName(s'.name))
       && !s'.RoomJoining? && !s'.AwaitingRoom?
       && st'.reg.table == st.reg.table && st'.reg.mode == st.reg.mode && st'.reg.waiting == st.reg.waiting
       && st'.queues == st.queues
       && (Pin(s').Some? ==>
            && Pin(s').value in st'.rooms && Tabled(st', Pin(s').value)
            && RecordedIn(st', c, st'.rooms[Pin(s').value].name))
  }

  lemma DrainedCommand(st: State, c: Cid)
    requires c in st.sessions && AtRegistry(st.sessions[c]) && NamesOK(st) && st.reg.mode.Winding?
    ensures NoRoomMade(st, SetSession(st, c, AfterCommand(st.sessions[c], None)), c)
  {
    hide ValidRoomName;
  }

  lemma PlainCommandMade(st: State, c: Cid)
    requires c in st.sessions && AtRegistry(st.sessions[c]) && !st.sessions[c].RegJoining?
    ensures NoRoomMade(st, PlainCommand(st, c, st.sessions[c]), c)
  {
    hide ValidRoomName;
  }

  lemma JoinExistingMade(st: State, c: Cid)
    requires c in st.sessions && st.sessions[c].RegJoining? && TableOK(st) && NamesOK(st)
    requires st.sessions[c].name in st.reg.table
    ensures NoRoomMade(st, JoinExisting(st, c, st.sessions[c]), c)
  {
    hide ValidRoomName;
  }

  /** A command that creates no room. */
  lemma CommandNoRoom(st: State, c: Cid, id: Rid)
    requires c in st.sessions && AtRegistry(st.sessions[c]) && TableOK(st) && NamesOK(st)
    requires st.reg.mode.Receiving? || st.reg.mode.Winding?
    requires st.reg.mode.Receiving? && st.sessions[c].RegJoining? ==> st.sessions[c].name in st.reg.table
    ensures NoRoomMade(st, Command(st, c, id), c)
  {
    hide NoRoomMade, PlainCommand, JoinExisting, AfterCommand, TableOK, NamesOK;
    if st.reg.mode.Winding? {
      DrainedCommand(st, c);
    } else if st.sessions[c].RegJoining? {
      JoinExistingMade(st, c);
    } else {
      PlainCommandMade(st, c);
    }
  }

  lemma CreatedMoves(st: State, c: Cid, id: Rid)
    requires c in st.sessions && st.sessions[c].RegJoining? && st.sessions[c].name !in st.reg.table && id !in st.rooms
    ensures var st' := JoinCreated(st, c, st.sessions[c], id);
      CommandMove(st, st', c) && Pin(st'.sessions[c]) == Some(id)
      && id in st'.rooms && RecordedIn(st', c, st'.rooms[id].name) && Tabled(st', id)
  {
  }

  lemma CreatedCounts(rooms: map<Rid, Room>, id: Rid, room: Room)
    requires id !in rooms && !room.phase.Done?
    ensures |Unfinished(rooms[id := room])| == |Unfinished(rooms)| + 1
  {
    assert Unfinished(rooms[id := room]) == Unfinished(rooms) + {id};
  }

  lemma CreatedTable(st: State, c: Cid, id: Rid)
    requires c in st.sessions && st.sessions[c].RegJoining? && st.sessions[c].name !in st.reg.table && id !in st.rooms
    requires TableOK(st) && TableLive(st) && ValidRoomName(st.sessions[c].name) && st.reg.mode.Receiving?
    ensures var st' := JoinCreated(st, c, st.sessions[c], id); TableOK(st') && TableLive(st')
  {
    LiveOpening();
    hide ValidRoomName, Live;
  }

  lemma CreatedNoneForgotten(st: State, c: Cid, id: Rid)
    requires c in st.sessions && st.sessions[c].RegJoining? && st.sessions[c].name !in st.reg.table && id !in st.rooms
    requires NoneForgotten(st) && st.reg.mode.Receiving?
    ensures NoneForgotten(JoinCreated(st, c, st.sessions[c], id))
  {
  }

  lemma CreatedRooms(st: State, c: Cid, id: Rid)
    requires c in st.sessions && st.sessions[c].RegJoining? && st.sessions[c].name !in st.reg.table && id !in st.rooms
    requires RoomsOK(st) && NamesOK(st) && st.reg.mode.Receiving?
    ensures RoomsOK(JoinCreated(st, c, st.sessions[c], id))
  {
    assert ValidRoomName(st.sessions[c].name);
    hide ValidRoomName, Unfinished, NamesOK, TableOK, TableLive, NoneForgotten;
    CreatedCounts(st.rooms, id, NewRoom(st.sessions[c].name, c));
    CreatedTable(st, c, id);
    CreatedNoneForgotten(st, c, id);
  }

  lemma LiveOpening()
    ensures Live(Opening)
  {
  }

  lemma CreatedReplies(st: State, c: Cid, id: Rid)
    requires c in st.sessions && st.sessions[c].RegJoining? && id !in st.rooms && RepliesOK(st) && NamesOK(st)
    ensures var st' := JoinCreated(st, c, st.sessions[c], id); RepliesOK(st') && NamesOK(st')
  {
    hide ValidRoomName, Live;
  }

  lemma CommandQueues(w: Hub, st: State, c: Cid, id: Rid)
    requires QueuesOK(w, st) && c in st.sessions && AtRegistry(st.sessions[c])
    ensures QueuesOK(w, Command(st, c, id))
  {
  }

  /** The registry's answer to a join is recorded before it is given, and names
      the instance the table has; if it had to create one, none of that name was
      held by anybody. */
  lemma CommandKeeps(w: Hub, st: State, c: Cid, id: Rid)
    requires Control(w, st) && HubGuard(st, LCommand(c, id))
    ensures Control(w, Command(st, c, id))
  {
    var s, st' := st.sessions[c], Command(st, c, id);
    var created := st.reg.mode.Receiving? && s.RegJoining? && s.name !in st.reg.table;
    hide CommandMove, PlainCommand, JoinExisting, JoinCreated, PinsOK, WorkersOK, MembersOK, TableOK, TableLive,
      NoneForgotten, RepliesOK, NamesOK, Counted, QueuesOK, AfterCommand, Pin, RecordedIn, Tabled, RoomsOK;
    ControlRooms(w, st);
    CommandQueues(w, st, c, id);
    if created {
      CreatedMoves(st, c, id);
      CreatedRooms(st, c, id);
      CreatedReplies(st, c, id);
    } else {
      hide Command;
      CommandNoRoom(st, c, id);
      RepliesKept(st, st', c, st'.sessions[c]);
      NamesKept(st, st', c, st'.sessions[c]);
      RoomsKept(st, st');
    }
    CommandPins(st, st', c);
    CommandWorkers(st, st', c);
    RoomsControl(st');
  }

  lemma ControlRooms(w: Hub, st: State)
    requires Control(w, st)
    ensures RoomsOK(st)
  {
  }

  lemma RoomsControl(st: State)
    requires RoomsOK(st)
    ensures TableOK(st) && TableLive(st) && NoneForgotten(st) && Counted(st)
  {
  }

  // ---- Rooms -----------------------------------------------------------

  /** A room starts or stops answering a join, or gives itself up, only as the
      sessions waiting for it allow. */
  ghost predicate SameAnswering(p: Phase, p': Phase) {
    && (p.Delivering? && p.joining <==> p'.Delivering? && p'.joining)
    && (p.Delivering? && p.joining ==> p'.client == p.client)
    && (Live(p') ==> Live(p))
  }

  lemma RoomReplies(st: State, st': State, r: Rid, room: Room)
    requires RepliesOK(st) && NamesOK(st) && r in st.rooms
    requires st'.sessions == st.sessions && st'.rooms == st.rooms[r := room] && Stopping(st'.reg) == Stopping(st.reg)
    requires SameAnswering(st.rooms[r].phase, room.phase) && room.name == st.rooms[r].name
    ensures RepliesOK(st') && NamesOK(st')
  {
  }

  lemma SameUnfinished(rooms: map<Rid, Room>, r: Rid, room: Room)
    requires r in rooms && (room.phase.Done? <==> rooms[r].phase.Done?)
    ensures Unfinished(rooms[r := room]) == Unfinished(rooms)
  {
  }

  lemma HandKeeps(w: Hub, st: State, n: Name, c: Cid, out: Out, drop: bool, live: bool)
    requires QueuesOK(w, st)
    ensures QueuesOK(w, Hand(w, st, n, c, out, drop, live))
  {
    SameQueues(w, st, c, out, drop);
    hide QueuesOK, Send;
  }

  lemma KillKeeps(w: Hub, st: State, c: Cid, code: int)
    requires QueuesOK(w, st)
    ensures var st' := KillClient(st, c, code);
      QueuesOK(w, st') && st' == st.(queues := st'.queues)
  {
  }

  /** One room moves and nothing else but queues, history variables and notes. */
  ghost predicate SameBut(st: State, st': State, r: Rid) {
    && r in st.rooms && r in st'.rooms
    && st'.sessions == st.sessions && st'.rooms == st.rooms[r := st'.rooms[r]]
    && st'.reg == st.reg.(notes := st'.reg.notes)
  }

  ghost predicate OwnMove(st: State, r: Rid, room: Room) {
    && r in st.rooms
    && var was := st.rooms[r];
       && room.name == was.name && room.worker == was.worker && room.members == was.members && room.stop == was.stop
       && (Active(room.phase) ==> Active(was.phase))
       && SameAnswering(was.phase, room.phase)
       && !was.phase.Done? && !room.phase.Done?
       && (Live(room.phase) || !Live(was.phase) || Stopping(st.reg))
  }

  lemma OwnMoveTableLive(st: State, st': State, r: Rid)
    requires TableLive(st) && SameBut(st, st', r) && OwnMove(st, r, st'.rooms[r])
    ensures TableLive(st')
  {
  }

  lemma OwnMoveKeeps(w: Hub, st: State, st': State, r: Rid)
    requires Control(w, st) && SameBut(st, st', r) && OwnMove(st, r, st'.rooms[r]) && QueuesOK(w, st')
    ensures Control(w, st')
  {
    var room := st'.rooms[r];
    SameUnfinished(st.rooms, r, room);
    assert Counted(st') by {
      hide Unfinished, PinsOK, WorkersOK, MembersOK, NoneForgotten, RepliesOK, NamesOK, TableLive, QueuesOK;
    }
    assert RoomMove(st, st', r, room) by {
      hide Unfinished, PinsOK, WorkersOK, MembersOK, NoneForgotten, RepliesOK, NamesOK, TableLive, QueuesOK, Counted;
    }
    hide PinsOK, WorkersOK, MembersOK, TableOK, TableLive, NoneForgotten, RepliesOK, NamesOK, Counted, QueuesOK,
      RoomMove, SameAnswering, Unfinished, Live, Active;
    OwnMoveTableLive(st, st', r);
    RoomMoveKeeps(st, st', r, room);
    RoomReplies(st, st', r, room);
  }

  lemma RepairShape(w: Hub, st: State, r: Rid)
    requires r in st.rooms && st.rooms[r].phase.Opening?
    ensures var st' := RepairFile(w, st, r);
      SameBut(st, st', r) && OwnMove(st, r, st'.rooms[r]) && st'.queues == st.queues
  {
  }

  lemma RecoverShape(w: Hub, st: State, r: Rid)
    requires r in st.rooms && st.rooms[r].phase.Repaired?
    ensures var st' := RecoverMemory(w, st, r);
      SameBut(st, st', r) && OwnMove(st, r, st'.rooms[r]) && st'.queues == st.queues
  {
    hide OpenMemory;
  }

  lemma WriteShape(w: Hub, st: State, r: Rid, landed: nat, failed: bool)
    requires r in st.rooms && st.rooms[r].phase.Writing? && landed <= |Line(w.ops, st.rooms[r].phase.m)|
    ensures var st' := WriteRecord(w, st, r, landed, failed);
      SameBut(st, st', r) && OwnMove(st, r, st'.rooms[r]) && st'.queues == st.queues
  {
    hide Line, Remember;
  }

  lemma FanShape(w: Hub, st: State, r: Rid, c: Cid, drop: bool)
    requires QueuesOK(w, st) && r in st.rooms && st.rooms[r].phase.Fanning?
    ensures var st' := FanOne(w, st, r, c, drop);
      SameBut(st, st', r) && OwnMove(st, r, st'.rooms[r]) && QueuesOK(w, st')
  {
    HandIs(w, st, st.rooms[r].name, c, Signed(st.rooms[r].phase.m), drop, true);
    HandKeeps(w, st, st.rooms[r].name, c, Signed(st.rooms[r].phase.m), drop, true);
    hide Hand;
  }

  lemma NotifyShape(st: State, r: Rid, skip: bool)
    requires r in st.rooms && st.rooms[r].phase.Fanning?
    ensures var st' := NotifyActivity(st, r, skip);
      SameBut(st, st', r) && OwnMove(st, r, st'.rooms[r]) && st'.queues == st.queues
  {
  }

  lemma KillShape(w: Hub, st: State, r: Rid, c: Cid)
    requires QueuesOK(w, st) && r in st.rooms && st.rooms[r].phase.Killing?
    ensures var st' := KillOne(st, r, c);
      SameBut(st, st', r) && OwnMove(st, r, st'.rooms[r]) && QueuesOK(w, st')
  {
    KillKeeps(w, st, c, CLOSE_SERVER_ERROR);
    hide KillClient;
  }

  lemma EvictSkipShape(st: State, r: Rid)
    requires r in st.rooms && st.rooms[r].phase.Evicting? && Stopping(st.reg)
    ensures var st' := EvictByName(st, r, true);
      SameBut(st, st', r) && OwnMove(st, r, st'.rooms[r]) && st'.queues == st.queues
  {
  }

  lemma DeliverShape(w: Hub, st: State, r: Rid, drop: bool)
    requires QueuesOK(w, st) && r in st.rooms && st.rooms[r].phase.Delivering?
    requires st.rooms[r].phase.frames != [] || !st.rooms[r].phase.joining
    ensures var st' := DeliverOne(w, st, r, drop);
      SameBut(st, st', r) && OwnMove(st, r, st'.rooms[r]) && QueuesOK(w, st')
  {
    var room := st.rooms[r];
    if room.phase.frames != [] {
      HandIs(w, st, room.name, room.phase.client, room.phase.frames[0], drop, room.phase.joining);
      HandKeeps(w, st, room.name, room.phase.client, room.phase.frames[0], drop, room.phase.joining);
    }
    hide Hand;
  }

  lemma OpenFailsShape(st: State, r: Rid)
    requires r in st.rooms && (st.rooms[r].phase.Opening? || st.rooms[r].phase.Repaired?)
    ensures var st' := OpenFails(st, r);
      SameBut(st, st', r) && OwnMove(st, r, st'.rooms[r]) && st'.queues == st.queues
  {
  }

  lemma QueuesSame(w: Hub, st: State, st': State)
    requires QueuesOK(w, st) && st'.queues == st.queues && st'.sessions == st.sessions
    ensures QueuesOK(w, st')
  {
  }

  // ---- Handoffs between a session and its room -------------------------

  /** Session c, pinned to live room r, is taken up by it and stays pinned. */
  ghost predicate TakenUp(st: State, st': State, r: Rid, c: Cid) {
    && SessionAt(st, c, r) && SessionAt(st', c, r) && r in st.rooms && r in st'.rooms
    && st'.sessions == st.sessions[c := st'.sessions[c]] && st'.rooms == st.rooms[r := st'.rooms[r]]
    && st'.reg == st.reg && st'.queues == st.queues
    && var room, room' := st.rooms[r], st'.rooms[r];
       && room'.name == room.name && room'.stop == room.stop && room'.members <= room.members + {c}
       && (room'.worker == c || (room'.worker == room.worker && (Active(room'.phase) ==> Active(room.phase))))
       && Live(room.phase) && Live(room'.phase)
  }

  lemma TakenUpPins(st: State, st': State, r: Rid, c: Cid)
    requires PinsOK(st) && WorkersOK(st) && MembersOK(st) && TakenUp(st, st', r, c)
    ensures PinsOK(st') && WorkersOK(st') && MembersOK(st')
  {
  }

  lemma TakenUpRooms(st: State, st': State, r: Rid, c: Cid)
    requires RoomsOK(st) && TakenUp(st, st', r, c)
    ensures RoomsOK(st')
  {
    SameUnfinished(st.rooms, r, st'.rooms[r]);
    hide Unfinished, Pin, Active, ValidRoomName;
    forall q ensures Tabled(st', q) == Tabled(st, q) {}
  }

  predicate Answering(p: Phase, c: Cid) { p.Delivering? && p.joining && p.client == c }

  /** Session c and room r agree, before and after, on whether a join of c is
      being answered. */
  ghost predicate Agreed(st: State, st': State, r: Rid, c: Cid) {
    && c in st.sessions && r in st.rooms && c in st'.sessions && r in st'.rooms
    && st'.sessions == st.sessions[c := st'.sessions[c]] && st'.rooms == st.rooms[r := st'.rooms[r]]
    && st'.reg == st.reg
    && (st.rooms[r].phase.Delivering? && st.rooms[r].phase.joining ==> st.rooms[r].phase.client == c)
    && (st.sessions[c].AwaitingRoom? ==> st.sessions[c].rid == r)
    && var s', p' := st'.sessions[c], st'.rooms[r].phase;
       && Live(st.rooms[r].phase) && Live(p')
       && (p'.Delivering? && p'.joining ==> p'.client == c && s'.AwaitingRoom? && s'.rid == r && s'.verdict == None)
       && (s'.AwaitingRoom? ==> s'.rid == r && (s'.verdict == None ==> Answering(p', c)) && s'.verdict != Some(false))
       && !s'.Awaiting? && !s'.RegJoining? && (s'.AwaitingRoom? ==> ValidRoomName(s'.name))
       && st'.rooms[r].name == st.rooms[r].name
  }

  lemma AgreedReplies(st: State, st': State, r: Rid, c: Cid)
    requires RepliesOK(st) && Agreed(st, st', r, c)
    ensures RepliesOK(st')
  {
  }

  lemma AgreedNames(st: State, st': State, r: Rid, c: Cid)
    requires NamesOK(st) && Agreed(st, st', r, c) && !st'.sessions[c].RoomJoining?
    ensures NamesOK(st')
  {
  }

  lemma JoinTakenUp(w: Hub, st: State, r: Rid, c: Cid)
    requires NamesOK(st) && RoomGuard(w, st, LTakeJoin(r, c))
    ensures var st' := TakeJoin(w, st, r, c);
      TakenUp(st, st', r, c) && Agreed(st, st', r, c) && !st'.sessions[c].RoomJoining?
  {
    hide Since, Answer, ValidRoomName;
  }

  lemma HandleShape(w: Hub, room: Room, file: Bytes, c: Cid, f: Frame, ts: i64)
    requires CanCount(room.hist) && room.phase.Running?
    ensures var room' := Handle(w, room, file, c, f, ts);
      && room' == room.(hist := room'.hist, phase := room'.phase, worker := room'.worker)
      && (room' == room || room'.worker == c)
      && var p' := room'.phase;
         p'.Running? || p'.Writing? || (p'.Delivering? && !p'.joining && p'.client == c)
  {
  }

  lemma FrameTakenUp(w: Hub, st: State, r: Rid, c: Cid, ts: i64)
    requires RoomGuard(w, st, LTakeFrame(r, c, ts))
    ensures var st' := TakeFrame(w, st, r, c, ts);
      TakenUp(st, st', r, c) && Agreed(st, st', r, c) && !st'.sessions[c].RoomJoining?
  {
    HandleShape(w, st.rooms[r], File(st, st.rooms[r].name), c, st.sessions[c].frame, ts);
    hide Handle, ValidRoomName;
  }

  lemma JoinConfirmed(w: Hub, st: State, r: Rid, drop: bool)
    requires RepliesOK(st) && NamesOK(st) && RoomGuard(w, st, LDeliver(r, drop))
    requires st.rooms[r].phase.frames == [] && st.rooms[r].phase.joining
    ensures var st', c := DeliverOne(w, st, r, drop), st.rooms[r].phase.client;
      TakenUp(st, st', r, c) && Agreed(st, st', r, c) && !st'.sessions[c].RoomJoining?
  {
    hide ValidRoomName;
    var c := st.rooms[r].phase.client;
    assert c in st.sessions && st.sessions[c].AwaitingRoom? && st.sessions[c].rid == r;
  }

  lemma TakenUpKeeps(w: Hub, st: State, st': State, r: Rid, c: Cid)
    requires Control(w, st) && TakenUp(st, st', r, c) && Agreed(st, st', r, c) && !st'.sessions[c].RoomJoining?
    ensures Control(w, st')
  {
    assert QueuesOK(w, st') by {
      hide PinsOK, WorkersOK, MembersOK, TableOK, TableLive, NoneForgotten, Counted, RepliesOK, NamesOK;
    }
    hide PinsOK, WorkersOK, MembersOK, TableOK, TableLive, NoneForgotten, Counted, QueuesOK, RepliesOK, NamesOK,
      TakenUp, Agreed;
    TakenUpPins(st, st', r, c);
    TakenUpRooms(st, st', r, c);
    AgreedReplies(st, st', r, c);
    AgreedNames(st, st', r, c);
  }

  // ---- Leaving, giving up, returning -----------------------------------

  lemma LeavePins(st: State, r: Rid, c: Cid)
    requires PinsOK(st) && WorkersOK(st) && MembersOK(st)
    requires SessionAt(st, c, r) && (st.sessions[c].Leaving? || st.sessions[c].Closing?)
    requires r in st.rooms && st.rooms[r].phase.Running?
    ensures var st' := TakeLeave(st, r, c); PinsOK(st') && WorkersOK(st') && MembersOK(st')
  {
    var st' := TakeLeave(st, r, c);
    assert Pin(st'.sessions[c]) == None;
    forall q ensures Tabled(st', q) == Tabled(st, q) {}
    forall d, q | SessionAt(st, d, q) && d != c ensures SessionAt(st', d, q) {}
    assert PinsOK(st') by {
      hide WorkersOK, MembersOK;
      forall d | d in st'.sessions && Pin(st'.sessions[d]).Some?
        ensures var p := Pin(st'.sessions[d]).value;
          p in st'.rooms && (Live(st'.rooms[p].phase) ==> RecordedIn(st', d, st'.rooms[p].name) && Tabled(st', p))
      {
        assert d != c && SessionAt(st, d, Pin(st'.sessions[d]).value);
      }
    }
    assert WorkersOK(st') by {
      hide PinsOK, MembersOK;
      forall q | q in st'.rooms && Active(st'.rooms[q].phase) ensures SessionAt(st', st'.rooms[q].worker, q) {
        assert q != r && SessionAt(st, st.rooms[q].worker, q);
      }
    }
    assert MembersOK(st') by {
      hide PinsOK, WorkersOK;
      forall q, d | q in st'.rooms && Live(st'.rooms[q].phase) && d in st'.rooms[q].members
        ensures SessionAt(st', d, q)
      {
        assert SessionAt(st, d, q);
        assert d == c ==> q == r;
      }
    }
  }

  lemma LeaveRooms(st: State, r: Rid, c: Cid)
    requires RoomsOK(st)
    requires SessionAt(st, c, r) && (st.sessions[c].Leaving? || st.sessions[c].Closing?)
    requires r in st.rooms && st.rooms[r].phase.Running?
    ensures RoomsOK(TakeLeave(st, r, c))
  {
    var st' := TakeLeave(st, r, c);
    SameUnfinished(st.rooms, r, st'.rooms[r]);
    hide Unfinished, Pin, ValidRoomName;
    forall q ensures Tabled(st', q) == Tabled(st, q) {}
  }

  lemma LeaveReplies(st: State, r: Rid, c: Cid)
    requires RepliesOK(st) && NamesOK(st)
    requires c in st.sessions && (st.sessions[c].Leaving? || st.sessions[c].Closing?)
    requires r in st.rooms && st.rooms[r].phase.Running?
    ensures RepliesOK(TakeLeave(st, r, c)) && NamesOK(TakeLeave(st, r, c))
  {
    var st' := TakeLeave(st, r, c);
    var mid := SetRoom(st, r, st'.rooms[r]);
    hide RepliesOK, NamesOK, ValidRoomName, Live;
    RoomReplies(st, mid, r, st'.rooms[r]);
    RepliesKept(mid, st', c, st'.sessions[c]);
    NamesKept(mid, st', c, st'.sessions[c]);
  }

  /** Queues keep their bounds, and every session its queue, when no session is added. */
  lemma QueuesKept(w: Hub, st: State, st': State)
    requires QueuesOK(w, st) && st'.sessions.Keys <= st.sessions.Keys && st'.queues == st.queues
    ensures QueuesOK(w, st')
  {
  }

  lemma LeaveKeeps(w: Hub, st: State, r: Rid, c: Cid)
    requires Control(w, st) && RoomGuard(w, st, LTakeLeave(r, c))
    ensures Control(w, TakeLeave(st, r, c))
  {
    var st' := TakeLeave(st, r, c);
    hide PinsOK, WorkersOK, MembersOK, TableOK, TableLive, NoneForgotten, RepliesOK, NamesOK, Counted, QueuesOK,
      Pin, Live, AfterRoomDone;
    LeavePins(st, r, c);
    LeaveRooms(st, r, c);
    LeaveReplies(st, r, c);
    QueuesKept(w, st, st');
  }

  /** Evict-by-name is evict-by-identity: a room at its evict command is the very
      instance the table has under its name. */
  lemma EvictsItself(st: State, r: Rid)
    requires PinsOK(st) && WorkersOK(st) && r in st.rooms && Active(st.rooms[r].phase)
    ensures Tabled(st, r) && RecordedIn(st, st.rooms[r].worker, st.rooms[r].name)
  {
  }

  lemma EvictPins(st: State, r: Rid)
    requires TableOK(st) && PinsOK(st) && WorkersOK(st) && MembersOK(st) && r in st.rooms && st.rooms[r].phase.Evicting?
    ensures var st' := EvictByName(st, r, false); TableOK(st') && PinsOK(st') && WorkersOK(st') && MembersOK(st')
  {
    EvictsItself(st, r);
    var st' := EvictByName(st, r, false);
    hide ValidRoomName;
    forall q | q != r && Tabled(st, q) ensures Tabled(st', q) {}
    forall d, q | SessionAt(st, d, q) ensures SessionAt(st', d, q) {}
  }

  lemma EvictRooms(st: State, r: Rid)
    requires RoomsOK(st) && Tabled(st, r) && st.rooms[r].phase.Evicting? && st.reg.mode.Receiving?
    ensures var st' := EvictByName(st, r, false); TableLive(st') && NoneForgotten(st') && Counted(st')
  {
    var st' := EvictByName(st, r, false);
    SameUnfinished(st.rooms, r, st'.rooms[r]);
    hide Unfinished, ValidRoomName;
    forall q | q != r && Tabled(st, q) ensures Tabled(st', q) {}
  }

  lemma EvictReplies(w: Hub, st: State, r: Rid)
    requires RepliesOK(st) && NamesOK(st) && QueuesOK(w, st) && r in st.rooms && st.rooms[r].phase.Evicting?
    ensures var st' := EvictByName(st, r, false); RepliesOK(st') && NamesOK(st') && QueuesOK(w, st')
  {
    var st' := EvictByName(st, r, false);
    assert SameAnswering(st.rooms[r].phase, st'.rooms[r].phase);
    hide RepliesOK, NamesOK, QueuesOK, SameAnswering;
    RoomReplies(st, st', r, st'.rooms[r]);
    QueuesKept(w, st, st');
  }

  lemma EvictKeeps(w: Hub, st: State, r: Rid)
    requires Control(w, st) && RoomGuard(w, st, LEvict(r, false))
    ensures Control(w, EvictByName(st, r, false))
  {
    assert Active(st.rooms[r].phase);
    hide PinsOK, WorkersOK, MembersOK, TableOK, TableLive, NoneForgotten, RepliesOK, NamesOK, QueuesOK, Counted,
      EvictByName, Active;
    EvictsItself(st, r);
    EvictPins(st, r);
    EvictRooms(st, r);
    EvictReplies(w, st, r);
  }

  lemma FinishCounts(rooms: map<Rid, Room>, r: Rid, room: Room)
    requires r in rooms && !rooms[r].phase.Done? && room.phase.Done?
    ensures |Unfinished(rooms[r := room])| == |Unfinished(rooms)| - 1
  {
    assert Unfinished(rooms[r := room]) == Unfinished(rooms) - {r};
  }

  lemma FinishMoves(st: State, r: Rid)
    requires r in st.rooms
    requires var p := st.rooms[r].phase; p.Flushing? || p.Killing? || p.Running?
    ensures var st' := Finish(st, r);
      RoomMove(st, st', r, st'.rooms[r]) && SameAnswering(st.rooms[r].phase, st'.rooms[r].phase)
  {
  }

  /** A returning room is out of the table, or the registry is stopping. */
  lemma FinishTable(st: State, r: Rid)
    requires TableLive(st) && r in st.rooms
    requires var p := st.rooms[r].phase; p.Flushing? || p.Killing? || (p.Running? && st.rooms[r].stop)
    ensures TableLive(Finish(st, r))
  {
  }

  lemma FinishCounted(st: State, r: Rid)
    requires Counted(st) && r in st.rooms && !st.rooms[r].phase.Done?
    ensures Counted(Finish(st, r))
  {
    FinishCounts(st.rooms, r, Finish(st, r).rooms[r]);
    assert r in Unfinished(st.rooms);
    hide Unfinished;
  }

  lemma FinishKeeps(w: Hub, st: State, r: Rid)
    requires Control(w, st) && RoomGuard(w, st, LFinish(r))
    ensures Control(w, Finish(st, r))
  {
    var st' := Finish(st, r);
    hide PinsOK, WorkersOK, MembersOK, TableOK, TableLive, NoneForgotten, RepliesOK, NamesOK, QueuesOK, Counted,
      RoomMove, SameAnswering, Live;
    FinishCounted(st, r);
    FinishTable(st, r);
    FinishMoves(st, r);
    RoomMoveKeeps(st, st', r, st'.rooms[r]);
    RoomReplies(st, st', r, st'.rooms[r]);
    QueuesKept(w, st, st');
  }

  lemma FlushIs(w: Hub, st: State, c: Cid, drop: bool)
    requires c in st.sessions && AtRoom(st.sessions[c]) && !st.sessions[c].AwaitingRoom?
    ensures var st' := FlushOne(w, st, c, drop);
      && st'.sessions == st.sessions[c := Flushed(st.sessions[c])] && st'.rooms == st.rooms && st'.reg == st.reg
      && (st'.queues == st.queues || st'.queues == Enqueue(w, st, c, Refusal, drop).queues)
  {
  }

  lemma FlushQueues(w: Hub, st: State, st': State, c: Cid, drop: bool)
    requires QueuesOK(w, st) && st'.sessions.Keys <= st.sessions.Keys
    requires st'.queues == st.queues || st'.queues == Enqueue(w, st, c, Refusal, drop).queues
    ensures QueuesOK(w, st')
  {
  }

  /** The session keeps its pin or drops it; either way it was on room r. */
  lemma FlushedPin(s: Session)
    requires AtRoom(s) && !s.AwaitingRoom?
    ensures Pin(s) == Some(s.rid) && (Pin(Flushed(s)) == Pin(s) || Pin(Flushed(s)) == None)
  {
  }

  lemma FlushReplies(st: State, st': State, r: Rid, c: Cid)
    requires RepliesOK(st) && NamesOK(st) && r in st.rooms && st.rooms[r].phase.Flushing?
    requires c in st.sessions && AtRoom(st.sessions[c]) && !st.sessions[c].AwaitingRoom? && st.sessions[c].rid == r
    requires st'.sessions == st.sessions[c := Flushed(st.sessions[c])] && st'.rooms == st.rooms && st'.reg == st.reg
    ensures RepliesOK(st') && NamesOK(st')
  {
    hide ValidRoomName;
    assert !Live(st.rooms[r].phase);
    hide Live;
  }

  /** A room that failed to open answers a session: its pin is on a room that is
      no longer live. */
  lemma FlushKeeps(w: Hub, st: State, r: Rid, c: Cid, drop: bool)
    requires Control(w, st) && RoomGuard(w, st, LFlush(r, c, drop))
    ensures Control(w, FlushOne(w, st, c, drop))
  {
    var st' := FlushOne(w, st, c, drop);
    assert r in st.rooms && st.rooms[r].phase.Flushing?;
    assert !Live(st.rooms[r].phase);
    hide PinsOK, WorkersOK, MembersOK, TableOK, TableLive, NoneForgotten, RepliesOK, NamesOK, QueuesOK, Counted,
      FlushOne, Flushed, Pin, Live, Enqueue, AtRoom;
    FlushIs(w, st, c, drop);
    FlushedPin(st.sessions[c]);
    FlushReplies(st, st', r, c);
    FlushQueues(w, st, st', c, drop);
    SessionMoveKeeps(st, st', c, st'.sessions[c]);
    RoomsKept(st, st');
  }

  // ---- The sweep, shutdown, and the rest -------------------------------

  lemma SweepPins(st: State, n: Name)
    requires TableOK(st) && PinsOK(st) && WorkersOK(st) && MembersOK(st)
    requires n in st.reg.table && !Occupied(st.reg, n)
    ensures var st' := SweepOne(st, n); TableOK(st') && PinsOK(st') && WorkersOK(st') && MembersOK(st')
  {
    var st' := SweepOne(st, n);
    hide ValidRoomName;
    forall q | Tabled(st, q) && st.rooms[q].name != n ensures Tabled(st', q) {}
    forall d, q | SessionAt(st, d, q) ensures SessionAt(st', d, q) {}
    assert PinsOK(st') by {
      hide WorkersOK, MembersOK;
      forall d | d in st'.sessions && Pin(st'.sessions[d]).Some?
        ensures var p := Pin(st'.sessions[d]).value;
          p in st'.rooms && (Live(st'.rooms[p].phase) ==> RecordedIn(st', d, st'.rooms[p].name) && Tabled(st', p))
      {
        var p := Pin(st.sessions[d]).value;
        if Live(st.rooms[p].phase) {
          assert RecordedIn(st, d, st.rooms[p].name);
          assert Occupied(st.reg, st.rooms[p].name);
        }
      }
    }
  }

  lemma SweepRooms(st: State, n: Name)
    requires RoomsOK(st) && n in st.reg.table && st.reg.mode.Receiving?
    ensures var st' := SweepOne(st, n); TableLive(st') && NoneForgotten(st') && Counted(st')
  {
    var st' := SweepOne(st, n);
    var r := st.reg.table[n];
    SameUnfinished(st.rooms, r, st'.rooms[r]);
    hide Unfinished, ValidRoomName;
    forall q | q != r && Tabled(st, q) ensures Tabled(st', q) {}
  }

  lemma SweepRest(w: Hub, st: State, n: Name)
    requires RepliesOK(st) && NamesOK(st) && QueuesOK(w, st) && n in st.reg.table && st.reg.table[n] in st.rooms
    ensures var st' := SweepOne(st, n); RepliesOK(st') && NamesOK(st') && QueuesOK(w, st')
  {
    hide RepliesOK, NamesOK, QueuesOK;
    var st', r := SweepOne(st, n), st.reg.table[n];
    RoomReplies(st, st', r, st'.rooms[r]);
    QueuesKept(w, st, st');
  }

  /** The sweep removes only a room nobody holds or is joining. */
  lemma SweepKeeps(w: Hub, st: State, n: Name)
    requires Control(w, st) && HubGuard(st, LSweep(n))
    ensures Control(w, SweepOne(st, n))
  {
    hide PinsOK, WorkersOK, MembersOK, TableOK, TableLive, NoneForgotten, RepliesOK, NamesOK, QueuesOK, Counted,
      Occupied, Live, SweepOne;
    SweepPins(st, n);
    SweepRooms(st, n);
    SweepRest(w, st, n);
  }

  lemma ShutdownRooms(st: State)
    requires TableOK(st) && NoneForgotten(st) && Counted(st) && st.reg.mode.Receiving?
    ensures var st' := Shutdown(st); TableOK(st') && TableLive(st') && NoneForgotten(st') && Counted(st')
  {
    var st' := Shutdown(st);
    hide ValidRoomName;
    assert Unfinished(st'.rooms) == Unfinished(st.rooms);
    forall q ensures Tabled(st', q) == Tabled(st, q) {}
    forall q | Tabled(st, q) ensures q in st.reg.table.Values {}
  }

  lemma ShutdownPins(st: State)
    requires PinsOK(st) && WorkersOK(st) && MembersOK(st)
    ensures var st' := Shutdown(st); PinsOK(st') && WorkersOK(st') && MembersOK(st')
  {
  }

  lemma ShutdownReplies(st: State)
    requires RepliesOK(st) && NamesOK(st) && !Stopping(st.reg)
    ensures var st' := Shutdown(st); RepliesOK(st') && NamesOK(st')
  {
    hide ValidRoomName, Live;
  }

  lemma ShutdownQueues(w: Hub, st: State)
    requires QueuesOK(w, st)
    ensures QueuesOK(w, Shutdown(st))
  {
  }

  lemma ShutdownKeeps(w: Hub, st: State)
    requires Control(w, st) && HubGuard(st, LShutdown)
    ensures Control(w, Shutdown(st))
  {
    hide PinsOK, WorkersOK, MembersOK, TableOK, TableLive, NoneForgotten, RepliesOK, NamesOK, QueuesOK, Counted,
      Shutdown;
    ShutdownRooms(st);
    ShutdownPins(st);
    ShutdownReplies(st);
    ShutdownQueues(w, st);
  }

  /** Steps that touch neither sessions, rooms, the table nor the client records. */
  ghost predicate Aside(st: State, st': State) {
    && st'.sessions == st.sessions && st'.rooms == st.rooms
    && st'.reg == st.reg.(notes := st'.reg.notes, mode := st'.reg.mode)
    && Stopping(st'.reg) == Stopping(st.reg) && (st'.reg.mode.Stopped? ==> st'.reg.waiting == 0)
    && (st'.reg.mode.Pinging? ==> st'.reg.mode.rest != {})
  }

  lemma AsideKeeps(w: Hub, st: State, st': State)
    requires Control(w, st) && Aside(st, st') && QueuesOK(w, st')
    ensures Control(w, st')
  {
    hide ValidRoomName, Live, Active, Pin, Unfinished, QueuesOK;
    forall q ensures Tabled(st', q) == Tabled(st, q) {}
    forall d, q ensures SessionAt(st', d, q) == SessionAt(st, d, q) {}
  }

  lemma RestartKeeps(w: Hub, st: State)
    ensures Control(w, Restart(st))
  {
  }

  // ---- All of them -----------------------------------------------------

  predicate AsideLabel(l: Label) {
    l.LTakeNote? || l.LPing? || l.LDiscardNote? || l.LAllDone? || l.LPump? || l.LHangup?
  }

  lemma AsideMoves(w: Hub, st: State, l: Label)
    requires Counted(st) && AsideLabel(l) && HubGuard(st, l)
    ensures Aside(st, HubStep(w, st, l))
  {
    hide Send, Kill, Elsewhere, Unfinished;
  }

  lemma PumpKeeps(w: Hub, st: State, c: Cid)
    requires QueuesOK(w, st) && c in st.queues && st.queues[c].out != []
    ensures QueuesOK(w, Pump(st, c))
  {
  }

  lemma PingKeeps(w: Hub, st: State, c: Cid, drop: bool)
    requires QueuesOK(w, st) && st.reg.mode.Pinging?
    ensures QueuesOK(w, Ping(w, st, c, drop))
  {
  }

  lemma NoteQueues(w: Hub, st: State, l: Label)
    requires QueuesOK(w, st) && (l.LTakeNote? || l.LDiscardNote? || l.LAllDone?) && HubGuard(st, l)
    ensures QueuesOK(w, HubStep(w, st, l))
  {
  }

  lemma AsideQueues(w: Hub, st: State, l: Label)
    requires QueuesOK(w, st) && AsideLabel(l) && HubGuard(st, l)
    ensures QueuesOK(w, HubStep(w, st, l))
  {
    hide QueuesOK, KillClient, Ping, Pump, TakeNote;
    if l.LPump? {
      PumpKeeps(w, st, l.c);
    } else if l.LHangup? {
      KillKeeps(w, st, l.c, l.code);
    } else if l.LPing? {
      PingKeeps(w, st, l.c, l.drop);
    } else {
      NoteQueues(w, st, l);
    }
  }

  lemma QuietMoveKeeps(w: Hub, st: State, st': State, r: Rid)
    requires Control(w, st) && SameBut(st, st', r) && OwnMove(st, r, st'.rooms[r]) && st'.queues == st.queues
    ensures Control(w, st')
  {
    ControlQueues(w, st);
    hide Control, OwnMove;
    QueuesSame(w, st, st');
    OwnMoveKeeps(w, st, st', r);
  }

  lemma ControlQueues(w: Hub, st: State)
    requires Control(w, st)
    ensures QueuesOK(w, st)
  {
  }

  lemma RepairKeeps(w: Hub, st: State, r: Rid)
    requires Control(w, st) && RoomGuard(w, st, LRepair(r))
    ensures Control(w, RepairFile(w, st, r))
  {
    hide Control, SameBut, OwnMove, QueuesOK;
    RepairShape(w, st, r);
    QuietMoveKeeps(w, st, RepairFile(w, st, r), r);
  }

  lemma RecoverKeeps(w: Hub, st: State, r: Rid)
    requires Control(w, st) && RoomGuard(w, st, LRecover(r))
    ensures Control(w, RecoverMemory(w, st, r))
  {
    hide Control, SameBut, OwnMove, QueuesOK;
    RecoverShape(w, st, r);
    QuietMoveKeeps(w, st, RecoverMemory(w, st, r), r);
  }

  lemma OpenFailsKeeps(w: Hub, st: State, r: Rid)
    requires Control(w, st) && RoomGuard(w, st, LOpenFails(r))
    ensures Control(w, OpenFails(st, r))
  {
    hide Control, SameBut, OwnMove, QueuesOK;
    OpenFailsShape(st, r);
    QuietMoveKeeps(w, st, OpenFails(st, r), r);
  }

  lemma WriteKeeps(w: Hub, st: State, r: Rid, landed: nat, failed: bool)
    requires Control(w, st) && RoomGuard(w, st, LWrite(r, landed, failed))
    ensures Control(w, WriteRecord(w, st, r, landed, failed))
  {
    hide Control, SameBut, OwnMove, QueuesOK;
    WriteShape(w, st, r, landed, failed);
    QuietMoveKeeps(w, st, WriteRecord(w, st, r, landed, failed), r);
  }

  lemma NotifyKeeps(w: Hub, st: State, r: Rid, skip: bool)
    requires Control(w, st) && RoomGuard(w, st, LNotify(r, skip))
    ensures Control(w, NotifyActivity(st, r, skip))
  {
    hide Control, SameBut, OwnMove, QueuesOK;
    NotifyShape(st, r, skip);
    QuietMoveKeeps(w, st, NotifyActivity(st, r, skip), r);
  }

  lemma EvictSkipKeeps(w: Hub, st: State, r: Rid)
    requires Control(w, st) && RoomGuard(w, st, LEvict(r, true))
    ensures Control(w, EvictByName(st, r, true))
  {
    hide Control, SameBut, OwnMove, QueuesOK;
    EvictSkipShape(st, r);
    QuietMoveKeeps(w, st, EvictByName(st, r, true), r);
  }

  lemma FanKeeps(w: Hub, st: State, r: Rid, c: Cid, drop: bool)
    requires Control(w, st) && RoomGuard(w, st, LFan(r, c, drop))
    ensures Control(w, FanOne(w, st, r, c, drop))
  {
    ControlQueues(w, st);
    hide Control, SameBut, OwnMove, QueuesOK;
    FanShape(w, st, r, c, drop);
    OwnMoveKeeps(w, st, FanOne(w, st, r, c, drop), r);
  }

  lemma KillOneKeeps(w: Hub, st: State, r: Rid, c: Cid)
    requires Control(w, st) && RoomGuard(w, st, LKill(r, c))
    ensures Control(w, KillOne(st, r, c))
  {
    ControlQueues(w, st);
    hide Control, SameBut, OwnMove, QueuesOK;
    KillShape(w, st, r, c);
    OwnMoveKeeps(w, st, KillOne(st, r, c), r);
  }

  /** A delivery step, up to the confirmation of a join. */
  lemma DeliverKeeps(w: Hub, st: State, r: Rid, drop: bool)
    requires Control(w, st) && RoomGuard(w, st, LDeliver(r, drop))
    requires st.rooms[r].phase.frames != [] || !st.rooms[r].phase.joining
    ensures Control(w, DeliverOne(w, st, r, drop))
  {
    ControlQueues(w, st);
    hide Control, SameBut, OwnMove, QueuesOK;
    DeliverShape(w, st, r, drop);
    OwnMoveKeeps(w, st, DeliverOne(w, st, r, drop), r);
  }

  lemma ControlNames(w: Hub, st: State)
    requires Control(w, st)
    ensures RepliesOK(st) && NamesOK(st)
  {
  }

  lemma JoinKeeps(w: Hub, st: State, r: Rid, c: Cid)
    requires Control(w, st) && RoomGuard(w, st, LTakeJoin(r, c))
    ensures Control(w, TakeJoin(w, st, r, c))
  {
    ControlNames(w, st);
    hide Control, TakeJoin, TakenUp, Agreed, NamesOK, RepliesOK;
    JoinTakenUp(w, st, r, c);
    TakenUpKeeps(w, st, TakeJoin(w, st, r, c), r, c);
  }

  lemma FrameKeeps(w: Hub, st: State, r: Rid, c: Cid, ts: i64)
    requires Control(w, st) && RoomGuard(w, st, LTakeFrame(r, c, ts))
    ensures Control(w, TakeFrame(w, st, r, c, ts))
  {
    hide Control, TakeFrame, TakenUp, Agreed;
    FrameTakenUp(w, st, r, c, ts);
    TakenUpKeeps(w, st, TakeFrame(w, st, r, c, ts), r, c);
  }

  lemma AnswerKeeps(w: Hub, st: State, r: Rid, drop: bool)
    requires Control(w, st) && RoomGuard(w, st, LDeliver(r, drop))
    ensures Control(w, DeliverOne(w, st, r, drop))
  {
    ControlNames(w, st);
    hide Control, DeliverOne, TakenUp, Agreed, NamesOK, RepliesOK;
    if st.rooms[r].phase.frames == [] && st.rooms[r].phase.joining {
      JoinConfirmed(w, st, r, drop);
      TakenUpKeeps(w, st, DeliverOne(w, st, r, drop), r, st.rooms[r].phase.client);
    } else {
      DeliverKeeps(w, st, r, drop);
    }
  }

  lemma RoomStepKeeps(w: Hub, st: State, l: Label)
    requires Control(w, st) && RoomLabel(l) && RoomGuard(w, st, l)
    ensures Control(w, RoomStep(w, st, l))
  {
    hide Control, TakeJoin, TakeFrame, DeliverOne, TakeLeave, FlushOne, Finish, RepairFile, RecoverMemory, WriteRecord,
      FanOne, NotifyActivity, KillOne, EvictByName, OpenFails, RoomGuard;
    match l {
      case LTakeJoin(r, c) => JoinKeeps(w, st, r, c);
      case LTakeFrame(r, c, ts) => FrameKeeps(w, st, r, c, ts);
      case LTakeLeave(r, c) => LeaveKeeps(w, st, r, c);
      case LDeliver(r, drop) => AnswerKeeps(w, st, r, drop);
      case LRepair(r) => RepairKeeps(w, st, r);
      case LRecover(r) => RecoverKeeps(w, st, r);
      case LOpenFails(r) => OpenFailsKeeps(w, st, r);
      case LWrite(r, landed, failed) => WriteKeeps(w, st, r, landed, failed);
      case LFan(r, c, drop) => FanKeeps(w, st, r, c, drop);
      case LNotify(r, skip) => NotifyKeeps(w, st, r, skip);
      case LKill(r, c) => KillOneKeeps(w, st, r, c);
      case LEvict(r, skip) =>
        if skip { EvictSkipKeeps(w, st, r); } else { EvictKeeps(w, st, r); }
      case LFlush(r, c, drop) => FlushKeeps(w, st, r, c, drop);
      case LFinish(r) => FinishKeeps(w, st, r);
    }
  }

  lemma AsideStepKeeps(w: Hub, st: State, l: Label)
    requires Control(w, st) && AsideLabel(l) && HubGuard(st, l)
    ensures Control(w, HubStep(w, st, l))
  {
    ControlQueues(w, st);
    ControlRooms(w, st);
    hide Control, HubStep, HubGuard, Aside, QueuesOK;
    AsideMoves(w, st, l);
    AsideQueues(w, st, l);
    AsideKeeps(w, st, HubStep(w, st, l));
  }

  lemma HubStepKeeps(w: Hub, st: State, l: Label)
    requires Control(w, st) && !SessionLabel(l) && !RoomLabel(l) && HubGuard(st, l)
    ensures Control(w, HubStep(w, st, l))
  {
    if AsideLabel(l) {
      AsideStepKeeps(w, st, l);
    } else {
      hide Control, Connect, Command, SweepOne, Shutdown, Restart, HubGuard;
      match l {
        case LConnect(c) => ConnectKeeps(w, st, c);
        case LCommand(c, id) => CommandKeeps(w, st, c, id);
        case LSweep(n) => SweepKeeps(w, st, n);
        case LShutdown => ShutdownKeeps(w, st);
        case LRestart => RestartKeeps(w, st);
      }
    }
  }

  /** Control is an invariant: every possible step of every goroutine keeps it. */
  lemma StepKeepsControl(w: Hub, st: State, l: Label)
    requires Control(w, st) && Guard(w, st, l)
    ensures Control(w, Apply(w, st, l))
  {
    hide Control, SessionGuard, RoomGuard, HubGuard, SessionStep, RoomStep, HubStep, SessionLabel, RoomLabel;
    if SessionLabel(l) {
      SessionStepKeeps(w, st, l);
    } else if RoomLabel(l) {
      RoomStepKeeps(w, st, l);
    } else {
      HubStepKeeps(w, st, l);
    }
  }

  lemma InitControl(w: Hub)
    ensures Control(w, Init())
  {
  }

  /** It holds throughout every run. */
  lemma {:induction false} RunKeepsControl(w: Hub, st: State, ls: seq<Label>)
    requires Control(w, st) && Run(w, st, ls)
    ensures Control(w, Outcome(w, st, ls))
    decreases |ls|
  {
    hide Control, Guard, Apply;
    if ls != [] {
      StepKeepsControl(w, st, ls[0]);
      RunKeepsControl(w, Apply(w, st, ls[0]), ls[1..]);
    }
  }
}
