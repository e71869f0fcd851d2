/** Who is a member: a session that holds a room is in its client set, and a room
    that failed closes every one of its members. */
module HubMembers {
  import opened Base
  import opened ArchiveSpec
  import opened HistorySpec
  import opened Client
  import opened HubModel
  import opened HubControl
  import opened HubSteps
  import opened HubSafety
  import opened HubData
  import opened HubUpkeep

  /** The room a session was told it is in. */
  function Holds(s: Session): Option<Rid> {
    match s
    case Idle(room) => room
    case Refusing(room) => room
    case Leaving(r, _, _) => Some(r)
    case Submitting(r, _) => Some(r)
    case Closing(r) => Some(r)
    case AwaitingRoom(r, _, _, _, verdict) => if verdict == Some(false) then None else Some(r)
    case _ => None
  }

  /** A join in progress has between one and three attempts left. */
  predicate TriesIn(s: Session) {
    s.RegJoining? || s.Awaiting? || s.RoomJoining? || s.AwaitingRoom? ==> 1 <= s.tries <= JOIN_ATTEMPTS
  }

  ghost predicate HoldersIn(st: State) {
    && (forall c :: c in st.sessions && Holds(st.sessions[c]).Some? ==>
          Holds(st.sessions[c]).value in st.rooms && c in st.rooms[Holds(st.sessions[c]).value].members)
    && (forall c :: c in st.sessions ==> TriesIn(st.sessions[c]))
  }

  /** Members are sessions, and those a failed room is through with are closed. */
  ghost predicate MembersClosed(st: State) {
    forall r, c :: r in st.rooms && c in st.rooms[r].members ==>
      c in st.sessions && (st.rooms[r].phase.Killing? && c !in st.rooms[r].phase.rest ==> !Connected(st, c))
  }

  // ---- Closed connections stay closed ----------------------------------

  ghost predicate SessionsClosedStay(st: State, st': State) {
    forall c :: c in st.sessions && Connected(st', c) ==> Connected(st, c)
  }

  lemma TalkStepCloses(w: Hub, st: State, l: Label)
    requires l.LDeliver? || l.LFan? || l.LFlush? || l.LKill?
    requires RoomGuard(w, st, l)
    ensures ClosedStays(st, RoomStep(w, st, l))
  {
    if l.LDeliver? && st.rooms[l.r].phase.frames != [] {
      var p := st.rooms[l.r].phase;
      HandMoves(w, st, st.rooms[l.r].name, p.client, p.frames[0], l.drop, p.joining);
    } else if l.LFan? {
      HandMoves(w, st, st.rooms[l.r].name, l.c, Signed(st.rooms[l.r].phase.m), l.drop, true);
    } else if l.LFlush? {
      EnqueueCloses(w, st, l.c, Refusal, l.drop);
    } else if l.LKill? {
      HubUpkeep.KillShape(st, l.r, l.c);
    }
    hide Hand, Enqueue, KillOne, Flushed, AtRoom;
  }

  lemma RoomStepCloses(w: Hub, st: State, l: Label)
    requires RoomLabel(l) && RoomGuard(w, st, l)
    ensures ClosedStays(st, RoomStep(w, st, l))
  {
    if l.LDeliver? || l.LFan? || l.LFlush? || l.LKill? {
      hide RoomGuard, RoomStep, ClosedStays;
      TalkStepCloses(w, st, l);
    } else {
      hide Handle, AtRoom, AfterRoomDone, Repair, OpenMemory, Remember, Line, Since, Answer, CanCount, ClosedStays;
      QueuesCloseSame(st, RoomStep(w, st, l));
    }
  }

  lemma QueuesCloseSame(st: State, st': State)
    ensures st'.queues == st.queues ==> ClosedStays(st, st')
  {
  }

  lemma ConnectCloses(st: State, c: Cid)
    requires c !in st.sessions
    ensures SessionsClosedStay(st, Connect(st, c))
  {
  }

  lemma HubStepCloses(w: Hub, st: State, l: Label)
    requires !SessionLabel(l) && !RoomLabel(l) && HubGuard(st, l)
    ensures SessionsClosedStay(st, HubStep(w, st, l))
  {
    if l.LConnect? {
      ConnectCloses(st, l.c);
    } else if l.LPing? {
      EnqueueCloses(w, st, l.c, Activity(st.reg.mode.note), l.drop);
    }
    hide Connect, Enqueue, Elsewhere, Occupied, AfterCommand;
  }

  lemma SessionStepCloses(w: Hub, st: State, l: Label)
    requires SessionLabel(l) && SessionGuard(st, l)
    ensures ClosedStays(st, SessionStep(w, st, l))
  {
  }

  // ---- Holders ---------------------------------------------------------

  /** Rooms are as they were or new; only c's session moved, holding what it held
      or nothing. */
  ghost predicate HolderMove(st: State, st': State, c: Cid) {
    && (forall d :: d in st'.sessions && d != c ==> d in st.sessions && st'.sessions[d] == st.sessions[d])
    && (c in st'.sessions && Holds(st'.sessions[c]).Some? ==>
          c in st.sessions && Holds(st'.sessions[c]) == Holds(st.sessions[c]))
    && (c in st'.sessions ==> TriesIn(st'.sessions[c]) || (c in st.sessions && st'.sessions[c] == st.sessions[c]))
    && (forall r :: r in st.rooms ==> r in st'.rooms && st'.rooms[r].members == st.rooms[r].members)
  }

  lemma HolderMoveKeeps(st: State, st': State, c: Cid)
    requires HoldersIn(st) && HolderMove(st, st', c)
    ensures HoldersIn(st')
  {
    hide Holds, TriesIn;
  }

  lemma SessionAfterHolds(st: State, l: Label)
    requires SessionLabel(l) && SessionGuard(st, l) && TriesIn(st.sessions[l.c])
    ensures TriesIn(SessionAfter(st, l))
    ensures Holds(SessionAfter(st, l)) == None || Holds(SessionAfter(st, l)) == Holds(st.sessions[l.c])
  {
  }

  lemma SessionStepHolders(w: Hub, st: State, l: Label)
    requires HoldersIn(st) && SessionLabel(l) && SessionGuard(st, l)
    ensures HoldersIn(SessionStep(w, st, l))
  {
    SessionAfterHolds(st, l);
    hide HoldersIn, SessionGuard, SessionAfter, Holds, TriesIn, Send;
    HolderMoveKeeps(st, SessionStep(w, st, l), l.c);
  }

  /** The room the registry answers a command with. */
  function HandedOut(st: State, s: Session, id: Rid): Option<Rid> {
    if !st.reg.mode.Receiving? || !s.RegJoining? then None
    else if s.name in st.reg.table then Some(st.reg.table[s.name])
    else Some(id)
  }

  ghost predicate Commanded(st: State, st': State, c: Cid, handed: Option<Rid>)
    requires c in st.sessions && AtRegistry(st.sessions[c])
  {
    && st'.sessions == st.sessions[c := AfterCommand(st.sessions[c], handed)]
    && (forall r :: r in st.rooms ==> r in st'.rooms && st'.rooms[r] == st.rooms[r])
  }

  lemma PlainMoves(st: State, c: Cid)
    requires c in st.sessions && AtRegistry(st.sessions[c]) && !st.sessions[c].RegJoining?
    ensures Commanded(st, PlainCommand(st, c, st.sessions[c]), c, None)
  {
  }

  lemma ExistingMoves(st: State, c: Cid)
    requires c in st.sessions && st.sessions[c].RegJoining? && st.sessions[c].name in st.reg.table
    ensures Commanded(st, JoinExisting(st, c, st.sessions[c]), c, Some(st.reg.table[st.sessions[c].name]))
  {
  }

  lemma CreatingMoves(st: State, c: Cid, id: Rid)
    requires c in st.sessions && st.sessions[c].RegJoining? && id !in st.rooms
    ensures Commanded(st, JoinCreated(st, c, st.sessions[c], id), c, Some(id))
  {
  }

  lemma CommandMoves(st: State, c: Cid, id: Rid)
    requires c in st.sessions && AtRegistry(st.sessions[c]) && id !in st.rooms
    ensures Commanded(st, Command(st, c, id), c, HandedOut(st, st.sessions[c], id))
  {
    var s := st.sessions[c];
    hide PlainCommand, JoinExisting, JoinCreated, AfterCommand;
    if st.reg.mode.Receiving? {
      hide Commanded;
      if !s.RegJoining? {
        PlainMoves(st, c);
      } else if s.name in st.reg.table {
        ExistingMoves(st, c);
      } else {
        CreatingMoves(st, c, id);
      }
    }
  }

  lemma AfterCommandHolds(s: Session, handed: Option<Rid>)
    requires AtRegistry(s) && TriesIn(s)
    ensures Holds(AfterCommand(s, handed)) == None && TriesIn(AfterCommand(s, handed))
  {
  }

  lemma CommandHolders(st: State, c: Cid, id: Rid)
    requires HoldersIn(st) && c in st.sessions && AtRegistry(st.sessions[c]) && id !in st.rooms
    ensures HoldersIn(Command(st, c, id))
  {
    var st' := Command(st, c, id);
    assert TriesIn(st.sessions[c]);
    hide HoldersIn, AfterCommand, AtRegistry, Command, Holds, TriesIn, HandedOut;
    CommandMoves(st, c, id);
    AfterCommandHolds(st.sessions[c], HandedOut(st, st.sessions[c], id));
    HolderMoveKeeps(st, st', c);
  }

  lemma HubStepHolders(w: Hub, st: State, l: Label)
    requires HoldersIn(st) && !SessionLabel(l) && !RoomLabel(l) && HubGuard(st, l)
    ensures HoldersIn(HubStep(w, st, l))
  {
    if l.LCommand? {
      hide HoldersIn, Command;
      CommandHolders(st, l.c, l.id);
    } else if l.LRestart? {
    } else if l.LConnect? {
      assert Holds(Adding) == None;
      hide HoldersIn, Holds;
      HolderMoveKeeps(st, HubStep(w, st, l), l.c);
    } else {
      hide HoldersIn, Holds, Send, Kill, Elsewhere, Occupied;
      HolderMoveKeeps(st, HubStep(w, st, l), 0);
    }
  }

  ghost predicate SameMembers(st: State, st': State, r: Rid) {
    && st'.sessions == st.sessions && r in st.rooms && r in st'.rooms && st'.rooms == st.rooms[r := st'.rooms[r]]
    && st'.rooms[r].members == st.rooms[r].members
  }

  /** A room step that moves no session and no member. */
  lemma AloneHolders(w: Hub, st: State, l: Label)
    requires HoldersIn(st) && RoomLabel(l) && RoomGuard(w, st, l)
    requires l.LRepair? || l.LRecover? || l.LOpenFails? || l.LWrite? || l.LFan? || l.LNotify? || l.LEvict? ||
      l.LKill? || l.LFinish?
    ensures HoldersIn(RoomStep(w, st, l))
  {
    AloneMembers(w, st, l);
    hide HoldersIn, Holds, RoomGuard, RoomStep;
    HolderMoveKeeps(st, RoomStep(w, st, l), 0);
  }

  lemma FileStepMembers(w: Hub, st: State, l: Label)
    requires RoomLabel(l) && RoomGuard(w, st, l) && (l.LRepair? || l.LRecover? || l.LOpenFails? || l.LWrite?)
    ensures SameMembers(st, RoomStep(w, st, l), l.r)
  {
    hide Repair, OpenMemory, Remember, Line;
  }

  lemma NotifyMembers(st: State, r: Rid, skip: bool)
    requires r in st.rooms && st.rooms[r].phase.Fanning?
    ensures SameMembers(st, NotifyActivity(st, r, skip), r) && NotifyActivity(st, r, skip).rooms[r].phase.Running?
  {
  }

  lemma EvictMembers(st: State, r: Rid, skip: bool)
    requires r in st.rooms && st.rooms[r].phase.Evicting?
    ensures SameMembers(st, EvictByName(st, r, skip), r)
    ensures var p := EvictByName(st, r, skip).rooms[r].phase; p.Killing? ==> p.rest == st.rooms[r].members
  {
  }

  lemma FinishMembers(st: State, r: Rid)
    requires r in st.rooms
    ensures SameMembers(st, Finish(st, r), r) && Finish(st, r).rooms[r].phase.Done?
  {
  }

  lemma EndStepMembers(w: Hub, st: State, l: Label)
    requires RoomLabel(l) && RoomGuard(w, st, l) && (l.LNotify? || l.LEvict? || l.LFinish?)
    ensures SameMembers(st, RoomStep(w, st, l), l.r)
    ensures var p := RoomStep(w, st, l).rooms[l.r].phase; p.Killing? ==> p.rest == st.rooms[l.r].members
  {
    hide NotifyActivity, EvictByName, Finish, SameMembers;
    match l {
      case LNotify(r, skip) => NotifyMembers(st, r, skip);
      case LEvict(r, skip) => EvictMembers(st, r, skip);
      case LFinish(r) => FinishMembers(st, r);
    }
  }

  lemma TalkStepMembers(w: Hub, st: State, l: Label)
    requires RoomLabel(l) && RoomGuard(w, st, l) && (l.LFan? || l.LKill?)
    ensures SameMembers(st, RoomStep(w, st, l), l.r)
  {
    if l.LFan? {
      HandIs(w, st, st.rooms[l.r].name, l.c, Signed(st.rooms[l.r].phase.m), l.drop, true);
    }
    hide Hand, Kill;
  }

  lemma AloneMembers(w: Hub, st: State, l: Label)
    requires RoomLabel(l) && RoomGuard(w, st, l)
    requires l.LRepair? || l.LRecover? || l.LOpenFails? || l.LWrite? || l.LFan? || l.LNotify? || l.LEvict? ||
      l.LKill? || l.LFinish?
    ensures SameMembers(st, RoomStep(w, st, l), l.r)
  {
    hide RoomGuard, RoomStep;
    if l.LFan? || l.LKill? {
      TalkStepMembers(w, st, l);
    } else if l.LNotify? || l.LEvict? || l.LFinish? {
      EndStepMembers(w, st, l);
    } else {
      FileStepMembers(w, st, l);
    }
  }

  /** A joining client is in the client set before it is answered. */
  lemma JoinHolders(w: Hub, st: State, r: Rid, c: Cid)
    requires HoldersIn(st) && RoomGuard(w, st, LTakeJoin(r, c))
    ensures HoldersIn(TakeJoin(w, st, r, c))
  {
    hide Since, Answer, CanCount;
  }

  /** A leaving client holds the room no more. */
  lemma LeaveHolders(w: Hub, st: State, r: Rid, c: Cid)
    requires HoldersIn(st) && RoomGuard(w, st, LTakeLeave(r, c))
    ensures HoldersIn(TakeLeave(st, r, c))
  {
  }

  lemma FrameHolders(w: Hub, st: State, r: Rid, c: Cid, ts: i64)
    requires HoldersIn(st) && RoomGuard(w, st, LTakeFrame(r, c, ts))
    ensures HoldersIn(TakeFrame(w, st, r, c, ts))
  {
    HandleShape(w, st.rooms[r], File(st, st.rooms[r].name), c, st.sessions[c].frame, ts);
    var st' := TakeFrame(w, st, r, c, ts);
    assert st.sessions[c].rid == r && Holds(st'.sessions[c]) == Holds(st.sessions[c]);
    hide HoldersIn, Holds, Handle, SessionAt, CanCount;
    HolderMoveKeeps(st, st', c);
  }

  lemma FlushHolders(w: Hub, st: State, r: Rid, c: Cid, drop: bool)
    requires HoldersIn(st) && RoomGuard(w, st, LFlush(r, c, drop))
    ensures HoldersIn(FlushOne(w, st, c, drop))
  {
    FlushIs(w, st, c, drop);
    assert Holds(Flushed(st.sessions[c])) == None || Holds(Flushed(st.sessions[c])) == Holds(st.sessions[c]);
    hide HoldersIn, Holds, Flushed, FlushOne, Enqueue;
    HolderMoveKeeps(st, FlushOne(w, st, c, drop), c);
  }

  lemma DeliverHolders(w: Hub, st: State, r: Rid, drop: bool)
    requires HoldersIn(st) && RepliesOK(st) && RoomGuard(w, st, LDeliver(r, drop))
    ensures HoldersIn(DeliverOne(w, st, r, drop))
  {
    var p := st.rooms[r].phase;
    if p.frames != [] {
      hide HoldersIn, Holds, RepliesOK;
      FrameSentHolders(w, st, r, drop);
    } else {
      assert p.joining ==>
        p.client in st.sessions && st.sessions[p.client].AwaitingRoom? && st.sessions[p.client].verdict == None;
      hide RepliesOK, HoldersIn;
      ConfirmedHolders(w, st, r, drop);
    }
  }

  lemma FrameSentHolders(w: Hub, st: State, r: Rid, drop: bool)
    requires HoldersIn(st) && r in st.rooms && st.rooms[r].phase.Delivering? && st.rooms[r].phase.frames != []
    ensures HoldersIn(DeliverOne(w, st, r, drop))
  {
    var st', p := DeliverOne(w, st, r, drop), st.rooms[r].phase;
    HandIs(w, st, st.rooms[r].name, p.client, p.frames[0], drop, p.joining);
    hide HoldersIn, Holds, Hand;
    HolderMoveKeeps(st, st', p.client);
  }

  lemma ConfirmedHolders(w: Hub, st: State, r: Rid, drop: bool)
    requires HoldersIn(st) && r in st.rooms && st.rooms[r].phase.Delivering? && st.rooms[r].phase.frames == []
    requires var p := st.rooms[r].phase;
      p.joining ==>
        p.client in st.sessions && st.sessions[p.client].AwaitingRoom? && st.sessions[p.client].verdict == None
    ensures HoldersIn(DeliverOne(w, st, r, drop))
  {
  }

  lemma RoomStepHolders(w: Hub, st: State, l: Label)
    requires HoldersIn(st) && RepliesOK(st) && RoomLabel(l) && RoomGuard(w, st, l)
    ensures HoldersIn(RoomStep(w, st, l))
  {
    hide HoldersIn, RepliesOK, RoomGuard, TakeJoin, TakeLeave, TakeFrame, DeliverOne, FlushOne;
    match l {
      case LTakeJoin(r, c) => JoinHolders(w, st, r, c);
      case LTakeLeave(r, c) => LeaveHolders(w, st, r, c);
      case LTakeFrame(r, c, ts) => FrameHolders(w, st, r, c, ts);
      case LDeliver(r, drop) => DeliverHolders(w, st, r, drop);
      case LFlush(r, c, drop) => FlushHolders(w, st, r, c, drop);
      case _ =>
        hide RoomStep;
        AloneHolders(w, st, l);
    }
  }

  // ---- Members of rooms that failed ------------------------------------

  /** Sessions stay, a room gains members only from them, and a room's members
      are killed before it is through with them. */
  lemma MembersMove(st: State, st': State)
    requires MembersClosed(st) && st.sessions.Keys <= st'.sessions.Keys && SessionsClosedStay(st, st')
    requires forall r, c :: r in st'.rooms && c in st'.rooms[r].members ==>
      c in st.sessions &&
      (st'.rooms[r].phase.Killing? && c !in st'.rooms[r].phase.rest ==>
        || !Connected(st', c)
        || (r in st.rooms && c in st.rooms[r].members && st.rooms[r].phase.Killing? && c !in st.rooms[r].phase.rest))
    ensures MembersClosed(st')
  {
  }

  lemma RoomSessionKeys(w: Hub, st: State, l: Label)
    requires RoomLabel(l) && RoomGuard(w, st, l)
    ensures RoomStep(w, st, l).sessions.Keys == st.sessions.Keys
  {
    if l.LTakeJoin? || l.LTakeLeave? || l.LTakeFrame? || l.LFlush? {
      hide Handle, Since, Answer, Send, Flushed, AtRoom, AfterRoomDone;
    } else if l.LDeliver? {
      var p := st.rooms[l.r].phase;
      if p.frames != [] {
        HandIs(w, st, st.rooms[l.r].name, p.client, p.frames[0], l.drop, p.joining);
      }
      hide Hand;
    } else {
      hide RoomGuard, RoomStep;
      AloneMembers(w, st, l);
    }
  }

  /** What a room step does to the room's members and to its killing. */
  lemma RoomStepMembers(w: Hub, st: State, l: Label)
    requires RoomLabel(l) && RoomGuard(w, st, l)
    ensures l.r in RoomStep(w, st, l).rooms
    ensures var st' := RoomStep(w, st, l);
      var room, room' := st.rooms[l.r], st'.rooms[l.r];
      && (forall c :: c in room'.members ==> c in room.members || (l.LTakeJoin? && c == l.c && c in st.sessions))
      && (room'.phase.Killing? ==> room'.members == room.members)
      && (room'.phase.Killing? && room'.phase.rest != room.members ==>
            room.phase.Killing? && l.LKill? && room'.phase.rest == room.phase.rest - {l.c} && !Connected(st', l.c))
  {
    if l.LTakeJoin? || l.LTakeLeave? || l.LTakeFrame? || l.LFlush? || l.LDeliver? {
      TakeStepMembers(w, st, l);
    } else if l.LKill? {
      KilledIsClosed(st, l.r, l.c);
      hide Kill, Connected;
    } else if l.LFan? {
      TalkStepMembers(w, st, l);
      hide Hand;
    } else if l.LNotify? || l.LEvict? || l.LFinish? {
      hide RoomStep, RoomGuard;
      EndStepMembers(w, st, l);
    } else {
      FileStepMembers(w, st, l);
      hide Repair, OpenMemory, Remember, Line;
    }
  }

  lemma KilledIsClosed(st: State, r: Rid, c: Cid)
    requires r in st.rooms && st.rooms[r].phase.Killing?
    ensures !Connected(KillOne(st, r, c), c)
  {
  }

  lemma TakeStepMembers(w: Hub, st: State, l: Label)
    requires l.LTakeJoin? || l.LTakeLeave? || l.LTakeFrame? || l.LFlush? || l.LDeliver?
    requires RoomGuard(w, st, l)
    ensures l.r in RoomStep(w, st, l).rooms
    ensures var st' := RoomStep(w, st, l);
      var room, room' := st.rooms[l.r], st'.rooms[l.r];
      && (forall c :: c in room'.members ==> c in room.members || (l.LTakeJoin? && c == l.c && c in st.sessions))
      && !room'.phase.Killing?
  {
    if l.LTakeFrame? {
      HandleShape(w, st.rooms[l.r], File(st, st.rooms[l.r].name), l.c, st.sessions[l.c].frame, l.ts);
    } else if l.LDeliver? {
      var p := st.rooms[l.r].phase;
      if p.frames != [] {
        HandIs(w, st, st.rooms[l.r].name, p.client, p.frames[0], l.drop, p.joining);
      }
    }
    hide Handle, Hand, Since, Answer, Send, Flushed, AtRoom, AfterRoomDone, CanCount;
  }

  lemma OthersSame(st: State, st': State, r: Rid)
    requires OnlyRoom(st, st', r)
    ensures forall q :: q in st'.rooms && q != r ==> q in st.rooms && st'.rooms[q] == st.rooms[q]
  {
  }

  lemma RoomStepClosed(w: Hub, st: State, l: Label)
    requires MembersClosed(st) && RoomLabel(l) && RoomGuard(w, st, l)
    ensures MembersClosed(RoomStep(w, st, l))
  {
    var st' := RoomStep(w, st, l);
    hide RoomGuard, RoomStep, Connected, OnlyRoom, ClosedStays, RoomLabel;
    RoomSessionKeys(w, st, l);
    RoomStepCloses(w, st, l);
    ClosedForSessions(st, st');
    RoomStepShape(w, st, l);
    OthersSame(st, st', l.r);
    RoomStepMembers(w, st, l);
    assert l.r in st.rooms by {
      RoomIsThere(w, st, l);
    }
    hide SessionsClosedStay;
    MembersMove(st, st');
  }

  lemma RoomIsThere(w: Hub, st: State, l: Label)
    requires RoomLabel(l) && RoomGuard(w, st, l)
    ensures l.r in st.rooms
  {
  }

  /** Steps around the rooms. */
  lemma AroundClosed(st: State, st': State)
    requires MembersClosed(st) && Around(st, st') && SessionsClosedStay(st, st')
    requires st.sessions.Keys <= st'.sessions.Keys
    ensures MembersClosed(st')
  {
  }

  // ---- Both, over every step -------------------------------------------

  ghost predicate Membership(st: State) { HoldersIn(st) && MembersClosed(st) }

  lemma StepKeepsMembership(w: Hub, st: State, l: Label)
    requires Control(w, st) && Membership(st) && Guard(w, st, l)
    ensures Membership(Apply(w, st, l))
  {
    var st' := Apply(w, st, l);
    ControlParts(w, st);
    hide Control, TableOK, MembersOK, RepliesOK, HoldersIn, MembersClosed, SessionGuard, RoomGuard, HubGuard,
      SessionStep, RoomStep, HubStep, SessionLabel, RoomLabel, Around, SessionsClosedStay, ClosedStays;
    if SessionLabel(l) {
      SessionStepHolders(w, st, l);
      SessionStepAround(w, st, l);
      SessionStepCloses(w, st, l);
      ClosedForSessions(st, st');
      SessionStepKeys(w, st, l);
      AroundClosed(st, st');
    } else if RoomLabel(l) {
      RoomStepHolders(w, st, l);
      RoomStepClosed(w, st, l);
    } else if l.LRestart? {
      RestartIs(w, st);
      RestartMembership(st);
    } else {
      HubStepHolders(w, st, l);
      HubStepAround(w, st, l);
      HubStepCloses(w, st, l);
      HubStepKeys(w, st, l);
      AroundClosed(st, st');
    }
  }

  lemma ControlParts(w: Hub, st: State)
    requires Control(w, st)
    ensures TableOK(st) && MembersOK(st) && RepliesOK(st)
  {
  }

  lemma ClosedForSessions(st: State, st': State)
    requires ClosedStays(st, st')
    ensures SessionsClosedStay(st, st')
  {
  }

  lemma SessionStepKeys(w: Hub, st: State, l: Label)
    requires SessionLabel(l) && SessionGuard(st, l)
    ensures SessionStep(w, st, l).sessions.Keys == st.sessions.Keys
  {
    hide SessionAfter, Send;
  }

  lemma HubStepKeys(w: Hub, st: State, l: Label)
    requires !SessionLabel(l) && !RoomLabel(l) && HubGuard(st, l) && !l.LRestart?
    ensures st.sessions.Keys <= HubStep(w, st, l).sessions.Keys
  {
    if l.LCommand? {
      hide Command, AfterCommand;
      CommandMoves(st, l.c, l.id);
    } else {
      hide Send, Kill, Elsewhere, Occupied, Command;
    }
  }

  lemma RestartMembership(st: State)
    ensures Membership(Restart(st))
  {
  }

  lemma {:induction false} RunKeepsMembership(w: Hub, st: State, ls: seq<Label>)
    requires Control(w, st) && Membership(st) && Run(w, st, ls)
    ensures Membership(Outcome(w, st, ls))
    decreases |ls|
  {
    hide Control, Membership, Guard, Apply;
    if ls != [] {
      StepKeepsMembership(w, st, ls[0]);
      StepKeepsControl(w, st, ls[0]);
      RunKeepsMembership(w, Apply(w, st, ls[0]), ls[1..]);
    }
  }
}
