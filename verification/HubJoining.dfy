/** A session's way into a room: the room it gets is the one it asked for, a join
    ends in one of few ways, and whatever else it does it comes back from. */
module HubJoining {
  import opened Base
  import opened Envelope
  import opened ArchiveSpec
  import opened HistorySpec
  import opened RoomRules
  import opened Client
  import opened HubModel
  import opened HubControl
  import opened HubSteps
  import opened HubSafety
  import opened HubMembers
  import opened HubRuns
  import opened HubReopen
  import opened HubQueues

  // ---- Joining ---------------------------------------------------------

  /** What a session on its way into a room wants, and how many rooms it may still
      try. Leaving the room it was in is part of the way. */
  datatype Aim = Aim(name: Name, since: u64, tries: nat)

  function AimOf(s: Session): Option<Aim> {
    match s
    case Leaving(_, name, since) => Some(Aim(name, since, 3))
    case RegLeaving(name, since) => Some(Aim(name, since, 3))
    case RegJoining(name, since, tries) => Some(Aim(name, since, tries))
    case Awaiting(name, since, tries, _) => Some(Aim(name, since, tries))
    case RoomJoining(_, name, since, tries) => Some(Aim(name, since, tries))
    case AwaitingRoom(_, name, since, tries, _) => Some(Aim(name, since, tries))
    case _ => None
  }

  /** The room a session was handed is of the name it asked for. */
  predicate Right(rooms: map<Rid, Room>, s: Session) {
    match s
    case Awaiting(name, _, _, Some(r)) => r in rooms && rooms[r].name == name
    case RoomJoining(r, name, _, _) => r in rooms && rooms[r].name == name
    case AwaitingRoom(r, name, _, _, _) => r in rooms && rooms[r].name == name
    case _ => true
  }

  ghost predicate HandedRight(st: State) { forall c :: c in st.sessions ==> Right(st.rooms, st.sessions[c]) }

  /** A request to join starts the session on its way, unless the name is no room's. */
  lemma JoinBegins(w: Hub, st: State, c: Cid, name: Name, since: u64)
    requires Guard(w, st, LBeginJoin(c, name, since))
    ensures c in st.sessions && st.sessions[c].Idle?
    ensures var s, s' := st.sessions[c], Apply(w, st, LBeginJoin(c, name, since)).sessions[c];
      if s.room == None && !ValidRoomName(name) then s' == Refusing(None)
      else AimOf(s') == Some(Aim(name, since, 3)) && (s.room.Some? ==> s'.Leaving? && s'.rid == s.room.value)
  {
  }

  /** The ways a step can end a join: the session is in a room of the name it asked
      for, which said so; or it is refused, because the name is no room's, the
      registry has stopped, the room could not be opened, or this was the last
      try and that room too had closed. */
  ghost predicate Ended(st: State, l: Label, s: Session, s': Session) {
    || (s.AwaitingRoom? && s.verdict == Some(true) && s' == Idle(Some(s.rid))
        && s.rid in st.rooms && st.rooms[s.rid].name == s.name)
    || (s' == Refusing(None) && AimOf(s).Some? &&
        (|| !ValidRoomName(AimOf(s).value.name)
         || st.reg.mode.Stopped?
         || (s.AwaitingRoom? && s.verdict == Some(false))
         || (l.LRoomDone? && AimOf(s).value.tries <= 1)))
  }

  /** One step of a session on its way: it keeps its aim, with one try fewer if the
      room it was handed had closed, or the join ends. */
  ghost predicate OnItsWay(st: State, l: Label, c: Cid, s: Session, s': Session)
    requires AimOf(s).Some?
  {
    var aim := AimOf(s).value;
    if AimOf(s').Some? then
      || AimOf(s').value == aim
      || (l == LRoomDone(c) && !s.Leaving? && aim.tries > 1 && AimOf(s').value == aim.(tries := aim.tries - 1))
    else Ended(st, l, s, s')
  }

  /** A room the session closed on costs a try. */
  predicate ClosesOn(st: State, l: Label, c: Cid) {
    l == LRoomDone(c) && c in st.sessions && AimOf(st.sessions[c]).Some? && !st.sessions[c].Leaving?
  }

  /** What a move of the session itself keeps of its aim. */
  ghost predicate MovesOn(st: State, l: Label, c: Cid, s: Session, s': Session)
    requires AimOf(s).Some?
  {
    && OnItsWay(st, l, c, s, s')
    && (AimOf(s').Some? ==>
         AimOf(s').value.tries + (if ClosesOn(st, l, c) then 1 else 0) == AimOf(s).value.tries)
  }

  lemma SessionMovesOn(st: State, l: Label, c: Cid)
    requires SessionLabel(l) && SessionGuard(st, l) && HandedRight(st) && l.c == c && AimOf(st.sessions[c]).Some?
    ensures MovesOn(st, l, c, st.sessions[c], SessionAfter(st, l))
  {
    var s := st.sessions[c];
    if l.LTakeVerdict? { VerdictName(st, c); }
    hide ValidRoomName, HandedRight;
    match s {
      case Leaving(_, _, _) =>
      case RegLeaving(_, _) =>
      case RegJoining(_, _, _) =>
      case Awaiting(_, _, _, _) =>
      case RoomJoining(_, _, _, _) =>
      case AwaitingRoom(_, _, _, _, _) =>
    }
  }

  /** A step of others leaves a session's aim. */
  lemma Unmoved(st: State, l: Label, c: Cid, s: Session)
    requires AimOf(s).Some? && l != LRoomDone(c)
    ensures MovesOn(st, l, c, s, s)
  {
  }

  lemma SessionStepAims(w: Hub, st: State, l: Label, c: Cid)
    requires SessionLabel(l) && SessionGuard(st, l) && HandedRight(st)
    requires c in st.sessions && AimOf(st.sessions[c]).Some?
    ensures MovesOn(st, l, c, st.sessions[c], SessionStep(w, st, l).sessions[c])
  {
    if l.c == c {
      SessionMovesOn(st, l, c);
    } else {
      Unmoved(st, l, c, st.sessions[c]);
    }
    SessionStepIs(w, st, l);
    hide MovesOn, HandedRight, SessionGuard, SessionAfter, SessionStep, AimOf;
  }

  lemma SessionStepIs(w: Hub, st: State, l: Label)
    requires SessionLabel(l) && SessionGuard(st, l)
    ensures SessionStep(w, st, l).sessions == st.sessions[l.c := SessionAfter(st, l)]
  {
    hide SessionGuard, SessionAfter, Send;
  }

  lemma VerdictName(st: State, c: Cid)
    requires HandedRight(st) && c in st.sessions && st.sessions[c].AwaitingRoom?
    ensures st.sessions[c].rid in st.rooms && st.rooms[st.sessions[c].rid].name == st.sessions[c].name
  {
  }

  /** What a room's step may do to a session. */
  ghost predicate Attended(l: Label, c: Cid, s: Session, s': Session)
    requires RoomLabel(l)
  {
    || s' == s
    || (l.LTakeJoin? && l.c == c && s.RoomJoining? && s' == AwaitingRoom(l.r, s.name, s.since, s.tries, None))
    || (l.LTakeLeave? && l.c == c && (s.Leaving? || s.Closing?) && s' == AfterRoomDone(s))
    || (l.LTakeFrame? && l.c == c && s.Submitting? && s' == Idle(Some(l.r)))
    || (l.LDeliver? && s.AwaitingRoom? && s' == s.(verdict := Some(true)))
    || (l.LFlush? && l.c == c && AtRoom(s) && !s.AwaitingRoom? && s.rid == l.r && s' == Flushed(s))
  }

  lemma TakeStepSession(w: Hub, st: State, l: Label, c: Cid)
    requires (l.LTakeJoin? || l.LTakeLeave? || l.LTakeFrame? || l.LFlush?) && RoomGuard(w, st, l) && c in st.sessions
    ensures c in RoomStep(w, st, l).sessions && Attended(l, c, st.sessions[c], RoomStep(w, st, l).sessions[c])
  {
    hide Handle, Send, Flushed, AfterRoomDone, Since, Answer, CanCount;
  }

  lemma DeliverStepSession(w: Hub, st: State, l: Label, c: Cid)
    requires l.LDeliver? && RoomGuard(w, st, l) && c in st.sessions
    ensures c in RoomStep(w, st, l).sessions && Attended(l, c, st.sessions[c], RoomStep(w, st, l).sessions[c])
  {
    var p := st.rooms[l.r].phase;
    if p.frames != [] {
      HandIs(w, st, st.rooms[l.r].name, p.client, p.frames[0], l.drop, p.joining);
    }
    hide Hand;
  }

  lemma FanStepSessions(w: Hub, st: State, l: Label)
    requires (l.LFan? || l.LKill?) && RoomGuard(w, st, l)
    ensures RoomStep(w, st, l).sessions == st.sessions
  {
    if l.LFan? {
      HandIs(w, st, st.rooms[l.r].name, l.c, Signed(st.rooms[l.r].phase.m), l.drop, true);
    }
    hide Hand, Kill;
  }

  lemma FileStepSessions(w: Hub, st: State, l: Label)
    requires (l.LRepair? || l.LRecover? || l.LOpenFails? || l.LWrite?) && RoomGuard(w, st, l)
    ensures RoomStep(w, st, l).sessions == st.sessions
  {
    hide Repair, OpenMemory, Remember, Line;
  }

  lemma AloneStepSessions(w: Hub, st: State, l: Label)
    requires RoomLabel(l) && RoomGuard(w, st, l)
    requires !(l.LTakeJoin? || l.LTakeLeave? || l.LTakeFrame? || l.LFlush? || l.LDeliver? || l.LFan? || l.LKill?)
    ensures RoomStep(w, st, l).sessions == st.sessions
  {
    if !(l.LNotify? || l.LEvict? || l.LFinish?) {
      hide RoomGuard, RoomStep;
      FileStepSessions(w, st, l);
    }
  }

  lemma RoomStepSession(w: Hub, st: State, l: Label, c: Cid)
    requires RoomLabel(l) && RoomGuard(w, st, l) && c in st.sessions
    ensures c in RoomStep(w, st, l).sessions && Attended(l, c, st.sessions[c], RoomStep(w, st, l).sessions[c])
  {
    hide RoomGuard, RoomStep;
    if l.LTakeJoin? || l.LTakeLeave? || l.LTakeFrame? || l.LFlush? {
      TakeStepSession(w, st, l, c);
    } else if l.LDeliver? {
      DeliverStepSession(w, st, l, c);
    } else if l.LFan? || l.LKill? {
      FanStepSessions(w, st, l);
    } else {
      AloneStepSessions(w, st, l);
    }
  }

  lemma AttendedAims(st: State, l: Label, c: Cid, s: Session, s': Session)
    requires RoomLabel(l) && Attended(l, c, s, s') && AimOf(s).Some?
    ensures MovesOn(st, l, c, s, s')
  {
    hide ValidRoomName;
  }

  lemma RoomStepAims(w: Hub, st: State, l: Label, c: Cid)
    requires RoomLabel(l) && RoomGuard(w, st, l) && c in st.sessions && AimOf(st.sessions[c]).Some?
    ensures c in RoomStep(w, st, l).sessions
    ensures MovesOn(st, l, c, st.sessions[c], RoomStep(w, st, l).sessions[c])
  {
    hide RoomGuard, RoomStep, Attended, MovesOn, AimOf;
    RoomStepSession(w, st, l, c);
    AttendedAims(st, l, c, st.sessions[c], RoomStep(w, st, l).sessions[c]);
  }

  /** The session after a command, and whom it was handed. */
  ghost predicate AfterHanded(st: State, st': State, c: Cid, s: Session, s': Session) {
    && AtRegistry(s)
    && s' == AfterCommand(s, if s'.Awaiting? then s'.handed else None)
    && (s'.Awaiting? && s'.handed.Some? ==>
         s.RegJoining? && s'.handed.value in st'.rooms && st'.rooms[s'.handed.value].name == s.name)
  }

  lemma HandedNamed(st: State, c: Cid, id: Rid)
    requires TableOK(st) && c in st.sessions && AtRegistry(st.sessions[c]) && id !in st.rooms
    ensures var s, rooms := st.sessions[c], Command(st, c, id).rooms;
      match HandedOut(st, s, id)
      case None => true
      case Some(r) => s.RegJoining? && r in rooms && rooms[r].name == s.name
  {
    hide AfterCommand, ValidRoomName;
  }

  lemma CommandHands(st: State, c: Cid, id: Rid)
    requires TableOK(st) && c in st.sessions && AtRegistry(st.sessions[c]) && id !in st.rooms
    ensures var st' := Command(st, c, id);
      c in st'.sessions && AfterHanded(st, st', c, st.sessions[c], st'.sessions[c])
      && st'.sessions == st.sessions[c := st'.sessions[c]]
  {
    HandedNamed(st, c, id);
    CommandMoves(st, c, id);
    hide Command, TableOK, ValidRoomName, HandedOut;
  }

  lemma HubStepSession(w: Hub, st: State, l: Label, c: Cid)
    requires !SessionLabel(l) && !RoomLabel(l) && HubGuard(st, l) && !l.LRestart? && TableOK(st) && c in st.sessions
    ensures var st' := HubStep(w, st, l);
      && c in st'.sessions
      && (st'.sessions[c] == st.sessions[c]
          || (l.LCommand? && l.c == c && AfterHanded(st, st', c, st.sessions[c], st'.sessions[c])))
  {
    if l.LCommand? {
      CommandHands(st, l.c, l.id);
    }
    hide Command, AfterHanded, Send, Kill, Elsewhere, Occupied, TableOK;
  }

  lemma HubStepAims(w: Hub, st: State, l: Label, c: Cid)
    requires !SessionLabel(l) && !RoomLabel(l) && HubGuard(st, l) && !l.LRestart? && TableOK(st)
    requires c in st.sessions && AimOf(st.sessions[c]).Some?
    ensures c in HubStep(w, st, l).sessions
    ensures MovesOn(st, l, c, st.sessions[c], HubStep(w, st, l).sessions[c])
  {
    HubStepSession(w, st, l, c);
    hide HubGuard, HubStep, TableOK, ValidRoomName;
  }

  lemma StepAims(w: Hub, st: State, l: Label, c: Cid)
    requires Guard(w, st, l) && !l.LRestart? && TableOK(st) && HandedRight(st)
    requires c in st.sessions && AimOf(st.sessions[c]).Some?
    ensures c in Apply(w, st, l).sessions && MovesOn(st, l, c, st.sessions[c], Apply(w, st, l).sessions[c])
  {
    hide SessionGuard, RoomGuard, HubGuard, SessionAfter, RoomStep, HubStep, TableOK, HandedRight, MovesOn, AimOf, Send;
    if SessionLabel(l) {
      SessionStepAims(w, st, l, c);
    } else if RoomLabel(l) {
      RoomStepAims(w, st, l, c);
    } else {
      HubStepAims(w, st, l, c);
    }
  }

  // ---- The right room --------------------------------------------------

  ghost predicate NamesStay(rooms: map<Rid, Room>, rooms': map<Rid, Room>) {
    forall r :: r in rooms ==> r in rooms' && rooms'[r].name == rooms[r].name
  }

  lemma HubStepNames(w: Hub, st: State, l: Label)
    requires !SessionLabel(l) && !RoomLabel(l) && HubGuard(st, l) && !l.LRestart?
    ensures NamesStay(st.rooms, HubStep(w, st, l).rooms)
  {
    if l.LCommand? {
      CommandMoves(st, l.c, l.id);
    }
    hide Command, Send, Kill, AfterCommand, Elsewhere, Occupied, HandedOut;
  }

  /** A room keeps its name. */
  lemma StepNames(w: Hub, st: State, l: Label)
    requires Guard(w, st, l) && !l.LRestart?
    ensures NamesStay(st.rooms, Apply(w, st, l).rooms)
  {
    hide RoomGuard, RoomStep, HubGuard, HubStep;
    if SessionLabel(l) {
      hide SessionGuard, SessionAfter, Send;
    } else if RoomLabel(l) {
      RoomStepShape(w, st, l);
    } else {
      HubStepNames(w, st, l);
    }
  }

  lemma SessionStepRight(w: Hub, st: State, l: Label, c: Cid)
    requires SessionLabel(l) && SessionGuard(st, l) && HandedRight(st) && c in SessionStep(w, st, l).sessions
    ensures c in st.sessions && Right(st.rooms, SessionStep(w, st, l).sessions[c])
  {
    hide HandedRight, ValidRoomName, Send;
    if l.c == c {
      assert Right(st.rooms, st.sessions[c]) by { WasRight(st, c); }
      hide Right;
      SessionAfterRight(st, l);
    } else {
      hide SessionGuard, SessionAfter, Right;
      WasRight(st, c);
    }
  }

  lemma WasRight(st: State, c: Cid)
    requires HandedRight(st) && c in st.sessions
    ensures Right(st.rooms, st.sessions[c])
  {
  }

  lemma SessionAfterRight(st: State, l: Label)
    requires SessionLabel(l) && SessionGuard(st, l) && Right(st.rooms, st.sessions[l.c])
    ensures Right(st.rooms, SessionAfter(st, l))
  {
    hide ValidRoomName;
  }

  lemma StillRight(rooms: map<Rid, Room>, rooms': map<Rid, Room>, s: Session)
    requires Right(rooms, s) && NamesStay(rooms, rooms')
    ensures Right(rooms', s)
  {
  }

  lemma AttendedRight(rooms: map<Rid, Room>, l: Label, c: Cid, s: Session, s': Session)
    requires RoomLabel(l) && Attended(l, c, s, s') && Right(rooms, s)
    requires l.LTakeJoin? && l.c == c && s.RoomJoining? ==> s.rid == l.r
    ensures Right(rooms, s')
  {
    hide ValidRoomName;
  }

  lemma JoinsItsRoom(w: Hub, st: State, l: Label)
    requires l.LTakeJoin? && RoomGuard(w, st, l)
    ensures l.c in st.sessions && st.sessions[l.c].RoomJoining? && st.sessions[l.c].rid == l.r
  {
  }

  lemma RoomStepRight(w: Hub, st: State, l: Label, c: Cid)
    requires RoomLabel(l) && RoomGuard(w, st, l) && HandedRight(st) && c in st.sessions
    ensures c in RoomStep(w, st, l).sessions && Right(st.rooms, RoomStep(w, st, l).sessions[c])
  {
    hide RoomGuard, RoomStep, Attended, HandedRight, Right;
    RoomStepSession(w, st, l, c);
    WasRight(st, c);
    if l.LTakeJoin? {
      JoinsItsRoom(w, st, l);
    }
    AttendedRight(st.rooms, l, c, st.sessions[c], RoomStep(w, st, l).sessions[c]);
  }

  lemma HubStepRight(w: Hub, st: State, l: Label, c: Cid)
    requires !SessionLabel(l) && !RoomLabel(l) && HubGuard(st, l) && !l.LRestart? && TableOK(st) && HandedRight(st)
    requires c in st.sessions
    ensures c in HubStep(w, st, l).sessions && Right(HubStep(w, st, l).rooms, HubStep(w, st, l).sessions[c])
  {
    HubStepSession(w, st, l, c);
    HubStepNames(w, st, l);
    WasRight(st, c);
    StillRight(st.rooms, HubStep(w, st, l).rooms, st.sessions[c]);
    hide HubGuard, HubStep, HandedRight, TableOK, ValidRoomName, NamesStay;
  }

  lemma StepKeepsRight(w: Hub, st: State, l: Label)
    requires Guard(w, st, l) && TableOK(st) && HandedRight(st)
    ensures HandedRight(Apply(w, st, l))
  {
    forall c | c in Apply(w, st, l).sessions ensures Right(Apply(w, st, l).rooms, Apply(w, st, l).sessions[c]) {
      StepRight(w, st, l, c);
    }
    hide Guard, Apply, TableOK, Right;
  }

  /** Only a connect makes a session. */
  lemma NewSession(w: Hub, st: State, l: Label, c: Cid)
    requires Guard(w, st, l) && c in Apply(w, st, l).sessions
    ensures !l.LRestart?
    ensures c in st.sessions || (Apply(w, st, l).sessions[c] == Adding && l == LConnect(c))
  {
    hide SessionGuard, RoomGuard, HubGuard, SessionStep, RoomStep, HubStep;
    if SessionLabel(l) {
      SessionStepKeys(w, st, l);
    } else if RoomLabel(l) {
      RoomSessionKeys(w, st, l);
    } else {
      HubSessionKeys(w, st, l);
    }
  }

  lemma HubSessionKeys(w: Hub, st: State, l: Label)
    requires !SessionLabel(l) && !RoomLabel(l) && HubGuard(st, l)
    ensures l.LConnect? ==> HubStep(w, st, l).sessions == st.sessions[l.c := Adding]
    ensures !l.LConnect? && !l.LRestart? ==> HubStep(w, st, l).sessions.Keys == st.sessions.Keys
    ensures l.LRestart? ==> HubStep(w, st, l).sessions == map[]
  {
    if l.LCommand? {
      CommandMoves(st, l.c, l.id);
    }
    hide Command, Send, Kill, AfterCommand, Elsewhere, Occupied, HandedOut;
  }

  lemma StepRight(w: Hub, st: State, l: Label, c: Cid)
    requires Guard(w, st, l) && TableOK(st) && HandedRight(st) && c in Apply(w, st, l).sessions
    ensures Right(Apply(w, st, l).rooms, Apply(w, st, l).sessions[c])
  {
    NewSession(w, st, l, c);
    if c in st.sessions {
      hide HandedRight, Right, SessionGuard, RoomGuard, HubGuard, SessionAfter, RoomStep, HubStep, TableOK, NamesStay,
        Send;
      StepNames(w, st, l);
      if SessionLabel(l) {
        SessionStepRight(w, st, l, c);
      } else if RoomLabel(l) {
        RoomStepRight(w, st, l, c);
        StillRight(st.rooms, Apply(w, st, l).rooms, Apply(w, st, l).sessions[c]);
      } else {
        HubStepRight(w, st, l, c);
      }
    } else {
      hide Guard, Apply, HandedRight, TableOK;
    }
  }

  lemma {:induction false} RunKeepsRight(w: Hub, st: State, ls: seq<Label>)
    requires Control(w, st) && HandedRight(st) && Run(w, st, ls)
    ensures HandedRight(Outcome(w, st, ls))
    decreases |ls|
  {
    hide Guard, Apply, HandedRight, TableOK, PinsOK, WorkersOK, MembersOK, TableLive, NoneForgotten, RepliesOK, NamesOK,
      Counted, QueuesOK;
    if ls != [] {
      StepKeepsRight(w, st, ls[0]);
      StepKeepsControl(w, st, ls[0]);
      RunKeepsRight(w, Apply(w, st, ls[0]), ls[1..]);
    }
  }

  /** In every reachable state: who was handed a room, was handed one of the name it
      asked for. */
  lemma JoinsTheRightRoom(w: Hub, st: State, c: Cid)
    requires Reachable(w, st) && c in st.sessions
    ensures Right(st.rooms, st.sessions[c])
  {
    hide Run, Outcome, Control, Right;
    var ls :| Run(w, Init(), ls) && Outcome(w, Init(), ls) == st;
    InitControl(w);
    RunKeepsRight(w, Init(), ls);
  }

  // ---- How a join ends -------------------------------------------------

  /** Along a run, a session on its way with this aim keeps the name and the
      sequence to resume from, and has one try fewer for every room that closed on
      it, until its join ends. */
  ghost predicate Journey(w: Hub, st: State, ls: seq<Label>, c: Cid, aim: Aim)
    requires Run(w, st, ls)
    decreases |ls|
  {
    && c in st.sessions && AimOf(st.sessions[c]) == Some(aim) && 1 <= aim.tries <= JOIN_ATTEMPTS
    && (ls == [] ||
        var l, st' := ls[0], Apply(w, st, ls[0]);
        if l.LRestart? then true else
        && c in st'.sessions
        && if AimOf(st'.sessions[c]).None? then Ended(st, l, st.sessions[c], st'.sessions[c])
           else
             var left := if ClosesOn(st, l, c) then aim.tries - 1 else aim.tries;
             left >= 1 && Journey(w, st', ls[1..], c, aim.(tries := left)))
  }

  lemma AimStep(w: Hub, st: State, l: Label, c: Cid)
    requires Guard(w, st, l) && !l.LRestart? && TableOK(st) && HandedRight(st)
    requires c in st.sessions && AimOf(st.sessions[c]).Some? && AimOf(st.sessions[c]).value.tries >= 1
    ensures var st', aim := Apply(w, st, l), AimOf(st.sessions[c]).value;
      && c in st'.sessions
      && match AimOf(st'.sessions[c])
         case None => Ended(st, l, st.sessions[c], st'.sessions[c])
         case Some(next) =>
           var left := if ClosesOn(st, l, c) then aim.tries - 1 else aim.tries;
           left >= 1 && next == aim.(tries := left)
  {
    hide Guard, Apply, TableOK, HandedRight, AimOf, Ended;
    StepAims(w, st, l, c);
  }

  /** Every join that began, in every run: the room it is handed is the one it asked
      for, it gives up a try only where a room closed on it, and it ends in a room
      of that name or, with the sender refused, for one of four reasons. */
  lemma {:induction false} JoinsEnd(w: Hub, st: State, ls: seq<Label>, c: Cid)
    requires Control(w, st) && HandedRight(st) && Run(w, st, ls)
    requires c in st.sessions && AimOf(st.sessions[c]).Some? && 1 <= AimOf(st.sessions[c]).value.tries <= JOIN_ATTEMPTS
    ensures Journey(w, st, ls, c, AimOf(st.sessions[c]).value)
    decreases |ls|
  {
    hide Guard, Apply, HandedRight, Control, AimOf, ClosesOn, TableOK, Ended;
    if ls != [] && !ls[0].LRestart? {
      var l, st' := ls[0], Apply(w, st, ls[0]);
      ControlTable(w, st);
      AimStep(w, st, l, c);
      if AimOf(st'.sessions[c]).Some? {
        StepKeepsRight(w, st, l);
        StepKeepsControl(w, st, l);
        JoinsEnd(w, st', ls[1..], c);
      }
    }
  }

  /** So it is with every join of every run: it keeps its name and the sequence to
      resume from, takes three rooms at most, and ends in one of that name or with
      word of why not. */
  lemma JoinsTakeTheirCourse(w: Hub, st: State, ls: seq<Label>, c: Cid)
    requires Reachable(w, st) && Run(w, st, ls) && c in st.sessions && AimOf(st.sessions[c]).Some?
    ensures Journey(w, st, ls, c, AimOf(st.sessions[c]).value)
  {
    hide Run, Outcome, Control, Journey, AimOf, Init;
    var before :| Run(w, Init(), before) && Outcome(w, Init(), before) == st;
    InitControl(w);
    NothingHanded();
    RunKeepsRight(w, Init(), before);
    ReachableControl(w, st);
    JoinGivesUp(w, st, c);
    hide HandedRight;
    AimTries(st.sessions[c]);
    JoinsEnd(w, st, ls, c);
  }

  lemma NothingHanded()
    ensures HandedRight(Init())
  {
  }

  lemma AimTries(s: Session)
    requires AimOf(s).Some? && TriesIn(s)
    ensures 1 <= AimOf(s).value.tries <= JOIN_ATTEMPTS
  {
  }

  // ---- How anything else ends ------------------------------------------

  /** A session that is being registered, has a frame at its room, or is about to
      refuse something, goes back to where it was: in the same room, or in none.
      A frame is taken by the room, or refused by the room or the session. */
  ghost predicate GoesBack(st: State, l: Label, c: Cid, s: Session, s': Session) {
    match s
    case Adding => s' == s || s' == Idle(None)
    case Submitting(r, f) =>
      || s' == s
      || (l.LTakeFrame? && l.r == r && l.c == c && s' == Idle(Some(r)))
      || (l.LFlush? && l.r == r && Meant(st, l, c) == Some(Refusal) && s' == Idle(Some(r)))
      || (l == LRoomDone(c) && s' == Refusing(Some(r)))
    case Refusing(room) => s' == s || (Meant(st, l, c) == Some(Refusal) && s' == Idle(room))
    case _ => true
  }

  lemma SessionGoesBack(st: State, l: Label, c: Cid)
    requires SessionLabel(l) && SessionGuard(st, l) && c in st.sessions
    ensures GoesBack(st, l, c, st.sessions[c], if l.c == c then SessionAfter(st, l) else st.sessions[c])
  {
    hide ValidRoomName;
  }

  lemma AttendedGoesBack(st: State, l: Label, c: Cid, s: Session, s': Session)
    requires RoomLabel(l) && Attended(l, c, s, s') && c in st.sessions && s == st.sessions[c]
    requires l.LTakeFrame? && l.c == c && s.Submitting? ==> s.rid == l.r
    ensures GoesBack(st, l, c, s, s')
  {
    hide ValidRoomName;
  }

  lemma TakesItsRoom(w: Hub, st: State, l: Label)
    requires l.LTakeFrame? && RoomGuard(w, st, l)
    ensures l.c in st.sessions && st.sessions[l.c].Submitting? && st.sessions[l.c].rid == l.r
  {
  }

  lemma RoomGoesBack(w: Hub, st: State, l: Label, c: Cid)
    requires RoomLabel(l) && RoomGuard(w, st, l) && c in st.sessions
    ensures c in RoomStep(w, st, l).sessions
    ensures GoesBack(st, l, c, st.sessions[c], RoomStep(w, st, l).sessions[c])
  {
    if l.LTakeFrame? {
      TakesItsRoom(w, st, l);
    }
    hide RoomGuard, RoomStep, Attended, GoesBack;
    RoomStepSession(w, st, l, c);
    AttendedGoesBack(st, l, c, st.sessions[c], RoomStep(w, st, l).sessions[c]);
  }

  lemma HandedGoesBack(st: State, st': State, l: Label, c: Cid, s: Session, s': Session)
    requires s' == s || AfterHanded(st, st', c, s, s')
    ensures GoesBack(st, l, c, s, s')
  {
    hide ValidRoomName;
  }

  /** Every step, for every session. */
  lemma StepGoesBack(w: Hub, st: State, l: Label, c: Cid)
    requires Guard(w, st, l) && !l.LRestart? && TableOK(st) && c in st.sessions
    ensures c in Apply(w, st, l).sessions && GoesBack(st, l, c, st.sessions[c], Apply(w, st, l).sessions[c])
  {
    hide SessionGuard, RoomGuard, HubGuard, SessionStep, SessionAfter, RoomStep, HubStep, TableOK, GoesBack,
      AfterHanded;
    if SessionLabel(l) {
      SessionGoesBack(st, l, c);
      SessionStepIs(w, st, l);
    } else if RoomLabel(l) {
      RoomGoesBack(w, st, l, c);
    } else {
      HubStepSession(w, st, l, c);
      HandedGoesBack(st, HubStep(w, st, l), l, c, st.sessions[c], HubStep(w, st, l).sessions[c]);
    }
  }

  lemma ControlTable(w: Hub, st: State)
    requires Control(w, st)
    ensures TableOK(st)
  {
    hide TableOK, PinsOK, WorkersOK, MembersOK, TableLive, NoneForgotten, RepliesOK, NamesOK, Counted, QueuesOK;
  }
}
