/** A session's way out of the hub, and what the registry has on record of whom: a
    close is final, and a record follows its client's last command. */
module HubLeaving {
  import opened Base
  import opened Envelope
  import opened ArchiveSpec
  import opened HistorySpec
  import opened RoomRules
  import opened Client
  import opened HubModel
  import opened HubControl
  import opened HubMembers
  import opened HubRuns
  import opened HubReopen
  import opened HubQueues

  import opened HubJoining

  // ---- A close is final ------------------------------------------------

  predicate Closed(s: Session) { s.Closing? || s.Removing? || s.Gone? }

  /** A session that closes leaves its room first, if it is in one, and then the
      registry; it does nothing else, and once gone it stays gone. */
  predicate Leaves(s: Session, s': Session) {
    match s
    case Closing(_) => s' == s || s' == Removing
    case Removing => s' == s || s' == Gone
    case Gone => s' == s
    case _ => true
  }

  lemma CloseBegins(w: Hub, st: State, c: Cid)
    requires Guard(w, st, LBeginClose(c))
    ensures c in st.sessions && st.sessions[c].Idle? && c in Apply(w, st, LBeginClose(c)).sessions
    ensures var s' := Apply(w, st, LBeginClose(c)).sessions[c];
      Closed(s') && Pin(s') == Pin(st.sessions[c]) && !s'.Gone?
  {
  }

  lemma CloseIsFinal(w: Hub, st: State, l: Label, c: Cid)
    requires Guard(w, st, l) && !l.LRestart? && TableOK(st) && c in st.sessions
    ensures c in Apply(w, st, l).sessions && Leaves(st.sessions[c], Apply(w, st, l).sessions[c])
  {
    hide SessionGuard, RoomGuard, HubGuard, SessionAfter, RoomStep, HubStep, TableOK, Send;
    if SessionLabel(l) {
      SessionLeaves(w, st, l);
    } else if RoomLabel(l) {
      RoomStepSession(w, st, l, c);
    } else {
      HubStepSession(w, st, l, c);
    }
  }

  lemma SessionLeaves(w: Hub, st: State, l: Label)
    requires SessionLabel(l) && SessionGuard(st, l)
    ensures Leaves(st.sessions[l.c], SessionAfter(st, l))
  {
    hide ValidRoomName;
  }

  // ---- Records ---------------------------------------------------------

  /** What the registry has on record of c: nothing, no room, or the name of one. */
  function RecordOf(reg: Registry, c: Cid): Option<Option<Name>> {
    if c in reg.clients then Some(reg.clients[c]) else None
  }

  /** The record a command leaves: a join's name, from the moment the registry took
      it, none for a client that is removed, and no room otherwise. */
  function Recorded(s: Session): Option<Option<Name>>
    requires AtRegistry(s)
  {
    match s
    case RegJoining(name, _, _) => Some(Some(name))
    case Removing => None
    case _ => Some(None)
  }

  /** Others' records stand. */
  ghost predicate RecordsOf(reg: Registry, reg': Registry, c: Cid, record: Option<Option<Name>>) {
    && reg'.mode == reg.mode && RecordOf(reg', c) == record
    && (forall d :: d != c ==> RecordOf(reg', d) == RecordOf(reg, d))
  }

  lemma PlainRecords(st: State, c: Cid, s: Session)
    requires s.Adding? || s.RegLeaving? || s.Removing?
    ensures RecordsOf(st.reg, PlainCommand(st, c, s).reg, c, Recorded(s))
  {
    hide AfterCommand;
  }

  lemma JoinRecords(st: State, c: Cid, s: Session, id: Rid)
    requires s.RegJoining?
    ensures RecordsOf(st.reg, JoinCreated(st, c, s, id).reg, c, Recorded(s))
    ensures s.name in st.reg.table ==> RecordsOf(st.reg, JoinExisting(st, c, s).reg, c, Recorded(s))
  {
    hide AfterCommand;
  }

  lemma CommandRecords(st: State, c: Cid, id: Rid)
    requires c in st.sessions && AtRegistry(st.sessions[c])
    ensures RecordsOf(st.reg, Command(st, c, id).reg, c,
      if st.reg.mode.Receiving? then Recorded(st.sessions[c]) else RecordOf(st.reg, c))
  {
    var s := st.sessions[c];
    if !s.RegJoining? {
      PlainRecords(st, c, s);
    } else {
      JoinRecords(st, c, s, id);
    }
    hide AfterCommand, PlainCommand, JoinExisting, JoinCreated, Recorded;
  }

  ghost predicate SameRecords(reg: Registry, reg': Registry) { reg'.clients == reg.clients && reg'.mode == reg.mode }

  lemma TalkStepRegistry(w: Hub, st: State, l: Label)
    requires (l.LFan? || l.LDeliver? || l.LKill?) && RoomGuard(w, st, l)
    ensures RoomStep(w, st, l).reg == st.reg
  {
    if l.LFan? {
      HandIs(w, st, st.rooms[l.r].name, l.c, Signed(st.rooms[l.r].phase.m), l.drop, true);
    } else if l.LDeliver? && st.rooms[l.r].phase.frames != [] {
      var p := st.rooms[l.r].phase;
      HandIs(w, st, st.rooms[l.r].name, p.client, p.frames[0], l.drop, p.joining);
    }
    hide Hand, Kill;
  }

  lemma TakeStepRegistry(w: Hub, st: State, l: Label)
    requires (l.LTakeJoin? || l.LTakeLeave? || l.LTakeFrame? || l.LFlush?) && RoomGuard(w, st, l)
    ensures RoomStep(w, st, l).reg == st.reg
  {
    hide Handle, Send, Flushed, AfterRoomDone, Since, Answer, CanCount;
  }

  lemma RoomStepRegistry(w: Hub, st: State, l: Label)
    requires RoomLabel(l) && RoomGuard(w, st, l)
    ensures SameRecords(st.reg, RoomStep(w, st, l).reg)
  {
    if l.LFan? || l.LDeliver? || l.LKill? {
      hide RoomGuard, RoomStep;
      TalkStepRegistry(w, st, l);
    } else if l.LTakeJoin? || l.LTakeLeave? || l.LTakeFrame? || l.LFlush? {
      hide RoomGuard, RoomStep;
      TakeStepRegistry(w, st, l);
    } else {
      hide Repair, OpenMemory, Remember, Line;
    }
  }

  lemma HubStepRecord(w: Hub, st: State, l: Label, c: Cid)
    requires !SessionLabel(l) && !RoomLabel(l) && HubGuard(st, l) && !l.LRestart?
    ensures RecordOf(HubStep(w, st, l).reg, c) ==
      if l.LCommand? && l.c == c && st.reg.mode.Receiving? then Recorded(st.sessions[c]) else RecordOf(st.reg, c)
  {
    if l.LCommand? {
      CommandRecords(st, l.c, l.id);
    }
    hide Command, Send, Kill, Elsewhere, Occupied, AfterCommand, Recorded;
  }

  /** The command of the step, if it is one of c's that the registry acts on. */
  predicate Commands(st: State, l: Label, c: Cid) { l.LCommand? && l.c == c && st.reg.mode.Receiving? }

  /** The record of a client changes with its own commands and with nothing else. */
  lemma StepRecord(w: Hub, st: State, l: Label, c: Cid)
    requires Guard(w, st, l) && !l.LRestart?
    ensures Commands(st, l, c) ==> c in st.sessions && AtRegistry(st.sessions[c])
    ensures RecordOf(Apply(w, st, l).reg, c) ==
      if Commands(st, l, c) then Recorded(st.sessions[c]) else RecordOf(st.reg, c)
  {
    hide SessionGuard, RoomGuard, SessionAfter, RoomStep, HubStep, Send, Recorded;
    if RoomLabel(l) {
      RoomStepRegistry(w, st, l);
    } else if !SessionLabel(l) {
      HubStepRecord(w, st, l, c);
    }
  }

  // ---- Nobody is forgotten too soon, or kept too long ------------------

  predicate Registered(s: Session) { !s.Adding? && !s.Gone? }

  predicate IsRegistered(st: State, c: Cid) { c in st.sessions && Registered(st.sessions[c]) }

  /** Until shutdown, the registry has a record of exactly the connections that were
      added and are not gone. */
  ghost predicate RecordsOK(st: State) {
    Stopping(st.reg) || forall c :: c in st.reg.clients <==> IsRegistered(st, c)
  }

  lemma SessionRegistered(st: State, l: Label)
    requires SessionLabel(l) && SessionGuard(st, l)
    ensures Registered(SessionAfter(st, l)) == Registered(st.sessions[l.c]) || st.reg.mode.Stopped?
  {
    hide ValidRoomName;
  }

  lemma SessionAccounts(w: Hub, st: State, l: Label, c: Cid)
    requires SessionLabel(l) && SessionGuard(st, l) && !st.reg.mode.Stopped?
    ensures IsRegistered(SessionStep(w, st, l), c) == IsRegistered(st, c)
  {
    SessionRegistered(st, l);
    SessionStepIs(w, st, l);
    assert l.c in st.sessions;
    hide SessionGuard, SessionAfter, SessionStep, Registered;
  }

  lemma AttendedRegistered(l: Label, c: Cid, s: Session, s': Session)
    requires RoomLabel(l) && Attended(l, c, s, s')
    ensures Registered(s') == Registered(s)
  {
    hide ValidRoomName;
  }

  lemma RoomAccounts(w: Hub, st: State, l: Label, c: Cid)
    requires RoomLabel(l) && RoomGuard(w, st, l)
    ensures IsRegistered(RoomStep(w, st, l), c) == IsRegistered(st, c)
  {
    hide RoomGuard, RoomStep, Attended, Registered;
    RoomSessionKeys(w, st, l);
    if c in st.sessions {
      RoomStepSession(w, st, l, c);
      AttendedRegistered(l, c, st.sessions[c], RoomStep(w, st, l).sessions[c]);
    }
  }

  lemma HubAccounts(w: Hub, st: State, l: Label, c: Cid)
    requires !SessionLabel(l) && !RoomLabel(l) && HubGuard(st, l) && !l.LRestart? && !Stopping(st.reg)
    ensures IsRegistered(HubStep(w, st, l), c) ==
      if Commands(st, l, c) then Recorded(st.sessions[c]).Some? else IsRegistered(st, c)
  {
    if l.LCommand? {
      CommandMoves(st, l.c, l.id);
    }
    hide Command, Send, Kill, Elsewhere, Occupied, HandedOut, ValidRoomName;
  }

  lemma StepAccounts(w: Hub, st: State, l: Label, c: Cid)
    requires Guard(w, st, l) && !l.LRestart? && !Stopping(st.reg)
    ensures Commands(st, l, c) ==> c in st.sessions && AtRegistry(st.sessions[c])
    ensures IsRegistered(Apply(w, st, l), c) ==
      if Commands(st, l, c) then Recorded(st.sessions[c]).Some? else IsRegistered(st, c)
  {
    hide SessionGuard, RoomGuard, SessionStep, RoomStep, HubStep, Recorded, IsRegistered;
    if SessionLabel(l) {
      SessionAccounts(w, st, l, c);
    } else if RoomLabel(l) {
      RoomAccounts(w, st, l, c);
    } else {
      HubAccounts(w, st, l, c);
    }
  }

  lemma StoppingStays(w: Hub, st: State, l: Label)
    requires Guard(w, st, l) && !l.LRestart? && Stopping(st.reg)
    ensures Stopping(Apply(w, st, l).reg)
  {
    hide SessionAfter, SessionGuard, RoomGuard, RoomStep, Send;
    if RoomLabel(l) {
      RoomStepRegistry(w, st, l);
    } else if l.LCommand? {
      CommandRecords(st, l.c, l.id);
    }
    hide Command, Kill, Elsewhere, Occupied, AfterCommand;
  }

  lemma RestartRecords(w: Hub, st: State)
    ensures Guard(w, st, LRestart) && RecordsOK(Apply(w, st, LRestart))
  {
  }

  lemma StepKeepsRecords(w: Hub, st: State, l: Label)
    requires Guard(w, st, l) && RecordsOK(st)
    ensures RecordsOK(Apply(w, st, l))
  {
    hide Guard, Apply, Stopping, IsRegistered, Recorded, Commands;
    if l.LRestart? {
      RestartRecords(w, st);
    } else if Stopping(st.reg) {
      StoppingStays(w, st, l);
    } else {
      forall c ensures c in Apply(w, st, l).reg.clients <==> IsRegistered(Apply(w, st, l), c) {
        StepRecord(w, st, l, c);
        StepAccounts(w, st, l, c);
      }
    }
  }

  lemma {:induction false} RunKeepsRecords(w: Hub, st: State, ls: seq<Label>)
    requires RecordsOK(st) && Run(w, st, ls)
    ensures RecordsOK(Outcome(w, st, ls))
    decreases |ls|
  {
    hide Guard, Apply, RecordsOK;
    if ls != [] {
      StepKeepsRecords(w, st, ls[0]);
      RunKeepsRecords(w, Apply(w, st, ls[0]), ls[1..]);
    }
  }

  lemma NoRecords()
    ensures RecordsOK(Init())
  {
  }

  /** In every reachable state, until shutdown, the registry, whose records decide
      who is told of activity, whose rooms are swept and who is closed in the end,
      knows exactly the connections that were added and are not gone. */
  lemma RecordsAreExact(w: Hub, st: State)
    requires Reachable(w, st)
    ensures RecordsOK(st)
  {
    hide Run, Outcome, RecordsOK, Init;
    var before :| Run(w, Init(), before) && Outcome(w, Init(), before) == st;
    NoRecords();
    RunKeepsRecords(w, Init(), before);
  }

  // ---- Gone ------------------------------------------------------------

  /** Nothing is left of a session that is gone: no live room counts it as a member,
      no room is at work for it, and until shutdown the registry has no record of
      it; and it will not come back. */
  lemma GoneIsForgotten(w: Hub, st: State, l: Label, c: Cid)
    requires Reachable(w, st) && c in st.sessions && st.sessions[c].Gone?
    ensures Stopping(st.reg) || c !in st.reg.clients
    ensures forall r :: r in st.rooms && Live(st.rooms[r].phase) ==>
      c !in st.rooms[r].members && (Active(st.rooms[r].phase) ==> st.rooms[r].worker != c)
    ensures Guard(w, st, l) && !l.LRestart? ==>
      c in Apply(w, st, l).sessions && Apply(w, st, l).sessions[c].Gone?
  {
    hide Guard, Apply, Reachable, Control;
    RecordsAreExact(w, st);
    ReachableControl(w, st);
    GoneHoldsNothing(w, st, c);
    if Guard(w, st, l) && !l.LRestart? {
      GoneStays(w, st, l, c);
    }
  }

  lemma GoneStays(w: Hub, st: State, l: Label, c: Cid)
    requires Control(w, st) && Guard(w, st, l) && !l.LRestart? && c in st.sessions && st.sessions[c].Gone?
    ensures c in Apply(w, st, l).sessions && Apply(w, st, l).sessions[c].Gone?
  {
    hide Guard, Apply, Control, TableOK;
    ControlTable(w, st);
    CloseIsFinal(w, st, l, c);
  }

  lemma GoneHoldsNothing(w: Hub, st: State, c: Cid)
    requires Control(w, st) && c in st.sessions && st.sessions[c].Gone?
    ensures forall r :: r in st.rooms && Live(st.rooms[r].phase) ==>
      c !in st.rooms[r].members && (Active(st.rooms[r].phase) ==> st.rooms[r].worker != c)
  {
    hide TableOK, PinsOK, TableLive, NoneForgotten, RepliesOK, NamesOK, Counted, QueuesOK;
  }
}
