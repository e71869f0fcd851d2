/** What a failed write leaves with the clients of its room: everything before the
    message that failed, until they are closed. */
module HubFailing {
  import opened Base
  import opened Envelope
  import opened ArchiveSpec
  import opened HistorySpec
  import opened ClientView
  import opened TwoTier
  import opened Client
  import opened HubModel
  import opened HubControl
  import opened HubSteps
  import opened HubSafety
  import opened HubData
  import opened HubUpkeep
  import opened HubMembers
  import opened HubRuns
  import opened HubReopen

  /** A write of the room failed, and it is not through with its members. */
  predicate Failing(p: Phase) { (p.Evicting? && p.fatal) || p.Killing? }

  /** The session is at the room, and no failed open refused it. */
  predicate StaysAt(st: State, c: Cid, r: Rid) {
    SessionAt(st, c, r) && (st.sessions[c].AwaitingRoom? ==> st.sessions[c].verdict != Some(false))
  }

  /** A connected member has the stream up to the message before the failed one. */
  ghost predicate StopsShort(w: Hub, st: State, r: Rid, c: Cid)
    requires r in st.rooms
  {
    && StaysAt(st, c, r)
    && (Connected(st, c) ==>
         c in st.streams && UpTo(w, Log(st, st.rooms[r].name), Before(st.rooms[r].hist).lastSeq, st.streams[c]))
  }

  ghost predicate FailedRoom(w: Hub, st: State, r: Rid)
    requires r in st.rooms
  {
    Failing(st.rooms[r].phase) ==>
      st.rooms[r].hist.lastSeq > 0 && forall c :: c in st.rooms[r].members ==> StopsShort(w, st, r, c)
  }

  ghost predicate FailedOK(w: Hub, st: State) {
    forall r :: r in st.rooms ==> FailedRoom(w, st, r)
  }

  // ---- A longer log, an untouched client -------------------------------

  lemma UpToGrows(w: Hub, log: seq<Message>, log': seq<Message>, n: nat, s: Stream)
    requires UpTo(w, log, n, s) && log <= log'
    ensures UpTo(w, log', n, s)
  {
    hide Answered;
    assert log'[..s.start] == log[..s.start] && log'[s.start..n] == log[s.start..n];
  }

  /** The step leaves alone whoever is in this state at the room. */
  ghost predicate Spares(st: State, st': State, c: Cid, r: Rid) {
    && (StaysAt(st, c, r) ==> StaysAt(st', c, r))
    && (StaysAt(st, c, r) && Connected(st', c) ==> Connected(st, c))
    && (StaysAt(st, c, r) && c in st.streams ==> c in st'.streams && st'.streams[c] == st.streams[c])
  }

  lemma SparedKeeps(w: Hub, st: State, st': State, r: Rid)
    requires r in st.rooms && r in st'.rooms && FailedRoom(w, st, r) && LogsGrow(st, st')
    requires Failing(st'.rooms[r].phase) ==> Failing(st.rooms[r].phase)
    requires st'.rooms[r].name == st.rooms[r].name && st'.rooms[r].hist == st.rooms[r].hist
    requires st'.rooms[r].members == st.rooms[r].members
    requires forall c :: Spares(st, st', c, r)
    ensures FailedRoom(w, st', r)
  {
    hide UpTo, StaysAt, Failing, Log, Connected, LogsGrow;
    if Failing(st'.rooms[r].phase) {
      forall c | c in st'.rooms[r].members ensures StopsShort(w, st', r, c) {
        assert StopsShort(w, st, r, c) && Spares(st, st', c, r);
        if Connected(st', c) {
          GrewAt(st, st', st.rooms[r].name);
          var n, upTo := st.rooms[r].name, Before(st.rooms[r].hist).lastSeq;
          UpToGrows(w, Log(st, n), Log(st', n), upTo, st.streams[c]);
        }
      }
    }
  }

  // ---- Steps of a room -------------------------------------------------

  /** A room's step changes the session and the stream of nobody elsewhere. */
  ghost predicate SparesElsewhere(st: State, st': State, q: Rid) {
    forall c :: !SessionAt(st, c, q) ==>
      && (c in st.sessions ==> c in st'.sessions && st'.sessions[c] == st.sessions[c])
      && (c in st.streams ==> c in st'.streams && st'.streams[c] == st.streams[c])
  }

  lemma SameSpares(st: State, st': State, q: Rid)
    requires st'.sessions == st.sessions && st'.streams == st.streams
    ensures SparesElsewhere(st, st', q)
  {
  }

  lemma HandSpares(w: Hub, st: State, n: Name, c: Cid, out: Out, drop: bool, live: bool, q: Rid)
    requires !live || SessionAt(st, c, q)
    ensures SparesElsewhere(st, Hand(w, st, n, c, out, drop, live), q)
  {
    HandMoves(w, st, n, c, out, drop, live);
    HandIs(w, st, n, c, out, drop, live);
    hide Hand;
  }

  lemma JoiningIsAt(w: Hub, st: State, q: Rid)
    requires Sound(w, st) && q in st.rooms && st.rooms[q].phase.Delivering? && st.rooms[q].phase.joining
    ensures SessionAt(st, st.rooms[q].phase.client, q)
  {
    hide Sound, Lawful, PinsOK, WorkersOK, MembersOK, NamesOK, RepliesOK, FilesOK, MemoryOK, DeliveredOK, PendingOK,
      StreamsOK, Data, SessionAt;
    SoundParts(w, st);
    AnsweringPins(st, q);
  }

  lemma FrameSpares(w: Hub, st: State, q: Rid, drop: bool)
    requires q in st.rooms && st.rooms[q].phase.Delivering? && st.rooms[q].phase.frames != []
    requires st.rooms[q].phase.joining ==> SessionAt(st, st.rooms[q].phase.client, q)
    ensures SparesElsewhere(st, DeliverOne(w, st, q, drop), q)
  {
    var Delivering(c, frames, joining) := st.rooms[q].phase;
    HandSpares(w, st, st.rooms[q].name, c, frames[0], drop, joining, q);
    hide Hand, SessionAt;
  }

  lemma AnswerSpares(w: Hub, st: State, q: Rid, drop: bool)
    requires q in st.rooms && st.rooms[q].phase.Delivering? && st.rooms[q].phase.frames == []
    requires st.rooms[q].phase.joining ==> SessionAt(st, st.rooms[q].phase.client, q)
    ensures SparesElsewhere(st, DeliverOne(w, st, q, drop), q)
  {
    hide SessionAt;
  }

  lemma DeliverSpares(w: Hub, st: State, q: Rid, drop: bool)
    requires Sound(w, st) && q in st.rooms && st.rooms[q].phase.Delivering?
    ensures SparesElsewhere(st, DeliverOne(w, st, q, drop), q)
  {
    hide Sound, DeliverOne, SparesElsewhere, SessionAt;
    if st.rooms[q].phase.joining {
      JoiningIsAt(w, st, q);
    }
    if st.rooms[q].phase.frames != [] {
      FrameSpares(w, st, q, drop);
    } else {
      AnswerSpares(w, st, q, drop);
    }
  }

  lemma FanSpares(w: Hub, st: State, q: Rid, c: Cid, drop: bool)
    requires Sound(w, st) && q in st.rooms && st.rooms[q].phase.Fanning? && c in st.rooms[q].phase.rest
    ensures SparesElsewhere(st, FanOne(w, st, q, c, drop), q)
  {
    assert SessionAt(st, c, q) by {
      hide Sound, SessionAt, Agrees, LogOK;
      FanningFacts(w, st, q);
    }
    HandSpares(w, st, st.rooms[q].name, c, Signed(st.rooms[q].phase.m), drop, true, q);
    hide Sound, Hand;
  }

  lemma TakeSpares(w: Hub, st: State, l: Label)
    requires l.LTakeJoin? || l.LTakeLeave? || l.LTakeFrame? || l.LFlush?
    requires RoomGuard(w, st, l)
    ensures SparesElsewhere(st, RoomStep(w, st, l), l.r)
  {
    hide Handle, Since, Answer, Flushed, AfterRoomDone, Send, CanCount, AtRoom;
  }

  lemma AloneSpares(w: Hub, st: State, l: Label)
    requires RoomLabel(l) && RoomGuard(w, st, l) && !l.LTakeJoin? && !l.LTakeLeave? && !l.LTakeFrame? && !l.LFlush?
    requires !l.LDeliver? && !l.LFan?
    ensures SparesElsewhere(st, RoomStep(w, st, l), l.r)
  {
    hide Repair, OpenMemory, Line, Remember, Kill, SparesElsewhere, CanCount, SessionAt, AtRoom;
    SameSpares(st, RoomStep(w, st, l), l.r);
  }

  lemma RoomStepSpares(w: Hub, st: State, l: Label)
    requires Sound(w, st) && RoomLabel(l) && RoomGuard(w, st, l)
    ensures SparesElsewhere(st, RoomStep(w, st, l), l.r)
  {
    hide Sound, SparesElsewhere;
    if l.LDeliver? {
      hide DeliverOne;
      DeliverSpares(w, st, l.r, l.drop);
    } else if l.LFan? {
      hide FanOne;
      FanSpares(w, st, l.r, l.c, l.drop);
    } else if l.LTakeJoin? || l.LTakeLeave? || l.LTakeFrame? || l.LFlush? {
      hide RoomGuard, RoomStep;
      TakeSpares(w, st, l);
    } else {
      hide RoomGuard, RoomStep;
      AloneSpares(w, st, l);
    }
  }

  lemma ElsewhereSpares(st: State, st': State, q: Rid, r: Rid, c: Cid)
    requires SparesElsewhere(st, st', q) && ClosedStays(st, st') && q != r
    ensures Spares(st, st', c, r)
  {
    hide Connected;
  }

  lemma OthersShape(st: State, st': State, q: Rid, r: Rid)
    requires OnlyRoom(st, st', q) && r in st.rooms && r != q
    ensures r in st'.rooms && st'.rooms[r] == st.rooms[r]
  {
  }

  lemma ElsewhereFailed(w: Hub, st: State, st': State, q: Rid, r: Rid)
    requires OnlyRoom(st, st', q) && SparesElsewhere(st, st', q) && ClosedStays(st, st') && LogsGrow(st, st')
    requires r in st.rooms && r != q && FailedRoom(w, st, r)
    ensures r in st'.rooms && FailedRoom(w, st', r)
  {
    hide FailedRoom, Failing, LogsGrow, Spares, SparesElsewhere, ClosedStays, OnlyRoom;
    OthersShape(st, st', q, r);
    forall c ensures Spares(st, st', c, r) {
      ElsewhereSpares(st, st', q, r, c);
    }
    SparedKeeps(w, st, st', r);
  }

  /** Another room's step leaves a failing room as it is. */
  lemma OtherRoomFailed(w: Hub, st: State, l: Label, r: Rid)
    requires Sound(w, st) && RoomLabel(l) && RoomGuard(w, st, l) && r in st.rooms && r != l.r && FailedRoom(w, st, r)
    ensures r in RoomStep(w, st, l).rooms && FailedRoom(w, RoomStep(w, st, l), r)
  {
    hide Sound, RoomGuard, RoomStep, FailedRoom, LogsGrow, SparesElsewhere, ClosedStays, OnlyRoom;
    var st' := RoomStep(w, st, l);
    RoomStepSpares(w, st, l);
    RoomStepShape(w, st, l);
    RoomStepCloses(w, st, l);
    RoomStepGrowsLogs(w, st, l);
    ElsewhereFailed(w, st, st', l.r, r);
  }

  lemma WritingStream(w: Hub, log: seq<Message>, room: Room, file: Bytes, c: Cid, s: Stream)
    requires room.phase.Writing? && Agrees(w.ops, Before(room.hist), file, log) && Unbroken(w, log, room.phase, c, s)
    ensures UpTo(w, log, Before(room.hist).lastSeq, s)
  {
    hide Answered, Before;
  }

  lemma LiveMemberStays(w: Hub, st: State, r: Rid, c: Cid)
    requires MembersOK(st) && RepliesOK(st) && r in st.rooms && Live(st.rooms[r].phase) && c in st.rooms[r].members
    ensures StaysAt(st, c, r)
  {
  }

  /** Before the write, a member has the stream up to the newest message. */
  lemma WritingStops(w: Hub, st: State, r: Rid, c: Cid)
    requires Sound(w, st) && r in st.rooms && st.rooms[r].phase.Writing? && c in st.rooms[r].members
    ensures StopsShort(w, st, r, c)
  {
    var room := st.rooms[r];
    assert Live(room.phase) && InService(room.phase);
    hide Sound, Lawful, PinsOK, WorkersOK, MembersOK, RepliesOK, NamesOK, FilesOK, MemoryOK, DeliveredOK, PendingOK,
      StreamsOK, Data, MarkersOK, NextOf, FreshTarget, Connected, StaysAt, Live, InService, Log, File, Agrees, Unbroken,
      UpTo, Before;
    SoundParts(w, st);
    LiveMemberStays(w, st, r, c);
    WritingFacts(w, st, r);
    if Connected(st, c) {
      WritingStream(w, Log(st, room.name), room, File(st, room.name), c, st.streams[c]);
    }
  }

  lemma WriteIsSilent(w: Hub, st: State, r: Rid, landed: nat)
    requires RoomGuard(w, st, LWrite(r, landed, true)) && st.rooms[r].phase.m.header.sn == st.rooms[r].hist.lastSeq
    ensures var st' := WriteRecord(w, st, r, landed, true);
      && r in st'.rooms && st'.sessions == st.sessions && st'.streams == st.streams && st'.queues == st.queues
      && st'.rooms[r].hist.lastSeq == st.rooms[r].hist.lastSeq && st'.rooms[r].members == st.rooms[r].members
      && st'.rooms[r].name == st.rooms[r].name
  {
    hide Line;
  }

  lemma SilentStops(w: Hub, st: State, st': State, r: Rid, c: Cid)
    requires r in st.rooms && r in st'.rooms && StopsShort(w, st, r, c) && LogsGrow(st, st')
    requires st'.sessions == st.sessions && st'.streams == st.streams && st'.queues == st.queues
    requires st'.rooms[r].hist.lastSeq == st.rooms[r].hist.lastSeq && st'.rooms[r].name == st.rooms[r].name
    ensures StopsShort(w, st', r, c)
  {
    hide UpTo, Log, LogsGrow;
    GrewAt(st, st', st.rooms[r].name);
    if Connected(st, c) {
      var n, upTo := st.rooms[r].name, Before(st.rooms[r].hist).lastSeq;
      UpToGrows(w, Log(st, n), Log(st', n), upTo, st.streams[c]);
    }
  }

  /** A write that fails leaves the members where they were. */
  lemma WriteFailed(w: Hub, st: State, r: Rid, landed: nat)
    requires Sound(w, st) && RoomGuard(w, st, LWrite(r, landed, true))
    requires LogsGrow(st, WriteRecord(w, st, r, landed, true))
    ensures var st' := WriteRecord(w, st, r, landed, true); r in st'.rooms && FailedRoom(w, st', r)
  {
    hide Sound, WriteRecord, Line, LogsGrow, StopsShort, Failing;
    var st', room := WriteRecord(w, st, r, landed, true), st.rooms[r];
    WritingNumbered(w, st, r);
    WriteIsSilent(w, st, r, landed);
    forall c | c in room.members ensures StopsShort(w, st', r, c) {
      WritingStops(w, st, r, c);
      SilentStops(w, st, st', r, c);
    }
  }

  lemma NumberedNext(o: Ops, h: Hist, file: Bytes, log: seq<Message>, m: Message)
    requires h.lastSeq > 0 && Agrees(o, Before(h), file, log) && NextOf(o, log, m)
    ensures m.header.sn == h.lastSeq
  {
  }

  lemma WritingNumbered(w: Hub, st: State, r: Rid)
    requires Sound(w, st) && r in st.rooms && st.rooms[r].phase.Writing?
    ensures st.rooms[r].hist.lastSeq > 0 && st.rooms[r].phase.m.header.sn == st.rooms[r].hist.lastSeq
  {
    hide *;
    WritingFacts(w, st, r);
    NumberedNext(w.ops, st.rooms[r].hist, File(st, st.rooms[r].name), Log(st, st.rooms[r].name), st.rooms[r].phase.m);
  }

  /** The way out of a failing room hands nobody anything and moves no session. */
  ghost predicate WindsDown(st: State, st': State, r: Rid)
    requires r in st.rooms && r in st'.rooms
  {
    Failing(st'.rooms[r].phase) ==>
      && Failing(st.rooms[r].phase) && st'.rooms[r].name == st.rooms[r].name && st'.rooms[r].hist == st.rooms[r].hist
      && st'.rooms[r].members == st.rooms[r].members && st'.sessions == st.sessions && st'.streams == st.streams
  }

  /** Only the evict command and the kills lead on from a failed write. */
  lemma ServingWindsDown(w: Hub, st: State, l: Label)
    requires l.LTakeJoin? || l.LTakeLeave? || l.LTakeFrame? || l.LDeliver? || l.LFan? || l.LNotify? || l.LFlush?
    requires RoomGuard(w, st, l)
    ensures l.r in RoomStep(w, st, l).rooms && !Failing(RoomStep(w, st, l).rooms[l.r].phase)
  {
    if l.LTakeFrame? {
      HandleShape(w, st.rooms[l.r], File(st, st.rooms[l.r].name), l.c, st.sessions[l.c].frame, l.ts);
    }
    hide Handle, Hand, Since, Answer, Flushed, AfterRoomDone, Send, CanCount, AtRoom;
  }

  lemma OwnWindsDown(w: Hub, st: State, l: Label)
    requires RoomLabel(l) && RoomGuard(w, st, l) && !(l.LWrite? && l.failed)
    ensures l.r in RoomStep(w, st, l).rooms && WindsDown(st, RoomStep(w, st, l), l.r)
  {
    if l.LTakeJoin? || l.LTakeLeave? || l.LTakeFrame? || l.LDeliver? || l.LFan? || l.LNotify? || l.LFlush? {
      hide RoomGuard, RoomStep, Failing;
      ServingWindsDown(w, st, l);
    } else {
      hide Repair, OpenMemory, Line, Remember, Kill;
    }
  }

  lemma WoundSpares(st: State, st': State, r: Rid, c: Cid)
    requires st'.sessions == st.sessions && st'.streams == st.streams && ClosedStays(st, st')
    ensures Spares(st, st', c, r)
  {
    hide Connected;
  }

  lemma WoundFailed(w: Hub, st: State, st': State, r: Rid)
    requires r in st.rooms && r in st'.rooms && WindsDown(st, st', r) && ClosedStays(st, st') && LogsGrow(st, st')
    requires FailedRoom(w, st, r)
    ensures FailedRoom(w, st', r)
  {
    hide LogsGrow, ClosedStays, Spares, StopsShort, Failing;
    if Failing(st'.rooms[r].phase) {
      forall c ensures Spares(st, st', c, r) {
        WoundSpares(st, st', r, c);
      }
      SparedKeeps(w, st, st', r);
    }
  }

  /** The room's own step: a write that fails, or the way out. */
  lemma OwnFailed(w: Hub, st: State, l: Label)
    requires Sound(w, st) && RoomLabel(l) && RoomGuard(w, st, l) && FailedRoom(w, st, l.r)
    ensures l.r in RoomStep(w, st, l).rooms && FailedRoom(w, RoomStep(w, st, l), l.r)
  {
    hide Sound, RoomStep, LogsGrow, ClosedStays, WindsDown, WriteRecord, FailedRoom, Line;
    var st', r := RoomStep(w, st, l), l.r;
    RoomStepGrowsLogs(w, st, l);
    if l.LWrite? && l.failed {
      WriteIs(w, st, l);
      WriteFailed(w, st, r, l.landed);
    } else {
      hide RoomGuard;
      OwnWindsDown(w, st, l);
      RoomStepCloses(w, st, l);
      WoundFailed(w, st, st', r);
    }
  }

  // ---- Steps around the rooms ------------------------------------------

  lemma SessionStays(w: Hub, st: State, l: Label, c: Cid, r: Rid)
    requires SessionLabel(l) && SessionGuard(st, l) && r in st.rooms && Failing(st.rooms[r].phase)
    requires !st.reg.mode.Stopped?
    ensures StaysAt(st, c, r) ==> StaysAt(SessionStep(w, st, l), c, r)
  {
    hide Send;
  }

  lemma SessionSpares(w: Hub, st: State, l: Label, c: Cid, r: Rid)
    requires SessionLabel(l) && SessionGuard(st, l) && r in st.rooms && Failing(st.rooms[r].phase)
    requires !st.reg.mode.Stopped?
    ensures Spares(st, SessionStep(w, st, l), c, r)
  {
    hide SessionGuard, StaysAt, Connected, Failing;
    SessionStepCloses(w, st, l);
    SessionStays(w, st, l, c, r);
    hide SessionAfter, Send;
  }

  lemma CommandStays(w: Hub, st: State, l: Label, c: Cid, r: Rid)
    requires l.LCommand? && HubGuard(st, l)
    ensures StaysAt(st, c, r) ==> StaysAt(Command(st, l.c, l.id), c, r)
  {
    hide AfterCommand;
  }

  lemma HubStays(w: Hub, st: State, l: Label, c: Cid, r: Rid)
    requires !SessionLabel(l) && !RoomLabel(l) && HubGuard(st, l) && !l.LRestart?
    ensures StaysAt(st, c, r) ==> StaysAt(HubStep(w, st, l), c, r)
  {
    if l.LCommand? {
      hide Command;
      CommandStays(w, st, l, c, r);
    } else {
      hide Send, Elsewhere, Occupied, Command;
    }
  }

  lemma HubSpares(w: Hub, st: State, l: Label, c: Cid, r: Rid)
    requires TableOK(st) && MembersOK(st) && !SessionLabel(l) && !RoomLabel(l) && HubGuard(st, l) && !l.LRestart?
    ensures Spares(st, HubStep(w, st, l), c, r)
  {
    hide HubStep, HubGuard, TableOK, MembersOK, Connected;
    HubStays(w, st, l, c, r);
    HubStepCloses(w, st, l);
    HubStepAround(w, st, l);
  }

  lemma AroundFailed(w: Hub, st: State, st': State, r: Rid)
    requires Around(st, st') && r in st'.rooms && (r in st.rooms ==> FailedRoom(w, st, r))
    requires r in st.rooms && Failing(st.rooms[r].phase) ==> forall c :: Spares(st, st', c, r)
    ensures FailedRoom(w, st', r)
  {
    assert LogsGrow(st, st');
    hide LogsGrow, Spares, StopsShort, Connected, Tabled;
    if r in st.rooms && Failing(st.rooms[r].phase) {
      SparedKeeps(w, st, st', r);
    }
  }

  lemma NotStopped(w: Hub, st: State, r: Rid)
    requires Control(w, st) && r in st.rooms && !st.rooms[r].phase.Done?
    ensures !st.reg.mode.Stopped?
  {
    hide TableOK, PinsOK, WorkersOK, MembersOK, TableLive, NoneForgotten, RepliesOK, NamesOK, QueuesOK, Counted;
    if st.reg.mode.Stopped? {
      NoneUnfinished(st);
    }
  }

  lemma StepKeepsFailedRoom(w: Hub, st: State, l: Label, r: Rid)
    requires Sound(w, st) && Guard(w, st, l) && !l.LRestart? && r in Apply(w, st, l).rooms
    requires r in st.rooms ==> FailedRoom(w, st, r)
    ensures FailedRoom(w, Apply(w, st, l), r)
  {
    hide Sound, SessionGuard, RoomGuard, HubGuard, SessionStep, RoomStep, HubStep, FailedRoom, Around, Spares,
      TableOK, MembersOK, Control;
    assert Control(w, st) by { SoundControl(w, st); }
    ControlParts(w, st);
    var st' := Apply(w, st, l);
    if SessionLabel(l) {
      SessionStepAround(w, st, l);
      if r in st.rooms && Failing(st.rooms[r].phase) {
        NotStopped(w, st, r);
        forall c ensures Spares(st, st', c, r) {
          SessionSpares(w, st, l, c, r);
        }
      }
      AroundFailed(w, st, st', r);
    } else if RoomLabel(l) {
      RoomStepShape(w, st, l);
      if r == l.r {
        OwnFailed(w, st, l);
      } else {
        OtherRoomFailed(w, st, l, r);
      }
    } else {
      HubStepAround(w, st, l);
      forall c ensures Spares(st, st', c, r) {
        HubSpares(w, st, l, c, r);
      }
      AroundFailed(w, st, st', r);
    }
  }

  lemma SoundControl(w: Hub, st: State)
    requires Sound(w, st)
    ensures Control(w, st)
  {
  }

  /** Every step keeps what members of failing rooms have been handed. */
  lemma StepKeepsFailed(w: Hub, st: State, l: Label)
    requires Sound(w, st) && Guard(w, st, l) && FailedOK(w, st)
    ensures FailedOK(w, Apply(w, st, l))
  {
    hide Sound, Guard, Apply, FailedRoom;
    RestartIs(w, st);
    forall r | r in Apply(w, st, l).rooms ensures FailedRoom(w, Apply(w, st, l), r) {
      if !l.LRestart? {
        StepKeepsFailedRoom(w, st, l, r);
      }
    }
  }

  lemma {:induction false} RunKeepsFailed(w: Hub, st: State, ls: seq<Label>)
    requires Sound(w, st) && FailedOK(w, st) && Run(w, st, ls)
    ensures FailedOK(w, Outcome(w, st, ls))
    decreases |ls|
  {
    hide Sound, Guard, Apply, FailedOK;
    if ls != [] {
      StepKeepsSound(w, st, ls[0]);
      StepKeepsFailed(w, st, ls[0]);
      RunKeepsFailed(w, Apply(w, st, ls[0]), ls[1..]);
    }
  }

  lemma ReachableFailed(w: Hub, st: State)
    requires Lawful(w.ops) && Reachable(w, st)
    ensures FailedOK(w, st)
  {
    hide Lawful, Run, Outcome, Sound, FailedRoom;
    var ls :| Run(w, Init(), ls) && Outcome(w, Init(), ls) == st;
    InitSound(w);
    RunKeepsFailed(w, Init(), ls);
  }

  /** After a failed write, from then until it is closed, a member has been handed
      the response to its join and everything of the room since, up to the message
      before the one that failed: in order, without a hole, and nothing else. */
  lemma FailedStreamStopsShort(w: Hub, st: State, r: Rid, c: Cid)
    requires Lawful(w.ops) && Reachable(w, st) && r in st.rooms && Failing(st.rooms[r].phase)
    requires c in st.rooms[r].members && Connected(st, c)
    ensures st.rooms[r].hist.lastSeq > 0 && c in st.streams
    ensures UpTo(w, Log(st, st.rooms[r].name), st.rooms[r].hist.lastSeq - 1, st.streams[c])
  {
    hide Lawful, Reachable, UpTo, Connected, StaysAt, Log;
    ReachableFailed(w, st);
    assert FailedRoom(w, st, r) && StopsShort(w, st, r, c);
  }

  /** By sequence: from the oldest of its window, it lacks the failed one, and what
      was withheld when it joined. */
  lemma FailedStreamIsComplete(w: Hub, st: State, r: Rid, c: Cid)
    requires Lawful(w.ops) && Reachable(w, st) && r in st.rooms && Failing(st.rooms[r].phase)
    requires c in st.rooms[r].members && Connected(st, c)
    ensures st.rooms[r].hist.lastSeq > 0 && c in st.streams
    ensures var s, log, n := st.streams[c], Log(st, st.rooms[r].name), st.rooms[r].hist.lastSeq - 1;
      s.start <= n <= |log| && (s.resp.Some? ==> Complete(w, log, n, s))
  {
    FailedStreamStopsShort(w, st, r, c);
    ReachableFile(w, st, st.rooms[r].name);
    var s, log, n := st.streams[c], Log(st, st.rooms[r].name), st.rooms[r].hist.lastSeq - 1;
    assert LogOK(w.ops, log);
    assert s.start <= n <= |log|;
    hide Lawful, Reachable, FileOK, UpTo, Complete, Log, LogOK, Failing, Connected;
    if s.resp.Some? {
      UpToIsComplete(w, log, n, s);
    }
  }
}
