/** Every step keeps what HubData states. */
module HubUpkeep {
  import opened Base
  import opened Envelope
  import opened Lines
  import opened ArchiveSpec
  import opened HistorySpec
  import opened TwoTier
  import opened ClientView
  import opened RoomRules
  import opened Client
  import opened HubModel
  import opened HubControl
  import opened HubSteps
  import opened HubData

  ghost predicate Sound(w: Hub, st: State) { Lawful(w.ops) && Control(w, st) && Data(w, st) }

  /** The room of a session it pins, while live, is in the table. */
  lemma PinnedTabled(st: State, r: Rid, c: Cid)
    requires PinsOK(st) && SessionAt(st, c, r) && r in st.rooms && Live(st.rooms[r].phase)
    ensures Tabled(st, r)
  {
  }

  lemma SoundParts(w: Hub, st: State)
    requires Sound(w, st)
    ensures Lawful(w.ops) && PinsOK(st) && WorkersOK(st) && MembersOK(st) && RepliesOK(st) && NamesOK(st)
    ensures FilesOK(w, st) && MemoryOK(w, st) && DeliveredOK(w, st) && PendingOK(w, st) && StreamsOK(w, st)
    ensures Data(w, st)
  {
    hide Lawful, TableOK, PinsOK, WorkersOK, MembersOK, TableLive, NoneForgotten, RepliesOK, NamesOK, QueuesOK, Counted,
      FilesOK, MemoryOK, DeliveredOK, PendingOK, StreamsOK;
  }

  // ---- Streams of the room that moves ----------------------------------

  lemma SamePlace(w: Hub, log: seq<Message>, p: Phase, p': Phase, c: Cid, s: Stream)
    requires Unbroken(w, log, p, c, s) && !Answering(p, c) && !Answering(p', c)
    requires Handed(p', c, |log|) == Handed(p, c, |log|)
    ensures Unbroken(w, log, p', c, s)
  {
  }

  /** The room neither begins nor ends an answer to a member, nor a fan-out. */
  ghost predicate SamePace(room: Room, room': Room) {
    && room'.members <= room.members && room'.name == room.name
    && (InService(room'.phase) ==> InService(room.phase))
    && (InService(room'.phase) ==> forall c :: c in room'.members ==>
          !Answering(room.phase, c) && !Answering(room'.phase, c)
          && forall n :: Handed(room'.phase, c, n) == Handed(room.phase, c, n))
  }

  lemma PaceKeeps(w: Hub, st: State, st': State, r: Rid)
    requires r in st.rooms && r in st'.rooms && RoomStreams(w, st, r) && SamePace(st.rooms[r], st'.rooms[r])
    requires st'.logs == st.logs && st'.streams == st.streams && ClosedStays(st, st')
    ensures RoomStreams(w, st', r)
  {
  }

  /** A room step that writes, delivers and subscribes nothing. */
  lemma PacedRoomKeeps(w: Hub, st: State, st': State, r: Rid)
    requires Data(w, st) && BesidesRoom(st, st', r) && SameFiles(st, st') && ClosedStays(st, st')
    requires st'.streams == st.streams
    requires r in st.rooms && r in st'.rooms && SamePace(st.rooms[r], st'.rooms[r])
    requires Tabled(st', r) ==> InStep(w.ops, File(st, st.rooms[r].name), Log(st, st.rooms[r].name), st'.rooms[r])
    requires st'.rooms[r].phase.Delivering? ==> AllLogged(w.ops, Log(st, st.rooms[r].name), st'.rooms[r].phase.frames)
    ensures Data(w, st')
  {
    DataOfRoom(w, st, r);
    hide Data, SamePace, BesidesRoom, RoomStreams, InStep, AllLogged, ClosedStays, FileOK, Tabled;
    PaceKeeps(w, st, st', r);
    QuietRoomKeeps(w, st, st', r);
  }

  lemma LeaveData(w: Hub, st: State, r: Rid, c: Cid)
    requires Data(w, st) && RoomGuard(w, st, LTakeLeave(r, c))
    ensures Data(w, TakeLeave(st, r, c))
  {
    var st' := TakeLeave(st, r, c);
    DataOfRoom(w, st, r);
    assert BesidesRoom(st, st', r) && SamePace(st.rooms[r], st'.rooms[r])
      && ClosedStays(st, st') && SameFiles(st, st') by {
      hide Data, RoomData, AfterRoomDone;
    }
    hide Data, SamePace, BesidesRoom, RoomStreams, ClosedStays, FileOK, AfterRoomDone, Agrees;
    PacedRoomKeeps(w, st, st', r);
  }

  /** A running room with a session at it has the log in memory. */
  lemma RunningAgrees(w: Hub, st: State, r: Rid, c: Cid)
    requires Sound(w, st) && SessionAt(st, c, r) && r in st.rooms && st.rooms[r].phase.Running?
    ensures Lawful(w.ops) && ValidRoomName(st.rooms[r].name) && Data(w, st)
    ensures Agrees(w.ops, st.rooms[r].hist, File(st, st.rooms[r].name), Log(st, st.rooms[r].name))
  {
    SoundParts(w, st);
    hide Sound, Agrees, ValidRoomName, Lawful, FilesOK, DeliveredOK, PendingOK, StreamsOK, WorkersOK, MembersOK,
      RepliesOK, SessionAt;
    PinnedTabled(st, r, c);
  }

  lemma FrameShape(w: Hub, st: State, r: Rid, c: Cid, ts: i64)
    requires RoomGuard(w, st, LTakeFrame(r, c, ts))
    ensures var st' := TakeFrame(w, st, r, c, ts);
      && r in st'.rooms && BesidesRoom(st, st', r) && SamePace(st.rooms[r], st'.rooms[r])
      && ClosedStays(st, st') && SameFiles(st, st')
      && st'.streams == st.streams
      && st'.rooms[r] == Handle(w, st.rooms[r], File(st, st.rooms[r].name), c, st.sessions[c].frame, ts)
  {
    HandleShape(w, st.rooms[r], File(st, st.rooms[r].name), c, st.sessions[c].frame, ts);
    hide Handle;
  }

  lemma FrameData(w: Hub, st: State, r: Rid, c: Cid, ts: i64)
    requires Sound(w, st) && RoomGuard(w, st, LTakeFrame(r, c, ts))
    ensures Data(w, TakeFrame(w, st, r, c, ts))
  {
    var st', room := TakeFrame(w, st, r, c, ts), st.rooms[r];
    var file, log := File(st, room.name), Log(st, room.name);
    hide Sound, Data, Agrees, Lawful, ValidRoomName, TakeFrame, Handle, BesidesRoom, SamePace, ClosedStays, SameFiles,
      InStep, AllLogged;
    RunningAgrees(w, st, r, c);
    HandleInStep(w, room, file, log, c, st.sessions[c].frame, ts);
    FrameShape(w, st, r, c, ts);
    PacedRoomKeeps(w, st, st', r);
  }

  lemma NotifyShapes(st: State, r: Rid, skip: bool)
    requires r in st.rooms && st.rooms[r].phase.Fanning? && st.rooms[r].phase.rest == {}
    ensures var st' := NotifyActivity(st, r, skip);
      && r in st'.rooms && BesidesRoom(st, st', r) && SamePace(st.rooms[r], st'.rooms[r]) && ClosedStays(st, st')
      && SameFiles(st, st') && st'.streams == st.streams && st'.rooms[r] == st.rooms[r].(phase := Running)
  {
  }

  lemma NotifyData(w: Hub, st: State, r: Rid, skip: bool)
    requires Data(w, st) && r in st.rooms && st.rooms[r].phase.Fanning? && st.rooms[r].phase.rest == {}
    ensures Data(w, NotifyActivity(st, r, skip))
  {
    hide Data, SamePace, BesidesRoom, RoomStreams, ClosedStays, SameFiles, FileOK, Agrees, NotifyActivity, Tabled;
    DataOfRoom(w, st, r);
    NotifyShapes(st, r, skip);
    NotifyTabled(st, r, skip);
    PacedRoomKeeps(w, st, NotifyActivity(st, r, skip), r);
  }

  lemma NotifyTabled(st: State, r: Rid, skip: bool)
    requires r in st.rooms && st.rooms[r].phase.Fanning?
    ensures Tabled(NotifyActivity(st, r, skip), r) ==> Tabled(st, r)
  {
  }

  /** A step to a phase in which the room serves nobody any more. */
  lemma GivingUpData(w: Hub, st: State, st': State, r: Rid)
    requires Data(w, st) && BesidesRoom(st, st', r) && SameFiles(st, st') && st'.streams == st.streams
    requires ClosedStays(st, st')
    requires r in st'.rooms
    requires var p := st'.rooms[r].phase; p.Evicting? || p.Flushing? || p.Killing? || p.Done?
    ensures Data(w, st')
  {
    assert RoomStreams(w, st', r);
    hide Data, BesidesRoom, RoomStreams, SameFiles, ClosedStays;
    QuietRoomKeeps(w, st, st', r);
  }

  lemma EvictData(w: Hub, st: State, r: Rid, skip: bool)
    requires Data(w, st) && RoomGuard(w, st, LEvict(r, skip))
    ensures Data(w, EvictByName(st, r, skip))
  {
    var st' := EvictByName(st, r, skip);
    assert BesidesRoom(st, st', r) && ClosedStays(st, st') by {
      hide Data;
    }
    hide Data, BesidesRoom, ClosedStays;
    GivingUpData(w, st, st', r);
  }

  lemma OpenFailsData(w: Hub, st: State, r: Rid)
    requires Data(w, st) && RoomGuard(w, st, LOpenFails(r))
    ensures Data(w, OpenFails(st, r))
  {
    var st' := OpenFails(st, r);
    assert BesidesRoom(st, st', r) && ClosedStays(st, st') by {
      hide Data;
    }
    hide Data, BesidesRoom, ClosedStays;
    GivingUpData(w, st, st', r);
  }

  lemma FinishData(w: Hub, st: State, r: Rid)
    requires Data(w, st) && RoomGuard(w, st, LFinish(r))
    ensures Data(w, Finish(st, r))
  {
    var st' := Finish(st, r);
    assert BesidesRoom(st, st', r) && ClosedStays(st, st') by {
      hide Data;
    }
    hide Data, BesidesRoom, ClosedStays;
    GivingUpData(w, st, st', r);
  }

  lemma KillShape(st: State, r: Rid, c: Cid)
    requires r in st.rooms && st.rooms[r].phase.Killing?
    ensures BesidesRoom(st, KillOne(st, r, c), r) && ClosedStays(st, KillOne(st, r, c))
    ensures SameFiles(st, KillOne(st, r, c)) && KillOne(st, r, c).streams == st.streams
    ensures KillOne(st, r, c).rooms[r].phase.Killing?
  {
  }

  lemma KillData(w: Hub, st: State, r: Rid, c: Cid)
    requires Data(w, st) && RoomGuard(w, st, LKill(r, c))
    ensures Data(w, KillOne(st, r, c))
  {
    hide Data, BesidesRoom, ClosedStays, SameFiles, KillOne;
    KillShape(st, r, c);
    GivingUpData(w, st, KillOne(st, r, c), r);
  }

  /** A send never reopens a connection. */
  lemma EnqueueCloses(w: Hub, st: State, c: Cid, out: Out, drop: bool)
    ensures ClosedStays(st, Enqueue(w, st, c, out, drop))
  {
  }

  lemma FlushShape(w: Hub, st: State, r: Rid, c: Cid, drop: bool)
    requires r in st.rooms && c in st.sessions && AtRoom(st.sessions[c]) && !st.sessions[c].AwaitingRoom?
    ensures var st' := FlushOne(w, st, c, drop);
      && r in st'.rooms && BesidesRoom(st, st', r) && ClosedStays(st, st') && SameFiles(st, st')
      && st'.streams == st.streams
      && st'.rooms == st.rooms
  {
    EnqueueCloses(w, st, c, Refusal, drop);
    hide Send, Flushed, AtRoom;
  }

  lemma FlushData(w: Hub, st: State, r: Rid, c: Cid, drop: bool)
    requires Data(w, st) && RoomGuard(w, st, LFlush(r, c, drop))
    ensures Data(w, FlushOne(w, st, c, drop))
  {
    hide Data, BesidesRoom, ClosedStays, SameFiles, FlushOne, AtRoom;
    FlushShape(w, st, r, c, drop);
    GivingUpData(w, st, FlushOne(w, st, c, drop), r);
  }

  // ---- Opening ---------------------------------------------------------

  /** A room at work owns its name: it is in the table, and no other serving
      instance of that name has members. */
  lemma AtWorkOwns(w: Hub, st: State, r: Rid)
    requires Sound(w, st) && r in st.rooms && Active(st.rooms[r].phase)
    ensures Tabled(st, r)
    ensures InStep(w.ops, File(st, st.rooms[r].name), Log(st, st.rooms[r].name), st.rooms[r])
    ensures FileOK(w.ops, File(st, st.rooms[r].name), Log(st, st.rooms[r].name)) && Lawful(w.ops) && Data(w, st)
    ensures forall q :: Tabled(st, q) && st.rooms[q].name == st.rooms[r].name ==> q == r
  {
    SoundParts(w, st);
    EvictsItself(st, r);
    DataOfRoom(w, st, r);
    hide Sound, Lawful, PinsOK, WorkersOK, MembersOK, RepliesOK, NamesOK, FilesOK, MemoryOK, DeliveredOK, PendingOK,
      StreamsOK, InStep, FileOK, RoomStreams, Active;
  }

  lemma OtherMembers(w: Hub, st: State, r: Rid, q: Rid, c: Cid)
    requires Sound(w, st) && r in st.rooms && Active(st.rooms[r].phase)
    requires q in st.rooms && q != r && st.rooms[q].name == st.rooms[r].name && InService(st.rooms[q].phase)
    ensures c !in st.rooms[q].members
  {
    AtWorkOwns(w, st, r);
    SoundParts(w, st);
    assert Live(st.rooms[q].phase);
    hide Sound, Lawful, WorkersOK, RepliesOK, NamesOK, FilesOK, MemoryOK, DeliveredOK, PendingOK, StreamsOK, InStep,
      FileOK, Active, InService, Data;
    if c in st.rooms[q].members {
      assert SessionAt(st, c, q);
      PinnedTabled(st, q, c);
    }
  }

  /** Only the file of name n changes, and it still holds that name's log. */
  lemma FileChanges(w: Hub, st: State, st': State, n: Name)
    requires FilesOK(w, st) && st'.logs == st.logs
    requires forall k: Name :: k != n ==> File(st', k) == File(st, k)
    requires OnDisk(w.ops, File(st', n), Log(st, n))
    ensures FilesOK(w, st')
  {
    hide OnDisk, MarkersOK;
    forall k: Name ensures FileOK(w.ops, File(st', k), Log(st', k)) {
      assert FileOK(w.ops, File(st, k), Log(st, k));
    }
  }

  /** Memories of other names do not depend on what happens to this one's file. */
  lemma OtherMemories(w: Hub, st: State, st': State, r: Rid)
    requires MemoryOK(w, st) && BesidesRoom(st, st', r)
    requires forall q :: Tabled(st, q) && st.rooms[q].name == st.rooms[r].name ==> q == r
    requires forall k: Name :: k != st.rooms[r].name ==> File(st', k) == File(st, k) && Log(st', k) == Log(st, k)
    requires InStep(w.ops, File(st', st.rooms[r].name), Log(st', st.rooms[r].name), st'.rooms[r])
    ensures MemoryOK(w, st')
  {
  }

  lemma RepairedFile(o: Ops, file: Bytes, log: seq<Message>)
    requires Lawful(o) && OnDisk(o, file, log)
    ensures Repair(o, file, REPAIR_ATTEMPTS) == (FileOf(o, log), true) && OnDisk(o, FileOf(o, log), log)
  {
    OpenRecovers(o, file, log);
    assert Torn([]) && FileOf(o, log) + [] == FileOf(o, log);
  }

  lemma RepairShapes(w: Hub, st: State, r: Rid)
    requires r in st.rooms && st.rooms[r].phase.Opening?
    requires Repair(w.ops, File(st, st.rooms[r].name), REPAIR_ATTEMPTS).1
    ensures var st', n := RepairFile(w, st, r), st.rooms[r].name;
      && r in st'.rooms && BesidesRoom(st, st', r) && SamePace(st.rooms[r], st'.rooms[r]) && ClosedStays(st, st')
      && st'.logs == st.logs && st'.delivered == st.delivered && st'.streams == st.streams
      && File(st', n) == Repair(w.ops, File(st, n), REPAIR_ATTEMPTS).0
      && (forall k: Name :: k != n ==> File(st', k) == File(st, k))
      && st'.rooms[r] == st.rooms[r].(phase := Repaired)
  {
  }

  /** Repair succeeds, and leaves the opening room in step with its file. */
  lemma RepairedRoom(o: Ops, file: Bytes, log: seq<Message>, room: Room)
    requires Lawful(o) && FileOK(o, file, log) && room.phase.Opening? && InStep(o, file, log, room)
    ensures var (f, ok) := Repair(o, file, REPAIR_ATTEMPTS);
      ok && OnDisk(o, f, log) && InStep(o, f, log, room.(phase := Repaired))
  {
    hide Lawful, OnDisk, MarkersOK, Repair, FileOf;
    RepairedFile(o, file, log);
  }

  lemma RepairData(w: Hub, st: State, r: Rid)
    requires Sound(w, st) && r in st.rooms && st.rooms[r].phase.Opening?
    ensures Data(w, RepairFile(w, st, r))
  {
    var st', n := RepairFile(w, st, r), st.rooms[r].name;
    hide Sound, Lawful, PinsOK, WorkersOK, MembersOK, RepliesOK, NamesOK, FilesOK, MemoryOK, DeliveredOK, PendingOK,
      StreamsOK, RepairFile, BesidesRoom, SamePace, ClosedStays, InStep, OnDisk, RoomStreams, FileOK, File, Log,
      Repair, AllLogged;
    SoundParts(w, st);
    AtWorkOwns(w, st, r);
    DataOfRoom(w, st, r);
    RepairedRoom(w.ops, File(st, n), Log(st, n), st.rooms[r]);
    RepairShapes(w, st, r);
    assert Log(st', n) == Log(st, n) && forall k: Name :: Log(st', k) == Log(st, k) by {
      SameLogs(st, st');
    }
    FileChanges(w, st, st', n);
    OtherMemories(w, st, st', r);
    DeliveredSame(w, st, st');
    PaceKeeps(w, st, st', r);
    PendingKept(w, st, st', r);
    StreamsKept(w, st, st', r, st.rooms[r].worker);
  }

  lemma SameLogs(st: State, st': State)
    requires st'.logs == st.logs
    ensures forall k: Name :: Log(st', k) == Log(st, k)
  {
  }

  lemma DeliveredSame(w: Hub, st: State, st': State)
    requires DeliveredOK(w, st) && st'.logs == st.logs && st'.delivered == st.delivered
    ensures DeliveredOK(w, st')
  {
  }

  lemma RecoverShapes(w: Hub, st: State, r: Rid)
    requires r in st.rooms && st.rooms[r].phase.Repaired?
    ensures var st' := RecoverMemory(w, st, r);
      && r in st'.rooms && BesidesRoom(st, st', r) && ClosedStays(st, st') && SameFiles(st, st')
      && st'.streams == st.streams
      && st'.rooms[r].members == st.rooms[r].members
      && (if OpenMemory(w.ops, File(st, st.rooms[r].name)).None? then st'.rooms[r].phase.Evicting?
          else st'.rooms[r].phase.Running? && st'.rooms[r].hist == OpenMemory(w.ops, File(st, st.rooms[r].name)).value)
  {
  }

  /** What the room's memory is after the open, if the open succeeds. */
  lemma RecoverInStep(w: Hub, st: State, r: Rid)
    requires Lawful(w.ops) && r in st.rooms && st.rooms[r].phase.Repaired?
    requires FileOK(w.ops, File(st, st.rooms[r].name), Log(st, st.rooms[r].name))
    requires InStep(w.ops, File(st, st.rooms[r].name), Log(st, st.rooms[r].name), st.rooms[r])
    ensures var st' := RecoverMemory(w, st, r);
      InStep(w.ops, File(st, st.rooms[r].name), Log(st, st.rooms[r].name), st'.rooms[r]) && st.rooms[r].members == {}
  {
    OpenRecovers(w.ops, File(st, st.rooms[r].name), Log(st, st.rooms[r].name));
    RecoverShapes(w, st, r);
    hide OnDisk, Agrees, RecoverMemory, OpenMemory, BesidesRoom, ClosedStays, Lawful, MarkersOK, Repair, FileOf,
      AllFit, File, Log;
  }

  lemma NoMembersNoStreams(w: Hub, st: State, r: Rid)
    requires r in st.rooms && st.rooms[r].members == {}
    ensures RoomStreams(w, st, r)
  {
  }

  lemma RecoverData(w: Hub, st: State, r: Rid)
    requires Sound(w, st) && RoomGuard(w, st, LRecover(r))
    ensures Data(w, RecoverMemory(w, st, r))
  {
    var st' := RecoverMemory(w, st, r);
    hide Sound, Data, FileOK, InStep, RoomStreams, OpenMemory, BesidesRoom, ClosedStays, SameFiles, RecoverMemory,
      Lawful, File, Log;
    AtWorkOwns(w, st, r);
    RecoverInStep(w, st, r);
    RecoverShapes(w, st, r);
    NoMembersNoStreams(w, st', r);
    QuietRoomKeeps(w, st, st', r);
  }

  // ---- Writing ---------------------------------------------------------

  /** The log keeps what it had. */
  ghost predicate LogsGrow(st: State, st': State) { forall n: Name :: Log(st, n) <= Log(st', n) }

  lemma DeliveredGrows(w: Hub, st: State, st': State)
    requires DeliveredOK(w, st) && LogsGrow(st, st') && st'.delivered == st.delivered
    ensures DeliveredOK(w, st')
  {
  }

  lemma PendingGrows(w: Hub, st: State, st': State, r: Rid)
    requires PendingOK(w, st) && LogsGrow(st, st') && BesidesRoom(st, st', r) && !st'.rooms[r].phase.Delivering?
    ensures PendingOK(w, st')
  {
  }

  /** Streams of other rooms, when only the log of r's name grows. */
  lemma StreamsGrow(w: Hub, st: State, st': State, r: Rid)
    requires StreamsOK(w, st) && BesidesRoom(st, st', r) && st'.streams == st.streams && st'.queues == st.queues
    requires forall k: Name :: k != st.rooms[r].name ==> Log(st', k) == Log(st, k)
    requires forall q, c ::
      q in st.rooms && q != r && st.rooms[q].name == st.rooms[r].name && InService(st.rooms[q].phase) ==>
      c !in st.rooms[q].members
    requires RoomStreams(w, st', r)
    ensures StreamsOK(w, st')
  {
  }

  /** A file after a write of m that may have stopped anywhere. */
  lemma WrittenFile(o: Ops, h: Hist, file: Bytes, log: seq<Message>, m: Message, landed: nat)
    requires Lawful(o) && h.lastSeq > 0 && Agrees(o, Before(h), file, log) && MarkersOK(o, log)
    requires NextOf(o, log, m) && FreshTarget(o, log, m) && landed <= |Line(o, m)|
    ensures var log' := if landed == |Line(o, m)| then log + [m] else log;
      FileOK(o, file + Line(o, m)[..landed], log')
    ensures landed == |Line(o, m)| ==> Agrees(o, Remember(o, h, m), file + Line(o, m)[..landed], log + [m])
  {
    assert file == FileOf(o, log) && LogOK(o, log);
    assert NextSeq(Before(h)) == h by {
      hide Agrees;
      assert Before(h).lastSeq < U64_MAX;
    }
    hide Lawful, Line, FreshTarget, OnDisk, LogOK, Remember, Before, Targets, ShushTarget;
    PartialWrite(o, log, m, landed);
    if landed == |Line(o, m)| {
      assert Line(o, m)[..landed] == Line(o, m);
      AppendKeeps(o, Before(h), file, log, m);
      FreshMarker(o, log, m);
      hide Agrees, MarkersOK, NextOf;
    }
  }

  lemma FreshMarker(o: Ops, log: seq<Message>, m: Message)
    requires MarkersOK(o, log) && FreshTarget(o, log, m)
    ensures MarkersOK(o, log + [m])
  {
    hide MarkersOK, Targets, ShushTarget;
    MarkersAppend(o, log, m);
  }

  lemma WriteShapes(w: Hub, st: State, r: Rid, landed: nat, failed: bool)
    requires r in st.rooms && st.rooms[r].phase.Writing? && landed <= |Line(w.ops, st.rooms[r].phase.m)|
    ensures var st', n, m := WriteRecord(w, st, r, landed, failed), st.rooms[r].name, st.rooms[r].phase.m;
      && r in st'.rooms && BesidesRoom(st, st', r)
      && st'.delivered == st.delivered && st'.streams == st.streams && st'.queues == st.queues
      && File(st', n) == File(st, n) + Line(w.ops, m)[..landed]
      && Log(st', n) == (if landed == |Line(w.ops, m)| then Log(st, n) + [m] else Log(st, n))
      && (forall k: Name :: k != n ==> File(st', k) == File(st, k) && Log(st', k) == Log(st, k))
      && st'.rooms[r].hist == Remember(w.ops, st.rooms[r].hist, m)
      && st'.rooms[r].phase == (if failed then Evicting(true) else Fanning(m, st.rooms[r].members))
      && st'.rooms[r].members == st.rooms[r].members
  {
    hide Line, Remember;
  }

  /** A written message is due to every member. */
  lemma WrittenStream(w: Hub, log: seq<Message>, m: Message, members: set<Cid>, c: Cid, s: Stream)
    requires Unbroken(w, log, Writing(m), c, s) && c in members
    ensures Unbroken(w, log + [m], Fanning(m, members), c, s)
  {
    hide Answered;
    var log' := log + [m];
    assert log'[..s.start] == log[..s.start];
    assert log'[s.start..|log'| - 1] == log[s.start..|log|];
  }

  lemma WrittenStreams(w: Hub, st: State, st': State, r: Rid)
    requires r in st.rooms && r in st'.rooms && RoomStreams(w, st, r) && st.rooms[r].phase.Writing?
    requires st'.streams == st.streams && st'.queues == st.queues
    requires st'.rooms[r].name == st.rooms[r].name && st'.rooms[r].members == st.rooms[r].members
    requires var p', m, n := st'.rooms[r].phase, st.rooms[r].phase.m, st.rooms[r].name;
      p'.Evicting? || (p' == Fanning(m, st.rooms[r].members) && Log(st', n) == Log(st, n) + [m])
    ensures RoomStreams(w, st', r)
  {
    hide Unbroken, Log;
    var room := st.rooms[r];
    if st'.rooms[r].phase.Fanning? {
      forall c | c in room.members && Connected(st', c)
        ensures c in st'.streams && Unbroken(w, Log(st', room.name), st'.rooms[r].phase, c, st'.streams[c])
      {
        assert Connected(st, c);
        WrittenStream(w, Log(st, room.name), room.phase.m, room.members, c, st.streams[c]);
      }
    }
  }

  lemma WrittenInStep(o: Ops, file: Bytes, log: seq<Message>, room: Room, room': Room, landed: nat, failed: bool)
    requires room.phase.Writing? && room'.members == room.members && landed <= |Line(o, room.phase.m)|
    requires room'.phase == (if failed then Evicting(true) else Fanning(room.phase.m, room.members))
    requires !failed ==> landed == |Line(o, room.phase.m)| && Agrees(o, room'.hist, file, log + [room.phase.m])
    ensures InStep(o, file, if landed == |Line(o, room.phase.m)| then log + [room.phase.m] else log, room')
  {
  }

  lemma FilesGrow(w: Hub, st: State, st': State, n: Name)
    requires FilesOK(w, st)
    requires forall k: Name :: k != n ==> File(st', k) == File(st, k) && Log(st', k) == Log(st, k)
    requires FileOK(w.ops, File(st', n), Log(st', n))
    ensures FilesOK(w, st')
  {
  }

  lemma WritingFacts(w: Hub, st: State, r: Rid)
    requires Sound(w, st) && r in st.rooms && st.rooms[r].phase.Writing?
    ensures var room := st.rooms[r]; var log := Log(st, room.name);
      && room.hist.lastSeq > 0 && Agrees(w.ops, Before(room.hist), File(st, room.name), log) && MarkersOK(w.ops, log)
      && NextOf(w.ops, log, room.phase.m) && FreshTarget(w.ops, log, room.phase.m)
    ensures RoomStreams(w, st, r)
    ensures forall q, c ::
      q in st.rooms && q != r && st.rooms[q].name == st.rooms[r].name && InService(st.rooms[q].phase) ==>
      c !in st.rooms[q].members
  {
    assert Active(st.rooms[r].phase);
    hide Sound, Data, RoomStreams, Agrees, MarkersOK, OnDisk, NextOf, FreshTarget, Before, File, Log, InService,
      Active, Tabled, Lawful;
    AtWorkOwns(w, st, r);
    DataOfRoom(w, st, r);
    forall q, c | q in st.rooms && q != r && st.rooms[q].name == st.rooms[r].name && InService(st.rooms[q].phase)
      ensures c !in st.rooms[q].members
    {
      OtherMembers(w, st, r, q, c);
    }
  }

  lemma WriteData(w: Hub, st: State, r: Rid, landed: nat, failed: bool)
    requires Sound(w, st) && RoomGuard(w, st, LWrite(r, landed, failed))
    ensures Data(w, WriteRecord(w, st, r, landed, failed))
  {
    var st', room := WriteRecord(w, st, r, landed, failed), st.rooms[r];
    var n, m := room.name, room.phase.m;
    hide Sound, Data, Lawful, PinsOK, WorkersOK, MembersOK, RepliesOK, NamesOK, FilesOK, MemoryOK, DeliveredOK,
      PendingOK, StreamsOK, WriteRecord, BesidesRoom, InStep, FileOK, RoomStreams, RoomData, Line, Remember, Agrees,
      NextOf, FreshTarget, MarkersOK, File, Log, Tabled, InService, Before;
    AtWorkOwns(w, st, r);
    SoundParts(w, st);
    WritingFacts(w, st, r);
    WriteShapes(w, st, r, landed, failed);
    assert Log(st, n) <= Log(st', n);
    WrittenFile(w.ops, room.hist, File(st, n), Log(st, n), m, landed);
    WrittenInStep(w.ops, File(st', n), Log(st, n), room, st'.rooms[r], landed, failed);
    FilesGrow(w, st, st', n);
    OtherMemories(w, st, st', r);
    WrittenStreams(w, st, st', r);
    StreamsGrow(w, st, st', r);
    GrewOnly(st, st', n);
    DeliveredGrows(w, st, st');
    PendingGrows(w, st, st', r);
  }

  lemma GrewOnly(st: State, st': State, n: Name)
    requires forall k: Name :: k != n ==> Log(st', k) == Log(st, k)
    requires Log(st, n) <= Log(st', n)
    ensures LogsGrow(st, st')
  {
  }

  // ---- Handing over ----------------------------------------------------

  function Got(s: Stream, live: bool, out: Out): Stream {
    if live && out.Signed? then s.(got := s.got + [out.m]) else s
  }

  /** A connected client's stream moves on by what it was handed. */
  ghost predicate Moves(st: State, st': State, c: Cid, live: bool, out: Out) {
    c in st.streams && Connected(st', c) ==> c in st'.streams && st'.streams[c] == Got(st.streams[c], live, out)
  }

  /** Of the streams, a room's send to c moves at most that client's. */
  lemma HandMoves(w: Hub, st: State, n: Name, c: Cid, out: Out, drop: bool, live: bool)
    ensures var st' := Hand(w, st, n, c, out, drop, live);
      && ClosedStays(st, st')
      && (forall k: Name, m :: (k, m) in st'.delivered ==> (k, m) in st.delivered || (k == n && out == Signed(m)))
      && (forall d :: d != c && d in st.streams ==> d in st'.streams && st'.streams[d] == st.streams[d])
      && (!live || !out.Signed? ==> st'.streams == st.streams)
      && Moves(st, st', c, live, out)
  {
    var st' := Enqueue(w, st, c, out, drop);
    if c in st.queues {
      HandQueue(w, st.queues[c], out, drop);
    }
    hide Send, Accepted;
    EnqueueCloses(w, st, c, out, drop);
  }

  /** A send that does not close the connection was accepted. */
  lemma HandQueue(w: Hub, q: Queue<Out>, out: Out, drop: bool)
    ensures Send(w.cfg.Buffer(), q, out, drop).closed.None? ==> Accepted(w.cfg.Buffer(), q, drop)
  {
  }

  lemma DeliveredAdds(w: Hub, st: State, st': State, n: Name, m: Message)
    requires DeliveredOK(w, st) && st'.logs == st.logs && Logged(w.ops, Log(st, n), m)
    requires forall k: Name, x :: (k, x) in st'.delivered ==> (k, x) in st.delivered || (k == n && x == m)
    ensures DeliveredOK(w, st')
  {
  }

  /** The parts of the invariant, put together after a step of room r that hands
      something to c. */
  lemma HandedOverKeeps(w: Hub, st: State, st': State, r: Rid, c: Cid)
    requires Data(w, st) && BesidesRoom(st, st', r) && ClosedStays(st, st') && st'.disk == st.disk
    requires st'.logs == st.logs
    requires DeliveredOK(w, st')
    requires forall d :: d != c && d in st.streams ==> d in st'.streams && st'.streams[d] == st.streams[d]
    requires st'.streams != st.streams ==>
      forall q :: q in st.rooms && q != r && InService(st.rooms[q].phase) ==> c !in st.rooms[q].members
    requires r in st.rooms && r in st'.rooms
    requires Tabled(st', r) ==> InStep(w.ops, File(st, st.rooms[r].name), Log(st, st.rooms[r].name), st'.rooms[r])
    requires st'.rooms[r].phase.Delivering? ==> AllLogged(w.ops, Log(st, st.rooms[r].name), st'.rooms[r].phase.frames)
    requires RoomStreams(w, st', r)
    ensures Data(w, st')
  {
    hide MemoryOK, DeliveredOK, PendingOK, StreamsOK, RoomStreams, InStep, AllLogged, Tabled, ClosedStays,
      BesidesRoom, InService, FileOK;
    assert FilesOK(w, st') by {
      forall n: Name ensures FileOK(w.ops, File(st', n), Log(st', n)) {
        assert FileOK(w.ops, File(st, n), Log(st, n));
      }
    }
    hide FilesOK, Log, File;
    MemoryKept(w, st, st', r);
    PendingKept(w, st, st', r);
    StreamsKept(w, st, st', r, c);
  }

  /** One frame of an answer: the stream of a joining client moves on with it. */
  lemma FrameDelivered(w: Hub, log: seq<Message>, p: Phase, s: Stream)
    requires p.Delivering? && p.joining && p.frames != [] && Unbroken(w, log, p, p.client, s)
    ensures var s' := if p.frames[0].Signed? then s.(got := s.got + [p.frames[0].m]) else s;
      Unbroken(w, log, Delivering(p.client, p.frames[1..], true), p.client, s')
  {
    hide Answered;
    var s' := if p.frames[0].Signed? then s.(got := s.got + [p.frames[0].m]) else s;
    assert s'.got + SignedOf(p.frames[1..]) == s.got + SignedOf(p.frames);
    AnsweredSame(w, log[..s.start], s, s');
  }

  lemma AnsweredSame(w: Hub, log: seq<Message>, s: Stream, s': Stream)
    requires Answered(w, log, s) && s'.since == s.since && s'.resp == s.resp
    ensures Answered(w, log, s')
  {
  }

  lemma DeliverStreams(w: Hub, st: State, st': State, r: Rid)
    requires r in st.rooms && r in st'.rooms && RoomStreams(w, st, r) && ClosedStays(st, st') && st'.logs == st.logs
    requires st.rooms[r].phase.Delivering? && st.rooms[r].phase.frames != []
    requires var Delivering(c, frames, joining) := st.rooms[r].phase;
      && st'.rooms[r] == st.rooms[r].(phase := Delivering(c, frames[1..], joining))
      && (forall d :: d != c && d in st.streams ==> d in st'.streams && st'.streams[d] == st.streams[d])
      && Moves(st, st', c, joining, frames[0])
    ensures RoomStreams(w, st', r)
  {
    var room, room' := st.rooms[r], st'.rooms[r];
    var log, p := Log(st, room.name), room.phase;
    assert Log(st', room.name) == log;
    hide Unbroken, Log, Connected;
    forall c | c in room.members && Connected(st', c)
      ensures c in st'.streams && Unbroken(w, log, room'.phase, c, st'.streams[c])
    {
      assert Connected(st, c);
      if p.joining && c == p.client {
        FrameDelivered(w, log, p, st.streams[c]);
      } else {
        SamePlace(w, log, p, room'.phase, c, st.streams[c]);
      }
    }
  }

  lemma DeliverShapes(w: Hub, st: State, r: Rid, drop: bool)
    requires r in st.rooms && st.rooms[r].phase.Delivering? && st.rooms[r].phase.frames != []
    ensures var st' := DeliverOne(w, st, r, drop);
      var Delivering(c, frames, joining) := st.rooms[r].phase;
      && r in st'.rooms && BesidesRoom(st, st', r) && ClosedStays(st, st') && st'.disk == st.disk && st'.logs == st.logs
      && st'.rooms[r] == st.rooms[r].(phase := Delivering(c, frames[1..], joining))
      && (forall k: Name, m :: (k, m) in st'.delivered ==>
            (k, m) in st.delivered || (k == st.rooms[r].name && frames[0] == Signed(m)))
      && (forall d :: d != c && d in st.streams ==> d in st'.streams && st'.streams[d] == st.streams[d])
      && (!joining ==> st'.streams == st.streams)
      && Moves(st, st', c, joining, frames[0])
  {
    var Delivering(c, frames, joining) := st.rooms[r].phase;
    HandIs(w, st, st.rooms[r].name, c, frames[0], drop, joining);
    HandMoves(w, st, st.rooms[r].name, c, frames[0], drop, joining);
    hide Hand;
  }

  lemma FrameLogged(w: Hub, st: State, st': State, n: Name, frames: seq<Out>)
    requires DeliveredOK(w, st) && st'.logs == st.logs && frames != [] && AllLogged(w.ops, Log(st, n), frames)
    requires forall k: Name, m :: (k, m) in st'.delivered ==>
      (k, m) in st.delivered || (k == n && frames[0] == Signed(m))
    ensures DeliveredOK(w, st') && AllLogged(w.ops, Log(st, n), frames[1..])
  {
  }

  lemma AnsweringPins(st: State, r: Rid)
    requires RepliesOK(st) && r in st.rooms && st.rooms[r].phase.Delivering? && st.rooms[r].phase.joining
    ensures SessionAt(st, st.rooms[r].phase.client, r)
  {
  }

  lemma DeliverFrameData(w: Hub, st: State, r: Rid, drop: bool)
    requires Sound(w, st) && r in st.rooms && st.rooms[r].phase.Delivering? && st.rooms[r].phase.frames != []
    ensures Data(w, DeliverOne(w, st, r, drop))
  {
    var st' := DeliverOne(w, st, r, drop);
    var Delivering(c, frames, joining) := st.rooms[r].phase;
    hide Sound, Data, FileOK, RoomStreams, Agrees, Lawful, PinsOK, WorkersOK, MembersOK, NamesOK, FilesOK, MemoryOK,
      RepliesOK, DeliveredOK, PendingOK, StreamsOK, BesidesRoom, ClosedStays, DeliverOne, InService, AllLogged,
      Connected, File, Log, Tabled, Moves, SessionAt;
    SoundParts(w, st);
    DataOfRoom(w, st, r);
    AtWorkOwns(w, st, r);
    DeliverShapes(w, st, r, drop);
    FrameLogged(w, st, st', st.rooms[r].name, frames);
    DeliverStreams(w, st, st', r);
    if joining {
      AnsweringPins(st, r);
      OneRoomEach(st, r, c);
    }
    HandedOverKeeps(w, st, st', r, c);
  }

  /** With the last frame gone, a joining client has its whole response. */
  lemma AnswerEnds(w: Hub, log: seq<Message>, p: Phase, c: Cid, s: Stream)
    requires p.Delivering? && p.frames == [] && Unbroken(w, log, p, c, s)
    ensures Unbroken(w, log, Running, c, s)
  {
  }

  lemma AnswerEndsStreams(w: Hub, st: State, st': State, r: Rid)
    requires r in st.rooms && r in st'.rooms && RoomStreams(w, st, r) && st'.logs == st.logs
    requires st'.streams == st.streams && st'.queues == st.queues
    requires st.rooms[r].phase.Delivering? && st.rooms[r].phase.frames == []
    requires st'.rooms[r] == st.rooms[r].(phase := Running)
    ensures RoomStreams(w, st', r)
  {
    var log := Log(st, st.rooms[r].name);
    assert Log(st', st.rooms[r].name) == log;
    hide Unbroken, Log;
    forall c | c in st.rooms[r].members && Connected(st', c)
      ensures c in st'.streams && Unbroken(w, log, Running, c, st'.streams[c])
    {
      assert Connected(st, c);
      AnswerEnds(w, log, st.rooms[r].phase, c, st.streams[c]);
    }
  }

  lemma AnswerEndsShapes(w: Hub, st: State, r: Rid, drop: bool)
    requires r in st.rooms && st.rooms[r].phase.Delivering? && st.rooms[r].phase.frames == []
    ensures var st' := DeliverOne(w, st, r, drop);
      && r in st'.rooms && BesidesRoom(st, st', r) && st'.queues == st.queues && SameFiles(st, st')
      && st'.streams == st.streams
      && st'.rooms[r] == st.rooms[r].(phase := Running) && ClosedStays(st, st')
  {
    var st' := DeliverOne(w, st, r, drop);
    assert st' == SetRoom(st, r, st.rooms[r].(phase := Running)).(sessions := st'.sessions);
    hide DeliverOne;
  }

  lemma AnswerEndsData(w: Hub, st: State, r: Rid, drop: bool)
    requires Sound(w, st) && r in st.rooms && st.rooms[r].phase.Delivering? && st.rooms[r].phase.frames == []
    ensures Data(w, DeliverOne(w, st, r, drop))
  {
    var st' := DeliverOne(w, st, r, drop);
    hide Sound, Data, FileOK, RoomStreams, Agrees, Lawful, BesidesRoom, DeliverOne, InService, File, Log, Tabled,
      ClosedStays, SameFiles, AllLogged;
    AtWorkOwns(w, st, r);
    DataOfRoom(w, st, r);
    AnswerEndsShapes(w, st, r, drop);
    AnswerEndsStreams(w, st, st', r);
    QuietRoomKeeps(w, st, st', r);
  }

  // ---- Fan-out ---------------------------------------------------------

  /** The fan-out reaches one client: it has the newest message now. */
  lemma FannedOne(w: Hub, log: seq<Message>, m: Message, rest: set<Cid>, c: Cid, s: Stream)
    requires c in rest && log != [] && log[|log| - 1] == m && Unbroken(w, log, Fanning(m, rest), c, s)
    ensures Unbroken(w, log, Fanning(m, rest - {c}), c, s.(got := s.got + [m]))
  {
    hide Answered;
    var s' := s.(got := s.got + [m]);
    assert log[s.start..|log|] == log[s.start..|log| - 1] + [m];
    AnsweredSame(w, log[..s.start], s, s');
  }

  lemma FanStreams(w: Hub, st: State, st': State, r: Rid, c: Cid)
    requires r in st.rooms && r in st'.rooms && RoomStreams(w, st, r) && ClosedStays(st, st') && st'.logs == st.logs
    requires st.rooms[r].phase.Fanning? && c in st.rooms[r].phase.rest
    requires var log := Log(st, st.rooms[r].name); log != [] && log[|log| - 1] == st.rooms[r].phase.m
    requires var Fanning(m, rest) := st.rooms[r].phase;
      && st'.rooms[r] == st.rooms[r].(phase := Fanning(m, rest - {c}))
      && (forall d :: d != c && d in st.streams ==> d in st'.streams && st'.streams[d] == st.streams[d])
      && Moves(st, st', c, true, Signed(m))
    ensures RoomStreams(w, st', r)
  {
    var room, room' := st.rooms[r], st'.rooms[r];
    var log, p := Log(st, room.name), room.phase;
    assert Log(st', room.name) == log;
    hide Unbroken, Log, Connected;
    forall d | d in room.members && Connected(st', d)
      ensures d in st'.streams && Unbroken(w, log, room'.phase, d, st'.streams[d])
    {
      assert Connected(st, d);
      if d == c {
        FannedOne(w, log, p.m, p.rest, c, st.streams[c]);
      } else {
        SamePlace(w, log, p, room'.phase, d, st.streams[d]);
      }
    }
  }

  lemma FanShapes(w: Hub, st: State, r: Rid, c: Cid, drop: bool)
    requires r in st.rooms && st.rooms[r].phase.Fanning?
    ensures var st' := FanOne(w, st, r, c, drop);
      var Fanning(m, rest) := st.rooms[r].phase;
      && r in st'.rooms && BesidesRoom(st, st', r) && ClosedStays(st, st') && st'.disk == st.disk && st'.logs == st.logs
      && st'.rooms[r] == st.rooms[r].(phase := Fanning(m, rest - {c}))
      && (forall k: Name, x :: (k, x) in st'.delivered ==> (k, x) in st.delivered || (k == st.rooms[r].name && x == m))
      && (forall d :: d != c && d in st.streams ==> d in st'.streams && st'.streams[d] == st.streams[d])
      && Moves(st, st', c, true, Signed(m))
  {
    HandIs(w, st, st.rooms[r].name, c, Signed(st.rooms[r].phase.m), drop, true);
    HandMoves(w, st, st.rooms[r].name, c, Signed(st.rooms[r].phase.m), drop, true);
    hide Hand;
  }

  lemma NewestLogged(o: Ops, log: seq<Message>)
    requires LogOK(o, log) && log != []
    ensures Logged(o, log, log[|log| - 1])
  {
  }

  /** While fanning out, memory, file and log agree, and the message is the newest. */
  lemma FanningFacts(w: Hub, st: State, r: Rid)
    requires Sound(w, st) && r in st.rooms && st.rooms[r].phase.Fanning?
    ensures var room := st.rooms[r]; var log := Log(st, room.name);
      && Agrees(w.ops, room.hist, File(st, room.name), log) && LogOK(w.ops, log)
      && log != [] && log[|log| - 1] == room.phase.m && room.phase.rest <= room.members
    ensures forall c :: c in st.rooms[r].members ==> SessionAt(st, c, r)
  {
    SoundParts(w, st);
    hide Sound, Data, Lawful, MarkersOK, PinsOK, WorkersOK, NamesOK, FilesOK, MemoryOK, RepliesOK, DeliveredOK,
      PendingOK, StreamsOK, FileOK, FileOf, Targets, LogOK;
    AtWorkOwns(w, st, r);
  }

  /** The room's own part of the invariant after one client was reached. */
  lemma FannedRoom(w: Hub, st: State, st': State, r: Rid, c: Cid)
    requires Sound(w, st) && r in st.rooms && r in st'.rooms && st.rooms[r].phase.Fanning?
    requires c in st.rooms[r].phase.rest
    requires ClosedStays(st, st') && st'.logs == st.logs
    requires st'.rooms[r] == st.rooms[r].(phase := Fanning(st.rooms[r].phase.m, st.rooms[r].phase.rest - {c}))
    requires forall d :: d != c && d in st.streams ==> d in st'.streams && st'.streams[d] == st.streams[d]
    requires Moves(st, st', c, true, Signed(st.rooms[r].phase.m))
    ensures InStep(w.ops, File(st, st.rooms[r].name), Log(st, st.rooms[r].name), st'.rooms[r])
    ensures RoomStreams(w, st', r)
    ensures Logged(w.ops, Log(st, st.rooms[r].name), st.rooms[r].phase.m)
    ensures forall q :: q in st.rooms && q != r && InService(st.rooms[q].phase) ==> c !in st.rooms[q].members
    ensures Data(w, st) && DeliveredOK(w, st)
  {
    hide Sound, Data, FileOK, RoomStreams, Agrees, Lawful, PinsOK, WorkersOK, NamesOK, FilesOK, MemoryOK, RepliesOK,
      MembersOK, DeliveredOK, PendingOK, StreamsOK, ClosedStays, InService, Connected, File, Log, Tabled, LogOK,
      Moves, SessionAt, Logged;
    SoundParts(w, st);
    FanningFacts(w, st, r);
    NewestLogged(w.ops, Log(st, st.rooms[r].name));
    OneRoomEach(st, r, c);
    DataOfRoom(w, st, r);
    FanStreams(w, st, st', r, c);
  }

  lemma FanData(w: Hub, st: State, r: Rid, c: Cid, drop: bool)
    requires Sound(w, st) && r in st.rooms && st.rooms[r].phase.Fanning? && c in st.rooms[r].phase.rest
    ensures Data(w, FanOne(w, st, r, c, drop))
  {
    var st' := FanOne(w, st, r, c, drop);
    hide Sound, Data, RoomStreams, InStep, AllLogged, DeliveredOK, BesidesRoom, ClosedStays, FanOne, InService,
      Connected, File, Log, Tabled, Moves, Logged;
    FanShapes(w, st, r, c, drop);
    FannedRoom(w, st, st', r, c);
    DeliveredAdds(w, st, st', st.rooms[r].name, st.rooms[r].phase.m);
    HandedOverKeeps(w, st, st', r, c);
  }

  // ---- Joining ---------------------------------------------------------

  lemma JoinShapes(w: Hub, st: State, r: Rid, c: Cid)
    requires r in st.rooms && st.rooms[r].phase.Running? && CanCount(st.rooms[r].hist)
    requires SessionAt(st, c, r) && st.sessions[c].RoomJoining?
    ensures var st', room, since := TakeJoin(w, st, r, c), st.rooms[r], st.sessions[c].since;
      var resp := Since(w.ops, w.cfg.store, room.hist, File(st, room.name), since);
      && r in st'.rooms && BesidesRoom(st, st', r) && st'.queues == st.queues && SameFiles(st, st')
      && st'.rooms[r] == room.(members := room.members + {c}, worker := c,
           phase := Delivering(c, [Joined(room.name, room.hist.lastSeq)] + Answer(room.name, resp), true))
      && st'.streams == st.streams[c := Stream(since, room.hist.lastSeq, resp, [])]
  {
  }

  /** A fresh subscription: nothing handed yet, the whole answer to come. */
  lemma JoinedStream(w: Hub, log: seq<Message>, h: Hist, file: Bytes, n: Name, c: Cid, since: u64)
    requires Agrees(w.ops, h, file, log)
    ensures h.lastSeq < U64_MAX
    ensures var resp := Since(w.ops, w.cfg.store, h, file, since);
      var p := Delivering(c, [Joined(n, h.lastSeq)] + Answer(n, resp), true);
      Unbroken(w, log, p, c, Stream(since, h.lastSeq, resp, []))
  {
    assert h.lastSeq == |log| < U64_MAX;
    hide Agrees, Since, Answer;
    var resp := Since(w.ops, w.cfg.store, h, file, since);
    var s := Stream(since, h.lastSeq, resp, []);
    AnswerSigned(n, resp);
    var frames := [Joined(n, h.lastSeq)] + Answer(n, resp);
    assert frames[1..] == Answer(n, resp);
    assert s.got + SignedOf(frames) == Msgs(resp);
    assert log[..s.start] == log;
    assert Answered(w, log, s);
  }

  lemma JoinStreams(w: Hub, st: State, st': State, r: Rid, c: Cid, s: Stream)
    requires r in st.rooms && r in st'.rooms && RoomStreams(w, st, r) && st'.queues == st.queues && st'.logs == st.logs
    requires st.rooms[r].phase.Running? && st'.streams == st.streams[c := s]
    requires var p' := st'.rooms[r].phase;
      p'.Delivering? && p'.client == c && Unbroken(w, Log(st, st.rooms[r].name), p', c, s)
    requires st'.rooms[r].name == st.rooms[r].name && st'.rooms[r].members == st.rooms[r].members + {c}
    ensures RoomStreams(w, st', r)
  {
    var room' := st'.rooms[r];
    var log := Log(st, st.rooms[r].name);
    assert Log(st', room'.name) == log;
    hide Unbroken, Log;
    forall d | d in room'.members && Connected(st', d)
      ensures d in st'.streams && Unbroken(w, log, room'.phase, d, st'.streams[d])
    {
      if d != c {
        assert Connected(st, d);
        SamePlace(w, log, Running, room'.phase, d, st.streams[d]);
      }
    }
  }

  lemma JoinData(w: Hub, st: State, r: Rid, c: Cid)
    requires Sound(w, st)
    requires r in st.rooms && st.rooms[r].phase.Running? && CanCount(st.rooms[r].hist)
    requires SessionAt(st, c, r) && st.sessions[c].RoomJoining?
    ensures Data(w, TakeJoin(w, st, r, c))
  {
    var st', room, since := TakeJoin(w, st, r, c), st.rooms[r], st.sessions[c].since;
    var n, file, log := room.name, File(st, room.name), Log(st, room.name);
    var resp := Since(w.ops, w.cfg.store, room.hist, file, since);
    hide Sound, Data, FileOK, RoomStreams, Agrees, Lawful, PinsOK, WorkersOK, MembersOK, NamesOK, FilesOK, MemoryOK,
      RepliesOK, DeliveredOK, PendingOK, StreamsOK, BesidesRoom, TakeJoin, InService, File, Log, Tabled,
      ValidRoomName, Since, Answer, AllLogged, Unbroken, SessionAt;
    SoundParts(w, st);
    DataOfRoom(w, st, r);
    RunningAgrees(w, st, r, c);
    JoinShapes(w, st, r, c);
    SinceLogged(w, room.hist, file, log, since);
    AnswerLogged(w.ops, log, n, resp);
    JoinFrames(w.ops, log, Joined(n, room.hist.lastSeq), Answer(n, resp));
    JoinedStream(w, log, room.hist, file, n, c, since);
    JoinStreams(w, st, st', r, c, Stream(since, room.hist.lastSeq, resp, []));
    OneRoomEach(st, r, c);
    DeliveredSame(w, st, st');
    assert ClosedStays(st, st');
    hide ClosedStays;
    HandedOverKeeps(w, st, st', r, c);
  }

  lemma JoinFrames(o: Ops, log: seq<Message>, out: Out, frames: seq<Out>)
    requires AllLogged(o, log, frames) && !out.Signed?
    ensures AllLogged(o, log, [out] + frames)
  {
  }

  /** The room steps that hand something over or touch the archive. */
  lemma BusyStepData(w: Hub, st: State, l: Label)
    requires Sound(w, st) && RoomLabel(l) && RoomGuard(w, st, l)
    requires l.LTakeJoin? || l.LTakeFrame? || l.LDeliver? || l.LRepair? || l.LRecover? || l.LWrite? || l.LFan?
    ensures Data(w, RoomStep(w, st, l))
  {
    hide Sound, Data, TakeJoin, TakeFrame, DeliverOne, RepairFile, RecoverMemory, WriteRecord, FanOne, SessionAt,
      CanCount, Line;
    match l {
      case LTakeJoin(r, c) => JoinData(w, st, r, c);
      case LTakeFrame(r, c, ts) => FrameData(w, st, r, c, ts);
      case LDeliver(r, drop) => AnswerData(w, st, r, drop);
      case LRepair(r) => RepairData(w, st, r);
      case LRecover(r) => RecoverData(w, st, r);
      case LWrite(r, landed, failed) => WriteData(w, st, r, landed, failed);
      case LFan(r, c, drop) => FanData(w, st, r, c, drop);
    }
  }

  lemma OtherStepData(w: Hub, st: State, l: Label)
    requires Data(w, st) && RoomLabel(l) && RoomGuard(w, st, l)
    requires !(l.LTakeJoin? || l.LTakeFrame? || l.LDeliver? || l.LRepair? || l.LRecover? || l.LWrite? || l.LFan?)
    ensures Data(w, RoomStep(w, st, l))
  {
    hide Data, TakeLeave, FlushOne, Finish, NotifyActivity, KillOne, EvictByName, OpenFails;
    match l {
      case LTakeLeave(r, c) => LeaveData(w, st, r, c);
      case LOpenFails(r) => OpenFailsData(w, st, r);
      case LNotify(r, skip) => NotifyData(w, st, r, skip);
      case LKill(r, c) => KillData(w, st, r, c);
      case LEvict(r, skip) => EvictData(w, st, r, skip);
      case LFlush(r, c, drop) => FlushData(w, st, r, c, drop);
      case LFinish(r) => FinishData(w, st, r);
    }
  }

  lemma AnswerData(w: Hub, st: State, r: Rid, drop: bool)
    requires Sound(w, st) && r in st.rooms && st.rooms[r].phase.Delivering?
    ensures Data(w, DeliverOne(w, st, r, drop))
  {
    hide Sound, Data, DeliverOne;
    if st.rooms[r].phase.frames == [] {
      AnswerEndsData(w, st, r, drop);
    } else {
      DeliverFrameData(w, st, r, drop);
    }
  }

  // ---- Steps around the rooms ------------------------------------------

  /** Rooms are as they were, told to stop at most, or new and opening; files,
      logs, deliveries and streams too; no member is connected anew. */
  ghost predicate Around(st: State, st': State) {
    && SameFiles(st, st') && st'.streams == st.streams
    && (forall r :: r in st'.rooms ==>
          if r in st.rooms then st'.rooms[r] == st.rooms[r].(stop := st'.rooms[r].stop)
          else st'.rooms[r].phase.Opening? && st'.rooms[r].members == {})
    && (forall r :: Tabled(st', r) && r in st.rooms ==> Tabled(st, r))
    && (forall r, c ::
          r in st.rooms && InService(st.rooms[r].phase) && c in st.rooms[r].members && Connected(st', c) ==>
            Connected(st, c))
  }

  lemma AroundMemory(w: Hub, st: State, st': State)
    requires MemoryOK(w, st) && Around(st, st')
    ensures MemoryOK(w, st')
  {
  }

  lemma AroundStreams(w: Hub, st: State, st': State)
    requires StreamsOK(w, st) && PendingOK(w, st) && Around(st, st')
    ensures StreamsOK(w, st') && PendingOK(w, st')
  {
    hide Unbroken, Tabled, Connected, AllLogged;
    forall r | r in st'.rooms ensures RoomStreams(w, st', r) {
      if r in st.rooms {
        assert RoomStreams(w, st, r);
      }
    }
  }

  lemma AroundKeeps(w: Hub, st: State, st': State)
    requires Data(w, st) && Around(st, st')
    ensures Data(w, st')
  {
    assert SameFiles(st, st') by {
      hide Data;
    }
    hide FilesOK, MemoryOK, DeliveredOK, PendingOK, StreamsOK, Around;
    FilesKept(w, st, st');
    AroundMemory(w, st, st');
    AroundStreams(w, st, st');
  }

  /** Steps that leave the rooms and the table alone and reopen no connection. */
  lemma AsideAround(st: State, st': State)
    requires st'.rooms == st.rooms && st'.reg.table == st.reg.table && SameFiles(st, st') && st'.streams == st.streams
    requires ClosedStays(st, st')
    ensures Around(st, st')
  {
  }

  lemma SessionAround(st: State, mid: State, c: Cid, s: Session)
    requires mid == st.(queues := mid.queues) && ClosedStays(st, mid)
    ensures Around(st, SetSession(mid, c, s))
  {
  }

  lemma SessionStepAround(w: Hub, st: State, l: Label)
    requires SessionLabel(l) && SessionGuard(st, l)
    ensures Around(st, SessionStep(w, st, l))
  {
    var mid := if l.LRefuse? then Enqueue(w, st, l.c, Refusal, l.drop) else st;
    assert mid == st.(queues := mid.queues) && ClosedStays(st, mid) by {
      if l.LRefuse? {
        EnqueueCloses(w, st, l.c, Refusal, l.drop);
      }
      hide Send, ClosedStays;
      assert ClosedStays(st, st) by {
        ClosedRefl(st);
      }
    }
    hide SessionGuard, SessionAfter, Enqueue, Around, SetSession, ClosedStays;
    SessionAround(st, mid, l.c, SessionAfter(st, l));
  }

  lemma ClosedRefl(st: State)
    ensures ClosedStays(st, st)
  {
  }

  /** A new connection's client was a member of nothing. */
  lemma ConnectAround(st: State, c: Cid)
    requires MembersOK(st) && c !in st.sessions
    ensures Around(st, Connect(st, c))
  {
  }

  lemma CreatedAround(st: State, c: Cid, id: Rid)
    requires c in st.sessions && st.sessions[c].RegJoining? && id !in st.rooms && TableOK(st)
    ensures Around(st, JoinCreated(st, c, st.sessions[c], id))
  {
  }

  lemma CommandAround(st: State, c: Cid, id: Rid)
    requires c in st.sessions && AtRegistry(st.sessions[c]) && id !in st.rooms && TableOK(st)
    ensures Around(st, Command(st, c, id))
  {
    if st.reg.mode.Receiving? && st.sessions[c].RegJoining? && st.sessions[c].name !in st.reg.table {
      hide JoinCreated, Around, TableOK;
      CreatedAround(st, c, id);
    } else {
      hide AfterCommand, InService, TableOK, JoinCreated;
    }
  }

  lemma PingAround(w: Hub, st: State, c: Cid, drop: bool)
    requires st.reg.mode.Pinging?
    ensures Around(st, Ping(w, st, c, drop))
  {
    EnqueueCloses(w, st, c, Activity(st.reg.mode.note), drop);
    hide Send, Pinged, Around;
    AsideAround(st, Ping(w, st, c, drop));
  }

  lemma SweepAround(st: State, n: Name)
    requires n in st.reg.table && st.reg.table[n] in st.rooms
    ensures Around(st, SweepOne(st, n))
  {
  }

  lemma ShutdownAround(st: State)
    ensures Around(st, Shutdown(st))
  {
  }

  lemma HubStepAround(w: Hub, st: State, l: Label)
    requires TableOK(st) && MembersOK(st) && !SessionLabel(l) && !RoomLabel(l) && HubGuard(st, l) && !l.LRestart?
    ensures Around(st, HubStep(w, st, l))
  {
    if l.LConnect? {
      hide Connect, Around, TableOK;
      ConnectAround(st, l.c);
    } else if l.LCommand? {
      hide Command, Around, MembersOK;
      CommandAround(st, l.c, l.id);
    } else if l.LPing? {
      hide Ping, Around;
      PingAround(w, st, l.c, l.drop);
    } else if l.LShutdown? {
      hide Shutdown, Around;
      ShutdownAround(st);
    } else if l.LSweep? {
      hide SweepOne, Around, Occupied;
      SweepAround(st, l.n);
    } else {
      hide Elsewhere, MembersOK, TableOK, Around;
      AsideAround(st, HubStep(w, st, l));
    }
  }

  lemma RestartData(w: Hub, st: State)
    requires Data(w, st)
    ensures Data(w, Restart(st))
  {
    var st' := Restart(st);
    hide FilesOK, DeliveredOK, InStep, RoomStreams, AllLogged;
    FilesKept(w, st, st');
  }

  /** Files, memories, deliveries and streams stay sound over every step. */
  lemma StepKeepsSound(w: Hub, st: State, l: Label)
    requires Sound(w, st) && Guard(w, st, l)
    ensures Sound(w, Apply(w, st, l))
  {
    var st' := Apply(w, st, l);
    assert Control(w, st) && Data(w, st) && Lawful(w.ops);
    assert TableOK(st) && MembersOK(st) by {
      hide Data;
    }
    hide Control, Data, Lawful, TableOK, MembersOK, SessionGuard, RoomGuard, HubGuard, SessionStep, RoomStep, HubStep,
      SessionLabel, RoomLabel, Around;
    StepKeepsControl(w, st, l);
    if SessionLabel(l) {
      SessionStepAround(w, st, l);
      AroundKeeps(w, st, st');
    } else if RoomLabel(l) {
      RoomKeepsData(w, st, l);
    } else if l.LRestart? {
      RestartIs(w, st);
      RestartData(w, st);
    } else {
      HubStepAround(w, st, l);
      AroundKeeps(w, st, st');
    }
  }

  lemma RestartIs(w: Hub, st: State)
    ensures Guard(w, st, LRestart) && Apply(w, st, LRestart) == Restart(st)
  {
  }

  lemma RoomKeepsData(w: Hub, st: State, l: Label)
    requires Sound(w, st) && RoomLabel(l) && RoomGuard(w, st, l)
    ensures Data(w, RoomStep(w, st, l))
  {
    assert Data(w, st);
    hide Sound, Data, RoomGuard, RoomStep, RoomLabel;
    if l.LTakeJoin? || l.LTakeFrame? || l.LDeliver? || l.LRepair? || l.LRecover? || l.LWrite? || l.LFan? {
      BusyStepData(w, st, l);
    } else {
      OtherStepData(w, st, l);
    }
  }

  lemma InitSound(w: Hub)
    requires Lawful(w.ops)
    ensures Sound(w, Init())
  {
    InitControl(w);
    hide Control;
    var st := Init();
    forall n: Name ensures FileOK(w.ops, File(st, n), Log(st, n)) {
      assert FileOf(w.ops, []) == [];
      assert Torn([]) && FileOf(w.ops, []) + [] == File(st, n);
    }
  }

  lemma {:induction false} RunKeepsSound(w: Hub, st: State, ls: seq<Label>)
    requires Sound(w, st) && Run(w, st, ls)
    ensures Sound(w, Outcome(w, st, ls))
    decreases |ls|
  {
    hide Sound, Guard, Apply;
    if ls != [] {
      StepKeepsSound(w, st, ls[0]);
      RunKeepsSound(w, Apply(w, st, ls[0]), ls[1..]);
    }
  }
}
