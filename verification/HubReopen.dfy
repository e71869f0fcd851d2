/** What a record too long for the scanner does to its room. */
module HubReopen {
  import opened Base
  import opened Envelope
  import opened ArchiveSpec
  import opened HistorySpec
  import opened TwoTier
  import opened RoomRules
  import opened Client
  import opened HubModel
  import opened HubControl
  import opened HubSteps
  import opened HubSafety
  import opened HubData
  import opened HubUpkeep
  import opened HubMembers
  import opened HubRuns

  // ---- From a frame to a record that does not fit ----------------------

  /** An image within the payload ceiling, but with a MIME type that alone fills
      a scanner buffer, is accepted, sealed and due for a record that does not fit. */
  lemma FrameBricks(o: Ops, cfg: HubConfig, room: Name, f: Frame, sn: u64, ts: i64)
    requires Lawful(o) && ValidRoomName(room) && f.SendFrame? && f.kind.Image? && CleanNick(f.nick).Some?
    requires f.p != "" && ByteLen(f.p) <= cfg.imageMaxBytes && |f.mime| >= MAX_LINE
    ensures Publish(cfg, room, f).Cast?
    ensures var m := SealDraft(o, Publish(cfg, room, f), sn, ts); m.Some? && !Fits(o, m.value)
  {
    PublishSeals(o, cfg, room, f, sn, ts);
    var m := SealDraft(o, Publish(cfg, room, f), sn, ts).value;
    assert m.header.mime == f.mime && m.header.kind.Image? && Genuine(o, m);
    hide *;
    LongMimeDoesNotFit(o, m);
  }

  /** Such a frame, taken by its room, is what the room writes next. */
  lemma FrameIsWritten(w: Hub, st: State, r: Rid, c: Cid, ts: i64)
    requires Sound(w, st) && r in st.rooms && CanCount(st.rooms[r].hist)
    requires c in st.sessions && st.sessions[c].Submitting?
    requires var f := st.sessions[c].frame;
      && f.SendFrame? && f.kind.Image? && CleanNick(f.nick).Some?
      && f.p != "" && ByteLen(f.p) <= w.cfg.imageMaxBytes && |f.mime| >= MAX_LINE
    ensures r in TakeFrame(w, st, r, c, ts).rooms
    ensures var p := TakeFrame(w, st, r, c, ts).rooms[r].phase; p.Writing? && !Fits(w.ops, p.m)
  {
    hide Sound, Lawful, ValidRoomName, Publish, SealDraft, Fits, CleanNick, ByteLen, TakeFrame, Handle;
    var room, f := st.rooms[r], st.sessions[c].frame;
    SoundNames(w, st, r);
    FrameBricks(w.ops, w.cfg, room.name, f, room.hist.lastSeq + 1, ts);
    TakenRoom(w, st, r, c, ts);
    HandleCast(w, room, File(st, room.name), c, f, ts);
  }

  lemma TakenRoom(w: Hub, st: State, r: Rid, c: Cid, ts: i64)
    requires r in st.rooms && CanCount(st.rooms[r].hist) && c in st.sessions && st.sessions[c].Submitting?
    ensures r in TakeFrame(w, st, r, c, ts).rooms
    ensures TakeFrame(w, st, r, c, ts).rooms[r]
      == Handle(w, st.rooms[r], File(st, st.rooms[r].name), c, st.sessions[c].frame, ts)
  {
    hide Handle;
  }

  lemma SoundNames(w: Hub, st: State, r: Rid)
    requires Sound(w, st) && r in st.rooms
    ensures Lawful(w.ops) && ValidRoomName(st.rooms[r].name)
  {
    hide Lawful, ValidRoomName, Data;
    SoundParts(w, st);
  }

  lemma HandleCast(w: Hub, room: Room, file: Bytes, c: Cid, f: Frame, ts: i64)
    requires CanCount(room.hist) && f.SendFrame? && Publish(w.cfg, room.name, f).Cast?
    requires SealDraft(w.ops, Publish(w.cfg, room.name, f), room.hist.lastSeq + 1, ts).Some?
    ensures Handle(w, room, file, c, f, ts).phase
      == Writing(SealDraft(w.ops, Publish(w.cfg, room.name, f), room.hist.lastSeq + 1, ts).value)
  {
    hide Publish, SealDraft;
  }

  /** Once such a record is written, the room's log does not fit. */
  lemma WriteBricks(w: Hub, st: State, r: Rid)
    requires r in st.rooms && st.rooms[r].phase.Writing? && !Fits(w.ops, st.rooms[r].phase.m)
    ensures var m := st.rooms[r].phase.m;
      !AllFit(w.ops, Log(WriteRecord(w, st, r, |Line(w.ops, m)|, false), st.rooms[r].name))
  {
    var n, m := st.rooms[r].name, st.rooms[r].phase.m;
    WriteShapes(w, st, r, |Line(w.ops, m)|, false);
    hide WriteRecord, Fits, Log, Line;
    assert m in Log(st, n) + [m];
  }

  /** The next open of that room then fails, however often it is tried. */
  lemma NeverReopens(w: Hub, st: State, r: Rid)
    requires Sound(w, st) && r in st.rooms && st.rooms[r].phase.Repaired?
    requires !AllFit(w.ops, Log(st, st.rooms[r].name))
    ensures r in RecoverMemory(w, st, r).rooms && RecoverMemory(w, st, r).rooms[r].phase.Evicting?
  {
    hide Sound, AllFit, RecoverMemory, OpenMemory, OnDisk, FileOf, Data, Repair, Lawful, File, Log;
    AtWorkOwns(w, st, r);
    assert OnDisk(w.ops, File(st, st.rooms[r].name), Log(st, st.rooms[r].name));
    OpenRecovers(w.ops, File(st, st.rooms[r].name), Log(st, st.rooms[r].name));
    RecoverShapes(w, st, r);
  }

  // ---- Logs only grow --------------------------------------------------

  lemma TalkStepLogs(w: Hub, st: State, l: Label)
    requires (l.LDeliver? || l.LFan? || l.LKill?) && RoomGuard(w, st, l)
    ensures RoomStep(w, st, l).logs == st.logs
  {
    var p := st.rooms[l.r].phase;
    if l.LDeliver? && p.frames != [] {
      HandIs(w, st, st.rooms[l.r].name, p.client, p.frames[0], l.drop, p.joining);
    } else if l.LFan? {
      HandIs(w, st, st.rooms[l.r].name, l.c, Signed(p.m), l.drop, true);
    }
    hide Hand, Kill;
  }

  lemma TakeStepLogs(w: Hub, st: State, l: Label)
    requires (l.LTakeJoin? || l.LTakeLeave? || l.LTakeFrame? || l.LFlush?) && RoomGuard(w, st, l)
    ensures RoomStep(w, st, l).logs == st.logs
  {
    hide Handle, Flushed, AtRoom, AfterRoomDone, Since, Answer, CanCount, Send;
  }

  lemma RoomStepLogs(w: Hub, st: State, l: Label)
    requires RoomLabel(l) && RoomGuard(w, st, l) && !l.LWrite?
    ensures RoomStep(w, st, l).logs == st.logs
  {
    if l.LDeliver? || l.LFan? || l.LKill? {
      hide RoomGuard, RoomStep;
      TalkStepLogs(w, st, l);
    } else if l.LTakeJoin? || l.LTakeLeave? || l.LTakeFrame? || l.LFlush? {
      hide RoomGuard, RoomStep;
      TakeStepLogs(w, st, l);
    } else {
      hide Repair, OpenMemory;
    }
  }

  lemma SameLogsGrow(st: State, st': State)
    requires st'.logs == st.logs
    ensures LogsGrow(st, st')
  {
  }

  lemma RoomStepGrowsLogs(w: Hub, st: State, l: Label)
    requires RoomLabel(l) && RoomGuard(w, st, l)
    ensures LogsGrow(st, RoomStep(w, st, l))
  {
    var st' := RoomStep(w, st, l);
    if l.LWrite? {
      WriteIs(w, st, l);
      hide RoomGuard, RoomStep, WriteRecord, Line, Log, LogsGrow, BesidesRoom, Remember;
      WriteShapes(w, st, l.r, l.landed, l.failed);
      assert Log(st, st.rooms[l.r].name) <= Log(st', st.rooms[l.r].name);
      GrewOnly(st, st', st.rooms[l.r].name);
    } else {
      hide RoomGuard, RoomStep, LogsGrow;
      RoomStepLogs(w, st, l);
      SameLogsGrow(st, st');
    }
  }

  lemma SessionStepLogs(w: Hub, st: State, l: Label)
    requires SessionLabel(l) && SessionGuard(st, l)
    ensures SessionStep(w, st, l).logs == st.logs
  {
    hide SessionGuard, SessionAfter, Send;
  }

  lemma HubStepLogs(w: Hub, st: State, l: Label)
    requires !SessionLabel(l) && !RoomLabel(l) && HubGuard(st, l)
    ensures HubStep(w, st, l).logs == st.logs
  {
    hide Elsewhere, AfterCommand, Send, Kill;
  }

  lemma StepGrowsLogs(w: Hub, st: State, l: Label)
    requires Guard(w, st, l)
    ensures LogsGrow(st, Apply(w, st, l))
  {
    hide SessionLabel, RoomLabel, SessionGuard, RoomGuard, HubGuard, SessionStep, RoomStep, HubStep, LogsGrow;
    if SessionLabel(l) {
      SessionStepLogs(w, st, l);
      SameLogsGrow(st, Apply(w, st, l));
    } else if RoomLabel(l) {
      RoomStepGrowsLogs(w, st, l);
    } else {
      HubStepLogs(w, st, l);
      SameLogsGrow(st, Apply(w, st, l));
    }
  }

  lemma WriteIs(w: Hub, st: State, l: Label)
    requires l.LWrite? && RoomGuard(w, st, l)
    ensures l.r in st.rooms && st.rooms[l.r].phase.Writing? && l.landed <= |Line(w.ops, st.rooms[l.r].phase.m)|
    ensures RoomStep(w, st, l) == WriteRecord(w, st, l.r, l.landed, l.failed)
  {
  }

  // ---- Who still serves a room whose log does not fit ------------------

  /** The instance is of that name, and takes or works on requests. */
  predicate InUse(st: State, r: Rid, n: Name) {
    r in st.rooms && st.rooms[r].name == n && InService(st.rooms[r].phase)
  }

  lemma EnterService(w: Hub, st: State, l: Label)
    requires RoomLabel(l) && RoomGuard(w, st, l) && !l.LRecover? && l.r in RoomStep(w, st, l).rooms
    ensures InService(RoomStep(w, st, l).rooms[l.r].phase) ==> InService(st.rooms[l.r].phase)
  {
    if l.LDeliver? || l.LFan? || l.LWrite? || l.LTakeJoin? || l.LTakeLeave? || l.LTakeFrame? || l.LNotify? {
      hide RoomStep, Handle;
    } else if l.LFlush? {
      FlushIs(w, st, l.c, l.drop);
      hide FlushOne, Flushed, AtRoom;
    } else if l.LEvict? {
      EvictedNotInService(st, l.r, l.skip);
      hide EvictByName, InService;
    } else {
      hide Repair, KillClient, Handle, CanCount, Line;
    }
  }

  lemma EvictedNotInService(st: State, r: Rid, skip: bool)
    requires r in st.rooms && st.rooms[r].phase.Evicting?
    ensures !InService(EvictByName(st, r, skip).rooms[r].phase)
  {
  }

  lemma RoomStepInUse(w: Hub, st: State, l: Label, n: Name, r: Rid)
    requires Sound(w, st) && RoomLabel(l) && RoomGuard(w, st, l) && !AllFit(w.ops, Log(st, n))
    requires InUse(RoomStep(w, st, l), r, n)
    ensures InUse(st, r, n)
  {
    hide Sound, AllFit, RoomGuard, RoomStep, InService, Log;
    RoomStepShape(w, st, l);
    NoServiceEvicting();
    if r == l.r {
      if l.LRecover? {
        RecoverIs(w, st, l);
        hide RecoverMemory;
        NeverReopens(w, st, r);
      } else {
        EnterService(w, st, l);
      }
    }
  }

  lemma NoServiceEvicting()
    ensures forall fatal :: !InService(Evicting(fatal))
  {
  }

  lemma RecoverIs(w: Hub, st: State, l: Label)
    requires l.LRecover? && RoomGuard(w, st, l)
    ensures l.r in st.rooms && st.rooms[l.r].phase.Repaired? && RoomStep(w, st, l) == RecoverMemory(w, st, l.r)
  {
  }

  lemma HubStepInUse(w: Hub, st: State, l: Label, n: Name, r: Rid)
    requires !SessionLabel(l) && !RoomLabel(l) && HubGuard(st, l) && !l.LRestart?
    requires TableOK(st) && MembersOK(st) && InUse(HubStep(w, st, l), r, n)
    ensures InUse(st, r, n)
  {
    HubStepAround(w, st, l);
    hide HubStep, HubGuard, TableOK, MembersOK, Connected, Tabled;
  }

  /** No instance comes into use any more. */
  lemma NoneComesIntoUse(w: Hub, st: State, l: Label, n: Name, r: Rid)
    requires Sound(w, st) && Guard(w, st, l) && !AllFit(w.ops, Log(st, n)) && !l.LRestart?
    requires InUse(Apply(w, st, l), r, n)
    ensures InUse(st, r, n)
  {
    assert Control(w, st);
    hide Sound, AllFit, InUse, SessionGuard, RoomGuard, HubGuard, SessionStep, RoomStep, HubStep, Control, Log;
    if SessionLabel(l) {
      SessionStepInUse(w, st, l, n, r);
    } else if RoomLabel(l) {
      RoomStepInUse(w, st, l, n, r);
    } else {
      ControlParts(w, st);
      hide TableOK, MembersOK;
      HubStepInUse(w, st, l, n, r);
    }
  }

  lemma SessionStepInUse(w: Hub, st: State, l: Label, n: Name, r: Rid)
    requires SessionLabel(l) && SessionGuard(st, l) && InUse(SessionStep(w, st, l), r, n)
    ensures InUse(st, r, n)
  {
    hide SessionGuard, SessionAfter, Send, InService;
  }

  lemma GrewAt(st: State, st': State, n: Name)
    requires LogsGrow(st, st')
    ensures Log(st, n) <= Log(st', n)
  {
  }

  lemma StillTooLong(o: Ops, log: seq<Message>, log': seq<Message>)
    requires !AllFit(o, log) && log <= log'
    ensures !AllFit(o, log')
  {
    hide Fits;
    var m :| m in log && !Fits(o, m);
    assert m in log';
  }

  /** In the run, only these instances join, answer, deliver, fan out or write for
      the room of that name, and after a restart nobody does. */
  ghost predicate ServedOnlyBy(w: Hub, st: State, ls: seq<Label>, n: Name, who: set<Rid>)
    requires Run(w, st, ls)
    decreases |ls|
  {
    ls == [] || (
      && (RoomLabel(ls[0]) && Serves(ls[0], ls[0].r) && ls[0].r in st.rooms && st.rooms[ls[0].r].name == n ==>
           ls[0].r in who)
      && ServedOnlyBy(w, Apply(w, st, ls[0]), ls[1..], n, if ls[0].LRestart? then {} else who))
  }

  lemma ServesInUse(w: Hub, st: State, l: Label, n: Name)
    requires Guard(w, st, l) && RoomLabel(l) && Serves(l, l.r) && l.r in st.rooms && st.rooms[l.r].name == n
    ensures InUse(st, l.r, n)
  {
  }

  lemma UseStays(w: Hub, st: State, l: Label, n: Name, who: set<Rid>)
    requires Sound(w, st) && Guard(w, st, l) && !AllFit(w.ops, Log(st, n))
    requires forall r :: InUse(st, r, n) ==> r in who
    ensures forall r :: InUse(Apply(w, st, l), r, n) ==> r in if l.LRestart? then {} else who
  {
    hide Sound, Guard, Apply, AllFit, Log, InService;
    RestartIs(w, st);
    forall r | InUse(Apply(w, st, l), r, n) ensures r in if l.LRestart? then {} else who {
      if !l.LRestart? {
        NoneComesIntoUse(w, st, l, n, r);
      }
    }
  }

  lemma {:induction false} ServedOnlyFrom(w: Hub, st: State, ls: seq<Label>, n: Name, who: set<Rid>)
    requires Sound(w, st) && Run(w, st, ls) && !AllFit(w.ops, Log(st, n))
    requires forall r :: InUse(st, r, n) ==> r in who
    ensures ServedOnlyBy(w, st, ls, n, who)
    decreases |ls|
  {
    hide Sound, Guard, Apply, AllFit, InUse, Serves, Log, LogsGrow;
    if ls != [] {
      var l, st' := ls[0], Apply(w, st, ls[0]);
      var who' := if l.LRestart? then {} else who;
      if RoomLabel(l) && Serves(l, l.r) && l.r in st.rooms && st.rooms[l.r].name == n {
        ServesInUse(w, st, l, n);
      }
      UseStays(w, st, l, n, who);
      StepKeepsSound(w, st, l);
      StepGrowsLogs(w, st, l);
      StillTooLong(w.ops, Log(st, n), Log(st', n)) by {
        GrewAt(st, st', n);
      }
      ServedOnlyFrom(w, st', ls[1..], n, who');
    }
  }

  /** Once a room's log has a record too long for the scanner, only the instances
      already in use serve it: none opened later does, whatever the rest of the
      run brings, and after a restart the room is never served again. */
  lemma OnlyOldInstancesServe(w: Hub, st: State, ls: seq<Label>, n: Name)
    requires Lawful(w.ops) && Reachable(w, st) && Run(w, st, ls) && !AllFit(w.ops, Log(st, n))
    ensures ServedOnlyBy(w, st, ls, n, set r | r in st.rooms && InUse(st, r, n))
  {
    hide Lawful, Reachable, Run, Sound, AllFit, ServedOnlyBy, InService;
    ReachableSound(w, st);
    ServedOnlyFrom(w, st, ls, n, set r | r in st.rooms && InUse(st, r, n));
  }

  /** The open of a room succeeds exactly if every record of its log fits. */
  lemma OpensIffFits(w: Hub, st: State, r: Rid)
    requires Sound(w, st) && r in st.rooms && st.rooms[r].phase.Repaired?
    ensures r in RecoverMemory(w, st, r).rooms
    ensures RecoverMemory(w, st, r).rooms[r].phase.Running? <==> AllFit(w.ops, Log(st, st.rooms[r].name))
  {
    hide Sound, AllFit, RecoverMemory, OpenMemory, OnDisk, FileOf, Data, Repair, Lawful, File, Log;
    AtWorkOwns(w, st, r);
    OpenRecovers(w.ops, File(st, st.rooms[r].name), Log(st, st.rooms[r].name));
    RecoverShapes(w, st, r);
  }
}
