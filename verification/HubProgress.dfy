/** The hub never blocks itself: something can always go on, and what the hub
    does on its own comes to an end. */
module HubProgress {
  import opened Base
  import opened ArchiveSpec
  import opened HistorySpec
  import opened Client
  import opened HubModel
  import opened HubControl
  import opened HubSteps
  import opened HubSafety

  /** A step some goroutine takes of itself, including one in which the file
      system fails it, as opposed to a frame from a client, a timer, a
      cancellation or a crash. */
  predicate Internal(l: Label) {
    || l.LRegistryDone? || l.LTakeRoom? || l.LTakeVerdict? || l.LRoomDone? || l.LRefuse?
    || RoomLabel(l)
    || l.LCommand? || l.LTakeNote? || l.LPing? || l.LDiscardNote? || l.LAllDone?
  }

  /** The file system fails an open or a write. */
  predicate Fault(l: Label) { l.LOpenFails? || (l.LWrite? && l.failed) }

  /** An internal step that needs no fault. */
  predicate Proceeds(l: Label) { Internal(l) && !Fault(l) }

  /** No goroutine is at a channel operation it could be waiting at for another,
      other than waiting for work. */
  ghost predicate Quiet(st: State) {
    && (forall c :: c in st.sessions ==> st.sessions[c].Idle? || st.sessions[c].Gone?)
    && (forall r :: r in st.rooms ==> st.rooms[r].phase.Done? || (st.rooms[r].phase.Running? && !st.rooms[r].stop))
    && ((st.reg.mode.Receiving? && st.reg.notes == []) || st.reg.mode.Stopped?)
  }

  /** Some room has no sequence number left. */
  ghost predicate Exhausted(st: State) { exists r :: r in st.rooms && !CanCount(st.rooms[r].hist) }

  // ---- Something can go on ---------------------------------------------

  ghost function Above(ids: set<Rid>): (top: Rid)
    ensures forall id :: id in ids ==> id < top
  {
    if ids == {} then 0 else
    var id :| id in ids;
    var top := Above(ids - {id});
    assert forall x :: x in ids ==> x == id || x in ids - {id};
    if id < top then top else id + 1
  }

  ghost function FreshId(rooms: map<Rid, Room>): (id: Rid)
    ensures id !in rooms
  {
    Above(rooms.Keys)
  }

  /** The registry waits for nobody: busy with pings, it sends the next one. */
  lemma PingMoves(w: Hub, st: State) returns (l: Label)
    requires Counted(st) && st.reg.mode.Pinging?
    ensures Proceeds(l) && Guard(w, st, l)
  {
    var c :| c in st.reg.mode.rest;
    l := LPing(c, false);
  }

  /** A room waits for the registry at most, and only while the registry is busy
      or its buffer full; then the registry can go on. */
  lemma RoomMoves(w: Hub, st: State, r: Rid) returns (l: Label)
    requires Counted(st) && r in st.rooms && !st.rooms[r].phase.Done? && !st.rooms[r].phase.Running?
    ensures Proceeds(l) && Guard(w, st, l)
  {
    hide Line, Unfinished;
    match st.rooms[r].phase {
      case Opening => l := LRepair(r);
      case Repaired => l := LRecover(r);
      case Delivering(_, _, _) => l := LDeliver(r, false);
      case Writing(m) => l := LWrite(r, |Line(w.ops, m)|, false);
      case Flushing => l := LFinish(r);
      case Killing(rest) =>
        if rest == {} {
          l := LFinish(r);
        } else {
          var c :| c in rest;
          l := LKill(r, c);
        }
      case Fanning(_, rest) =>
        if rest != {} {
          var c :| c in rest;
          l := LFan(r, c, false);
        } else if Stopping(st.reg) {
          l := LNotify(r, true);
        } else if |st.reg.notes| < NOTE_BUFFER {
          l := LNotify(r, false);
        } else if st.reg.mode.Pinging? {
          l := PingMoves(w, st);
        } else {
          l := LTakeNote;
        }
      case Evicting(_) =>
        if Stopping(st.reg) {
          l := LEvict(r, true);
        } else if st.reg.mode.Pinging? {
          l := PingMoves(w, st);
        } else {
          l := LEvict(r, false);
        }
    }
  }

  /** A running room takes what a session offers it. */
  lemma RunningTakes(w: Hub, st: State, c: Cid) returns (l: Label)
    requires c in st.sessions && AtRoom(st.sessions[c]) && st.sessions[c].rid in st.rooms
    requires st.rooms[st.sessions[c].rid].phase.Running? && CanCount(st.rooms[st.sessions[c].rid].hist)
    requires st.sessions[c].AwaitingRoom? ==> st.sessions[c].verdict.Some?
    ensures Proceeds(l) && Guard(w, st, l)
  {
    var s := st.sessions[c];
    match s {
      case Leaving(r, _, _) => l := LTakeLeave(r, c);
      case Closing(r) => l := LTakeLeave(r, c);
      case RoomJoining(r, _, _, _) => l := LTakeJoin(r, c);
      case Submitting(r, _) => l := LTakeFrame(r, c, 0);
      case AwaitingRoom(_, _, _, _, _) => l := LTakeVerdict(c);
    }
  }

  lemma AtRoomFacts(st: State, c: Cid)
    requires PinsOK(st) && RepliesOK(st) && c in st.sessions && AtRoom(st.sessions[c])
    ensures var s := st.sessions[c];
      && s.rid in st.rooms
      && (s.AwaitingRoom? && st.rooms[s.rid].phase.Running? ==> s.verdict.Some?)
  {
  }

  lemma StoppedWhenStopping(st: State, r: Rid)
    requires NoneForgotten(st) && Stopping(st.reg) && r in st.rooms && st.rooms[r].phase.Running?
    ensures st.rooms[r].stop
  {
  }

  /** A session's room can take what the session offers, or can go on itself. */
  lemma AtRoomMoves(w: Hub, st: State, c: Cid) returns (l: Label)
    requires Counted(st) && RepliesOK(st) && PinsOK(st) && NoneForgotten(st)
    requires c in st.sessions && AtRoom(st.sessions[c]) && (Exhausted(st) ==> Stopping(st.reg))
    ensures Proceeds(l) && Guard(w, st, l)
  {
    AtRoomFacts(st, c);
    var r := st.sessions[c].rid;
    var room := st.rooms[r];
    hide PinsOK, RepliesOK, NoneForgotten, Counted, CanCount, Line, SessionAt;
    if room.phase.Done? {
      l := LRoomDone(c);
    } else if !room.phase.Running? {
      l := RoomMoves(w, st, r);
    } else if Stopping(st.reg) {
      StoppedWhenStopping(st, r);
      l := LFinish(r);
    } else {
      assert CanCount(room.hist);
      l := RunningTakes(w, st, c);
    }
  }

  /** Winding down: an unfinished room can go on, or the last has returned. */
  lemma WindingMoves(w: Hub, st: State) returns (l: Label)
    requires Counted(st) && NoneForgotten(st) && st.reg.mode.Winding?
    ensures Proceeds(l) && Guard(w, st, l)
  {
    if st.reg.waiting == 0 {
      l := LAllDone;
    } else {
      var r :| r in Unfinished(st.rooms);
      hide Unfinished, Tabled;
      if st.rooms[r].phase.Running? {
        assert Live(st.rooms[r].phase);
        l := LFinish(r);
      } else {
        l := RoomMoves(w, st, r);
      }
    }
  }

  lemma AtRegistryMoves(w: Hub, st: State, c: Cid) returns (l: Label)
    requires Counted(st) && c in st.sessions && AtRegistry(st.sessions[c])
    ensures Proceeds(l) && Guard(w, st, l)
  {
    hide Unfinished;
    if st.reg.mode.Pinging? {
      l := PingMoves(w, st);
    } else if st.reg.mode.Stopped? {
      l := LRegistryDone(c);
    } else {
      l := LCommand(c, FreshId(st.rooms));
    }
  }

  lemma SessionMoves(w: Hub, st: State, c: Cid) returns (l: Label)
    requires Control(w, st) && c in st.sessions && !st.sessions[c].Idle? && !st.sessions[c].Gone?
    requires Exhausted(st) ==> Stopping(st.reg)
    ensures Proceeds(l) && Guard(w, st, l)
  {
    hide TableOK, WorkersOK, MembersOK, TableLive, NamesOK, QueuesOK, PinsOK, NoneForgotten, Counted, Exhausted;
    var s := st.sessions[c];
    if AtRoom(s) {
      l := AtRoomMoves(w, st, c);
    } else if AtRegistry(s) {
      l := AtRegistryMoves(w, st, c);
    } else if s.Refusing? {
      l := LRefuse(c, false);
    } else if s.handed.Some? {
      l := LTakeRoom(c);
    } else if st.reg.mode.Stopped? {
      l := LRegistryDone(c);
    } else {
      l := WindingMoves(w, st);
    }
  }

  /** Deadlock freedom: as long as anything in the hub is waiting for another
      goroutine, some goroutine can go on, during shutdown as well. */
  lemma DeadlockFree(w: Hub, st: State) returns (l: Label)
    requires Control(w, st) && !Quiet(st) && (Exhausted(st) ==> Stopping(st.reg))
    ensures Proceeds(l) && Guard(w, st, l)
  {
    if c :| c in st.sessions && !st.sessions[c].Idle? && !st.sessions[c].Gone? {
      l := SessionMoves(w, st, c);
    } else if r :| r in st.rooms && !st.rooms[r].phase.Done? && (!st.rooms[r].phase.Running? || st.rooms[r].stop) {
      if st.rooms[r].phase.Running? {
        l := LFinish(r);
      } else {
        hide PinsOK, TableOK, WorkersOK, MembersOK, TableLive, NamesOK, QueuesOK, NoneForgotten, Exhausted;
        l := RoomMoves(w, st, r);
      }
    } else {
      hide PinsOK, TableOK, WorkersOK, MembersOK, TableLive, NamesOK, QueuesOK, Exhausted;
      if st.reg.mode.Pinging? {
        l := PingMoves(w, st);
      } else if st.reg.mode.Winding? {
        l := WindingMoves(w, st);
      } else {
        l := LTakeNote;
      }
    }
  }

  // ---- What the hub does on its own comes to an end --------------------

  ghost function Pick<K>(m: map<K, nat>): (k: K)
    requires m != map[]
    ensures k in m
  {
    assert m.Keys != {};
    var k :| k in m.Keys;
    k
  }

  ghost function Total<K>(m: map<K, nat>): nat
    decreases |m|
  {
    if m == map[] then 0 else m[Pick(m)] + Total(m - {Pick(m)})
  }

  lemma {:induction false} TotalPick<K>(m: map<K, nat>, k: K)
    requires k in m
    ensures Total(m) == m[k] + Total(m - {k})
    decreases |m|
  {
    var j := Pick(m);
    if k != j {
      TotalPick(m - {j}, k);
      TotalPick(m - {k}, j);
      assert m - {j} - {k} == m - {k} - {j};
    }
  }

  lemma TotalUpdate<K>(m: map<K, nat>, k: K, v: nat)
    requires k in m
    ensures Total(m[k := v]) + m[k] == Total(m) + v
  {
    TotalPick(m, k);
    TotalPick(m[k := v], k);
    assert m[k := v] - {k} == m - {k};
  }

  /** How many handoffs a session still has before it can read the next frame. */
  function SessionRank(s: Session): nat {
    match s
    case Idle(_) => 0
    case Gone => 0
    case Adding => 1
    case Removing => 1
    case Refusing(_) => 1
    case Submitting(_, _) => 2
    case Closing(_) => 2
    case AwaitingRoom(_, _, _, tries, verdict) => 6 * tries + (if verdict.Some? then 2 else 3)
    case RoomJoining(_, _, _, tries) => 6 * tries + 4
    case Awaiting(_, _, tries, _) => 6 * tries + 5
    case RegJoining(_, _, tries) => 6 * tries + 6
    case RegLeaving(_, _) => 25
    case Leaving(_, _, _) => 26
  }

  /** How many steps a room still has before it can take up the next request. */
  function RoomRank(room: Room): nat {
    match room.phase
    case Done => 0
    case Running => 1
    case Flushing => 1
    case Killing(rest) => 1 + |rest|
    case Evicting(_) => 2 + |room.members|
    case Repaired => 3 + |room.members|
    case Opening => 4 + |room.members|
    case Delivering(_, frames, _) => 2 + |frames|
    case Fanning(_, rest) => 2 + |rest|
    case Writing(_) => 3 + |room.members|
  }

  function SessionRanks(sessions: map<Cid, Session>): map<Cid, nat> {
    map c | c in sessions :: SessionRank(sessions[c])
  }

  function RoomRanks(rooms: map<Rid, Room>): map<Rid, nat> { map r | r in rooms :: RoomRank(rooms[r]) }

  function NotesRank(reg: Registry): nat { |reg.notes| + if reg.mode.Stopped? then 0 else 1 }

  function PingRank(reg: Registry): nat { if reg.mode.Pinging? then |reg.mode.rest| else 0 }

  /** Lexicographically: sessions, then rooms, then notes, then pings. */
  ghost predicate Lower(st': State, st: State) {
    var s', s := Total(SessionRanks(st'.sessions)), Total(SessionRanks(st.sessions));
    var r', r := Total(RoomRanks(st'.rooms)), Total(RoomRanks(st.rooms));
    || s' < s
    || (s' == s && r' < r)
    || (s' == s && r' == r && NotesRank(st'.reg) < NotesRank(st.reg))
    || (s' == s && r' == r && NotesRank(st'.reg) == NotesRank(st.reg) && PingRank(st'.reg) < PingRank(st.reg))
  }

  lemma SessionLowers(st: State, st': State, c: Cid)
    requires c in st.sessions && c in st'.sessions && st'.sessions == st.sessions[c := st'.sessions[c]]
    requires SessionRank(st'.sessions[c]) < SessionRank(st.sessions[c])
    ensures Lower(st', st)
  {
    TotalUpdate(SessionRanks(st.sessions), c, SessionRank(st'.sessions[c]));
    assert SessionRanks(st'.sessions) == SessionRanks(st.sessions)[c := SessionRank(st'.sessions[c])];
  }

  lemma RoomLowers(st: State, st': State, r: Rid)
    requires r in st.rooms && r in st'.rooms && st'.rooms == st.rooms[r := st'.rooms[r]]
    requires st'.sessions == st.sessions && RoomRank(st'.rooms[r]) < RoomRank(st.rooms[r])
    ensures Lower(st', st)
  {
    TotalUpdate(RoomRanks(st.rooms), r, RoomRank(st'.rooms[r]));
    assert RoomRanks(st'.rooms) == RoomRanks(st.rooms)[r := RoomRank(st'.rooms[r])];
  }

  lemma SessionAfterLower(st: State, l: Label)
    requires SessionLabel(l) && Internal(l) && SessionGuard(st, l)
    ensures SessionRank(SessionAfter(st, l)) < SessionRank(st.sessions[l.c])
  {
  }

  lemma SessionStepLowers(w: Hub, st: State, l: Label)
    requires SessionLabel(l) && Internal(l) && SessionGuard(st, l)
    ensures Lower(SessionStep(w, st, l), st)
  {
    var st' := SessionStep(w, st, l);
    SessionAfterLower(st, l);
    hide SessionAfter, SessionRank, Send, Lower;
    SessionLowers(st, st', l.c);
  }

  lemma CommandAfterLower(s: Session, handed: Option<Rid>)
    requires AtRegistry(s)
    ensures SessionRank(AfterCommand(s, handed)) < SessionRank(s)
  {
  }

  lemma CommandLowers(st: State, c: Cid, id: Rid)
    requires c in st.sessions && AtRegistry(st.sessions[c])
    ensures Lower(Command(st, c, id), st)
  {
    var s, st' := st.sessions[c], Command(st, c, id);
    CommandAfterLower(s, None);
    if s.RegJoining? && s.name in st.reg.table {
      CommandAfterLower(s, Some(st.reg.table[s.name]));
    }
    CommandAfterLower(s, Some(id));
    hide SessionRank, AfterCommand, Lower;
    SessionLowers(st, st', c);
  }

  lemma HubStepLowers(w: Hub, st: State, l: Label)
    requires !SessionLabel(l) && !RoomLabel(l) && Internal(l) && HubGuard(st, l)
    ensures Lower(HubStep(w, st, l), st)
  {
    if l.LCommand? {
      hide Command, Lower;
      CommandLowers(st, l.c, l.id);
    } else {
      hide Send, Elsewhere, Total;
    }
  }

  /** A room takes up a request of a session. */
  lemma RequestLowers(w: Hub, st: State, l: Label)
    requires l.LTakeJoin? || l.LTakeFrame?
    requires RoomGuard(w, st, l)
    ensures Lower(RoomStep(w, st, l), st)
  {
    var st' := RoomStep(w, st, l);
    hide Handle, Since, Answer, CanCount, Lower;
    SessionLowers(st, st', l.c);
  }

  lemma AnswerLowers(w: Hub, st: State, l: Label)
    requires l.LTakeLeave? || l.LFlush?
    requires RoomGuard(w, st, l)
    ensures Lower(RoomStep(w, st, l), st)
  {
    var st' := RoomStep(w, st, l);
    hide Send, Lower;
    SessionLowers(st, st', l.c);
  }

  lemma DeliverLowers(w: Hub, st: State, r: Rid, drop: bool)
    requires RoomGuard(w, st, LDeliver(r, drop))
    ensures Lower(DeliverOne(w, st, r, drop), st)
  {
    var st' := DeliverOne(w, st, r, drop);
    var room := st.rooms[r];
    var Delivering(c, frames, joining) := room.phase;
    hide Lower, Send, RoomGuard;
    if frames != [] {
      HandIs(w, st, room.name, c, frames[0], drop, joining);
      hide Hand;
      RoomLowers(st, st', r);
    } else if joining && c in st.sessions && st.sessions[c].AwaitingRoom? && st.sessions[c].verdict.None? {
      SessionLowers(st, st', c);
    } else if joining && c in st.sessions && st.sessions[c].AwaitingRoom? {
      ConfirmLowers(st, st', r, c);
    } else {
      RoomLowers(st, st', r);
    }
  }

  lemma ConfirmLowers(st: State, st': State, r: Rid, c: Cid)
    requires r in st.rooms && r in st'.rooms && st'.rooms == st.rooms[r := st'.rooms[r]]
    requires c in st.sessions && c in st'.sessions && st'.sessions == st.sessions[c := st'.sessions[c]]
    requires SessionRank(st'.sessions[c]) <= SessionRank(st.sessions[c])
    requires RoomRank(st'.rooms[r]) < RoomRank(st.rooms[r])
    ensures Lower(st', st)
  {
    TotalUpdate(SessionRanks(st.sessions), c, SessionRank(st'.sessions[c]));
    assert SessionRanks(st'.sessions) == SessionRanks(st.sessions)[c := SessionRank(st'.sessions[c])];
    TotalUpdate(RoomRanks(st.rooms), r, RoomRank(st'.rooms[r]));
    assert RoomRanks(st'.rooms) == RoomRanks(st.rooms)[r := RoomRank(st'.rooms[r])];
  }

  lemma FileStepLowers(w: Hub, st: State, l: Label)
    requires l.LRepair? || l.LRecover? || l.LOpenFails? || l.LWrite?
    requires RoomGuard(w, st, l)
    ensures Lower(RoomStep(w, st, l), st)
  {
    var st' := RoomStep(w, st, l);
    assert st'.sessions == st.sessions && st'.rooms == st.rooms[l.r := st'.rooms[l.r]]
      && RoomRank(st'.rooms[l.r]) < RoomRank(st.rooms[l.r]) by {
      hide OpenMemory, Repair, Line, Remember;
    }
    hide RoomStep, RoomGuard, RoomRank, Lower;
    RoomLowers(st, st', l.r);
  }

  lemma NotifyLowers(st: State, r: Rid, skip: bool)
    requires r in st.rooms && st.rooms[r].phase.Fanning? && st.rooms[r].phase.rest == {}
    ensures Lower(NotifyActivity(st, r, skip), st)
  {
    hide Lower;
    RoomLowers(st, NotifyActivity(st, r, skip), r);
  }

  lemma EvictLowers(st: State, r: Rid, skip: bool)
    requires r in st.rooms && st.rooms[r].phase.Evicting?
    ensures Lower(EvictByName(st, r, skip), st)
  {
    hide Lower;
    RoomLowers(st, EvictByName(st, r, skip), r);
  }

  lemma FinishLowers(st: State, r: Rid)
    requires r in st.rooms && !st.rooms[r].phase.Done?
    ensures Lower(Finish(st, r), st)
  {
    hide Lower;
    RoomLowers(st, Finish(st, r), r);
  }

  lemma RestLowers(w: Hub, st: State, l: Label)
    requires l.LFan? || l.LKill?
    requires RoomGuard(w, st, l)
    ensures Lower(RoomStep(w, st, l), st)
  {
    var st' := RoomStep(w, st, l);
    var room := st.rooms[l.r];
    assert |room.phase.rest - {l.c}| < |room.phase.rest|;
    if l.LFan? {
      HandIs(w, st, room.name, l.c, Signed(room.phase.m), l.drop, true);
    }
    hide Hand, Kill, Lower;
    RoomLowers(st, st', l.r);
  }

  lemma RoomStepLowers(w: Hub, st: State, l: Label)
    requires RoomLabel(l) && RoomGuard(w, st, l)
    ensures Lower(RoomStep(w, st, l), st)
  {
    hide Lower;
    if l.LDeliver? {
      hide DeliverOne;
      DeliverLowers(w, st, l.r, l.drop);
    } else if l.LTakeJoin? || l.LTakeFrame? {
      hide RoomStep;
      RequestLowers(w, st, l);
    } else if l.LTakeLeave? || l.LFlush? {
      hide RoomStep;
      AnswerLowers(w, st, l);
    } else if l.LFan? || l.LKill? {
      hide RoomStep;
      RestLowers(w, st, l);
    } else if l.LNotify? {
      hide NotifyActivity;
      NotifyLowers(st, l.r, l.skip);
    } else if l.LEvict? {
      hide EvictByName;
      EvictLowers(st, l.r, l.skip);
    } else if l.LFinish? {
      hide Finish;
      FinishLowers(st, l.r);
    } else {
      hide RoomStep;
      FileStepLowers(w, st, l);
    }
  }

  /** Every internal step lowers a well-founded rank: left alone, the hub cannot
      go on for ever, not even with rooms created, failing and rejoined. */
  lemma InternalLowers(w: Hub, st: State, l: Label)
    requires Guard(w, st, l) && Internal(l)
    ensures Lower(Apply(w, st, l), st)
  {
    hide Lower, SessionGuard, RoomGuard, HubGuard, SessionStep, RoomStep, HubStep;
    if SessionLabel(l) {
      SessionStepLowers(w, st, l);
    } else if RoomLabel(l) {
      RoomStepLowers(w, st, l);
    } else {
      HubStepLowers(w, st, l);
    }
  }

  lemma HubStepKeepsStopping(w: Hub, st: State, l: Label)
    requires !SessionLabel(l) && !RoomLabel(l) && Internal(l) && HubGuard(st, l) && Stopping(st.reg)
    ensures Stopping(HubStep(w, st, l).reg)
  {
  }

  lemma InternalKeepsStopping(w: Hub, st: State, l: Label)
    requires Guard(w, st, l) && Internal(l) && Stopping(st.reg)
    ensures Stopping(Apply(w, st, l).reg)
  {
    if SessionLabel(l) {
      hide SessionGuard, SessionAfter, Send;
    } else if RoomLabel(l) {
      hide RoomGuard, RoomStep;
      RoomStepShape(w, st, l);
    } else {
      hide HubStep, HubGuard;
      HubStepKeepsStopping(w, st, l);
    }
  }

  // ---- Left alone, the hub settles -------------------------------------

  predicate AllProceed(ls: seq<Label>) { forall i :: 0 <= i < |ls| ==> Proceeds(ls[i]) }

  lemma RunCons(w: Hub, st: State, l: Label, ls: seq<Label>)
    requires Guard(w, st, l) && Run(w, Apply(w, st, l), ls)
    ensures Run(w, st, [l] + ls) && Outcome(w, st, [l] + ls) == Outcome(w, Apply(w, st, l), ls)
  {
    assert ([l] + ls)[1..] == ls;
    hide Guard, Apply;
  }

  /** From every reachable state the hub, left alone, comes to rest: every session
      reads its next frame or is gone, every room waits for requests or has
      returned, and the registry waits or has shut down; unless some room ran
      out of sequence numbers. */
  lemma Settle(w: Hub, st: State) returns (ls: seq<Label>)
    requires Control(w, st)
    ensures Run(w, st, ls) && AllProceed(ls)
    ensures var st' := Outcome(w, st, ls);
      && (Quiet(st') || (Exhausted(st') && !Stopping(st'.reg)))
      && (Stopping(st.reg) ==> Stopping(st'.reg))
    decreases Total(SessionRanks(st.sessions)), Total(RoomRanks(st.rooms)), NotesRank(st.reg), PingRank(st.reg)
  {
    if Quiet(st) || (Exhausted(st) && !Stopping(st.reg)) {
      ls := [];
    } else {
      hide Control, Quiet, Exhausted, Guard, Apply, Internal, Run, Outcome, Total, SessionRanks, RoomRanks;
      var l := DeadlockFree(w, st);
      InternalLowers(w, st, l);
      StepKeepsControl(w, st, l);
      if Stopping(st.reg) {
        InternalKeepsStopping(w, st, l);
      }
      var rest := Settle(w, Apply(w, st, l));
      RunCons(w, st, l, rest);
      ls := [l] + rest;
    }
  }

  /** Shutdown completes: once the registry is stopping, the hub left alone
      reaches a state where it has stopped, every room ever started has
      returned, and every session is back with its client or gone. */
  lemma ShutdownCompletes(w: Hub, st: State) returns (ls: seq<Label>)
    requires Control(w, st) && Stopping(st.reg)
    ensures Run(w, st, ls) && AllProceed(ls)
    ensures var st' := Outcome(w, st, ls);
      && st'.reg.mode.Stopped?
      && (forall r :: r in st'.rooms ==> st'.rooms[r].phase.Done?)
      && (forall c :: c in st'.sessions ==> st'.sessions[c].Idle? || st'.sessions[c].Gone?)
  {
    ls := Settle(w, st);
    var st' := Outcome(w, st, ls);
    RunKeepsControl(w, st, ls);
    assert Counted(st') by {
      ControlRooms(w, st');
    }
    hide Control, Run, Outcome;
    NoneUnfinished(st');
  }
}
