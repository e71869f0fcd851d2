/** What the control discipline buys: one writer per archive, for good. */
module HubSafety {
  import opened ArchiveSpec
  import opened HistorySpec
  import opened Client
  import opened HubModel
  import opened HubControl
  import opened HubSteps

  /** Runs can be put together. */
  lemma {:induction false} RunAppend(w: Hub, st: State, a: seq<Label>, b: seq<Label>)
    requires Run(w, st, a) && Run(w, Outcome(w, st, a), b)
    ensures Run(w, st, a + b) && Outcome(w, st, a + b) == Outcome(w, Outcome(w, st, a), b)
    decreases |a|
  {
    hide Guard, Apply;
    if a == [] {
      assert a + b == b;
    } else {
      RunAppend(w, Apply(w, st, a[0]), a[1..], b);
      assert (a + b)[1..] == a[1..] + b;
    }
  }

  /** The run is possible and ends in s. */
  ghost predicate Reaches(w: Hub, st: State, ls: seq<Label>, s: State) { Run(w, st, ls) && Outcome(w, st, ls) == s }

  lemma ReachesOne(w: Hub, st: State, l: Label)
    requires Guard(w, st, l)
    ensures Reaches(w, st, [l], Apply(w, st, l))
  {
    hide Guard, Apply;
    var s := Apply(w, st, l);
    assert [l][1..] == [] && Run(w, s, []) && Outcome(w, s, []) == s;
    assert Run(w, st, [l]);
  }

  lemma ReachesSnoc(w: Hub, st: State, ls: seq<Label>, s: State, l: Label)
    requires Reaches(w, st, ls, s) && Guard(w, s, l)
    ensures Reaches(w, st, ls + [l], Apply(w, s, l))
  {
    ReachesOne(w, s, l);
    hide Guard, Apply;
    RunAppend(w, st, ls, [l]);
  }

  /** The step opens, repairs or appends to the archive of instance r. */
  predicate Touches(l: Label, r: Rid) {
    (l.LRepair? || l.LRecover? || l.LWrite?) && l.r == r
  }

  /** The registry forgot this instance: swept, evicted, or stopped for good. */
  predicate Removed(st: State, r: Rid) { r in st.rooms && !Tabled(st, r) }

  /** Only a room at work touches its archive, and it is the very instance the
      table has under its name, with the client it works for recorded in it. */
  lemma ToucherIsTabled(w: Hub, st: State, l: Label, r: Rid)
    requires Control(w, st) && Guard(w, st, l) && Touches(l, r)
    ensures Tabled(st, r) && RecordedIn(st, st.rooms[r].worker, st.rooms[r].name)
  {
    assert Active(st.rooms[r].phase);
    hide TableOK, MembersOK, TableLive, NoneForgotten, RepliesOK, NamesOK, QueuesOK, Counted, Guard;
    EvictsItself(st, r);
  }

  /** At most one instance of a name is at work on the archive. */
  lemma OneAtWork(w: Hub, st: State, q: Rid, r: Rid)
    requires Control(w, st) && q in st.rooms && r in st.rooms && st.rooms[q].name == st.rooms[r].name
    requires Active(st.rooms[q].phase) && Active(st.rooms[r].phase)
    ensures q == r
  {
  }

  lemma CommandTable(st: State, c: Cid, id: Rid, r: Rid)
    requires c in st.sessions && AtRegistry(st.sessions[c]) && id !in st.rooms && Removed(st, r)
    ensures Removed(Command(st, c, id), r)
  {
    hide AfterCommand;
  }

  lemma RoomStepRemoved(w: Hub, st: State, l: Label, r: Rid)
    requires RoomLabel(l) && RoomGuard(w, st, l) && Removed(st, r)
    ensures Removed(RoomStep(w, st, l), r)
  {
    RoomStepShape(w, st, l);
    hide RoomStep, RoomGuard;
    var st' := RoomStep(w, st, l);
    assert st'.rooms[r].name == st.rooms[r].name;
  }

  /** Only instance r changed, and it kept its name; the table lost at most that
      name, and the registry stays at what it is doing. */
  ghost predicate OnlyRoom(st: State, st': State, r: Rid) {
    && r in st.rooms && r in st'.rooms
    && st'.rooms == st.rooms[r := st'.rooms[r]] && st'.rooms[r].name == st.rooms[r].name
    && (st'.reg.table == st.reg.table || st'.reg.table == st.reg.table - {st.rooms[r].name})
    && st'.reg.mode == st.reg.mode
  }

  lemma FileStepShape(w: Hub, st: State, l: Label)
    requires l.LRepair? || l.LRecover? || l.LOpenFails? || l.LWrite?
    requires RoomGuard(w, st, l)
    ensures OnlyRoom(st, RoomStep(w, st, l), l.r)
  {
    hide OpenMemory, Repair, Line, Remember;
  }

  lemma EndStepShape(w: Hub, st: State, l: Label)
    requires l.LNotify? || l.LEvict? || l.LFinish?
    requires RoomGuard(w, st, l)
    ensures OnlyRoom(st, RoomStep(w, st, l), l.r)
  {
  }

  lemma TalkStepShape(w: Hub, st: State, l: Label)
    requires l.LDeliver? || l.LFan? || l.LKill?
    requires RoomGuard(w, st, l)
    ensures OnlyRoom(st, RoomStep(w, st, l), l.r)
  {
    var room := st.rooms[l.r];
    if l.LDeliver? {
      if room.phase.frames != [] {
        HandIs(w, st, room.name, room.phase.client, room.phase.frames[0], l.drop, room.phase.joining);
      }
    } else if l.LFan? {
      HandIs(w, st, room.name, l.c, Signed(room.phase.m), l.drop, true);
    }
    hide Hand, Kill;
  }

  lemma TakeStepShape(w: Hub, st: State, l: Label)
    requires l.LTakeJoin? || l.LTakeLeave? || l.LTakeFrame? || l.LFlush?
    requires RoomGuard(w, st, l)
    ensures OnlyRoom(st, RoomStep(w, st, l), l.r)
  {
    if l.LTakeFrame? {
      HandleShape(w, st.rooms[l.r], File(st, st.rooms[l.r].name), l.c, st.sessions[l.c].frame, l.ts);
    }
    hide Handle, Since, Answer, AfterRoomDone, Flushed, AtRoom, Send;
  }

  /** A room's step touches no other instance, whatever else it does. */
  lemma RoomStepShape(w: Hub, st: State, l: Label)
    requires RoomLabel(l) && RoomGuard(w, st, l)
    ensures OnlyRoom(st, RoomStep(w, st, l), l.r)
  {
    hide OnlyRoom, RoomGuard, RoomStep;
    if l.LDeliver? || l.LFan? || l.LKill? {
      TalkStepShape(w, st, l);
    } else if l.LTakeJoin? || l.LTakeLeave? || l.LTakeFrame? || l.LFlush? {
      TakeStepShape(w, st, l);
    } else if l.LNotify? || l.LEvict? || l.LFinish? {
      EndStepShape(w, st, l);
    } else {
      FileStepShape(w, st, l);
    }
  }

  lemma HubStepRemoved(w: Hub, st: State, l: Label, r: Rid)
    requires !SessionLabel(l) && !RoomLabel(l) && HubGuard(st, l) && !l.LRestart? && Removed(st, r)
    ensures Removed(HubStep(w, st, l), r)
  {
    if l.LCommand? {
      CommandTable(st, l.c, l.id, r);
    }
    hide Send, Kill, Elsewhere, Occupied, Command;
  }

  /** What the registry forgot it never has again: names are reopened, instances
      are not. */
  lemma RemovedStays(w: Hub, st: State, l: Label, r: Rid)
    requires Guard(w, st, l) && !l.LRestart? && Removed(st, r)
    ensures Removed(Apply(w, st, l), r)
  {
    if SessionLabel(l) {
      hide SessionAfter, Send;
    } else if RoomLabel(l) {
      RoomStepRemoved(w, st, l, r);
    } else {
      HubStepRemoved(w, st, l, r);
    }
  }

  /** No part of the run is a crash. */
  predicate Uncrashed(ls: seq<Label>) { forall i :: 0 <= i < |ls| ==> !ls[i].LRestart? }

  /** Once removed, an instance never touches the archive again, whatever the
      rest of the run does. */
  lemma {:induction false} RemovedNeverTouches(w: Hub, st: State, ls: seq<Label>, r: Rid)
    requires Control(w, st) && Run(w, st, ls) && Uncrashed(ls) && Removed(st, r)
    ensures forall i :: 0 <= i < |ls| ==> !Touches(ls[i], r)
    decreases |ls|
  {
    if ls != [] {
      if Touches(ls[0], r) {
        ToucherIsTabled(w, st, ls[0], r);
      }
      hide Control, Guard, Apply, Removed, Touches;
      RemovedStays(w, st, ls[0], r);
      StepKeepsControl(w, st, ls[0]);
      RemovedNeverTouches(w, Apply(w, st, ls[0]), ls[1..], r);
      forall i | 0 <= i < |ls| ensures !Touches(ls[i], r) {
        if i > 0 {
          assert ls[i] == ls[1..][i - 1];
        }
      }
    }
  }

  /** Single writer: from the moment an instance touches its archive, no other
      instance of that name, past or present, ever does in the rest of the run. */
  lemma SingleWriter(w: Hub, st: State, ls: seq<Label>, q: Rid, r: Rid)
    requires Control(w, st) && Run(w, st, ls) && Uncrashed(ls)
    requires q in st.rooms && r in st.rooms && q != r && st.rooms[q].name == st.rooms[r].name
    requires ls != [] && Touches(ls[0], r)
    ensures forall i :: 0 <= i < |ls| ==> !Touches(ls[i], q)
  {
    ToucherIsTabled(w, st, ls[0], r);
    RemovedNeverTouches(w, st, ls, q);
  }
}
