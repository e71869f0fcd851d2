/** The life of a room's goroutine: how it opens, serves, fails and returns, and
    that a room that could not open answers those who wait for it. */
module HubPhases {
  import opened Base
  import opened ArchiveSpec
  import opened HistorySpec
  import opened RoomRules
  import opened Client
  import opened HubModel
  import opened HubControl
  import opened HubSteps
  import opened HubSafety
  import opened HubData
  import opened HubMembers
  import opened HubRuns
  import opened HubQueues
  import opened HubHanded
  import opened HubNotes
  import opened HubJoining

  /** Opening, or given up before it ever opened. */
  predicate Unopened(p: Phase) {
    p.Opening? || p.Repaired? || p.Flushing? || (p.Evicting? && !p.fatal)
  }

  /** In service, or failing while it was. */
  predicate Opened(p: Phase) { InService(p) || p.Killing? || (p.Evicting? && p.fatal) }

  /** The course of a room: it opens or gives up, which answers whoever waits; in
      service it takes one request at a time and finishes it; only a write that
      failed is fatal, and then it closes its members before it returns. */
  ghost predicate Follows(l: Label, room: Room, room': Room)
    requires RoomLabel(l)
  {
    var p, p' := room.phase, room'.phase;
    match p
    case Opening => p' == Repaired || p' == Evicting(false)
    case Repaired => p' == Running || p' == Evicting(false)
    case Evicting(fatal) => p' == if fatal then Killing(room.members) else Flushing
    case Flushing => if l.LFinish? then p' == Done else p' == Flushing
    case Killing(rest) => if l.LKill? then l.c in rest && p' == Killing(rest - {l.c}) else rest == {} && p' == Done
    case Running =>
      if l.LFinish? then room.stop && p' == Done
      else if l.LTakeJoin? then p'.Delivering? && p'.client == l.c && p'.joining
      else if l.LTakeFrame? then p'.Running? || p'.Writing? || (p'.Delivering? && p'.client == l.c && !p'.joining)
      else l.LTakeLeave? && p' == Running
    case Delivering(c, frames, joining) => p' == if frames == [] then Running else Delivering(c, frames[1..], joining)
    case Writing(m) => p' == if l.LWrite? && l.failed then Evicting(true) else Fanning(m, room.members)
    case Fanning(m, rest) =>
      if l.LFan? then l.c in rest && p' == Fanning(m, rest - {l.c}) else rest == {} && p' == Running
    case Done => false
  }

  lemma FileStepFollows(w: Hub, st: State, l: Label)
    requires (l.LRepair? || l.LRecover? || l.LOpenFails? || l.LWrite?) && RoomGuard(w, st, l)
    ensures l.r in RoomStep(w, st, l).rooms && Follows(l, st.rooms[l.r], RoomStep(w, st, l).rooms[l.r])
  {
    hide Repair, OpenMemory, Remember, Line;
  }

  lemma EvictFollows(st: State, r: Rid, skip: bool)
    requires r in st.rooms && st.rooms[r].phase.Evicting?
    ensures r in EvictByName(st, r, skip).rooms
    ensures Follows(LEvict(r, skip), st.rooms[r], EvictByName(st, r, skip).rooms[r])
  {
  }

  lemma NotifyFollows(st: State, r: Rid, skip: bool)
    requires r in st.rooms && st.rooms[r].phase.Fanning? && st.rooms[r].phase.rest == {}
    ensures r in NotifyActivity(st, r, skip).rooms
    ensures Follows(LNotify(r, skip), st.rooms[r], NotifyActivity(st, r, skip).rooms[r])
  {
  }

  lemma FinishFollows(w: Hub, st: State, r: Rid)
    requires RoomGuard(w, st, LFinish(r))
    ensures r in st.rooms && r in Finish(st, r).rooms
    ensures Follows(LFinish(r), st.rooms[r], Finish(st, r).rooms[r])
  {
  }

  lemma EndStepFollows(w: Hub, st: State, l: Label)
    requires (l.LNotify? || l.LEvict? || l.LFinish?) && RoomGuard(w, st, l)
    ensures l.r in RoomStep(w, st, l).rooms && Follows(l, st.rooms[l.r], RoomStep(w, st, l).rooms[l.r])
  {
    hide Follows, EvictByName, NotifyActivity, Finish;
    if l.LEvict? {
      EvictFollows(st, l.r, l.skip);
    } else if l.LNotify? {
      NotifyFollows(st, l.r, l.skip);
    } else {
      FinishFollows(w, st, l.r);
    }
  }

  lemma KillStepFollows(w: Hub, st: State, l: Label)
    requires (l.LKill? || l.LFlush?) && RoomGuard(w, st, l)
    ensures l.r in RoomStep(w, st, l).rooms && Follows(l, st.rooms[l.r], RoomStep(w, st, l).rooms[l.r])
  {
    hide Kill, Send, Flushed, AtRoom;
  }

  lemma TakeStepFollows(w: Hub, st: State, l: Label)
    requires (l.LTakeJoin? || l.LTakeLeave? || l.LTakeFrame?) && RoomGuard(w, st, l)
    ensures l.r in RoomStep(w, st, l).rooms && Follows(l, st.rooms[l.r], RoomStep(w, st, l).rooms[l.r])
  {
    if l.LTakeFrame? {
      HandleShape(w, st.rooms[l.r], File(st, st.rooms[l.r].name), l.c, st.sessions[l.c].frame, l.ts);
    }
    hide Handle, Since, Answer, AfterRoomDone, CanCount;
  }

  lemma FanStepFollows(w: Hub, st: State, l: Label)
    requires l.LFan? && RoomGuard(w, st, l)
    ensures l.r in RoomStep(w, st, l).rooms && Follows(l, st.rooms[l.r], RoomStep(w, st, l).rooms[l.r])
  {
    HandIs(w, st, st.rooms[l.r].name, l.c, Signed(st.rooms[l.r].phase.m), l.drop, true);
    hide Hand;
  }

  lemma DeliverStepFollows(w: Hub, st: State, l: Label)
    requires l.LDeliver? && RoomGuard(w, st, l)
    ensures l.r in RoomStep(w, st, l).rooms && Follows(l, st.rooms[l.r], RoomStep(w, st, l).rooms[l.r])
  {
    assert st.rooms[l.r].phase.Delivering? && Guard(w, st, l) && Apply(w, st, l) == RoomStep(w, st, l);
    hide RoomGuard, RoomStep;
    DeliverPhase(w, st, l);
    hide Guard, Apply;
  }

  /** Every step of a room is on that course. */
  lemma RoomFollows(w: Hub, st: State, l: Label)
    requires RoomLabel(l) && RoomGuard(w, st, l)
    ensures l.r in RoomStep(w, st, l).rooms && Follows(l, st.rooms[l.r], RoomStep(w, st, l).rooms[l.r])
  {
    hide RoomGuard, RoomStep, Follows;
    if l.LRepair? || l.LRecover? || l.LOpenFails? || l.LWrite? {
      FileStepFollows(w, st, l);
    } else if l.LTakeJoin? || l.LTakeLeave? || l.LTakeFrame? {
      TakeStepFollows(w, st, l);
    } else if l.LFan? {
      FanStepFollows(w, st, l);
    } else if l.LDeliver? {
      DeliverStepFollows(w, st, l);
    } else if l.LKill? || l.LFlush? {
      KillStepFollows(w, st, l);
    } else {
      EndStepFollows(w, st, l);
    }
  }

  /** Others' steps leave a room where it is. */
  lemma OthersLeave(w: Hub, st: State, l: Label, r: Rid)
    requires Guard(w, st, l) && !l.LRestart? && r in st.rooms && !(RoomLabel(l) && l.r == r)
    ensures r in Apply(w, st, l).rooms && Apply(w, st, l).rooms[r].phase == st.rooms[r].phase
  {
    hide RoomGuard, RoomStep, HubGuard, HubStep;
    if SessionLabel(l) {
      hide SessionGuard, SessionAfter, Send;
    } else if RoomLabel(l) {
      RoomStepShape(w, st, l);
    } else {
      HubLeaves(w, st, l, r);
    }
  }

  lemma HubLeaves(w: Hub, st: State, l: Label, r: Rid)
    requires !SessionLabel(l) && !RoomLabel(l) && HubGuard(st, l) && !l.LRestart? && r in st.rooms
    ensures r in HubStep(w, st, l).rooms && HubStep(w, st, l).rooms[r].phase == st.rooms[r].phase
  {
    if l.LCommand? {
      CommandMoves(st, l.c, l.id);
    }
    hide Command, Send, Kill, AfterCommand, Elsewhere, Occupied, HandedOut;
  }

  /** One step of the whole hub, seen from one room. */
  lemma StepCourse(w: Hub, st: State, l: Label, r: Rid)
    requires Guard(w, st, l) && !l.LRestart? && r in st.rooms
    ensures r in Apply(w, st, l).rooms
    ensures var p' := Apply(w, st, l).rooms[r].phase;
      if RoomLabel(l) && l.r == r then Follows(l, st.rooms[r], Apply(w, st, l).rooms[r]) else p' == st.rooms[r].phase
  {
    if RoomLabel(l) && l.r == r {
      hide RoomGuard, RoomStep, Follows;
      RoomFollows(w, st, l);
    } else {
      hide Guard, Apply, Follows;
      OthersLeave(w, st, l, r);
    }
  }

  // ---- Failing to open, and failing in service -------------------------

  lemma CourseClass(w: Hub, l: Label, room: Room, room': Room)
    requires RoomLabel(l) && Follows(l, room, room')
    ensures Opened(room.phase) ==> Opened(room'.phase) || room'.phase.Done?
    ensures GivenUp(room.phase) && Unopened(room.phase) ==> Unopened(room'.phase) || room'.phase.Done?
    ensures room'.phase == Evicting(true) ==> room.phase.Writing? && l.LWrite? && l.failed
  {
  }

  /** A room that could not open, in any run: it is never in service and never
      closes anyone, but stays to answer until it returns. */
  lemma {:induction false} FailedOpenNeverKills(w: Hub, st: State, ls: seq<Label>, r: Rid)
    requires Run(w, st, ls) && Uncrashed(ls) && r in st.rooms
    requires GivenUp(st.rooms[r].phase) && (Unopened(st.rooms[r].phase) || st.rooms[r].phase.Done?)
    ensures r in Outcome(w, st, ls).rooms
    ensures var p := Outcome(w, st, ls).rooms[r].phase; GivenUp(p) && (Unopened(p) || p.Done?)
    ensures forall i :: 0 <= i < |ls| ==> !(ls[i].LKill? && ls[i].r == r)
    decreases |ls|
  {
    hide Guard, Apply, Follows, GivenUp, Unopened;
    if ls != [] {
      var l, st' := ls[0], Apply(w, st, ls[0]);
      StepCourse(w, st, l, r);
      GivenUpStays(w, st, l, r);
      NotKilling(w, st, l, r);
      if RoomLabel(l) && l.r == r {
        CourseClass(w, l, st.rooms[r], st'.rooms[r]);
        DoneIsDone(l, st.rooms[r], st'.rooms[r]);
      }
      FailedOpenNeverKills(w, st', ls[1..], r);
      forall i | 0 <= i < |ls| ensures !(ls[i].LKill? && ls[i].r == r) {
        assert i > 0 ==> ls[i] == ls[1..][i - 1];
      }
    }
  }

  lemma DoneIsDone(l: Label, room: Room, room': Room)
    requires RoomLabel(l) && Follows(l, room, room')
    ensures !room.phase.Done?
  {
  }

  lemma NotKilling(w: Hub, st: State, l: Label, r: Rid)
    requires Guard(w, st, l) && r in st.rooms && (Unopened(st.rooms[r].phase) || st.rooms[r].phase.Done?)
    ensures !(l.LKill? && l.r == r)
  {
  }

  /** Nobody is given up on silently: a room that ever served and has not returned
      was not failed by anything but a failed write, in any run. */
  lemma {:induction false} OnlyWritesAreFatal(w: Hub, st: State, ls: seq<Label>, r: Rid)
    requires Run(w, st, ls) && Uncrashed(ls) && r in st.rooms && InService(st.rooms[r].phase)
    requires forall i :: 0 <= i < |ls| ==> !(ls[i].LWrite? && ls[i].r == r && ls[i].failed)
    ensures r in Outcome(w, st, ls).rooms
    ensures InService(Outcome(w, st, ls).rooms[r].phase) || Outcome(w, st, ls).rooms[r].phase.Done?
    ensures Outcome(w, st, ls).rooms[r].phase.Done? ==> exists i :: 0 <= i < |ls| && ls[i] == LFinish(r)
    decreases |ls|
  {
    hide Guard, Apply, Follows;
    if ls != [] {
      var l, st' := ls[0], Apply(w, st, ls[0]);
      StepCourse(w, st, l, r);
      if RoomLabel(l) && l.r == r {
        assert l == ls[0];
        ServesOn(l, st.rooms[r], st'.rooms[r]);
      }
      if InService(st'.rooms[r].phase) {
        assert forall i :: 0 <= i < |ls[1..]| ==> ls[1..][i] == ls[i + 1];
        OnlyWritesAreFatal(w, st', ls[1..], r);
        if Outcome(w, st', ls[1..]).rooms[r].phase.Done? {
          var i :| 0 <= i < |ls[1..]| && ls[1..][i] == LFinish(r);
          assert ls[i + 1] == LFinish(r);
        }
      } else {
        DoneStays(w, st', ls[1..], r);
      }
    }
  }

  lemma ServesOn(l: Label, room: Room, room': Room)
    requires RoomLabel(l) && Follows(l, room, room') && InService(room.phase) && !(l.LWrite? && l.failed)
    ensures InService(room'.phase) || (room'.phase.Done? && l.LFinish? && room.stop)
  {
  }

  lemma {:induction false} DoneStays(w: Hub, st: State, ls: seq<Label>, r: Rid)
    requires Run(w, st, ls) && Uncrashed(ls) && r in st.rooms && st.rooms[r].phase.Done?
    ensures r in Outcome(w, st, ls).rooms && Outcome(w, st, ls).rooms[r].phase.Done?
    decreases |ls|
  {
    hide Guard, Apply, Follows;
    if ls != [] {
      StepCourse(w, st, ls[0], r);
      if RoomLabel(ls[0]) && ls[0].r == r {
        DoneIsDone(ls[0], st.rooms[r], Apply(w, st, ls[0]).rooms[r]);
      }
      DoneStays(w, Apply(w, st, ls[0]), ls[1..], r);
    }
  }

  /** A room that failed to open tells a session waiting to join it that it could
      not, and takes nothing from its tries; it lets one that leaves or closes go
      on; and a frame it was to take it refuses. */
  lemma FlushTells(w: Hub, st: State, r: Rid, c: Cid, drop: bool)
    requires Guard(w, st, LFlush(r, c, drop))
    ensures c in st.sessions && c in Apply(w, st, LFlush(r, c, drop)).sessions && r in st.rooms
    ensures st.rooms[r].phase.Flushing? && !st.sessions[c].AwaitingRoom?
    ensures var s, s' := st.sessions[c], Apply(w, st, LFlush(r, c, drop)).sessions[c];
      if s.RoomJoining? then s' == AwaitingRoom(r, s.name, s.since, s.tries, Some(false))
      else if s.Submitting? then s' == Idle(Some(r)) && Meant(st, LFlush(r, c, drop), c) == Some(Refusal)
      else if s.Leaving? then s' == RegLeaving(s.name, s.since)
      else s.Closing? && s' == Removing
  {
    hide Send;
  }
}
