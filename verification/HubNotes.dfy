/** The activity notes: what a room tells the registry, and so everyone elsewhere,
    is true when it is said and stays true. */
module HubNotes {
  import opened Base
  import opened Envelope
  import opened ArchiveSpec
  import opened HistorySpec
  import opened RoomRules
  import opened Client
  import opened HubModel
  import opened HubSafety
  import opened HubUpkeep
  import opened HubRuns
  import opened HubReopen
  import opened HubQueues
  import opened HubAnswers
  import opened HubHanded
  import opened HubLeaving

  /** The sequence the note gives has been assigned in the room it names. */
  ghost predicate True(st: State, note: Note) { 1 <= note.sn <= |Log(st, note.room)| }

  lemma NewestIs(w: Hub, st: State, r: Rid)
    requires Sound(w, st) && r in st.rooms && st.rooms[r].phase.Fanning?
    ensures var log, m := Log(st, st.rooms[r].name), st.rooms[r].phase.m;
      log != [] && log[|log| - 1] == m && m.header.sn == |log| < U64_MAX
  {
    FanningFacts(w, st, r);
    hide Sound, Log, FileOf, Targets, AllGenuine;
  }

  lemma NotifyIs(w: Hub, st: State, l: Label)
    requires l.LNotify? && Guard(w, st, l)
    ensures l.r in st.rooms && st.rooms[l.r].phase.Fanning?
    ensures Apply(w, st, l).reg ==
      if l.skip then st.reg
      else st.reg.(notes := st.reg.notes + [Note(st.rooms[l.r].name, st.rooms[l.r].phase.m.header.sn)])
    ensures l.skip ==> Stopping(st.reg)
  {
  }

  /** After the last client of a fan-out the room notes its own name and the very
      message it fanned out, which is its newest; or, only once the registry is
      stopping, nothing. */
  lemma NotifyExact(w: Hub, st: State, r: Rid, skip: bool)
    requires Sound(w, st) && Guard(w, st, LNotify(r, skip))
    ensures r in st.rooms && st.rooms[r].phase.Fanning?
    ensures var room := st.rooms[r];
      var log := Log(st, room.name);
      && 0 < |log| < U64_MAX && log[|log| - 1] == room.phase.m && (skip ==> Stopping(st.reg))
      && Apply(w, st, LNotify(r, skip)).reg ==
           if skip then st.reg else st.reg.(notes := st.reg.notes + [Note(room.name, |log|)])
  {
    hide Sound, Guard, Apply, Log;
    NotifyIs(w, st, LNotify(r, skip));
    NewestIs(w, st, r);
  }

  // ---- Every note is true ----------------------------------------------

  ghost predicate FramesTrue(st: State, frames: seq<Out>) {
    forall note :: Activity(note) in frames ==> True(st, note)
  }

  ghost predicate RegistryTrue(st: State) {
    && (forall i :: 0 <= i < |st.reg.notes| ==> True(st, st.reg.notes[i]))
    && (st.reg.mode.Pinging? ==> True(st, st.reg.mode.note))
  }

  /** Every note on its way, queued with the registry, being passed on, about to be
      sent, or in a client's queue, is true. */
  ghost predicate NotesTrue(st: State) {
    && RegistryTrue(st)
    && (forall r :: r in st.rooms ==> FramesTrue(st, Owing(st, r)))
    && (forall c :: c in st.queues ==> FramesTrue(st, st.queues[c].out))
  }

  lemma TrueStays(st: State, st': State, note: Note)
    requires LogsGrow(st, st') && True(st, note)
    ensures True(st', note)
  {
    hide Log;
    assert Log(st, note.room) <= Log(st', note.room);
  }

  /** What a step does to the registry's notes. */
  ghost predicate NotesMove(st: State, l: Label, st': State) {
    || (st'.reg.notes == st.reg.notes && (st'.reg.mode == st.reg.mode || !st'.reg.mode.Pinging?))
    || (l.LTakeNote? && st.reg.notes != [] && st'.reg.notes == st.reg.notes[1..]
        && (st'.reg.mode.Pinging? ==> st'.reg.mode.note == st.reg.notes[0]))
    || (l.LDiscardNote? && st.reg.notes != [] && st'.reg.notes == st.reg.notes[1..] && st'.reg.mode == st.reg.mode)
    || (l.LPing? && st.reg.mode.Pinging? && st'.reg.notes == st.reg.notes
        && (st'.reg.mode.Pinging? ==> st'.reg.mode.note == st.reg.mode.note))
  }

  lemma RoomStepNotes(w: Hub, st: State, l: Label)
    requires RoomLabel(l) && RoomGuard(w, st, l) && !l.LNotify?
    ensures NotesMove(st, l, RoomStep(w, st, l))
  {
    if l.LFan? || l.LDeliver? || l.LKill? {
      hide RoomGuard, RoomStep;
      TalkStepRegistry(w, st, l);
    } else if l.LTakeJoin? || l.LTakeLeave? || l.LTakeFrame? || l.LFlush? {
      hide RoomGuard, RoomStep;
      TakeStepRegistry(w, st, l);
    } else {
      hide Repair, OpenMemory, Remember, Line;
    }
  }

  lemma CommandNotes(st: State, c: Cid, id: Rid)
    requires c in st.sessions && AtRegistry(st.sessions[c])
    ensures Command(st, c, id).reg.notes == st.reg.notes && Command(st, c, id).reg.mode == st.reg.mode
  {
    hide AfterCommand;
  }

  lemma HubStepNotes(w: Hub, st: State, l: Label)
    requires !SessionLabel(l) && !RoomLabel(l) && HubGuard(st, l) && !l.LRestart?
    ensures NotesMove(st, l, HubStep(w, st, l))
  {
    if l.LCommand? {
      CommandNotes(st, l.c, l.id);
    }
    hide Command, Send, Kill, AfterCommand, Elsewhere, Occupied;
  }

  lemma StepNotes(w: Hub, st: State, l: Label)
    requires Guard(w, st, l) && !l.LRestart? && !l.LNotify?
    ensures NotesMove(st, l, Apply(w, st, l))
  {
    hide SessionAfter, SessionGuard, RoomGuard, RoomStep, HubGuard, HubStep, Send, NotesMove;
    if SessionLabel(l) {
      SessionStepNotes(w, st, l);
    } else if RoomLabel(l) {
      RoomStepNotes(w, st, l);
    } else {
      HubStepNotes(w, st, l);
    }
  }

  lemma SessionStepNotes(w: Hub, st: State, l: Label)
    requires SessionLabel(l) && SessionGuard(st, l)
    ensures NotesMove(st, l, SessionStep(w, st, l))
  {
    hide SessionAfter, SessionGuard, Send;
  }

  lemma MoveKeepsTrue(st: State, l: Label, st': State)
    requires RegistryTrue(st) && LogsGrow(st, st') && NotesMove(st, l, st')
    ensures RegistryTrue(st')
  {
    forall i | 0 <= i < |st'.reg.notes| ensures True(st', st'.reg.notes[i]) {
      var j := if st'.reg.notes == st.reg.notes then i else i + 1;
      TrueStays(st, st', st.reg.notes[j]);
    }
    if st'.reg.mode.Pinging? {
      if st.reg.mode.Pinging? {
        TrueStaysIf(st, st', st.reg.mode.note);
      }
      if l.LTakeNote? && st.reg.notes != [] {
        TrueStays(st, st', st.reg.notes[0]);
      }
    }
    hide LogsGrow, True;
  }

  lemma TrueStaysIf(st: State, st': State, note: Note)
    requires LogsGrow(st, st')
    ensures True(st, note) ==> True(st', note)
  {
    if True(st, note) {
      TrueStays(st, st', note);
    }
  }

  lemma NotifyKeepsTrue(w: Hub, st: State, l: Label)
    requires Sound(w, st) && l.LNotify? && Guard(w, st, l) && RegistryTrue(st)
    ensures RegistryTrue(Apply(w, st, l))
  {
    hide Sound, Guard, Apply, LogsGrow, Log, Stopping;
    var st' := Apply(w, st, l);
    NotifyExact(w, st, l.r, l.skip);
    StepGrowsLogs(w, st, l);
    var note := Note(st.rooms[l.r].name, |Log(st, st.rooms[l.r].name)|);
    assert True(st, note);
    TrueStays(st, st', note);
    hide True;
    forall i | 0 <= i < |st'.reg.notes| ensures True(st', st'.reg.notes[i]) {
      if i < |st.reg.notes| {
        TrueStays(st, st', st.reg.notes[i]);
      }
    }
    if st'.reg.mode.Pinging? {
      TrueStays(st, st', st.reg.mode.note);
    }
  }

  lemma FramesStayTrue(st: State, st': State, frames: seq<Out>)
    requires LogsGrow(st, st') && FramesTrue(st, frames)
    ensures FramesTrue(st', frames)
  {
    hide LogsGrow, True;
    forall note | Activity(note) in frames ensures True(st', note) {
      TrueStays(st, st', note);
    }
  }

  lemma AnswerSaysNone(n: Name, r: Option<Response>, note: Note)
    ensures Activity(note) !in Answer(n, r)
  {
    if r.Some? {
      NotesAt(n, r.value.gaps);
      SignedAt(r.value.msgs);
    }
  }

  /** No answer to a client is an activity note. */
  lemma TakenSaysNone(w: Hub, st: State, l: Label, note: Note)
    requires (l.LTakeJoin? || l.LTakeFrame?) && RoomGuard(w, st, l)
    ensures Activity(note) !in Owing(RoomStep(w, st, l), l.r)
  {
    if l.LTakeJoin? {
      JoinSaysNone(w, st, l.r, l.c, note);
    } else {
      HandleSaysNone(w, st.rooms[l.r], File(st, st.rooms[l.r].name), l.c, st.sessions[l.c].frame, l.ts, note);
    }
    hide TakeJoin, Handle, CanCount;
  }

  lemma JoinSaysNone(w: Hub, st: State, r: Rid, c: Cid, note: Note)
    requires RoomGuard(w, st, LTakeJoin(r, c))
    ensures Activity(note) !in Owing(TakeJoin(w, st, r, c), r)
  {
    var room := st.rooms[r];
    AnswerSaysNone(room.name, Since(w.ops, w.cfg.store, room.hist, File(st, room.name), st.sessions[c].since), note);
    hide Since, Answer;
  }

  lemma HandleSaysNone(w: Hub, room: Room, file: Bytes, c: Cid, f: Frame, ts: i64, note: Note)
    requires CanCount(room.hist) && room.phase.Running?
    ensures var p := Handle(w, room, file, c, f, ts).phase; p.Delivering? ==> Activity(note) !in p.frames
  {
    if f.BackfillFrame? && 0 < f.from <= f.to {
      AnswerSaysNone(room.name, RangeOf(w.ops, w.cfg.store, room.hist, file, f.from, f.to), note);
    }
    hide RangeOf, Answer, SealDraft, Publish, ShushDraft;
  }

  lemma DeliverOwes(w: Hub, st: State, l: Label, frames: seq<Out>)
    requires l.LDeliver? && Guard(w, st, l)
    ensures forall out :: out in Owing(Apply(w, st, l), l.r) ==> out in Owing(st, l.r)
  {
    DeliverPhase(w, st, l);
    hide Apply;
  }

  lemma CommandRooms(st: State, c: Cid, id: Rid, r: Rid)
    requires c in st.sessions && AtRegistry(st.sessions[c]) && r !in st.rooms && r in Command(st, c, id).rooms
    ensures Owing(Command(st, c, id), r) == []
  {
    hide AfterCommand;
  }

  lemma NewRoomOwes(w: Hub, st: State, l: Label, r: Rid)
    requires Guard(w, st, l) && r !in st.rooms
    ensures Owing(Apply(w, st, l), r) == []
  {
    if SessionLabel(l) {
      hide SessionGuard, SessionAfter, Send;
    } else if RoomLabel(l) {
      hide RoomGuard, RoomStep;
      RoomStepShape(w, st, l);
    } else if l.LCommand? && r in Command(st, l.c, l.id).rooms {
      CommandRooms(st, l.c, l.id, r);
      hide Command;
    } else {
      hide Command, Send, Kill, AfterCommand, Elsewhere, Occupied;
    }
  }

  lemma StepOwesTrue(w: Hub, st: State, l: Label, r: Rid)
    requires Guard(w, st, l) && !l.LRestart? && FramesTrue(st, Owing(st, r)) && LogsGrow(st, Apply(w, st, l))
    ensures FramesTrue(Apply(w, st, l), Owing(Apply(w, st, l), r))
  {
    var st' := Apply(w, st, l);
    FramesStayTrue(st, st', Owing(st, r));
    if r !in st.rooms {
      NewRoomOwes(w, st, l, r);
    } else if (l.LTakeJoin? || l.LTakeFrame?) && l.r == r {
      hide RoomGuard, RoomStep, LogsGrow, True, Owing;
      forall note: Note ensures Activity(note) !in Owing(st', r) {
        TakenSaysNone(w, st, l, note);
      }
    } else if l.LDeliver? && l.r == r {
      DeliverOwes(w, st, l, Owing(st, r));
    } else {
      StepAnswer(w, st, l, r);
    }
    hide Guard, Apply, LogsGrow, True;
  }

  /** An activity note that a step puts in a queue is the one being passed on. */
  lemma NoteMeant(w: Hub, st: State, l: Label, c: Cid, q: Queue<Out>, q': Queue<Out>, note: Note)
    requires Stepped(w, st, l, c, q, q') && Activity(note) in q'.out && NotesTrue(st)
    ensures True(st, note) || Activity(note) in q.out
  {
    hide True;
    if l.LDeliver? && l.r in st.rooms {
      assert FramesTrue(st, Owing(st, l.r));
    }
  }

  lemma StepQueuesTrue(w: Hub, st: State, l: Label, c: Cid)
    requires Guard(w, st, l) && !l.LRestart? && NotesTrue(st) && LogsGrow(st, Apply(w, st, l))
    requires c in Apply(w, st, l).queues
    ensures FramesTrue(Apply(w, st, l), Apply(w, st, l).queues[c].out)
  {
    hide Guard, Apply, LogsGrow, True, RegistryTrue, Owing;
    var st' := Apply(w, st, l);
    NewQueues(w, st, l, c);
    if !(l.LConnect? && l.c == c) {
      AnyStepQueue(w, st, l, c);
      hide Stepped, NotesTrue;
      forall note | Activity(note) in st'.queues[c].out ensures True(st', note) {
        NoteMeant(w, st, l, c, st.queues[c], st'.queues[c], note);
        if !True(st, note) {
          WasTrue(st, c, note);
        }
        TrueStays(st, st', note);
      }
    }
  }

  lemma WasTrue(st: State, c: Cid, note: Note)
    requires NotesTrue(st) && c in st.queues && Activity(note) in st.queues[c].out
    ensures True(st, note)
  {
    hide True;
  }

  lemma StepKeepsNotes(w: Hub, st: State, l: Label)
    requires Sound(w, st) && NotesTrue(st) && Guard(w, st, l)
    ensures NotesTrue(Apply(w, st, l))
  {
    hide Sound, Guard, Apply, LogsGrow, FramesTrue, RegistryTrue, Owing;
    var st' := Apply(w, st, l);
    if l.LRestart? {
      RestartNotes(w, st);
    } else {
      StepGrowsLogs(w, st, l);
      if l.LNotify? {
        NotifyKeepsTrue(w, st, l);
      } else {
        StepNotes(w, st, l);
        MoveKeepsTrue(st, l, st');
      }
      forall c | c in st'.queues ensures FramesTrue(st', st'.queues[c].out) {
        StepQueuesTrue(w, st, l, c);
      }
      forall r | r in st'.rooms ensures FramesTrue(st', Owing(st', r)) {
        WasOwed(st, r);
        StepOwesTrue(w, st, l, r);
      }
    }
  }

  lemma WasOwed(st: State, r: Rid)
    requires NotesTrue(st)
    ensures FramesTrue(st, Owing(st, r))
  {
    hide True;
  }

  lemma RestartNotes(w: Hub, st: State)
    ensures Guard(w, st, LRestart) && NotesTrue(Apply(w, st, LRestart))
  {
  }

  lemma {:induction false} RunKeepsNotes(w: Hub, st: State, ls: seq<Label>)
    requires Sound(w, st) && NotesTrue(st) && Run(w, st, ls)
    ensures NotesTrue(Outcome(w, st, ls))
    decreases |ls|
  {
    hide Sound, Guard, Apply, NotesTrue;
    if ls != [] {
      StepKeepsNotes(w, st, ls[0]);
      StepKeepsSound(w, st, ls[0]);
      RunKeepsNotes(w, Apply(w, st, ls[0]), ls[1..]);
    }
  }

  lemma NoNotes()
    ensures NotesTrue(Init())
  {
  }

  /** In every reachable state, whatever a client is told of another room, or the
      registry is about to tell, is a sequence that room has assigned and archived. */
  lemma NotesAreTrue(w: Hub, st: State)
    requires Lawful(w.ops) && Reachable(w, st)
    ensures NotesTrue(st)
  {
    hide Lawful, Run, Outcome, Sound, NotesTrue, Init;
    var ls :| Run(w, Init(), ls) && Outcome(w, Init(), ls) == st;
    InitSound(w);
    NoNotes();
    RunKeepsNotes(w, Init(), ls);
  }

  // ---- Everyone elsewhere is told --------------------------------------

  /** While a note is passed on, whoever is left to tell is recorded elsewhere. */
  ghost predicate TellsElsewhere(reg: Registry) {
    reg.mode.Pinging? ==> reg.mode.rest <= Elsewhere(reg, reg.mode.note.room)
  }

  lemma HubStepElsewhere(w: Hub, st: State, l: Label)
    requires !SessionLabel(l) && !RoomLabel(l) && HubGuard(st, l) && TellsElsewhere(st.reg)
    ensures TellsElsewhere(HubStep(w, st, l).reg)
  {
    if l.LCommand? {
      CommandNotes(st, l.c, l.id);
    }
    hide Command, Send, Kill, AfterCommand, Occupied;
  }

  lemma StepTellsElsewhere(w: Hub, st: State, l: Label)
    requires Guard(w, st, l) && TellsElsewhere(st.reg)
    ensures TellsElsewhere(Apply(w, st, l).reg)
  {
    hide SessionAfter, SessionGuard, RoomGuard, RoomStep, HubGuard, HubStep, Send, Elsewhere;
    if RoomLabel(l) {
      RoomStepRegistry(w, st, l);
      SameElsewhere(st.reg, Apply(w, st, l).reg);
    } else if !SessionLabel(l) {
      HubStepElsewhere(w, st, l);
    }
  }

  lemma SameElsewhere(reg: Registry, reg': Registry)
    requires TellsElsewhere(reg) && SameRecords(reg, reg')
    ensures TellsElsewhere(reg')
  {
  }

  lemma {:induction false} RunTellsElsewhere(w: Hub, st: State, ls: seq<Label>)
    requires Run(w, st, ls) && TellsElsewhere(st.reg)
    ensures TellsElsewhere(Outcome(w, st, ls).reg)
    decreases |ls|
  {
    hide Guard, Apply, TellsElsewhere;
    if ls != [] {
      StepTellsElsewhere(w, st, ls[0]);
      RunTellsElsewhere(w, Apply(w, st, ls[0]), ls[1..]);
    }
  }

  /** No one is told of activity in the room the registry has it in. */
  lemma NotToldOfOwnRoom(w: Hub, st: State, c: Cid, drop: bool)
    requires Reachable(w, st) && Guard(w, st, LPing(c, drop))
    ensures st.reg.mode.Pinging? && c in st.reg.clients && st.reg.clients[c] != Some(st.reg.mode.note.room)
  {
    hide Run, Outcome;
    var ls :| Run(w, Init(), ls) && Outcome(w, Init(), ls) == st;
    RunTellsElsewhere(w, Init(), ls);
  }

  ghost predicate StillToTell(reg: Registry, note: Note, c: Cid) {
    reg.mode.Pinging? && reg.mode.note == note && c in reg.mode.rest
  }

  lemma HubStepTells(w: Hub, st: State, l: Label, c: Cid, note: Note)
    requires !SessionLabel(l) && !RoomLabel(l) && HubGuard(st, l) && !l.LRestart?
    requires StillToTell(st.reg, note, c) && !(l.LPing? && l.c == c)
    ensures StillToTell(HubStep(w, st, l).reg, note, c)
  {
    if l.LPing? {
      assert c in st.reg.mode.rest - {l.c};
    }
    hide Command, Send, Kill, AfterCommand, Elsewhere, Occupied;
  }

  lemma StepTells(w: Hub, st: State, l: Label, c: Cid, note: Note)
    requires Guard(w, st, l) && !l.LRestart? && StillToTell(st.reg, note, c) && !(l.LPing? && l.c == c)
    ensures StillToTell(Apply(w, st, l).reg, note, c)
  {
    hide SessionAfter, SessionGuard, RoomGuard, RoomStep, HubGuard, HubStep, Send;
    if RoomLabel(l) {
      RoomStepRegistry(w, st, l);
    } else if !SessionLabel(l) {
      HubStepTells(w, st, l, c, note);
    }
  }

  /** A round of notes leaves no one out: whoever is to be told is told, or the round
      is still on with that one left. (What a ping does to the queue of the one
      told, the step lemma of the queues says.) */
  lemma {:induction false} RoundReachesAll(w: Hub, st: State, ls: seq<Label>, c: Cid, note: Note)
    requires Run(w, st, ls) && Uncrashed(ls) && StillToTell(st.reg, note, c)
    requires !StillToTell(Outcome(w, st, ls).reg, note, c)
    ensures exists i :: 0 <= i < |ls| && ls[i].LPing? && ls[i].c == c
    decreases |ls|
  {
    hide Guard, Apply, StillToTell;
    if ls != [] && !(ls[0].LPing? && ls[0].c == c) {
      StepTells(w, st, ls[0], c, note);
      RoundReachesAll(w, Apply(w, st, ls[0]), ls[1..], c, note);
      var i :| 0 <= i < |ls[1..]| && ls[1..][i].LPing? && ls[1..][i].c == c;
      assert ls[i + 1] == ls[1..][i];
    }
  }

  /** A note that is taken is to be passed on to everyone recorded elsewhere. */
  lemma RoundBegins(w: Hub, st: State, c: Cid)
    requires Guard(w, st, LTakeNote) && c in st.reg.clients
    ensures st.reg.notes != []
    ensures st.reg.clients[c] != Some(st.reg.notes[0].room) <==>
      StillToTell(Apply(w, st, LTakeNote).reg, st.reg.notes[0], c)
  {
    var note := st.reg.notes[0];
    assert st.reg.clients[c] != Some(note.room) <==> c in Elsewhere(st.reg, note.room);
  }
}
