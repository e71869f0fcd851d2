/** What clients are really handed: the frames put into their queues over any run
    are the answers to their requests and the unbroken stream of their room. */
module HubHanded {
  import opened Base
  import opened Envelope
  import opened Lines
  import opened ArchiveSpec
  import opened HistorySpec
  import opened Serving
  import opened RoomRules
  import opened Client
  import opened HubModel
  import opened HubAnswers
  import opened HubControl
  import opened HubSteps
  import opened HubSafety
  import opened HubData
  import opened HubUpkeep
  import opened HubMembers
  import opened HubRuns
  import opened HubQueues

  // ---- The stream ------------------------------------------------------

  lemma JoinStarts(w: Hub, st: State, r: Rid, c: Cid)
    requires Guard(w, st, LTakeJoin(r, c))
    ensures r in st.rooms && c in st.sessions && st.sessions[c].RoomJoining? && st.rooms[r].hist.lastSeq < U64_MAX
    ensures var st', h := Apply(w, st, LTakeJoin(r, c)), st.rooms[r].hist;
      && c in st'.streams && st'.queues == st.queues
      && st'.streams[c] == Stream(st.sessions[c].since, h.lastSeq,
           Since(w.ops, w.cfg.store, h, File(st, st.rooms[r].name), st.sessions[c].since), [])
  {
    hide Since, Answer;
  }

  lemma NothingPushed(w: Hub, st: State, ls: seq<Label>, c: Cid)
    requires Run(w, st, ls) && ls != [] && QueueOf(Apply(w, st, ls[0]), c) == QueueOf(st, c)
    ensures Pushed(w, st, ls, c) == Pushed(w, Apply(w, st, ls[0]), ls[1..], c)
  {
    hide Guard, Apply, ViaOf;
  }

  /** From a join on, the client's stream is what its queue was given: the response
      computed at the join, and every signed message that was queued for it since
      as part of the subscription. */
  lemma StreamSinceJoin(w: Hub, st: State, ls: seq<Label>, r: Rid, c: Cid)
    requires Run(w, st, ls) && ls != [] && ls[0] == LTakeJoin(r, c) && Present(st, c)
    requires Uncrashed(ls) && Subscribed(ls[1..], c)
    ensures r in st.rooms && c in st.sessions && st.sessions[c].RoomJoining? && st.rooms[r].hist.lastSeq < U64_MAX
    ensures c in Outcome(w, st, ls).streams
    ensures var h := st.rooms[r].hist;
      Outcome(w, st, ls).streams[c] == Stream(st.sessions[c].since, h.lastSeq,
        Since(w.ops, w.cfg.store, h, File(st, st.rooms[r].name), st.sessions[c].since),
        LiveMsgs(Pushed(w, st, ls, c)))
  {
    hide Guard, Apply, Since, LiveMsgs;
    JoinStarts(w, st, r, c);
    var st1 := Apply(w, st, ls[0]);
    StepQueue(w, st, ls[0], c);
    hide Stepped;
    NothingPushed(w, st, ls, c);
    StreamIsPushed(w, st1, ls[1..], c);
    assert [] + LiveMsgs(Pushed(w, st1, ls[1..], c)) == LiveMsgs(Pushed(w, st1, ls[1..], c));
  }

  /** The room's part in a subscription at the end of a run. */
  ghost predicate Served(st: State, r: Rid, c: Cid) {
    && r in st.rooms && InService(st.rooms[r].phase) && c in st.rooms[r].members && Connected(st, c)
    && !HubSteps.Answering(st.rooms[r].phase, c)
  }

  /** What a connected client is handed, over any run: leaving aside what was queued
      before it joined, the frames its pump took and those still queued are
      exactly those the run put there; and of these, the signed messages of the
      subscription are the response to its join and then every later message of
      the room, in order and without a hole, up to the newest, or the one before
      while the fan-out has not reached it. */
  lemma ClientIsHanded(w: Hub, st: State, ls: seq<Label>, r: Rid, c: Cid)
    requires Lawful(w.ops) && Reachable(w, st) && Run(w, st, ls)
    requires ls != [] && ls[0] == LTakeJoin(r, c) && Uncrashed(ls) && Subscribed(ls[1..], c)
    requires Served(Outcome(w, st, ls), r, c)
    ensures r in st.rooms && c in st.sessions && st.sessions[c].RoomJoining? && st.rooms[r].hist.lastSeq < U64_MAX
    ensures QueueOf(st, c) + Outs(Pushed(w, st, ls, c)) == Taken(w, st, ls, c) + QueueOf(Outcome(w, st, ls), c)
    ensures var st', h := Outcome(w, st, ls), st.rooms[r].hist;
      var log, resp := Log(st', st'.rooms[r].name),
        Since(w.ops, w.cfg.store, h, File(st, st.rooms[r].name), st.sessions[c].since);
      var n := Handed(st'.rooms[r].phase, c, |log|);
      && h.lastSeq <= n <= |log|
      && LiveMsgs(Pushed(w, st, ls, c)) == Msgs(resp) + log[h.lastSeq..n]
  {
    hide Lawful, Reachable, Run, Outcome, Pushed, Taken, Outs, LiveMsgs, QueueOf, Since, Sound, Log, InService,
      Connected, Answered, Guard;
    FirstStep(w, st, ls);
    ReachableSound(w, st);
    JoinerPresent(w, st, r, c);
    StreamSinceJoin(w, st, ls, r, c);
    QueueConserved(w, st, ls, c);
    RunKeepsSound(w, st, ls);
    SoundStream(w, Outcome(w, st, ls), r, c);
  }

  lemma FirstStep(w: Hub, st: State, ls: seq<Label>)
    requires Run(w, st, ls) && ls != []
    ensures Guard(w, st, ls[0]) && Run(w, Apply(w, st, ls[0]), ls[1..])
    ensures Outcome(w, st, ls) == Outcome(w, Apply(w, st, ls[0]), ls[1..])
  {
  }

  lemma SessionPresent(w: Hub, st: State, c: Cid)
    requires Sound(w, st) && c in st.sessions
    ensures Present(st, c)
  {
    hide Lawful, TableOK, PinsOK, WorkersOK, MembersOK, TableLive, NoneForgotten, RepliesOK, NamesOK, Counted, Data;
  }

  lemma JoinerPresent(w: Hub, st: State, r: Rid, c: Cid)
    requires Sound(w, st) && Guard(w, st, LTakeJoin(r, c))
    ensures Present(st, c)
  {
    assert c in st.sessions;
    hide Sound, Guard, Present;
    SessionPresent(w, st, c);
  }

  lemma SoundStream(w: Hub, st: State, r: Rid, c: Cid)
    requires Sound(w, st) && Served(st, r, c)
    ensures c in st.streams
    ensures var log := Log(st, st.rooms[r].name); UpTo(w, log, Handed(st.rooms[r].phase, c, |log|), st.streams[c])
  {
    hide Sound, FilesOK, MemoryOK, DeliveredOK, PendingOK, Answered, Log, InService, Connected;
    SoundParts(w, st);
    assert RoomStreams(w, st, r);
  }

  // ---- Queues hold what was delivered ----------------------------------

  /** The message was recorded as delivered. */
  ghost predicate Known(st: State, m: Message) { exists n: Name :: (n, m) in st.delivered }

  ghost predicate QueuesKnown(st: State) {
    forall c, m :: c in st.queues && Signed(m) in st.queues[c].out ==> Known(st, m)
  }

  /** A signed frame that a send put into a queue is recorded under the room. */
  lemma HandKnown(w: Hub, st: State, n: Name, d: Cid, out: Out, drop: bool, live: bool, m: Message)
    requires d in st.queues && out == Signed(m)
    ensures var st' := Hand(w, st, n, d, out, drop, live);
      st.delivered <= st'.delivered && (st'.queues[d].out != st.queues[d].out ==> (n, m) in st'.delivered)
  {
  }

  /** The room whose signed frame a step has for c. */
  lemma MeantKnown(w: Hub, st: State, l: Label, c: Cid, m: Message)
    requires RoomLabel(l) && RoomGuard(w, st, l) && c in st.queues && Meant(st, l, c) == Some(Signed(m))
    requires c in RoomStep(w, st, l).queues && RoomStep(w, st, l).queues[c].out != st.queues[c].out
    ensures (st.rooms[l.r].name, m) in RoomStep(w, st, l).delivered
  {
    var room := st.rooms[l.r];
    if l.LFan? {
      HandKnown(w, st, room.name, c, Signed(m), l.drop, true, m);
    } else {
      HandKnown(w, st, room.name, c, Signed(m), l.drop, room.phase.joining, m);
    }
    hide Hand;
  }

  /** What a step added to a queue, or did not take from it, is known after it. */
  lemma StepKnown(w: Hub, st: State, l: Label, c: Cid, m: Message)
    requires QueuesKnown(st) && Guard(w, st, l) && !l.LRestart? && c in st.queues && (l.LConnect? ==> l.c != c)
    requires c in Apply(w, st, l).queues && Signed(m) in Apply(w, st, l).queues[c].out
    ensures Known(Apply(w, st, l), m)
  {
    var st' := Apply(w, st, l);
    DeliveredStays(w, st, l);
    AnyStepQueue(w, st, l, c);
    if Signed(m) in st.queues[c].out {
      assert Known(st, m);
    } else {
      NewlyMeant(w, st, l, c, m, st.queues[c], st'.queues[c]);
      assert RoomLabel(l) && st' == RoomStep(w, st, l);
      hide RoomGuard, RoomStep, Meant, Stepped;
      MeantKnown(w, st, l, c, m);
    }
    hide SessionGuard, RoomGuard, HubGuard, SessionStep, RoomStep, HubStep, Meant, Stepped;
  }

  lemma NewlyMeant(w: Hub, st: State, l: Label, c: Cid, m: Message, q: Queue<Out>, q': Queue<Out>)
    requires Stepped(w, st, l, c, q, q') && Signed(m) in q'.out && Signed(m) !in q.out
    ensures Meant(st, l, c) == Some(Signed(m)) && (l.LFan? || l.LDeliver?)
  {
  }

  lemma HandKeys(w: Hub, st: State, n: Name, c: Cid, out: Out, drop: bool, live: bool)
    ensures Hand(w, st, n, c, out, drop, live).queues.Keys == st.queues.Keys
  {
    HandOffers(w, st, n, c, out, drop, live);
    hide Hand, Send;
  }

  lemma TalkQueueKeys(w: Hub, st: State, l: Label)
    requires (l.LFan? || l.LDeliver? || l.LFlush? || l.LKill?) && RoomGuard(w, st, l)
    ensures RoomStep(w, st, l).queues.Keys == st.queues.Keys
  {
    if l.LFan? {
      HandKeys(w, st, st.rooms[l.r].name, l.c, Signed(st.rooms[l.r].phase.m), l.drop, true);
    } else if l.LDeliver? && st.rooms[l.r].phase.frames != [] {
      var p := st.rooms[l.r].phase;
      HandKeys(w, st, st.rooms[l.r].name, p.client, p.frames[0], l.drop, p.joining);
    }
    hide Hand, Send, Kill, Flushed, AtRoom;
  }

  lemma RoomQueueKeys(w: Hub, st: State, l: Label)
    requires RoomLabel(l) && RoomGuard(w, st, l)
    ensures RoomStep(w, st, l).queues.Keys == st.queues.Keys
  {
    hide RoomGuard, RoomStep;
    if l.LFan? || l.LDeliver? || l.LFlush? || l.LKill? {
      TalkQueueKeys(w, st, l);
    } else {
      OtherRoomQueues(w, st, l);
    }
  }

  lemma HubQueueKeys(w: Hub, st: State, l: Label)
    requires !SessionLabel(l) && !RoomLabel(l) && HubGuard(st, l)
    ensures !l.LConnect? ==> HubStep(w, st, l).queues.Keys <= st.queues.Keys
    ensures l.LConnect? ==> HubStep(w, st, l).queues == st.queues[l.c := Queue([], None)]
  {
    if l.LCommand? {
      CommandLeaves(st, l.c, l.id);
    }
    hide Command, Send, Kill, AfterCommand, Elsewhere, Occupied;
  }

  /** Only a new connection gets a new queue, and that is empty. */
  lemma NewQueues(w: Hub, st: State, l: Label, c: Cid)
    requires Guard(w, st, l) && c in Apply(w, st, l).queues
    ensures if l.LConnect? && l.c == c then Apply(w, st, l).queues[c].out == [] else c in st.queues
  {
    if SessionLabel(l) {
      hide SessionGuard, SessionAfter, Send;
    } else if RoomLabel(l) {
      hide RoomGuard, RoomStep;
      RoomQueueKeys(w, st, l);
    } else {
      hide HubGuard, HubStep;
      HubQueueKeys(w, st, l);
    }
  }

  lemma RestartQueues(w: Hub, st: State)
    ensures Guard(w, st, LRestart) && Apply(w, st, LRestart).queues == map[]
  {
  }

  lemma StepKeepsKnown(w: Hub, st: State, l: Label)
    requires QueuesKnown(st) && Guard(w, st, l)
    ensures QueuesKnown(Apply(w, st, l))
  {
    hide Guard, Apply, Known;
    RestartQueues(w, st);
    forall c, m | c in Apply(w, st, l).queues && Signed(m) in Apply(w, st, l).queues[c].out
      ensures Known(Apply(w, st, l), m)
    {
      if !l.LRestart? {
        NewQueues(w, st, l, c);
        StepKnown(w, st, l, c, m);
      }
    }
  }

  lemma {:induction false} RunKeepsKnown(w: Hub, st: State, ls: seq<Label>)
    requires QueuesKnown(st) && Run(w, st, ls)
    ensures QueuesKnown(Outcome(w, st, ls))
    decreases |ls|
  {
    hide Guard, Apply, QueuesKnown;
    if ls != [] {
      StepKeepsKnown(w, st, ls[0]);
      RunKeepsKnown(w, Apply(w, st, ls[0]), ls[1..]);
    }
  }

  /** Every signed frame in any queue of any reachable state was recorded as
      delivered: what is proved of deliveries is true of the frames themselves. */
  lemma QueuedIsDelivered(w: Hub, st: State, c: Cid, m: Message) returns (n: Name)
    requires Reachable(w, st) && c in st.queues && Signed(m) in st.queues[c].out
    ensures (n, m) in st.delivered
  {
    hide Run, Outcome;
    var ls :| Run(w, Init(), ls) && Outcome(w, Init(), ls) == st;
    RunKeepsKnown(w, Init(), ls);
    assert Known(st, m);
    n :| (n, m) in st.delivered;
  }

  // ---- Answers arrive --------------------------------------------------

  /** The frames room r still has to send of the answer it is giving. */
  function Owing(st: State, r: Rid): seq<Out> {
    if r in st.rooms && st.rooms[r].phase.Delivering? then st.rooms[r].phase.frames else []
  }

  /** Whoever room r is answering is c. */
  predicate AnswersOnly(st: State, r: Rid, c: Cid) {
    r in st.rooms && (st.rooms[r].phase.Delivering? ==> st.rooms[r].phase.client == c)
  }

  /** Room r takes up no other request. */
  predicate SameRequest(ls: seq<Label>, r: Rid) {
    forall i :: 0 <= i < |ls| ==> !((ls[i].LTakeJoin? || ls[i].LTakeFrame?) && ls[i].r == r)
  }

  ghost predicate SameAnswer(st: State, st': State, r: Rid) {
    r in st.rooms ==>
      && r in st'.rooms
      && (st.rooms[r].phase.Delivering? || st'.rooms[r].phase.Delivering? ==>
           st'.rooms[r].phase == st.rooms[r].phase)
  }

  lemma TalkStepAnswer(w: Hub, st: State, l: Label)
    requires (l.LFan? || l.LKill? || l.LFlush? || l.LTakeLeave?) && RoomGuard(w, st, l)
    ensures SameAnswer(st, RoomStep(w, st, l), l.r)
  {
    if l.LFan? {
      HandIs(w, st, st.rooms[l.r].name, l.c, Signed(st.rooms[l.r].phase.m), l.drop, true);
    }
    hide Hand, Send, Kill, Flushed, AtRoom, AfterRoomDone;
  }

  lemma OwnStepAnswer(w: Hub, st: State, l: Label)
    requires RoomLabel(l) && RoomGuard(w, st, l) && !l.LDeliver? && !l.LTakeJoin? && !l.LTakeFrame?
    ensures SameAnswer(st, RoomStep(w, st, l), l.r)
  {
    if l.LFan? || l.LKill? || l.LFlush? || l.LTakeLeave? {
      hide RoomGuard, RoomStep, SameAnswer;
      TalkStepAnswer(w, st, l);
    } else {
      hide Repair, OpenMemory, Remember, Line;
    }
  }

  lemma HubStepAnswer(w: Hub, st: State, l: Label, r: Rid)
    requires !SessionLabel(l) && !RoomLabel(l) && HubGuard(st, l) && !l.LRestart?
    ensures SameAnswer(st, HubStep(w, st, l), r)
  {
    if l.LCommand? {
      CommandMoves(st, l.c, l.id);
    }
    hide Command, Send, Kill, AfterCommand, Elsewhere, Occupied, HandedOut;
  }

  lemma StepAnswer(w: Hub, st: State, l: Label, r: Rid)
    requires Guard(w, st, l) && !l.LRestart? && !((l.LTakeJoin? || l.LTakeFrame? || l.LDeliver?) && l.r == r)
    ensures SameAnswer(st, Apply(w, st, l), r)
  {
    hide RoomGuard, RoomStep, HubGuard, HubStep;
    if SessionLabel(l) {
      hide SessionGuard, SessionAfter, Send;
    } else if RoomLabel(l) {
      if l.r == r {
        OwnStepAnswer(w, st, l);
      } else {
        RoomStepShape(w, st, l);
      }
    } else {
      HubStepAnswer(w, st, l, r);
    }
  }

  /** One frame of the answer: queued, and owed no more. */
  lemma DeliverStep(w: Hub, st: State, l: Label, c: Cid)
    requires l.LDeliver? && Guard(w, st, l) && Present(st, c) && AnswersOnly(st, l.r, c)
    ensures var st' := Apply(w, st, l);
      && AnswersOnly(st', l.r, c) && Present(st', c)
      && (Connected(st', c) ==>
           Added(QueueOf(st, c), QueueOf(st', c)) + Owing(st', l.r) == Owing(st, l.r) && Connected(st, c))
      && AnswerOf(ViaOf(st, l), l.r)
  {
    var p := st.rooms[l.r].phase;
    var st' := Apply(w, st, l);
    StepQueue(w, st, l, c);
    DeliverPhase(w, st, l);
    assert Meant(st, l, c) == (if p.frames != [] then Some(p.frames[0]) else None);
    hide Apply, Guard, Meant;
    var q, q' := st.queues[c], st'.queues[c];
    if p.frames != [] && q'.closed.None? {
      OfferedAdds(w, q, q', p.frames[0]);
    } else {
      AddedOne(q.out, Refusal);
    }
    hide Added, Offered;
  }

  lemma OfferedAdds(w: Hub, q: Queue<Out>, q': Queue<Out>, f: Out)
    requires Offered(w, q, q', f) && q'.closed.None?
    ensures Added(q.out, q'.out) == [f] && q.closed.None?
  {
    AddedOne(q.out, f);
  }

  lemma DeliverPhase(w: Hub, st: State, l: Label)
    requires l.LDeliver? && Guard(w, st, l)
    ensures var st', p := Apply(w, st, l), st.rooms[l.r].phase;
      && l.r in st'.rooms
      && st'.rooms[l.r].phase ==
           if p.frames == [] then Running else Phase.Delivering(p.client, p.frames[1..], p.joining)
  {
    assert Apply(w, st, l) == DeliverOne(w, st, l.r, l.drop);
    hide Apply, DeliverOne, BesidesRoom, ClosedStays, Moves;
    if st.rooms[l.r].phase.frames == [] {
      AnswerEndsShapes(w, st, l.r, l.drop);
    } else {
      DeliverShapes(w, st, l.r, l.drop);
    }
  }

  lemma ConnectedBefore(w: Hub, st: State, l: Label, c: Cid)
    requires Guard(w, st, l) && !l.LRestart? && Present(st, c) && Connected(Apply(w, st, l), c)
    ensures Connected(st, c)
  {
    StepQueue(w, st, l, c);
    hide *;
    OpenBefore(w, st, l, c, st.queues[c], Apply(w, st, l).queues[c]);
  }

  lemma OpenBefore(w: Hub, st: State, l: Label, c: Cid, q: Queue<Out>, q': Queue<Out>)
    requires Stepped(w, st, l, c, q, q') && q'.closed.None?
    ensures q.closed.None?
  {
    hide Meant;
  }

  lemma {:induction false} ConnectedThroughout(w: Hub, st: State, ls: seq<Label>, c: Cid)
    requires Run(w, st, ls) && Uncrashed(ls) && Present(st, c) && Connected(Outcome(w, st, ls), c)
    ensures Connected(st, c)
    decreases |ls|
  {
    hide Guard, Apply, Connected;
    if ls != [] {
      StepQueue(w, st, ls[0], c);
      hide Stepped;
      ConnectedThroughout(w, Apply(w, st, ls[0]), ls[1..], c);
      ConnectedBefore(w, st, ls[0], c);
    }
  }

  /** While a client stays connected, the frames its room has queued for it and
      those it still owes are the answer: none is lost, none repeated, in order. */
  lemma {:induction false} AnswerArrives(w: Hub, st: State, ls: seq<Label>, r: Rid, c: Cid)
    requires Run(w, st, ls) && Uncrashed(ls) && SameRequest(ls, r) && Present(st, c) && AnswersOnly(st, r, c)
    requires Connected(Outcome(w, st, ls), c)
    ensures AnsweredBy(Pushed(w, st, ls, c), r) + Owing(Outcome(w, st, ls), r) == Owing(st, r)
    decreases |ls|
  {
    hide Guard, Apply, Connected, Marked, ViaOf, AnswerOf, Added, QueueOf, Owing, AnswersOnly, AnsweredBy;
    if ls == [] {
      NoAnswer(r);
      assert [] + Owing(st, r) == Owing(st, r);
    } else {
      var l, st' := ls[0], Apply(w, st, ls[0]);
      StepQueue(w, st, l, c);
      hide Stepped;
      ConnectedThroughout(w, st', ls[1..], c);
      var added := Added(QueueOf(st, c), QueueOf(st', c));
      var now := if AnswerOf(ViaOf(st, l), r) then added else [];
      assert AnswersOnly(st', r, c) && now + Owing(st', r) == Owing(st, r) by {
        StepOwing(w, st, l, r, c);
      }
      AnswerArrives(w, st', ls[1..], r, c);
      AnsweredStep(st, st', l, r, c, Pushed(w, st', ls[1..], c));
      Assoc(now, AnsweredBy(Pushed(w, st', ls[1..], c), r), Owing(Outcome(w, st', ls[1..]), r));
    }
  }

  lemma NoAnswer(r: Rid)
    ensures AnsweredBy([], r) == []
  {
  }

  lemma AnsweredStep(st: State, st': State, l: Label, r: Rid, c: Cid, rest: seq<Push>)
    ensures var added := Added(QueueOf(st, c), QueueOf(st', c));
      AnsweredBy(Marked(added, ViaOf(st, l)) + rest, r)
        == (if AnswerOf(ViaOf(st, l), r) then added else []) + AnsweredBy(rest, r)
  {
    var added := Added(QueueOf(st, c), QueueOf(st', c));
    hide *;
    MarkedIs(added, ViaOf(st, l), r);
    AnsweredAppend(Marked(added, ViaOf(st, l)), rest, r);
  }

  lemma StepOwing(w: Hub, st: State, l: Label, r: Rid, c: Cid)
    requires Guard(w, st, l) && !l.LRestart? && Present(st, c) && AnswersOnly(st, r, c)
    requires !((l.LTakeJoin? || l.LTakeFrame?) && l.r == r) && Connected(Apply(w, st, l), c)
    ensures AnswersOnly(Apply(w, st, l), r, c)
    ensures var st' := Apply(w, st, l);
      (if AnswerOf(ViaOf(st, l), r) then Added(QueueOf(st, c), QueueOf(st', c)) else []) + Owing(st', r)
        == Owing(st, r)
  {
    if l.LDeliver? && l.r == r {
      hide Guard, Apply, Connected, Added, QueueOf;
      DeliverStep(w, st, l, c);
    } else {
      StepAnswer(w, st, l, r);
      assert !AnswerOf(ViaOf(st, l), r);
      hide Guard, Apply, Connected, Added, QueueOf;
      assert Owing(Apply(w, st, l), r) == Owing(st, r);
      assert [] + Owing(st, r) == Owing(st, r);
    }
  }

  /** What a client that asked to join, and is still connected when its room is
      through with the answer, was sent for it: the room's newest sequence, and
      then exactly one frame, message or gap, for each sequence it did not have,
      unless withheld. Nothing more if it had the newest already. */
  lemma JoinIsAnswered(w: Hub, st: State, ls: seq<Label>, r: Rid, c: Cid)
    requires Reachable(w, st) && Run(w, st, ls) && Uncrashed(ls)
    requires ls != [] && ls[0] == LTakeJoin(r, c) && SameRequest(ls[1..], r)
    requires Connected(Outcome(w, st, ls), c) && Owing(Outcome(w, st, ls), r) == []
    ensures r in st.rooms && c in st.sessions && st.sessions[c].RoomJoining? && st.rooms[r].hist.lastSeq < U64_MAX
    ensures var h, n, since := st.rooms[r].hist, st.rooms[r].name, st.sessions[c].since;
      var frames := AnsweredBy(Pushed(w, st, ls, c), r);
      && frames != [] && frames[0] == Joined(n, h.lastSeq)
      && (since >= h.lastSeq ==> |frames| == 1)
      && (if Since(w.ops, w.cfg.store, h, File(st, n), since).None? then frames[1..] == [Refusal]
          else Told(frames, n, h.shushed, since + 1, h.lastSeq, SinceStart(w.cfg.store, h, since), h.lastSeq))
  {
    hide Guard, Apply, Reachable, Connected, Since, SinceStart, Told, TakeJoin, QueueOf, AnsweredBy, Present, RoomGuard,
      Owing, AnswersOnly, Pushed, Run, Outcome;
    FirstStep(w, st, ls);
    JoinStarts(w, st, r, c);
    JoinTaken(w, st, r, c);
    JoinTold(w, st, r, c);
    var st1 := Apply(w, st, ls[0]);
    ReachablePresent(w, st, c);
    TakenPresent(w, st, ls[0], c);
    SameQueueOf(st, st1, c);
    NothingPushed(w, st, ls, c);
    AnswerArrives(w, st1, ls[1..], r, c);
    assert AnsweredBy(Pushed(w, st, ls, c), r) + [] == AnsweredBy(Pushed(w, st, ls, c), r);
  }

  lemma SameQueueOf(st: State, st': State, c: Cid)
    requires st'.queues == st.queues
    ensures QueueOf(st', c) == QueueOf(st, c)
  {
  }

  lemma ReachablePresent(w: Hub, st: State, c: Cid)
    requires Reachable(w, st) && c in st.sessions
    ensures Present(st, c)
  {
    hide Reachable, TableOK, PinsOK, WorkersOK, MembersOK, TableLive, NoneForgotten, RepliesOK, NamesOK, Counted;
    ReachableControl(w, st);
  }

  lemma TakenPresent(w: Hub, st: State, l: Label, c: Cid)
    requires Guard(w, st, l) && !l.LRestart? && Present(st, c)
    ensures Present(Apply(w, st, l), c)
  {
    hide Guard, Apply;
    StepQueue(w, st, l, c);
  }

  lemma JoinTaken(w: Hub, st: State, r: Rid, c: Cid)
    requires Guard(w, st, LTakeJoin(r, c))
    ensures RoomGuard(w, st, LTakeJoin(r, c)) && Apply(w, st, LTakeJoin(r, c)) == TakeJoin(w, st, r, c)
    ensures r in TakeJoin(w, st, r, c).rooms
    ensures AnswersOnly(TakeJoin(w, st, r, c), r, c)
    ensures Owing(TakeJoin(w, st, r, c), r) == TakeJoin(w, st, r, c).rooms[r].phase.frames
  {
    JoinTold(w, st, r, c);
    hide Since, Told, Answer;
  }

  lemma FrameTaken(w: Hub, st: State, r: Rid, c: Cid, ts: i64)
    requires Guard(w, st, LTakeFrame(r, c, ts)) && st.sessions[c].frame.BackfillFrame?
    ensures r in st.rooms && c in st.sessions && st.rooms[r].hist.lastSeq < U64_MAX
    ensures RoomGuard(w, st, LTakeFrame(r, c, ts)) && Apply(w, st, LTakeFrame(r, c, ts)) == TakeFrame(w, st, r, c, ts)
    ensures r in TakeFrame(w, st, r, c, ts).rooms
    ensures AnswersOnly(TakeFrame(w, st, r, c, ts), r, c)
    ensures TakeFrame(w, st, r, c, ts).queues == st.queues
    ensures Owing(TakeFrame(w, st, r, c, ts), r) == TakeFrame(w, st, r, c, ts).rooms[r].phase.frames
  {
    BackfillTold(w, st, r, c, ts);
    hide RangeOf, Told, Answer, Handle;
  }

  /** The same for a request for a span: exactly one frame for each assigned
      sequence of it, unless withheld; one refusal if it is no span or the archive
      cannot be read. */
  lemma BackfillIsAnswered(w: Hub, st: State, ls: seq<Label>, r: Rid, c: Cid, ts: i64)
    requires Reachable(w, st) && Run(w, st, ls) && Uncrashed(ls)
    requires ls != [] && ls[0] == LTakeFrame(r, c, ts) && SameRequest(ls[1..], r)
    requires c in st.sessions && st.sessions[c].Submitting? && st.sessions[c].frame.BackfillFrame?
    requires Connected(Outcome(w, st, ls), c) && Owing(Outcome(w, st, ls), r) == []
    ensures r in st.rooms && st.rooms[r].hist.lastSeq < U64_MAX
    ensures var h, n, f := st.rooms[r].hist, st.rooms[r].name, st.sessions[c].frame;
      var frames := AnsweredBy(Pushed(w, st, ls, c), r);
      if f.from == 0 || f.to < f.from then frames == [Refusal]
      else if f.from > h.lastSeq then frames == []
      else if RangeOf(w.ops, w.cfg.store, h, File(st, n), f.from, f.to).None? then frames == [Refusal]
      else
        Told(frames, n, h.shushed, f.from, if f.to < h.lastSeq then f.to else h.lastSeq,
          f.from, RangeEnd(w.cfg.store, h, f.from, f.to))
  {
    hide Guard, Apply, Reachable, Connected, RangeOf, RangeEnd, Told, TakeFrame, QueueOf, AnsweredBy, Present,
      RoomGuard, Owing, AnswersOnly, Pushed, Run, Outcome;
    FirstStep(w, st, ls);
    FrameTaken(w, st, r, c, ts);
    BackfillTold(w, st, r, c, ts);
    var st1 := Apply(w, st, ls[0]);
    ReachablePresent(w, st, c);
    TakenPresent(w, st, ls[0], c);
    SameQueueOf(st, st1, c);
    NothingPushed(w, st, ls, c);
    AnswerArrives(w, st1, ls[1..], r, c);
    assert AnsweredBy(Pushed(w, st, ls, c), r) + [] == AnsweredBy(Pushed(w, st, ls, c), r);
  }
}
