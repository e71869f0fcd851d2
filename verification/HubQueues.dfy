/** What is in the clients' queues and what their write pumps take from them, over
    runs: the frames themselves, not the history variables beside them. */
module HubQueues {
  import opened Base
  import opened Envelope
  import opened Lines
  import opened ArchiveSpec
  import opened HistorySpec
  import opened Client
  import opened HubModel
  import opened HubSteps
  import opened HubSafety
  import opened HubData
  import opened HubMembers

  // ---- One step --------------------------------------------------------

  /** The frame a step has for client c, if any. */
  function Meant(st: State, l: Label, c: Cid): Option<Out> {
    match l
    case LFan(r, d, _) =>
      if d == c && r in st.rooms && st.rooms[r].phase.Fanning? then Some(Signed(st.rooms[r].phase.m)) else None
    case LDeliver(r, _) =>
      if r in st.rooms && st.rooms[r].phase.Delivering? && st.rooms[r].phase.client == c
         && st.rooms[r].phase.frames != []
      then Some(st.rooms[r].phase.frames[0]) else None
    case LPing(d, _) => if d == c && st.reg.mode.Pinging? then Some(Activity(st.reg.mode.note)) else None
    case LFlush(_, d, _) =>
      if d == c && c in st.sessions && st.sessions[c].Submitting? then Some(Refusal) else None
    case LRefuse(d, _) => if d == c then Some(Refusal) else None
    case _ => None
  }

  /** What may become of a queue the step has this frame for: it is queued last, or
      the connection is closed; an open connection with room left takes it. */
  ghost predicate Offered(w: Hub, q: Queue<Out>, q': Queue<Out>, f: Out) {
    && (q'.out == q.out + [f] || (q'.out == q.out && q'.closed.Some?))
    && (q.closed.None? ==>
         if |q.out| < w.cfg.Buffer() then q' == Queue(q.out + [f], None)
         else q' == Queue(q.out, Some(CLOSE_SLOW_CONSUMER)))
    && (q.closed.Some? ==> q'.closed == q.closed)
  }

  /** What one step does to one queue. The pump takes the oldest frame; a step with
      a frame for this client offers it; a kill closes; nothing else happens. */
  ghost predicate Stepped(w: Hub, st: State, l: Label, c: Cid, q: Queue<Out>, q': Queue<Out>) {
    match Meant(st, l, c)
    case Some(f) => Offered(w, q, q', f)
    case None =>
      if l == LPump(c) then q.out != [] && q' == q.(out := q.out[1..])
      else if l.LHangup? && l.c == c then q' == Kill(q, l.code)
      else if l.LShutdown? || (l.LKill? && l.c == c) then q' == q || q' == Kill(q, CLOSE_SERVER_ERROR)
      else q' == q
  }

  lemma EnqueueOffers(w: Hub, st: State, c: Cid, out: Out, drop: bool)
    requires c in st.queues
    ensures var st' := Enqueue(w, st, c, out, drop);
      && c in st'.queues && Offered(w, st.queues[c], st'.queues[c], out)
      && (forall d :: d != c && d in st.queues ==> d in st'.queues && st'.queues[d] == st.queues[d])
  {
  }

  lemma HandOffers(w: Hub, st: State, n: Name, c: Cid, out: Out, drop: bool, live: bool)
    ensures Hand(w, st, n, c, out, drop, live).queues == Enqueue(w, st, c, out, drop).queues
  {
  }

  /** A send to d, seen from c's queue. */
  ghost predicate Sent(w: Hub, st: State, st': State, d: Cid, f: Out, c: Cid)
    requires c in st.queues
  {
    c in st'.queues && if d == c then Offered(w, st.queues[c], st'.queues[c], f) else st'.queues[c] == st.queues[c]
  }

  lemma EnqueueSent(w: Hub, st: State, d: Cid, f: Out, drop: bool, c: Cid)
    requires c in st.queues
    ensures Sent(w, st, Enqueue(w, st, d, f, drop), d, f, c)
  {
    if d in st.queues {
      EnqueueOffers(w, st, d, f, drop);
    }
    hide Send, Offered;
  }

  lemma FanQueue(w: Hub, st: State, l: Label, c: Cid)
    requires l.LFan? && RoomGuard(w, st, l) && c in st.queues
    ensures Sent(w, st, RoomStep(w, st, l), l.c, Signed(st.rooms[l.r].phase.m), c)
  {
    HandOffers(w, st, st.rooms[l.r].name, l.c, Signed(st.rooms[l.r].phase.m), l.drop, true);
    EnqueueSent(w, st, l.c, Signed(st.rooms[l.r].phase.m), l.drop, c);
    hide Hand, Enqueue, Offered;
  }

  lemma DeliverQueue(w: Hub, st: State, l: Label, c: Cid)
    requires l.LDeliver? && RoomGuard(w, st, l) && c in st.queues
    ensures var p := st.rooms[l.r].phase;
      if p.frames == [] then RoomStep(w, st, l).queues == st.queues
      else Sent(w, st, RoomStep(w, st, l), p.client, p.frames[0], c)
  {
    var p := st.rooms[l.r].phase;
    if p.frames != [] {
      HandOffers(w, st, st.rooms[l.r].name, p.client, p.frames[0], l.drop, p.joining);
      EnqueueSent(w, st, p.client, p.frames[0], l.drop, c);
    }
    hide Hand, Enqueue, Offered;
  }

  lemma FlushQueue(w: Hub, st: State, l: Label, c: Cid)
    requires l.LFlush? && RoomGuard(w, st, l) && c in st.queues
    ensures if st.sessions[l.c].Submitting? then Sent(w, st, RoomStep(w, st, l), l.c, Refusal, c)
      else RoomStep(w, st, l).queues == st.queues
  {
    EnqueueSent(w, st, l.c, Refusal, l.drop, c);
    hide Enqueue, Offered, Flushed, AtRoom;
  }

  lemma KillQueue(w: Hub, st: State, l: Label, c: Cid)
    requires l.LKill? && RoomGuard(w, st, l) && c in st.queues
    ensures var st' := RoomStep(w, st, l);
      c in st'.queues && st'.queues[c] == if l.c == c then Kill(st.queues[c], CLOSE_SERVER_ERROR) else st.queues[c]
  {
    hide Kill;
  }

  lemma TalkStepQueue(w: Hub, st: State, l: Label, c: Cid)
    requires (l.LFan? || l.LDeliver? || l.LFlush? || l.LKill?) && RoomGuard(w, st, l) && c in st.queues
    ensures var st' := RoomStep(w, st, l);
      c in st'.queues && Stepped(w, st, l, c, st.queues[c], st'.queues[c])
  {
    if l.LFan? {
      FanQueue(w, st, l, c);
    } else if l.LDeliver? {
      DeliverQueue(w, st, l, c);
    } else if l.LFlush? {
      FlushQueue(w, st, l, c);
    } else {
      KillQueue(w, st, l, c);
    }
    hide RoomStep, Offered, AtRoom, Kill;
  }

  lemma TakeStepQueues(w: Hub, st: State, l: Label)
    requires (l.LTakeJoin? || l.LTakeLeave? || l.LTakeFrame?) && RoomGuard(w, st, l)
    ensures RoomStep(w, st, l).queues == st.queues
  {
    hide Handle, AfterRoomDone, Since, Answer, CanCount;
  }

  lemma OtherRoomQueues(w: Hub, st: State, l: Label)
    requires RoomLabel(l) && RoomGuard(w, st, l) && !(l.LFan? || l.LDeliver? || l.LFlush? || l.LKill?)
    ensures RoomStep(w, st, l).queues == st.queues
  {
    if l.LTakeJoin? || l.LTakeLeave? || l.LTakeFrame? {
      hide RoomGuard, RoomStep;
      TakeStepQueues(w, st, l);
    } else {
      hide Repair, OpenMemory, Remember, Line;
    }
  }

  lemma RoomStepQueue(w: Hub, st: State, l: Label, c: Cid)
    requires RoomLabel(l) && RoomGuard(w, st, l) && c in st.queues
    ensures var st' := RoomStep(w, st, l);
      c in st'.queues && Stepped(w, st, l, c, st.queues[c], st'.queues[c])
  {
    if l.LFan? || l.LDeliver? || l.LFlush? || l.LKill? {
      hide RoomGuard, RoomStep, Stepped;
      TalkStepQueue(w, st, l, c);
    } else {
      OtherRoomQueues(w, st, l);
      hide RoomGuard, RoomStep;
    }
  }

  lemma SessionStepQueue(w: Hub, st: State, l: Label, c: Cid)
    requires SessionLabel(l) && SessionGuard(st, l) && c in st.queues
    ensures var st' := SessionStep(w, st, l);
      c in st'.queues && Stepped(w, st, l, c, st.queues[c], st'.queues[c])
  {
    if l.LRefuse? {
      EnqueueSent(w, st, l.c, Refusal, l.drop, c);
    }
    hide SessionAfter, SessionGuard, Enqueue, Offered;
  }

  lemma HubStepQueue(w: Hub, st: State, l: Label, c: Cid)
    requires !SessionLabel(l) && !RoomLabel(l) && HubGuard(st, l) && !l.LRestart?
    requires c in st.queues && (l.LConnect? ==> l.c != c)
    ensures var st' := HubStep(w, st, l);
      c in st'.queues && Stepped(w, st, l, c, st.queues[c], st'.queues[c])
  {
    if l.LPing? {
      EnqueueSent(w, st, l.c, Activity(st.reg.mode.note), l.drop, c);
    }
    hide Enqueue, Offered, AfterCommand, Elsewhere, Occupied, Pinged;
  }

  lemma StepSessions(w: Hub, st: State, l: Label)
    requires Guard(w, st, l) && !l.LRestart?
    ensures st.sessions.Keys <= Apply(w, st, l).sessions.Keys
  {
    if SessionLabel(l) {
      hide SessionAfter, Send;
    } else if RoomLabel(l) {
      hide RoomGuard, RoomStep;
      RoomSessionKeys(w, st, l);
    } else {
      hide HubGuard, HubStep;
      HubStepKeys(w, st, l);
    }
  }

  /** A session with its connection's queue. */
  ghost predicate Present(st: State, c: Cid) { c in st.sessions && c in st.queues }

  lemma AnyStepQueue(w: Hub, st: State, l: Label, c: Cid)
    requires Guard(w, st, l) && !l.LRestart? && c in st.queues && (l.LConnect? ==> l.c != c)
    ensures var st' := Apply(w, st, l);
      c in st'.queues && Stepped(w, st, l, c, st.queues[c], st'.queues[c])
  {
    hide SessionGuard, RoomGuard, SessionStep, RoomStep, HubStep, Stepped;
    if SessionLabel(l) {
      SessionStepQueue(w, st, l, c);
    } else if RoomLabel(l) {
      RoomStepQueue(w, st, l, c);
    } else {
      HubStepQueue(w, st, l, c);
    }
  }

  /** Every step, seen from one connection's queue. */
  lemma StepQueue(w: Hub, st: State, l: Label, c: Cid)
    requires Guard(w, st, l) && !l.LRestart? && Present(st, c)
    ensures var st' := Apply(w, st, l);
      Present(st', c) && Stepped(w, st, l, c, st.queues[c], st'.queues[c])
  {
    StepSessions(w, st, l);
    hide SessionGuard, RoomGuard, Apply, Stepped;
    AnyStepQueue(w, st, l, c);
  }

  // ---- Over a run ------------------------------------------------------

  /** Which room's step queued a frame: answering a request, a join or not, or
      fanning a message out; or none. */
  datatype Via = Answering(r: Rid, joining: bool) | Fanned(r: Rid) | Aside

  function ViaOf(st: State, l: Label): Via {
    if l.LFan? then Fanned(l.r)
    else if l.LDeliver? && l.r in st.rooms && st.rooms[l.r].phase.Delivering? then
      Via.Answering(l.r, st.rooms[l.r].phase.joining)
    else Aside
  }

  /** Part of a subscription: the answer to the join, or the fan-out. */
  predicate InStream(v: Via) { v.Fanned? || (v.Answering? && v.joining) }

  datatype Push = Push(out: Out, via: Via)

  function QueueOf(st: State, c: Cid): seq<Out> { if c in st.queues then st.queues[c].out else [] }

  /** What a step put at the end of a queue. */
  function Added(out: seq<Out>, out': seq<Out>): seq<Out> { if |out'| > |out| then out'[|out|..] else [] }

  function Marked(frames: seq<Out>, via: Via): seq<Push> {
    if frames == [] then [] else [Push(frames[0], via)] + Marked(frames[1..], via)
  }

  /** What a run put into c's queue, by the queue alone: the difference of each
      step, with the step that made it. */
  function Pushed(w: Hub, st: State, ls: seq<Label>, c: Cid): seq<Push>
    requires Run(w, st, ls)
    decreases |ls|
  {
    if ls == [] then [] else
    var st' := Apply(w, st, ls[0]);
    Marked(Added(QueueOf(st, c), QueueOf(st', c)), ViaOf(st, ls[0])) + Pushed(w, st', ls[1..], c)
  }

  /** What the write pump took from c's queue over a run. */
  function Taken(w: Hub, st: State, ls: seq<Label>, c: Cid): seq<Out>
    requires Run(w, st, ls)
    decreases |ls|
  {
    if ls == [] then [] else
    (if ls[0] == LPump(c) && QueueOf(st, c) != [] then [QueueOf(st, c)[0]] else [])
      + Taken(w, Apply(w, st, ls[0]), ls[1..], c)
  }

  function Outs(ps: seq<Push>): seq<Out> { if ps == [] then [] else [ps[0].out] + Outs(ps[1..]) }

  /** The signed messages of the pushes that are part of the subscription. */
  function LiveMsgs(ps: seq<Push>): seq<Message> {
    if ps == [] then [] else LiveMsg(ps[0]) + LiveMsgs(ps[1..])
  }

  function LiveMsg(p: Push): seq<Message> { if InStream(p.via) && p.out.Signed? then [p.out.m] else [] }

  predicate AnswerOf(v: Via, r: Rid) { v.Answering? && v.r == r }

  /** The frames with which room r answered. */
  function AnsweredBy(ps: seq<Push>, r: Rid): seq<Out> {
    if ps == [] then [] else AnswerFrame(ps[0], r) + AnsweredBy(ps[1..], r)
  }

  function AnswerFrame(p: Push, r: Rid): seq<Out> { if AnswerOf(p.via, r) then [p.out] else [] }

  lemma {:induction false} OutsAppend(a: seq<Push>, b: seq<Push>)
    ensures Outs(a + b) == Outs(a) + Outs(b)
  {
    if a == [] {
      assert a + b == b;
    } else {
      OutsAppend(a[1..], b);
      assert (a + b)[1..] == a[1..] + b;
    }
  }

  lemma {:induction false} LiveAppend(a: seq<Push>, b: seq<Push>)
    ensures LiveMsgs(a + b) == LiveMsgs(a) + LiveMsgs(b)
  {
    hide LiveMsg;
    if a == [] {
      assert a + b == b;
    } else {
      LiveAppend(a[1..], b);
      assert (a + b)[1..] == a[1..] + b;
      Assoc(LiveMsg(a[0]), LiveMsgs(a[1..]), LiveMsgs(b));
    }
  }

  lemma {:induction false} AnsweredAppend(a: seq<Push>, b: seq<Push>, r: Rid)
    ensures AnsweredBy(a + b, r) == AnsweredBy(a, r) + AnsweredBy(b, r)
  {
    hide AnswerFrame;
    if a == [] {
      assert a + b == b;
    } else {
      AnsweredAppend(a[1..], b, r);
      assert (a + b)[1..] == a[1..] + b;
      Assoc(AnswerFrame(a[0], r), AnsweredBy(a[1..], r), AnsweredBy(b, r));
    }
  }

  lemma {:induction false} MarkedIs(frames: seq<Out>, via: Via, r: Rid)
    ensures Outs(Marked(frames, via)) == frames
    ensures LiveMsgs(Marked(frames, via)) == if InStream(via) then SignedOf(frames) else []
    ensures AnsweredBy(Marked(frames, via), r) == if AnswerOf(via, r) then frames else []
  {
    if frames != [] {
      MarkedIs(frames[1..], via, r);
      var m := Marked(frames, via);
      assert m[0] == Push(frames[0], via) && m[1..] == Marked(frames[1..], via);
    }
  }

  /** First in, first out, and nothing lost: what was queued and what the run put
      there is what the pump took and what is queued now. */
  lemma {:induction false} QueueConserved(w: Hub, st: State, ls: seq<Label>, c: Cid)
    requires Run(w, st, ls) && Uncrashed(ls) && Present(st, c)
    ensures Present(Outcome(w, st, ls), c)
    ensures QueueOf(st, c) + Outs(Pushed(w, st, ls, c)) == Taken(w, st, ls, c) + QueueOf(Outcome(w, st, ls), c)
    decreases |ls|
  {
    hide Guard, Apply, Meant, ViaOf, Marked;
    if ls != [] {
      var l, st' := ls[0], Apply(w, st, ls[0]);
      var added := Added(QueueOf(st, c), QueueOf(st', c));
      StepQueue(w, st, l, c);
      QueueConserved(w, st', ls[1..], c);
      MarkedIs(added, ViaOf(st, l), 0);
      OutsAppend(Marked(added, ViaOf(st, l)), Pushed(w, st', ls[1..], c));
      var taken := if l == LPump(c) && QueueOf(st, c) != [] then [QueueOf(st, c)[0]] else [];
      assert QueueOf(st, c) + added == taken + QueueOf(st', c) by {
        StepConserves(w, st, l, c);
      }
      hide Stepped;
      Regroup(QueueOf(st, c), added, Outs(Pushed(w, st', ls[1..], c)), taken, QueueOf(st', c),
        Taken(w, st', ls[1..], c), QueueOf(Outcome(w, st', ls[1..]), c));
    }
  }

  lemma StepConserves(w: Hub, st: State, l: Label, c: Cid)
    requires Guard(w, st, l) && !l.LRestart? && Present(st, c)
    ensures var q, q' := QueueOf(st, c), QueueOf(Apply(w, st, l), c);
      q + Added(q, q') == (if l == LPump(c) && q != [] then [q[0]] else []) + q'
  {
    StepQueue(w, st, l, c);
    hide Guard, Apply;
    var q, q' := QueueOf(st, c), QueueOf(Apply(w, st, l), c);
    if Meant(st, l, c).Some? {
      assert l != LPump(c);
      assert q' == q + [Meant(st, l, c).value] || q' == q;
      hide Meant;
    } else if l == LPump(c) {
      assert q' == q[1..];
      hide Meant;
    } else {
      assert q' == q;
      hide Meant;
    }
  }

  lemma Regroup(q: seq<Out>, a: seq<Out>, p: seq<Out>, t: seq<Out>, q': seq<Out>, t': seq<Out>, z: seq<Out>)
    requires q + a == t + q' && q' + p == t' + z
    ensures q + (a + p) == (t + t') + z
  {
    calc {
      q + (a + p);
      (q + a) + p;
      (t + q') + p;
      t + (q' + p);
      t + (t' + z);
      (t + t') + z;
    }
  }

  // ---- The stream is what the queue was given --------------------------

  /** No later join of the same client. */
  predicate Subscribed(ls: seq<Label>, c: Cid) { forall i :: 0 <= i < |ls| ==> !(ls[i].LTakeJoin? && ls[i].c == c) }

  /** What a step adds to c's stream is what it put into c's queue as part of the
      subscription. */
  ghost predicate StreamStep(st: State, st': State, c: Cid, live: bool) {
    c in st.streams ==>
      && c in st'.streams
      && st'.streams[c] == st.streams[c].(got :=
           st.streams[c].got + if live then SignedOf(Added(QueueOf(st, c), QueueOf(st', c))) else [])
  }

  /** What a room's send does to c's queue and to c's stream. */
  lemma HandDoes(w: Hub, st: State, n: Name, d: Cid, out: Out, drop: bool, live: bool, c: Cid)
    requires c in st.queues
    ensures var st' := Hand(w, st, n, d, out, drop, live);
      var took := d == c && Accepted(w.cfg.Buffer(), st.queues[c], drop);
      && QueueOf(st', c) == (if took then QueueOf(st, c) + [out] else QueueOf(st, c))
      && (c in st.streams ==>
           && c in st'.streams
           && st'.streams[c] ==
                if took && live && out.Signed? then st.streams[c].(got := st.streams[c].got + [out.m])
                else st.streams[c])
  {
  }

  lemma AddedOne(q: seq<Out>, out: Out)
    ensures Added(q, q + [out]) == [out] && Added(q, q) == []
    ensures SignedOf([out]) == if out.Signed? then [out.m] else []
  {
    assert [out][1..] == [];
  }

  lemma HandStream(w: Hub, st: State, n: Name, d: Cid, out: Out, drop: bool, live: bool, c: Cid)
    requires c in st.queues
    ensures StreamStep(st, Hand(w, st, n, d, out, drop, live), c, live)
  {
    HandDoes(w, st, n, d, out, drop, live, c);
    AddedOne(QueueOf(st, c), out);
    hide Hand, Accepted, QueueOf, Added;
    if c in st.streams {
      assert st.streams[c].got + [] == st.streams[c].got;
    }
  }

  lemma SameStream(st: State, st': State, c: Cid)
    requires st'.streams == st.streams
    ensures StreamStep(st, st', c, false)
    ensures QueueOf(st', c) == QueueOf(st, c) ==> StreamStep(st, st', c, true)
  {
    if c in st.streams {
      assert st.streams[c].got + [] == st.streams[c].got;
    }
  }

  lemma TalkStepStream(w: Hub, st: State, l: Label, c: Cid)
    requires (l.LFan? || l.LDeliver?) && RoomGuard(w, st, l) && c in st.queues
    ensures StreamStep(st, RoomStep(w, st, l), c, InStream(ViaOf(st, l)))
  {
    var st', room := RoomStep(w, st, l), st.rooms[l.r];
    if l.LFan? {
      var mid := Hand(w, st, room.name, l.c, Signed(room.phase.m), l.drop, true);
      HandStream(w, st, room.name, l.c, Signed(room.phase.m), l.drop, true, c);
      assert st'.streams == mid.streams && st'.queues == mid.queues;
    } else if room.phase.frames != [] {
      var mid := Hand(w, st, room.name, room.phase.client, room.phase.frames[0], l.drop, room.phase.joining);
      HandStream(w, st, room.name, room.phase.client, room.phase.frames[0], l.drop, room.phase.joining, c);
      assert st'.streams == mid.streams && st'.queues == mid.queues;
    } else {
      assert st'.streams == st.streams && st'.queues == st.queues;
      SameStream(st, st', c);
    }
    hide Hand, RoomStep;
  }

  lemma TakeStepStreams(w: Hub, st: State, l: Label, c: Cid)
    requires (l.LTakeJoin? || l.LTakeLeave? || l.LTakeFrame? || l.LFlush?) && RoomGuard(w, st, l)
    requires !(l.LTakeJoin? && l.c == c)
    ensures c in st.streams ==>
      c in RoomStep(w, st, l).streams && RoomStep(w, st, l).streams[c] == st.streams[c]
  {
    hide Handle, AfterRoomDone, Since, Answer, CanCount, Flushed, AtRoom, Send;
  }

  lemma FileStepStreams(w: Hub, st: State, l: Label)
    requires (l.LRepair? || l.LRecover? || l.LOpenFails? || l.LWrite?) && RoomGuard(w, st, l)
    ensures RoomStep(w, st, l).streams == st.streams
  {
    hide Repair, OpenMemory, Remember, Line;
  }

  lemma EndStepStreams(w: Hub, st: State, l: Label)
    requires (l.LNotify? || l.LEvict? || l.LFinish?) && RoomGuard(w, st, l)
    ensures RoomStep(w, st, l).streams == st.streams
  {
    EndsLeaveStreams(st, l.r);
    hide NotifyActivity, EvictByName, Finish;
  }

  lemma EndsLeaveStreams(st: State, r: Rid)
    requires r in st.rooms
    ensures Finish(st, r).streams == st.streams
    ensures st.rooms[r].phase.Fanning? ==> forall skip :: NotifyActivity(st, r, skip).streams == st.streams
    ensures st.rooms[r].phase.Evicting? ==> forall skip :: EvictByName(st, r, skip).streams == st.streams
  {
  }

  lemma KillStepStreams(w: Hub, st: State, l: Label)
    requires l.LKill? && RoomGuard(w, st, l)
    ensures RoomStep(w, st, l).streams == st.streams
  {
    hide Kill;
  }

  lemma AloneStepStreams(w: Hub, st: State, l: Label)
    requires RoomLabel(l) && RoomGuard(w, st, l) && !l.LFan? && !l.LDeliver?
    requires !(l.LTakeJoin? || l.LTakeLeave? || l.LTakeFrame? || l.LFlush?)
    ensures RoomStep(w, st, l).streams == st.streams
  {
    hide RoomGuard, RoomStep;
    if l.LRepair? || l.LRecover? || l.LOpenFails? || l.LWrite? {
      FileStepStreams(w, st, l);
    } else if l.LKill? {
      KillStepStreams(w, st, l);
    } else {
      EndStepStreams(w, st, l);
    }
  }

  lemma OtherRoomStreams(w: Hub, st: State, l: Label, c: Cid)
    requires RoomLabel(l) && RoomGuard(w, st, l) && !l.LFan? && !l.LDeliver? && !(l.LTakeJoin? && l.c == c)
    ensures StreamStep(st, RoomStep(w, st, l), c, false)
  {
    if l.LTakeJoin? || l.LTakeLeave? || l.LTakeFrame? || l.LFlush? {
      hide RoomGuard, RoomStep;
      TakeStepStreams(w, st, l, c);
    } else {
      AloneStepStreams(w, st, l);
      hide RoomGuard, RoomStep, StreamStep;
      SameStream(st, RoomStep(w, st, l), c);
    }
  }

  /** A command concerns sessions, rooms and the registry only. */
  lemma CommandLeaves(st: State, c: Cid, id: Rid)
    requires c in st.sessions && AtRegistry(st.sessions[c])
    ensures var st' := Command(st, c, id); st' == st.(sessions := st'.sessions, rooms := st'.rooms, reg := st'.reg)
  {
    hide AfterCommand;
  }

  lemma HubStepStreams(w: Hub, st: State, l: Label)
    requires !SessionLabel(l) && !RoomLabel(l) && HubGuard(st, l) && !l.LRestart?
    ensures HubStep(w, st, l).streams == st.streams
  {
    if l.LCommand? {
      CommandLeaves(st, l.c, l.id);
    }
    hide Command, Send, Kill, AfterCommand, Elsewhere, Occupied;
  }

  lemma SessionStepStreams(w: Hub, st: State, l: Label)
    requires SessionLabel(l) && SessionGuard(st, l)
    ensures SessionStep(w, st, l).streams == st.streams
  {
    hide SessionGuard, SessionAfter, Send;
  }

  lemma StepStream(w: Hub, st: State, l: Label, c: Cid)
    requires Guard(w, st, l) && !l.LRestart? && c in st.queues && !(l.LTakeJoin? && l.c == c)
    ensures StreamStep(st, Apply(w, st, l), c, InStream(ViaOf(st, l)))
  {
    var st' := Apply(w, st, l);
    assert !RoomLabel(l) || (!l.LFan? && !l.LDeliver?) ==> !InStream(ViaOf(st, l));
    hide SessionGuard, RoomGuard, HubGuard, SessionStep, RoomStep, HubStep, StreamStep, ViaOf, InStream, SessionLabel,
      RoomLabel;
    if SessionLabel(l) {
      SessionStepStreams(w, st, l);
      SameStream(st, st', c);
    } else if RoomLabel(l) {
      if l.LFan? || l.LDeliver? {
        TalkStepStream(w, st, l, c);
      } else {
        OtherRoomStreams(w, st, l, c);
      }
    } else {
      HubStepStreams(w, st, l);
      SameStream(st, st', c);
    }
  }

  /** Over a run, a stream grows by exactly the signed messages that were put into
      its client's queue as part of the subscription. */
  lemma {:induction false} StreamIsPushed(w: Hub, st: State, ls: seq<Label>, c: Cid)
    requires Run(w, st, ls) && Uncrashed(ls) && Subscribed(ls, c) && Present(st, c) && c in st.streams
    ensures var st' := Outcome(w, st, ls);
      c in st'.streams
      && st'.streams[c] == st.streams[c].(got := st.streams[c].got + LiveMsgs(Pushed(w, st, ls, c)))
    decreases |ls|
  {
    hide Guard, Apply, ViaOf, Marked, InStream, Added, QueueOf, SignedOf, LiveMsgs;
    if ls == [] {
      assert st.streams[c].got + [] == st.streams[c].got;
      assert LiveMsgs([]) == [] by {
        NothingLive();
      }
    } else {
      var l, st' := ls[0], Apply(w, st, ls[0]);
      StepQueue(w, st, l, c);
      StepStream(w, st, l, c);
      hide Stepped;
      StreamIsPushed(w, st', ls[1..], c);
      LiveStep(st, st', l, c, Pushed(w, st', ls[1..], c));
      var now := if InStream(ViaOf(st, l)) then SignedOf(Added(QueueOf(st, c), QueueOf(st', c))) else [];
      Assoc(st.streams[c].got, now, LiveMsgs(Pushed(w, st', ls[1..], c)));
    }
  }

  lemma NothingLive()
    ensures LiveMsgs([]) == []
  {
  }

  lemma LiveStep(st: State, st': State, l: Label, c: Cid, rest: seq<Push>)
    ensures var added := Added(QueueOf(st, c), QueueOf(st', c));
      LiveMsgs(Marked(added, ViaOf(st, l)) + rest)
        == (if InStream(ViaOf(st, l)) then SignedOf(added) else []) + LiveMsgs(rest)
  {
    var added := Added(QueueOf(st, c), QueueOf(st', c));
    hide *;
    MarkedIs(added, ViaOf(st, l), 0);
    LiveAppend(Marked(added, ViaOf(st, l)), rest);
  }
}
