/** A room's goroutine body as the source runs it: the handlers change the
    history and push to client queues in place. Each is tied to the functions
    the hub's transition system is made of. The clock, and how a write ends, are
    parameters; what a select does on a closed connection is left open. */
module RoomActor {
  import opened Base
  import opened Envelope
  import opened ArchiveSpec
  import opened HistorySpec
  import opened RoomRules
  import opened Serving
  import opened HubModel
  import opened HubAnswers
  import opened Connections
  import C = Client
  import H = History
  import opened HubControl
  import opened HubSafety

  /** The queue took b, or the connection is closed: never skipped, never both. */
  ghost predicate Sent(cap: nat, q: C.Queue<Out>, q': C.Queue<Out>, b: Out) {
    && (q' == C.Send(cap, q, b, true) || q' == C.Send(cap, q, b, false))
    && (q'.out == q.out + [b] || (q'.out == q.out && q'.closed.Some?))
    && (q.closed.Some? ==> q'.closed.Some?)
  }

  method SendOne(c: Connection, b: Out)
    requires c.Valid()
    modifies c
    ensures c.Valid() && Sent(c.buffer, old(c.Value()), c.Value(), b)
  {
    var drop: bool := *;
    c.SendTo(b, drop);
  }

  /** The fan-out loop: every client gets the same frame, or is closed. */
  method FanOut(clients: set<Connection>, b: Out)
    requires forall c :: c in clients ==> c.Valid()
    modifies clients
    ensures forall c :: c in clients ==> c.Valid() && Sent(c.buffer, old(c.Value()), c.Value(), b)
  {
    var rest := clients;
    while rest != {}
      invariant rest <= clients
      invariant forall c :: c in clients ==> c.Valid()
      invariant forall c :: c in rest ==> c.Value() == old(c.Value())
      invariant forall c :: c in clients - rest ==> Sent(c.buffer, old(c.Value()), c.Value(), b)
      decreases rest
    {
      var c :| c in rest;
      SendOne(c, b);
      rest := rest - {c};
    }
  }

  /** A series of sends, each with its own outcome of the select. */
  function SendEach(cap: nat, q: C.Queue<Out>, frames: seq<Out>, drops: seq<bool>): C.Queue<Out>
    requires |drops| == |frames|
    decreases |frames|
  {
    if frames == [] then q else SendEach(cap, C.Send(cap, q, frames[0], drops[0]), frames[1..], drops[1..])
  }

  /** The queue went through the series of sends, whatever each select did. */
  ghost predicate AllSentTo(cap: nat, q: C.Queue<Out>, q': C.Queue<Out>, frames: seq<Out>) {
    exists drops: seq<bool> :: |drops| == |frames| && q' == SendEach(cap, q, frames, drops)
  }

  /** A connection that is open after a series of sends was open before, and has all
      of the frames, in order. */
  lemma {:induction false} SendEachOpen(cap: nat, q: C.Queue<Out>, frames: seq<Out>, drops: seq<bool>)
    requires |drops| == |frames|
    ensures var q' := SendEach(cap, q, frames, drops);
      q'.closed.None? ==> q.closed.None? && q'.out == q.out + frames
    decreases |frames|
  {
    if frames != [] {
      SendEachOpen(cap, C.Send(cap, q, frames[0], drops[0]), frames[1..], drops[1..]);
      assert (q.out + [frames[0]]) + frames[1..] == q.out + frames;
    }
  }

  lemma AllSentOpen(cap: nat, q: C.Queue<Out>, q': C.Queue<Out>, frames: seq<Out>)
    requires AllSentTo(cap, q, q', frames)
    ensures q'.closed.None? ==> q.closed.None? && q'.out == q.out + frames
  {
    var drops: seq<bool> :| |drops| == |frames| && q' == SendEach(cap, q, frames, drops);
    SendEachOpen(cap, q, frames, drops);
  }

  lemma {:induction false} SendEachAppend(
      cap: nat, q: C.Queue<Out>, a: seq<Out>, b: seq<Out>, da: seq<bool>, db: seq<bool>)
    requires |da| == |a| && |db| == |b|
    ensures SendEach(cap, q, a + b, da + db) == SendEach(cap, SendEach(cap, q, a, da), b, db)
    decreases |a|
  {
    if a == [] {
      assert a + b == b && da + db == db;
    } else {
      SendEachAppend(cap, C.Send(cap, q, a[0], da[0]), a[1..], b, da[1..], db);
      assert (a + b)[1..] == a[1..] + b && (da + db)[1..] == da[1..] + db;
    }
  }

  lemma AllSentAppend(
      cap: nat, q: C.Queue<Out>, mid: C.Queue<Out>, q': C.Queue<Out>, a: seq<Out>, b: seq<Out>)
    requires AllSentTo(cap, q, mid, a) && AllSentTo(cap, mid, q', b)
    ensures AllSentTo(cap, q, q', a + b)
  {
    var da: seq<bool> :| |da| == |a| && mid == SendEach(cap, q, a, da);
    var db: seq<bool> :| |db| == |b| && q' == SendEach(cap, mid, b, db);
    SendEachAppend(cap, q, a, b, da, db);
    assert |da + db| == |a + b|;
  }

  lemma AllSentOne(cap: nat, q: C.Queue<Out>, q': C.Queue<Out>, b: Out)
    ensures AllSentTo(cap, q, q, [])
    ensures Sent(cap, q, q', b) ==> AllSentTo(cap, q, q', [b])
  {
    assert SendEach(cap, q, [], []) == q;
    forall drop: bool ensures SendEach(cap, q, [b], [drop]) == C.Send(cap, q, b, drop) {
      assert [b][1..] == [] && [drop][1..] == [];
    }
  }

  /** Sends the frames one by one. */
  method SendAll(c: Connection, frames: seq<Out>)
    requires c.Valid()
    modifies c
    ensures c.Valid() && AllSentTo(c.buffer, old(c.Value()), c.Value(), frames)
  {
    hide Sent, AllSentTo;
    var i: nat := 0;
    AllSentOne(c.buffer, c.Value(), c.Value(), Refusal);
    while i < |frames|
      invariant i <= |frames| && c.Valid()
      invariant AllSentTo(c.buffer, old(c.Value()), c.Value(), frames[..i])
    {
      ghost var mid := c.Value();
      SendOne(c, frames[i]);
      AllSentOne(c.buffer, mid, c.Value(), frames[i]);
      AllSentAppend(c.buffer, old(c.Value()), mid, c.Value(), frames[..i], [frames[i]]);
      assert frames[..i + 1] == frames[..i] + [frames[i]];
      i := i + 1;
    }
    assert frames[..|frames|] == frames;
  }

  /** A backfill response: gaps first, then messages. */
  method Deliver(name: Name, c: Connection, r: Response)
    requires c.Valid()
    modifies c
    ensures c.Valid() && AllSentTo(c.buffer, old(c.Value()), c.Value(), Answer(name, Some(r)))
  {
    NotesAt(name, r.gaps);
    SignedAt(r.msgs);
    var notes := seq(|r.gaps|, i requires 0 <= i < |r.gaps| => GapNote(name, r.gaps[i]));
    assert notes == Notes(name, r.gaps);
    SendAll(c, notes);
    ghost var mid := c.Value();
    var signed := seq(|r.msgs|, i requires 0 <= i < |r.msgs| => Signed(r.msgs[i]));
    assert signed == SignedAll(r.msgs);
    SendAll(c, signed);
    AllSentAppend(c.buffer, old(c.Value()), mid, c.Value(), notes, signed);
  }

  /** The answer to a request for history, or word that it could not be read. */
  method Reply(name: Name, c: Connection, r: Option<Response>)
    requires c.Valid()
    modifies c
    ensures c.Valid() && AllSentTo(c.buffer, old(c.Value()), c.Value(), Answer(name, r))
  {
    if r == None {
      SendOne(c, Refusal);
      AllSentOne(c.buffer, old(c.Value()), c.Value(), Refusal);
    } else {
      Deliver(name, c, r.value);
    }
  }

  class Room {
    const name: Name
    const cfg: HubConfig
    const hist: H.History
    ghost const id: Connection -> Cid
    var clients: set<Connection>

    ghost predicate Valid()
      reads this, hist, hist.ring, hist.ring.text, hist.ring.images, clients
    {
      hist.Valid() && hist.cfg == cfg.store && forall c :: c in clients ==> c.Valid()
    }

    /** The object is instance r of the state. */
    ghost predicate Is(w: Hub, st: State, r: Rid)
      reads this, hist, hist.ring, hist.archive, clients
    {
      && w == Hub(hist.ops, cfg) && r in st.rooms && File(st, name) == hist.archive.file
      && st.rooms[r].name == name && st.rooms[r].hist == hist.State() && st.rooms[r].members == Ids(id, clients)
      && Distinct(id, clients) && forall c :: c in clients ==> Queued(w, st, id, c)
    }

    /** The frames that answer a request for history were sent, after these; the
        messages may come in another order only if the span is too wide for the
        sort. */
    ghost predicate Replied(
        cap: nat, q: C.Queue<Out>, q': C.Queue<Out>, first: seq<Out>, spec: Option<Response>)
      reads hist, hist.ring
    {
      exists r :: SameUpToOrder(r, spec) && (Orderable(cfg.store, hist.State()) ==> r == spec)
        && AllSentTo(cap, q, q', first + Answer(name, r))
    }

    constructor (name: Name, cfg: HubConfig, hist: H.History, ghost id: Connection -> Cid)
      requires hist.Valid() && hist.cfg == cfg.store
      ensures Valid() && this.name == name && this.cfg == cfg && this.hist == hist && this.id == id && clients == {}
    {
      this.name, this.cfg, this.hist, this.id := name, cfg, hist, id;
      clients := {};
    }

    /** Subscribes c and delivers everything newer than `since`. */
    method Join(c: Connection, since: u64)
      requires Valid() && c.Valid() && hist.lastSeq < U64_MAX
      modifies this`clients, c
      ensures Valid() && clients == old(clients) + {c} && hist.State() == old(hist.State())
      ensures Replied(c.buffer, old(c.Value()), c.Value(), [Joined(name, hist.lastSeq)],
        HistorySpec.Since(hist.ops, cfg.store, hist.State(), hist.archive.file, since))
    {
      hide HistorySpec.Since, Answer, SameUpToOrder, AllSentTo, Sent;
      clients := clients + {c};
      SendOne(c, Joined(name, hist.lastSeq));
      ghost var mid := c.Value();
      AllSentOne(c.buffer, old(c.Value()), mid, Joined(name, hist.lastSeq));
      var r := hist.Since(since);
      Reply(name, c, r);
      AllSentAppend(c.buffer, old(c.Value()), mid, c.Value(), [Joined(name, hist.lastSeq)], Answer(name, r));
    }

    /** Unsubscribes c, whether it was subscribed or not: the object goes from
        one state of the transition system to the one after the room took c's
        leave, and no other client is affected. */
    method Leave(c: Connection, ghost w: Hub, ghost st: State, ghost r: Rid)
      requires Valid() && Is(w, st, r) && RoomGuard(w, st, LTakeLeave(r, id(c))) && Distinct(id, clients + {c})
      modifies this`clients
      ensures Valid() && Is(w, TakeLeave(st, r, id(c)), r)
      ensures forall d :: d in old(clients) && d != c ==> d in clients
    {
      IdsWithout(id, clients, c);
      clients := clients - {c};
    }

    /** Answers a request for a span. */
    method Backfill(c: Connection, f: Frame)
      requires Valid() && c.Valid() && f.BackfillFrame? && hist.lastSeq < U64_MAX
      modifies c
      ensures Valid() && c.Valid() && hist.State() == old(hist.State())
      ensures if f.from == 0 || f.to < f.from then Sent(c.buffer, old(c.Value()), c.Value(), Refusal)
        else
          Replied(c.buffer, old(c.Value()), c.Value(), [],
            RangeOf(hist.ops, cfg.store, hist.State(), hist.archive.file, f.from, f.to))
    {
      if f.from == 0 || f.to < f.from {
        SendOne(c, Refusal);
        return;
      }
      hide RangeOf, Answer, SameUpToOrder, AllSentTo;
      var r := hist.Range(f.from, f.to);
      Reply(name, c, r);
      assert [] + Answer(name, r) == Answer(name, r);
    }

    /** Numbers, seals, archives and only then fans out. A failed write is fatal:
        memory has run ahead, and nobody was sent anything. */
    method Broadcast(c: Connection, d: Draft, ts: i64, landed: nat, failed: bool)
        returns (fatal: bool, note: Option<Note>)
      requires Valid() && c.Valid() && d.Cast? && CanCount(hist.State())
      requires var m := SealDraft(hist.ops, d, hist.lastSeq + 1, ts);
        m.Some? ==> landed <= |Line(hist.ops, m.value)| && (!failed ==> landed == |Line(hist.ops, m.value)|)
      modifies hist, hist.ring, hist.ring.text, hist.ring.images, hist.archive, clients, c
      ensures Valid() && c.Valid()
      ensures var m := SealDraft(hist.ops, d, old(hist.lastSeq) + 1, ts);
        var h := HistorySpec.NextSeq(old(hist.State()));
        if m.None? then
          && !fatal && note.None? && hist.State() == h && hist.archive.file == old(hist.archive.file)
          && Sent(c.buffer, old(c.Value()), c.Value(), Refusal)
        else
          && fatal == failed && hist.State() == Remember(hist.ops, h, m.value)
          && hist.archive.file == old(hist.archive.file) + Line(hist.ops, m.value)[..landed]
          && note == (if failed then None else Some(Note(name, m.value.header.sn)))
          && forall x :: x in clients + {c} ==>
               if failed || x !in clients then x.Value() == old(x.Value())
               else Sent(x.buffer, old(x.Value()), x.Value(), Signed(m.value))
      ensures SealDraft(hist.ops, d, old(hist.lastSeq) + 1, ts).None? ==>
        forall x :: x in clients && x != c ==> x.Value() == old(x.Value())
    {
      hide SealDraft, Remember, Line, Sent;
      var sn := hist.NextSeq();
      var m := SealDraft(hist.ops, d, sn, ts);
      if m == None {
        SendOne(c, Refusal);
        return false, None;
      }
      var ok := hist.Append(m.value, landed, failed);
      if !ok {
        return true, None;
      }
      FanOut(clients, Signed(m.value));
      return false, Some(Note(name, m.value.header.sn));
    }

    /** What the transition system says this room does next about a frame. */
    ghost function Next(f: Frame, ts: i64): HubModel.Room
      reads this, hist, hist.ring, hist.archive
      requires CanCount(hist.State())
    {
      Handle(Hub(hist.ops, cfg), HubModel.Room(name, Running, hist.State(), {}, false, 0), hist.archive.file, 0, f, ts)
    }

    /** What the frame asks to be broadcast, if anything. */
    function DraftOf(f: Frame): Draft
      reads hist
      requires !f.BackfillFrame?
    {
      if f.SendFrame? then Publish(cfg, name, f)
      else ShushDraft(hist.ops, name, Hist([], hist.shushed, hist.lastSeq), f)
    }

    lemma NextByDraft(f: Frame, ts: i64)
      requires CanCount(hist.State()) && !f.BackfillFrame?
      ensures var d, next := DraftOf(f), Next(f, ts);
        match d
        case Rejected => next.phase == Delivering(0, [Refusal], false) && next.hist == hist.State()
        case Ignored => next.phase == Running && next.hist == hist.State()
        case Cast(_, _) =>
          var m := SealDraft(hist.ops, d, hist.lastSeq + 1, ts);
          && next.hist == HistorySpec.NextSeq(hist.State())
          && next.phase == (if m.None? then Delivering(0, [Refusal], false) else Writing(m.value))
    {
      hide Publish, SealDraft, Answer, RangeOf;
    }

    lemma NextByBackfill(f: Frame, ts: i64)
      requires CanCount(hist.State()) && f.BackfillFrame?
      ensures Next(f, ts).hist == hist.State()
      ensures Next(f, ts).phase == Delivering(0,
        if f.from == 0 || f.to < f.from then [Refusal]
        else Answer(name, RangeOf(hist.ops, cfg.store, hist.State(), hist.archive.file, f.from, f.to)), false)
    {
    }

    /** One frame from a client, handled to the end: memory, file and queues end
        as the transition system's steps for it would leave them. */
    method HandleFrame(c: Connection, f: Frame, ts: i64, landed: nat, failed: bool)
        returns (fatal: bool, note: Option<Note>)
      requires Valid() && c.Valid() && CanCount(hist.State())
      requires Next(f, ts).phase.Writing? ==>
        var line := Line(hist.ops, Next(f, ts).phase.m); landed <= |line| && (!failed ==> landed == |line|)
      modifies hist, hist.ring, hist.ring.text, hist.ring.images, hist.archive, clients, c
      ensures Valid() && c.Valid()
      ensures old(Next(f, ts)).phase.Writing? ==>
        var m := old(Next(f, ts)).phase.m;
        && fatal == failed && note == (if failed then None else Some(Note(name, m.header.sn)))
        && hist.State() == Remember(hist.ops, old(Next(f, ts)).hist, m)
        && hist.archive.file == old(hist.archive.file) + Line(hist.ops, m)[..landed]
        && forall x :: x in clients + {c} ==>
             if failed || x !in clients then x.Value() == old(x.Value())
             else Sent(x.buffer, old(x.Value()), x.Value(), Signed(m))
      ensures !old(Next(f, ts)).phase.Writing? ==>
        && !fatal && note == None
        && hist.State() == old(Next(f, ts)).hist && hist.archive.file == old(hist.archive.file)
        && forall x :: x in clients && x != c ==> x.Value() == old(x.Value())
      ensures
        old(Next(f, ts)).phase.Delivering? && (f.BackfillFrame? ==> Orderable(cfg.store, hist.State())) ==>
          AllSentTo(c.buffer, old(c.Value()), c.Value(), old(Next(f, ts)).phase.frames)
      ensures old(Next(f, ts)).phase.Running? ==> c.Value() == old(c.Value())
    {
      fatal, note := false, None;
      if f.BackfillFrame? {
        NextByBackfill(f, ts);
        hide Answer, RangeOf, Handle, Remember, Line, Sent, Next, AllSentTo, SameUpToOrder;
        Backfill(c, f);
        AllSentOne(c.buffer, old(c.Value()), c.Value(), Refusal);
        assert forall r :: [] + Answer(name, r) == Answer(name, r);
      } else {
        NextByDraft(f, ts);
        var d := DraftOf(f);
        hide DraftOf, SealDraft, Handle, Remember, Line, Next, Answer, RangeOf, Sent, AllSentTo;
        match d {
          case Rejected => SendOne(c, Refusal);
          case Ignored =>
          case Cast(_, _) => fatal, note := Broadcast(c, d, ts, landed, failed);
        }
        AllSentOne(c.buffer, old(c.Value()), c.Value(), Refusal);
      }
    }
  }

  /** The room is fanning m out and has these clients left. */
  predicate AtFanOut(st: State, r: Rid, m: Message, rest: set<Cid>) {
    r in st.rooms && st.rooms[r].phase == Fanning(m, rest) && rest <= st.queues.Keys
  }

  /** What the queues may be after the loop, each on its own. */
  ghost predicate AllSent(w: Hub, st: State, m: Message, rest: set<Cid>, after: map<Cid, C.Queue<Out>>) {
    && after.Keys == st.queues.Keys
    && forall c :: c in st.queues ==>
         if c in rest then Sent(w.cfg.Buffer(), st.queues[c], after[c], Signed(m)) else after[c] == st.queues[c]
  }

  /** Besides queues, and what is recorded of them, only the room's phase moved. */
  ghost predicate OnlyPhase(st: State, st': State, r: Rid, p: Phase) {
    && r in st.rooms && st'.rooms == st.rooms[r := st.rooms[r].(phase := p)]
    && st'.sessions == st.sessions && st'.reg == st.reg && st'.disk == st.disk && st'.logs == st.logs
  }

  lemma OnlyPhaseTwice(st: State, mid: State, st': State, r: Rid, p: Phase, p': Phase)
    requires OnlyPhase(st, mid, r, p) && OnlyPhase(mid, st', r, p')
    ensures OnlyPhase(st, st', r, p')
  {
  }

  lemma SamePhase(st: State, r: Rid)
    requires r in st.rooms
    ensures OnlyPhase(st, st, r, st.rooms[r].phase)
  {
    assert st.rooms[r := st.rooms[r].(phase := st.rooms[r].phase)] == st.rooms;
  }

  lemma AllSentBut(w: Hub, st: State, mid: State, m: Message, rest: set<Cid>, c: Cid, after: map<Cid, C.Queue<Out>>)
    requires AllSent(w, st, m, rest, after) && c in rest && c in after && mid.queues == st.queues[c := after[c]]
    ensures AllSent(w, mid, m, rest - {c}, after)
  {
    hide Sent;
  }

  /** One client is reached as the select turned out for it. */
  lemma FanStepIs(w: Hub, st: State, r: Rid, m: Message, rest: set<Cid>, c: Cid, q: C.Queue<Out>) returns (drop: bool)
    requires AtFanOut(st, r, m, rest) && c in rest && Sent(w.cfg.Buffer(), st.queues[c], q, Signed(m))
    ensures Guard(w, st, LFan(r, c, drop))
    ensures var st' := Apply(w, st, LFan(r, c, drop));
      && AtFanOut(st', r, m, rest - {c}) && st'.queues == st.queues[c := q]
      && OnlyPhase(st, st', r, Fanning(m, rest - {c}))
  {
    drop := q == C.Send(w.cfg.Buffer(), st.queues[c], Signed(m), true);
    HandIs(w, st, st.rooms[r].name, c, Signed(m), drop, true);
    HandQueues(w, st, st.rooms[r].name, c, Signed(m), drop, true);
    hide Hand, C.Send;
  }

  lemma HandQueues(w: Hub, st: State, n: Name, c: Cid, out: Out, drop: bool, live: bool)
    requires c in st.queues
    ensures Hand(w, st, n, c, out, drop, live).queues
      == st.queues[c := C.Send(w.cfg.Buffer(), st.queues[c], out, drop)]
  {
  }

  /** Whatever queues the loop leaves, in whatever order it ran: the fan-out steps
      of the transition system lead there, and change nothing else of the hub. */
  lemma {:induction false} FanOutIsSteps(
      w: Hub, st: State, r: Rid, m: Message, rest: set<Cid>, after: map<Cid, C.Queue<Out>>)
      returns (ls: seq<Label>, st': State)
    requires AtFanOut(st, r, m, rest) && AllSent(w, st, m, rest, after)
    ensures Reaches(w, st, ls, st') && (forall i :: 0 <= i < |ls| ==> ls[i].LFan? && ls[i].r == r)
    ensures st'.queues == after && OnlyPhase(st, st', r, Fanning(m, {}))
    decreases rest
  {
    if rest == {} {
      assert after == st.queues;
      SamePhase(st, r);
      ls, st' := [], st;
    } else {
      var c :| c in rest;
      var drop := FanStepIs(w, st, r, m, rest, c, after[c]);
      var l := LFan(r, c, drop);
      hide Guard, Apply, Sent, AtFanOut, AllSent, OnlyPhase, Reaches;
      var mid := Apply(w, st, l);
      AllSentBut(w, st, mid, m, rest, c, after);
      ls, st' := FanOutIsSteps(w, mid, r, m, rest - {c}, after);
      OnlyPhaseTwice(st, mid, st', r, Fanning(m, rest - {c}), Fanning(m, {}));
      ReachesCons(w, st, l, ls, st');
      ls := [l] + ls;
    }
  }

  lemma ReachesCons(w: Hub, st: State, l: Label, ls: seq<Label>, st': State)
    requires Guard(w, st, l) && Reaches(w, Apply(w, st, l), ls, st')
    ensures Reaches(w, st, [l] + ls, st')
  {
    hide Guard, Apply;
    assert ([l] + ls)[1..] == ls;
  }

  /** One frame of an answer, as the select turned out. */
  lemma DeliverStepIs(w: Hub, st: State, r: Rid, c: Cid, frames: seq<Out>, joining: bool, drop: bool)
    requires r in st.rooms && st.rooms[r].phase == Delivering(c, frames, joining) && frames != [] && c in st.queues
    ensures Guard(w, st, LDeliver(r, drop))
    ensures var st' := Apply(w, st, LDeliver(r, drop));
      && OnlyPhase(st, st', r, Delivering(c, frames[1..], joining))
      && st'.queues == st.queues[c := C.Send(w.cfg.Buffer(), st.queues[c], frames[0], drop)]
  {
    HandIs(w, st, st.rooms[r].name, c, frames[0], drop, joining);
    HandQueues(w, st, st.rooms[r].name, c, frames[0], drop, joining);
    hide Hand, C.Send;
  }

  lemma {:induction false} DeliverIsSteps(w: Hub, st: State, r: Rid, c: Cid, frames: seq<Out>, joining: bool,
      drops: seq<bool>)
      returns (ls: seq<Label>, st': State)
    requires r in st.rooms && st.rooms[r].phase == Delivering(c, frames, joining) && c in st.queues
    requires |drops| == |frames|
    ensures Reaches(w, st, ls, st') && (forall i :: 0 <= i < |ls| ==> ls[i].LDeliver? && ls[i].r == r)
    ensures OnlyPhase(st, st', r, Delivering(c, [], joining))
    ensures st'.queues == st.queues[c := SendEach(w.cfg.Buffer(), st.queues[c], frames, drops)]
    decreases |frames|
  {
    if frames == [] {
      SamePhase(st, r);
      assert st.queues[c := st.queues[c]] == st.queues;
      ls, st' := [], st;
    } else {
      var l := LDeliver(r, drops[0]);
      DeliverStepIs(w, st, r, c, frames, joining, drops[0]);
      hide Guard, Apply, Reaches, C.Send;
      var mid := Apply(w, st, l);
      assert r in mid.rooms && mid.rooms[r].phase == Delivering(c, frames[1..], joining);
      ls, st' := DeliverIsSteps(w, mid, r, c, frames[1..], joining, drops[1..]);
      OnlyPhaseTwice(st, mid, st', r, Delivering(c, frames[1..], joining), Delivering(c, [], joining));
      ReachesCons(w, st, l, ls, st');
      ls := [l] + ls;
    }
  }

  /** Whatever queue the object's series of sends leaves: the steps with which the
      transition system delivers the same frames lead there, and change no other
      queue and nothing else of the hub but the room's phase. */
  lemma AnswerIsSteps(w: Hub, st: State, r: Rid, c: Cid, after: C.Queue<Out>) returns (ls: seq<Label>, st': State)
    requires r in st.rooms && st.rooms[r].phase.Delivering? && st.rooms[r].phase.client == c && c in st.queues
    requires AllSentTo(w.cfg.Buffer(), st.queues[c], after, st.rooms[r].phase.frames)
    ensures Reaches(w, st, ls, st') && (forall i :: 0 <= i < |ls| ==> ls[i].LDeliver? && ls[i].r == r)
    ensures OnlyPhase(st, st', r, Delivering(c, [], st.rooms[r].phase.joining)) && st'.queues == st.queues[c := after]
  {
    hide Reaches, OnlyPhase;
    var p := st.rooms[r].phase;
    var drops: seq<bool> :|
      |drops| == |p.frames| && after == SendEach(w.cfg.Buffer(), st.queues[c], p.frames, drops);
    ls, st' := DeliverIsSteps(w, st, r, c, p.frames, p.joining, drops);
  }
}
