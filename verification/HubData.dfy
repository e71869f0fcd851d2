/** What the hub keeps true of files, memories, deliveries and client streams. */
module HubData {
  import opened Base
  import opened Envelope
  import opened ArchiveSpec
  import opened HistorySpec
  import opened Serving
  import opened TwoTier
  import opened ClientView
  import opened RoomRules
  import opened HubModel
  import opened HubControl
  import opened HubSteps

  // ---- The invariant ---------------------------------------------------

  ghost predicate FileOK(o: Ops, file: Bytes, log: seq<Message>) { OnDisk(o, file, log) && MarkersOK(o, log) }

  ghost predicate FilesOK(w: Hub, st: State) {
    forall n: Name :: FileOK(w.ops, File(st, n), Log(st, n))
  }

  /** The memory before the number of a message being written was taken. */
  function Before(h: Hist): Hist {
    if h.lastSeq == 0 then h else h.(lastSeq := h.lastSeq - 1)
  }

  /** A marker withholds an assigned sequence that was not withheld yet. */
  ghost predicate FreshTarget(o: Ops, log: seq<Message>, m: Message) {
    ShushTarget(o, m).Some? ==> 1 <= ShushTarget(o, m).value <= |log| && ShushTarget(o, m).value !in Targets(o, log)
  }

  /** What a room's memory has to do with its file and log, by what it is doing. */
  ghost predicate InStep(o: Ops, file: Bytes, log: seq<Message>, room: Room) {
    match room.phase
    case Opening => room.members == {}
    case Repaired => file == FileOf(o, log) && room.members == {}
    case Running => Agrees(o, room.hist, file, log)
    case Delivering(_, _, _) => Agrees(o, room.hist, file, log)
    case Writing(m) =>
      && room.hist.lastSeq > 0 && Agrees(o, Before(room.hist), file, log)
      && NextOf(o, log, m) && FreshTarget(o, log, m)
    case Fanning(m, rest) =>
      && Agrees(o, room.hist, file, log) && log != [] && log[|log| - 1] == m && rest <= room.members
    case _ => true
  }

  ghost predicate MemoryOK(w: Hub, st: State) {
    forall r :: Tabled(st, r) ==> InStep(w.ops, File(st, st.rooms[r].name), Log(st, st.rooms[r].name), st.rooms[r])
  }

  /** m is the log's message of that sequence, whole or as archived. */
  ghost predicate Logged(o: Ops, log: seq<Message>, m: Message) {
    1 <= m.header.sn <= |log| && Archival(o, m) == Archival(o, At(log, m.header.sn))
  }

  ghost predicate DeliveredOK(w: Hub, st: State) {
    forall n: Name, m :: (n, m) in st.delivered ==> Logged(w.ops, Log(st, n), m)
  }

  ghost predicate AllLogged(o: Ops, log: seq<Message>, frames: seq<Out>) {
    forall m :: Signed(m) in frames ==> Logged(o, log, m)
  }

  /** Answers on their way to a client. */
  ghost predicate PendingOK(w: Hub, st: State) {
    forall r :: r in st.rooms && st.rooms[r].phase.Delivering? ==>
      AllLogged(w.ops, Log(st, st.rooms[r].name), st.rooms[r].phase.frames)
  }

  function SignedOf(frames: seq<Out>): seq<Message> {
    if frames == [] then [] else (if frames[0].Signed? then [frames[0].m] else []) + SignedOf(frames[1..])
  }

  function Msgs(r: Option<Response>): seq<Message> { if r.None? then [] else r.value.msgs }

  /** The response the stream began with was computed over this log. */
  ghost predicate Answered(w: Hub, log: seq<Message>, s: Stream) {
    exists h, file :: Agrees(w.ops, h, file, log) && s.resp == Since(w.ops, w.cfg.store, h, file, s.since)
  }

  /** The newest sequence client c was handed while the room is at this. */
  function Handed(p: Phase, c: Cid, n: nat): nat {
    if p.Fanning? && c in p.rest && n > 0 then n - 1 else n
  }

  /** What client c was handed since it joined: the response, then everything
      newer, in order and without a hole. */
  ghost predicate Unbroken(w: Hub, log: seq<Message>, p: Phase, c: Cid, s: Stream) {
    && s.start <= Handed(p, c, |log|) && Answered(w, log[..s.start], s)
    && if Answering(p, c) then
         s.start == |log| && s.got + SignedOf(p.frames) == Msgs(s.resp)
       else s.got == Msgs(s.resp) + log[s.start..Handed(p, c, |log|)]
  }

  /** What the client was handed is the response to its join and then everything
      newer up to sequence n, in order and without a hole. */
  ghost predicate UpTo(w: Hub, log: seq<Message>, n: nat, s: Stream) {
    s.start <= n <= |log| && Answered(w, log[..s.start], s) && s.got == Msgs(s.resp) + log[s.start..n]
  }

  predicate InService(p: Phase) { p.Running? || p.Delivering? || p.Writing? || p.Fanning? }

  /** The connection has not been closed. */
  predicate Connected(st: State, c: Cid) { c in st.queues && st.queues[c].closed.None? }

  /** The streams of a room's members. */
  ghost predicate RoomStreams(w: Hub, st: State, r: Rid)
    requires r in st.rooms
  {
    InService(st.rooms[r].phase) ==>
      forall c :: c in st.rooms[r].members && Connected(st, c) ==>
        c in st.streams && Unbroken(w, Log(st, st.rooms[r].name), st.rooms[r].phase, c, st.streams[c])
  }

  ghost predicate StreamsOK(w: Hub, st: State) {
    forall r :: r in st.rooms ==> RoomStreams(w, st, r)
  }

  ghost predicate Data(w: Hub, st: State) {
    FilesOK(w, st) && MemoryOK(w, st) && DeliveredOK(w, st) && PendingOK(w, st) && StreamsOK(w, st)
  }

  // ---- Steps that leave files, logs and deliveries alone ---------------

  ghost predicate SameFiles(st: State, st': State) {
    st'.disk == st.disk && st'.logs == st.logs && st'.delivered == st.delivered
  }

  /** Every connection open now was open before. */
  ghost predicate ClosedStays(st: State, st': State) { forall c :: Connected(st', c) ==> Connected(st, c) }

  /** The rooms are the same but for r; table entries only go. */
  ghost predicate BesidesRoom(st: State, st': State, r: Rid) {
    && r in st.rooms && r in st'.rooms && st'.rooms == st.rooms[r := st'.rooms[r]]
    && st'.rooms[r].name == st.rooms[r].name
    && (forall q :: Tabled(st', q) ==> Tabled(st, q))
  }

  lemma MemoryKept(w: Hub, st: State, st': State, r: Rid)
    requires MemoryOK(w, st) && BesidesRoom(st, st', r) && st'.disk == st.disk && st'.logs == st.logs
    requires Tabled(st', r) ==> InStep(w.ops, File(st, st.rooms[r].name), Log(st, st.rooms[r].name), st'.rooms[r])
    ensures MemoryOK(w, st')
  {
  }

  lemma PendingKept(w: Hub, st: State, st': State, r: Rid)
    requires PendingOK(w, st) && BesidesRoom(st, st', r) && st'.logs == st.logs
    requires st'.rooms[r].phase.Delivering? ==> AllLogged(w.ops, Log(st, st.rooms[r].name), st'.rooms[r].phase.frames)
    ensures PendingOK(w, st')
  {
  }

  /** Streams, when only those of c may change and c is no member of another
      serving room. */
  lemma StreamsKept(w: Hub, st: State, st': State, r: Rid, c: Cid)
    requires StreamsOK(w, st) && BesidesRoom(st, st', r) && st'.logs == st.logs && ClosedStays(st, st')
    requires forall d :: d != c && d in st.streams ==> d in st'.streams && st'.streams[d] == st.streams[d]
    requires st'.streams != st.streams ==>
      forall q :: q in st.rooms && q != r && InService(st.rooms[q].phase) ==> c !in st.rooms[q].members
    requires RoomStreams(w, st', r)
    ensures StreamsOK(w, st')
  {
    hide Unbroken, InService, Open, Tabled;
    forall q | q in st'.rooms ensures RoomStreams(w, st', q) {
      if q != r {
        assert RoomStreams(w, st, q);
      }
    }
  }

  /** A member of one live room is a member of no other. */
  lemma OneRoomEach(st: State, r: Rid, c: Cid)
    requires MembersOK(st) && SessionAt(st, c, r)
    ensures forall q :: q in st.rooms && q != r && InService(st.rooms[q].phase) ==> c !in st.rooms[q].members
  {
  }

  lemma FilesKept(w: Hub, st: State, st': State)
    requires FilesOK(w, st) && DeliveredOK(w, st) && SameFiles(st, st')
    ensures FilesOK(w, st') && DeliveredOK(w, st')
  {
    hide FileOK, Logged;
    forall n: Name ensures FileOK(w.ops, File(st', n), Log(st', n)) {
      assert FileOK(w.ops, File(st, n), Log(st, n));
    }
    forall n: Name, m | (n, m) in st'.delivered ensures Logged(w.ops, Log(st', n), m) {
      assert Log(st', n) == Log(st, n);
    }
  }

  /** A room step that writes, delivers and subscribes nothing. */
  lemma QuietRoomKeeps(w: Hub, st: State, st': State, r: Rid)
    requires Data(w, st) && BesidesRoom(st, st', r) && SameFiles(st, st') && ClosedStays(st, st')
    requires st'.streams == st.streams
    requires Tabled(st', r) ==> InStep(w.ops, File(st, st.rooms[r].name), Log(st, st.rooms[r].name), st'.rooms[r])
    requires st'.rooms[r].phase.Delivering? ==> AllLogged(w.ops, Log(st, st.rooms[r].name), st'.rooms[r].phase.frames)
    requires r in st'.rooms && RoomStreams(w, st', r)
    ensures Data(w, st')
  {
    assert r in st.rooms;
    hide FilesOK, MemoryOK, DeliveredOK, PendingOK, StreamsOK, RoomStreams, InStep, AllLogged, Tabled, ClosedStays,
      BesidesRoom;
    FilesKept(w, st, st');
    MemoryKept(w, st, st', r);
    PendingKept(w, st, st', r);
    StreamsKept(w, st, st', r, st.rooms[r].worker);
  }

  /** The room's part of the invariant. */
  ghost predicate RoomData(w: Hub, st: State, r: Rid)
    requires r in st.rooms
  {
    && (Tabled(st, r) ==> InStep(w.ops, File(st, st.rooms[r].name), Log(st, st.rooms[r].name), st.rooms[r]))
    && (st.rooms[r].phase.Delivering? ==> AllLogged(w.ops, Log(st, st.rooms[r].name), st.rooms[r].phase.frames))
    && RoomStreams(w, st, r)
    && FileOK(w.ops, File(st, st.rooms[r].name), Log(st, st.rooms[r].name))
  }

  lemma DataOfRoom(w: Hub, st: State, r: Rid)
    requires Data(w, st) && r in st.rooms
    ensures RoomData(w, st, r)
  {
    hide FileOK, InStep, AllLogged, RoomStreams, Tabled;
  }

  // ---- What rooms answer and write is in the log -----------------------

  lemma BestLogged(o: Ops, c: Config, h: Hist, log: seq<Message>, x: nat)
    requires Lawful(o) && LogOK(o, log) && 1 <= x <= |log|
    ensures Logged(o, log, Best(o, c, h, At(log, x)))
  {
  }

  lemma {:induction false} VisibleLogged(o: Ops, c: Config, h: Hist, log: seq<Message>, from: nat, to: nat)
    requires Lawful(o) && LogOK(o, log) && 0 < from && to <= |log|
    ensures forall m :: m in Visible(o, c, h, log, from, to) ==> Logged(o, log, m)
    decreases 1 + to - from
  {
    hide Logged, LogOK, Lawful, Best;
    if from <= to {
      BestLogged(o, c, h, log, from);
      VisibleLogged(o, c, h, log, from + 1, to);
    }
  }

  lemma {:induction false} SignedAllIs(ms: seq<Message>)
    ensures forall m :: Signed(m) in SignedAll(ms) <==> m in ms
    ensures SignedOf(SignedAll(ms)) == ms
  {
    if ms != [] {
      var rest := ms[1..];
      SignedAllIs(rest);
      assert SignedAll(ms) == [Signed(ms[0])] + SignedAll(rest);
      assert SignedAll(ms)[1..] == SignedAll(rest);
      assert SignedOf(SignedAll(ms)) == [ms[0]] + SignedOf(SignedAll(rest));
      assert ms == [ms[0]] + rest;
      hide SignedAll, SignedOf;
    }
  }

  lemma {:induction false} NotesUnsigned(n: Name, gaps: seq<Gap>, rest: seq<Out>)
    ensures forall m :: Signed(m) in Notes(n, gaps) + rest <==> Signed(m) in rest
    ensures SignedOf(Notes(n, gaps) + rest) == SignedOf(rest)
  {
    if gaps == [] {
      assert Notes(n, gaps) + rest == rest;
    } else {
      NotesUnsigned(n, gaps[1..], rest);
      assert Notes(n, gaps) + rest == [GapNote(n, gaps[0])] + (Notes(n, gaps[1..]) + rest);
      assert (Notes(n, gaps) + rest)[1..] == Notes(n, gaps[1..]) + rest;
    }
  }

  /** An answer's signed frames are the response's messages, in order. */
  lemma AnswerSigned(n: Name, r: Option<Response>)
    ensures forall m :: Signed(m) in Answer(n, r) <==> m in Msgs(r)
    ensures SignedOf(Answer(n, r)) == Msgs(r)
  {
    if r.Some? {
      SignedAllIs(r.value.msgs);
      NotesUnsigned(n, r.value.gaps, SignedAll(r.value.msgs));
      hide Notes, SignedAll, SignedOf;
    }
  }

  lemma SinceLogged(w: Hub, h: Hist, file: Bytes, log: seq<Message>, since: u64)
    requires Lawful(w.ops) && Agrees(w.ops, h, file, log)
    ensures h.lastSeq < U64_MAX
    ensures forall m :: m in Msgs(Since(w.ops, w.cfg.store, h, file, since)) ==> Logged(w.ops, log, m)
  {
    if since < |log| && Since(w.ops, w.cfg.store, h, file, since).Some? {
      SinceRefines(w.ops, w.cfg.store, h, file, log, since);
      VisibleLogged(w.ops, w.cfg.store, h, log, SinceStart(w.cfg.store, h, since), |log|);
      hide Visible, Since, Logged, SinceStart;
    }
    hide Logged, Visible, Serve;
  }

  lemma RangeLogged(w: Hub, h: Hist, file: Bytes, log: seq<Message>, from: u64, to: u64)
    requires Lawful(w.ops) && Agrees(w.ops, h, file, log)
    ensures h.lastSeq < U64_MAX
    ensures forall m :: m in Msgs(RangeOf(w.ops, w.cfg.store, h, file, from, to)) ==> Logged(w.ops, log, m)
  {
    if RangeFrom(from) <= RangeTo(h, to) && RangeOf(w.ops, w.cfg.store, h, file, from, to).Some? {
      RangeRefines(w.ops, w.cfg.store, h, file, log, from, to);
      VisibleLogged(w.ops, w.cfg.store, h, log, RangeFrom(from), RangeEnd(w.cfg.store, h, from, to));
      hide Visible, RangeOf, Logged, RangeEnd;
    }
    hide Logged, Visible, Serve;
  }

  lemma AnswerLogged(o: Ops, log: seq<Message>, n: Name, r: Option<Response>)
    requires forall m :: m in Msgs(r) ==> Logged(o, log, m)
    ensures AllLogged(o, log, Answer(n, r))
  {
    AnswerSigned(n, r);
    hide Answer, Logged, Msgs;
  }

  /** A message about to be written: numbered next, genuine, and if a marker,
      for an assigned sequence not withheld yet. */
  lemma CastFollows(w: Hub, room: Room, file: Bytes, log: seq<Message>, f: Frame, ts: i64)
    requires Lawful(w.ops) && ValidRoomName(room.name) && Agrees(w.ops, room.hist, file, log) && CanCount(room.hist)
    requires !f.BackfillFrame?
    ensures var d := if f.SendFrame? then Publish(w.cfg, room.name, f) else ShushDraft(w.ops, room.name, room.hist, f);
      d.Cast? ==>
        var m := SealDraft(w.ops, d, room.hist.lastSeq + 1, ts);
        m.Some? && NextOf(w.ops, log, m.value) && FreshTarget(w.ops, log, m.value)
  {
    assert room.hist.lastSeq == |log| && room.hist.shushed == Targets(w.ops, log);
    hide Agrees, Publish, ShushDraft, SealDraft, ValidRoomName, Lawful, Genuine, ShushTarget, Targets;
    if f.SendFrame? {
      PublishSeals(w.ops, w.cfg, room.name, f, room.hist.lastSeq + 1, ts);
    } else {
      ShushSeals(w.ops, room.name, room.hist, f, room.hist.lastSeq + 1, ts);
    }
  }

  lemma BackfillInStep(w: Hub, room: Room, file: Bytes, log: seq<Message>, c: Cid, f: Frame, ts: i64)
    requires Lawful(w.ops) && f.BackfillFrame? && Agrees(w.ops, room.hist, file, log) && CanCount(room.hist)
    ensures var room' := Handle(w, room, file, c, f, ts);
      room'.phase.Delivering? && room'.hist == room.hist && AllLogged(w.ops, log, room'.phase.frames)
  {
    RangeLogged(w, room.hist, file, log, f.from, f.to);
    AnswerLogged(w.ops, log, room.name, RangeOf(w.ops, w.cfg.store, room.hist, file, f.from, f.to));
    hide Agrees, Answer, RangeOf, Logged, Lawful;
  }

  lemma CastInStep(w: Hub, room: Room, file: Bytes, log: seq<Message>, c: Cid, f: Frame, ts: i64)
    requires Lawful(w.ops) && ValidRoomName(room.name) && room.phase.Running? && !f.BackfillFrame?
    requires Agrees(w.ops, room.hist, file, log) && CanCount(room.hist)
    ensures var room' := Handle(w, room, file, c, f, ts);
      || (room'.phase.Writing? && room'.hist.lastSeq > 0 && Before(room'.hist) == room.hist
          && NextOf(w.ops, log, room'.phase.m) && FreshTarget(w.ops, log, room'.phase.m))
      || (room'.phase.Delivering? && room'.hist == room.hist && room'.phase.frames == [Refusal])
      || room' == room
  {
    CastFollows(w, room, file, log, f, ts);
    hide Agrees, Publish, ShushDraft, SealDraft, NextOf, FreshTarget, Lawful, ValidRoomName, RangeOf, Answer;
  }

  lemma HandleInStep(w: Hub, room: Room, file: Bytes, log: seq<Message>, c: Cid, f: Frame, ts: i64)
    requires Lawful(w.ops) && ValidRoomName(room.name) && room.phase.Running?
    requires Agrees(w.ops, room.hist, file, log) && CanCount(room.hist)
    ensures var room' := Handle(w, room, file, c, f, ts);
      && InStep(w.ops, file, log, room')
      && (room'.phase.Delivering? ==> AllLogged(w.ops, log, room'.phase.frames))
  {
    hide Handle, Agrees, NextOf, FreshTarget, Logged, Lawful, ValidRoomName;
    if f.BackfillFrame? {
      BackfillInStep(w, room, file, log, c, f, ts);
    } else {
      CastInStep(w, room, file, log, c, f, ts);
    }
  }
}
