/** What becomes of a client's frames: which of them a session passes on, and what
    the room makes of a message to publish or a shush. */
module HubRequests {
  import opened Base
  import opened Envelope
  import opened ArchiveSpec
  import opened HistorySpec
  import opened RoomRules
  import opened HubModel
  import opened HubUpkeep
  import opened HubReopen
  import opened HubQueues

  // ---- Frames for a room -----------------------------------------------

  /** A frame reaches a room exactly if the session is in one and the frame names
      that room or none; otherwise its sender is refused and stays where it is. */
  lemma SubmitExact(w: Hub, st: State, c: Cid, target: Name, f: Frame)
    requires Guard(w, st, LBeginSubmit(c, target, f))
    ensures c in st.sessions && st.sessions[c].Idle?
    ensures var s' := Apply(w, st, LBeginSubmit(c, target, f)).sessions[c];
      match st.sessions[c].room
      case None => s' == Refusing(None)
      case Some(r) =>
        && r in st.rooms
        && s' == if target == "" || target == st.rooms[r].name then Submitting(r, f) else Refusing(Some(r))
  {
  }

  /** A frame of no known kind, or that is no frame, is refused, and moves nobody. */
  lemma BadFrameRefused(w: Hub, st: State, c: Cid)
    requires Guard(w, st, LBadFrame(c))
    ensures c in st.sessions && st.sessions[c].Idle? && c in Apply(w, st, LBadFrame(c)).sessions
    ensures Apply(w, st, LBadFrame(c)).sessions[c] == Refusing(st.sessions[c].room)
  {
  }

  /** The room may broadcast what the client sent, under that nickname. */
  predicate MaySend(cfg: HubConfig, f: Frame, n: string)
    requires f.SendFrame?
  {
    && GoodNick(n) && f.p != ""
    && ((f.kind.Text? && ByteLen(f.p) <= cfg.maxTextBytes)
        || (f.kind.Image? && ByteLen(f.p) <= cfg.imageMaxBytes && f.mime != ""))
  }

  /** The sealed form of a header: the room's next number, the time, and the
      server's own fields. */
  function Numbered(o: Ops, h: Header, payload: string, sn: u64, ts: i64): Header {
    h.(v := VERSION, sn := sn, ts := ts, hash := o.hash(payload), keyId := o.keyId)
  }

  lemma DraftSeals(o: Ops, d: Draft, sn: u64, ts: i64)
    requires d.Cast? && SealDraft(o, d, sn, ts).Some?
    ensures var m := SealDraft(o, d, sn, ts).value;
      Genuine(o, m) && m.payload == d.payload && m.header == Numbered(o, d.header, d.payload, sn, ts)
  {
  }

  /** The room that took the frame, as Handle leaves it. */
  lemma TakenFrame(w: Hub, st: State, r: Rid, c: Cid, ts: i64)
    requires Guard(w, st, LTakeFrame(r, c, ts))
    ensures r in st.rooms && c in st.sessions && st.sessions[c].Submitting? && CanCount(st.rooms[r].hist)
    ensures r in Apply(w, st, LTakeFrame(r, c, ts)).rooms
    ensures Apply(w, st, LTakeFrame(r, c, ts)).rooms[r]
      == Handle(w, st.rooms[r], File(st, st.rooms[r].name), c, st.sessions[c].frame, ts)
  {
    hide Handle;
  }

  lemma HandleSend(w: Hub, room: Room, file: Bytes, c: Cid, f: Frame, ts: i64, n: string)
    requires ValidRoomName(room.name) && CanCount(room.hist) && f.SendFrame? && Trims(f.nick, n)
    ensures var room' := Handle(w, room, file, c, f, ts);
      if MaySend(w.cfg, f, n) then
        && room'.phase.Writing? && room'.hist == NextSeq(room.hist)
        && var m := room'.phase.m;
           && Genuine(w.ops, m) && m.payload == f.p
           && m.header == Numbered(w.ops, SentHeader(room.name, n, f), f.p, room.hist.lastSeq + 1, ts)
      else room' == room.(phase := Delivering(c, [Refusal], false), worker := c)
  {
    PublishExact(w.cfg, room.name, f, n);
    PublishSeals(w.ops, w.cfg, room.name, f, room.hist.lastSeq + 1, ts);
    var d := Publish(w.cfg, room.name, f);
    if d.Cast? {
      DraftSeals(w.ops, d, room.hist.lastSeq + 1, ts);
    }
    hide Publish, SealDraft, Trims, GoodNick, ByteLen, SentHeader, Genuine, ValidRoomName;
  }

  /** A send, taken by its room: the room is about to write exactly what the client
      sent, sealed under its trimmed nickname and the room's next number; or the
      sender is refused, and no number is spent. Which, depends on the frame and
      the configured ceilings alone. */
  lemma SendTaken(w: Hub, st: State, r: Rid, c: Cid, ts: i64, n: string)
    requires Sound(w, st) && Guard(w, st, LTakeFrame(r, c, ts))
    requires c in st.sessions && st.sessions[c].Submitting? && r in st.rooms
    requires st.sessions[c].frame.SendFrame? && Trims(st.sessions[c].frame.nick, n)
    ensures r in Apply(w, st, LTakeFrame(r, c, ts)).rooms
    ensures var f, room := st.sessions[c].frame, st.rooms[r];
      var room' := Apply(w, st, LTakeFrame(r, c, ts)).rooms[r];
      if MaySend(w.cfg, f, n) then
        && room'.phase.Writing? && room'.hist == NextSeq(room.hist)
        && var m := room'.phase.m;
           && Genuine(w.ops, m) && m.payload == f.p
           && m.header == Numbered(w.ops, SentHeader(room.name, n, f), f.p, room.hist.lastSeq + 1, ts)
      else room'.phase == Delivering(c, [Refusal], false) && room'.hist == room.hist
  {
    SoundNames(w, st, r);
    TakenFrame(w, st, r, c, ts);
    HandleSend(w, st.rooms[r], File(st, st.rooms[r].name), c, st.sessions[c].frame, ts, n);
    hide Sound, Guard, Apply, Handle, MaySend, Genuine, Numbered, SentHeader, Trims, ValidRoomName, Lawful, SessionAt;
  }

  lemma HandleShush(w: Hub, room: Room, file: Bytes, c: Cid, f: Frame, ts: i64, n: string)
    requires Lawful(w.ops) && ValidRoomName(room.name) && CanCount(room.hist) && f.ShushFrame? && Trims(f.nick, n)
    ensures var room' := Handle(w, room, file, c, f, ts);
      if !GoodNick(n) || !(1 <= f.sn <= room.hist.lastSeq) then
        room' == room.(phase := Delivering(c, [Refusal], false), worker := c)
      else if f.sn in room.hist.shushed then room' == room
      else
        && room'.phase.Writing? && room'.hist == NextSeq(room.hist)
        && var m := room'.phase.m;
           && Genuine(w.ops, m) && ShushTarget(w.ops, m) == Some(f.sn) && m.header.nick == n
           && m.header.sn == room.hist.lastSeq + 1 && m.header.ts == ts
  {
    ShushExact(w.ops, room.name, room.hist, f, n);
    ShushSeals(w.ops, room.name, room.hist, f, room.hist.lastSeq + 1, ts);
    var d := ShushDraft(w.ops, room.name, room.hist, f);
    if d.Cast? {
      DraftSeals(w.ops, d, room.hist.lastSeq + 1, ts);
    }
    hide ShushDraft, SealDraft, Trims, GoodNick, Genuine, ValidRoomName, Lawful, ShushTarget;
  }

  /** A shush, taken by its room: a marker for exactly that sequence is written next;
      or nothing happens, if it is withheld already; or the sender is refused. */
  lemma ShushTaken(w: Hub, st: State, r: Rid, c: Cid, ts: i64, n: string)
    requires Sound(w, st) && Guard(w, st, LTakeFrame(r, c, ts))
    requires c in st.sessions && st.sessions[c].Submitting? && r in st.rooms
    requires st.sessions[c].frame.ShushFrame? && Trims(st.sessions[c].frame.nick, n)
    ensures r in Apply(w, st, LTakeFrame(r, c, ts)).rooms
    ensures var f, room := st.sessions[c].frame, st.rooms[r];
      var room' := Apply(w, st, LTakeFrame(r, c, ts)).rooms[r];
      if !GoodNick(n) || !(1 <= f.sn <= room.hist.lastSeq) then
        room'.phase == Delivering(c, [Refusal], false) && room'.hist == room.hist
      else if f.sn in room.hist.shushed then room' == room
      else
        && room'.phase.Writing? && room'.hist == NextSeq(room.hist)
        && var m := room'.phase.m;
           && Genuine(w.ops, m) && ShushTarget(w.ops, m) == Some(f.sn) && m.header.nick == n
           && m.header.sn == room.hist.lastSeq + 1 && m.header.ts == ts
  {
    SoundNames(w, st, r);
    TakenFrame(w, st, r, c, ts);
    HandleShush(w, st.rooms[r], File(st, st.rooms[r].name), c, st.sessions[c].frame, ts, n);
    hide Sound, Guard, Apply, Handle, Genuine, GoodNick, Trims, ValidRoomName, Lawful, ShushTarget, SessionAt;
  }
}
