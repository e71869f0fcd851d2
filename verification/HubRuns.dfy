/** The hub and the store together, over every run from the empty hub: sends,
    shushes, joins, evictions, failed and partial writes, crashes, restarts. */
module HubRuns {
  import opened Base
  import opened Envelope
  import opened Lines
  import opened ArchiveSpec
  import opened HistorySpec
  import opened Serving
  import opened TwoTier
  import opened ClientView
  import opened Client
  import opened HubModel
  import opened HubControl
  import opened HubSteps
  import opened HubSafety
  import opened HubProgress
  import opened HubData
  import opened HubUpkeep
  import opened HubMembers

  /** The state is the outcome of some run from the empty hub. */
  ghost predicate Reachable(w: Hub, st: State) {
    exists ls :: Run(w, Init(), ls) && Outcome(w, Init(), ls) == st
  }

  lemma ReachableSound(w: Hub, st: State)
    requires Lawful(w.ops) && Reachable(w, st)
    ensures Sound(w, st)
  {
    hide Lawful, Run, Outcome, Sound, Init;
    var ls :| Run(w, Init(), ls) && Outcome(w, Init(), ls) == st;
    InitSound(w);
    RunKeepsSound(w, Init(), ls);
  }

  lemma ReachableControl(w: Hub, st: State)
    requires Reachable(w, st)
    ensures Control(w, st)
  {
    hide Run, Outcome, Control, Init;
    var ls :| Run(w, Init(), ls) && Outcome(w, Init(), ls) == st;
    InitControl(w);
    RunKeepsControl(w, Init(), ls);
  }

  lemma DeliveredLogged(w: Hub, st: State, n: Name, m: Message)
    requires Lawful(w.ops) && Reachable(w, st) && (n, m) in st.delivered
    ensures Logged(w.ops, Log(st, n), m) && FileOK(w.ops, File(st, n), Log(st, n))
  {
    hide Lawful, Reachable, Sound, Control, FileOK, Logged, MemoryOK, PendingOK, StreamsOK;
    ReachableSound(w, st);
    SoundParts(w, st);
  }

  // ---- No sequence reuse -----------------------------------------------

  lemma ArchivalKeeps(o: Ops, m: Message)
    ensures Archival(o, m).header == m.header && Archival(o, m).raw == m.raw && Archival(o, m).sig == m.sig
    ensures !m.header.kind.Image? ==> Archival(o, m) == m
  {
  }

  /** No sequence reuse: two messages of one room that any clients were ever
      handed under the same sequence are the same signed message; at most, one
      copy of an image has lost its payload to the archive. */
  lemma NoSequenceReuse(w: Hub, st: State, n: Name, m: Message, x: Message)
    requires Lawful(w.ops) && Reachable(w, st)
    requires (n, m) in st.delivered && (n, x) in st.delivered && m.header.sn == x.header.sn
    ensures m.header == x.header && m.raw == x.raw && m.sig == x.sig
    ensures Archival(w.ops, m) == Archival(w.ops, x)
    ensures !m.header.kind.Image? ==> m == x
  {
    hide Lawful, Reachable, FileOK, Archival;
    DeliveredLogged(w, st, n, m);
    DeliveredLogged(w, st, n, x);
    ArchivalKeeps(w.ops, m);
    ArchivalKeeps(w.ops, x);
  }

  // ---- The archive -----------------------------------------------------

  /** The lines of a room's file once crash repair is through with it. */
  function Records(w: Hub, st: State, n: Name): seq<Bytes> {
    Split(Repair(w.ops, File(st, n), REPAIR_ATTEMPTS).0)
  }

  lemma RecordsAreLog(w: Hub, st: State, n: Name)
    requires Lawful(w.ops) && FileOK(w.ops, File(st, n), Log(st, n))
    ensures Repair(w.ops, File(st, n), REPAIR_ATTEMPTS) == (FileOf(w.ops, Log(st, n)), true)
    ensures Records(w, st, n) == LogLines(w.ops, Log(st, n)) && |Records(w, st, n)| == |Log(st, n)|
    ensures forall i :: 0 <= i < |Log(st, n)| ==> Records(w, st, n)[i] == Line(w.ops, Log(st, n)[i])
  {
    var log := Log(st, n);
    assert AllGenuine(w.ops, log);
    hide Lawful, AllGenuine, MarkersOK, Log, File, Split, LogLines, Repair, FileOf;
    RepairedFile(w.ops, File(st, n), log);
    SplitLog(w.ops, log);
    LogLinesGood(w.ops, log);
  }

  lemma ReachableFile(w: Hub, st: State, n: Name)
    requires Lawful(w.ops) && Reachable(w, st)
    ensures FileOK(w.ops, File(st, n), Log(st, n))
  {
    hide Lawful, Reachable, Sound, FileOK, MemoryOK, DeliveredOK, PendingOK, StreamsOK;
    ReachableSound(w, st);
    SoundParts(w, st);
  }

  /** Archive contiguity: whenever a file is opened, whatever crashes and failed
      writes came before, repair succeeds by cutting off the end at most, and
      the i-th record it leaves opens, verifies, and carries sequence i. */
  lemma ArchiveIsContiguous(w: Hub, st: State, n: Name)
    requires Lawful(w.ops) && Reachable(w, st)
    ensures Repair(w.ops, File(st, n), REPAIR_ATTEMPTS).1
    ensures Repair(w.ops, File(st, n), REPAIR_ATTEMPTS).0 <= File(st, n)
    ensures forall i :: 0 <= i < |Records(w, st, n)| ==>
      var r := Open(w.ops, Token(Records(w, st, n)[i])); r.Opened? && r.m.header.sn == i + 1
  {
    var log := Log(st, n);
    ReachableFile(w, st, n);
    RecordsAreLog(w, st, n);
    assert OnDisk(w.ops, File(st, n), log) && AllGenuine(w.ops, log) && Contiguous(log, 0);
    hide Lawful, Reachable, FileOK, MarkersOK, Log, File, Split, LogLines, Repair, FileOf, Records, Open, Token,
      Line, Genuine;
    forall i | 0 <= i < |Records(w, st, n)|
      ensures var r := Open(w.ops, Token(Records(w, st, n)[i])); r.Opened? && r.m.header.sn == i + 1
    {
      assert log[i] in log;
      LineReads(w.ops, log[i]);
      ArchivalKeeps(w.ops, log[i]);
    }
  }

  lemma RoomStepDelivers(w: Hub, st: State, l: Label)
    requires RoomLabel(l) && RoomGuard(w, st, l)
    ensures st.delivered <= RoomStep(w, st, l).delivered
  {
    if l.LDeliver? && st.rooms[l.r].phase.frames != [] {
      var p := st.rooms[l.r].phase;
      HandIs(w, st, st.rooms[l.r].name, p.client, p.frames[0], l.drop, p.joining);
    } else if l.LFan? {
      HandIs(w, st, st.rooms[l.r].name, l.c, Signed(st.rooms[l.r].phase.m), l.drop, true);
    }
    hide Hand, Handle, Send, Kill, Flushed, AtRoom, AfterRoomDone, Repair, OpenMemory, Remember, Line, Since,
      Answer, CanCount;
  }

  /** What was delivered stays delivered, over a restart as well. */
  lemma DeliveredStays(w: Hub, st: State, l: Label)
    requires Guard(w, st, l)
    ensures st.delivered <= Apply(w, st, l).delivered
  {
    if SessionLabel(l) {
      hide SessionGuard, SessionAfter, Send;
    } else if RoomLabel(l) {
      hide RoomGuard, RoomStep;
      RoomStepDelivers(w, st, l);
    } else {
      hide Send, Kill, AfterCommand, Elsewhere;
    }
  }

  /** Nothing reaches a client that the file does not have: a delivered message's
      archival form is the record of its sequence. */
  lemma DeliveredIsArchived(w: Hub, st: State, n: Name, m: Message)
    requires Lawful(w.ops) && Reachable(w, st) && (n, m) in st.delivered
    ensures 1 <= m.header.sn <= |Records(w, st, n)|
    ensures Records(w, st, n)[m.header.sn - 1] == Line(w.ops, m)
  {
    hide Lawful, Reachable, FileOK, Records, Line, Log, File, Logged;
    DeliveredLogged(w, st, n, m);
    LoggedRecord(w, st, n, m);
  }

  lemma {:induction false} NeverLostFrom(w: Hub, st: State, ls: seq<Label>, n: Name, m: Message)
    requires Lawful(w.ops) && Sound(w, st) && Run(w, st, ls) && (n, m) in st.delivered
    ensures var st' := Outcome(w, st, ls);
      1 <= m.header.sn <= |Records(w, st', n)| && Records(w, st', n)[m.header.sn - 1] == Line(w.ops, m)
    decreases |ls|
  {
    if ls == [] {
      hide Lawful, Sound, FileOK, Records, Archival, Log, File, FilesOK, DeliveredOK, MemoryOK, PendingOK,
        StreamsOK, Logged;
      SoundParts(w, st);
      SoundDelivered(w, st, n, m);
      LoggedRecord(w, st, n, m);
    } else {
      hide Lawful, Sound, Guard, Apply, Records, Line;
      StepKeepsSound(w, st, ls[0]);
      DeliveredStays(w, st, ls[0]);
      NeverLostFrom(w, Apply(w, st, ls[0]), ls[1..], n, m);
    }
  }

  /** And it keeps it: whatever happens afterwards, failed writes and crashes
      included, the file still has the record, at the same place. */
  lemma DeliveredIsNeverLost(w: Hub, st: State, ls: seq<Label>, n: Name, m: Message)
    requires Lawful(w.ops) && Reachable(w, st) && Run(w, st, ls) && (n, m) in st.delivered
    ensures var st' := Outcome(w, st, ls);
      1 <= m.header.sn <= |Records(w, st', n)| && Records(w, st', n)[m.header.sn - 1] == Line(w.ops, m)
  {
    hide Lawful, Reachable, Run, Outcome, Sound, Records, Line;
    ReachableSound(w, st);
    NeverLostFrom(w, st, ls, n, m);
  }

  lemma SoundDelivered(w: Hub, st: State, n: Name, m: Message)
    requires FilesOK(w, st) && DeliveredOK(w, st) && (n, m) in st.delivered
    ensures Logged(w.ops, Log(st, n), m) && FileOK(w.ops, File(st, n), Log(st, n))
  {
  }

  lemma LoggedRecord(w: Hub, st: State, n: Name, m: Message)
    requires Lawful(w.ops) && Logged(w.ops, Log(st, n), m) && FileOK(w.ops, File(st, n), Log(st, n))
    ensures 1 <= m.header.sn <= |Records(w, st, n)|
    ensures Records(w, st, n)[m.header.sn - 1] == Line(w.ops, m)
  {
    hide Lawful, FileOK, Records, Archival, Log, File;
    RecordsAreLog(w, st, n);
  }

  // ---- Memory and replay -----------------------------------------------

  /** The memory less the number taken for a message still being written. */
  function Settled(room: Room): Hist { if room.phase.Writing? then Before(room.hist) else room.hist }

  /** In service, memory, file and log agree but for the message being written. */
  lemma ServiceAgrees(w: Hub, st: State, r: Rid)
    requires Lawful(w.ops) && Reachable(w, st) && Tabled(st, r) && InService(st.rooms[r].phase)
    ensures Agrees(w.ops, Settled(st.rooms[r]), File(st, st.rooms[r].name), Log(st, st.rooms[r].name))
    ensures MarkersOK(w.ops, Log(st, st.rooms[r].name))
  {
    hide Lawful, Reachable, Sound, FilesOK, DeliveredOK, PendingOK, StreamsOK, Agrees, OnDisk, MarkersOK, NextOf,
      FreshTarget, Before;
    ReachableSound(w, st);
    SoundParts(w, st);
    ReachableFile(w, st, st.rooms[r].name);
  }

  /** Replay equals live state: while a room serves, and so after every append,
      recovering from the bytes of its file alone would give exactly its counter
      and withheld set (less the number of a message still being written),
      unless some record is longer than the scanner reads. */
  lemma ReplayEqualsLive(w: Hub, st: State, r: Rid)
    requires Lawful(w.ops) && Reachable(w, st) && Tabled(st, r) && InService(st.rooms[r].phase)
    ensures var h := Settled(st.rooms[r]);
      Recover(w.ops, File(st, st.rooms[r].name)) ==
        if AllFit(w.ops, Log(st, st.rooms[r].name)) then Some(Recovered(h.lastSeq, h.shushed)) else None
  {
    hide Lawful, Reachable, Agrees, Recover, AllFit, MarkersOK, InService, Settled;
    ServiceAgrees(w, st, r);
    ReplayIsLive(w.ops, Settled(st.rooms[r]), File(st, st.rooms[r].name), Log(st, st.rooms[r].name));
  }

  /** The room gave up: its open or a write failed, or it was told to return. */
  predicate GivenUp(p: Phase) { p.Evicting? || p.Flushing? || p.Killing? || p.Done? }

  /** The step serves a client from the room's memory, or advances it. */
  predicate Serves(l: Label, r: Rid) {
    (l.LTakeJoin? || l.LTakeFrame? || l.LDeliver? || l.LFan? || l.LWrite?) && l.r == r
  }

  lemma GivenUpRoom(w: Hub, st: State, l: Label, r: Rid)
    requires RoomLabel(l) && RoomGuard(w, st, l) && r in st.rooms && GivenUp(st.rooms[r].phase)
    ensures r in RoomStep(w, st, l).rooms && GivenUp(RoomStep(w, st, l).rooms[r].phase)
  {
    if l.r != r {
      hide RoomGuard, RoomStep;
      RoomStepShape(w, st, l);
    } else if l.LKill? {
      hide Kill;
    } else {
      hide Send, Flushed, AtRoom, TakeJoin, TakeFrame, WriteRecord, DeliverOne, FanOne, RepairFile, RecoverMemory,
        Line, CanCount, SessionAt;
    }
  }

  lemma HubStepGivenUp(w: Hub, st: State, l: Label, r: Rid)
    requires !SessionLabel(l) && !RoomLabel(l) && HubGuard(st, l) && !l.LRestart?
    requires r in st.rooms && GivenUp(st.rooms[r].phase)
    ensures r in HubStep(w, st, l).rooms && GivenUp(HubStep(w, st, l).rooms[r].phase)
  {
    if l.LCommand? {
      hide Command, AfterCommand, GivenUp;
      CommandMoves(st, l.c, l.id);
    } else {
      hide Send, Elsewhere, Occupied, GivenUp, Command;
    }
  }

  lemma GivenUpStays(w: Hub, st: State, l: Label, r: Rid)
    requires Guard(w, st, l) && !l.LRestart? && r in st.rooms && GivenUp(st.rooms[r].phase)
    ensures r in Apply(w, st, l).rooms && GivenUp(Apply(w, st, l).rooms[r].phase)
  {
    hide RoomGuard, RoomStep, HubGuard, HubStep, SessionGuard, SessionAfter, Send, GivenUp;
    if RoomLabel(l) {
      GivenUpRoom(w, st, l, r);
    } else if !SessionLabel(l) {
      HubStepGivenUp(w, st, l, r);
    }
  }

  /** A room that gave up is never served from and never written from again,
      whatever the rest of the run does. */
  lemma {:induction false} FailedNeverServes(w: Hub, st: State, ls: seq<Label>, r: Rid)
    requires Run(w, st, ls) && Uncrashed(ls) && r in st.rooms && GivenUp(st.rooms[r].phase)
    ensures forall i :: 0 <= i < |ls| ==> !Serves(ls[i], r)
    decreases |ls|
  {
    if ls != [] {
      assert !Serves(ls[0], r);
      hide Guard, Apply, GivenUp, Serves;
      GivenUpStays(w, st, ls[0], r);
      FailedNeverServes(w, Apply(w, st, ls[0]), ls[1..], r);
      forall i | 0 <= i < |ls| ensures !Serves(ls[i], r) {
        if i > 0 {
          assert ls[i] == ls[1..][i - 1];
        }
      }
    }
  }

  lemma FailedWriteGivesUp(w: Hub, st: State, r: Rid, landed: nat)
    requires Guard(w, st, LWrite(r, landed, true))
    ensures var st' := Apply(w, st, LWrite(r, landed, true)); r in st'.rooms && GivenUp(st'.rooms[r].phase)
  {
    hide Line, Remember;
  }

  /** After a failed append, however much of the record landed, the memory that
      ran ahead of the file is never used again, and nobody was sent the message. */
  lemma FailedWriteNeverServes(w: Hub, st: State, ls: seq<Label>, r: Rid, landed: nat)
    requires ls != [] && ls[0] == LWrite(r, landed, true) && Run(w, st, ls) && Uncrashed(ls)
    ensures forall i :: 0 < i < |ls| ==> !Serves(ls[i], r)
    ensures Apply(w, st, ls[0]).queues == st.queues && Apply(w, st, ls[0]).delivered == st.delivered
  {
    var st' := Apply(w, st, ls[0]);
    FailedWriteGivesUp(w, st, r, landed);
    assert st'.queues == st.queues && st'.delivered == st.delivered by {
      hide Line, Remember;
    }
    hide Guard, Apply, GivenUp, Serves;
    FailedNeverServes(w, st', ls[1..], r);
    forall i | 0 < i < |ls| ensures !Serves(ls[i], r) {
      assert ls[i] == ls[1..][i - 1];
    }
  }

  // ---- The client's view -----------------------------------------------

  /** Unbroken client stream: while its room serves, a member whose connection was
      not closed has been handed, in order and without a hole, the response to its
      join and every message of the room since, up to the newest, or to the one
      before it while the fan-out of the newest has yet to reach it. A member
      still being answered is owed the rest of its response and nothing else. */
  lemma StreamIsUnbroken(w: Hub, st: State, r: Rid, c: Cid)
    requires Lawful(w.ops) && Reachable(w, st) && r in st.rooms && InService(st.rooms[r].phase)
    requires c in st.rooms[r].members && Connected(st, c)
    ensures c in st.streams
    ensures var s, log, p := st.streams[c], Log(st, st.rooms[r].name), st.rooms[r].phase;
      if Answering(p, c) then
        s.start == |log| && Answered(w, log, s) && s.got + SignedOf(p.frames) == Msgs(s.resp)
      else UpTo(w, log, Handed(p, c, |log|), s)
  {
    hide Lawful, Reachable, Sound, FilesOK, MemoryOK, DeliveredOK, PendingOK, Answered, Log, InService, Connected;
    ReachableSound(w, st);
    SoundParts(w, st);
    assert RoomStreams(w, st, r);
    var log := Log(st, st.rooms[r].name);
    assert log[..|log|] == log;
  }

  lemma ReachableMembership(w: Hub, st: State)
    requires Reachable(w, st)
    ensures Membership(st)
  {
    hide Run, Outcome, Control, Membership;
    var ls :| Run(w, Init(), ls) && Outcome(w, Init(), ls) == st;
    InitControl(w);
    assert Membership(Init()) by {
      RestartMembership(Init());
    }
    RunKeepsMembership(w, Init(), ls);
  }

  /** A client that was told it is in a room is in that room's client set, so
      the room's fan-out reaches it or closes it. */
  lemma HolderIsMember(w: Hub, st: State, r: Rid, c: Cid)
    requires Reachable(w, st) && c in st.sessions && Holds(st.sessions[c]) == Some(r)
    ensures r in st.rooms && c in st.rooms[r].members
  {
    hide Reachable, MembersClosed;
    ReachableMembership(w, st);
  }

  /** So a connected client in a room that serves is up to date. */
  lemma HolderIsUpToDate(w: Hub, st: State, r: Rid, c: Cid)
    requires Lawful(w.ops) && Reachable(w, st) && Connected(st, c)
    requires c in st.sessions && Holds(st.sessions[c]) == Some(r) && r in st.rooms && InService(st.rooms[r].phase)
    requires !Answering(st.rooms[r].phase, c)
    ensures c in st.streams
    ensures var log := Log(st, st.rooms[r].name);
      UpTo(w, log, Handed(st.rooms[r].phase, c, |log|), st.streams[c])
  {
    hide Lawful, Reachable, UpTo, Log, Holds, Connected, InService, Answering;
    HolderIsMember(w, st, r, c);
    StreamIsUnbroken(w, st, r, c);
  }

  /** A room that failed returns only after every one of its members was closed,
      so each of them reconnects and asks for what it missed. */
  lemma FailureClosesMembers(w: Hub, st: State, r: Rid)
    requires Reachable(w, st) && RoomGuard(w, st, LFinish(r)) && st.rooms[r].phase.Killing?
    ensures forall c :: c in st.rooms[r].members ==> !Connected(st, c)
  {
    hide Reachable, HoldersIn, Connected;
    ReachableMembership(w, st);
  }

  lemma SpanSeqs(log: seq<Message>, start: nat, n: nat)
    requires Contiguous(log, 0) && start <= n <= |log|
    ensures forall x: nat :: HasSeq(log[start..n], x) <==> start < x <= n
  {
    forall x: nat ensures HasSeq(log[start..n], x) <==> start < x <= n {
      if start < x <= n {
        assert log[start..n][x - 1 - start].header.sn == x;
      }
    }
  }

  /** The answer to a join at or above the newest: nothing. */
  lemma AnsweredNothing(w: Hub, log: seq<Message>, s: Stream)
    requires Answered(w, log, s) && s.since >= |log|
    ensures s.resp == Some(Response([], []))
  {
    var h, file :| Agrees(w.ops, h, file, log) && s.resp == Since(w.ops, w.cfg.store, h, file, s.since);
    assert h.lastSeq == |log| < U64_MAX;
    hide Agrees, Since;
    SincePartition(w.ops, w.cfg.store, h, file, s.since);
  }

  /** What the join's response had, by sequence. */
  lemma AnsweredSeqs(w: Hub, log: seq<Message>, s: Stream)
    requires Lawful(w.ops) && Answered(w, log, s) && s.resp.Some? && |log| == s.start
    ensures forall x: nat :: HasSeq(Msgs(s.resp), x) <==> Oldest(w, s) <= x <= s.start && x !in Targets(w.ops, log)
  {
    if s.since >= s.start {
      AnsweredNothing(w, log, s);
      return;
    }
    var h, file :| Agrees(w.ops, h, file, log) && s.resp == Since(w.ops, w.cfg.store, h, file, s.since);
    assert h.lastSeq == |log| && h.shushed == Targets(w.ops, log) && Contiguous(log, 0);
    assert SinceStart(w.cfg.store, h, s.since) == Oldest(w, s);
    hide Lawful, Agrees, Since, Contiguous, Targets, Visible, HasSeq, SinceStart, Oldest;
    SinceRefines(w.ops, w.cfg.store, h, file, log, s.since);
    VisibleSeqs(w.ops, w.cfg.store, h, log, Oldest(w, s), |log|);
  }

  /** The oldest sequence a join's response reaches back to; past the newest if
      the client has that already. */
  function Oldest(w: Hub, s: Stream): (x: nat)
    ensures x > 0
  {
    var limit := w.cfg.store.Limit();
    if s.since >= s.start then s.start + 1
    else if limit > 0 && s.start - s.since > limit then s.start - limit + 1 else s.since + 1
  }

  /** The stream has every sequence from the oldest of the join's window to n, save
      those withheld when the client joined. */
  ghost predicate Complete(w: Hub, log: seq<Message>, n: nat, s: Stream)
    requires s.start <= n <= |log|
  {
    forall x: nat :: HasSeq(s.got, x) <==>
      Oldest(w, s) <= x <= n && !(x <= s.start && x in Targets(w.ops, log[..s.start]))
  }

  lemma UpToIsComplete(w: Hub, log: seq<Message>, n: nat, s: Stream)
    requires Lawful(w.ops) && LogOK(w.ops, log) && UpTo(w, log, n, s) && s.resp.Some?
    ensures Complete(w, log, n, s)
  {
    assert Contiguous(log, 0) && |log[..s.start]| == s.start;
    hide Lawful, Answered, Targets, HasSeq, Contiguous, LogOK, Oldest;
    AnsweredSeqs(w, log[..s.start], s);
    SpanSeqs(log, s.start, n);
    forall x: nat
      ensures HasSeq(s.got, x) <==> Oldest(w, s) <= x <= n && !(x <= s.start && x in Targets(w.ops, log[..s.start]))
    {
      HasSeqAppend(Msgs(s.resp), log[s.start..n], x);
      OldestBounds(w, s);
    }
  }

  lemma OldestBounds(w: Hub, s: Stream)
    ensures Oldest(w, s) <= s.start + 1
  {
  }

  /** The same by sequence; one that joined with nothing to catch up on was handed
      exactly what came since. */
  lemma StreamIsComplete(w: Hub, st: State, r: Rid, c: Cid)
    requires Lawful(w.ops) && Reachable(w, st) && r in st.rooms && InService(st.rooms[r].phase)
    requires c in st.rooms[r].members && Connected(st, c) && !Answering(st.rooms[r].phase, c)
    ensures c in st.streams
    ensures var s, log := st.streams[c], Log(st, st.rooms[r].name);
      var n := Handed(st.rooms[r].phase, c, |log|);
      && s.start <= n <= |log| && (s.resp.Some? ==> Complete(w, log, n, s))
      && (s.since >= s.start ==> s.resp == Some(Response([], [])) && s.got == log[s.start..n])
  {
    StreamIsUnbroken(w, st, r, c);
    ReachableFile(w, st, st.rooms[r].name);
    var s, log := st.streams[c], Log(st, st.rooms[r].name);
    var n := Handed(st.rooms[r].phase, c, |log|);
    assert LogOK(w.ops, log) && UpTo(w, log, n, s);
    hide Lawful, Reachable, FileOK, Answered, Complete, Log, LogOK, Answering, Handed;
    if s.resp.Some? {
      UpToIsComplete(w, log, n, s);
    }
    if s.since >= s.start {
      AnsweredNothing(w, log[..s.start], s);
      assert [] + log[s.start..n] == log[s.start..n];
    }
  }

  /** Every withheld message of a join's window is explained: a chain of markers
      in that window leads from it to a marker the response carries. */
  lemma WithheldAlwaysExplained(w: Hub, st: State, r: Rid, since: u64, x: u64) returns (chain: seq<u64>)
    requires Lawful(w.ops) && Reachable(w, st) && Tabled(st, r) && st.rooms[r].phase.Running?
    requires var h := st.rooms[r].hist;
      since < h.lastSeq < U64_MAX && SinceStart(w.cfg.store, h, since) <= x <= h.lastSeq && x in h.shushed
      && Since(w.ops, w.cfg.store, h, File(st, st.rooms[r].name), since).Some?
    ensures Explains(w.ops, Log(st, st.rooms[r].name), chain) && |chain| > 1 && chain[0] == x
    ensures forall i :: 0 <= i < |chain| ==>
      SinceStart(w.cfg.store, st.rooms[r].hist, since) <= chain[i] <= st.rooms[r].hist.lastSeq
    ensures var room := st.rooms[r];
      HasSeq(Since(w.ops, w.cfg.store, room.hist, File(st, room.name), since).value.msgs, chain[|chain| - 1])
  {
    ServiceAgrees(w, st, r);
    var h, file, log := st.rooms[r].hist, File(st, st.rooms[r].name), Log(st, st.rooms[r].name);
    assert h.lastSeq == |log|;
    hide Lawful, Reachable, Agrees, Since, SinceStart, Explains, HasSeq, MarkersOK, Log, File, Tabled;
    chain := WithheldIsExplained(w.ops, w.cfg.store, h, file, log, since, x);
  }

  /** In every reachable state each sequence has at most one marker, newer than it. */
  lemma MarkersAlwaysOK(w: Hub, st: State, n: Name)
    requires Lawful(w.ops) && Reachable(w, st)
    ensures MarkersOK(w.ops, Log(st, n))
  {
    hide Lawful, Reachable, OnDisk, MarkersOK;
    ReachableFile(w, st, n);
  }

  /** No queue ever exceeds its buffer, and whoever missed a message was closed. */
  lemma QueuesBounded(w: Hub, st: State, c: Cid)
    requires Reachable(w, st) && c in st.queues
    ensures |st.queues[c].out| <= w.cfg.Buffer()
  {
    hide Reachable, TableOK, PinsOK, WorkersOK, MembersOK, TableLive, NoneForgotten, RepliesOK, NamesOK, Counted;
    ReachableControl(w, st);
  }

  // ---- Control ---------------------------------------------------------

  /** A session holding or joining a live room is recorded in that room by the
      registry, whose table still has that very instance. */
  lemma HolderIsRecorded(w: Hub, st: State, r: Rid, c: Cid)
    requires Reachable(w, st) && SessionAt(st, c, r) && r in st.rooms && Live(st.rooms[r].phase)
    ensures RecordedIn(st, c, st.rooms[r].name) && Tabled(st, r)
  {
    hide Reachable, TableOK, WorkersOK, MembersOK, TableLive, NoneForgotten, RepliesOK, NamesOK, QueuesOK, Counted;
    ReachableControl(w, st);
  }

  /** Single writer, over whole runs: when one instance opens, repairs or appends to
      its archive, every other instance of that name started so far, swept, evicted
      or replaced, is through with it until the process restarts. One opened later
      under the name may touch it, and then the same holds of this one. */
  lemma SingleWriterAlways(w: Hub, st: State, ls: seq<Label>, q: Rid, r: Rid)
    requires Reachable(w, st) && Run(w, st, ls) && Uncrashed(ls) && ls != []
    requires q in st.rooms && r in st.rooms && q != r && st.rooms[q].name == st.rooms[r].name
    requires Touches(ls[0], r)
    ensures forall i :: 0 <= i < |ls| ==> !Touches(ls[i], q)
  {
    hide Reachable, Control, Run, Touches;
    ReachableControl(w, st);
    SingleWriter(w, st, ls, q, r);
  }

  lemma ShutdownCloses(st: State)
    ensures forall c :: c in st.reg.clients ==> !Connected(Shutdown(st), c)
    ensures Stopping(Shutdown(st).reg)
  {
  }

  /** Shutdown closes every client the registry has and tells every live room to stop. */
  lemma ShutdownReachesAll(w: Hub, st: State)
    requires Reachable(w, st) && st.reg.mode.Receiving?
    ensures var st' := Shutdown(st);
      && (forall c :: c in st.reg.clients ==> !Connected(st', c))
      && (forall r :: r in st'.rooms && Live(st'.rooms[r].phase) ==> st'.rooms[r].stop)
  {
    hide Reachable, Control, Live, Tabled, Connected, Shutdown, TableOK, TableLive, Counted;
    ReachableControl(w, st);
    ShutdownKeeps(w, st);
    ControlRooms(w, Shutdown(st));
    ShutdownCloses(st);
  }

  /** A join asks for its room three times at most. */
  lemma JoinGivesUp(w: Hub, st: State, c: Cid)
    requires Reachable(w, st) && c in st.sessions
    ensures TriesIn(st.sessions[c])
  {
    hide Reachable, MembersClosed, TriesIn, Holds;
    ReachableMembership(w, st);
  }

  /** The evict command names a room, and deletes that very instance. */
  lemma EvictIsByIdentity(w: Hub, st: State, r: Rid)
    requires Reachable(w, st) && RoomGuard(w, st, LEvict(r, false))
    ensures st.rooms[r].name in st.reg.table && st.reg.table[st.rooms[r].name] == r
    ensures Apply(w, st, LEvict(r, false)).reg.table == st.reg.table - {st.rooms[r].name}
  {
    assert Active(st.rooms[r].phase);
    assert PinsOK(st) && WorkersOK(st) by {
      hide Reachable, TableOK, PinsOK, WorkersOK, MembersOK, TableLive, NoneForgotten, RepliesOK, NamesOK, QueuesOK,
        Counted, RoomGuard;
      ReachableControl(w, st);
    }
    hide Reachable, PinsOK, WorkersOK;
    EvictsItself(st, r);
  }

  /** The hub cannot block: unless it is at rest, or a room ran out of sequence
      numbers, some goroutine can go on. */
  lemma NeverBlocked(w: Hub, st: State) returns (l: Label)
    requires Reachable(w, st) && !Quiet(st) && (Exhausted(st) ==> Stopping(st.reg))
    ensures Proceeds(l) && Guard(w, st, l)
  {
    hide Reachable, Control, Quiet, Exhausted, Guard, Proceeds;
    ReachableControl(w, st);
    l := DeadlockFree(w, st);
  }

  /** The registry is stopped only when every room ever started has returned,
      swept ones included. */
  lemma StoppedMeansReturned(w: Hub, st: State)
    requires Reachable(w, st) && st.reg.mode.Stopped?
    ensures forall r :: r in st.rooms ==> st.rooms[r].phase.Done?
  {
    hide Reachable, TableOK, PinsOK, WorkersOK, MembersOK, TableLive, NoneForgotten, RepliesOK, NamesOK, QueuesOK,
      Counted;
    ReachableControl(w, st);
    NoneUnfinished(st);
  }
}
