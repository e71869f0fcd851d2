/** A client's requests along a run: what it is served over several of them, with
    the room written to, closed, reopened and restarted in between. */
module HubWalks {
  import opened Base
  import opened Envelope
  import opened ArchiveSpec
  import opened HistorySpec
  import opened Serving
  import opened ClientView
  import opened HubModel
  import opened HubUpkeep
  import opened HubRuns
  import opened HubReopen

  /** The hub goes on as it may, until session c is at instance r, which takes
      requests. */
  datatype Leg = Leg(ls: seq<Label>, r: Rid, c: Cid)

  /** The legs can be made one after the other, each ending at an instance of n. */
  ghost predicate Travels(w: Hub, st: State, n: Name, legs: seq<Leg>)
    decreases |legs|
  {
    legs == [] || (
      && Run(w, st, legs[0].ls)
      && var st', r := Outcome(w, st, legs[0].ls), legs[0].r;
         && r in st'.rooms && st'.rooms[r].name == n && st'.rooms[r].phase.Running? && SessionAt(st', legs[0].c, r)
         && Travels(w, st', n, legs[1..]))
  }

  /** Where the last leg ends. */
  ghost function End(w: Hub, st: State, n: Name, legs: seq<Leg>): State
    requires Travels(w, st, n, legs)
    decreases |legs|
  {
    if legs == [] then st else End(w, Outcome(w, st, legs[0].ls), n, legs[1..])
  }

  /** The room's memory, file and log at that moment. */
  ghost function Snap(st: State, r: Rid): Snapshot
    requires r in st.rooms
  {
    Snapshot(st.rooms[r].hist, File(st, st.rooms[r].name), Log(st, st.rooms[r].name))
  }

  /** The room at the end of each leg. */
  ghost function Snaps(w: Hub, st: State, n: Name, legs: seq<Leg>): (snaps: seq<Snapshot>)
    requires Travels(w, st, n, legs)
    ensures |snaps| == |legs|
    decreases |legs|
  {
    if legs == [] then [] else
    var st' := Outcome(w, st, legs[0].ls);
    [Snap(st', legs[0].r)] + Snaps(w, st', n, legs[1..])
  }

  /** Over a run, logs only grow. */
  lemma {:induction false} RunGrowsLogs(w: Hub, st: State, ls: seq<Label>)
    requires Run(w, st, ls)
    ensures LogsGrow(st, Outcome(w, st, ls))
    decreases |ls|
  {
    hide Guard, Apply, Log;
    if ls != [] {
      StepGrowsLogs(w, st, ls[0]);
      RunGrowsLogs(w, Apply(w, st, ls[0]), ls[1..]);
    }
  }

  /** Every snapshot's log continues this one and is continued by that. */
  ghost predicate Between(snaps: seq<Snapshot>, first: seq<Message>, last: seq<Message>) {
    first <= last && forall i :: 0 <= i < |snaps| ==> first <= snaps[i].log <= last
  }

  lemma FitsBefore(o: Ops, log: seq<Message>, log': seq<Message>)
    requires log <= log' && AllFit(o, log')
    ensures AllFit(o, log)
  {
    hide Fits;
    forall m | m in log ensures Fits(o, m) {
      assert m in log';
    }
  }

  /** A served request finds the memory in step with the file and the log. */
  lemma SnapAgrees(w: Hub, st: State, r: Rid, c: Cid)
    requires Sound(w, st) && SessionAt(st, c, r) && r in st.rooms && st.rooms[r].phase.Running?
    ensures var s := Snap(st, r); Agrees(w.ops, s.h, s.file, s.log)
  {
    hide Sound, Agrees, SessionAt, File, Log;
    RunningAgrees(w, st, r, c);
  }

  lemma GrowingOn(o: Ops, s: Snapshot, rest: seq<Snapshot>, last: seq<Message>)
    requires Agrees(o, s.h, s.file, s.log) && AllFit(o, s.log) && Growing(o, rest) && Between(rest, s.log, last)
    ensures Growing(o, [s] + rest)
  {
    hide Agrees, AllFit;
  }

  lemma BetweenOn(s: Snapshot, rest: seq<Snapshot>, first: seq<Message>, last: seq<Message>)
    requires first <= s.log && Between(rest, s.log, last)
    ensures Between([s] + rest, first, last)
  {
  }

  /** The snapshots of any travel are of one growing room, in step each time, if
      what the room has been sent by the end fits the scanner. */
  lemma {:induction false} SnapsGrow(w: Hub, st: State, n: Name, legs: seq<Leg>)
    requires Sound(w, st) && Travels(w, st, n, legs)
    ensures Between(Snaps(w, st, n, legs), Log(st, n), Log(End(w, st, n, legs), n))
    ensures AllFit(w.ops, Log(End(w, st, n, legs), n)) ==> Growing(w.ops, Snaps(w, st, n, legs))
    decreases |legs|
  {
    hide Sound, Run, Outcome, AllFit, Agrees, Log, Growing, Between, LogsGrow, File;
    if legs == [] {
      EmptyGrows(w.ops, Log(st, n));
    } else {
      var st', r := Outcome(w, st, legs[0].ls), legs[0].r;
      var last := Log(End(w, st', n, legs[1..]), n);
      RunKeepsSound(w, st, legs[0].ls);
      RunGrowsLogs(w, st, legs[0].ls);
      GrewAt(st, st', n);
      SnapAgrees(w, st', r, legs[0].c);
      SnapsGrow(w, st', n, legs[1..]);
      var s, rest := Snap(st', r), Snaps(w, st', n, legs[1..]);
      BetweenOn(s, rest, Log(st, n), last);
      if AllFit(w.ops, last) {
        assert s.log <= last by {
          BetweenEnds(rest, s.log, last);
        }
        FitsBefore(w.ops, s.log, last);
        GrowingOn(w.ops, s, rest, last);
      }
    }
  }

  lemma EmptyGrows(o: Ops, log: seq<Message>)
    ensures Growing(o, []) && Between([], log, log)
  {
  }

  lemma BetweenEnds(snaps: seq<Snapshot>, first: seq<Message>, last: seq<Message>)
    requires Between(snaps, first, last)
    ensures first <= last
  {
  }

  lemma FirstCounts(o: Ops, snaps: seq<Snapshot>)
    requires Growing(o, snaps) && snaps != []
    ensures |snaps[0].log| == snaps[0].h.lastSeq
  {
  }

  /** What a join is answered is the answer from the snapshot. */
  lemma JoinAnswer(w: Hub, st: State, r: Rid, c: Cid)
    requires RoomGuard(w, st, LTakeJoin(r, c))
    ensures c in TakeJoin(w, st, r, c).streams
    ensures TakeJoin(w, st, r, c).streams[c].resp == SinceAt(w.ops, w.cfg.store, Snap(st, r), st.sessions[c].since)
  {
    hide Since, Answer;
  }

  /** What a backfill of a proper span is answered is too. */
  lemma BackfillAnswer(w: Hub, st: State, r: Rid, c: Cid, ts: i64)
    requires RoomGuard(w, st, LTakeFrame(r, c, ts)) && st.sessions[c].frame.BackfillFrame?
    requires var f := st.sessions[c].frame; 0 < f.from <= f.to
    ensures r in TakeFrame(w, st, r, c, ts).rooms
    ensures var f := st.sessions[c].frame;
      TakeFrame(w, st, r, c, ts).rooms[r].phase
        == Delivering(c, Answer(st.rooms[r].name, RangeAt(w.ops, w.cfg.store, Snap(st, r), f.from, f.to)), false)
  {
    hide RangeOf, Answer;
  }

  /** Walking a span back over any run takes ceil(n / k) requests and serves each
      sequence exactly once, unless withheld by then: whatever is written
      meanwhile, and whichever instances of the room, of this process or the next,
      happen to serve it. */
  lemma WalkOverRuns(w: Hub, st: State, n: Name, legs: seq<Leg>, from: u64, to: u64)
    requires Lawful(w.ops) && Reachable(w, st) && Travels(w, st, n, legs)
    requires AllFit(w.ops, Log(End(w, st, n, legs), n)) && w.cfg.store.Limit() > 0
    requires legs != [] && 0 < from <= to <= Snaps(w, st, n, legs)[0].h.lastSeq
    requires |legs| >= Calls(to - from + 1, w.cfg.store.Limit())
    ensures var k, snaps := w.cfg.store.Limit(), Snaps(w, st, n, legs);
      var rs := Walk(w.ops, w.cfg.store, snaps, from, to);
      && |rs| == Calls(to - from + 1, k) && OnceEach(snaps, rs, from, to, k) && Inside(rs, from, to)
  {
    hide *;
    ReachableSound(w, st);
    SnapsGrow(w, st, n, legs);
    FirstCounts(w.ops, Snaps(w, st, n, legs));
    WalkIsComplete(w.ops, w.cfg.store, Snaps(w, st, n, legs), from, to);
  }

  /** And a client that resumes from `since` and walks back through the gap it was
      given has every sequence since exactly once, unless withheld. */
  lemma ResumeOverRuns(w: Hub, st: State, n: Name, legs: seq<Leg>, since: u64)
    requires Lawful(w.ops) && Reachable(w, st) && Travels(w, st, n, legs)
    requires AllFit(w.ops, Log(End(w, st, n, legs), n)) && w.cfg.store.Limit() > 0
    requires legs != [] && since < Snaps(w, st, n, legs)[0].h.lastSeq
    requires |legs| > Calls(SinceStart(w.cfg.store, Snaps(w, st, n, legs)[0].h, since) - since - 1, w.cfg.store.Limit())
    ensures SinceAt(w.ops, w.cfg.store, Snaps(w, st, n, legs)[0], since).Some?
    ensures var k, snaps := w.cfg.store.Limit(), Snaps(w, st, n, legs);
      var first := SinceAt(w.ops, w.cfg.store, snaps[0], since).value;
      var rest := Follow(w.ops, w.cfg.store, snaps[1..], first.gaps);
      var start := SinceStart(w.cfg.store, snaps[0].h, since);
      && |rest| == Calls(start - since - 1, k)
      && (forall x: nat :: start <= x <= snaps[0].h.lastSeq ==> OnceAt(snaps, [first] + rest, x, 0))
      && OnceEachAfter(snaps, [first] + rest, since + 1, start - 1, k)
  {
    hide *;
    ReachableSound(w, st);
    SnapsGrow(w, st, n, legs);
    FirstCounts(w.ops, Snaps(w, st, n, legs));
    ResumeIsComplete(w.ops, w.cfg.store, Snaps(w, st, n, legs), since);
  }
}
