/** What a request for history is answered with, frame by frame: a client can tell
    of every sequence it asked about whether it was served, cut off, or withheld. */
module HubAnswers {
  import opened Base
  import opened HistorySpec
  import opened Serving
  import opened HubModel
  import opened Envelope
  import opened RoomRules

  lemma {:induction false} NotesAt(n: Name, gaps: seq<Gap>)
    ensures |Notes(n, gaps)| == |gaps| && forall i :: 0 <= i < |gaps| ==> Notes(n, gaps)[i] == GapNote(n, gaps[i])
  {
    if gaps != [] {
      NotesAt(n, gaps[1..]);
    }
  }

  lemma {:induction false} SignedAt(ms: seq<Message>)
    ensures |SignedAll(ms)| == |ms| && forall i :: 0 <= i < |ms| ==> SignedAll(ms)[i] == Signed(ms[i])
  {
    if ms != [] {
      SignedAt(ms[1..]);
    }
  }

  /** An answer is one frame for each gap, in order, then one for each message, in
      order, and nothing else; a failed read is answered with one refusal. */
  lemma AnswerExact(n: Name, r: Response)
    ensures var frames := Answer(n, Some(r));
      && |frames| == |r.gaps| + |r.msgs|
      && (forall i :: 0 <= i < |r.gaps| ==> frames[i] == GapNote(n, r.gaps[i]))
      && (forall j :: 0 <= j < |r.msgs| ==> frames[|r.gaps| + j] == Signed(r.msgs[j]))
    ensures Answer(n, None) == [Refusal]
  {
    NotesAt(n, r.gaps);
    SignedAt(r.msgs);
  }

  /** The frame says what became of sequence x of the room: here it is, or cut off. */
  predicate Tells(f: Out, n: Name, x: int) {
    (f.Signed? && f.m.header.sn == x) || (f.GapNote? && f.room == n && InGap(f.gap, x))
  }

  ghost predicate ToldOnce(frames: seq<Out>, n: Name, x: int) {
    exists i :: 0 <= i < |frames| && Tells(frames[i], n, x) &&
      forall j :: 0 <= j < |frames| && Tells(frames[j], n, x) ==> j == i
  }

  ghost predicate NotTold(frames: seq<Out>, n: Name, x: int) {
    forall i :: 0 <= i < |frames| ==> !Tells(frames[i], n, x)
  }

  /** Each sequence of [from, to] is told of by exactly one frame, but for those
      withheld in the window [lo, hi], of which there is no word; nor is there of
      anything outside. */
  ghost predicate Told(frames: seq<Out>, n: Name, shushed: set<u64>, from: int, to: int, lo: int, hi: int) {
    forall x: u64 ::
      if from <= x <= to && !(lo <= x <= hi && x in shushed) then ToldOnce(frames, n, x) else NotTold(frames, n, x)
  }

  lemma AnswerTells(n: Name, r: Response, x: int)
    ensures var frames := Answer(n, Some(r));
      && (forall i :: 0 <= i < |r.gaps| ==> i < |frames| && (Tells(frames[i], n, x) <==> InGap(r.gaps[i], x)))
      && (forall j :: |r.gaps| <= j < |frames| ==>
           j - |r.gaps| < |r.msgs| && (Tells(frames[j], n, x) <==> r.msgs[j - |r.gaps|].header.sn == x))
      && |frames| == |r.gaps| + |r.msgs|
  {
    AnswerExact(n, r);
    hide Answer;
    var frames := Answer(n, Some(r));
    forall j | |r.gaps| <= j < |frames|
      ensures Tells(frames[j], n, x) <==> r.msgs[j - |r.gaps|].header.sn == x
    {
      assert frames[|r.gaps| + (j - |r.gaps|)] == Signed(r.msgs[j - |r.gaps|]);
    }
  }

  /** A partition stays one on its way into frames. */
  lemma PartitionTold(n: Name, r: Response, shushed: set<u64>, from: int, to: int, lo: int, hi: int)
    requires Partitioned(r, shushed, from, to, lo, hi)
    ensures Told(Answer(n, Some(r)), n, shushed, from, to, lo, hi)
  {
    var frames := Answer(n, Some(r));
    forall x: u64
      ensures
        if from <= x <= to && !(lo <= x <= hi && x in shushed) then ToldOnce(frames, n, x) else NotTold(frames, n, x)
    {
      AnswerTells(n, r, x);
      hide Answer, Tells;
      if from <= x <= to && !(lo <= x <= hi && x in shushed) {
        if HasSeq(r.msgs, x) {
          var j :| 0 <= j < |r.msgs| && r.msgs[j].header.sn == x;
          MessageTold(n, r, shushed, from, to, lo, hi, x, j);
        } else {
          var i :| 0 <= i < |r.gaps| && InGap(r.gaps[i], x);
          GapTold(n, r, shushed, from, to, lo, hi, x, i);
        }
      } else {
        assert !HasSeq(r.msgs, x) && !InGaps(r.gaps, x);
      }
    }
  }

  lemma MessageTold(
      n: Name, r: Response, shushed: set<u64>, from: int, to: int, lo: int, hi: int, x: u64, j: nat)
    requires Partitioned(r, shushed, from, to, lo, hi) && from <= x <= to
    requires j < |r.msgs| && r.msgs[j].header.sn == x
    ensures ToldOnce(Answer(n, Some(r)), n, x)
  {
    AnswerTells(n, r, x);
    hide Answer, Tells;
    assert HasSeq(r.msgs, x) && !InGaps(r.gaps, x);
    assert Tells(Answer(n, Some(r))[|r.gaps| + j], n, x);
  }

  lemma GapTold(n: Name, r: Response, shushed: set<u64>, from: int, to: int, lo: int, hi: int, x: u64, i: nat)
    requires Partitioned(r, shushed, from, to, lo, hi) && from <= x <= to
    requires i < |r.gaps| && InGap(r.gaps[i], x)
    ensures ToldOnce(Answer(n, Some(r)), n, x)
  {
    AnswerTells(n, r, x);
    hide Answer, Tells;
    assert InGaps(r.gaps, x) && !HasSeq(r.msgs, x);
    assert Tells(Answer(n, Some(r))[i], n, x);
  }

  lemma TellsAfter(out: Out, frames: seq<Out>, n: Name, x: int)
    requires !out.Signed? && !out.GapNote?
    ensures ToldOnce(frames, n, x) ==> ToldOnce([out] + frames, n, x)
    ensures NotTold(frames, n, x) ==> NotTold([out] + frames, n, x)
  {
    var all := [out] + frames;
    assert !Tells(out, n, x);
    hide Tells;
    assert forall j :: 0 < j < |all| ==> all[j] == frames[j - 1];
    if ToldOnce(frames, n, x) {
      var i :| 0 <= i < |frames| && Tells(frames[i], n, x) &&
        forall j :: 0 <= j < |frames| && Tells(frames[j], n, x) ==> j == i;
      assert Tells(all[i + 1], n, x);
    }
  }

  lemma ToldAfter(out: Out, frames: seq<Out>, n: Name, shushed: set<u64>, from: int, to: int, lo: int, hi: int)
    requires Told(frames, n, shushed, from, to, lo, hi) && !out.Signed? && !out.GapNote?
    ensures Told([out] + frames, n, shushed, from, to, lo, hi)
  {
    hide ToldOnce, NotTold;
    forall x: u64
      ensures ToldOnce(frames, n, x) ==> ToldOnce([out] + frames, n, x)
      ensures NotTold(frames, n, x) ==> NotTold([out] + frames, n, x)
    {
      TellsAfter(out, frames, n, x);
    }
  }

  lemma JoinPhase(w: Hub, st: State, r: Rid, c: Cid)
    requires RoomGuard(w, st, LTakeJoin(r, c))
    ensures var h, n := st.rooms[r].hist, st.rooms[r].name;
      var resp := Since(w.ops, w.cfg.store, h, File(st, n), st.sessions[c].since);
      && r in TakeJoin(w, st, r, c).rooms && h.lastSeq < U64_MAX
      && TakeJoin(w, st, r, c).rooms[r].phase == Delivering(c, [Joined(n, h.lastSeq)] + Answer(n, resp), true)
  {
    hide Since, Answer;
  }

  lemma BackfillPhase(w: Hub, st: State, r: Rid, c: Cid, ts: i64)
    requires RoomGuard(w, st, LTakeFrame(r, c, ts)) && st.sessions[c].frame.BackfillFrame?
    ensures var h, n, f := st.rooms[r].hist, st.rooms[r].name, st.sessions[c].frame;
      && r in TakeFrame(w, st, r, c, ts).rooms && h.lastSeq < U64_MAX
      && TakeFrame(w, st, r, c, ts).rooms[r].phase == Delivering(c,
           if f.from == 0 || f.to < f.from then [Refusal]
           else Answer(n, RangeOf(w.ops, w.cfg.store, h, File(st, n), f.from, f.to)), false)
  {
    hide RangeOf, Answer;
  }

  /** The answer to a join, as frames. */
  lemma SinceTold(w: Hub, n: Name, h: Hist, file: Bytes, since: u64)
    requires h.lastSeq < U64_MAX
    ensures var resp := Since(w.ops, w.cfg.store, h, file, since);
      && (since >= h.lastSeq ==> Answer(n, resp) == [])
      && (if resp.None? then Answer(n, resp) == [Refusal]
          else Told(Answer(n, resp), n, h.shushed, since + 1, h.lastSeq, SinceStart(w.cfg.store, h, since), h.lastSeq))
  {
    var resp := Since(w.ops, w.cfg.store, h, file, since);
    SincePartition(w.ops, w.cfg.store, h, file, since);
    AnswerExact(n, if resp.Some? then resp.value else Response([], []));
    hide *;
    if resp.Some? {
      PartitionTold(n, resp.value, h.shushed, since + 1, h.lastSeq, SinceStart(w.cfg.store, h, since), h.lastSeq);
    }
  }

  /** The answer to a proper span, as frames. */
  lemma RangeTold(w: Hub, n: Name, h: Hist, file: Bytes, from: u64, to: u64)
    requires h.lastSeq < U64_MAX && 0 < from <= to
    ensures var resp := RangeOf(w.ops, w.cfg.store, h, file, from, to);
      if from > h.lastSeq then Answer(n, resp) == []
      else if resp.None? then Answer(n, resp) == [Refusal]
      else Told(Answer(n, resp), n, h.shushed, from, if to < h.lastSeq then to else h.lastSeq,
        from, RangeEnd(w.cfg.store, h, from, to))
  {
    var resp := RangeOf(w.ops, w.cfg.store, h, file, from, to);
    assert RangeFrom(from) == from && RangeTo(h, to) == if to < h.lastSeq then to else h.lastSeq;
    RangePartition(w.ops, w.cfg.store, h, file, from, to);
    AnswerExact(n, if resp.Some? then resp.value else Response([], []));
    hide *;
    if resp.Some? && from <= h.lastSeq {
      PartitionTold(n, resp.value, h.shushed, from, RangeTo(h, to), from, RangeEnd(w.cfg.store, h, from, to));
    }
  }

  /** What a join is answered with: the room's newest sequence first, and then, of
      each newer sequence than it asked for, exactly one frame, unless withheld.
      A client that has the newest gets nothing more; if the archive cannot be
      read, it is told so and gets nothing more. */
  lemma JoinTold(w: Hub, st: State, r: Rid, c: Cid)
    requires RoomGuard(w, st, LTakeJoin(r, c))
    ensures var h, n, since := st.rooms[r].hist, st.rooms[r].name, st.sessions[c].since;
      var p := TakeJoin(w, st, r, c).rooms[r].phase;
      && p.Delivering? && p.client == c && p.joining && p.frames != [] && p.frames[0] == Joined(n, h.lastSeq)
      && (since >= h.lastSeq ==> p.frames == [Joined(n, h.lastSeq)])
      && (if Since(w.ops, w.cfg.store, h, File(st, n), since).None? then p.frames == [Joined(n, h.lastSeq), Refusal]
          else Told(p.frames, n, h.shushed, since + 1, h.lastSeq, SinceStart(w.cfg.store, h, since), h.lastSeq))
  {
    hide Since, Answer, Told, TakeJoin, SinceStart;
    var h, n, since := st.rooms[r].hist, st.rooms[r].name, st.sessions[c].since;
    var resp := Since(w.ops, w.cfg.store, h, File(st, n), since);
    JoinPhase(w, st, r, c);
    SinceTold(w, n, h, File(st, n), since);
    if resp.Some? {
      ToldAfter(Joined(n, h.lastSeq), Answer(n, resp), n, h.shushed, since as int + 1, h.lastSeq,
        SinceStart(w.cfg.store, h, since), h.lastSeq);
    }
  }

  /** What a backfill is answered with: a refusal if its span is not one, or if the
      archive cannot be read; and otherwise, of each assigned sequence of the span,
      exactly one frame, unless withheld. */
  lemma BackfillTold(w: Hub, st: State, r: Rid, c: Cid, ts: i64)
    requires RoomGuard(w, st, LTakeFrame(r, c, ts)) && st.sessions[c].frame.BackfillFrame?
    ensures var h, n, f := st.rooms[r].hist, st.rooms[r].name, st.sessions[c].frame;
      var p := TakeFrame(w, st, r, c, ts).rooms[r].phase;
      && p.Delivering? && p.client == c && !p.joining
      && if f.from == 0 || f.to < f.from then p.frames == [Refusal]
         else if f.from > h.lastSeq then p.frames == []
         else if RangeOf(w.ops, w.cfg.store, h, File(st, n), f.from, f.to).None? then p.frames == [Refusal]
         else
           var top := if f.to < h.lastSeq then f.to else h.lastSeq;
           Told(p.frames, n, h.shushed, f.from, top, f.from, RangeEnd(w.cfg.store, h, f.from, f.to))
  {
    var f := st.sessions[c].frame;
    BackfillPhase(w, st, r, c, ts);
    if 0 < f.from <= f.to {
      RangeTold(w, st.rooms[r].name, st.rooms[r].hist, File(st, st.rooms[r].name), f.from, f.to);
    }
    hide RangeOf, Answer, Told, TakeFrame, RangeEnd;
  }
}
