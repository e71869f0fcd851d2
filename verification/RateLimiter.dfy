/** The login token bucket, over real time. */
module RateLimiter {

  datatype Bucket = Bucket(tokens: real, seen: real)

  datatype Limits = Limits(burst: real, refill: real, idle: real)

  /** Tokens refill to full over one window; a bucket is idle after four. */
  function MakeLimits(burst: int, window: real): (l: Limits)
    ensures Sane(l)
    ensures l.burst == (if burst > 1 then burst as real else 1.0)
    ensures l.idle == 4.0 * (if window > 0.0 then window else 60.0)
    ensures Gain(l, if window > 0.0 then window else 60.0) == l.burst
  {
    var b := if burst < 1 then 1.0 else burst as real;
    var w := if window <= 0.0 then 60.0 else window;
    QuotientFacts(b, w);
    Limits(b, b / w, w * 4.0)
  }

  lemma QuotientFacts(b: real, w: real)
    requires b >= 1.0 && w > 0.0
    ensures b / w > 0.0
    ensures (w * 4.0) * (b / w) >= b
  {
    var q := b / w;
    assert q * w == b;
    assert (w * 4.0) * q == 4.0 * (q * w);
  }

  /** An idle bucket would have refilled. */
  predicate Sane(l: Limits) {
    l.burst >= 1.0 && l.refill > 0.0 && l.idle > 0.0 && Gain(l, l.idle) >= l.burst
  }

  /** What refills over a duration. */
  function Gain(l: Limits, d: real): real { d * l.refill }

  lemma GainAdds(l: Limits, c: real, d: real)
    ensures Gain(l, c + d) == Gain(l, c) + Gain(l, d)
  {
  }

  lemma GainGrows(l: Limits, c: real, d: real)
    requires l.refill > 0.0 && c <= d
    ensures Gain(l, c) <= Gain(l, d) && Gain(l, 0.0) == 0.0
  {
  }

  type Buckets = map<string, Bucket>

  datatype State = State(buckets: Buckets, lastSweep: real)

  function Refilled(l: Limits, b: Bucket, now: real): real {
    var t := b.tokens + Gain(l, now - b.seen);
    if l.burst <= t then l.burst else t
  }

  /** The tokens a key has to spend now; a key without a bucket has a full one. */
  function Level(l: Limits, s: State, key: string, now: real): real {
    if key in s.buckets then Refilled(l, s.buckets[key], now) else l.burst
  }

  predicate Idle(l: Limits, b: Bucket, now: real) { now - b.seen >= l.idle }

  function Sweep(l: Limits, s: State, now: real): State {
    if now - s.lastSweep < l.idle then s
    else State(map k | k in s.buckets && !Idle(l, s.buckets[k], now) :: s.buckets[k], now)
  }

  function Spend(l: Limits, s: State, key: string, now: real): (State, bool) {
    var level := Level(l, s, key, now);
    var ok := level >= 1.0;
    (s.(buckets := s.buckets[key := Bucket(if ok then level - 1.0 else level, now)]), ok)
  }

  /** One call: with `sweeping`, as the limiter does it; without, as one that
      never drops a bucket would. */
  function AllowStep(l: Limits, sweeping: bool, s: State, key: string, now: real): (State, bool) {
    Spend(l, if sweeping then Sweep(l, s, now) else s, key, now)
  }

  class Limiter {
    const limits: Limits
    var buckets: Buckets
    var lastSweep: real

    ghost function Value(): State
      reads this
    {
      State(buckets, lastSweep)
    }

    constructor (burst: int, window: real, now: real)
      ensures limits == MakeLimits(burst, window) && Value() == State(map[], now)
    {
      limits := MakeLimits(burst, window);
      buckets, lastSweep := map[], now;
    }

    method Allow(key: string, now: real) returns (ok: bool)
      modifies this
      ensures (Value(), ok) == AllowStep(limits, true, old(Value()), key, now)
    {
      SweepIdle(now);
      var b: Bucket;
      if key !in buckets {
        b := Bucket(limits.burst, now);
      } else {
        b := buckets[key];
        var t := b.tokens + Gain(limits, now - b.seen);
        b := Bucket(if limits.burst <= t then limits.burst else t, now);
      }
      if b.tokens < 1.0 {
        buckets := buckets[key := b];
        return false;
      }
      buckets := buckets[key := b.(tokens := b.tokens - 1.0)];
      return true;
    }

    /** Drops the idle buckets, one by one, at most once per idle period. */
    method SweepIdle(now: real)
      modifies this
      ensures Value() == Sweep(limits, old(Value()), now)
    {
      if now - lastSweep < limits.idle {
        return;
      }
      lastSweep := now;
      var todo := buckets.Keys;
      while todo != {}
        invariant lastSweep == now
        invariant todo <= old(buckets).Keys
        invariant forall k :: k in buckets <==> k in old(buckets) && (k in todo || !Idle(limits, old(buckets)[k], now))
        invariant forall k :: k in buckets ==> buckets[k] == old(buckets)[k]
        decreases todo
      {
        var key :| key in todo;
        if now - buckets[key].seen >= limits.idle {
          buckets := buckets - {key};
        }
        todo := todo - {key};
      }
      assert buckets == Sweep(limits, old(Value()), now).buckets;
    }
  }

  // ---- Whole runs -----------------------------------------------------

  datatype Call = Call(key: string, now: real)

  /** Times never run backwards, and none is before `since`. */
  predicate Ordered(calls: seq<Call>, since: real) {
    calls == [] || (since <= calls[0].now && Ordered(calls[1..], calls[0].now))
  }

  function Answers(l: Limits, sweeping: bool, s: State, calls: seq<Call>): seq<bool>
    decreases |calls|
  {
    if calls == [] then [] else
    var (s', ok) := AllowStep(l, sweeping, s, calls[0].key, calls[0].now);
    [ok] + Answers(l, sweeping, s', calls[1..])
  }

  function After(l: Limits, sweeping: bool, s: State, calls: seq<Call>): State
    decreases |calls|
  {
    if calls == [] then s else
    After(l, sweeping, AllowStep(l, sweeping, s, calls[0].key, calls[0].now).0, calls[1..])
  }

  /** How many of the calls for a key are allowed. */
  function Granted(l: Limits, sweeping: bool, s: State, calls: seq<Call>, key: string): nat
    decreases |calls|
  {
    if calls == [] then 0 else
    var (s', ok) := AllowStep(l, sweeping, s, calls[0].key, calls[0].now);
    (if ok && calls[0].key == key then 1 else 0) + Granted(l, sweeping, s', calls[1..], key)
  }

  /** Buckets hold between 0 and burst tokens and were seen by `now`. */
  predicate Sound(l: Limits, s: State, now: real) {
    forall k :: k in s.buckets ==> 0.0 <= s.buckets[k].tokens <= l.burst && s.buckets[k].seen <= now
  }

  lemma LevelInRange(l: Limits, s: State, key: string, now: real)
    requires Sane(l) && Sound(l, s, now)
    ensures 0.0 <= Level(l, s, key, now) <= l.burst
  {
    hide Gain;
    if key in s.buckets {
      GainGrows(l, 0.0, now - s.buckets[key].seen);
    }
  }

  /** Dropping an idle bucket changes no level: it would have refilled. */
  lemma SweepKeepsLevels(l: Limits, s: State, now: real, key: string)
    requires Sane(l) && Sound(l, s, now)
    ensures Sound(l, Sweep(l, s, now), now)
    ensures Level(l, Sweep(l, s, now), key, now) == Level(l, s, key, now)
  {
    hide Gain;
    if key in s.buckets && key !in Sweep(l, s, now).buckets {
      GainGrows(l, l.idle, now - s.buckets[key].seen);
    }
  }

  lemma AllowStepSound(l: Limits, sweeping: bool, s: State, key: string, now: real)
    requires Sane(l) && Sound(l, s, now)
    ensures Sound(l, AllowStep(l, sweeping, s, key, now).0, now)
  {
    hide Gain, Level, Sweep;
    SweepKeepsLevels(l, s, now, key);
    LevelInRange(l, s, key, now);
  }

  /** Tokens stay between 0 and burst throughout every run, sweeping or not. */
  lemma {:induction false} RunSound(l: Limits, sweeping: bool, s: State, calls: seq<Call>, since: real)
    requires Sane(l) && Sound(l, s, since) && Ordered(calls, since)
    ensures Sound(l, After(l, sweeping, s, calls), if calls == [] then since else calls[|calls| - 1].now)
    decreases |calls|
  {
    if calls != [] {
      var c := calls[0];
      AllowStepSound(l, sweeping, s, c.key, c.now);
      RunSound(l, sweeping, AllowStep(l, sweeping, s, c.key, c.now).0, calls[1..], c.now);
    }
  }

  /** Between two times a level grows by no more than the refill. */
  lemma LevelGrowth(l: Limits, s: State, key: string, t0: real, t1: real)
    requires Sane(l) && Sound(l, s, t0) && t0 <= t1
    ensures Level(l, s, key, t1) <= Level(l, s, key, t0) + Gain(l, t1 - t0)
  {
    hide Gain;
    GainGrows(l, 0.0, t1 - t0);
    if key in s.buckets {
      var seen := s.buckets[key].seen;
      GainAdds(l, t0 - seen, t1 - t0);
      assert t0 - seen + (t1 - t0) == t1 - seen;
    }
  }

  /** What one call takes from a level is what it grants. */
  lemma SpendTakes(l: Limits, sweeping: bool, s: State, c: Call, key: string)
    requires Sane(l) && Sound(l, s, c.now)
    ensures var (s', ok) := AllowStep(l, sweeping, s, c.key, c.now);
      Level(l, s', key, c.now) == Level(l, s, key, c.now) - (if ok && c.key == key then 1.0 else 0.0)
  {
    hide Gain, Sweep;
    SweepKeepsLevels(l, s, c.now, key);
    SweepKeepsLevels(l, s, c.now, c.key);
    LevelInRange(l, s, key, c.now);
    GainGrows(l, 0.0, c.now - c.now);
  }

  lemma SaneRefill(l: Limits)
    requires Sane(l)
    ensures l.refill > 0.0
  {
  }

  lemma {:induction false} GrantedWithinLevel(
      l: Limits, sweeping: bool, s: State, calls: seq<Call>, key: string, since: real)
    requires Sane(l) && Sound(l, s, since) && Ordered(calls, since) && calls != []
    ensures Granted(l, sweeping, s, calls, key) as real
      <= Level(l, s, key, calls[0].now) + Gain(l, calls[|calls| - 1].now - calls[0].now)
    decreases |calls|
  {
    hide Gain, Level, Sound, AllowStep, Sane;
    var c, rest := calls[0], calls[1..];
    var s' := AllowStep(l, sweeping, s, c.key, c.now).0;
    SoundLater(l, s, since, c.now);
    AllowStepSound(l, sweeping, s, c.key, c.now);
    SpendTakes(l, sweeping, s, c, key);
    LevelInRange(l, s', key, c.now);
    if rest != [] {
      GrantedWithinLevel(l, sweeping, s', rest, key, c.now);
      LevelGrowth(l, s', key, c.now, rest[0].now);
      var last := calls[|calls| - 1].now;
      assert last == rest[|rest| - 1].now;
      GainAdds(l, last - rest[0].now, rest[0].now - c.now);
      assert last - rest[0].now + (rest[0].now - c.now) == last - c.now;
    } else {
      SaneRefill(l);
      GainGrows(l, 0.0, c.now - c.now);
    }
  }

  lemma {:induction false} OrderedSplit(calls: seq<Call>, since: real, i: nat)
    requires Ordered(calls, since) && i <= |calls|
    ensures Ordered(calls[..i], since)
    ensures Ordered(calls[i..], if i == 0 then since else calls[i - 1].now)
    decreases i
  {
    if i == 0 {
      assert calls[0..] == calls;
    } else {
      OrderedSplit(calls[1..], calls[0].now, i - 1);
      assert calls[..i][1..] == calls[1..][..i - 1];
      assert calls[1..][i - 1..] == calls[i..];
    }
  }

  lemma OrderedHead(calls: seq<Call>, since: real)
    requires Ordered(calls, since) && calls != []
    ensures since <= calls[0].now
  {
  }

  /** In every run, sweeps included, and over every stretch i..j of it, a key is
      granted at most the burst plus what refills from the first of those calls
      to the last. */
  lemma RateBound(l: Limits, s: State, calls: seq<Call>, since: real, key: string, i: nat, j: nat)
    requires Sane(l) && Sound(l, s, since) && Ordered(calls, since) && i < j <= |calls|
    ensures Granted(l, true, After(l, true, s, calls[..i]), calls[i..j], key) as real
      <= l.burst + Gain(l, calls[j - 1].now - calls[i].now)
  {
    hide Gain, Level, Sound, AllowStep, Sane, Ordered, Granted, After;
    OrderedSplit(calls, since, j);
    OrderedSplit(calls[..j], since, i);
    assert calls[..j][..i] == calls[..i] && calls[..j][i..] == calls[i..j];
    var t := if i == 0 then since else calls[i - 1].now;
    RunSound(l, true, s, calls[..i], since);
    var mid := After(l, true, s, calls[..i]);
    GrantedWithinLevel(l, true, mid, calls[i..j], key, t);
    OrderedHead(calls[i..j], t);
    SoundLater(l, mid, t, calls[i].now);
    LevelInRange(l, mid, key, calls[i].now);
  }

  lemma SoundLater(l: Limits, s: State, t0: real, t1: real)
    requires Sound(l, s, t0) && t0 <= t1
    ensures Sound(l, s, t1)
  {
  }

  /** The sweeping limiter has every bucket the other has, except ones that were
      idle by `now`. */
  ghost predicate Covered(l: Limits, swept: State, full: State, now: real) {
    && (forall k :: k in swept.buckets ==> k in full.buckets && full.buckets[k] == swept.buckets[k])
    && (forall k :: k in full.buckets && k !in swept.buckets ==> Idle(l, full.buckets[k], now))
  }

  lemma CoveredStep(l: Limits, swept: State, full: State, c: Call, since: real)
    requires Sane(l) && Sound(l, full, c.now) && Covered(l, swept, full, since) && since <= c.now
    ensures var (a, x) := AllowStep(l, true, swept, c.key, c.now);
      var (b, y) := AllowStep(l, false, full, c.key, c.now);
      x == y && Covered(l, a, b, c.now)
  {
    hide Gain;
    var s := Sweep(l, swept, c.now);
    assert Covered(l, s, full, c.now);
    if c.key in full.buckets && c.key !in s.buckets {
      GainGrows(l, l.idle, c.now - full.buckets[c.key].seen);
    }
    assert Level(l, s, c.key, c.now) == Level(l, full, c.key, c.now);
  }

  /** Every call of every run is answered as by a limiter that never sweeps. */
  lemma {:induction false} SweepInvisible(l: Limits, swept: State, full: State, calls: seq<Call>, since: real)
    requires Sane(l) && Sound(l, full, since) && Covered(l, swept, full, since) && Ordered(calls, since)
    ensures Answers(l, true, swept, calls) == Answers(l, false, full, calls)
    decreases |calls|
  {
    if calls != [] {
      var c := calls[0];
      SoundLater(l, full, since, c.now);
      CoveredStep(l, swept, full, c, since);
      AllowStepSound(l, false, full, c.key, c.now);
      SweepInvisible(l, AllowStep(l, true, swept, c.key, c.now).0, AllowStep(l, false, full, c.key, c.now).0,
        calls[1..], c.now);
    }
  }

  /** In particular from the moment the limiter is made. */
  lemma FreshSweepInvisible(burst: int, window: real, calls: seq<Call>, made: real)
    requires Ordered(calls, made)
    ensures var l, s := MakeLimits(burst, window), State(map[], made);
      Answers(l, true, s, calls) == Answers(l, false, s, calls)
  {
    SweepInvisible(MakeLimits(burst, window), State(map[], made), State(map[], made), calls, made);
  }

  // ---- What is granted -------------------------------------------------

  /** How many of the calls i..j for a key were answered yes. */
  function Yes(calls: seq<Call>, answers: seq<bool>, key: string, i: nat, j: nat): nat
    requires i <= j <= |calls| == |answers|
    decreases j - i
  {
    if i == j then 0
    else Yes(calls, answers, key, i, j - 1) + if calls[j - 1].key == key && answers[j - 1] then 1 else 0
  }

  /** Granting one more at time t would keep every stretch that ends there, from
      each earlier call for the key, within the burst and the refill. */
  ghost predicate Conforms(l: Limits, calls: seq<Call>, answers: seq<bool>, key: string, n: nat, t: real)
    requires n <= |calls| == |answers|
  {
    forall i :: 0 <= i < n && calls[i].key == key ==>
      Yes(calls, answers, key, i, n) as real + 1.0 <= l.burst + Gain(l, t - calls[i].now)
  }

  /** The key's tokens at time t, by the calls and answers alone: x of them are
      there iff x is no more than the burst and, from each earlier call for the
      key, than the burst less what was granted since plus what refilled since. */
  ghost predicate Holds(l: Limits, calls: seq<Call>, answers: seq<bool>, key: string, n: nat, t: real, x: real)
    requires n <= |calls| == |answers|
  {
    && x <= l.burst
    && forall i :: 0 <= i < n && calls[i].key == key ==>
         x <= l.burst - Yes(calls, answers, key, i, n) as real + Gain(l, t - calls[i].now)
  }

  lemma {:induction false} AnswersLength(l: Limits, sweeping: bool, s: State, calls: seq<Call>)
    ensures |Answers(l, sweeping, s, calls)| == |calls|
    decreases |calls|
  {
    if calls != [] {
      AnswersLength(l, sweeping, AllowStep(l, sweeping, s, calls[0].key, calls[0].now).0, calls[1..]);
    }
  }

  /** Call n is answered from the state the calls before it left. */
  lemma {:induction false} AnswerAt(l: Limits, sweeping: bool, s: State, calls: seq<Call>, n: nat)
    requires n < |calls| == |Answers(l, sweeping, s, calls)|
    ensures var mid, c := After(l, sweeping, s, calls[..n]), calls[n];
      && Answers(l, sweeping, s, calls)[n] == AllowStep(l, sweeping, mid, c.key, c.now).1
      && After(l, sweeping, s, calls[..n + 1]) == AllowStep(l, sweeping, mid, c.key, c.now).0
    decreases n
  {
    hide AllowStep;
    var s' := AllowStep(l, sweeping, s, calls[0].key, calls[0].now).0;
    assert calls[..n + 1][1..] == calls[1..][..n];
    if n > 0 {
      assert calls[..n][1..] == calls[1..][..n - 1];
      AnswersLength(l, sweeping, s', calls[1..]);
      AnswerAt(l, sweeping, s', calls[1..], n - 1);
    } else {
      assert After(l, sweeping, s', []) == s';
    }
  }

  /** What one call leaves of a key's level later on, when nothing is swept. */
  lemma LevelAfter(l: Limits, s: State, c: Call, key: string, t: real)
    requires c.now <= t
    ensures var (s', ok) := AllowStep(l, false, s, c.key, c.now);
      Level(l, s', key, t) ==
        if c.key != key then Level(l, s, key, t)
        else
          var u := Level(l, s, key, c.now) - (if ok then 1.0 else 0.0) + Gain(l, t - c.now);
          if l.burst <= u then l.burst else u
  {
    hide Gain;
  }

  /** The calls up to the next: one more for each stretch, if it was granted. */
  lemma YesNext(calls: seq<Call>, answers: seq<bool>, key: string, i: nat, n: nat)
    requires i <= n < |calls| == |answers|
    ensures Yes(calls, answers, key, i, n + 1)
      == Yes(calls, answers, key, i, n) + (if calls[n].key == key && answers[n] then 1 else 0)
    ensures Yes(calls, answers, key, n, n) == 0
  {
  }

  lemma HoldsNext(l: Limits, calls: seq<Call>, answers: seq<bool>, key: string, n: nat, t: real, x: real)
    requires n < |calls| == |answers| && l.refill > 0.0 && calls[n].now <= t
    ensures var c := calls[n];
      var spent := if answers[n] then 1.0 else 0.0;
      Holds(l, calls, answers, key, n + 1, t, x) <==>
        if c.key != key then Holds(l, calls, answers, key, n, t, x)
        else x <= l.burst && Holds(l, calls, answers, key, n, c.now, x + spent - Gain(l, t - c.now))
  {
    hide Gain, Yes;
    var c := calls[n];
    forall i: nat | i <= n
      ensures Yes(calls, answers, key, i, n + 1)
        == Yes(calls, answers, key, i, n) + (if c.key == key && answers[n] then 1 else 0)
      ensures Gain(l, t - calls[i].now) == Gain(l, c.now - calls[i].now) + Gain(l, t - c.now)
    {
      YesNext(calls, answers, key, i, n);
      GainAdds(l, c.now - calls[i].now, t - c.now);
      assert c.now - calls[i].now + (t - c.now) == t - calls[i].now;
    }
    YesNext(calls, answers, key, n, n);
    GainAdds(l, 0.0, 0.0);
    assert c.now - calls[n].now == 0.0;
  }

  /** A limiter that never sweeps has exactly those tokens. */
  lemma {:induction false} LevelIs(
      l: Limits, s: State, calls: seq<Call>, key: string, since: real, n: nat, t: real, x: real)
    requires Sane(l) && key !in s.buckets && Ordered(calls, since) && n <= |calls|
    requires n > 0 ==> calls[n - 1].now <= t
    requires |Answers(l, false, s, calls)| == |calls|
    ensures x <= Level(l, After(l, false, s, calls[..n]), key, t)
      <==> Holds(l, calls, Answers(l, false, s, calls), key, n, t, x)
    decreases n
  {
    hide Gain, Level, AllowStep, Answers, After, Holds;
    var answers := Answers(l, false, s, calls);
    if n == 0 {
      assert Holds(l, calls, answers, key, 0, t, x) <==> x <= l.burst by {
        HoldsNone(l, calls, answers, key, t, x);
      }
      assert Level(l, After(l, false, s, []), key, t) == l.burst by {
        LevelFresh(l, s, key, t);
      }
      assert calls[..0] == [];
    } else {
      var c := calls[n - 1];
      var mid := After(l, false, s, calls[..n - 1]);
      var spent := if answers[n - 1] then 1.0 else 0.0;
      AnswerAt(l, false, s, calls, n - 1);
      LevelAfter(l, mid, c, key, t);
      SaneRefill(l);
      HoldsNext(l, calls, answers, key, n - 1, t, x);
      if n > 1 {
        OrderedAt(calls, since, n - 2);
      }
      if c.key == key {
        LevelIs(l, s, calls, key, since, n - 1, c.now, x + spent - Gain(l, t - c.now));
      } else {
        LevelIs(l, s, calls, key, since, n - 1, t, x);
      }
    }
  }

  lemma HoldsNone(l: Limits, calls: seq<Call>, answers: seq<bool>, key: string, t: real, x: real)
    requires |calls| == |answers|
    ensures Holds(l, calls, answers, key, 0, t, x) <==> x <= l.burst
  {
  }

  lemma LevelFresh(l: Limits, s: State, key: string, t: real)
    requires key !in s.buckets
    ensures Level(l, After(l, false, s, []), key, t) == l.burst
  {
  }

  lemma {:induction false} OrderedAt(calls: seq<Call>, since: real, i: nat)
    requires Ordered(calls, since) && i + 1 < |calls|
    ensures calls[i].now <= calls[i + 1].now
    decreases i
  {
    if i > 0 {
      OrderedAt(calls[1..], calls[0].now, i - 1);
    }
  }

  /** The limiter, sweeps and all, grants every call it can: each call of every run
      is granted if and only if that keeps the rate bound over every stretch from
      an earlier call for its key. Stated of the calls and their answers alone. */
  lemma GrantedIffConforms(burst: int, window: real, calls: seq<Call>, made: real, n: nat)
    requires Ordered(calls, made) && n < |calls|
    ensures var l, s := MakeLimits(burst, window), State(map[], made);
      var answers := Answers(l, true, s, calls);
      && |answers| == |calls|
      && (answers[n] <==> Conforms(l, calls, answers, calls[n].key, n, calls[n].now))
  {
    var l, s, c := MakeLimits(burst, window), State(map[], made), calls[n];
    FreshSweepInvisible(burst, window, calls, made);
    AnswersLength(l, false, s, calls);
    AnswerAt(l, false, s, calls, n);
    if n > 0 {
      OrderedAt(calls, made, n - 1);
    }
    LevelIs(l, s, calls, c.key, made, n, c.now, 1.0);
    ConformsIsHolds(l, calls, Answers(l, false, s, calls), c.key, n, c.now);
    hide Gain, Yes, Level, Answers, After, Holds, Conforms, Sweep, MakeLimits;
  }

  lemma ConformsIsHolds(l: Limits, calls: seq<Call>, answers: seq<bool>, key: string, n: nat, t: real)
    requires n <= |calls| == |answers| && Sane(l)
    ensures Conforms(l, calls, answers, key, n, t) <==> Holds(l, calls, answers, key, n, t, 1.0)
  {
    hide Gain, Yes;
  }

  /** How many of the calls i..j are for the key. */
  function For(calls: seq<Call>, key: string, i: nat, j: nat): nat
    requires i <= j <= |calls|
    decreases j - i
  {
    if i == j then 0 else For(calls, key, i, j - 1) + (if calls[j - 1].key == key then 1 else 0)
  }

  lemma {:induction false} YesWithinFor(calls: seq<Call>, answers: seq<bool>, key: string, i: nat, j: nat)
    requires i <= j <= |calls| == |answers|
    ensures Yes(calls, answers, key, i, j) <= For(calls, key, i, j) <= For(calls, key, 0, j)
    decreases j
  {
    if i < j {
      YesWithinFor(calls, answers, key, i, j - 1);
    }
  }

  lemma {:induction false} TimesOrdered(calls: seq<Call>, since: real, i: nat, j: nat)
    requires Ordered(calls, since) && i <= j < |calls|
    ensures calls[i].now <= calls[j].now
    decreases j
  {
    if i < j {
      TimesOrdered(calls, since, i, j - 1);
      OrderedAt(calls, since, j - 1);
    }
  }

  /** The first calls for a key are granted, as many as the burst, however fast
      they come. */
  lemma FirstBurst(burst: int, window: real, calls: seq<Call>, made: real, n: nat)
    requires Ordered(calls, made) && n < |calls|
    requires For(calls, calls[n].key, 0, n) < (if burst > 1 then burst else 1)
    ensures var answers := Answers(MakeLimits(burst, window), true, State(map[], made), calls);
      |answers| == |calls| && answers[n]
  {
    var l, s, c := MakeLimits(burst, window), State(map[], made), calls[n];
    var answers := Answers(l, true, s, calls);
    GrantedIffConforms(burst, window, calls, made, n);
    SaneRefill(l);
    hide Gain, Yes, For, Answers, MakeLimits, Sane, Ordered;
    FewerThanBurst(burst, For(calls, c.key, 0, n), l.burst);
    forall i: nat | i < n && calls[i].key == c.key
      ensures Yes(calls, answers, c.key, i, n) as real + 1.0 <= l.burst + Gain(l, c.now - calls[i].now)
    {
      YesWithinFor(calls, answers, c.key, i, n);
      TimesOrdered(calls, made, i, n);
      GainGrows(l, 0.0, c.now - calls[i].now);
    }
  }

  lemma FewerThanBurst(burst: int, n: nat, b: real)
    requires n < (if burst > 1 then burst else 1) && b == (if burst > 1 then burst as real else 1.0)
    ensures n as real + 1.0 <= b
  {
  }

  /** Calls for the key come no closer than one token takes to refill. */
  ghost predicate Spaced(l: Limits, calls: seq<Call>, key: string) {
    forall i, j :: 0 <= i < j < |calls| && calls[i].key == key && calls[j].key == key ==>
      Gain(l, calls[j].now - calls[i].now) >= 1.0
  }

  lemma {:induction false} SpacedGain(
      l: Limits, calls: seq<Call>, answers: seq<bool>, key: string, since: real, i: nat, n: nat)
    requires Sane(l) && Ordered(calls, since) && Spaced(l, calls, key) && i < n < |calls| == |answers|
    requires calls[i].key == key && calls[n].key == key
    ensures Yes(calls, answers, key, i, n) as real <= Gain(l, calls[n].now - calls[i].now)
    decreases n
  {
    hide Gain, Yes;
    var last := LatestBefore(calls, answers, key, i, n);
    if last == i {
      YesNext(calls, answers, key, i, i);
    } else {
      SpacedGain(l, calls, answers, key, since, i, last);
      YesNext(calls, answers, key, i, last);
      GainAdds(l, calls[last].now - calls[i].now, calls[n].now - calls[last].now);
      assert calls[last].now - calls[i].now + (calls[n].now - calls[last].now) == calls[n].now - calls[i].now;
    }
  }

  /** The latest call for the key before n; nothing of its key is granted between. */
  lemma {:induction false} LatestBefore(calls: seq<Call>, answers: seq<bool>, key: string, i: nat, n: nat)
      returns (last: nat)
    requires i < n <= |calls| == |answers| && calls[i].key == key
    ensures i <= last < n && calls[last].key == key
    ensures Yes(calls, answers, key, i, n) == Yes(calls, answers, key, i, last + 1)
    decreases n
  {
    if calls[n - 1].key == key {
      last := n - 1;
    } else {
      last := LatestBefore(calls, answers, key, i, n - 1);
      YesNext(calls, answers, key, i, n - 1);
    }
  }

  /** A key whose calls come no faster than tokens refill is never refused. */
  lemma SpacedAllGranted(burst: int, window: real, calls: seq<Call>, made: real, n: nat)
    requires Ordered(calls, made) && n < |calls| && Spaced(MakeLimits(burst, window), calls, calls[n].key)
    ensures var answers := Answers(MakeLimits(burst, window), true, State(map[], made), calls);
      |answers| == |calls| && answers[n]
  {
    var l, s, c := MakeLimits(burst, window), State(map[], made), calls[n];
    var answers := Answers(l, true, s, calls);
    GrantedIffConforms(burst, window, calls, made, n);
    hide Gain, Yes, Answers, MakeLimits, Spaced;
    forall i: nat | i < n && calls[i].key == c.key
      ensures Yes(calls, answers, c.key, i, n) as real + 1.0 <= l.burst + Gain(l, c.now - calls[i].now)
    {
      SpacedGain(l, calls, answers, c.key, made, i, n);
    }
  }

  // ---- What is kept ----------------------------------------------------

  /** Every bucket was used within two idle periods. */
  ghost predicate Recent(l: Limits, s: State, now: real) {
    && now - s.lastSweep < l.idle
    && forall k :: k in s.buckets ==> now - s.buckets[k].seen < 2.0 * l.idle && s.buckets[k].seen > s.lastSweep - l.idle
  }

  /** A long uptime accumulates nothing: after every call of every run the limiter
      has buckets only for keys used within the last two idle periods. */
  lemma {:induction false} OnlyRecentKept(l: Limits, s: State, calls: seq<Call>, since: real)
    requires Sane(l) && Ordered(calls, since) && s.lastSweep <= since
    requires forall k :: k in s.buckets ==> s.buckets[k].seen > s.lastSweep - l.idle
    ensures calls != [] ==> Recent(l, After(l, true, s, calls), calls[|calls| - 1].now)
    decreases |calls|
  {
    if calls != [] {
      hide Gain, Level;
      var c, rest := calls[0], calls[1..];
      var s' := AllowStep(l, true, s, c.key, c.now).0;
      assert Recent(l, s', c.now) && s'.lastSweep <= c.now;
      if rest == [] {
        assert After(l, true, s', []) == s';
      } else {
        assert calls[|calls| - 1] == rest[|rest| - 1];
        hide AllowStep;
        OnlyRecentKept(l, s', rest, c.now);
      }
    }
  }
}
