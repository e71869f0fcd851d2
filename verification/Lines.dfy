/** A file as the lines it is made of, read forwards and backwards. */
module Lines {
  import opened Base

  const NL: byte := 10
  const CR: byte := 13

  /** A complete line: one newline, at its end. */
  predicate Complete(l: Bytes) { l != [] && l[|l| - 1] == NL && NL !in l[..|l| - 1] }

  /** What a torn write leaves: bytes with no newline among them. */
  predicate Torn(b: Bytes) { NL !in b }

  function FirstNL(f: Bytes): (i: nat)
    ensures i <= |f| && NL !in f[..i] && (i < |f| ==> f[i] == NL)
  {
    if f == [] || f[0] == NL then 0 else
    var i := 1 + FirstNL(f[1..]);
    assert f[..i] == [f[0]] + f[1..][..i - 1];
    i
  }

  /** The lines of a file, each with its newline; the last may lack one. */
  function Split(f: Bytes): seq<Bytes>
    decreases |f|
  {
    if f == [] then [] else
    var i := FirstNL(f);
    if i == |f| then [f] else [f[..i + 1]] + Split(f[i + 1..])
  }

  function Join(ls: seq<Bytes>): Bytes {
    if ls == [] then [] else ls[0] + Join(ls[1..])
  }

  /** The start of the line that `end` lies in: just after the nearest newline before it. */
  function StartBefore(f: Bytes, end: nat): (s: nat)
    requires end <= |f|
    ensures s <= end && NL !in f[s..end] && (s == 0 || f[s - 1] == NL)
  {
    if end == 0 || f[end - 1] == NL then end else
    var s := StartBefore(f, end - 1);
    assert f[s..end] == f[s..end - 1] + [f[end - 1]];
    s
  }

  /** Where a search for the final line starts: its own newline does not count. */
  function TailEnd(f: Bytes): nat {
    if f != [] && f[|f| - 1] == NL then |f| - 1 else |f|
  }

  /** The offset of the final line. */
  function LastStart(f: Bytes): (s: nat)
    ensures s <= |f| && (f != [] ==> s < |f|)
  {
    StartBefore(f, TailEnd(f))
  }

  predicate AtLineStart(f: Bytes) { f == [] || f[|f| - 1] == NL }

  lemma {:induction false} FirstNLIs(f: Bytes, i: nat)
    requires i <= |f| && NL !in f[..i] && (i < |f| ==> f[i] == NL)
    ensures FirstNL(f) == i
  {
  }

  lemma SplitOne(l: Bytes)
    requires Complete(l) || (l != [] && Torn(l))
    ensures Split(l) == [l]
  {
    if Complete(l) {
      FirstNLIs(l, |l| - 1);
      assert l[..|l| - 1 + 1] == l;
    } else {
      assert l[..|l|] == l;
      FirstNLIs(l, |l|);
    }
  }

  lemma SplitHead(l: Bytes, rest: Bytes)
    requires Complete(l)
    ensures Split(l + rest) == [l] + Split(rest)
  {
    var i := |l| - 1;
    assert (l + rest)[..i] == l[..i];
    FirstNLIs(l + rest, i);
    assert (l + rest)[..i + 1] == l;
    assert (l + rest)[i + 1..] == rest;
  }

  lemma Assoc<T>(a: seq<T>, b: seq<T>, c: seq<T>)
    ensures (a + b) + c == a + (b + c)
  {
  }

  lemma HeadLine(a: Bytes) returns (l: Bytes, rest: Bytes)
    requires AtLineStart(a) && a != []
    ensures Complete(l) && AtLineStart(rest) && a == l + rest && |rest| < |a|
  {
    var i := FirstNL(a);
    assert a[..|a|] == a;
    assert i < |a|;
    l, rest := a[..i + 1], a[i + 1..];
    assert l[..|l| - 1] == a[..i];
    assert rest != [] ==> rest[|rest| - 1] == a[|a| - 1];
  }

  lemma {:induction false} SplitAppend(a: Bytes, b: Bytes)
    requires AtLineStart(a)
    ensures Split(a + b) == Split(a) + Split(b)
    decreases |a|
  {
    if a == [] {
      assert a + b == b;
    } else {
      var l, rest := HeadLine(a);
      SplitHead(l, rest);
      SplitHead(l, rest + b);
      SplitAppend(rest, b);
      Assoc(l, rest, b);
      Assoc([l], Split(rest), Split(b));
    }
  }

  /** The backward search finds exactly the file's last line. */
  lemma LastLineExact(f: Bytes)
    requires f != []
    ensures var s := LastStart(f);
      && Split(f) == Split(f[..s]) + [f[s..]]
      && AtLineStart(f[..s])
  {
    var s := LastStart(f);
    var last := f[s..];
    assert f == f[..s] + last;
    assert Complete(last) || Torn(last) by {
      if f[|f| - 1] == NL {
        assert last[..|last| - 1] == f[s..TailEnd(f)];
      }
    }
    SplitOne(last);
    SplitAppend(f[..s], last);
  }

  lemma JoinCons(l: Bytes, ls: seq<Bytes>)
    ensures Join([l] + ls) == l + Join(ls)
  {
  }

  lemma {:induction false} JoinSplit(f: Bytes)
    ensures Join(Split(f)) == f
    decreases |f|
  {
    if f == [] {
    } else if FirstNL(f) == |f| {
      JoinCons(f, []);
    } else {
      var l, rest := f[..FirstNL(f) + 1], f[FirstNL(f) + 1..];
      JoinSplit(rest);
      JoinCons(l, Split(rest));
      assert f == l + rest;
    }
  }

  lemma {:induction false} JoinAppend(a: seq<Bytes>, b: seq<Bytes>)
    ensures Join(a + b) == Join(a) + Join(b)
  {
    if a == [] {
      assert a + b == b;
    } else {
      assert (a + b)[1..] == a[1..] + b;
      JoinAppend(a[1..], b);
    }
  }

  /** Complete lines followed by a torn one split back into just those. */
  lemma {:induction false} SplitJoin(ls: seq<Bytes>, torn: Bytes)
    requires forall l :: l in ls ==> Complete(l)
    requires Torn(torn)
    ensures Split(Join(ls) + torn) == ls + (if torn == [] then [] else [torn])
  {
    if ls == [] {
      assert Join(ls) + torn == torn;
      if torn != [] {
        SplitOne(torn);
      }
    } else {
      SplitJoin(ls[1..], torn);
      SplitOne(ls[0]);
      assert Join(ls) + torn == ls[0] + (Join(ls[1..]) + torn);
      SplitAppend(ls[0], Join(ls[1..]) + torn);
    }
  }

  lemma {:induction false} JoinEndsLine(ls: seq<Bytes>)
    requires forall l :: l in ls ==> Complete(l)
    ensures AtLineStart(Join(ls))
  {
    if ls != [] {
      JoinEndsLine(ls[1..]);
      assert ls[0] in ls;
    }
  }
}
