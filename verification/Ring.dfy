/** The warm ring as the source keeps it: two compacting deques changed in place. */
module Ring {
  import opened Base
  import opened Envelope
  import opened RingSpec

  function Values(ms: seq<Option<Message>>): (vs: seq<Message>)
    requires forall i :: 0 <= i < |ms| ==> ms[i].Some?
    ensures |vs| == |ms| && forall i :: 0 <= i < |ms| ==> vs[i] == ms[i].value
  {
    seq(|ms|, i requires 0 <= i < |ms| => ms[i].value)
  }

  /** A FIFO whose popped slots are cleared and compacted away once they pass
      the midpoint. The ghost counters record the work: elements popped, and
      elements moved by compaction. */
  class Deque {
    var msgs: seq<Option<Message>>
    var head: nat
    ghost var pops: nat
    ghost var copied: nat

    ghost predicate Valid()
      reads this
    {
      && head <= |msgs| / 2
      && (forall i :: 0 <= i < head ==> msgs[i].None?)
      && (forall i :: head <= i < |msgs| ==> msgs[i].Some?)
      && copied + head <= pops
    }

    ghost function Contents(): seq<Message>
      reads this
      requires Valid()
    {
      Values(msgs[head..])
    }

    constructor ()
      ensures Valid() && Contents() == [] && pops == copied == 0
    {
      msgs, head, pops, copied := [], 0, 0, 0;
    }

    function Len(): (n: nat)
      reads this
      requires Valid()
      ensures n == |Contents()|
    {
      |msgs| - head
    }

    method Push(m: Message)
      requires Valid()
      modifies this
      ensures Valid() && Contents() == old(Contents()) + [m]
      ensures pops == old(pops) && copied == old(copied)
      ensures |msgs| <= 2 * |Contents()|
    {
      msgs := msgs + [Some(m)];
      assert Contents() == old(Contents()) + [m];
    }

    method Front() returns (r: Option<Message>)
      requires Valid()
      ensures r == if Contents() == [] then None else Some(Contents()[0])
    {
      if Len() == 0 {
        return None;
      }
      r := msgs[head];
    }

    /** Behaves as a plain FIFO; the slice stays at most twice the live count,
        and all compaction ever copied is paid for by pops. */
    method Pop() returns (r: Option<Message>)
      requires Valid()
      modifies this
      ensures Valid()
      ensures old(Contents()) == [] ==> r == None && Contents() == [] && pops == old(pops)
      ensures old(Contents()) != [] ==>
        r == Some(old(Contents())[0]) && Contents() == old(Contents())[1..] && pops == old(pops) + 1
      ensures |msgs| <= 2 * |Contents()|
      ensures old(copied) <= copied <= pops
    {
      r := Front();
      if r == None {
        return;
      }
      ghost var live := msgs[head + 1..];
      msgs := msgs[head := None];
      head := head + 1;
      pops := pops + 1;
      if head > |msgs| / 2 {
        copied := copied + (|msgs| - head);
        msgs := msgs[head..];
        head := 0;
      }
      assert msgs[head..] == live;
      assert Contents() == old(Contents())[1..];
    }

    method All() returns (ms: seq<Message>)
      requires Valid()
      ensures ms == Contents()
    {
      ms := Values(msgs[head..]);
    }
  }

  class Ring {
    const text: Deque
    const images: Deque
    const maxText: nat
    const maxImageBytes: nat
    var imageBytes: int
    /** Everything ever appended. */
    ghost var log: seq<Message>

    ghost predicate Valid()
      reads this, text, images
    {
      && text != images && text.Valid() && images.Valid()
      && text.Contents() == TextWindow(log, maxText)
      && images.Contents() == ImageWindow(log, maxImageBytes)
      && imageBytes == PayloadBytes(images.Contents())
    }

    constructor (maxText: int, maxImageBytes: int)
      ensures Valid() && log == [] && fresh(text) && fresh(images)
      ensures this.maxText == (if maxText < 0 then 0 else maxText)
      ensures this.maxImageBytes == (if maxImageBytes < 0 then 0 else maxImageBytes)
    {
      text := new Deque();
      images := new Deque();
      this.maxText := if maxText < 0 then 0 else maxText;
      this.maxImageBytes := if maxImageBytes < 0 then 0 else maxImageBytes;
      imageBytes := 0;
      log := [];
    }

    /** Adds a message and evicts oldest-first; afterwards the text deque is the
        last maxText texts ever appended and the image deque the longest suffix
        of all images that fits the budget. */
    method Append(m: Message)
      requires Valid()
      modifies this, text, images
      ensures Valid() && log == old(log) + [m]
    {
      TextWindowAppend(log, m, maxText);
      ImageWindowAppend(log, m, maxImageBytes);
      if m.header.kind.Image? {
        PushImage(m);
      } else {
        PushText(m);
      }
      log := log + [m];
    }

    method PushImage(m: Message)
      requires text != images && images.Valid() && imageBytes == PayloadBytes(images.Contents())
      modifies this`imageBytes, images
      ensures images.Valid() && imageBytes == PayloadBytes(images.Contents())
      ensures images.Contents() == Fitting(old(images.Contents()) + [m], maxImageBytes)
    {
      PayloadBytesAppend(images.Contents(), [m]);
      images.Push(m);
      imageBytes := imageBytes + ByteLen(m.payload);
      while imageBytes > maxImageBytes && images.Len() > 0
        invariant images.Valid() && imageBytes == PayloadBytes(images.Contents())
        invariant Fitting(images.Contents(), maxImageBytes) == Fitting(old(images.Contents()) + [m], maxImageBytes)
        decreases |images.Contents()|
      {
        var p := images.Pop();
        imageBytes := imageBytes - ByteLen(p.value.payload);
      }
    }

    method PushText(m: Message)
      requires text != images && text.Valid()
      modifies text
      ensures text.Valid() && text.Contents() == Last(old(text.Contents()) + [m], maxText)
    {
      text.Push(m);
      while text.Len() > maxText
        invariant text.Valid()
        invariant Last(text.Contents(), maxText) == Last(old(text.Contents()) + [m], maxText)
        decreases |text.Contents()|
      {
        LastPop(text.Contents(), maxText);
        var _ := text.Pop();
      }
    }

    /** Every retained message above `since`, by an index-based merge. */
    method Since(since: u64) returns (out: seq<Message>)
      requires Valid()
      ensures out == RingSince(log, maxText, maxImageBytes, since)
    {
      var ts := text.All();
      var im := images.All();
      var ti := SeekIndex(ts, since);
      var ii := SeekIndex(im, since);
      out := MergeFrom(ts, ti, im, ii);
    }

    function Len(): (n: nat)
      reads this, text, images
      requires Valid()
      ensures n == |TextWindow(log, maxText)| + |ImageWindow(log, maxImageBytes)|
    {
      text.Len() + images.Len()
    }
  }

  /** The merge from indices ti and ii on, continuing what was already put out. */
  ghost function MergeOnto(ts: seq<Message>, ti: nat, im: seq<Message>, ii: nat, out: seq<Message>): seq<Message>
    requires ti <= |ts| && ii <= |im|
    decreases |ts| - ti + |im| - ii
  {
    if ti == |ts| && ii == |im| then out
    else if ii == |im| || (ti < |ts| && ts[ti].header.sn < im[ii].header.sn)
    then MergeOnto(ts, ti + 1, im, ii, out + [ts[ti]])
    else MergeOnto(ts, ti, im, ii + 1, out + [im[ii]])
  }

  lemma MergeHead(ts: seq<Message>, ti: nat, im: seq<Message>, ii: nat)
    requires ti <= |ts| && ii <= |im|
    ensures ti < |ts| && (ii == |im| || ts[ti].header.sn < im[ii].header.sn) ==>
      Merge(ts[ti..], im[ii..]) == [ts[ti]] + Merge(ts[ti + 1..], im[ii..])
    ensures ii < |im| && (ti == |ts| || ts[ti].header.sn >= im[ii].header.sn) ==>
      Merge(ts[ti..], im[ii..]) == [im[ii]] + Merge(ts[ti..], im[ii + 1..])
  {
    assert ti < |ts| ==> ts[ti..] == [ts[ti]] + ts[ti + 1..];
    assert ii < |im| ==> im[ii..] == [im[ii]] + im[ii + 1..];
  }

  lemma {:induction false} MergeOntoIsMerge(ts: seq<Message>, ti: nat, im: seq<Message>, ii: nat, out: seq<Message>)
    requires ti <= |ts| && ii <= |im|
    ensures MergeOnto(ts, ti, im, ii, out) == out + Merge(ts[ti..], im[ii..])
    decreases |ts| - ti + |im| - ii
  {
    if ti < |ts| || ii < |im| {
      MergeHead(ts, ti, im, ii);
      hide Merge;
      if ii == |im| || (ti < |ts| && ts[ti].header.sn < im[ii].header.sn) {
        MergeOntoIsMerge(ts, ti + 1, im, ii, out + [ts[ti]]);
        assert (out + [ts[ti]]) + Merge(ts[ti + 1..], im[ii..]) == out + ([ts[ti]] + Merge(ts[ti + 1..], im[ii..]));
      } else {
        MergeOntoIsMerge(ts, ti, im, ii + 1, out + [im[ii]]);
        assert (out + [im[ii]]) + Merge(ts[ti..], im[ii + 1..]) == out + ([im[ii]] + Merge(ts[ti..], im[ii + 1..]));
      }
    }
  }

  /** The merge loop of Ring.Since, from indices ti and ii on. */
  method MergeFrom(ts: seq<Message>, ti0: nat, im: seq<Message>, ii0: nat) returns (out: seq<Message>)
    requires ti0 <= |ts| && ii0 <= |im|
    ensures out == Merge(ts[ti0..], im[ii0..])
  {
    MergeOntoIsMerge(ts, ti0, im, ii0, []);
    var ti: nat, ii: nat := ti0, ii0;
    out := [];
    while ti < |ts| || ii < |im|
      invariant ti <= |ts| && ii <= |im|
      invariant MergeOnto(ts, ti, im, ii, out) == MergeOnto(ts, ti0, im, ii0, [])
      decreases |ts| - ti + |im| - ii
    {
      if ii == |im| {
        out := out + [ts[ti]];
        ti := ti + 1;
      } else if ti == |ts| {
        out := out + [im[ii]];
        ii := ii + 1;
      } else if ts[ti].header.sn < im[ii].header.sn {
        out := out + [ts[ti]];
        ti := ti + 1;
      } else {
        out := out + [im[ii]];
        ii := ii + 1;
      }
    }
  }

  method SeekIndex(ms: seq<Message>, since: u64) returns (i: nat)
    ensures i <= |ms| && ms[i..] == Seek(ms, since)
  {
    i := 0;
    while i < |ms| && ms[i].header.sn <= since
      invariant i <= |ms| && Seek(ms[i..], since) == Seek(ms, since)
    {
      i := i + 1;
    }
  }
}
