/** The append-only archive file, changed in place. I/O outcomes are parameters:
    how much of a write landed and whether it was reported to fail. */
module Archive {
  import opened Base
  import opened Envelope
  import opened Lines
  import opened ArchiveSpec

  const CHUNK: nat := 4096

  /** The inner loop of the backward search: the last newline of a chunk. */
  method LastNewline(buf: Bytes) returns (found: bool, i: int)
    ensures found ==> 0 <= i < |buf| && buf[i] == NL && NL !in buf[i + 1..]
    ensures !found ==> NL !in buf
  {
    i := |buf| - 1;
    while i >= 0
      invariant -1 <= i < |buf|
      invariant NL !in buf[i + 1..]
    {
      if buf[i] == NL {
        return true, i;
      }
      assert buf[i..] == [buf[i]] + buf[i + 1..];
      i := i - 1;
    }
    assert buf[0..] == buf;
    return false, i;
  }

  lemma {:induction false} SkipBack(f: Bytes, lo: nat, hi: nat)
    requires lo <= hi <= |f| && NL !in f[lo..hi]
    ensures StartBefore(f, hi) == StartBefore(f, lo)
    decreases hi - lo
  {
  }

  /** The backward search for the final line, a chunk at a time. */
  method LastLine(file: Bytes) returns (start: nat, line: Bytes)
    ensures start == LastStart(file) && line == file[start..]
  {
    var size: nat := |file|;
    var end: nat := size;
    if size > 0 && file[size - 1] == NL {
      end := size - 1;
    }
    assert end == TailEnd(file);
    start := 0;
    var off: nat := end;
    while off > 0
      invariant off <= end && start == 0
      invariant StartBefore(file, off) == StartBefore(file, end)
    {
      var n: nat := if off < CHUNK then off else CHUNK;
      var buf := file[off - n..off];
      var found, i := LastNewline(buf);
      if found {
        assert buf[i + 1..] == file[off - n + i + 1..off];
        SkipBack(file, off - n + i + 1, off);
        start := off - n + i + 1;
        break;
      }
      SkipBack(file, off - n, off);
      off := off - n;
    }
    line := file[start..];
  }

  class Archive {
    const ops: Ops
    /** The bytes on disk. */
    var file: Bytes

    constructor (ops: Ops, file: Bytes)
      ensures this.ops == ops && this.file == file
    {
      this.ops := ops;
      this.file := file;
    }

    /** Truncates trailing partial or unparseable lines, up to eight of them. */
    method RepairTail() returns (ok: bool)
      modifies this
      ensures (file, ok) == Repair(ops, old(file), REPAIR_ATTEMPTS)
    {
      var attempt: nat := 0;
      while attempt < REPAIR_ATTEMPTS
        invariant attempt <= REPAIR_ATTEMPTS
        invariant Repair(ops, file, REPAIR_ATTEMPTS - attempt) == Repair(ops, old(file), REPAIR_ATTEMPTS)
      {
        if |file| == 0 {
          return true;
        }
        var start, line := LastLine(file);
        var terminated := |line| > 0 && line[|line| - 1] == NL;
        var record := if terminated then line[..|line| - 1] else line;
        if terminated && ops.validJson(record) {
          return true;
        }
        file := file[..start];
        attempt := attempt + 1;
      }
      return false;
    }

    /** Writes one record in one call. A write that fails, or that a crash
        interrupts, leaves some prefix of the record; success means all of it
        landed. */
    method Append(m: Message, landed: nat, failed: bool) returns (ok: bool)
      requires landed <= |m.wire| + 1 && (!failed ==> landed == |m.wire| + 1)
      modifies this
      ensures file == old(file) + (m.wire + [NL])[..landed]
      ensures ok == !failed
    {
      var line := m.wire + [NL];
      file := file + line[..landed];
      ok := !failed;
    }

    /** Rebuilds the counter and the withheld set from the file. */
    method Recover() returns (r: Option<Recovered>)
      ensures r == ArchiveSpec.Recover(ops, file)
    {
      var ls := Split(file);
      var lastSeq: u64 := 0;
      var shushed: set<u64> := {};
      var i: nat := 0;
      while i < |ls|
        invariant i <= |ls|
        invariant RecoverOnto(ops, ls[i..], Recovered(lastSeq, shushed)) == ArchiveSpec.Recover(ops, file)
      {
        if TooLong(ls[i]) {
          return None;
        }
        var rec := LineRecord(ops, ls[i]);
        if rec.Some? {
          if rec.value.sn > lastSeq {
            lastSeq := rec.value.sn;
          }
          if rec.value.kind.Shush? {
            var target := ParseShush(ops, rec.value.payload);
            if target.Some? {
              shushed := shushed + {target.value};
            }
          }
        }
        assert ls[i..][1..] == ls[i + 1..];
        i := i + 1;
      }
      return Some(Recovered(lastSeq, shushed));
    }

    /** The verified records in [from, to], stopping at the first past `to`. */
    method Range(from: u64, to: u64) returns (r: Option<seq<Message>>)
      ensures r == ArchiveSpec.Range(ops, file, from, to)
    {
      var ls := Split(file);
      var out: seq<Message> := [];
      var i: nat := 0;
      while i < |ls|
        invariant i <= |ls|
        invariant RangeOnto(ops, ls[i..], from, to, out) == ArchiveSpec.Range(ops, file, from, to)
      {
        if TooLong(ls[i]) {
          return None;
        }
        var rec := LineRecord(ops, ls[i]);
        if rec.Some? && rec.value.sn >= from {
          if rec.value.sn > to {
            return Some(out);
          }
          var got := Open(ops, Token(ls[i]));
          if got.Opened? {
            out := out + [got.m];
          } else {
            assert out + [] == out;
          }
        }
        assert ls[i..][1..] == ls[i + 1..];
        i := i + 1;
      }
      return Some(out);
    }
  }
}
