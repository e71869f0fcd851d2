/** A connection's outbound queue: closed when it overflows, never skipped. */
module Client {
  import opened Base

  const CLOSE_SLOW_CONSUMER := 4001
  const CLOSE_SERVER_ERROR := 4002

  /** What is queued, and the code the connection was closed with. */
  datatype Queue<T> = Queue(out: seq<T>, closed: Option<int>)

  /** The first kill decides the code. */
  function Kill<T>(q: Queue<T>, code: int): Queue<T> {
    if q.closed.None? then q.(closed := Some(code)) else q
  }

  /** On a closed connection with room left, either case of the select may be
      taken; `drop` says which. */
  function Send<T>(cap: nat, q: Queue<T>, b: T, drop: bool): Queue<T> {
    if q.closed.Some? && (drop || |q.out| >= cap) then q
    else if |q.out| < cap then q.(out := q.out + [b])
    else Kill(q, CLOSE_SLOW_CONSUMER)
  }

  /** The send put b into the queue. */
  predicate Accepted<T>(cap: nat, q: Queue<T>, drop: bool) {
    |q.out| < cap && (q.closed.None? || !drop)
  }

  /** The queue never exceeds its buffer, keeps its order, and a message that is
      not queued leaves the connection closed: an open one, because it was full,
      and with the code that tells the client to reconnect and fill the gap. */
  lemma SendExact<T>(cap: nat, q: Queue<T>, b: T, drop: bool)
    requires |q.out| <= cap
    ensures var q' := Send(cap, q, b, drop);
      && |q'.out| <= cap
      && q'.out == (if Accepted(cap, q, drop) then q.out + [b] else q.out)
      && (q.closed.None? ==> (Accepted(cap, q, drop) <==> |q.out| < cap))
      && (q.closed.None? ==> q'.closed == if |q.out| < cap then None else Some(4001))
      && (q.closed.Some? ==> q'.closed == q.closed)
  {
  }

  /** A kill closes an open connection with its code, and changes nothing else: not
      what is queued, not the code of an earlier one. */
  lemma KillExact<T>(q: Queue<T>, code: int)
    ensures Kill(q, code).closed == Some(if q.closed.Some? then q.closed.value else code)
    ensures Kill(q, code).out == q.out
  {
  }

  class Client<T> {
    const buffer: nat
    var out: seq<T>
    var closed: bool
    var code: int

    ghost predicate Valid()
      reads this
    {
      1 <= buffer && |out| <= buffer
    }

    ghost function Value(): Queue<T>
      reads this
    {
      Queue(out, if closed then Some(code) else None)
    }

    constructor (buffer: int)
      ensures Valid() && Value() == Queue([], None)
      ensures this.buffer == if buffer < 1 then 1 else buffer
    {
      this.buffer := if buffer < 1 then 1 else buffer;
      out, closed, code := [], false, 0;
    }

    method KillWith(code: int)
      requires Valid()
      modifies this
      ensures Valid() && Value() == Kill(old(Value()), code)
    {
      if !closed {
        this.code := code;
        closed := true;
      }
    }

    /** Queues b, or closes the connection if the queue is full. */
    method SendTo(b: T, drop: bool)
      requires Valid()
      modifies this
      ensures Valid() && Value() == Send(buffer, old(Value()), b, drop)
      ensures out == old(out) + [b] || (out == old(out) && closed)
    {
      if closed && (drop || |out| >= buffer) {
        return;
      }
      if |out| < buffer {
        out := out + [b];
      } else {
        KillWith(CLOSE_SLOW_CONSUMER);
      }
    }
  }
}
