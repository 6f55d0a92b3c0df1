/** The bounded decompressor: a reader over a decoded stream that gives up as soon as more than `limit` bytes
    have come out of it. The inner gzip reader is arbitrary: each call hands over any number of bytes that fit
    in the slice it is given, with any report, as long as it reports the end only at the end. */
module Decompressor {
  type byte = bv8

  /** How the inner reader reports, besides the bytes it hands over. */
  datatype Report = Fine | End | BodyTooLarge | Broken

  datatype Outcome = Ok | EndOfStream | TooLarge | Malformed

  /** One call of Read: the caller's buffer size, and the inner reader's bytes and report. */
  datatype Call = Call(size: nat, data: seq<byte>, report: Report)

  datatype State = State(read: nat, delivered: seq<byte>)

  /** How much of a buffer of the given size the inner reader gets to see. */
  function Room(limit: int, read: nat, size: nat): (room: nat)
    requires read <= limit
    ensures room <= size && read + room <= limit + 1
    ensures size > 0 ==> room > 0
  {
    if size > limit - read + 1 then limit - read + 1 else size
  }

  /** The bytes a call returns and what it says. */
  function Answer(limit: int, read: nat, c: Call): (seq<byte>, Outcome) {
    if read > limit || read + |c.data| > limit then ([], TooLarge)
    else (c.data, match c.report
                  case Fine => Ok
                  case End => EndOfStream
                  case BodyTooLarge => TooLarge
                  case Broken => Malformed)
  }

  function After(limit: int, s: State, c: Call): State {
    if s.read > limit then s
    else State(s.read + |c.data|, s.delivered + Answer(limit, s.read, c).0)
  }

  /** The call that a buffer of the given size makes of an inner reader, which gets to see Room of it. */
  ghost function CallOf(limit: int, read: nat, size: nat, inner: nat -> (seq<byte>, Report)): Call {
    if read > limit then Call(size, [], Fine)
    else Call(size, inner(Room(limit, read, size)).0, inner(Room(limit, read, size)).1)
  }

  function Run(limit: int, calls: seq<Call>): State {
    if calls == [] then State(0, []) else After(limit, Run(limit, calls[..|calls| - 1]), calls[|calls| - 1])
  }

  /** What the inner reader may do: never more than its slice, the stream's bytes in order, the end only at the
      end. Once the limit is passed it is not called again. */
  predicate Honest(limit: int, stream: seq<byte>, read: nat, c: Call) {
    read <= limit ==>
      && |c.data| <= Room(limit, read, c.size)
      && read + |c.data| <= |stream| && c.data == stream[read..read + |c.data|]
      && (c.report == End ==> read + |c.data| == |stream|)
  }

  predicate HonestRun(limit: int, stream: seq<byte>, calls: seq<Call>) {
    calls == [] || (var front := calls[..|calls| - 1];
                    HonestRun(limit, stream, front) && Honest(limit, stream, Run(limit, front).read, calls[|calls| - 1]))
  }

  /** For every sequence of buffer sizes and every inner behaviour, what has been delivered is a prefix of the
      stream and never longer than the limit; up to the limit nothing is withheld. */
  lemma {:induction false} DeliversAPrefix(limit: int, stream: seq<byte>, calls: seq<Call>)
    requires HonestRun(limit, stream, calls)
    ensures Prefix(limit, stream, Run(limit, calls))
  {
    if calls != [] {
      var front := calls[..|calls| - 1];
      DeliversAPrefix(limit, stream, front);
      StepKeepsPrefix(limit, stream, Run(limit, front), calls[|calls| - 1]);
    }
  }

  predicate Prefix(limit: int, stream: seq<byte>, s: State) {
    && s.delivered <= stream && (s.delivered == [] || |s.delivered| <= limit)
    && s.read <= |stream| && (s.read == 0 || s.read <= limit + 1)
    && (s.read <= limit ==> s.delivered == stream[..s.read])
  }

  lemma StepKeepsPrefix(limit: int, stream: seq<byte>, s: State, c: Call)
    requires Prefix(limit, stream, s) && Honest(limit, stream, s.read, c)
    ensures Prefix(limit, stream, After(limit, s, c))
  {
    if s.read <= limit {
      assert stream[..s.read + |c.data|] == stream[..s.read] + c.data;
    }
  }

  /** A call that reports the end has delivered the whole stream, and the stream fits the limit; so a longer
      stream never looks complete. */
  lemma EndMeansAll(limit: int, stream: seq<byte>, calls: seq<Call>, c: Call)
    requires HonestRun(limit, stream, calls + [c])
    requires Answer(limit, Run(limit, calls).read, c).1 == EndOfStream
    ensures Run(limit, calls + [c]).delivered == stream && |stream| <= limit
  {
    assert (calls + [c])[..|calls|] == calls;
    DeliversAPrefix(limit, stream, calls + [c]);
  }

  /** A stream of up to and including `limit` bytes is never cut: TooLarge then only passes on that the
      compressed body was too large. */
  lemma FittingStreamIsNotCut(limit: int, stream: seq<byte>, calls: seq<Call>, c: Call)
    requires HonestRun(limit, stream, calls + [c]) && |stream| <= limit
    ensures var s := Run(limit, calls);
            && Answer(limit, s.read, c).0 == c.data
            && (Answer(limit, s.read, c).1 == TooLarge <==> c.report == BodyTooLarge)
            && (Answer(limit, s.read, c).1 == EndOfStream <==> c.report == End)
            && (Answer(limit, s.read, c).1 == Malformed <==> c.report == Broken)
            && s.read + |c.data| <= |stream| && Run(limit, calls + [c]).delivered == stream[..s.read + |c.data|]
  {
    assert (calls + [c])[..|calls|] == calls;
    DeliversAPrefix(limit, stream, calls);
    DeliversAPrefix(limit, stream, calls + [c]);
  }

  /** Once the limit is passed every later call answers TooLarge with no bytes. */
  lemma {:induction false} TooLargeStays(limit: int, calls: seq<Call>, later: seq<Call>, c: Call)
    requires Run(limit, calls).read > limit
    ensures Run(limit, calls + later) == Run(limit, calls)
    ensures Answer(limit, Run(limit, calls + later).read, c) == ([], TooLarge)
  {
    if later == [] {
      assert calls + later == calls;
    } else {
      var front := later[..|later| - 1];
      assert (calls + later)[..|calls + later| - 1] == calls + front;
      TooLargeStays(limit, calls, front, c);
    }
  }

  class LimitedDecompressor {
    const limit: int
    var read: nat
    ghost var delivered: seq<byte>

    ghost function Contents(): State
      reads this
    {
      State(read, delivered)
    }

    constructor (limit: int)
      ensures this.limit == limit && Contents() == Run(limit, [])
    {
      this.limit := limit;
      read, delivered := 0, [];
    }

    /** The inner reader fills the front of the first `size` bytes of p. */
    static method InnerRead(p: array<byte>, size: nat, inner: nat -> (seq<byte>, Report)) returns (n: nat, report: Report)
      requires |inner(size).0| <= size <= p.Length
      modifies p
      ensures n == |inner(size).0| && p[..n] == inner(size).0 && p[n..] == old(p[n..]) && report == inner(size).1
    {
      var data := inner(size).0;
      report := inner(size).1;
      n := |data|;
      for i := 0 to n
        invariant p[..i] == data[..i] && p[i..] == old(p[i..])
      {
        p[i] := data[i];
      }
    }

    method Read(p: array<byte>, inner: nat -> (seq<byte>, Report)) returns (n: nat, outcome: Outcome)
      requires forall size :: |inner(size).0| <= size
      modifies this, p
      ensures Contents() == After(limit, old(Contents()), CallOf(limit, old(read), p.Length, inner))
      ensures n <= p.Length && (p[..n], outcome) == Answer(limit, old(read), CallOf(limit, old(read), p.Length, inner))
      ensures old(read) > limit ==> p[..] == old(p[..])
    {
      // Never re-entered past the limit: the slice below would be empty and (0, nil) would repeat for ever.
      if read > limit {
        return 0, TooLarge;
      }
      var size := p.Length;
      var room := limit - read + 1;
      if size > room {
        size := room;
      }
      var report;
      n, report := InnerRead(p, size, inner);
      read := read + n;
      if read > limit {
        return 0, TooLarge;
      }
      delivered := delivered + p[..n];
      match report {
        case Fine => return n, Ok;
        case End => return n, EndOfStream;
        case BodyTooLarge => return n, TooLarge;
        case Broken => return n, Malformed;
      }
    }
  }
}
