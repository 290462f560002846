/** Newline-delimited messages over a byte stream that arrives in arbitrary pieces. */
module Framing {
  import opened Base

  type Byte = b: int | 0 <= b < 0x100

  const NEWLINE: Byte := 10
  const MAX_MESSAGE_SIZE: nat := 64 * 1024

  predicate Blank(b: Byte) {
    b == 32 || 9 <= b <= 13
  }

  function TrimLeft(s: seq<Byte>): seq<Byte> {
    if s != [] && Blank(s[0]) then TrimLeft(s[1..]) else s
  }

  function TrimRight(s: seq<Byte>): seq<Byte> {
    if s != [] && Blank(s[|s| - 1]) then TrimRight(s[..|s| - 1]) else s
  }

  /** `QByteArray::trimmed` */
  function Trimmed(s: seq<Byte>): seq<Byte> {
    TrimRight(TrimLeft(s))
  }

  /** Position of the first newline, or the length if there is none. */
  function LineEnd(s: seq<Byte>): (n: nat)
    ensures n <= |s| && (n < |s| ==> s[n] == NEWLINE)
  {
    if s == [] || s[0] == NEWLINE then 0 else 1 + LineEnd(s[1..])
  }

  lemma {:induction false} LineHasNoNewline(s: seq<Byte>)
    ensures NEWLINE !in s[..LineEnd(s)]
  {
    if s != [] && s[0] != NEWLINE {
      LineHasNoNewline(s[1..]);
      assert s[..LineEnd(s)] == [s[0]] + s[1..][..LineEnd(s[1..])];
    }
  }

  function OneLine(s: seq<Byte>): seq<seq<Byte>> {
    if Trimmed(s) == [] then [] else [Trimmed(s)]
  }

  /** The messages in `s`, and what follows the last newline. */
  function Lines(s: seq<Byte>): seq<seq<Byte>> {
    var n := LineEnd(s);
    if n == |s| then [] else OneLine(s[..n]) + Lines(s[n + 1..])
  }

  function Rest(s: seq<Byte>): seq<Byte> {
    var n := LineEnd(s);
    if n == |s| then s else Rest(s[n + 1..])
  }

  lemma {:induction false} RestHasNoNewline(s: seq<Byte>)
    ensures NEWLINE !in Rest(s)
  {
    if LineEnd(s) == |s| {
      LineHasNoNewline(s);
      assert s[..|s|] == s;
    } else {
      RestHasNoNewline(s[LineEnd(s) + 1..]);
    }
  }

  /** A connection's buffer and everything dispatched from it; `limit` bounds the buffer, if there is a bound. */
  datatype Connection = Connection(limit: Option<nat>, buffer: seq<Byte>, dispatched: seq<seq<Byte>>)
  {
    predicate Fits(chunk: seq<Byte>) {
      limit.Some? ==> |buffer| + |chunk| <= limit.value
    }

    /** An append that takes the buffer over its limit dispatches nothing, and neither does anything after it. */
    function Receive(chunk: seq<Byte>): Connection {
      if Fits(chunk) then this.(buffer := Rest(buffer + chunk), dispatched := dispatched + Lines(buffer + chunk))
      else this.(buffer := buffer + chunk)
    }

    function ReceiveAll(chunks: seq<seq<Byte>>): Connection
      decreases |chunks|
    {
      if chunks == [] then this else Receive(chunks[0]).ReceiveAll(chunks[1..])
    }

    predicate AllFit(chunks: seq<seq<Byte>>)
      decreases |chunks|
    {
      chunks == [] || (Fits(chunks[0]) && Receive(chunks[0]).AllFit(chunks[1..]))
    }
  }

  function Opened(limit: Option<nat>): Connection {
    Connection(limit, [], [])
  }

  // ---- pieces

  lemma {:induction false} LineEndAppend(a: seq<Byte>, b: seq<Byte>)
    requires LineEnd(a) < |a|
    ensures LineEnd(a + b) == LineEnd(a)
    decreases |a|
  {
    if a[0] != NEWLINE {
      assert (a + b)[1..] == a[1..] + b;
      LineEndAppend(a[1..], b);
    }
  }

  lemma {:induction false} LineEndOf(m: seq<Byte>, rest: seq<Byte>)
    requires NEWLINE !in m
    ensures LineEnd(m + [NEWLINE] + rest) == |m|
    decreases |m|
  {
    if m != [] {
      assert m + [NEWLINE] + rest == [m[0]] + (m[1..] + [NEWLINE] + rest);
      LineEndOf(m[1..], rest);
    }
  }

  lemma FirstLine(s: seq<Byte>)
    requires LineEnd(s) < |s|
    ensures var n := LineEnd(s); Lines(s) == OneLine(s[..n]) + Lines(s[n + 1..]) && Rest(s) == Rest(s[n + 1..])
  {
  }

  lemma {:induction false} LinesAppend(a: seq<Byte>, b: seq<Byte>)
    ensures Lines(a + b) == Lines(a) + Lines(Rest(a) + b) && Rest(a + b) == Rest(Rest(a) + b)
    decreases |a|
  {
    hide LineEnd, Lines, Rest, OneLine;
    var n := LineEnd(a);
    if n < |a| {
      LineEndAppend(a, b);
      assert (a + b)[n + 1..] == a[n + 1..] + b && (a + b)[..n] == a[..n];
      FirstLine(a);
      FirstLine(a + b);
      LinesAppend(a[n + 1..], b);
      var one, more, rest := OneLine(a[..n]), Lines(a[n + 1..]), Lines(Rest(a[n + 1..]) + b);
      assert one + (more + rest) == (one + more) + rest;
    } else {
      NoLine(a);
      assert [] + Lines(a + b) == Lines(a + b);
    }
  }

  lemma NoLine(s: seq<Byte>)
    requires LineEnd(s) == |s|
    ensures Lines(s) == [] && Rest(s) == s
  {
  }

  /** The connection has dispatched the messages of `before`, and keeps what follows them. */
  ghost predicate HasRead(c: Connection, before: seq<Byte>) {
    c.buffer == Rest(before) && c.dispatched == Lines(before)
  }

  lemma ReadStep(c: Connection, chunk: seq<Byte>, before: seq<Byte>)
    requires c.Fits(chunk) && HasRead(c, before)
    ensures HasRead(c.Receive(chunk), before + chunk)
  {
    LinesAppend(before, chunk);
  }

  lemma ConcatStep(before: seq<Byte>, chunks: seq<seq<Byte>>)
    requires chunks != []
    ensures before + Concat(chunks) == before + chunks[0] + Concat(chunks[1..])
  {
  }

  /** After any pieces that fit, a connection has dispatched exactly the messages of the bytes received. */
  lemma {:induction false} ReceivedLines(c: Connection, chunks: seq<seq<Byte>>, before: seq<Byte>)
    requires c.AllFit(chunks) && HasRead(c, before)
    ensures HasRead(c.ReceiveAll(chunks), before + Concat(chunks))
    decreases |chunks|
  {
    if chunks == [] {
      assert before + Concat(chunks) == before;
    } else {
      ReadStep(c, chunks[0], before);
      ReceivedLines(c.Receive(chunks[0]), chunks[1..], before + chunks[0]);
      ConcatStep(before, chunks);
    }
  }

  /** How a stream is cut into pieces makes no difference, as long as every piece fits. */
  lemma CuttingMakesNoDifference(limit: Option<nat>, xs: seq<seq<Byte>>, ys: seq<seq<Byte>>)
    requires Concat(xs) == Concat(ys) && Opened(limit).AllFit(xs) && Opened(limit).AllFit(ys)
    ensures Opened(limit).ReceiveAll(xs) == Opened(limit).ReceiveAll(ys)
  {
    ReceivedLines(Opened(limit), xs, []);
    ReceivedLines(Opened(limit), ys, []);
    assert [] + Concat(xs) == [] + Concat(ys);
    LimitStays(Opened(limit), xs);
    LimitStays(Opened(limit), ys);
  }

  lemma {:induction false} LimitStays(c: Connection, chunks: seq<seq<Byte>>)
    ensures c.ReceiveAll(chunks).limit == c.limit
    decreases |chunks|
  {
    if chunks != [] {
      LimitStays(c.Receive(chunks[0]), chunks[1..]);
    }
  }

  /** Once a piece does not fit, nothing is dispatched any more. */
  lemma {:induction false} OverflowIsFinal(c: Connection, chunks: seq<seq<Byte>>)
    requires c.limit.Some? && |c.buffer| > c.limit.value
    ensures c.ReceiveAll(chunks).dispatched == c.dispatched
    decreases |chunks|
  {
    if chunks != [] {
      OverflowIsFinal(c.Receive(chunks[0]), chunks[1..]);
    }
  }

  function Fitting(c: Connection, chunks: seq<seq<Byte>>): nat
    decreases |chunks|
  {
    if chunks == [] || !c.Fits(chunks[0]) then 0 else 1 + Fitting(c.Receive(chunks[0]), chunks[1..])
  }

  /** In general, what is dispatched is what the pieces before the first overflow contain. */
  lemma {:induction false} DispatchedUpToOverflow(c: Connection, chunks: seq<seq<Byte>>, before: seq<Byte>)
    requires HasRead(c, before)
    ensures Fitting(c, chunks) <= |chunks|
    ensures c.ReceiveAll(chunks).dispatched == Lines(before + Concat(chunks[..Fitting(c, chunks)]))
    decreases |chunks|
  {
    var k := Fitting(c, chunks);
    if k == 0 {
      assert before + Concat(chunks[..0]) == before;
      if chunks != [] {
        OverflowIsFinal(c.Receive(chunks[0]), chunks[1..]);
      }
    } else {
      ReadStep(c, chunks[0], before);
      DispatchedUpToOverflow(c.Receive(chunks[0]), chunks[1..], before + chunks[0]);
      assert chunks[..k][1..] == chunks[1..][..k - 1];
      ConcatStep(before, chunks[..k]);
    }
  }

  // ---- messages

  /** What `sendJson` writes for one message: compact JSON has no newline and no blank at either end. */
  predicate Message(m: seq<Byte>) {
    m != [] && NEWLINE !in m && !Blank(m[0]) && !Blank(m[|m| - 1])
  }

  function Framed(ms: seq<seq<Byte>>): seq<Byte> {
    if ms == [] then [] else ms[0] + [NEWLINE] + Framed(ms[1..])
  }

  /** Messages are recovered exactly. */
  lemma {:induction false} FramingRoundTrip(ms: seq<seq<Byte>>)
    requires forall i :: 0 <= i < |ms| ==> Message(ms[i])
    ensures Lines(Framed(ms)) == ms && Rest(Framed(ms)) == []
  {
    if ms != [] {
      var m, rest := ms[0], Framed(ms[1..]);
      LineEndOf(m, rest);
      assert Framed(ms)[..|m|] == m && Framed(ms)[|m| + 1..] == rest;
      assert Trimmed(m) == m;
      FramingRoundTrip(ms[1..]);
    }
  }

  /** However the sender's bytes are cut, the receiver dispatches the sender's messages, in order. */
  lemma SentIsDispatched(limit: Option<nat>, ms: seq<seq<Byte>>, chunks: seq<seq<Byte>>)
    requires forall i :: 0 <= i < |ms| ==> Message(ms[i])
    requires Concat(chunks) == Framed(ms) && Opened(limit).AllFit(chunks)
    ensures Opened(limit).ReceiveAll(chunks) == Connection(limit, [], ms)
  {
    ReceivedLines(Opened(limit), chunks, []);
    assert [] + Concat(chunks) == Framed(ms);
    FramingRoundTrip(ms);
    LimitStays(Opened(limit), chunks);
  }

  /** One peer's buffer. The daemon bounds it by `MAX_MESSAGE_SIZE`; the fallback client does not bound it. */
  class LineBuffer {
    const limit: Option<nat>
    var buffer: seq<Byte>
    var dispatched: seq<seq<Byte>>

    function Data(): Connection
      reads this
    {
      Connection(limit, buffer, dispatched)
    }

    constructor (limit: Option<nat>)
      ensures Data() == Opened(limit)
    {
      this.limit := limit;
      buffer, dispatched := [], [];
    }

    method OnReadyRead(chunk: seq<Byte>)
      modifies this
      ensures Data() == old(Data()).Receive(chunk)
    {
      buffer := buffer + chunk;
      if limit.Some? && |buffer| > limit.value {
        return;
      }
      ghost var goal := Drained(buffer, dispatched);
      var idx := LineEnd(buffer);
      while idx < |buffer|
        invariant idx == LineEnd(buffer) && Drained(buffer, dispatched) == goal
        decreases |buffer|
      {
        DrainOne(buffer, dispatched);
        ghost var next := dispatched + OneLine(buffer[..idx]);
        var line := Trimmed(buffer[..idx]);
        buffer := buffer[idx + 1..];
        if line != [] {
          dispatched := dispatched + [line];
        }
        assert dispatched == next;
        idx := LineEnd(buffer);
      }
    }
  }

  /** The buffer and the messages once all complete lines are taken out. */
  function Drained(buffer: seq<Byte>, dispatched: seq<seq<Byte>>): (seq<Byte>, seq<seq<Byte>>) {
    (Rest(buffer), dispatched + Lines(buffer))
  }

  lemma DrainOne(buffer: seq<Byte>, dispatched: seq<seq<Byte>>)
    requires LineEnd(buffer) < |buffer|
    ensures var n := LineEnd(buffer);
            Drained(buffer, dispatched) == Drained(buffer[n + 1..], dispatched + OneLine(buffer[..n]))
  {
    FirstLine(buffer);
    var one, more := OneLine(buffer[..LineEnd(buffer)]), Lines(buffer[LineEnd(buffer) + 1..]);
    assert dispatched + (one + more) == dispatched + one + more;
  }
}
