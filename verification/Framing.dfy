/**
 The receiving loop of a connection (p/srv/conn.go): it cuts the byte stream, which arrives in pieces of
 any size, into messages.
 */
module Framing {
  import opened Common
  import opened Codec

  /**
   Why the loop ended: the stream did, a message was larger than Msize, one was refused by the parser, or the
   parser panicked, which ends not this connection only but the whole server.
   */
  datatype End = Eof | TooBig | Invalid | Panicked

  datatype Messages = Messages(out: seq<Unpacked>, end: End)

  /** A parser of single messages. */
  type Parser = seq<byte> -> Unpacked

  /** The size that a message starts with. */
  function SizeOf(s: seq<byte>): nat
    requires |s| >= 4
  {
    V32(s)
  }

  /** How a message that is not parsed ends the loop. */
  function EndOf(m: Unpacked): End {
    if m.Crash? then Panicked else Invalid
  }

  /** What a parser makes of the first n bytes does not depend on what follows them, and it takes what size says. */
  ghost predicate LocalAt(parse: Parser, buf: seq<byte>, n: nat)
    requires 4 <= n <= |buf|
  {
    && (7 <= SizeOf(buf) <= n ==> parse(buf) == parse(buf[..n]))
    && (SizeOf(buf) < 7 ==> parse(buf) == Bad)
    && (parse(buf).Ok? ==> parse(buf).used == SizeOf(buf))
  }

  ghost predicate Local(parse: Parser) {
    && (forall buf, n :: 4 <= n <= |buf| ==> LocalAt(parse, buf, n))
    && (forall buf :: |buf| < 7 ==> parse(buf) == Bad)
  }

  function After(m: Unpacked, rest: Messages): Messages {
    Messages([m] + rest.out, rest.end)
  }

  /** The stream cut at the sizes that its messages start with, up to the first bad message. */
  function Split(s: seq<byte>, msize: nat, parse: Parser): Messages
    decreases |s|
  {
    if |s| <= 4 then Messages([], Eof)
    else
      var size := SizeOf(s);
      if size > msize then Messages([], TooBig)
      else if |s| < size then Messages([], Eof)
      else
        var m := parse(s[..size]);
        if !m.Ok? || size == 0 then Messages([], EndOf(m))
        else After(m, Split(s[size..], msize, parse))
  }

  /** Where a delivered message lies in memory; its data is not copied. */
  datatype Slice = Slice(arr: array<byte>, from: nat, len: nat)

  ghost predicate Holds(s: Slice, m: Unpacked, parse: Parser)
    reads s.arr
  {
    s.from + s.len <= s.arr.Length && m == parse(s.arr[s.from..s.from + s.len])
  }

  /**
     n bytes from the net, as many as the net pleases but at least one, unless the stream is over.  Nothing
     is promised about the room behind them.
   */
  method Read(arr: array<byte>, at: nat, left: seq<byte>) returns (n: nat)
    requires at < arr.Length
    modifies arr
    ensures n == 0 <==> left == []
    ensures n <= |left| && at + n <= arr.Length && arr[at..at + n] == left[..n]
    ensures forall i :: 0 <= i < at ==> arr[i] == old(arr[i])
  {
    n := 0;
    if left != [] {
      n :| 1 <= n <= |left| && at + n <= arr.Length;
      forall i | at <= i < at + n {
        arr[i] := left[i - at];
      }
    }
  }

  /** make and copy: a new buffer with what was pending in the old one. */
  method Move(arr: array<byte>, start: nat, pos: nat, msize: nat) returns (b: array<byte>)
    requires start + pos <= arr.Length && pos <= 8 * msize
    ensures fresh(b) && b.Length == 8 * msize && b[..pos] == arr[start..start + pos]
  {
    b := new byte[8 * msize];
    forall i | 0 <= i < pos {
      b[i] := arr[start + i];
    }
  }

  class Conn {
    const msize: nat
    const parse: Parser
    var arr: array<byte>        // buf is arr[start..]
    var start: nat
    var pos: nat                // buf[..pos] has been read and not yet cut
    var out: seq<Unpacked>      // the messages handed on
    ghost var kept: seq<Slice>  // and where they lie

    ghost predicate Valid()
      reads this, arr, set k | 0 <= k < |kept| :: kept[k].arr
    {
      && msize > 4
      && start + pos <= arr.Length
      && |kept| == |out|
      && (forall k :: 0 <= k < |kept| ==> Holds(kept[k], out[k], parse))
      && (forall k :: 0 <= k < |kept| && kept[k].arr == arr ==> kept[k].from + kept[k].len <= start)
    }

    function Pending(): seq<byte>
      requires start + pos <= arr.Length
      reads this, arr
    {
      arr[start..start + pos]
    }

    constructor (m: nat, p: Parser)
      requires m > 4
      ensures Valid() && msize == m && parse == p && out == [] && pos == 0 && fresh(arr)
    {
      msize := m;
      parse := p;
      arr := new byte[m * 8];
      start, pos := 0, 0;
      out, kept := [], [];
    }

    /** What has arrived is the beginning of a message, or too short to tell. */
    ghost predicate Waiting()
      requires start + pos <= arr.Length
      reads this, arr
    {
      pos > 4 ==> pos < SizeOf(Pending()) <= msize
    }

    /** Hands on the message at the front of the buffer. */
    method Deliver(m: Unpacked, size: nat)
      requires Valid() && size <= pos && m == parse(arr[start..start + size])
      modifies this
      ensures Valid() && arr == old(arr) && out == old(out) + [m]
      ensures Pending() == old(Pending())[size..] && pos == old(pos) - size
    {
      kept := kept + [Slice(arr, start, size)];
      out := out + [m];
      start, pos := start + size, pos - size;
    }

    /** Moves what is pending to a new buffer. */
    method Renew()
      requires Valid() && pos <= msize
      modifies this
      ensures Valid() && fresh(arr) && out == old(out) && Pending() == old(Pending()) && pos == old(pos)
      ensures arr.Length - start >= msize + pos
    {
      arr := Move(arr, start, pos, msize);
      start := 0;
    }

    /** What is still to come completes the messages handed on to goal. */
    ghost predicate Towards(goal: Messages, rest: seq<byte>)
      requires start + pos <= arr.Length
      reads this, arr
    {
      goal == Join(out, Split(Pending() + rest, msize, parse))
    }

    /** The loop over what has arrived; rest is still to come. */
    method Cut(ghost rest: seq<byte>, ghost goal: Messages) returns (bad: bool, end: End)
      requires Valid() && Local(parse) && Towards(goal, rest)
      modifies this
      ensures Valid() && (arr == old(arr) || fresh(arr))
      ensures if bad then Messages(out, end) == goal else Waiting() && Towards(goal, rest)
    {
      bad, end := false, Eof;
      while pos > 4
        invariant Valid() && arr == old(arr) && Towards(goal, rest)
        decreases pos
      {
        var buf := arr[start..];
        assert buf[..pos] == Pending();
        CutStep(out, buf, pos, rest, msize, parse, goal);
        var size := SizeOf(buf);
        if size > msize {
          return true, TooBig;
        }
        if pos < size {
          if arr.Length - start < size {
            Renew();
          }
          break;
        }
        var m := parse(buf);
        if !m.Ok? {
          return true, EndOf(m);
        }
        assert buf[..size] == arr[start..start + size];
        Deliver(m, size);
      }
    }

    /** Reads more behind what is pending.  No message handed on before is touched. */
    method Fill(left: seq<byte>) returns (n: nat)
      requires Valid() && start + pos < arr.Length
      modifies this`pos, arr
      ensures Valid() && (n == 0 <==> left == []) && n <= |left|
      ensures Pending() == old(Pending()) + left[..n]
    {
      n := Read(arr, start + pos, left);
      forall k | 0 <= k < |kept| ensures Holds(kept[k], out[k], parse) {
        var s := kept[k];
        assert old(Holds(s, out[k], parse));
        assert s.arr[s.from..s.from + s.len] == old(s.arr[s.from..s.from + s.len]);
      }
      ghost var was := arr[start..start + pos];
      assert was == old(Pending());
      pos := pos + n;
      assert arr[start..start + pos] == was + arr[start + pos - n..start + pos];
    }

    /** One Read; the slice to read into is never empty. */
    method Receive(left: seq<byte>, ghost goal: Messages) returns (n: nat)
      requires Valid() && Waiting() && Towards(goal, left)
      modifies this, arr
      ensures Valid() && (arr == old(arr) || fresh(arr)) && (n == 0 <==> left == []) && n <= |left|
      ensures if n == 0 then goal == Messages(out, Eof) else Towards(goal, left[n..])
    {
      if arr.Length - start < msize {
        Renew();
      }
      ghost var pending := Pending();
      n := Fill(left);
      if n == 0 {
        AtEof(pending, msize, parse);
        JoinEnd(out);
      } else {
        assert pending + left == Pending() + left[n..];
      }
    }

    /** The connection from its start to its end, or to the first bad message. */
    method Recv(stream: seq<byte>) returns (end: End)
      requires Valid() && Local(parse) && out == [] && pos == 0
      modifies this, arr
      ensures Messages(out, end) == Split(stream, msize, parse)
      ensures Valid()
    {
      var left := stream;
      ghost var goal := Split(stream, msize, parse);
      JoinNothing(goal);
      assert Pending() + stream == stream;
      while true
        invariant Valid() && Waiting() && (arr == old(arr) || fresh(arr)) && Towards(goal, left)
        decreases |left|
      {
        var n := Receive(left, goal);
        if n == 0 {
          return Eof;
        }
        left := left[n..];
        var bad;
        bad, end := Cut(left, goal);
        if bad {
          return;
        }
      }
    }
  }

  lemma JoinNothing(m: Messages)
    ensures Join([], m) == m
  {
    assert [] + m.out == m.out;
  }

  lemma JoinEnd(front: seq<Unpacked>)
    ensures forall e :: Join(front, Messages([], e)) == Messages(front, e)
  {
    assert front + [] == front;
  }

  lemma JoinNext(front: seq<Unpacked>, m: Unpacked, rest: Messages)
    ensures Join(front, After(m, rest)) == Join(front + [m], rest)
  {
    assert front + ([m] + rest.out) == front + [m] + rest.out;
  }

  /** The message at the front of a buffer of which pos bytes have arrived and rest is to come. */
  lemma FrontMessage(buf: seq<byte>, pos: nat, rest: seq<byte>, msize: nat, parse: Parser)
    requires 4 < pos <= |buf| && Local(parse)
    ensures var size, all := SizeOf(buf), Split(buf[..pos] + rest, msize, parse);
            && SizeOf(buf[..pos]) == size
            && (size > msize ==> all == Messages([], TooBig))
            && (size <= msize && size <= pos && !parse(buf).Ok? ==> all == Messages([], EndOf(parse(buf))))
            && (size <= msize && size <= pos && parse(buf).Ok? ==>
                  parse(buf[..size]) == parse(buf) && size >= 7
                  && all == After(parse(buf), Split(buf[..pos][size..] + rest, msize, parse)))
  {
    var size, ahead := SizeOf(buf), buf[..pos] + rest;
    assert ahead[..4] == buf[..4] == buf[..pos][..4];
    if size <= pos {
      assert ahead[..size] == buf[..size];
      assert LocalAt(parse, buf, |buf|);
      if size >= 4 { assert LocalAt(parse, buf, size); }
      assert ahead[size..] == buf[..pos][size..] + rest;
    }
  }

  /** The same, behind the messages cut before. */
  lemma CutStep(front: seq<Unpacked>, buf: seq<byte>, pos: nat, rest: seq<byte>, msize: nat, parse: Parser,
                all: Messages)
    requires 4 < pos <= |buf| && Local(parse) && all == Join(front, Split(buf[..pos] + rest, msize, parse))
    ensures SizeOf(buf[..pos]) == SizeOf(buf)
    ensures SizeOf(buf) > msize ==> all == Messages(front, TooBig)
    ensures SizeOf(buf) <= msize && SizeOf(buf) <= pos && !parse(buf).Ok? ==> all == Messages(front, EndOf(parse(buf)))
    ensures SizeOf(buf) <= msize && SizeOf(buf) <= pos && parse(buf).Ok? ==>
              && parse(buf[..SizeOf(buf)]) == parse(buf) && SizeOf(buf) >= 7
              && all == Join(front + [parse(buf)], Split(buf[..pos][SizeOf(buf)..] + rest, msize, parse))
  {
    FrontMessage(buf, pos, rest, msize, parse);
    JoinEnd(front);
    if SizeOf(buf) <= msize && SizeOf(buf) <= pos && parse(buf).Ok? {
      JoinNext(front, parse(buf), Split(buf[..pos][SizeOf(buf)..] + rest, msize, parse));
    }
  }

  lemma AtEof(pending: seq<byte>, msize: nat, parse: Parser)
    requires |pending| > 4 ==> |pending| < SizeOf(pending) <= msize
    ensures Split(pending + [], msize, parse) == Messages([], Eof)
  {
    assert pending + [] == pending;
  }

  function Join(front: seq<Unpacked>, rest: Messages): Messages {
    Messages(front + rest.out, rest.end)
  }

  /* ---- with the parser of the protocol ---- */

  function Unpacker(dotu: bool): Parser {
    b => Decode(b, dotu)
  }

  lemma UnpackerLocalAt(dotu: bool, buf: seq<byte>, n: nat)
    requires 4 <= n <= |buf|
    ensures LocalAt(Unpacker(dotu), buf, n)
  {
    if V32(buf) <= n {
      DecodeIsLocal(buf, n, dotu);
      if V32(buf) < 7 { assert !Decode(buf[..n], dotu).Ok?; }
    }
  }

  lemma UnpackerIsLocal(dotu: bool)
    ensures Local(Unpacker(dotu))
  {
    forall buf, n | 4 <= n <= |buf| ensures LocalAt(Unpacker(dotu), buf, n) { UnpackerLocalAt(dotu, buf, n); }
  }

  datatype Tagged = Tagged(tag: u16, msg: Msg)

  ghost predicate Sendable(t: Tagged, msize: nat, dotu: bool) {
    Packable(t.msg, dotu) && Size(t.msg, dotu) <= msize && (dotu || !t.msg.Rwstat?)
  }

  /** The packets of ts, one after the other. */
  ghost function Stream(ts: seq<Tagged>, msize: nat, dotu: bool): seq<byte>
    requires forall i :: 0 <= i < |ts| ==> Sendable(ts[i], msize, dotu)
  {
    if ts == [] then []
    else
      assert Sendable(ts[0], msize, dotu);
      Packet(ts[0].msg, dotu, ts[0].tag) + Stream(ts[1..], msize, dotu)
  }

  function Delivered(ts: seq<Tagged>, dotu: bool): seq<Unpacked> {
    if ts == [] then [] else [Ok(ts[0].tag, Wire(ts[0].msg, dotu), Size(ts[0].msg, dotu))] + Delivered(ts[1..], dotu)
  }

  lemma OnePacket(t: Tagged, rest: seq<byte>, msize: nat, dotu: bool)
    requires Sendable(t, msize, dotu)
    ensures Split(Packet(t.msg, dotu, t.tag) + rest, msize, Unpacker(dotu)) ==
            After(Ok(t.tag, Wire(t.msg, dotu), Size(t.msg, dotu)), Split(rest, msize, Unpacker(dotu)))
  {
    var packet, size := Packet(t.msg, dotu, t.tag), Size(t.msg, dotu);
    var s := packet + rest;
    RoundTrip(t.msg, dotu, t.tag, []);
    assert packet + [] == packet;
    HeaderOf(size, TypeOf(t.msg), t.tag, Body(t.msg, dotu), rest);
    assert s[..size] == packet && s[size..] == rest;
  }

  /** What one side prints the other side receives, message by message, however the bytes travel. */
  lemma {:induction false} StreamArrives(ts: seq<Tagged>, msize: nat, dotu: bool)
    requires forall i :: 0 <= i < |ts| ==> Sendable(ts[i], msize, dotu)
    ensures Split(Stream(ts, msize, dotu), msize, Unpacker(dotu)) == Messages(Delivered(ts, dotu), Eof)
  {
    if ts != [] {
      OnePacket(ts[0], Stream(ts[1..], msize, dotu), msize, dotu);
      StreamArrives(ts[1..], msize, dotu);
    }
  }
}
