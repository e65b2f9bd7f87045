/** Length-prefixed messages of the gRPC over HTTP/2 protocol: one byte of format, four bytes of length, the
    payload (`rpc_util.go`), written to a byte stream that arrives in buffers of any size and is read back
    through the stream reader (`internal/transport/transport.go`). */
module Framing {

  import opened Wrappers
  import opened ByteOrder

  const HEADER_LEN := 5

  datatype Message = Message(format: Byte, payload: Bytes)

  datatype Error = EOF | UnexpectedEOF | ResourceExhausted | Broken(code: nat)

  function Concat(s: seq<Bytes>): Bytes {
    if s == [] then [] else s[0] + Concat(s[1..])
  }

  lemma {:induction false} ConcatSnoc(s: seq<Bytes>, x: Bytes)
    ensures Concat(s + [x]) == Concat(s) + x
  {
    if s == [] {
      assert [x][1..] == [];
    } else {
      ConcatSnoc(s[1..], x);
      assert (s + [x])[1..] == s[1..] + [x];
    }
  }

  // ---------------------------------------------------------------- numbers

  function Pow256(n: nat): nat {
    if n == 0 then 1 else 256 * Pow256(n - 1)
  }

  /** The last `n` base-256 digits of `v`, most significant first. */
  function BigEndian(n: nat, v: nat): (r: Bytes)
    ensures |r| == n
  {
    if n == 0 then [] else BigEndian(n - 1, v / 256) + [(v % 256) as Byte]
  }

  function Value(s: Bytes): nat {
    if s == [] then 0 else 256 * Value(s[..|s| - 1]) + s[|s| - 1] as nat
  }

  lemma {:induction false} ValueBound(s: Bytes)
    ensures Value(s) < Pow256(|s|)
  {
    if s != [] { ValueBound(s[..|s| - 1]); }
  }

  /** The digits give back the number exactly when it fits. */
  lemma {:induction false} ValueOfBigEndian(n: nat, v: nat)
    ensures Value(BigEndian(n, v)) == v <==> v < Pow256(n)
  {
    if n > 0 {
      ValueOfBigEndian(n - 1, v / 256);
      var r := BigEndian(n, v);
      assert r[..n - 1] == BigEndian(n - 1, v / 256);
      assert v == 256 * (v / 256) + v % 256;
    }
  }

  // ---------------------------------------------------------------- sending

  /** The bytes of one message, for any length. */
  function Frame(m: Message): Bytes {
    [m.format] + BigEndian(4, |m.payload|) + m.payload
  }

  function Frames(ms: seq<Message>): Bytes {
    if ms == [] then [] else Frame(ms[0]) + Frames(ms[1..])
  }

  /** The length field holds four bytes. */
  lemma LengthFits(m: Message)
    ensures Value(Frame(m)[1..5]) == |m.payload| <==> |m.payload| < 0x1_0000_0000
  {
    ValueOfBigEndian(4, |m.payload|);
    assert Frame(m)[1..5] == BigEndian(4, |m.payload|);
    assert Pow256(4) == 0x1_0000_0000 by { assert Pow256(1) == 256 && Pow256(2) == 65536 && Pow256(3) == 16777216; }
  }

  const COMPRESSION_MADE: Byte := 1

  method Len(s: seq<Bytes>) returns (length: nat)
    ensures length == |Concat(s)|
  {
    length := 0;
    for i := 0 to |s|
      invariant length == |Concat(s[..i])|
    {
      assert s[..i + 1] == s[..i] + [s[i]];
      ConcatSnoc(s[..i], s[i]);
      length := length + |s[i]|;
    }
    assert s[..|s|] == s;
  }

  /** The header and the payload it announces: the compressed data for a compressed message. */
  method MsgHeader(data: seq<Bytes>, compData: seq<Bytes>, pf: Byte) returns (hdr: Bytes, payload: seq<Bytes>)
    ensures payload == if pf == COMPRESSION_MADE then compData else data
    ensures hdr + Concat(payload) == Frame(Message(pf, Concat(payload))) && |hdr| == HEADER_LEN
  {
    var buf := new Byte[HEADER_LEN](_ => 0);
    buf[0] := pf;
    payload := if pf == COMPRESSION_MADE then compData else data;
    var len := Len(payload);
    var length := len % 0x1_0000_0000;
    buf[1], buf[2] := (length / 0x100_0000) as Byte, (length / 0x1_0000 % 0x100) as Byte;
    buf[3], buf[4] := (length / 0x100 % 0x100) as Byte, (length % 0x100) as Byte;
    hdr := buf[..];
    PutUint32(len);
    assert hdr == [pf] + BigEndian(4, len);
  }

  lemma PutUint32(v: nat)
    ensures var u := v % 0x1_0000_0000;
            BigEndian(4, v) == [(u / 0x100_0000) as Byte, (u / 0x1_0000 % 0x100) as Byte, (u / 0x100 % 0x100) as Byte,
                (u % 0x100) as Byte]
  {
    var q1, q2, q3 := v / 256, v / 256 / 256, v / 256 / 256 / 256;
    Digits(v, q3 / 256, q3 % 256, q2 % 256, q1 % 256, v % 256);
    assert BigEndian(1, q3) == [(q3 % 256) as Byte];
    assert BigEndian(2, q2) == [(q3 % 256) as Byte, (q2 % 256) as Byte];
    assert BigEndian(3, q1) == BigEndian(2, q2) + [(q1 % 256) as Byte];
  }

  lemma Digits(v: nat, q: nat, a: nat, b: nat, c: nat, d: nat)
    requires a < 256 && b < 256 && c < 256 && d < 256
    requires v == 256 * (256 * (256 * (256 * q + a) + b) + c) + d
    ensures var u := v % 0x1_0000_0000;
            u / 0x100_0000 == a && u / 0x1_0000 % 0x100 == b && u / 0x100 % 0x100 == c && u % 0x100 == d
  {
    var u := 0x100_0000 * a + 0x1_0000 * b + 0x100 * c + d;
    assert v % 0x1_0000_0000 == u by { Low32(v, q, u); }
    Digit(u, 0x1_0000 * a + 0x100 * b + c, d);
    Digit(0x1_0000 * a + 0x100 * b + c, 0x100 * a + b, c);
    Digit(0x100 * a + b, a, b);
    Shifts(u);
  }

  lemma Low32(v: nat, q: nat, u: nat)
    requires u < 0x1_0000_0000 && v == 0x1_0000_0000 * q + u
    ensures v % 0x1_0000_0000 == u
  {
  }

  lemma Digit(v: nat, q: nat, d: nat)
    requires d < 0x100 && v == 0x100 * q + d
    ensures v / 0x100 == q && v % 0x100 == d
  {
  }

  lemma Shifts(v: nat)
    ensures v / 0x1_0000 == v / 0x100 / 0x100 && v / 0x100_0000 == v / 0x100 / 0x100 / 0x100
  {
  }

  // ---------------------------------------------------------------- receiving

  /** The end of the stream in the middle of something. */
  function Cut(end: Error): Error {
    if end == EOF then UnexpectedEOF else end
  }

  /** A clean end becomes an unexpected one; any other error stays what it is. */
  lemma CutMeans(end: Error)
    ensures Cut(end) != EOF && (Cut(end) == end <==> end != EOF) && (end == EOF ==> Cut(end) == UnexpectedEOF)
  {
  }

  /** One message off the bytes `p` of a stream that ends with `end`: the result, the bytes left, and the
      error all later reads give. */
  function Receive(p: Bytes, end: Error, max: int, maxInt: nat): (Result<Message, Error>, Bytes, Option<Error>) {
    if p == [] then (Err(end), [], Some(end))
    else if |p| < HEADER_LEN then (Err(Cut(end)), [], Some(Cut(end)))
    else
      var n := Value(p[1..5]);
      if n > maxInt || n > max then (Err(ResourceExhausted), p[5..], None)
      else if |p| - 5 < n then (Err(Cut(end)), [], Some(if |p| == 5 then end else Cut(end)))
      else (Ok(Message(p[0], p[5..5 + n])), p[5 + n..], None)
  }

  /** The receiving end of a stream: buffers queued by the transport, then the error that ends the stream. */
  class Parser {
    const end: Error
    const maxInt: nat
    var queue: seq<Bytes>
    var last: Option<Bytes>
    var readerErr: Option<Error>
    var er: Option<Error>

    ghost predicate Valid()
      reads this
    {
      && (last.Some? ==> last.value != [])
      && (readerErr.Some? ==> readerErr == Some(end) && last.None? && queue == [])
      && (readerErr.Some? <==> er.Some?)
    }

    ghost function Left(): Bytes
      reads this
    {
      if last.Some? then last.value else []
    }

    /** The bytes not yet read. */
    ghost function Pending(): Bytes
      reads this
    {
      Left() + Concat(queue)
    }

    constructor (chunks: seq<Bytes>, end: Error, maxInt: nat)
      ensures Valid() && Pending() == Concat(chunks) && er.None? && this.end == end && this.maxInt == maxInt
    {
      this.end, this.maxInt := end, maxInt;
      queue, last, readerErr, er := chunks, None, None, None;
    }

    /** Up to `size` bytes of the header, from one buffer. */
    method ReadHeaderPart(size: nat) returns (out: Bytes, err: Option<Error>)
      requires Valid() && er.None? && size > 0
      modifies this
      ensures Valid() && er == err
      ensures err.Some? ==> err == Some(end) && out == [] && old(Pending()) == [] == Pending()
      ensures err.None? ==> |out| <= size && old(Pending()) == out + Pending()
      ensures err.None? ==> |queue| < old(|queue|) || (|queue| == old(|queue|) && |Left()| < |old(Left())|)
    {
      if last.None? {
        if queue == [] {
          readerErr, er := Some(end), Some(end);
          return [], Some(end);
        }
        last, queue := Some(queue[0]), queue[1..];
      }
      var n := if size < |last.value| then size else |last.value|;
      out, err := last.value[..n], None;
      last := if n == |last.value| then None else Some(last.value[n..]);
    }

    /** Up to `n` bytes of the payload, from one buffer. */
    method ReadPart(n: nat) returns (out: Bytes, err: Option<Error>)
      requires Valid() && er.None? && n > 0
      modifies this
      ensures Valid() && er == err
      ensures err.Some? ==> err == Some(end) && out == [] && old(Pending()) == [] == Pending()
      ensures err.None? ==> |out| <= n && old(Pending()) == out + Pending()
      ensures err.None? ==> |queue| < old(|queue|) || (|queue| == old(|queue|) && |Left()| < |old(Left())|)
    {
      if last.None? {
        if queue == [] {
          readerErr, er := Some(end), Some(end);
          return [], Some(end);
        }
        last, queue := Some(queue[0]), queue[1..];
      }
      out, err := last.value, None;
      if |last.value| > n {
        out, last := last.value[..n], Some(last.value[n..]);
      } else {
        last := None;
      }
    }

    method ReadMessageHeader() returns (hdr: Bytes, err: Option<Error>)
      requires Valid()
      modifies this
      ensures Valid()
      ensures old(er).Some? ==> err == old(er) && Pending() == old(Pending())
      ensures old(er).None? && |old(Pending())| >= HEADER_LEN ==>
                err.None? && hdr == old(Pending())[..HEADER_LEN] && Pending() == old(Pending())[HEADER_LEN..]
      ensures old(er).None? && |old(Pending())| < HEADER_LEN ==>
                err == Some(if old(Pending()) == [] then end else Cut(end)) && Pending() == []
      ensures er == err
    {
      hide Concat;
      hdr, err := [], er;
      if err.Some? {
        return;
      }
      ghost var all := Pending();
      while |hdr| != HEADER_LEN
        invariant Valid() && er.None? && err.None? && |hdr| <= HEADER_LEN && all == hdr + Pending()
        decreases |queue|, |Left()|
      {
        var out;
        out, err := ReadHeaderPart(HEADER_LEN - |hdr|);
        assert err.None? ==> all == (hdr + out) + Pending();
        hdr := hdr + out;
        if err.Some? {
          if |hdr| > 0 && err == Some(EOF) {
            err := Some(UnexpectedEOF);
            er := err;
          }
          return;
        }
      }
    }

    method Read(n: nat) returns (data: seq<Bytes>, err: Option<Error>)
      requires Valid() && er.None?
      modifies this
      ensures Valid()
      ensures |old(Pending())| >= n ==>
                err.None? && er.None? && Concat(data) == old(Pending())[..n] && Pending() == old(Pending())[n..]
      ensures |old(Pending())| < n ==>
                err == er == Some(if old(Pending()) == [] then end else Cut(end)) && Pending() == []
    {
      data, err := [], None;
      assert Concat(data) == [];
      hide Concat;
      ghost var all := Pending();
      ghost var got: Bytes := [];
      var left := n;
      while left != 0
        invariant Valid() && er.None? && err.None? && 0 <= left && |got| == n - left
        invariant all == got + Pending() && got == Concat(data)
        decreases |queue|, |Left()|
      {
        var buf;
        buf, err := ReadPart(left);
        assert err.None? ==> all == (got + buf) + Pending();
        got := got + buf;
        left := left - |buf|;
        if err.Some? {
          if n - left > 0 && err == Some(EOF) {
            err := Some(UnexpectedEOF);
            er := err;
          }
          return [], err;
        }
        ConcatSnoc(data, buf);
        data := data + [buf];
      }
    }

    /** One message, or the error.  Once a read has failed, every later call gives that error. */
    method RecvMsg(max: int) returns (r: Result<Message, Error>)
      requires Valid()
      modifies this
      ensures Valid()
      ensures old(er).Some? ==> r == Err(old(er).value) && er == old(er) && Pending() == old(Pending())
      ensures old(er).None? ==> (r, Pending(), er) == Receive(old(Pending()), end, max, maxInt)
    {
      hide Concat;
      var hdr, err := ReadMessageHeader();
      if err.Some? {
        return Err(err.value);
      }
      ghost var all := old(Pending());
      assert hdr[1..] == all[1..5];
      var length := Value(hdr[1..]);
      if length > maxInt {
        return Err(ResourceExhausted);
      }
      if length > max {
        return Err(ResourceExhausted);
      }
      var data;
      data, err := Read(length);
      if err.Some? {
        return Err(if err.value == EOF then UnexpectedEOF else err.value);
      }
      assert all[5..][..length] == all[5..5 + length] && all[5..][length..] == all[5 + length..];
      r := Ok(Message(hdr[0], Concat(data)));
    }
  }

  // ---------------------------------------------------------------- whole streams

  /** All messages up to the first error. */
  function ReceiveAll(p: Bytes, end: Error, max: int, maxInt: nat): (seq<Message>, Error)
    decreases |p|
  {
    var (r, rest, er) := Receive(p, end, max, maxInt);
    if r.Err? then ([], r.error) else
      var (ms, err) := ReceiveAll(rest, end, max, maxInt);
      ([r.value] + ms, err)
  }

  lemma ReceiveAllStep(p: Bytes, end: Error, max: int, maxInt: nat)
    ensures var (r, rest, er) := Receive(p, end, max, maxInt);
            && (r.Err? ==> ReceiveAll(p, end, max, maxInt) == ([], r.error))
            && (r.Ok? ==> |rest| < |p| && er.None?)
            && (r.Ok? ==>
                  var more := ReceiveAll(rest, end, max, maxInt);
                  ReceiveAll(p, end, max, maxInt) == ([r.value] + more.0, more.1))
  {
  }

  method ReceiveStream(chunks: seq<Bytes>, end: Error, max: int, maxInt: nat) returns (ms: seq<Message>, err: Error)
    ensures (ms, err) == ReceiveAll(Concat(chunks), end, max, maxInt)
  {
    hide Receive, ReceiveAll, Concat;
    var parser := new Parser(chunks, end, maxInt);
    ms, err := [], end;
    ghost var rest := ReceiveAll(Concat(chunks), end, max, maxInt);
    assert ms + rest.0 == rest.0;
    while true
      invariant parser.Valid() && parser.er.None? && parser.end == end && parser.maxInt == maxInt
      invariant ReceiveAll(parser.Pending(), end, max, maxInt) == rest
      invariant ReceiveAll(Concat(chunks), end, max, maxInt) == (ms + rest.0, rest.1)
      decreases |parser.Pending()|
    {
      ReceiveAllStep(parser.Pending(), end, max, maxInt);
      var r := parser.RecvMsg(max);
      if r.Err? {
        assert ms + rest.0 == ms;
        return ms, r.error;
      }
      ghost var rest' := ReceiveAll(parser.Pending(), end, max, maxInt);
      assert ms + ([r.value] + rest'.0) == (ms + [r.value]) + rest'.0;
      ms, rest := ms + [r.value], rest';
    }
  }

  /** The message can be sent and is let in. */
  predicate Fits(m: Message, max: int, maxInt: nat) {
    |m.payload| < 0x1_0000_0000 && |m.payload| <= maxInt && |m.payload| <= max
  }

  lemma FrameFirst(m: Message, tail: Bytes, end: Error, max: int, maxInt: nat)
    requires Fits(m, max, maxInt)
    ensures Receive(Frame(m) + tail, end, max, maxInt) == (Ok(m), tail, None)
  {
    var p := Frame(m) + tail;
    LengthFits(m);
    assert p[1..5] == Frame(m)[1..5];
    assert p[5..5 + |m.payload|] == m.payload && p[5 + |m.payload|..] == tail;
  }

  /** Messages framed one after the other come back first, whatever follows. */
  lemma {:induction false} FramesFirst(ms: seq<Message>, tail: Bytes, end: Error, max: int, maxInt: nat)
    requires forall i :: 0 <= i < |ms| ==> Fits(ms[i], max, maxInt)
    ensures var (rest, err) := ReceiveAll(tail, end, max, maxInt);
            ReceiveAll(Frames(ms) + tail, end, max, maxInt) == (ms + rest, err)
  {
    hide Receive, Frame;
    var (rest, err) := ReceiveAll(tail, end, max, maxInt);
    if ms == [] {
      assert Frames(ms) + tail == tail && ms + rest == rest;
    } else {
      FramesFirst(ms[1..], tail, end, max, maxInt);
      FrameFirst(ms[0], Frames(ms[1..]) + tail, end, max, maxInt);
      assert Frames(ms) + tail == Frame(ms[0]) + (Frames(ms[1..]) + tail);
      assert [ms[0]] + (ms[1..] + rest) == ms + rest;
    }
  }

  /** A stream cut inside a message gives the messages before it and then an unexpected end, never a clean one. */
  lemma CutInside(ms: seq<Message>, m: Message, k: nat, max: int, maxInt: nat)
    requires forall i :: 0 <= i < |ms| ==> Fits(ms[i], max, maxInt)
    requires Fits(m, max, maxInt) && 0 < k < |Frame(m)|
    ensures ReceiveAll(Frames(ms) + Frame(m)[..k], EOF, max, maxInt) == (ms, UnexpectedEOF)
  {
    FramesFirst(ms, Frame(m)[..k], EOF, max, maxInt);
    LengthFits(m);
    var p := Frame(m)[..k];
    assert k >= 5 ==> p[1..5] == Frame(m)[1..5];
    assert ms + [] == ms;
  }

  /** A message above the receive limit ends the stream with ResourceExhausted. */
  lemma TooLarge(ms: seq<Message>, m: Message, tail: Bytes, end: Error, max: int, maxInt: nat)
    requires forall i :: 0 <= i < |ms| ==> Fits(ms[i], max, maxInt)
    requires |m.payload| < 0x1_0000_0000 && !Fits(m, max, maxInt)
    ensures ReceiveAll(Frames(ms) + (Frame(m) + tail), end, max, maxInt) == (ms, ResourceExhausted)
  {
    FramesFirst(ms, Frame(m) + tail, end, max, maxInt);
    LengthFits(m);
    assert (Frame(m) + tail)[1..5] == Frame(m)[1..5];
    assert ms + [] == ms;
  }

  // ---------------------------------------------------------------- there and back

  /** However the bytes are cut into buffers on the way, the same messages arrive and then the end. */
  method RoundTrip(ms: seq<Message>, chunks: seq<Bytes>, max: int, maxInt: nat)
    returns (received: seq<Message>, err: Error)
    requires Concat(chunks) == Frames(ms) && forall i :: 0 <= i < |ms| ==> Fits(ms[i], max, maxInt)
    ensures received == ms && err == EOF
  {
    FramesFirst(ms, [], EOF, max, maxInt);
    assert Frames(ms) + [] == Frames(ms) && ms + [] == ms;
    received, err := ReceiveStream(chunks, EOF, max, maxInt);
  }
}
