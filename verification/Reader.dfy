/** Data spread over several buffers and the reader over it (`mem/buffer_slice.go`).  A reader frees each
    buffer once it is past it; seen from outside it is a cursor over the concatenated bytes. */
module Reader {

  import opened Wrappers
  import opened ByteOrder

  /** A buffer: its identity and its bytes. */
  datatype Piece = Piece(id: nat, data: Bytes)

  function Flat(s: seq<Piece>): Bytes {
    if s == [] then [] else s[0].data + Flat(s[1..])
  }

  function Join(s: seq<Bytes>): Bytes {
    if s == [] then [] else Join(s[..|s| - 1]) + s[|s| - 1]
  }

  lemma JoinSnoc(s: seq<Bytes>, x: Bytes)
    ensures Join(s + [x]) == Join(s) + x
  {
    assert (s + [x])[..|s|] == s;
  }

  lemma {:induction false} FlatSnoc(s: seq<Piece>, n: nat)
    requires n < |s|
    ensures Flat(s[..n + 1]) == Flat(s[..n]) + s[n].data
  {
    if n > 0 {
      FlatSnoc(s[1..], n - 1);
      assert s[1..][..n] == s[..n + 1][1..] && s[1..][..n - 1] == s[..n][1..];
    } else {
      assert s[..1][1..] == [] && s[..0] == [];
    }
  }

  lemma {:induction false} FlatSplit(s: seq<Piece>, n: nat)
    requires n <= |s|
    ensures Flat(s) == Flat(s[..n]) + Flat(s[n..])
    decreases |s| - n
  {
    if n < |s| {
      FlatSplit(s, n + 1);
      FlatSnoc(s, n);
      assert s[n..][1..] == s[n + 1..];
    } else {
      assert s[..n] == s;
    }
  }

  /** What is left of the buffers from byte `idx` of the first. */
  ghost function Rest(data: seq<Piece>, idx: nat): Bytes {
    if data == [] || idx > |data[0].data| then [] else data[0].data[idx..] + Flat(data[1..])
  }

  lemma RestOfAll(data: seq<Piece>)
    ensures Rest(data, 0) == Flat(data)
  {
  }

  lemma RestPop(data: seq<Piece>)
    requires data != []
    ensures Rest(data, |data[0].data|) == Rest(data[1..], 0)
  {
    RestOfAll(data[1..]);
  }

  lemma RestAdvance(data: seq<Piece>, idx: nat, k: nat)
    requires data != [] && idx + k <= |data[0].data|
    ensures |Rest(data, idx)| >= |data[0].data| - idx
    ensures Rest(data, idx)[k..] == Rest(data, idx + k) && Rest(data, idx)[..k] == data[0].data[idx..idx + k]
  {
  }

  lemma NotEmpty(data: seq<Piece>, idx: nat)
    ensures Rest(data, idx) != [] ==> data != []
  {
  }

  /** What is left from buffer `i` on. */
  ghost function Tail(data: seq<Piece>, idx: nat, i: nat): Bytes
    requires i <= |data|
  {
    if i == 0 then Rest(data, idx) else Flat(data[i..])
  }

  lemma TailStep(data: seq<Piece>, idx: nat, i: nat)
    requires i < |data| && idx <= |data[0].data|
    ensures Tail(data, idx, i) == data[i].data[if i == 0 then idx else 0..] + Tail(data, idx, i + 1)
  {
    assert data[i..][1..] == data[i + 1..];
  }

  lemma TailStart(data: seq<Piece>, idx: nat)
    ensures Tail(data, idx, 0) == Rest(data, idx)
  {
  }

  lemma TailEnd(data: seq<Piece>, idx: nat)
    ensures Tail(data, idx, |data|) == []
  {
  }

  /** Taking `k` more bytes out of `d`, the first of what is left. */
  lemma TakeMore(pre: Bytes, taken: Bytes, d: Bytes, tail: Bytes, k: nat)
    requires k <= |d|
    ensures taken + d[..k] <= taken + (d + tail)
    ensures k == |d| ==> taken + (d + tail) == (taken + d[..k]) + tail
    ensures pre + taken + d[..k] == pre + (taken + d[..k])
  {
  }

  lemma DropDrop(s: Bytes, a: nat, b: nat)
    requires a + b <= |s|
    ensures s[a..][b..] == s[a + b..] && s[..a] + s[a..][..b] == s[..a + b]
  {
  }

  function Min(a: int, b: int): int {
    if a < b then a else b
  }

  // ---------------------------------------------------------------- buffer slices

  method Len(s: seq<Piece>) returns (length: nat)
    ensures length == |Flat(s)|
  {
    length := 0;
    for i := 0 to |s|
      invariant length == |Flat(s[..i])|
    {
      FlatSnoc(s, i);
      length := length + |s[i].data|;
    }
    assert s[..|s|] == s;
  }

  /** Go's `copy` into `dst[off..]`. */
  method Copy(dst: array<Byte>, off: nat, src: Bytes) returns (n: nat)
    requires off <= dst.Length
    modifies dst
    ensures n == Min(dst.Length - off, |src|)
    ensures dst[..off + n] == old(dst[..off]) + src[..n] && dst[off + n..] == old(dst[off + n..])
  {
    n := Min(dst.Length - off, |src|);
    for i := 0 to n
      invariant dst[..off] == old(dst[..off]) && dst[off..off + i] == src[..i] && dst[off + i..] == old(dst[off + i..])
    {
      dst[off + i] := src[i];
    }
    assert dst[..off + n] == dst[..off] + dst[off..off + n];
  }

  /** Copying `d` after `f` into `cap` bytes of space. */
  lemma TakeStep(f: Bytes, d: Bytes, cap: nat)
    ensures var off := Min(|f|, cap);
            var n := Min(cap - off, |d|);
            off + n == Min(|f + d|, cap) && (f + d)[..off + n] == f[..off] + d[..n]
  {
  }

  method CopyTo(s: seq<Piece>, dst: array<Byte>) returns (off: nat)
    modifies dst
    ensures off == Min(|Flat(s)|, dst.Length)
    ensures dst[..off] == Flat(s)[..off] && dst[off..] == old(dst[off..])
  {
    assert Flat(s[..0]) == [];
    hide Flat;
    off := 0;
    for i := 0 to |s|
      invariant off == Min(|Flat(s[..i])|, dst.Length)
      invariant dst[..off] == Flat(s[..i])[..off] && dst[off..] == old(dst[off..])
    {
      FlatSnoc(s, i);
      TakeStep(Flat(s[..i]), s[i].data, dst.Length);
      var n := Copy(dst, off, s[i].data);
      off := off + n;
    }
    assert s[..|s|] == s;
  }

  method Materialize(s: seq<Piece>) returns (out: Bytes)
    ensures out == Flat(s)
  {
    var l := Len(s);
    if l == 0 {
      return [];
    }
    var dst := new Byte[l](_ => 0);
    var n := CopyTo(s, dst);
    out := dst[..];
  }

  // ---------------------------------------------------------------- the reader

  class Reader {
    var data: seq<Piece>
    var len: nat
    var bufferIdx: nat

    /** The buffers on which `Free` was called, in order. */
    var freed: seq<Piece>

    /** What is left to read. */
    ghost function Unread(): Bytes
      reads this
    {
      Rest(data, bufferIdx)
    }

    /** The buffers freed and those still held. */
    ghost function Buffers(): seq<Piece>
      reads this`freed, this`data
    {
      freed + data
    }

    ghost predicate Valid()
      reads this
    {
      (data != [] ==> bufferIdx <= |data[0].data|) && len == |Unread()|
    }

    /** The reader takes a reference to each buffer. */
    constructor (s: seq<Piece>)
      ensures Valid() && Unread() == Flat(s) && data == s && freed == []
    {
      data, bufferIdx, freed := s, 0, [];
      new;
      RestOfAll(s);
      len := Len(s);
    }

    method Remaining() returns (n: nat)
      requires Valid()
      ensures n == |Unread()|
    {
      n := len;
    }

    /** Frees the buffers still held and starts over on new ones. */
    method Reset(s: seq<Piece>)
      modifies this
      ensures Valid() && Unread() == Flat(s) && data == s && freed == old(freed + data)
    {
      freed := freed + data;
      data, bufferIdx := s, 0;
      RestOfAll(s);
      len := Len(s);
    }

    method Close()
      modifies this
      ensures Valid() && Unread() == [] && data == [] && freed == old(freed + data)
    {
      freed := freed + data;
      data, len := [], 0;
    }

    method FreeFirstBufferIfEmpty() returns (done: bool)
      requires Valid()
      modifies this
      ensures Valid() && len == old(len) && Unread() == old(Unread()) && Buffers() == old(Buffers())
      ensures done <==> old(data != [] && bufferIdx == |data[0].data|)
      ensures done ==> data == old(data)[1..]
      ensures !done ==> data == old(data) && bufferIdx == old(bufferIdx)
    {
      if data == [] || bufferIdx != |data[0].data| {
        return false;
      }
      hide Flat, Rest;
      RestPop(data);
      freed := freed + [data[0]];
      data, bufferIdx := data[1..], 0;
      assert freed + data == old(freed + data);
      done := true;
    }

    /** Fills `buf` from the front with the next bytes, as many as fit. */
    method Read(buf: array<Byte>) returns (n: nat, eof: bool)
      requires Valid()
      modifies this, buf
      ensures Valid() && Buffers() == old(Buffers())
      ensures eof <==> old(Unread()) == []
      ensures n == Min(buf.Length, |old(Unread())|)
      ensures buf[..n] == old(Unread())[..n] && buf[n..] == old(buf[n..]) && Unread() == old(Unread())[n..]
    {
      hide Flat, Rest, Reader.Buffers;
      n, eof := 0, len == 0;
      if eof {
        return;
      }
      while n < buf.Length && len != 0
        invariant Valid() && Buffers() == old(Buffers())
        invariant n <= buf.Length && n + len == |old(Unread())|
        invariant buf[..n] == old(Unread())[..n] && buf[n..] == old(buf[n..]) && Unread() == old(Unread())[n..]
        decreases len, |data|
      {
        NotEmpty(data, bufferIdx);
        var copied := Copy(buf, n, data[0].data[bufferIdx..]);
        RestAdvance(data, bufferIdx, copied);
        DropDrop(old(Unread()), n, copied);
        assert data[0].data[bufferIdx..][..copied] == data[0].data[bufferIdx..bufferIdx + copied];
        len := len - copied;
        bufferIdx := bufferIdx + copied;
        n := n + copied;
        var done := FreeFirstBufferIfEmpty();
      }
    }

    method ReadByte() returns (b: Byte, eof: bool)
      requires Valid()
      modifies this
      ensures Valid() && Buffers() == old(Buffers())
      ensures eof <==> old(Unread()) == []
      ensures eof ==> data == old(data) && Unread() == []
      ensures !eof ==> b == old(Unread())[0] && Unread() == old(Unread())[1..]
    {
      hide Flat, Rest, Reader.Buffers;
      if len == 0 {
        return 0, true;
      }
      var done := FreeFirstBufferIfEmpty();
      while done
        invariant Valid() && Buffers() == old(Buffers()) && Unread() == old(Unread())
        invariant !done ==> data == [] || bufferIdx != |data[0].data|
        decreases done, |data|
      {
        done := FreeFirstBufferIfEmpty();
      }
      NotEmpty(data, bufferIdx);
      RestAdvance(data, bufferIdx, 1);
      b, eof := data[0].data[bufferIdx], false;
      len := len - 1;
      bufferIdx := bufferIdx + 1;
      done := FreeFirstBufferIfEmpty();
    }

    /** Goes on by `k` bytes of the first buffer and frees it at its end. */
    method SkipInFirst(k: nat) returns (ghost taken: Bytes)
      requires Valid() && data != [] && bufferIdx + k <= |data[0].data|
      modifies this
      ensures Valid() && Buffers() == old(Buffers())
      ensures |taken| == k && old(Unread()) == taken + Unread()
      ensures data == if old(bufferIdx) + k == |old(data)[0].data| then old(data)[1..] else old(data)
    {
      hide Flat, Rest;
      RestAdvance(data, bufferIdx, k);
      taken := Unread()[..k];
      assert Unread() == taken + Unread()[k..];
      len := len - k;
      bufferIdx := bufferIdx + k;
      if bufferIdx >= |data[0].data| {
        RestPop(data);
        assert freed + data == (freed + [data[0]]) + data[1..];
        freed := freed + [data[0]];
        data, bufferIdx := data[1..], 0;
      }
    }

    /** Skips up to `n` bytes; an error when there are fewer. */
    method Discard(n: int) returns (discarded: nat, ok: bool)
      requires Valid()
      modifies this
      ensures Valid() && Buffers() == old(Buffers())
      ensures discarded == if n < 0 then 0 else Min(n, |old(Unread())|)
      ensures Unread() == old(Unread())[discarded..]
      ensures ok <==> n <= |old(Unread())|
    {
      hide Flat, Rest, Reader.Buffers;
      var left := n;
      ghost var all, skipped: Bytes := Unread(), [];
      while left > 0 && len > 0
        invariant Valid() && Buffers() == old(Buffers())
        invariant left == n - |skipped| && (left < 0 ==> left == n)
        invariant all == skipped + Unread()
        decreases len, |data|
      {
        NotEmpty(data, bufferIdx);
        var curSize := Min(left, |data[0].data| - bufferIdx);
        ghost var taken := SkipInFirst(curSize);
        assert all == (skipped + taken) + Unread();
        skipped, left := skipped + taken, left - curSize;
      }
      discarded := n - left;
      ok := left <= 0;
    }

    /** The next `n` bytes as non-empty views, appended to `res`; an error when there are fewer. */
    method Peek(n: int, res: seq<Bytes>) returns (r: Option<seq<Bytes>>)
      requires Valid()
      ensures r.Some? <==> n <= |Unread()|
      ensures r.Some? ==> && res <= r.value && Join(r.value) == Join(res) + Unread()[..if n < 0 then 0 else n]
                          && forall i :: |res| <= i < |r.value| ==> r.value[i] != []
    {
      hide Flat, Rest;
      hide Tail, Join;
      var out, left, i := res, n, 0;
      ghost var taken: Bytes := [];
      assert Tail(data, bufferIdx, 0) == Unread() by { TailStart(data, bufferIdx); }
      while left > 0 && i < |data|
        invariant i <= |data| && (left < 0 ==> left == n) && |taken| == n - left
        invariant res <= out && forall k :: |res| <= k < |out| ==> out[k] != []
        invariant taken <= Unread() && Join(out) == Join(res) + taken
        invariant left > 0 ==> Unread() == taken + Tail(data, bufferIdx, i)
      {
        TailStep(data, bufferIdx, i);
        var curData := data[i].data;
        var start := if i == 0 then bufferIdx else 0;
        var curSize := Min(left, |curData| - start);
        i := i + 1;
        if curSize == 0 {
          continue;
        }
        var view := curData[start..start + curSize];
        assert view == curData[start..][..curSize];
        JoinSnoc(out, view);
        TakeMore(Join(res), taken, curData[start..], Tail(data, bufferIdx, i), curSize);
        out, left, taken := out + [view], left - curSize, taken + view;
      }
      if left > 0 {
        TailEnd(data, bufferIdx);
        return None;
      }
      r := Some(out);
    }

    method Do(op: Op) returns (reply: Reply)
      requires Valid()
      modifies this
      ensures Valid() && Buffers() == old(Buffers())
      ensures (reply, Unread()) == Answer(old(Unread()), op)
    {
      hide Rest, Flat, Reader.Buffers;
      match op {
        case Fill(size) =>
          var buf := new Byte[size](_ => 0);
          var n, eof := Read(buf);
          reply := if eof then Eof else Got(buf[..n], len);
        case One =>
          var b, eof := ReadByte();
          assert !eof ==> old(Unread())[..1] == [b];
          reply := if eof then Eof else Got([b], len);
        case Skip(n) =>
          var k, ok := Discard(n);
          reply := Skipped(k, ok, len);
        case Look(n) =>
          var views := Peek(n, []);
          assert views.Some? ==> Join(views.value) == Unread()[..if n < 0 then 0 else n];
          reply := if views.Some? then Got(Join(views.value), len) else TooFew;
      }
    }
  }

  // ---------------------------------------------------------------- any interleaving

  datatype Op = Fill(size: nat) | One | Skip(n: int) | Look(n: int)

  /** A reply, with the count of bytes that remain. */
  datatype Reply = Got(bytes: Bytes, remaining: nat) | Eof | Skipped(count: nat, ok: bool, remaining: nat) | TooFew

  /** A cursor over a flat sequence of bytes. */
  function Answer(rest: Bytes, op: Op): (Reply, Bytes) {
    match op
    case Fill(size) =>
      if rest == [] then (Eof, rest) else
        var n := Min(size, |rest|);
        (Got(rest[..n], |rest| - n), rest[n..])
    case One => if rest == [] then (Eof, rest) else (Got(rest[..1], |rest| - 1), rest[1..])
    case Skip(n) =>
      var k := if n < 0 then 0 else Min(n, |rest|);
      (Skipped(k, n <= |rest|, |rest| - k), rest[k..])
    case Look(n) => (if n <= |rest| then Got(rest[..if n < 0 then 0 else n], |rest|) else TooFew, rest)
  }

  function Answers(rest: Bytes, ops: seq<Op>): seq<Reply> {
    if ops == [] then [] else
      var (reply, rest') := Answer(rest, ops[0]);
      [reply] + Answers(rest', ops[1..])
  }

  /** Over any list of buffers, empty ones included, any operations answer as the flat cursor does, and
      closing the reader leaves every buffer freed once. */
  method AnyReads(s: seq<Piece>, ops: seq<Op>) returns (replies: seq<Reply>, freed: seq<Piece>)
    ensures replies == Answers(Flat(s), ops)
    ensures freed == s
  {
    var r := new Reader(s);
    replies := [];
    assert ops[0..] == ops;
    for i := 0 to |ops|
      invariant r.Valid() && r.freed + r.data == s
      invariant Answers(Flat(s), ops) == replies + Answers(r.Unread(), ops[i..])
    {
      assert ops[i..][1..] == ops[i + 1..];
      var reply := r.Do(ops[i]);
      replies := replies + [reply];
    }
    r.Close();
    freed := r.freed;
  }
}
