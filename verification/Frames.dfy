/**
 The wire framing (`proto.rs`, `rpc_client.ml`): a four-byte big-endian length and a body, read
 from a stream that may deliver any number of bytes at a time.
 */
module Frames {
  import opened Base64

  const MAX_FRAME: nat := 8 * 1024 * 1024
  const U32_BOUND: nat := 0x1_0000_0000

  /** `(len as u32).to_be_bytes()`; the shell shifts and masks the same four bytes out. */
  function Header(len: nat): (h: seq<byte>)
    ensures |h| == 4
  {
    [len / 0x100_0000 % 256, len / 0x1_0000 % 256, len / 0x100 % 256, len % 256]
  }

  function Length(h: seq<byte>): nat
    requires |h| == 4
  {
    var a: int, b: int, c: int, d: int := h[0], h[1], h[2], h[3];
    ((a * 256 + b) * 256 + c) * 256 + d
  }

  lemma {:induction false} LengthOfHeader(len: nat)
    ensures Length(Header(len)) == len % U32_BOUND
  {
    var q, r := len / U32_BOUND, len % U32_BOUND;
    var a, b, c, d := r / 0x100_0000, r / 0x1_0000 % 256, r / 0x100 % 256, r % 256;
    assert r == 0x1_0000 * (r / 0x1_0000) + r % 0x1_0000;
    DivUnique(r / 0x100, 0x100, r / 0x1_0000, r / 0x100 % 256);
    HeaderByte(len, 0x100_0000, 0x100);
    HeaderByte(len, 0x1_0000, 0x1_0000);
    HeaderByte(len, 0x100, 0x100_0000);
    HeaderByte(len, 1, U32_BOUND);
    Recompose(r);
  }

  /** A byte of the length is a byte of its 32-bit remainder. */
  lemma {:induction false} HeaderByte(len: nat, d: nat, k: nat)
    requires d > 0 && k % 256 == 0 && d * k == U32_BOUND
    ensures len / d % 256 == len % U32_BOUND / d % 256
  {
    var q, r := len / U32_BOUND, len % U32_BOUND;
    assert len == d * (k * q) + r by { assert d * k * q == d * (k * q); }
    assert r == d * (r / d) + r % d;
    assert len == d * (k * q + r / d) + r % d by { assert d * (k * q + r / d) == d * (k * q) + d * (r / d); }
    DivUnique(len, d, k * q + r / d, r % d);
    var m := k / 256;
    assert k == 256 * m;
    var x := r / d;
    assert k * q == 256 * (m * q);
    DivUnique(k * q + x, 256, m * q + x / 256, x % 256);
  }

  lemma {:induction false} Recompose(r: nat)
    requires r < U32_BOUND
    ensures ((r / 0x100_0000 % 256 * 256 + r / 0x1_0000 % 256) * 256 + r / 0x100 % 256) * 256 + r % 256 == r
  {
    var x := r / 0x100;
    var y := x / 0x100;
    DivUnique(r, 0x1_0000, y, x % 0x100 * 0x100 + r % 0x100);
    DivUnique(r, 0x100_0000, y / 0x100, y % 0x100 * 0x1_0000 + x % 0x100 * 0x100 + r % 0x100);
    DivUnique(y / 0x100, 256, 0, y / 0x100);
  }

  function WriteFrame(body: seq<byte>): seq<byte> { Header(|body|) + body }

  // ---- reading from a complete byte string ----

  /** A clean end of stream, a protocol error, or one frame and what follows it. */
  datatype Frame = Eof | Error | Frame(body: seq<byte>, rest: seq<byte>)

  function Parse(s: seq<byte>): Frame
  {
    if s == [] then Eof
    else if |s| < 4 then Error
    else
      var len := Length(s[..4]);
      if len > MAX_FRAME || |s| - 4 < len then Error
      else Frame(s[4..4 + len], s[4 + len..])
  }

  // ---- reading from a stream ----

  /**
   A stream still holding `data`. `script` decides the chunking: 0 is an interrupted read, any
   other number bounds one read; past its end a read gives all it is asked for.
   */
  class Source {
    var data: seq<byte>
    var script: seq<nat>

    constructor (data: seq<byte>, script: seq<nat>)
      ensures this.data == data && this.script == script
    {
      this.data, this.script := data, script;
    }

    /** One `read` into a buffer of `max` bytes; `None` is an interruption. Zero bytes mean the end. */
    method Read(max: nat) returns (r: Text.Option<seq<byte>>)
      requires max > 0
      modifies this
      ensures r.None? ==> data == old(data) && |script| < |old(script)|
      ensures r.Some? ==> |script| <= |old(script)| && old(data) == r.value + data && |r.value| <= max
      ensures r.Some? ==> (r.value == [] <==> old(data) == [])
    {
      var n := max;
      if script != [] {
        n := script[0];
        script := script[1..];
        if n == 0 { return Text.None; }
      }
      n := if n < max then n else max;
      n := if n < |data| then n else |data|;
      r := Text.Some(data[..n]);
      data := data[n..];
    }

    /** `read_exact`: fills the buffer, retrying interruptions, or reports the end. */
    method ReadExact(len: nat) returns (buf: seq<byte>, ok: bool)
      modifies this
      ensures ok <==> |old(data)| >= len
      ensures ok ==> buf == old(data)[..len] && data == old(data)[len..]
    {
      buf := [];
      while |buf| < len
        invariant |buf| <= len && buf + data == old(data)
        decreases len - |buf|, |script|
      {
        var r := Read(len - |buf|);
        if r.Some? {
          if r.value == [] { return buf, false; }
          buf := buf + r.value;
        }
      }
      ok := true;
    }

    /** `read_frame`. Whatever the chunking, it reads what `Parse` finds at the head of the stream. */
    method ReadFrame() returns (f: Frame)
      modifies this
      ensures f == Parse(old(data))
      ensures f.Frame? ==> data == f.rest
    {
      var lenb: seq<byte> := [];
      while |lenb| < 4
        invariant |lenb| <= 4 && lenb + data == old(data)
        decreases 4 - |lenb|, |script|
      {
        var r := Read(4 - |lenb|);
        if r.Some? {
          if r.value == [] {
            return if |lenb| == 0 then Eof else Error;
          }
          lenb := lenb + r.value;
        }
      }
      assert old(data)[..4] == lenb && old(data)[4..] == data;
      var len := Length(lenb);
      if len > MAX_FRAME { return Error; }
      ghost var tail := data;
      var body, ok := ReadExact(len);
      if !ok { return Error; }
      assert old(data)[4..4 + len] == tail[..len] && old(data)[4 + len..] == tail[len..];
      f := Frame(body, data);
    }
  }

  // ---- whole streams ----

  function Stream(bodies: seq<seq<byte>>): seq<byte>
  {
    if bodies == [] then [] else WriteFrame(bodies[0]) + Stream(bodies[1..])
  }

  /** Reading frames until the stream ends: the bodies, and whether the end was clean. */
  function Drain(s: seq<byte>): (seq<seq<byte>>, bool)
    decreases |s|
  {
    var f := Parse(s);
    match f
    case Eof => ([], true)
    case Error => ([], false)
    case Frame(body, rest) => var d := Drain(rest); ([body] + d.0, d.1)
  }

  predicate Fits(body: seq<byte>) { |body| <= MAX_FRAME }

  lemma {:induction false} ParseWritten(body: seq<byte>, rest: seq<byte>)
    requires Fits(body)
    ensures Parse(WriteFrame(body) + rest) == Frame(body, rest)
  {
    var s := WriteFrame(body) + rest;
    hide Header, Length;
    LengthOfHeader(|body|);
    assert s[..4] == Header(|body|) && s[4..] == body + rest;
    assert s[4..4 + |body|] == body && s[4 + |body|..] == rest;
  }

  /** Any list of bodies within the limit reads back, in order, up to whatever follows. */
  lemma {:induction false} DrainStream(bodies: seq<seq<byte>>, after: seq<byte>)
    requires forall i :: 0 <= i < |bodies| ==> Fits(bodies[i])
    ensures Drain(Stream(bodies) + after) == (bodies + Drain(after).0, Drain(after).1)
  {
    hide Parse, WriteFrame, Fits;
    if bodies == [] {
      assert Stream(bodies) + after == after && bodies + Drain(after).0 == Drain(after).0;
    } else {
      var more := Stream(bodies[1..]) + after;
      assert Stream(bodies) + after == WriteFrame(bodies[0]) + more;
      ParseWritten(bodies[0], more);
      DrainStream(bodies[1..], after);
      assert [bodies[0]] + (bodies[1..] + Drain(after).0) == bodies + Drain(after).0;
    }
  }

  /** Frames that were all sent are all read, and the end is clean. */
  lemma {:induction false} FramesReadBack(bodies: seq<seq<byte>>)
    requires forall i :: 0 <= i < |bodies| ==> Fits(bodies[i])
    ensures Drain(Stream(bodies)) == (bodies, true)
  {
    DrainStream(bodies, []);
    assert Drain([]) == ([], true);
    assert Stream(bodies) + [] == Stream(bodies) && bodies + [] == bodies;
  }

  /**
   A stream cut anywhere inside a frame, header or body, gives the frames before the cut and
   then an error: never a clean end, never a shortened frame.
   */
  lemma {:induction false} CutIsAnError(bodies: seq<seq<byte>>, last: seq<byte>, cut: nat)
    requires forall i :: 0 <= i < |bodies| ==> Fits(bodies[i])
    requires Fits(last) && 0 < cut < |WriteFrame(last)|
    ensures Drain(Stream(bodies) + WriteFrame(last)[..cut]) == (bodies, false)
  {
    var tail := WriteFrame(last)[..cut];
    DrainStream(bodies, tail);
    if cut >= 4 {
      assert tail[..4] == Header(|last|);
      LengthOfHeader(|last|);
    }
    assert Parse(tail) == Error;
    assert bodies + [] == bodies;
  }
}
