// The askpass wire format (internal/privileged/protocol.go): a fixed 28-byte
// header and a payload, written and read through calls that may move any number
// of bytes at a time.

module Bytes {
  type Byte = b: int | 0 <= b < 256

  function BigEndian32(n: nat): (s: seq<Byte>)
    requires n < 0x1_0000_0000
    ensures |s| == 4
  {
    [n / 0x100_0000, n / 0x1_0000 % 256, n / 256 % 256, n % 256]
  }

  function FromBigEndian32(s: seq<Byte>): (n: nat)
    requires |s| == 4
    ensures n < 0x1_0000_0000
  {
    var a: int, b: int, c: int, d: int := s[0], s[1], s[2], s[3];
    a * 0x100_0000 + b * 0x1_0000 + c * 256 + d
  }

  lemma BigEndian32Inverse(n: nat, s: seq<Byte>)
    requires |s| == 4
    ensures n < 0x1_0000_0000 ==> FromBigEndian32(BigEndian32(n)) == n
    ensures BigEndian32(FromBigEndian32(s)) == s
  {
    if n < 0x1_0000_0000 {
      Rejoined(n);
    }
    Separated(s[0], s[1], s[2], s[3]);
  }

  lemma Rejoined(n: nat)
    ensures n / 0x100_0000 * 0x100_0000 + n / 0x1_0000 % 256 * 0x1_0000 + n / 256 % 256 * 256 + n % 256 == n
  {
    assert n / 0x1_0000 == n / 0x100_0000 * 256 + n / 0x1_0000 % 256;
    assert n / 256 == n / 0x1_0000 * 256 + n / 256 % 256;
  }

  lemma Separated(a: int, b: int, c: int, d: int)
    requires 0 <= a < 256 && 0 <= b < 256 && 0 <= c < 256 && 0 <= d < 256
    ensures
      var m := a * 0x100_0000 + b * 0x1_0000 + c * 256 + d;
      m / 0x100_0000 == a && m / 0x1_0000 % 256 == b && m / 256 % 256 == c && m % 256 == d
  {
    var m := a * 0x100_0000 + b * 0x1_0000 + c * 256 + d;
    assert m / 256 == a * 0x1_0000 + b * 256 + c;
    assert m / 0x1_0000 == a * 256 + b;
    assert m / 0x100_0000 == a;
  }

  // Section 4 of RFC 3629: the octet sequences of one encoded character.
  predicate Tail(b: Byte) {
    0x80 <= b <= 0xBF
  }

  function CharLength(s: seq<Byte>): (n: nat)
    ensures n <= |s| && n <= 4
  {
    if s == [] then 0
    else if s[0] <= 0x7F then 1
    else if |s| < 2 then 0
    else if 0xC2 <= s[0] <= 0xDF && Tail(s[1]) then 2
    else if |s| < 3 || !Tail(s[2]) then 0
    else if s[0] == 0xE0 && 0xA0 <= s[1] <= 0xBF then 3
    else if (0xE1 <= s[0] <= 0xEC || 0xEE <= s[0] <= 0xEF) && Tail(s[1]) then 3
    else if s[0] == 0xED && 0x80 <= s[1] <= 0x9F then 3
    else if |s| < 4 || !Tail(s[3]) then 0
    else if s[0] == 0xF0 && 0x90 <= s[1] <= 0xBF then 4
    else if 0xF1 <= s[0] <= 0xF3 && Tail(s[1]) then 4
    else if s[0] == 0xF4 && 0x80 <= s[1] <= 0x8F then 4
    else 0
  }

  predicate ValidUtf8(s: seq<Byte>) {
    s == [] || (CharLength(s) > 0 && ValidUtf8(s[CharLength(s)..]))
  }
}

module Protocol {
  import opened Bytes
  import opened Packages

  const FRAME_SIZE := 28
  const MAX_PASSWORD_BYTES := 1024
  const REQUEST: Byte := 1
  const PASSWORD: Byte := 2
  const CANCEL: Byte := 3
  const ERROR: Byte := 4
  const MAGIC: seq<Byte> := [0x4C, 0x42, 0x41, 0x50]

  type RequestId = id: seq<Byte> | |id| == 16 witness seq(16, i => 0)

  datatype Frame = Frame(typ: Byte, id: RequestId, payload: seq<Byte>)

  predicate ValidFrame(typ: Byte, length: nat) {
    if typ == REQUEST || typ == CANCEL || typ == ERROR then length == 0
    else typ == PASSWORD && length <= MAX_PASSWORD_BYTES
  }

  // What writeFrame agrees to put on the wire.
  predicate Sendable(f: Frame) {
    ValidFrame(f.typ, |f.payload|) && (f.typ == PASSWORD ==> ValidUtf8(f.payload))
  }

  function Header(f: Frame): (h: seq<Byte>)
    requires Sendable(f)
    ensures |h| == FRAME_SIZE
  {
    MAGIC + [1, f.typ, 0, 0] + f.id + BigEndian32(|f.payload|)
  }

  function Encode(f: Frame): seq<Byte>
    requires Sendable(f)
  {
    Header(f) + f.payload
  }

  // The type and payload length a header announces, when it is well formed.
  predicate HeaderOk(h: seq<Byte>)
    requires |h| == FRAME_SIZE
  {
    && h[..4] == MAGIC && h[4] == 1 && h[6] == 0 && h[7] == 0
    && ValidFrame(h[5], FromBigEndian32(h[24..]))
  }

  // The frame at the front of a stream and what follows it.
  function Decode(s: seq<Byte>): Option<(Frame, seq<Byte>)> {
    if |s| < FRAME_SIZE || !HeaderOk(s[..FRAME_SIZE]) then None
    else
      var end := FRAME_SIZE + FromBigEndian32(s[24..FRAME_SIZE]);
      if |s| < end then None
      else
        var f := Frame(s[5], s[8..24], s[FRAME_SIZE..end]);
        if f.typ == PASSWORD && !ValidUtf8(f.payload) then None
        else Some((f, s[end..]))
  }

  // Reading what was written gives the frame back and leaves the rest.
  lemma DecodeEncode(f: Frame, rest: seq<Byte>)
    requires Sendable(f)
    ensures Decode(Encode(f) + rest) == Some((f, rest))
  {
    var s := Encode(f) + rest;
    var n := |f.payload|;
    assert s == MAGIC + [1, f.typ, 0, 0] + f.id + BigEndian32(n) + f.payload + rest;
    BigEndian32Inverse(n, BigEndian32(n));
    assert s[24..FRAME_SIZE] == BigEndian32(n);
    assert s[..FRAME_SIZE][24..] == s[24..FRAME_SIZE];
    assert s[..FRAME_SIZE][..4] == MAGIC;
    assert s[8..24] == f.id;
    assert s[FRAME_SIZE..FRAME_SIZE + n] == f.payload;
    assert s[FRAME_SIZE + n..] == rest;
  }

  // Every accepted byte string is the encoding of the frame it was read as.
  lemma EncodeDecode(s: seq<Byte>)
    requires Decode(s).Some?
    ensures var (f, rest) := Decode(s).value; Sendable(f) && s == Encode(f) + rest
  {
    var (f, rest) := Decode(s).value;
    BigEndian32Inverse(0, s[24..FRAME_SIZE]);
    var h := s[..FRAME_SIZE];
    assert h[24..] == s[24..FRAME_SIZE];
    assert h == h[..4] + [h[4], h[5], h[6], h[7]] + h[8..24] + h[24..];
    assert h == Header(f);
    assert s == h + s[FRAME_SIZE..FRAME_SIZE + |f.payload|] + rest;
  }

  // The codec is a bijection between sendable frames and the streams it accepts,
  // and no encoding is a proper prefix of another.
  lemma EncodeInjective(f: Frame, g: Frame, rest: seq<Byte>)
    requires Sendable(f) && Sendable(g) && Encode(f) == Encode(g) + rest
    ensures f == g && rest == []
  {
    DecodeEncode(f, []);
    DecodeEncode(g, rest);
    assert Encode(f) + [] == Encode(f);
  }

  // A connection's sending half. Each write may take any part of what it is
  // given and may fail, whatever it took.
  class Writer {
    var sent: seq<Byte>

    constructor ()
      ensures sent == []
    {
      sent := [];
    }

    method Write(p: seq<Byte>) returns (n: nat, err: bool)
      modifies this
      ensures n <= |p| && sent == old(sent) + p[..n]
    {
      n :| n <= |p|;
      err := *;
      sent := sent + p[..n];
    }

    method WriteExact(p: seq<Byte>) returns (ok: bool)
      modifies this
      ensures exists k :: 0 <= k <= |p| && sent == old(sent) + p[..k]
      ensures ok ==> sent == old(sent) + p
    {
      var left := p;
      ghost var k := 0;
      while |left| > 0
        invariant 0 <= k <= |p| && left == p[k..] && sent == old(sent) + p[..k]
        decreases |left|
      {
        var n, err := Write(left);
        assert p[..k] + left[..n] == p[..k + n];
        k := k + n;
        left := left[n..];
        if err || n == 0 {
          return false;
        }
      }
      assert p[..k] == p;
      ok := true;
    }

    // A frame that may not be sent puts nothing on the wire; otherwise some
    // prefix of its encoding is written, and all of it on success.
    method WriteFrame(f: Frame) returns (ok: bool)
      modifies this
      ensures !Sendable(f) ==> !ok && sent == old(sent)
      ensures ok ==> Sendable(f) && sent == old(sent) + Encode(f)
      ensures Sendable(f) ==> exists k :: 0 <= k <= |Encode(f)| && sent == old(sent) + Encode(f)[..k]
    {
      if !ValidFrame(f.typ, |f.payload|) {
        return false;
      }
      if f.typ == PASSWORD && !ValidUtf8(f.payload) {
        return false;
      }
      var header := MAGIC + [1, f.typ, 0, 0] + f.id + BigEndian32(|f.payload|);
      assert header == Header(f);
      ok := WriteExact(header);
      if !ok {
        ghost var k :| 0 <= k <= |header| && sent == old(sent) + header[..k];
        assert header[..k] == Encode(f)[..k];
        return;
      }
      assert Encode(f)[..FRAME_SIZE] == header;
      ok := WriteExact(f.payload);
      ghost var k :| 0 <= k <= |f.payload| && sent == old(sent) + header + f.payload[..k];
      assert header + f.payload[..k] == Encode(f)[..FRAME_SIZE + k];
      assert sent == old(sent) + Encode(f)[..FRAME_SIZE + k];
    }
  }

  datatype Status = Fine | Eof | Broken

  // A connection's receiving half. Each read yields some of the bytes the peer
  // sent, end of file once they are used up, or, unless `reliable`, a failure.
  class Reader {
    var rest: seq<Byte>
    const reliable: bool

    constructor (stream: seq<Byte>, reliable: bool)
      ensures rest == stream && this.reliable == reliable
    {
      rest := stream;
      this.reliable := reliable;
    }

    method Read(limit: nat) returns (chunk: seq<Byte>, status: Status)
      requires limit > 0
      modifies this
      ensures old(rest) == chunk + rest && |chunk| <= limit
      ensures status == Fine <==> chunk != []
      ensures status == Eof ==> rest == []
      ensures reliable ==> status != Broken
    {
      var fails: bool := *;
      if fails && !reliable {
        return [], Broken;
      }
      if rest == [] {
        return [], Eof;
      }
      var n :| 0 < n <= limit && n <= |rest|;
      chunk, status := rest[..n], Fine;
      rest := rest[n..];
    }

    method ReadFull(n: nat) returns (buffer: seq<Byte>, ok: bool)
      modifies this
      ensures old(rest) == buffer + rest
      ensures ok ==> |buffer| == n
      ensures reliable ==> (ok <==> |old(rest)| >= n)
    {
      buffer := [];
      while |buffer| < n
        invariant |buffer| <= n && old(rest) == buffer + rest
        decreases n - |buffer|
      {
        var chunk, status := Read(n - |buffer|);
        buffer := buffer + chunk;
        if status != Fine {
          return buffer, false;
        }
      }
      ok := true;
    }

    method ReadFrame() returns (f: Option<Frame>)
      modifies this
      ensures f.Some? ==> Decode(old(rest)) == Some((f.value, rest))
      ensures reliable && Decode(old(rest)).Some? ==> f.Some?
    {
      ghost var stream := rest;
      var header, ok := ReadFull(FRAME_SIZE);
      if !ok {
        return None;
      }
      assert stream[..FRAME_SIZE] == header;
      assert stream[24..FRAME_SIZE] == header[24..];
      if header[..4] != MAGIC || header[4] != 1 || header[6] != 0 || header[7] != 0 {
        return None;
      }
      var typ, length := header[5], FromBigEndian32(header[24..]);
      if !ValidFrame(typ, length) {
        return None;
      }
      var id := header[8..24];
      assert stream[8..24] == id;
      var payload;
      payload, ok := ReadFull(length);
      if !ok {
        return None;
      }
      assert stream == header + payload + rest;
      assert stream[FRAME_SIZE..FRAME_SIZE + length] == payload;
      assert stream[FRAME_SIZE + length..] == rest;
      if typ == PASSWORD && !ValidUtf8(payload) {
        return None;
      }
      f := Some(Frame(typ, id, payload));
    }

    method RequireEof() returns (ok: bool)
      modifies this
      ensures ok ==> old(rest) == [] && rest == []
      ensures reliable ==> (ok <==> old(rest) == [])
    {
      var extra, status := Read(1);
      ok := extra == [] && status == Eof;
    }

    // Setting a deadline can fail only on an unreliable connection.
    method SetDeadline() returns (ok: bool)
      ensures reliable ==> ok
    {
      var fails: bool := *;
      ok := reliable || !fails;
    }

    // A request is accepted exactly when the whole stream is one REQUEST frame.
    method ReadRequest() returns (id: Option<RequestId>)
      modifies this
      ensures id.Some? ==> old(rest) == Encode(Frame(REQUEST, id.value, []))
      ensures reliable ==>
        (id.Some? <==> exists r: RequestId :: old(rest) == Encode(Frame(REQUEST, r, [])))
    {
      ghost var stream := rest;
      var ok := SetDeadline();
      if !ok {
        return None;
      }
      var f := ReadFrame();
      ghost var decoded := Decode(stream);
      if decoded.Some? {
        EncodeDecode(stream);
      }
      forall r: RequestId | stream == Encode(Frame(REQUEST, r, []))
        ensures f.Some? || !reliable
        ensures f.Some? ==> f.value == Frame(REQUEST, r, []) && rest == []
      {
        DecodeEncode(Frame(REQUEST, r, []), []);
        assert stream + [] == stream;
      }
      if f.None? || f.value.typ != REQUEST || f.value.payload != [] {
        return None;
      }
      ok := SetDeadline();
      if !ok {
        return None;
      }
      assert stream == Encode(f.value) + rest;
      ok := RequireEof();
      if !ok {
        return None;
      }
      assert Encode(f.value) + [] == Encode(f.value);
      ok := SetDeadline();
      if !ok {
        return None;
      }
      id := Some(f.value.id);
    }
  }
}
