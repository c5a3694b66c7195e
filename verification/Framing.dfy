// Length-prefixed PDUs on a byte stream (rawpdu.hpp, and the two read handlers of session_manager.cpp).
module Framing {
  import opened Smpp

  const HEADER: nat := 16
  const WORD: nat := 0x1_0000_0000

  // ---------------------------------------------------------------- the header, section 3.2.1 of SMPP v5.0

  function Word(b: seq<byte>, at: nat): nat
    requires at + 4 <= |b|
  {
    ((b[at] as nat * 256 + b[at + 1] as nat) * 256 + b[at + 2] as nat) * 256 + b[at + 3] as nat
  }

  function CommandLength(b: seq<byte>): nat requires |b| >= HEADER { Word(b, 0) }
  function CommandId(b: seq<byte>): nat requires |b| >= HEADER { Word(b, 4) }
  function CommandStatus(b: seq<byte>): nat requires |b| >= HEADER { Word(b, 8) }
  function SequenceNumber(b: seq<byte>): nat requires |b| >= HEADER { Word(b, 12) }

  predicate SameHeader(b: seq<byte>, c: seq<byte>)
    requires |b| >= HEADER && |c| >= HEADER
  {
    && CommandLength(b) == CommandLength(c) && CommandId(b) == CommandId(c)
    && CommandStatus(b) == CommandStatus(c) && SequenceNumber(b) == SequenceNumber(c)
  }

  // One PDU in full.
  predicate Frame(f: seq<byte>) { |f| >= HEADER && CommandLength(f) == |f| }

  // ---------------------------------------------------------------- streams

  function Flat(fs: seq<seq<byte>>): seq<byte> {
    if fs == [] then [] else fs[0] + Flat(fs[1..])
  }

  // The complete PDUs at the front of a stream. Reading also ends at a length that is too short for a header.
  function Frames(b: seq<byte>): seq<seq<byte>> {
    if |b| < HEADER || CommandLength(b) < HEADER || |b| < CommandLength(b) then []
    else [b[..CommandLength(b)]] + Frames(b[CommandLength(b)..])
  }

  // The stream breaks off inside a PDU, or between two.
  predicate Partial(b: seq<byte>) { |b| < HEADER || |b| < CommandLength(b) }

  /** What was sent as PDUs is read as the same PDUs, up to where the stream breaks off. */
  lemma {:induction false} RoundTrip(fs: seq<seq<byte>>, tail: seq<byte>)
    requires (forall f | f in fs :: Frame(f)) && Partial(tail)
    ensures Frames(Flat(fs) + tail) == fs
  {
    if fs == [] {
      assert [] + tail == tail;
    } else {
      var f, rest := fs[0], Flat(fs[1..]) + tail;
      assert Frame(f);
      assert Flat(fs) + tail == f + rest;
      FrameFirst(f, rest);
      RoundTrip(fs[1..], tail);
    }
  }

  /** Nothing is read that was not sent: the PDUs read, put together, begin the stream, and each is complete. */
  lemma {:induction false} FramesBeginStream(b: seq<byte>)
    ensures (forall f | f in Frames(b) :: Frame(f)) && Flat(Frames(b)) <= b
    decreases |b|
  {
    if !(|b| < HEADER || CommandLength(b) < HEADER || |b| < CommandLength(b)) {
      var n := CommandLength(b);
      FramesBeginStream(b[n..]);
      assert b == b[..n] + b[n..];
      assert Frames(b)[1..] == Frames(b[n..]);
    }
  }

  /** However a stream of PDUs is cut off, what is read is the PDUs that are complete: as many as fit. */
  lemma {:induction false} TruncatedStream(fs: seq<seq<byte>>, n: nat) returns (k: nat)
    requires (forall f | f in fs :: Frame(f)) && n <= |Flat(fs)|
    ensures k <= |fs| && Frames(Flat(fs)[..n]) == fs[..k]
    ensures |Flat(fs[..k])| <= n && (k < |fs| ==> n < |Flat(fs[..k + 1])|)
  {
    hide Frames, Flat;
    k := 0;
    if fs == [] {
      CutNothing();
    } else {
      var f, rest := fs[0], fs[1..];
      assert Frame(f) && fs == [f] + rest;
      if n < |f| {
        CutFirst(f, rest, n);
      } else {
        FlatCons(f, rest);
        var j := TruncatedStream(rest, n - |f|);
        CutLater(f, rest, n, j);
        k := j + 1;
      }
    }
  }

  lemma CutNothing()
    ensures Flat([]) == [] && Frames([]) == []
  {
  }

  lemma CutFirst(f: seq<byte>, rest: seq<seq<byte>>, n: nat)
    requires Frame(f) && n < |f|
    ensures n <= |Flat([f] + rest)| && Frames(Flat([f] + rest)[..n]) == []
    ensures Flat([]) == [] && ([f] + rest)[..1] == [f] && Flat([f]) == f
  {
    FlatCons(f, rest);
    var cut := Flat([f] + rest)[..n];
    assert cut == f[..n];
    assert Partial(cut);
    assert f + [] == f;
  }

  lemma CutLater(f: seq<byte>, rest: seq<seq<byte>>, n: nat, j: nat)
    requires Frame(f) && |f| <= n <= |f| + |Flat(rest)| && j <= |rest|
    requires Frames(Flat(rest)[..n - |f|]) == rest[..j]
    requires |Flat(rest[..j])| <= n - |f| && (j < |rest| ==> n - |f| < |Flat(rest[..j + 1])|)
    ensures n <= |Flat([f] + rest)| && Frames(Flat([f] + rest)[..n]) == ([f] + rest)[..j + 1]
    ensures |Flat(([f] + rest)[..j + 1])| <= n && (j < |rest| ==> n < |Flat(([f] + rest)[..j + 2])|)
  {
    hide Frames, Flat;
    FlatCons(f, rest);
    assert (f + Flat(rest))[..n] == f + Flat(rest)[..n - |f|];
    FrameFirst(f, Flat(rest)[..n - |f|]);
    assert ([f] + rest)[..j + 1] == [f] + rest[..j];
    FlatCons(f, rest[..j]);
    if j < |rest| {
      assert ([f] + rest)[..j + 2] == [f] + rest[..j + 1];
      FlatCons(f, rest[..j + 1]);
    }
  }

  lemma FrameFirst(f: seq<byte>, rest: seq<byte>)
    requires Frame(f)
    ensures Frames(f + rest) == [f] + Frames(rest)
  {
    assert (f + rest)[..|f|] == f && (f + rest)[|f|..] == rest;
  }

  lemma FlatCons(f: seq<byte>, fs: seq<seq<byte>>)
    ensures Flat([f] + fs) == f + Flat(fs)
  {
    assert ([f] + fs)[1..] == fs;
  }

  // ---------------------------------------------------------------- PDUs as bytes

  function WordBytes(n: nat): seq<byte>
    requires n < WORD
  {
    [(n / 0x100_0000) as byte, (n / 0x1_0000 % 256) as byte, (n / 0x100 % 256) as byte, (n % 256) as byte]
  }

  predicate Fits(p: Pdu) { p.id < WORD && p.status < WORD && p.num < WORD && |p.body| + HEADER < WORD }

  function Encode(p: Pdu): seq<byte>
    requires Fits(p)
  {
    WordBytes(|p.body| + HEADER) + WordBytes(p.id) + WordBytes(p.status) + WordBytes(p.num) + p.body
  }

  function Decode(f: seq<byte>): Pdu
    requires |f| >= HEADER
  {
    Pdu(CommandId(f), CommandStatus(f), SequenceNumber(f), f[HEADER..])
  }

  lemma BytesOfWord(n: nat)
    requires n < WORD
    ensures |WordBytes(n)| == 4 && Word(WordBytes(n), 0) == n
  {
    assert n == n / 0x100 * 0x100 + n % 256;
    assert n / 0x100 == n / 0x1_0000 * 0x100 + n / 0x100 % 256;
    assert n / 0x1_0000 == n / 0x100_0000 * 0x100 + n / 0x1_0000 % 256;
  }

  lemma WordAt(n: nat, before: seq<byte>, after: seq<byte>)
    requires n < WORD
    ensures Word(before + WordBytes(n) + after, |before|) == n
  {
    hide WordBytes;
    BytesOfWord(n);
    var b := before + WordBytes(n) + after;
    assert b[|before|] == WordBytes(n)[0] && b[|before| + 1] == WordBytes(n)[1];
    assert b[|before| + 2] == WordBytes(n)[2] && b[|before| + 3] == WordBytes(n)[3];
  }

  lemma {:induction false} EncodeRoundTrip(p: Pdu)
    requires Fits(p)
    ensures Frame(Encode(p)) && Decode(Encode(p)) == p
  {
    var l, i, s, n := WordBytes(|p.body| + HEADER), WordBytes(p.id), WordBytes(p.status), WordBytes(p.num);
    var f := Encode(p);
    assert f == [] + l + (i + s + n + p.body);
    WordAt(|p.body| + HEADER, [], i + s + n + p.body);
    assert f == l + i + (s + n + p.body);
    WordAt(p.id, l, s + n + p.body);
    assert f == (l + i) + s + (n + p.body);
    WordAt(p.status, l + i, n + p.body);
    assert f == (l + i + s) + n + p.body;
    WordAt(p.num, l + i + s, p.body);
    assert f[HEADER..] == p.body;
  }

  /** On the wire a link test numbered 0x01020304 is these sixteen bytes: length, id, status and number, each with its
      highest byte first. */
  lemma LinkTestBytes()
    ensures Fits(Pdu(0x0000_0015, 0, 0x0102_0304, []))
    ensures Encode(Pdu(0x0000_0015, 0, 0x0102_0304, [])) == [0, 0, 0, 16] + [0, 0, 0, 0x15] + [0, 0, 0, 0] + [1, 2, 3, 4]
    ensures Decode([0, 0, 0, 16] + [0, 0, 0, 0x15] + [0, 0, 0, 0] + [1, 2, 3, 4]) == Pdu(0x0000_0015, 0, 0x0102_0304, [])
  {
    var p := Pdu(0x0000_0015, 0, 0x0102_0304, []);
    assert WordBytes(16) == [0, 0, 0, 16] && WordBytes(0x15) == [0, 0, 0, 0x15];
    assert WordBytes(0) == [0, 0, 0, 0] && WordBytes(0x0102_0304) == [1, 2, 3, 4];
    EncodeRoundTrip(p);
  }

  function EncodeAll(ps: seq<Pdu>): seq<seq<byte>>
    requires forall p | p in ps :: Fits(p)
  {
    seq(|ps|, i requires 0 <= i < |ps| => Encode(ps[i]))
  }

  function DecodeAll(fs: seq<seq<byte>>): seq<Pdu>
    requires forall f | f in fs :: |f| >= HEADER
  {
    seq(|fs|, i requires 0 <= i < |fs| => Decode(fs[i]))
  }

  /** A sequence of PDUs sent over a stream arrives as that sequence. */
  lemma {:induction false} PdusSurviveStream(ps: seq<Pdu>)
    requires forall p | p in ps :: Fits(p)
    ensures var fs := Frames(Flat(EncodeAll(ps))); (forall f | f in fs :: |f| >= HEADER) && DecodeAll(fs) == ps
  {
    var fs := EncodeAll(ps);
    forall i | 0 <= i < |ps| ensures Frame(fs[i]) && Decode(fs[i]) == ps[i] {
      EncodeRoundTrip(ps[i]);
    }
    RoundTrip(fs, []);
    assert Flat(fs) + [] == Flat(fs);
  }

  // ---------------------------------------------------------------- the buffer

  class RawPdu {
    var header: array<byte>
    var fullBuffer: array?<byte>

    ghost predicate Valid()
      reads this, header
    {
      header.Length >= HEADER && (fullBuffer != null ==> header == fullBuffer)
    }

    constructor ()
      ensures Valid() && fresh(header) && header.Length == HEADER && fullBuffer == null
    {
      header := new byte[HEADER];
      fullBuffer := null;
    }

    function CmdLength(): nat
      reads this, header
      requires Valid()
    {
      CommandLength(header[..])
    }

    // Swaps the header buffer for one that has room for the whole PDU.
    method BodyBuf()
      requires Valid() && fullBuffer == null && CmdLength() >= HEADER
      modifies this
      ensures Valid() && fresh(header) && fullBuffer == header && header.Length == old(CmdLength())
      ensures header[..HEADER] == old(header[..HEADER])
      ensures SameHeader(header[..], old(header[..]))
    {
      var full := new byte[CmdLength()];
      forall i | 0 <= i < HEADER {
        full[i] := header[i];
      }
      fullBuffer := full;
      header := full;
      assert forall i | 0 <= i < HEADER :: header[..][i] == old(header[..])[i];
    }
  }

  // The read of a header completes: a new buffer with the 16 bytes in it.
  method ReadHeader(bytes: seq<byte>) returns (raw: RawPdu)
    requires |bytes| == HEADER
    ensures fresh(raw) && fresh(raw.header) && raw.Valid() && raw.fullBuffer == null && raw.header[..] == bytes
  {
    raw := new RawPdu();
    forall i | 0 <= i < HEADER {
      raw.header[i] := bytes[i];
    }
  }

  // The read of a body completes: the buffer holds the header and the body.
  method ReadBody(raw: RawPdu, bytes: seq<byte>)
    requires raw.Valid() && raw.fullBuffer == null && raw.header.Length == HEADER
    requires raw.CmdLength() == HEADER + |bytes|
    modifies raw
    ensures raw.Valid() && raw.fullBuffer != null && raw.fullBuffer[..] == old(raw.header[..]) + bytes
  {
    raw.BodyBuf();
    assert raw.header[..HEADER] == old(raw.header[..]);
    forall i | 0 <= i < |bytes| {
      raw.header[HEADER + i] := bytes[i];
    }
    assert raw.header[..HEADER] == old(raw.header[..]);
    assert raw.header[HEADER..] == bytes;
    assert raw.header[..] == raw.header[..HEADER] + raw.header[HEADER..];
  }

  ghost predicate ReadSoFar(stream: seq<byte>, frames: seq<seq<byte>>, rest: seq<byte>) {
    Frames(stream) == frames + Frames(rest) && stream == Flat(frames) + rest
  }

  lemma ReadNothing(stream: seq<byte>)
    ensures ReadSoFar(stream, [], stream)
  {
  }

  lemma ReadAll(stream: seq<byte>)
    ensures forall frames, rest | ReadSoFar(stream, frames, rest) && Frames(rest) == [] ::
      frames == Frames(stream) && stream == Flat(frames) + rest
    ensures forall rest | |rest| < HEADER :: Frames(rest) == []
  {
  }

  lemma ReadOn(stream: seq<byte>, frames: seq<seq<byte>>, rest: seq<byte>, f: seq<byte>)
    requires ReadSoFar(stream, frames, rest) && |f| <= |rest| && f == rest[..|f|]
    requires Frames(rest) == [f] + Frames(rest[|f|..])
    ensures ReadSoFar(stream, frames + [f], rest[|f|..])
  {
    hide Frames, Flat;
    var tail := rest[|f|..];
    assert rest == f + tail;
    FlatSnoc(frames, f);
    Associative(frames, [f], Frames(tail));
    Associative(Flat(frames), f, tail);
  }

  lemma Associative<T>(a: seq<T>, b: seq<T>, c: seq<T>)
    ensures a + (b + c) == (a + b) + c
  {
  }

  lemma FrameAhead(b: seq<byte>)
    requires |b| >= HEADER
    ensures CommandLength(b[..HEADER]) == CommandLength(b)
    ensures var n := CommandLength(b);
            if n < HEADER || |b| < n then Frames(b) == []
            else b[..n] == b[..HEADER] + b[HEADER..n] && Frames(b) == [b[..n]] + Frames(b[n..])
  {
  }

  // The read handlers' loop over what the stream holds: a header, then the body that the header announces.
  method ReadStream(stream: seq<byte>) returns (frames: seq<seq<byte>>, rest: seq<byte>)
    ensures frames == Frames(stream)
    ensures stream == Flat(frames) + rest
  {
    hide Frames, Flat, ReadSoFar;
    ReadNothing(stream);
    ReadAll(stream);
    frames, rest := [], stream;
    while |rest| >= HEADER
      invariant ReadSoFar(stream, frames, rest)
      decreases |rest|
    {
      FrameAhead(rest);
      var raw := ReadHeader(rest[..HEADER]);
      var n := raw.CmdLength();
      if n < HEADER || |rest| < n {
        break;
      }
      ReadBody(raw, rest[HEADER..n]);
      var f := raw.fullBuffer[..];
      ReadOn(stream, frames, rest, f);
      frames, rest := frames + [f], rest[n..];
    }
  }

  lemma {:induction false} FlatSnoc(fs: seq<seq<byte>>, f: seq<byte>)
    ensures Flat(fs + [f]) == Flat(fs) + f
  {
    if fs == [] {
      assert [f][1..] == [];
    } else {
      FlatSnoc(fs[1..], f);
      assert (fs + [f])[1..] == fs[1..] + [f];
    }
  }
}
