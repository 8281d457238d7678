/** Stripping the multiplexing headers from a Docker log buffer. */
module LogFrames {

  type Byte = b: int | 0 <= b < 256 witness 0

  /** A frame of stdout (1) or stderr (2). */
  datatype Frame = Frame(stream: Byte, payload: seq<Byte>)

  ghost predicate WellFormed(f: Frame) {
    (f.stream == 1 || f.stream == 2) && |f.payload| < 0x1_0000_0000
  }

  /** The number four big-endian bytes denote. */
  function BigEndian(digits: seq<Byte>): nat
    requires |digits| == 4
  {
    (digits[0] as int) * 0x100_0000 + (digits[1] as int) * 0x1_0000 + (digits[2] as int) * 0x100 + digits[3]
  }

  function Size32(size: nat): (digits: seq<Byte>)
    requires size < 0x1_0000_0000
    ensures |digits| == 4
  {
    [size / 0x100_0000, size / 0x1_0000 % 0x100, size / 0x100 % 0x100, size % 0x100]
  }

  function Header(stream: Byte, size: nat): (h: seq<Byte>)
    requires size < 0x1_0000_0000
    ensures |h| == 8
  {
    [stream, 0, 0, 0] + Size32(size)
  }

  lemma SizeRoundTrip(size: nat)
    requires size < 0x1_0000_0000
    ensures BigEndian(Size32(size)) == size
  {
    assert size / 0x100 == size / 0x1_0000 * 0x100 + size / 0x100 % 0x100;
  }

  ghost function EncodeFrame(f: Frame): seq<Byte>
    requires WellFormed(f)
  {
    Header(f.stream, |f.payload|) + f.payload
  }

  ghost function Encode(frames: seq<Frame>): seq<Byte>
    requires forall f :: f in frames ==> WellFormed(f)
  {
    if frames == [] then [] else EncodeFrame(frames[0]) + Encode(frames[1..])
  }

  ghost function Payloads(frames: seq<Frame>): seq<Byte> {
    if frames == [] then [] else frames[0].payload + Payloads(frames[1..])
  }

  predicate HeaderAt(b: seq<Byte>, i: nat) {
    |b| - i >= 8 && (b[i] == 1 || b[i] == 2) && b[i + 1] == 0 && b[i + 2] == 0 && b[i + 3] == 0
  }

  function SizeAt(b: seq<Byte>, i: nat): nat
    requires HeaderAt(b, i)
  {
    BigEndian(b[i + 4..i + 8])
  }

  /** What is left of a buffer once its headers are stripped. */
  ghost function Stripped(b: seq<Byte>): seq<Byte>
    decreases |b|
  {
    if !HeaderAt(b, 0) then b
    else
      var size := SizeAt(b, 0);
      if size == 0 || 8 + size > |b| then b[8..]
      else b[8..8 + size] + Stripped(b[8 + size..])
  }

  lemma Associative(a: seq<Byte>, b: seq<Byte>, c: seq<Byte>)
    ensures (a + b) + c == a + (b + c)
  {
  }

  lemma SuffixHeader(b: seq<Byte>, i: nat)
    requires i <= |b|
    ensures HeaderAt(b[i..], 0) <==> HeaderAt(b, i)
    ensures HeaderAt(b, i) ==> SizeAt(b[i..], 0) == SizeAt(b, i)
  {
    if HeaderAt(b, i) {
      assert b[i..][4..8] == b[i + 4..i + 8];
    }
  }

  lemma FrameEmitted(b: seq<Byte>, i: nat, size: nat, end: nat)
    requires HeaderAt(b, i) && SizeAt(b, i) == size && 0 < size && i + 8 + size == end <= |b|
    ensures Stripped(b[i..]) == b[i + 8..end] + Stripped(b[end..])
  {
    SuffixHeader(b, i);
    var suffix := b[i..];
    assert suffix[8..8 + size] == b[i + 8..end];
    assert suffix[8 + size..] == b[end..];
  }

  lemma TailEmitted(b: seq<Byte>, i: nat)
    requires i <= |b| && !HeaderAt(b, i)
    ensures Stripped(b[i..]) == b[i..|b|]
  {
    SuffixHeader(b, i);
    assert b[i..] == b[i..|b|];
  }

  lemma LastEmitted(b: seq<Byte>, i: nat, size: nat)
    requires i <= |b| && HeaderAt(b, i) && size == SizeAt(b, i) && (size == 0 || i + 8 + size > |b|)
    ensures Stripped(b[i..]) == b[i + 8..|b|]
  {
    SuffixHeader(b, i);
    assert b[i..][8..] == b[i + 8..|b|];
  }

  /** One turn of the loop: the slice to emit next, and whether the loop stops with it. */
  method NextSlice(b: seq<Byte>, i: nat) returns (last: bool, from: nat, end: nat)
    requires i < |b|
    ensures i <= from <= end <= |b|
    ensures last ==> Stripped(b[i..]) == b[from..end]
    ensures !last ==> i < end && Stripped(b[i..]) == b[from..end] + Stripped(b[end..])
  {
    if !HeaderAt(b, i) {
      TailEmitted(b, i);
      return true, i, |b|;
    }
    var size := SizeAt(b, i);
    from := i + 8;
    if size <= 0 || from + size > |b| {
      LastEmitted(b, i, size);
      return true, from, |b|;
    }
    end := from + size;
    FrameEmitted(b, i, size, end);
    return false, from, end;
  }

  /** The server's loop: an index advances over the buffer, payloads are appended to `out`. */
  method StripDockerHeader(b: seq<Byte>) returns (out: seq<Byte>)
    ensures out == Stripped(b)
  {
    out := [];
    var i := 0;
    assert b[0..] == b;
    ghost var whole := Stripped(b);
    while i < |b|
      invariant 0 <= i <= |b|
      invariant whole == out + Stripped(b[i..])
      decreases |b| - i
    {
      var last, from, end := NextSlice(b, i);
      if last {
        out := out + b[from..end];
        return;
      }
      Associative(out, b[from..end], Stripped(b[end..]));
      out := out + b[from..end];
      i := end;
    }
    TailEmitted(b, i);
    assert out + b[|b|..|b|] == out;
  }

  lemma StripKnown(b: seq<Byte>, size: nat, tail: seq<Byte>)
    requires HeaderAt(b, 0) && SizeAt(b, 0) == size && b[8..] == tail
    ensures Stripped(b) == if size == 0 || size > |tail| then tail else tail[..size] + Stripped(tail[size..])
  {
    if 0 < size <= |tail| {
      assert b[8..8 + size] == tail[..size];
      assert b[8 + size..] == tail[size..];
    }
  }

  /** A header followed by anything: its size decides what comes out. */
  lemma StripHeader(stream: Byte, size: nat, tail: seq<Byte>)
    requires (stream == 1 || stream == 2) && size < 0x1_0000_0000
    ensures Stripped(Header(stream, size) + tail) ==
            if size == 0 || size > |tail| then tail else tail[..size] + Stripped(tail[size..])
  {
    var b := Header(stream, size) + tail;
    SizeRoundTrip(size);
    assert b[..4] == [stream, 0, 0, 0] && b[4..8] == Size32(size) && b[8..] == tail;
    StripKnown(b, size, tail);
  }

  /** One whole, nonempty frame is unwrapped and stripping goes on behind it. */
  lemma StripFrame(f: Frame, rest: seq<Byte>)
    requires WellFormed(f) && f.payload != []
    ensures Stripped(EncodeFrame(f) + rest) == f.payload + Stripped(rest)
  {
    var tail := f.payload + rest;
    StripHeader(f.stream, |f.payload|, tail);
    assert EncodeFrame(f) + rest == Header(f.stream, |f.payload|) + tail;
    assert tail[..|f.payload|] == f.payload && tail[|f.payload|..] == rest;
  }

  /** An empty frame stops the loop: everything behind its header comes out raw. */
  lemma EmptyFrameStops(f: Frame, rest: seq<Byte>)
    requires WellFormed(f) && f.payload == []
    ensures Stripped(EncodeFrame(f) + rest) == rest
  {
    var header := Header(f.stream, 0);
    assert EncodeFrame(f) == header + [] == header;
    StripHeader(f.stream, 0, rest);
  }

  /** Whole, nonempty frames are unwrapped one by one; what follows them is treated on its own. */
  lemma {:induction false} StripFrames(frames: seq<Frame>, rest: seq<Byte>)
    requires forall f :: f in frames ==> WellFormed(f) && f.payload != []
    ensures Stripped(Encode(frames) + rest) == Payloads(frames) + Stripped(rest)
  {
    if frames == [] {
      assert Encode(frames) + rest == rest;
      assert Payloads(frames) + Stripped(rest) == Stripped(rest);
    } else {
      var f, more := frames[0], frames[1..];
      StripFrames(more, rest);
      StripFrame(f, Encode(more) + rest);
      Associative(EncodeFrame(f), Encode(more), rest);
      Associative(f.payload, Payloads(more), Stripped(rest));
    }
  }

  /** Every frame but the last carries bytes. */
  ghost predicate OnlyLastEmpty(frames: seq<Frame>) {
    forall i :: 0 <= i < |frames| - 1 ==> frames[i].payload != []
  }

  lemma {:induction false} EncodeLonger(frames: seq<Frame>)
    requires forall f :: f in frames ==> WellFormed(f)
    ensures |Encode(frames)| == |Payloads(frames)| + 8 * |frames|
  {
    if frames != [] {
      EncodeLonger(frames[1..]);
    }
  }

  /** The round trip holds for a list of frames exactly when no frame but the last is empty:
      an earlier empty frame makes every later header come out as log text. */
  lemma {:induction false} RoundTrip(frames: seq<Frame>)
    requires forall f :: f in frames ==> WellFormed(f)
    ensures Stripped(Encode(frames)) == Payloads(frames) <==> OnlyLastEmpty(frames)
  {
    if frames != [] {
      var f, rest := frames[0], frames[1..];
      if f.payload == [] {
        EmptyFrameStops(f, Encode(rest));
        EncodeLonger(rest);
        assert Payloads(frames) == Payloads(rest);
      } else {
        RoundTrip(rest);
        StripFrame(f, Encode(rest));
        assert f.payload + Stripped(Encode(rest)) == f.payload + Payloads(rest)
           <==> Stripped(Encode(rest)) == Payloads(rest) by {
          assert (f.payload + Stripped(Encode(rest)))[|f.payload|..] == Stripped(Encode(rest));
          assert (f.payload + Payloads(rest))[|f.payload|..] == Payloads(rest);
        }
        assert OnlyLastEmpty(frames) ==> OnlyLastEmpty(rest) by {
          assert forall i :: 0 <= i < |rest| - 1 ==> rest[i] == frames[i + 1];
        }
        if OnlyLastEmpty(rest) {
          forall i | 0 <= i < |frames| - 1
            ensures frames[i].payload != []
          {
            if i > 0 {
              assert rest[i - 1] == frames[i];
            }
          }
        }
      }
    }
  }

  /** A buffer cut inside the payload of the frame that follows `whole` yields the matching
      prefix of the payloads; cut inside that frame's header, it yields the bare header bytes. */
  lemma CutBuffer(whole: seq<Frame>, f: Frame, cut: nat)
    requires forall g :: g in whole ==> WellFormed(g) && g.payload != []
    requires WellFormed(f) && f.payload != [] && cut <= |EncodeFrame(f)|
    ensures Stripped(Encode(whole) + EncodeFrame(f)[..cut]) ==
            Payloads(whole) + (if cut < 8 then EncodeFrame(f)[..cut] else f.payload[..cut - 8])
  {
    var tail := EncodeFrame(f)[..cut];
    StripFrames(whole, tail);
    if cut >= 8 {
      var part := f.payload[..cut - 8];
      assert tail == Header(f.stream, |f.payload|) + part;
      StripHeader(f.stream, |f.payload|, part);
      if |part| == |f.payload| {
        assert part[..|part|] + Stripped(part[|part|..]) == part;
      }
    }
  }
}
