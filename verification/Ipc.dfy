/** Length-prefixed frames on the local socket (src/ipc.rs:229-257). */
module Ipc {
  import opened Prelude

  const MAX_FRAME_LEN: nat := 16 * 1024 * 1024

  const TWO32: nat := 0x1_0000_0000

  datatype IoError = UnexpectedEof | InvalidData

  /** `(n as u32).to_le_bytes()`, with the cast's truncation. */
  function LeBytes(n: nat): (b: Bytes)
    ensures |b| == 4
  {
    var m := n % TWO32;
    [m % 256, m / 256 % 256, m / 65536 % 256, m / 16777216]
  }

  function FromLe(b: Bytes): nat
    requires |b| == 4
  {
    var b0: int, b1: int, b2: int, b3: int := b[0], b[1], b[2], b[3];
    b0 + 256 * b1 + 65536 * b2 + 16777216 * b3
  }

  lemma LeRoundTrip(n: nat)
    ensures FromLe(LeBytes(n)) == n % 4_294_967_296
  {
    var m := n % TWO32;
    assert m / 256 == m / 65536 * 256 + m / 256 % 256;
    assert m / 65536 == m / 16777216 * 256 + m / 65536 % 256;
  }

  /** The bytes one frame takes on the stream. */
  function Framed(data: Bytes): (b: Bytes)
    ensures |b| == 4 + |data|
  {
    LeBytes(|data|) + data
  }

  function FramedAll(frames: seq<Bytes>): Bytes
    decreases |frames|
  {
    if frames == [] then [] else Framed(frames[0]) + FramedAll(frames[1..])
  }

  /** One frame off the front of a stream: the frame and what follows it. */
  function Parse(b: Bytes): Result<(Bytes, Bytes), IoError> {
    if |b| < 4 then Err(UnexpectedEof)
    else
      var n := FromLe(b[..4]);
      if n > MAX_FRAME_LEN then Err(InvalidData)
      else if |b| < 4 + n then Err(UnexpectedEof)
      else Ok((b[4..4 + n], b[4 + n..]))
  }

  /** Frames until the first error, and that error. */
  function ParseAll(b: Bytes): (seq<Bytes>, IoError)
    decreases |b|
  {
    match Parse(b)
    case Err(e) => ([], e)
    case Ok((f, rest)) =>
      var (more, e) := ParseAll(rest);
      ([f] + more, e)
  }

  class Writer {
    var out: Bytes

    constructor ()
      ensures out == []
    {
      out := [];
    }

    method WriteAll(data: Bytes)
      modifies this
      ensures out == old(out) + data
    {
      out := out + data;
    }

    method WriteFrame(data: Bytes)
      modifies this
      ensures out == old(out) + Framed(data)
    {
      WriteAll(LeBytes(|data|));
      WriteAll(data);
    }
  }

  class Reader {
    const input: Bytes
    var pos: nat

    ghost predicate Valid()
      reads this
    {
      pos <= |input|
    }

    constructor (stream: Bytes)
      ensures input == stream && pos == 0 && Valid()
    {
      input, pos := stream, 0;
    }

    /** `read_exact`: fills a buffer of `n` bytes or fails at the end of the stream, wherever that leaves it. */
    method ReadExact(n: nat) returns (r: Result<Bytes, IoError>)
      requires Valid()
      modifies this
      ensures Valid()
      ensures if old(pos) + n <= |input| then r == Ok(input[old(pos)..old(pos) + n]) && pos == old(pos) + n
              else r == Err(UnexpectedEof) && pos == |input|
    {
      if pos + n <= |input| {
        r := Ok(input[pos..pos + n]);
        pos := pos + n;
      } else {
        r := Err(UnexpectedEof);
        pos := |input|;
      }
    }

    method ReadFrame() returns (r: Result<Bytes, IoError>)
      requires Valid()
      modifies this
      ensures Valid()
      ensures match Parse(old(input[pos..]))
              case Ok((f, rest)) => r == Ok(f) && input[pos..] == rest
              case Err(e) => r == Err(e)
    {
      ghost var stream := input[pos..];
      var len := ReadExact(4);
      if len.Err? {
        return Err(len.error);
      }
      assert len.value == stream[..4];
      var n := FromLe(len.value);
      if n > MAX_FRAME_LEN {
        return Err(InvalidData);
      }
      assert input[pos..] == stream[4..];
      r := ReadExact(n);
      if r.Ok? {
        assert r.value == stream[4..4 + n] && input[pos..] == stream[4 + n..];
      }
    }
  }

  // ---------------------------------------------------------------- round trips and cuts

  predicate Fits(frames: seq<Bytes>) {
    forall f | f in frames :: |f| <= 16_777_216
  }

  lemma ParseFramed(data: Bytes, rest: Bytes)
    ensures |data| <= MAX_FRAME_LEN ==> Parse(Framed(data) + rest) == Ok((data, rest))
    ensures |data| > MAX_FRAME_LEN ==>
              var p := Parse(Framed(data) + rest);
              p == Err(InvalidData) || (p.Ok? && p.value.0 != data)
  {
    var b := Framed(data) + rest;
    var n := |data| % TWO32;
    LeRoundTrip(|data|);
    assert b[..4] == LeBytes(|data|);
    if |data| <= MAX_FRAME_LEN {
      assert b[4..4 + n] == data && b[4 + n..] == rest;
    }
  }

  /** Reading back everything written gives the same frames, up to the end of the stream, exactly when all fit. */
  lemma {:induction false} ReadBackIff(frames: seq<Bytes>)
    ensures ParseAll(FramedAll(frames)).0 == frames <==> Fits(frames)
    ensures Fits(frames) ==> ParseAll(FramedAll(frames)).1 == UnexpectedEof
    decreases |frames|
  {
    if frames != [] {
      var head, tail := frames[0], frames[1..];
      ParseFramed(head, FramedAll(tail));
      ReadBackIff(tail);
      assert frames == [head] + tail;
      var parsed := ParseAll(FramedAll(frames)).0;
      if |head| <= MAX_FRAME_LEN {
        assert parsed[1..] == ParseAll(FramedAll(tail)).0;
      } else {
        assert parsed == [] || parsed[0] != head;
      }
    }
  }

  /** Number of whole frames within the first `k` bytes. */
  function Whole(frames: seq<Bytes>, k: nat): (n: nat)
    ensures n <= |frames|
    decreases |frames|
  {
    if frames == [] || k < 4 + |frames[0]| then 0 else 1 + Whole(frames[1..], k - 4 - |frames[0]|)
  }

  /** `Whole` counts exactly the frames that end within the cut. */
  lemma {:induction false} WholeIff(frames: seq<Bytes>, k: nat, j: nat)
    requires j <= |frames|
    ensures j <= Whole(frames, k) <==> |FramedAll(frames[..j])| <= k
    decreases |frames|
  {
    if j > 0 {
      assert frames[..j][0] == frames[0] && frames[..j][1..] == frames[1..][..j - 1];
      if k >= 4 + |frames[0]| {
        WholeIff(frames[1..], k - 4 - |frames[0]|, j - 1);
      }
    }
  }

  lemma ParsePartial(head: Bytes, rest: Bytes, k: nat)
    requires |head| <= MAX_FRAME_LEN && k < 4 + |head|
    ensures Parse((Framed(head) + rest)[..k]) == Err(UnexpectedEof)
  {
    var cut := (Framed(head) + rest)[..k];
    if k >= 4 {
      assert cut[..4] == LeBytes(|head|);
      LeRoundTrip(|head|);
    }
  }

  /** A stream cut anywhere yields precisely the frames complete before the cut, then an end-of-file error. */
  lemma {:induction false} CutYieldsWholeFrames(frames: seq<Bytes>, k: nat)
    requires Fits(frames) && k <= |FramedAll(frames)|
    ensures ParseAll(FramedAll(frames)[..k]) == (frames[..Whole(frames, k)], UnexpectedEof)
    decreases |frames|
  {
    hide Parse, Framed, LeBytes;
    if frames == [] {
      ParsePartial([], [], 0);
      assert FramedAll(frames)[..k] == (Framed([]) + [])[..0];
    } else {
      var head, tail := frames[0], frames[1..];
      assert frames == [head] + tail;
      if k >= 4 + |head| {
        var m := k - 4 - |head|;
        assert FramedAll(frames)[..k] == Framed(head) + FramedAll(tail)[..m];
        ParseFramed(head, FramedAll(tail)[..m]);
        CutYieldsWholeFrames(tail, m);
        assert frames[..1 + Whole(tail, m)] == [head] + tail[..Whole(tail, m)];
      } else {
        ParsePartial(head, FramedAll(tail), k);
      }
    }
  }
}
