/**
 * The score wire formats of proof_of_quality/__init__.py: 8-bit
 * quantisation, the lowercase-hex string codec (pack_scores /
 * unpack_scores) and the big-endian 16-bit byte codec
 * (pack_scores_to_bytes / unpack_scores_from_bytes).
 */
module Codec {
  import opened Wrappers
  import opened PyText

  /** `int(x)` on a float: truncation toward zero. */
  function Trunc(x: real): (n: int)
    ensures 0.0 <= x ==> 0 <= n && n as real <= x < n as real + 1.0
    ensures x < 0.0 ==> n <= 0 && n as real - 1.0 < x <= n as real
  {
    if x >= 0.0 then x.Floor else -((-x).Floor)
  }

  /** quantize_scores on one score: `int(score * 255)`. */
  function Quantize(score: real): (q: int)
    ensures 0.0 <= score ==> 0 <= q && q as real <= score * 255.0 < q as real + 1.0
    ensures score < 0.0 ==> q <= 0
  {
    Trunc(score * 255.0)
  }

  /** A score in [0, 1] quantises to the largest q in 0..255 with q/255 <= score. */
  lemma QuantizeUnit(score: real)
    requires 0.0 <= score <= 1.0
    ensures 0 <= Quantize(score) <= 255
    ensures Quantize(score) as real / 255.0 <= score < (Quantize(score) as real + 1.0) / 255.0
  {
    var q := Quantize(score);
    assert q as real <= score * 255.0 < q as real + 1.0;
  }

  /** A score of 256/255 or more quantises past 255, which the packers reject. */
  lemma QuantizeOverflow(score: real)
    requires score >= 256.0 / 255.0
    ensures Quantize(score) > 255
  {
  }

  /** The values the source's comments name: 0.5 becomes 0x7f, 1.0 becomes 0xff. */
  lemma QuantizeExamples()
    ensures Quantize(0.0) == 0 && Quantize(0.5) == 127 && Quantize(1.0) == 255
  {
    assert 0.5 * 255.0 == 127.5;
  }

  /** quantize_scores. */
  function QuantizeScores(scores: seq<real>): (q: seq<int>)
    ensures |q| == |scores|
    ensures (forall i :: 0 <= i < |scores| ==> 0.0 <= scores[i] <= 1.0) ==> InByteRange(q)
  {
    var q := seq(|scores|, i requires 0 <= i < |scores| => Quantize(scores[i]));
    assert forall i :: 0 <= i < |scores| && 0.0 <= scores[i] <= 1.0 ==> 0 <= q[i] <= 255 by {
      forall i | 0 <= i < |scores| && 0.0 <= scores[i] <= 1.0 {
        QuantizeUnit(scores[i]);
      }
    }
    q
  }

  /** The range `0 <= score <= 255` both packers demand of every score. */
  predicate InByteRange(xs: seq<int>) {
    forall i :: 0 <= i < |xs| ==> 0 <= xs[i] <= 255
  }

  predicate IsLowerHex(c: char) {
    IsDigit(c) || 'a' <= c <= 'f'
  }

  /** The lowercase hex digit of a nibble. */
  function HexDigit(d: int): (c: char)
    requires 0 <= d < 16
    ensures IsLowerHex(c) && IsHexDigit(c) && HexDigitValue(c) == d
  {
    if d < 10 then ('0' as int + d) as char else ('a' as int + d - 10) as char
  }

  /** `f"{n:02x}"` on 0..255: two lowercase hex digits, the high nibble first. */
  function Hex2(n: int): (h: string)
    requires 0 <= n <= 255
    ensures |h| == 2 && IsLowerHex(h[0]) && IsLowerHex(h[1])
  {
    [HexDigit(n / 16), HexDigit(n % 16)]
  }

  /** One packing loop of pack_scores: the hex pairs of `xs`, in order. */
  function HexBlock(xs: seq<int>): (r: string)
    requires InByteRange(xs)
    ensures |r| == 2 * |xs|
  {
    if xs == [] then [] else HexBlock(xs[..|xs| - 1]) + Hex2(xs[|xs| - 1])
  }

  /** Slot j of a hex block holds the two digits of xs[j]. */
  lemma {:induction false} HexBlockAt(xs: seq<int>, j: nat)
    requires InByteRange(xs) && j < |xs|
    ensures HexBlock(xs)[2 * j] == Hex2(xs[j])[0] && HexBlock(xs)[2 * j + 1] == Hex2(xs[j])[1]
    decreases |xs|
  {
    var init := xs[..|xs| - 1];
    assert HexBlock(xs) == HexBlock(init) + Hex2(xs[|xs| - 1]);
    if j < |init| {
      HexBlockAt(init, j);
    }
  }

  /** Every character of a hex block is a lowercase hex digit. */
  lemma {:induction false} HexBlockLower(xs: seq<int>)
    requires InByteRange(xs)
    ensures forall k :: 0 <= k < |HexBlock(xs)| ==> IsLowerHex(HexBlock(xs)[k])
    decreases |xs|
  {
    if xs != [] {
      var init := xs[..|xs| - 1];
      HexBlockLower(init);
      var h := Hex2(xs[|xs| - 1]);
      assert HexBlock(xs) == HexBlock(init) + h;
      forall k | 0 <= k < |HexBlock(xs)|
        ensures IsLowerHex(HexBlock(xs)[k])
      {
        if k >= |HexBlock(init)| {
          assert HexBlock(xs)[k] == h[k - |HexBlock(init)|];
        }
      }
    }
  }

  /**
   * pack_scores: ValueError when the lists differ in length or an entry is
   * outside 0..255 (metadata checked before validation); otherwise the hex
   * block of the metadata scores followed by that of the validation scores.
   */
  function PackedScores(metadata: seq<int>, validation: seq<int>): (r: Result<string, Error>)
    ensures r.Failure? <==> |metadata| != |validation| || !InByteRange(metadata) || !InByteRange(validation)
    ensures r.Failure? && |metadata| != |validation| ==> r.error == LengthMismatch
    ensures r.Success? ==> |r.value| == 2 * (|metadata| + |validation|)
  {
    if |metadata| != |validation| then Failure(LengthMismatch)
    else if !InByteRange(metadata) then Failure(MetadataOutOfRange)
    else if !InByteRange(validation) then Failure(ValidationOutOfRange)
    else Success(HexBlock(metadata) + HexBlock(validation))
  }

  /** One loop of pack_scores: appends the hex pair of each score, failing with `err` at the first outside 0..255. */
  method AppendHexBlock(packed: string, xs: seq<int>, err: Error) returns (r: Result<string, Error>)
    ensures InByteRange(xs) ==> r == Success(packed + HexBlock(xs))
    ensures !InByteRange(xs) ==> r == Failure(err)
  {
    var acc := packed;
    var i := 0;
    while i < |xs|
      invariant 0 <= i <= |xs|
      invariant InByteRange(xs[..i])
      invariant acc == packed + HexBlock(xs[..i])
    {
      if !(0 <= xs[i] <= 255) {
        return Failure(err);
      }
      assert xs[..i + 1][..i] == xs[..i];
      acc := acc + Hex2(xs[i]);
      i := i + 1;
    }
    assert xs[..i] == xs;
    return Success(acc);
  }

  /** pack_scores: the length check, then the metadata loop, then the validation loop. */
  method PackScores(metadata: seq<int>, validation: seq<int>) returns (r: Result<string, Error>)
    ensures r == PackedScores(metadata, validation)
  {
    if |metadata| != |validation| {
      return Failure(LengthMismatch);
    }
    r := AppendHexBlock("", metadata, MetadataOutOfRange);
    if r.Success? {
      assert r.value == HexBlock(metadata) by {
        assert "" + HexBlock(metadata) == HexBlock(metadata);
      }
      r := AppendHexBlock(r.value, validation, ValidationOutOfRange);
    }
  }

  /** `s[i:i + 2]`: Python clips the slice at the end of the string. */
  function Chunk(s: string, i: nat): (c: string)
    requires i < |s|
    ensures 1 <= |c| <= 2
  {
    s[i..if i + 2 <= |s| then i + 2 else |s|]
  }

  /**
   * The values of the k chunks at start, start + 2, ..., read left to right
   * with `int(chunk, 16)`; the first chunk that is not hex is the error.
   */
  function ReadChunks(s: string, start: nat, k: nat): (r: Result<seq<int>, Error>)
    requires start + 2 * k <= |s| + 1
    ensures r.Success? ==> |r.value| == k
    ensures r.Failure? ==> r.error.NotHex?
  {
    if k == 0 then Success([])
    else
      match ReadChunks(s, start, k - 1)
      case Failure(e) => Failure(e)
      case Success(xs) =>
        match ChunkValue(s, start + 2 * (k - 1))
        case Failure(e) => Failure(e)
        case Success(n) => Success(xs + [n])
  }

  /** `int(s[i:i + 2], 16)`, its ValueError carrying the chunk. */
  function ChunkValue(s: string, i: nat): (r: Result<int, Error>)
    requires i < |s|
    ensures r.Failure? ==> r.error == NotHex(Chunk(s, i))
  {
    match ParseHex(Chunk(s, i))
    case None => Failure(NotHex(Chunk(s, i)))
    case Some(n) => Success(n)
  }

  /** Once a chunk fails, reading further chunks reports the same failure. */
  lemma {:induction false} ReadChunksFailureSticks(s: string, start: nat, j: nat, k: nat)
    requires j <= k && start + 2 * k <= |s| + 1
    requires ReadChunks(s, start, j).Failure?
    ensures ReadChunks(s, start, k) == ReadChunks(s, start, j)
    decreases k
  {
    if j < k {
      ReadChunksFailureSticks(s, start, j, k - 1);
    }
  }

  /** How many iterations `range(from, to, 2)` makes. */
  function Steps(from: int, to: int): nat {
    if to <= from then 0 else (to - from + 1) / 2
  }

  /** The chunks `range(from, to, 2)` visits all start before `to`. */
  lemma StepsFit(from: nat, to: nat)
    requires from <= to
    ensures from + 2 * Steps(from, to) <= to + 1
  {
    var d := to - from + 1;
    assert 2 * (d / 2) <= d;
  }

  /**
   * unpack_scores: the metadata scores are read in steps of two below half
   * the length, the validation scores from half the length to the end.
   */
  function UnpackedScores(packed: string): (r: Result<(seq<int>, seq<int>), Error>)
    ensures r.Success? ==> |r.value.0| == Steps(0, |packed| / 2) && |r.value.1| == Steps(|packed| / 2, |packed|)
    ensures r.Failure? ==> r.error.NotHex?
  {
    var half := |packed| / 2;
    match ReadChunks(packed, 0, Steps(0, half))
    case Failure(e) => Failure(e)
    case Success(metadata) =>
      match ReadChunks(packed, half, Steps(half, |packed|))
      case Failure(e) => Failure(e)
      case Success(validation) => Success((metadata, validation))
  }

  /** One loop of unpack_scores: `int(packed[i:i + 2], 16)` for i in range(from, to, 2). */
  method ReadBlock(packed: string, from: nat, to: nat) returns (r: Result<seq<int>, Error>)
    requires from <= to <= |packed|
    ensures r == ReadChunks(packed, from, Steps(from, to))
  {
    StepsFit(from, to);
    var scores: seq<int> := [];
    for read := 0 to Steps(from, to)
      invariant ReadChunks(packed, from, read) == Success(scores)
    {
      var n := ChunkValue(packed, from + 2 * read);
      if n.Failure? {
        ReadChunksFailureSticks(packed, from, read + 1, Steps(from, to));
        return Failure(n.error);
      }
      scores := scores + [n.value];
    }
    return Success(scores);
  }

  /** unpack_scores: the metadata block below half the length, the validation block from there on. */
  method UnpackScores(packed: string) returns (r: Result<(seq<int>, seq<int>), Error>)
    ensures r == UnpackedScores(packed)
  {
    var length := |packed|;
    var metadata := ReadBlock(packed, 0, length / 2);
    if metadata.Failure? {
      return Failure(metadata.error);
    }
    var validation := ReadBlock(packed, length / 2, length);
    if validation.Failure? {
      return Failure(validation.error);
    }
    return Success((metadata.value, validation.value));
  }

  /** int(h, 16) reads back the two digits f"{n:02x}" wrote. */
  lemma ParseHex2(n: int)
    requires 0 <= n <= 255
    ensures ParseHex(Hex2(n)) == Some(n)
  {
  }

  /** The hex pairs of xs sit in s from `start` on. */
  predicate HexPairsAt(s: string, start: nat, xs: seq<int>)
    requires InByteRange(xs)
  {
    && start + 2 * |xs| <= |s|
    && forall j :: 0 <= j < |xs| ==> s[start + 2 * j] == Hex2(xs[j])[0] && s[start + 2 * j + 1] == Hex2(xs[j])[1]
  }

  /** Reading k chunks where the hex pairs of xs sit gives the first k values of xs. */
  lemma {:induction false} ReadHexPairs(s: string, start: nat, xs: seq<int>, k: nat)
    requires InByteRange(xs) && k <= |xs| && HexPairsAt(s, start, xs)
    ensures ReadChunks(s, start, k) == Success(xs[..k])
    decreases k
  {
    if k > 0 {
      ReadHexPairs(s, start, xs, k - 1);
      assert Chunk(s, start + 2 * (k - 1)) == Hex2(xs[k - 1]);
      ParseHex2(xs[k - 1]);
      assert xs[..k - 1] + [xs[k - 1]] == xs[..k];
    }
  }

  /** In HexBlock(xs) + HexBlock(ys), the pairs of xs start at 0 and those of ys right after. */
  lemma PairsOfConcat(xs: seq<int>, ys: seq<int>)
    requires InByteRange(xs) && InByteRange(ys)
    ensures HexPairsAt(HexBlock(xs) + HexBlock(ys), 0, xs)
    ensures HexPairsAt(HexBlock(xs) + HexBlock(ys), 2 * |xs|, ys)
  {
    forall j | 0 <= j < |xs| {
      HexBlockAt(xs, j);
    }
    forall j | 0 <= j < |ys| {
      HexBlockAt(ys, j);
    }
  }

  /** unpack_scores inverts pack_scores on equal-length lists of scores in 0..255. */
  lemma UnpackPacked(metadata: seq<int>, validation: seq<int>)
    requires |metadata| == |validation| && InByteRange(metadata) && InByteRange(validation)
    ensures PackedScores(metadata, validation).Success?
    ensures UnpackedScores(PackedScores(metadata, validation).value) == Success((metadata, validation))
  {
    var s := HexBlock(metadata) + HexBlock(validation);
    var n := |metadata|;
    assert |s| == 4 * n && |s| / 2 == 2 * n;
    assert Steps(0, 2 * n) == n && Steps(2 * n, 4 * n) == n;
    PairsOfConcat(metadata, validation);
    ReadHexPairs(s, 0, metadata, n);
    ReadHexPairs(s, 2 * n, validation, n);
    assert metadata[..n] == metadata && validation[..n] == validation;
  }

  /** pack_scores writes only lowercase hex digits. */
  lemma PackedLowerHex(metadata: seq<int>, validation: seq<int>)
    requires PackedScores(metadata, validation).Success?
    ensures forall k :: 0 <= k < |PackedScores(metadata, validation).value| ==>
                          IsLowerHex(PackedScores(metadata, validation).value[k])
  {
    HexBlockLower(metadata);
    HexBlockLower(validation);
    var a := HexBlock(metadata);
    var s := a + HexBlock(validation);
    assert forall k :: |a| <= k < |s| ==> s[k] == HexBlock(validation)[k - |a|];
  }

  // ---------------------------------------------------------------------
  // Byte codec
  // ---------------------------------------------------------------------

  type Byte = b: int | 0 <= b < 256

  /** One loop of pack_scores_to_bytes: `struct.pack('>H', x)` for each x, high byte first. */
  function ByteBlock(xs: seq<int>): (r: seq<Byte>)
    requires InByteRange(xs)
    ensures |r| == 2 * |xs|
  {
    if xs == [] then [] else ByteBlock(xs[..|xs| - 1]) + [0, xs[|xs| - 1]]
  }

  /** Slot j of a byte block is a zero high byte followed by xs[j]. */
  lemma {:induction false} ByteBlockAt(xs: seq<int>, j: nat)
    requires InByteRange(xs) && j < |xs|
    ensures ByteBlock(xs)[2 * j] == 0 && ByteBlock(xs)[2 * j + 1] == xs[j]
    decreases |xs|
  {
    var init := xs[..|xs| - 1];
    if j < |init| {
      ByteBlockAt(init, j);
      assert ByteBlock(xs) == ByteBlock(init) + [0, xs[|xs| - 1]];
    }
  }

  /** pack_scores_to_bytes: the same checks as pack_scores, two bytes per score. */
  function PackedBytes(metadata: seq<int>, validation: seq<int>): (r: Result<seq<Byte>, Error>)
    ensures r.Failure? <==> |metadata| != |validation| || !InByteRange(metadata) || !InByteRange(validation)
    ensures r.Failure? && |metadata| != |validation| ==> r.error == LengthMismatch
    ensures r.Success? ==> |r.value| == 2 * (|metadata| + |validation|)
  {
    if |metadata| != |validation| then Failure(LengthMismatch)
    else if !InByteRange(metadata) then Failure(MetadataOutOfRange)
    else if !InByteRange(validation) then Failure(ValidationOutOfRange)
    else Success(ByteBlock(metadata) + ByteBlock(validation))
  }

  /** One loop of pack_scores_to_bytes: appends `struct.pack('>H', x)` for each score, failing with `err` at the first outside 0..255. */
  method AppendByteBlock(packed: seq<Byte>, xs: seq<int>, err: Error) returns (r: Result<seq<Byte>, Error>)
    ensures InByteRange(xs) ==> r == Success(packed + ByteBlock(xs))
    ensures !InByteRange(xs) ==> r == Failure(err)
  {
    var acc := packed;
    var i := 0;
    while i < |xs|
      invariant 0 <= i <= |xs|
      invariant InByteRange(xs[..i])
      invariant acc == packed + ByteBlock(xs[..i])
    {
      if !(0 <= xs[i] <= 255) {
        return Failure(err);
      }
      assert xs[..i + 1][..i] == xs[..i];
      acc := acc + [0, xs[i]];
      i := i + 1;
    }
    assert xs[..i] == xs;
    return Success(acc);
  }

  /** pack_scores_to_bytes: the length check, then the metadata loop, then the validation loop. */
  method PackScoresToBytes(metadata: seq<int>, validation: seq<int>) returns (r: Result<seq<Byte>, Error>)
    ensures r == PackedBytes(metadata, validation)
  {
    if |metadata| != |validation| {
      return Failure(LengthMismatch);
    }
    r := AppendByteBlock([], metadata, MetadataOutOfRange);
    if r.Success? {
      assert r.value == ByteBlock(metadata) by {
        assert [] + ByteBlock(metadata) == ByteBlock(metadata);
      }
      r := AppendByteBlock(r.value, validation, ValidationOutOfRange);
    }
  }

  /** Every even (high) byte pack_scores_to_bytes writes is zero. */
  lemma PackedBytesHighZero(metadata: seq<int>, validation: seq<int>, k: nat)
    requires PackedBytes(metadata, validation).Success?
    requires k < |PackedBytes(metadata, validation).value| && k % 2 == 0
    ensures PackedBytes(metadata, validation).value[k] == 0
  {
    var a := ByteBlock(metadata);
    if k < |a| {
      ByteBlockAt(metadata, k / 2);
    } else {
      ByteBlockAt(validation, (k - |a|) / 2);
      assert (a + ByteBlock(validation))[k] == ByteBlock(validation)[k - |a|];
    }
  }

  /** `struct.unpack('>H', bs[2i:2i + 2])[0]`. */
  function Word(bs: seq<Byte>, i: nat): (w: int)
    requires 2 * i + 2 <= |bs|
    ensures 0 <= w < 65536
  {
    bs[2 * i] as int * 256 + bs[2 * i + 1] as int
  }

  /**
   * unpack_scores_from_bytes: with n = len // 2 // 2, the words 0..n-1 are
   * the metadata scores and the words n..2n-1 the validation scores; a
   * trailing partial group is ignored.
   */
  function UnpackedBytes(bs: seq<Byte>): (r: (seq<int>, seq<int>))
    ensures |r.0| == |r.1| == |bs| / 2 / 2
  {
    var n := |bs| / 2 / 2;
    (seq(n, i requires 0 <= i < n => Word(bs, i)), seq(n, i requires 0 <= i < n => Word(bs, n + i)))
  }

  /** unpack_scores_from_bytes: two loops appending to lists. */
  method UnpackScoresFromBytes(bs: seq<Byte>) returns (metadata: seq<int>, validation: seq<int>)
    ensures (metadata, validation) == UnpackedBytes(bs)
  {
    var total := |bs| / 2;
    var n := total / 2;
    metadata := [];
    for i := 0 to n
      invariant metadata == seq(i, k requires 0 <= k < i => Word(bs, k))
    {
      metadata := metadata + [Word(bs, i)];
    }
    validation := [];
    for i := n to 2 * n
      invariant validation == seq(i - n, k requires 0 <= k < i - n => Word(bs, n + k))
    {
      validation := validation + [Word(bs, i)];
    }
  }

  /** unpack_scores_from_bytes inverts pack_scores_to_bytes. */
  lemma UnpackPackedBytes(metadata: seq<int>, validation: seq<int>)
    requires |metadata| == |validation| && InByteRange(metadata) && InByteRange(validation)
    ensures PackedBytes(metadata, validation).Success?
    ensures UnpackedBytes(PackedBytes(metadata, validation).value) == (metadata, validation)
  {
    var a := ByteBlock(metadata);
    var b := ByteBlock(validation);
    var bs := a + b;
    var n := |metadata|;
    assert |bs| / 2 / 2 == n;
    forall i | 0 <= i < n
      ensures Word(bs, i) == metadata[i] && Word(bs, n + i) == validation[i]
    {
      ByteBlockAt(metadata, i);
      ByteBlockAt(validation, i);
      assert bs[2 * (n + i)] == b[2 * i] && bs[2 * (n + i) + 1] == b[2 * i + 1];
    }
    assert UnpackedBytes(bs).0 == metadata;
    assert UnpackedBytes(bs).1 == validation;
  }
}
