/** The bit operations of the integer readers, on the binary digits of natural numbers. Readers of 32 bits end in an
    unsigned shift by zero, which makes the joined word a natural number. */
module Bits {

  function Pow2(k: nat): (p: nat)
    ensures p > 0
  {
    if k == 0 then 1 else 2 * Pow2(k - 1)
  }

  function ShiftLeft(n: nat, k: nat): nat {
    n * Pow2(k)
  }

  function Or(a: nat, b: nat): nat
    decreases a + b
  {
    if a == 0 && b == 0 then 0 else (if a % 2 == 1 || b % 2 == 1 then 1 else 0) + 2 * Or(a / 2, b / 2)
  }

  function And(a: nat, b: nat): nat
    decreases a + b
  {
    if a == 0 && b == 0 then 0 else (if a % 2 == 1 && b % 2 == 1 then 1 else 0) + 2 * And(a / 2, b / 2)
  }

  lemma {:induction false} OrZero(a: nat)
    ensures Or(a, 0) == a && Or(0, a) == a
  {
    if a != 0 { OrZero(a / 2); }
  }

  /** A number and another one shifted past its digits are joined to their sum. */
  lemma {:induction false} JoinIsSum(low: nat, high: nat, k: nat)
    requires low < Pow2(k)
    ensures Or(low, ShiftLeft(high, k)) == low + ShiftLeft(high, k) == Or(ShiftLeft(high, k), low)
    decreases k
  {
    if k == 0 {
      OrZero(high);
    } else {
      var shifted := ShiftLeft(high, k - 1);
      assert ShiftLeft(high, k) == 2 * shifted;
      JoinIsSum(low / 2, high, k - 1);
    }
  }

  /** A mask of k ones leaves the last k digits, the remainder. */
  lemma {:induction false} MaskIsRemainder(quotient: nat, remainder: nat, k: nat)
    requires remainder < Pow2(k)
    ensures And(ShiftLeft(quotient, k) + remainder, Pow2(k) - 1) == remainder
    decreases k
  {
    if k == 0 {
      AndZero(quotient);
    } else {
      assert ShiftLeft(quotient, k) == 2 * ShiftLeft(quotient, k - 1);
      MaskIsRemainder(quotient, remainder / 2, k - 1);
    }
  }

  lemma {:induction false} AndZero(n: nat)
    ensures And(n, 0) == 0
  {
    if n != 0 { AndZero(n / 2); }
  }
}

/** The binary inspector, asset-file-inspector.ts: what its walkers and readers
    find, proved against encoders of the formats. */
module Inspector {
  import opened Rows
  import opened Bits

  type byte = b: int | 0 <= b < 256

  datatype Dimensions = Dimensions(width: nat, height: nat)

  // ----- integer readers -----

  /** A byte past the end reads as zero. The readers below add where the source shifts and joins bits; ReadersJoinBits
      says that this is the same. */
  function At(bytes: seq<byte>, offset: nat): byte {
    if offset < |bytes| then bytes[offset] else 0
  }

  function Slice(bytes: seq<byte>, offset: nat, length: nat): seq<byte> {
    if offset + length <= |bytes| then bytes[offset..offset + length]
    else if offset <= |bytes| then bytes[offset..] else []
  }

  function Uint16Be(bytes: seq<byte>, offset: nat): (n: nat)
    ensures n < 0x1_0000
  {
    At(bytes, offset) * 0x100 + At(bytes, offset + 1)
  }

  function Uint16Le(bytes: seq<byte>, offset: nat): (n: nat)
    ensures n < 0x1_0000
  {
    At(bytes, offset) + At(bytes, offset + 1) * 0x100
  }

  function Uint24Le(bytes: seq<byte>, offset: nat): (n: nat)
    ensures n < 0x100_0000
  {
    At(bytes, offset) + At(bytes, offset + 1) * 0x100 + At(bytes, offset + 2) * 0x1_0000
  }

  function Uint32Be(bytes: seq<byte>, offset: nat): (n: nat)
    ensures n < 0x1_0000_0000
  {
    At(bytes, offset) * 0x100_0000 + At(bytes, offset + 1) * 0x1_0000 + At(bytes, offset + 2) * 0x100 + At(bytes, offset + 3)
  }

  function Uint32Le(bytes: seq<byte>, offset: nat): (n: nat)
    ensures n < 0x1_0000_0000
  {
    At(bytes, offset) + At(bytes, offset + 1) * 0x100 + At(bytes, offset + 2) * 0x1_0000 + At(bytes, offset + 3) * 0x100_0000
  }

  function Synchsafe(bytes: seq<byte>, offset: nat): nat {
    Or(Or(Or(ShiftLeft(At(bytes, offset), 21), ShiftLeft(At(bytes, offset + 1), 14)), ShiftLeft(At(bytes, offset + 2), 7)), At(bytes, offset + 3))
  }

  /** The readers compute the words that the source joins of shifted bytes. */
  lemma ReadersJoinBits(bytes: seq<byte>, o: nat)
    ensures Uint16Be(bytes, o) == Or(ShiftLeft(At(bytes, o), 8), At(bytes, o + 1))
    ensures Uint16Le(bytes, o) == Or(At(bytes, o), ShiftLeft(At(bytes, o + 1), 8))
    ensures Uint24Le(bytes, o) == Or(Or(At(bytes, o), ShiftLeft(At(bytes, o + 1), 8)), ShiftLeft(At(bytes, o + 2), 16))
    ensures Uint32Le(bytes, o)
            == Or(Or(Or(At(bytes, o), ShiftLeft(At(bytes, o + 1), 8)), ShiftLeft(At(bytes, o + 2), 16)), ShiftLeft(At(bytes, o + 3), 24))
    ensures Uint32Be(bytes, o)
            == At(bytes, o) * Pow2(24) + ShiftLeft(At(bytes, o + 1), 16) + ShiftLeft(At(bytes, o + 2), 8) + At(bytes, o + 3)
  {
    assert Pow2(8) == 0x100 && Pow2(16) == 0x1_0000 && Pow2(24) == 0x100_0000;
    var a, b, c, d := At(bytes, o), At(bytes, o + 1), At(bytes, o + 2), At(bytes, o + 3);
    JoinIsSum(b, a, 8);
    JoinIsSum(a, b, 8);
    JoinIsSum(a + ShiftLeft(b, 8), c, 16);
    JoinIsSum(a + ShiftLeft(b, 8) + ShiftLeft(c, 16), d, 24);
  }

  /** The 14-bit fields of a word are cut out by shifts and masks. */
  lemma FieldsAreMasked(packed: nat)
    ensures And(packed, 0x3fff) == packed % 0x4000
    ensures And(packed / 0x4000, 0x3fff) == packed / 0x4000 % 0x4000
  {
    assert Pow2(14) == 0x4000;
    MaskIsRemainder(packed / 0x4000, packed % 0x4000, 14);
    MaskIsRemainder(packed / 0x4000 / 0x4000, packed / 0x4000 % 0x4000, 14);
  }

  // ----- encoders -----

  function EncodeSynchsafe(n: nat): (bytes: seq<byte>)
    requires n < 0x1000_0000
  {
    [n / 0x20_0000, n / 0x4000 % 0x80, n / 0x80 % 0x80, n % 0x80]
  }

  function EncodeUint16Be(n: nat): (bytes: seq<byte>)
    requires n < 0x1_0000
    ensures |bytes| == 2
  {
    [n / 0x100, n % 0x100]
  }

  function EncodeUint16Le(n: nat): (bytes: seq<byte>)
    requires n < 0x1_0000
    ensures |bytes| == 2
  {
    [n % 0x100, n / 0x100]
  }

  function EncodeUint24Le(n: nat): (bytes: seq<byte>)
    requires n < 0x100_0000
    ensures |bytes| == 3
  {
    [n % 0x100, n / 0x100 % 0x100, n / 0x1_0000]
  }

  function EncodeUint32Be(n: nat): (bytes: seq<byte>)
    requires n < 0x1_0000_0000
    ensures |bytes| == 4
  {
    [n / 0x100_0000, n / 0x1_0000 % 0x100, n / 0x100 % 0x100, n % 0x100]
  }

  function EncodeUint32Le(n: nat): (bytes: seq<byte>)
    requires n < 0x1_0000_0000
    ensures |bytes| == 4
  {
    [n % 0x100, n / 0x100 % 0x100, n / 0x1_0000 % 0x100, n / 0x100_0000]
  }

  /** These bytes stand at this offset. */
  predicate Stands(bytes: seq<byte>, offset: nat, part: seq<byte>) {
    offset + |part| <= |bytes| && forall i | 0 <= i < |part| :: bytes[offset + i] == part[i]
  }

  lemma StandsSplits(bytes: seq<byte>, offset: nat, left: seq<byte>, right: seq<byte>)
    requires Stands(bytes, offset, left + right)
    ensures Stands(bytes, offset, left) && Stands(bytes, offset + |left|, right)
  {
    forall i | 0 <= i < |left| ensures bytes[offset + i] == left[i] {
      assert bytes[offset + i] == (left + right)[i];
    }
    forall i | 0 <= i < |right| ensures bytes[offset + |left| + i] == right[i] {
      assert bytes[offset + (|left| + i)] == (left + right)[|left| + i];
    }
  }

  lemma PartStands(left: seq<byte>, part: seq<byte>, right: seq<byte>)
    ensures Stands(left + part + right, |left|, part)
  {
  }

  lemma TwoPartsStand(left: seq<byte>, first: seq<byte>, second: seq<byte>, right: seq<byte>)
    ensures Stands(left + first + second + right, |left|, first)
    ensures Stands(left + first + second + right, |left| + |first|, second)
  {
    assert left + first + second + right == left + first + (second + right);
    PartStands(left, first, second + right);
    PartStands(left + first, second, right);
  }

  lemma Digits(n: nat)
    ensures n < 0x1_0000 ==> n / 0x100 * 0x100 + n % 0x100 == n
    ensures n < 0x100_0000 ==> n % 0x100 + n / 0x100 % 0x100 * 0x100 + n / 0x1_0000 * 0x1_0000 == n
    ensures n < 0x1_0000_0000 ==>
              n % 0x100 + n / 0x100 % 0x100 * 0x100 + n / 0x1_0000 % 0x100 * 0x1_0000 + n / 0x100_0000 * 0x100_0000 == n
  {
    var q := n / 0x100;
    var r := q / 0x100;
    assert n / 0x1_0000 == r;
    assert n / 0x100_0000 == r / 0x100;
  }

  /** Every reader inverts its encoder wherever the encoding stands. */
  lemma ReadersInvertEncoders(bytes: seq<byte>, offset: nat, n: nat)
    ensures n < 0x1_0000 && Stands(bytes, offset, EncodeUint16Be(n)) ==> Uint16Be(bytes, offset) == n
    ensures n < 0x1_0000 && Stands(bytes, offset, EncodeUint16Le(n)) ==> Uint16Le(bytes, offset) == n
    ensures n < 0x100_0000 && Stands(bytes, offset, EncodeUint24Le(n)) ==> Uint24Le(bytes, offset) == n
    ensures n < 0x1_0000_0000 && Stands(bytes, offset, EncodeUint32Be(n)) ==> Uint32Be(bytes, offset) == n
    ensures n < 0x1_0000_0000 && Stands(bytes, offset, EncodeUint32Le(n)) ==> Uint32Le(bytes, offset) == n
  {
    Digits(n);
    if n < 0x1_0000 && Stands(bytes, offset, EncodeUint16Be(n)) { Read2(bytes, offset, EncodeUint16Be(n)); }
    if n < 0x1_0000 && Stands(bytes, offset, EncodeUint16Le(n)) { Read2(bytes, offset, EncodeUint16Le(n)); }
    if n < 0x100_0000 && Stands(bytes, offset, EncodeUint24Le(n)) { Read3(bytes, offset, EncodeUint24Le(n)); }
    if n < 0x1_0000_0000 && Stands(bytes, offset, EncodeUint32Be(n)) { Read4(bytes, offset, EncodeUint32Be(n)); }
    if n < 0x1_0000_0000 && Stands(bytes, offset, EncodeUint32Le(n)) { Read4(bytes, offset, EncodeUint32Le(n)); }
  }

  lemma SevensJoin(a: nat, b: nat, c: nat, d: nat)
    requires b < 0x80 && c < 0x80 && d < 0x80
    ensures Or(Or(Or(ShiftLeft(a, 21), ShiftLeft(b, 14)), ShiftLeft(c, 7)), d) == a * 0x20_0000 + b * 0x4000 + c * 0x80 + d
  {
    assert Pow2(7) == 0x80 && Pow2(14) == 0x4000 && Pow2(21) == 0x20_0000;
    JoinIsSum(ShiftLeft(b, 14), a, 21);
    assert Or(ShiftLeft(a, 21), ShiftLeft(b, 14)) == ShiftLeft(a * 0x80 + b, 14);
    JoinIsSum(ShiftLeft(c, 7), a * 0x80 + b, 14);
    assert Or(ShiftLeft(a * 0x80 + b, 14), ShiftLeft(c, 7)) == ShiftLeft(a * 0x4000 + b * 0x80 + c, 7);
    JoinIsSum(d, a * 0x4000 + b * 0x80 + c, 7);
  }

  lemma Sevens(n: nat)
    ensures n == n / 0x20_0000 * 0x20_0000 + n / 0x4000 % 0x80 * 0x4000 + n / 0x80 % 0x80 * 0x80 + n % 0x80
  {
    var q := n / 0x80;
    var r := q / 0x80;
    assert n / 0x4000 == r && n / 0x20_0000 == r / 0x80;
  }

  lemma SynchsafeInverts(bytes: seq<byte>, offset: nat, n: nat)
    requires n < 0x1000_0000 && Stands(bytes, offset, EncodeSynchsafe(n))
    ensures Synchsafe(bytes, offset) == n
  {
    Read4(bytes, offset, EncodeSynchsafe(n));
    SevensJoin(n / 0x20_0000, n / 0x4000 % 0x80, n / 0x80 % 0x80, n % 0x80);
    Sevens(n);
  }

  lemma Read2(bytes: seq<byte>, offset: nat, part: seq<byte>)
    requires |part| == 2 && Stands(bytes, offset, part)
    ensures At(bytes, offset) == part[0] && At(bytes, offset + 1) == part[1]
  {
    assert bytes[offset + 0] == part[0];
  }

  lemma Read3(bytes: seq<byte>, offset: nat, part: seq<byte>)
    requires |part| == 3 && Stands(bytes, offset, part)
    ensures At(bytes, offset) == part[0] && At(bytes, offset + 1) == part[1] && At(bytes, offset + 2) == part[2]
  {
    assert bytes[offset + 0] == part[0];
  }

  lemma Read4(bytes: seq<byte>, offset: nat, part: seq<byte>)
    requires |part| == 4 && Stands(bytes, offset, part)
    ensures At(bytes, offset) == part[0] && At(bytes, offset + 1) == part[1] && At(bytes, offset + 2) == part[2] && At(bytes, offset + 3) == part[3]
  {
    assert bytes[offset + 0] == part[0];
  }
}
/** The JPEG segment walker. */
module Jpeg {
  import opened Rows
  import opened Inspector

  predicate StartOfFrame(marker: byte) {
    || 0xC0 <= marker <= 0xC3 || 0xC5 <= marker <= 0xC7 || 0xC9 <= marker <= 0xCB || 0xCD <= marker <= 0xCF
  }

  predicate Standalone(marker: byte) {
    marker == 0xD8 || marker == 0xD9
  }

  /** What the walk finds from an offset on. */
  function Walk(bytes: seq<byte>, offset: nat): Option<Dimensions>
    decreases |bytes| - offset
  {
    if offset + 8 >= |bytes| then None
    else if bytes[offset] != 0xFF then Walk(bytes, offset + 1)
    else if Standalone(bytes[offset + 1]) then Walk(bytes, offset + 2)
    else
      var length := Uint16Be(bytes, offset + 2);
      if length < 2 || offset + length + 2 > |bytes| then None
      else if StartOfFrame(bytes[offset + 1]) then Some(Dimensions(Uint16Be(bytes, offset + 7), Uint16Be(bytes, offset + 5)))
      else Walk(bytes, offset + length + 2)
  }

  method ReadDimensions(bytes: seq<byte>) returns (dimensions: Option<Dimensions>)
    ensures dimensions == Walk(bytes, 2)
  {
    var offset: nat := 2;
    while offset + 8 < |bytes|
      invariant Walk(bytes, offset) == Walk(bytes, 2)
      decreases |bytes| - offset
    {
      if bytes[offset] != 0xFF {
        offset := offset + 1;
        continue;
      }
      var marker := bytes[offset + 1];
      if marker == 0xD8 || marker == 0xD9 {
        offset := offset + 2;
        continue;
      }
      var length := Uint16Be(bytes, offset + 2);
      if length < 2 || offset + length + 2 > |bytes| {
        break;
      }
      if StartOfFrame(marker) {
        return Some(Dimensions(Uint16Be(bytes, offset + 7), Uint16Be(bytes, offset + 5)));
      }
      offset := offset + length + 2;
    }
    return None;
  }

  // ----- the encoder: section B.2.2 of ITU-T T.81 -----

  datatype Segment = Segment(marker: byte, payload: seq<byte>)

  predicate Fits(segment: Segment) {
    |segment.payload| + 2 < 0x1_0000 && !Standalone(segment.marker)
  }

  function EncodeSegment(segment: Segment): (bytes: seq<byte>)
    requires Fits(segment)
    ensures |bytes| == |segment.payload| + 4
  {
    [0xFF, segment.marker] + EncodeUint16Be(|segment.payload| + 2) + segment.payload
  }

  function EncodeSegments(segments: seq<Segment>): seq<byte>
    requires forall i | 0 <= i < |segments| :: Fits(segments[i])
  {
    if segments == [] then [] else EncodeSegment(segments[0]) + EncodeSegments(segments[1..])
  }

  datatype Frame = Frame(marker: byte, precision: byte, height: nat, width: nat, components: seq<byte>)

  predicate FrameFits(frame: Frame) {
    StartOfFrame(frame.marker) && frame.height < 0x1_0000 && frame.width < 0x1_0000 && |frame.components| + 7 < 0x1_0000
  }

  function FrameSegment(frame: Frame): (segment: Segment)
    requires FrameFits(frame)
    ensures Fits(segment)
  {
    Segment(frame.marker, [frame.precision] + EncodeUint16Be(frame.height) + EncodeUint16Be(frame.width) + frame.components)
  }

  predicate Ordinary(segments: seq<Segment>) {
    forall i | 0 <= i < |segments| :: Fits(segments[i]) && !StartOfFrame(segments[i].marker)
  }

  function Encode(segments: seq<Segment>, frame: Frame): seq<byte>
    requires Ordinary(segments) && FrameFits(frame)
  {
    [0xFF, 0xD8] + EncodeSegments(segments) + EncodeSegment(FrameSegment(frame))
  }

  // ----- the walk inverts the encoder -----

  /** At an encoded segment the walk reads its length. */
  lemma SegmentStands(bytes: seq<byte>, offset: nat, segment: Segment)
    requires Fits(segment) && Stands(bytes, offset, EncodeSegment(segment))
    ensures bytes[offset] == 0xFF && bytes[offset + 1] == segment.marker && Uint16Be(bytes, offset + 2) == |segment.payload| + 2
    ensures Stands(bytes, offset + 4, segment.payload)
  {
    var encoded := EncodeSegment(segment);
    var length := EncodeUint16Be(|segment.payload| + 2);
    assert encoded[0] == 0xFF && encoded[1] == segment.marker && encoded[2..4] == length && encoded[4..] == segment.payload;
    assert bytes[offset + 0] == encoded[0] && bytes[offset + 1] == encoded[1];
    forall i | 0 <= i < 2 ensures bytes[offset + 2 + i] == length[i] {
      assert bytes[offset + (2 + i)] == encoded[2 + i];
    }
    forall i | 0 <= i < |segment.payload| ensures bytes[offset + 4 + i] == segment.payload[i] {
      assert bytes[offset + (4 + i)] == encoded[4 + i];
    }
    ReadersInvertEncoders(bytes, offset + 2, |segment.payload| + 2);
  }

  lemma FrameStands(bytes: seq<byte>, offset: nat, frame: Frame)
    requires FrameFits(frame) && Stands(bytes, offset, EncodeSegment(FrameSegment(frame)))
    ensures Uint16Be(bytes, offset + 5) == frame.height && Uint16Be(bytes, offset + 7) == frame.width
  {
    SegmentStands(bytes, offset, FrameSegment(frame));
    var height, width := EncodeUint16Be(frame.height), EncodeUint16Be(frame.width);
    assert FrameSegment(frame).payload == [frame.precision] + (height + (width + frame.components));
    StandsSplits(bytes, offset + 4, [frame.precision], height + (width + frame.components));
    StandsSplits(bytes, offset + 5, height, width + frame.components);
    StandsSplits(bytes, offset + 7, width, frame.components);
    ReadersInvertEncoders(bytes, offset + 5, frame.height);
    ReadersInvertEncoders(bytes, offset + 7, frame.width);
  }

  /** From ordinary segments the walk arrives at whatever stands behind them, if enough of it is there. */
  lemma {:induction false} WalkSkips(bytes: seq<byte>, offset: nat, segments: seq<Segment>)
    requires Ordinary(segments) && Stands(bytes, offset, EncodeSegments(segments))
    requires offset + |EncodeSegments(segments)| + 9 <= |bytes|
    ensures Walk(bytes, offset) == Walk(bytes, offset + |EncodeSegments(segments)|)
    decreases |segments|
  {
    if segments != [] {
      StandsSplits(bytes, offset, EncodeSegment(segments[0]), EncodeSegments(segments[1..]));
      SegmentStands(bytes, offset, segments[0]);
      WalkSkips(bytes, offset + |EncodeSegment(segments[0])|, segments[1..]);
    }
  }

  lemma PartsStand(segments: seq<Segment>, frame: Frame, tail: seq<byte>)
    requires Ordinary(segments) && FrameFits(frame)
    ensures var bytes := Encode(segments, frame) + tail;
            && Stands(bytes, 2, EncodeSegments(segments))
            && Stands(bytes, 2 + |EncodeSegments(segments)|, EncodeSegment(FrameSegment(frame)))
  {
    var bytes := Encode(segments, frame) + tail;
    var all, header := EncodeSegments(segments), EncodeSegment(FrameSegment(frame));
    assert bytes == [0xFF, 0xD8] + all + (header + tail);
    PartStands([0xFF, 0xD8], all, header + tail);
    assert bytes == ([0xFF, 0xD8] + all) + header + tail;
    PartStands([0xFF, 0xD8] + all, header, tail);
  }

  lemma WalkAtFrame(bytes: seq<byte>, offset: nat, frame: Frame)
    requires FrameFits(frame) && Stands(bytes, offset, EncodeSegment(FrameSegment(frame)))
    ensures Walk(bytes, offset) == Some(Dimensions(frame.width, frame.height))
  {
    SegmentStands(bytes, offset, FrameSegment(frame));
    FrameStands(bytes, offset, frame);
  }

  /** For any ordinary segments, any frame header and anything behind it, the walk returns the frame's size. */
  lemma WalkFindsFrame(segments: seq<Segment>, frame: Frame, tail: seq<byte>)
    requires Ordinary(segments) && FrameFits(frame)
    ensures Walk(Encode(segments, frame) + tail, 2) == Some(Dimensions(frame.width, frame.height))
  {
    var bytes := Encode(segments, frame) + tail;
    PartsStand(segments, frame, tail);
    WalkSkips(bytes, 2, segments);
    WalkAtFrame(bytes, 2 + |EncodeSegments(segments)|, frame);
  }

  /** Bytes that end inside the segments or inside the frame header yield nothing. */
  lemma {:induction false} TruncatedYieldsNothing(bytes: seq<byte>, offset: nat, segments: seq<Segment>, whole: seq<byte>)
    requires segments != [] && forall i | 0 <= i < |segments| :: Fits(segments[i])
    requires forall i | 0 <= i < |segments| - 1 :: !StartOfFrame(segments[i].marker)
    requires offset <= |bytes| < |whole| && bytes == whole[..|bytes|]
    requires Stands(whole, offset, EncodeSegments(segments)) && |bytes| < offset + |EncodeSegments(segments)|
    ensures Walk(bytes, offset) == None
    decreases |segments|
  {
    var first := EncodeSegment(segments[0]);
    StandsSplits(whole, offset, first, EncodeSegments(segments[1..]));
    SegmentStands(whole, offset, segments[0]);
    if offset + 8 < |bytes| && offset + |first| <= |bytes| {
      assert |segments| > 1;
      TruncatedYieldsNothing(bytes, offset + |first|, segments[1..], whole);
    }
  }

  /** A file cut anywhere before the end of its frame header has no dimensions; cut later, it has the frame's. */
  lemma DimensionsIffFrameInspected(segments: seq<Segment>, frame: Frame, tail: seq<byte>, cut: nat)
    requires Ordinary(segments) && FrameFits(frame)
    requires 2 <= cut <= |Encode(segments, frame) + tail|
    ensures Walk((Encode(segments, frame) + tail)[..cut], 2)
            == if cut >= |Encode(segments, frame)| then Some(Dimensions(frame.width, frame.height)) else None
  {
    var encoded := Encode(segments, frame);
    if cut >= |encoded| {
      assert (encoded + tail)[..cut] == encoded + tail[..cut - |encoded|];
      WalkFindsFrame(segments, frame, tail[..cut - |encoded|]);
    } else {
      assert (encoded + tail)[..cut] == encoded[..cut];
      var all := segments + [FrameSegment(frame)];
      SegmentsConcat(segments, FrameSegment(frame));
      assert encoded == [0xFF, 0xD8] + EncodeSegments(all);
      StandsSplits(encoded, 0, [0xFF, 0xD8], EncodeSegments(all));
      TruncatedYieldsNothing(encoded[..cut], 2, all, encoded);
    }
  }

  lemma {:induction false} SegmentsConcat(segments: seq<Segment>, last: Segment)
    requires Fits(last) && forall i | 0 <= i < |segments| :: Fits(segments[i])
    ensures EncodeSegments(segments + [last]) == EncodeSegments(segments) + EncodeSegment(last)
  {
    if segments == [] {
      assert EncodeSegments([last]) == EncodeSegment(last) + EncodeSegments([last][1..]);
    } else {
      assert (segments + [last])[1..] == segments[1..] + [last];
      SegmentsConcat(segments[1..], last);
    }
  }

  /** What is returned for arbitrary bytes is the size in a start-of-frame segment that lies fully inside them. */
  lemma {:induction false} WalkReturnsAFrame(bytes: seq<byte>, offset: nat) returns (at: nat)
    requires Walk(bytes, offset).Some?
    ensures offset <= at && at + 8 < |bytes| && bytes[at] == 0xFF && StartOfFrame(bytes[at + 1])
    ensures at + 2 + Uint16Be(bytes, at + 2) <= |bytes|
    ensures Walk(bytes, offset) == Some(Dimensions(Uint16Be(bytes, at + 7), Uint16Be(bytes, at + 5)))
    decreases |bytes| - offset
  {
    if bytes[offset] != 0xFF {
      at := WalkReturnsAFrame(bytes, offset + 1);
    } else if Standalone(bytes[offset + 1]) {
      at := WalkReturnsAFrame(bytes, offset + 2);
    } else if StartOfFrame(bytes[offset + 1]) {
      at := offset;
    } else {
      at := WalkReturnsAFrame(bytes, offset + Uint16Be(bytes, offset + 2) + 2);
    }
  }
}
/** The RIFF chunk walker behind the duration of a WAV file. */
module Riff {
  import opened Rows
  import opened Inspector

  const FMT: seq<byte> := [0x66, 0x6D, 0x74, 0x20]
  const DATA: seq<byte> := [0x64, 0x61, 0x74, 0x61]

  /** byteRate and dataSize as the walk leaves them. */
  datatype Found = Found(rate: Option<nat>, data: Option<int>)

  function Min(a: int, b: int): int {
    if a < b then a else b
  }

  function Padded(size: nat): nat {
    size + size % 2
  }

  /** The four characters at an offset are these. */
  predicate IdAt(bytes: seq<byte>, offset: nat, id: seq<byte>)
    requires offset + 4 <= |bytes| && |id| == 4
  {
    bytes[offset] == id[0] && bytes[offset + 1] == id[1] && bytes[offset + 2] == id[2] && bytes[offset + 3] == id[3]
  }

  function Walk(bytes: seq<byte>, objectSize: int, offset: nat, rate: Option<nat>): Found
    decreases |bytes| - offset
  {
    if offset + 8 > |bytes| then Found(rate, None)
    else
      var size := Uint32Le(bytes, offset + 4);
      if IdAt(bytes, offset, FMT) && offset + 16 <= |bytes| then
        Walk(bytes, objectSize, offset + 8 + Padded(size), Some(Uint32Le(bytes, offset + 12)))
      else if IdAt(bytes, offset, DATA) then Found(rate, Some(Min(size, objectSize - offset - 8)))
      else Walk(bytes, objectSize, offset + 8 + Padded(size), rate)
  }

  /** The quotient is the source's division, without its rounding. */
  function Duration(found: Found): Option<real> {
    if found.rate.Some? && found.rate.value != 0 && found.data.Some?
    then Some(found.data.value as real / found.rate.value as real) else None
  }

  method ReadDuration(bytes: seq<byte>, objectSize: int) returns (duration: Option<real>)
    ensures duration == Duration(Walk(bytes, objectSize, 12, None))
  {
    var offset: nat := 12;
    var rate: Option<nat> := None;
    var data: Option<int> := None;
    while offset + 8 <= |bytes|
      invariant data == None
      invariant Walk(bytes, objectSize, offset, rate) == Walk(bytes, objectSize, 12, None)
      decreases |bytes| - offset
    {
      var size := Uint32Le(bytes, offset + 4);
      if IdAt(bytes, offset, FMT) && offset + 16 <= |bytes| {
        rate := Some(Uint32Le(bytes, offset + 12));
      } else if IdAt(bytes, offset, DATA) {
        data := Some(Min(size, objectSize - offset - 8));
        break;
      }
      offset := offset + 8 + size + size % 2;
    }
    duration := if rate.Some? && rate.value != 0 && data.Some? then Some(data.value as real / rate.value as real) else None;
  }

  // ----- the encoder -----

  datatype Chunk = Chunk(id: seq<byte>, payload: seq<byte>)

  predicate Fits(chunk: Chunk) {
    |chunk.id| == 4 && |chunk.payload| < 0x1_0000_0000
  }

  function Header(id: seq<byte>, size: nat): (bytes: seq<byte>)
    requires |id| == 4 && size < 0x1_0000_0000
    ensures |bytes| == 8
  {
    id + EncodeUint32Le(size)
  }

  function EncodeChunk(chunk: Chunk): (bytes: seq<byte>)
    requires Fits(chunk)
    ensures |bytes| == 8 + Padded(|chunk.payload|)
  {
    Header(chunk.id, |chunk.payload|) + chunk.payload + (if |chunk.payload| % 2 == 1 then [0] else [])
  }

  predicate AllFit(chunks: seq<Chunk>) {
    forall i | 0 <= i < |chunks| :: Fits(chunks[i]) && chunks[i].id != DATA
  }

  function EncodeChunks(chunks: seq<Chunk>): seq<byte>
    requires AllFit(chunks)
  {
    if chunks == [] then [] else EncodeChunk(chunks[0]) + EncodeChunks(chunks[1..])
  }

  /** The payload of the last format chunk. */
  function LastFormat(chunks: seq<Chunk>): Option<seq<byte>> {
    if chunks == [] then None
    else if LastFormat(chunks[1..]).Some? then LastFormat(chunks[1..])
    else if chunks[0].id == FMT then Some(chunks[0].payload)
    else None
  }

  /** A format chunk too short for a field makes the walk read on into whatever follows; the last one is not. */
  predicate FormatHolds(chunks: seq<Chunk>, length: nat) {
    LastFormat(chunks).Some? ==> |LastFormat(chunks).value| >= length
  }

  /** A 32-bit field of the last format chunk. */
  function Field(chunks: seq<Chunk>, at: nat): Option<nat> {
    if LastFormat(chunks).Some? then Some(Uint32Le(LastFormat(chunks).value, at)) else None
  }

  /** nSamplesPerSec and nAvgBytesPerSec of a WAVEFORMAT. */
  const SAMPLES := 4
  const BYTES := 8

  /** The rate after one chunk: a format chunk sets it from the four bytes at its offset 12, which for a payload of
      eight bytes or more are payload bytes 4 to 7, and for a shorter one lie in whatever follows. */
  function NextRate(bytes: seq<byte>, offset: nat, chunk: Chunk, rate: Option<nat>): Option<nat> {
    if chunk.id == FMT && offset + 16 <= |bytes| then Some(Uint32Le(bytes, offset + 12)) else rate
  }

  function RateAfter(bytes: seq<byte>, offset: nat, chunks: seq<Chunk>, rate: Option<nat>): Option<nat>
    requires AllFit(chunks)
    decreases |chunks|
  {
    if chunks == [] then rate
    else RateAfter(bytes, offset + |EncodeChunk(chunks[0])|, chunks[1..], NextRate(bytes, offset, chunks[0], rate))
  }

  lemma HeaderStands(bytes: seq<byte>, offset: nat, id: seq<byte>, size: nat)
    requires |id| == 4 && size < 0x1_0000_0000 && Stands(bytes, offset, Header(id, size))
    ensures offset + 8 <= |bytes| && Uint32Le(bytes, offset + 4) == size
    ensures forall other: seq<byte> | |other| == 4 :: IdAt(bytes, offset, other) <==> id == other
  {
    StandsSplits(bytes, offset, id, EncodeUint32Le(size));
    ReadersInvertEncoders(bytes, offset + 4, size);
    assert bytes[offset + 0] == id[0] && bytes[offset + 1] == id[1] && bytes[offset + 2] == id[2] && bytes[offset + 3] == id[3];
  }

  lemma FormatStands(bytes: seq<byte>, offset: nat, payload: seq<byte>)
    requires |payload| >= 8 && Stands(bytes, offset, payload)
    ensures Uint32Le(bytes, offset + 4) == Uint32Le(payload, 4)
  {
    assert bytes[offset + 4] == payload[4] && bytes[offset + 5] == payload[5] && bytes[offset + 6] == payload[6] && bytes[offset + 7] == payload[7];
  }

  lemma ChunkStands(bytes: seq<byte>, offset: nat, chunk: Chunk)
    requires Fits(chunk) && Stands(bytes, offset, EncodeChunk(chunk))
    ensures offset + 8 <= |bytes| && Uint32Le(bytes, offset + 4) == |chunk.payload|
    ensures forall other: seq<byte> | |other| == 4 :: IdAt(bytes, offset, other) <==> chunk.id == other
    ensures Stands(bytes, offset + 8, chunk.payload)
  {
    var pad: seq<byte> := if |chunk.payload| % 2 == 1 then [0] else [];
    assert EncodeChunk(chunk) == Header(chunk.id, |chunk.payload|) + (chunk.payload + pad);
    StandsSplits(bytes, offset, Header(chunk.id, |chunk.payload|), chunk.payload + pad);
    StandsSplits(bytes, offset + 8, chunk.payload, pad);
    HeaderStands(bytes, offset, chunk.id, |chunk.payload|);
  }

  lemma WalkStep(bytes: seq<byte>, objectSize: int, offset: nat, chunk: Chunk, rate: Option<nat>)
    requires Fits(chunk) && chunk.id != DATA && Stands(bytes, offset, EncodeChunk(chunk))
    ensures Walk(bytes, objectSize, offset, rate)
            == Walk(bytes, objectSize, offset + |EncodeChunk(chunk)|, NextRate(bytes, offset, chunk, rate))
  {
    ChunkStands(bytes, offset, chunk);
  }

  /** The walk lands on every padded chunk boundary and remembers what the last format chunk set. */
  lemma {:induction false} WalkSkips(bytes: seq<byte>, objectSize: int, offset: nat, chunks: seq<Chunk>, rate: Option<nat>)
    requires AllFit(chunks) && Stands(bytes, offset, EncodeChunks(chunks))
    ensures Walk(bytes, objectSize, offset, rate)
            == Walk(bytes, objectSize, offset + |EncodeChunks(chunks)|, RateAfter(bytes, offset, chunks, rate))
    decreases |chunks|
  {
    if chunks != [] {
      var first, rest := chunks[0], chunks[1..];
      StandsSplits(bytes, offset, EncodeChunk(first), EncodeChunks(rest));
      WalkStep(bytes, objectSize, offset, first, rate);
      WalkSkips(bytes, objectSize, offset + |EncodeChunk(first)|, rest, NextRate(bytes, offset, first, rate));
    }
  }

  /** If the last format chunk is complete, that is its samples per second. */
  lemma {:induction false} RateIsSamplesPerSecond(bytes: seq<byte>, offset: nat, chunks: seq<Chunk>, rate: Option<nat>)
    requires AllFit(chunks) && FormatHolds(chunks, 8) && Stands(bytes, offset, EncodeChunks(chunks))
    ensures RateAfter(bytes, offset, chunks, rate) == if LastFormat(chunks).Some? then Field(chunks, SAMPLES) else rate
    decreases |chunks|
  {
    if chunks != [] {
      var first, rest := chunks[0], chunks[1..];
      StandsSplits(bytes, offset, EncodeChunk(first), EncodeChunks(rest));
      ChunkStands(bytes, offset, first);
      if first.id == FMT && |first.payload| >= 8 { FormatStands(bytes, offset + 8, first.payload); }
      RateIsSamplesPerSecond(bytes, offset + |EncodeChunk(first)|, rest, NextRate(bytes, offset, first, rate));
    }
  }

  predicate FileHeader(header: seq<byte>) {
    |header| == 12
  }

  lemma WalkAtData(bytes: seq<byte>, objectSize: int, offset: nat, size: nat, rate: Option<nat>)
    requires size < 0x1_0000_0000 && Stands(bytes, offset, Header(DATA, size))
    ensures Walk(bytes, objectSize, offset, rate) == Found(rate, Some(Min(size, objectSize - offset - 8)))
  {
    HeaderStands(bytes, offset, DATA, size);
  }

  lemma WalkToData(bytes: seq<byte>, objectSize: int, chunks: seq<Chunk>, size: nat)
    requires AllFit(chunks) && size < 0x1_0000_0000
    requires Stands(bytes, 12, EncodeChunks(chunks)) && Stands(bytes, 12 + |EncodeChunks(chunks)|, Header(DATA, size))
    ensures Walk(bytes, objectSize, 12, None)
            == Found(RateAfter(bytes, 12, chunks, None), Some(Min(size, objectSize - (12 + |EncodeChunks(chunks)|) - 8)))
  {
    WalkSkips(bytes, objectSize, 12, chunks, None);
    WalkAtData(bytes, objectSize, 12 + |EncodeChunks(chunks)|, size, RateAfter(bytes, 12, chunks, None));
  }

  /** The walk stops at the first data chunk, whatever precedes and follows it, and takes its declared size up to the
      end of the stored object; the rate is the last format chunk's if that one is complete. */
  lemma WalkStopsAtData(header: seq<byte>, chunks: seq<Chunk>, size: nat, tail: seq<byte>, objectSize: int)
    requires FileHeader(header) && AllFit(chunks) && size < 0x1_0000_0000
    ensures var bytes := header + EncodeChunks(chunks) + Header(DATA, size) + tail;
            var found := Walk(bytes, objectSize, 12, None);
            && found.data == Some(Min(size, objectSize - (12 + |EncodeChunks(chunks)|) - 8))
            && found.rate == RateAfter(bytes, 12, chunks, None)
            && (FormatHolds(chunks, 8) ==> found.rate == Field(chunks, SAMPLES))
  {
    var bytes := header + EncodeChunks(chunks) + Header(DATA, size) + tail;
    TwoPartsStand(header, EncodeChunks(chunks), Header(DATA, size), tail);
    WalkToData(bytes, objectSize, chunks, size);
    if FormatHolds(chunks, 8) { RateIsSamplesPerSecond(bytes, 12, chunks, None); }
  }

  // ----- whether it is the duration -----

  function EncodeFile(header: seq<byte>, chunks: seq<Chunk>, size: nat, tail: seq<byte>): seq<byte>
    requires FileHeader(header) && AllFit(chunks) && size < 0x1_0000_0000
  {
    header + EncodeChunks(chunks) + Header(DATA, size) + tail
  }

  function Reported(bytes: seq<byte>, objectSize: int): Option<real> {
    Duration(Walk(bytes, objectSize, 12, None))
  }

  /** The bytes that the walk takes for the sound. */
  function SoundBytes(chunks: seq<Chunk>, size: nat, objectSize: int): int
    requires AllFit(chunks)
  {
    Min(size, objectSize - (12 + |EncodeChunks(chunks)|) - 8)
  }

  /** The time that the sound takes: its bytes by the bytes that play in a second. */
  function PlayingTime(chunks: seq<Chunk>, size: nat, objectSize: int): Option<real>
    requires AllFit(chunks)
  {
    Duration(Found(Field(chunks, BYTES), Some(SoundBytes(chunks, size, objectSize))))
  }

  lemma Quotients(data: int, one: nat, other: nat)
    requires one != 0 && other != 0
    ensures data as real / one as real == data as real / other as real <==> data == 0 || one == other
  {
    var x, y, d := one as real, other as real, data as real;
    if d / x == d / y {
      assert d == d / x * x && d == d / y * y;
      assert d / x * (x - y) == 0.0;
    }
  }

  lemma Stretched(data: int, rate: nat, other: nat, align: nat, reported: real, playing: real)
    requires rate != 0 && other != 0 && other == rate * align
    requires reported == data as real / rate as real && playing == data as real / other as real
    ensures reported == align as real * playing
  {
    var x, y, d := rate as real, other as real, data as real;
    assert y == x * align as real;
    assert d == playing * y;
    assert d == (align as real * playing) * x;
  }

  lemma ExceedsIff(data: int, rate: nat, limit: nat)
    requires rate != 0
    ensures data as real / rate as real > limit as real <==> data > limit * rate
  {
    var d, x, q := data as real, rate as real, data as real / rate as real;
    assert d == q * x;
    assert limit as real * x == (limit * rate) as real;
    if q > limit as real { assert q * x > limit as real * x; } else { assert q * x <= limit as real * x; }
  }

  /** The reported duration is the playing time exactly when a second has as many bytes as samples, when there is no
      format chunk to go by, or when there is nothing to play at two rates other than zero. */
  lemma DurationIsPlayingTimeIff(header: seq<byte>, chunks: seq<Chunk>, size: nat, tail: seq<byte>, objectSize: int)
    requires FileHeader(header) && AllFit(chunks) && size < 0x1_0000_0000 && FormatHolds(chunks, 12)
    ensures var samples, rate := Field(chunks, SAMPLES), Field(chunks, BYTES);
            Reported(EncodeFile(header, chunks, size, tail), objectSize) == PlayingTime(chunks, size, objectSize)
            <==> samples == rate || (samples != Some(0) && rate != Some(0) && SoundBytes(chunks, size, objectSize) == 0)
  {
    WalkStopsAtData(header, chunks, size, tail, objectSize);
    var samples, rate := Field(chunks, SAMPLES), Field(chunks, BYTES);
    if samples.Some? && samples != Some(0) && rate != Some(0) {
      Quotients(SoundBytes(chunks, size, objectSize), samples.value, rate.value);
    }
  }

  lemma BothQuotients(header: seq<byte>, chunks: seq<Chunk>, size: nat, tail: seq<byte>, objectSize: int, samples: Pos, rate: Pos)
    requires FileHeader(header) && AllFit(chunks) && size < 0x1_0000_0000 && FormatHolds(chunks, 12)
    requires Field(chunks, SAMPLES) == Some(samples) && Field(chunks, BYTES) == Some(rate)
    ensures var sound := SoundBytes(chunks, size, objectSize) as real;
            && Reported(EncodeFile(header, chunks, size, tail), objectSize) == Some(sound / samples as real)
            && PlayingTime(chunks, size, objectSize) == Some(sound / rate as real)
  {
    WalkStopsAtData(header, chunks, size, tail, objectSize);
  }

  /** Where a sample takes several bytes, as pulse-code modulation has it with its block alignment, the reported
      duration is that many times the playing time. */
  lemma DurationIsStretchedByAlignment(header: seq<byte>, chunks: seq<Chunk>, size: nat, tail: seq<byte>, objectSize: int,
                                       samples: Pos, rate: Pos, align: Pos)
    returns (playing: real)
    requires FileHeader(header) && AllFit(chunks) && size < 0x1_0000_0000 && FormatHolds(chunks, 12)
    requires Field(chunks, SAMPLES) == Some(samples) && Field(chunks, BYTES) == Some(rate) && rate == samples * align
    ensures PlayingTime(chunks, size, objectSize) == Some(playing)
    ensures Reported(EncodeFile(header, chunks, size, tail), objectSize) == Some(align as real * playing)
  {
    BothQuotients(header, chunks, size, tail, objectSize, samples, rate);
    var sound := SoundBytes(chunks, size, objectSize);
    playing := sound as real / rate as real;
    Stretched(sound, samples, rate, align, sound as real / samples as real, playing);
  }

  /** confirmUpload refuses a file that plays within the limit, or accepts one that does not, exactly when its bytes lie
      between what the limit allows at the one rate and at the other. */
  lemma LimitIsJudgedRightIff(header: seq<byte>, chunks: seq<Chunk>, size: nat, tail: seq<byte>, objectSize: int,
                              samples: Pos, rate: Pos, limit: nat)
    requires FileHeader(header) && AllFit(chunks) && size < 0x1_0000_0000 && FormatHolds(chunks, 12)
    requires Field(chunks, SAMPLES) == Some(samples) && Field(chunks, BYTES) == Some(rate)
    ensures var reported, sound := Reported(EncodeFile(header, chunks, size, tail), objectSize), SoundBytes(chunks, size, objectSize);
            var playing := PlayingTime(chunks, size, objectSize);
            && reported.Some? && playing.Some?
            && ((reported.value > limit as real <==> playing.value > limit as real)
                <==> (sound > limit * samples <==> sound > limit * rate))
  {
    BothQuotients(header, chunks, size, tail, objectSize, samples, rate);
    ExceedsIff(SoundBytes(chunks, size, objectSize), samples, limit);
    ExceedsIff(SoundBytes(chunks, size, objectSize), rate, limit);
  }

  /** Pulse-code modulation, two channels of 16 bits, 44100 samples and 176400 bytes in a second. */
  const STEREO: seq<byte> := [1, 0, 2, 0, 0x44, 0xAC, 0, 0, 0x10, 0xB1, 2, 0, 4, 0, 16, 0]

  function StereoChunks(): (chunks: seq<Chunk>)
    ensures AllFit(chunks)
  {
    [Chunk(FMT, STEREO)]
  }

  lemma StereoFields()
    ensures LastFormat(StereoChunks()) == Some(STEREO)
    ensures Field(StereoChunks(), SAMPLES) == Some(44100) && Field(StereoChunks(), BYTES) == Some(176400)
  {
    assert LastFormat(StereoChunks()[1..]).None?;
  }

  lemma StereoSound()
    ensures SoundBytes(StereoChunks(), 176400, 176444) == 176400
  {
    assert EncodeChunks(StereoChunks()) == EncodeChunk(StereoChunks()[0]) + EncodeChunks([]);
  }

  /** A file with a second of that sound is reported to last four. */
  lemma StereoSecondIsReportedAsFour(header: seq<byte>, tail: seq<byte>)
    requires FileHeader(header)
    ensures PlayingTime(StereoChunks(), 176400, 176444) == Some(1.0)
    ensures Reported(EncodeFile(header, StereoChunks(), 176400, tail), 176444) == Some(4.0)
  {
    StereoFields();
    StereoSound();
    BothQuotients(header, StereoChunks(), 176400, tail, 176444, 44100, 176400);
  }

  /** Without a data chunk, and with less than a chunk header behind the last chunk, no size is found. */
  lemma WalkWithoutData(header: seq<byte>, chunks: seq<Chunk>, tail: seq<byte>, objectSize: int)
    requires FileHeader(header) && AllFit(chunks) && |tail| < 8
    ensures var bytes := header + EncodeChunks(chunks) + tail;
            && Walk(bytes, objectSize, 12, None) == Found(RateAfter(bytes, 12, chunks, None), None)
            && Duration(Walk(bytes, objectSize, 12, None)) == None
  {
    var bytes := header + EncodeChunks(chunks) + tail;
    PartStands(header, EncodeChunks(chunks), tail);
    WalkSkips(bytes, objectSize, 12, chunks, None);
  }
}

/** The MP3 reader: it skips a tag, takes the first frame header behind it and
    computes the duration from its bit rate and the size of the whole object. */
module Mp3 {
  import opened Rows
  import opened Bits
  import opened Inspector

  const ID3: seq<byte> := [0x49, 0x44, 0x33]

  /** Kilobits per second by index: for MPEG-1 layer III, and for every other header. */
  const LAYER3: seq<nat> := [0, 32, 40, 48, 56, 64, 80, 96, 112, 128, 160, 192, 224, 256, 320]
  const OTHERS: seq<nat> := [0, 8, 16, 24, 32, 40, 48, 56, 64, 80, 96, 112, 128, 144, 160]

  predicate SyncAt(bytes: seq<byte>, offset: nat) {
    offset + 4 <= |bytes| && bytes[offset] == 0xFF && bytes[offset + 1] >= 0xE0
  }

  function TagEnd(bytes: seq<byte>): nat {
    if Slice(bytes, 0, 3) == ID3 then 10 + Synchsafe(bytes, 6) else 0
  }

  function Kilobits(version: nat, layer: nat, index: nat): nat {
    var rates := if version == 3 && layer == 1 then LAYER3 else OTHERS;
    if index < |rates| then rates[index] else 0
  }

  /** The first frame header at or behind an offset. */
  function Find(bytes: seq<byte>, offset: nat): (found: Option<nat>)
    ensures found.Some? ==> offset <= found.value && SyncAt(bytes, found.value)
    ensures forall i: nat | offset <= i && SyncAt(bytes, i) :: found.Some? && found.value <= i
    decreases |bytes| - offset
  {
    if offset + 4 > |bytes| then None else if SyncAt(bytes, offset) then Some(offset) else Find(bytes, offset + 1)
  }

  function AtRate(objectSize: int, kilobits: nat): Option<real> {
    if kilobits == 0 then None else Some((objectSize * 8) as real / (kilobits * 1000) as real)
  }

  function Duration(bytes: seq<byte>, objectSize: int): Option<real> {
    match Find(bytes, TagEnd(bytes))
    case None => None
    case Some(offset) => AtRate(objectSize, Kilobits(bytes[offset + 1] / 8 % 4, bytes[offset + 1] / 2 % 4, bytes[offset + 2] / 16))
  }

  method ReadDuration(bytes: seq<byte>, objectSize: int) returns (duration: Option<real>)
    ensures duration == Duration(bytes, objectSize)
  {
    var offset: nat := if Slice(bytes, 0, 3) == ID3 then 10 + Synchsafe(bytes, 6) else 0;
    while offset + 4 <= |bytes|
      invariant Find(bytes, offset) == Find(bytes, TagEnd(bytes))
      decreases |bytes| - offset
    {
      if bytes[offset] == 0xFF && bytes[offset + 1] >= 0xE0 {
        var version, layer, index := bytes[offset + 1] / 8 % 4, bytes[offset + 1] / 2 % 4, bytes[offset + 2] / 16;
        var rates := if version == 3 && layer == 1 then LAYER3 else OTHERS;
        if index >= |rates| || rates[index] == 0 { return None; }
        return Some((objectSize * 8) as real / (rates[index] * 1000) as real);
      }
      offset := offset + 1;
    }
    return None;
  }

  /** The fields of a header, which the source masks. */
  lemma FieldsAreMasked(b: byte)
    ensures And(b / 8, 3) == b / 8 % 4 && And(b / 2, 3) == b / 2 % 4 && And(b / 16, 15) == b / 16
  {
    LowBits(b / 8);
    LowBits(b / 2);
    LowBits(b / 16);
  }

  /** The test of the three upper bits. */
  lemma SyncIsMasked(b: byte)
    ensures And(b, 0xE0) == 0xE0 <==> b >= 0xE0
  {
    UpperBits(b, 7);
    LowBits(b / 32);
  }

  lemma LowBits(n: nat)
    ensures And(n, 3) == n % 4 && And(n, 7) == n % 8 && And(n, 15) == n % 16
  {
    assert Pow2(2) == 4 && Pow2(3) == 8 && Pow2(4) == 16;
    MaskIsRemainder(n / 4, n % 4, 2);
    MaskIsRemainder(n / 8, n % 8, 3);
    MaskIsRemainder(n / 16, n % 16, 4);
  }

  lemma UpperBits(b: nat, mask: nat)
    ensures And(b, 32 * mask) == 32 * And(b / 32, mask)
  {
    var b2 := b / 2;
    var b4 := b2 / 2;
    var b8 := b4 / 2;
    var b16 := b8 / 2;
    AndDoubles(b, 16 * mask);
    AndDoubles(b2, 8 * mask);
    AndDoubles(b4, 4 * mask);
    AndDoubles(b8, 2 * mask);
    AndDoubles(b16, mask);
    assert b16 / 2 == b / 32;
  }

  lemma AndDoubles(a: nat, b: nat)
    ensures And(a, 2 * b) == 2 * And(a / 2, b)
  {
  }

  // ----- encoded files -----

  /** A tag with its version and flags, and the four bytes of a frame header. */
  function EncodeTag(version: seq<byte>, body: seq<byte>): (tag: seq<byte>)
    requires |version| == 3 && |body| < 0x1000_0000
    ensures |tag| == 10 + |body|
  {
    ID3 + version + EncodeSynchsafe(|body|) + body
  }

  predicate HeaderFits(version: nat, layer: nat, protection: nat, index: nat, low: nat) {
    version < 4 && layer < 4 && protection < 2 && index < 16 && low < 16
  }

  function EncodeHeader(version: nat, layer: nat, protection: nat, index: nat, low: nat, last: byte): (header: seq<byte>)
    requires HeaderFits(version, layer, protection, index, low)
    ensures |header| == 4
  {
    [0xFF, 0xE0 + version * 8 + layer * 2 + protection, index * 16 + low, last]
  }

  lemma HeaderIsRead(bytes: seq<byte>, offset: nat, version: nat, layer: nat, protection: nat, index: nat, low: nat, last: byte, objectSize: int)
    requires HeaderFits(version, layer, protection, index, low)
    requires Stands(bytes, offset, EncodeHeader(version, layer, protection, index, low, last)) && TagEnd(bytes) == offset
    ensures Duration(bytes, objectSize) == AtRate(objectSize, Kilobits(version, layer, index))
  {
    Read4(bytes, offset, EncodeHeader(version, layer, protection, index, low, last));
    assert SyncAt(bytes, offset);
    assert Find(bytes, offset) == Some(offset);
  }

  /** Whatever a tag holds, the header behind it decides; without a tag, the header at the start. */
  lemma TagIsSkipped(tagVersion: seq<byte>, body: seq<byte>, version: nat, layer: nat, protection: nat, index: nat, low: nat, last: byte,
                     tail: seq<byte>, objectSize: int)
    requires |tagVersion| == 3 && |body| < 0x1000_0000 && HeaderFits(version, layer, protection, index, low)
    ensures var header := EncodeHeader(version, layer, protection, index, low, last);
            && Duration(EncodeTag(tagVersion, body) + header + tail, objectSize) == AtRate(objectSize, Kilobits(version, layer, index))
            && Duration(header + tail, objectSize) == AtRate(objectSize, Kilobits(version, layer, index))
  {
    var header := EncodeHeader(version, layer, protection, index, low, last);
    var tag := EncodeTag(tagVersion, body);
    PartStands(tag, header, tail);
    TagIsMeasured(tagVersion, body, header + tail);
    assert tag + header + tail == tag + (header + tail);
    HeaderIsRead(tag + header + tail, |tag|, version, layer, protection, index, low, last, objectSize);
    PartStands([], header, tail);
    assert [] + header + tail == header + tail;
    assert Slice(header + tail, 0, 3)[0] == 0xFF;
    HeaderIsRead(header + tail, 0, version, layer, protection, index, low, last, objectSize);
  }

  lemma TagIsMeasured(version: seq<byte>, body: seq<byte>, rest: seq<byte>)
    requires |version| == 3 && |body| < 0x1000_0000
    ensures TagEnd(EncodeTag(version, body) + rest) == |EncodeTag(version, body)|
    ensures Slice(EncodeTag(version, body) + rest, 0, 3) == ID3
  {
    var bytes := EncodeTag(version, body) + rest;
    assert bytes == (ID3 + version) + EncodeSynchsafe(|body|) + (body + rest);
    PartStands(ID3 + version, EncodeSynchsafe(|body|), body + rest);
    SynchsafeInverts(bytes, 6, |body|);
    assert bytes[0..3] == ID3;
  }

  /** What is reported of sound of a constant rate is its playing time exactly when nothing but sound is in the object:
      the reader skips a tag but counts its bytes. */
  lemma DurationIsPlayingTimeIff(soundBytes: nat, otherBytes: nat, kilobits: nat)
    requires kilobits > 0
    ensures AtRate(soundBytes + otherBytes, kilobits) == AtRate(soundBytes, kilobits) <==> otherBytes == 0
  {
    var rate := (kilobits * 1000) as real;
    var sound, whole := (soundBytes * 8) as real, ((soundBytes + otherBytes) * 8) as real;
    assert whole / rate * rate == whole && sound / rate * rate == sound;
  }
}

/** Fixed-offset readers: PNG, WebP and the movie header of MP4. */
module FixedHeaders {
  import opened Rows
  import opened Inspector

  const WEBP_EXTENDED: seq<byte> := [0x56, 0x50, 0x38, 0x58]
  const WEBP_LOSSLESS: seq<byte> := [0x56, 0x50, 0x38, 0x4C]
  const WEBP_LOSSY: seq<byte> := [0x56, 0x50, 0x38, 0x20]
  const MVHD: seq<byte> := [0x6D, 0x76, 0x68, 0x64]

  /** ascii: a slice that stops at the end of the bytes. */
  function PngDimensions(bytes: seq<byte>): Dimensions {
    Dimensions(Uint32Be(bytes, 16), Uint32Be(bytes, 20))
  }

  function WebpDimensions(bytes: seq<byte>): Option<Dimensions> {
    var chunk := Slice(bytes, 12, 4);
    if chunk == WEBP_EXTENDED && |bytes| >= 30 then
      Some(Dimensions(1 + Uint24Le(bytes, 24), 1 + Uint24Le(bytes, 27)))
    else if chunk == WEBP_LOSSLESS && |bytes| >= 25 && bytes[20] == 0x2F then
      var packed := Uint32Le(bytes, 21);
      Some(Dimensions(packed % 0x4000 + 1, packed / 0x4000 % 0x4000 + 1))
    else if chunk == WEBP_LOSSY && |bytes| >= 30 && bytes[23] == 0x9D && bytes[24] == 0x01 && bytes[25] == 0x2A then
      Some(Dimensions(Uint16Le(bytes, 26) % 0x4000, Uint16Le(bytes, 28) % 0x4000))
    else None
  }

  // ----- encoders -----

  function EncodePng(prefix: seq<byte>, width: nat, height: nat): seq<byte>
    requires |prefix| == 16 && width < 0x1_0000_0000 && height < 0x1_0000_0000
  {
    prefix + EncodeUint32Be(width) + EncodeUint32Be(height)
  }

  lemma PngRoundTrip(prefix: seq<byte>, width: nat, height: nat, tail: seq<byte>)
    requires |prefix| == 16 && width < 0x1_0000_0000 && height < 0x1_0000_0000
    ensures PngDimensions(EncodePng(prefix, width, height) + tail) == Dimensions(width, height)
  {
    var bytes := EncodePng(prefix, width, height) + tail;
    assert Stands(bytes, 16, EncodeUint32Be(width));
    assert Stands(bytes, 20, EncodeUint32Be(height));
    ReadersInvertEncoders(bytes, 16, width);
    ReadersInvertEncoders(bytes, 20, height);
  }

  /** An extended header, section 2.7 of RFC 9649: flags and reserved bits, then width and height minus one. */
  function EncodeExtended(prefix: seq<byte>, between: seq<byte>, width: nat, height: nat): seq<byte>
    requires |prefix| == 12 && |between| == 8 && 1 <= width <= 0x100_0000 && 1 <= height <= 0x100_0000
  {
    prefix + WEBP_EXTENDED + between + EncodeUint24Le(width - 1) + EncodeUint24Le(height - 1)
  }

  lemma ExtendedRoundTrip(prefix: seq<byte>, between: seq<byte>, width: nat, height: nat, tail: seq<byte>)
    requires |prefix| == 12 && |between| == 8 && 1 <= width <= 0x100_0000 && 1 <= height <= 0x100_0000
    ensures WebpDimensions(EncodeExtended(prefix, between, width, height) + tail) == Some(Dimensions(width, height))
  {
    var bytes := EncodeExtended(prefix, between, width, height) + tail;
    assert bytes[12..16] == WEBP_EXTENDED;
    assert Stands(bytes, 24, EncodeUint24Le(width - 1));
    assert Stands(bytes, 27, EncodeUint24Le(height - 1));
    ReadersInvertEncoders(bytes, 24, width - 1);
    ReadersInvertEncoders(bytes, 27, height - 1);
  }

  /** A lossless header, section 3.4 of RFC 9649: 14 bits of width minus one, 14 bits of height minus one, four
      more bits. */
  function EncodeLossless(prefix: seq<byte>, size: seq<byte>, width: nat, height: nat, flags: nat): seq<byte>
    requires |prefix| == 12 && |size| == 4 && 1 <= width <= 0x4000 && 1 <= height <= 0x4000 && flags < 16
  {
    prefix + WEBP_LOSSLESS + size + [0x2F] + EncodeUint32Le((width - 1) + (height - 1) * 0x4000 + flags * 0x1000_0000)
  }

  lemma Fields14(low: nat, high: nat, rest: nat)
    requires low < 0x4000 && high < 0x4000
    ensures var packed := low + high * 0x4000 + rest * 0x1000_0000;
            packed % 0x4000 == low && packed / 0x4000 % 0x4000 == high
  {
    var packed := low + high * 0x4000 + rest * 0x1000_0000;
    var quotient := high + rest * 0x4000;
    assert packed == low + quotient * 0x4000;
    assert packed / 0x4000 == quotient;
  }

  lemma LosslessRoundTrip(prefix: seq<byte>, size: seq<byte>, width: nat, height: nat, flags: nat, tail: seq<byte>)
    requires |prefix| == 12 && |size| == 4 && 1 <= width <= 0x4000 && 1 <= height <= 0x4000 && flags < 16
    ensures WebpDimensions(EncodeLossless(prefix, size, width, height, flags) + tail) == Some(Dimensions(width, height))
  {
    var packed := (width - 1) + (height - 1) * 0x4000 + flags * 0x1000_0000;
    var bytes := EncodeLossless(prefix, size, width, height, flags) + tail;
    var front := prefix + WEBP_LOSSLESS + size + [0x2F];
    PartStands(front, EncodeUint32Le(packed), tail);
    ReadersInvertEncoders(bytes, 21, packed);
    Fields14(width - 1, height - 1, flags);
    assert bytes[12..16] == WEBP_LOSSLESS && bytes[20] == 0x2F;
  }

  /** A lossy key frame, section 9.1 of RFC 6386: start code, then 14 bits of size and two of scale each. */
  function EncodeLossy(prefix: seq<byte>, between: seq<byte>, width: nat, height: nat, scaleX: nat, scaleY: nat): seq<byte>
    requires |prefix| == 12 && |between| == 7 && width < 0x4000 && height < 0x4000 && scaleX < 4 && scaleY < 4
  {
    prefix + WEBP_LOSSY + between + [0x9D, 0x01, 0x2A] + EncodeUint16Le(width + scaleX * 0x4000) + EncodeUint16Le(height + scaleY * 0x4000)
  }

  lemma LossyRoundTrip(prefix: seq<byte>, between: seq<byte>, width: nat, height: nat, scaleX: nat, scaleY: nat, tail: seq<byte>)
    requires |prefix| == 12 && |between| == 7 && width < 0x4000 && height < 0x4000 && scaleX < 4 && scaleY < 4
    ensures WebpDimensions(EncodeLossy(prefix, between, width, height, scaleX, scaleY) + tail) == Some(Dimensions(width, height))
  {
    LossyFields(prefix, between, width + scaleX * 0x4000, height + scaleY * 0x4000, tail);
    Fields14(width, scaleX, 0);
    Fields14(height, scaleY, 0);
  }

  lemma LossyFields(prefix: seq<byte>, between: seq<byte>, horizontal: nat, vertical: nat, tail: seq<byte>)
    requires |prefix| == 12 && |between| == 7 && horizontal < 0x1_0000 && vertical < 0x1_0000
    ensures var bytes := prefix + WEBP_LOSSY + between + [0x9D, 0x01, 0x2A] + EncodeUint16Le(horizontal) + EncodeUint16Le(vertical) + tail;
            WebpDimensions(bytes) == Some(Dimensions(horizontal % 0x4000, vertical % 0x4000))
  {
    var x, y := EncodeUint16Le(horizontal), EncodeUint16Le(vertical);
    var front := prefix + WEBP_LOSSY + between + [0x9D, 0x01, 0x2A];
    var bytes := front + x + y + tail;
    assert bytes == front + x + (y + tail);
    PartStands(front, x, y + tail);
    PartStands(front + x, y, tail);
    ReadersInvertEncoders(bytes, 26, horizontal);
    ReadersInvertEncoders(bytes, 28, vertical);
    assert bytes[12..16] == WEBP_LOSSY && bytes[23] == 0x9D && bytes[24] == 0x01 && bytes[25] == 0x2A;
  }

  // ----- the movie header -----

  predicate MarkerAt(bytes: seq<byte>, offset: nat) {
    offset + 4 <= |bytes| && bytes[offset..offset + 4] == MVHD
  }

  /** indexOf: the first place where the marker stands. */
  function Find(bytes: seq<byte>, offset: nat): (marker: Option<nat>)
    ensures marker.Some? ==> offset <= marker.value && MarkerAt(bytes, marker.value)
    ensures forall i | offset <= i && MarkerAt(bytes, i) :: marker.Some? && marker.value <= i
    decreases |bytes| - offset
  {
    if offset + 4 > |bytes| then None
    else if MarkerAt(bytes, offset) then Some(offset)
    else Find(bytes, offset + 1)
  }

  function MovieDuration(bytes: seq<byte>): Option<real> {
    match Find(bytes, 0)
    case None => None
    case Some(marker) =>
      if marker + 24 >= |bytes| then None
      else
        var long := bytes[marker + 4] == 1;
        var scale := Uint32Be(bytes, if long then marker + 24 else marker + 16);
        if scale == 0 then None
        else if long then
          var ticks := Uint32Be(bytes, marker + 28) * 0x1_0000_0000 + Uint32Be(bytes, marker + 32);
          Some(ticks as real / scale as real)
        else Some(Uint32Be(bytes, marker + 20) as real / scale as real)
  }

  /** A movie header box from its type on: version 0 has 32-bit times, version 1 has 64-bit times. */
  function EncodeShort(flags: seq<byte>, times: seq<byte>, scale: nat, ticks: nat): seq<byte>
    requires |flags| == 3 && |times| == 8 && scale < 0x1_0000_0000 && ticks < 0x1_0000_0000
  {
    MVHD + [0] + flags + times + EncodeUint32Be(scale) + EncodeUint32Be(ticks)
  }

  function EncodeLong(flags: seq<byte>, times: seq<byte>, scale: nat, ticks: nat): seq<byte>
    requires |flags| == 3 && |times| == 16 && scale < 0x1_0000_0000 && ticks < 0x1_0000_0000_0000_0000
  {
    MVHD + [1] + flags + times + EncodeUint32Be(scale)
    + EncodeUint32Be(ticks / 0x1_0000_0000) + EncodeUint32Be(ticks % 0x1_0000_0000)
  }

  predicate FirstAt(bytes: seq<byte>, offset: nat) {
    MarkerAt(bytes, offset) && forall i | 0 <= i < offset :: !MarkerAt(bytes, i)
  }

  /** The reader inverts both encodings at the first marker; a version 0 header needs one byte behind it. */
  lemma ShortRoundTrip(prefix: seq<byte>, flags: seq<byte>, times: seq<byte>, scale: nat, ticks: nat, tail: seq<byte>)
    requires |flags| == 3 && |times| == 8 && 0 < scale < 0x1_0000_0000 && ticks < 0x1_0000_0000
    requires FirstAt(prefix + EncodeShort(flags, times, scale, ticks) + tail, |prefix|)
    ensures MovieDuration(prefix + EncodeShort(flags, times, scale, ticks) + tail)
            == if tail == [] then None else Some(ticks as real / scale as real)
  {
    var bytes := prefix + EncodeShort(flags, times, scale, ticks) + tail;
    assert Find(bytes, 0) == Some(|prefix|);
    assert bytes[|prefix| + 4] == 0;
    assert Stands(bytes, |prefix| + 16, EncodeUint32Be(scale));
    assert Stands(bytes, |prefix| + 20, EncodeUint32Be(ticks));
    ReadersInvertEncoders(bytes, |prefix| + 16, scale);
    ReadersInvertEncoders(bytes, |prefix| + 20, ticks);
  }

  lemma LongFields(prefix: seq<byte>, flags: seq<byte>, times: seq<byte>, scale: nat, ticks: nat, tail: seq<byte>)
    requires |flags| == 3 && |times| == 16 && 0 < scale < 0x1_0000_0000 && ticks < 0x1_0000_0000_0000_0000
    ensures var bytes := prefix + EncodeLong(flags, times, scale, ticks) + tail;
            && |prefix| + 36 <= |bytes| && bytes[|prefix| + 4] == 1
            && Uint32Be(bytes, |prefix| + 24) == scale
            && Uint32Be(bytes, |prefix| + 28) == ticks / 0x1_0000_0000 && Uint32Be(bytes, |prefix| + 32) == ticks % 0x1_0000_0000
  {
    var bytes := prefix + EncodeLong(flags, times, scale, ticks) + tail;
    var high, low := EncodeUint32Be(ticks / 0x1_0000_0000), EncodeUint32Be(ticks % 0x1_0000_0000);
    var front := prefix + MVHD + [1] + flags + times;
    assert bytes == front + EncodeUint32Be(scale) + (high + low + tail);
    PartStands(front, EncodeUint32Be(scale), high + low + tail);
    assert bytes == (front + EncodeUint32Be(scale)) + high + (low + tail);
    PartStands(front + EncodeUint32Be(scale), high, low + tail);
    assert bytes == (front + EncodeUint32Be(scale) + high) + low + tail;
    PartStands(front + EncodeUint32Be(scale) + high, low, tail);
    ReadersInvertEncoders(bytes, |prefix| + 24, scale);
    ReadersInvertEncoders(bytes, |prefix| + 28, ticks / 0x1_0000_0000);
    ReadersInvertEncoders(bytes, |prefix| + 32, ticks % 0x1_0000_0000);
  }

  lemma LongRoundTrip(prefix: seq<byte>, flags: seq<byte>, times: seq<byte>, scale: nat, ticks: nat, tail: seq<byte>)
    requires |flags| == 3 && |times| == 16 && 0 < scale < 0x1_0000_0000 && ticks < 0x1_0000_0000_0000_0000
    requires FirstAt(prefix + EncodeLong(flags, times, scale, ticks) + tail, |prefix|)
    ensures MovieDuration(prefix + EncodeLong(flags, times, scale, ticks) + tail) == Some(ticks as real / scale as real)
  {
    var bytes := prefix + EncodeLong(flags, times, scale, ticks) + tail;
    LongFields(prefix, flags, times, scale, ticks, tail);
    assert Find(bytes, 0) == Some(|prefix|);
  }
}

/** inspectAssetBytes up to the formats whose content is looked at by heuristics only. */
module Inspection {
  import opened Rows
  import opened Inspector
  import Jpeg
  import Riff
  import Mp3
  import opened FixedHeaders

  const RIFF: seq<byte> := [0x52, 0x49, 0x46, 0x46]
  const WEBP: seq<byte> := [0x57, 0x45, 0x42, 0x50]
  const WAVE: seq<byte> := [0x57, 0x41, 0x56, 0x45]
  const FTYP: seq<byte> := [0x66, 0x74, 0x79, 0x70]
  const PNG: seq<byte> := [0x89, 0x50, 0x4E, 0x47, 0x0D, 0x0A, 0x1A, 0x0A]

  datatype Inspected = Inspected(mimeType: string, kind: AssetType, dimensions: Option<Dimensions>, duration: Option<real>)

  // ----- brands -----

  predicate AudioBrand(brand: seq<byte>) {
    |brand| == 4 && brand[..2] == [0x4D, 0x34] && brand[2] in {0x41, 0x42, 0x50} && brand[3] == 0x20
  }

  function BoxSize(bytes: seq<byte>): nat {
    if Uint32Be(bytes, 0) < |bytes| then Uint32Be(bytes, 0) else |bytes|
  }

  /** A file-type box whose major brand or one of whose aligned compatible brands is an audio brand. */
  predicate IsM4a(bytes: seq<byte>) {
    && |bytes| >= 16 && Slice(bytes, 4, 4) == FTYP
    && (AudioBrand(Slice(bytes, 8, 4)) || exists k | 4 <= k <= |bytes| && 4 * k + 4 <= BoxSize(bytes) :: AudioBrand(Slice(bytes, 4 * k, 4)))
  }

  method DetectM4a(bytes: seq<byte>) returns (audio: bool)
    ensures audio <==> IsM4a(bytes)
  {
    if |bytes| < 16 || Slice(bytes, 4, 4) != FTYP {
      return false;
    }
    if AudioBrand(Slice(bytes, 8, 4)) {
      return true;
    }
    var boxSize := BoxSize(bytes);
    var offset: nat := 16;
    ghost var n: nat := 4;
    while offset + 4 <= boxSize
      invariant offset == 4 * n && 4 <= n
      invariant forall k | 4 <= k < n :: !AudioBrand(Slice(bytes, 4 * k, 4))
      decreases |bytes| - offset
    {
      if AudioBrand(Slice(bytes, offset, 4)) {
        assert AudioBrand(Slice(bytes, 4 * n, 4));
        return true;
      }
      offset := offset + 4;
      n := n + 1;
    }
    return false;
  }

  predicate IsMp3(bytes: seq<byte>) {
    Slice(bytes, 0, 3) == Mp3.ID3 || (|bytes| >= 2 && bytes[0] == 0xFF && bytes[1] >= 0xE0)
  }

  predicate HasPrefix(bytes: seq<byte>, prefix: seq<byte>) {
    prefix <= bytes
  }

  /** The order of the tests decides; what the tests behind M4A answer is a parameter. */
  function Inspect(bytes: seq<byte>, objectSize: int, other: Option<Inspected>): Option<Inspected> {
    if HasPrefix(bytes, [0xFF, 0xD8, 0xFF]) then Some(Inspected("image/jpeg", Image, Jpeg.Walk(bytes, 2), None))
    else if HasPrefix(bytes, PNG) then Some(Inspected("image/png", Image, Some(PngDimensions(bytes)), None))
    else if Slice(bytes, 0, 4) == RIFF && Slice(bytes, 8, 4) == WEBP then Some(Inspected("image/webp", Image, WebpDimensions(bytes), None))
    else if Slice(bytes, 0, 4) == RIFF && Slice(bytes, 8, 4) == WAVE then
      Some(Inspected("audio/wav", Audio, None, Riff.Duration(Riff.Walk(bytes, objectSize, 12, None))))
    else if IsMp3(bytes) then Some(Inspected("audio/mpeg", Audio, None, Mp3.Duration(bytes, objectSize)))
    else if IsM4a(bytes) then Some(Inspected("audio/x-m4a", Audio, None, MovieDuration(bytes)))
    else other
  }

  // ----- encoded files are recognised, with their contents -----

  lemma JpegIsInspected(segments: seq<Jpeg.Segment>, frame: Jpeg.Frame, tail: seq<byte>, objectSize: int, other: Option<Inspected>)
    requires Jpeg.Ordinary(segments) && Jpeg.FrameFits(frame)
    ensures Inspect(Jpeg.Encode(segments, frame) + tail, objectSize, other)
            == Some(Inspected("image/jpeg", Image, Some(Dimensions(frame.width, frame.height)), None))
  {
    var bytes := Jpeg.Encode(segments, frame) + tail;
    Jpeg.WalkFindsFrame(segments, frame, tail);
    Jpeg.PartsStand(segments, frame, tail);
    if segments == [] {
      Jpeg.SegmentStands(bytes, 2, Jpeg.FrameSegment(frame));
    } else {
      StandsSplits(bytes, 2, Jpeg.EncodeSegment(segments[0]), Jpeg.EncodeSegments(segments[1..]));
      Jpeg.SegmentStands(bytes, 2, segments[0]);
    }
    assert bytes[..3] == [0xFF, 0xD8, 0xFF];
  }

  lemma PngIsInspected(prefix: seq<byte>, width: nat, height: nat, tail: seq<byte>, objectSize: int, other: Option<Inspected>)
    requires |prefix| == 16 && PNG <= prefix && width < 0x1_0000_0000 && height < 0x1_0000_0000
    ensures Inspect(EncodePng(prefix, width, height) + tail, objectSize, other)
            == Some(Inspected("image/png", Image, Some(Dimensions(width, height)), None))
  {
    PngRoundTrip(prefix, width, height, tail);
    var bytes := EncodePng(prefix, width, height) + tail;
    assert bytes[..16] == prefix;
    assert bytes[0] == PNG[0];
  }

  lemma WavIsInspected(size: seq<byte>, chunks: seq<Riff.Chunk>, data: nat, tail: seq<byte>, objectSize: int, other: Option<Inspected>)
    requires |size| == 4 && Riff.AllFit(chunks) && Riff.FormatHolds(chunks, 8) && data < 0x1_0000_0000
    ensures var dataSize := Riff.Min(data, objectSize - (12 + |Riff.EncodeChunks(chunks)|) - 8);
            Inspect(RIFF + size + WAVE + Riff.EncodeChunks(chunks) + Riff.Header(Riff.DATA, data) + tail, objectSize, other)
            == Some(Inspected("audio/wav", Audio, None, Riff.Duration(Riff.Found(Riff.Field(chunks, Riff.SAMPLES), Some(dataSize)))))
  {
    var header := RIFF + size + WAVE;
    Riff.WalkStopsAtData(header, chunks, data, tail, objectSize);
    var bytes := header + Riff.EncodeChunks(chunks) + Riff.Header(Riff.DATA, data) + tail;
    assert bytes[..12] == header;
    assert bytes[0..4] == RIFF && bytes[8..12] == WAVE;
    assert bytes[0] == 0x52;
  }

  /** Whatever follows the twelve bytes of the header, the size is what the WebP reader finds. */
  lemma WebpIsRead(bytes: seq<byte>, size: seq<byte>, objectSize: int, other: Option<Inspected>)
    requires |size| == 4 && RIFF + size + WEBP <= bytes
    ensures Inspect(bytes, objectSize, other) == Some(Inspected("image/webp", Image, WebpDimensions(bytes), None))
  {
    assert bytes[..12] == RIFF + size + WEBP;
    assert bytes[0..4] == RIFF && bytes[8..12] == WEBP;
    assert bytes[0] == 0x52;
  }

  lemma WebpIsInspected(size: seq<byte>, between: seq<byte>, width: nat, height: nat, tail: seq<byte>, objectSize: int, other: Option<Inspected>)
    requires |size| == 4 && |between| == 8 && 1 <= width <= 0x100_0000 && 1 <= height <= 0x100_0000
    ensures Inspect(EncodeExtended(RIFF + size + WEBP, between, width, height) + tail, objectSize, other)
            == Some(Inspected("image/webp", Image, Some(Dimensions(width, height)), None))
  {
    ExtendedRoundTrip(RIFF + size + WEBP, between, width, height, tail);
    WebpIsRead(EncodeExtended(RIFF + size + WEBP, between, width, height) + tail, size, objectSize, other);
  }

  lemma LosslessIsInspected(size: seq<byte>, chunkSize: seq<byte>, width: nat, height: nat, flags: nat, tail: seq<byte>,
                            objectSize: int, other: Option<Inspected>)
    requires |size| == 4 && |chunkSize| == 4 && 1 <= width <= 0x4000 && 1 <= height <= 0x4000 && flags < 16
    ensures Inspect(EncodeLossless(RIFF + size + WEBP, chunkSize, width, height, flags) + tail, objectSize, other)
            == Some(Inspected("image/webp", Image, Some(Dimensions(width, height)), None))
  {
    LosslessRoundTrip(RIFF + size + WEBP, chunkSize, width, height, flags, tail);
    WebpIsRead(EncodeLossless(RIFF + size + WEBP, chunkSize, width, height, flags) + tail, size, objectSize, other);
  }

  lemma LossyIsInspected(size: seq<byte>, between: seq<byte>, width: nat, height: nat, scaleX: nat, scaleY: nat, tail: seq<byte>,
                         objectSize: int, other: Option<Inspected>)
    requires |size| == 4 && |between| == 7 && width < 0x4000 && height < 0x4000 && scaleX < 4 && scaleY < 4
    ensures Inspect(EncodeLossy(RIFF + size + WEBP, between, width, height, scaleX, scaleY) + tail, objectSize, other)
            == Some(Inspected("image/webp", Image, Some(Dimensions(width, height)), None))
  {
    LossyRoundTrip(RIFF + size + WEBP, between, width, height, scaleX, scaleY, tail);
    WebpIsRead(EncodeLossy(RIFF + size + WEBP, between, width, height, scaleX, scaleY) + tail, size, objectSize, other);
  }

  lemma Mp3IsInspected(tagVersion: seq<byte>, body: seq<byte>, version: nat, layer: nat, protection: nat, index: nat, low: nat, last: byte,
                       tail: seq<byte>, objectSize: int, other: Option<Inspected>)
    requires |tagVersion| == 3 && |body| < 0x1000_0000 && Mp3.HeaderFits(version, layer, protection, index, low)
    ensures var header := Mp3.EncodeHeader(version, layer, protection, index, low, last);
            var inspected := Some(Inspected("audio/mpeg", Audio, None, Mp3.AtRate(objectSize, Mp3.Kilobits(version, layer, index))));
            && Inspect(Mp3.EncodeTag(tagVersion, body) + header + tail, objectSize, other) == inspected
            && Inspect(header + tail, objectSize, other) == inspected
  {
    var header := Mp3.EncodeHeader(version, layer, protection, index, low, last);
    var tag := Mp3.EncodeTag(tagVersion, body);
    Mp3.TagIsSkipped(tagVersion, body, version, layer, protection, index, low, last, tail, objectSize);
    Mp3.TagIsMeasured(tagVersion, body, header + tail);
    assert tag + header + tail == tag + (header + tail);
    Mp3IsRead(tag + header + tail, objectSize, other);
    SyncIsMp3(header, tail);
    Mp3IsRead(header + tail, objectSize, other);
  }

  lemma SyncIsMp3(header: seq<byte>, tail: seq<byte>)
    requires |header| == 4 && header[0] == 0xFF && header[1] >= 0xE0
    ensures IsMp3(header + tail)
  {
    assert (header + tail)[0] == 0xFF && (header + tail)[1] == header[1];
  }

  /** A tag or a frame header at the start is no image and no RIFF file. */
  lemma Mp3IsRead(bytes: seq<byte>, objectSize: int, other: Option<Inspected>)
    requires IsMp3(bytes)
    ensures Inspect(bytes, objectSize, other) == Some(Inspected("audio/mpeg", Audio, None, Mp3.Duration(bytes, objectSize)))
  {
    if Slice(bytes, 0, 3) == Mp3.ID3 {
      assert bytes[0] == Slice(bytes, 0, 3)[0];
    }
    if |bytes| >= 4 { assert Slice(bytes, 0, 4)[0] == bytes[0]; }
    assert PNG[0] == 0x89 && RIFF[0] == 0x52;
  }

  /** A file-type box of a size below the code of an ID3 mark, with an audio brand. */
  ghost predicate M4aHeader(bytes: seq<byte>, boxSize: nat) {
    && boxSize < 0x4944_3300 && |bytes| >= 16 && Stands(bytes, 0, EncodeUint32Be(boxSize)) && Slice(bytes, 4, 4) == FTYP
    && (AudioBrand(Slice(bytes, 8, 4))
        || exists k :: 4 <= k && 4 * k + 4 <= boxSize && 4 * k + 4 <= |bytes| && AudioBrand(Slice(bytes, 4 * k, 4)))
  }

  lemma M4aIsRead(bytes: seq<byte>, boxSize: nat, objectSize: int, other: Option<Inspected>)
    requires M4aHeader(bytes, boxSize)
    ensures Inspect(bytes, objectSize, other) == Some(Inspected("audio/x-m4a", Audio, None, MovieDuration(bytes)))
  {
    ReadersInvertEncoders(bytes, 0, boxSize);
    Read4(bytes, 0, EncodeUint32Be(boxSize));
    assert Slice(bytes, 4, 4)[0] == bytes[4] && Slice(bytes, 0, 3) == bytes[0..3] && Slice(bytes, 0, 4)[0] == bytes[0];
    if !AudioBrand(Slice(bytes, 8, 4)) {
      var k :| 4 <= k && 4 * k + 4 <= boxSize && 4 * k + 4 <= |bytes| && AudioBrand(Slice(bytes, 4 * k, 4));
      assert 4 * k + 4 <= BoxSize(bytes) && k <= |bytes|;
    }
    assert IsM4a(bytes);
    NotRiffNorMp3(bytes, boxSize);
  }

  lemma NotRiffNorMp3(bytes: seq<byte>, boxSize: nat)
    requires M4aHeader(bytes, boxSize)
    ensures !IsMp3(bytes) && !HasPrefix(bytes, [0xFF, 0xD8, 0xFF]) && !HasPrefix(bytes, PNG)
    ensures !(Slice(bytes, 0, 4) == RIFF && Slice(bytes, 8, 4) in {WEBP, WAVE})
  {
    Read4(bytes, 0, EncodeUint32Be(boxSize));
    assert Slice(bytes, 4, 4) == bytes[4..8] && bytes[4..8][0] == bytes[4] && PNG[4] == 0x0D;
    assert Slice(bytes, 0, 4) == bytes[0..4] && bytes[0..4][0] == bytes[0];
    assert Slice(bytes, 0, 3) == bytes[0..3] && bytes[0..3][0] == bytes[0] && bytes[0..3][1] == bytes[1] && bytes[0..3][2] == bytes[2];
  }

  lemma M4aIsReported(prefix: seq<byte>, boxSize: nat, rest: seq<byte>, objectSize: int, other: Option<Inspected>)
    requires M4aHeader(prefix, boxSize)
    ensures Inspect(prefix + rest, objectSize, other) == Some(Inspected("audio/x-m4a", Audio, None, MovieDuration(prefix + rest)))
  {
    HeaderStays(prefix, boxSize, rest);
    M4aIsRead(prefix + rest, boxSize, objectSize, other);
  }

  /** An M4A file is reported as audio with the duration of its first movie header, of either version. */
  lemma M4aIsInspected(prefix: seq<byte>, boxSize: nat, flags: seq<byte>, times: seq<byte>, scale: nat, ticks: nat, tail: seq<byte>,
                       objectSize: int, other: Option<Inspected>)
    requires |flags| == 3 && |times| == 8 && 0 < scale < 0x1_0000_0000 && ticks < 0x1_0000_0000 && M4aHeader(prefix, boxSize) && tail != []
    requires FirstAt(prefix + EncodeShort(flags, times, scale, ticks) + tail, |prefix|)
    ensures Inspect(prefix + EncodeShort(flags, times, scale, ticks) + tail, objectSize, other)
            == Some(Inspected("audio/x-m4a", Audio, None, Some(ticks as real / scale as real)))
  {
    var movie := EncodeShort(flags, times, scale, ticks);
    ShortRoundTrip(prefix, flags, times, scale, ticks, tail);
    assert prefix + movie + tail == prefix + (movie + tail);
    M4aIsReported(prefix, boxSize, movie + tail, objectSize, other);
  }

  lemma LongM4aIsInspected(prefix: seq<byte>, boxSize: nat, flags: seq<byte>, times: seq<byte>, scale: nat, ticks: nat, tail: seq<byte>,
                           objectSize: int, other: Option<Inspected>)
    requires |flags| == 3 && |times| == 16 && 0 < scale < 0x1_0000_0000 && ticks < 0x1_0000_0000_0000_0000 && M4aHeader(prefix, boxSize)
    requires FirstAt(prefix + EncodeLong(flags, times, scale, ticks) + tail, |prefix|)
    ensures Inspect(prefix + EncodeLong(flags, times, scale, ticks) + tail, objectSize, other)
            == Some(Inspected("audio/x-m4a", Audio, None, Some(ticks as real / scale as real)))
  {
    var movie := EncodeLong(flags, times, scale, ticks);
    LongRoundTrip(prefix, flags, times, scale, ticks, tail);
    assert prefix + movie + tail == prefix + (movie + tail);
    M4aIsReported(prefix, boxSize, movie + tail, objectSize, other);
  }

  lemma HeaderStays(prefix: seq<byte>, boxSize: nat, rest: seq<byte>)
    requires M4aHeader(prefix, boxSize)
    ensures M4aHeader(prefix + rest, boxSize)
  {
    var bytes := prefix + rest;
    assert forall i | 0 <= i < |prefix| :: bytes[i] == prefix[i];
    assert Slice(bytes, 4, 4) == Slice(prefix, 4, 4) && Slice(bytes, 8, 4) == Slice(prefix, 8, 4);
    if !AudioBrand(Slice(prefix, 8, 4)) {
      var k :| 4 <= k && 4 * k + 4 <= boxSize && 4 * k + 4 <= |prefix| && AudioBrand(Slice(prefix, 4 * k, 4));
      assert Slice(bytes, 4 * k, 4) == Slice(prefix, 4 * k, 4);
    }
  }
}
