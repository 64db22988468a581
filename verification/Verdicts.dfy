/** The tests of confirmUpload on what was stored, and which encoded files pass
    them. */
module Verdicts {
  import opened Rows
  import opened Inspector
  import opened Inspection
  import opened FixedHeaders
  import Jpeg
  import Mp3

  /** Of one object: bytes by kind, pixels of an image, seconds of sound. */
  datatype ContentLimits = ContentLimits(
    imageBytes: Pos, audioBytes: Pos, documentBytes: Pos,
    imageWidth: Pos, imageHeight: Pos, audioSeconds: Pos)
  {
    function MaximumBytes(kind: AssetType): Pos {
      match kind
      case Image => imageBytes
      case Audio => audioBytes
      case Document => documentBytes
    }
  }

  /** The stored object has the declared size, the kind and the type that were declared, and is within the limits; a size
      or a duration that was not found limits nothing. */
  predicate Acceptable(limits: ContentLimits, asset: Asset, size: nat, inspection: Option<Inspected>) {
    && size <= limits.MaximumBytes(asset.kind) && size == asset.declaredSize != 0
    && inspection.Some? && inspection.value.kind == asset.kind && inspection.value.mimeType == asset.mimeType
    && (asset.kind.Image? && inspection.value.dimensions.Some? ==>
          inspection.value.dimensions.value.width <= limits.imageWidth && inspection.value.dimensions.value.height <= limits.imageHeight)
    && (asset.kind.Audio? && inspection.value.duration.Some? ==> inspection.value.duration.value <= limits.audioSeconds as real)
  }

  /** Declared as an image of this type, in this size, which is within the limit. */
  predicate DeclaredImage(limits: ContentLimits, asset: Asset, size: nat, mimeType: string) {
    asset.kind.Image? && asset.mimeType == mimeType && 0 < asset.declaredSize == size <= limits.imageBytes
  }

  predicate DeclaredAudio(limits: ContentLimits, asset: Asset, size: nat, mimeType: string) {
    asset.kind.Audio? && asset.mimeType == mimeType && 0 < asset.declaredSize == size <= limits.audioBytes
  }

  /** A PNG passes exactly when it was declared as one and its own width and height are within the limits. */
  lemma PngPassesIff(limits: ContentLimits, asset: Asset, prefix: seq<byte>, width: nat, height: nat, tail: seq<byte>, size: nat,
                     other: Option<Inspected>)
    requires |prefix| == 16 && PNG <= prefix && width < 0x1_0000_0000 && height < 0x1_0000_0000
    ensures Acceptable(limits, asset, size, Inspect(EncodePng(prefix, width, height) + tail, size, other))
       <==> DeclaredImage(limits, asset, size, "image/png") && width <= limits.imageWidth && height <= limits.imageHeight
  {
    PngIsInspected(prefix, width, height, tail, size, other);
  }

  /** So does a JPEG, by the first frame of its segments, however much of it was read behind the frame. */
  lemma JpegPassesIff(limits: ContentLimits, asset: Asset, segments: seq<Jpeg.Segment>, frame: Jpeg.Frame, tail: seq<byte>, size: nat,
                      other: Option<Inspected>)
    requires Jpeg.Ordinary(segments) && Jpeg.FrameFits(frame)
    ensures Acceptable(limits, asset, size, Inspect(Jpeg.Encode(segments, frame) + tail, size, other))
       <==> DeclaredImage(limits, asset, size, "image/jpeg") && frame.width <= limits.imageWidth && frame.height <= limits.imageHeight
  {
    JpegIsInspected(segments, frame, tail, size, other);
  }

  lemma WebpPassesIff(limits: ContentLimits, asset: Asset, riffSize: seq<byte>, between: seq<byte>, width: nat, height: nat, tail: seq<byte>,
                      size: nat, other: Option<Inspected>)
    requires |riffSize| == 4 && |between| == 8 && 1 <= width <= 0x100_0000 && 1 <= height <= 0x100_0000
    ensures Acceptable(limits, asset, size, Inspect(EncodeExtended(RIFF + riffSize + WEBP, between, width, height) + tail, size, other))
       <==> DeclaredImage(limits, asset, size, "image/webp") && width <= limits.imageWidth && height <= limits.imageHeight
  {
    WebpIsInspected(riffSize, between, width, height, tail, size, other);
  }

  /** An M4A file passes exactly when it was declared as one and its movie is no longer than the limit. */
  lemma M4aPassesIff(limits: ContentLimits, asset: Asset, prefix: seq<byte>, boxSize: nat, flags: seq<byte>, times: seq<byte>, scale: nat, ticks: nat,
                     tail: seq<byte>, size: nat, other: Option<Inspected>)
    requires |flags| == 3 && |times| == 8 && 0 < scale < 0x1_0000_0000 && ticks < 0x1_0000_0000 && M4aHeader(prefix, boxSize) && tail != []
    requires FirstAt(prefix + EncodeShort(flags, times, scale, ticks) + tail, |prefix|)
    ensures Acceptable(limits, asset, size, Inspect(prefix + EncodeShort(flags, times, scale, ticks) + tail, size, other))
       <==> DeclaredAudio(limits, asset, size, "audio/x-m4a") && ticks <= limits.audioSeconds * scale
  {
    M4aIsInspected(prefix, boxSize, flags, times, scale, ticks, tail, size, other);
    QuotientWithin(ticks, scale, limits.audioSeconds);
  }

  lemma QuotientWithin(dividend: nat, divisor: nat, limit: nat)
    requires divisor > 0
    ensures dividend as real / divisor as real <= limit as real <==> dividend <= limit * divisor
  {
    var quotient := dividend as real / divisor as real;
    assert quotient * divisor as real == dividend as real;
    assert (limit * divisor) as real == limit as real * divisor as real;
    if quotient <= limit as real {
      assert quotient * divisor as real <= limit as real * divisor as real;
    } else {
      assert quotient * divisor as real > limit as real * divisor as real;
    }
  }

  /** A tagged MP3 passes exactly when it was declared as one and the whole object, at the rate of its first frame, is no
      longer than the limit: a tag counts as sound. */
  lemma Mp3PassesIff(limits: ContentLimits, asset: Asset, tagVersion: seq<byte>, body: seq<byte>, version: nat, layer: nat, protection: nat,
                     index: nat, low: nat, last: byte, tail: seq<byte>, size: nat, other: Option<Inspected>)
    requires |tagVersion| == 3 && |body| < 0x1000_0000 && Mp3.HeaderFits(version, layer, protection, index, low)
    ensures Acceptable(limits, asset, size,
                       Inspect(Mp3.EncodeTag(tagVersion, body) + Mp3.EncodeHeader(version, layer, protection, index, low, last) + tail, size, other))
       <==> DeclaredAudio(limits, asset, size, "audio/mpeg")
            && (Mp3.Kilobits(version, layer, index) != 0 ==> size * 8 <= limits.audioSeconds * (Mp3.Kilobits(version, layer, index) * 1000))
  {
    Mp3IsInspected(tagVersion, body, version, layer, protection, index, low, last, tail, size, other);
    var kilobits := Mp3.Kilobits(version, layer, index);
    if kilobits != 0 { QuotientWithin(size * 8, kilobits * 1000, limits.audioSeconds); }
  }
}
