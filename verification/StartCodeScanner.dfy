/**
 The H.264 start-code scanner that decides whether an archived segment holds a key frame.

 Start codes are those of ITU-T H.264 Annex B, section B.1; the NAL unit type is the low five
 bits of the byte after the start code (section 7.3.1).
 */
module StartCodeScanner {

  type byte = x: int | 0 <= x < 256

  const NAL_IDR := 5

  /** `b & 0x1f` */
  function LowFiveBits(b: byte): int {
    b % 32
  }

  /** The remainder is the mask that the code applies: of the byte's eight binary digits it keeps the last five. */
  lemma LowFiveBitsAreLow(b: byte, d: seq<int>)
    requires |d| == 8 && forall i | 0 <= i < 8 :: d[i] == 0 || d[i] == 1
    requires b == d[0] + 2 * d[1] + 4 * d[2] + 8 * d[3] + 16 * d[4] + 32 * d[5] + 64 * d[6] + 128 * d[7]
    ensures LowFiveBits(b) == d[0] + 2 * d[1] + 4 * d[2] + 8 * d[3] + 16 * d[4]
  {
    var low := d[0] + 2 * d[1] + 4 * d[2] + 8 * d[3] + 16 * d[4];
    var high := d[5] + 2 * d[6] + 4 * d[7];
    assert b == low + 32 * high && 0 <= low < 32;
  }

  /** A three-byte start code at `p` is followed by a NAL unit of the wanted type. */
  predicate NalAt(b: seq<byte>, p: int, nalType: int) {
    0 <= p && p + 3 < |b| && b[p] == 0 && b[p + 1] == 0 && b[p + 2] == 1 && LowFiveBits(b[p + 3]) == nalType
  }

  ghost predicate Occurs(b: seq<byte>, nalType: int) {
    exists p :: NalAt(b, p, nalType)
  }

  predicate LongStartCodeAt(b: seq<byte>, i: int) {
    0 <= i && i + 3 < |b| && b[i] == 0 && b[i + 1] == 0 && b[i + 2] == 0 && b[i + 3] == 1
  }

  /** The buffer stops right after a four-byte start code, so there is no type byte to read. */
  predicate EndsInLongStartCode(b: seq<byte>) {
    LongStartCodeAt(b, |b| - 4)
  }

  /** `buffer[j]`, with the value that `undefined & 0x1f` produces past the end. */
  function TypeByte(b: seq<byte>, j: nat): int {
    if j < |b| then LowFiveBits(b[j]) else 0
  }

  /**
   The scanner for every buffer and every wanted type. The jumps of four and three lose nothing;
   besides genuine occurrences it reports type 0 for a buffer that stops after a long start code,
   and it reports nothing at all in buffers shorter than five bytes.
   */
  method ContainsH264NalType(b: seq<byte>, nalType: int) returns (found: bool)
    ensures found <==> |b| >= 5 && (Occurs(b, nalType) || (nalType == 0 && EndsInLongStartCode(b)))
  {
    if |b| < 5 {
      return false;
    }
    var end := |b| - 4;
    var i := 0;
    while i <= end
      invariant 0 <= i <= |b|
      invariant forall p | 0 <= p < i :: !NalAt(b, p, nalType)
      invariant i > end ==> !(nalType == 0 && EndsInLongStartCode(b))
      decreases |b| - i
    {
      if b[i] == 0 && b[i + 1] == 0 && b[i + 2] == 0 && b[i + 3] == 1 {
        if TypeByte(b, i + 4) == nalType {
          assert i + 4 < |b| ==> NalAt(b, i + 1, nalType);
          return true;
        }
        i := i + 4;
        continue;
      }
      if b[i] == 0 && b[i + 1] == 0 && b[i + 2] == 1 {
        if LowFiveBits(b[i + 3]) == nalType {
          assert NalAt(b, i, nalType);
          return true;
        }
        i := i + 3;
        continue;
      }
      i := i + 1;
    }
    return false;
  }

  method ContainsH264Keyframe(b: seq<byte>) returns (found: bool)
    ensures found <==> |b| >= 5 && Occurs(b, 5)
  {
    found := ContainsH264NalType(b, NAL_IDR);
  }

  /** Surrounding bytes never hide a NAL unit. */
  lemma OccursInConcatenation(before: seq<byte>, part: seq<byte>, after: seq<byte>, nalType: int)
    requires Occurs(part, nalType)
    ensures Occurs(before + part + after, nalType)
  {
    var p :| NalAt(part, p, nalType);
    var whole := before + part + after;
    assert forall k | 0 <= k < |part| :: whole[|before| + k] == part[k];
    assert NalAt(whole, |before| + p, nalType);
  }

  /**
   Cutting a buffer in two can lose a NAL unit only when the four bytes from start code to type
   straddle the cut.
   */
  lemma OccursAcrossCut(left: seq<byte>, right: seq<byte>, nalType: int)
    ensures Occurs(left + right, nalType) <==>
      Occurs(left, nalType) || Occurs(right, nalType)
      || exists p | |left| - 3 <= p < |left| :: NalAt(left + right, p, nalType)
  {
    var whole := left + right;
    assert forall k | 0 <= k < |left| :: whole[k] == left[k];
    assert forall k | 0 <= k < |right| :: whole[|left| + k] == right[k];
    if Occurs(whole, nalType) {
      var p :| NalAt(whole, p, nalType);
      if p + 3 < |left| {
        assert NalAt(left, p, nalType);
      } else if p >= |left| {
        assert NalAt(right, p - |left|, nalType);
      }
    }
    if Occurs(left, nalType) {
      OccursInConcatenation([], left, right, nalType);
      assert [] + left + right == whole;
    }
    if Occurs(right, nalType) {
      OccursInConcatenation(left, right, [], nalType);
      assert left + right + [] == whole;
    }
  }
}
