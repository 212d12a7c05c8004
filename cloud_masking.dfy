/** QA-bit cloud masks, per pixel. Landsat Collection 2 flags clouds, cloud shadow,
    dilated cloud and snow in bits of the 16-bit `QA_PIXEL` band; Sentinel-2 flags
    opaque and cirrus clouds in bits of `QA60`. A pixel is kept when every flag the
    mask tests is clear; the mask is combined with the pixel's existing mask and the
    band values are left alone. */
module CloudMasking {
  import Config

  type QaWord = bv16

  /** `qa.bitwiseAnd(1 << bit).eq(0)` */
  predicate BitClear(qa: QaWord, bit: nat)
    requires bit < 16
  {
    qa & (1 << bit) == 0
  }

  /** The `.And(...)` chain over the per-bit tests, in the order given. */
  predicate AllClear(qa: QaWord, bits: seq<nat>)
    requires forall i :: 0 <= i < |bits| ==> bits[i] < 16
    decreases |bits|
  {
    bits == [] || (BitClear(qa, bits[0]) && AllClear(qa, bits[1..]))
  }

  /** The Landsat bits in the order the mask combines them: cloud, shadow, dilated cloud, snow. */
  const LandsatBits: seq<nat> := [Config.LandsatCloudBit, Config.LandsatCloudShadowBit,
                                  Config.LandsatDilatedCloudBit, Config.LandsatSnowBit]

  /** The Sentinel-2 bits in the order the mask combines them: opaque cloud, cirrus. */
  const SentinelBits: seq<nat> := [Config.SentinelCloudBit, Config.SentinelCirrusBit]

  /** Keep test of `apply_cloud_mask_landsat`. */
  predicate LandsatKeep(qa: QaWord) {
    AllClear(qa, LandsatBits)
  }

  /** Keep test of `apply_cloud_mask_sentinel`. */
  predicate SentinelKeep(qa: QaWord) {
    AllClear(qa, SentinelBits)
  }

  /** A Landsat pixel is kept exactly when bits 1, 3, 4 and 5 are all clear. */
  lemma {:induction false} LandsatKeepIff(qa: QaWord)
    ensures LandsatKeep(qa) <==> qa & 0x3A == 0
  {
    var b := LandsatBits;
    assert AllClear(qa, b[3..]) == BitClear(qa, 5) by { assert b[3..][1..] == []; }
    assert AllClear(qa, b[2..]) == (BitClear(qa, 1) && BitClear(qa, 5)) by { assert b[2..][1..] == b[3..]; }
    assert AllClear(qa, b[1..]) == (BitClear(qa, 4) && BitClear(qa, 1) && BitClear(qa, 5)) by { assert b[1..][1..] == b[2..]; }
    assert LandsatKeep(qa) == (BitClear(qa, 3) && BitClear(qa, 4) && BitClear(qa, 1) && BitClear(qa, 5));
  }

  /** A Sentinel-2 pixel is kept exactly when bits 10 and 11 are both clear. */
  lemma {:induction false} SentinelKeepIff(qa: QaWord)
    ensures SentinelKeep(qa) <==> qa & 0xC00 == 0
  {
    var b := SentinelBits;
    assert AllClear(qa, b[1..]) == BitClear(qa, 11) by { assert b[1..][1..] == []; }
    assert SentinelKeep(qa) == (BitClear(qa, 10) && BitClear(qa, 11));
  }

  /** Flipping `QA_PIXEL` bits other than 1, 3, 4 and 5 never changes the Landsat decision. */
  lemma {:induction false} LandsatOtherBitsIgnored(qa: QaWord, flip: QaWord)
    requires flip & 0x3A == 0
    ensures LandsatKeep(qa ^ flip) == LandsatKeep(qa)
  {
    LandsatKeepIff(qa);
    LandsatKeepIff(qa ^ flip);
  }

  /** Flipping `QA60` bits other than 10 and 11 never changes the Sentinel-2 decision. */
  lemma {:induction false} SentinelOtherBitsIgnored(qa: QaWord, flip: QaWord)
    requires flip & 0xC00 == 0
    ensures SentinelKeep(qa ^ flip) == SentinelKeep(qa)
  {
    SentinelKeepIff(qa);
    SentinelKeepIff(qa ^ flip);
  }

  /** The chain holds exactly when each listed bit is clear. */
  lemma {:induction false} AllClearIff(qa: QaWord, bits: seq<nat>)
    requires forall i :: 0 <= i < |bits| ==> bits[i] < 16
    ensures AllClear(qa, bits) <==> forall b :: b in bits ==> b < 16 && BitClear(qa, b)
    decreases |bits|
  {
    if bits != [] {
      AllClearIff(qa, bits[1..]);
      assert forall b :: b in bits <==> b == bits[0] || b in bits[1..];
    }
  }

  /** The tests are independent: combining them in any order gives the same mask. */
  lemma {:induction false} MaskOrderIrrelevant(qa: QaWord, bits1: seq<nat>, bits2: seq<nat>)
    requires forall i :: 0 <= i < |bits1| ==> bits1[i] < 16
    requires multiset(bits1) == multiset(bits2)
    ensures forall i :: 0 <= i < |bits2| ==> bits2[i] < 16
    ensures AllClear(qa, bits1) == AllClear(qa, bits2)
  {
    forall i | 0 <= i < |bits2|
      ensures bits2[i] < 16
    {
      assert bits2[i] in multiset(bits2);
      assert bits2[i] in bits1;
    }
    AllClearIff(qa, bits1);
    AllClearIff(qa, bits2);
    assert forall b :: b in bits1 <==> b in bits2 by {
      forall b
        ensures b in bits1 <==> b in bits2
      {
        assert b in bits1 <==> b in multiset(bits1);
        assert b in bits2 <==> b in multiset(bits2);
      }
    }
  }

  /** One pixel of an image: its band values, its QA word and whether it is still unmasked. */
  datatype Pixel = Pixel(values: seq<real>, qa: QaWord, valid: bool)

  /** `apply_cloud_mask_landsat` at one pixel: `updateMask` with the keep test. */
  function ApplyCloudMaskLandsat(p: Pixel): (r: Pixel)
    ensures r.values == p.values && r.qa == p.qa
    ensures r.valid <==> p.valid && p.qa & 0x3A == 0
  {
    LandsatKeepIff(p.qa);
    p.(valid := p.valid && LandsatKeep(p.qa))
  }

  /** `apply_cloud_mask_sentinel` at one pixel: `updateMask` with the keep test. */
  function ApplyCloudMaskSentinel(p: Pixel): (r: Pixel)
    ensures r.values == p.values && r.qa == p.qa
    ensures r.valid <==> p.valid && p.qa & 0xC00 == 0
  {
    SentinelKeepIff(p.qa);
    p.(valid := p.valid && SentinelKeep(p.qa))
  }

  /** Masking twice changes nothing more than masking once. */
  lemma MaskIdempotent(p: Pixel)
    ensures ApplyCloudMaskLandsat(ApplyCloudMaskLandsat(p)) == ApplyCloudMaskLandsat(p)
    ensures ApplyCloudMaskSentinel(ApplyCloudMaskSentinel(p)) == ApplyCloudMaskSentinel(p)
  {
  }
}
