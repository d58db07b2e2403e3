/** The Burst x86 intrinsics the reductions use, on registers modelled as
    fixed-length sequences of lanes (lane 0 first). Lanes hold reals, so the
    NaN rules of min_ps / max_ps do not arise. */
module Intrinsics {
  import opened Numerics

  type V128 = v: seq<real> | |v| == 4 witness [0.0, 0.0, 0.0, 0.0]
  type V256 = v: seq<real> | |v| == 8 witness [0.0, 0.0, 0.0, 0.0, 0.0, 0.0, 0.0, 0.0]

  /** X86.SHUFFLE(x, y, z, w): the immediate (x << 6) | (y << 4) | (z << 2) | w. */
  function Shuffle(x: nat, y: nat, z: nat, w: nat): (imm: nat)
    requires x < 4 && y < 4 && z < 4 && w < 4
    ensures imm < 256
  {
    x * 64 + y * 16 + z * 4 + w
  }

  /** shuffle_ps(a, b, imm): two lanes of a chosen by the low bits, two of b by the high bits. */
  function ShufflePs(a: V128, b: V128, imm: nat): V128
    requires imm < 256
  {
    [a[imm % 4], a[(imm / 4) % 4], b[(imm / 16) % 4], b[(imm / 64) % 4]]
  }

  /** movehl_ps(a, b): the upper half of b, then the upper half of a. */
  function MoveHlPs(a: V128, b: V128): V128
  {
    [b[2], b[3], a[2], a[3]]
  }

  /** movehdup_ps(a): each odd lane duplicated into the even lane below it. */
  function MoveHDupPs(a: V128): V128
  {
    [a[1], a[1], a[3], a[3]]
  }

  /** min_ps / max_ps: lane-wise. */
  function MinPs(a: V128, b: V128): V128
  {
    [Min(a[0], b[0]), Min(a[1], b[1]), Min(a[2], b[2]), Min(a[3], b[3])]
  }

  function MaxPs(a: V128, b: V128): V128
  {
    [Max(a[0], b[0]), Max(a[1], b[1]), Max(a[2], b[2]), Max(a[3], b[3])]
  }

  /** min_ss / max_ss: lane 0 combined, lanes 1-3 taken from a. */
  function MinSs(a: V128, b: V128): V128
  {
    [Min(a[0], b[0]), a[1], a[2], a[3]]
  }

  function MaxSs(a: V128, b: V128): V128
  {
    [Max(a[0], b[0]), a[1], a[2], a[3]]
  }

  /** cvtss_f32: lane 0. */
  function CvtSsF32(a: V128): real
  {
    a[0]
  }

  /** mm256_castps256_ps128: the lower four lanes. */
  function Mm256CastPs256Ps128(v: V256): V128
  {
    v[..4]
  }

  /** mm256_extractf128_ps(v, imm): the lower (imm = 0) or upper (imm = 1) four lanes. */
  function Mm256ExtractF128Ps(v: V256, imm: nat): V128
    requires imm < 2
  {
    if imm == 0 then v[..4] else v[4..]
  }

  /** mm256_min_ps / mm256_max_ps: lane-wise over eight lanes. */
  function Mm256MinPs(a: V256, b: V256): V256
  {
    seq(8, j requires 0 <= j < 8 => Min(a[j], b[j]))
  }

  function Mm256MaxPs(a: V256, b: V256): V256
  {
    seq(8, j requires 0 <= j < 8 => Max(a[j], b[j]))
  }
}
