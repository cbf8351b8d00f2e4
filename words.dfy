/**
 Machine words of the Tock kernel's syscall boundary. Integers are
 unbounded in Dafny, so every width and every truncating cast of the
 Rust code is written out here.
 */
module Words {

  const TWO_8: int := 0x100
  const TWO_32: int := 0x1_0000_0000
  const TWO_40: int := 0x100_0000_0000
  const TWO_64: int := 0x1_0000_0000_0000_0000

  type U8 = x: int | 0 <= x < TWO_8
  type U32 = x: int | 0 <= x < TWO_32
  type U64 = x: int | 0 <= x < TWO_64

  /** `usize`: the target's pointer width. The syscall decoder only moves
      these words around, so their width is left unbounded. */
  type Usize = nat

  /** Rust's `x as u32` on an unsigned value: keep the low 32 bits. */
  function AsU32(x: nat): (r: U32)
    ensures x < TWO_32 ==> r == x
    ensures (x - r) % TWO_32 == 0
  {
    x % TWO_32
  }

  /** `x & 0xffff_ffff`: the low 32-bit mask. */
  function MaskLow32(x: U64): (r: nat)
    ensures r < TWO_32
    ensures (x - r) % TWO_32 == 0
  {
    x % TWO_32
  }

  /** `x & 0xffff_ffffff`: a mask of ten hex digits, hence 40 bits. */
  function MaskLow40(x: U64): (r: nat)
    ensures r < TWO_40
    ensures (x - r) % TWO_40 == 0
  {
    x % TWO_40
  }

  /** `x >> 32` on a u64. */
  function Shr32(x: U64): (r: nat)
    ensures r < TWO_32
    ensures r * TWO_32 <= x < (r + 1) * TWO_32
  {
    x / TWO_32
  }

  /** Joining a (low, high) pair of 32-bit words back into a u64. */
  function Join64(lo: U32, hi: U32): (r: U64)
    ensures r % TWO_32 == lo && r / TWO_32 == hi
  {
    hi * TWO_32 + lo
  }

  /** Splitting a u64 into `(x & 0xffff_ffff) as u32` and `(x >> 32) as u32`
      loses nothing: the two words join back into `x`. */
  lemma SplitJoin(x: U64)
    ensures Join64(AsU32(MaskLow32(x)), AsU32(Shr32(x))) == x
  {
  }

  /** The 40-bit mask followed by `as u32` keeps exactly the low 32 bits,
      as the 32-bit mask does. */
  lemma MaskLow40ThenTruncate(x: U64)
    ensures AsU32(MaskLow40(x)) == AsU32(MaskLow32(x)) == x % TWO_32
  {
    var q := x / TWO_40;
    assert x == q * TWO_40 + MaskLow40(x);
    assert q * TWO_40 == (q * 0x100) * TWO_32;
  }
}
