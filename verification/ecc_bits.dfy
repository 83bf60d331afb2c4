/** The bit-vector macros and mode constants of the error-correcting-code header.

    A bit buffer is an array of bytes; bit `i` lives in byte `i / 8`, at
    position `i % 8` counted from the least significant bit.  `BitTest` is the
    pure read; `BitSet` and `BitClear` update one byte of the array in place and
    are proved against the functions `SetBitOf` and `ClearBitOf` on the byte
    sequence.  `Bits` is the independent, bit-level view of a buffer that the
    lemmas use to say that exactly one bit changes.
 */
module EccBits {

  datatype Option<T> = None | Some(value: T)

  /** Position of bit `i` inside its byte, counted from the least significant bit. */
  function Offset(i: nat): (k: nat)
    ensures k < 8
  {
    i % 8
  }

  /** The byte mask `1 << (i % 8)` of the macros. */
  function Mask(i: nat): bv8 {
    (1 as bv8) << Offset(i)
  }

  /** Bit `k` of byte `b` as a truth value, read by shifting it down to position 0. */
  predicate BitOfByte(b: bv8, k: nat)
    requires k < 8
  {
    (b >> k) & 1 == 1
  }

  /** Bit `i` of the buffer is addressable: `i / 8` is a valid byte index. */
  predicate InRange(c: seq<bv8>, i: nat) {
    i / 8 < |c|
  }

  /** The buffer seen as a sequence of bits, LSB first within each byte. */
  function Bits(c: seq<bv8>): (s: seq<bool>)
    ensures |s| == 8 * |c|
  {
    seq(8 * |c|, j requires 0 <= j < 8 * |c| => BitOfByte(c[j / 8], Offset(j)))
  }

  /** BIT_TEST(c, i): the byte holding bit `i`, masked down to that bit.
      It is non-zero exactly when the bit is 1, and then it equals the mask. */
  function BitTest(c: seq<bv8>, i: nat): (r: bv8)
    requires InRange(c, i)
    ensures r != 0 <==> Bits(c)[i]
    ensures r == 0 || r == Mask(i)
  {
    MaskedBit(c[i / 8], Offset(i));
    c[i / 8] & Mask(i)
  }

  /** The mask-and test of a byte agrees with the shift-down reading of the same bit. */
  lemma MaskedBit(b: bv8, k: nat)
    requires k < 8
    ensures (b & ((1 as bv8) << k) != 0) <==> BitOfByte(b, k)
    ensures b & ((1 as bv8) << k) == 0 || b & ((1 as bv8) << k) == (1 as bv8) << k
  {
  }

  /** Or-ing in bit `k` sets that bit and keeps every other bit of the byte. */
  lemma OrBit(b: bv8, k: nat, m: nat)
    requires k < 8 && m < 8
    ensures BitOfByte(b | ((1 as bv8) << k), m) == (m == k || BitOfByte(b, m))
  {
    var mask := (1 as bv8) << k;
    assert (b | mask) >> m == (b >> m) | (mask >> m);
  }

  /** And-ing with the complement of bit `k` clears that bit and keeps every other bit of the byte. */
  lemma AndNotBit(b: bv8, k: nat, m: nat)
    requires k < 8 && m < 8
    ensures BitOfByte(b & !((1 as bv8) << k), m) == (m != k && BitOfByte(b, m))
  {
  }

  /** The buffer after BIT_SET(c, i). */
  function SetBitOf(c: seq<bv8>, i: nat): (r: seq<bv8>)
    requires InRange(c, i)
    ensures |r| == |c|
    ensures forall k :: 0 <= k < |c| && k != i / 8 ==> r[k] == c[k]
  {
    c[i / 8 := c[i / 8] | Mask(i)]
  }

  /** The buffer after BIT_CLEAR(c, i). */
  function ClearBitOf(c: seq<bv8>, i: nat): (r: seq<bv8>)
    requires InRange(c, i)
    ensures |r| == |c|
    ensures forall k :: 0 <= k < |c| && k != i / 8 ==> r[k] == c[k]
  {
    c[i / 8 := c[i / 8] & !Mask(i)]
  }

  /** Two bit indices in the same byte are equal exactly when their offsets are. */
  lemma SameByte(i: nat, j: nat)
    requires i / 8 == j / 8
    ensures Offset(i) == Offset(j) <==> i == j
  {
  }

  /** BIT_SET changes exactly bit `i`, which becomes 1: the bit view is the old
      one with position `i` replaced by true. */
  lemma SetBitView(c: seq<bv8>, i: nat)
    requires InRange(c, i)
    ensures Bits(SetBitOf(c, i)) == Bits(c)[i := true]
  {
    var r := SetBitOf(c, i);
    forall j | 0 <= j < 8 * |c|
      ensures Bits(r)[j] == Bits(c)[i := true][j]
    {
      assert Bits(r)[j] == BitOfByte(r[j / 8], Offset(j));
      if j / 8 == i / 8 {
        OrBit(c[i / 8], Offset(i), Offset(j));
        SameByte(i, j);
      } else {
        assert r[j / 8] == c[j / 8] && j != i;
      }
    }
  }

  /** BIT_CLEAR changes exactly bit `i`, which becomes 0. */
  lemma ClearBitView(c: seq<bv8>, i: nat)
    requires InRange(c, i)
    ensures Bits(ClearBitOf(c, i)) == Bits(c)[i := false]
  {
    var r := ClearBitOf(c, i);
    forall j | 0 <= j < 8 * |c|
      ensures Bits(r)[j] == Bits(c)[i := false][j]
    {
      assert Bits(r)[j] == BitOfByte(r[j / 8], Offset(j));
      if j / 8 == i / 8 {
        AndNotBit(c[i / 8], Offset(i), Offset(j));
        SameByte(i, j);
      } else {
        assert r[j / 8] == c[j / 8] && j != i;
      }
    }
  }

  /** After BIT_SET(c, i), BIT_TEST(c, i) is non-zero, whatever the bit was. */
  lemma SetThenTest(c: seq<bv8>, i: nat)
    requires InRange(c, i)
    ensures BitTest(SetBitOf(c, i), i) == Mask(i)
  {
    SetBitView(c, i);
  }

  /** After BIT_CLEAR(c, i), BIT_TEST(c, i) is zero, whatever the bit was. */
  lemma ClearThenTest(c: seq<bv8>, i: nat)
    requires InRange(c, i)
    ensures BitTest(ClearBitOf(c, i), i) == 0
  {
    ClearBitView(c, i);
  }

  /** Setting or clearing bit `i` leaves the test of every other bit `j` as it was. */
  lemma OtherBitsKept(c: seq<bv8>, i: nat, j: nat)
    requires InRange(c, i) && InRange(c, j) && i != j
    ensures BitTest(SetBitOf(c, i), j) == BitTest(c, j)
    ensures BitTest(ClearBitOf(c, i), j) == BitTest(c, j)
  {
    SetBitView(c, i);
    ClearBitView(c, i);
  }

  /** Two buffers with the same bit view are the same buffer. */
  lemma BitsInjective(a: seq<bv8>, b: seq<bv8>)
    requires |a| == |b| && Bits(a) == Bits(b)
    ensures a == b
  {
    forall k | 0 <= k < |a|
      ensures a[k] == b[k]
    {
      forall m | 0 <= m < 8
        ensures BitOfByte(a[k], m) == BitOfByte(b[k], m)
      {
        assert (8 * k + m) / 8 == k && Offset(8 * k + m) == m;
        assert Bits(a)[8 * k + m] == Bits(b)[8 * k + m];
      }
      ByteFromBits(a[k], b[k]);
    }
  }

  /** A byte is determined by its eight bits. */
  lemma ByteFromBits(x: bv8, y: bv8)
    requires forall m :: 0 <= m < 8 ==> BitOfByte(x, m) == BitOfByte(y, m)
    ensures x == y
  {
    assert BitOfByte(x, 0) == BitOfByte(y, 0);
    assert BitOfByte(x, 1) == BitOfByte(y, 1);
    assert BitOfByte(x, 2) == BitOfByte(y, 2);
    assert BitOfByte(x, 3) == BitOfByte(y, 3);
    assert BitOfByte(x, 4) == BitOfByte(y, 4);
    assert BitOfByte(x, 5) == BitOfByte(y, 5);
    assert BitOfByte(x, 6) == BitOfByte(y, 6);
    assert BitOfByte(x, 7) == BitOfByte(y, 7);
  }

  /** BIT_SET is idempotent, and so is BIT_CLEAR. */
  lemma SetClearIdempotent(c: seq<bv8>, i: nat)
    requires InRange(c, i)
    ensures SetBitOf(SetBitOf(c, i), i) == SetBitOf(c, i)
    ensures ClearBitOf(ClearBitOf(c, i), i) == ClearBitOf(c, i)
  {
    var s, z := SetBitOf(c, i), ClearBitOf(c, i);
    SetBitView(c, i);
    SetBitView(s, i);
    BitsInjective(SetBitOf(s, i), s);
    ClearBitView(c, i);
    ClearBitView(z, i);
    BitsInjective(ClearBitOf(z, i), z);
  }

  /** The last of a BIT_SET and a BIT_CLEAR of the same bit decides it: each undoes the other. */
  lemma LastWriteWins(c: seq<bv8>, i: nat)
    requires InRange(c, i)
    ensures ClearBitOf(SetBitOf(c, i), i) == ClearBitOf(c, i)
    ensures SetBitOf(ClearBitOf(c, i), i) == SetBitOf(c, i)
  {
    var s, z := SetBitOf(c, i), ClearBitOf(c, i);
    SetBitView(c, i);
    ClearBitView(s, i);
    ClearBitView(c, i);
    BitsInjective(ClearBitOf(s, i), z);
    SetBitView(z, i);
    BitsInjective(SetBitOf(z, i), s);
  }

  /** BIT_SET(c, i) in place: writes the one byte `c[i / 8]`. */
  method BitSet(c: array<bv8>, i: nat)
    requires InRange(c[..], i)
    modifies c
    ensures c[..] == SetBitOf(old(c[..]), i)
    ensures BitTest(c[..], i) != 0
  {
    c[i / 8] := c[i / 8] | Mask(i);
    SetThenTest(old(c[..]), i);
  }

  /** BIT_CLEAR(c, i) in place: writes the one byte `c[i / 8]`. */
  method BitClear(c: array<bv8>, i: nat)
    requires InRange(c[..], i)
    modifies c
    ensures c[..] == ClearBitOf(old(c[..]), i)
    ensures BitTest(c[..], i) == 0
  {
    c[i / 8] := c[i / 8] & !Mask(i);
    ClearThenTest(old(c[..]), i);
  }

  /** The six transcoding modes of `ecc_recode`. */
  datatype Mode = Encode | Decode | Noise | EncodeX | DecodeX | NoiseX

  const MODE_ENCODE: int := 0
  const MODE_DECODE: int := 1
  const MODE_NOISE: int := 2
  const MODE_ENCODEX: int := 3
  const MODE_DECODEX: int := 4
  const MODE_NOISEX: int := 5

  /** The `MODE_*` code of a mode. */
  function ModeCode(m: Mode): (r: int)
    ensures 0 <= r <= 5
  {
    match m
    case Encode => MODE_ENCODE
    case Decode => MODE_DECODE
    case Noise => MODE_NOISE
    case EncodeX => MODE_ENCODEX
    case DecodeX => MODE_DECODEX
    case NoiseX => MODE_NOISEX
  }

  /** The mode a code names, if it names one. */
  function ModeOf(code: int): (r: Option<Mode>)
    ensures r.Some? <==> 0 <= code <= 5
    ensures r.Some? ==> ModeCode(r.value) == code
  {
    if code == MODE_ENCODE then Some(Encode)
    else if code == MODE_DECODE then Some(Decode)
    else if code == MODE_NOISE then Some(Noise)
    else if code == MODE_ENCODEX then Some(EncodeX)
    else if code == MODE_DECODEX then Some(DecodeX)
    else if code == MODE_NOISEX then Some(NoiseX)
    else None
  }

  /** The codes are pairwise distinct (every mode reads back from its code)
      and cover exactly 0..5. */
  lemma ModeCodesDistinct(m: Mode, n: Mode)
    ensures ModeOf(ModeCode(m)) == Some(m)
    ensures ModeCode(m) == ModeCode(n) ==> m == n
  {
  }
}
