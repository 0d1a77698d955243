/**
 The PNG writer's CRC-32 (`scripts/make-icon.ts`) against the definition of section 3.4 of RFC 2083: a shift
 register fed one bit at a time. A 32-bit number is the sequence of its bits, the least significant first.
 */
module Crc {

  type Byte = b: int | 0 <= b < 256

  type Word = w: seq<bool> | |w| == 32 witness seq(32, _ => false)

  function Falses(n: nat): (r: seq<bool>)
    ensures |r| == n && forall i :: 0 <= i < n ==> !r[i]
  {
    seq(n, _ => false)
  }

  /** 0xedb88320, the byte 0x20 first. */
  const POLYNOMIAL: Word :=
    [false, false, false, false, false, true, false, false] +
    [true, true, false, false, false, false, false, true] +
    [false, false, false, true, true, true, false, true] +
    [true, false, true, true, false, true, true, true]

  const ONES: Word :=
    [true, true, true, true, true, true, true, true] +
    [true, true, true, true, true, true, true, true] +
    [true, true, true, true, true, true, true, true] +
    [true, true, true, true, true, true, true, true]

  // Numbers and bits

  /** The low `k` bits of `n`. */
  function ToBits(n: nat, k: nat): (r: seq<bool>)
    ensures |r| == k
  {
    if k == 0 then [] else [n % 2 == 1] + ToBits(n / 2, k - 1)
  }

  function Pow2(k: nat): nat {
    if k == 0 then 1 else 2 * Pow2(k - 1)
  }

  function FromBits(bits: seq<bool>): (n: nat)
    ensures n < Pow2(|bits|)
  {
    if bits == [] then 0 else (if bits[0] then 1 else 0) + 2 * FromBits(bits[1..])
  }

  lemma {:induction false} BitsOfNumber(bits: seq<bool>)
    ensures ToBits(FromBits(bits), |bits|) == bits
  {
    if bits != [] {
      BitsOfNumber(bits[1..]);
      assert FromBits(bits) / 2 == FromBits(bits[1..]) && (FromBits(bits) % 2 == 1 <==> bits[0]);
      assert [bits[0]] + bits[1..] == bits;
    }
  }

  lemma {:induction false} NumberOfBits(n: nat, k: nat)
    requires n < Pow2(k)
    ensures FromBits(ToBits(n, k)) == n
  {
    if k > 0 {
      NumberOfBits(n / 2, k - 1);
      assert ToBits(n, k)[1..] == ToBits(n / 2, k - 1);
    }
  }

  lemma EightBits()
    ensures Pow2(8) == 256
  {
    assert Pow2(8) == 2 * 2 * 2 * 2 * Pow2(4);
  }

  function Xor(a: seq<bool>, b: seq<bool>): (r: seq<bool>)
    requires |a| == |b|
    ensures |r| == |a| && forall i :: 0 <= i < |r| ==> r[i] == (a[i] != b[i])
  {
    seq(|a|, i requires 0 <= i < |a| => a[i] != b[i])
  }

  /** `v >>> 1`. */
  function Half(v: Word): Word {
    v[1..] + [false]
  }

  /** `v >>> 8`. */
  function Upper(v: Word): Word {
    v[8..] + Falses(8)
  }

  function Widen(bits: seq<bool>): Word
    requires |bits| <= 32
  {
    bits + Falses(32 - |bits|)
  }

  // The definition

  /** The register with one bit shifted in. */
  function ShiftIn(register: Word, bit: bool): Word {
    if register[0] != bit then Xor(POLYNOMIAL, Half(register)) else Half(register)
  }

  function ShiftInBits(register: Word, bits: seq<bool>): Word
    decreases |bits|
  {
    if bits == [] then register else ShiftInBits(ShiftIn(register, bits[0]), bits[1..])
  }

  /** The register after all of `data`, the lowest bit of each byte first. */
  function Register(register: Word, data: seq<Byte>): Word {
    if data == [] then register
    else ShiftInBits(Register(register, data[..|data| - 1]), ToBits(data[|data| - 1], 8))
  }

  function Defined(data: seq<Byte>): Word {
    Xor(Register(ONES, data), ONES)
  }

  // The table and the table-driven sum

  /** One turn of the table's inner loop. */
  function Turn(value: Word): Word {
    if value[0] then Xor(POLYNOMIAL, Half(value)) else Half(value)
  }

  function Turns(value: Word, n: nat): Word {
    if n == 0 then value else Turn(Turns(value, n - 1))
  }

  ghost predicate IsTable(table: seq<Word>) {
    |table| == 256 && forall i :: 0 <= i < 256 ==> table[i] == Turns(Widen(ToBits(i, 8)), 8)
  }

  method MakeRow(index: nat) returns (value: Word)
    ensures value == Turns(Widen(ToBits(index, 8)), 8)
  {
    value := Widen(ToBits(index, 8));
    for bit := 0 to 8
      invariant value == Turns(Widen(ToBits(index, 8)), bit)
    {
      value := if value[0] then Xor(POLYNOMIAL, Half(value)) else Half(value);
    }
  }

  method MakeTable() returns (table: seq<Word>)
    ensures IsTable(table)
  {
    table := [];
    for index := 0 to 256
      invariant |table| == index && forall i :: 0 <= i < index ==> table[i] == Turns(Widen(ToBits(i, 8)), 8)
    {
      var value := MakeRow(index);
      table := table + [value];
    }
  }

  /** `(crc ^ byte) & 0xff`. */
  function LowByte(crc: Word, byte: Byte): (r: Byte)
  {
    assert Pow2(8) == 256;
    FromBits(Xor(crc[..8], ToBits(byte, 8)))
  }

  method Crc32(table: seq<Word>, data: seq<Byte>) returns (crc: Word)
    requires IsTable(table)
    ensures crc == Defined(data)
  {
    crc := ONES;
    for i := 0 to |data|
      invariant crc == Register(ONES, data[..i])
    {
      assert data[..i + 1][..i] == data[..i];
      TableStep(crc, data[i]);
      crc := Xor(table[LowByte(crc, data[i])], Upper(crc));
    }
    assert data[..|data|] == data;
    crc := Xor(crc, ONES);
  }

  // Why the table is right

  lemma TurnIsLinear(a: Word, b: Word)
    ensures Turn(Xor(a, b)) == Xor(Turn(a), Turn(b))
  {
    assert Half(Xor(a, b)) == Xor(Half(a), Half(b));
  }

  lemma {:induction false} TurnsAreLinear(a: Word, b: Word, n: nat)
    ensures Turns(Xor(a, b), n) == Xor(Turns(a, n), Turns(b, n))
  {
    if n > 0 {
      TurnsAreLinear(a, b, n - 1);
      TurnIsLinear(Turns(a, n - 1), Turns(b, n - 1));
    }
  }

  lemma {:induction false} TurnFirst(v: Word, n: nat)
    ensures Turns(v, n + 1) == Turns(Turn(v), n)
  {
    if n > 0 { TurnFirst(v, n - 1); }
  }

  /** Shifting a bit into the register is turning the register with that bit added. */
  lemma ShiftInIsTurn(register: Word, bits: seq<bool>)
    requires 1 <= |bits| <= 32
    ensures Xor(ShiftIn(register, bits[0]), Widen(bits[1..])) == Turn(Xor(register, Widen(bits)))
  {
    assert Half(Xor(register, Widen(bits))) == Xor(Half(register), Widen(bits[1..]));
  }

  lemma {:induction false} BitsAreTurns(register: Word, bits: seq<bool>)
    requires |bits| <= 32
    ensures ShiftInBits(register, bits) == Turns(Xor(register, Widen(bits)), |bits|)
    decreases |bits|
  {
    if bits == [] {
      assert Xor(register, Widen(bits)) == register;
    } else {
      BitsAreTurns(ShiftIn(register, bits[0]), bits[1..]);
      ShiftInIsTurn(register, bits);
      TurnFirst(Xor(register, Widen(bits)), |bits| - 1);
    }
  }

  /** Bits above the lowest `n` come down `n` places unchanged. */
  lemma {:induction false} HighTurns(v: Word, n: nat)
    requires n <= 32 && v[..n] == Falses(n)
    ensures Turns(v, n) == v[n..] + Falses(n)
    decreases n
  {
    if n > 0 {
      assert !v[..n][0];
      assert Half(v)[..n - 1] == Falses(n - 1) by {
        assert forall i :: 0 <= i < n - 1 ==> Half(v)[i] == v[..n][i + 1];
      }
      HighTurns(Half(v), n - 1);
      TurnFirst(v, n - 1);
      assert Half(v)[n - 1..] + Falses(n - 1) == v[n..] + Falses(n);
    } else {
      assert v[0..] + Falses(0) == v;
    }
  }

  /** One step of the table-driven loop is the definition's eight shifts. */
  lemma TableStep(crc: Word, byte: Byte)
    ensures Xor(Turns(Widen(ToBits(LowByte(crc, byte), 8)), 8), Upper(crc)) == ShiftInBits(crc, ToBits(byte, 8))
  {
    var bits := ToBits(byte, 8);
    var mixed := Xor(crc, Widen(bits));
    var low: Word, high: Word := Widen(Xor(crc[..8], bits)), Falses(8) + crc[8..];
    BitsAreTurns(crc, bits);
    BitsOfNumber(Xor(crc[..8], bits));
    assert mixed == Xor(low, high);
    TurnsAreLinear(low, high, 8);
    HighTurns(high, 8);
    assert high[8..] + Falses(8) == Upper(crc);
  }

  // The standard's constants

  /** The powers of the polynomial below 32, as section 3.4 of RFC 2083 lists them; the top bit stands for 1. */
  lemma PolynomialIsStandard(power: nat)
    requires power < 32
    ensures POLYNOMIAL[31 - power] <==> power in {26, 23, 22, 16, 12, 11, 10, 8, 7, 5, 4, 2, 1, 0}
  {
  }

  function Trues(n: nat): (r: seq<bool>)
    ensures |r| == n && forall i :: 0 <= i < n ==> r[i]
  {
    seq(n, _ => true)
  }

  /** Ones shifted into a register of ones leave zeros behind. */
  lemma {:induction false} OnesCancel(n: nat, k: nat)
    requires k <= n <= 32
    ensures ShiftInBits(Trues(n) + Falses(32 - n), Trues(k)) == Trues(n - k) + Falses(32 - n + k)
    decreases k
  {
    if k > 0 {
      assert Half(Trues(n) + Falses(32 - n)) == Trues(n - 1) + Falses(33 - n);
      assert Trues(k)[1..] == Trues(k - 1);
      OnesCancel(n - 1, k - 1);
    }
  }

  lemma {:induction false} BitsOfOnes(n: nat, k: nat)
    requires n + 1 == Pow2(k)
    ensures ToBits(n, k) == Trues(k)
  {
    if k > 0 {
      assert n % 2 == 1 && n / 2 + 1 == Pow2(k - 1);
      BitsOfOnes(n / 2, k - 1);
    }
  }

  /** The sums of nothing and of 1 to 4 bytes of ones: 0, ff000000, ffff0000, ffffff00, ffffffff. */
  lemma SumsOfOnes(n: nat)
    requires n <= 4
    ensures Defined(seq(n, _ => 255)) == Falses(32 - 8 * n) + Trues(8 * n)
  {
    RegisterOfOnes(n);
  }

  lemma {:induction false} RegisterOfOnes(n: nat)
    requires n <= 4
    ensures Register(ONES, seq(n, _ => 255)) == Trues(32 - 8 * n) + Falses(8 * n)
  {
    if n == 0 {
      assert ONES == Trues(32) + Falses(0);
    } else {
      var bytes: seq<Byte> := seq(n, _ => 255);
      assert bytes[..n - 1] == seq(n - 1, _ => 255);
      RegisterOfOnes(n - 1);
      EightBits();
      BitsOfOnes(255, 8);
      OnesCancel(40 - 8 * n, 8);
    }
  }

  // What the sum promises

  function XorByte(a: Byte, b: Byte): Byte {
    assert Pow2(8) == 256;
    FromBits(Xor(ToBits(a, 8), ToBits(b, 8)))
  }

  function XorBytes(a: seq<Byte>, b: seq<Byte>): (r: seq<Byte>)
    requires |a| == |b|
    ensures |r| == |a|
  {
    seq(|a|, i requires 0 <= i < |a| => XorByte(a[i], b[i]))
  }

  lemma ShiftInBitsIsLinear(r: Word, s: Word, a: seq<bool>, b: seq<bool>)
    requires |a| == |b| <= 32
    ensures ShiftInBits(Xor(r, s), Xor(a, b)) == Xor(ShiftInBits(r, a), ShiftInBits(s, b))
  {
    BitsAreTurns(r, a);
    BitsAreTurns(s, b);
    BitsAreTurns(Xor(r, s), Xor(a, b));
    assert Xor(Xor(r, s), Widen(Xor(a, b))) == Xor(Xor(r, Widen(a)), Xor(s, Widen(b)));
    TurnsAreLinear(Xor(r, Widen(a)), Xor(s, Widen(b)), |a|);
  }

  lemma {:induction false} RegisterIsLinear(r: Word, s: Word, a: seq<Byte>, b: seq<Byte>)
    requires |a| == |b|
    ensures Register(Xor(r, s), XorBytes(a, b)) == Xor(Register(r, a), Register(s, b))
  {
    if a != [] {
      var n := |a| - 1;
      RegisterIsLinear(r, s, a[..n], b[..n]);
      assert XorBytes(a, b)[..n] == XorBytes(a[..n], b[..n]);
      BitsOfNumber(Xor(ToBits(a[n], 8), ToBits(b[n], 8)));
      ShiftInBitsIsLinear(Register(r, a[..n]), Register(s, b[..n]), ToBits(a[n], 8), ToBits(b[n], 8));
    }
  }

  /** The sum is affine: over three messages of one length it adds up bit by bit. */
  lemma CrcIsAffine(a: seq<Byte>, b: seq<Byte>, c: seq<Byte>)
    requires |a| == |b| == |c|
    ensures Defined(XorBytes(XorBytes(a, b), c)) == Xor(Xor(Defined(a), Defined(b)), Defined(c))
  {
    RegisterIsLinear(ONES, ONES, a, b);
    RegisterIsLinear(Xor(ONES, ONES), ONES, XorBytes(a, b), c);
    assert Xor(Xor(ONES, ONES), ONES) == ONES;
  }

  /** A turn can be undone: the bit it drops comes back as the top bit, which only the polynomial sets. */
  lemma TurnInjective(a: Word, b: Word)
    requires Turn(a) == Turn(b)
    ensures a == b
  {
    assert Turn(a)[31] == a[0] && Turn(b)[31] == b[0];
    assert Half(a) == Half(b) by {
      if a[0] {
        assert forall i :: 0 <= i < 32 ==>
               Turn(a)[i] == (POLYNOMIAL[i] != Half(a)[i]) && Turn(b)[i] == (POLYNOMIAL[i] != Half(b)[i]);
      }
    }
    assert a == [a[0]] + Half(a)[..31] && b == [b[0]] + Half(b)[..31];
  }

  lemma {:induction false} TurnsInjective(a: Word, b: Word, n: nat)
    requires Turns(a, n) == Turns(b, n)
    ensures a == b
  {
    if n > 0 {
      TurnInjective(Turns(a, n - 1), Turns(b, n - 1));
      TurnsInjective(a, b, n - 1);
    }
  }

  lemma XorCancels(r: Word, a: Word, b: Word)
    ensures Xor(r, a) == Xor(r, b) ==> a == b
    ensures Xor(a, r) == Xor(b, r) ==> a == b
  {
    if Xor(r, a) == Xor(r, b) {
      assert forall i :: 0 <= i < 32 ==> Xor(r, a)[i] == (r[i] != a[i]) && Xor(r, b)[i] == (r[i] != b[i]);
    }
    if Xor(a, r) == Xor(b, r) {
      assert forall i :: 0 <= i < 32 ==> Xor(a, r)[i] == (a[i] != r[i]) && Xor(b, r)[i] == (b[i] != r[i]);
    }
  }

  lemma {:induction false} RegisterInjective(r: Word, s: Word, data: seq<Byte>)
    requires Register(r, data) == Register(s, data)
    ensures r == s
  {
    if data != [] {
      var n := |data| - 1;
      var bits := ToBits(data[n], 8);
      BitsAreTurns(Register(r, data[..n]), bits);
      BitsAreTurns(Register(s, data[..n]), bits);
      TurnsInjective(Xor(Register(r, data[..n]), Widen(bits)), Xor(Register(s, data[..n]), Widen(bits)), 8);
      XorCancels(Widen(bits), Register(r, data[..n]), Register(s, data[..n]));
      RegisterInjective(r, s, data[..n]);
    }
  }

  lemma {:induction false} RegisterConcat(r: Word, a: seq<Byte>, b: seq<Byte>)
    ensures Register(r, a + b) == Register(Register(r, a), b)
  {
    if b == [] {
      assert a + b == a;
    } else {
      assert (a + b)[..|a + b| - 1] == a + b[..|b| - 1];
      RegisterConcat(r, a, b[..|b| - 1]);
    }
  }

  /** Messages that differ in one byte have different sums. */
  lemma DetectsOneByte(before: seq<Byte>, x: Byte, y: Byte, after: seq<Byte>)
    requires x != y
    ensures Defined(before + [x] + after) != Defined(before + [y] + after)
  {
    assert (before + [x])[..|before|] == before && (before + [y])[..|before|] == before;
    if Defined(before + [x] + after) == Defined(before + [y] + after) {
      XorCancels(ONES, Register(ONES, before + [x] + after), Register(ONES, before + [y] + after));
      RegisterConcat(ONES, before + [x], after);
      RegisterConcat(ONES, before + [y], after);
      RegisterInjective(Register(ONES, before + [x]), Register(ONES, before + [y]), after);
      OneByteInjective(Register(ONES, before), x, y);
    }
  }

  lemma OneByteInjective(r: Word, x: Byte, y: Byte)
    ensures ShiftInBits(r, ToBits(x, 8)) == ShiftInBits(r, ToBits(y, 8)) ==> x == y
  {
    var a, b := ToBits(x, 8), ToBits(y, 8);
    BitsAreTurns(r, a);
    BitsAreTurns(r, b);
    if ShiftInBits(r, a) == ShiftInBits(r, b) {
      TurnsInjective(Xor(r, Widen(a)), Xor(r, Widen(b)), 8);
      XorCancels(r, Widen(a), Widen(b));
      assert a == Widen(a)[..8] && b == Widen(b)[..8];
      EightBits();
      NumberOfBits(x, 8);
      NumberOfBits(y, 8);
    }
  }
}
