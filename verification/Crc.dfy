/**
  CRC-32 as web/src/png.ts computes it, and what it detects (RFC 2083 section 3.4). The 32-bit
  register is its bits, least significant first.
 */
module Crc {
  type byte = b: int | 0 <= b < 256
  type Bytes = seq<byte>
  type Word = w: seq<bool> | |w| == 32
    witness [false, false, false, false, false, false, false, false,
             false, false, false, false, false, false, false, false,
             false, false, false, false, false, false, false, false,
             false, false, false, false, false, false, false, false]

  /** 0xedb88320 */
  const POLYNOMIAL: Word :=
    [false, false, false, false, false, true, false, false,
     true, true, false, false, false, false, false, true,
     false, false, false, true, true, true, false, true,
     true, false, true, true, false, true, true, true]

  const BYTE: nat := 8
  const ONES: Word := Build((i: nat) => true)

  function Build(f: nat -> bool): (w: Word)
    ensures forall i | 0 <= i < 32 :: w[i] == f(i)
  {
    seq(32, (i: nat) => f(i))
  }

  function At(w: Word, i: nat): bool { i < 32 && w[i] }

  function Xor(a: Word, b: Word): Word { Build((i: nat) => At(a, i) != At(b, i)) }

  /** Unsigned shift right. */
  function Shift(c: Word, n: nat): Word { Build((i: nat) => At(c, i + n)) }

  function BitAt(b: byte, i: nat): bool {
    if i == 0 then b % 2 == 1 else BitAt(b / 2, i - 1)
  }

  /** Up to four bytes as the register meets them, first byte lowest. */
  function Packed(w: Bytes): Word
    requires |w| <= 4
  {
    Build((i: nat) => i / 8 < |w| && BitAt(w[i / 8], i % 8))
  }

  /** One turn of the inner loop. */
  function Turn(c: Word): Word {
    if c[0] then Xor(Shift(c, 1), POLYNOMIAL) else Shift(c, 1)
  }

  function Turns(c: Word, n: nat): Word
    decreases n
  {
    if n == 0 then c else Turns(Turn(c), n - 1)
  }

  /** One turn of the outer loop. */
  function Absorb(c: Word, b: byte): Word {
    Turns(Xor(c, Packed([b])), BYTE)
  }

  function Register(c: Word, bytes: Bytes): Word
    decreases |bytes|
  {
    if bytes == [] then c else Register(Absorb(c, bytes[0]), bytes[1..])
  }

  function Checksum(bytes: Bytes): Word {
    Xor(Register(ONES, bytes), ONES)
  }

  lemma {:induction false} RegisterAppend(c: Word, a: Bytes, b: Bytes)
    ensures Register(c, a + b) == Register(Register(c, a), b)
    decreases |a|
  {
    if a == [] {
      assert a + b == b;
    } else {
      assert (a + b)[1..] == a[1..] + b;
      RegisterAppend(Absorb(c, a[0]), a[1..], b);
    }
  }

  lemma {:induction false} TurnsAppend(c: Word, m: nat, n: nat)
    ensures Turns(c, m + n) == Turns(Turns(c, m), n)
    decreases m
  {
    hide Turn;
    if m > 0 { TurnsAppend(Turn(c), m - 1, n); }
  }

  /** The inner loop's own expression is one turn. */
  lemma TurnInPlace(c: Word)
    ensures Xor(Shift(c, 1), if c[0] then POLYNOMIAL else Build((_: nat) => false)) == Turn(c)
  {
    if !c[0] {
      var zero := Build((_: nat) => false);
      forall i | 0 <= i < 32 ensures Xor(Shift(c, 1), zero)[i] == Shift(c, 1)[i] {
        assert Xor(Shift(c, 1), zero)[i] == (At(Shift(c, 1), i) != At(zero, i));
      }
    }
  }

  lemma OneMoreTurn(c: Word, n: nat)
    ensures Turns(c, n + 1) == Turn(Turns(c, n)) && Turns(c, 0) == c
  {
    hide Turn;
    TurnsAppend(c, n, 1);
    assert Turns(Turns(c, n), 1) == Turns(Turn(Turns(c, n)), 0);
  }

  lemma OneMoreByte(c: Word, bytes: Bytes, i: nat)
    requires i < |bytes|
    ensures Register(c, bytes[..i + 1]) == Absorb(Register(c, bytes[..i]), bytes[i])
    ensures Register(c, bytes[..0]) == c
  {
    hide Absorb;
    RegisterAppend(c, bytes[..i], [bytes[i]]);
    assert bytes[..i + 1] == bytes[..i] + [bytes[i]];
    var d := Register(c, bytes[..i]);
    assert Register(d, [bytes[i]]) == Register(Absorb(d, bytes[i]), [bytes[i]][1..]);
  }

  lemma NoBytes(c: Word)
    ensures Register(c, []) == c
  {
  }

  method Crc32(bytes: Bytes) returns (crc: Word)
    ensures crc == Checksum(bytes)
  {
    hide Register, Turns, Turn, Xor, Shift, Build, Packed;
    crc := ONES;
    NoBytes(ONES);
    assert bytes[..0] == [];
    for i := 0 to |bytes|
      invariant crc == Register(ONES, bytes[..i])
    {
      OneMoreByte(ONES, bytes, i);
      crc := Xor(crc, Packed([bytes[i]]));
      ghost var start := crc;
      OneMoreTurn(start, 0);
      for bit := 0 to BYTE
        invariant crc == Turns(start, bit)
      {
        OneMoreTurn(start, bit);
        TurnInPlace(crc);
        crc := Xor(Shift(crc, 1), if crc[0] then POLYNOMIAL else Build((_: nat) => false));
      }
    }
    assert bytes[..|bytes|] == bytes;
    crc := Xor(crc, ONES);
  }

  lemma TurnAt(c: Word, i: nat)
    requires i < 32
    ensures Turn(c)[i] == (At(c, i + 1) != (c[0] && POLYNOMIAL[i]))
  {
    assert Shift(c, 1)[i] == At(c, i + 1);
    assert Xor(Shift(c, 1), POLYNOMIAL)[i] == (Shift(c, 1)[i] != POLYNOMIAL[i]);
  }

  /** The polynomial's top bit tells which way a turn went, so a turn can be undone. */
  lemma TurnInjective(c: Word, d: Word)
    requires Turn(c) == Turn(d)
    ensures c == d
  {
    TurnAt(c, 31);
    TurnAt(d, 31);
    assert POLYNOMIAL[31];
    forall i | 0 < i < 32 ensures c[i] == d[i] {
      TurnAt(c, i - 1);
      TurnAt(d, i - 1);
    }
  }

  lemma {:induction false} TurnsInjective(c: Word, d: Word, n: nat)
    requires Turns(c, n) == Turns(d, n)
    ensures c == d
    decreases n
  {
    hide Turn;
    if n > 0 {
      TurnsInjective(Turn(c), Turn(d), n - 1);
      TurnInjective(c, d);
    }
  }

  lemma XorCancels(a: Word, b: Word, x: Word)
    requires Xor(a, x) == Xor(b, x) || Xor(x, a) == Xor(x, b)
    ensures a == b
  {
    forall i | 0 <= i < 32 ensures a[i] == b[i] {
      if Xor(a, x) == Xor(b, x) {
        assert Xor(a, x)[i] == Xor(b, x)[i];
      } else {
        assert Xor(x, a)[i] == Xor(x, b)[i];
      }
    }
  }

  /** After the last difference nothing brings two registers together again. */
  lemma {:induction false} RegisterInjective(c: Word, d: Word, bytes: Bytes)
    requires Register(c, bytes) == Register(d, bytes)
    ensures c == d
    decreases |bytes|
  {
    if bytes != [] {
      var x := Packed([bytes[0]]);
      RegisterInjective(Absorb(c, bytes[0]), Absorb(d, bytes[0]), bytes[1..]);
      TurnsInjective(Xor(c, x), Xor(d, x), BYTE);
      XorCancels(c, d, x);
    }
  }

  // ---------------------------------------------------------------- a four-byte window

  /** Bits that the next n turns do not test just move down. */
  lemma {:induction false} TurnsOfShifted(c: Word, z: Word, n: nat)
    requires n <= 32 && forall i | 0 <= i < n :: !z[i]
    ensures Turns(Xor(c, z), n) == Xor(Turns(c, n), Shift(z, n))
    decreases n
  {
    if n == 0 {
      assert Shift(z, 0) == z;
    } else {
      TurnOfShifted(c, z);
      assert Shift(Shift(z, 1), n - 1) == Shift(z, n);
      hide Turn, Xor;
      TurnsOfShifted(Turn(c), Shift(z, 1), n - 1);
    }
  }

  lemma TurnOfShifted(c: Word, z: Word)
    requires !z[0]
    ensures Turn(Xor(c, z)) == Xor(Turn(c), Shift(z, 1))
  {
    forall i | 0 <= i < 32 ensures Turn(Xor(c, z))[i] == Xor(Turn(c), Shift(z, 1))[i] {
      TurnAt(Xor(c, z), i);
      TurnAt(c, i);
    }
  }

  function High(w: Bytes): Word
    requires 0 < |w| <= 4
  {
    Build((i: nat) => i >= 8 && At(Packed(w), i))
  }

  lemma PackedSplits(c: Word, w: Bytes)
    requires 0 < |w| <= 4
    ensures Xor(c, Packed(w)) == Xor(Xor(c, Packed([w[0]])), High(w))
    ensures Shift(High(w), BYTE) == Packed(w[1..])
  {
    forall i | 0 <= i < 32
      ensures Xor(c, Packed(w))[i] == Xor(Xor(c, Packed([w[0]])), High(w))[i]
      ensures Shift(High(w), BYTE)[i] == Packed(w[1..])[i]
    {
      assert i / 8 < 1 <==> i < 8;
      assert (i + 8) / 8 == i / 8 + 1 && (i + 8) % 8 == i % 8;
    }
  }

  lemma FirstByteOfWindow(c: Word, w: Bytes, rest: nat)
    requires 0 < |w| <= 4
    ensures Turns(Xor(c, Packed(w)), BYTE + rest) == Turns(Xor(Absorb(c, w[0]), Packed(w[1..])), rest)
  {
    hide Packed;
    var d := Xor(c, Packed([w[0]]));
    PackedSplits(c, w);
    TurnsAppend(Xor(d, High(w)), BYTE, rest);
    TurnsOfShifted(d, High(w), BYTE);
  }

  /** Absorbing up to four bytes one by one is absorbing them as one word. */
  lemma {:induction false} RegisterOfWindow(c: Word, w: Bytes)
    requires |w| <= 4
    ensures Register(c, w) == Turns(Xor(c, Packed(w)), BYTE * |w|)
    decreases |w|
  {
    hide Turns;
    if w == [] {
      assert Xor(c, Packed(w)) == c;
      NoTurns(c);
    } else {
      FirstByteOfWindow(c, w, BYTE * |w[1..]|);
      RegisterOfWindow(Absorb(c, w[0]), w[1..]);
    }
  }

  lemma NoTurns(c: Word)
    ensures Turns(c, 0) == c
  {
  }

  // ---------------------------------------------------------------- the standard's polynomial

  /** Below x^32, the exponents of the generator of ISO 3309 and RFC 2083 section 3.4. */
  const EXPONENTS: set<nat> := {26, 23, 22, 16, 12, 11, 10, 8, 7, 5, 4, 2, 1, 0}

  /** The register read as a polynomial, highest power in the lowest bit. */
  function Coefficient(c: Word, e: nat): bool
    requires e < 32
  {
    c[31 - e]
  }

  /** One turn multiplies the polynomial by x and takes the remainder by the generator. */
  lemma TurnIsDivision(c: Word, e: nat)
    requires e < 32
    ensures Coefficient(Turn(c), e) <==>
            ((e > 0 && Coefficient(c, e - 1)) != (Coefficient(c, 31) && e in EXPONENTS))
  {
    TurnAt(c, 31 - e);
    GeneratorBits(e);
    hide Turn;
  }

  lemma GeneratorBits(e: nat)
    requires e < 32
    ensures POLYNOMIAL[31 - e] <==> e in EXPONENTS
  {
  }

  lemma {:induction false} TurnsOfZero(z: Word, n: nat)
    requires forall i | 0 <= i < 32 :: !z[i]
    ensures Turns(z, n) == z
    decreases n
  {
    if n > 0 {
      forall i | 0 <= i < 32 ensures Turn(z)[i] == z[i] { TurnAt(z, i); }
      assert Turn(z) == z;
      TurnsOfZero(z, n - 1);
    }
  }

  /** The complements before and after: nothing sums to 0, and four bytes of ones to all ones. */
  lemma FixedChecksums()
    ensures forall i | 0 <= i < 32 :: !Checksum([])[i]
    ensures forall i | 0 <= i < 32 :: Checksum([255, 255, 255, 255])[i]
  {
    NothingSums();
    OnesSum();
  }

  lemma NothingSums()
    ensures forall i | 0 <= i < 32 :: !Checksum([])[i]
  {
  }

  lemma OnesSum()
    ensures forall i | 0 <= i < 32 :: Checksum([255, 255, 255, 255])[i]
  {
    var w: Bytes := [255, 255, 255, 255];
    var z := Xor(ONES, Packed(w));
    forall i | 0 <= i < 32 ensures !z[i] { OnesOfByte(i % 8); }
    RegisterOfWindow(ONES, w);
    hide Packed, Register, Turns, BitAt;
    TurnsOfZero(z, BYTE * |w|);
    assert Register(ONES, w) == z;
    forall i | 0 <= i < 32 ensures Checksum(w)[i] { assert Xor(z, ONES)[i] == (At(z, i) != At(ONES, i)); }
  }

  lemma OnesOfByte(i: nat)
    requires i < 8
    ensures BitAt(255, i)
  {
    OnesBelow(255, 8, i);
  }

  lemma {:induction false} OnesBelow(b: byte, n: nat, i: nat)
    requires i < n && b == Power(n) - 1
    ensures BitAt(b, i)
  {
    if i > 0 { OnesBelow(b / 2, n - 1, i - 1); }
  }

  function Power(n: nat): nat { if n == 0 then 1 else 2 * Power(n - 1) }

  lemma {:induction false} BitsDetermineByte(a: byte, b: byte, n: nat)
    requires a < Power(n) && b < Power(n)
    requires forall i | 0 <= i < n :: BitAt(a, i) == BitAt(b, i)
    ensures a == b
  {
    if n > 0 {
      forall i | 0 <= i < n - 1 ensures BitAt(a / 2, i) == BitAt(b / 2, i) {
        assert BitAt(a, i + 1) == BitAt(b, i + 1);
      }
      BitsDetermineByte(a / 2, b / 2, n - 1);
      assert BitAt(a, 0) == BitAt(b, 0);
    }
  }

  lemma PackedInjective(v: Bytes, w: Bytes)
    requires |v| == |w| <= 4 && Packed(v) == Packed(w)
    ensures v == w
  {
    forall k | 0 <= k < |v| ensures v[k] == w[k] {
      forall i | 0 <= i < 8 ensures BitAt(v[k], i) == BitAt(w[k], i) {
        var j := 8 * k + i;
        assert j / 8 == k && j % 8 == i;
        assert Packed(v)[j] == Packed(w)[j];
      }
      assert Power(8) == 256;
      BitsDetermineByte(v[k], w[k], 8);
    }
  }

  /**
    Equal-length strings that differ, but only inside one window of at most four bytes, have
    different checksums: in particular every one-byte corruption is detected.
   */
  lemma BurstChangesChecksum(head: Bytes, v: Bytes, w: Bytes, tail: Bytes)
    requires |v| == |w| <= 4 && v != w
    ensures Checksum(head + v + tail) != Checksum(head + w + tail)
  {
    if Checksum(head + v + tail) == Checksum(head + w + tail) {
      XorCancels(Register(ONES, head + v + tail), Register(ONES, head + w + tail), ONES);
      var c := Register(ONES, head);
      RegisterAppend(ONES, head + v, tail);
      RegisterAppend(ONES, head + w, tail);
      RegisterInjective(Register(ONES, head + v), Register(ONES, head + w), tail);
      RegisterAppend(ONES, head, v);
      RegisterAppend(ONES, head, w);
      RegisterOfWindow(c, v);
      RegisterOfWindow(c, w);
      TurnsInjective(Xor(c, Packed(v)), Xor(c, Packed(w)), BYTE * |v|);
      XorCancels(Packed(v), Packed(w), c);
      PackedInjective(v, w);
    }
  }
}
