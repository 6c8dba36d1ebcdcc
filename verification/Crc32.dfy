/** CRC-32 (section 8 of RFC 1952), bit by bit, as `crc32fast::hash` computes it. */
module Crc32 {
  import opened Prelude

  const POLY: bv32 := 0xEDB8_8320
  const ONES: bv32 := 0xFFFF_FFFF

  /** A byte's bits, lowest first, as a word. */
  function Assemble(p0: bool, p1: bool, p2: bool, p3: bool, p4: bool, p5: bool, p6: bool, p7: bool): bv32 {
    (if p0 then 1 else 0) | (if p1 then 2 else 0) | (if p2 then 4 else 0) | (if p3 then 8 else 0)
    | (if p4 then 16 else 0) | (if p5 then 32 else 0) | (if p6 then 64 else 0) | (if p7 then 128 else 0)
  }

  predicate Odd(n: int) {
    n % 2 == 1
  }

  /** What is left of `n` once its `i` lowest bits are gone. */
  function High(n: nat, i: nat): nat {
    if i == 0 then n else High(n, i - 1) / 2
  }

  predicate Bit(b: byte, i: nat) {
    Odd(High(b, i))
  }

  function Word(b: byte): bv32 {
    Assemble(Bit(b, 0), Bit(b, 1), Bit(b, 2), Bit(b, 3), Bit(b, 4), Bit(b, 5), Bit(b, 6), Bit(b, 7))
  }

  function Xor(a: bv32, b: bv32): bv32 { a ^ b }

  function Half(c: bv32): bv32 { c >> 1 }

  predicate IsOdd(c: bv32) { c & 1 == 1 }

  function Round(c: bv32): bv32 {
    if IsOdd(c) then Xor(Half(c), POLY) else Half(c)
  }

  function Rounds(c: bv32, n: nat): bv32
    decreases n
  {
    if n == 0 then c else Rounds(Round(c), n - 1)
  }

  /** One byte into the register. */
  function Step(c: bv32, b: byte): bv32 {
    Rounds(Xor(c, Word(b)), 8)
  }

  function Update(c: bv32, data: Bytes): bv32
    decreases |data|
  {
    if data == [] then c else Update(Step(c, data[0]), data[1..])
  }

  function Hash(data: Bytes): bv32 {
    Xor(Update(ONES, data), ONES)
  }

  lemma RoundInjective(a: bv32, b: bv32)
    requires Round(a) == Round(b)
    ensures a == b
  {
  }

  lemma {:induction false} RoundsInjective(a: bv32, b: bv32, n: nat)
    requires Rounds(a, n) == Rounds(b, n)
    ensures a == b
    decreases n
  {
    if n > 0 {
      RoundsInjective(Round(a), Round(b), n - 1);
      RoundInjective(a, b);
    }
  }

  lemma AssembleInjective(p0: bool, p1: bool, p2: bool, p3: bool, p4: bool, p5: bool, p6: bool, p7: bool,
                          q0: bool, q1: bool, q2: bool, q3: bool, q4: bool, q5: bool, q6: bool, q7: bool)
    requires Assemble(p0, p1, p2, p3, p4, p5, p6, p7) == Assemble(q0, q1, q2, q3, q4, q5, q6, q7)
    ensures p0 == q0 && p1 == q1 && p2 == q2 && p3 == q3 && p4 == q4 && p5 == q5 && p6 == q6 && p7 == q7
  {
  }

  lemma {:induction false} HighBound(n: nat)
    requires n < 256
    ensures High(n, 8) == 0
  {
    assert High(n, 1) == High(n, 0) / 2 < 128;
    assert High(n, 2) == High(n, 1) / 2 < 64;
    assert High(n, 3) == High(n, 2) / 2 < 32;
    assert High(n, 4) == High(n, 3) / 2 < 16;
    assert High(n, 5) == High(n, 4) / 2 < 8;
    assert High(n, 6) == High(n, 5) / 2 < 4;
    assert High(n, 7) == High(n, 6) / 2 < 2;
  }

  lemma {:induction false} BitsDetermine(m: byte, n: byte, i: nat)
    requires i <= 8 && forall j | 0 <= j < 8 :: Bit(m, j) == Bit(n, j)
    ensures High(m, i) == High(n, i)
    decreases 8 - i
  {
    if i == 8 {
      HighBound(m);
      HighBound(n);
    } else {
      BitsDetermine(m, n, i + 1);
      assert Bit(m, i) == Bit(n, i);
    }
  }

  lemma WordInjective(a: byte, b: byte)
    requires Word(a) == Word(b)
    ensures a == b
  {
    hide Odd, Assemble;
    AssembleInjective(Bit(a, 0), Bit(a, 1), Bit(a, 2), Bit(a, 3), Bit(a, 4), Bit(a, 5), Bit(a, 6), Bit(a, 7),
                      Bit(b, 0), Bit(b, 1), Bit(b, 2), Bit(b, 3), Bit(b, 4), Bit(b, 5), Bit(b, 6), Bit(b, 7));
    BitsDetermine(a, b, 0);
  }

  lemma StepInjectiveInRegister(c: bv32, d: bv32, x: byte)
    requires Step(c, x) == Step(d, x)
    ensures c == d
  {
    hide Word, Rounds;
    RoundsInjective(Xor(c, Word(x)), Xor(d, Word(x)), 8);
    hide *;
    XorCancels(c, d, Word(x));
  }

  lemma StepInjectiveInByte(c: bv32, x: byte, y: byte)
    requires Step(c, x) == Step(c, y)
    ensures x == y
  {
    hide Word, Rounds;
    RoundsInjective(Xor(c, Word(x)), Xor(c, Word(y)), 8);
    hide *;
    XorCancels(Word(x), Word(y), c);
    WordInjective(x, y);
  }

  lemma XorCancels(a: bv32, b: bv32, m: bv32)
    ensures Xor(a, m) == Xor(b, m) ==> a == b
    ensures Xor(m, a) == Xor(m, b) ==> a == b
  {
  }

  lemma {:induction false} UpdateInjective(c: bv32, d: bv32, data: Bytes)
    requires Update(c, data) == Update(d, data)
    ensures c == d
    decreases |data|
  {
    hide Step;
    if data != [] {
      UpdateInjective(Step(c, data[0]), Step(d, data[0]), data[1..]);
      StepInjectiveInRegister(c, d, data[0]);
    }
  }

  /** Two equally long inputs that differ in exactly one byte have different checksums. */
  lemma {:induction false} OneByteChangesUpdate(c: bv32, data: Bytes, i: nat, x: byte)
    requires i < |data| && x != data[i]
    ensures Update(c, data[i := x]) != Update(c, data)
    decreases |data|
  {
    hide Step;
    var changed := data[i := x];
    if i == 0 {
      assert changed[1..] == data[1..];
      if Update(c, changed) == Update(c, data) {
        UpdateInjective(Step(c, x), Step(c, data[0]), data[1..]);
        StepInjectiveInByte(c, x, data[0]);
      }
    } else {
      assert changed[1..] == data[1..][i - 1 := x];
      OneByteChangesUpdate(Step(c, data[0]), data[1..], i - 1, x);
    }
  }

  lemma OneByteChangesHash(data: Bytes, i: nat, x: byte)
    requires i < |data| && x != data[i]
    ensures Hash(data[i := x]) != Hash(data)
  {
    OneByteChangesUpdate(ONES, data, i, x);
    XorCancels(Update(ONES, data[i := x]), Update(ONES, data), ONES);
  }

  // ---------------------------------------------------------------- the four bytes of a checksum

  predicate Set(c: bv32, mask: bv32) {
    c & mask != 0
  }

  /** The value of the eight lowest bits. */
  function LowByte(d: bv32): byte {
    (if Set(d, 1) then 1 else 0) + (if Set(d, 2) then 2 else 0) + (if Set(d, 4) then 4 else 0)
    + (if Set(d, 8) then 8 else 0) + (if Set(d, 16) then 16 else 0) + (if Set(d, 32) then 32 else 0)
    + (if Set(d, 64) then 64 else 0) + (if Set(d, 128) then 128 else 0)
  }

  function Third(c: bv32): bv32 { c >> 8 }

  function Second(c: bv32): bv32 { c >> 16 }

  function First(c: bv32): bv32 { c >> 24 }

  /** `to_be_bytes` */
  function BeBytes(c: bv32): (b: Bytes)
    ensures |b| == 4
  {
    [LowByte(First(c)), LowByte(Second(c)), LowByte(Third(c)), LowByte(c)]
  }

  predicate SameBits(c: bv32, d: bv32) {
    && Set(c, 1) == Set(d, 1) && Set(c, 2) == Set(d, 2) && Set(c, 4) == Set(d, 4) && Set(c, 8) == Set(d, 8)
    && Set(c, 16) == Set(d, 16) && Set(c, 32) == Set(d, 32) && Set(c, 64) == Set(d, 64)
    && Set(c, 128) == Set(d, 128)
  }

  lemma LowByteBits(c: bv32, d: bv32)
    requires LowByte(c) == LowByte(d)
    ensures SameBits(c, d)
  {
    hide Set;
  }

  predicate SameLow(c: bv32, d: bv32) {
    c & 0xFF == d & 0xFF
  }

  lemma LowBits(c: bv32, d: bv32)
    requires SameBits(c, d)
    ensures SameLow(c, d)
  {
  }

  lemma LowByteDetermines(c: bv32, d: bv32)
    requires LowByte(c) == LowByte(d)
    ensures SameLow(c, d)
  {
    hide LowByte, SameBits, SameLow;
    LowByteBits(c, d);
    LowBits(c, d);
  }

  lemma ByBytes(c: bv32, d: bv32)
    requires SameLow(c, d) && SameLow(Third(c), Third(d))
    requires SameLow(Second(c), Second(d)) && SameLow(First(c), First(d))
    ensures c == d
  {
  }

  /** Comparing the four bytes compares the checksums. */
  lemma BeBytesInjective(c: bv32, d: bv32)
    ensures BeBytes(c) == BeBytes(d) <==> c == d
  {
    hide LowByte, First, Second, Third, SameLow;
    if BeBytes(c) == BeBytes(d) {
      assert BeBytes(c)[0] == BeBytes(d)[0] && BeBytes(c)[1] == BeBytes(d)[1];
      assert BeBytes(c)[2] == BeBytes(d)[2] && BeBytes(c)[3] == BeBytes(d)[3];
      LowByteDetermines(c, d);
      LowByteDetermines(Third(c), Third(d));
      LowByteDetermines(Second(c), Second(d));
      LowByteDetermines(First(c), First(d));
      ByBytes(c, d);
    }
  }

  /** Most significant byte first. */
  lemma BeBytesExample()
    ensures BeBytes(0x0102_03FE) == [1, 2, 3, 254]
  {
    assert First(0x0102_03FE) == 0x1 && Second(0x0102_03FE) == 0x102 && Third(0x0102_03FE) == 0x1_0203;
    LowByteExamples();
  }

  lemma LowByteExamples()
    ensures LowByte(0x1) == 1 && LowByte(0x102) == 2 && LowByte(0x1_0203) == 3 && LowByte(0x0102_03FE) == 254
  {
  }

  // ---------------------------------------------------------------- the table form of RFC 1952

  /** Entry `n` of the table after `k` of its eight divisions (section 8 of RFC 1952). */
  function Divided(n: bv32, k: nat): bv32
    decreases k
  {
    if k == 0 then n
    else
      var c := Divided(n, k - 1);
      if c & 1 == 1 then 0xEDB8_8320 ^ (c >> 1) else c >> 1
  }

  function Low8(c: bv32): bv32 { c & 0xFF }

  /** `update_crc`, a table entry looked up for every byte. */
  function TableUpdate(c: bv32, data: Bytes): bv32
    decreases |data|
  {
    if data == [] then c
    else TableUpdate(Xor(Divided(Low8(Xor(c, Word(data[0]))), 8), Third(c)), data[1..])
  }

  lemma {:induction false} RoundsLast(c: bv32, k: nat)
    requires k > 0
    ensures Rounds(c, k) == Round(Rounds(c, k - 1))
    decreases k
  {
    hide Round;
    if k > 1 {
      RoundsLast(Round(c), k - 1);
    }
  }

  lemma OneDivision(c: bv32)
    ensures Round(c) == if c & 1 == 1 then 0xEDB8_8320 ^ (c >> 1) else c >> 1
  {
  }

  lemma {:induction false} RoundsDivide(c: bv32, k: nat)
    ensures Rounds(c, k) == Divided(c, k)
    decreases k
  {
    if k > 0 {
      RoundsLast(c, k);
      RoundsDivide(c, k - 1);
      OneDivision(Divided(c, k - 1));
      hide Round, Rounds;
    }
  }

  lemma HalfXor(a: bv32, b: bv32)
    ensures Half(Xor(a, b)) == Xor(Half(a), Half(b))
    ensures IsOdd(Xor(a, b)) <==> IsOdd(a) != IsOdd(b)
  {
  }

  lemma XorAssociates(x: bv32, y: bv32, p: bv32)
    ensures Xor(Xor(x, y), p) == Xor(x, Xor(y, p))
  {
  }

  lemma XorCommutes(x: bv32, y: bv32)
    ensures Xor(x, y) == Xor(y, x)
  {
  }

  lemma XorUndone(x: bv32, p: bv32)
    ensures Xor(Xor(x, p), p) == x
  {
  }

  lemma XorSwap(x: bv32, y: bv32, p: bv32)
    ensures Xor(Xor(x, y), p) == Xor(Xor(x, p), y)
  {
    hide Xor;
    XorAssociates(x, y, p);
    XorCommutes(y, p);
    XorAssociates(x, p, y);
  }

  lemma XorTwice(x: bv32, y: bv32, p: bv32)
    ensures Xor(Xor(x, p), Xor(y, p)) == Xor(x, y)
  {
    hide Xor;
    XorAssociates(Xor(x, p), y, p);
    XorSwap(x, p, y);
    XorUndone(Xor(x, y), p);
  }

  lemma RoundLinear(a: bv32, b: bv32)
    ensures Round(Xor(a, b)) == Xor(Round(a), Round(b))
  {
    hide Xor, Half, IsOdd;
    HalfXor(a, b);
    XorSwap(Half(a), Half(b), POLY);
    XorAssociates(Half(a), Half(b), POLY);
    XorTwice(Half(a), Half(b), POLY);
  }

  lemma {:induction false} RoundsLinear(a: bv32, b: bv32, k: nat)
    ensures Rounds(Xor(a, b), k) == Xor(Rounds(a, k), Rounds(b, k))
    decreases k
  {
    hide Round, Xor;
    if k > 0 {
      RoundLinear(a, b);
      RoundsLinear(Round(a), Round(b), k - 1);
    }
  }

  /** The bits under the mask are clear. */
  predicate Clear(c: bv32, mask: bv32) { c & mask == 0 }

  lemma RoundEven(c: bv32, m: bv32, n: bv32)
    requires Clear(c, m) && m & 1 == 1 && n == m >> 1
    ensures Round(c) == Half(c) && Clear(Half(c), n)
  {
  }

  lemma EightHalves(c: bv32)
    ensures Half(Half(Half(Half(Half(Half(Half(Half(c)))))))) == Third(c)
  {
  }

  lemma EightRounds(c: bv32)
    ensures Rounds(c, 8) == Round(Round(Round(Round(Round(Round(Round(Round(c))))))))
  {
    hide Round;
    RoundsLast(c, 8);
    RoundsLast(c, 7);
    RoundsLast(c, 6);
    RoundsLast(c, 5);
    RoundsLast(c, 4);
    RoundsLast(c, 3);
    RoundsLast(c, 2);
    RoundsLast(c, 1);
  }

  /** Eight rounds on a word whose low byte is clear shift it. */
  lemma CleanShift(c: bv32)
    requires Clear(c, 0xFF)
    ensures Rounds(c, 8) == Third(c)
  {
    hide Round, Half, Clear, Rounds, Third;
    var c2 := Half(Half(c));
    var c4 := Half(Half(c2));
    var c6 := Half(Half(c4));
    RoundEven(c, 0xFF, 0x7F);
    RoundEven(Half(c), 0x7F, 0x3F);
    RoundEven(c2, 0x3F, 0x1F);
    RoundEven(Half(c2), 0x1F, 0xF);
    RoundEven(c4, 0xF, 0x7);
    RoundEven(Half(c4), 0x7, 0x3);
    RoundEven(c6, 0x3, 0x1);
    RoundEven(Half(c6), 0x1, 0x0);
    EightHalves(c);
    EightRounds(c);
  }

  lemma AssembleBits(p0: bool, p1: bool, p2: bool, p3: bool, p4: bool, p5: bool, p6: bool, p7: bool)
    ensures var w := Assemble(p0, p1, p2, p3, p4, p5, p6, p7);
            && Clear(w, 0xFFFF_FF00)
            && Set(w, 1) == p0 && Set(w, 2) == p1 && Set(w, 4) == p2 && Set(w, 8) == p3
            && Set(w, 16) == p4 && Set(w, 32) == p5 && Set(w, 64) == p6 && Set(w, 128) == p7
  {
  }

  lemma LastBit(b: byte, i: nat)
    ensures High(b, i) == 2 * High(b, i + 1) + if Bit(b, i) then 1 else 0
  {
  }

  lemma HighZero(n: nat)
    ensures High(n, 0) == n
  {
  }

  function BitAt(b: byte, i: nat, weight: int): int {
    if Bit(b, i) then weight else 0
  }

  lemma FourBits(b: byte, i: nat)
    ensures High(b, i)
         == BitAt(b, i, 1) + BitAt(b, i + 1, 2) + BitAt(b, i + 2, 4) + BitAt(b, i + 3, 8) + 16 * High(b, i + 4)
  {
    hide High, Bit;
    LastBit(b, i);
    LastBit(b, i + 1);
    LastBit(b, i + 2);
    LastBit(b, i + 3);
  }

  /** A byte is the sum of its bits. */
  lemma BitsOf(b: byte)
    ensures b == BitAt(b, 0, 1) + BitAt(b, 1, 2) + BitAt(b, 2, 4) + BitAt(b, 3, 8)
                 + BitAt(b, 4, 16) + BitAt(b, 5, 32) + BitAt(b, 6, 64) + BitAt(b, 7, 128)
  {
    hide High, Bit;
    HighBound(b);
    HighZero(b);
    FourBits(b, 0);
    FourBits(b, 4);
  }

  /** The word of a byte holds it in its low bits and nothing else. */
  lemma WordIsByte(b: byte)
    ensures Clear(Word(b), 0xFFFF_FF00) && LowByte(Word(b)) == b
  {
    hide Bit, Assemble, Set, Clear;
    BitsOf(b);
    AssembleBits(Bit(b, 0), Bit(b, 1), Bit(b, 2), Bit(b, 3), Bit(b, 4), Bit(b, 5), Bit(b, 6), Bit(b, 7));
  }

  function Upper(c: bv32): bv32 { c & 0xFFFF_FF00 }

  lemma SplitWord(c: bv32, w: bv32)
    requires Clear(w, 0xFFFF_FF00)
    ensures Xor(Low8(Xor(c, w)), Upper(c)) == Xor(c, w) && Clear(Upper(c), 0xFF) && Third(Upper(c)) == Third(c)
  {
  }

  /** Eight rounds on the byte are one lookup in the table. */
  lemma StepIsLookup(c: bv32, b: byte)
    ensures Step(c, b) == Xor(Divided(Low8(Xor(c, Word(b))), 8), Third(c))
  {
    hide Rounds, Word, Divided, LowByte, Xor, Low8, Upper, Clear, Third;
    var low := Low8(Xor(c, Word(b)));
    WordIsByte(b);
    SplitWord(c, Word(b));
    RoundsLinear(low, Upper(c), 8);
    CleanShift(Upper(c));
    RoundsDivide(low, 8);
  }

  lemma {:induction false} UpdateIsTableUpdate(c: bv32, data: Bytes)
    ensures Update(c, data) == TableUpdate(c, data)
    decreases |data|
  {
    hide Step, Divided, Word, Xor, Low8, Third;
    if data != [] {
      StepIsLookup(c, data[0]);
      UpdateIsTableUpdate(Step(c, data[0]), data[1..]);
    }
  }

  /** The checksum is the one RFC 1952 computes with its table. */
  lemma HashIsRfc1952(data: Bytes)
    ensures Hash(data) == TableUpdate(0xFFFF_FFFF, data) ^ 0xFFFF_FFFF
  {
    hide Update, TableUpdate;
    UpdateIsTableUpdate(ONES, data);
  }
}
