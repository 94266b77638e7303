/** Binary digits, the bitwise operators of unbounded integers, and the string detour that `setbit` and `getbit` take. */
module Bits {
  import opened Values

  function Pow2(k: nat): (p: int)
    ensures p >= 1
  {
    if k == 0 then 1 else 2 * Pow2(k - 1)
  }

  /** Bit `i` of an integer, least significant first, in two's complement. */
  function BitAt(x: int, i: nat): int
    decreases i
  {
    if i == 0 then x % 2 else BitAt(x / 2, i - 1)
  }

  datatype BitKind = BitAnd | BitOr | BitXor

  function DigitOp(k: BitKind, a: int, b: int): int {
    match k
    case BitAnd => if a == 1 && b == 1 then 1 else 0
    case BitOr => if a == 1 || b == 1 then 1 else 0
    case BitXor => if a != b then 1 else 0
  }

  function Size(x: int): nat {
    if x < 0 then -x - 1 else x
  }

  /** `&`, `|` and `^` on unbounded integers (negative ones have infinitely many leading ones). */
  function Bitwise(k: BitKind, a: int, b: int): int
    decreases Size(a) + Size(b)
  {
    if Size(a) == 0 && Size(b) == 0 then -DigitOp(k, a % 2, b % 2)
    else 2 * Bitwise(k, a / 2, b / 2) + DigitOp(k, a % 2, b % 2)
  }

  lemma {:induction false} BitwiseAt(k: BitKind, a: int, b: int, i: nat)
    ensures BitAt(Bitwise(k, a, b), i) == DigitOp(k, BitAt(a, i), BitAt(b, i))
    decreases i
  {
    if i > 0 {
      BitwiseAt(k, a / 2, b / 2, i - 1);
    }
  }

  /** Naturals below 2^n are closed under the bitwise operators. */
  lemma {:induction false} BitwiseBounded(k: BitKind, a: nat, b: nat, n: nat)
    requires a < Pow2(n) && b < Pow2(n)
    ensures 0 <= Bitwise(k, a, b) < Pow2(n)
  {
    if n > 0 {
      BitwiseBounded(k, a / 2, b / 2, n - 1);
    }
  }

  lemma Pow2Of64()
    ensures Pow2(64) == MAX_UINT64 + 1
  {
    assert Pow2(8) == 256;
    assert Pow2(16) == 65536;
    assert Pow2(24) == 0x100_0000;
    assert Pow2(32) == 0x1_0000_0000;
    assert Pow2(40) == 0x100_0000_0000;
    assert Pow2(48) == 0x1_0000_0000_0000;
    assert Pow2(56) == 0x100_0000_0000_0000;
  }

  // ---- Binary strings ----

  function Digit(d: int): char {
    if d == 0 then '0' else '1'
  }

  function DigitValue(c: char): int {
    if c == '1' then 1 else 0
  }

  /** Binary digits of a natural, most significant first, no leading zeros; "0" for zero. */
  function Digits(n: nat): string {
    if n < 2 then [Digit(n)] else Digits(n / 2) + [Digit(n % 2)]
  }

  /** `toString(2)` of a big integer: a minus sign goes before the digits of a negative one. */
  function ToBinary(x: int): string {
    if x < 0 then "-" + Digits(-x) else Digits(x)
  }

  /** `padStart(width, "0")`. */
  function PadStart(s: string, width: nat): string
    decreases width - |s|
  {
    if |s| >= width then s else PadStart("0" + s, width)
  }

  /** Value of a string read in base two; every character but '1' counts as zero. */
  function BinaryValue(s: string): nat {
    if s == [] then 0 else 2 * BinaryValue(s[..|s| - 1]) + DigitValue(s[|s| - 1])
  }

  /** The accumulation loop that turns a binary string into a big integer. */
  method ParseBinaryStr(binary: string) returns (res: nat)
    ensures res == BinaryValue(binary)
  {
    res := 0;
    var i := 0;
    assert binary[..0] == [];
    while i < |binary|
      invariant 0 <= i <= |binary|
      invariant res == BinaryValue(binary[..i]) * Pow2(|binary| - i)
    {
      assert binary[..i + 1][..i] == binary[..i];
      ghost var p := Pow2(|binary| - i - 1);
      assert BinaryValue(binary[..i]) * (2 * p) == 2 * BinaryValue(binary[..i]) * p;
      assert (2 * BinaryValue(binary[..i]) + 1) * p == 2 * BinaryValue(binary[..i]) * p + p;
      if binary[i] == '1' {
        var val := |binary| - 1 - i;
        res := res + Pow2(val);
      }
      i := i + 1;
    }
    assert binary[..i] == binary;
    assert Pow2(0) == 1;
  }

  /** Reading a binary string digit by digit agrees with the arithmetic bits of its value. */
  lemma {:induction false} BinaryValueBits(s: string, j: nat)
    ensures BitAt(BinaryValue(s), j) == if j < |s| then DigitValue(s[|s| - 1 - j]) else 0
    decreases |s|
  {
    if s == [] {
      BitAtZero(j);
    } else if j > 0 {
      BinaryValueBits(s[..|s| - 1], j - 1);
    }
  }

  lemma {:induction false} BitAtZero(j: nat)
    ensures BitAt(0, j) == 0
  {
    if j > 0 {
      BitAtZero(j - 1);
    }
  }

  lemma {:induction false} DigitsRoundTrip(n: nat)
    ensures BinaryValue(Digits(n)) == n
    ensures forall c :: c in Digits(n) ==> c == '0' || c == '1'
  {
    if n < 2 {
      assert Digits(n)[..0] == [];
    } else {
      DigitsRoundTrip(n / 2);
      assert Digits(n)[..|Digits(n)| - 1] == Digits(n / 2);
    }
  }

  lemma {:induction false} DigitsLength(n: nat, k: nat)
    requires k > 0 && n < Pow2(k)
    ensures |Digits(n)| <= k
  {
    if n >= 2 {
      DigitsLength(n / 2, k - 1);
    }
  }

  lemma {:induction false} PadStartValue(s: string, width: nat)
    ensures BinaryValue(PadStart(s, width)) == BinaryValue(s)
    ensures |PadStart(s, width)| == if |s| >= width then |s| else width
    ensures (forall c :: c in s ==> c == '0' || c == '1') ==>
              forall c :: c in PadStart(s, width) ==> c == '0' || c == '1'
    decreases width - |s|
  {
    if |s| < width {
      PadStartValue("0" + s, width);
      LeadingZero(s);
    }
  }

  lemma {:induction false} LeadingZero(s: string)
    ensures BinaryValue("0" + s) == BinaryValue(s)
  {
    if s == [] {
      assert "0" + s == "0" && "0"[..0] == [];
    } else {
      LeadingZero(s[..|s| - 1]);
      assert ("0" + s)[..|s|] == "0" + s[..|s| - 1];
    }
  }

  /** Replacing one digit moves the value by that digit's weight. */
  lemma {:induction false} ReplaceDigit(s: string, k: nat, c: char)
    requires k < |s|
    ensures BinaryValue(s[k := c]) == BinaryValue(s) + (DigitValue(c) - DigitValue(s[k])) * Pow2(|s| - 1 - k)
    decreases |s|
  {
    var n := |s| - 1;
    if k == n {
      assert s[k := c][..n] == s[..n];
    } else {
      ReplaceDigit(s[..n], k, c);
      assert s[k := c][..n] == s[..n][k := c];
      var d, p := DigitValue(c) - DigitValue(s[k]), Pow2(n - 1 - k);
      assert 2 * (d * p) == d * (2 * p);
    }
  }

  // ---- Integer targets of setbit / getbit ----

  /** Assignment to a JavaScript array element; writing past the end grows the array with holes. */
  function JsStore(a: string, i: nat, c: char): string {
    if i < |a| then a[i := c] else a + seq(i - |a|, _ => ' ') + [c]
  }

  function SetBitInt(target: int, index: int, bit: int): Result<int> {
    if index > 63 then Err(SetBitIndexError)
    else
      var arr := PadStart(ToBinary(target), 64);
      if |arr| - index - 1 < 0 then Err(NoSuchDigit)
      else Ok(BinaryValue(JsStore(arr, |arr| - index - 1, if bit == 0 then '0' else '1')))
  }

  /** `setbit` on an integer: pad the digits, store one, and read the digits back with the loop above. */
  method SetBitOfInt(target: int, index: int, bit: int) returns (r: Result<int>)
    ensures r == SetBitInt(target, index, bit)
  {
    if index > 63 {
      return Err(SetBitIndexError);
    }
    var arr := PadStart(ToBinary(target), 64);
    if |arr| - index - 1 < 0 {
      return Err(NoSuchDigit);
    }
    arr := JsStore(arr, |arr| - index - 1, if bit == 0 then '0' else '1');
    var v := ParseBinaryStr(arr);
    return Ok(v);
  }

  function GetBitInt(target: int, index: int): Result<int> {
    if index > 63 then Err(SetBitIndexError)
    else
      var s := ToBinary(target);
      var k := |s| - index - 1;
      if !(0 <= k < |s|) || s[k] == '-' then Err(NoSuchDigit)
      else Ok(DigitValue(s[k]))
  }

  /** Replacing the digit of weight 2^i in a binary string replaces exactly bit `i` of its value. */
  lemma ReplaceBit(arr: string, i: nat, c: char)
    requires i < |arr| && (c == '0' || c == '1')
    ensures var r, x := BinaryValue(arr[|arr| - 1 - i := c]), BinaryValue(arr);
            && r == x + (DigitValue(c) - BitAt(x, i)) * Pow2(i)
            && forall j: nat :: BitAt(r, j) == if j == i then DigitValue(c) else BitAt(x, j)
  {
    var k := |arr| - 1 - i;
    ReplaceDigit(arr, k, c);
    BinaryValueBits(arr, i);
    forall j: nat
      ensures BitAt(BinaryValue(arr[k := c]), j) == if j == i then DigitValue(c) else BitAt(BinaryValue(arr), j)
    {
      BinaryValueBits(arr[k := c], j);
      BinaryValueBits(arr, j);
    }
  }

  /** The padded digit string of a uint64 has exactly 64 digits and the same value. */
  lemma PaddedDigits(x: int)
    requires IsUint64(x)
    ensures |PadStart(ToBinary(x), 64)| == 64 && BinaryValue(PadStart(ToBinary(x), 64)) == x
  {
    Pow2Of64();
    DigitsLength(x, 64);
    DigitsRoundTrip(x);
    PadStartValue(Digits(x), 64);
  }

  lemma ValueOf64Digits(s: string)
    requires |s| == 64
    ensures IsUint64(BinaryValue(s))
  {
    Pow2Of64();
    BinaryValueBounded(s);
  }

  /** On a uint64, `setbit` changes bit `i` to `b` and nothing else, and stays in range. */
  lemma SetBitIntCorrect(x: int, i: int, b: int)
    requires IsUint64(x) && 0 <= i <= 63 && 0 <= b <= 1
    ensures SetBitInt(x, i, b).Ok?
    ensures var r := SetBitInt(x, i, b).value;
            && r == x + (b - BitAt(x, i)) * Pow2(i)
            && IsUint64(r)
            && forall j: nat :: BitAt(r, j) == if j == i then b else BitAt(x, j)
  {
    var arr, c := PadStart(ToBinary(x), 64), if b == 0 then '0' else '1';
    PaddedDigits(x);
    ReplaceBit(arr, i, c);
    ValueOf64Digits(arr[63 - i := c]);
  }

  lemma {:induction false} BinaryValueBounded(s: string)
    ensures BinaryValue(s) < Pow2(|s|)
    decreases |s|
  {
    if s != [] {
      BinaryValueBounded(s[..|s| - 1]);
    }
  }

  /** `getbit` reads the unpadded string: it answers exactly below the value's digit count, and then with the
      arithmetic bit. Above that the index has no digit and the program fails, although the bit is zero. */
  lemma GetBitIntExact(x: int, i: int)
    requires IsUint64(x) && 0 <= i <= 63
    ensures GetBitInt(x, i).Ok? <==> i < |Digits(x)|
    ensures GetBitInt(x, i).Ok? ==> GetBitInt(x, i).value == BitAt(x, i)
    ensures GetBitInt(x, i).Err? ==> BitAt(x, i) == 0
  {
    DigitsRoundTrip(x);
    BinaryValueBits(Digits(x), i);
  }

  /** A concrete failing read: bit 3 of the integer 4 is zero, but it lies beyond the three digits of "100". */
  lemma GetBitIntFails()
    ensures GetBitInt(4, 3) == Err(NoSuchDigit)
    ensures BitAt(4, 3) == 0
  {
    assert Digits(4) == Digits(2) + ['0'] && Digits(2) == Digits(1) + ['0'];
  }

  /** `getbit` after `setbit` on a uint64 returns the written bit, wherever `getbit` can read it. */
  lemma GetAfterSetInt(x: int, i: int, b: int, j: int)
    requires IsUint64(x) && 0 <= i <= 63 && 0 <= j <= 63 && 0 <= b <= 1
    ensures SetBitInt(x, i, b).Ok?
    ensures var got := GetBitInt(SetBitInt(x, i, b).value, j);
            got.Ok? ==> got.value == if j == i then b else BitAt(x, j)
  {
    SetBitIntCorrect(x, i, b);
    GetBitIntExact(SetBitInt(x, i, b).value, j);
  }

  // ---- Byte-array targets ----

  /** Bits of a byte array, most significant bit of the first byte first. */
  function ByteBit(bs: Bytes, i: nat): int
    requires i < 8 * |bs|
  {
    BitAt(bs[i / 8], 7 - i % 8)
  }

  function SetBitBytes(target: Bytes, index: int, bit: int): Result<Bytes> {
    var byteIndex := index / 8;
    if byteIndex >= |target| then Err(SetBitIndexBytesError)
    else if index < 0 then Ok(target) // a typed array ignores a write to a negative index
    else
      var p := Pow2(7 - index % 8);
      var before := target[byteIndex];
      Ok(target[byteIndex := (if bit == 1 then Bitwise(BitOr, before, p) else Bitwise(BitAnd, before, -p - 1)) % 256])
  }

  function GetBitBytes(target: Bytes, index: int): Result<int> {
    var byteIndex := index / 8;
    if byteIndex >= |target| then Err(SetBitIndexBytesError)
    else if index < 0 then Err(NoSuchDigit)
    else
      var s := PadStart(Digits(target[byteIndex]), 8);
      if index % 8 < |s| then Ok(DigitValue(s[index % 8])) else Err(NoSuchDigit)
  }

  lemma GetBitBytesCorrect(bs: Bytes, i: nat)
    requires i < 8 * |bs|
    ensures GetBitBytes(bs, i) == Ok(ByteBit(bs, i))
  {
    var x := bs[i / 8];
    assert Pow2(8) == 256;
    DigitsLength(x, 8);
    DigitsRoundTrip(x);
    PadStartValue(Digits(x), 8);
    BinaryValueBits(PadStart(Digits(x), 8), 7 - i % 8);
  }

  lemma {:induction false} BitOfPow2(k: nat, j: nat)
    ensures BitAt(Pow2(k), j) == if j == k then 1 else 0
    ensures BitAt(-Pow2(k) - 1, j) == if j == k then 0 else 1
    decreases j
  {
    if j == 0 {
    } else if k == 0 {
      BitAtZero(j - 1);
      assert Pow2(k) / 2 == 0 && (-Pow2(k) - 1) / 2 == -1;
      BitAtMinusOne(j - 1);
    } else {
      BitOfPow2(k - 1, j - 1);
      assert Pow2(k) / 2 == Pow2(k - 1) && (-Pow2(k) - 1) / 2 == -Pow2(k - 1) - 1;
    }
  }

  lemma {:induction false} BitAtMinusOne(j: nat)
    ensures BitAt(-1, j) == 1
  {
    if j > 0 {
      BitAtMinusOne(j - 1);
    }
  }

  /** Clearing with the complement of a mask keeps a natural below its bound. */
  lemma {:induction false} ClearBounded(a: nat, b: int, n: nat)
    requires a < Pow2(n)
    ensures 0 <= Bitwise(BitAnd, a, b) < Pow2(n)
    decreases n, Size(a) + Size(b)
  {
    if Size(a) == 0 && Size(b) == 0 {
    } else if n > 0 {
      ClearBounded(a / 2, b / 2, n - 1);
    } else {
      ClearBounded(a / 2, b / 2, n);
    }
  }

  lemma {:induction false} Pow2Monotone(j: nat, k: nat)
    requires j < k
    ensures Pow2(j) < Pow2(k)
    decreases k
  {
    assert Pow2(k) == 2 * Pow2(k - 1);
    if j < k - 1 {
      Pow2Monotone(j, k - 1);
    }
  }

  /** One byte of `setbit`: or-ing or masking changes bit `k` only. */
  lemma WriteBit(x: byte, k: nat, b: int, j: nat)
    requires k < 8 && j < 8 && 0 <= b <= 1
    ensures var y := if b == 1 then Bitwise(BitOr, x, Pow2(k)) else Bitwise(BitAnd, x, -Pow2(k) - 1);
            0 <= y < 256 && BitAt(y, j) == if j == k then b else BitAt(x, j)
  {
    var kind, mask := if b == 1 then BitOr else BitAnd, if b == 1 then Pow2(k) else -Pow2(k) - 1;
    assert Pow2(8) == 256;
    Pow2Monotone(k, 8);
    if b == 1 { BitwiseBounded(BitOr, x, Pow2(k), 8); } else { ClearBounded(x, mask, 8); }
    BitwiseAt(kind, x, mask, j);
    BitOfPow2(k, j);
    BitIsDigit(x, j);
  }

  /** On an unshared byte array, reading any bit after writing one sees the write and nothing else. */
  lemma GetAfterSetBytes(bs: Bytes, i: nat, b: int, j: nat)
    requires i < 8 * |bs| && j < 8 * |bs| && 0 <= b <= 1
    ensures SetBitBytes(bs, i, b).Ok? && |SetBitBytes(bs, i, b).value| == |bs|
    ensures GetBitBytes(SetBitBytes(bs, i, b).value, j) == if j == i then Ok(b) else GetBitBytes(bs, j)
  {
    hide GetBitBytes, Bitwise, PadStart;
    WriteBit(bs[i / 8], 7 - i % 8, b, 7 - j % 8);
    GetBitBytesCorrect(bs, j);
    GetBitBytesCorrect(SetBitBytes(bs, i, b).value, j);
  }

  lemma {:induction false} BitIsDigit(x: int, i: nat)
    ensures 0 <= BitAt(x, i) <= 1
    decreases i
  {
    if i > 0 {
      BitIsDigit(x / 2, i - 1);
    }
  }

  // ---- Wide arithmetic ----

  /** Carry and sum as `addw` pushes them. */
  function AddwParts(a: int, b: int): (int, int) {
    if a + b > MAX_UINT64 then (1, a + b - MAX_UINT64 - 1) else (0, a + b)
  }

  /** High and low halves as `mulw` computes them: a shift and a mask. */
  function MulwParts(a: int, b: int): (int, int) {
    (a * b / (MAX_UINT64 + 1), Bitwise(BitAnd, a * b, MAX_UINT64))
  }

  lemma {:induction false} MaskIsModulo(x: nat, n: nat)
    ensures Bitwise(BitAnd, x, Pow2(n) - 1) == x % Pow2(n)
    decreases n
  {
    if n == 0 {
      AndZero(x);
    } else {
      var m := Pow2(n - 1);
      MaskIsModulo(x / 2, n - 1);
      assert (2 * m - 1) / 2 == m - 1 && (2 * m - 1) % 2 == 1;
      HalfModulo(x, m);
    }
  }

  lemma HalfModulo(x: nat, m: int)
    requires m > 0
    ensures x % (2 * m) == 2 * (x / 2 % m) + x % 2
  {
    var q, r := x / 2 / m, x / 2 % m;
    assert x / 2 == q * m + r;
    assert x == 2 * (q * m + r) + x % 2;
    var rest := 2 * r + x % 2;
    assert x == q * (2 * m) + rest;
    ModuloUnique(x, 2 * m, q, rest);
  }

  lemma ModuloUnique(x: int, d: nat, q: int, r: int)
    requires d > 0 && x == q * d + r && 0 <= r < d
    ensures x % d == r && x / d == q
  {
    assert x == x / d * d + x % d;
    SmallMultiple(x / d - q, d, r - x % d);
  }

  lemma SmallMultiple(k: int, d: int, r: int)
    requires k * d == r && -d < r < d
    ensures k == 0
  {
  }

  lemma {:induction false} AndZero(x: nat)
    ensures Bitwise(BitAnd, x, 0) == 0
  {
    if x > 0 {
      AndZero(x / 2);
    }
  }

  /** A number below a square, split by its root: both parts are below the root and nothing is lost. */
  lemma WideSplit(x: nat, n: nat)
    requires x < Pow2(n) * Pow2(n)
    ensures var (high, low) := (x / Pow2(n), Bitwise(BitAnd, x, Pow2(n) - 1));
            0 <= high < Pow2(n) && 0 <= low < Pow2(n) && high * Pow2(n) + low == x
  {
    MaskIsModulo(x, n);
    SplitBelow(x, Pow2(n));
  }

  lemma SplitBelow(x: nat, w: nat)
    requires w > 0 && x < w * w
    ensures 0 <= x / w < w && 0 <= x % w < w && x / w * w + x % w == x
  {
    QuotientBelow(x, w);
  }

  /** `mulw` is exact, and neither of its overflow checks can fire. */
  lemma MulwExact(a: int, b: int)
    requires IsUint64(a) && IsUint64(b)
    ensures var (high, low) := MulwParts(a, b);
            IsUint64(high) && IsUint64(low) && high * (MAX_UINT64 + 1) + low == a * b
  {
    Pow2Of64();
    ProductBelow(a, b, Pow2(64));
    WideSplit(a * b, 64);
  }

  lemma ProductBelow(a: int, b: int, w: int)
    requires 0 <= a < w && 0 <= b < w
    ensures 0 <= a * b < w * w
  {
    assert a * b <= a * w;
    assert a * w < w * w;
  }

  lemma QuotientBelow(x: nat, w: nat)
    requires w > 0 && x < w * w
    ensures x / w < w
  {
    assert x == x / w * w + x % w;
    SmallerFactor(x / w, w);
  }

  lemma SmallerFactor(q: int, w: nat)
    requires q * w < w * w
    ensures q < w
  {
  }

  /** `addw` is exact, with a carry of zero or one. */
  lemma AddwExact(a: int, b: int)
    requires IsUint64(a) && IsUint64(b)
    ensures var (carry, sum) := AddwParts(a, b);
            0 <= carry <= 1 && IsUint64(sum) && carry * (MAX_UINT64 + 1) + sum == a + b
  {
  }
}
