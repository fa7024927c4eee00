/** The base58 text of byte strings: every leading zero byte is a '1', the rest is one
    number. Encoding, strict decoding, and the length-only check of the readiness tool.
 */
module Base58 {
  import opened Wrappers
  import opened Positional

  type Bytes = seq<nat>

  ghost predicate IsBytes(bytes: Bytes) {
    InBase(256, bytes)
  }

  /** The 58 letters in runs: digits from 1, then A-Z without I and O, then a-z without l. */
  function CharOf(digit: nat): char
    requires digit < 58
  {
    if digit < 9 then '1' + digit as char
    else if digit < 17 then 'A' + (digit - 9) as char
    else if digit < 22 then 'J' + (digit - 17) as char
    else if digit < 33 then 'P' + (digit - 22) as char
    else if digit < 44 then 'a' + (digit - 33) as char
    else 'm' + (digit - 44) as char
  }

  function DigitOf(c: char): Option<nat> {
    if '1' <= c <= '9' then Some((c - '1') as nat)
    else if 'A' <= c <= 'H' then Some(9 + (c - 'A') as nat)
    else if 'J' <= c <= 'N' then Some(17 + (c - 'J') as nat)
    else if 'P' <= c <= 'Z' then Some(22 + (c - 'P') as nat)
    else if 'a' <= c <= 'k' then Some(33 + (c - 'a') as nat)
    else if 'm' <= c <= 'z' then Some(44 + (c - 'm') as nat)
    else None
  }

  lemma DigitOfChar(digit: nat)
    requires digit < 58
    ensures DigitOf(CharOf(digit)) == Some(digit)
  {
  }

  lemma CharOfDigit(c: char)
    requires DigitOf(c).Some?
    ensures DigitOf(c).value < 58 && CharOf(DigitOf(c).value) == c
  {
  }

  const ALPHABET := "123456789" + "ABCDEFGH" + "JKLMN" + "PQRSTUVWXYZ" + "abcdefghijk" + "mnopqrstuvwxyz"

  /** The n characters from c on. */
  function From(c: char, n: nat): (run: string)
    requires c as int + n <= 0xD800
    ensures |run| == n && forall k :: 0 <= k < n ==> run[k] == c + k as char
  {
    if n == 0 then "" else From(c, n - 1) + [c + (n - 1) as char]
  }

  /** The runs spell the alphabet out. */
  lemma CharOfAlphabet(digit: nat)
    requires digit < 58
    ensures |ALPHABET| == 58 && CharOf(digit) == ALPHABET[digit]
  {
    NumberRun();
    CapitalRuns();
    LowerRuns();
  }

  lemma NumberRun()
    ensures From('1', 9) == "123456789"
  {
  }

  lemma CapitalRuns()
    ensures From('A', 8) == "ABCDEFGH" && From('J', 5) == "JKLMN" && From('P', 11) == "PQRSTUVWXYZ"
  {
  }

  lemma LowerRuns()
    ensures From('a', 11) == "abcdefghijk" && From('m', 14) == "mnopqrstuvwxyz"
  {
  }

  // ---------------------------------------------------------------- the codec as functions

  function Repeat<T>(x: T, n: nat): (xs: seq<T>)
    ensures |xs| == n && forall k :: 0 <= k < n ==> xs[k] == x
  {
    seq(n, _ => x)
  }

  /** How many copies of x a sequence starts with. */
  function Leading<T(==)>(xs: seq<T>, x: T): (n: nat)
    ensures n <= |xs|
    ensures forall k :: 0 <= k < n ==> xs[k] == x
    ensures n < |xs| ==> xs[n] != x
  {
    if xs == [] || xs[0] != x then 0
    else
      assert forall k :: 1 <= k <= Leading(xs[1..], x) ==> xs[k] == xs[1..][k - 1];
      1 + Leading(xs[1..], x)
  }

  function Text(digits: seq<nat>): string
    requires InBase(58, digits)
  {
    seq(|digits|, k requires 0 <= k < |digits| => CharOf(digits[k]))
  }

  function Encode(bytes: Bytes): string
    requires IsBytes(bytes)
  {
    var number := Value(256, bytes);
    DigitsValue(58, number);
    Repeat('1', Leading(bytes, 0)) + Text(Digits(58, number))
  }

  predicate InAlphabet(text: string) {
    forall k :: 0 <= k < |text| ==> DigitOf(text[k]).Some?
  }

  function DigitsOf(text: string): (digits: seq<nat>)
    requires InAlphabet(text)
    ensures InBase(58, digits) && |digits| == |text|
  {
    seq(|text|, k requires 0 <= k < |text| => DigitOf(text[k]).value)
  }

  /** The bytes a text stands for, whatever their number. */
  function Plain(text: string): Bytes
    requires InAlphabet(text)
  {
    Repeat<nat>(0, Leading(text, '1')) + Digits(256, Value(58, DigitsOf(text)))
  }

  function Longest(size: nat): nat {
    if size == 64 then 88 else 44
  }

  function Decode(text: string, size: nat): Option<Bytes> {
    if !(1 <= |text| <= Longest(size)) then None
    else if !InAlphabet(text) then None
    else
      var decoded := Plain(text);
      PlainBytes(text);
      if |decoded| != size || Encode(decoded) != text then None else Some(decoded)
  }

  lemma PlainBytes(text: string)
    requires InAlphabet(text)
    ensures IsBytes(Plain(text))
  {
    DigitsValue(256, Value(58, DigitsOf(text)));
  }

  // ---------------------------------------------------------------- leading zeros carry no value

  lemma {:induction false} ZerosAddNothing(base: nat, n: nat, digits: seq<nat>)
    ensures Value(base, Repeat<nat>(0, n) + digits) == Value(base, digits)
  {
    if digits == [] {
      ZerosWorthNothing(base, n);
      assert Repeat<nat>(0, n) + digits == Repeat<nat>(0, n);
    } else {
      var all := Repeat<nat>(0, n) + digits;
      ZerosAddNothing(base, n, digits[..|digits| - 1]);
      assert all[..|all| - 1] == Repeat<nat>(0, n) + digits[..|digits| - 1];
    }
  }

  lemma {:induction false} ZerosWorthNothing(base: nat, n: nat)
    ensures Value(base, Repeat<nat>(0, n)) == 0
  {
    if n > 0 {
      var zeros := Repeat<nat>(0, n);
      ZerosWorthNothing(base, n - 1);
      assert zeros[..n - 1] == Repeat<nat>(0, n - 1);
      assert Value(base, zeros) == 0 * base + 0;
    }
  }

  lemma LeadingSplit<T>(xs: seq<T>, x: T, n: nat, rest: seq<T>)
    requires xs == Repeat(x, n) + rest && (rest != [] ==> rest[0] != x)
    ensures Leading(xs, x) == n
  {
    var m := Leading(xs, x);
    assert rest != [] ==> xs[n] == rest[0];
  }

  /** Any digit string is its leading zeros followed by the numeral of its value. */
  lemma ZerosAndNumeral(base: nat, digits: seq<nat>)
    requires base >= 2 && InBase(base, digits)
    ensures digits == Repeat<nat>(0, Leading(digits, 0)) + Digits(base, Value(base, digits))
  {
    var n := Leading(digits, 0);
    var rest := digits[n..];
    assert digits == Repeat<nat>(0, n) + rest;
    ZerosAddNothing(base, n, rest);
    ValueDigits(base, rest);
  }

  // ---------------------------------------------------------------- both directions

  lemma TextBack(digits: seq<nat>)
    requires InBase(58, digits)
    ensures InAlphabet(Text(digits)) && DigitsOf(Text(digits)) == digits
  {
    forall k | 0 <= k < |digits|
      ensures DigitOf(Text(digits)[k]) == Some(digits[k])
    {
      DigitOfChar(digits[k]);
    }
  }

  lemma DigitsBack(text: string)
    requires InAlphabet(text)
    ensures Text(DigitsOf(text)) == text
    ensures Leading(DigitsOf(text), 0) == Leading(text, '1')
  {
    var digits := DigitsOf(text);
    forall k | 0 <= k < |text|
      ensures Text(digits)[k] == text[k] && (text[k] == '1' <==> digits[k] == 0)
    {
      CharOfDigit(text[k]);
    }
    SameLeading(digits, 0, text, '1');
  }

  lemma {:induction false} SameLeading<S, T>(xs: seq<S>, x: S, ys: seq<T>, y: T)
    requires |xs| == |ys| && forall k :: 0 <= k < |xs| ==> (xs[k] == x <==> ys[k] == y)
    ensures Leading(xs, x) == Leading(ys, y)
  {
    if xs != [] && xs[0] == x {
      SameLeading(xs[1..], x, ys[1..], y);
    }
  }

  lemma TextConcat(a: seq<nat>, b: seq<nat>)
    requires InBase(58, a) && InBase(58, b)
    ensures Text(a + b) == Text(a) + Text(b)
  {
  }

  lemma TextZeros(n: nat)
    ensures Text(Repeat<nat>(0, n)) == Repeat('1', n)
  {
  }

  /** Encoding the bytes a text stands for always gives the text back: the decoder's final
      comparison never rejects anything the length check accepts. */
  lemma EncodePlain(text: string)
    requires InAlphabet(text)
    ensures IsBytes(Plain(text)) && Encode(Plain(text)) == text
  {
    var digits := DigitsOf(text);
    var number, ones := Value(58, digits), Leading(text, '1');
    PlainBytes(text);
    DigitsBack(text);
    ZerosAndNumeral(58, digits);
    DigitsValue(58, number);
    DigitsValue(256, number);
    LeadingSplit(Plain(text), 0, ones, Digits(256, number));
    ZerosAddNothing(256, ones, Digits(256, number));
    TextZeros(ones);
    TextConcat(Repeat<nat>(0, ones), Digits(58, number));
  }

  /** The bytes of an encoding are the bytes encoded. */
  lemma PlainEncode(bytes: Bytes)
    requires IsBytes(bytes)
    ensures InAlphabet(Encode(bytes)) && Plain(Encode(bytes)) == bytes
  {
    var number, zeros := Value(256, bytes), Leading(bytes, 0);
    var digits := Repeat<nat>(0, zeros) + Digits(58, number);
    DigitsValue(58, number);
    TextZeros(zeros);
    TextConcat(Repeat<nat>(0, zeros), Digits(58, number));
    TextBack(digits);
    DigitsBack(Encode(bytes));
    LeadingSplit(digits, 0, zeros, Digits(58, number));
    ZerosAddNothing(58, zeros, Digits(58, number));
    ZerosAndNumeral(256, bytes);
  }

  // ---------------------------------------------------------------- lengths

  lemma Squared(base: nat, k: nat, p: nat)
    requires Power(base, k) == p
    ensures Power(base, k + k) == p * p
  {
    PowerAdd(base, k, k);
  }

  lemma Powers256()
    ensures Power(256, 32) == 115792089237316195423570985008687907853269984665640564039457584007913129639936
  {
    assert Power(256, 1) == 256;
    Squared(256, 1, 256);
    Squared(256, 2, 65536);
    Squared(256, 4, 4294967296);
    Squared(256, 8, 18446744073709551616);
    Squared(256, 16, 340282366920938463463374607431768211456);
  }

  lemma Powers58()
    ensures Power(58, 12) == 1449225352009601191936
    ensures Power(58, 32) == 268965015114358137726910587140455987105619365599731777536
  {
    assert Power(58, 1) == 58;
    Squared(58, 1, 58);
    Squared(58, 2, 3364);
    Squared(58, 4, 11316496);
    Squared(58, 8, 128063081718016);
    Squared(58, 16, 16400152899115243850138976256);
    PowerAdd(58, 8, 4);
  }

  /** 256^32 < 58^44 and, squared, 256^64 < 58^88. */
  lemma SizesFit()
    ensures Power(256, 32) <= Power(58, 44)
    ensures Power(256, 64) <= Power(58, 88)
  {
    Powers256();
    Powers58();
    PowerAdd(58, 32, 12);
    assert Power(58, 44) == 268965015114358137726910587140455987105619365599731777536 * 1449225352009601191936;
    PowerAdd(256, 32, 32);
    PowerAdd(58, 44, 44);
    Product(Power(256, 32), Power(256, 32), Power(58, 44), Power(58, 44));
  }

  lemma CancelPower(n: nat, m: nat, z: nat)
    requires z <= n && z <= m && Power(256, n) <= Power(58, m)
    ensures Power(256, n - z) <= Power(58, m - z)
  {
    PowerAdd(256, n - z, z);
    PowerAdd(58, m - z, z);
    PowerGrows(58, 256, z);
    if Power(256, n - z) > Power(58, m - z) {
      StrictProduct(Power(58, m - z), Power(58, z), Power(256, n - z), Power(256, z));
    }
  }

  /** The encoding of n bytes fits in m letters whenever 256^n <= 58^m. */
  lemma EncodingFits(bytes: Bytes, m: nat)
    requires IsBytes(bytes) && |bytes| <= m
    requires Power(256, |bytes|) <= Power(58, m)
    ensures |bytes| <= |Encode(bytes)| <= m
  {
    hide Digits, Power, Value;
    var z, number := Leading(bytes, 0), Value(256, bytes);
    var rest := Digits(256, number);
    ZerosAndNumeral(256, bytes);
    DigitsValue(256, number);
    ValueBound(256, rest);
    BiggerBaseShorter(58, 256, number);
    CancelPower(|bytes|, m, z);
    DigitsBound(58, number, m - z);
    DigitsValue(58, number);
  }

  lemma StrictProduct(x: nat, y: nat, u: nat, v: nat)
    requires x < u && 1 <= y <= v
    ensures x * y < u * v
  {
    Product(x + 1, y, u, v);
    assert (x + 1) * y == x * y + y;
  }

  // ---------------------------------------------------------------- main results

  /** Round trip for signatures, keys and hashes. */
  lemma RoundTrip(bytes: Bytes)
    requires IsBytes(bytes) && (|bytes| == 32 || |bytes| == 64)
    ensures Decode(Encode(bytes), |bytes|) == Some(bytes)
  {
    SizesFit();
    EncodingFits(bytes, Longest(|bytes|));
    PlainEncode(bytes);
  }

  /** Every accepted text is the one encoding of what it decodes to. */
  lemma DecodedReencodes(text: string, size: nat)
    requires Decode(text, size).Some?
    ensures IsBytes(Decode(text, size).value) && |Decode(text, size).value| == size
    ensures Encode(Decode(text, size).value) == text
  {
    PlainBytes(text);
  }

  /** The readiness tool's check: letters and lengths only. */
  predicate Hash32(text: string) {
    && 32 <= |text| <= 44
    && InAlphabet(text)
    && |Digits(256, Value(58, DigitsOf(text)))| + Leading(text, '1') == 32
  }

  /** The length-only check accepts exactly the texts the strict decoder accepts. */
  lemma Hash32Agrees(text: string)
    ensures Hash32(text) <==> Decode(text, 32).Some?
  {
    if InAlphabet(text) {
      var digits := DigitsOf(text);
      var number := Value(58, digits);
      EncodePlain(text);
      DigitsBack(text);
      ZerosAndNumeral(58, digits);
      BiggerBaseShorter(58, 256, number);
    }
  }

  // ---------------------------------------------------------------- the loops

  /** What the encoding loop keeps: the letters so far complete those of the number left. */
  ghost predicate Encoding(number: nat, encoded: string, whole: nat) {
    && InBase(58, Digits(58, number)) && InBase(58, Digits(58, whole))
    && Text(Digits(58, number)) + encoded == Text(Digits(58, whole))
  }

  lemma EncodingStarts(whole: nat)
    ensures Encoding(whole, "", whole)
  {
    DigitsValue(58, whole);
  }

  lemma EncodingStep(number: nat, encoded: string, whole: nat)
    requires Encoding(number, encoded, whole) && number > 0
    ensures number / 58 < number && Encoding(number / 58, [CharOf(number % 58)] + encoded, whole)
  {
    DigitsValue(58, number / 58);
    TextConcat(Digits(58, number / 58), [number % 58]);
    assert Text([number % 58]) == [CharOf(number % 58)];
    hide Value;
  }

  lemma EncodingEnds(encoded: string, whole: nat)
    requires Encoding(0, encoded, whole)
    ensures InBase(58, Digits(58, whole)) && encoded == Text(Digits(58, whole))
  {
    assert Text([]) == [];
  }

  method Encode58(bytes: Bytes) returns (text: string)
    requires IsBytes(bytes)
    ensures text == Encode(bytes)
  {
    hide Encoding, Digits, Value;
    var zeros := Leading(bytes, 0);
    var number := Value(256, bytes);
    var encoded := "";
    ghost var whole := number;
    EncodingStarts(whole);
    while number != 0
      invariant Encoding(number, encoded, whole)
      decreases number
    {
      EncodingStep(number, encoded, whole);
      var remainder := number % 58;
      number := number / 58;
      encoded := [CharOf(remainder)] + encoded;
    }
    EncodingEnds(encoded, whole);
    text := Repeat('1', zeros) + encoded;
  }

  /** What the decoding loops keep: the number read so far. */
  ghost predicate ReadTo(text: string, i: nat, number: nat) {
    i <= |text| && InAlphabet(text[..i]) && number == Value(58, DigitsOf(text[..i]))
  }

  lemma ReadNone(text: string)
    ensures ReadTo(text, 0, 0)
  {
  }

  lemma ReadOne(text: string, i: nat, number: nat)
    requires ReadTo(text, i, number) && i < |text|
    ensures DigitOf(text[i]).None? ==> !InAlphabet(text)
    ensures DigitOf(text[i]).Some? ==> ReadTo(text, i + 1, number * 58 + DigitOf(text[i]).value)
  {
    hide DigitOf;
    if DigitOf(text[i]).Some? {
      assert text[..i + 1] == text[..i] + [text[i]];
      assert DigitsOf(text[..i + 1])[..i] == DigitsOf(text[..i]);
    }
  }

  lemma ReadAll(text: string, number: nat)
    requires ReadTo(text, |text|, number)
    ensures InAlphabet(text) && number == Value(58, DigitsOf(text))
  {
    assert text[..|text|] == text;
    hide DigitOf;
  }

  lemma PlainOf(text: string, number: nat)
    requires InAlphabet(text) && number == Value(58, DigitsOf(text))
    ensures Plain(text) == Repeat<nat>(0, Leading(text, '1')) + (if number != 0 then Digits(256, number) else [])
  {
    hide Value, DigitOf;
  }

  method Decode58(text: string, size: nat) returns (decoded: Option<Bytes>)
    ensures decoded == Decode(text, size)
  {
    hide ReadTo, InAlphabet, Digits, Value, Leading, Plain, Encode;
    if !(1 <= |text| <= Longest(size)) {
      return None;
    }
    var number: nat := 0;
    ReadNone(text);
    for i := 0 to |text|
      invariant ReadTo(text, i, number)
    {
      ReadOne(text, i, number);
      var digit := DigitOf(text[i]);
      if digit.None? {
        return None;
      }
      number := number * 58 + digit.value;
    }
    ReadAll(text, number);
    PlainOf(text, number);
    PlainBytes(text);
    var bytes := Repeat<nat>(0, Leading(text, '1'));
    if number != 0 {
      bytes := bytes + Digits(256, number);
    } else {
      assert bytes + [] == bytes;
    }
    var again := Encode58(bytes);
    if |bytes| != size || again != text {
      return None;
    }
    return Some(bytes);
  }

  method CheckHash32(text: string) returns (ok: bool)
    ensures ok == Hash32(text)
    ensures ok <==> Decode(text, 32).Some?
  {
    Hash32Agrees(text);
    hide ReadTo, InAlphabet, Digits, Value, Leading, Decode;
    if !(32 <= |text| <= 44) {
      return false;
    }
    var number: nat := 0;
    ReadNone(text);
    for i := 0 to |text|
      invariant ReadTo(text, i, number)
    {
      ReadOne(text, i, number);
      if DigitOf(text[i]).None? {
        return false;
      }
      number := number * 58 + DigitOf(text[i]).value;
    }
    ReadAll(text, number);
    return |Digits(256, number)| + Leading(text, '1') == 32;
  }
}
