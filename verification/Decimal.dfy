/** Numbers as the decimal text that std::to_string writes, in ASCII bytes. */
module Decimal {
  import opened Crc32

  const ZERO_TEXT: seq<bv8> := [0x30]

  function Digit(d: nat): bv8
    requires d < 10
  {
    if d == 0 then 0x30 else if d == 1 then 0x31 else if d == 2 then 0x32 else if d == 3 then 0x33
    else if d == 4 then 0x34 else if d == 5 then 0x35 else if d == 6 then 0x36 else if d == 7 then 0x37
    else if d == 8 then 0x38 else 0x39
  }

  function Text(n: nat): (t: seq<bv8>)
    ensures t != []
    ensures n >= 10 ==> |t| >= 2
  {
    if n < 10 then [Digit(n)] else Text(n / 10) + [Digit(n % 10)]
  }

  function SignedText(n: int): seq<bv8> {
    if n < 0 then [0x2D] + Text(-n) else Text(n)
  }

  /** The unsigned value of a register. */
  function Unsigned(x: bv32): (n: nat)
    ensures n < 0x1_0000_0000
  {
    x as nat
  }

  // ---------- reading decimal text ----------

  function Pow10(k: nat): (p: nat)
    ensures p >= 1
  {
    if k == 0 then 1 else 10 * Pow10(k - 1)
  }

  function DigitValue(b: bv8): int {
    b as int - 0x30
  }

  /** What a text is worth: every digit times the power of ten of its place. */
  function Value(t: seq<bv8>): int {
    if t == [] then 0 else DigitValue(t[0]) * Pow10(|t| - 1) + Value(t[1..])
  }

  /** The only way to write a number: digits, the first of them zero only when it stands alone. */
  predicate IsDecimal(t: seq<bv8>) {
    && t != []
    && (forall i :: 0 <= i < |t| ==> 0 <= DigitValue(t[i]) < 10)
    && (|t| > 1 ==> t[0] != 0x30)
  }

  lemma DigitReads(d: nat)
    requires d < 10
    ensures DigitValue(Digit(d)) == d && (Digit(d) == 0x30 <==> d == 0)
  {
  }

  lemma DigitWrites(b: bv8)
    requires 0 <= DigitValue(b) < 10
    ensures Digit(DigitValue(b)) == b
  {
    assert b == 0x30 || b == 0x31 || b == 0x32 || b == 0x33 || b == 0x34
        || b == 0x35 || b == 0x36 || b == 0x37 || b == 0x38 || b == 0x39;
  }

  lemma {:induction false} ValueSnoc(t: seq<bv8>, b: bv8)
    ensures Value(t + [b]) == 10 * Value(t) + DigitValue(b)
  {
    hide DigitValue;
    if t == [] {
      assert (t + [b])[1..] == [];
    } else {
      ValueSnoc(t[1..], b);
      assert (t + [b])[1..] == t[1..] + [b];
      Distribute(DigitValue(t[0]), Pow10(|t| - 1));
    }
  }

  lemma Distribute(d: int, p: int)
    ensures d * (10 * p) == 10 * (d * p)
  {
  }

  /** The text of a number is its decimal numeral: it reads back as the number, and it is zero's
      only when it begins with a zero. */
  lemma {:induction false} TextReads(n: nat)
    ensures IsDecimal(Text(n)) && Value(Text(n)) == n
    ensures Text(n)[0] == 0x30 <==> n == 0
  {
    hide Digit, DigitValue, Value;
    if n < 10 {
      DigitReads(n);
      ValueOfOne(Digit(n));
    } else {
      TextReads(n / 10);
      DigitReads(n % 10);
      ValueSnoc(Text(n / 10), Digit(n % 10));
    }
  }

  lemma ValueOfOne(b: bv8)
    ensures Value([b]) == DigitValue(b)
  {
    hide DigitValue;
    assert [b][1..] == [];
  }

  /** And every decimal numeral is the text of the number it is worth. */
  lemma {:induction false} NumeralIsText(t: seq<bv8>)
    requires IsDecimal(t)
    ensures Value(t) >= 0 && t == Text(Value(t))
    decreases |t|
  {
    hide Digit, DigitValue, Value;
    var last := t[|t| - 1];
    DigitWrites(last);
    if |t| == 1 {
      ValueOfOne(last);
      assert t == [last];
    } else {
      var front := t[..|t| - 1];
      assert t == front + [last];
      NumeralIsText(front);
      ValueSnoc(front, last);
      if Value(front) == 0 {
        TextReads(0);
        assert false;
      }
    }
  }

  /** A minus sign exactly for negative numbers, and then the decimal numeral of the size. */
  lemma SignedTextReads(n: int)
    ensures n < 0 <==> SignedText(n)[0] == 0x2D
    ensures var digits := if n < 0 then SignedText(n)[1..] else SignedText(n);
      IsDecimal(digits) && Value(digits) == if n < 0 then -n else n
  {
    hide Text, Value, DigitValue;
    TextReads(if n < 0 then -n else n);
    if n < 0 {
      assert SignedText(n)[1..] == Text(-n);
    } else {
      MinusIsNoDigit(Text(n)[0]);
    }
  }

  lemma MinusIsNoDigit(b: bv8)
    requires 0 <= DigitValue(b)
    ensures b != 0x2D
  {
  }

  /** Different numbers have different texts. */
  lemma TextInjective(m: nat, n: nat)
    requires Text(m) == Text(n)
    ensures m == n
  {
    hide Text;
    TextReads(m);
    TextReads(n);
  }

  /** An exit code reads "0" exactly when it is zero, whatever its sign. */
  lemma ZeroTextMeansZero(n: int)
    ensures SignedText(n) == ZERO_TEXT <==> n == 0
  {
  }

  // ---------- checksums as text ----------

  lemma UnsignedBack(x: bv32)
    ensures Unsigned(x) as bv32 == x
  {
  }

  lemma UnsignedInjective(x: bv32, y: bv32)
    requires Unsigned(x) == Unsigned(y)
    ensures x == y
  {
    hide Unsigned;
    UnsignedBack(x);
    UnsignedBack(y);
  }

  /** The message that follows a file. */
  function ChecksumText(data: seq<bv8>): seq<bv8> {
    Text(Unsigned(Checksum(data)))
  }

  /** It is the decimal numeral of the checksum. */
  lemma ChecksumTextReads(data: seq<bv8>)
    ensures IsDecimal(ChecksumText(data)) && Value(ChecksumText(data)) == Checksum(data) as int
  {
    hide Text, Checksum;
    TextReads(Unsigned(Checksum(data)));
  }

  /** Comparing the texts decides whether the 32-bit checksums are equal. */
  lemma ChecksumTextDecides(x: seq<bv8>, y: seq<bv8>)
    ensures ChecksumText(x) == ChecksumText(y) <==> Checksum(x) == Checksum(y)
  {
    hide Text, Checksum, Unsigned;
    if ChecksumText(x) == ChecksumText(y) {
      TextInjective(Unsigned(Checksum(x)), Unsigned(Checksum(y)));
      UnsignedInjective(Checksum(x), Checksum(y));
    }
  }

  lemma TextGrows(n: nat, d: nat)
    requires n >= 1 && d < 10
    ensures Text(10 * n + d) == Text(n) + [Digit(d)]
  {
    hide Digit;
  }

  /** The message after a file holding the digits 1 to 9 is "3421780262". */
  lemma CheckText()
    ensures ChecksumText([0x31, 0x32, 0x33, 0x34, 0x35, 0x36, 0x37, 0x38, 0x39])
         == [0x33, 0x34, 0x32, 0x31, 0x37, 0x38, 0x30, 0x32, 0x36, 0x32]
  {
    CheckValue();
    assert Unsigned(0xCBF4_3926) == 3_421_780_262;
    hide Checksum, Unsigned, Digit;
    TextGrows(3, 4);
    TextGrows(34, 2);
    TextGrows(342, 1);
    TextGrows(3421, 7);
    TextGrows(34217, 8);
    TextGrows(342178, 0);
    TextGrows(3421780, 2);
    TextGrows(34217802, 6);
    TextGrows(342178026, 2);
    assert Text(3) == [Digit(3)];
    hide Text;
    assert Text(3421780262) == [Digit(3), Digit(4), Digit(2), Digit(1), Digit(7),
                                Digit(8), Digit(0), Digit(2), Digit(6), Digit(2)];
    SomeDigits();
  }

  lemma SomeDigits()
    ensures Digit(0) == 0x30 && Digit(1) == 0x31 && Digit(2) == 0x32 && Digit(3) == 0x33
    ensures Digit(4) == 0x34 && Digit(6) == 0x36 && Digit(7) == 0x37 && Digit(8) == 0x38
  {
  }
}
