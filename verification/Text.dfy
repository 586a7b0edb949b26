/** Decimal numerals and the order the database compares strings by. */
module Text {

  function Digit(d: nat): char
    requires d < 10
  {
    '0' + d as char
  }

  /** The lower case of an ASCII letter; every other character stays. */
  function LowerAscii(c: char): char { if 'A' <= c <= 'Z' then (c as int + 32) as char else c }

  predicate IsDigit(c: char) { '0' <= c <= '9' }

  function Decimal(n: nat): (s: string)
    ensures |s| >= 1
  {
    if n < 10 then [Digit(n)] else Decimal(n / 10) + [Digit(n % 10)]
  }

  function Pow10(k: nat): (p: nat)
    ensures p > 0
  {
    if k == 0 then 1 else 10 * Pow10(k - 1)
  }

  // ---------------------------------------------------------------------------
  // Length in bytes
  // ---------------------------------------------------------------------------

  /** What a character takes in UTF-8 (section 3 of RFC 3629). */
  function CharBytes(c: char): (n: nat)
    ensures 1 <= n <= 4
  {
    if (c as int) < 0x80 then 1 else if (c as int) < 0x800 then 2 else if (c as int) < 0x1_0000 then 3 else 4
  }

  function ByteLength(s: string): (n: nat)
    ensures |s| <= n <= 4 * |s|
  {
    if s == "" then 0 else ByteLength(s[..|s| - 1]) + CharBytes(s[|s| - 1])
  }

  // ---------------------------------------------------------------------------
  // Lexicographic order
  // ---------------------------------------------------------------------------

  predicate Less(a: string, b: string) {
    b != "" && (a == "" || a[0] < b[0] || (a[0] == b[0] && Less(a[1..], b[1..])))
  }

  lemma {:induction false} LessIsTransitive(a: string, b: string, c: string)
    requires Less(a, b) && Less(b, c)
    ensures Less(a, c)
  {
    if a != "" && a[0] == b[0] == c[0] {
      LessIsTransitive(a[1..], b[1..], c[1..]);
    }
  }

  lemma {:induction false} LessIsTotal(a: string, b: string)
    ensures !(Less(a, b) && Less(b, a)) && (a == b <==> !Less(a, b) && !Less(b, a))
  {
    if a != "" && b != "" && a[0] == b[0] {
      LessIsTotal(a[1..], b[1..]);
      assert a == [a[0]] + a[1..] && b == [b[0]] + b[1..];
    }
  }

  /** `a` compared with a longer string: only the part of its own length matters, and a tie is in its favour. */
  lemma {:induction false} LessThanLonger(a: string, p: string, q: string)
    requires |a| == |p|
    ensures Less(a, p + q) <==> Less(a, p) || (a == p && q != "")
    ensures !Less(p + q, a) || Less(p, a)
    ensures Less(p, a) ==> Less(p + q, a)
  {
    if a == "" {
      assert p + q == q;
    } else {
      assert (p + q)[1..] == p[1..] + q;
      LessThanLonger(a[1..], p[1..], q);
      assert a == [a[0]] + a[1..] && p == [p[0]] + p[1..];
    }
  }

  lemma {:induction false} LessOfLast(a: string, b: string, x: char, y: char)
    requires |a| == |b|
    ensures Less(a + [x], b + [y]) <==> Less(a, b) || (a == b && x < y)
  {
    if a != "" {
      assert (a + [x])[1..] == a[1..] + [x] && (b + [y])[1..] == b[1..] + [y];
      LessOfLast(a[1..], b[1..], x, y);
      assert a == [a[0]] + a[1..] && b == [b[0]] + b[1..];
    }
  }

  // ---------------------------------------------------------------------------
  // Numerals and numbers
  // ---------------------------------------------------------------------------

  /** A number without its last `k` decimal digits. */
  function Head(n: nat, k: nat): nat { if k == 0 then n else Head(n / 10, k - 1) }

  /** Cutting `k` digits off a numeral divides the number by 10 to the `k`. */
  lemma {:induction false} DecimalSplits(n: nat, k: nat) returns (q: string)
    requires k < |Decimal(n)|
    ensures |q| == k && Decimal(n) == Decimal(Head(n, k)) + q
  {
    if k == 0 {
      q := "";
    } else {
      var rest := DecimalSplits(n / 10, k - 1);
      q := rest + [Digit(n % 10)];
    }
  }

  /** Numerals of the same length compare like their numbers. */
  lemma {:induction false} EqualLengthsCompare(a: nat, b: nat)
    requires |Decimal(a)| == |Decimal(b)|
    ensures Less(Decimal(a), Decimal(b)) <==> a < b
    ensures Decimal(a) == Decimal(b) <==> a == b
  {
    if a >= 10 {
      EqualLengthsCompare(a / 10, b / 10);
      LessOfLast(Decimal(a / 10), Decimal(b / 10), Digit(a % 10), Digit(b % 10));
      assert Decimal(a)[..|Decimal(a)| - 1] == Decimal(a / 10) && Decimal(b)[..|Decimal(b)| - 1] == Decimal(b / 10);
    }
  }

  lemma {:induction false} LongerIsGreater(a: nat, b: nat)
    requires a <= b
    ensures |Decimal(a)| <= |Decimal(b)|
  {
    if a >= 10 {
      LongerIsGreater(a / 10, b / 10);
    }
  }

  /** The exact extent to which string comparison orders numbers: a smaller number comes first unless its
      numeral exceeds the leading digits of the larger one. */
  lemma StringOrderOfNumbers(a: nat, b: nat)
    requires a < b
    ensures |Decimal(a)| <= |Decimal(b)|
    ensures Less(Decimal(a), Decimal(b)) <==> a <= Head(b, |Decimal(b)| - |Decimal(a)|)
  {
    LongerIsGreater(a, b);
    CompareToHead(a, b, |Decimal(b)| - |Decimal(a)|);
  }

  lemma CompareToHead(a: nat, b: nat, k: nat)
    requires |Decimal(b)| == |Decimal(a)| + k && a < b
    ensures Less(Decimal(a), Decimal(b)) == (a <= Head(b, k))
  {
    var q := DecimalSplits(b, k);
    CompareNumbers(a, Head(b, k), Decimal(b), q);
  }

  lemma CompareNumbers(a: nat, head: nat, whole: string, q: string)
    requires whole == Decimal(head) + q && |Decimal(a)| == |Decimal(head)|
    ensures Less(Decimal(a), whole) <==> a < head || (a == head && q != "")
  {
    HeadDecides(Decimal(a), Decimal(head), q);
    EqualLengthsCompare(a, head);
  }

  lemma HeadDecides(a: string, p: string, q: string)
    requires |a| == |p|
    ensures Less(a, p + q) <==> Less(a, p) || (a == p && q != "")
  {
    LessThanLonger(a, p, q);
  }

  lemma DecimalIsInjective(a: nat, b: nat)
    requires Decimal(a) == Decimal(b)
    ensures a == b
  {
    EqualLengthsCompare(a, b);
  }

  lemma {:induction false} DecimalDigits(n: nat, i: nat)
    requires i < |Decimal(n)|
    ensures IsDigit(Decimal(n)[i])
  {
    if n >= 10 && i < |Decimal(n / 10)| {
      DecimalDigits(n / 10, i);
    }
  }

  lemma {:induction false} DecimalLength(n: nat, k: nat)
    requires 1 <= k && (k == 1 || Pow10(k - 1) <= n) && n < Pow10(k)
    ensures |Decimal(n)| == k
  {
    if k > 1 {
      DecimalLength(n / 10, k - 1);
    }
  }
}
