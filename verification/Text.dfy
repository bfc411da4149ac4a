/** Strings as the services compare and join them: byte-wise order, separators and decimal numerals. */
module Text {

  // ----- order -----

  /** The byte-wise order of Go's string comparison. */
  predicate Less(a: string, b: string) {
    if b == "" then false
    else if a == "" then true
    else a[0] < b[0] || (a[0] == b[0] && Less(a[1..], b[1..]))
  }

  lemma {:induction false} LessIrreflexive(a: string)
    ensures !Less(a, a)
  {
    if a != "" {
      LessIrreflexive(a[1..]);
    }
  }

  lemma {:induction false} LessTransitive(a: string, b: string, c: string)
    requires Less(a, b) && Less(b, c)
    ensures Less(a, c)
  {
    if a != "" && a[0] == b[0] == c[0] {
      LessTransitive(a[1..], b[1..], c[1..]);
    }
  }

  lemma {:induction false} LessTotal(a: string, b: string)
    ensures a == b || Less(a, b) || Less(b, a)
  {
    if a != "" && b != "" && a[0] == b[0] {
      LessTotal(a[1..], b[1..]);
      assert a == [a[0]] + a[1..] && b == [b[0]] + b[1..];
    }
  }

  // ----- joining -----

  predicate Without(s: string, sep: char) { sep !in s }

  predicate AllWithout(parts: seq<string>, sep: char) { forall p :: p in parts ==> Without(p, sep) }

  /** strings.Join with a one-character separator. */
  function Join(parts: seq<string>, sep: char): string {
    if parts == [] then ""
    else if |parts| == 1 then parts[0]
    else parts[0] + [sep] + Join(parts[1..], sep)
  }

  /** The part up to the first separator is determined. */
  lemma FirstPart(x: string, restX: string, y: string, restY: string, sep: char)
    requires Without(x, sep) && Without(y, sep) && x + [sep] + restX == y + [sep] + restY
    ensures x == y && restX == restY
  {
    var s := x + [sep] + restX;
    assert s[|x|] == sep && s[|y|] == sep;
    assert s[..|x|] == x && s[..|y|] == y;
    assert s[|x| + 1..] == restX && s[|y| + 1..] == restY;
  }

  lemma OnePart(x: string, y: string, rest: string, sep: char)
    requires Without(x, sep)
    ensures x != y + [sep] + rest
  {
    assert (y + [sep] + rest)[|y|] == sep;
  }

  /** Two lists of separator-free parts that join to one string are the same list. */
  lemma {:induction false} JoinInjective(a: seq<string>, b: seq<string>, sep: char)
    requires a != [] && b != [] && AllWithout(a, sep) && AllWithout(b, sep)
    requires Join(a, sep) == Join(b, sep)
    ensures a == b
  {
    if |a| == 1 {
      if |b| > 1 {
        OnePart(a[0], b[0], Join(b[1..], sep), sep);
      }
    } else if |b| == 1 {
      OnePart(b[0], a[0], Join(a[1..], sep), sep);
    } else {
      FirstPart(a[0], Join(a[1..], sep), b[0], Join(b[1..], sep), sep);
      JoinInjective(a[1..], b[1..], sep);
      assert a == [a[0]] + a[1..] && b == [b[0]] + b[1..];
    }
  }

  lemma {:induction false} JoinWithout(parts: seq<string>, sep: char, other: char)
    requires AllWithout(parts, other) && other != sep
    ensures Without(Join(parts, sep), other)
  {
    if |parts| > 1 {
      JoinWithout(parts[1..], sep, other);
      assert Without(parts[0], other) && Without(Join(parts[1..], sep), other);
      assert forall c :: c in Join(parts, sep) ==> c in parts[0] || c == sep || c in Join(parts[1..], sep);
    } else if |parts| == 1 {
      assert Without(parts[0], other);
    }
  }

  // ----- decimal numerals -----

  predicate IsDigit(c: char) { '0' <= c <= '9' }

  function Digit(d: nat): char
    requires d < 10
  {
    '0' + d as char
  }

  function Digits(n: nat): (s: string)
    ensures (if n < 10 then |s| == 1 else |s| > 1) && forall c :: c in s ==> IsDigit(c)
  {
    if n < 10 then [Digit(n)] else Digits(n / 10) + [Digit(n % 10)]
  }

  /** The %d verb. */
  function Decimal(n: int): string {
    if n < 0 then "-" + Digits(-n) else Digits(n)
  }

  lemma DigitInjective(d: nat, e: nat)
    requires d < 10 && e < 10 && Digit(d) == Digit(e)
    ensures d == e
  {
    assert Digit(d) as int - '0' as int == d && Digit(e) as int - '0' as int == e;
  }

  lemma {:induction false} DigitsInjective(m: nat, n: nat)
    requires Digits(m) == Digits(n)
    ensures m == n
    decreases m
  {
    var s := Digits(m);
    if m >= 10 && n >= 10 {
      assert s[|s| - 1] == Digit(m % 10) == Digit(n % 10);
      DigitInjective(m % 10, n % 10);
      assert s[..|s| - 1] == Digits(m / 10) && s[..|s| - 1] == Digits(n / 10);
      DigitsInjective(m / 10, n / 10);
    } else if m < 10 && n < 10 {
      DigitInjective(m, n);
    }
  }

  lemma SignShown(n: int)
    ensures Decimal(n) != "" && (Decimal(n)[0] == '-' <==> n < 0)
  {
    if n >= 0 {
      assert Digits(n)[0] in Digits(n);
    }
  }

  /** Different numbers have different numerals. */
  lemma DecimalInjective(m: int, n: int)
    requires Decimal(m) == Decimal(n)
    ensures m == n
  {
    SignShown(m);
    SignShown(n);
    if m < 0 && n < 0 {
      assert Decimal(m)[1..] == Digits(-m) && Decimal(n)[1..] == Digits(-n);
      DigitsInjective(-m, -n);
    } else if m >= 0 && n >= 0 {
      DigitsInjective(m, n);
    }
  }

  lemma DecimalWithout(n: int, sep: char)
    requires !IsDigit(sep) && sep != '-'
    ensures Without(Decimal(n), sep)
  {
    var digits := if n < 0 then Digits(-n) else Digits(n);
    assert forall c :: c in Decimal(n) ==> c in digits || c == '-';
  }
}
