/** Vehicle identification numbers: normalisation and the check digit of ISO 3779
    (backend/vehicles/vin.go). */
module Vin {
  import opened Wrappers

  const VIN_LENGTH: nat := 17
  const CHECK_POSITION: nat := 8
  const CHECK_DIGIT_CHARS: string := "0123456789X"
  const WEIGHTS: seq<nat> := [8, 7, 6, 5, 4, 3, 2, 10, 0, 9, 8, 7, 6, 5, 4, 3, 2]

  // ----- normalisation -----

  predicate IsSeparator(c: char) { c == ' ' || c == '-' }

  const DOTLESS_I: char := '\U{0131}'
  const LONG_S: char := '\U{017F}'

  /** Upper case. Of the characters beyond ASCII two have an ASCII capital; the others stand for themselves
      here, since nothing beyond ASCII is allowed in either case. */
  function Upper(c: char): char {
    if 'a' <= c <= 'z' then (c as int - 32) as char
    else if c == DOTLESS_I then 'I'
    else if c == LONG_S then 'S'
    else c
  }

  /** Letters and digits, without I, O and Q. */
  predicate Allowed(c: char) {
    (('A' <= c <= 'Z') || ('0' <= c <= '9')) && c != 'I' && c != 'O' && c != 'Q'
  }

  function Stripped(raw: string): string {
    if raw == "" then "" else Stripped(raw[..|raw| - 1]) + if IsSeparator(raw[|raw| - 1]) then "" else [raw[|raw| - 1]]
  }

  function UpperAll(s: string): string { seq(|s|, i requires 0 <= i < |s| => Upper(s[i])) }

  predicate WellFormed(vin: string) {
    |vin| == VIN_LENGTH && forall i :: 0 <= i < |vin| ==> Allowed(vin[i])
  }

  /** None is the error. */
  function Normalize(raw: string): Option<string> {
    var vin := UpperAll(Stripped(raw));
    if WellFormed(vin) then Some(vin) else None
  }

  method NormalizeVIN(raw: string) returns (r: Option<string>)
    ensures r == Normalize(raw)
  {
    var stripped := "";
    for i := 0 to |raw|
      invariant stripped == Stripped(raw[..i])
    {
      assert raw[..i + 1][..i] == raw[..i];
      if !IsSeparator(raw[i]) {
        stripped := stripped + [raw[i]];
      }
    }
    assert raw[..|raw|] == raw;
    var vin := UpperAll(stripped);
    if |vin| != VIN_LENGTH {
      return None;
    }
    for i := 0 to |vin|
      invariant forall j :: 0 <= j < i ==> Allowed(vin[j])
    {
      var c := vin[i];
      if !('A' <= c <= 'Z') && !('0' <= c <= '9') {
        return None;
      }
      if c == 'I' || c == 'O' || c == 'Q' {
        return None;
      }
    }
    r := Some(vin);
  }

  lemma {:induction false} StrippedPlain(s: string)
    requires forall i :: 0 <= i < |s| ==> !IsSeparator(s[i])
    ensures Stripped(s) == s
  {
    if s != "" {
      StrippedPlain(s[..|s| - 1]);
      assert s == s[..|s| - 1] + [s[|s| - 1]];
    }
  }

  /** A normalised VIN normalises to itself. */
  lemma NormalizeIdempotent(raw: string)
    ensures Normalize(raw).Some? ==> Normalize(Normalize(raw).value) == Normalize(raw)
  {
    if Normalize(raw).Some? {
      var vin := Normalize(raw).value;
      StrippedPlain(vin);
      assert UpperAll(vin) == vin;
    }
  }

  lemma {:induction false} StrippedPlus(s: string, t: string)
    ensures Stripped(s + t) == Stripped(s) + Stripped(t)
  {
    if t == "" {
      assert s + t == s;
    } else {
      assert (s + t)[..|s + t| - 1] == s + t[..|t| - 1];
      StrippedPlus(s, t[..|t| - 1]);
    }
  }

  /** A space or hyphen anywhere makes no difference. */
  lemma SeparatorsIgnored(s: string, c: char, t: string)
    requires IsSeparator(c)
    ensures Normalize(s + [c] + t) == Normalize(s + t)
  {
    StrippedPlus(s + [c], t);
    StrippedPlus(s, [c]);
    StrippedPlus(s, t);
    assert [c][..0] == [];
    assert Stripped([c]) == "" && Stripped(s) + "" == Stripped(s);
  }

  lemma UpperPlus(s: string, t: string)
    ensures UpperAll(s + t) == UpperAll(s) + UpperAll(t)
  {
  }

  lemma {:induction false} UpperStripped(s: string)
    ensures UpperAll(Stripped(UpperAll(s))) == UpperAll(Stripped(s))
  {
    if s != "" {
      var init, c := s[..|s| - 1], s[|s| - 1];
      UpperStripped(init);
      assert UpperAll(s)[..|s| - 1] == UpperAll(init);
      UpperPlus(Stripped(UpperAll(init)), if IsSeparator(Upper(c)) then "" else [Upper(c)]);
      UpperPlus(Stripped(init), if IsSeparator(c) then "" else [c]);
      assert Upper(Upper(c)) == Upper(c) && (IsSeparator(Upper(c)) <==> IsSeparator(c));
    }
  }

  /** Nor does the case of the letters. */
  lemma CaseIgnored(s: string, t: string)
    requires UpperAll(s) == UpperAll(t)
    ensures Normalize(s) == Normalize(t)
  {
    UpperStripped(s);
    UpperStripped(t);
  }

  /** Only what turns into letters and digits is ever accepted: an accepted input is made of separators and
      exactly seventeen other characters, each the lower or upper case of an allowed one. */
  lemma AcceptedInput(raw: string)
    ensures Normalize(raw).Some? <==> |Stripped(raw)| == VIN_LENGTH && forall c :: c in raw ==> IsSeparator(c) || Allowed(Upper(c))
  {
    StrippedMembers(raw);
    var s := Stripped(raw);
    if Normalize(raw).Some? {
      forall c | c in raw && !IsSeparator(c) ensures Allowed(Upper(c)) {
        var i :| 0 <= i < |s| && s[i] == c;
        assert UpperAll(s)[i] == Upper(c);
      }
    }
  }

  lemma {:induction false} StrippedMembers(s: string)
    ensures forall c :: c in Stripped(s) <==> c in s && !IsSeparator(c)
  {
    if s != "" {
      StrippedMembers(s[..|s| - 1]);
      assert s == s[..|s| - 1] + [s[|s| - 1]];
    }
  }

  // ----- the check digit -----

  /** The value a character stands for; none for I, O and Q. */
  function ValueOf(c: char): Option<nat> {
    if '0' <= c <= '9' then Some(c as int - '0' as int)
    else if 'A' <= c <= 'H' then Some(c as int - 'A' as int + 1)
    else if 'J' <= c <= 'N' then Some(c as int - 'J' as int + 1)
    else if c == 'P' then Some(7)
    else if c == 'R' then Some(9)
    else if 'S' <= c <= 'Z' then Some(c as int - 'S' as int + 2)
    else None
  }

  lemma AllowedHaveValues(c: char)
    ensures Allowed(c) <==> ValueOf(c).Some?
    ensures ValueOf(c).Some? ==> ValueOf(c).value <= 9
  {
  }

  /** The value of a character that has one. */
  function Value(c: char): int { if ValueOf(c).Some? then ValueOf(c).value else 0 }

  function Weight(i: nat): int
    requires i < VIN_LENGTH
  {
    WEIGHTS[i]
  }

  function Term(vin: string, i: nat): int
    requires i < |vin| == VIN_LENGTH
  {
    Value(vin[i]) * Weight(i)
  }

  /** The weighted sum of the first n positions. */
  function SumTo(vin: string, n: nat): int
    requires n <= |vin| == VIN_LENGTH
  {
    if n == 0 then 0 else SumTo(vin, n - 1) + Term(vin, n - 1)
  }

  function CheckDigit(vin: string): char
    requires |vin| == VIN_LENGTH
  {
    CHECK_DIGIT_CHARS[SumTo(vin, VIN_LENGTH) % 11]
  }

  predicate Accepted(vin: string) { WellFormed(vin) && vin[CHECK_POSITION] == CheckDigit(vin) }

  method VinCheckDigit(vin: string) returns (d: Option<char>)
    ensures d.Some? <==> |vin| == VIN_LENGTH && forall i :: 0 <= i < |vin| ==> ValueOf(vin[i]).Some?
    ensures d.Some? ==> d.value == CheckDigit(vin)
  {
    if |vin| != VIN_LENGTH {
      return None;
    }
    var sum := 0;
    for i := 0 to VIN_LENGTH
      invariant sum == SumTo(vin, i)
      invariant forall j :: 0 <= j < i ==> ValueOf(vin[j]).Some?
    {
      var v := ValueOf(vin[i]);
      if v.None? {
        return None;
      }
      sum := sum + v.value * Weight(i);
    }
    d := Some(CHECK_DIGIT_CHARS[sum % 11]);
  }

  method ValidateVIN(raw: string) returns (r: Option<string>)
    ensures r == if Normalize(raw).Some? && Accepted(Normalize(raw).value) then Normalize(raw) else None
  {
    var vin := NormalizeVIN(raw);
    if vin.None? {
      return None;
    }
    forall i | 0 <= i < |vin.value| ensures ValueOf(vin.value[i]).Some? { AllowedHaveValues(vin.value[i]); }
    var want := VinCheckDigit(vin.value);
    if want.None? || vin.value[CHECK_POSITION] != want.value {
      return None;
    }
    r := vin;
  }

  // ----- what the check digit catches -----

  lemma {:induction false} SumsDifferAt(v: string, w: string, p: nat, n: nat)
    requires |v| == |w| == VIN_LENGTH && p < VIN_LENGTH && n <= VIN_LENGTH
    requires forall i :: 0 <= i < VIN_LENGTH && i != p ==> v[i] == w[i]
    ensures SumTo(v, n) - SumTo(w, n) == if n <= p then 0 else Term(v, p) - Term(w, p)
  {
    if n > 0 {
      SumsDifferAt(v, w, p, n - 1);
    }
  }

  lemma Difference(a: int, b: int, w: int)
    ensures a * w - b * w == (a - b) * w
  {
  }

  /** A difference of values of at most nine, times a weight the modulus does not divide, is seen. */
  lemma Residue(d: int, w: int)
    requires -9 <= d <= 9 && 0 < w <= 10 && d * w % 11 == 0
    ensures d == 0
  {
    if d > 0 {
      ResidueTable(d, w);
    } else if d < 0 {
      ResidueTable(-d, w);
      Negated(-d, w);
    }
  }

  lemma Negated(a: int, w: int)
    ensures a * w % 11 != 0 ==> -a * w % 11 != 0
  {
    assert -a * w == -(a * w);
  }

  lemma ResidueTable(a: nat, w: nat)
    requires 1 <= a <= 9 && 1 <= w <= 10
    ensures a * w % 11 != 0
  {
    var x := a * w;
    if a == 1 {} else if a == 2 {} else if a == 3 {} else if a == 4 {} else if a == 5 {}
    else if a == 6 {} else if a == 7 {} else if a == 8 {} else {}
  }

  lemma SameResidue(x: int, y: int)
    requires CHECK_DIGIT_CHARS[x % 11] == CHECK_DIGIT_CHARS[y % 11]
    ensures (x - y) % 11 == 0
  {
    DigitsDiffer(x % 11, y % 11);
    assert x == 11 * (x / 11) + x % 11 && y == 11 * (y / 11) + y % 11;
    assert x - y == 11 * (x / 11 - y / 11);
  }

  lemma DigitsDiffer(a: nat, b: nat)
    requires a < 11 && b < 11 && CHECK_DIGIT_CHARS[a] == CHECK_DIGIT_CHARS[b]
    ensures a == b
  {
    assert forall k :: 0 <= k < 10 ==> CHECK_DIGIT_CHARS[k] == '0' + k as char;
    assert CHECK_DIGIT_CHARS[10] == 'X';
  }

  /** Two accepted VINs that differ in one position only have characters of equal value there, and never
      differ in the check digit alone. */
  lemma SingleErrorCaught(v: string, w: string, p: nat)
    requires Accepted(v) && Accepted(w) && p < VIN_LENGTH && v[p] != w[p]
    requires forall i :: 0 <= i < VIN_LENGTH && i != p ==> v[i] == w[i]
    ensures p != CHECK_POSITION && Value(v[p]) == Value(w[p])
  {
    SumsDifferAt(v, w, p, VIN_LENGTH);
    assert Weight(CHECK_POSITION) == 0;
    if p != CHECK_POSITION {
      SameResidue(SumTo(v, VIN_LENGTH), SumTo(w, VIN_LENGTH));
      SameTerm(v[p], w[p], p);
    }
  }

  lemma SameTerm(c: char, d: char, p: nat)
    requires Allowed(c) && Allowed(d) && p < VIN_LENGTH && p != CHECK_POSITION
    requires (Value(c) * Weight(p) - Value(d) * Weight(p)) % 11 == 0
    ensures Value(c) == Value(d)
  {
    AllowedHaveValues(c);
    AllowedHaveValues(d);
    WeightRange(p);
    Difference(Value(c), Value(d), Weight(p));
    Residue(Value(c) - Value(d), Weight(p));
  }

  lemma WeightRange(p: nat)
    requires p < VIN_LENGTH && p != CHECK_POSITION
    ensures 2 <= Weight(p) <= 10
  {
  }

  /** Conversely, replacing a character outside the check position by another of equal value goes unseen. */
  lemma EqualValueUnseen(v: string, p: nat, c: char)
    requires Accepted(v) && p < VIN_LENGTH && p != CHECK_POSITION && Allowed(c) && Value(c) == Value(v[p])
    ensures Accepted(v[p := c])
  {
    var w := v[p := c];
    SumsDifferAt(v, w, p, VIN_LENGTH);
    assert Term(w, p) == Term(v, p);
  }

  lemma {:induction false} SumsOfSwap(v: string, w: string, p: nat, n: nat)
    requires |v| == |w| == VIN_LENGTH && p + 1 < VIN_LENGTH && n <= VIN_LENGTH
    requires v[p] == w[p + 1] && v[p + 1] == w[p]
    requires forall i :: 0 <= i < VIN_LENGTH && i != p && i != p + 1 ==> v[i] == w[i]
    ensures n <= p ==> SumTo(v, n) == SumTo(w, n)
    ensures n == p + 1 ==> SumTo(v, n) - SumTo(w, n) == Term(v, p) - Term(w, p)
    ensures n > p + 1 ==> SumTo(v, n) - SumTo(w, n) == Term(v, p) + Term(v, p + 1) - Term(w, p) - Term(w, p + 1)
  {
    if n > 0 {
      SumsOfSwap(v, w, p, n - 1);
    }
  }

  lemma SwapDifference(a: int, b: int, x: int, y: int)
    ensures a * x + b * y - b * x - a * y == (a - b) * (x - y)
  {
  }

  /** Swapping two adjacent characters of different value, neither in the check position, makes an
      accepted VIN unacceptable. */
  lemma AdjacentSwapCaught(v: string, p: nat)
    requires Accepted(v) && p + 1 < VIN_LENGTH && p != CHECK_POSITION && p + 1 != CHECK_POSITION
    requires Value(v[p]) != Value(v[p + 1])
    ensures !Accepted(v[p := v[p + 1]][p + 1 := v[p]])
  {
    var w := v[p := v[p + 1]][p + 1 := v[p]];
    SumsOfSwap(v, w, p, VIN_LENGTH);
    AllowedHaveValues(v[p]);
    AllowedHaveValues(v[p + 1]);
    SwapDifference(Value(v[p]), Value(v[p + 1]), Weight(p), Weight(p + 1));
    WeightsStep(p);
    if Accepted(w) {
      SameResidue(SumTo(v, VIN_LENGTH), SumTo(w, VIN_LENGTH));
      StepResidue(Value(v[p]) - Value(v[p + 1]), Weight(p) - Weight(p + 1));
    }
  }

  /** Neighbouring weights, away from the check position, differ by one or by eight. */
  lemma WeightsStep(p: nat)
    requires p + 1 < VIN_LENGTH && p != CHECK_POSITION && p + 1 != CHECK_POSITION
    ensures Weight(p) - Weight(p + 1) == 1 || Weight(p) - Weight(p + 1) == -8
  {
  }

  lemma StepResidue(d: int, s: int)
    requires -9 <= d <= 9 && (s == 1 || s == -8) && d * s % 11 == 0
    ensures d == 0
  {
    if s == 1 {
      Residue(d, 1);
    } else {
      Negated(-d, 8);
      assert d * s == -d * 8;
      Residue(-d, 8);
    }
  }
}
