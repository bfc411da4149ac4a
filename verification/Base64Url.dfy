/** Base64 with the URL-safe alphabet and no padding (RFC 4648, section 5), over strings of bytes. */
module Base64Url {
  import opened Wrappers

  /** A Go string: every character stands for one byte. */
  predicate IsBytes(s: string) { forall i :: 0 <= i < |s| ==> s[i] as int < 256 }

  /** Table 2 of the RFC. */
  function CharOf(n: nat): char
    requires n < 64
  {
    if n < 26 then 'A' + n as char
    else if n < 52 then 'a' + (n - 26) as char
    else if n < 62 then '0' + (n - 52) as char
    else if n == 62 then '-'
    else '_'
  }

  function ValueOf(c: char): Option<nat> {
    if 'A' <= c <= 'Z' then Some(c as int - 'A' as int)
    else if 'a' <= c <= 'z' then Some(c as int - 'a' as int + 26)
    else if '0' <= c <= '9' then Some(c as int - '0' as int + 52)
    else if c == '-' then Some(62)
    else if c == '_' then Some(63)
    else None
  }

  predicate InAlphabet(c: char) { ValueOf(c).Some? }

  lemma CharRoundTrip(n: nat)
    requires n < 64
    ensures ValueOf(CharOf(n)) == Some(n)
  {
  }

  function Encode(s: string): (e: string)
    requires IsBytes(s)
    ensures |e| == (4 * |s| + 2) / 3
    ensures forall c :: c in e ==> InAlphabet(c)
  {
    if |s| == 0 then ""
    else if |s| == 1 then
      var a := s[0] as int;
      Pair(a)
    else if |s| == 2 then
      var a, b := s[0] as int, s[1] as int;
      Triple(a, b)
    else
      var a, b, c := s[0] as int, s[1] as int, s[2] as int;
      Quad(a, b, c) + Encode(s[3..])
  }

  /** One byte in two characters. */
  function Pair(a: nat): (q: string)
    requires a < 256
    ensures forall x :: x in q ==> InAlphabet(x)
  {
    [CharOf(a / 4), CharOf(a % 4 * 16)]
  }

  /** Two bytes in three characters. */
  function Triple(a: nat, b: nat): (q: string)
    requires a < 256 && b < 256
    ensures forall x :: x in q ==> InAlphabet(x)
  {
    [CharOf(a / 4), CharOf(a % 4 * 16 + b / 16), CharOf(b % 16 * 4)]
  }

  /** Three bytes in four characters. */
  function Quad(a: nat, b: nat, c: nat): (q: string)
    requires a < 256 && b < 256 && c < 256
    ensures forall x :: x in q ==> InAlphabet(x)
  {
    [CharOf(a / 4), CharOf(a % 4 * 16 + b / 16), CharOf(b % 16 * 4 + c / 64), CharOf(c % 64)]
  }

  lemma QuadDecodes(a: nat, b: nat, c: nat, rest: string)
    requires a < 256 && b < 256 && c < 256
    ensures var r := DecodeGroups(rest);
            DecodeGroups(Quad(a, b, c) + rest) == if r.None? then None else Some([a as char, b as char, c as char] + r.value)
  {
    var w, x, y, z := a / 4, a % 4 * 16 + b / 16, b % 16 * 4 + c / 64, c % 64;
    CharRoundTrip(w);
    CharRoundTrip(x);
    CharRoundTrip(y);
    CharRoundTrip(z);
    QuadBits(a, b, c);
    DecodeQuad(CharOf(w), CharOf(x), CharOf(y), CharOf(z), w, x, y, z, rest);
  }

  /** Four six-bit values hold three bytes. */
  lemma QuadBits(a: nat, b: nat, c: nat)
    requires a < 256 && b < 256 && c < 256
    ensures var w, x, y, z := a / 4, a % 4 * 16 + b / 16, b % 16 * 4 + c / 64, c % 64;
            w * 4 + x / 16 == a && x % 16 * 16 + y / 4 == b && y % 4 * 64 + z == c
  {
  }

  lemma DecodeQuad(p: char, q: char, r: char, s: char, w: nat, x: nat, y: nat, z: nat, rest: string)
    requires ValueOf(p) == Some(w) && ValueOf(q) == Some(x) && ValueOf(r) == Some(y) && ValueOf(s) == Some(z)
    requires w < 64 && x < 64 && y < 64 && z < 64
    ensures var d := DecodeGroups(rest);
            DecodeGroups([p, q, r, s] + rest) ==
            if d.None? then None
            else Some([(w * 4 + x / 16) as char, (x % 16 * 16 + y / 4) as char, (y % 4 * 64 + z) as char] + d.value)
  {
    var e := [p, q, r, s] + rest;
    assert e[4..] == rest;
    DecodeFour(e, w, x, y, z);
  }

  lemma DecodeFour(e: string, w: nat, x: nat, y: nat, z: nat)
    requires |e| >= 4 && w < 64 && x < 64 && y < 64 && z < 64
    requires ValueOf(e[0]) == Some(w) && ValueOf(e[1]) == Some(x) && ValueOf(e[2]) == Some(y) && ValueOf(e[3]) == Some(z)
    ensures var d := DecodeGroups(e[4..]);
            DecodeGroups(e) ==
            if d.None? then None
            else Some([(w * 4 + x / 16) as char, (x % 16 * 16 + y / 4) as char, (y % 4 * 64 + z) as char] + d.value)
  {
  }

  /** The decoder skips carriage returns and newlines. */
  function SkipBreaks(e: string): string {
    if e == "" then ""
    else if e[0] == '\r' || e[0] == '\n' then SkipBreaks(e[1..])
    else [e[0]] + SkipBreaks(e[1..])
  }

  /** The bits of the last character that no byte takes are ignored. */
  function DecodeGroups(e: string): Option<string> {
    if |e| == 0 then Some("")
    else if |e| == 1 || ValueOf(e[0]).None? || ValueOf(e[1]).None? then None
    else
      var w, x := ValueOf(e[0]).value, ValueOf(e[1]).value;
      var first := (w * 4 + x / 16) as char;
      if |e| == 2 then Some([first])
      else if ValueOf(e[2]).None? then None
      else
        var y := ValueOf(e[2]).value;
        var second := (x % 16 * 16 + y / 4) as char;
        if |e| == 3 then Some([first, second])
        else if ValueOf(e[3]).None? then None
        else
          var third := (y % 4 * 64 + ValueOf(e[3]).value) as char;
          var rest := DecodeGroups(e[4..]);
          if rest.None? then None else Some([first, second, third] + rest.value)
  }

  function Decode(e: string): Option<string> { DecodeGroups(SkipBreaks(e)) }

  lemma {:induction false} SkipNothing(e: string)
    requires '\r' !in e && '\n' !in e
    ensures SkipBreaks(e) == e
  {
    if e != "" {
      SkipNothing(e[1..]);
      assert e == [e[0]] + e[1..];
    }
  }

  lemma OneDecodes(a: nat)
    requires a < 256
    ensures DecodeGroups(Pair(a)) == Some([a as char])
  {
    CharRoundTrip(a / 4);
    CharRoundTrip(a % 4 * 16);
  }

  lemma TwoDecode(a: nat, b: nat)
    requires a < 256 && b < 256
    ensures DecodeGroups(Triple(a, b)) == Some([a as char, b as char])
  {
    CharRoundTrip(a / 4);
    CharRoundTrip(a % 4 * 16 + b / 16);
    CharRoundTrip(b % 16 * 4);
    assert a / 4 * 4 + (a % 4 * 16 + b / 16) / 16 == a;
    assert (a % 4 * 16 + b / 16) % 16 * 16 + b % 16 * 4 / 4 == b;
  }

  lemma OneRoundTrip(s: string)
    requires IsBytes(s) && |s| == 1
    ensures DecodeGroups(Encode(s)) == Some(s)
  {
    OneDecodes(s[0] as int);
    assert s == [s[0]];
  }

  lemma TwoRoundTrip(s: string)
    requires IsBytes(s) && |s| == 2
    ensures DecodeGroups(Encode(s)) == Some(s)
  {
    TwoDecode(s[0] as int, s[1] as int);
    assert s == [s[0], s[1]];
  }

  lemma {:induction false} EncodeSplits(s: string)
    requires IsBytes(s) && |s| >= 3
    ensures Encode(s) == Quad(s[0] as int, s[1] as int, s[2] as int) + Encode(s[3..])
  {
  }

  lemma QuadRoundTrip(s: string, e: string, rest: string)
    requires IsBytes(s) && |s| >= 3 && DecodeGroups(rest) == Some(s[3..])
    requires e == Quad(s[0] as int, s[1] as int, s[2] as int) + rest
    ensures DecodeGroups(e) == Some(s)
  {
    QuadDecodes(s[0] as int, s[1] as int, s[2] as int, rest);
    assert s == [s[0], s[1], s[2]] + s[3..];
  }

  lemma {:induction false} GroupsRoundTrip(s: string)
    requires IsBytes(s)
    ensures DecodeGroups(Encode(s)) == Some(s)
  {
    if |s| == 1 {
      OneRoundTrip(s);
    } else if |s| == 2 {
      TwoRoundTrip(s);
    } else if |s| >= 3 {
      GroupsRoundTrip(s[3..]);
      EncodeSplits(s);
      QuadRoundTrip(s, Encode(s), Encode(s[3..]));
    }
  }

  /** Decoding undoes encoding, for every string of bytes. */
  lemma RoundTrip(s: string)
    requires IsBytes(s)
    ensures Decode(Encode(s)) == Some(s)
  {
    assert !InAlphabet('\r') && !InAlphabet('\n');
    SkipNothing(Encode(s));
    GroupsRoundTrip(s);
  }
}
