/** The opaque pagination cursor of the vehicle registry (backend/vehicles/cursor.go). Time and uuid
    text forms are parameters. */
module VehicleCursor {
  import opened Wrappers
  import opened Text
  import Base64Url

  const CURSOR_VERSION: string := "v1"
  const SEPARATOR: char := '|'

  /** The key of the last row already returned. */
  datatype Cursor = Cursor(createdAt: int, id: Uuid)

  /** How instants are written and read, and uuids are read. */
  datatype Codec = Codec(format: int -> string, parseTime: string -> Option<int>, parseId: string -> Option<Uuid>)

  /** What is written can be read back, and has neither separators nor characters beyond one byte. */
  ghost predicate Faithful(codec: Codec) {
    && (forall t :: codec.parseTime(codec.format(t)) == Some(t))
    && (forall t :: Base64Url.IsBytes(codec.format(t)) && Without(codec.format(t), SEPARATOR))
    && (forall id :: IsUuid(id) ==> codec.parseId(id) == Some(id))
  }

  // ----- library string functions -----

  predicate IsSpace(c: char) { c == ' ' || 9 <= c as int <= 13 }

  predicate Blank(s: string) { forall i :: 0 <= i < |s| ==> IsSpace(s[i]) }

  function TrimLeft(s: string): string {
    if s != "" && IsSpace(s[0]) then TrimLeft(s[1..]) else s
  }

  function TrimRight(s: string): string {
    if s != "" && IsSpace(s[|s| - 1]) then TrimRight(s[..|s| - 1]) else s
  }

  function TrimSpace(s: string): string { TrimRight(TrimLeft(s)) }

  function IndexOf(s: string, sep: char): (i: nat)
    requires sep in s
    ensures i < |s| && s[i] == sep && sep !in s[..i]
  {
    if s[0] == sep then 0 else 1 + IndexOf(s[1..], sep)
  }

  /** At most n parts, the last one holding what is left. */
  function SplitN(s: string, sep: char, n: nat): seq<string>
    requires n > 0
    decreases n
  {
    if n == 1 || sep !in s then [s]
    else
      var i := IndexOf(s, sep);
      [s[..i]] + SplitN(s[i + 1..], sep, n - 1)
  }

  lemma {:induction false} TrimLeftBlank(b: string, s: string)
    requires Blank(b) && s != "" && !IsSpace(s[0])
    ensures TrimLeft(b + s) == s
  {
    if b == "" {
      assert b + s == s;
    } else {
      assert (b + s)[1..] == b[1..] + s;
      TrimLeftBlank(b[1..], s);
    }
  }

  lemma {:induction false} TrimRightBlank(s: string, b: string)
    requires Blank(b) && s != "" && !IsSpace(s[|s| - 1])
    ensures TrimRight(s + b) == s
  {
    if b == "" {
      assert s + b == s;
    } else {
      assert (s + b)[|s + b| - 1] == b[|b| - 1];
      assert (s + b)[..|s + b| - 1] == s + b[..|b| - 1];
      TrimRightBlank(s, b[..|b| - 1]);
    }
  }

  /** Surrounding blanks come off, and nothing else. */
  lemma TrimSurrounding(before: string, s: string, after: string)
    requires Blank(before) && Blank(after) && s != "" && !IsSpace(s[0]) && !IsSpace(s[|s| - 1])
    ensures TrimSpace(before + s + after) == s
  {
    assert before + s + after == before + (s + after);
    TrimLeftBlank(before, s + after);
    TrimRightBlank(s, after);
  }

  lemma SplitFirst(x: string, rest: string, sep: char, n: nat)
    requires Without(x, sep) && n > 1
    ensures SplitN(x + [sep] + rest, sep, n) == [x] + SplitN(rest, sep, n - 1)
  {
    var s := x + [sep] + rest;
    assert s[|x|] == sep;
    var i := IndexOf(s, sep);
    assert s == s[..i] + [sep] + s[i + 1..];
    FirstPart(x, rest, s[..i], s[i + 1..], sep);
  }

  // ----- the cursor -----

  function Payload(c: Cursor, codec: Codec): string {
    Join([CURSOR_VERSION, codec.format(c.createdAt), c.id], SEPARATOR)
  }

  /** None is the error. */
  function EncodeVehicleCursor(c: Cursor, codec: Codec): Option<string>
    requires Base64Url.IsBytes(Payload(c, codec))
  {
    if c.id == NIL_UUID then None else Some(Base64Url.Encode(Payload(c, codec)))
  }

  function ParseVehicleCursor(raw: string, codec: Codec): Option<Cursor> {
    var decoded := Base64Url.Decode(TrimSpace(raw));
    if decoded.None? then None
    else
      var parts := SplitN(decoded.value, SEPARATOR, 3);
      if |parts| != 3 || parts[0] != CURSOR_VERSION then None
      else
        var createdAt, id := codec.parseTime(parts[1]), codec.parseId(parts[2]);
        if createdAt.None? || id.None? || id.value == NIL_UUID then None else Some(Cursor(createdAt.value, id.value))
  }

  lemma UuidIsPlain(id: Uuid)
    requires IsUuid(id)
    ensures Base64Url.IsBytes(id) && Without(id, SEPARATOR)
  {
    assert forall i :: 0 <= i < |id| ==> id[i] in id;
  }

  lemma PayloadIs(c: Cursor, codec: Codec)
    requires Faithful(codec) && IsUuid(c.id)
    ensures Payload(c, codec) == CURSOR_VERSION + [SEPARATOR] + (codec.format(c.createdAt) + [SEPARATOR] + c.id)
    ensures Base64Url.IsBytes(Payload(c, codec))
  {
    UuidIsPlain(c.id);
    var parts := [CURSOR_VERSION, codec.format(c.createdAt), c.id];
    assert parts[1..] == [codec.format(c.createdAt), c.id] && parts[1..][1..] == [c.id];
    assert Join(parts[1..], SEPARATOR) == codec.format(c.createdAt) + [SEPARATOR] + c.id;
  }

  lemma PayloadSplits(c: Cursor, codec: Codec)
    requires Faithful(codec) && IsUuid(c.id)
    ensures SplitN(Payload(c, codec), SEPARATOR, 3) == [CURSOR_VERSION, codec.format(c.createdAt), c.id]
  {
    PayloadIs(c, codec);
    SplitFirst(CURSOR_VERSION, codec.format(c.createdAt) + [SEPARATOR] + c.id, SEPARATOR, 3);
    SplitFirst(codec.format(c.createdAt), c.id, SEPARATOR, 2);
    assert SplitN(c.id, SEPARATOR, 1) == [c.id];
  }

  lemma EncodedIsTrim(e: string)
    requires e != "" && forall c :: c in e ==> Base64Url.InAlphabet(c)
    ensures !IsSpace(e[0]) && !IsSpace(e[|e| - 1])
  {
    assert e[0] in e && e[|e| - 1] in e;
  }

  /** Parsing gives back the cursor that was encoded, whatever blanks surround it. */
  lemma CursorRoundTrip(c: Cursor, codec: Codec, before: string, after: string)
    requires Faithful(codec) && IsUuid(c.id) && c.id != NIL_UUID && Blank(before) && Blank(after)
    ensures Base64Url.IsBytes(Payload(c, codec)) && EncodeVehicleCursor(c, codec).Some?
    ensures ParseVehicleCursor(before + EncodeVehicleCursor(c, codec).value + after, codec) == Some(c)
  {
    PayloadIs(c, codec);
    var e := EncodeVehicleCursor(c, codec).value;
    EncodedIsTrim(e);
    TrimSurrounding(before, e, after);
    Base64Url.RoundTrip(Payload(c, codec));
    PayloadSplits(c, codec);
  }

  /** The nil id is neither written nor read, and different cursors are written differently. */
  lemma CursorsAreDistinct(c: Cursor, d: Cursor, codec: Codec, raw: string)
    requires Faithful(codec) && IsUuid(c.id) && IsUuid(d.id) && c != d
    ensures Base64Url.IsBytes(Payload(c, codec)) && Base64Url.IsBytes(Payload(d, codec))
    ensures EncodeVehicleCursor(c, codec).None? <==> c.id == NIL_UUID
    ensures EncodeVehicleCursor(c, codec).Some? ==> EncodeVehicleCursor(c, codec) != EncodeVehicleCursor(d, codec)
    ensures ParseVehicleCursor(raw, codec) != Some(Cursor(c.createdAt, NIL_UUID))
  {
    PayloadIs(c, codec);
    PayloadIs(d, codec);
    if c.id != NIL_UUID && d.id != NIL_UUID {
      CursorRoundTrip(c, codec, "", "");
      CursorRoundTrip(d, codec, "", "");
    }
  }
}
