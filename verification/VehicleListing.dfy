/** Keyset pagination over the vehicle registry (backend/vehicles/store.go): one page, and the walk that
    follows next cursors while other rows are being inserted. */
module VehicleListing {
  import opened Wrappers
  import opened Text
  import opened Sorting
  import opened VehicleCursor

  const DEFAULT_LIST_LIMIT: nat := 50
  const MAX_LIST_LIMIT: nat := 100

  /** A row visible to the caller. */
  datatype Vehicle = Vehicle(createdAt: int, id: Uuid, vin: string)

  function KeyOf(v: Vehicle): Cursor { Cursor(v.createdAt, v.id) }

  /** The (created_at, id) order. */
  predicate KeyLess(a: Cursor, b: Cursor) {
    a.createdAt < b.createdAt || (a.createdAt == b.createdAt && Less(a.id, b.id))
  }

  /** ORDER BY created_at DESC, id DESC. */
  predicate ListedBefore(v: Vehicle, w: Vehicle) { KeyLess(KeyOf(w), KeyOf(v)) }

  function Limit(limit: int): nat {
    if limit <= 0 then DEFAULT_LIST_LIMIT else if limit > MAX_LIST_LIMIT then MAX_LIST_LIMIT else limit
  }

  predicate Beyond(cursor: Option<Cursor>, v: Vehicle) { cursor.None? || KeyLess(KeyOf(v), cursor.value) }

  function Filter(table: seq<Vehicle>, cursor: Option<Cursor>): seq<Vehicle> {
    if table == [] then []
    else Filter(table[..|table| - 1], cursor) + if Beyond(cursor, table[|table| - 1]) then [table[|table| - 1]] else []
  }

  /** Every row beyond the cursor, in listing order. */
  function Remaining(table: seq<Vehicle>, cursor: Option<Cursor>): seq<Vehicle> { Sort(ListedBefore, Filter(table, cursor)) }

  /** The first n of these rows, and the key of the last if there are more. */
  function Cut(rest: seq<Vehicle>, n: nat): (seq<Vehicle>, Option<Cursor>)
    requires n > 0
  {
    if |rest| > n then (rest[..n], Some(KeyOf(rest[n - 1]))) else (rest, None)
  }

  function Page(table: seq<Vehicle>, cursor: Option<Cursor>, limit: int): (seq<Vehicle>, Option<Cursor>) {
    Cut(Remaining(table, cursor), Limit(limit))
  }

  /** The query asks for one row more than the page holds. */
  method ListVehicles(table: seq<Vehicle>, cursor: Option<Cursor>, limit: int) returns (out: seq<Vehicle>, next: Option<Cursor>)
    ensures (out, next) == Page(table, cursor, limit)
  {
    var n := limit;
    if n <= 0 {
      n := DEFAULT_LIST_LIMIT;
    }
    if n > MAX_LIST_LIMIT {
      n := MAX_LIST_LIMIT;
    }
    var rest := Remaining(table, cursor);
    var rows := if |rest| > n + 1 then rest[..n + 1] else rest;
    out := [];
    for i := 0 to |rows|
      invariant out == rows[..i]
    {
      out := out + [rows[i]];
    }
    assert rows[..|rows|] == rows;
    assert |rest| > n ==> rows[..n] == rest[..n];
    next := None;
    if |out| > n {
      out := out[..n];
      next := Some(KeyOf(out[n - 1]));
    }
  }

  // ----- the order is strict -----

  /** The primary key. */
  predicate Keyed(table: seq<Vehicle>) {
    forall i, j :: 0 <= i < j < |table| ==> table[i].id != table[j].id
  }

  predicate RealId(id: Uuid) { IsUuid(id) && id != NIL_UUID }

  predicate RealIds(table: seq<Vehicle>) { forall v :: v in table ==> RealId(v.id) }

  lemma KeyTotal(a: Cursor, b: Cursor)
    ensures a == b || KeyLess(a, b) || KeyLess(b, a)
    ensures !(KeyLess(a, b) && KeyLess(b, a)) && !KeyLess(a, a)
  {
    LessTotal(a.id, b.id);
    LessIrreflexive(a.id);
    if Less(a.id, b.id) && Less(b.id, a.id) {
      LessTransitive(a.id, b.id, a.id);
    }
  }

  lemma KeyTransitive(a: Cursor, b: Cursor, c: Cursor)
    requires KeyLess(a, b) && KeyLess(b, c)
    ensures KeyLess(a, c)
  {
    if a.createdAt == b.createdAt == c.createdAt {
      LessTransitive(a.id, b.id, c.id);
    }
  }

  lemma ListedBeforeIsStrict()
    ensures StrictOrder(ListedBefore)
  {
    forall v, w, x
      ensures !ListedBefore(v, v)
      ensures ListedBefore(v, w) && ListedBefore(w, x) ==> ListedBefore(v, x)
      ensures ListedBefore(v, x) ==> ListedBefore(v, w) || ListedBefore(w, x)
    {
      KeyTotal(KeyOf(v), KeyOf(v));
      if ListedBefore(v, w) && ListedBefore(w, x) {
        KeyTransitive(KeyOf(x), KeyOf(w), KeyOf(v));
      }
      KeyTotal(KeyOf(v), KeyOf(w));
      KeyTotal(KeyOf(w), KeyOf(x));
      if ListedBefore(v, x) && ListedBefore(w, v) {
        KeyTransitive(KeyOf(x), KeyOf(v), KeyOf(w));
      }
    }
  }

  // ----- what remains beyond a cursor -----

  lemma {:induction false} FilterCounts(table: seq<Vehicle>, cursor: Option<Cursor>, v: Vehicle)
    ensures multiset(Filter(table, cursor))[v] == if Beyond(cursor, v) then multiset(table)[v] else 0
  {
    if table != [] {
      FilterCounts(table[..|table| - 1], cursor, v);
      assert table == table[..|table| - 1] + [table[|table| - 1]];
    }
  }

  lemma RemainingCounts(table: seq<Vehicle>, cursor: Option<Cursor>, v: Vehicle)
    ensures multiset(Remaining(table, cursor))[v] == if Beyond(cursor, v) then multiset(table)[v] else 0
    ensures v in Remaining(table, cursor) <==> v in table && Beyond(cursor, v)
  {
    FilterCounts(table, cursor, v);
    SortPermutes(ListedBefore, Filter(table, cursor));
    assert v in Remaining(table, cursor) <==> v in multiset(Remaining(table, cursor));
    assert v in table <==> v in multiset(table);
  }

  predicate Descending(s: seq<Vehicle>) {
    forall i, j :: 0 <= i < j < |s| ==> ListedBefore(s[i], s[j])
  }

  lemma SameKey(table: seq<Vehicle>, v: Vehicle, w: Vehicle)
    requires Keyed(table) && v in table && w in table && KeyOf(v) == KeyOf(w)
    ensures v == w
  {
  }

  lemma RemainingDescends(table: seq<Vehicle>, cursor: Option<Cursor>)
    requires Keyed(table)
    ensures Descending(Remaining(table, cursor))
  {
    var rest := Remaining(table, cursor);
    ListedBeforeIsStrict();
    SortSorts(ListedBefore, Filter(table, cursor));
    forall i, j | 0 <= i < j < |rest| ensures ListedBefore(rest[i], rest[j]) {
      RemainingCounts(table, cursor, rest[i]);
      RemainingCounts(table, cursor, rest[j]);
      KeyTotal(KeyOf(rest[i]), KeyOf(rest[j]));
      if KeyOf(rest[i]) == KeyOf(rest[j]) {
        SameKey(table, rest[i], rest[j]);
        OnceEach(table, rest[i]);
        Repeats(rest, i, j);
      }
    }
  }

  // ----- a page in a changing table -----

  /** Rows are inserted and none is deleted. */
  predicate Grows(before: seq<Vehicle>, after: seq<Vehicle>) {
    forall v :: v in before ==> v in after
  }

  /** A page holds the first rows beyond the cursor, in strictly descending order; every other row beyond
      the cursor is beyond the next cursor; and there is a next cursor exactly when there is such a row. */
  lemma PageSplits(table: seq<Vehicle>, cursor: Option<Cursor>, limit: int)
    requires Keyed(table)
    ensures var (page, next) := Page(table, cursor, limit);
            && Descending(page) && |page| <= Limit(limit)
            && (forall v :: v in page ==> v in table && Beyond(cursor, v))
            && (next.Some? ==> |page| == Limit(limit) && next == Some(KeyOf(page[|page| - 1])))
            && (forall v :: v in table && Beyond(cursor, v) ==> (v in page <==> !(next.Some? && Beyond(next, v))))
            && (next.Some? <==> exists v :: v in table && Beyond(cursor, v) && v !in page)
  {
    var rest, n := Remaining(table, cursor), Limit(limit);
    var (page, next) := Page(table, cursor, limit);
    RemainingDescends(table, cursor);
    forall v ensures v in rest <==> v in table && Beyond(cursor, v) { RemainingCounts(table, cursor, v); }
    forall v | v in rest ensures v in page <==> !(next.Some? && Beyond(next, v)) {
      if next.Some? {
        SplitAtKey(rest, n, v);
      }
    }
    if next.Some? {
      assert rest[n] in rest;
      SplitAtKey(rest, n, rest[n]);
    }
  }

  lemma SplitAtKey(rest: seq<Vehicle>, n: nat, v: Vehicle)
    requires Descending(rest) && 0 < n < |rest| && v in rest
    ensures v in rest[..n] <==> !KeyLess(KeyOf(v), KeyOf(rest[n - 1]))
    ensures v == rest[n] ==> KeyLess(KeyOf(v), KeyOf(rest[n - 1]))
  {
    var i :| 0 <= i < |rest| && rest[i] == v;
    KeyTotal(KeyOf(v), KeyOf(rest[n - 1]));
    if i < n {
      assert rest[..n][i] == v;
      assert i < n - 1 ==> ListedBefore(rest[i], rest[n - 1]);
    } else {
      assert ListedBefore(rest[n - 1], rest[i]);
      forall j | 0 <= j < n ensures rest[j] != v {
        assert ListedBefore(rest[j], rest[i]);
        KeyTotal(KeyOf(rest[j]), KeyOf(rest[i]));
      }
    }
  }

  // ----- the walk -----

  /** The cursor a client hands back: encoded into the response and parsed from the next request. */
  function HandedBack(c: Cursor, codec: Codec): Option<Cursor> {
    if IsUuid(c.id) && Base64Url.IsBytes(Payload(c, codec)) && EncodeVehicleCursor(c, codec).Some?
    then ParseVehicleCursor(EncodeVehicleCursor(c, codec).value, codec)
    else None
  }

  lemma HandedBackIsSame(c: Cursor, codec: Codec)
    requires Faithful(codec) && RealId(c.id)
    ensures HandedBack(c, codec) == Some(c)
  {
    CursorRoundTrip(c, codec, "", "");
    var e := EncodeVehicleCursor(c, codec).value;
    assert "" + e + "" == e;
  }

  /** The cursor of request k: none at first, then what the client hands back. */
  function Asked(cursors: seq<Option<Cursor>>, k: nat, codec: Codec): Option<Cursor>
    requires k < |cursors|
  {
    if k == 0 || cursors[k].None? then None else HandedBack(cursors[k].value, codec)
  }

  /** Request k reads table k; there is one only if the page before it had a next cursor. */
  predicate WalkStep(tables: seq<seq<Vehicle>>, limit: int, codec: Codec, pages: seq<seq<Vehicle>>, cursors: seq<Option<Cursor>>, k: nat)
    requires k < |tables| == |pages| < |cursors|
  {
    && (pages[k], cursors[k + 1]) == Page(tables[k], Asked(cursors, k, codec), limit)
    && (k > 0 ==> cursors[k].Some?)
  }

  ghost predicate Walk(tables: seq<seq<Vehicle>>, limit: int, codec: Codec, pages: seq<seq<Vehicle>>, cursors: seq<Option<Cursor>>) {
    && |tables| == |pages| == |cursors| - 1
    && forall k :: 0 <= k < |pages| ==> WalkStep(tables, limit, codec, pages, cursors, k)
  }

  /** What is handed back is the key of the last row of the page before. */
  lemma AskedIsNext(tables: seq<seq<Vehicle>>, limit: int, codec: Codec, pages: seq<seq<Vehicle>>, cursors: seq<Option<Cursor>>, k: nat)
    requires Walk(tables, limit, codec, pages, cursors) && Faithful(codec) && 0 < k < |pages| && Keyed(tables[k - 1]) && RealIds(tables[k - 1])
    ensures Asked(cursors, k, codec) == cursors[k] && cursors[k].Some?
  {
    assert WalkStep(tables, limit, codec, pages, cursors, k - 1) && WalkStep(tables, limit, codec, pages, cursors, k);
    NextIsReal(tables[k - 1], Asked(cursors, k - 1, codec), limit);
    HandedBackIsSame(cursors[k].value, codec);
  }

  lemma NextIsReal(table: seq<Vehicle>, cursor: Option<Cursor>, limit: int)
    requires Keyed(table) && RealIds(table)
    ensures var next := Page(table, cursor, limit).1;
            next.Some? ==> RealId(next.value.id)
  {
    PageSplits(table, cursor, limit);
    var (page, next) := Page(table, cursor, limit);
    if next.Some? {
      assert page[|page| - 1] in page;
    }
  }

  ghost predicate Growing(tables: seq<seq<Vehicle>>) {
    && (forall k :: 0 <= k < |tables| ==> Keyed(tables[k]) && RealIds(tables[k]))
    && (forall k :: 0 < k < |tables| ==> Grows(tables[k - 1], tables[k]))
  }

  function Concat(pages: seq<seq<Vehicle>>): seq<Vehicle> {
    if pages == [] then [] else Concat(pages[..|pages| - 1]) + pages[|pages| - 1]
  }

  lemma {:induction false} GrowsFrom(tables: seq<seq<Vehicle>>, k: nat)
    requires Growing(tables) && k < |tables|
    ensures Grows(tables[0], tables[k])
  {
    if k > 0 {
      GrowsFrom(tables, k - 1);
    }
  }

  /** What has been returned when the walk stands at a cursor: strictly descending rows, none beyond the
      cursor, and every row of the starting table that is not beyond it. */
  ghost predicate Sound(got: seq<Vehicle>, start: seq<Vehicle>, cursor: Option<Cursor>) {
    && Descending(got)
    && (forall v :: v in got ==> !Ahead(cursor, v))
    && (forall v :: v in start && !Ahead(cursor, v) ==> v in got)
  }

  predicate Ahead(cursor: Option<Cursor>, v: Vehicle) { cursor.Some? && Beyond(cursor, v) }

  lemma FirstPageSound(table: seq<Vehicle>, limit: int)
    requires Keyed(table)
    ensures Sound(Page(table, None, limit).0, table, Page(table, None, limit).1)
  {
    PageSplits(table, None, limit);
  }

  lemma PageKeepsSound(got: seq<Vehicle>, start: seq<Vehicle>, table: seq<Vehicle>, c: Cursor, limit: int)
    requires Sound(got, start, Some(c)) && Keyed(table) && Grows(start, table)
    ensures Sound(got + Page(table, Some(c), limit).0, start, Page(table, Some(c), limit).1)
  {
    PageSplits(table, Some(c), limit);
    var (page, next) := Page(table, Some(c), limit);
    forall v, w | v in got && w in page ensures ListedBefore(v, w) {
      assert !Ahead(Some(c), v);
      AcrossCursor(c, v, w);
    }
    BothDescend(got, page);
    forall v | v in got ensures !Ahead(next, v) {
      if next.Some? {
        KeyTotal(KeyOf(v), KeyOf(page[|page| - 1]));
        assert ListedBefore(v, page[|page| - 1]);
      }
    }
  }

  lemma BothDescend(got: seq<Vehicle>, page: seq<Vehicle>)
    requires Descending(got) && Descending(page) && forall v, w :: v in got && w in page ==> ListedBefore(v, w)
    ensures Descending(got + page)
  {
    var all := got + page;
    forall i, j | 0 <= i < j < |all| ensures ListedBefore(all[i], all[j]) {
      if i < |got| <= j {
        assert all[i] in got && all[j] in page;
      }
    }
  }

  /** Whatever rows are inserted between the pages, the walk stays sound. */
  lemma {:induction false} WalkInvariant(tables: seq<seq<Vehicle>>, limit: int, codec: Codec, pages: seq<seq<Vehicle>>,
                                         cursors: seq<Option<Cursor>>, k: nat)
    requires Walk(tables, limit, codec, pages, cursors) && Growing(tables) && Faithful(codec) && 0 < k <= |pages|
    ensures Sound(Concat(pages[..k]), tables[0], cursors[k])
  {
    assert pages[..k][..k - 1] == pages[..k - 1];
    assert WalkStep(tables, limit, codec, pages, cursors, k - 1);
    if k == 1 {
      FirstPageSound(tables[0], limit);
      assert Concat(pages[..1]) == Concat(pages[..0]) + pages[0] == pages[0];
    } else {
      WalkInvariant(tables, limit, codec, pages, cursors, k - 1);
      GrowsFrom(tables, k - 1);
      AskedIsNext(tables, limit, codec, pages, cursors, k - 1);
      PageKeepsSound(Concat(pages[..k - 1]), tables[0], tables[k - 1], cursors[k - 1].value, limit);
      assert Concat(pages[..k]) == Concat(pages[..k - 1]) + pages[k - 1];
    }
  }

  lemma AcrossCursor(c: Cursor, v: Vehicle, w: Vehicle)
    requires !KeyLess(KeyOf(v), c) && KeyLess(KeyOf(w), c)
    ensures ListedBefore(v, w)
  {
    KeyTotal(KeyOf(v), c);
    if KeyOf(v) != c {
      KeyTransitive(KeyOf(w), c, KeyOf(v));
    }
  }

  /** A walk that has ended has returned every row visible at its start exactly once, in strictly
      descending order, whatever was inserted between its pages. */
  lemma WalkReturnsAll(tables: seq<seq<Vehicle>>, limit: int, codec: Codec, pages: seq<seq<Vehicle>>, cursors: seq<Option<Cursor>>)
    requires Walk(tables, limit, codec, pages, cursors) && Growing(tables) && Faithful(codec) && |pages| > 0 && cursors[|pages|].None?
    ensures Descending(Concat(pages))
    ensures forall v :: v in tables[0] ==> multiset(Concat(pages))[v] == 1
  {
    WalkInvariant(tables, limit, codec, pages, cursors, |pages|);
    assert pages[..|pages|] == pages;
    SoundAtEnd(Concat(pages), tables[0]);
  }

  lemma SoundAtEnd(got: seq<Vehicle>, start: seq<Vehicle>)
    requires Sound(got, start, None)
    ensures forall v :: v in start ==> multiset(got)[v] == 1
  {
    forall v | v in start ensures multiset(got)[v] == 1 {
      assert !Ahead(None, v);
      assert v in multiset(got);
      DescendingOnce(got, v);
    }
  }

  lemma DescendingOnce(s: seq<Vehicle>, v: Vehicle)
    requires Descending(s)
    ensures multiset(s)[v] <= 1
  {
    forall i, j | 0 <= i < j < |s| ensures s[i] != s[j] {
      assert ListedBefore(s[i], s[j]);
      KeyTotal(KeyOf(s[i]), KeyOf(s[i]));
    }
    OnceEach(s, v);
  }

  // ----- newer rows only: the walk is the listing at its start, and it ends -----

  /** Every row inserted during the walk is newer than every row it started with. */
  predicate OnlyNewer(base: seq<Vehicle>, extra: seq<Vehicle>) {
    forall v, w :: v in base && w in extra ==> ListedBefore(w, v)
  }

  lemma {:induction false} NewerFilteredOut(base: seq<Vehicle>, extra: seq<Vehicle>, v: Vehicle)
    requires OnlyNewer(base, extra) && v in base
    ensures Filter(base + extra, Some(KeyOf(v))) == Filter(base, Some(KeyOf(v)))
  {
    if extra == [] {
      assert base + extra == base;
    } else {
      var all := base + extra;
      assert all[..|all| - 1] == base + extra[..|extra| - 1];
      NewerFilteredOut(base, extra[..|extra| - 1], v);
      assert extra[|extra| - 1] in extra;
      KeyTotal(KeyOf(extra[|extra| - 1]), KeyOf(v));
    }
  }

  /** Beyond the i-th row of the listing remain the rows after it. */
  lemma RemainingIsSuffix(base: seq<Vehicle>, i: nat)
    requires Keyed(base) && i < |Remaining(base, None)|
    ensures Remaining(base, Some(KeyOf(Remaining(base, None)[i]))) == Remaining(base, None)[i + 1..]
  {
    var all := Remaining(base, None);
    var rest := Remaining(base, Some(KeyOf(all[i])));
    RemainingDescends(base, None);
    RemainingDescends(base, Some(KeyOf(all[i])));
    forall v ensures multiset(all[i + 1..])[v] == multiset(rest)[v] { SameCount(base, all, i, rest, v); }
    SameDescending(all[i + 1..], rest);
  }

  lemma SameCount(base: seq<Vehicle>, all: seq<Vehicle>, i: nat, rest: seq<Vehicle>, v: Vehicle)
    requires Descending(all) && all == Remaining(base, None) && i < |all| && rest == Remaining(base, Some(KeyOf(all[i])))
    ensures multiset(all[i + 1..])[v] == multiset(rest)[v]
  {
    RemainingCounts(base, None, v);
    RemainingCounts(base, Some(KeyOf(all[i])), v);
    SuffixCounts(all, i, v);
  }

  /** Two descending listings of the same rows are one. */
  lemma SameDescending(a: seq<Vehicle>, b: seq<Vehicle>)
    requires Descending(a) && Descending(b) && forall v :: multiset(a)[v] == multiset(b)[v]
    ensures a == b
  {
    DescendingIsSorted(a);
    DescendingIsSorted(b);
    SortedUnique(ListedBefore, a, b);
  }

  lemma DescendingIsSorted(s: seq<Vehicle>)
    requires Descending(s)
    ensures Sorted(ListedBefore, s) && Distinguishes(ListedBefore, s)
  {
    forall i, j | 0 <= i < j < |s| ensures !ListedBefore(s[j], s[i]) {
      assert ListedBefore(s[i], s[j]);
      KeyTotal(KeyOf(s[i]), KeyOf(s[j]));
    }
  }

  lemma SuffixCounts(all: seq<Vehicle>, i: nat, v: Vehicle)
    requires Descending(all) && i < |all|
    ensures multiset(all[i + 1..])[v] == if KeyLess(KeyOf(v), KeyOf(all[i])) then multiset(all)[v] else 0
  {
    var head, tail := all[..i + 1], all[i + 1..];
    assert all == head + tail;
    if KeyLess(KeyOf(v), KeyOf(all[i])) {
      forall j | 0 <= j < i + 1 ensures head[j] != v {
        KeyTotal(KeyOf(all[j]), KeyOf(all[i]));
        assert j < i ==> ListedBefore(all[j], all[i]);
      }
      assert v !in head;
    } else {
      forall j | 0 <= j < |tail| ensures tail[j] != v {
        assert ListedBefore(all[i], all[i + 1 + j]);
      }
      assert v !in tail;
    }
  }

  lemma RemainingInGrownTable(base: seq<Vehicle>, extra: seq<Vehicle>, all: seq<Vehicle>, done: nat)
    requires Keyed(base) && OnlyNewer(base, extra) && all == Remaining(base, None) && 0 < done <= |all|
    ensures Remaining(base + extra, Some(KeyOf(all[done - 1]))) == all[done..]
  {
    var v := all[done - 1];
    RemainsFromTable(base, v);
    OnlyBaseRemains(base, extra, v);
    SuffixBehind(base, all, done, v);
  }

  lemma RemainsFromTable(base: seq<Vehicle>, v: Vehicle)
    requires v in Remaining(base, None)
    ensures v in base
  {
    RemainingCounts(base, None, v);
  }

  lemma SuffixBehind(base: seq<Vehicle>, all: seq<Vehicle>, done: nat, v: Vehicle)
    requires Keyed(base) && all == Remaining(base, None) && 0 < done <= |all| && v == all[done - 1]
    ensures Remaining(base, Some(KeyOf(v))) == all[done..]
  {
    RemainingIsSuffix(base, done - 1);
  }

  lemma OnlyBaseRemains(base: seq<Vehicle>, extra: seq<Vehicle>, v: Vehicle)
    requires OnlyNewer(base, extra) && v in base
    ensures Remaining(base + extra, Some(KeyOf(v))) == Remaining(base, Some(KeyOf(v)))
  {
    NewerFilteredOut(base, extra, v);
  }

  predicate GrownTable(base: seq<Vehicle>, table: seq<Vehicle>, extra: seq<Vehicle>) {
    table == base + extra && Keyed(table) && RealIds(table) && OnlyNewer(base, extra)
  }

  /** Tables that hold the starting rows, and newer ones. */
  ghost predicate NewerOnly(base: seq<Vehicle>, tables: seq<seq<Vehicle>>, extras: seq<seq<Vehicle>>) {
    && |tables| == |extras| > 0 && extras[0] == [] && Keyed(base)
    && forall k :: 0 <= k < |tables| ==> GrownTable(base, tables[k], extras[k])
  }

  /** Rows `done` to `done + n` of a listing, and the cursor after them. */
  predicate IsSlice(page: seq<Vehicle>, next: Option<Cursor>, all: seq<Vehicle>, done: nat, n: nat) {
    && done <= |all|
    && (if |all| - done > n then n > 0 && page == all[done..done + n] && next == Some(KeyOf(all[done + n - 1]))
        else page == all[done..] && next == None)
  }

  lemma CutIsSlice(all: seq<Vehicle>, done: nat, n: nat)
    requires done <= |all| && n > 0
    ensures IsSlice(Cut(all[done..], n).0, Cut(all[done..], n).1, all, done, n)
  {
    assert |all| - done > n ==> all[done..][..n] == all[done..done + n];
  }

  /** Where page k starts when all before it are full. */
  function Start(k: nat, n: nat): nat { if k == 0 then 0 else Start(k - 1, n) + n }

  lemma {:induction false} StartIsProduct(k: nat, n: nat)
    ensures Start(k, n) == k * n
  {
    if k > 0 {
      StartIsProduct(k - 1, n);
      assert k * n == (k - 1) * n + n;
    }
  }

  lemma FirstSlice(base: seq<Vehicle>, table: seq<Vehicle>, all: seq<Vehicle>, limit: int)
    requires table == base + [] && all == Remaining(base, None)
    ensures IsSlice(Page(table, None, limit).0, Page(table, None, limit).1, all, 0, Limit(limit))
  {
    assert table == base && all[0..] == all;
    CutIsSlice(all, 0, Limit(limit));
  }

  lemma NextSlice(base: seq<Vehicle>, extra: seq<Vehicle>, all: seq<Vehicle>, done: nat, limit: int)
    requires Keyed(base) && OnlyNewer(base, extra) && all == Remaining(base, None) && 0 < done < |all|
    ensures var (page, next) := Page(base + extra, Some(KeyOf(all[done - 1])), limit);
            IsSlice(page, next, all, done, Limit(limit))
  {
    RemainingInGrownTable(base, extra, all, done);
    CutIsSlice(all, done, Limit(limit));
  }

  /** Page k is read from a grown table, at the cursor before it. */
  predicate Reads(base: seq<Vehicle>, extras: seq<seq<Vehicle>>, tables: seq<seq<Vehicle>>, limit: int,
                  pages: seq<seq<Vehicle>>, cursors: seq<Option<Cursor>>, k: nat)
    requires k < |pages| == |tables| == |extras| && |cursors| == |pages| + 1
  {
    && GrownTable(base, tables[k], extras[k])
    && (pages[k], cursors[k + 1]) == Page(tables[k], if k == 0 then None else cursors[k], limit) && (k > 0 ==> cursors[k].Some?)
  }

  /** Page k is the k-th slice of the listing as it was at the start, and there is a page k only if the
      listing reaches that far. */
  lemma {:induction false} PageIsSlice(base: seq<Vehicle>, extras: seq<seq<Vehicle>>, tables: seq<seq<Vehicle>>, limit: int,
                                       pages: seq<seq<Vehicle>>, cursors: seq<Option<Cursor>>, k: nat, all: seq<Vehicle>)
    requires |pages| == |tables| == |extras| && |cursors| == |pages| + 1 && k < |pages|
    requires forall j :: 0 <= j < |pages| ==> Reads(base, extras, tables, limit, pages, cursors, j)
    requires Keyed(base) && extras[0] == [] && all == Remaining(base, None)
    ensures SliceAt(pages, cursors, all, k, Limit(limit))
  {
    assert Reads(base, extras, tables, limit, pages, cursors, k);
    if k == 0 {
      FirstSlice(base, tables[0], all, limit);
    } else {
      PageIsSlice(base, extras, tables, limit, pages, cursors, k - 1, all);
      SliceAfter(base, extras[k], tables[k], all, Start(k - 1, Limit(limit)), limit, pages[k - 1], cursors[k], pages[k], cursors[k + 1]);
    }
  }

  lemma WalkReads(base: seq<Vehicle>, extras: seq<seq<Vehicle>>, tables: seq<seq<Vehicle>>, limit: int, codec: Codec,
                  pages: seq<seq<Vehicle>>, cursors: seq<Option<Cursor>>, k: nat)
    requires Walk(tables, limit, codec, pages, cursors) && NewerOnly(base, tables, extras) && Faithful(codec) && k < |pages|
    ensures Reads(base, extras, tables, limit, pages, cursors, k)
  {
    assert WalkStep(tables, limit, codec, pages, cursors, k);
    if k > 0 {
      assert GrownTable(base, tables[k - 1], extras[k - 1]);
      AskedIsNext(tables, limit, codec, pages, cursors, k);
    }
  }

  lemma SliceAfter(base: seq<Vehicle>, extra: seq<Vehicle>, table: seq<Vehicle>, all: seq<Vehicle>, done: nat, limit: int,
                   before: seq<Vehicle>, cursor: Option<Cursor>, page: seq<Vehicle>, next: Option<Cursor>)
    requires Keyed(base) && GrownTable(base, table, extra) && all == Remaining(base, None)
    requires IsSlice(before, cursor, all, done, Limit(limit)) && cursor.Some? && (page, next) == Page(table, cursor, limit)
    ensures done + Limit(limit) < |all| && IsSlice(page, next, all, done + Limit(limit), Limit(limit))
  {
    NextSlice(base, extra, all, done + Limit(limit), limit);
  }

  /** The state of a walk after page k. */
  predicate SliceAt(pages: seq<seq<Vehicle>>, cursors: seq<Option<Cursor>>, all: seq<Vehicle>, k: nat, n: nat)
    requires k < |pages| < |cursors|
  {
    IsSlice(pages[k], cursors[k + 1], all, Start(k, n), n) && (k > 0 ==> Start(k, n) < |all|)
  }

  /** Every page is its slice. */
  ghost predicate AllSlices(pages: seq<seq<Vehicle>>, cursors: seq<Option<Cursor>>, all: seq<Vehicle>, n: nat) {
    |cursors| == |pages| + 1 && forall k :: 0 <= k < |pages| ==> SliceAt(pages, cursors, all, k, n)
  }

  lemma WalkIsSlices(base: seq<Vehicle>, extras: seq<seq<Vehicle>>, tables: seq<seq<Vehicle>>, limit: int, codec: Codec,
                     pages: seq<seq<Vehicle>>, cursors: seq<Option<Cursor>>)
    requires Walk(tables, limit, codec, pages, cursors) && NewerOnly(base, tables, extras) && Faithful(codec)
    ensures AllSlices(pages, cursors, Remaining(base, None), Limit(limit))
  {
    forall k | 0 <= k < |pages| ensures Reads(base, extras, tables, limit, pages, cursors, k) {
      WalkReads(base, extras, tables, limit, codec, pages, cursors, k);
    }
    forall k | 0 <= k < |pages| ensures SliceAt(pages, cursors, Remaining(base, None), k, Limit(limit)) {
      PageIsSlice(base, extras, tables, limit, pages, cursors, k, Remaining(base, None));
    }
  }

  lemma {:induction false} SlicesJoin(pages: seq<seq<Vehicle>>, cursors: seq<Option<Cursor>>, all: seq<Vehicle>, n: nat, k: nat)
    requires AllSlices(pages, cursors, all, n) && k <= |pages|
    ensures Concat(pages[..k]) == all[..if Start(k, n) < |all| then Start(k, n) else |all|]
  {
    if k > 0 {
      assert pages[..k][..k - 1] == pages[..k - 1];
      SlicesJoin(pages, cursors, all, n, k - 1);
      assert SliceAt(pages, cursors, all, k - 1, n);
      assert Concat(pages[..k]) == Concat(pages[..k - 1]) + pages[k - 1];
    }
  }

  lemma FullBeforeLast(pages: seq<seq<Vehicle>>, cursors: seq<Option<Cursor>>, all: seq<Vehicle>, n: nat, k: nat)
    requires AllSlices(pages, cursors, all, n) && k + 1 < |pages|
    ensures |pages[k]| == n
  {
    assert SliceAt(pages, cursors, all, k, n) && SliceAt(pages, cursors, all, k + 1, n);
  }

  lemma SlicesAreListing(pages: seq<seq<Vehicle>>, cursors: seq<Option<Cursor>>, all: seq<Vehicle>, n: nat)
    requires AllSlices(pages, cursors, all, n) && pages != [] && n > 0
    ensures |pages| > 1 ==> Start(|pages| - 1, n) < |all|
    ensures cursors[|pages|].None? <==> Start(|pages|, n) >= |all|
    ensures cursors[|pages|].None? ==> Concat(pages) == all
  {
    var m := |pages|;
    assert SliceAt(pages, cursors, all, m - 1, n);
    SlicesJoin(pages, cursors, all, n, m);
    assert pages[..m] == pages && all[..|all|] == all;
  }

  /** With only newer rows inserted between pages the walk ends: n rows take no more than n / limit pages,
      rounded up, one of them the first; all are full but the last, the last alone has no next cursor, and
      together they are exactly the listing as it was at the start. */
  lemma WalkIsListing(base: seq<Vehicle>, extras: seq<seq<Vehicle>>, tables: seq<seq<Vehicle>>, limit: int, codec: Codec,
                      pages: seq<seq<Vehicle>>, cursors: seq<Option<Cursor>>)
    requires Walk(tables, limit, codec, pages, cursors) && NewerOnly(base, tables, extras) && Faithful(codec)
    ensures |pages| > 1 ==> (|pages| - 1) * Limit(limit) < |Remaining(base, None)|
    ensures cursors[|pages|].None? <==> |pages| * Limit(limit) >= |Remaining(base, None)|
    ensures cursors[|pages|].None? ==> Concat(pages) == Remaining(base, None)
    ensures forall k :: 0 <= k < |pages| - 1 ==> |pages[k]| == Limit(limit)
  {
    var all, n, m := Remaining(base, None), Limit(limit), |pages|;
    WalkIsSlices(base, extras, tables, limit, codec, pages, cursors);
    SlicesAreListing(pages, cursors, all, n);
    StartIsProduct(m, n);
    StartIsProduct(m - 1, n);
    forall k | 0 <= k < m - 1 ensures |pages[k]| == n { FullBeforeLast(pages, cursors, all, n, k); }
  }
}
