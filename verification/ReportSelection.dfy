/** The findings a report is made of: the newest record of each template item (backend/inspections/report.go). */
module ReportSelection {
  import opened Wrappers
  import opened Text
  import opened Sorting
  import opened InspectionRecords

  /** Later by creation time, then by id. */
  predicate Newer(f: Finding, g: Finding) {
    f.createdAt > g.createdAt || (f.createdAt == g.createdAt && Less(g.id, f.id))
  }

  predicate ByItem(f: Finding, g: Finding) {
    if f.itemKey != g.itemKey then Less(f.itemKey, g.itemKey) else Less(f.id, g.id)
  }

  lemma ByItemIsStrict()
    ensures StrictOrder(ByItem)
  {
    forall f, g, h
      ensures !ByItem(f, f)
      ensures ByItem(f, g) && ByItem(g, h) ==> ByItem(f, h)
      ensures ByItem(f, h) ==> ByItem(f, g) || ByItem(g, h)
    {
      LessIrreflexive(f.id);
      ByItemTransitive(f, g, h);
      ByItemWeak(f, g, h);
    }
  }

  lemma ByItemTransitive(f: Finding, g: Finding, h: Finding)
    ensures ByItem(f, g) && ByItem(g, h) ==> ByItem(f, h)
  {
    if ByItem(f, g) && ByItem(g, h) {
      if Less(f.itemKey, g.itemKey) && Less(g.itemKey, h.itemKey) {
        LessTransitive(f.itemKey, g.itemKey, h.itemKey);
        LessIrreflexive(h.itemKey);
      }
      if Less(f.id, g.id) && Less(g.id, h.id) {
        LessTransitive(f.id, g.id, h.id);
      }
      if f.itemKey == h.itemKey != g.itemKey {
        LessTransitive(f.itemKey, g.itemKey, f.itemKey);
        LessIrreflexive(f.itemKey);
      }
    }
  }

  lemma ByItemWeak(f: Finding, g: Finding, h: Finding)
    ensures ByItem(f, h) ==> ByItem(f, g) || ByItem(g, h)
  {
    if ByItem(f, h) && !ByItem(f, g) && !ByItem(g, h) {
      LessTotal(f.itemKey, g.itemKey);
      LessTotal(g.itemKey, h.itemKey);
      LessTotal(f.id, g.id);
      LessTotal(g.id, h.id);
      if f.itemKey != g.itemKey && g.itemKey != h.itemKey {
        LessTransitive(h.itemKey, g.itemKey, f.itemKey);
      }
      if f.id != g.id && g.id != h.id && f.itemKey == g.itemKey == h.itemKey {
        LessTransitive(h.id, g.id, f.id);
      }
      Asymmetric(f.itemKey, h.itemKey);
      Asymmetric(f.id, h.id);
    }
  }

  lemma Asymmetric(a: string, b: string)
    ensures !(Less(a, b) && Less(b, a))
  {
    if Less(a, b) && Less(b, a) {
      LessTransitive(a, b, a);
      LessIrreflexive(a);
    }
  }

  // ----- what the loops compute -----

  /** The record the table holds for a key after these findings. */
  function LatestOf(fs: seq<Finding>, key: string): Option<Finding> {
    if fs == [] then None
    else
      var cur := LatestOf(fs[..|fs| - 1], key);
      var f := fs[|fs| - 1];
      if f.itemKey == key && (cur.None? || Newer(f, cur.value)) then Some(f) else cur
  }

  /** Those of the findings whose id is the one kept for their key. */
  function Kept(all: seq<Finding>, fs: seq<Finding>): seq<Finding> {
    if fs == [] then []
    else
      var f := fs[|fs| - 1];
      var latest := LatestOf(all, f.itemKey);
      Kept(all, fs[..|fs| - 1]) + if latest.Some? && latest.value.id == f.id then [f] else []
  }

  function Select(fs: seq<Finding>): seq<Finding> { Sort(ByItem, Kept(fs, fs)) }

  method SelectLatestFindings(findings: seq<Finding>) returns (out: seq<Finding>)
    ensures out == Select(findings)
  {
    var latest: map<string, Finding> := map[];
    for i := 0 to |findings|
      invariant forall k :: k in latest <==> LatestOf(findings[..i], k).Some?
      invariant forall k :: k in latest ==> LatestOf(findings[..i], k) == Some(latest[k])
    {
      var f := findings[i];
      assert findings[..i + 1][..i] == findings[..i];
      if f.itemKey !in latest || Newer(f, latest[f.itemKey]) {
        latest := latest[f.itemKey := f];
      }
    }
    assert findings[..|findings|] == findings;
    out := [];
    for i := 0 to |findings|
      invariant out == Kept(findings, findings[..i])
    {
      var f := findings[i];
      assert findings[..i + 1][..i] == findings[..i];
      if f.itemKey in latest && latest[f.itemKey].id == f.id {
        out := out + [f];
      }
    }
    out := Sort(ByItem, out);
  }

  // ----- what the selection is -----

  /** The newest record of a key. */
  ghost predicate NewestOfItem(fs: seq<Finding>, f: Finding) {
    f in fs && forall g :: g in fs && g.itemKey == f.itemKey ==> g == f || Newer(f, g)
  }

  lemma NewerTransitive(f: Finding, g: Finding, h: Finding)
    requires Newer(f, g) && Newer(g, h)
    ensures Newer(f, h)
  {
    if f.createdAt == g.createdAt == h.createdAt {
      LessTransitive(h.id, g.id, f.id);
    }
  }

  lemma {:induction false} LatestIsNewest(fs: seq<Finding>, key: string)
    requires DistinctIds(fs)
    ensures LatestOf(fs, key).Some? <==> exists f :: f in fs && f.itemKey == key
    ensures LatestOf(fs, key).Some? ==> LatestOf(fs, key).value.itemKey == key && NewestOfItem(fs, LatestOf(fs, key).value)
  {
    if fs != [] {
      var init, f := fs[..|fs| - 1], fs[|fs| - 1];
      LatestIsNewest(init, key);
      assert forall g :: g in fs <==> g in init || g == f;
      if f.itemKey == key {
        forall g | g in init && g.itemKey == key
          ensures Newer(f, LatestOf(init, key).value) ==> Newer(f, g)
          ensures !Newer(f, LatestOf(init, key).value) ==> Newer(LatestOf(init, key).value, f)
        {
          var cur := LatestOf(init, key).value;
          if Newer(f, cur) && g != cur {
            NewerTransitive(f, cur, g);
          }
          LessTotal(f.id, cur.id);
        }
      }
    }
  }

  lemma {:induction false} KeptAre(all: seq<Finding>, fs: seq<Finding>)
    requires DistinctIds(all) && forall f :: f in fs ==> f in all
    ensures forall f :: f in Kept(all, fs) <==> f in fs && NewestOfItem(all, f)
  {
    if fs != [] {
      var init, f := fs[..|fs| - 1], fs[|fs| - 1];
      KeptAre(all, init);
      LatestIsNewest(all, f.itemKey);
      assert forall g :: g in fs <==> g in init || g == f;
      var latest := LatestOf(all, f.itemKey).value;
      SameId(all, latest, f);
      assert NewestOfItem(all, f) ==> latest == f by {
        if NewestOfItem(all, f) && latest != f { NewerAsymmetric(f, latest); }
      }
    }
  }

  lemma NewerAsymmetric(f: Finding, g: Finding)
    ensures !(Newer(f, g) && Newer(g, f))
  {
    Asymmetric(f.id, g.id);
  }

  lemma SameId(fs: seq<Finding>, f: Finding, g: Finding)
    requires DistinctIds(fs) && f in fs && g in fs
    ensures f.id == g.id ==> f == g
  {
    var i :| 0 <= i < |fs| && fs[i] == f;
    var j :| 0 <= j < |fs| && fs[j] == g;
  }

  /** A selection: one record per key, strictly by key. */
  predicate StrictByKey(s: seq<Finding>) {
    forall i, j :: 0 <= i < j < |s| ==> Less(s[i].itemKey, s[j].itemKey)
  }

  lemma SelectMembers(fs: seq<Finding>)
    requires DistinctIds(fs)
    ensures forall f :: f in Select(fs) <==> NewestOfItem(fs, f)
  {
    KeptAre(fs, fs);
    SortPermutes(ByItem, Kept(fs, fs));
    forall f ensures f in Select(fs) <==> f in Kept(fs, fs) {
      assert f in Select(fs) <==> f in multiset(Select(fs));
    }
  }

  lemma {:induction false} KeptDistinct(all: seq<Finding>, fs: seq<Finding>)
    requires DistinctIds(fs)
    ensures DistinctIds(Kept(all, fs)) && forall f :: f in Kept(all, fs) ==> f in fs
  {
    if fs != [] {
      var init, f := fs[..|fs| - 1], fs[|fs| - 1];
      KeptDistinct(all, init);
      assert forall g :: g in init ==> g.id != f.id;
    }
  }

  lemma SelectDistinct(fs: seq<Finding>, i: nat, j: nat)
    requires DistinctIds(fs) && i < j < |Select(fs)|
    ensures Select(fs)[i] != Select(fs)[j]
  {
    SortPermutes(ByItem, Kept(fs, fs));
    KeptDistinct(fs, fs);
    OnceEach(Kept(fs, fs), Select(fs)[i]);
    if Select(fs)[i] == Select(fs)[j] {
      Repeats(Select(fs), i, j);
    }
  }

  lemma SelectStrict(fs: seq<Finding>, i: nat, j: nat)
    requires DistinctIds(fs) && i < j < |Select(fs)|
    ensures Less(Select(fs)[i].itemKey, Select(fs)[j].itemKey)
  {
    var f, g := Select(fs)[i], Select(fs)[j];
    SelectMembers(fs);
    SelectDistinct(fs, i, j);
    assert f in Select(fs) && g in Select(fs);
    if f.itemKey == g.itemKey {
      OneNewest(fs, f, g);
    }
    ByItemIsStrict();
    SortSorts(ByItem, Kept(fs, fs));
    assert !ByItem(g, f);
    LessTotal(f.itemKey, g.itemKey);
  }

  /** The selection keeps exactly one record for each key present, the newest of that key, strictly
      ordered by key. */
  lemma SelectionIsLatest(fs: seq<Finding>)
    requires DistinctIds(fs)
    ensures forall f :: f in Select(fs) <==> NewestOfItem(fs, f)
    ensures forall f :: f in fs ==> exists g :: g in Select(fs) && g.itemKey == f.itemKey
    ensures StrictByKey(Select(fs))
  {
    SelectMembers(fs);
    forall f | f in fs ensures exists g :: g in Select(fs) && g.itemKey == f.itemKey {
      LatestIsNewest(fs, f.itemKey);
      assert LatestOf(fs, f.itemKey).value in Select(fs);
    }
    forall i, j | 0 <= i < j < |Select(fs)| ensures Less(Select(fs)[i].itemKey, Select(fs)[j].itemKey) {
      SelectStrict(fs, i, j);
    }
  }

  lemma OneNewest(fs: seq<Finding>, f: Finding, g: Finding)
    requires NewestOfItem(fs, f) && NewestOfItem(fs, g) && f.itemKey == g.itemKey
    ensures f == g
  {
    NewerAsymmetric(f, g);
  }

  /** Selections with the same members are the same. */
  lemma {:induction false} StrictUnique(a: seq<Finding>, b: seq<Finding>)
    requires StrictByKey(a) && StrictByKey(b) && forall f :: f in a <==> f in b
    ensures a == b
  {
    assert |b| > 0 ==> b[0] in b;
    if a != [] {
      assert a[0] in b;
      assert b[0] in a;
      var i :| 0 <= i < |b| && b[i] == a[0];
      var j :| 0 <= j < |a| && a[j] == b[0];
      Asymmetric(a[0].itemKey, b[0].itemKey);
      TailMembers(a);
      TailMembers(b);
      StrictUnique(a[1..], b[1..]);
      assert a == [a[0]] + a[1..] && b == [b[0]] + b[1..];
    }
  }

  lemma TailMembers(a: seq<Finding>)
    requires StrictByKey(a) && a != []
    ensures forall f :: f in a[1..] <==> f in a && f != a[0]
  {
    LessIrreflexive(a[0].itemKey);
  }

  /** The order of the records does not matter. */
  lemma SelectionIgnoresOrder(fs: seq<Finding>, gs: seq<Finding>)
    requires DistinctIds(fs) && DistinctIds(gs) && forall f :: f in fs <==> f in gs
    ensures Select(fs) == Select(gs)
  {
    SelectionIsLatest(fs);
    SelectionIsLatest(gs);
    assert forall f :: NewestOfItem(fs, f) <==> NewestOfItem(gs, f);
    StrictUnique(Select(fs), Select(gs));
  }

  /** Selecting from findings that are sorted with distinct keys is the identity. */
  lemma SelectOfStrict(s: seq<Finding>)
    requires DistinctIds(s) && StrictByKey(s)
    ensures Select(s) == s
  {
    SelectionIsLatest(s);
    forall f ensures f in Select(s) <==> f in s { StrictIsNewest(s, f); }
    StrictUnique(Select(s), s);
  }

  lemma StrictIsNewest(s: seq<Finding>, f: Finding)
    requires StrictByKey(s)
    ensures NewestOfItem(s, f) <==> f in s
  {
    if f in s {
      forall g | g in s && g.itemKey == f.itemKey ensures g == f { LessIrreflexive(f.itemKey); }
    }
  }

  /** Selecting again changes nothing. */
  lemma SelectionIdempotent(fs: seq<Finding>)
    requires DistinctIds(fs)
    ensures Select(Select(fs)) == Select(fs)
  {
    SelectionIsLatest(fs);
    StrictIsDistinct(fs, Select(fs));
    SelectOfStrict(Select(fs));
  }

  lemma StrictIsDistinct(fs: seq<Finding>, s: seq<Finding>)
    requires DistinctIds(fs) && StrictByKey(s) && forall f :: f in s ==> f in fs
    ensures DistinctIds(s)
  {
    forall i, j | 0 <= i < j < |s| ensures s[i].id != s[j].id {
      assert s[i] in s && s[j] in s;
      SameId(fs, s[i], s[j]);
      LessIrreflexive(s[i].itemKey);
    }
  }
}
