/** The order in which evidence is hashed: the store's, not the ids' (backend/inspections/report.go). */
module EvidenceOrder {
  import opened Wrappers
  import opened Text
  import opened Sorting
  import opened InspectionRecords
  import opened ReportText

  predicate ById(e: Evidence, d: Evidence) { Less(e.id, d.id) }

  /** The primary key of the evidence table. */
  predicate DistinctEvidence(es: seq<Evidence>) {
    forall i, j :: 0 <= i < j < |es| ==> es[i].id != es[j].id
  }

  lemma ByIdIsStrict()
    ensures StrictOrder(ById)
  {
    forall e, d, c
      ensures !ById(e, e)
      ensures ById(e, d) && ById(d, c) ==> ById(e, c)
      ensures ById(e, c) ==> ById(e, d) || ById(d, c)
    {
      LessIrreflexive(e.id);
      LessWeak(e.id, d.id, c.id);
    }
  }

  lemma LessWeak(a: string, b: string, c: string)
    ensures Less(a, b) && Less(b, c) ==> Less(a, c)
    ensures Less(a, c) ==> Less(a, b) || Less(b, c)
  {
    if Less(a, b) && Less(b, c) { LessTransitive(a, b, c); }
    LessTotal(a, b);
    if Less(b, a) && Less(a, c) { LessTransitive(b, a, c); }
  }

  lemma DistinctDistinguishes(es: seq<Evidence>)
    requires DistinctEvidence(es)
    ensures Distinguishes(ById, es)
  {
    forall i, j | 0 <= i < j < |es| ensures ById(es[i], es[j]) || ById(es[j], es[i]) { LessTotal(es[i].id, es[j].id); }
  }

  lemma SameIdsSameOrder(es: seq<Evidence>, ds: seq<Evidence>)
    requires Sorted(ById, ds) && |es| == |ds| && forall i :: 0 <= i < |es| ==> es[i].id == ds[i].id
    ensures Sorted(ById, es)
  {
  }

  lemma SortedIsClean(s: Session, fs: seq<Finding>, es: seq<Evidence>, forms: Forms)
    requires Clean(s, fs, es, forms)
    ensures Clean(s, fs, Sort(ById, es), forms)
  {
    SortPermutes(ById, es);
    forall e | e in Sort(ById, es) ensures CleanEvidence(e) { assert e in multiset(es); }
  }

  /** The text of a listing is the text of the listing put in id order exactly when the listing is in id
      order. */
  lemma HashedByIdIff(s: Session, fs: seq<Finding>, es: seq<Evidence>, version: int, forms: Forms)
    requires Clean(s, fs, es, forms) && DistinctEvidence(es)
    ensures Canonical(s, fs, es, version, forms) == Canonical(s, fs, Sort(ById, es), version, forms) <==> Sorted(ById, es)
  {
    var ds := Sort(ById, es);
    ByIdIsStrict();
    SortSorts(ById, es);
    SortPermutes(ById, es);
    SortedIsClean(s, fs, es, forms);
    Unambiguous(s, fs, es, version, s, fs, ds, version, forms);
    if Sorted(ById, es) {
      DistinctDistinguishes(es);
      SortedUnique(ById, es, ds);
    }
    if Canonical(s, fs, es, version, forms) == Canonical(s, fs, ds, version, forms) {
      SameIdsSameOrder(es, ds);
    }
  }
}
