/** Readiness, assembly and verification of an inspection report (backend/inspections/report.go). JSON
    marshalling, hashing and what the database gives back for a stored snapshot are parameters. */
module ReportIntegrity {
  import opened Wrappers
  import opened InspectionRecords
  import opened ReportSelection
  import opened ReportText

  // ----- readiness -----

  datatype Issue = UnknownItem(key: string) | MissingItem(key: string) | RedWithoutEvidence(id: Uuid) | NoEvidence

  predicate HasItem(t: Template, key: string) { exists i :: 0 <= i < |t.items| && t.items[i].key == key }

  predicate Requires(t: Template, key: string) { exists i :: 0 <= i < |t.items| && t.items[i].key == key && t.items[i].required }

  predicate Covers(fs: seq<Finding>, key: string) { exists i :: 0 <= i < |fs| && fs[i].itemKey == key }

  predicate Linked(es: seq<Evidence>, id: Uuid) {
    id != NIL_UUID && exists i :: 0 <= i < |es| && es[i].findingId == Some(id)
  }

  /** What a report needs: every selected finding on a template item, every required item found, every
      RED finding backed by evidence, and some evidence at all. */
  predicate Ready(t: Template, fs: seq<Finding>, es: seq<Evidence>) {
    var selected := Select(fs);
    && (forall i :: 0 <= i < |selected| ==> HasItem(t, selected[i].itemKey))
    && (forall i :: 0 <= i < |t.items| && t.items[i].required ==> Covers(selected, t.items[i].key))
    && (forall i :: 0 <= i < |selected| && selected[i].severity.Red? ==> Linked(es, selected[i].id))
    && es != []
  }

  /** Exactly what is wrong. */
  predicate Violates(t: Template, selected: seq<Finding>, es: seq<Evidence>, issue: Issue) {
    match issue
    case UnknownItem(key) => Covers(selected, key) && !HasItem(t, key)
    case MissingItem(key) => Requires(t, key) && !Covers(selected, key)
    case RedWithoutEvidence(id) => !Linked(es, id) && exists i :: 0 <= i < |selected| && selected[i].severity.Red? && selected[i].id == id
    case NoEvidence => es == []
  }

  lemma ReadyMeansNoIssue(t: Template, fs: seq<Finding>, es: seq<Evidence>)
    ensures Ready(t, fs, es) <==> forall issue :: !Violates(t, Select(fs), es, issue)
  {
    var selected := Select(fs);
    if forall issue :: !Violates(t, selected, es, issue) {
      assert !Violates(t, selected, es, NoEvidence);
      forall i | 0 <= i < |selected| ensures HasItem(t, selected[i].itemKey) {
        assert !Violates(t, selected, es, UnknownItem(selected[i].itemKey));
      }
      forall i | 0 <= i < |t.items| && t.items[i].required ensures Covers(selected, t.items[i].key) {
        assert !Violates(t, selected, es, MissingItem(t.items[i].key));
      }
      forall i | 0 <= i < |selected| && selected[i].severity.Red? ensures Linked(es, selected[i].id) {
        assert !Violates(t, selected, es, RedWithoutEvidence(selected[i].id));
      }
    }
  }

  /** Every violated precondition is named, and nothing else. */
  method CheckReportReadiness(t: Template, findings: seq<Finding>, evidence: seq<Evidence>) returns (issues: seq<Issue>)
    ensures forall issue :: issue in issues <==> Violates(t, Select(findings), evidence, issue)
    ensures issues == [] <==> Ready(t, findings, evidence)
  {
    var selected := SelectLatestFindings(findings);
    var covered: set<string> := {};
    issues := [];
    for i := 0 to |selected|
      invariant forall issue :: issue in issues <==> issue.UnknownItem? && !HasItem(t, issue.key) && Covers(selected[..i], issue.key)
      invariant forall key :: key in covered <==> HasItem(t, key) && Covers(selected[..i], key)
    {
      CoversNext(selected, i);
      if HasItem(t, selected[i].itemKey) {
        covered := covered + {selected[i].itemKey};
      } else {
        issues := issues + [UnknownItem(selected[i].itemKey)];
      }
    }
    assert selected[..|selected|] == selected;
    var missing := MissingItems(t, selected, covered);
    var linked: set<Uuid> := {};
    for i := 0 to |evidence|
      invariant forall id :: id in linked <==> Linked(evidence[..i], id)
    {
      LinkedNext(evidence, i);
      if evidence[i].findingId.Some? && evidence[i].findingId.value != NIL_UUID {
        linked := linked + {evidence[i].findingId.value};
      }
    }
    assert evidence[..|evidence|] == evidence;
    var red := RedFindings(selected, evidence, linked);
    issues := issues + missing + red + if |evidence| == 0 then [NoEvidence] else [];
    ReadyMeansNoIssue(t, findings, evidence);
    assert issues == [] <==> forall issue :: issue !in issues by {
      if issues != [] { assert issues[0] in issues; }
    }
  }

  method MissingItems(t: Template, selected: seq<Finding>, covered: set<string>) returns (issues: seq<Issue>)
    requires forall key :: key in covered <==> HasItem(t, key) && Covers(selected, key)
    ensures forall issue :: issue in issues <==> issue.MissingItem? && Violates(t, selected, [], issue)
  {
    issues := [];
    for i := 0 to |t.items|
      invariant forall issue :: issue in issues <==>
                  issue.MissingItem? && !Covers(selected, issue.key) &&
                  exists j :: 0 <= j < i && t.items[j].key == issue.key && t.items[j].required
    {
      if t.items[i].required && t.items[i].key !in covered {
        issues := issues + [MissingItem(t.items[i].key)];
      }
    }
  }

  method RedFindings(selected: seq<Finding>, evidence: seq<Evidence>, linked: set<Uuid>) returns (issues: seq<Issue>)
    requires forall id :: id in linked <==> Linked(evidence, id)
    ensures forall issue :: issue in issues <==>
              issue.RedWithoutEvidence? && Violates(Template("", "", 0, []), selected, evidence, issue)
  {
    issues := [];
    for i := 0 to |selected|
      invariant forall issue :: issue in issues <==>
                  issue.RedWithoutEvidence? && !Linked(evidence, issue.id) &&
                  exists j :: 0 <= j < i && selected[j].severity.Red? && selected[j].id == issue.id
    {
      if selected[i].severity.Red? && selected[i].id !in linked {
        issues := issues + [RedWithoutEvidence(selected[i].id)];
      }
    }
  }

  lemma CoversNext(fs: seq<Finding>, i: nat)
    requires i < |fs|
    ensures forall key :: Covers(fs[..i + 1], key) <==> Covers(fs[..i], key) || fs[i].itemKey == key
  {
    forall key ensures Covers(fs[..i + 1], key) <==> Covers(fs[..i], key) || fs[i].itemKey == key {
      if Covers(fs[..i], key) {
        var j :| 0 <= j < i && fs[..i][j].itemKey == key;
        assert fs[..i + 1][j].itemKey == key;
      }
      assert fs[..i + 1][i] == fs[i];
      if Covers(fs[..i + 1], key) && fs[i].itemKey != key {
        var j :| 0 <= j < i + 1 && fs[..i + 1][j].itemKey == key;
        assert fs[..i][j].itemKey == key;
      }
    }
  }

  lemma LinkedNext(es: seq<Evidence>, i: nat)
    requires i < |es|
    ensures forall id :: Linked(es[..i + 1], id) <==> Linked(es[..i], id) || (id != NIL_UUID && es[i].findingId == Some(id))
  {
    forall id ensures Linked(es[..i + 1], id) <==> Linked(es[..i], id) || (id != NIL_UUID && es[i].findingId == Some(id)) {
      if Linked(es[..i], id) {
        var j :| 0 <= j < i && es[..i][j].findingId == Some(id);
        assert es[..i + 1][j].findingId == Some(id);
      }
      assert es[..i + 1][i] == es[i];
      if Linked(es[..i + 1], id) && es[i].findingId != Some(id) {
        var j :| 0 <= j < i + 1 && es[..i + 1][j].findingId == Some(id);
        assert es[..i][j].findingId == Some(id);
      }
    }
  }

  // ----- assembly -----

  /** What the frozen evidence records of each row. */
  datatype EvidenceSnapshot = EvidenceSnapshot(id: Uuid, findingId: Option<Uuid>, kind: EvidenceKind, contentHash: string,
                                               capturedAt: int, uploaded: bool)

  function Snapshot(e: Evidence): EvidenceSnapshot {
    EvidenceSnapshot(e.id, e.findingId, e.kind, e.contentHash, e.capturedAt, e.uploaded)
  }

  function Snapshots(es: seq<Evidence>): seq<EvidenceSnapshot> { seq(|es|, i requires 0 <= i < |es| => Snapshot(es[i])) }

  /** `readBack` is what the snapshot columns return for the bytes written to them. */
  datatype Formats = Formats(forms: Forms, digest: string -> string, findingsJson: seq<Finding> -> string,
                             evidenceJson: seq<EvidenceSnapshot> -> string, readBack: string -> string)

  datatype Report = Report(version: int, templateId: Uuid, templateName: string, templateVersion: int,
                           findingsSnapshot: string, evidenceSnapshot: string, findingsCount: nat, evidenceCount: nat,
                           contentHash: string)

  const REPORT_VERSION_INITIAL: int := 1

  function Assemble(s: Session, fs: seq<Finding>, es: seq<Evidence>, version: int, formats: Formats): Report {
    var selected := Select(fs);
    Report(version, s.templateId, s.templateName, s.templateVersion,
           formats.findingsJson(selected), formats.evidenceJson(Snapshots(es)), |selected|, |es|,
           formats.digest(Canonical(s, selected, es, version, formats.forms)))
  }

  /** The row as later reads return it. */
  function Stored(r: Report, formats: Formats): Report {
    r.(findingsSnapshot := formats.readBack(r.findingsSnapshot), evidenceSnapshot := formats.readBack(r.evidenceSnapshot))
  }

  // ----- verification -----

  datatype Verification = Verification(hashMatch: bool, findingsMatch: bool, evidenceMatch: bool, templateMatch: bool,
                                       findingsChecked: nat, evidenceChecked: nat)
  {
    predicate Verified() { hashMatch && findingsMatch && evidenceMatch && templateMatch }
  }

  predicate TemplateMatches(t: Template, s: Session) {
    t.id == s.templateId && t.name == s.templateName && t.version == s.templateVersion
  }

  function Verify(t: Template, s: Session, fs: seq<Finding>, es: seq<Evidence>, r: Report, formats: Formats): Verification {
    Verification(formats.digest(Canonical(s, Select(fs), es, r.version, formats.forms)) == r.contentHash,
                 formats.findingsJson(Select(fs)) == r.findingsSnapshot,
                 formats.evidenceJson(Snapshots(es)) == r.evidenceSnapshot,
                 TemplateMatches(t, s), |fs|, |es|)
  }

  /** The columns give back these bytes unchanged. */
  predicate ReadsBack(s: Session, fs: seq<Finding>, es: seq<Evidence>, formats: Formats) {
    && formats.readBack(formats.findingsJson(Select(fs))) == formats.findingsJson(Select(fs))
    && formats.readBack(formats.evidenceJson(Snapshots(es))) == formats.evidenceJson(Snapshots(es))
  }

  /** A report assembled from rows verifies against the same rows exactly when the template still
      matches and the snapshot columns give their bytes back unchanged. */
  lemma AssembledVerifies(t: Template, s: Session, fs: seq<Finding>, es: seq<Evidence>, version: int, formats: Formats)
    ensures Verify(t, s, fs, es, Stored(Assemble(s, fs, es, version, formats), formats), formats).Verified() <==>
            TemplateMatches(t, s) && ReadsBack(s, fs, es, formats)
  {
  }

  /** A column type that normalises what it stores, as a binary JSON column does with spacing, defeats
      verification of every report it changes. */
  lemma NormalisingColumnNeverVerifies(t: Template, s: Session, fs: seq<Finding>, es: seq<Evidence>, version: int, formats: Formats)
    requires formats.readBack(formats.findingsJson(Select(fs))) != formats.findingsJson(Select(fs))
    ensures !Verify(t, s, fs, es, Stored(Assemble(s, fs, es, version, formats), formats), formats).Verified()
    ensures Verify(t, s, fs, es, Stored(Assemble(s, fs, es, version, formats), formats), formats).hashMatch
  {
    AssembledVerifies(t, s, fs, es, version, formats);
  }

  ghost predicate JsonInjective(formats: Formats) {
    && (forall fs, gs :: formats.findingsJson(fs) == formats.findingsJson(gs) ==> fs == gs)
    && (forall es, ds :: formats.evidenceJson(es) == formats.evidenceJson(ds) ==> es == ds)
  }

  /** Conversely, whatever happened to the rows: verified means that the live selected findings and
      evidence are the frozen ones, and, unless the hashes collide, that the session's certified fields
      are the ones the report was assembled from. */
  lemma VerifiedMeansUnchanged(t: Template, s: Session, fs: seq<Finding>, es: seq<Evidence>,
                               s0: Session, fs0: seq<Finding>, es0: seq<Evidence>, version: int, formats: Formats)
    requires JsonInjective(formats) && ReadsBack(s0, fs0, es0, formats)
    requires Verify(t, s, fs, es, Stored(Assemble(s0, fs0, es0, version, formats), formats), formats).Verified()
    requires Clean(s, Select(fs), es, formats.forms) && Clean(s0, Select(fs0), es0, formats.forms)
    ensures Select(fs) == Select(fs0) && Snapshots(es) == Snapshots(es0) && TemplateMatches(t, s)
    ensures var live, frozen := Canonical(s, Select(fs), es, version, formats.forms), Canonical(s0, Select(fs0), es0, version, formats.forms);
            SameSession(s, s0, formats.forms) || (live != frozen && formats.digest(live) == formats.digest(frozen))
  {
    Unambiguous(s, Select(fs), es, version, s0, Select(fs0), es0, version, formats.forms);
  }
}
