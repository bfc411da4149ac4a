/** The canonical report text whose hash certifies an inspection report (backend/inspections/report.go),
    and why no two different reports share it. Hashing and time formatting are parameters. */
module ReportText {
  import opened Wrappers
  import opened Text
  import opened InspectionRecords

  const REPORT_HASH_VERSION: string := "motivra-inspections-report-v1"

  /** How instants are formatted and free text is hashed. */
  datatype Forms = Forms(stamp: int -> string, hash: string -> string)

  function ResultText(r: FindingResult): string {
    match r case Pass => "PASS" case Fail => "FAIL" case Attention => "ATTENTION" case NotApplicable => "NOT_APPLICABLE"
  }

  function SeverityText(s: Severity): string {
    match s case Green => "GREEN" case Amber => "AMBER" case Red => "RED"
  }

  function KindText(k: EvidenceKind): string {
    match k case Photo => "PHOTO" case Reading => "READING" case Document => "DOCUMENT"
  }

  function UuidOrDash(id: Option<Uuid>): string {
    if id.None? || id.value == NIL_UUID then "-" else id.value
  }

  function SubmissionTimestamp(s: Session, forms: Forms): string {
    forms.stamp(if s.submittedAt.None? then ZERO_TIME else s.submittedAt.value)
  }

  function Header(s: Session, version: int, forms: Forms): seq<string> {
    [REPORT_HASH_VERSION,
     "session_id=" + s.id,
     "version=" + Decimal(version),
     "vehicle_id=" + UuidOrDash(s.vehicleId),
     "job_id=" + UuidOrDash(s.jobId),
     "template_id=" + s.templateId,
     "template_name=" + s.templateName,
     "template_version=" + Decimal(s.templateVersion),
     "inspector_id=" + s.inspectorId,
     "submitted_at=" + SubmissionTimestamp(s, forms)]
  }

  function FindingFields(f: Finding, forms: Forms): seq<string> {
    [f.id, f.itemKey, ResultText(f.result), SeverityText(f.severity), forms.hash(f.notes), UuidOrDash(f.recordedBy)]
  }

  function FindingLine(f: Finding, forms: Forms): string { "finding=" + Join(FindingFields(f, forms), ',') }

  function EvidenceFields(e: Evidence): seq<string> {
    [e.id, KindText(e.kind), e.contentHash, UuidOrDash(e.findingId), if e.uploaded then "1" else "0"]
  }

  function EvidenceLine(e: Evidence): string { "evidence=" + Join(EvidenceFields(e), ',') }

  function Footer(n: nat, m: nat): string { "findings=" + Decimal(n) + ",evidence=" + Decimal(m) }

  function FindingLines(fs: seq<Finding>, forms: Forms): seq<string> { seq(|fs|, i requires 0 <= i < |fs| => FindingLine(fs[i], forms)) }

  function EvidenceLines(es: seq<Evidence>): seq<string> { seq(|es|, i requires 0 <= i < |es| => EvidenceLine(es[i])) }

  function Lines(s: Session, fs: seq<Finding>, es: seq<Evidence>, version: int, forms: Forms): seq<string> {
    Header(s, version, forms) + FindingLines(fs, forms) + EvidenceLines(es) + [Footer(|fs|, |es|)]
  }

  /** The canonical text. */
  function Canonical(s: Session, fs: seq<Finding>, es: seq<Evidence>, version: int, forms: Forms): string {
    Join(Lines(s, fs, es, version, forms), '\n')
  }

  method BuildReportInput(s: Session, findings: seq<Finding>, evidence: seq<Evidence>, version: int, forms: Forms)
    returns (text: string)
    ensures text == Canonical(s, findings, evidence, version, forms)
  {
    var lines := Header(s, version, forms);
    for i := 0 to |findings|
      invariant lines == Header(s, version, forms) + FindingLines(findings, forms)[..i]
    {
      lines := lines + [FindingLine(findings[i], forms)];
    }
    assert FindingLines(findings, forms)[..|findings|] == FindingLines(findings, forms);
    ghost var head := lines;
    for i := 0 to |evidence|
      invariant lines == head + EvidenceLines(evidence)[..i]
    {
      lines := lines + [EvidenceLine(evidence[i])];
    }
    assert EvidenceLines(evidence)[..|evidence|] == EvidenceLines(evidence);
    lines := lines + [Footer(|findings|, |evidence|)];
    text := Join(lines, '\n');
  }

  // ----- which reports the text is read back from -----

  predicate IsOptionalUuid(id: Option<Uuid>) { id.Some? ==> IsUuid(id.value) }

  /** No newline in a header field. */
  predicate CleanSession(s: Session, forms: Forms) {
    && IsUuid(s.id) && IsOptionalUuid(s.vehicleId) && IsOptionalUuid(s.jobId) && IsUuid(s.templateId) && IsUuid(s.inspectorId)
    && Without(s.templateName, '\n') && Without(SubmissionTimestamp(s, forms), '\n')
  }

  predicate CleanField(s: string) { Without(s, '\n') && Without(s, ',') }

  /** No comma and no newline in a row field. */
  predicate CleanFinding(f: Finding, forms: Forms) {
    IsUuid(f.id) && CleanField(f.itemKey) && CleanField(forms.hash(f.notes)) && IsOptionalUuid(f.recordedBy)
  }

  predicate CleanEvidence(e: Evidence) {
    IsUuid(e.id) && CleanField(e.contentHash) && IsOptionalUuid(e.findingId)
  }

  predicate Clean(s: Session, fs: seq<Finding>, es: seq<Evidence>, forms: Forms) {
    && CleanSession(s, forms)
    && (forall f :: f in fs ==> CleanFinding(f, forms))
    && (forall e :: e in es ==> CleanEvidence(e))
  }

  /** A nil uuid stands for no uuid. */
  function Normal(id: Option<Uuid>): Option<Uuid> {
    if id.Some? && id.value == NIL_UUID then None else id
  }

  predicate SameSession(s: Session, t: Session, forms: Forms) {
    && s.id == t.id && Normal(s.vehicleId) == Normal(t.vehicleId) && Normal(s.jobId) == Normal(t.jobId)
    && s.templateId == t.templateId && s.templateName == t.templateName && s.templateVersion == t.templateVersion
    && s.inspectorId == t.inspectorId && SubmissionTimestamp(s, forms) == SubmissionTimestamp(t, forms)
  }

  predicate SameFinding(f: Finding, g: Finding, forms: Forms) {
    && f.id == g.id && f.itemKey == g.itemKey && f.result == g.result && f.severity == g.severity
    && forms.hash(f.notes) == forms.hash(g.notes) && Normal(f.recordedBy) == Normal(g.recordedBy)
  }

  predicate SameEvidence(e: Evidence, d: Evidence) {
    && e.id == d.id && e.kind == d.kind && e.contentHash == d.contentHash
    && Normal(e.findingId) == Normal(d.findingId) && e.uploaded == d.uploaded
  }

  // ----- clean fields make clean lines -----

  lemma UuidClean(id: Uuid)
    requires IsUuid(id)
    ensures CleanField(id) && id != "-"
  {
  }

  lemma OptionalClean(id: Option<Uuid>)
    requires IsOptionalUuid(id)
    ensures CleanField(UuidOrDash(id))
  {
    if id.Some? { UuidClean(id.value); }
  }

  lemma SameOptional(a: Option<Uuid>, b: Option<Uuid>)
    requires IsOptionalUuid(a) && IsOptionalUuid(b)
    ensures UuidOrDash(a) == UuidOrDash(b) <==> Normal(a) == Normal(b)
  {
    if a.Some? { UuidClean(a.value); }
    if b.Some? { UuidClean(b.value); }
  }

  lemma FindingFieldsClean(f: Finding, forms: Forms)
    requires CleanFinding(f, forms)
    ensures forall p :: p in FindingFields(f, forms) ==> CleanField(p)
  {
    UuidClean(f.id);
    OptionalClean(f.recordedBy);
  }

  lemma EvidenceFieldsClean(e: Evidence)
    requires CleanEvidence(e)
    ensures forall p :: p in EvidenceFields(e) ==> CleanField(p)
  {
    UuidClean(e.id);
    OptionalClean(e.findingId);
  }

  lemma WithoutPlus(a: string, b: string, sep: char)
    requires Without(a, sep) && Without(b, sep)
    ensures Without(a + b, sep)
  {
  }

  lemma FindingLineClean(f: Finding, forms: Forms)
    requires CleanFinding(f, forms)
    ensures Without(FindingLine(f, forms), '\n')
  {
    FindingFieldsClean(f, forms);
    JoinWithout(FindingFields(f, forms), ',', '\n');
    WithoutPlus("finding=", Join(FindingFields(f, forms), ','), '\n');
  }

  lemma EvidenceLineClean(e: Evidence)
    requires CleanEvidence(e)
    ensures Without(EvidenceLine(e), '\n')
  {
    EvidenceFieldsClean(e);
    JoinWithout(EvidenceFields(e), ',', '\n');
    WithoutPlus("evidence=", Join(EvidenceFields(e), ','), '\n');
  }

  lemma HeaderClean(s: Session, version: int, forms: Forms)
    requires CleanSession(s, forms)
    ensures AllWithout(Header(s, version, forms), '\n')
  {
    UuidClean(s.id);
    UuidClean(s.templateId);
    UuidClean(s.inspectorId);
    OptionalClean(s.vehicleId);
    OptionalClean(s.jobId);
    DecimalWithout(version, '\n');
    DecimalWithout(s.templateVersion, '\n');
    var h := Header(s, version, forms);
    WithoutPlus("session_id=", s.id, '\n');
    WithoutPlus("version=", Decimal(version), '\n');
    WithoutPlus("vehicle_id=", UuidOrDash(s.vehicleId), '\n');
    WithoutPlus("job_id=", UuidOrDash(s.jobId), '\n');
    WithoutPlus("template_id=", s.templateId, '\n');
    WithoutPlus("template_name=", s.templateName, '\n');
    WithoutPlus("template_version=", Decimal(s.templateVersion), '\n');
    WithoutPlus("inspector_id=", s.inspectorId, '\n');
    WithoutPlus("submitted_at=", SubmissionTimestamp(s, forms), '\n');
    forall p | p in h ensures Without(p, '\n') {}
  }

  lemma FooterClean(n: nat, m: nat)
    ensures Without(Footer(n, m), '\n')
  {
    DecimalWithout(n, '\n');
    DecimalWithout(m, '\n');
  }

  lemma LinesClean(s: Session, fs: seq<Finding>, es: seq<Evidence>, version: int, forms: Forms)
    requires Clean(s, fs, es, forms)
    ensures AllWithout(Lines(s, fs, es, version, forms), '\n')
  {
    HeaderClean(s, version, forms);
    FooterClean(|fs|, |es|);
    forall i | 0 <= i < |fs| ensures Without(FindingLines(fs, forms)[i], '\n') { FindingLineClean(fs[i], forms); }
    forall i | 0 <= i < |es| ensures Without(EvidenceLines(es)[i], '\n') { EvidenceLineClean(es[i]); }
  }

  // ----- reading the lines back -----

  lemma AfterPrefix(p: string, a: string, b: string)
    requires p + a == p + b
    ensures a == b
  {
    assert (p + a)[|p|..] == a && (p + b)[|p|..] == b;
  }

  lemma FindingLineInjective(f: Finding, g: Finding, forms: Forms)
    requires CleanFinding(f, forms) && CleanFinding(g, forms)
    ensures FindingLine(f, forms) == FindingLine(g, forms) <==> SameFinding(f, g, forms)
  {
    SameOptional(f.recordedBy, g.recordedBy);
    var a, b := FindingFields(f, forms), FindingFields(g, forms);
    if FindingLine(f, forms) == FindingLine(g, forms) {
      FindingFieldsClean(f, forms);
      FindingFieldsClean(g, forms);
      AfterPrefix("finding=", Join(a, ','), Join(b, ','));
      JoinInjective(a, b, ',');
      assert forall i :: 0 <= i < 6 ==> a[i] == b[i];
      assert a[0] == f.id && a[1] == f.itemKey && a[2] == ResultText(f.result) && a[3] == SeverityText(f.severity);
    }
    if SameFinding(f, g, forms) {
      assert a == b;
    }
  }

  lemma EvidenceLineInjective(e: Evidence, d: Evidence)
    requires CleanEvidence(e) && CleanEvidence(d)
    ensures EvidenceLine(e) == EvidenceLine(d) <==> SameEvidence(e, d)
  {
    SameOptional(e.findingId, d.findingId);
    var a, b := EvidenceFields(e), EvidenceFields(d);
    if EvidenceLine(e) == EvidenceLine(d) {
      EvidenceFieldsClean(e);
      EvidenceFieldsClean(d);
      AfterPrefix("evidence=", Join(a, ','), Join(b, ','));
      JoinInjective(a, b, ',');
      assert a[4] == b[4] && a[1] == KindText(e.kind);
    }
    if SameEvidence(e, d) {
      assert a == b;
    }
  }

  lemma HeaderInjective(s: Session, v: int, t: Session, w: int, forms: Forms)
    requires CleanSession(s, forms) && CleanSession(t, forms)
    ensures Header(s, v, forms) == Header(t, w, forms) <==> SameSession(s, t, forms) && v == w
  {
    SameOptional(s.vehicleId, t.vehicleId);
    SameOptional(s.jobId, t.jobId);
    var a, b := Header(s, v, forms), Header(t, w, forms);
    if a == b {
      assert forall i :: 0 <= i < 10 ==> a[i] == b[i];
      AfterPrefix("session_id=", s.id, t.id);
      AfterPrefix("version=", Decimal(v), Decimal(w));
      AfterPrefix("vehicle_id=", UuidOrDash(s.vehicleId), UuidOrDash(t.vehicleId));
      AfterPrefix("job_id=", UuidOrDash(s.jobId), UuidOrDash(t.jobId));
      AfterPrefix("template_id=", s.templateId, t.templateId);
      AfterPrefix("template_name=", s.templateName, t.templateName);
      AfterPrefix("template_version=", Decimal(s.templateVersion), Decimal(t.templateVersion));
      AfterPrefix("inspector_id=", s.inspectorId, t.inspectorId);
      AfterPrefix("submitted_at=", SubmissionTimestamp(s, forms), SubmissionTimestamp(t, forms));
      DecimalInjective(v, w);
      DecimalInjective(s.templateVersion, t.templateVersion);
    }
  }

  /** A finding line is neither an evidence line nor the last line. */
  lemma LineKinds(f: Finding, forms: Forms, e: Evidence, n: nat, m: nat)
    ensures FindingLine(f, forms) != EvidenceLine(e)
    ensures FindingLine(f, forms) != Footer(n, m)
  {
    assert FindingLine(f, forms)[0] == 'f' && EvidenceLine(e)[0] == 'e';
    assert FindingLine(f, forms)[7] == '=' && Footer(n, m)[7] == 's';
  }

  lemma FewerFindings(s: Session, fs: seq<Finding>, es: seq<Evidence>, v: int,
                      t: Session, gs: seq<Finding>, ds: seq<Evidence>, w: int, forms: Forms)
    requires |fs| < |gs|
    ensures Lines(s, fs, es, v, forms) != Lines(t, gs, ds, w, forms)
  {
    var a, b := Lines(s, fs, es, v, forms), Lines(t, gs, ds, w, forms);
    var i := 10 + |fs|;
    assert b[i] == FindingLine(gs[|fs|], forms);
    if |es| == 0 {
      assert a[i] == Footer(|fs|, |es|);
      LineKinds(gs[|fs|], forms, Evidence("", None, Photo, "", 0, false, "", 0), |fs|, |es|);
    } else {
      assert a[i] == EvidenceLine(es[0]);
      LineKinds(gs[|fs|], forms, es[0], 0, 0);
    }
  }

  /** Two canonical texts are equal exactly when the reports agree: the same session fields and version,
      and the same findings (up to the hash of their notes) and evidence, in order and number. */
  lemma Unambiguous(s: Session, fs: seq<Finding>, es: seq<Evidence>, v: int,
                    t: Session, gs: seq<Finding>, ds: seq<Evidence>, w: int, forms: Forms)
    requires Clean(s, fs, es, forms) && Clean(t, gs, ds, forms)
    ensures Canonical(s, fs, es, v, forms) == Canonical(t, gs, ds, w, forms) <==>
            && SameSession(s, t, forms) && v == w
            && |fs| == |gs| && (forall i :: 0 <= i < |fs| ==> SameFinding(fs[i], gs[i], forms))
            && |es| == |ds| && (forall i :: 0 <= i < |es| ==> SameEvidence(es[i], ds[i]))
  {
    LinesClean(s, fs, es, v, forms);
    LinesClean(t, gs, ds, w, forms);
    HeaderInjective(s, v, t, w, forms);
    if Canonical(s, fs, es, v, forms) == Canonical(t, gs, ds, w, forms) {
      JoinInjective(Lines(s, fs, es, v, forms), Lines(t, gs, ds, w, forms), '\n');
      if |fs| < |gs| {
        FewerFindings(s, fs, es, v, t, gs, ds, w, forms);
      } else if |gs| < |fs| {
        FewerFindings(t, gs, ds, w, s, fs, es, v, forms);
      }
      SameLines(s, fs, es, v, t, gs, ds, w, forms);
    }
    if |fs| == |gs| && |es| == |ds| {
      RowsAgree(fs, es, gs, ds, forms);
    }
  }

  lemma SameLines(s: Session, fs: seq<Finding>, es: seq<Evidence>, v: int,
                  t: Session, gs: seq<Finding>, ds: seq<Evidence>, w: int, forms: Forms)
    requires |fs| == |gs| && Lines(s, fs, es, v, forms) == Lines(t, gs, ds, w, forms)
    ensures |es| == |ds| && Header(s, v, forms) == Header(t, w, forms)
    ensures FindingLines(fs, forms) == FindingLines(gs, forms) && EvidenceLines(es) == EvidenceLines(ds)
  {
    LineParts(s, fs, es, v, forms);
    LineParts(t, gs, ds, w, forms);
    var n := |Lines(s, fs, es, v, forms)|;
    assert n == |fs| + |es| + 11 && n == |gs| + |ds| + 11;
  }

  lemma LineParts(s: Session, fs: seq<Finding>, es: seq<Evidence>, v: int, forms: Forms)
    ensures var a := Lines(s, fs, es, v, forms);
            && |a| == |fs| + |es| + 11
            && a[..10] == Header(s, v, forms)
            && a[10..10 + |fs|] == FindingLines(fs, forms)
            && a[10 + |fs|..10 + |fs| + |es|] == EvidenceLines(es)
  {
    var h, f, e := Header(s, v, forms), FindingLines(fs, forms), EvidenceLines(es);
    Parts(h, f, e, [Footer(|fs|, |es|)]);
  }

  lemma Parts(h: seq<string>, f: seq<string>, e: seq<string>, last: seq<string>)
    ensures var a := h + f + e + last;
            a[..|h|] == h && a[|h|..|h| + |f|] == f && a[|h| + |f|..|h| + |f| + |e|] == e
  {
  }

  lemma RowsAgree(fs: seq<Finding>, es: seq<Evidence>, gs: seq<Finding>, ds: seq<Evidence>, forms: Forms)
    requires |fs| == |gs| && |es| == |ds|
    requires forall f :: f in fs || f in gs ==> CleanFinding(f, forms)
    requires forall e :: e in es || e in ds ==> CleanEvidence(e)
    ensures FindingLines(fs, forms) == FindingLines(gs, forms) <==> forall i :: 0 <= i < |fs| ==> SameFinding(fs[i], gs[i], forms)
    ensures EvidenceLines(es) == EvidenceLines(ds) <==> forall i :: 0 <= i < |es| ==> SameEvidence(es[i], ds[i])
  {
    forall i | 0 <= i < |fs| ensures FindingLines(fs, forms)[i] == FindingLines(gs, forms)[i] <==> SameFinding(fs[i], gs[i], forms) {
      FindingLineInjective(fs[i], gs[i], forms);
    }
    forall i | 0 <= i < |es| ensures EvidenceLines(es)[i] == EvidenceLines(ds)[i] <==> SameEvidence(es[i], ds[i]) {
      EvidenceLineInjective(es[i], ds[i]);
    }
  }
}
