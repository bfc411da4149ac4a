/** The hypotheses about formats and codecs that the model takes as parameters can be met; and, under such
    formats, an issued report that does not verify and a listing that is not hashed in id order. */
module Instances {
  import opened Wrappers
  import opened Text
  import opened InspectionRecords
  import opened ReportText
  import opened ReportIntegrity
  import opened InspectionLifecycle
  import opened VehicleCursor
  import opened ReportSelection
  import Order = EvidenceOrder
  import Sorting
  import Base64Url

  // ----- a list of strings in one string -----

  /** A string behind its length. */
  function Netstring(s: string): string { Digits(|s|) + ":" + s }

  function Netstrings(parts: seq<string>): string {
    if parts == [] then "" else Netstring(parts[0]) + Netstrings(parts[1..])
  }

  lemma FirstNetstring(s: string, rest: string, t: string, other: string)
    requires Netstring(s) + rest == Netstring(t) + other
    ensures s == t && rest == other
  {
    assert Netstring(s) + rest == Digits(|s|) + [':'] + (s + rest);
    assert Netstring(t) + other == Digits(|t|) + [':'] + (t + other);
    assert Without(Digits(|s|), ':') && Without(Digits(|t|), ':');
    FirstPart(Digits(|s|), s + rest, Digits(|t|), t + other, ':');
    DigitsInjective(|s|, |t|);
    assert s == (s + rest)[..|s|] && t == (t + other)[..|t|];
    assert rest == (s + rest)[|s|..] && other == (t + other)[|t|..];
  }

  lemma {:induction false} NetstringsInjective(a: seq<string>, b: seq<string>)
    requires Netstrings(a) == Netstrings(b)
    ensures a == b
  {
    if a != [] && b != [] {
      FirstNetstring(a[0], Netstrings(a[1..]), b[0], Netstrings(b[1..]));
      NetstringsInjective(a[1..], b[1..]);
      assert a == [a[0]] + a[1..] && b == [b[0]] + b[1..];
    }
  }

  // ----- an injective stand-in for JSON -----

  function OptionText(id: Option<Uuid>): string { if id.None? then "" else "+" + id.value }

  function FindingText(f: Finding): string {
    Netstrings([f.id, f.itemKey, ResultText(f.result), SeverityText(f.severity), f.notes, OptionText(f.recordedBy), Decimal(f.createdAt)])
  }

  function SnapshotText(e: EvidenceSnapshot): string {
    Netstrings([e.id, OptionText(e.findingId), KindText(e.kind), e.contentHash, Decimal(e.capturedAt), if e.uploaded then "1" else "0"])
  }

  lemma OptionTextInjective(x: Option<Uuid>, y: Option<Uuid>)
    requires OptionText(x) == OptionText(y)
    ensures x == y
  {
    if x.Some? && y.Some? {
      assert OptionText(x)[1..] == x.value && OptionText(y)[1..] == y.value;
    }
  }

  lemma FindingTextInjective(f: Finding, g: Finding)
    requires FindingText(f) == FindingText(g)
    ensures f == g
  {
    var a := [f.id, f.itemKey, ResultText(f.result), SeverityText(f.severity), f.notes, OptionText(f.recordedBy), Decimal(f.createdAt)];
    var b := [g.id, g.itemKey, ResultText(g.result), SeverityText(g.severity), g.notes, OptionText(g.recordedBy), Decimal(g.createdAt)];
    NetstringsInjective(a, b);
    assert a[0] == b[0] && a[1] == b[1] && a[2] == b[2] && a[3] == b[3] && a[4] == b[4] && a[5] == b[5] && a[6] == b[6];
    OptionTextInjective(f.recordedBy, g.recordedBy);
    DecimalInjective(f.createdAt, g.createdAt);
  }

  lemma SnapshotTextInjective(e: EvidenceSnapshot, d: EvidenceSnapshot)
    requires SnapshotText(e) == SnapshotText(d)
    ensures e == d
  {
    var a := [e.id, OptionText(e.findingId), KindText(e.kind), e.contentHash, Decimal(e.capturedAt), if e.uploaded then "1" else "0"];
    var b := [d.id, OptionText(d.findingId), KindText(d.kind), d.contentHash, Decimal(d.capturedAt), if d.uploaded then "1" else "0"];
    NetstringsInjective(a, b);
    assert a[0] == b[0] && a[1] == b[1] && a[2] == b[2] && a[3] == b[3] && a[4] == b[4] && a[5] == b[5];
    OptionTextInjective(e.findingId, d.findingId);
    DecimalInjective(e.capturedAt, d.capturedAt);
  }

  function FindingsText(fs: seq<Finding>): string { Netstrings(seq(|fs|, i requires 0 <= i < |fs| => FindingText(fs[i]))) }

  function SnapshotsText(es: seq<EvidenceSnapshot>): string { Netstrings(seq(|es|, i requires 0 <= i < |es| => SnapshotText(es[i]))) }

  lemma FindingsTextInjective(fs: seq<Finding>, gs: seq<Finding>)
    requires FindingsText(fs) == FindingsText(gs)
    ensures fs == gs
  {
    var a, b := seq(|fs|, i requires 0 <= i < |fs| => FindingText(fs[i])), seq(|gs|, i requires 0 <= i < |gs| => FindingText(gs[i]));
    NetstringsInjective(a, b);
    assert |fs| == |a| == |b| == |gs|;
    forall i | 0 <= i < |fs| ensures fs[i] == gs[i] {
      assert a[i] == b[i];
      FindingTextInjective(fs[i], gs[i]);
    }
  }

  lemma SnapshotsTextInjective(es: seq<EvidenceSnapshot>, ds: seq<EvidenceSnapshot>)
    requires SnapshotsText(es) == SnapshotsText(ds)
    ensures es == ds
  {
    var a, b := seq(|es|, i requires 0 <= i < |es| => SnapshotText(es[i])), seq(|ds|, i requires 0 <= i < |ds| => SnapshotText(ds[i]));
    NetstringsInjective(a, b);
    assert |es| == |a| == |b| == |ds|;
    forall i | 0 <= i < |es| ensures es[i] == ds[i] {
      assert a[i] == b[i];
      SnapshotTextInjective(es[i], ds[i]);
    }
  }

  const PLAIN_FORMS: Forms := Forms((t: int) => Decimal(t), (s: string) => Digits(|s|))

  const PLAIN_FORMATS: Formats :=
    Formats(PLAIN_FORMS, (s: string) => Netstring(s), (fs: seq<Finding>) => FindingsText(fs),
            (es: seq<EvidenceSnapshot>) => SnapshotsText(es), (s: string) => s)

  /** Formats with injective snapshots that read back, and digests that are never empty and never collide. */
  lemma FormatsExist()
    ensures JsonInjective(PLAIN_FORMATS)
    ensures forall s, fs, es :: ReadsBack(s, fs, es, PLAIN_FORMATS)
    ensures forall text :: PLAIN_FORMATS.digest(text) != ""
    ensures forall x, y :: PLAIN_FORMATS.digest(x) == PLAIN_FORMATS.digest(y) ==> x == y
  {
    forall fs, gs | PLAIN_FORMATS.findingsJson(fs) == PLAIN_FORMATS.findingsJson(gs) ensures fs == gs { FindingsTextInjective(fs, gs); }
    forall es, ds | PLAIN_FORMATS.evidenceJson(es) == PLAIN_FORMATS.evidenceJson(ds) ensures es == ds { SnapshotsTextInjective(es, ds); }
    forall x, y | PLAIN_FORMATS.digest(x) == PLAIN_FORMATS.digest(y) ensures x == y {
      assert Netstring(x) + "" == Netstring(x) && Netstring(y) + "" == Netstring(y);
      FirstNetstring(x, "", y, "");
    }
  }

  // ----- clean rows -----

  /** Rows under these forms are clean whatever their notes and times: uuids where uuids belong, and no
      separator in a template name, an item key or a content hash. */
  lemma CleanExists(s: Session, fs: seq<Finding>, es: seq<Evidence>)
    requires IsUuid(s.id) && IsOptionalUuid(s.vehicleId) && IsOptionalUuid(s.jobId) && IsUuid(s.templateId) && IsUuid(s.inspectorId)
    requires Without(s.templateName, '\n')
    requires forall f :: f in fs ==> IsUuid(f.id) && CleanField(f.itemKey) && IsOptionalUuid(f.recordedBy)
    requires forall e :: e in es ==> IsUuid(e.id) && CleanField(e.contentHash) && IsOptionalUuid(e.findingId)
    ensures Clean(s, fs, es, PLAIN_FORMS)
  {
    DecimalWithout(if s.submittedAt.None? then ZERO_TIME else s.submittedAt.value, '\n');
    forall f | f in fs ensures CleanFinding(f, PLAIN_FORMS) {
      assert forall c :: c in Digits(|f.notes|) ==> IsDigit(c);
    }
  }

  // ----- an issued report that does not verify -----

  /** Snapshot columns that put a space before what they store, as a binary JSON column may. */
  const SPACING_FORMATS: Formats := PLAIN_FORMATS.(readBack := (s: string) => " " + s)

  const SPACING: Config := Config(map["T" := RACE_TEMPLATE], SPACING_FORMATS)

  const UNSTARTED: World :=
    World(Rows(Session(NIL_UUID, None, None, "T", "brakes", 1, NIL_UUID, Created, None), [], [], [], []), map[])

  /** A session on the template recorded, submitted and not overtaken. */
  lemma SubmittedReady() returns (before: seq<Action>)
    ensures var r := Run(UNSTARTED, before, SPACING).rows;
            r.session.status.Submitted? && r.session.templateId == "T" && Reportable(r, SPACING)
  {
    var a := [DoStart(true, 0), DoRecord(true, RACE_FIRST), DoAttach(true, RACE_PHOTO, 1), Submit(0, true)];
    var b := [Advance(0, 2), Advance(0, 2), Advance(0, 2)];
    RaceStart(UNSTARTED, SPACING);
    RaceChecked(Run(UNSTARTED, a, SPACING), SPACING);
    RunAppend(UNSTARTED, a, b, SPACING);
    before := a + b + [Advance(0, 3)];
    RunAppend(UNSTARTED, a + b, [Advance(0, 3)], SPACING);
    MoveAlone(Run(UNSTARTED, a + b, SPACING));
  }

  lemma MoveAlone(w: World)
    requires w.rows.session.status.InProgress? && w.rows.session.templateId == "T"
    requires w.rows.findings == [RACE_FIRST] && w.rows.evidence == [RACE_PHOTO] && w.live == map[0 := SubmitMove(w.rows.session)]
    ensures var r := Run(w, [Advance(0, 3)], SPACING).rows;
            r.session.status.Submitted? && r.session.templateId == "T" && Reportable(r, SPACING)
  {
    assert [Advance(0, 3)][1..] == [];
    var v := Act(w, Advance(0, 3), SPACING);
    assert Run(w, [Advance(0, 3)], SPACING) == Run(v, [], SPACING) == v;
    RaceListings(v.rows);
    RaceReady();
  }

  /** A run that issues a report whose hash still matches and which no verification ever accepts: the
      snapshot columns do not give back the bytes that were written. */
  lemma UnverifiableReportIssued()
    ensures exists actions: seq<Action> ::
              var r := Run(UNSTARTED, actions, SPACING).rows;
              var v := VerifyNow(r, None, SPACING.registry, SPACING.formats);
              Fresh(UNSTARTED) && v.Some? && v.value.hashMatch && !v.value.Verified()
  {
    var before := SubmittedReady();
    var w := Run(UNSTARTED, before, SPACING);
    FormatsExist();
    CanBeReportedIff(UNSTARTED, before, SPACING);
    var after :| Run(w, after, SPACING).rows.reports != [];
    RunAppend(UNSTARTED, before, after, SPACING);
    SealedForGood(UNSTARTED, before, after, SPACING);
    IssuedUnverified(before + after);
  }

  lemma IssuedUnverified(actions: seq<Action>)
    requires var r := Run(UNSTARTED, actions, SPACING).rows;
             r.reports != [] && r.session.templateId == "T"
    ensures var r := Run(UNSTARTED, actions, SPACING).rows;
            var v := VerifyNow(r, None, SPACING.registry, SPACING.formats);
            v.Some? && v.value.hashMatch && !v.value.Verified()
  {
    RunKeeps(UNSTARTED, actions, SPACING);
    var r := Run(UNSTARTED, actions, SPACING).rows;
    OneReport(r.reports[0], None);
    SpacingChanges(FindingsText(Select(ListFindings(r))));
    NormalisingColumnNeverVerifies(RACE_TEMPLATE, r.session, ListFindings(r), ListEvidence(r), REPORT_VERSION_INITIAL, SPACING_FORMATS);
  }

  lemma SpacingChanges(s: string)
    ensures " " + s != s
  {
    assert |" " + s| == |s| + 1;
  }

  // ----- a listing that is not hashed in id order -----

  const HIGH_UUID: Uuid := seq(36, _ => 'f')

  const EARLY: Evidence := Evidence(HIGH_UUID, None, Photo, RACE_HASH, 1, true, "", 1)
  const LATE: Evidence := Evidence(NIL_UUID, None, Photo, RACE_HASH, 1, true, "", 2)

  lemma HighIsUuid()
    ensures IsUuid(HIGH_UUID)
  {
  }

  lemma NilIsUuid()
    ensures IsUuid(NIL_UUID)
  {
  }

  lemma HashIsClean()
    ensures CleanField(RACE_HASH)
  {
    assert forall c :: c in RACE_HASH ==> c == '0';
  }

  /** Evidence created in the opposite order of its ids: the store lists it by creation, and the text that
      is hashed is not the one in id order. */
  lemma NotHashedById(s: Session, version: int)
    requires Clean(s, [], [], PLAIN_FORMS)
    ensures Sorting.Sorted(EvidenceBefore, [EARLY, LATE])
    ensures Canonical(s, [], [EARLY, LATE], version, PLAIN_FORMS) !=
            Canonical(s, [], Sorting.Sort(Order.ById, [EARLY, LATE]), version, PLAIN_FORMS)
  {
    var es := [EARLY, LATE];
    assert Less(NIL_UUID, HIGH_UUID) by { assert NIL_UUID[0] < HIGH_UUID[0]; }
    assert Order.ById(es[1], es[0]);
    assert HIGH_UUID != NIL_UUID by { assert HIGH_UUID[0] != NIL_UUID[0]; }
    HighIsUuid();
    NilIsUuid();
    HashIsClean();
    Order.HashedByIdIff(s, [], es, version, PLAIN_FORMS);
  }

  // ----- a faithful cursor codec -----

  ghost function ParseDecimal(s: string): Option<int> {
    if exists n :: Decimal(n) == s then
      var n :| Decimal(n) == s;
      Some(n)
    else None
  }

  lemma DecimalParses(n: int)
    ensures ParseDecimal(Decimal(n)) == Some(n)
  {
    DecimalInjective(ParseDecimal(Decimal(n)).value, n);
  }

  lemma FaithfulExists()
    ensures exists codec :: Faithful(codec)
  {
    var codec := Codec((t: int) => Decimal(t), (s: string) => ParseDecimal(s), (id: string) => Some(id));
    forall t ensures codec.parseTime(codec.format(t)) == Some(t) { DecimalParses(t); }
    forall t ensures Base64Url.IsBytes(codec.format(t)) && Without(codec.format(t), SEPARATOR) {
      DecimalWithout(t, SEPARATOR);
      DecimalBytes(t);
    }
    assert Faithful(codec);
  }

  lemma DecimalBytes(n: int)
    ensures Base64Url.IsBytes(Decimal(n))
  {
    var digits := if n < 0 then Digits(-n) else Digits(n);
    assert forall c :: c in Decimal(n) ==> c in digits || c == '-';
    forall i | 0 <= i < |Decimal(n)| ensures Decimal(n)[i] as int < 256 { assert Decimal(n)[i] in Decimal(n); }
  }
}
