/** The inspections store and service as they run: methods that update one session's rows in place, each
    proved to do what its process in the lifecycle does when nothing comes in between. */
module InspectionService {
  import opened Wrappers
  import opened InspectionRecords
  import opened ReportSelection
  import opened ReportText
  import opened ReportIntegrity
  import opened Life = InspectionLifecycle

  class InspectionStore {
    var session: Session
    var findings: seq<Finding>
    var evidence: seq<Evidence>
    var reports: seq<Report>
    var log: seq<Move>

    function State(): Rows
      reads this
    {
      Rows(session, findings, evidence, reports, log)
    }

    constructor (s: Session)
      ensures State() == Rows(s.(status := Created), [], [], [], [])
    {
      session := s.(status := Created);
      findings, evidence, reports, log := [], [], [], [];
    }

    method UpdateSessionStatus(expectedFrom: Status, newStatus: Status, now: int) returns (ok: bool)
      modifies this
      ensures (State(), ok) == UpdateStatus(old(State()), expectedFrom, newStatus, now)
    {
      var current := session.status;
      if current != expectedFrom {
        return false;
      }
      session := session.(status := newStatus);
      if newStatus.Submitted? {
        session := session.(submittedAt := Some(now));
      }
      log := log + [Move(current, newStatus)];
      ok := true;
    }

    method InsertFindingRow(f: Finding) returns (ok: bool)
      modifies this
      ensures (State(), ok) == InsertFinding(old(State()), f)
    {
      if session.status != InProgress {
        return false;
      }
      if exists i :: 0 <= i < |findings| && findings[i].id == f.id {
        return false;
      }
      findings := findings + [f];
      ok := true;
    }

    method InsertEvidenceRow(e: Evidence) returns (ok: bool)
      modifies this
      ensures (State(), ok) == InsertEvidence(old(State()), e)
    {
      if session.status != InProgress {
        return false;
      }
      if exists i :: 0 <= i < |evidence| && evidence[i].id == e.id {
        return false;
      }
      evidence := evidence + [e];
      ok := true;
    }

    method InsertReportRow(r: Report, formats: Formats) returns (ok: bool)
      modifies this
      ensures (State(), ok) == InsertReport(old(State()), r, formats)
    {
      if r.contentHash == "" {
        return false;
      }
      if session.status != Submitted {
        return false;
      }
      var top := LatestVersion(reports);
      if top + 1 != r.version {
        return false;
      }
      if |evidence| == 0 {
        return false;
      }
      reports := reports + [Stored(r, formats)];
      session := session.(status := ReportAvailable);
      log := log + [Move(Submitted, ReportAvailable)];
      ok := true;
    }
  }

  /** COALESCE(MAX(version), 0). */
  method LatestVersion(reports: seq<Report>) returns (m: int)
    ensures m == MaxVersion(reports)
    ensures m >= 0 && forall i :: 0 <= i < |reports| ==> reports[i].version <= m
  {
    m := 0;
    for i := 0 to |reports|
      invariant m == MaxVersion(reports[..i])
      invariant m >= 0 && forall j :: 0 <= j < i ==> reports[j].version <= m
    {
      assert reports[..i + 1][..i] == reports[..i];
      if reports[i].version > m {
        m := reports[i].version;
      }
    }
    assert reports[..|reports|] == reports;
  }

  class InspectionService {
    const store: InspectionStore
    const cfg: Config

    constructor (store: InspectionStore, cfg: Config)
      ensures this.store == store && this.cfg == cfg
    {
      this.store := store;
      this.cfg := cfg;
    }

    method StartSession(mayAct: bool, now: int) returns (o: Outcome)
      modifies store
      ensures (store.State(), o) == Start(old(store.State()), mayAct, now)
    {
      var sess := store.session;
      if !mayAct {
        return NotInspector;
      }
      if !CanTransition(sess.status, InProgress) {
        return WrongStatus;
      }
      var ok := store.UpdateSessionStatus(sess.status, InProgress, now);
      o := if ok then Done else Refused;
    }

    method RecordFinding(mayAct: bool, f: Finding) returns (o: Outcome)
      modifies store
      ensures (store.State(), o) == Record(old(store.State()), mayAct, f, cfg)
    {
      var sess := store.session;
      if !mayAct {
        return NotInspector;
      }
      if sess.status != InProgress {
        return WrongStatus;
      }
      if sess.templateId !in cfg.registry {
        return NoTemplate;
      }
      if !HasItem(cfg.registry[sess.templateId], f.itemKey) || !LegalSeverity(f.result, f.severity) {
        return Incomplete;
      }
      if |f.notes| > MAX_NOTES_LENGTH {
        return InvalidNotes;
      }
      var ok := store.InsertFindingRow(f);
      o := if ok then Done else Refused;
    }

    method AttachEvidence(mayAct: bool, e: Evidence, now: int) returns (o: Outcome)
      modifies store
      ensures (store.State(), o) == Attach(old(store.State()), mayAct, e, now)
    {
      var sess := store.session;
      if !mayAct {
        return NotInspector;
      }
      if sess.status != InProgress {
        return WrongStatus;
      }
      if !IsSha256Hex(e.contentHash) {
        return InvalidEvidence;
      }
      if e.capturedAt == ZERO_TIME || e.capturedAt > now + MAX_CAPTURED_AT_SKEW {
        return InvalidEvidence;
      }
      if |e.notes| > MAX_NOTES_LENGTH {
        return InvalidEvidence;
      }
      if e.findingId.Some? {
        var linked := false;
        for i := 0 to |store.findings|
          invariant linked <==> exists j :: 0 <= j < i && store.findings[j].id == e.findingId.value
        {
          if store.findings[i].id == e.findingId.value {
            linked := true;
          }
        }
        if !linked {
          return Incomplete;
        }
      }
      var ok := store.InsertEvidenceRow(e);
      o := if ok then Done else Refused;
    }

    method SubmitSession(mayAct: bool, now: int) returns (o: Outcome)
      modifies store
      ensures (store.State(), o) == Alone(old(store.State()), SubmitAsked(mayAct), cfg, now)
    {
      var sess := store.session;
      if !mayAct {
        return NotInspector;
      }
      if !CanTransition(sess.status, Submitted) {
        return WrongStatus;
      }
      if sess.templateId !in cfg.registry {
        return NoTemplate;
      }
      SubmitUnrolled(store.State(), cfg, now);
      var issues := CheckReportReadiness(cfg.registry[sess.templateId], ListFindings(store.State()), ListEvidence(store.State()));
      if |issues| > 0 {
        return Incomplete;
      }
      var ok := store.UpdateSessionStatus(sess.status, Submitted, now);
      o := if ok then Done else Refused;
    }

    method IssueReport(mayAct: bool, notes: string, now: int) returns (o: Outcome)
      modifies store
      ensures (store.State(), o) == Alone(old(store.State()), IssueAsked(mayAct, notes), cfg, now)
    {
      var sess := store.session;
      if !mayAct {
        return NotInspector;
      }
      if !CanTransition(sess.status, ReportAvailable) {
        return WrongStatus;
      }
      if sess.templateId !in cfg.registry {
        return NoTemplate;
      }
      IssueUnrolled(store.State(), notes, cfg, now);
      var findings := ListFindings(store.State());
      var evidence := ListEvidence(store.State());
      var issues := CheckReportReadiness(cfg.registry[sess.templateId], findings, evidence);
      if |issues| > 0 {
        return Incomplete;
      }
      var selected := SelectLatestFindings(findings);
      var text := BuildReportInput(sess, selected, evidence, REPORT_VERSION_INITIAL, cfg.formats.forms);
      var report := Report(REPORT_VERSION_INITIAL, sess.templateId, sess.templateName, sess.templateVersion,
                           cfg.formats.findingsJson(selected), cfg.formats.evidenceJson(Snapshots(evidence)),
                           |selected|, |evidence|, cfg.formats.digest(text));
      if |notes| > MAX_NOTES_LENGTH {
        return InvalidNotes;
      }
      var ok := store.InsertReportRow(report, cfg.formats);
      o := if ok then Done else Refused;
    }

    method VerifyReport(version: Option<int>) returns (v: Option<Verification>)
      ensures v == VerifyNow(store.State(), version, cfg.registry, cfg.formats)
    {
      var sess := store.session;
      var report := GetReport(store.reports, version);
      if report.None? {
        return None;
      }
      if sess.templateId !in cfg.registry {
        return None;
      }
      var findings := ListFindings(store.State());
      var evidence := ListEvidence(store.State());
      var selected := SelectLatestFindings(findings);
      var text := BuildReportInput(sess, selected, evidence, report.value.version, cfg.formats.forms);
      v := Some(Verification(cfg.formats.digest(text) == report.value.contentHash,
                             cfg.formats.findingsJson(selected) == report.value.findingsSnapshot,
                             cfg.formats.evidenceJson(Snapshots(evidence)) == report.value.evidenceSnapshot,
                             TemplateMatches(cfg.registry[sess.templateId], sess), |findings|, |evidence|));
    }
  }

  lemma SubmitUnrolled(r: Rows, cfg: Config, now: int)
    requires r.session.status.InProgress? && r.session.templateId in cfg.registry
    ensures var ready := Ready(cfg.registry[r.session.templateId], ListFindings(r), ListEvidence(r));
            var (after, ok) := UpdateStatus(r, InProgress, Submitted, now);
            Alone(r, SubmitAsked(true), cfg, now) == if ready then (after, if ok then Done else Refused) else (r, Incomplete)
  {
    var two := Phase.SubmitSession(r.session);
    var three := SubmitFindings(r.session, ListFindings(r));
    assert Alone(r, SubmitAsked(true), cfg, now) == Alone(r, two, cfg, now);
    assert Alone(r, two, cfg, now) == Alone(r, three, cfg, now);
    if Ready(cfg.registry[r.session.templateId], ListFindings(r), ListEvidence(r)) {
      assert Alone(r, three, cfg, now) == Alone(r, SubmitMove(r.session), cfg, now);
    }
  }

  lemma IssueUnrolled(r: Rows, notes: string, cfg: Config, now: int)
    requires r.session.status.Submitted? && r.session.templateId in cfg.registry
    ensures var ready := Ready(cfg.registry[r.session.templateId], ListFindings(r), ListEvidence(r));
            var (after, ok) := InsertReport(r, Due(r, cfg.formats), cfg.formats);
            Alone(r, IssueAsked(true, notes), cfg, now) ==
              if !ready then (r, Incomplete)
              else if |notes| > MAX_NOTES_LENGTH then (r, InvalidNotes)
              else (after, if ok then Done else Refused)
  {
    var two := IssueSession(r.session, notes);
    var three := IssueFindings(r.session, ListFindings(r), notes);
    assert Alone(r, IssueAsked(true, notes), cfg, now) == Alone(r, two, cfg, now);
    assert Alone(r, two, cfg, now) == Alone(r, three, cfg, now);
    if Ready(cfg.registry[r.session.templateId], ListFindings(r), ListEvidence(r)) && |notes| <= MAX_NOTES_LENGTH {
      assert Alone(r, three, cfg, now) == Alone(r, IssueInsert(Due(r, cfg.formats)), cfg, now);
    }
  }
}
