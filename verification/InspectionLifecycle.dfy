/** One inspection session's life: findings and evidence recorded, submitted, reported and verified, the
    service's operations interleaving one store transaction at a time and crashing anywhere
    (backend/inspections/service.go, store.go, statemachine.go). */
module InspectionLifecycle {
  import opened Wrappers
  import opened Text
  import opened Sorting
  import opened InspectionRecords
  import opened ReportSelection
  import opened ReportText
  import opened ReportIntegrity

  datatype Move = Move(from: Status, to: Status)

  /** The rows of one session. */
  datatype Rows = Rows(session: Session, findings: seq<Finding>, evidence: seq<Evidence>, reports: seq<Report>, log: seq<Move>)

  /** The template registry and the formats, fixed while the program runs. */
  datatype Config = Config(registry: map<Uuid, Template>, formats: Formats)

  predicate CanTransition(from: Status, to: Status) {
    (from.Created? && to.InProgress?) || (from.InProgress? && to.Submitted?) || (from.Submitted? && to.ReportAvailable?)
  }

  // ----- store transactions -----

  predicate FindingBefore(f: Finding, g: Finding) {
    f.createdAt < g.createdAt || (f.createdAt == g.createdAt && Less(f.id, g.id))
  }

  predicate EvidenceBefore(e: Evidence, d: Evidence) {
    e.createdAt < d.createdAt || (e.createdAt == d.createdAt && Less(e.id, d.id))
  }

  /** ORDER BY created_at, id. */
  function ListFindings(r: Rows): seq<Finding> { Sort(FindingBefore, r.findings) }

  function ListEvidence(r: Rows): seq<Evidence> { Sort(EvidenceBefore, r.evidence) }

  /** Guarded by `expected`; submission is stamped. */
  function UpdateStatus(r: Rows, expected: Status, to: Status, now: int): (Rows, bool) {
    if r.session.status != expected then (r, false)
    else
      var s := r.session.(status := to, submittedAt := if to.Submitted? then Some(now) else r.session.submittedAt);
      (r.(session := s, log := r.log + [Move(expected, to)]), true)
  }

  /** Sealed unless the session is in progress. */
  function InsertFinding(r: Rows, f: Finding): (Rows, bool) {
    if !r.session.status.InProgress? || exists i :: 0 <= i < |r.findings| && r.findings[i].id == f.id then (r, false)
    else (r.(findings := r.findings + [f]), true)
  }

  function InsertEvidence(r: Rows, e: Evidence): (Rows, bool) {
    if !r.session.status.InProgress? || exists i :: 0 <= i < |r.evidence| && r.evidence[i].id == e.id then (r, false)
    else (r.(evidence := r.evidence + [e]), true)
  }

  function MaxVersion(reports: seq<Report>): int {
    if reports == [] then 0
    else
      var m, v := MaxVersion(reports[..|reports| - 1]), reports[|reports| - 1].version;
      if v > m then v else m
  }

  /** Locks the session, re-checks SUBMITTED, the next version and the evidence rule, then inserts and
      moves in one transaction. */
  function InsertReport(r: Rows, report: Report, formats: Formats): (Rows, bool) {
    if report.contentHash == "" || !r.session.status.Submitted? || MaxVersion(r.reports) + 1 != report.version || r.evidence == [] then (r, false)
    else
      (r.(reports := r.reports + [Stored(report, formats)], session := r.session.(status := ReportAvailable),
          log := r.log + [Move(Submitted, ReportAvailable)]), true)
  }

  /** The latest version, or exactly the one asked for. */
  function GetReport(reports: seq<Report>, version: Option<int>): Option<Report> {
    if reports == [] then None
    else
      var best, last := GetReport(reports[..|reports| - 1], version), reports[|reports| - 1];
      if version.Some? then (if last.version == version.value then Some(last) else best)
      else if best.None? || last.version > best.value.version then Some(last)
      else best
  }

  // ----- service operations as processes -----

  const MAX_NOTES_LENGTH: nat := 2000

  /** `mayAct` says whether the actor passes the inspector check. */
  datatype Phase =
    | IssueAsked(mayAct: bool, notes: string)
    | IssueSession(s: Session, notes: string)
    | IssueFindings(s: Session, fs: seq<Finding>, notes: string)
    | IssueInsert(report: Report)
    | SubmitAsked(mayAct: bool)
    | SubmitSession(s: Session)
    | SubmitFindings(s: Session, fs: seq<Finding>)
    | SubmitMove(s: Session)

  datatype Outcome = NotInspector | WrongStatus | NoTemplate | Incomplete | InvalidNotes | InvalidEvidence | Refused | Done

  datatype Next = Continue(phase: Phase) | Finish(outcome: Outcome)

  function Step(r: Rows, p: Phase, cfg: Config, now: int): (Rows, Next) {
    match p
    case IssueAsked(mayAct, notes) =>
      (r, if !mayAct then Finish(NotInspector)
          else if !CanTransition(r.session.status, ReportAvailable) then Finish(WrongStatus)
          else if r.session.templateId !in cfg.registry then Finish(NoTemplate)
          else Continue(IssueSession(r.session, notes)))
    case IssueSession(s, notes) => (r, Continue(IssueFindings(s, ListFindings(r), notes)))
    case IssueFindings(s, fs, notes) =>
      var es := ListEvidence(r);
      (r, if s.templateId !in cfg.registry || !Ready(cfg.registry[s.templateId], fs, es) then Finish(Incomplete)
          else if |notes| > MAX_NOTES_LENGTH then Finish(InvalidNotes)
          else Continue(IssueInsert(Assemble(s, fs, es, REPORT_VERSION_INITIAL, cfg.formats))))
    case IssueInsert(report) =>
      var (after, ok) := InsertReport(r, report, cfg.formats);
      (after, Finish(if ok then Done else Refused))
    case SubmitAsked(mayAct) =>
      (r, if !mayAct then Finish(NotInspector)
          else if !CanTransition(r.session.status, Submitted) then Finish(WrongStatus)
          else if r.session.templateId !in cfg.registry then Finish(NoTemplate)
          else Continue(SubmitSession(r.session)))
    case SubmitSession(s) => (r, Continue(SubmitFindings(s, ListFindings(r))))
    case SubmitFindings(s, fs) =>
      (r, if s.templateId !in cfg.registry || !Ready(cfg.registry[s.templateId], fs, ListEvidence(r)) then Finish(Incomplete)
          else Continue(SubmitMove(s)))
    case SubmitMove(s) =>
      var (after, ok) := UpdateStatus(r, s.status, Submitted, now);
      (after, Finish(if ok then Done else Refused))
  }

  predicate LegalSeverity(r: FindingResult, s: Severity) {
    match r
    case Pass => !s.Red?
    case NotApplicable => s.Green?
    case _ => !s.Green?
  }

  /** RecordFinding; the status it reads first is checked again by the insert itself. */
  function Record(r: Rows, mayAct: bool, f: Finding, cfg: Config): (Rows, Outcome) {
    if !mayAct then (r, NotInspector)
    else if !r.session.status.InProgress? then (r, WrongStatus)
    else if r.session.templateId !in cfg.registry then (r, NoTemplate)
    else if !HasItem(cfg.registry[r.session.templateId], f.itemKey) || !LegalSeverity(f.result, f.severity) then (r, Incomplete)
    else if |f.notes| > MAX_NOTES_LENGTH then (r, InvalidNotes)
    else
      var (after, ok) := InsertFinding(r, f);
      (after, if ok then Done else Refused)
  }

  /** How far ahead of the clock a capture may be stamped: five minutes. */
  const MAX_CAPTURED_AT_SKEW: int := 300_000_000_000

  /** A SHA-256 in 64 lower-case hexadecimal digits. */
  predicate IsSha256Hex(s: string) { |s| == 64 && forall c :: c in s ==> IsHex(c) }

  predicate ValidEvidence(e: Evidence, now: int) {
    IsSha256Hex(e.contentHash) && e.capturedAt != ZERO_TIME && e.capturedAt <= now + MAX_CAPTURED_AT_SKEW && |e.notes| <= MAX_NOTES_LENGTH
  }

  /** AttachEvidence; the link to a finding is checked against rows that only ever grow. */
  function Attach(r: Rows, mayAct: bool, e: Evidence, now: int): (Rows, Outcome) {
    if !mayAct then (r, NotInspector)
    else if !r.session.status.InProgress? then (r, WrongStatus)
    else if !ValidEvidence(e, now) then (r, InvalidEvidence)
    else if e.findingId.Some? && !(exists i :: 0 <= i < |r.findings| && r.findings[i].id == e.findingId.value) then (r, Incomplete)
    else
      var (after, ok) := InsertEvidence(r, e);
      (after, if ok then Done else Refused)
  }

  function Start(r: Rows, mayAct: bool, now: int): (Rows, Outcome) {
    if !mayAct then (r, NotInspector)
    else if !CanTransition(r.session.status, InProgress) then (r, WrongStatus)
    else
      var (after, ok) := UpdateStatus(r, r.session.status, InProgress, now);
      (after, if ok then Done else Refused)
  }

  // ----- the interleaving -----

  datatype World = World(rows: Rows, live: map<nat, Phase>)

  datatype Action =
    | DoStart(mayAct: bool, now: int)
    | DoRecord(mayAct: bool, f: Finding)
    | DoAttach(mayAct: bool, e: Evidence, now: int)
    | Submit(pid: nat, mayAct: bool)
    | Issue(pid: nat, mayAct: bool, notes: string)
    | Advance(pid: nat, now: int)
    | Crash(pid: nat)

  function Act(w: World, a: Action, cfg: Config): World {
    match a
    case DoStart(mayAct, now) => w.(rows := Start(w.rows, mayAct, now).0)
    case DoRecord(mayAct, f) => w.(rows := Record(w.rows, mayAct, f, cfg).0)
    case DoAttach(mayAct, e, now) => w.(rows := Attach(w.rows, mayAct, e, now).0)
    case Submit(p, mayAct) => if p in w.live then w else w.(live := w.live[p := SubmitAsked(mayAct)])
    case Issue(p, mayAct, notes) => if p in w.live then w else w.(live := w.live[p := IssueAsked(mayAct, notes)])
    case Advance(p, now) =>
      if p !in w.live then w
      else
        var (rows, next) := Step(w.rows, w.live[p], cfg, now);
        World(rows, if next.Continue? then w.live[p := next.phase] else w.live - {p})
    case Crash(p) => w.(live := w.live - {p})
  }

  function Run(w: World, actions: seq<Action>, cfg: Config): World
    decreases |actions|
  {
    if actions == [] then w else Run(Act(w, actions[0], cfg), actions[1..], cfg)
  }

  /** A session just created. */
  predicate Fresh(w: World) {
    w.rows.session.status.Created? && w.rows.findings == [] && w.rows.evidence == [] && w.rows.reports == [] && w.rows.log == [] && w.live == map[]
  }

  // ----- the invariant -----

  predicate Sealed(s: Status) { s.Submitted? || s.ReportAvailable? }

  predicate SameButStatus(s: Session, t: Session) { s.(status := t.status) == t }

  /** The moves lead from CREATED to a status, by legal edges only. */
  predicate LegalPath(log: seq<Move>, to: Status) {
    if log == [] then to.Created?
    else log[|log| - 1].to == to && CanTransition(log[|log| - 1].from, to) && LegalPath(log[..|log| - 1], log[|log| - 1].from)
  }

  /** The report the rows would be given. */
  function Due(r: Rows, formats: Formats): Report {
    Assemble(r.session, ListFindings(r), ListEvidence(r), REPORT_VERSION_INITIAL, formats)
  }

  predicate Reportable(r: Rows, cfg: Config) {
    r.session.templateId in cfg.registry && Ready(cfg.registry[r.session.templateId], ListFindings(r), ListEvidence(r))
  }

  predicate RowsOk(r: Rows, cfg: Config) {
    && LegalPath(r.log, r.session.status)
    && (if r.session.status.ReportAvailable? then r.reports == [Stored(Due(r, cfg.formats), cfg.formats)] && Reportable(r, cfg)
        else r.reports == [])
  }

  predicate PhaseOk(r: Rows, p: Phase, cfg: Config) {
    match p
    case IssueSession(s, _) => Sealed(r.session.status) && SameButStatus(s, r.session)
    case IssueFindings(s, fs, _) => Sealed(r.session.status) && SameButStatus(s, r.session) && fs == ListFindings(r)
    case IssueInsert(report) => Sealed(r.session.status) && report == Due(r, cfg.formats) && Reportable(r, cfg)
    case SubmitSession(s) => s.status.InProgress?
    case SubmitFindings(s, _) => s.status.InProgress?
    case SubmitMove(s) => s.status.InProgress?
    case _ => true
  }

  predicate LiveOk(r: Rows, live: map<nat, Phase>, cfg: Config) {
    forall p :: p in live ==> PhaseOk(r, live[p], cfg)
  }

  /** Rows that are sealed stay as they are. */
  predicate Evolves(r: Rows, t: Rows) {
    Sealed(r.session.status) ==>
      && Sealed(t.session.status) && SameButStatus(r.session, t.session) && t.findings == r.findings && t.evidence == r.evidence
      && (r.session.status.ReportAvailable? ==> t.session.status.ReportAvailable?)
  }

  lemma DueKept(r: Rows, t: Rows, cfg: Config)
    requires Evolves(r, t) && Sealed(r.session.status)
    ensures Due(t, cfg.formats) == Due(r, cfg.formats) && (Reportable(t, cfg) <==> Reportable(r, cfg))
    ensures ListFindings(t) == ListFindings(r) && ListEvidence(t) == ListEvidence(r)
  {
    var fs := Select(ListFindings(r));
    assert Header(t.session, 1, cfg.formats.forms) == Header(r.session, 1, cfg.formats.forms);
  }

  lemma PhaseKept(r: Rows, t: Rows, p: Phase, cfg: Config)
    requires Evolves(r, t) && PhaseOk(r, p, cfg)
    ensures PhaseOk(t, p, cfg)
  {
    if Sealed(r.session.status) {
      DueKept(r, t, cfg);
    }
  }

  lemma DirectKeeps(r: Rows, a: Action, cfg: Config)
    requires RowsOk(r, cfg)
    ensures var t := match a
                     case DoStart(mayAct, now) => Start(r, mayAct, now).0
                     case DoRecord(mayAct, f) => Record(r, mayAct, f, cfg).0
                     case DoAttach(mayAct, e, now) => Attach(r, mayAct, e, now).0
                     case _ => r;
            RowsOk(t, cfg) && Evolves(r, t)
  {
    assert forall m: Move :: (r.log + [m])[..|r.log|] == r.log;
  }

  lemma StatusIgnored(s: Session, t: Session, fs: seq<Finding>, es: seq<Evidence>, cfg: Config)
    requires SameButStatus(s, t)
    ensures Assemble(s, fs, es, REPORT_VERSION_INITIAL, cfg.formats) == Assemble(t, fs, es, REPORT_VERSION_INITIAL, cfg.formats)
  {
    assert Header(s, 1, cfg.formats.forms) == Header(t, 1, cfg.formats.forms);
  }

  lemma IssueStepKeeps(r: Rows, p: Phase, cfg: Config, now: int)
    requires RowsOk(r, cfg) && PhaseOk(r, p, cfg) && (p.IssueAsked? || p.IssueSession? || p.IssueFindings? || p.IssueInsert?)
    ensures var (t, next) := Step(r, p, cfg, now);
            RowsOk(t, cfg) && Evolves(r, t) && (next.Continue? ==> PhaseOk(t, next.phase, cfg))
  {
    if p.IssueFindings? {
      StatusIgnored(p.s, r.session, p.fs, ListEvidence(r), cfg);
    }
    if p.IssueInsert? {
      var t := Step(r, p, cfg, now).0;
      assert forall m: Move :: (r.log + [m])[..|r.log|] == r.log;
      DueKept(r, t, cfg);
      assert [] + [Stored(p.report, cfg.formats)] == [Stored(p.report, cfg.formats)];
    }
  }

  lemma SubmitStepKeeps(r: Rows, p: Phase, cfg: Config, now: int)
    requires RowsOk(r, cfg) && PhaseOk(r, p, cfg) && (p.SubmitAsked? || p.SubmitSession? || p.SubmitFindings? || p.SubmitMove?)
    ensures var (t, next) := Step(r, p, cfg, now);
            RowsOk(t, cfg) && Evolves(r, t) && (next.Continue? ==> PhaseOk(t, next.phase, cfg))
  {
    assert forall m: Move :: (r.log + [m])[..|r.log|] == r.log;
  }

  lemma ActKeeps(w: World, a: Action, cfg: Config)
    requires RowsOk(w.rows, cfg) && LiveOk(w.rows, w.live, cfg)
    ensures var v := Act(w, a, cfg);
            RowsOk(v.rows, cfg) && LiveOk(v.rows, v.live, cfg) && Evolves(w.rows, v.rows)
  {
    var v := Act(w, a, cfg);
    if a.Advance? && a.pid in w.live {
      var p := w.live[a.pid];
      assert PhaseOk(w.rows, p, cfg);
      if p.IssueAsked? || p.IssueSession? || p.IssueFindings? || p.IssueInsert? {
        IssueStepKeeps(w.rows, p, cfg, a.now);
      } else {
        SubmitStepKeeps(w.rows, p, cfg, a.now);
      }
    } else {
      DirectKeeps(w.rows, a, cfg);
    }
    forall q | q in v.live ensures PhaseOk(v.rows, v.live[q], cfg) {
      if q in w.live && v.live[q] == w.live[q] {
        PhaseKept(w.rows, v.rows, w.live[q], cfg);
      }
    }
  }

  lemma {:induction false} RunKeeps(w: World, actions: seq<Action>, cfg: Config)
    requires RowsOk(w.rows, cfg) && LiveOk(w.rows, w.live, cfg)
    ensures var v := Run(w, actions, cfg);
            RowsOk(v.rows, cfg) && LiveOk(v.rows, v.live, cfg) && Evolves(w.rows, v.rows)
    decreases |actions|
  {
    if actions != [] {
      ActKeeps(w, actions[0], cfg);
      RunKeeps(Act(w, actions[0], cfg), actions[1..], cfg);
    }
  }

  // ----- main theorems -----

  /** The session's moves are always legal, in order and unbroken; it has one report when it is
      REPORT_AVAILABLE and none before; and a report is only ever issued on rows that are ready. */
  lemma OneReportPerSession(w: World, actions: seq<Action>, cfg: Config)
    requires Fresh(w)
    ensures var r := Run(w, actions, cfg).rows;
            && LegalPath(r.log, r.session.status)
            && |r.reports| == (if r.session.status.ReportAvailable? then 1 else 0)
            && (r.session.status.ReportAvailable? ==> Reportable(r, cfg))
  {
    RunKeeps(w, actions, cfg);
  }

  /** From submission on, nothing any operation does changes the findings, the evidence or the session
      itself, its status apart. */
  lemma SealedForGood(w: World, before: seq<Action>, after: seq<Action>, cfg: Config)
    requires Fresh(w) && Sealed(Run(w, before, cfg).rows.session.status)
    ensures var r, t := Run(w, before, cfg).rows, Run(Run(w, before, cfg), after, cfg).rows;
            t.findings == r.findings && t.evidence == r.evidence && SameButStatus(r.session, t.session) && Sealed(t.session.status)
  {
    RunKeeps(w, before, cfg);
    RunKeeps(Run(w, before, cfg), after, cfg);
  }

  /** Service.Verify on the rows as they are, under the registry of the day; None when there is no such
      report or the template is not registered. */
  function VerifyNow(r: Rows, version: Option<int>, registry: map<Uuid, Template>, formats: Formats): Option<Verification> {
    var report := GetReport(r.reports, version);
    if report.None? || r.session.templateId !in registry then None
    else Some(Verify(registry[r.session.templateId], r.session, ListFindings(r), ListEvidence(r), report.value, formats))
  }

  /** Once a report is issued, every request for it, by version or for the latest, gets the same answer in
      every later state, whatever is done in between: no such report, or verified, exactly when the
      registered template still matches the session and the snapshot columns return the bytes that were
      written. */
  lemma IssuedVerifiesForever(w: World, before: seq<Action>, after: seq<Action>, cfg: Config, registry: map<Uuid, Template>, version: Option<int>)
    requires Fresh(w) && Run(w, before, cfg).rows.reports != []
    ensures var r, t := Run(w, before, cfg).rows, Run(Run(w, before, cfg), after, cfg).rows;
            && VerifyNow(t, version, registry, cfg.formats) == VerifyNow(r, version, registry, cfg.formats)
            && (VerifyNow(r, version, registry, cfg.formats).Some? <==>
                  r.session.templateId in registry && (version.None? || version.value == REPORT_VERSION_INITIAL))
            && (VerifyNow(r, version, registry, cfg.formats).Some? ==>
                  (VerifyNow(t, version, registry, cfg.formats).value.Verified() <==>
                   TemplateMatches(registry[r.session.templateId], r.session)
                   && ReadsBack(r.session, ListFindings(r), ListEvidence(r), cfg.formats)))
  {
    RunKeeps(w, before, cfg);
    RunKeeps(Run(w, before, cfg), after, cfg);
    var r, t := Run(w, before, cfg).rows, Run(Run(w, before, cfg), after, cfg).rows;
    DueKept(r, t, cfg);
    assert t.reports == r.reports;
    OneReport(r.reports[0], version);
    if r.session.templateId in registry {
      SameVerdict(registry[r.session.templateId], r.session, t.session, ListFindings(r), ListEvidence(r), r.reports[0], cfg.formats);
      AssembledVerifies(registry[r.session.templateId], r.session, ListFindings(r), ListEvidence(r), REPORT_VERSION_INITIAL, cfg.formats);
    }
  }

  lemma OneReport(r: Report, version: Option<int>)
    ensures GetReport([r], version) == if version.None? || version.value == r.version then Some(r) else None
  {
    assert [r][..0] == [];
  }

  lemma SameVerdict(t: Template, s: Session, s': Session, fs: seq<Finding>, es: seq<Evidence>, r: Report, formats: Formats)
    requires SameButStatus(s, s')
    ensures Verify(t, s, fs, es, r, formats) == Verify(t, s', fs, es, r, formats)
  {
    assert Header(s, r.version, formats.forms) == Header(s', r.version, formats.forms);
  }

  // ----- submission -----

  /** What a submitted session can still come to: reported if its rows are ready, and never otherwise. */
  lemma StuckUnlessReady(w: World, before: seq<Action>, after: seq<Action>, cfg: Config)
    requires Fresh(w) && Run(w, before, cfg).rows.session.status.Submitted?
    requires !Reportable(Run(w, before, cfg).rows, cfg)
    ensures var t := Run(Run(w, before, cfg), after, cfg).rows;
            t.session.status.Submitted? && t.reports == []
  {
    RunKeeps(w, before, cfg);
    RunKeeps(Run(w, before, cfg), after, cfg);
    DueKept(Run(w, before, cfg).rows, Run(Run(w, before, cfg), after, cfg).rows, cfg);
  }

  function Alone(r: Rows, p: Phase, cfg: Config, now: int): (Rows, Outcome)
    decreases match p case IssueAsked(_, _) => 3 case IssueSession(_, _) => 2 case IssueFindings(_, _, _) => 1
                      case SubmitAsked(_) => 3 case SubmitSession(_) => 2 case SubmitFindings(_, _) => 1 case _ => 0
  {
    var (t, next) := Step(r, p, cfg, now);
    if next.Finish? then (t, next.outcome) else Alone(t, next.phase, cfg, now)
  }

  /** An uninterrupted IssueReport by the inspector succeeds on a submitted session exactly when its rows
      are ready and the notes are short enough. */
  lemma SubmittedAndReadyIsReported(w: World, before: seq<Action>, cfg: Config, notes: string, now: int)
    requires Fresh(w) && Run(w, before, cfg).rows.session.status.Submitted?
    requires forall text :: cfg.formats.digest(text) != ""
    ensures var r := Run(w, before, cfg).rows;
            Alone(r, IssueAsked(true, notes), cfg, now).1 == Done <==> Reportable(r, cfg) && |notes| <= MAX_NOTES_LENGTH
  {
    RunKeeps(w, before, cfg);
    var r := Run(w, before, cfg).rows;
    ListedEvidence(r);
    if r.session.templateId in cfg.registry {
      var two := IssueSession(r.session, notes);
      var three := IssueFindings(r.session, ListFindings(r), notes);
      assert Alone(r, IssueAsked(true, notes), cfg, now) == Alone(r, two, cfg, now);
      assert Alone(r, two, cfg, now) == Alone(r, three, cfg, now);
      var report := Due(r, cfg.formats);
      assert InsertReport(r, report, cfg.formats).1 <==> r.evidence != [];
      assert Alone(r, IssueInsert(report), cfg, now).1 == Done <==> r.evidence != [];
      assert Reportable(r, cfg) && |notes| <= MAX_NOTES_LENGTH ==>
          Alone(r, three, cfg, now) == Alone(r, IssueInsert(report), cfg, now);
    }
  }

  lemma ListedEvidence(r: Rows)
    ensures ListEvidence(r) == [] <==> r.evidence == []
  {
    SortPermutes(EvidenceBefore, r.evidence);
    assert |multiset(r.evidence)| == |r.evidence| && |multiset(ListEvidence(r))| == |ListEvidence(r)|;
  }

  predicate SameRecords(r: Rows, t: Rows) {
    t.session == r.session && t.findings == r.findings && t.evidence == r.evidence
  }

  /** Submit checks readiness and moves the session in separate transactions, and the move seals the rows it
      finds: the submitted session is reportable exactly when those were ready, so whenever they have not
      changed since the check. */
  lemma MoveSealsWhatItFinds(r: Rows, s: Session, t: Rows, cfg: Config, now: int)
    requires s.status.InProgress? && t.session.status.InProgress?
    ensures var (after, next) := Step(t, SubmitMove(s), cfg, now);
            && next == Finish(Done) && after.session.status.Submitted? && (Reportable(after, cfg) <==> Reportable(t, cfg))
            && (Step(r, SubmitFindings(s, ListFindings(r)), cfg, now).1 == Continue(SubmitMove(s)) && SameRecords(r, t) && r.session == s ==>
                  Reportable(after, cfg))
  {
  }

  /** A crashed process's number is free again: an issue started under it and left alone. */
  function IssueAlone(p: nat, now: int): seq<Action> {
    [Crash(p), Issue(p, true, ""), Advance(p, now), Advance(p, now), Advance(p, now), Advance(p, now)]
  }

  lemma IssueAloneIsRun(w: World, cfg: Config, now: int)
    requires w.rows.session.status.Submitted?
    ensures Run(w, IssueAlone(0, now), cfg).rows == Alone(w.rows, IssueAsked(true, ""), cfg, now).0
  {
    var a := Advance(0, now);
    RunTwo(w, Crash(0), Issue(0, true, ""), [a, a, a, a], cfg);
    assert IssueAlone(0, now) == [Crash(0), Issue(0, true, "")] + [a, a, a, a];
    var u := Act(Act(w, Crash(0), cfg), Issue(0, true, ""), cfg);
    assert Advances(4, now) == [a, a, a, a];
    AdvanceAll(u, IssueAsked(true, ""), 4, cfg, now);
  }

  function StepsLeft(p: Phase): nat {
    match p case IssueAsked(_, _) => 4 case IssueSession(_, _) => 3 case IssueFindings(_, _, _) => 2
            case SubmitAsked(_) => 4 case SubmitSession(_) => 3 case SubmitFindings(_, _) => 2 case _ => 1
  }

  function Advances(n: nat, now: int): seq<Action> { seq(n, _ => Advance(0, now)) }

  /** Uninterrupted, an operation is a run of the lifecycle. */
  lemma {:induction false} AdvanceAll(w: World, p: Phase, n: nat, cfg: Config, now: int)
    requires 0 in w.live && w.live[0] == p && StepsLeft(p) <= n
    ensures Run(w, Advances(n, now), cfg).rows == Alone(w.rows, p, cfg, now).0
    decreases n
  {
    var (rows, next) := Step(w.rows, p, cfg, now);
    var v := Act(w, Advance(0, now), cfg);
    assert Advances(n, now)[1..] == Advances(n - 1, now);
    if next.Continue? {
      AdvanceAll(v, next.phase, n - 1, cfg, now);
    } else {
      AdvanceGone(v, n - 1, cfg, now);
    }
  }

  lemma {:induction false} AdvanceGone(w: World, n: nat, cfg: Config, now: int)
    requires 0 !in w.live
    ensures Run(w, Advances(n, now), cfg) == w
    decreases n
  {
    if n > 0 {
      assert Advances(n, now)[1..] == Advances(n - 1, now);
      AdvanceGone(w, n - 1, cfg, now);
    }
  }

  /** A submitted session can still come to have a report exactly when its rows are ready. */
  lemma CanBeReportedIff(w: World, before: seq<Action>, cfg: Config)
    requires Fresh(w) && Run(w, before, cfg).rows.session.status.Submitted?
    requires forall text :: cfg.formats.digest(text) != ""
    ensures (exists after :: Run(Run(w, before, cfg), after, cfg).rows.reports != []) <==> Reportable(Run(w, before, cfg).rows, cfg)
  {
    var v := Run(w, before, cfg);
    RunKeeps(w, before, cfg);
    if Reportable(v.rows, cfg) {
      SubmittedAndReadyIsReported(w, before, cfg, "", 0);
      IssueAloneIsRun(v, cfg, 0);
      AloneDoneReports(v.rows, cfg);
      assert Run(v, IssueAlone(0, 0), cfg).rows.reports != [];
    } else {
      forall after ensures Run(v, after, cfg).rows.reports == [] { StuckUnlessReady(w, before, after, cfg); }
    }
  }

  lemma AloneDoneReports(r: Rows, cfg: Config)
    requires r.session.status.Submitted? && Alone(r, IssueAsked(true, ""), cfg, 0).1 == Done
    ensures Alone(r, IssueAsked(true, ""), cfg, 0).0.reports != []
  {
    var two := IssueSession(r.session, "");
    var three := IssueFindings(r.session, ListFindings(r), "");
    assert Alone(r, IssueAsked(true, ""), cfg, 0) == Alone(r, two, cfg, 0);
    assert Alone(r, two, cfg, 0) == Alone(r, three, cfg, 0);
    var report := Due(r, cfg.formats);
    assert Alone(r, three, cfg, 0) == Alone(r, IssueInsert(report), cfg, 0);
  }

  /** In every reachable state: the move of a submission decides it. A report can follow in some continuation
      exactly when the rows it finds, whatever its readiness check saw, are ready. */
  lemma MoveDecides(w: World, before: seq<Action>, p: nat, now: int, cfg: Config)
    requires Fresh(w) && Run(w, before, cfg).rows.session.status.InProgress?
    requires p in Run(w, before, cfg).live && Run(w, before, cfg).live[p].SubmitMove?
    requires forall text :: cfg.formats.digest(text) != ""
    ensures var v := Run(w, before, cfg);
            var u := Act(v, Advance(p, now), cfg);
            u.rows.session.status.Submitted? && ((exists after :: Run(u, after, cfg).rows.reports != []) <==> Reportable(v.rows, cfg))
  {
    var v := Run(w, before, cfg);
    var s := v.live[p].s;
    RunKeeps(w, before, cfg);
    assert PhaseOk(v.rows, v.live[p], cfg);
    MoveSealsWhatItFinds(v.rows, s, v.rows, cfg, now);
    var move := [Advance(p, now)];
    RunAppend(w, before, move, cfg);
    assert move[1..] == [];
    assert Run(v, move, cfg) == Run(Act(v, move[0], cfg), [], cfg) == Act(v, Advance(p, now), cfg);
    CanBeReportedIff(w, before + move, cfg);
  }

  // ----- a submission overtaken by a finding -----

  const RACE_HASH: string := seq(64, _ => '0')
  const RACE_TEMPLATE: Template := Template("T", "brakes", 1, [TemplateItem("brakes", true)])
  const RACE_FIRST: Finding := Finding("A", "brakes", Pass, Green, "", None, 1)
  const RACE_LATER: Finding := Finding("B", "brakes", Fail, Red, "", None, 2)
  const RACE_PHOTO: Evidence := Evidence("E", None, Photo, RACE_HASH, 1, true, "", 1)

  /** A finding recorded between the readiness check and the move is not seen by the check: the session
      is submitted with a RED finding that has no evidence, and can never be reported. */
  lemma OvertakenSubmission(w: World, cfg: Config, after: seq<Action>)
    requires Fresh(w) && w.rows.session.templateId == "T" && cfg.registry == map["T" := RACE_TEMPLATE]
    ensures exists before ::
              var v := Run(w, before, cfg);
              v.rows.session.status.Submitted? && !Reportable(v.rows, cfg) && Run(v, after, cfg).rows.reports == []
  {
    var a := [DoStart(true, 0), DoRecord(true, RACE_FIRST), DoAttach(true, RACE_PHOTO, 1), Submit(0, true)];
    var b := [Advance(0, 2), Advance(0, 2), Advance(0, 2)];
    var c := [DoRecord(true, RACE_LATER), Advance(0, 3)];
    RaceStart(w, cfg);
    RaceChecked(Run(w, a, cfg), cfg);
    RaceOvertaken(Run(Run(w, a, cfg), b, cfg), cfg);
    RunAppend(w, a, b, cfg);
    RunAppend(w, a + b, c, cfg);
    StuckUnlessReady(w, a + b + c, after, cfg);
  }

  lemma RaceStart(w: World, cfg: Config)
    requires Fresh(w) && w.rows.session.templateId == "T" && cfg.registry == map["T" := RACE_TEMPLATE]
    ensures var v := Run(w, [DoStart(true, 0), DoRecord(true, RACE_FIRST), DoAttach(true, RACE_PHOTO, 1), Submit(0, true)], cfg);
            v.rows.session == w.rows.session.(status := InProgress) && v.rows.findings == [RACE_FIRST] && v.rows.evidence == [RACE_PHOTO]
            && v.live == map[0 := SubmitAsked(true)]
  {
    var a, b, c, d := DoStart(true, 0), DoRecord(true, RACE_FIRST), DoAttach(true, RACE_PHOTO, 1), Submit(0, true);
    assert HasItem(RACE_TEMPLATE, "brakes") by { assert RACE_TEMPLATE.items[0].key == "brakes"; }
    RunTwo(w, a, b, [c, d], cfg);
    RunTwo(Act(Act(w, a, cfg), b, cfg), c, d, [], cfg);
    assert [a, b] + [c, d] == [a, b, c, d] && [c, d] + [] == [c, d];
  }

  lemma RaceChecked(w: World, cfg: Config)
    requires w.rows.session.status.InProgress? && w.rows.session.templateId == "T" && cfg.registry == map["T" := RACE_TEMPLATE]
    requires w.rows.findings == [RACE_FIRST] && w.rows.evidence == [RACE_PHOTO] && w.live == map[0 := SubmitAsked(true)]
    ensures Run(w, [Advance(0, 2), Advance(0, 2), Advance(0, 2)], cfg) == World(w.rows, map[0 := SubmitMove(w.rows.session)])
  {
    var a := Advance(0, 2);
    RaceListings(w.rows);
    RaceReady();
    RunTwo(w, a, a, [a], cfg);
    assert [a, a] + [a] == [a, a, a] && [a][1..] == [];
    assert Act(w, a, cfg) == World(w.rows, map[0 := SubmitSession(w.rows.session)]);
    var w2 := World(w.rows, map[0 := SubmitFindings(w.rows.session, [RACE_FIRST])]);
    assert Act(Act(w, a, cfg), a, cfg) == w2;
    assert Act(w2, a, cfg) == World(w.rows, map[0 := SubmitMove(w.rows.session)]);
  }

  lemma RaceOvertaken(w: World, cfg: Config)
    requires w.rows.session.status.InProgress? && w.rows.session.templateId == "T" && cfg.registry == map["T" := RACE_TEMPLATE]
    requires w.rows.findings == [RACE_FIRST] && w.rows.evidence == [RACE_PHOTO] && w.live == map[0 := SubmitMove(w.rows.session)]
    ensures var v := Run(w, [DoRecord(true, RACE_LATER), Advance(0, 3)], cfg);
            v.rows.session.status.Submitted? && !Reportable(v.rows, cfg)
  {
    var a, b := DoRecord(true, RACE_LATER), Advance(0, 3);
    assert HasItem(RACE_TEMPLATE, "brakes") by { assert RACE_TEMPLATE.items[0].key == "brakes"; }
    RunTwo(w, a, b, [], cfg);
    assert [a, b] + [] == [a, b];
    var v := Act(Act(w, a, cfg), b, cfg);
    assert v.rows.findings == [RACE_FIRST, RACE_LATER] && v.rows.evidence == [RACE_PHOTO];
    RaceListings(v.rows);
    RaceNotReady();
  }

  lemma RunTwo(w: World, a: Action, b: Action, rest: seq<Action>, cfg: Config)
    ensures Run(w, [a, b] + rest, cfg) == Run(Act(Act(w, a, cfg), b, cfg), rest, cfg)
  {
    assert ([a, b] + rest)[1..] == [b] + rest && ([b] + rest)[1..] == rest;
  }

  lemma {:induction false} RunAppend(w: World, a: seq<Action>, b: seq<Action>, cfg: Config)
    ensures Run(w, a + b, cfg) == Run(Run(w, a, cfg), b, cfg)
    decreases |a|
  {
    if a == [] {
      assert a + b == b;
    } else {
      assert (a + b)[1..] == a[1..] + b;
      RunAppend(Act(w, a[0], cfg), a[1..], b, cfg);
    }
  }

  lemma RaceReady()
    ensures Ready(RACE_TEMPLATE, [RACE_FIRST], [RACE_PHOTO])
  {
    SelectOne(RACE_FIRST);
    ReadyWith(RACE_TEMPLATE, [RACE_FIRST], [RACE_PHOTO], RACE_FIRST);
  }

  lemma SelectOne(f: Finding)
    ensures Select([f]) == [f]
  {
    assert [f][..0] == [];
    assert LatestOf([f], f.itemKey) == Some(f);
    assert Kept([f], [f]) == [] + [f];
    SortShort(ByItem, f, f);
  }

  lemma ReadyWith(t: Template, fs: seq<Finding>, es: seq<Evidence>, f: Finding)
    requires Select(fs) == [f] && !f.severity.Red? && |t.items| == 1 && t.items[0].key == f.itemKey && es != []
    ensures Ready(t, fs, es)
  {
    var selected := Select(fs);
    assert selected[0] == f;
  }

  lemma RaceNotReady()
    ensures !Ready(RACE_TEMPLATE, [RACE_FIRST, RACE_LATER], [RACE_PHOTO])
  {
    LaterSelected(RACE_FIRST, RACE_LATER);
    NotReadyWith(RACE_TEMPLATE, [RACE_FIRST, RACE_LATER], RACE_PHOTO, RACE_LATER);
  }

  lemma LaterSelected(f: Finding, g: Finding)
    requires f.id != g.id && Newer(g, f)
    ensures g in Select([f, g])
  {
    var fs := [f, g];
    assert fs[1] in fs;
    SelectMembers(fs);
    assert NewestOfItem(fs, g);
  }

  lemma NotReadyWith(t: Template, fs: seq<Finding>, e: Evidence, g: Finding)
    requires g in Select(fs) && g.severity.Red? && e.findingId.None?
    ensures !Ready(t, fs, [e])
  {
    var selected := Select(fs);
    var i :| 0 <= i < |selected| && selected[i] == g;
    assert !Linked([e], g.id);
  }

  lemma SortShort<T>(less: (T, T) -> bool, x: T, y: T)
    ensures Sort(less, [x]) == [x]
    ensures !less(y, x) ==> Sort(less, [x, y]) == [x, y]
  {
    assert [x][..0] == [] && [x, y][..1] == [x];
    assert Sort(less, [x]) == Insert(less, x, []);
    if !less(y, x) {
      assert Sort(less, [x, y]) == Insert(less, y, [x]);
      assert [x][1..] == [];
      assert Insert(less, y, [x]) == [x] + Insert(less, y, []) == [x, y];
    }
  }

  lemma RaceListings(r: Rows)
    requires r.findings == [RACE_FIRST] || r.findings == [RACE_FIRST, RACE_LATER]
    requires r.evidence == [RACE_PHOTO]
    ensures ListFindings(r) == r.findings && ListEvidence(r) == r.evidence
  {
    SortShort(FindingBefore, RACE_FIRST, RACE_LATER);
    SortShort(EvidenceBefore, RACE_PHOTO, RACE_PHOTO);
  }
}
