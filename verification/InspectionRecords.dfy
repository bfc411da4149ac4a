/** The rows of an inspection and its template (backend/inspections/models.go). */
module InspectionRecords {
  import opened Wrappers

  /** Instants count nanoseconds; zero is the instant of a missing submission or capture stamp. */
  const ZERO_TIME: int := 0

  datatype FindingResult = Pass | Fail | Attention | NotApplicable

  datatype Severity = Green | Amber | Red

  datatype EvidenceKind = Photo | Reading | Document

  datatype Finding = Finding(id: Uuid, itemKey: string, result: FindingResult, severity: Severity, notes: string,
                             recordedBy: Option<Uuid>, createdAt: int)

  datatype Evidence = Evidence(id: Uuid, findingId: Option<Uuid>, kind: EvidenceKind, contentHash: string,
                               capturedAt: int, uploaded: bool, notes: string, createdAt: int)

  datatype TemplateItem = TemplateItem(key: string, required: bool)

  datatype Template = Template(id: Uuid, name: string, version: int, items: seq<TemplateItem>)

  datatype Status = Created | InProgress | Submitted | ReportAvailable

  datatype Session = Session(id: Uuid, vehicleId: Option<Uuid>, jobId: Option<Uuid>, templateId: Uuid, templateName: string,
                             templateVersion: int, inspectorId: Uuid, status: Status, submittedAt: Option<int>)

  /** The primary key of the findings table. */
  predicate DistinctIds(fs: seq<Finding>) {
    forall i, j :: 0 <= i < j < |fs| ==> fs[i].id != fs[j].id
  }
}
