/** The jobs ledger: requests, jobs, assignments and the transition log, under any interleaving of store
    transactions and under serialised service calls (backend/jobs/store.go, service.go, statemachine.go). */
module Jobs {
  import opened Wrappers

  type Id = nat

  datatype Status =
    | Created | Triaging | Dispatching | Assigned | Accepted | EnRoute | Arrived | Inspection | Diagnosis
    | Estimate | AwaitingApproval | Approved | Repairing | Verification | Completed | Cancelled | Failed | Escalated

  datatype RowStatus = RowAssigned | RowAccepted | RowReassigned

  datatype Assignment = Assignment(technician: Id, status: RowStatus)

  datatype Move = Move(from: Status, to: Status)

  /** A job with its assignment rows and its transition log, oldest first. */
  datatype Job = Job(request: Option<Id>, status: Status, technician: Option<Id>, rows: seq<Assignment>, log: seq<Move>)

  datatype RequestStatus = Received | Converted

  datatype Tables = Tables(requests: map<Id, RequestStatus>, jobs: map<Id, Job>)

  const EMPTY: Tables := Tables(map[], map[])

  datatype Outcome = Ok | NotFound | Conflict | AlreadyConverted | NoOpenAssignment

  /** The table of legal moves. */
  predicate CanTransition(from: Status, to: Status) {
    match from
    case Created => to.Triaging? || to.Cancelled?
    case Triaging => to.Dispatching? || to.Cancelled?
    case Dispatching => to.Assigned? || to.Escalated? || to.Cancelled?
    case Assigned => to.Accepted? || to.Dispatching? || to.Cancelled?
    case Accepted => to.EnRoute? || to.Dispatching? || to.Cancelled?
    case EnRoute => to.Arrived? || to.Cancelled?
    case Arrived => to.Inspection? || to.Failed?
    case Inspection => to.Diagnosis?
    case Diagnosis => to.Estimate?
    case Estimate => to.AwaitingApproval?
    case AwaitingApproval => to.Approved? || to.Escalated? || to.Cancelled?
    case Approved => to.Repairing?
    case Repairing => to.Verification? || to.Failed?
    case Verification => to.Completed? || to.Repairing?
    case _ => false
  }

  // ----- store transactions -----

  function Moved(j: Job, to: Status): Job { j.(status := to, log := j.log + [Move(j.status, to)]) }

  function Retired(rows: seq<Assignment>): seq<Assignment> {
    seq(|rows|, i requires 0 <= i < |rows| => if rows[i].status == RowAssigned then rows[i].(status := RowReassigned) else rows[i])
  }

  predicate Open(a: Assignment, technician: Id) { a.technician == technician && a.status == RowAssigned }

  function Taken(rows: seq<Assignment>, technician: Id): seq<Assignment> {
    seq(|rows|, i requires 0 <= i < |rows| => if Open(rows[i], technician) then rows[i].(status := RowAccepted) else rows[i])
  }

  datatype Transaction =
    | CreateRequest(id: Id)
    | CreateJob(id: Id, request: Option<Id>)
    | UpdateJobStatus(id: Id, to: Status)
    | AssignTechnician(id: Id, technician: Id)
    | AcceptAssignment(id: Id, technician: Id)

  function Apply(t: Tables, x: Transaction): (Tables, Outcome) {
    match x
    case CreateRequest(id) =>
      if id in t.requests then (t, Conflict) else (t.(requests := t.requests[id := Received]), Ok)
    case CreateJob(id, request) =>
      if id in t.jobs then (t, Conflict)
      else if request.Some? && (request.value !in t.requests || t.requests[request.value] != Received) then (t, AlreadyConverted)
      else
        var claimed := if request.Some? then t.requests[request.value := Converted] else t.requests;
        (Tables(claimed, t.jobs[id := Job(request, Created, None, [], [])]), Ok)
    case UpdateJobStatus(id, to) =>
      if id !in t.jobs then (t, NotFound) else (t.(jobs := t.jobs[id := Moved(t.jobs[id], to)]), Ok)
    case AssignTechnician(id, technician) =>
      if id !in t.jobs then (t, NotFound)
      else
        var j := t.jobs[id];
        (t.(jobs := t.jobs[id := Moved(j, Assigned).(technician := Some(technician), rows := Retired(j.rows) + [Assignment(technician, RowAssigned)])]), Ok)
    case AcceptAssignment(id, technician) =>
      if id !in t.jobs then (t, NotFound)
      else
        var j := t.jobs[id];
        if !(exists i :: 0 <= i < |j.rows| && Open(j.rows[i], technician)) then (t, NoOpenAssignment)
        else (t.(jobs := t.jobs[id := Moved(j, Accepted).(rows := Taken(j.rows, technician))]), Ok)
  }

  function ApplyAll(t: Tables, xs: seq<Transaction>): Tables
    decreases |xs|
  {
    if xs == [] then t else ApplyAll(Apply(t, xs[0]).0, xs[1..])
  }

  // ----- what every interleaving keeps -----

  /** The moves lead without a gap from CREATED to a status. */
  predicate Path(log: seq<Move>, to: Status) {
    if log == [] then to.Created? else log[|log| - 1].to == to && Path(log[..|log| - 1], log[|log| - 1].from)
  }

  predicate JobOk(j: Job) {
    && Path(j.log, j.status)
    && (forall i :: 0 <= i < |j.rows| - 1 ==> j.rows[i].status != RowAssigned)
    && j.technician == if j.rows == [] then None else Some(j.rows[|j.rows| - 1].technician)
  }

  predicate From(t: Tables, j: Id, r: Id) { j in t.jobs && t.jobs[j].request == Some(r) }

  ghost predicate RequestOk(t: Tables, r: Id) {
    && (r in t.requests && t.requests[r] == Converted <==> exists j :: From(t, j, r))
    && (forall j, k :: From(t, j, r) && From(t, k, r) ==> j == k)
  }

  ghost predicate TablesOk(t: Tables) {
    && (forall j :: j in t.jobs ==> JobOk(t.jobs[j]))
    && (forall r :: RequestOk(t, r))
  }

  lemma MovedKeepsPath(j: Job, to: Status)
    requires Path(j.log, j.status)
    ensures Path(Moved(j, to).log, to)
  {
    assert Moved(j, to).log[..|j.log|] == j.log;
  }

  lemma TransactionKeepsJob(t: Tables, x: Transaction, id: Id)
    requires id in t.jobs ==> JobOk(t.jobs[id])
    requires id in Apply(t, x).0.jobs
    ensures JobOk(Apply(t, x).0.jobs[id])
  {
    if id in t.jobs {
      match x
      case UpdateJobStatus(j, to) => MovedKeepsPath(t.jobs[id], to);
      case AssignTechnician(j, technician) => AssignedIsOk(t.jobs[id], technician);
      case AcceptAssignment(j, technician) => AcceptedIsOk(t.jobs[id], technician);
      case _ =>
    }
  }

  lemma AssignedIsOk(j: Job, technician: Id)
    requires JobOk(j)
    ensures JobOk(Moved(j, Assigned).(technician := Some(technician), rows := Retired(j.rows) + [Assignment(technician, RowAssigned)]))
  {
    MovedKeepsPath(j, Assigned);
  }

  lemma AcceptedIsOk(j: Job, technician: Id)
    requires JobOk(j)
    ensures JobOk(Moved(j, Accepted).(rows := Taken(j.rows, technician)))
  {
    MovedKeepsPath(j, Accepted);
  }

  lemma TransactionKeepsRequest(t: Tables, x: Transaction, r: Id)
    requires forall q :: RequestOk(t, q)
    ensures RequestOk(Apply(t, x).0, r)
  {
    var u := Apply(t, x).0;
    assert RequestOk(t, r);
    if x.CreateJob? && u != t {
      assert forall j :: From(u, j, r) <==> From(t, j, r) || (j == x.id && x.request == Some(r));
      if x.request == Some(r) {
        assert From(u, x.id, r);
      }
    } else {
      assert forall j :: From(u, j, r) <==> From(t, j, r);
    }
  }

  lemma {:induction false} AllKeep(t: Tables, xs: seq<Transaction>)
    requires TablesOk(t)
    ensures TablesOk(ApplyAll(t, xs))
    decreases |xs|
  {
    if xs != [] {
      var u := Apply(t, xs[0]).0;
      forall j | j in u.jobs ensures JobOk(u.jobs[j]) { TransactionKeepsJob(t, xs[0], j); }
      forall r ensures RequestOk(u, r) { TransactionKeepsRequest(t, xs[0], r); }
      AllKeep(u, xs[1..]);
    }
  }

  /** Whatever store transactions are interleaved, by whatever calls: a job's log is an unbroken path from
      CREATED to its status; at most one of its assignments is open and it is the last; its technician is
      the last assignment's. */
  lemma LedgerHolds(xs: seq<Transaction>, id: Id)
    requires id in ApplyAll(EMPTY, xs).jobs
    ensures var j := ApplyAll(EMPTY, xs).jobs[id];
            && Path(j.log, j.status)
            && (forall i :: 0 <= i < |j.rows| && j.rows[i].status == RowAssigned ==> i == |j.rows| - 1)
            && j.technician == if j.rows == [] then None else Some(j.rows[|j.rows| - 1].technician)
  {
    AllKeep(EMPTY, xs);
  }

  /** A request is converted if and only if exactly one job came from it, and no two jobs ever come from
      one request. */
  lemma ConvertedOnce(xs: seq<Transaction>, r: Id)
    ensures var t := ApplyAll(EMPTY, xs);
            (r in t.requests && t.requests[r] == Converted) <==>
            (exists j :: From(t, j, r) && forall k :: From(t, k, r) ==> k == j)
    ensures var t := ApplyAll(EMPTY, xs);
            forall j, k :: From(t, j, r) && From(t, k, r) ==> j == k
  {
    AllKeep(EMPTY, xs);
    assert RequestOk(ApplyAll(EMPTY, xs), r);
  }

  // ----- service calls -----

  datatype Call =
    | Receive(request: Id)
    | CreateJobFromRequest(request: Id, job: Id)
    | Transition(job: Id, to: Status)
    | Assign(job: Id, technician: Id)
    | Accept(job: Id, technician: Id)

  function TransitionNow(t: Tables, id: Id, to: Status): (Tables, Outcome) {
    if id !in t.jobs then (t, NotFound)
    else if !CanTransition(t.jobs[id].status, to) then (t, Conflict)
    else Apply(t, UpdateJobStatus(id, to))
  }

  function AssignNow(t: Tables, id: Id, technician: Id): (Tables, Outcome) {
    if id !in t.jobs then (t, NotFound)
    else
      match t.jobs[id].status
      case Dispatching => Apply(t, AssignTechnician(id, technician))
      case Assigned =>
        if t.jobs[id].technician == Some(technician) then (t, Conflict)
        else
          var back := TransitionNow(t, id, Dispatching);
          if back.1 != Ok then back else Apply(back.0, AssignTechnician(id, technician))
      case _ => (t, Conflict)
  }

  function AcceptNow(t: Tables, id: Id, technician: Id): (Tables, Outcome) {
    if id !in t.jobs then (t, NotFound)
    else if !CanTransition(t.jobs[id].status, Accepted) then (t, Conflict)
    else if t.jobs[id].technician.Some? && t.jobs[id].technician.value != technician then (t, Conflict)
    else Apply(t, AcceptAssignment(id, technician))
  }

  function ConvertNow(t: Tables, request: Id, id: Id): (Tables, Outcome) {
    if request !in t.requests then (t, NotFound)
    else if t.requests[request] != Received then (t, AlreadyConverted)
    else Apply(t, CreateJob(id, Some(request)))
  }

  /** One call with nothing in between. */
  function Serve(t: Tables, c: Call): (Tables, Outcome) {
    match c
    case Receive(request) => Apply(t, CreateRequest(request))
    case CreateJobFromRequest(request, id) => ConvertNow(t, request, id)
    case Transition(id, to) => TransitionNow(t, id, to)
    case Assign(id, technician) => AssignNow(t, id, technician)
    case Accept(id, technician) => AcceptNow(t, id, technician)
  }

  function ServeAll(t: Tables, calls: seq<Call>): Tables
    decreases |calls|
  {
    if calls == [] then t else ServeAll(Serve(t, calls[0]).0, calls[1..])
  }

  predicate Legal(log: seq<Move>) { forall i :: 0 <= i < |log| ==> CanTransition(log[i].from, log[i].to) }

  predicate AllLegal(t: Tables) { forall j :: j in t.jobs ==> Legal(t.jobs[j].log) }

  lemma ServeKeepsLegal(t: Tables, c: Call)
    requires AllLegal(t)
    ensures AllLegal(Serve(t, c).0)
  {
    var u := Serve(t, c).0;
    if c.Assign? && c.job in t.jobs && u != t {
      assert u.jobs[c.job].log == t.jobs[c.job].log + [Move(Dispatching, Assigned)] ||
             u.jobs[c.job].log == t.jobs[c.job].log + [Move(Assigned, Dispatching)] + [Move(Dispatching, Assigned)];
    }
  }

  lemma ServeKeepsTables(t: Tables, c: Call)
    requires TablesOk(t)
    ensures TablesOk(Serve(t, c).0)
  {
    match c
    case Receive(request) => Keeps(t, CreateRequest(request));
    case CreateJobFromRequest(request, id) => Keeps(t, CreateJob(id, Some(request)));
    case Transition(id, to) => Keeps(t, UpdateJobStatus(id, to));
    case Assign(id, technician) => AssignKeepsTables(t, id, technician);
    case Accept(id, technician) => Keeps(t, AcceptAssignment(id, technician));
  }

  lemma AssignKeepsTables(t: Tables, id: Id, technician: Id)
    requires TablesOk(t)
    ensures TablesOk(AssignNow(t, id, technician).0)
  {
    var back := Apply(t, UpdateJobStatus(id, Dispatching)).0;
    Keeps(t, AssignTechnician(id, technician));
    Keeps(t, UpdateJobStatus(id, Dispatching));
    Keeps(back, AssignTechnician(id, technician));
    AssignOutcomes(t, id, technician);
  }

  lemma AssignOutcomes(t: Tables, id: Id, technician: Id)
    ensures var u := AssignNow(t, id, technician).0;
            || u == t || u == Apply(t, AssignTechnician(id, technician)).0
            || u == Apply(Apply(t, UpdateJobStatus(id, Dispatching)).0, AssignTechnician(id, technician)).0
  {
  }

  lemma Keeps(t: Tables, x: Transaction)
    requires TablesOk(t)
    ensures TablesOk(Apply(t, x).0)
  {
    AllKeep(t, [x]);
    assert [x][1..] == [];
    assert ApplyAll(Apply(t, x).0, []) == Apply(t, x).0;
  }

  lemma {:induction false} ServeAllKeeps(t: Tables, calls: seq<Call>)
    requires TablesOk(t) && AllLegal(t)
    ensures TablesOk(ServeAll(t, calls)) && AllLegal(ServeAll(t, calls))
    decreases |calls|
  {
    if calls != [] {
      ServeKeepsLegal(t, calls[0]);
      ServeKeepsTables(t, calls[0]);
      ServeAllKeeps(Serve(t, calls[0]).0, calls[1..]);
    }
  }

  predicate Repaired(s: Status) { s.Repairing? || s.Verification? || s.Completed? }

  lemma {:induction false} ApprovedFirst(log: seq<Move>, to: Status)
    requires Path(log, to) && Legal(log) && Repaired(to)
    ensures exists i :: 0 <= i < |log| && log[i] == Move(AwaitingApproval, Approved)
  {
    var before, last := log[..|log| - 1], log[|log| - 1];
    assert CanTransition(last.from, to);
    if Repaired(last.from) {
      ApprovedFirst(before, last.from);
      var i :| 0 <= i < |before| && before[i] == Move(AwaitingApproval, Approved);
      assert log[i] == Move(AwaitingApproval, Approved);
    } else {
      assert last.from == Approved;
      var prior := before[|before| - 1];
      assert before[|before| - 1] == log[|before| - 1];
      assert CanTransition(prior.from, prior.to);
    }
  }

  /** With serialised calls every edge of every log is legal, so a job is under repair, verified or
      completed only after its estimate was approved. */
  lemma SerialEdgesLegal(calls: seq<Call>, id: Id)
    requires id in ServeAll(EMPTY, calls).jobs
    ensures var j := ServeAll(EMPTY, calls).jobs[id];
            && JobOk(j) && Legal(j.log)
            && (Repaired(j.status) ==> exists i :: 0 <= i < |j.log| && j.log[i] == Move(AwaitingApproval, Approved))
  {
    ServeAllKeeps(EMPTY, calls);
    var j := ServeAll(EMPTY, calls).jobs[id];
    if Repaired(j.status) {
      ApprovedFirst(j.log, j.status);
    }
  }

  /** An acceptance succeeds exactly when the job is ASSIGNED and its last assignment is open and the
      technician's own; a job moved to ASSIGNED without an assignment accepts nobody. */
  lemma AcceptanceIffOpen(calls: seq<Call>, id: Id, technician: Id)
    requires id in ServeAll(EMPTY, calls).jobs
    ensures var t := ServeAll(EMPTY, calls);
            var j := t.jobs[id];
            AcceptNow(t, id, technician).1 == Ok <==>
            j.status == Assigned && j.rows != [] && Open(j.rows[|j.rows| - 1], technician)
  {
    ServeAllKeeps(EMPTY, calls);
    AcceptedWhenOpen(ServeAll(EMPTY, calls), id, technician);
  }

  lemma AcceptedWhenOpen(t: Tables, id: Id, technician: Id)
    requires id in t.jobs && JobOk(t.jobs[id])
    ensures var j := t.jobs[id];
            AcceptNow(t, id, technician).1 == Ok <==>
            j.status == Assigned && j.rows != [] && Open(j.rows[|j.rows| - 1], technician)
  {
  }

  // ----- the store and the service -----

  class JobStore {
    var requests: map<Id, RequestStatus>
    var jobs: map<Id, Job>

    function State(): Tables
      reads this
    {
      Tables(requests, jobs)
    }

    constructor ()
      ensures State() == EMPTY
    {
      requests, jobs := map[], map[];
    }

    method CreateJobRow(id: Id, request: Option<Id>) returns (o: Outcome)
      modifies this
      ensures (State(), o) == Apply(old(State()), CreateJob(id, request))
    {
      if id in jobs {
        return Conflict;
      }
      if request.Some? {
        if request.value !in requests || requests[request.value] != Received {
          return AlreadyConverted;
        }
        requests := requests[request.value := Converted];
      }
      jobs := jobs[id := Job(request, Created, None, [], [])];
      o := Ok;
    }

    method UpdateStatus(id: Id, to: Status) returns (o: Outcome)
      modifies this`jobs
      ensures (State(), o) == Apply(old(State()), UpdateJobStatus(id, to))
    {
      if id !in jobs {
        return NotFound;
      }
      var current := jobs[id].status;
      jobs := jobs[id := jobs[id].(status := to, log := jobs[id].log + [Move(current, to)])];
      o := Ok;
    }

    method AssignTo(id: Id, technician: Id) returns (o: Outcome)
      modifies this`jobs
      ensures (State(), o) == Apply(old(State()), AssignTechnician(id, technician))
    {
      if id !in jobs {
        return NotFound;
      }
      var j := jobs[id];
      var rows := Retired(j.rows) + [Assignment(technician, RowAssigned)];
      jobs := jobs[id := j.(rows := rows, status := Assigned, technician := Some(technician), log := j.log + [Move(j.status, Assigned)])];
      o := Ok;
    }

    method AcceptBy(id: Id, technician: Id) returns (o: Outcome)
      modifies this`jobs
      ensures (State(), o) == Apply(old(State()), AcceptAssignment(id, technician))
    {
      if id !in jobs {
        return NotFound;
      }
      var j := jobs[id];
      if !(exists i :: 0 <= i < |j.rows| && Open(j.rows[i], technician)) {
        return NoOpenAssignment;
      }
      jobs := jobs[id := j.(rows := Taken(j.rows, technician), status := Accepted, log := j.log + [Move(j.status, Accepted)])];
      o := Ok;
    }
  }

  class JobService {
    const store: JobStore

    constructor (store: JobStore)
      ensures this.store == store
    {
      this.store := store;
    }

    method ConvertRequest(request: Id, id: Id) returns (o: Outcome)
      modifies store
      ensures (store.State(), o) == Serve(old(store.State()), CreateJobFromRequest(request, id))
    {
      if request !in store.requests {
        return NotFound;
      }
      if store.requests[request] != Received {
        return AlreadyConverted;
      }
      o := store.CreateJobRow(id, Some(request));
    }

    method TransitionJob(id: Id, to: Status) returns (o: Outcome)
      modifies store
      ensures (store.State(), o) == Serve(old(store.State()), Transition(id, to))
    {
      if id !in store.jobs {
        return NotFound;
      }
      if !CanTransition(store.jobs[id].status, to) {
        return Conflict;
      }
      o := store.UpdateStatus(id, to);
    }

    method AssignTechnicianTo(id: Id, technician: Id) returns (o: Outcome)
      modifies store
      ensures (store.State(), o) == Serve(old(store.State()), Assign(id, technician))
    {
      if id !in store.jobs {
        return NotFound;
      }
      var job := store.jobs[id];
      match job.status {
        case Dispatching =>
        case Assigned =>
          if job.technician == Some(technician) {
            return Conflict;
          }
          o := TransitionJob(id, Dispatching);
          if o != Ok {
            return;
          }
        case _ =>
          return Conflict;
      }
      o := store.AssignTo(id, technician);
    }

    method AcceptJob(id: Id, technician: Id) returns (o: Outcome)
      modifies store
      ensures (store.State(), o) == Serve(old(store.State()), Accept(id, technician))
    {
      if id !in store.jobs {
        return NotFound;
      }
      var job := store.jobs[id];
      if !CanTransition(job.status, Accepted) {
        return Conflict;
      }
      if job.technician.Some? && job.technician.value != technician {
        return Conflict;
      }
      o := store.AcceptBy(id, technician);
    }
  }
}
