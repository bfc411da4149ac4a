/** Job calls that interleave: each call reads and checks, and writes in a later transaction that does
    not check again, with other calls and crashes in between. */
module JobRaces {
  import opened Wrappers
  import opened Jobs

  /** What a live call does next: its last write, or the two steps back to DISPATCHING that precede a
      reassignment. */
  datatype Todo =
    | Write(x: Transaction)
    | CheckBack(job: Id, technician: Id)
    | WriteBack(job: Id, technician: Id)

  datatype Floor = Floor(t: Tables, live: map<Id, Todo>)

  datatype Step = Begin(pid: Id, c: Call) | Advance(pid: Id) | Crash(pid: Id)

  const START: Floor := Floor(EMPTY, map[])

  /** What the call's own checks let it do. */
  function Checked(t: Tables, c: Call): Option<Todo> {
    match c
    case Receive(request) => Some(Write(CreateRequest(request)))
    case CreateJobFromRequest(request, id) =>
      if request in t.requests && t.requests[request] == Received then Some(Write(CreateJob(id, Some(request)))) else None
    case Transition(id, to) =>
      if id in t.jobs && CanTransition(t.jobs[id].status, to) then Some(Write(UpdateJobStatus(id, to))) else None
    case Assign(id, technician) =>
      if id !in t.jobs then None
      else if t.jobs[id].status == Dispatching then Some(Write(AssignTechnician(id, technician)))
      else if t.jobs[id].status == Assigned && t.jobs[id].technician != Some(technician) then Some(CheckBack(id, technician))
      else None
    case Accept(id, technician) =>
      if id in t.jobs && CanTransition(t.jobs[id].status, Accepted)
         && (t.jobs[id].technician.Some? ==> t.jobs[id].technician.value == technician)
      then Some(Write(AcceptAssignment(id, technician)))
      else None
  }

  /** The transaction the next step commits, if it writes. */
  function Commits(todo: Todo): Option<Transaction> {
    match todo
    case Write(x) => Some(x)
    case WriteBack(id, _) => Some(UpdateJobStatus(id, Dispatching))
    case CheckBack(_, _) => None
  }

  function After(t: Tables, todo: Todo): Option<Todo> {
    match todo
    case Write(_) => None
    case CheckBack(id, technician) =>
      if id in t.jobs && CanTransition(t.jobs[id].status, Dispatching) then Some(WriteBack(id, technician)) else None
    case WriteBack(id, technician) => if id in t.jobs then Some(Write(AssignTechnician(id, technician))) else None
  }

  function WithTodo(live: map<Id, Todo>, p: Id, todo: Option<Todo>): map<Id, Todo> {
    if todo.Some? then live[p := todo.value] else live - {p}
  }

  function Tabled(t: Tables, x: Option<Transaction>): Tables { if x.Some? then Apply(t, x.value).0 else t }

  function Next(w: Floor, s: Step): Floor {
    match s
    case Begin(p, c) => if p in w.live then w else w.(live := WithTodo(w.live, p, Checked(w.t, c)))
    case Advance(p) =>
      if p !in w.live then w
      else Floor(Tabled(w.t, Commits(w.live[p])), WithTodo(w.live, p, After(w.t, w.live[p])))
    case Crash(p) => w.(live := w.live - {p})
  }

  function Run(w: Floor, steps: seq<Step>): Floor
    decreases |steps|
  {
    if steps == [] then w else Run(Next(w, steps[0]), steps[1..])
  }

  // ----- a run is an interleaving of store transactions -----

  function Written(w: Floor, s: Step): seq<Transaction> {
    if s.Advance? && s.pid in w.live && Commits(w.live[s.pid]).Some? then [Commits(w.live[s.pid]).value] else []
  }

  function AllWritten(w: Floor, steps: seq<Step>): seq<Transaction>
    decreases |steps|
  {
    if steps == [] then [] else Written(w, steps[0]) + AllWritten(Next(w, steps[0]), steps[1..])
  }

  lemma {:induction false} ApplyAppend(t: Tables, xs: seq<Transaction>, ys: seq<Transaction>)
    ensures ApplyAll(t, xs + ys) == ApplyAll(ApplyAll(t, xs), ys)
    decreases |xs|
  {
    if xs == [] {
      assert xs + ys == ys;
    } else {
      assert (xs + ys)[1..] == xs[1..] + ys;
      ApplyAppend(Apply(t, xs[0]).0, xs[1..], ys);
    }
  }

  lemma OneWritten(w: Floor, s: Step)
    ensures Next(w, s).t == ApplyAll(w.t, Written(w, s))
  {
    var xs := Written(w, s);
    if xs != [] {
      assert xs[1..] == [];
      assert ApplyAll(Apply(w.t, xs[0]).0, []) == Apply(w.t, xs[0]).0;
    }
  }

  /** Interleaved calls leave what their writes leave, so the ledger holds over every interleaving. */
  lemma {:induction false} RunIsTransactions(w: Floor, steps: seq<Step>)
    ensures Run(w, steps).t == ApplyAll(w.t, AllWritten(w, steps))
    decreases |steps|
  {
    if steps != [] {
      OneWritten(w, steps[0]);
      RunIsTransactions(Next(w, steps[0]), steps[1..]);
      ApplyAppend(w.t, Written(w, steps[0]), AllWritten(Next(w, steps[0]), steps[1..]));
    }
  }

  // ----- a call that nothing interrupts -----

  function Alone(p: Id, c: Call): seq<Step> { [Begin(p, c), Advance(p), Advance(p), Advance(p)] }

  /** With nothing in between, a call's steps are the serialised call. */
  lemma AloneIsServe(w: Floor, p: Id, c: Call)
    requires p !in w.live
    ensures Run(w, Alone(p, c)) == Floor(Serve(w.t, c).0, w.live)
  {
    RunFour(w, Begin(p, c), Advance(p), Advance(p), Advance(p));
    var todo := Checked(w.t, c);
    assert w.live - {p} == w.live;
    if todo.Some? {
      var u := w.(live := w.live[p := todo.value]);
      assert u.live - {p} == w.live;
      if todo.value.CheckBack? {
        ReassignAlone(w, p, todo.value.job, todo.value.technician);
      }
    }
  }

  lemma ReassignAlone(w: Floor, p: Id, id: Id, technician: Id)
    requires p !in w.live && id in w.t.jobs && w.t.jobs[id].status == Assigned && w.t.jobs[id].technician != Some(technician)
    ensures var u := w.(live := w.live[p := CheckBack(id, technician)]);
            Next(Next(Next(u, Advance(p)), Advance(p)), Advance(p)) == Floor(AssignNow(w.t, id, technician).0, w.live)
  {
    var u := w.(live := w.live[p := CheckBack(id, technician)]);
    var v := Next(u, Advance(p));
    assert v == w.(live := w.live[p := WriteBack(id, technician)]);
    var x := Next(v, Advance(p));
    assert x == Floor(Apply(w.t, UpdateJobStatus(id, Dispatching)).0, w.live[p := Write(AssignTechnician(id, technician))]);
    assert x.live - {p} == w.live;
  }

  lemma RunFour(w: Floor, a: Step, b: Step, c: Step, d: Step)
    ensures Run(w, [a, b, c, d]) == Next(Next(Next(Next(w, a), b), c), d)
  {
    assert [a, b, c, d][1..] == [b, c, d] && [b, c, d][1..] == [c, d] && [c, d][1..] == [d] && [d][1..] == [];
    var v := Next(Next(w, a), b);
    assert Run(v, [c, d]) == Run(Next(v, c), [d]);
    assert Run(Next(Next(v, c), d), []) == Next(Next(v, c), d);
  }

  lemma {:induction false} RunAppend(w: Floor, a: seq<Step>, b: seq<Step>)
    ensures Run(w, a + b) == Run(Run(w, a), b)
    decreases |a|
  {
    if a == [] {
      assert a + b == b;
    } else {
      assert (a + b)[1..] == a[1..] + b;
      RunAppend(Next(w, a[0]), a[1..], b);
    }
  }

  // ----- exactly when a write is legal -----

  /** The status a transaction moves a job to, if it moves one. */
  function MovesTo(t: Tables, x: Transaction): Option<Status> {
    match x
    case UpdateJobStatus(id, to) => if id in t.jobs then Some(to) else None
    case AssignTechnician(id, _) => if id in t.jobs then Some(Assigned) else None
    case AcceptAssignment(id, technician) =>
      if id in t.jobs && exists i :: 0 <= i < |t.jobs[id].rows| && Open(t.jobs[id].rows[i], technician) then Some(Accepted) else None
    case _ => None
  }

  /** What the service checked, asked again at the write. */
  predicate LegalNow(t: Tables, x: Transaction) {
    MovesTo(t, x).Some? ==> CanTransition(t.jobs[x.id].status, MovesTo(t, x).value)
  }

  lemma LoggedLegal(log: seq<Move>, m: Move)
    requires Legal(log)
    ensures Legal(log + [m]) <==> CanTransition(m.from, m.to)
  {
    assert (log + [m])[|log|] == m;
  }

  /** A write leaves every logged edge legal exactly when its move is one the table has from the status it
      finds. */
  lemma WriteLegalIff(t: Tables, x: Transaction)
    requires AllLegal(t)
    ensures AllLegal(Apply(t, x).0) <==> LegalNow(t, x)
  {
    var u := Apply(t, x).0;
    if MovesTo(t, x).Some? {
      var j := t.jobs[x.id];
      var m := Move(j.status, MovesTo(t, x).value);
      assert x.id in u.jobs && u.jobs[x.id].log == j.log + [m];
      LoggedLegal(j.log, m);
      assert forall k :: k in u.jobs && k != x.id ==> k in t.jobs && u.jobs[k] == t.jobs[k];
    }
  }

  predicate StepLegal(w: Floor, s: Step) {
    Written(w, s) != [] ==> LegalNow(w.t, Written(w, s)[0])
  }

  lemma StepLegalIff(w: Floor, s: Step)
    requires AllLegal(w.t)
    ensures AllLegal(Next(w, s).t) <==> StepLegal(w, s)
  {
    if Written(w, s) != [] { WriteLegalIff(w.t, Written(w, s)[0]); }
  }

  predicate AllStepsLegal(w: Floor, steps: seq<Step>)
    decreases |steps|
  {
    steps == [] || (StepLegal(w, steps[0]) && AllStepsLegal(Next(w, steps[0]), steps[1..]))
  }

  /** Logs only grow. */
  ghost predicate Grows(t: Tables, u: Tables) {
    forall j :: j in t.jobs ==> j in u.jobs && t.jobs[j].log <= u.jobs[j].log
  }

  lemma ApplyGrows(t: Tables, x: Transaction)
    ensures Grows(t, Apply(t, x).0)
  {
  }

  lemma {:induction false} RunGrows(w: Floor, steps: seq<Step>)
    ensures Grows(w.t, Run(w, steps).t)
    decreases |steps|
  {
    if steps != [] {
      if Written(w, steps[0]) != [] { ApplyGrows(w.t, Written(w, steps[0])[0]); }
      RunGrows(Next(w, steps[0]), steps[1..]);
    }
  }

  lemma IllegalStays(t: Tables, u: Tables)
    requires Grows(t, u) && AllLegal(u)
    ensures AllLegal(t)
  {
    forall j | j in t.jobs ensures Legal(t.jobs[j].log) {
      forall i | 0 <= i < |t.jobs[j].log| ensures CanTransition(t.jobs[j].log[i].from, t.jobs[j].log[i].to) {
        assert t.jobs[j].log[i] == u.jobs[j].log[i];
      }
    }
  }

  lemma {:induction false} RunLegalIffFrom(w: Floor, steps: seq<Step>)
    requires AllLegal(w.t)
    ensures AllLegal(Run(w, steps).t) <==> AllStepsLegal(w, steps)
    decreases |steps|
  {
    if steps != [] {
      StepLegalIff(w, steps[0]);
      if StepLegal(w, steps[0]) {
        RunLegalIffFrom(Next(w, steps[0]), steps[1..]);
      } else {
        RunGrows(Next(w, steps[0]), steps[1..]);
        if AllLegal(Run(w, steps).t) { IllegalStays(Next(w, steps[0]).t, Run(w, steps).t); }
      }
    }
  }

  /** Over every interleaving of calls and crashes: every edge of every log is legal exactly when every
      write's check, asked again at the write, still passes. */
  lemma RunLegalIff(steps: seq<Step>)
    ensures AllLegal(Run(START, steps).t) <==> AllStepsLegal(START, steps)
  {
    RunLegalIffFrom(START, steps);
  }

  // ----- it happens -----

  lemma OvertakenAssignment(w: Floor, p: Id, q: Id, id: Id, technician: Id)
    requires p !in w.live && q !in w.live && p != q && id in w.t.jobs && w.t.jobs[id].status == Dispatching
    ensures var u := Run(w, [Begin(p, Assign(id, technician)), Begin(q, Transition(id, Cancelled)), Advance(q), Advance(p)]).t;
            && id in u.jobs && u.jobs[id].status == Assigned
            && u.jobs[id].log == w.t.jobs[id].log + [Move(Dispatching, Cancelled), Move(Cancelled, Assigned)]
            && !AllLegal(u)
  {
    RunFour(w, Begin(p, Assign(id, technician)), Begin(q, Transition(id, Cancelled)), Advance(q), Advance(p));
    var v := Next(Next(w, Begin(p, Assign(id, technician))), Begin(q, Transition(id, Cancelled)));
    assert v == w.(live := w.live[p := Write(AssignTechnician(id, technician))][q := Write(UpdateJobStatus(id, Cancelled))]);
    var x := Next(v, Advance(q));
    assert x.t == Apply(w.t, UpdateJobStatus(id, Cancelled)).0 && x.live[p] == Write(AssignTechnician(id, technician));
    var u := Next(x, Advance(p)).t;
    var log := u.jobs[id].log;
    assert log[|log| - 1] == Move(Cancelled, Assigned) && !Legal(log);
  }

  /** A cancellation that slips in between an assignment's check and its write is overwritten, over an edge
      the table forbids. */
  lemma InterleavedEdgeIllegal()
    ensures exists steps: seq<Step> :: !AllLegal(Run(START, steps).t)
  {
    var steps, w := Dispatched();
    var race := [Begin(1, Assign(1, 7)), Begin(2, Transition(1, Cancelled)), Advance(2), Advance(1)];
    OvertakenAssignment(w, 1, 2, 1, 7);
    RunAppend(START, steps, race);
    assert !AllLegal(Run(START, steps + race).t);
  }

  lemma Dispatched() returns (steps: seq<Step>, w: Floor)
    ensures w == Run(START, steps) && w.live == map[] && 1 in w.t.jobs && w.t.jobs[1].status == Dispatching
  {
    var s1, w1 := AndThen([], START, Receive(1));
    var s2, w2 := AndThen(s1, w1, CreateJobFromRequest(1, 1));
    var s3, w3 := AndThen(s2, w2, Transition(1, Triaging));
    steps, w := AndThen(s3, w3, Transition(1, Dispatching));
  }

  lemma AndThen(steps: seq<Step>, w: Floor, c: Call) returns (more: seq<Step>, v: Floor)
    requires w == Run(START, steps) && w.live == map[]
    ensures v == Run(START, more) && v == Floor(Serve(w.t, c).0, map[])
  {
    more := steps + Alone(0, c);
    RunAppend(START, steps, Alone(0, c));
    AloneIsServe(w, 0, c);
    v := Run(START, more);
  }
}
