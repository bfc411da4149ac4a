/** Refund calls that interleave: each call checks, records its request, settles it by the provider's answer
    and announces it in separate steps, with payments, other calls and crashes in between. */
module RefundRaces {
  import opened Wrappers
  import opened PaymentLedger
  import opened Refunds

  datatype Stage = Checked | Recorded | Announcing(e: RefundEvent)

  /** A call that was let through, recorded its row, or has yet to announce its outcome. */
  datatype Refunding = Refunding(c: Call, stage: Stage)

  /** The table, the intents, the live calls, the events published, and the refunds that were recorded
      beside a completed refund of the same intent. */
  datatype Desk = Desk(rows: Rows, intents: map<Id, Intent>, live: map<Id, Refunding>, events: seq<RefundEvent>, late: set<Id>)

  datatype Step =
    | Pay(intents: map<Id, Intent>)
    | Begin(pid: Id, c: Call)
    | Record(pid: Id)
    | Finish(pid: Id)
    | Announce(pid: Id)
    | Crash(pid: Id)

  const OPEN: Desk := Desk(map[], map[], map[], [], {})

  /** Which rows the call's insert would be accepted beside. */
  predicate Accepted(rows: Rows, c: Call) {
    c.intent in c.intents && InsertRow(rows, c.intents, c.id, Requested(c)).1.Ok?
  }

  ghost function Next(w: Desk, s: Step): Desk {
    match s
    case Pay(intents) => if SettledKept(w.intents, intents) then w.(intents := intents) else w
    case Begin(p, c) =>
      if p in w.live || c.intents != w.intents || Check(w.rows, c).Some? then w
      else w.(live := w.live[p := Refunding(c, Checked)])
    case Record(p) =>
      if p !in w.live || !w.live[p].stage.Checked? then w
      else if !Accepted(w.rows, w.live[p].c) then w.(live := w.live - {p})
      else
        var c := w.live[p].c;
        w.(rows := w.rows[c.id := Requested(c)], live := w.live[p := Refunding(c, Recorded)],
           late := if CompletedOf(w.rows, c.intent) == {} then w.late else w.late + {c.id})
    case Finish(p) =>
      if p !in w.live || !w.live[p].stage.Recorded? || w.live[p].c.intent !in w.live[p].c.intents then w
      else
        var done := Conclude(w.rows, w.live[p].c);
        w.(rows := done.0,
           live := if done.2 == [] then w.live - {p} else w.live[p := w.live[p].(stage := Announcing(done.2[0]))])
    case Announce(p) =>
      if p !in w.live || !w.live[p].stage.Announcing? then w
      else w.(events := w.events + [w.live[p].stage.e], live := w.live - {p})
    case Crash(p) => w.(live := w.live - {p})
  }

  ghost function Run(w: Desk, steps: seq<Step>): Desk
    decreases |steps|
  {
    if steps == [] then w else Run(Next(w, steps[0]), steps[1..])
  }

  // ----- a call that nothing interrupts -----

  /** With nothing in between, the four steps are the refund operation. */
  lemma OnceIsRun(w: Desk, p: Id, c: Call)
    requires p !in w.live && c.intents == w.intents
    ensures var v := Run(w, [Begin(p, c), Record(p), Finish(p)] + [Announce(p)]);
            var (after, _, events) := RefundOnce(w.rows, c);
            v.rows == after && v.events == w.events + events && v.live == w.live && v.intents == w.intents
  {
    FourSteps(w, Begin(p, c), Record(p), Finish(p), Announce(p));
    var u := Next(w, Begin(p, c));
    var v := Next(u, Record(p));
    if Writes(w.rows, c) {
      RecordedAlone(w, p, c);
      FinishedAlone(w, v, p, c);
    } else {
      RefusedAlone(w, p, c);
      NothingToDo(w, p, c);
    }
  }

  lemma RecordedAlone(w: Desk, p: Id, c: Call)
    requires p !in w.live && c.intents == w.intents && Writes(w.rows, c)
    ensures var v := Next(Next(w, Begin(p, c)), Record(p));
            v == w.(rows := w.rows[c.id := Requested(c)], live := w.live[p := Refunding(c, Recorded)], late := v.late)
  {
  }

  lemma RefusedAlone(w: Desk, p: Id, c: Call)
    requires p !in w.live && c.intents == w.intents && !Writes(w.rows, c)
    ensures Next(Next(w, Begin(p, c)), Record(p)) == w
  {
    var u := Next(w, Begin(p, c));
    assert w.live[p := Refunding(c, Checked)] - {p} == w.live;
  }

  lemma NothingToDo(w: Desk, p: Id, c: Call)
    requires p !in w.live && !Writes(w.rows, c)
    ensures Next(Next(w, Finish(p)), Announce(p)) == w && RefundOnce(w.rows, c).0 == w.rows && w.events + RefundOnce(w.rows, c).2 == w.events
  {
  }

  lemma FourSteps(w: Desk, a: Step, b: Step, c: Step, d: Step)
    ensures Run(w, [a, b, c] + [d]) == Next(Next(Next(Next(w, a), b), c), d)
  {
    RunAppend(w, [a, b, c], [d]);
    RunThree(w, a, b, c);
    RunOne(Next(Next(Next(w, a), b), c), d);
  }

  lemma FinishedAlone(w: Desk, v: Desk, p: Id, c: Call)
    requires p !in w.live && Writes(w.rows, c)
    requires v == w.(rows := w.rows[c.id := Requested(c)], live := w.live[p := Refunding(c, Recorded)], late := v.late)
    ensures var x := Next(Next(v, Finish(p)), Announce(p));
            var (after, _, events) := RefundOnce(w.rows, c);
            x.rows == after && x.events == w.events + events && x.live == w.live && x.intents == w.intents
  {
    var done := Conclude(v.rows, c);
    assert RefundOnce(w.rows, c) == done;
    assert v.live - {p} == w.live && w.events + [] == w.events;
    assert done.2 == [] || done.2 == [done.2[0]];
    assert forall stage: Stage :: w.live[p := Refunding(c, stage)] - {p} == w.live;
  }

  lemma RunOne(w: Desk, a: Step)
    ensures Run(w, [a]) == Next(w, a)
  {
    assert [a][1..] == [];
    assert Run(Next(w, a), []) == Next(w, a);
  }

  lemma RunThree(w: Desk, a: Step, b: Step, c: Step)
    ensures Run(w, [a, b, c]) == Next(Next(Next(w, a), b), c)
  {
    assert [a, b, c][1..] == [b, c] && [b, c][1..] == [c];
    RunOne(Next(Next(w, a), b), c);
    assert Run(Next(w, a), [b, c]) == Run(Next(Next(w, a), b), [c]);
  }

  lemma {:induction false} RunAppend(w: Desk, a: seq<Step>, b: seq<Step>)
    ensures Run(w, a + b) == Run(Run(w, a), b)
    decreases |a|
  {
    if a == [] {
      assert a + b == b;
    } else {
      assert (a + b)[1..] == a[1..] + b;
      RunAppend(Next(w, a[0]), a[1..], b);
    }
  }

  // ----- what every interleaving keeps -----

  /** A live call was let through for an intent that settled; its row is REQUESTED once recorded, and
      settled as its answer says once it is about to be announced. */
  ghost predicate CallOk(rows: Rows, intents: map<Id, Intent>, r: Refunding) {
    && r.c.intent in r.c.intents && r.c.intents[r.c.intent].status == Succeeded
    && r.c.intent in intents && intents[r.c.intent] == r.c.intents[r.c.intent]
    && (!r.stage.Checked? ==> r.c.id in rows && rows[r.c.id].intent == r.c.intent)
    && (r.stage.Recorded? ==> rows[r.c.id].status == RefundRequested)
    && (r.stage.Announcing? ==>
          rows[r.c.id].status == EndsIn(r.c.answer) && EndsIn(r.c.answer) != RefundRequested
          && r.stage.e == EventFor(r.c))
  }

  /** What a settled call announces: a refusal as a failure, every answer as a completion. */
  function EventFor(c: Call): RefundEvent { if c.answer.Refused? then FailedEvent(c.id) else CompletedEvent(c.id) }

  ghost predicate CallsOk(rows: Rows, intents: map<Id, Intent>, live: map<Id, Refunding>) {
    forall p :: p in live ==> CallOk(rows, intents, live[p])
  }

  /** No two calls recorded one row. */
  predicate CallsApart(live: map<Id, Refunding>) {
    forall p, q :: p in live && q in live && p != q && !live[p].stage.Checked? && !live[q].stage.Checked? ==> live[p].c.id != live[q].c.id
  }

  predicate BothRequested(x: Refund, y: Refund) {
    x.intent == y.intent && x.status == RefundRequested && y.status == RefundRequested
  }

  /** The one-in-flight index. */
  predicate OneInFlight(rows: Rows) {
    forall t, u :: t in rows && u in rows && BothRequested(rows[t], rows[u]) ==> t == u
  }

  predicate Alive(rows: Rows, t: Id, u: Id) {
    t in rows && u in rows && t != u && rows[t].intent == rows[u].intent && rows[t].status == RefundCompleted
    && rows[u].status != RefundFailed
  }

  /** A refund alive beside a completed one was recorded late, or the completed one was. */
  ghost predicate LateIfSecond(rows: Rows, late: set<Id>) {
    forall t, u :: Alive(rows, t, u) ==> t in late || u in late
  }

  /** A late refund has a completed one beside it. */
  ghost predicate SecondIfLate(rows: Rows, late: set<Id>) {
    forall u :: u in late ==> u in rows && exists t :: t in CompletedOf(rows, rows[u].intent) && t != u
  }

  ghost predicate Inv(w: Desk) {
    && RowsOk(w.rows, w.intents) && CallsOk(w.rows, w.intents, w.live) && CallsApart(w.live)
    && OneInFlight(w.rows) && LateIfSecond(w.rows, w.late) && SecondIfLate(w.rows, w.late)
  }

  lemma CompletedStay(rows: Rows, after: Rows, i: Id)
    requires forall t :: t in rows ==> t in after && after[t].intent == rows[t].intent
                                       && (rows[t].status == RefundCompleted ==> after[t].status == RefundCompleted)
    ensures CompletedOf(rows, i) <= CompletedOf(after, i)
  {
  }

  lemma LateStay(rows: Rows, after: Rows, late: set<Id>)
    requires SecondIfLate(rows, late)
    requires forall t :: t in rows ==> t in after && after[t].intent == rows[t].intent
                                       && (rows[t].status == RefundCompleted ==> after[t].status == RefundCompleted)
    ensures SecondIfLate(after, late)
  {
    forall u | u in late ensures u in after && exists t :: t in CompletedOf(after, after[u].intent) && t != u {
      var t :| t in CompletedOf(rows, rows[u].intent) && t != u;
      CompletedStay(rows, after, rows[u].intent);
    }
  }

  lemma RecordKeeps(w: Desk, p: Id)
    requires Inv(w) && p in w.live && w.live[p].stage.Checked? && Accepted(w.rows, w.live[p].c)
    ensures Inv(Next(w, Record(p)))
  {
    var c := w.live[p].c;
    var v := Next(w, Record(p));
    assert CallOk(w.rows, w.intents, w.live[p]);
    RecordCalls(w.rows, v.rows, w.intents, w.live, p);
    LateStay(w.rows, v.rows, w.late);
    RecordLate(w.rows, v.rows, c, w.late, v.late);
  }

  lemma RecordCalls(rows: Rows, after: Rows, intents: map<Id, Intent>, live: map<Id, Refunding>, p: Id)
    requires CallsOk(rows, intents, live) && CallsApart(live) && p in live && Accepted(rows, live[p].c)
    requires after == rows[live[p].c.id := Requested(live[p].c)]
    ensures var more := live[p := Refunding(live[p].c, Recorded)];
            CallsOk(after, intents, more) && CallsApart(more)
  {
    var more := live[p := Refunding(live[p].c, Recorded)];
    forall q | q in more ensures CallOk(after, intents, more[q]) { assert CallOk(rows, intents, live[q]); }
    forall q | q in live && q != p && !live[q].stage.Checked? ensures live[q].c.id != live[p].c.id {
      assert CallOk(rows, intents, live[q]);
    }
  }

  lemma RecordLate(rows: Rows, after: Rows, c: Call, late: set<Id>, more: set<Id>)
    requires LateIfSecond(rows, late) && SecondIfLate(after, late) && Accepted(rows, c) && after == rows[c.id := Requested(c)]
    requires more == if CompletedOf(rows, c.intent) == {} then late else late + {c.id}
    ensures LateIfSecond(after, more) && SecondIfLate(after, more)
  {
    forall t, u | Alive(after, t, u) ensures t in more || u in more {
      if u == c.id {
        assert t in CompletedOf(rows, c.intent);
      } else {
        assert Alive(rows, t, u);
      }
    }
    if CompletedOf(rows, c.intent) != {} {
      var t :| t in CompletedOf(rows, c.intent);
      CompletedStay(rows, after, c.intent);
      assert t in CompletedOf(after, after[c.id].intent) && t != c.id;
    }
  }

  /** What an answer does to its recorded row. */
  lemma Concluded(rows: Rows, c: Call)
    requires c.intent in c.intents && c.id in rows && rows[c.id].status == RefundRequested
    ensures var (after, _, events) := Conclude(rows, c);
            if EndsIn(c.answer) == RefundRequested then after == rows && events == []
            else
              && c.id in after && after == rows[c.id := after[c.id]] && events == [EventFor(c)]
              && after[c.id] == rows[c.id].(status := EndsIn(c.answer), ref := after[c.id].ref, failure := after[c.id].failure)
  {
  }

  /** The row moves as the answer says, and nothing else does. */
  ghost predicate Settles(rows: Rows, after: Rows, c: Call) {
    && c.id in rows && rows[c.id].status == RefundRequested && c.id in after && after == rows[c.id := after[c.id]]
    && after[c.id] == rows[c.id].(status := EndsIn(c.answer), ref := after[c.id].ref, failure := after[c.id].failure)
  }

  /** A step of Finish, spelled out. */
  lemma FinishShape(w: Desk, p: Id)
    requires CallsOk(w.rows, w.intents, w.live) && p in w.live && w.live[p].stage.Recorded?
    ensures var c := w.live[p].c;
            var v := Next(w, Finish(p));
            if EndsIn(c.answer) == RefundRequested then v == w.(live := w.live - {p})
            else
              && v == w.(rows := v.rows, live := w.live[p := Refunding(c, Announcing(EventFor(c)))])
              && Settles(w.rows, v.rows, c)
  {
    assert CallOk(w.rows, w.intents, w.live[p]);
    Concluded(w.rows, w.live[p].c);
  }

  lemma FinishKeeps(w: Desk, p: Id)
    requires Inv(w) && p in w.live && w.live[p].stage.Recorded?
    ensures Inv(Next(w, Finish(p)))
  {
    FinishShape(w, p);
    if EndsIn(w.live[p].c.answer) == RefundRequested {
      GoneKeeps(w, p);
    } else {
      var v := Next(w, Finish(p));
      FinishCalls(w.rows, v.rows, w.intents, w.live, p);
      SettledLate(w.rows, v.rows, w.live[p].c, w.late);
      assert RowsOk(v.rows, v.intents);
    }
  }

  lemma FinishCalls(rows: Rows, after: Rows, intents: map<Id, Intent>, live: map<Id, Refunding>, p: Id)
    requires CallsOk(rows, intents, live) && CallsApart(live) && p in live && live[p].stage.Recorded?
    requires Settles(rows, after, live[p].c) && EndsIn(live[p].c.answer) != RefundRequested
    ensures var more := live[p := Refunding(live[p].c, Announcing(EventFor(live[p].c)))];
            CallsOk(after, intents, more) && CallsApart(more)
  {
    var more := live[p := Refunding(live[p].c, Announcing(EventFor(live[p].c)))];
    forall q | q in more ensures CallOk(after, intents, more[q]) { assert CallOk(rows, intents, live[q]); }
  }

  lemma SettledLate(rows: Rows, after: Rows, c: Call, late: set<Id>)
    requires OneInFlight(rows) && LateIfSecond(rows, late) && SecondIfLate(rows, late) && Settles(rows, after, c)
    ensures OneInFlight(after) && LateIfSecond(after, late) && SecondIfLate(after, late)
  {
    forall t, u | Alive(after, t, u) ensures t in late || u in late {
      if !Alive(rows, t, u) {
        assert t == c.id && rows[u].status != RefundRequested;
        assert Alive(rows, u, t);
      }
    }
    LateStay(rows, after, late);
  }

  lemma StepKeeps(w: Desk, s: Step)
    requires Inv(w)
    ensures Inv(Next(w, s))
  {
    match s
    case Pay(intents) => if SettledKept(w.intents, intents) { PayKeeps(w, intents); }
    case Begin(p, c) => BeginKeeps(w, p, c);
    case Record(p) =>
      if p in w.live && w.live[p].stage.Checked? {
        if Accepted(w.rows, w.live[p].c) { RecordKeeps(w, p); } else { GoneKeeps(w, p); }
      }
    case Finish(p) => if p in w.live && w.live[p].stage.Recorded? { FinishKeeps(w, p); }
    case Announce(p) => GoneKeeps(w, p);
    case Crash(p) => GoneKeeps(w, p);
  }

  lemma PayKeeps(w: Desk, intents: map<Id, Intent>)
    requires Inv(w) && SettledKept(w.intents, intents)
    ensures Inv(w.(intents := intents))
  {
    forall q | q in w.live ensures CallOk(w.rows, intents, w.live[q]) { assert CallOk(w.rows, w.intents, w.live[q]); }
  }

  lemma BeginKeeps(w: Desk, p: Id, c: Call)
    requires Inv(w)
    ensures Inv(Next(w, Begin(p, c)))
  {
    var v := Next(w, Begin(p, c));
    forall q | q in v.live ensures CallOk(v.rows, v.intents, v.live[q]) { assert q in w.live ==> CallOk(w.rows, w.intents, w.live[q]); }
  }

  lemma GoneKeeps(w: Desk, p: Id)
    requires Inv(w)
    ensures Inv(w.(live := w.live - {p}))
  {
    var fewer := w.live - {p};
    forall q | q in fewer ensures CallOk(w.rows, w.intents, fewer[q]) { assert CallOk(w.rows, w.intents, w.live[q]); }
  }

  lemma {:induction false} RunKeeps(w: Desk, steps: seq<Step>)
    requires Inv(w)
    ensures Inv(Run(w, steps))
    decreases |steps|
  {
    if steps != [] {
      StepKeeps(w, steps[0]);
      RunKeeps(Next(w, steps[0]), steps[1..]);
    }
  }

  // ----- exactly when more is refunded than was collected -----

  /** In every reachable state of every interleaving: an intent has been refunded more than once exactly
      when a refund recorded beside a completed one was itself completed. */
  lemma RefundedTwiceIff(steps: seq<Step>, i: Id)
    ensures var w := Run(OPEN, steps);
            |CompletedOf(w.rows, i)| > 1 <==> CompletedOf(w.rows, i) * w.late != {}
  {
    RunKeeps(OPEN, steps);
    var w := Run(OPEN, steps);
    var s := CompletedOf(w.rows, i);
    if |s| > 1 {
      var t :| t in s;
      assert |s - {t}| > 0;
      var u :| u in s - {t};
      assert Alive(w.rows, t, u);
      assert t in s * w.late || u in s * w.late;
    }
    if s * w.late != {} {
      var u :| u in s * w.late;
      var t :| t in CompletedOf(w.rows, w.rows[u].intent) && t != u;
      SubsetSize({t, u}, s);
    }
  }

  /** In every reachable state: what was refunded is a whole number of times what was collected, and more
      than was collected exactly when a late refund completed. */
  lemma OverRefundedIff(steps: seq<Step>, i: Id)
    requires i in Run(OPEN, steps).intents ==> Run(OPEN, steps).intents[i].amount > 0
    ensures var w := Run(OPEN, steps);
            && RefundedTotal(w.rows, i) == |CompletedOf(w.rows, i)| * Collected(w.intents, i)
            && (RefundedTotal(w.rows, i) > Collected(w.intents, i) <==> CompletedOf(w.rows, i) * w.late != {})
  {
    RunKeeps(OPEN, steps);
    RefundedIsCount(Run(OPEN, steps).rows, Run(OPEN, steps).intents, i);
    RefundedWithinIff(Run(OPEN, steps).rows, Run(OPEN, steps).intents, i);
    RefundedTwiceIff(steps, i);
  }

  /** While every refund but the latest is failed, an accepted insert is late exactly when the check that
      let its call through would no longer let it through. */
  lemma LateMeansOvertaken(w: Desk, p: Id)
    requires OnlyLatestLives(w.rows) && p in w.live && w.live[p].stage.Checked? && Accepted(w.rows, w.live[p].c)
    ensures CompletedOf(w.rows, w.live[p].c.intent) != {} <==> !LatestFailed(w.rows, w.live[p].c.intent)
  {
    var i := w.live[p].c.intent;
    LatestFailedMeansAll(w.rows, i);
    if !LatestFailed(w.rows, i) {
      var t :| t in w.rows && w.rows[t].intent == i && w.rows[t].status != RefundFailed;
      assert t in CompletedOf(w.rows, i);
    }
    if CompletedOf(w.rows, i) != {} {
      var t :| t in CompletedOf(w.rows, i);
    }
  }

  // ----- exactly when every refund but the latest is failed -----

  /** The insert sorts last, and the check its call passed would still pass. */
  ghost predicate InTime(w: Desk, s: Step) {
    s.Record? && s.pid in w.live && w.live[s.pid].stage.Checked? && Accepted(w.rows, w.live[s.pid].c) ==>
      SortsLast(w.rows, w.live[s.pid].c) && LatestFailed(w.rows, w.live[s.pid].c.intent)
  }

  /** One step of any call keeps every refund but the latest failed exactly when it does not record a
      request out of order or past its check: answers, refusals and crashes always keep it. */
  lemma StepKeepsIff(w: Desk, s: Step)
    requires Inv(w) && OnlyLatestLives(w.rows)
    ensures OnlyLatestLives(Next(w, s).rows) <==> InTime(w, s)
  {
    match s
    case Record(p) =>
      if p in w.live && w.live[p].stage.Checked? && Accepted(w.rows, w.live[p].c) {
        assert CallOk(w.rows, w.intents, w.live[p]);
        LiveRowKeepsIff(w.rows, Next(w, s).rows, w.live[p].c);
      }
    case Finish(p) =>
      if p in w.live && w.live[p].stage.Recorded? {
        FinishShape(w, p);
        if EndsIn(w.live[p].c.answer) != RefundRequested { AnswerKeeps(w.rows, Next(w, s).rows, w.live[p].c); }
      }
    case _ =>
  }

  lemma AnswerKeeps(rows: Rows, after: Rows, c: Call)
    requires OnlyLatestLives(rows) && Settles(rows, after, c)
    ensures OnlyLatestLives(after)
  {
    forall t, u | t in after && u in after && after[t].intent == after[u].intent && Before(after, t, u)
      ensures after[t].status == RefundFailed
    {
      assert Before(rows, t, u);
    }
  }

  ghost predicate AlwaysInTime(w: Desk, steps: seq<Step>)
    decreases |steps|
  {
    steps == [] || (InTime(w, steps[0]) && AlwaysInTime(Next(w, steps[0]), steps[1..]))
  }

  /** Every refund but the latest is failed in every state of the run. */
  ghost predicate AlwaysOrdered(w: Desk, steps: seq<Step>)
    decreases |steps|
  {
    OnlyLatestLives(w.rows) && (steps == [] || AlwaysOrdered(Next(w, steps[0]), steps[1..]))
  }

  lemma {:induction false} OrderedIffInTime(w: Desk, steps: seq<Step>)
    requires Inv(w) && OnlyLatestLives(w.rows)
    ensures AlwaysOrdered(w, steps) <==> AlwaysInTime(w, steps)
    decreases |steps|
  {
    if steps != [] {
      StepKeepsIff(w, steps[0]);
      StepKeeps(w, steps[0]);
      if InTime(w, steps[0]) {
        OrderedIffInTime(Next(w, steps[0]), steps[1..]);
      }
    }
  }

  /** Over every interleaving, with payments and crashes in between: every refund but the latest is failed
      throughout exactly when every request is recorded in order and before its check was overtaken. */
  lemma RunOrderedIff(steps: seq<Step>)
    ensures AlwaysOrdered(OPEN, steps) <==> AlwaysInTime(OPEN, steps)
  {
    OrderedIffInTime(OPEN, steps);
  }

  /** A run recorded in time never refunds an intent twice. */
  lemma InTimeNeverTwice(steps: seq<Step>, i: Id)
    requires AlwaysInTime(OPEN, steps)
    ensures |CompletedOf(Run(OPEN, steps).rows, i)| <= 1
  {
    OrderedIffInTime(OPEN, steps);
    OrderedAtEnd(OPEN, steps);
    var rows := Run(OPEN, steps).rows;
    RunKeeps(OPEN, steps);
    if CompletedOf(rows, i) != {} {
      var t :| t in CompletedOf(rows, i);
      AloneCompleted(rows, Run(OPEN, steps).intents, i, t);
    }
  }

  lemma {:induction false} OrderedAtEnd(w: Desk, steps: seq<Step>)
    requires AlwaysOrdered(w, steps)
    ensures OnlyLatestLives(Run(w, steps).rows)
    decreases |steps|
  {
    if steps != [] { OrderedAtEnd(Next(w, steps[0]), steps[1..]); }
  }

  // ----- it happens -----

  const PAID: map<Id, Intent> := map[1 := Intent(100, "sandbox", Succeeded)]

  function AskedFor(id: Id, answer: RefundAnswer, now: int): Call { Call(id, 1, "", answer, now, PAID, {"sandbox"}) }

  const DONE: RefundAnswer := Answered(RefundCompleted, "", "")

  /** Two calls let through before either records: the one-in-flight index does not stop the second once
      the first has completed, and the intent is refunded twice. */
  lemma RaceRefundsTwice()
    ensures exists steps: seq<Step> :: RefundedTotal(Run(OPEN, steps).rows, 1) == 2 * Collected(Run(OPEN, steps).intents, 1)
  {
    var c, d := AskedFor(1, DONE, 1), AskedFor(2, DONE, 2);
    var a, v := BothLetThrough(c, d);
    var b, u := FirstOfRace(v, c, d);
    var more, x := SecondOfRace(u, d);
    TwoCompleted(x);
    Joined(a, b, more, v, u, x);
  }

  lemma Joined(a: seq<Step>, b: seq<Step>, c: seq<Step>, v: Desk, u: Desk, x: Desk)
    requires v == Run(OPEN, a) && u == Run(v, b) && x == Run(u, c)
    ensures x == Run(OPEN, a + b + c)
  {
    RunAppend(OPEN, a, b);
    RunAppend(OPEN, a + b, c);
  }

  lemma BothLetThrough(c: Call, d: Call) returns (a: seq<Step>, v: Desk)
    requires c == AskedFor(1, DONE, 1) && d == AskedFor(2, DONE, 2)
    ensures v == Run(OPEN, a)
    ensures v.rows == map[] && v.intents == PAID && v.live == map[1 := Refunding(c, Checked), 2 := Refunding(d, Checked)]
  {
    LatestNone(map[], 1, {});
    assert Check(map[], c).None? && Check(map[], d).None?;
    a := [Pay(PAID), Begin(1, c), Begin(2, d)];
    RunThree(OPEN, Pay(PAID), Begin(1, c), Begin(2, d));
    var w := Next(OPEN, Pay(PAID));
    v := Next(Next(w, Begin(1, c)), Begin(2, d));
  }

  lemma FirstOfRace(v: Desk, c: Call, d: Call) returns (a: seq<Step>, u: Desk)
    requires c == AskedFor(1, DONE, 1) && d == AskedFor(2, DONE, 2)
    requires v.rows == map[] && v.intents == PAID && v.live == map[1 := Refunding(c, Checked), 2 := Refunding(d, Checked)]
    ensures u == Run(v, a)
    ensures u.rows == map[1 := Requested(c).(status := RefundCompleted), 2 := Requested(d)]
    ensures u.intents == PAID && 2 in u.live && u.live[2] == Refunding(d, Recorded)
  {
    a := [Record(1), Finish(1), Record(2)];
    RunThree(v, Record(1), Finish(1), Record(2));
    var v1 := Next(v, Record(1));
    assert v1.rows == map[1 := Requested(c)];
    var v2 := Next(v1, Finish(1));
    assert v2.rows == map[1 := Requested(c).(status := RefundCompleted)];
    u := Next(v2, Record(2));
  }

  lemma SecondOfRace(u: Desk, d: Call) returns (a: seq<Step>, x: Desk)
    requires d == AskedFor(2, DONE, 2)
    requires u.rows.Keys == {1, 2} && u.rows[2] == Requested(d) && u.rows[1].status == RefundCompleted && u.rows[1].intent == 1 && u.rows[1].amount == 100
    requires u.intents == PAID && 2 in u.live && u.live[2] == Refunding(d, Recorded)
    ensures x == Run(u, a) && x.intents == PAID
    ensures x.rows.Keys == {1, 2} && forall t :: t in x.rows ==> x.rows[t].intent == 1 && x.rows[t].status == RefundCompleted && x.rows[t].amount == 100
  {
    a := [Finish(2)];
    RunOne(u, Finish(2));
    x := Next(u, Finish(2));
  }

  lemma TwoCompleted(x: Desk)
    requires x.intents == PAID
    requires x.rows.Keys == {1, 2} && forall t :: t in x.rows ==> x.rows[t].intent == 1 && x.rows[t].status == RefundCompleted && x.rows[t].amount == 100
    ensures RefundedTotal(x.rows, 1) == 2 * Collected(x.intents, 1)
  {
    assert CompletedOf(x.rows, 1) == {1, 2};
    RefundedIsCount(x.rows, x.intents, 1);
  }

  /** No race is needed: a refund that completed but sorts before an earlier failed one is not seen, and
      the next serialised call refunds the intent again. */
  lemma OutOfOrderRefundsTwice()
    ensures exists calls: seq<Call> ::
              Serial(map[], calls) && RefundedTotal(RefundAll(map[], calls), 1) == 2 * Collected(Finally(map[], calls), 1)
  {
    var a, c, d := AskedFor(3, Refused("no"), 5), AskedFor(1, DONE, 1), AskedFor(2, DONE, 2);
    LatestNone(map[], 1, {});
    var one := RefundOnce(map[], a).0;
    assert one == map[3 := Requested(a).(status := RefundFailed, failure := "no")];
    var two := HiddenBehind(one, c);
    var three := HiddenBehind(two, d);
    ThreeCalls(a, c, d);
    assert RefundAll(map[], [a, c, d]) == three;
    TwoAndOneFailed(three);
  }

  lemma ThreeCalls(a: Call, b: Call, c: Call)
    requires a.intents == PAID && b.intents == PAID && c.intents == PAID
    ensures RefundAll(map[], [a, b, c]) == RefundOnce(RefundOnce(RefundOnce(map[], a).0, b).0, c).0
    ensures Serial(map[], [a, b, c]) && Finally(map[], [a, b, c]) == PAID
  {
    var one := RefundOnce(map[], a).0;
    var two := RefundOnce(one, b).0;
    OneCall(two, c);
    TwoCalls(one, b, c);
    assert [a, b, c][1..] == [b, c];
    assert RefundAll(map[], [a, b, c]) == RefundAll(one, [b, c]);
  }

  lemma OneCall(rows: Rows, c: Call)
    requires c.intents == PAID
    ensures RefundAll(rows, [c]) == RefundOnce(rows, c).0 && Serial(PAID, [c])
  {
    assert [c][1..] == [];
    assert RefundAll(RefundOnce(rows, c).0, []) == RefundOnce(rows, c).0;
  }

  lemma TwoCalls(rows: Rows, b: Call, c: Call)
    requires b.intents == PAID && c.intents == PAID
    ensures RefundAll(rows, [b, c]) == RefundOnce(RefundOnce(rows, b).0, c).0 && Serial(PAID, [b, c])
  {
    assert [b, c][1..] == [c];
    OneCall(RefundOnce(rows, b).0, c);
  }

  lemma TwoAndOneFailed(rows: Rows)
    requires rows.Keys == {1, 2, 3} && rows[3].status == RefundFailed
    requires forall t :: t in {1, 2} ==> rows[t].intent == 1 && rows[t].status == RefundCompleted && rows[t].amount == 100
    ensures RefundedTotal(rows, 1) == 2 * Collected(PAID, 1)
  {
    assert CompletedOf(rows, 1) == {1, 2};
    TotalIsCount(rows, {1, 2}, 100);
  }

  /** With failed refund 3 the latest, another call completes. */
  lemma HiddenBehind(rows: Rows, c: Call) returns (after: Rows)
    requires 3 in rows && rows[3].intent == 1 && rows[3].status == RefundFailed && rows[3].createdAt == 5
    requires forall t :: t in rows ==> t == 3 || (rows[t].createdAt < 5 && rows[t].status == RefundCompleted)
    requires c.id !in rows && c == AskedFor(c.id, DONE, c.now) && c.now < 5
    ensures after == RefundOnce(rows, c).0
    ensures after == rows[c.id := Requested(c).(status := RefundCompleted)]
  {
    assert IsLatest(rows, 1, 3);
    LatestUnique(rows, 1, 3);
    after := RefundOnce(rows, c).0;
  }
}
