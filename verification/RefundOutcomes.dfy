/** How refunds end over every interleaving: what is announced of them, exactly when an announcement is
    wrong, and which refunds never end. */
module RefundOutcomes {
  import opened Wrappers
  import opened PaymentLedger
  import opened Refunds
  import opened RefundRaces

  // ----- events -----

  /** An announced refund has been settled, and a failure event names a failed refund. */
  ghost predicate EventsOk(rows: Rows, events: seq<RefundEvent>) {
    forall e :: e in events ==> e.refund in rows && rows[e.refund].status != RefundRequested &&
                                (e.FailedEvent? ==> rows[e.refund].status == RefundFailed)
  }

  predicate OncePerRefund(events: seq<RefundEvent>) {
    forall i, j :: 0 <= i < j < |events| ==> events[i].refund != events[j].refund
  }

  /** What a live call recorded has not been announced. */
  ghost predicate Unannounced(live: map<Id, Refunding>, events: seq<RefundEvent>) {
    forall p, e :: p in live && e in events && !live[p].stage.Checked? ==> live[p].c.id != e.refund
  }

  ghost predicate Told(w: Desk) {
    EventsOk(w.rows, w.events) && OncePerRefund(w.events) && Unannounced(w.live, w.events)
  }

  lemma AnnounceTells(w: Desk, p: Id)
    requires Inv(w) && Told(w) && p in w.live && w.live[p].stage.Announcing?
    ensures Told(Next(w, Announce(p)))
  {
    var e := w.live[p].stage.e;
    var v := Next(w, Announce(p));
    assert CallOk(w.rows, w.intents, w.live[p]) && e == EventFor(w.live[p].c);
    assert forall x :: x in v.events <==> x in w.events || x == e;
  }

  lemma StepTells(w: Desk, s: Step)
    requires Inv(w) && Told(w)
    ensures Told(Next(w, s))
  {
    match s
    case Finish(p) => if p in w.live && w.live[p].stage.Recorded? { FinishShape(w, p); }
    case Announce(p) => if p in w.live && w.live[p].stage.Announcing? { AnnounceTells(w, p); }
    case _ =>
  }

  lemma {:induction false} RunTells(w: Desk, steps: seq<Step>)
    requires Inv(w) && Told(w)
    ensures Told(Run(w, steps))
    decreases |steps|
  {
    if steps != [] {
      StepKeeps(w, steps[0]);
      StepTells(w, steps[0]);
      RunTells(Next(w, steps[0]), steps[1..]);
    }
  }

  /** Over every interleaving a refund is announced once at most, never while it is in flight, and as
      failed only if it failed. */
  lemma AnnouncedOnce(steps: seq<Step>)
    ensures EventsOk(Run(OPEN, steps).rows, Run(OPEN, steps).events) && OncePerRefund(Run(OPEN, steps).events)
  {
    RunTells(OPEN, steps);
  }

  // ----- exactly when an announcement is wrong -----

  /** Every refund announced as completed has completed. */
  ghost predicate Honest(rows: Rows, events: seq<RefundEvent>) {
    forall e :: e in events && e.CompletedEvent? ==> e.refund in rows && rows[e.refund].status == RefundCompleted
  }

  /** The step announces a refund that the provider, without an error, answered as failed. */
  predicate Mislabels(w: Desk, s: Step) {
    && s.Announce? && s.pid in w.live && w.live[s.pid].stage.Announcing?
    && w.live[s.pid].c.answer.Answered? && w.live[s.pid].c.answer.status == RefundFailed
  }

  /** What is settled stays so. */
  ghost predicate Frozen(rows: Rows, after: Rows) {
    forall t :: t in rows ==> t in after && (rows[t].status != RefundRequested ==> after[t] == rows[t])
  }

  lemma StepFreezes(w: Desk, s: Step)
    requires Inv(w)
    ensures Frozen(w.rows, Next(w, s).rows)
  {
    match s
    case Finish(p) => if p in w.live && w.live[p].stage.Recorded? { FinishShape(w, p); }
    case _ =>
  }

  lemma StepHonestIff(w: Desk, s: Step)
    requires Inv(w) && Told(w)
    ensures var v := Next(w, s);
            Honest(v.rows, v.events) <==> Honest(w.rows, w.events) && !Mislabels(w, s)
  {
    var v := Next(w, s);
    StepFreezes(w, s);
    SameHonesty(w.rows, v.rows, w.events);
    if s.Announce? && s.pid in w.live && w.live[s.pid].stage.Announcing? {
      assert CallOk(w.rows, w.intents, w.live[s.pid]);
      OneMoreEvent(w.rows, w.events, w.live[s.pid].stage.e);
    }
  }

  lemma SameHonesty(rows: Rows, after: Rows, events: seq<RefundEvent>)
    requires EventsOk(rows, events) && Frozen(rows, after)
    ensures Honest(after, events) <==> Honest(rows, events)
  {
  }

  lemma OneMoreEvent(rows: Rows, events: seq<RefundEvent>, e: RefundEvent)
    requires e.refund in rows
    ensures Honest(rows, events + [e]) <==> Honest(rows, events) && (e.CompletedEvent? ==> rows[e.refund].status == RefundCompleted)
  {
    assert forall x :: x in events + [e] <==> x in events || x == e;
  }

  ghost predicate NeverMislabels(w: Desk, steps: seq<Step>)
    decreases |steps|
  {
    steps == [] || (!Mislabels(w, steps[0]) && NeverMislabels(Next(w, steps[0]), steps[1..]))
  }

  lemma {:induction false} HonestIffFrom(w: Desk, steps: seq<Step>)
    requires Inv(w) && Told(w)
    ensures Honest(Run(w, steps).rows, Run(w, steps).events) <==> Honest(w.rows, w.events) && NeverMislabels(w, steps)
    decreases |steps|
  {
    if steps != [] {
      StepKeeps(w, steps[0]);
      StepTells(w, steps[0]);
      StepHonestIff(w, steps[0]);
      HonestIffFrom(Next(w, steps[0]), steps[1..]);
    }
  }

  /** Over every interleaving: every refund announced as completed has completed, exactly when no call is
      announced whose provider answered FAILED without an error. Once wrong, the announcements stay wrong. */
  lemma HonestIff(steps: seq<Step>)
    ensures Honest(Run(OPEN, steps).rows, Run(OPEN, steps).events) <==> NeverMislabels(OPEN, steps)
  {
    HonestIffFrom(OPEN, steps);
  }

  // ----- refunds that never end -----

  /** A refund in flight whose call is gone. */
  ghost predicate Stuck(w: Desk, t: Id) {
    && t in w.rows && w.rows[t].status == RefundRequested
    && forall p :: p in w.live && w.live[p].stage.Recorded? ==> w.live[p].c.id != t
  }

  /** The refunds of an intent. */
  function RefundsOf(rows: Rows, i: Id): Rows { map t | t in rows && rows[t].intent == i :: rows[t] }

  lemma StuckStep(w: Desk, s: Step, t: Id)
    requires Inv(w) && Stuck(w, t)
    ensures Stuck(Next(w, s), t) && RefundsOf(Next(w, s).rows, w.rows[t].intent) == RefundsOf(w.rows, w.rows[t].intent)
  {
    match s
    case Finish(p) =>
      if p in w.live && w.live[p].stage.Recorded? {
        FinishShape(w, p);
        OtherIntent(w, p, t);
      }
    case _ =>
  }

  /** Nothing else of the intent is in flight. */
  lemma OtherIntent(w: Desk, p: Id, t: Id)
    requires Inv(w) && Stuck(w, t) && p in w.live && w.live[p].stage.Recorded?
    ensures w.live[p].c.id in w.rows && w.rows[w.live[p].c.id].intent != w.rows[t].intent
  {
    assert CallOk(w.rows, w.intents, w.live[p]);
    assert !BothRequested(w.rows[w.live[p].c.id], w.rows[t]);
  }

  /** Such a refund stays REQUESTED in every later state, and no refund of its intent is ever recorded or
      settled again. */
  lemma {:induction false} StuckForever(w: Desk, steps: seq<Step>, t: Id)
    requires Inv(w) && Stuck(w, t)
    ensures var v := Run(w, steps);
            Stuck(v, t) && v.rows[t] == w.rows[t] && RefundsOf(v.rows, w.rows[t].intent) == RefundsOf(w.rows, w.rows[t].intent)
    decreases |steps|
  {
    if steps != [] {
      var u := Next(w, steps[0]);
      StuckStep(w, steps[0], t);
      StepKeeps(w, steps[0]);
      SameRow(w.rows, u.rows, t);
      StuckForever(u, steps[1..], t);
    }
  }

  lemma SameRow(rows: Rows, after: Rows, t: Id)
    requires t in rows && t in after && RefundsOf(after, rows[t].intent) == RefundsOf(rows, rows[t].intent)
    ensures after[t] == rows[t]
  {
    assert t in RefundsOf(rows, rows[t].intent);
    assert t in RefundsOf(after, rows[t].intent) && RefundsOf(after, rows[t].intent)[t] == after[t];
  }

  /** The step takes the refund's call away with its row unsettled: a crash, an unavailable provider, or an
      answer that leaves it REQUESTED. */
  predicate LeavesStuck(w: Desk, s: Step, t: Id) {
    && (s.Crash? || s.Finish?) && s.pid in w.live && w.live[s.pid].stage.Recorded? && w.live[s.pid].c.id == t
    && (s.Finish? ==> EndsIn(w.live[s.pid].c.answer) == RefundRequested)
  }

  /** In every reachable state a step leaves a refund stuck exactly so. */
  lemma StuckExactly(w: Desk, s: Step, t: Id)
    requires Inv(w) && !Stuck(w, t)
    ensures Stuck(Next(w, s), t) <==> LeavesStuck(w, s, t)
  {
    match s
    case Record(p) =>
      if p in w.live && w.live[p].stage.Checked? && Accepted(w.rows, w.live[p].c) {
        RecordedNotStuck(w, p, t);
      } else {
        SameHolders(w, Next(w, s), t);
      }
    case Finish(p) =>
      if p in w.live && w.live[p].stage.Recorded? {
        FinishedStuckIff(w, p, t);
      } else {
        SameHolders(w, Next(w, s), t);
      }
    case Crash(p) => if p in w.live && w.live[p].stage.Recorded? { GoneStuckIff(w, p, t); } else { SameHolders(w, Next(w, s), t); }
    case _ => SameHolders(w, Next(w, s), t);
  }

  lemma SameHolders(w: Desk, v: Desk, t: Id)
    requires !Stuck(w, t) && v.rows == w.rows
    requires forall p :: p in w.live && w.live[p].stage.Recorded? ==> p in v.live && v.live[p] == w.live[p]
    ensures !Stuck(v, t)
  {
  }

  lemma RecordedNotStuck(w: Desk, p: Id, t: Id)
    requires Inv(w) && !Stuck(w, t) && p in w.live && w.live[p].stage.Checked? && Accepted(w.rows, w.live[p].c)
    ensures !Stuck(Next(w, Record(p)), t)
  {
    var v := Next(w, Record(p));
    if t == w.live[p].c.id {
      assert p in v.live && v.live[p].stage.Recorded?;
    } else if t in w.rows && w.rows[t].status == RefundRequested {
      var q :| q in w.live && w.live[q].stage.Recorded? && w.live[q].c.id == t;
      assert q in v.live && v.live[q] == w.live[q];
    }
  }

  lemma GoneStuckIff(w: Desk, p: Id, t: Id)
    requires Inv(w) && !Stuck(w, t) && p in w.live && w.live[p].stage.Recorded?
    ensures Stuck(w.(live := w.live - {p}), t) <==> w.live[p].c.id == t
  {
    var v := w.(live := w.live - {p});
    assert CallOk(w.rows, w.intents, w.live[p]);
    if t != w.live[p].c.id && t in w.rows && w.rows[t].status == RefundRequested {
      var q :| q in w.live && w.live[q].stage.Recorded? && w.live[q].c.id == t;
      assert q in v.live && v.live[q] == w.live[q];
    }
  }

  lemma FinishedStuckIff(w: Desk, p: Id, t: Id)
    requires Inv(w) && !Stuck(w, t) && p in w.live && w.live[p].stage.Recorded?
    ensures Stuck(Next(w, Finish(p)), t) <==> w.live[p].c.id == t && EndsIn(w.live[p].c.answer) == RefundRequested
  {
    var v := Next(w, Finish(p));
    FinishShape(w, p);
    if EndsIn(w.live[p].c.answer) == RefundRequested {
      GoneStuckIff(w, p, t);
    } else if t != w.live[p].c.id && t in w.rows && w.rows[t].status == RefundRequested {
      var q :| q in w.live && w.live[q].stage.Recorded? && w.live[q].c.id == t;
      assert q in v.live && v.live[q] == w.live[q];
    }
  }

  /** While a refund is stuck no call for its intent records anything, whatever its check sees. */
  lemma StuckRefuses(w: Desk, t: Id, c: Call)
    requires Stuck(w, t) && c.intent == w.rows[t].intent
    ensures !Accepted(w.rows, c) && RefundOnce(w.rows, c).0 == w.rows
  {
    assert InFlight(w.rows, c.intent);
  }

  // ----- it happens -----

  /** The intent is paid and a call, let through, records its request. */
  lemma Asked(answer: RefundAnswer) returns (w: Desk)
    ensures var c := AskedFor(1, answer, 1);
            && w == Run(OPEN, [Pay(PAID), Begin(1, c), Record(1)]) && w.intents == PAID && w.events == []
            && w.rows == map[1 := Requested(c)] && w.live == map[1 := Refunding(c, Recorded)]
  {
    var c := AskedFor(1, answer, 1);
    LatestNone(map[], 1, {});
    assert Check(map[], c).None?;
    RunThree(OPEN, Pay(PAID), Begin(1, c), Record(1));
    w := Next(Next(Next(OPEN, Pay(PAID)), Begin(1, c)), Record(1));
  }

  /** A provider that answers FAILED without an error gets its refund announced as completed. */
  lemma MislabelHappens()
    ensures exists steps: seq<Step> ::
              var w := Run(OPEN, steps);
              1 in w.rows && w.rows[1].status == RefundFailed && w.events == [CompletedEvent(1)]
  {
    var c := AskedFor(1, Answered(RefundFailed, "", "x"), 1);
    var w := Asked(c.answer);
    var before, more := [Pay(PAID), Begin(1, c), Record(1)], [Finish(1), Announce(1), Announce(1)];
    RunThree(w, Finish(1), Announce(1), Announce(1));
    RunAppend(OPEN, before, more);
    var v := Next(w, Finish(1));
    assert v.rows[1].status == RefundFailed && v.live == map[1 := Refunding(c, Announcing(CompletedEvent(1)))] && v.events == [];
    var u := Next(v, Announce(1));
    assert u.events == [CompletedEvent(1)] && 1 !in u.live;
    assert Run(OPEN, before + more) == u;
  }

  /** An unavailable provider leaves its refund stuck. */
  lemma StuckHappens()
    ensures exists steps: seq<Step> :: Stuck(Run(OPEN, steps), 1)
  {
    var c := AskedFor(1, Down, 1);
    var w := Asked(c.answer);
    var before, more := [Pay(PAID), Begin(1, c), Record(1)], [Finish(1)];
    RunOne(w, Finish(1));
    RunAppend(OPEN, before, more);
    assert Stuck(Next(w, Finish(1)), 1);
    assert Stuck(Run(OPEN, before + more), 1);
  }
}
