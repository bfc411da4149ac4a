/** Why an attempt is announced twice: a delivery announces a settlement that it found already made, and
    which reconciliation announced as well. */
module PaymentRepeats {
  import opened Wrappers
  import opened PaymentLedger
  import opened PaymentProtocol
  import opened PaymentSafety
  import opened PaymentDeliveries
  import opened PaymentTheorems
  import opened PaymentService

  /** The step takes a claimed delivery through settlement although the attempt already holds the status
      its event names. */
  ghost predicate Redundant(w: World, a: Action, t: Id) {
    && a.HookAdvance? && a.pid in w.hooks && w.hooks[a.pid].phase == Claimed(t)
    && HoldsStatus(w.l, t, StatusOf(w.hooks[a.pid].d.event))
  }

  ghost predicate Repeated(w: World, actions: seq<Action>, t: Id)
    decreases |actions|
  {
    actions != [] && (Redundant(w, actions[0], t) || Repeated(Next(w, actions[0]), actions[1..], t))
  }

  /** In every reachable state: a claimed delivery goes on to announce an attempt it does not settle exactly
      when the attempt already holds its event's status. */
  lemma RedundantIff(w: World, p: Id, t: Id)
    requires Inv(w) && p in w.hooks && w.hooks[p].phase == Claimed(t)
    ensures var v := Next(w, HookAdvance(p));
            (p in v.hooks && v.hooks[p].phase == PaymentProtocol.Applied(t) && v.applied == w.applied) <==> Redundant(w, HookAdvance(p), t)
  {
    var s, cause := StatusOf(w.hooks[p].d.event), Cause("webhook", w.hooks[p].d.receipt);
    Settled(w.l, t, s, cause);
    ClaimedOutcome(w, p, t);
  }

  lemma ClaimedOutcome(w: World, p: Id, t: Id)
    requires p in w.hooks && w.hooks[p].phase == Claimed(t)
    ensures var v := Next(w, HookAdvance(p));
            var r := w.l.Settle(SettlementOf(t, StatusOf(w.hooks[p].d.event), Cause("webhook", w.hooks[p].d.receipt))).1;
            && (p in v.hooks && v.hooks[p].phase == PaymentProtocol.Applied(t) <==> r.Ok?)
            && (r.Ok? ==> v.applied == w.applied + if r.value then [t] else [])
  {
    ClaimedShape(w, p);
  }

  // ----- who has passed the settlement -----

  predicate PastSettlement(h: Hook, t: Id) { (h.phase.Applied? || h.phase.Completed?) && h.phase.tx == t }

  /** A delivery has found the attempt settled, or settled it, and has announced it or is still to. */
  ghost predicate ByWebhook(w: World, t: Id) {
    (exists p :: p in w.hooks && PastSettlement(w.hooks[p], t)) || Published(w.events, t, Webhook)
  }

  predicate Announces(r: RecRun, t: Id) { r.announce.Some? && r.announce.value.tx == t }

  /** Reconciliation has settled the attempt, and has announced it or is still to. */
  ghost predicate ByReconciliation(w: World, t: Id) {
    (exists p :: p in w.runs && Announces(w.runs[p], t)) || Published(w.events, t, Reconciliation)
  }

  lemma PendingMeansNeither(w: World, t: Id)
    requires Inv(w) && HoldsStatus(w.l, t, TxPending)
    ensures !ByWebhook(w, t) && !ByReconciliation(w, t)
  {
    forall p | p in w.hooks ensures !PastSettlement(w.hooks[p], t) { assert HookOk(w.l, w.hooks[p]); }
    forall e | e in w.events ensures e.tx != t { assert EventOk(w.l, w.applied, e); }
    forall p | p in w.runs && w.runs[p].announce.Some? ensures w.runs[p].announce.value.tx != t {
      assert AnnounceOk(w.l, w.applied, w.runs[p].announce.value);
    }
  }

  /** The step settles the attempt for a delivery, or finds it settled. */
  ghost predicate PassesHook(w: World, a: Action, t: Id) {
    && a.HookAdvance? && a.pid in w.hooks && w.hooks[a.pid].phase == Claimed(t)
    && w.l.Settle(SettlementOf(t, StatusOf(w.hooks[a.pid].d.event), Cause("webhook", w.hooks[a.pid].d.receipt))).1.Ok?
  }

  /** The step settles the attempt for a reconciliation run. */
  ghost predicate SettlesByRun(w: World, a: Action, t: Id) {
    && a.RunAdvance? && a.pid in w.runs && w.runs[a.pid].announce.None? && w.runs[a.pid].queue != [] && w.runs[a.pid].queue[0] == t
    && a.query.QueryStatus? && a.query.status != TxPending
    && w.l.Settle(SettlementOf(t, a.query.status, Cause("reconciliation", a.query.receipt))).1 == Ok(true)
  }

  lemma EventAdded(events: seq<Event>, more: seq<Event>, t: Id, via: Via)
    ensures Published(events + more, t, via) <==> Published(events, t, via) || Published(more, t, via)
  {
    assert forall e :: e in events + more <==> e in events || e in more;
  }

  /** What one step of a delivery does to the deliveries and the events. */
  lemma HookMoves(w: World, p: Id)
    requires p in w.hooks
    ensures var e := HookStep(w.l, w.hooks[p].d, w.hooks[p].phase);
            var v := Next(w, HookAdvance(p));
            && v.events == w.events + e.events && v.runs == w.runs
            && v.hooks == match e.next case Continue(phase) => w.hooks[p := Hook(w.hooks[p].d, phase)] case Finish(_, _) => w.hooks - {p}
  {
  }

  lemma RunMoves(w: World, p: Id, answer: QueryAnswer)
    requires p in w.runs
    ensures var e := RecStep(w.l, w.runs[p], answer);
            var v := Next(w, RunAdvance(p, answer));
            v.events == w.events + e.events && v.hooks == w.hooks && v.runs == w.runs[p := e.next]
  {
  }

  /** The phases a delivery goes through from one step to the next. */
  lemma PhaseAfter(l: Ledger, d: Delivery, phase: HookPhase, t: Id)
    ensures var e := HookStep(l, d, phase);
            && (forall via :: Published(e.events, t, via) <==> phase == Completed(t) && via == Webhook)
            && ((e.next.Continue? && PastSettlement(Hook(d, e.next.phase), t)) <==>
                phase == PaymentProtocol.Applied(t)
                || (phase == Claimed(t) && l.Settle(SettlementOf(t, StatusOf(d.event), Cause("webhook", d.receipt))).1.Ok?))
  {
    var e := HookStep(l, d, phase);
    if phase.Completed? { assert e.events[0] in e.events; }
  }

  lemma HookChanges(w: World, p: Id, t: Id)
    requires p in w.hooks
    ensures ByWebhook(Next(w, HookAdvance(p)), t) <==> ByWebhook(w, t) || PassesHook(w, HookAdvance(p), t)
    ensures ByReconciliation(Next(w, HookAdvance(p)), t) <==> ByReconciliation(w, t)
  {
    var h := w.hooks[p];
    var e := HookStep(w.l, h.d, h.phase);
    var v := Next(w, HookAdvance(p));
    HookMoves(w, p);
    PhaseAfter(w.l, h.d, h.phase, t);
    EventAdded(w.events, e.events, t, Webhook);
    EventAdded(w.events, e.events, t, Reconciliation);
    assert PastSettlement(h, t) <==> h.phase == PaymentProtocol.Applied(t) || h.phase == Completed(t);
    PastMoves(w.hooks, v.hooks, p, t);
  }

  lemma PastMoves(before: map<Id, Hook>, after: map<Id, Hook>, p: Id, t: Id)
    requires p in before && (after == before - {p} || (p in after && after == before[p := after[p]]))
    ensures (exists q :: q in after && PastSettlement(after[q], t)) <==>
            (p in after && PastSettlement(after[p], t)) || exists q :: q in before && q != p && PastSettlement(before[q], t)
  {
    if q :| q in before && q != p && PastSettlement(before[q], t) { assert q in after && after[q] == before[q]; }
  }

  lemma RunStepAfter(l: Ledger, r: RecRun, answer: QueryAnswer, t: Id)
    ensures var e := RecStep(l, r, answer);
            && (forall via :: Published(e.events, t, via) <==> r.announce.Some? && r.announce.value.tx == t && r.announce.value.via == via)
            && (Announces(e.next, t) <==>
                && r.announce.None? && r.queue != [] && r.queue[0] == t && answer.QueryStatus? && answer.status != TxPending
                && l.Settle(SettlementOf(t, answer.status, Cause("reconciliation", answer.receipt))).1 == Ok(true))
  {
    var e := RecStep(l, r, answer);
    if r.announce.Some? { assert e.events[0] in e.events; }
  }

  lemma AnnouncesMoves(before: map<Id, RecRun>, after: map<Id, RecRun>, p: Id, t: Id)
    requires p in before && p in after && after == before[p := after[p]]
    ensures (exists q :: q in after && Announces(after[q], t)) <==>
            Announces(after[p], t) || exists q :: q in before && q != p && Announces(before[q], t)
  {
    if q :| q in before && q != p && Announces(before[q], t) { assert q in after && after[q] == before[q]; }
  }

  lemma RunChanges(w: World, p: Id, answer: QueryAnswer, t: Id)
    requires Inv(w) && p in w.runs
    ensures var a := RunAdvance(p, answer);
            && (ByReconciliation(Next(w, a), t) <==> ByReconciliation(w, t) || SettlesByRun(w, a, t))
            && (ByWebhook(Next(w, a), t) <==> ByWebhook(w, t))
  {
    var r := w.runs[p];
    var v := Next(w, RunAdvance(p, answer));
    RunMoves(w, p, answer);
    RunStepAfter(w.l, r, answer, t);
    EventAdded(w.events, RecStep(w.l, r, answer).events, t, Webhook);
    EventAdded(w.events, RecStep(w.l, r, answer).events, t, Reconciliation);
    AnnouncesMoves(w.runs, v.runs, p, t);
    if r.announce.Some? { assert AnnounceOk(w.l, w.applied, r.announce.value); }
  }

  /** Steps of neither kind. */
  lemma OtherChanges(w: World, a: Action, t: Id)
    requires !a.HookAdvance? && !a.RunAdvance?
    ensures var v := Next(w, a);
            && (ByWebhook(v, t) ==> ByWebhook(w, t)) && (ByReconciliation(v, t) ==> ByReconciliation(w, t))
            && (!a.HookCrash? ==> (ByWebhook(w, t) ==> ByWebhook(v, t)))
            && (!a.RunCrash? ==> (ByReconciliation(w, t) ==> ByReconciliation(v, t)))
  {
    match a
    case InitAdvance(i, answer, now) => if i in w.inits { InitQuiet(w, i, answer, now, t); }
    case Deliver(p, d) => if p !in w.hooks { DeliverQuiet(w, p, d, t); }
    case StartRun(p, cutoff, limit, batch) => StartQuiet(w, p, cutoff, limit, batch, t);
    case _ =>
  }

  lemma InitQuiet(w: World, i: Id, answer: InitAnswer, now: int, t: Id)
    requires i in w.inits
    ensures var v := Next(w, InitAdvance(i, answer, now));
            (ByWebhook(v, t) <==> ByWebhook(w, t)) && (ByReconciliation(v, t) <==> ByReconciliation(w, t))
  {
    var e := InitStep(w.l, i, w.inits[i], answer, now);
    var v := Next(w, InitAdvance(i, answer, now));
    assert v.events == w.events + e.events && v.hooks == w.hooks && v.runs == w.runs;
    EventAdded(w.events, e.events, t, Webhook);
    EventAdded(w.events, e.events, t, Reconciliation);
  }

  lemma DeliverQuiet(w: World, p: Id, d: Delivery, t: Id)
    requires p !in w.hooks
    ensures var v := w.(hooks := w.hooks[p := Hook(d, Arrived)]);
            (ByWebhook(v, t) <==> ByWebhook(w, t)) && (ByReconciliation(v, t) <==> ByReconciliation(w, t))
  {
    var more := w.hooks[p := Hook(d, Arrived)];
    if q :| q in w.hooks && PastSettlement(w.hooks[q], t) { assert q in more && more[q] == w.hooks[q]; }
  }

  lemma StartQuiet(w: World, p: Id, cutoff: int, limit: nat, batch: seq<Id>, t: Id)
    ensures var v := Next(w, StartRun(p, cutoff, limit, batch));
            (ByWebhook(v, t) <==> ByWebhook(w, t)) && (ByReconciliation(v, t) <==> ByReconciliation(w, t))
  {
    var v := Next(w, StartRun(p, cutoff, limit, batch));
    if q :| q in w.runs && Announces(w.runs[q], t) { assert q in v.runs && v.runs[q] == w.runs[q]; }
  }

  // ----- twice only by repetition -----

  /** Both paths have passed the settlement only if a delivery found it already made. */
  ghost predicate TwiceIfSeen(w: World, t: Id, seen: bool) {
    ByWebhook(w, t) && ByReconciliation(w, t) ==> seen
  }

  lemma StepTwice(w: World, a: Action, t: Id, seen: bool)
    requires Inv(w) && TwiceIfSeen(w, t, seen)
    ensures TwiceIfSeen(Next(w, a), t, seen || Redundant(w, a, t))
  {
    if a.HookAdvance? {
      if a.pid in w.hooks {
        HookChanges(w, a.pid, t);
        if PassesHook(w, a, t) { PassingIsFreshOrRedundant(w, a, t); }
      }
    } else if a.RunAdvance? {
      if a.pid in w.runs {
        RunChanges(w, a.pid, a.query, t);
        if SettlesByRun(w, a, t) { RunSettlesPending(w, a, t); }
      }
    } else {
      OtherChanges(w, a, t);
    }
  }

  lemma PassingIsFreshOrRedundant(w: World, a: Action, t: Id)
    requires Inv(w) && PassesHook(w, a, t)
    ensures Redundant(w, a, t) || (!ByWebhook(w, t) && !ByReconciliation(w, t))
  {
    var h := w.hooks[a.pid];
    Settled(w.l, t, StatusOf(h.d.event), Cause("webhook", h.d.receipt));
    if HoldsStatus(w.l, t, TxPending) { PendingMeansNeither(w, t); }
  }

  lemma RunSettlesPending(w: World, a: Action, t: Id)
    requires Inv(w) && SettlesByRun(w, a, t)
    ensures !ByWebhook(w, t) && !ByReconciliation(w, t)
  {
    Settled(w.l, t, a.query.status, Cause("reconciliation", a.query.receipt));
    PendingMeansNeither(w, t);
  }

  lemma {:induction false} RunTwice(w: World, actions: seq<Action>, t: Id, seen: bool)
    requires Inv(w) && TwiceIfSeen(w, t, seen)
    ensures TwiceIfSeen(Run(w, actions), t, seen || Repeated(w, actions, t))
    decreases |actions|
  {
    if actions != [] {
      StepTwice(w, actions[0], t, seen);
      StepKeeps(w, actions[0]);
      RunTwice(Next(w, actions[0]), actions[1..], t, seen || Redundant(w, actions[0], t));
    }
  }

  /** Over every run, crashes included: an attempt is announced twice only if a delivery reached settlement
      when the attempt already held the status its event names. */
  lemma TwiceOnlyByRepetition(actions: seq<Action>, t: Id)
    requires Count(Run(START, actions).events, t) == 2
    ensures Repeated(START, actions, t)
  {
    AnnouncedTwice(actions, t);
    RunTwice(START, actions, t, false);
  }

  // ----- and always by repetition, when nothing is lost -----

  predicate Lossless(actions: seq<Action>) {
    forall a: Action :: a in actions ==> !a.HookCrash? && !a.RunCrash?
  }

  /** Nobody is still to announce the attempt. */
  ghost predicate Idle(w: World, t: Id) {
    && (forall p :: p in w.hooks ==> !PastSettlement(w.hooks[p], t))
    && (forall p :: p in w.runs ==> !Announces(w.runs[p], t))
  }

  ghost predicate SettledAfterAcceptance(l: Ledger, t: Id) {
    t in l.txs && l.txs[t].status != TxPending && l.txs[t].ref.Some?
  }

  /** What was settled after its acceptance was settled by one path or the other, and by both once a
      delivery found it settled. */
  ghost predicate Traced(w: World, t: Id, seen: bool) {
    && (SettledAfterAcceptance(w.l, t) ==> ByWebhook(w, t) || ByReconciliation(w, t))
    && (seen ==> ByWebhook(w, t) && ByReconciliation(w, t))
  }

  /** A delivery that finds its event's status finds what reconciliation did: no other delivery of the
      event got that far. */
  lemma RedundantAfterReconciliation(w: World, a: Action, t: Id, seen: bool)
    requires Inv(w) && Redundant(w, a, t) && Traced(w, t, seen)
    ensures !ByWebhook(w, t) && ByReconciliation(w, t)
  {
    var h := w.hooks[a.pid];
    assert HookOk(w.l, h) && PastClaim(h);
    forall q | q in w.hooks ensures !PastSettlement(w.hooks[q], t) {
      if PastSettlement(w.hooks[q], t) { SameKeyHeld(w, a.pid, q, t); }
    }
    forall e | e in w.events && e.tx == t ensures e.via != Webhook { assert EventOk(w.l, w.applied, e); }
  }

  lemma SameKeyHeld(w: World, p: Id, q: Id, t: Id)
    requires Inv(w) && p in w.hooks && q in w.hooks && w.hooks[p].phase == Claimed(t) && PastSettlement(w.hooks[q], t)
    ensures !HoldsStatus(w.l, t, StatusOf(w.hooks[p].d.event))
  {
    assert HookOk(w.l, w.hooks[p]) && HookOk(w.l, w.hooks[q]);
    assert PastClaim(w.hooks[p]) && PastClaim(w.hooks[q]) && p != q;
  }

  lemma StepTraced(w: World, a: Action, t: Id, seen: bool)
    requires Inv(w) && Traced(w, t, seen) && !a.HookCrash? && !a.RunCrash?
    ensures Traced(Next(w, a), t, seen || Redundant(w, a, t))
  {
    Stay(w, a, t);
    if Redundant(w, a, t) {
      RedundantAfterReconciliation(w, a, t, seen);
      RedundantPasses(w, a, t);
      HookChanges(w, a.pid, t);
    }
    if SettledAfterAcceptance(Next(w, a).l, t) && !SettledAfterAcceptance(w.l, t) { SettledBySomeone(w, a, t); }
  }

  lemma Stay(w: World, a: Action, t: Id)
    requires Inv(w) && !a.HookCrash? && !a.RunCrash?
    ensures ByWebhook(w, t) ==> ByWebhook(Next(w, a), t)
    ensures ByReconciliation(w, t) ==> ByReconciliation(Next(w, a), t)
  {
    if a.HookAdvance? {
      if a.pid in w.hooks { HookChanges(w, a.pid, t); }
    } else if a.RunAdvance? {
      if a.pid in w.runs { RunChanges(w, a.pid, a.query, t); }
    } else {
      OtherChanges(w, a, t);
    }
  }

  lemma RedundantPasses(w: World, a: Action, t: Id)
    requires Inv(w) && Redundant(w, a, t)
    ensures PassesHook(w, a, t)
  {
  }

  /** An accepted attempt is settled by a delivery or by a reconciliation run only. */
  lemma SettledBySomeone(w: World, a: Action, t: Id)
    requires Inv(w) && SettledAfterAcceptance(Next(w, a).l, t) && !SettledAfterAcceptance(w.l, t)
    ensures ByWebhook(Next(w, a), t) || ByReconciliation(Next(w, a), t)
  {
    NextLedger(w, a);
    match a
    case HookAdvance(p) =>
      if p in w.hooks {
        HookChanges(w, p, t);
        HookSettles(w, p, t);
      }
    case RunAdvance(p, answer) =>
      if p in w.runs {
        RunChanges(w, p, answer, t);
        RunSettlesOne(w, p, answer, t);
      }
    case InitAdvance(i, answer, now) => if i in w.inits { InitSettlesNone(w.l, i, w.inits[i], answer, now, t); }
    case _ =>
  }

  lemma HookSettles(w: World, p: Id, t: Id)
    requires Inv(w) && p in w.hooks && !SettledAfterAcceptance(w.l, t)
    requires SettledAfterAcceptance(HookStep(w.l, w.hooks[p].d, w.hooks[p].phase).l, t)
    ensures PassesHook(w, HookAdvance(p), t)
  {
    var h := w.hooks[p];
    if h.phase.Claimed? {
      ClaimedLedger(w.l, h.d, h.phase);
      Settled(w.l, h.phase.tx, StatusOf(h.d.event), Cause("webhook", h.d.receipt));
    } else {
      KeyStepEvolves(w.l, h.d, h.phase);
    }
  }

  lemma RunSettlesOne(w: World, p: Id, answer: QueryAnswer, t: Id)
    requires Inv(w) && p in w.runs && !SettledAfterAcceptance(w.l, t)
    requires SettledAfterAcceptance(RecStep(w.l, w.runs[p], answer).l, t)
    ensures SettlesByRun(w, RunAdvance(p, answer), t)
  {
    var r := w.runs[p];
    RecLedger(w.l, r, answer);
    if r.announce.None? && r.queue != [] && answer.QueryStatus? && answer.status != TxPending {
      Settled(w.l, r.queue[0], answer.status, Cause("reconciliation", answer.receipt));
    }
  }

  lemma InitSettlesNone(l: Ledger, i: Id, phase: InitPhase, answer: InitAnswer, now: int, t: Id)
    requires !SettledAfterAcceptance(l, t)
    ensures !SettledAfterAcceptance(InitStep(l, i, phase, answer, now).l, t)
  {
  }

  lemma {:induction false} RunTraced(w: World, actions: seq<Action>, t: Id, seen: bool)
    requires Inv(w) && Traced(w, t, seen) && Lossless(actions)
    ensures Traced(Run(w, actions), t, seen || Repeated(w, actions, t))
    decreases |actions|
  {
    if actions != [] {
      StepTraced(w, actions[0], t, seen);
      StepKeeps(w, actions[0]);
      RunTraced(Next(w, actions[0]), actions[1..], t, seen || Redundant(w, actions[0], t));
    }
  }

  /** Over every run in which no delivery and no reconciliation run crashes: once nobody is still to announce
      it, an attempt has been announced twice exactly when a delivery reached settlement when the attempt
      already held the status its event names. */
  lemma TwiceIffRepeated(actions: seq<Action>, t: Id)
    requires Lossless(actions) && Idle(Run(START, actions), t)
    ensures Count(Run(START, actions).events, t) == 2 <==> Repeated(START, actions, t)
  {
    AnnouncedTwice(actions, t);
    RunTraced(START, actions, t, false);
    if Count(Run(START, actions).events, t) == 2 { TwiceOnlyByRepetition(actions, t); }
  }
}
