/** What holds in every reachable state of the settlement protocol, whatever the interleaving and
    wherever processes crash. */
module PaymentTheorems {
  import opened Wrappers
  import opened PaymentLedger
  import opened PaymentProtocol
  import opened PaymentSafety
  import opened PaymentDeliveries

  // ----- every step keeps the invariant and never unwrites a row -----

  lemma StepKeeps(w: World, a: Action)
    requires Inv(w)
    ensures Inv(Next(w, a))
  {
    match a
    case Initiate(i, t, amount, provider) => InitiateKeeps(w, Next(w, a), i, t, amount, provider);
    case InitAdvance(i, answer, now) =>
      if i in w.inits {
        if w.inits[i].Announcing? {
          AnnouncingKeeps(w, i, answer, now);
        } else {
          InitAdvanceKeeps(w, i, answer, now);
        }
      }
    case HookAdvance(p) => HookStepKeeps(w, p);
    case RunAdvance(p, answer) => if p in w.runs { RunStep(w, p, answer); }
    case _ => BookkeepingKeeps(w, a);
  }

  lemma HookStepKeeps(w: World, p: Id)
    requires Inv(w)
    ensures Inv(Next(w, HookAdvance(p)))
  {
    if p in w.hooks {
      match w.hooks[p].phase
      case Arrived => ArrivedStep(w, p);
      case Correlated(_) => CorrelatedStep(w, p);
      case Claimed(_) => ClaimedStep(w, p);
      case Applied(_) => AppliedStep(w, p);
      case Completed(_) => CompletedStep(w, p);
    }
  }

  /** Arrivals and crashes. */
  lemma BookkeepingKeeps(w: World, a: Action)
    requires Inv(w) && (a.InitCrash? || a.Deliver? || a.HookCrash? || a.StartRun? || a.RunCrash?)
    ensures Inv(Next(w, a))
  {
    match a
    case InitCrash(i) => InitGone(w, i);
    case Deliver(p, d) => if p !in w.hooks { ContinueKeeps(w, p, Hook(d, Arrived)); }
    case HookCrash(p) => HookGone(w, p);
    case StartRun(p, _, _, batch) =>
      RunSetKeeps(w, p, RecRun(batch, None, ReconcileResult(|batch|, 0, 0, 0)));
    case RunCrash(p) => RunGone(w, p);
  }

  lemma InitGone(w: World, i: Id)
    requires Inv(w)
    ensures Inv(w.(inits := w.inits - {i}))
  {
  }

  lemma HookGone(w: World, p: Id)
    requires Inv(w)
    ensures Inv(w.(hooks := w.hooks - {p}))
  {
    HookRemoved(w.l, w.hooks, p, w.events);
  }

  lemma RunGone(w: World, p: Id)
    requires Inv(w)
    ensures Inv(w.(runs := w.runs - {p}))
  {
    var fewer := w.runs - {p};
    forall q | q in fewer && fewer[q].announce.Some? ensures AnnounceOk(w.l, w.applied, fewer[q].announce.value) {
      assert AnnounceOk(w.l, w.applied, w.runs[q].announce.value);
    }
  }

  lemma SettleEvolves(l: Ledger, t: Id, s: TxStatus, cause: Cause)
    requires LedgerInv(l) && s != TxPending
    ensures Evolves(l, l.Settle(SettlementOf(t, s, cause)).0)
  {
    Settled(l, t, s, cause);
    var (m, r) := l.Settle(SettlementOf(t, s, cause));
    if r == Ok(true) {
      EffectEvolves(l, m, t, s, cause);
    }
  }

  /** The ledger one step leaves. */
  ghost function LedgerAfter(w: World, a: Action): Ledger {
    match a
    case Initiate(i, _, amount, provider) =>
      if amount <= 0 then w.l else w.l.InsertIntent(i, Intent(amount, provider, Created)).0
    case InitAdvance(i, answer, now) => if i in w.inits then InitStep(w.l, i, w.inits[i], answer, now).l else w.l
    case HookAdvance(p) => if p in w.hooks then HookStep(w.l, w.hooks[p].d, w.hooks[p].phase).l else w.l
    case RunAdvance(p, answer) => if p in w.runs then RecStep(w.l, w.runs[p], answer).l else w.l
    case _ => w.l
  }

  lemma NextLedger(w: World, a: Action)
    ensures Next(w, a).l == LedgerAfter(w, a)
  {
  }

  lemma SelfEvolves(l: Ledger)
    ensures Evolves(l, l)
  {
  }

  lemma StepEvolves(w: World, a: Action)
    requires LedgerInv(w.l)
    ensures Evolves(w.l, Next(w, a).l)
  {
    NextLedger(w, a);
    SelfEvolves(w.l);
    match a
    case Initiate(i, _, amount, provider) =>
      if i !in w.l.intents { InsertedUntouched(w.l, i, Intent(amount, provider, Created)); }
    case InitAdvance(i, answer, now) => if i in w.inits { InitStepEvolves(w.l, i, w.inits[i], answer, now); }
    case HookAdvance(p) => if p in w.hooks { HookStepEvolves(w.l, w.hooks[p].d, w.hooks[p].phase); }
    case RunAdvance(p, answer) => if p in w.runs { RecStepEvolves(w.l, w.runs[p], answer); }
    case _ =>
  }

  lemma HookStepEvolves(l: Ledger, d: Delivery, phase: HookPhase)
    requires LedgerInv(l)
    ensures Evolves(l, HookStep(l, d, phase).l)
  {
    if phase.Claimed? {
      ClaimedLedger(l, d, phase);
      SettleEvolves(l, phase.tx, StatusOf(d.event), Cause("webhook", d.receipt));
    } else {
      KeyStepEvolves(l, d, phase);
    }
  }

  /** A settlement that is refused leaves the ledger as it was, so the step's ledger is the settlement's. */
  lemma ClaimedLedger(l: Ledger, d: Delivery, phase: HookPhase)
    requires phase.Claimed?
    ensures HookStep(l, d, phase).l == l.Settle(SettlementOf(phase.tx, StatusOf(d.event), Cause("webhook", d.receipt))).0
  {
  }

  lemma KeyStepEvolves(l: Ledger, d: Delivery, phase: HookPhase)
    requires !phase.Claimed?
    ensures var m := HookStep(l, d, phase).l;
            && Evolves(l, m) && m == l.(keys := m.keys)
            && forall k :: k in l.keys && m.keys[k] != l.keys[k] ==> phase.Applied? && k == KeyOf(d, phase.tx)
  {
    match phase
    case Arrived => SelfEvolves(l);
    case Correlated(t) => ClaimEvolves(l, KeyOf(d, t), d.hash);
    case Applied(t) => CompletedEvolves(l, KeyOf(d, t));
    case Completed(_) => SelfEvolves(l);
    case Claimed(_) =>
  }

  lemma ClaimEvolves(l: Ledger, k: Key, hash: string)
    ensures Evolves(l, l.ClaimKey(k, hash).0)
  {
  }

  lemma RecStepEvolves(l: Ledger, r: RecRun, answer: QueryAnswer)
    requires LedgerInv(l)
    ensures Evolves(l, RecStep(l, r, answer).l)
  {
    RecLedger(l, r, answer);
    SelfEvolves(l);
    if r.queue != [] && answer.QueryStatus? && answer.status != TxPending {
      SettleEvolves(l, r.queue[0], answer.status, Cause("reconciliation", answer.receipt));
    }
  }

  lemma RecLedger(l: Ledger, r: RecRun, answer: QueryAnswer)
    ensures var m := RecStep(l, r, answer).l;
            m == l || (r.queue != [] && answer.QueryStatus? && answer.status != TxPending
                       && m == l.Settle(SettlementOf(r.queue[0], answer.status, Cause("reconciliation", answer.receipt))).0)
  {
  }

  lemma InitStepEvolves(l: Ledger, i: Id, phase: InitPhase, answer: InitAnswer, now: int)
    ensures Evolves(l, InitStep(l, i, phase, answer, now).l)
  {
    match phase
    case Calling(t, amount, provider) =>
      var ref := if answer.Accepted? && answer.ref != "" then Some(answer.ref) else None;
      InsertTxEvolves(l, t, Transaction(i, provider, ref, if answer.Accepted? then TxPending else TxFailed, amount, now, ""));
    case Recorded(t, accepted) =>
      MovedUntouched(l, i, Created, Processing, "provider accepted the initiation");
      MovedUntouched(l, i, Created, Failed, "provider rejected the initiation");
    case Announcing(_) =>
  }

  lemma EvolvesTransitive(l: Ledger, m: Ledger, n: Ledger)
    requires Evolves(l, m) && Evolves(m, n)
    ensures Evolves(l, n)
  {
  }

  lemma {:induction false} RunKeeps(w: World, actions: seq<Action>)
    requires Inv(w)
    ensures Inv(Run(w, actions)) && Evolves(w.l, Run(w, actions).l)
    decreases |actions|
  {
    if actions != [] {
      StepKeeps(w, actions[0]);
      StepEvolves(w, actions[0]);
      RunKeeps(Next(w, actions[0]), actions[1..]);
      EvolvesTransitive(w.l, Next(w, actions[0]).l, Run(w, actions).l);
    }
  }

  /** The invariant holds in every reachable state. */
  lemma Reachable(actions: seq<Action>)
    ensures Inv(Run(START, actions))
  {
    RunKeeps(START, actions);
  }

  // ----- the ledger agrees with itself -----

  /** Every attempt belongs to one intent, every intent has one attempt at most, and their statuses
      agree: PROCESSING beside PENDING, SUCCEEDED beside SUCCEEDED, FAILED beside FAILED, and CREATED
      beside none, PENDING or FAILED. */
  lemma Agreement(actions: seq<Action>)
    ensures var l := Run(START, actions).l;
            && (forall t :: t in l.txs ==>
                  var i := l.txs[t].intent;
                  && i in l.intents
                  && match l.intents[i].status
                     case Created => l.txs[t].status == TxPending || l.txs[t].status == TxFailed
                     case Processing => l.txs[t].status == TxPending
                     case Succeeded => l.txs[t].status == TxSucceeded
                     case Failed => l.txs[t].status == TxFailed
                     case Canceled => false)
            && (forall t, u :: t in l.txs && u in l.txs && l.txs[t].intent == l.txs[u].intent ==> t == u)
            && (forall i :: i in l.intents ==> l.intents[i].status == Created || exists t :: t in l.txs && l.txs[t].intent == i)
  {
    Reachable(actions);
    var l := Run(START, actions).l;
    forall t, u | t in l.txs && u in l.txs && l.txs[t].intent == l.txs[u].intent
      ensures t == u
    {
      assert TxFor(l.txs, t, l.txs[t].intent) && TxFor(l.txs, u, l.txs[t].intent);
    }
    forall i | i in l.intents && l.intents[i].status != Created
      ensures exists t :: t in l.txs && l.txs[t].intent == i
    {
      var t :| TxFor(l.txs, t, i);
    }
  }

  /** A terminal intent or attempt status, and every amount, provider and reference, is there for good. */
  lemma SettledForGood(before: seq<Action>, after: seq<Action>)
    ensures var l := Run(START, before).l;
            var m := Run(Run(START, before), after).l;
            && (forall i :: i in l.intents ==>
                  i in m.intents && m.intents[i] == l.intents[i].(status := m.intents[i].status) &&
                  (Terminal(l.intents[i].status) ==> m.intents[i] == l.intents[i]))
            && (forall t :: t in l.txs ==>
                  t in m.txs && m.txs[t] == l.txs[t].(status := m.txs[t].status, receipt := m.txs[t].receipt) &&
                  (l.txs[t].status != TxPending ==> m.txs[t] == l.txs[t]))
  {
    Reachable(before);
    RunKeeps(Run(START, before), after);
  }

  /** Over a whole run, a settlement of one attempt is reported as applied once at most. */
  lemma AppliedOnce(actions: seq<Action>)
    ensures Distinct(Run(START, actions).applied)
  {
    Reachable(actions);
  }

  /** The store's branch for an attempt still pending beside an intent that already settled is dead. */
  lemma SettledBranchUnreachable(actions: seq<Action>, t: Id, s: TxStatus)
    requires s != TxPending && HoldsStatus(Run(START, actions).l, t, TxPending)
    ensures var l := Run(START, actions).l;
            l.txs[t].intent in l.intents && l.intents[l.txs[t].intent].status != IntentFor(s)
  {
    Reachable(actions);
  }

  /** The log of an intent is an unbroken path from CREATED to its status, along edges of the table
      except for the rejection edge. */
  lemma LogIsPath(actions: seq<Action>, i: Id)
    requires i in Run(START, actions).l.intents
    ensures var l := Run(START, actions).l;
            && Path(l.Moves(i), Created, l.intents[i].status)
            && forall m :: m in l.Moves(i) ==> CanTransitionIntent(m.from, m.to) || (m.from == Created && m.to == Failed)
  {
    Reachable(actions);
  }

  /** A logged move the table of legal moves does not have. */
  ghost predicate OffTable(l: Ledger, i: Id) {
    exists k :: 0 <= k < |l.Moves(i)| && !CanTransitionIntent(l.Moves(i)[k].from, l.Moves(i)[k].to)
  }

  /** The table lacks the rejection edge, and a log leaves the table exactly when a rejected initiation
      moves its own intent: no other step of any process adds a move the table does not have. */
  lemma OnlyRejectionsLeaveTheTable(w: World, a: Action, i: Id)
    requires Inv(w) && !OffTable(w.l, i)
    ensures OffTable(Next(w, a).l, i) <==>
            a.InitAdvance? && a.intent == i && i in w.inits && w.inits[i].Recorded? && !w.inits[i].accepted
  {
    NextLedger(w, a);
    match a
    case Initiate(_, _, _, _) => assert LedgerAfter(w, a).Moves(i) == w.l.Moves(i) || LedgerAfter(w, a).Moves(i) == [];
    case InitAdvance(j, answer, now) =>
      if j in w.inits {
        assert InitOk(w.l, j, w.inits[j]);
        InitStepTable(w.l, j, w.inits[j], answer, now, i);
      }
    case HookAdvance(p) => if p in w.hooks { HookKeepsTable(w.l, w.hooks[p].d, w.hooks[p].phase, i); }
    case RunAdvance(p, answer) => if p in w.runs { RunKeepsTable(w.l, w.runs[p], answer, i); }
    case _ =>
  }

  lemma HookKeepsTable(l: Ledger, d: Delivery, phase: HookPhase, i: Id)
    requires LedgerInv(l) && !OffTable(l, i)
    ensures !OffTable(HookStep(l, d, phase).l, i)
  {
    if phase.Claimed? {
      ClaimedLedger(l, d, phase);
      SettleKeepsTable(l, phase.tx, StatusOf(d.event), Cause("webhook", d.receipt), i);
    } else {
      KeyStepEvolves(l, d, phase);
      assert HookStep(l, d, phase).l.Moves(i) == l.Moves(i);
    }
  }

  lemma RunKeepsTable(l: Ledger, r: RecRun, answer: QueryAnswer, i: Id)
    requires LedgerInv(l) && !OffTable(l, i)
    ensures !OffTable(RecStep(l, r, answer).l, i)
  {
    RecLedger(l, r, answer);
    if r.queue != [] && answer.QueryStatus? && answer.status != TxPending {
      SettleKeepsTable(l, r.queue[0], answer.status, Cause("reconciliation", answer.receipt), i);
    }
  }

  lemma LoggedOne(l: Ledger, m: Ledger, i: Id, x: Move)
    requires m.Moves(i) == l.Moves(i) + [x]
    ensures OffTable(m, i) <==> OffTable(l, i) || !CanTransitionIntent(x.from, x.to)
  {
    if OffTable(l, i) {
      var k :| 0 <= k < |l.Moves(i)| && !CanTransitionIntent(l.Moves(i)[k].from, l.Moves(i)[k].to);
      assert m.Moves(i)[k] == l.Moves(i)[k];
    }
    assert m.Moves(i)[|l.Moves(i)|] == x;
  }

  lemma InitStepTable(l: Ledger, j: Id, phase: InitPhase, answer: InitAnswer, now: int, i: Id)
    requires InitOk(l, j, phase) && !OffTable(l, i)
    ensures OffTable(InitStep(l, j, phase, answer, now).l, i) <==> j == i && phase.Recorded? && !phase.accepted
  {
    var m := InitStep(l, j, phase, answer, now).l;
    if phase.Recorded? && j == i {
      var to := if phase.accepted then Processing else Failed;
      var reason := if phase.accepted then "provider accepted the initiation" else "provider rejected the initiation";
      LoggedOne(l, m, i, Move(Created, to, reason));
    } else {
      assert m.Moves(i) == l.Moves(i);
    }
  }

  lemma SettleKeepsTable(l: Ledger, t: Id, s: TxStatus, cause: Cause, i: Id)
    requires LedgerInv(l) && s != TxPending && !OffTable(l, i)
    ensures !OffTable(l.Settle(SettlementOf(t, s, cause)).0, i)
  {
    Settled(l, t, s, cause);
    var (m, r) := l.Settle(SettlementOf(t, s, cause));
    if r == Ok(true) && l.txs[t].intent == i {
      LoggedOne(l, m, i, Move(Processing, IntentFor(s), cause.reason));
    } else {
      assert m.Moves(i) == l.Moves(i);
    }
  }

  // ----- receipts -----

  /** A receipt comes with the outcome, and no two attempts of a provider share one. */
  ghost predicate ReceiptsOk(l: Ledger) {
    && (forall t :: t in l.txs && l.txs[t].status == TxPending ==> l.txs[t].receipt == "")
    && (forall t, u :: t in l.txs && u in l.txs && t != u && l.txs[t].provider == l.txs[u].provider && l.txs[t].receipt != "" ==>
          l.txs[t].receipt != l.txs[u].receipt)
  }

  lemma SettleKeepsReceipts(l: Ledger, t: Id, s: TxStatus, cause: Cause)
    requires LedgerInv(l) && ReceiptsOk(l) && s != TxPending
    ensures ReceiptsOk(l.Settle(SettlementOf(t, s, cause)).0)
  {
    Settled(l, t, s, cause);
  }

  lemma StepKeepsReceipts(w: World, a: Action)
    requires LedgerInv(w.l) && ReceiptsOk(w.l)
    ensures ReceiptsOk(Next(w, a).l)
  {
    NextLedger(w, a);
    match a
    case HookAdvance(p) => if p in w.hooks { HookKeepsReceipts(w.l, w.hooks[p].d, w.hooks[p].phase); }
    case RunAdvance(p, answer) => if p in w.runs { RunKeepsReceipts(w.l, w.runs[p], answer); }
    case InitAdvance(i, answer, now) => if i in w.inits { InitKeepsReceipts(w.l, i, w.inits[i], answer, now); }
    case _ =>
  }

  lemma HookKeepsReceipts(l: Ledger, d: Delivery, phase: HookPhase)
    requires LedgerInv(l) && ReceiptsOk(l)
    ensures ReceiptsOk(HookStep(l, d, phase).l)
  {
    if phase.Claimed? {
      ClaimedLedger(l, d, phase);
      SettleKeepsReceipts(l, phase.tx, StatusOf(d.event), Cause("webhook", d.receipt));
    } else {
      KeyStepEvolves(l, d, phase);
    }
  }

  lemma RunKeepsReceipts(l: Ledger, r: RecRun, answer: QueryAnswer)
    requires LedgerInv(l) && ReceiptsOk(l)
    ensures ReceiptsOk(RecStep(l, r, answer).l)
  {
    RecLedger(l, r, answer);
    if r.queue != [] && answer.QueryStatus? && answer.status != TxPending {
      SettleKeepsReceipts(l, r.queue[0], answer.status, Cause("reconciliation", answer.receipt));
    }
  }

  lemma InitKeepsReceipts(l: Ledger, i: Id, phase: InitPhase, answer: InitAnswer, now: int)
    requires ReceiptsOk(l)
    ensures ReceiptsOk(InitStep(l, i, phase, answer, now).l)
  {
  }

  lemma {:induction false} ReceiptsStay(w: World, actions: seq<Action>)
    requires Inv(w) && ReceiptsOk(w.l)
    ensures ReceiptsOk(Run(w, actions).l)
    decreases |actions|
  {
    if actions != [] {
      StepKeeps(w, actions[0]);
      StepKeepsReceipts(w, actions[0]);
      ReceiptsStay(Next(w, actions[0]), actions[1..]);
    }
  }

  /** In every reachable state a PENDING attempt has no receipt, and no receipt names two attempts of
      one provider. */
  lemma ReceiptsNameOneAttempt(actions: seq<Action>)
    ensures ReceiptsOk(Run(START, actions).l)
  {
    ReceiptsStay(START, actions);
  }

  // ----- webhooks -----

  /** One delivery per key wins the claim, over any number of deliveries and replays. */
  lemma ClaimedOnce(actions: seq<Action>)
    ensures Distinct(Run(START, actions).wins)
  {
    Reachable(actions);
  }

  lemma NextKeepsReplies(w: World, a: Action)
    ensures w.replies <= Next(w, a).replies
  {
  }

  lemma {:induction false} RepliesKept(w: World, actions: seq<Action>)
    ensures w.replies <= Run(w, actions).replies
    decreases |actions|
  {
    if actions != [] {
      NextKeepsReplies(w, actions[0]);
      RepliesKept(Next(w, actions[0]), actions[1..]);
    }
  }

  /** An answer "applied" or "duplicate" was true when given and stays true. */
  lemma AnswersStayTrue(before: seq<Action>, after: seq<Action>, r: Reply)
    requires r in Run(START, before).replies && (r.answer.AnsApplied? || r.answer.AnsDuplicate?)
    ensures HoldsStatus(Run(START, before).l, r.tx, StatusOf(r.event))
    ensures HoldsStatus(Run(Run(START, before), after).l, r.tx, StatusOf(r.event))
  {
    Reachable(before);
    RunKeeps(Run(START, before), after);
    RepliesKept(Run(START, before), after);
  }

  /** A delivery that gets past correlation attests exactly the attempted amount, on the attempt that
      carries its reference, and names no other intent. */
  lemma DeliveriesMatchTheirAttempt(actions: seq<Action>, p: Id)
    requires p in Run(START, actions).hooks && !Run(START, actions).hooks[p].phase.Arrived?
    ensures var h := Run(START, actions).hooks[p];
            var txs := Run(START, actions).l.txs;
            && h.phase.tx in txs && txs[h.phase.tx].provider == h.d.provider && txs[h.phase.tx].ref == Some(h.d.ref)
            && txs[h.phase.tx].amount == h.d.amount && h.d.currency == CURRENCY_KES
            && (h.d.intent.Some? ==> h.d.intent.value == txs[h.phase.tx].intent)
  {
    Reachable(actions);
    assert HookOk(Run(START, actions).l, Run(START, actions).hooks[p]);
  }

  /** How many settled events were published for one attempt, by one path. */
  function CountBy(events: seq<Event>, t: Id, via: Via): nat {
    if events == [] then 0
    else CountBy(events[..|events| - 1], t, via) + (if events[|events| - 1].tx == t && events[|events| - 1].via == via then 1 else 0)
  }

  function Count(events: seq<Event>, t: Id): nat {
    if events == [] then 0 else Count(events[..|events| - 1], t) + (if events[|events| - 1].tx == t then 1 else 0)
  }

  lemma {:induction false} CountSplit(events: seq<Event>, t: Id)
    ensures Count(events, t) == CountBy(events, t, Initiation) + CountBy(events, t, Webhook) + CountBy(events, t, Reconciliation)
  {
    if events != [] {
      CountSplit(events[..|events| - 1], t);
    }
  }

  lemma {:induction false} CountByBound(events: seq<Event>, t: Id, via: Via)
    requires EventsApart(events)
    ensures CountBy(events, t, via) <= 1
    ensures CountBy(events, t, via) == 0 <==> !Published(events, t, via)
  {
    if events != [] {
      var last := events[|events| - 1];
      var init := events[..|events| - 1];
      CountByBound(init, t, via);
      if last.tx == t && last.via == via {
        assert forall e :: e in init ==> e.tx != t || e.via != via;
      }
      assert forall e :: e in events <==> e in init || e == last;
    }
  }

  /** All settled events of one attempt carry its status, and there are two at most. */
  lemma EventsAgree(actions: seq<Action>, t: Id)
    ensures var w := Run(START, actions);
            && (forall e :: e in w.events ==> HoldsStatus(w.l, e.tx, e.status) && e.status != TxPending)
            && Count(w.events, t) <= 2
  {
    Reachable(actions);
    var w := Run(START, actions);
    forall e | e in w.events ensures HoldsStatus(w.l, e.tx, e.status) && e.status != TxPending {
      assert EventOk(w.l, w.applied, e);
    }
    CountSplit(w.events, t);
    CountByBound(w.events, t, Initiation);
    CountByBound(w.events, t, Webhook);
    CountByBound(w.events, t, Reconciliation);
    if Published(w.events, t, Initiation) {
      var e :| e in w.events && e.tx == t && e.via == Initiation;
      assert EventOk(w.l, w.applied, e);
      assert forall x :: x in w.events && x.tx == t ==> EventOk(w.l, w.applied, x);
    }
  }

  /** An attempt is announced twice exactly when both the webhook path and the reconciliation path
      published for it; an initiation that announced a rejection announced it alone. */
  lemma AnnouncedTwice(actions: seq<Action>, t: Id)
    ensures var events := Run(START, actions).events;
            && (Count(events, t) == 2 <==> Published(events, t, Webhook) && Published(events, t, Reconciliation))
            && (Published(events, t, Initiation) ==> Count(events, t) == 1)
  {
    Reachable(actions);
    var w := Run(START, actions);
    CountSplit(w.events, t);
    CountByBound(w.events, t, Initiation);
    CountByBound(w.events, t, Webhook);
    CountByBound(w.events, t, Reconciliation);
    if Published(w.events, t, Initiation) {
      var e :| e in w.events && e.tx == t && e.via == Initiation;
      assert EventOk(w.l, w.applied, e);
      assert forall x :: x in w.events && x.tx == t ==> EventOk(w.l, w.applied, x);
    }
  }

  /** Two announcements do happen: reconciliation settles and announces an attempt, and the webhook
      that arrives afterwards, finding the status it names already there, announces it again. */
  lemma TwiceHappens()
    ensures exists actions: seq<Action> :: Count(Run(START, actions).events, 1) == 2
  {
    var d := Delivery("sandbox", EventSucceeded, "r", 100, CURRENCY_KES, None, "", "h");
    var a1 := [Initiate(1, 1, 100, "sandbox"), InitAdvance(1, Accepted("r"), 0), InitAdvance(1, Unavailable, 0)];
    var a2 := [StartRun(0, 1, 1, [1]), RunAdvance(0, QueryStatus(TxSucceeded, "")), RunAdvance(0, QueryFailed)];
    var w1 := Initiated();
    var w2 := Reconciled(w1);
    RunAppend(START, a1, a2);
    AnnouncedAgain(a1 + a2, d);
  }

  lemma AnnouncedAgain(a: seq<Action>, d: Delivery)
    requires var w := Run(START, a);
             && w.l.txs == map[1 := Transaction(1, "sandbox", Some("r"), TxSucceeded, 100, 0, "")]
             && w.l.keys == map[] && w.hooks == map[] && w.events == [Event(1, TxSucceeded, Reconciliation)]
    requires d == Delivery("sandbox", EventSucceeded, "r", 100, CURRENCY_KES, None, "", "h")
    ensures exists actions: seq<Action> :: Count(Run(START, actions).events, 1) == 2
  {
    var w := Run(START, a);
    assert HasRef(w.l.txs, 1, "sandbox", "r");
    var v := Delivered(w, 0, d, 1);
    var b := [Deliver(0, d), HookAdvance(0), HookAdvance(0), HookAdvance(0), HookAdvance(0), HookAdvance(0)];
    RunAppend(START, a, b);
    CountTwo(Event(1, TxSucceeded, Reconciliation), Event(1, TxSucceeded, Webhook));
    assert Count(Run(START, a + b).events, 1) == 2;
  }

  lemma CountTwo(e: Event, f: Event)
    requires e.tx == f.tx
    ensures Count([e] + [f], e.tx) == 2
  {
    assert ([e] + [f])[..1] == [e] && [e][..0] == [];
    assert Count([e], e.tx) == 1;
  }

  lemma Initiated() returns (w: World)
    ensures w == Run(START, [Initiate(1, 1, 100, "sandbox"), InitAdvance(1, Accepted("r"), 0), InitAdvance(1, Unavailable, 0)])
    ensures w.l.intents == map[1 := Intent(100, "sandbox", Processing)]
    ensures w.l.txs == map[1 := Transaction(1, "sandbox", Some("r"), TxPending, 100, 0, "")]
    ensures w.l.keys == map[] && w.hooks == map[] && w.runs == map[] && w.events == []
  {
    RunThree(START, Initiate(1, 1, 100, "sandbox"), InitAdvance(1, Accepted("r"), 0), InitAdvance(1, Unavailable, 0));
    w := Next(Next(Next(START, Initiate(1, 1, 100, "sandbox")), InitAdvance(1, Accepted("r"), 0)), InitAdvance(1, Unavailable, 0));
  }

  lemma Reconciled(w: World) returns (v: World)
    requires w.l.intents == map[1 := Intent(100, "sandbox", Processing)]
    requires w.l.txs == map[1 := Transaction(1, "sandbox", Some("r"), TxPending, 100, 0, "")]
    requires w.l.keys == map[] && w.hooks == map[] && w.runs == map[] && w.events == []
    ensures v == Run(w, [StartRun(0, 1, 1, [1]), RunAdvance(0, QueryStatus(TxSucceeded, "")), RunAdvance(0, QueryFailed)])
    ensures v.l.txs == map[1 := Transaction(1, "sandbox", Some("r"), TxSucceeded, 100, 0, "")]
    ensures v.l.keys == map[] && v.hooks == map[] && v.events == [Event(1, TxSucceeded, Reconciliation)]
  {
    assert w.l.Stale(1, 1);
    assert w.l.StaleSet(1) == {1};
    RunThree(w, StartRun(0, 1, 1, [1]), RunAdvance(0, QueryStatus(TxSucceeded, "")), RunAdvance(0, QueryFailed));
    var u := Next(w, StartRun(0, 1, 1, [1]));
    assert u == w.(runs := map[0 := RecRun([1], None, ReconcileResult(1, 0, 0, 0))]);
    SettledByRun(u);
    v := Next(Next(u, RunAdvance(0, QueryStatus(TxSucceeded, ""))), RunAdvance(0, QueryFailed));
    RunAnnounceShape(Next(u, RunAdvance(0, QueryStatus(TxSucceeded, ""))), 0, QueryFailed);
  }

  lemma SettledByRun(u: World)
    requires u.l.intents == map[1 := Intent(100, "sandbox", Processing)]
    requires u.l.txs == map[1 := Transaction(1, "sandbox", Some("r"), TxPending, 100, 0, "")]
    requires u.runs == map[0 := RecRun([1], None, ReconcileResult(1, 0, 0, 0))]
    ensures var v := Next(u, RunAdvance(0, QueryStatus(TxSucceeded, "")));
            && v.l.txs == map[1 := Transaction(1, "sandbox", Some("r"), TxSucceeded, 100, 0, "")] && v.l.keys == u.l.keys
            && v.hooks == u.hooks && v.events == u.events
            && 0 in v.runs && v.runs[0].announce == Some(Event(1, TxSucceeded, Reconciliation))
  {
    RunSettleShape(u, 0, TxSucceeded, "");
  }

  lemma RunThree(w: World, a: Action, b: Action, c: Action)
    ensures Run(w, [a, b, c]) == Next(Next(Next(w, a), b), c)
  {
    assert [a, b, c][1..] == [b, c] && [b, c][1..] == [c];
    RunOne(Next(Next(w, a), b), c);
    assert Run(Next(w, a), [b, c]) == Run(Next(Next(w, a), b), [c]);
  }

  lemma RunOne(w: World, a: Action)
    ensures Run(w, [a]) == Next(w, a)
  {
    assert [a][1..] == [];
    assert Run(Next(w, a), []) == Next(w, a);
  }

  lemma {:induction false} RunAppend(w: World, a: seq<Action>, b: seq<Action>)
    ensures Run(w, a + b) == Run(Run(w, a), b)
    decreases |a|
  {
    if a == [] {
      assert a + b == b;
    } else {
      assert (a + b)[1..] == a[1..] + b;
      RunAppend(Next(w, a[0]), a[1..], b);
    }
  }

  /** One delivery run to its end on a ledger that already holds the status it names. */
  lemma Delivered(w: World, p: Id, d: Delivery, t: Id) returns (v: World)
    requires p !in w.hooks && KeyOf(d, t) !in w.l.keys
    requires w.l.ByRef(d.provider, d.ref) == Some(t) && HoldsStatus(w.l, t, StatusOf(d.event))
    requires Attests(d, w.l.txs[t])
    ensures v == Run(w, [Deliver(p, d), HookAdvance(p), HookAdvance(p), HookAdvance(p), HookAdvance(p), HookAdvance(p)])
    ensures v.events == w.events + [Event(t, StatusOf(d.event), Webhook)]
  {
    var w1 := Next(w, Deliver(p, d));
    var w2 := Next(w1, HookAdvance(p));
    assert w2.hooks[p] == Hook(d, Correlated(t)) && w2.l == w.l && w2.events == w.events;
    ClaimWonShape(w2, p);
    var w3 := Next(w2, HookAdvance(p));
    ClaimedShape(w3, p);
    var w4 := Next(w3, HookAdvance(p));
    assert w4.hooks[p] == Hook(d, PaymentProtocol.Applied(t)) && w4.events == w.events;
    AppliedShape(w4, p);
    var w5 := Next(w4, HookAdvance(p));
    CompletedShape(w5, p);
    v := Next(w5, HookAdvance(p));
    RunThree(w, Deliver(p, d), HookAdvance(p), HookAdvance(p));
    RunThree(w3, HookAdvance(p), HookAdvance(p), HookAdvance(p));
    RunAppend(w, [Deliver(p, d), HookAdvance(p), HookAdvance(p)], [HookAdvance(p), HookAdvance(p), HookAdvance(p)]);
    assert [Deliver(p, d), HookAdvance(p), HookAdvance(p)] + [HookAdvance(p), HookAdvance(p), HookAdvance(p)] ==
           [Deliver(p, d), HookAdvance(p), HookAdvance(p), HookAdvance(p), HookAdvance(p), HookAdvance(p)];
  }
}
