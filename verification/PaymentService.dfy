/** The payments service and the reconciliation job as they run: methods that drive the store one
    transaction at a time. Each is proved to do exactly what its process in the settlement protocol
    does when nothing interrupts it. */
module PaymentService {
  import opened Wrappers
  import opened PaymentLedger
  import opened PaymentProtocol
  import Theorems = PaymentTheorems

  // ----- a process run to its end with nothing in between -----

  function InitAlone(l: Ledger, i: Id, phase: InitPhase, answer: InitAnswer, now: int): (Ledger, seq<Event>)
    decreases match phase case Calling(_, _, _) => 2 case Recorded(_, _) => 1 case Announcing(_) => 0
  {
    var e := InitStep(l, i, phase, answer, now);
    if e.next.None? then (e.l, e.events)
    else
      var rest := InitAlone(e.l, i, e.next.value, answer, now);
      (rest.0, e.events + rest.1)
  }

  ghost function HookAlone(l: Ledger, d: Delivery, phase: HookPhase): (Ledger, seq<Event>, Answer)
    decreases match phase case Arrived => 4 case Correlated(_) => 3 case Claimed(_) => 2 case Applied(_) => 1 case Completed(_) => 0
  {
    var e := HookStep(l, d, phase);
    match e.next
    case Finish(_, answer) => (e.l, e.events, answer)
    case Continue(next) =>
      var rest := HookAlone(e.l, d, next);
      (rest.0, e.events + rest.1, rest.2)
  }

  /** One stale attempt of a batch: ask the provider, settle, announce. */
  function RecOne(l: Ledger, t: Id, answer: QueryAnswer, res: ReconcileResult): (Ledger, seq<Event>, ReconcileResult) {
    if answer.QueryFailed? then (l, [], res.(errors := res.errors + 1))
    else if answer.status == TxPending then (l, [], res.(stillPending := res.stillPending + 1))
    else
      var (m, r) := l.Settle(SettlementOf(t, answer.status, Cause("reconciliation", answer.receipt)));
      if r.Err? then (l, [], res.(errors := res.errors + 1))
      else if r.value then (m, [Event(t, answer.status, Reconciliation)], res.(repaired := res.repaired + 1))
      else (m, [], res)
  }

  function RecAlone(l: Ledger, queue: seq<Id>, query: Id -> QueryAnswer, res: ReconcileResult): (Ledger, seq<Event>, ReconcileResult)
    decreases |queue|
  {
    if queue == [] then (l, [], res)
    else
      var one := RecOne(l, queue[0], query(queue[0]), res);
      var rest := RecAlone(one.0, queue[1..], query, one.2);
      (rest.0, one.1 + rest.1, rest.2)
  }

  const FRESH: ReconcileResult := ReconcileResult(0, 0, 0, 0)

  lemma InitSilent(l: Ledger, i: Id, phase: InitPhase, answer: InitAnswer, now: int)
    ensures var e := InitStep(l, i, phase, answer, now);
            e.events == [] && e.next.Some? ==> InitAlone(l, i, phase, answer, now) == InitAlone(e.l, i, e.next.value, answer, now)
  {
    assert forall out: seq<Event> :: [] + out == out;
  }

  lemma HookSilent(l: Ledger, d: Delivery, phase: HookPhase)
    ensures var e := HookStep(l, d, phase);
            e.events == [] && e.next.Continue? ==> HookAlone(l, d, phase) == HookAlone(e.l, d, e.next.phase)
  {
    assert forall out: seq<Event> :: [] + out == out;
  }

  ghost function Advance(w: World, p: Id, n: nat): World
    decreases n
  {
    if n == 0 then w else Advance(Next(w, HookAdvance(p)), p, n - 1)
  }

  function StepsLeft(phase: HookPhase): nat {
    match phase case Arrived => 5 case Correlated(_) => 4 case Claimed(_) => 3 case Applied(_) => 2 case Completed(_) => 1
  }

  lemma {:induction false} AdvanceGone(w: World, p: Id, n: nat)
    requires p !in w.hooks
    ensures Advance(w, p, n) == w
    decreases n
  {
    if n > 0 { AdvanceGone(w, p, n - 1); }
  }

  /** Uninterrupted, a delivery is a run of the protocol: five steps at most. */
  lemma {:induction false} HookAloneIsRun(w: World, p: Id)
    requires p in w.hooks
    ensures var v := Advance(w, p, StepsLeft(w.hooks[p].phase));
            var (l, events, answer) := HookAlone(w.l, w.hooks[p].d, w.hooks[p].phase);
            v.l == l && v.events == w.events + events && v.hooks == w.hooks - {p}
    decreases StepsLeft(w.hooks[p].phase)
  {
    var h := w.hooks[p];
    var e := HookStep(w.l, h.d, h.phase);
    var v := Next(w, HookAdvance(p));
    HookNextShape(w, p);
    AloneUnrolled(w.l, h.d, h.phase);
    assert Advance(w, p, StepsLeft(h.phase)) == Advance(v, p, StepsLeft(h.phase) - 1);
    if e.next.Finish? {
      AdvanceGone(v, p, StepsLeft(h.phase) - 1);
    } else {
      HookGoesOn(w.l, h.d, h.phase);
      assert v.hooks - {p} == w.hooks - {p};
      HookAloneIsRun(v, p);
    }
  }

  lemma AloneUnrolled(l: Ledger, d: Delivery, phase: HookPhase)
    ensures var e := HookStep(l, d, phase);
            HookAlone(l, d, phase) ==
            if e.next.Finish? then (e.l, e.events, e.next.answer)
            else
              var rest := HookAlone(e.l, d, e.next.phase);
              (rest.0, e.events + rest.1, rest.2)
  {
  }

  lemma HookNextShape(w: World, p: Id)
    requires p in w.hooks
    ensures var e := HookStep(w.l, w.hooks[p].d, w.hooks[p].phase);
            var v := Next(w, HookAdvance(p));
            && v.l == e.l && v.events == w.events + e.events
            && v.hooks == match e.next case Continue(phase) => w.hooks[p := Hook(w.hooks[p].d, phase)] case Finish(_, _) => w.hooks - {p}
  {
  }

  lemma HookGoesOn(l: Ledger, d: Delivery, phase: HookPhase)
    ensures var e := HookStep(l, d, phase);
            e.next.Continue? ==> StepsLeft(phase) == StepsLeft(e.next.phase) + 1 && e.events == []
  {
  }

  /** The steps of one attempt's turn: the query and its settlement, and the announcement if there is one. */
  function TurnActions(l: Ledger, p: Id, t: Id, answer: QueryAnswer): seq<Action> {
    [RunAdvance(p, answer)] + if RecOne(l, t, answer, FRESH).1 == [] then [] else [RunAdvance(p, QueryFailed)]
  }

  function BatchActions(l: Ledger, p: Id, queue: seq<Id>, query: Id -> QueryAnswer): seq<Action>
    decreases |queue|
  {
    if queue == [] then []
    else
      TurnActions(l, p, queue[0], query(queue[0])) +
      BatchActions(RecOne(l, queue[0], query(queue[0]), FRESH).0, p, queue[1..], query)
  }

  lemma SilentTurn(w: World, p: Id, answer: QueryAnswer)
    requires p in w.runs && w.runs[p].announce.None? && w.runs[p].queue != []
    ensures var r := w.runs[p];
            var one := RecOne(w.l, r.queue[0], answer, r.result);
            var v := Next(w, RunAdvance(p, answer));
            && v.l == one.0 && v.events == w.events
            && v.runs == w.runs[p := RecRun(r.queue[1..], if one.1 == [] then None else Some(one.1[0]), one.2)]
            && |one.1| <= 1
  {
    var e := RecStep(w.l, w.runs[p], answer);
    assert e.events == [];
  }

  lemma RecTurn(w: World, p: Id, answer: QueryAnswer)
    requires p in w.runs && w.runs[p].announce.None? && w.runs[p].queue != []
    ensures var r := w.runs[p];
            Leaves(w, p, Run(w, TurnActions(w.l, p, r.queue[0], answer)), r.queue[1..], RecOne(w.l, r.queue[0], answer, r.result))
  {
    var r := w.runs[p];
    var one := RecOne(w.l, r.queue[0], answer, r.result);
    assert one.1 == RecOne(w.l, r.queue[0], answer, FRESH).1;
    SilentTurn(w, p, answer);
    var v := Next(w, RunAdvance(p, answer));
    Theorems.RunOne(w, RunAdvance(p, answer));
    if one.1 != [] {
      assert [RunAdvance(p, answer)] + [RunAdvance(p, QueryFailed)] == [RunAdvance(p, answer), RunAdvance(p, QueryFailed)];
      Theorems.RunAppend(w, [RunAdvance(p, answer)], [RunAdvance(p, QueryFailed)]);
      Theorems.RunOne(v, RunAdvance(p, QueryFailed));
      assert one.1 == [one.1[0]];
    }
  }

  /** What p's run leaves in the world: the ledger, the events and its own counters. */
  ghost predicate Leaves(w: World, p: Id, v: World, left: seq<Id>, did: (Ledger, seq<Event>, ReconcileResult)) {
    v.l == did.0 && v.events == w.events + did.1 && v.runs == w.runs[p := RecRun(left, None, did.2)]
  }

  lemma LeavesOnTop(w: World, p: Id, u: World, v: World, left: seq<Id>, one: (Ledger, seq<Event>, ReconcileResult),
                    rest: (Ledger, seq<Event>, ReconcileResult))
    requires Leaves(w, p, u, left, one) && Leaves(u, p, v, [], rest)
    ensures Leaves(w, p, v, [], (rest.0, one.1 + rest.1, rest.2))
  {
    assert w.events + one.1 + rest.1 == w.events + (one.1 + rest.1);
  }

  /** Uninterrupted, a batch is a run of the protocol: one step for every attempt, and one more for every
      settlement it announces. */
  lemma {:induction false} RecAloneIsRun(w: World, p: Id, query: Id -> QueryAnswer)
    requires p in w.runs && w.runs[p].announce.None?
    ensures var r := w.runs[p];
            Leaves(w, p, Run(w, BatchActions(w.l, p, r.queue, query)), [], RecAlone(w.l, r.queue, query, r.result))
    decreases |w.runs[p].queue|
  {
    var r := w.runs[p];
    if r.queue == [] {
      assert w.runs[p := r] == w.runs && w.events + [] == w.events;
    } else {
      var t, q := r.queue[0], query(r.queue[0]);
      var turn := TurnActions(w.l, p, t, q);
      var one := RecOne(w.l, t, q, r.result);
      var u := Run(w, turn);
      RecTurn(w, p, q);
      SameWhateverTheCount(w.l, t, q, r.result);
      RecAloneIsRun(u, p, query);
      var more := BatchActions(one.0, p, r.queue[1..], query);
      Theorems.RunAppend(w, turn, more);
      LeavesOnTop(w, p, u, Run(u, more), r.queue[1..], one, RecAlone(one.0, r.queue[1..], query, one.2));
    }
  }

  lemma SameWhateverTheCount(l: Ledger, t: Id, q: QueryAnswer, res: ReconcileResult)
    ensures RecOne(l, t, q, res).0 == RecOne(l, t, q, FRESH).0 && RecOne(l, t, q, res).1 == RecOne(l, t, q, FRESH).1
  {
  }

  /** An initiation that runs alone from a fresh intent leaves the table of legal moves exactly when the
      provider rejects it and the rejection is recorded. */
  lemma RejectionLeavesTheTable(l: Ledger, i: Id, t: Id, amount: int, provider: string, answer: InitAnswer, now: int)
    requires i !in l.intents
    ensures var start := l.InsertIntent(i, Intent(amount, provider, Created)).0;
            var end := InitAlone(start, i, Calling(t, amount, provider), answer, now).0;
            Theorems.OffTable(end, i) <==> answer.Rejected? && t !in l.txs
  {
    var start := l.InsertIntent(i, Intent(amount, provider, Created)).0;
    InitSilent(start, i, Calling(t, amount, provider), answer, now);
    var e := InitStep(start, i, Calling(t, amount, provider), answer, now);
    assert start.Moves(i) == [] && !Theorems.OffTable(start, i);
    if e.next.Some? {
      RecordedAlone(e.l, i, t, answer.Accepted?, answer, now);
    }
  }

  lemma RecordedAlone(l: Ledger, i: Id, t: Id, accepted: bool, answer: InitAnswer, now: int)
    requires i in l.intents && l.intents[i].status == Created && l.Moves(i) == []
    ensures Theorems.OffTable(InitAlone(l, i, Recorded(t, accepted), answer, now).0, i) <==> !accepted
  {
    var e := InitStep(l, i, Recorded(t, accepted), answer, now);
    if accepted {
      Theorems.LoggedOne(l, e.l, i, Move(Created, Processing, "provider accepted the initiation"));
    } else {
      Theorems.LoggedOne(l, e.l, i, Move(Created, Failed, "provider rejected the initiation"));
      assert InitAlone(e.l, i, Announcing(t), answer, now).0 == e.l;
    }
  }

  // ----- the service -----

  datatype InitResult = Initiated | ProviderUnavailable | ProviderRejected | InvalidInput | StoreFailed

  const MAX_DESCRIPTION_LENGTH: nat := 200
  const SANDBOX: string := "sandbox"

  datatype Input = Input(amount: int, currency: string, createdBy: Uuid, customer: Option<Uuid>, job: Option<Uuid>,
                         vehicle: Option<Uuid>, provider: string, description: string)

  predicate ValidOptionalId(id: Option<Uuid>) { id != Some(NIL_UUID) }

  /** The adapter an unset provider stands for. */
  function Named(provider: string, byDefault: string): string {
    if provider != "" then provider else if byDefault != "" then byDefault else SANDBOX
  }

  predicate ValidInput(x: Input, providers: set<string>, byDefault: string) {
    && x.amount > 0 && x.currency == CURRENCY_KES && x.createdBy != NIL_UUID
    && ValidOptionalId(x.customer) && ValidOptionalId(x.job) && ValidOptionalId(x.vehicle)
    && Named(x.provider, byDefault) in providers && |x.description| <= MAX_DESCRIPTION_LENGTH
  }

  class Service {
    const store: PaymentStore
    const providers: set<string>
    const byDefault: string
    var events: seq<Event>

    constructor (store: PaymentStore, providers: set<string>, byDefault: string)
      ensures this.store == store && this.providers == providers && this.byDefault == byDefault && events == []
    {
      this.store := store;
      this.providers := providers;
      this.byDefault := byDefault;
      events := [];
    }

    /** `answer` is what the provider says when it is called. */
    method InitiatePayment(i: Id, t: Id, x: Input, answer: InitAnswer, now: int) returns (r: InitResult)
      requires store.Valid()
      modifies this`events, store
      ensures store.Valid()
      ensures old(events) <= events
      ensures r == InvalidInput <==> !ValidInput(x, providers, byDefault)
      ensures r == InvalidInput || i in old(store.intents) ==> store.State() == old(store.State()) && events == old(events)
      ensures r != InvalidInput && i !in old(store.intents) ==>
                var provider := Named(x.provider, byDefault);
                var start := old(store.State()).InsertIntent(i, Intent(x.amount, provider, Created)).0;
                var (l, out) := InitAlone(start, i, Calling(t, x.amount, provider), answer, now);
                store.State() == l && events == old(events) + out
      ensures r == Initiated ==> answer.Accepted? && i in store.intents && store.intents[i].status == Processing &&
                                 t in store.txs && store.txs[t].intent == i && store.txs[t].status == TxPending
      ensures r == ProviderRejected ==> answer.Rejected? && i in store.intents && store.intents[i].status == Failed &&
                                        t in store.txs && store.txs[t].intent == i && store.txs[t].status == TxFailed
      ensures r == ProviderUnavailable ==> answer.Unavailable? && i in store.intents && store.intents[i].status == Created &&
                                           store.txs == old(store.txs)
    {
      var ok := CheckInput(x);
      if !ok {
        return InvalidInput;
      }
      var amount, provider := x.amount, Named(x.provider, byDefault);
      var c := store.CreateIntent(i, Intent(amount, provider, Created));
      if c.Err? {
        return StoreFailed;
      }
      ghost var l0 := store.State();
      if answer.Unavailable? {
        return ProviderUnavailable;
      }
      InitSilent(l0, i, Calling(t, amount, provider), answer, now);
      if answer.Rejected? {
        var f := store.InsertTransaction(t, Transaction(i, provider, None, TxFailed, amount, now, ""));
        if f.Err? {
          return StoreFailed;
        }
        ghost var l1 := store.State();
        var m := store.UpdateIntentStatus(i, Created, Failed, "provider rejected the initiation");
        if m.Err? {
          return StoreFailed;
        }
        InitSilent(l1, i, Recorded(t, false), answer, now);
        events := events + [Event(t, TxFailed, Initiation)];
        return ProviderRejected;
      }
      var ref := if answer.ref == "" then None else Some(answer.ref);
      var f := store.InsertTransaction(t, Transaction(i, provider, ref, TxPending, amount, now, ""));
      if f.Err? {
        return StoreFailed;
      }
      var m := store.UpdateIntentStatus(i, Created, Processing, "provider accepted the initiation");
      if m.Err? {
        return StoreFailed;
      }
      r := Initiated;
    }

    method CheckInput(x: Input) returns (ok: bool)
      ensures ok == ValidInput(x, providers, byDefault)
    {
      if x.currency != CURRENCY_KES || x.amount <= 0 {
        return false;
      }
      if x.createdBy == NIL_UUID {
        return false;
      }
      if x.customer == Some(NIL_UUID) || x.job == Some(NIL_UUID) || x.vehicle == Some(NIL_UUID) {
        return false;
      }
      if Named(x.provider, byDefault) !in providers {
        return false;
      }
      ok := |x.description| <= MAX_DESCRIPTION_LENGTH;
    }

    method HandleWebhook(d: Delivery) returns (answer: Answer)
      requires store.Valid()
      modifies this`events, store
      ensures store.Valid()
      ensures var (l, out, ans) := HookAlone(old(store.State()), d, Arrived);
              store.State() == l && events == old(events) + out && answer == ans
    {
      ghost var l0 := store.State();
      var found := store.GetTransactionByProviderRef(d.provider, d.ref);
      if found.None? {
        return AnsRejected;
      }
      var t := found.value;
      var tx := store.txs[t];
      if d.currency != CURRENCY_KES || d.amount != tx.amount {
        return AnsRejected;
      }
      if d.intent.Some? && d.intent.value != tx.intent {
        return AnsRejected;
      }
      HookSilent(l0, d, Arrived);
      HookSilent(l0, d, Correlated(t));
      var existing := store.ClaimIdempotencyKey(KeyOf(d, t), d.hash);
      if existing.Some? {
        if existing.value.payloadHash != d.hash {
          return AnsRejected;
        }
        if existing.value.result == "" {
          return AnsInFlight;
        }
        return AnsDuplicate;
      }
      HookSilent(store.State(), d, Claimed(t));
      var r := store.ApplyTransactionOutcome(SettlementOf(t, StatusOf(d.event), Cause("webhook", d.receipt)));
      if r.Err? {
        return AnsConflict;
      }
      HookSilent(store.State(), d, Applied(t));
      store.CompleteIdempotencyKey(KeyOf(d, t), "applied");
      events := events + [Event(t, StatusOf(d.event), Webhook)];
      return AnsApplied;
    }
  }

  class Reconciler {
    const store: PaymentStore
    const batchLimit: int
    var events: seq<Event>

    constructor (store: PaymentStore, batchLimit: int)
      ensures this.store == store && this.batchLimit == batchLimit && events == []
    {
      this.store := store;
      this.batchLimit := batchLimit;
      events := [];
    }

    function Limit(): nat { if batchLimit <= 0 then DEFAULT_RECONCILE_BATCH else batchLimit }

    /** One batch: `cutoff` is now minus the grace window, `query` the providers' answers. */
    method Run(cutoff: int, query: Id -> QueryAnswer) returns (result: ReconcileResult, ghost batch: seq<Id>)
      requires store.Valid()
      modifies this`events, store
      ensures store.Valid()
      ensures old(store.State()).StaleBatch(cutoff, Limit(), batch)
      ensures (store.State(), events, result) == After(old(events), RecAlone(old(store.State()), batch, query, FRESH.(scanned := |batch|)))
    {
      var stale := store.ListStaleIntents(cutoff, Limit());
      batch := stale;
      result := FRESH.(scanned := |stale|);
      ghost var whole := After(events, RecAlone(store.State(), stale, query, result));
      assert stale[0..] == stale;
      for i := 0 to |stale|
        invariant store.Valid()
        invariant After(events, RecAlone(store.State(), stale[i..], query, result)) == whole
      {
        ghost var rest := stale[i..];
        assert rest[0] == stale[i] && rest[1..] == stale[i + 1..];
        ghost var l, published, before := store.State(), events, result;
        result := ReconcileOne(stale[i], query(stale[i]), result);
        AfterOne(published, RecOne(l, stale[i], query(stale[i]), before), RecAlone(store.State(), stale[i + 1..], query, result));
      }
      assert events + [] == events;
    }

    /** The body of the loop. */
    method ReconcileOne(t: Id, q: QueryAnswer, before: ReconcileResult) returns (result: ReconcileResult)
      requires store.Valid()
      modifies this`events, store
      ensures store.Valid()
      ensures (store.State(), events, result) == After(old(events), RecOne(old(store.State()), t, q, before))
    {
      result := before;
      assert events + [] == events;
      if q.QueryFailed? {
        result := result.(errors := result.errors + 1);
      } else if q.status == TxPending {
        result := result.(stillPending := result.stillPending + 1);
      } else {
        var applied := store.ApplyTransactionOutcome(SettlementOf(t, q.status, Cause("reconciliation", q.receipt)));
        if applied.Err? {
          result := result.(errors := result.errors + 1);
        } else if applied.value {
          result := result.(repaired := result.repaired + 1);
          events := events + [Event(t, q.status, Reconciliation)];
        }
      }
    }
  }

  /** The events published so far, and what more was done. */
  function After(published: seq<Event>, more: (Ledger, seq<Event>, ReconcileResult)): (Ledger, seq<Event>, ReconcileResult) {
    (more.0, published + more.1, more.2)
  }

  lemma AfterOne(published: seq<Event>, one: (Ledger, seq<Event>, ReconcileResult), rest: (Ledger, seq<Event>, ReconcileResult))
    ensures After(published + one.1, rest) == After(published, (rest.0, one.1 + rest.1, rest.2))
  {
    assert published + one.1 + rest.1 == published + (one.1 + rest.1);
  }

  const DEFAULT_RECONCILE_BATCH: nat := 100
}
