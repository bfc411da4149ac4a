/** The settlement protocol: payment initiations, webhook deliveries and reconciliation runs
    racing on one ledger, one store transaction at a time, any of them crashing between steps. */
module PaymentProtocol {
  import opened Wrappers
  import opened PaymentLedger

  datatype Via = Initiation | Webhook | Reconciliation

  /** A published transaction.succeeded / transaction.failed event. */
  datatype Event = Event(tx: Id, status: TxStatus, via: Via)

  /** What one step of a process does: the new ledger, the process's continuation, the events it
      publishes, the idempotency key it wins and the attempt whose settlement it was told it applied. */
  datatype Effect<+P> = Effect(l: Ledger, next: P, events: seq<Event>, wins: seq<Key>, applied: seq<Id>)

  function Silent<P>(l: Ledger, next: P): Effect<P> { Effect(l, next, [], [], []) }

  // ----- initiation -----

  datatype InitAnswer = Accepted(ref: string) | Rejected | Unavailable

  datatype InitPhase =
    | Calling(tx: Id, amount: int, provider: string)
    | Recorded(tx: Id, accepted: bool)
    | Announcing(tx: Id)

  /** After the intent is created: call the provider and record the attempt, move the intent,
      announce a rejection. */
  function InitStep(l: Ledger, i: Id, phase: InitPhase, answer: InitAnswer, now: int): Effect<Option<InitPhase>> {
    match phase
    case Calling(t, amount, provider) =>
      if answer.Unavailable? then Silent(l, None)
      else
        var ref := if answer.Accepted? && answer.ref != "" then Some(answer.ref) else None;
        var status := if answer.Accepted? then TxPending else TxFailed;
        var r := l.InsertTx(t, Transaction(i, provider, ref, status, amount, now, ""));
        Silent(r.0, if r.1.Ok? then Some(Recorded(t, answer.Accepted?)) else None)
    case Recorded(t, accepted) =>
      var r := if accepted then l.MoveIntent(i, Created, Processing, "provider accepted the initiation")
               else l.MoveIntent(i, Created, Failed, "provider rejected the initiation");
      Silent(r.0, if r.1.Ok? && !accepted then Some(Announcing(t)) else None)
    case Announcing(t) =>
      Effect(l, None, [Event(t, TxFailed, Initiation)], [], [])
  }

  // ----- webhook delivery -----

  /** An authenticated, parsed delivery; `hash` is the hash of its raw body. */
  datatype Delivery = Delivery(provider: string, event: WebhookEvent, ref: string, amount: int, currency: string,
                               intent: Option<Id>, receipt: string, hash: string)

  /** The delivery attests exactly the attempted amount, in its currency, and names no other intent. */
  predicate Attests(d: Delivery, t: Transaction) {
    d.currency == CURRENCY_KES && d.amount == t.amount && (d.intent.Some? ==> d.intent.value == t.intent)
  }

  datatype HookPhase = Arrived | Correlated(tx: Id) | Claimed(tx: Id) | Applied(tx: Id) | Completed(tx: Id)

  datatype Answer = AnsApplied | AnsDuplicate | AnsRejected | AnsInFlight | AnsConflict

  datatype HookNext = Continue(phase: HookPhase) | Finish(tx: Option<Id>, answer: Answer)

  function StatusOf(e: WebhookEvent): TxStatus { if e.EventFailed? then TxFailed else TxSucceeded }

  function KeyOf(d: Delivery, t: Id): Key { Key(d.provider, d.event, t) }

  /** Who settles, and the receipt they bring. */
  datatype Cause = Cause(reason: string, receipt: string)

  function SettlementOf(t: Id, s: TxStatus, cause: Cause): Settlement { Settlement(t, s, IntentFor(s), cause.reason, cause.receipt) }

  ghost function HookStep(l: Ledger, d: Delivery, phase: HookPhase): Effect<HookNext> {
    match phase
    case Arrived =>
      var found := l.ByRef(d.provider, d.ref);
      if found.None? then Silent(l, Finish(None, AnsRejected))
      else
        var tx := l.txs[found.value];
        if !Attests(d, tx)
        then Silent(l, Finish(found, AnsRejected))
        else Silent(l, Continue(Correlated(found.value)))
    case Correlated(t) =>
      var r := l.ClaimKey(KeyOf(d, t), d.hash);
      if r.1.None? then Effect(r.0, Continue(Claimed(t)), [], [KeyOf(d, t)], [])
      else if r.1.value.payloadHash != d.hash then Silent(l, Finish(Some(t), AnsRejected))
      else if r.1.value.result == "" then Silent(l, Finish(Some(t), AnsInFlight))
      else Silent(l, Finish(Some(t), AnsDuplicate))
    case Claimed(t) =>
      var r := l.Settle(SettlementOf(t, StatusOf(d.event), Cause("webhook", d.receipt)));
      if r.1.Err? then Silent(l, Finish(Some(t), AnsConflict))
      else Effect(r.0, Continue(Applied(t)), [], [], if r.1.value then [t] else [])
    case Applied(t) =>
      Silent(l.CompleteKey(KeyOf(d, t), "applied"), Continue(Completed(t)))
    case Completed(t) =>
      Effect(l, Finish(Some(t), AnsApplied), [Event(t, StatusOf(d.event), Webhook)], [], [])
  }

  // ----- reconciliation run -----

  datatype QueryAnswer = QueryFailed | QueryStatus(status: TxStatus, receipt: string)

  datatype ReconcileResult = ReconcileResult(scanned: nat, repaired: nat, stillPending: nat, errors: nat)

  datatype RecRun = RecRun(queue: seq<Id>, announce: Option<Event>, result: ReconcileResult)

  /** Publish the settlement just applied, or take the next stale attempt of the batch. */
  function RecStep(l: Ledger, r: RecRun, answer: QueryAnswer): Effect<RecRun> {
    if r.announce.Some? then Effect(l, r.(announce := None), [r.announce.value], [], [])
    else if r.queue == [] then Silent(l, r)
    else
      var t := r.queue[0];
      var rest := r.(queue := r.queue[1..]);
      match answer
      case QueryFailed => Silent(l, rest.(result := r.result.(errors := r.result.errors + 1)))
      case QueryStatus(s, receipt) =>
        if s == TxPending then Silent(l, rest.(result := r.result.(stillPending := r.result.stillPending + 1)))
        else
          var o := l.Settle(SettlementOf(t, s, Cause("reconciliation", receipt)));
          if o.1.Err? then Silent(l, rest.(result := r.result.(errors := r.result.errors + 1)))
          else if o.1.value then
            Effect(o.0, rest.(announce := Some(Event(t, s, Reconciliation)), result := r.result.(repaired := r.result.repaired + 1)),
                   [], [], [t])
          else Silent(o.0, rest)
  }

  // ----- the interleaving -----

  datatype Hook = Hook(d: Delivery, phase: HookPhase)

  datatype Reply = Reply(tx: Id, event: WebhookEvent, answer: Answer)

  /** The ledger, the live processes, and the history of published events, won keys, applied
      settlements and webhook answers. An initiation is named by the intent it created. */
  datatype World = World(l: Ledger, inits: map<Id, InitPhase>, hooks: map<Id, Hook>, runs: map<Id, RecRun>,
                         events: seq<Event>, wins: seq<Key>, applied: seq<Id>, replies: seq<Reply>)
  {
    function After<P>(e: Effect<P>): World {
      this.(l := e.l, events := events + e.events, wins := wins + e.wins, applied := applied + e.applied)
    }
  }

  const START: World := World(EMPTY_LEDGER, map[], map[], map[], [], [], [], [])

  datatype Action =
    | Initiate(intent: Id, tx: Id, amount: int, provider: string)
    | InitAdvance(intent: Id, answer: InitAnswer, now: int)
    | InitCrash(intent: Id)
    | Deliver(pid: Id, d: Delivery)
    | HookAdvance(pid: Id)
    | HookCrash(pid: Id)
    | StartRun(pid: Id, cutoff: int, limit: nat, batch: seq<Id>)
    | RunAdvance(pid: Id, query: QueryAnswer)
    | RunCrash(pid: Id)

  ghost function Next(w: World, a: Action): World {
    match a
    case Initiate(i, t, amount, provider) =>
      var r := w.l.InsertIntent(i, Intent(amount, provider, Created));
      if amount <= 0 || r.1.Err? then w else w.(l := r.0, inits := w.inits[i := Calling(t, amount, provider)])
    case InitAdvance(i, answer, now) =>
      if i !in w.inits then w
      else
        var e := InitStep(w.l, i, w.inits[i], answer, now);
        w.After(e).(inits := if e.next.Some? then w.inits[i := e.next.value] else w.inits - {i})
    case InitCrash(i) => w.(inits := w.inits - {i})
    case Deliver(p, d) => if p in w.hooks then w else w.(hooks := w.hooks[p := Hook(d, Arrived)])
    case HookAdvance(p) =>
      if p !in w.hooks then w
      else
        var h := w.hooks[p];
        var e := HookStep(w.l, h.d, h.phase);
        (match e.next
         case Continue(phase) => w.After(e).(hooks := w.hooks[p := Hook(h.d, phase)])
         case Finish(t, answer) =>
           w.After(e).(hooks := w.hooks - {p},
                       replies := w.replies + (if t.Some? then [Reply(t.value, h.d.event, answer)] else [])))
    case HookCrash(p) => w.(hooks := w.hooks - {p})
    case StartRun(p, cutoff, limit, batch) =>
      if p in w.runs || !w.l.StaleBatch(cutoff, limit, batch) then w
      else w.(runs := w.runs[p := RecRun(batch, None, ReconcileResult(|batch|, 0, 0, 0))])
    case RunAdvance(p, answer) =>
      if p !in w.runs then w
      else
        var e := RecStep(w.l, w.runs[p], answer);
        w.After(e).(runs := w.runs[p := e.next])
    case RunCrash(p) => w.(runs := w.runs - {p})
  }

  ghost function Run(w: World, actions: seq<Action>): World
    decreases |actions|
  {
    if actions == [] then w else Run(Next(w, actions[0]), actions[1..])
  }

  // ----- the ledger invariant -----

  /** Which attempt statuses an intent status may sit beside. */
  predicate Paired(i: IntentStatus, t: TxStatus) {
    match i
    case Created => !t.TxSucceeded?
    case Processing => t.TxPending?
    case Succeeded => t.TxSucceeded?
    case Failed => t.TxFailed?
    case Canceled => false
  }

  ghost predicate TxFor(txs: map<Id, Transaction>, t: Id, i: Id) {
    t in txs && txs[t].intent == i
  }

  ghost predicate OnePerIntent(txs: map<Id, Transaction>) {
    forall t, u, i :: TxFor(txs, t, i) && TxFor(txs, u, i) ==> t == u
  }

  ghost predicate Linked(l: Ledger) {
    forall t :: t in l.txs ==> l.txs[t].intent in l.intents && Paired(l.intents[l.txs[t].intent].status, l.txs[t].status)
  }

  ghost predicate HasTx(txs: map<Id, Transaction>, i: Id) {
    exists t :: TxFor(txs, t, i)
  }

  ghost predicate Backed(l: Ledger) {
    forall i :: i in l.intents && l.intents[i].status != Created ==> HasTx(l.txs, i)
  }

  /** The moves form an unbroken path from one status to another. */
  predicate Path(moves: seq<Move>, from: IntentStatus, to: IntentStatus) {
    if moves == [] then from == to
    else moves[|moves| - 1].to == to && Path(moves[..|moves| - 1], from, moves[|moves| - 1].from)
  }

  /** The edges the service takes: the table's, and the rejection edge the table lacks. */
  predicate Taken(m: Move) {
    (CanTransitionIntent(m.from, m.to) && !m.to.Canceled?) || (m.from.Created? && m.to.Failed?)
  }

  ghost predicate Logged(l: Ledger) {
    forall i :: i in l.intents ==>
      i in l.log && Path(l.log[i], Created, l.intents[i].status) && forall m :: m in l.log[i] ==> Taken(m)
  }

  ghost predicate LedgerInv(l: Ledger) {
    OnePerIntent(l.txs) && Linked(l) && Backed(l) && Logged(l) && UniqueRefs(l.txs)
  }

  ghost predicate HoldsStatus(l: Ledger, t: Id, s: TxStatus) {
    t in l.txs && l.txs[t].status == s
  }

  ghost predicate KeysInv(l: Ledger) {
    forall k :: k in l.keys ==> l.keys[k].result == "" ||
                                (l.keys[k].result == "applied" && HoldsStatus(l, k.tx, StatusOf(k.event)))
  }

  // ----- the process invariants -----

  ghost predicate InitOk(l: Ledger, i: Id, phase: InitPhase) {
    && i in l.intents
    && match phase
       case Calling(_, _, _) => l.intents[i].status == Created && !HasTx(l.txs, i)
       case Recorded(t, accepted) =>
         && l.intents[i].status == Created && TxFor(l.txs, t, i)
         && (if accepted then l.txs[t].status == TxPending else l.txs[t].status == TxFailed && l.txs[t].ref == None)
       case Announcing(t) =>
         TxFor(l.txs, t, i) && l.txs[t].status == TxFailed && l.txs[t].ref == None && l.intents[i].status == Failed
  }

  /** The attempt a rejected initiation is about to announce. */
  predicate WillAnnounce(phase: InitPhase, t: Id) {
    (phase.Recorded? && !phase.accepted && phase.tx == t) || (phase.Announcing? && phase.tx == t)
  }

  predicate PastClaim(h: Hook) { h.phase.Claimed? || h.phase.Applied? || h.phase.Completed? }

  function KeyHeld(h: Hook): Key
    requires PastClaim(h)
  {
    KeyOf(h.d, h.phase.tx)
  }

  ghost predicate HookOk(l: Ledger, h: Hook) {
    && (!h.phase.Arrived? ==>
          && HasRef(l.txs, h.phase.tx, h.d.provider, h.d.ref)
          && Attests(h.d, l.txs[h.phase.tx]))
    && (PastClaim(h) ==> KeyHeld(h) in l.keys)
    && (h.phase.Applied? || h.phase.Completed? ==> HoldsStatus(l, h.phase.tx, StatusOf(h.d.event)))
    && (h.phase.Completed? ==> l.keys[KeyHeld(h)].result == "applied")
  }

  ghost predicate InitsOk(l: Ledger, inits: map<Id, InitPhase>) {
    forall i :: i in inits ==> InitOk(l, i, inits[i])
  }

  ghost predicate HooksOk(l: Ledger, hooks: map<Id, Hook>) {
    forall p :: p in hooks ==> HookOk(l, hooks[p])
  }

  /** A key is held by one live delivery at most. */
  ghost predicate HooksApart(hooks: map<Id, Hook>) {
    forall p, q :: p in hooks && q in hooks && p != q && PastClaim(hooks[p]) && PastClaim(hooks[q]) ==>
      KeyHeld(hooks[p]) != KeyHeld(hooks[q])
  }

  ghost predicate AnnounceOk(l: Ledger, applied: seq<Id>, e: Event) {
    e.via == Reconciliation && e.tx in applied && HoldsStatus(l, e.tx, e.status) && e.status != TxPending
  }

  ghost predicate RunsOk(l: Ledger, applied: seq<Id>, runs: map<Id, RecRun>) {
    forall p :: p in runs && runs[p].announce.Some? ==> AnnounceOk(l, applied, runs[p].announce.value)
  }

  /** A settlement is announced by one live run at most. */
  ghost predicate RunsApart(runs: map<Id, RecRun>) {
    forall p, q :: p in runs && q in runs && p != q && runs[p].announce.Some? && runs[q].announce.Some? ==>
      runs[p].announce.value.tx != runs[q].announce.value.tx
  }

  // ----- the history invariants -----

  predicate Distinct<T(==)>(s: seq<T>) {
    forall i, j :: 0 <= i < j < |s| ==> s[i] != s[j]
  }

  ghost predicate EventOk(l: Ledger, applied: seq<Id>, e: Event) {
    && HoldsStatus(l, e.tx, e.status) && e.status != TxPending
    && match e.via
       case Initiation => l.txs[e.tx].ref == None && e.tx !in applied
       case Webhook => l.txs[e.tx].ref.Some? && Key(l.txs[e.tx].provider, EventOf(e.status), e.tx) in l.keys
       case Reconciliation => e.tx in applied
  }

  function EventOf(s: TxStatus): WebhookEvent { if s.TxFailed? then EventFailed else EventSucceeded }

  ghost predicate EventsOk(l: Ledger, applied: seq<Id>, events: seq<Event>) {
    forall e :: e in events ==> EventOk(l, applied, e)
  }

  ghost predicate EventsApart(events: seq<Event>) {
    forall i, j :: 0 <= i < j < |events| ==> events[i].tx != events[j].tx || events[i].via != events[j].via
  }

  ghost predicate WinsOk(l: Ledger, wins: seq<Key>) {
    Distinct(wins) && forall k :: k in wins <==> k in l.keys
  }

  ghost predicate AppliedOk(l: Ledger, applied: seq<Id>) {
    Distinct(applied) && forall t :: t in applied ==> t in l.txs && l.txs[t].status != TxPending
  }

  ghost predicate RepliesOk(l: Ledger, replies: seq<Reply>) {
    forall r :: r in replies && (r.answer.AnsApplied? || r.answer.AnsDuplicate?) ==> HoldsStatus(l, r.tx, StatusOf(r.event))
  }

  // ----- nobody is about to publish what the same path already published -----

  ghost predicate Published(events: seq<Event>, t: Id, via: Via) {
    exists e :: e in events && e.tx == t && e.via == via
  }

  ghost predicate InitsQuiet(inits: map<Id, InitPhase>, applied: seq<Id>, events: seq<Event>) {
    forall i, t :: i in inits && WillAnnounce(inits[i], t) ==> t !in applied && !Published(events, t, Initiation)
  }

  ghost predicate HooksQuiet(hooks: map<Id, Hook>, events: seq<Event>) {
    forall p, e :: p in hooks && e in events && PastClaim(hooks[p]) && e.via == Webhook && e.tx == hooks[p].phase.tx ==>
      e.status != StatusOf(hooks[p].d.event)
  }

  ghost predicate RunsQuiet(runs: map<Id, RecRun>, events: seq<Event>) {
    forall p :: p in runs && runs[p].announce.Some? ==> !Published(events, runs[p].announce.value.tx, Reconciliation)
  }

  // ----- the invariant -----

  ghost predicate Core(l: Ledger, inits: map<Id, InitPhase>) {
    LedgerInv(l) && InitsOk(l, inits)
  }

  ghost predicate Live(l: Ledger, hooks: map<Id, Hook>, runs: map<Id, RecRun>, applied: seq<Id>) {
    HooksOk(l, hooks) && HooksApart(hooks) && RunsOk(l, applied, runs) && RunsApart(runs)
  }

  ghost predicate History(l: Ledger, events: seq<Event>, wins: seq<Key>, applied: seq<Id>, replies: seq<Reply>) {
    KeysInv(l) && EventsOk(l, applied, events) && EventsApart(events) && WinsOk(l, wins) && AppliedOk(l, applied) && RepliesOk(l, replies)
  }

  ghost predicate Quiet(inits: map<Id, InitPhase>, hooks: map<Id, Hook>, runs: map<Id, RecRun>, applied: seq<Id>, events: seq<Event>) {
    InitsQuiet(inits, applied, events) && HooksQuiet(hooks, events) && RunsQuiet(runs, events)
  }

  ghost predicate Inv(w: World) {
    && Core(w.l, w.inits)
    && Live(w.l, w.hooks, w.runs, w.applied)
    && History(w.l, w.events, w.wins, w.applied, w.replies)
    && Quiet(w.inits, w.hooks, w.runs, w.applied, w.events)
  }
}
