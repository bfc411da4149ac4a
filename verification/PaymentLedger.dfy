/** The payments ledger: intents, settlement attempts, idempotency keys and the
    append-only log of intent moves (backend/payments/store.go). Every database
    transaction is one atomic operation. `Ledger` is the value of the tables;
    `PaymentStore` is the store that updates them in place. */
module PaymentLedger {
  import opened Wrappers

  /** The id of a row: only identity and order matter. */
  type Id = nat

  datatype IntentStatus = Created | Processing | Succeeded | Failed | Canceled

  datatype TxStatus = TxPending | TxSucceeded | TxFailed

  /** The one currency every row is in. */
  const CURRENCY_KES: string := "KES"

  /** The row of payment_intents; the amount is immutable after creation. */
  datatype Intent = Intent(amount: int, provider: string, status: IntentStatus)

  /** The row of payment_transactions. `ref` is None for a NULL provider_ref, `receipt` empty for a NULL
      provider_receipt. */
  datatype Transaction = Transaction(intent: Id, provider: string, ref: Option<string>, status: TxStatus,
                                     amount: int, createdAt: int, receipt: string)

  /** One row of payment_intent_transitions. */
  datatype Move = Move(from: IntentStatus, to: IntentStatus, reason: string)

  datatype WebhookEvent = EventSucceeded | EventFailed

  /** "webhook:<provider>:<event>:<transaction>". */
  datatype Key = Key(provider: string, event: WebhookEvent, tx: Id)

  /** The row of payment_idempotency_keys: `result` is empty until the work completes. */
  datatype Claim = Claim(payloadHash: string, result: string)

  datatype StoreError = NotFound | Conflict | Duplicate

  datatype Outcome<+T> = Ok(value: T) | Err(error: StoreError)

  /** ApplyOutcomeParams: how one settlement attempt ended. */
  datatype Settlement = Settlement(tx: Id, txStatus: TxStatus, intentStatus: IntentStatus, reason: string, receipt: string)

  predicate Terminal(s: IntentStatus) { s.Succeeded? || s.Failed? || s.Canceled? }

  /** The intent status that goes with a terminal transaction status. */
  function IntentFor(s: TxStatus): IntentStatus {
    if s.TxFailed? then Failed else Succeeded
  }

  /** The table of legal intent moves (statemachine.go). */
  predicate CanTransitionIntent(from: IntentStatus, to: IntentStatus) {
    match from
    case Created => to.Processing? || to.Canceled?
    case Processing => to.Succeeded? || to.Failed?
    case _ => false
  }

  /** The settled row: a receipt is stamped with the outcome, if there is one. */
  function Stamped(t: Transaction, s: TxStatus, receipt: string): Transaction {
    t.(status := s, receipt := if receipt != "" then receipt else t.receipt)
  }

  ghost predicate HasRef(txs: map<Id, Transaction>, t: Id, provider: string, ref: string) {
    t in txs && txs[t].provider == provider && txs[t].ref == Some(ref)
  }

  /** The unique index over (provider, provider_ref). */
  ghost predicate UniqueRefs(txs: map<Id, Transaction>) {
    forall t, u, provider, ref :: HasRef(txs, t, provider, ref) && HasRef(txs, u, provider, ref) ==> t == u
  }

  datatype Ledger = Ledger(intents: map<Id, Intent>, txs: map<Id, Transaction>, keys: map<Key, Claim>,
                           log: map<Id, seq<Move>>)
  {
    ghost function ByRef(provider: string, ref: string): Option<Id> {
      if exists t :: HasRef(txs, t, provider, ref) then
        var t :| HasRef(txs, t, provider, ref);
        Some(t)
      else None
    }

    function InsertIntent(id: Id, i: Intent): (Ledger, Outcome<()>) {
      if id in intents then (this, Err(Duplicate))
      else (this.(intents := intents[id := i], log := log[id := []]), Ok(()))
    }

    /** The moves of one intent, oldest first. */
    function Moves(id: Id): seq<Move> {
      if id in log then log[id] else []
    }

    /** Guarded by `from`: the move happens only if the stored status is still the expected one. */
    function MoveIntent(id: Id, from: IntentStatus, to: IntentStatus, reason: string): (Ledger, Outcome<()>) {
      if id !in intents then (this, Err(NotFound))
      else if intents[id].status != from then (this, Err(Conflict))
      else (this.(intents := intents[id := intents[id].(status := to)],
                  log := log[id := Moves(id) + [Move(from, to, reason)]]), Ok(()))
    }

    predicate RefTaken(provider: string, ref: Option<string>) {
      ref.Some? && exists t :: t in txs && txs[t].provider == provider && txs[t].ref == ref
    }

    /** A new attempt has no receipt yet. */
    function InsertTx(id: Id, t: Transaction): (Ledger, Outcome<()>) {
      if id in txs || RefTaken(t.provider, t.ref) then (this, Err(Duplicate))
      else if t.intent !in intents then (this, Err(NotFound))
      else (this.(txs := txs[id := t.(receipt := "")]), Ok(()))
    }

    /** The unique index over (provider, provider_receipt): another attempt of the provider has the receipt. */
    predicate ReceiptTaken(t: Id, receipt: string) {
      receipt != "" && t in txs && exists u :: u in txs && u != t && txs[u].provider == txs[t].provider && txs[u].receipt == receipt
    }

    /** The exactly-once settlement: Ok(true) when this call settled the attempt, Ok(false)
        when it already sat in the requested status. */
    function Settle(p: Settlement): (Ledger, Outcome<bool>) {
      if p.tx !in txs then (this, Err(NotFound))
      else
        var t := txs[p.tx];
        if t.status == p.txStatus then (this, Ok(false))
        else if t.status != TxPending then (this, Err(Conflict))
        else if ReceiptTaken(p.tx, p.receipt) then (this, Err(Duplicate))
        else if t.intent !in intents then (this, Err(NotFound))
        else
          var settled := this.(txs := txs[p.tx := Stamped(t, p.txStatus, p.receipt)]);
          var current := intents[t.intent].status;
          if current == p.intentStatus then (settled, Ok(true))
          else if current != Processing then (this, Err(Conflict))
          else (settled.(intents := intents[t.intent := intents[t.intent].(status := p.intentStatus)],
                         log := log[t.intent := Moves(t.intent) + [Move(current, p.intentStatus, p.reason)]]),
                Ok(true))
    }

    /** Ok(None) when the caller won the claim, Ok(Some(c)) with the stored claim otherwise. */
    function ClaimKey(k: Key, payloadHash: string): (Ledger, Option<Claim>) {
      if k in keys then (this, Some(keys[k]))
      else (this.(keys := keys[k := Claim(payloadHash, "")]), None)
    }

    function CompleteKey(k: Key, result: string): Ledger {
      if k in keys then this.(keys := keys[k := keys[k].(result := result)]) else this
    }

    /** PROCESSING intents whose newest attempt has been PENDING since before the cutoff. */
    ghost predicate Stale(t: Id, cutoff: int) {
      && t in txs
      && txs[t].status == TxPending
      && txs[t].createdAt < cutoff
      && txs[t].intent in intents
      && intents[txs[t].intent].status == Processing
      && Newest(t)
    }

    ghost predicate Newest(t: Id)
      requires t in txs
    {
      forall u :: u in txs && txs[u].intent == txs[t].intent ==>
        txs[u].createdAt < txs[t].createdAt || (txs[u].createdAt == txs[t].createdAt && u <= t)
    }

    ghost function StaleSet(cutoff: int): set<Id> {
      set t | t in txs && Stale(t, cutoff)
    }

    /** An answer of the stale query: the `limit` oldest stale attempts, oldest first, ties in any order. */
    ghost predicate StaleBatch(cutoff: int, limit: nat, batch: seq<Id>) {
      && (forall i :: 0 <= i < |batch| ==> Stale(batch[i], cutoff))
      && (forall i, j :: 0 <= i < j < |batch| ==> batch[i] != batch[j] && txs[batch[i]].createdAt <= txs[batch[j]].createdAt)
      && |batch| <= limit
      && (forall t :: t in StaleSet(cutoff) && t !in batch ==>
            |batch| == limit && forall i :: 0 <= i < |batch| ==> txs[batch[i]].createdAt <= txs[t].createdAt)
    }
  }

  const EMPTY_LEDGER: Ledger := Ledger(map[], map[], map[], map[])

  const DEFAULT_LIST_LIMIT: nat := 50

  /** The store: four tables updated in place. */
  class PaymentStore {
    var intents: map<Id, Intent>
    var txs: map<Id, Transaction>
    var keys: map<Key, Claim>
    var log: map<Id, seq<Move>>

    ghost function State(): Ledger
      reads this
    {
      Ledger(intents, txs, keys, log)
    }

    /** Every intent has its (possibly empty) list of moves. */
    ghost predicate Valid()
      reads this
    {
      intents.Keys <= log.Keys && UniqueRefs(txs)
    }

    constructor ()
      ensures Valid() && State() == EMPTY_LEDGER
    {
      intents, txs, keys, log := map[], map[], map[], map[];
    }

    method CreateIntent(id: Id, i: Intent) returns (r: Outcome<()>)
      requires Valid()
      modifies this
      ensures Valid()
      ensures (State(), r) == old(State().InsertIntent(id, i))
    {
      if id in intents {
        return Err(Duplicate);
      }
      intents := intents[id := i];
      log := log[id := []];
      r := Ok(());
    }

    method UpdateIntentStatus(id: Id, expectedFrom: IntentStatus, newStatus: IntentStatus, reason: string)
      returns (r: Outcome<()>)
      requires Valid()
      modifies this
      ensures Valid()
      ensures (State(), r) == old(State().MoveIntent(id, expectedFrom, newStatus, reason))
    {
      if id !in intents {
        return Err(NotFound);
      }
      var current := intents[id].status;
      if current != expectedFrom {
        return Err(Conflict);
      }
      intents := intents[id := intents[id].(status := newStatus)];
      log := log[id := log[id] + [Move(current, newStatus, reason)]];
      r := Ok(());
    }

    method InsertTransaction(id: Id, t: Transaction) returns (r: Outcome<()>)
      requires Valid()
      modifies this
      ensures Valid()
      ensures (State(), r) == old(State().InsertTx(id, t))
    {
      if id in txs {
        return Err(Duplicate);
      }
      if t.ref.Some? && exists u :: u in txs && txs[u].provider == t.provider && txs[u].ref == t.ref {
        return Err(Duplicate);
      }
      if t.intent !in intents {
        return Err(NotFound);
      }
      txs := txs[id := t.(receipt := "")];
      InsertKeepsUniqueRefs(old(State()), id, t);
      r := Ok(());
    }

    /** Webhook correlation by (provider, provider_ref); a NULL reference never matches. */
    method GetTransactionByProviderRef(provider: string, ref: string) returns (r: Option<Id>)
      requires Valid()
      ensures r == State().ByRef(provider, ref)
    {
      if t :| t in txs && txs[t].provider == provider && txs[t].ref == Some(ref) {
        assert HasRef(txs, t, provider, ref);
        return Some(t);
      }
      r := None;
    }

    /** The transaction row is written before the intent is locked; a conflict found on the
        intent rolls the row back. */
    method ApplyTransactionOutcome(p: Settlement) returns (r: Outcome<bool>)
      requires Valid()
      modifies this
      ensures Valid()
      ensures (State(), r) == old(State().Settle(p))
    {
      if p.tx !in txs {
        return Err(NotFound);
      }
      var t := txs[p.tx];
      if t.status == p.txStatus {
        return Ok(false);
      }
      if t.status != TxPending {
        return Err(Conflict);
      }
      if p.receipt != "" && exists u :: u in txs && u != p.tx && txs[u].provider == t.provider && txs[u].receipt == p.receipt {
        return Err(Duplicate);
      }
      var saved := txs;
      txs := txs[p.tx := t.(status := p.txStatus, receipt := if p.receipt != "" then p.receipt else t.receipt)];
      if t.intent !in intents {
        txs := saved;
        return Err(NotFound);
      }
      var current := intents[t.intent].status;
      if current == p.intentStatus {
        // Already settled: completing the attempt is the convergence.
      } else if current != Processing {
        txs := saved;
        return Err(Conflict);
      } else {
        intents := intents[t.intent := intents[t.intent].(status := p.intentStatus)];
        log := log[t.intent := log[t.intent] + [Move(current, p.intentStatus, p.reason)]];
      }
      SettleKeepsUniqueRefs(old(State()), p);
      r := Ok(true);
    }

    method ClaimIdempotencyKey(k: Key, payloadHash: string) returns (existing: Option<Claim>)
      requires Valid()
      modifies this
      ensures Valid()
      ensures (State(), existing) == old(State().ClaimKey(k, payloadHash))
    {
      if k in keys {
        return Some(keys[k]);
      }
      keys := keys[k := Claim(payloadHash, "")];
      existing := None;
    }

    method CompleteIdempotencyKey(k: Key, result: string)
      requires Valid()
      modifies this
      ensures Valid()
      ensures State() == old(State().CompleteKey(k, result))
    {
      if k in keys {
        keys := keys[k := keys[k].(result := result)];
      }
    }

    /** Selects the oldest remaining stale attempt until the limit is reached. */
    method ListStaleIntents(cutoff: int, limit: int) returns (batch: seq<Id>)
      requires Valid()
      ensures State().StaleBatch(cutoff, if limit <= 0 then DEFAULT_LIST_LIMIT else limit, batch)
    {
      var cap := if limit <= 0 then DEFAULT_LIST_LIMIT else limit;
      var left := set t | t in txs && txs[t].status == TxPending && txs[t].createdAt < cutoff
                          && txs[t].intent in intents && intents[txs[t].intent].status == Processing
                          && forall u :: u in txs && txs[u].intent == txs[t].intent ==>
                            txs[u].createdAt < txs[t].createdAt || (txs[u].createdAt == txs[t].createdAt && u <= t);
      assert left == State().StaleSet(cutoff);
      batch := TakeOldest(txs, left, cap);
    }
  }

  /** ORDER BY created_at ASC LIMIT cap over the rows in `s`. */
  method TakeOldest(txs: map<Id, Transaction>, s: set<Id>, cap: nat) returns (batch: seq<Id>)
    requires s <= txs.Keys
    ensures |batch| <= cap
    ensures forall i :: 0 <= i < |batch| ==> batch[i] in s
    ensures forall i, j :: 0 <= i < j < |batch| ==> batch[i] != batch[j] && txs[batch[i]].createdAt <= txs[batch[j]].createdAt
    ensures forall t :: t in s && t !in batch ==>
              |batch| == cap && forall i :: 0 <= i < |batch| ==> txs[batch[i]].createdAt <= txs[t].createdAt
  {
    batch := [];
    var left := s;
    while |batch| < cap && left != {}
      invariant |batch| <= cap
      invariant left <= s
      invariant forall t :: t in s ==> t in left || t in batch
      invariant forall i :: 0 <= i < |batch| ==> batch[i] in s && batch[i] !in left
      invariant forall i, j :: 0 <= i < j < |batch| ==> batch[i] != batch[j] && txs[batch[i]].createdAt <= txs[batch[j]].createdAt
      invariant forall i, t :: 0 <= i < |batch| && t in left ==> txs[batch[i]].createdAt <= txs[t].createdAt
      decreases |left|
    {
      ghost var w := OldestExists(txs, left);
      var t :| t in left && forall u :: u in left ==> txs[t].createdAt <= txs[u].createdAt;
      left := left - {t};
      batch := batch + [t];
    }
  }

  lemma InsertKeepsUniqueRefs(l: Ledger, id: Id, t: Transaction)
    requires UniqueRefs(l.txs)
    ensures UniqueRefs(l.InsertTx(id, t).0.txs)
  {
    var m := l.InsertTx(id, t).0;
    forall a, b, provider, ref | HasRef(m.txs, a, provider, ref) && HasRef(m.txs, b, provider, ref)
      ensures a == b
    {
      if m != l && a != id && b != id {
        assert HasRef(l.txs, a, provider, ref) && HasRef(l.txs, b, provider, ref);
      }
    }
  }

  lemma SettleKeepsUniqueRefs(l: Ledger, p: Settlement)
    requires UniqueRefs(l.txs)
    ensures UniqueRefs(l.Settle(p).0.txs)
  {
    var m := l.Settle(p).0;
    forall a, b, provider, ref | HasRef(m.txs, a, provider, ref) && HasRef(m.txs, b, provider, ref)
      ensures a == b
    {
      assert HasRef(l.txs, a, provider, ref) && HasRef(l.txs, b, provider, ref);
    }
  }

  lemma OldestExists(txs: map<Id, Transaction>, s: set<Id>) returns (t: Id)
    requires s != {} && s <= txs.Keys
    ensures t in s && forall u :: u in s ==> txs[t].createdAt <= txs[u].createdAt
  {
    t :| t in s;
    if s != {t} {
      var v := OldestExists(txs, s - {t});
      if txs[v].createdAt < txs[t].createdAt {
        t := v;
      }
    }
  }
}
