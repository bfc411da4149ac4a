/** Reconciliation run alone: what one batch accounts for, how batches drain the stale attempts, and
    when they never do. */
module Reconciliation {
  import opened Wrappers
  import opened PaymentLedger
  import opened PaymentProtocol
  import opened PaymentSafety
  import opened PaymentTheorems
  import opened PaymentService

  /** A terminal answer. */
  predicate Settles(q: QueryAnswer) { q.QueryStatus? && q.status != TxPending }

  /** A terminal answer whose receipt is no other attempt's. */
  predicate Lands(l: Ledger, t: Id, q: QueryAnswer) { Settles(q) && !l.ReceiptTaken(t, q.receipt) }

  /** Everything of the queue is still stale. */
  ghost predicate AllStale(l: Ledger, cutoff: int, queue: seq<Id>) {
    && (forall i :: 0 <= i < |queue| ==> l.Stale(queue[i], cutoff))
    && (forall i, j :: 0 <= i < j < |queue| ==> queue[i] != queue[j])
  }

  lemma SameNewest(l: Ledger, m: Ledger, t: Id, s: TxStatus, receipt: string, u: Id)
    requires t in l.txs && m.txs == l.txs[t := Stamped(l.txs[t], s, receipt)] && u in l.txs
    ensures m.Newest(u) <==> l.Newest(u)
  {
    if l.Newest(u) {
      forall v | v in m.txs && m.txs[v].intent == m.txs[u].intent
        ensures m.txs[v].createdAt < m.txs[u].createdAt || (m.txs[v].createdAt == m.txs[u].createdAt && v <= u)
      {
        assert v in l.txs && l.txs[v].intent == l.txs[u].intent;
      }
    }
    if m.Newest(u) {
      forall v | v in l.txs && l.txs[v].intent == l.txs[u].intent
        ensures l.txs[v].createdAt < l.txs[u].createdAt || (l.txs[v].createdAt == l.txs[u].createdAt && v <= u)
      {
        assert v in m.txs && m.txs[v].intent == m.txs[u].intent;
      }
    }
  }

  lemma StaleUnlessSettled(l: Ledger, m: Ledger, t: Id, s: TxStatus, cause: Cause, u: Id, cutoff: int)
    requires OnePerIntent(l.txs) && TookEffect(l, m, t, s, cause)
    ensures m.Stale(u, cutoff) <==> l.Stale(u, cutoff) && u != t
  {
    assert TxFor(l.txs, t, l.txs[t].intent);
    if u in l.txs && u != t {
      assert TxFor(l.txs, u, l.txs[u].intent);
      assert m.txs[u] == l.txs[u] && l.txs[u].intent != l.txs[t].intent;
      SameNewest(l, m, t, s, cause.receipt, u);
    }
  }

  /** One attempt: a terminal answer with a free receipt settles it and nothing else; any other answer
      counts it as pending or as an error and changes nothing. */
  lemma OneReconciled(l: Ledger, t: Id, cutoff: int, q: QueryAnswer, res: ReconcileResult)
    requires LedgerInv(l) && l.Stale(t, cutoff)
    ensures var (m, events, res') := RecOne(l, t, q, res);
            && LedgerInv(m)
            && (if Lands(l, t, q)
                then TookEffect(l, m, t, q.status, Cause("reconciliation", q.receipt)) && events == [Event(t, q.status, Reconciliation)]
                     && res' == res.(repaired := res.repaired + 1)
                else m == l && events == []
                     && res' == if q.QueryFailed? || Settles(q) then res.(errors := res.errors + 1)
                                else res.(stillPending := res.stillPending + 1))
  {
    if Settles(q) {
      Settled(l, t, q.status, Cause("reconciliation", q.receipt));
    }
  }

  lemma OneLeaves(l: Ledger, t: Id, cutoff: int, q: QueryAnswer, res: ReconcileResult, u: Id, c: int)
    requires LedgerInv(l) && l.Stale(t, cutoff)
    ensures RecOne(l, t, q, res).0.Stale(u, c) <==> l.Stale(u, c) && !(u == t && Lands(l, t, q))
  {
    OneReconciled(l, t, cutoff, q, res);
    if Lands(l, t, q) {
      StaleUnlessSettled(l, RecOne(l, t, q, res).0, t, q.status, Cause("reconciliation", q.receipt), u, c);
    }
  }

  lemma RestStale(l: Ledger, queue: seq<Id>, cutoff: int, q: QueryAnswer, res: ReconcileResult)
    requires LedgerInv(l) && queue != [] && AllStale(l, cutoff, queue)
    ensures AllStale(RecOne(l, queue[0], q, res).0, cutoff, queue[1..])
  {
    forall i | 0 < i < |queue| ensures RecOne(l, queue[0], q, res).0.Stale(queue[i], cutoff) {
      OneLeaves(l, queue[0], cutoff, q, res, queue[i], cutoff);
    }
  }

  /** A batch run alone counts every scanned attempt exactly once, and announces exactly its repairs. */
  lemma {:induction false} BatchCounts(l: Ledger, queue: seq<Id>, cutoff: int, query: Id -> QueryAnswer, res: ReconcileResult)
    requires LedgerInv(l) && AllStale(l, cutoff, queue)
    ensures LedgerInv(RecAlone(l, queue, query, res).0)
    ensures var (_, events, res') := RecAlone(l, queue, query, res);
            && res'.scanned == res.scanned
            && res'.repaired == res.repaired + |events|
            && res'.repaired + res'.stillPending + res'.errors == res.repaired + res.stillPending + res.errors + |queue|
    decreases |queue|
  {
    if queue != [] {
      var (m, events, res') := RecOne(l, queue[0], query(queue[0]), res);
      OneReconciled(l, queue[0], cutoff, query(queue[0]), res);
      RestStale(l, queue, cutoff, query(queue[0]), res);
      BatchCounts(m, queue[1..], cutoff, query, res');
    }
  }

  ghost predicate Announced(events: seq<Event>, u: Id) {
    exists e :: e in events && e.tx == u
  }

  /** A batch run alone takes out of the stale attempts exactly those it announces as settled and leaves
      every other stale attempt stale, for every cutoff. */
  lemma {:induction false} BatchReconciled(l: Ledger, queue: seq<Id>, cutoff: int, query: Id -> QueryAnswer, res: ReconcileResult, u: Id, c: int)
    requires LedgerInv(l) && AllStale(l, cutoff, queue)
    ensures var (m, events, _) := RecAlone(l, queue, query, res);
            m.Stale(u, c) <==> l.Stale(u, c) && !Announced(events, u)
    decreases |queue|
  {
    if queue != [] {
      var (m, events, res') := RecOne(l, queue[0], query(queue[0]), res);
      OneReconciled(l, queue[0], cutoff, query(queue[0]), res);
      OneLeaves(l, queue[0], cutoff, query(queue[0]), res, u, c);
      RestStale(l, queue, cutoff, query(queue[0]), res);
      BatchReconciled(m, queue[1..], cutoff, query, res', u, c);
      AnnouncedSplit(events, RecAlone(m, queue[1..], query, res').1, u);
    }
  }

  lemma AnnouncedSplit(a: seq<Event>, b: seq<Event>, u: Id)
    ensures Announced(a + b, u) <==> Announced(a, u) || Announced(b, u)
  {
    assert forall e :: e in a + b <==> e in a || e in b;
  }

  /** Scanned = Repaired + StillPending + Errors for a batch run alone, with one announcement a repair. */
  lemma BatchAccounting(l: Ledger, cutoff: int, limit: nat, batch: seq<Id>, query: Id -> QueryAnswer)
    requires LedgerInv(l) && l.StaleBatch(cutoff, limit, batch)
    ensures var (_, events, res) := RecAlone(l, batch, query, FRESH.(scanned := |batch|));
            res.scanned == res.repaired + res.stillPending + res.errors && res.repaired == |events|
  {
    BatchCounts(l, batch, cutoff, query, FRESH.(scanned := |batch|));
  }

  // ----- distinct receipts -----

  ghost predicate SameReceipt(l: Ledger, t: Id, u: Id, receipt: string) {
    receipt != "" && t in l.txs && u in l.txs && t != u && l.txs[t].provider == l.txs[u].provider
  }

  /** A provider answers no two of its attempts with one receipt, nor with one recorded for another. */
  ghost predicate ReceiptsApart(l: Ledger, query: Id -> QueryAnswer) {
    forall t, u :: Settles(query(t)) && SameReceipt(l, t, u, query(t).receipt) ==>
      l.txs[u].receipt != query(t).receipt && (Settles(query(u)) ==> query(u).receipt != query(t).receipt)
  }

  lemma ApartLands(l: Ledger, query: Id -> QueryAnswer, t: Id)
    requires ReceiptsApart(l, query)
    ensures Lands(l, t, query(t)) <==> Settles(query(t))
  {
    if Settles(query(t)) && l.ReceiptTaken(t, query(t).receipt) {
      var u :| u in l.txs && u != t && l.txs[u].provider == l.txs[t].provider && l.txs[u].receipt == query(t).receipt;
      assert SameReceipt(l, t, u, query(t).receipt);
    }
  }

  lemma StaysApart(l: Ledger, m: Ledger, query: Id -> QueryAnswer, t: Id)
    requires ReceiptsApart(l, query) && Settles(query(t))
    requires TookEffect(l, m, t, query(t).status, Cause("reconciliation", query(t).receipt))
    ensures ReceiptsApart(m, query)
  {
    forall v, u | Settles(query(v)) && SameReceipt(m, v, u, query(v).receipt)
      ensures m.txs[u].receipt != query(v).receipt && (Settles(query(u)) ==> query(u).receipt != query(v).receipt)
    {
      assert SameReceipt(l, v, u, query(v).receipt);
    }
  }

  /** With distinct receipts a batch run alone settles exactly the attempts whose provider gave a terminal
      answer. */
  lemma {:induction false} BatchSettles(l: Ledger, queue: seq<Id>, cutoff: int, query: Id -> QueryAnswer, res: ReconcileResult)
    requires LedgerInv(l) && AllStale(l, cutoff, queue) && ReceiptsApart(l, query)
    ensures var (m, events, _) := RecAlone(l, queue, query, res);
            && ReceiptsApart(m, query) && SameRows(l, m)
            && forall u :: Announced(events, u) <==> u in queue && Settles(query(u))
    decreases |queue|
  {
    if queue != [] {
      var t := queue[0];
      var (m, events, res') := RecOne(l, t, query(t), res);
      FirstSettles(l, t, cutoff, query, res);
      RestStale(l, queue, cutoff, query(t), res);
      BatchSettles(m, queue[1..], cutoff, query, res');
      var rest := RecAlone(m, queue[1..], query, res');
      SameRowsTransitive(l, m, rest.0);
      AnnouncedFromHere(queue, query, events, rest.1);
    }
  }

  lemma FirstSettles(l: Ledger, t: Id, cutoff: int, query: Id -> QueryAnswer, res: ReconcileResult)
    requires LedgerInv(l) && l.Stale(t, cutoff) && ReceiptsApart(l, query)
    ensures var (m, events, _) := RecOne(l, t, query(t), res);
            && LedgerInv(m) && ReceiptsApart(m, query) && SameRows(l, m)
            && events == if Settles(query(t)) then [Event(t, query(t).status, Reconciliation)] else []
  {
    OneReconciled(l, t, cutoff, query(t), res);
    ApartLands(l, query, t);
    if Lands(l, t, query(t)) { LandedKeeps(l, RecOne(l, t, query(t), res).0, query, t); }
  }

  lemma LandedKeeps(l: Ledger, m: Ledger, query: Id -> QueryAnswer, t: Id)
    requires ReceiptsApart(l, query) && Settles(query(t))
    requires TookEffect(l, m, t, query(t).status, Cause("reconciliation", query(t).receipt))
    ensures ReceiptsApart(m, query) && SameRows(l, m)
  {
    StaysApart(l, m, query, t);
  }

  lemma SameRowsTransitive(l: Ledger, m: Ledger, n: Ledger)
    requires SameRows(l, m) && SameRows(m, n)
    ensures SameRows(l, n)
  {
  }

  lemma AnnouncedFromHere(queue: seq<Id>, query: Id -> QueryAnswer, first: seq<Event>, rest: seq<Event>)
    requires queue != []
    requires first == if Settles(query(queue[0])) then [Event(queue[0], query(queue[0]).status, Reconciliation)] else []
    requires forall u :: Announced(rest, u) <==> u in queue[1..] && Settles(query(u))
    ensures forall u :: Announced(first + rest, u) <==> u in queue && Settles(query(u))
  {
    forall u ensures Announced(first + rest, u) <==> u in queue && Settles(query(u)) {
      AnnouncedSplit(first, rest, u);
      OneAnnounced(first, queue[0], query(queue[0]), u);
      assert u in queue <==> u == queue[0] || u in queue[1..];
    }
  }

  lemma OneAnnounced(events: seq<Event>, t: Id, q: QueryAnswer, u: Id)
    requires events == if Settles(q) then [Event(t, q.status, Reconciliation)] else []
    ensures Announced(events, u) <==> u == t && Settles(q)
  {
    if Settles(q) { assert events[0] in events; }
  }

  /** The attempts are the same ones, created when they were. */
  ghost predicate SameRows(l: Ledger, m: Ledger) {
    m.txs.Keys == l.txs.Keys && forall t :: t in l.txs ==> m.txs[t].createdAt == l.txs[t].createdAt
  }

  /** What one run alone leaves stale. */
  lemma RunLeaves(l: Ledger, batch: seq<Id>, cutoff: int, query: Id -> QueryAnswer, c: int)
    requires LedgerInv(l) && AllStale(l, cutoff, batch) && ReceiptsApart(l, query)
    ensures var m := RecAlone(l, batch, query, FRESH.(scanned := |batch|)).0;
            && LedgerInv(m) && ReceiptsApart(m, query) && SameRows(l, m)
            && m.StaleSet(c) == l.StaleSet(c) - (set t | t in batch && Settles(query(t)))
  {
    var (m, events, res) := RecAlone(l, batch, query, FRESH.(scanned := |batch|));
    BatchCounts(l, batch, cutoff, query, FRESH.(scanned := |batch|));
    BatchSettles(l, batch, cutoff, query, FRESH.(scanned := |batch|));
    forall u ensures u in m.StaleSet(c) <==> u in l.StaleSet(c) && !(u in batch && Settles(query(u))) {
      BatchReconciled(l, batch, cutoff, query, FRESH.(scanned := |batch|), u, c);
    }
  }

  // ----- draining -----

  /** A batch takes from the stale attempts of an earlier cutoff the oldest ones, up to the limit. */
  lemma BatchShare(l: Ledger, c0: int, cutoff: int, limit: nat, batch: seq<Id>)
    requires c0 <= cutoff && l.StaleBatch(cutoff, limit, batch)
    ensures var s := l.StaleSet(c0);
            |s - Members(batch)| == if |s| <= limit then 0 else |s| - limit
  {
    var s := l.StaleSet(c0);
    MembersSize(batch);
    if s <= Members(batch) {
      assert s - Members(batch) == {};
      SubsetSize(s, Members(batch));
    } else {
      BatchInside(l, c0, cutoff, limit, batch);
      SubsetSize(Members(batch), s);
      assert |s - Members(batch)| == |s| - |Members(batch)|;
    }
  }

  /** A batch that leaves out an attempt stale since c0 holds only such attempts, and is full. */
  lemma BatchInside(l: Ledger, c0: int, cutoff: int, limit: nat, batch: seq<Id>)
    requires c0 <= cutoff && l.StaleBatch(cutoff, limit, batch)
    requires !(l.StaleSet(c0) <= Members(batch))
    ensures |batch| == limit && Members(batch) <= l.StaleSet(c0)
  {
    var t :| t in l.StaleSet(c0) && t !in batch;
    assert t in l.StaleSet(cutoff);
    forall u | u in batch ensures u in l.StaleSet(c0) {
      var i :| 0 <= i < |batch| && batch[i] == u;
      assert l.Stale(batch[i], cutoff);
    }
  }

  function Members(s: seq<Id>): set<Id> { set t | t in s }

  lemma {:induction false} MembersSize(s: seq<Id>)
    requires forall i, j :: 0 <= i < j < |s| ==> s[i] != s[j]
    ensures |Members(s)| == |s|
  {
    if s == [] {
      assert Members(s) == {};
    } else {
      MembersSize(s[1..]);
      assert s[0] !in s[1..];
      assert s == [s[0]] + s[1..];
      assert Members(s) == {s[0]} + Members(s[1..]);
    }
  }

  /** Successive runs alone on the ledger. */
  ghost predicate Runs(ls: seq<Ledger>, cutoffs: seq<int>, batches: seq<seq<Id>>, limit: nat, query: Id -> QueryAnswer) {
    && |ls| == |batches| + 1 && |cutoffs| == |batches|
    && forall k :: 0 <= k < |batches| ==>
         && ls[k].StaleBatch(cutoffs[k], limit, batches[k])
         && ls[k + 1] == RecAlone(ls[k], batches[k], query, FRESH.(scanned := |batches[k]|)).0
  }

  /** When every query answers SUCCEEDED or FAILED with receipts of its own, each run takes exactly `limit`
      off the attempts that were stale at the start, newly stale ones notwithstanding: n of them are gone
      after ceil(n / limit) runs and not before. */
  lemma {:induction false} Drains(ls: seq<Ledger>, cutoffs: seq<int>, batches: seq<seq<Id>>, limit: nat, query: Id -> QueryAnswer, c0: int, k: nat)
    requires Runs(ls, cutoffs, batches, limit, query) && k <= |batches|
    requires LedgerInv(ls[0]) && ReceiptsApart(ls[0], query) && (forall t :: Settles(query(t)))
    requires forall j :: 0 <= j < |cutoffs| ==> c0 <= cutoffs[j]
    ensures LedgerInv(ls[k]) && ReceiptsApart(ls[k], query)
    ensures var n := |ls[0].StaleSet(c0)|;
            |ls[k].StaleSet(c0)| == if n <= k * limit then 0 else n - k * limit
  {
    if k > 0 {
      Drains(ls, cutoffs, batches, limit, query, c0, k - 1);
      var batch := batches[k - 1];
      OneDrain(ls[k - 1], batch, cutoffs[k - 1], limit, query, c0);
      assert k * limit == (k - 1) * limit + limit;
    }
  }

  lemma OneDrain(l: Ledger, batch: seq<Id>, cutoff: int, limit: nat, query: Id -> QueryAnswer, c0: int)
    requires LedgerInv(l) && ReceiptsApart(l, query) && (forall t :: Settles(query(t)))
    requires l.StaleBatch(cutoff, limit, batch) && c0 <= cutoff
    ensures var m := RecAlone(l, batch, query, FRESH.(scanned := |batch|)).0;
            && LedgerInv(m) && ReceiptsApart(m, query)
            && |m.StaleSet(c0)| == if |l.StaleSet(c0)| <= limit then 0 else |l.StaleSet(c0)| - limit
  {
    var m := RecAlone(l, batch, query, FRESH.(scanned := |batch|)).0;
    BatchShare(l, c0, cutoff, limit, batch);
    BatchAllStale(l, cutoff, limit, batch);
    RunLeaves(l, batch, cutoff, query, c0);
    AllSettle(batch, query);
    assert m.StaleSet(c0) == l.StaleSet(c0) - Members(batch);
  }

  lemma BatchAllStale(l: Ledger, cutoff: int, limit: nat, batch: seq<Id>)
    requires l.StaleBatch(cutoff, limit, batch)
    ensures AllStale(l, cutoff, batch)
  {
  }

  lemma AllSettle(batch: seq<Id>, query: Id -> QueryAnswer)
    requires forall t :: Settles(query(t))
    ensures (set t | t in batch && Settles(query(t))) == Members(batch)
  {
  }

  // ----- starvation -----

  /** The stale attempts created before u. */
  ghost function OlderStale(l: Ledger, u: Id): set<Id>
    requires u in l.txs
  {
    l.StaleSet(l.txs[u].createdAt)
  }

  /** No other attempt was created when u was. */
  ghost predicate OwnTime(l: Ledger, u: Id) {
    u in l.txs && forall t :: t in l.txs && t != u ==> l.txs[t].createdAt != l.txs[u].createdAt
  }

  /** A stale attempt with a creation time of its own is in the batch exactly when fewer than `limit`
      stale attempts are older. */
  lemma Reached(l: Ledger, cutoff: int, limit: nat, batch: seq<Id>, u: Id)
    requires l.Stale(u, cutoff) && l.StaleBatch(cutoff, limit, batch) && OwnTime(l, u)
    ensures u in batch <==> |OlderStale(l, u)| < limit
    ensures u !in batch ==> |batch| == limit && Members(batch) <= OlderStale(l, u)
  {
    var older := OlderStale(l, u);
    MembersSize(batch);
    assert u in l.StaleSet(cutoff);
    if u in batch {
      OlderComeFirst(l, cutoff, limit, batch, u);
      SubsetSize(older + {u}, Members(batch));
      assert u !in older;
    } else {
      forall t | t in Members(batch) ensures t in older { InBatchIsOlder(l, cutoff, limit, batch, u, t); }
      SubsetSize(Members(batch), older);
    }
  }

  lemma OlderComeFirst(l: Ledger, cutoff: int, limit: nat, batch: seq<Id>, u: Id)
    requires l.Stale(u, cutoff) && l.StaleBatch(cutoff, limit, batch) && u in batch
    ensures OlderStale(l, u) <= Members(batch)
  {
    forall t | t in OlderStale(l, u) ensures t in batch {
      assert t in l.StaleSet(cutoff);
      var i :| 0 <= i < |batch| && batch[i] == u;
    }
  }

  lemma InBatchIsOlder(l: Ledger, cutoff: int, limit: nat, batch: seq<Id>, u: Id, t: Id)
    requires l.Stale(u, cutoff) && l.StaleBatch(cutoff, limit, batch) && OwnTime(l, u) && u !in batch && t in batch
    ensures t in OlderStale(l, u)
  {
    assert u in l.StaleSet(cutoff);
    var i :| 0 <= i < |batch| && batch[i] == t;
    assert l.Stale(batch[i], cutoff) && l.txs[batch[i]].createdAt <= l.txs[u].createdAt;
  }

  /** The older stale attempts whose query never gives a terminal answer. */
  ghost function Stuck(l: Ledger, query: Id -> QueryAnswer, u: Id): set<Id>
    requires u in l.txs
  {
    set t | t in OlderStale(l, u) && !Settles(query(t))
  }

  /** As long as no run has reached u: u is still stale, the stuck attempts older than u are all still
      there, and if they leave room in a batch every run has settled an older attempt. */
  lemma {:induction false} Creep(ls: seq<Ledger>, cutoffs: seq<int>, batches: seq<seq<Id>>, limit: nat, query: Id -> QueryAnswer, u: Id, k: nat)
    requires Runs(ls, cutoffs, batches, limit, query) && k <= |batches|
    requires Waiting(ls[0], query, u) && (forall j :: 0 <= j < |cutoffs| ==> ls[0].txs[u].createdAt < cutoffs[j])
    requires forall j :: 0 <= j < k ==> u !in batches[j]
    ensures Waiting(ls[k], query, u) && ls[k].txs[u].createdAt == ls[0].txs[u].createdAt
    ensures Stuck(ls[k], query, u) == Stuck(ls[0], query, u)
    ensures |Stuck(ls[0], query, u)| < limit ==> |OlderStale(ls[k], u)| + k <= |OlderStale(ls[0], u)|
  {
    if k > 0 {
      Creep(ls, cutoffs, batches, limit, query, u, k - 1);
      PassedOver(ls[k - 1], cutoffs[k - 1], limit, batches[k - 1], query, u);
    }
  }

  /** u is stale, at a time of its own, in a ledger with distinct receipts. */
  ghost predicate Waiting(l: Ledger, query: Id -> QueryAnswer, u: Id) {
    LedgerInv(l) && ReceiptsApart(l, query) && OwnTime(l, u) && l.Stale(u, l.txs[u].createdAt + 1)
  }

  /** A run that passes u over. */
  lemma PassedOver(l: Ledger, cutoff: int, limit: nat, batch: seq<Id>, query: Id -> QueryAnswer, u: Id)
    requires Waiting(l, query, u) && l.txs[u].createdAt < cutoff && l.StaleBatch(cutoff, limit, batch) && u !in batch
    ensures var m := RecAlone(l, batch, query, FRESH.(scanned := |batch|)).0;
            && Waiting(m, query, u) && m.txs[u].createdAt == l.txs[u].createdAt
            && Stuck(m, query, u) == Stuck(l, query, u)
            && (|Stuck(l, query, u)| < limit ==> |OlderStale(m, u)| < |OlderStale(l, u)|)
  {
    var m := RecAlone(l, batch, query, FRESH.(scanned := |batch|)).0;
    RunLeaves(l, batch, cutoff, query, l.txs[u].createdAt);
    RunLeaves(l, batch, cutoff, query, l.txs[u].createdAt + 1);
    WaitsOn(l, m, batch, query, u);
    SameStuck(l, m, batch, query, u);
    StillStale(l, cutoff, u);
    Reached(l, cutoff, limit, batch, u);
    if |Stuck(l, query, u)| < limit {
      SomeSettles(l, limit, batch, query, u);
      var t :| t in batch && Settles(query(t));
      assert t in Members(batch);
      SmallerWithout(OlderStale(m, u), OlderStale(l, u), t);
    }
  }

  lemma WaitsOn(l: Ledger, m: Ledger, batch: seq<Id>, query: Id -> QueryAnswer, u: Id)
    requires Waiting(l, query, u) && LedgerInv(m) && ReceiptsApart(m, query) && SameRows(l, m) && u !in batch
    requires var c := l.txs[u].createdAt + 1;
             m.StaleSet(c) == l.StaleSet(c) - (set t | t in batch && Settles(query(t)))
    ensures Waiting(m, query, u)
  {
    OwnTimeKept(l, m, u);
    var gone := set t | t in batch && Settles(query(t));
    StaleKept(l, m, gone, l.txs[u].createdAt + 1, u);
  }

  lemma OwnTimeKept(l: Ledger, m: Ledger, u: Id)
    requires OwnTime(l, u) && SameRows(l, m)
    ensures OwnTime(m, u) && m.txs[u].createdAt == l.txs[u].createdAt
  {
  }

  lemma StaleKept(l: Ledger, m: Ledger, gone: set<Id>, c: int, u: Id)
    requires m.StaleSet(c) == l.StaleSet(c) - gone && u !in gone && l.Stale(u, c)
    ensures m.Stale(u, c)
  {
    assert u in l.StaleSet(c);
    assert u in m.StaleSet(c);
  }

  lemma SameStuck(l: Ledger, m: Ledger, batch: seq<Id>, query: Id -> QueryAnswer, u: Id)
    requires u in l.txs && SameRows(l, m)
    requires var c := l.txs[u].createdAt;
             m.StaleSet(c) == l.StaleSet(c) - (set t | t in batch && Settles(query(t)))
    ensures Stuck(m, query, u) == Stuck(l, query, u)
    ensures OlderStale(m, u) == OlderStale(l, u) - (set t | t in batch && Settles(query(t)))
  {
  }

  lemma SmallerWithout(s: set<Id>, whole: set<Id>, t: Id)
    requires s <= whole && t in whole && t !in s
    ensures |s| < |whole|
  {
    SubsetSize(s, whole - {t});
  }

  lemma SomeSettles(l: Ledger, limit: nat, batch: seq<Id>, query: Id -> QueryAnswer, u: Id)
    requires u in l.txs && |batch| == limit && Members(batch) <= OlderStale(l, u) && |Stuck(l, query, u)| < limit
    requires forall i, j :: 0 <= i < j < |batch| ==> batch[i] != batch[j]
    ensures exists t :: t in batch && Settles(query(t))
  {
    MembersSize(batch);
    if forall t :: t in batch ==> !Settles(query(t)) {
      assert Members(batch) <= Stuck(l, query, u);
      SubsetSize(Members(batch), Stuck(l, query, u));
    }
  }

  /** No run reaches an attempt behind `limit` stuck ones. */
  lemma StarvedAt(ls: seq<Ledger>, cutoffs: seq<int>, batches: seq<seq<Id>>, limit: nat, query: Id -> QueryAnswer, u: Id, k: nat)
    requires Runs(ls, cutoffs, batches, limit, query) && k < |batches|
    requires Waiting(ls[0], query, u) && (forall j :: 0 <= j < |cutoffs| ==> ls[0].txs[u].createdAt < cutoffs[j])
    requires |Stuck(ls[0], query, u)| >= limit
    ensures u !in batches[k]
    decreases k
  {
    forall j | 0 <= j < k ensures u !in batches[j] { StarvedAt(ls, cutoffs, batches, limit, query, u, j); }
    Creep(ls, cutoffs, batches, limit, query, u, k);
    CrowdedOut(ls[k], cutoffs[k], limit, batches[k], query, u);
  }

  lemma CrowdedOut(l: Ledger, cutoff: int, limit: nat, batch: seq<Id>, query: Id -> QueryAnswer, u: Id)
    requires Waiting(l, query, u) && l.txs[u].createdAt < cutoff && l.StaleBatch(cutoff, limit, batch)
    requires |Stuck(l, query, u)| >= limit
    ensures u !in batch
  {
    StillStale(l, cutoff, u);
    SubsetSize(Stuck(l, query, u), OlderStale(l, u));
    Reached(l, cutoff, limit, batch, u);
  }

  /** Over any number of runs: while `limit` older attempts never get a terminal answer, no run ever
      reaches u, and u stays stale whatever its own provider would answer. */
  lemma StarvedOverRuns(ls: seq<Ledger>, cutoffs: seq<int>, batches: seq<seq<Id>>, limit: nat, query: Id -> QueryAnswer, u: Id, k: nat)
    requires Runs(ls, cutoffs, batches, limit, query) && k <= |batches|
    requires Waiting(ls[0], query, u) && (forall j :: 0 <= j < |cutoffs| ==> ls[0].txs[u].createdAt < cutoffs[j])
    requires |Stuck(ls[0], query, u)| >= limit
    ensures forall j :: 0 <= j < k ==> u !in batches[j]
    ensures Waiting(ls[k], query, u)
  {
    forall j | 0 <= j < k ensures u !in batches[j] { StarvedAt(ls, cutoffs, batches, limit, query, u, j); }
    Creep(ls, cutoffs, batches, limit, query, u, k);
  }

  lemma StillStale(l: Ledger, cutoff: int, u: Id)
    requires u in l.txs && l.Stale(u, l.txs[u].createdAt + 1) && l.txs[u].createdAt < cutoff
    ensures l.Stale(u, cutoff)
  {
  }

  /** Given as many runs as there are older stale attempts and one more, an attempt is reached exactly when
      fewer than `limit` of them never get a terminal answer. */
  lemma ReachedIffFewStuck(ls: seq<Ledger>, cutoffs: seq<int>, batches: seq<seq<Id>>, limit: nat, query: Id -> QueryAnswer, u: Id)
    requires Runs(ls, cutoffs, batches, limit, query)
    requires Waiting(ls[0], query, u) && (forall j :: 0 <= j < |cutoffs| ==> ls[0].txs[u].createdAt < cutoffs[j])
    requires |batches| > |OlderStale(ls[0], u)|
    ensures (exists k :: 0 <= k < |batches| && u in batches[k]) <==> |Stuck(ls[0], query, u)| < limit
  {
    if |Stuck(ls[0], query, u)| >= limit {
      StarvedOverRuns(ls, cutoffs, batches, limit, query, u, |batches|);
    } else if forall k :: 0 <= k < |batches| ==> u !in batches[k] {
      Creep(ls, cutoffs, batches, limit, query, u, |batches|);
      assert false;
    }
  }

  // ----- starvation happens -----

  function Ref(n: nat): (r: string)
    ensures |r| == n + 1
  {
    seq(n + 1, _ => 'r')
  }

  function Waiter(i: Id): Transaction { Transaction(i, "sandbox", Some(Ref(i)), TxPending, 100, i, "") }

  function Paying(i: Id): Intent { Intent(100, "sandbox", Processing) }

  /** One accepted initiation from beginning to end. */
  function Join(n: nat): seq<Action> {
    [Initiate(n, n, 100, "sandbox"), InitAdvance(n, Accepted(Ref(n)), n), InitAdvance(n, Unavailable, 0)]
  }

  function Waiters(n: nat): seq<Action> {
    if n == 0 then [] else Waiters(n - 1) + Join(n - 1)
  }

  ghost predicate AllWaiting(l: Ledger, n: nat) {
    AllPaying(l.intents, n) && WaiterRows(l.txs, n)
  }

  ghost predicate AllPaying(intents: map<Id, Intent>, n: nat) {
    (forall i: Id :: i in intents <==> i < n) && (forall i :: i in intents ==> intents[i] == Paying(i))
  }

  ghost predicate WaiterRows(txs: map<Id, Transaction>, n: nat) {
    (forall t: Id :: t in txs <==> t < n) && (forall t :: t in txs ==> txs[t] == Waiter(t))
  }

  lemma {:induction false} WaitersWait(n: nat)
    ensures AllWaiting(Run(START, Waiters(n)).l, n)
  {
    if n > 0 {
      WaitersWait(n - 1);
      JoinAfter(Waiters(n - 1), Join(n - 1), n - 1);
    }
  }

  lemma JoinAfter(before: seq<Action>, join: seq<Action>, n: nat)
    requires AllWaiting(Run(START, before).l, n) && join == Join(n)
    ensures AllWaiting(Run(START, before + join).l, n + 1)
  {
    RunAppend(START, before, join);
    OneMore(Run(START, before), join, n);
  }

  lemma OneMore(w: World, join: seq<Action>, n: nat)
    requires AllWaiting(w.l, n) && join == Join(n)
    ensures AllWaiting(Run(w, join).l, n + 1)
  {
    var a, b, c := Initiate(n, n, 100, "sandbox"), InitAdvance(n, Accepted(Ref(n)), n), InitAdvance(n, Unavailable, 0);
    RunThree(w, a, b, c);
    var x := JoinSteps(w, a, b, c, n);
    OnePaying(w.l.intents, n);
    OneWaiter(w.l.txs, n);
  }

  lemma JoinSteps(w: World, a: Action, b: Action, c: Action, n: nat) returns (x: World)
    requires AllWaiting(w.l, n)
    requires a == Initiate(n, n, 100, "sandbox") && b == InitAdvance(n, Accepted(Ref(n)), n) && c == InitAdvance(n, Unavailable, 0)
    ensures x == Next(Next(Next(w, a), b), c)
    ensures x.l.txs == w.l.txs[n := Waiter(n)] && x.l.intents == w.l.intents[n := Paying(n)]
  {
    var u := Opening(w, a, n);
    RefsDiffer(u.l.txs, n);
    var v := Recording(u, b, n);
    x := Moving(v, c, n);
    PaidOver(w.l.intents, n);
  }

  lemma PaidOver(intents: map<Id, Intent>, n: nat)
    ensures intents[n := Intent(100, "sandbox", Created)][n := Paying(n)] == intents[n := Paying(n)]
  {
  }

  lemma Opening(w: World, a: Action, n: nat) returns (u: World)
    requires n !in w.l.intents && a == Initiate(n, n, 100, "sandbox")
    ensures u == Next(w, a)
    ensures && u.l.intents == w.l.intents[n := Intent(100, "sandbox", Created)] && u.l.txs == w.l.txs
            && n in u.inits && u.inits[n] == Calling(n, 100, "sandbox")
  {
    u := Next(w, a);
  }

  lemma OnePaying(intents: map<Id, Intent>, n: nat)
    requires AllPaying(intents, n)
    ensures AllPaying(intents[n := Paying(n)], n + 1)
  {
  }

  lemma OneWaiter(txs: map<Id, Transaction>, n: nat)
    requires WaiterRows(txs, n)
    ensures WaiterRows(txs[n := Waiter(n)], n + 1)
  {
  }

  lemma RefsDiffer(txs: map<Id, Transaction>, n: nat)
    requires WaiterRows(txs, n)
    ensures forall t :: t in txs ==> txs[t].ref != Some(Ref(n))
  {
    forall t | t in txs ensures txs[t].ref != Some(Ref(n)) { assert |Ref(t)| == t + 1; }
  }

  lemma Recording(u: World, b: Action, n: nat) returns (v: World)
    requires b == InitAdvance(n, Accepted(Ref(n)), n)
    requires n in u.inits && u.inits[n] == Calling(n, 100, "sandbox") && n in u.l.intents
    requires n !in u.l.txs && (forall t :: t in u.l.txs ==> u.l.txs[t].ref != Some(Ref(n)))
    ensures v == Next(u, b)
    ensures v.l == u.l.(txs := u.l.txs[n := Waiter(n)])
    ensures n in v.inits && v.inits[n] == Recorded(n, true)
  {
    v := Next(u, b);
  }

  lemma Moving(v: World, c: Action, n: nat) returns (x: World)
    requires c == InitAdvance(n, Unavailable, 0)
    requires n in v.inits && v.inits[n] == Recorded(n, true)
    requires n in v.l.intents && v.l.intents[n] == Intent(100, "sandbox", Created)
    ensures x == Next(v, c)
    ensures x.l.txs == v.l.txs && x.l.intents == v.l.intents[n := Paying(n)]
  {
    x := Next(v, c);
  }

  /** For every batch limit a reachable ledger holds an attempt that no run ever reaches while the older
      ones stay PENDING at their provider. */
  lemma StarvationHappens(limit: nat)
    ensures exists actions: seq<Action> ::
              var l := Run(START, actions).l;
              limit in l.txs && Waiting(l, HeldUp(limit), limit) && |Stuck(l, HeldUp(limit), limit)| >= limit
  {
    WaitersWait(limit + 1);
    Reachable(Waiters(limit + 1));
    LastWaits(Run(START, Waiters(limit + 1)).l, limit);
    OlderStuck(Run(START, Waiters(limit + 1)).l, limit);
  }

  lemma LastWaits(l: Ledger, limit: nat)
    requires AllWaiting(l, limit + 1) && LedgerInv(l)
    ensures limit in l.txs && Waiting(l, HeldUp(limit), limit)
  {
    WaiterStale(l, limit + 1, limit, limit + 1);
    LastAlone(l, limit);
    NoReceipts(l, limit);
  }

  lemma LastAlone(l: Ledger, limit: nat)
    requires AllWaiting(l, limit + 1)
    ensures OwnTime(l, limit)
  {
  }

  lemma NoReceipts(l: Ledger, limit: nat)
    requires AllWaiting(l, limit + 1)
    ensures ReceiptsApart(l, HeldUp(limit))
  {
  }

  /** The first attempts stay PENDING at their provider, the others have succeeded. */
  function HeldUp(limit: nat): Id -> QueryAnswer {
    (t: Id) => QueryStatus(if t < limit then TxPending else TxSucceeded, "")
  }

  lemma OlderStuck(l: Ledger, limit: nat)
    requires AllWaiting(l, limit + 1)
    ensures |Stuck(l, HeldUp(limit), limit)| >= limit
  {
    forall t | t in FirstIds(limit) ensures t in Stuck(l, HeldUp(limit), limit) { WaiterStuck(l, limit, t); }
    SubsetSize(FirstIds(limit), Stuck(l, HeldUp(limit), limit));
  }

  lemma WaiterStuck(l: Ledger, limit: nat, t: Id)
    requires AllWaiting(l, limit + 1) && t < limit
    ensures t in Stuck(l, HeldUp(limit), limit)
  {
    WaiterStale(l, limit + 1, t, limit);
    assert l.txs[limit] == Waiter(limit);
  }

  lemma WaiterStale(l: Ledger, n: nat, t: Id, cutoff: int)
    requires AllWaiting(l, n) && t < n && t < cutoff
    ensures l.Stale(t, cutoff)
  {
    assert l.txs[t] == Waiter(t) && l.intents[t] == Paying(t);
  }

  function FirstIds(n: nat): (s: set<Id>)
    ensures |s| == n && forall t: Id :: t in s <==> t < n
  {
    if n == 0 then {} else FirstIds(n - 1) + {n - 1}
  }
}
