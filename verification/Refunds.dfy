/** Full refunds: the payment_refunds table, the serialised refund operation, and what any sequence
    of refund calls keeps (backend/payments/service.go, store.go and the refunds migration). */
module Refunds {
  import opened Wrappers
  import opened PaymentLedger
  import Protocol = PaymentProtocol
  import Theorems = PaymentTheorems

  datatype RefundStatus = RefundRequested | RefundCompleted | RefundFailed

  /** The row of payment_refunds; "" stands for a NULL reference or failure reason. */
  datatype Refund = Refund(intent: Id, amount: int, provider: string, status: RefundStatus, ref: string,
                           failure: string, createdAt: int)

  /** What the provider says when it is asked to refund. */
  datatype RefundAnswer = Answered(status: RefundStatus, ref: string, failure: string) | Refused(why: string) | Down

  datatype RefundEvent = CompletedEvent(refund: Id) | FailedEvent(refund: Id)

  datatype Verdict =
    | UnknownIntent | NotRefundable | InvalidReason | AlreadyRefunded | UnknownProvider | NotInserted
    | ProviderDown(r: Refund) | ProviderRefused(r: Refund) | NotRecorded(r: Refund) | Refunded(r: Refund)

  const MAX_REFUND_REASON_LENGTH: nat := 500

  type Rows = map<Id, Refund>

  datatype Call = Call(id: Id, intent: Id, reason: string, answer: RefundAnswer, now: int, intents: map<Id, Intent>,
                       providers: set<string>)

  // ----- the table -----

  /** ORDER BY created_at, id. */
  ghost predicate Before(rows: Rows, t: Id, u: Id) {
    t in rows && u in rows && (rows[t].createdAt < rows[u].createdAt || (rows[t].createdAt == rows[u].createdAt && t < u))
  }

  ghost predicate IsLatest(rows: Rows, i: Id, t: Id) {
    t in rows && rows[t].intent == i && forall u :: u in rows && rows[u].intent == i ==> u == t || Before(rows, u, t)
  }

  ghost function Latest(rows: Rows, i: Id): Option<Id> {
    if exists t :: IsLatest(rows, i, t) then
      var t :| IsLatest(rows, i, t);
      Some(t)
    else None
  }

  lemma LatestUnique(rows: Rows, i: Id, t: Id)
    requires IsLatest(rows, i, t)
    ensures Latest(rows, i) == Some(t)
  {
    var u := Latest(rows, i).value;
    assert u == t || (Before(rows, u, t) && Before(rows, t, u));
  }

  lemma LatestExists(rows: Rows, s: set<Id>) returns (t: Id)
    requires s != {} && s <= rows.Keys
    ensures t in s && forall u :: u in s ==> u == t || Before(rows, u, t)
  {
    t :| t in s;
    if s != {t} {
      var v := LatestExists(rows, s - {t});
      assert forall u :: u in s ==> u == t || u in s - {t};
      if Before(rows, t, v) {
        t := v;
      }
    }
  }

  predicate InFlight(rows: Rows, i: Id) {
    exists t :: t in rows && rows[t].intent == i && rows[t].status == RefundRequested
  }

  /** The primary key, the one-in-flight index and the foreign key. */
  function InsertRow(rows: Rows, intents: map<Id, Intent>, id: Id, r: Refund): (Rows, Outcome<()>) {
    if id in rows || (r.status == RefundRequested && InFlight(rows, r.intent)) then (rows, Err(Duplicate))
    else if r.intent !in intents then (rows, Err(NotFound))
    else (rows[id := r], Ok(()))
  }

  /** The guarded move; the update trigger lets a requested refund complete or fail, once. */
  function MoveRow(rows: Rows, id: Id, expected: RefundStatus, to: RefundStatus, ref: string, failure: string): (Rows, Outcome<()>) {
    if id !in rows then (rows, Err(NotFound))
    else if rows[id].status != expected || rows[id].status != RefundRequested || to == RefundRequested then (rows, Err(Conflict))
    else
      var r := rows[id];
      (rows[id := r.(status := to, ref := if ref != "" then ref else r.ref, failure := if failure != "" then failure else r.failure)],
       Ok(()))
  }

  // ----- the operation -----

  /** Everything RefundPayment decides before it writes: None lets the call go ahead. */
  ghost function Check(rows: Rows, c: Call): Option<Verdict> {
    if c.intent !in c.intents then Some(UnknownIntent)
    else if c.intents[c.intent].status != Succeeded then Some(NotRefundable)
    else if |c.reason| > MAX_REFUND_REASON_LENGTH then Some(InvalidReason)
    else if Latest(rows, c.intent).Some? && rows[Latest(rows, c.intent).value].status != RefundFailed then Some(AlreadyRefunded)
    else if c.intents[c.intent].provider !in c.providers then Some(UnknownProvider)
    else None
  }

  function Requested(c: Call): Refund
    requires c.intent in c.intents
  {
    var i := c.intents[c.intent];
    Refund(c.intent, i.amount, i.provider, RefundRequested, "", "", c.now)
  }

  /** The status an answer gives the request; REQUESTED when it settles nothing. */
  function EndsIn(answer: RefundAnswer): RefundStatus {
    match answer
    case Down => RefundRequested
    case Refused(_) => RefundFailed
    case Answered(status, _, _) => status
  }

  /** What the provider's answer does to the recorded request. */
  function Conclude(rows: Rows, c: Call): (Rows, Verdict, seq<RefundEvent>)
    requires c.intent in c.intents
  {
    var r := Requested(c);
    match c.answer
    case Down => (rows, ProviderDown(r), [])
    case Refused(why) =>
      var moved := MoveRow(rows, c.id, RefundRequested, RefundFailed, "", why);
      if moved.1.Err? then (moved.0, NotRecorded(r), [])
      else (moved.0, ProviderRefused(r.(status := RefundFailed, failure := why)), [FailedEvent(c.id)])
    case Answered(status, ref, failure) =>
      var moved := MoveRow(rows, c.id, RefundRequested, status, ref, failure);
      if moved.1.Err? then (moved.0, NotRecorded(r), [])
      else (moved.0, Refunded(r.(status := status, ref := ref)), [CompletedEvent(c.id)])
  }

  /** The writes: record the request, ask the provider, record its answer, announce. */
  function Proceed(rows: Rows, c: Call): (Rows, Verdict, seq<RefundEvent>)
    requires c.intent in c.intents
  {
    var inserted := InsertRow(rows, c.intents, c.id, Requested(c));
    if inserted.1.Err? then (rows, NotInserted, []) else Conclude(inserted.0, c)
  }

  ghost function RefundOnce(rows: Rows, c: Call): (Rows, Verdict, seq<RefundEvent>) {
    var v := Check(rows, c);
    if v.Some? then (rows, v.value, []) else Proceed(rows, c)
  }

  // ----- what every refund but the latest looks like -----

  /** Only settled intents are refunded, in full. */
  ghost predicate RowsOk(rows: Rows, intents: map<Id, Intent>) {
    forall t :: t in rows ==> rows[t].intent in intents && intents[rows[t].intent].status == Succeeded
                              && rows[t].amount == intents[rows[t].intent].amount
  }

  /** Every refund but the latest of its intent has failed. */
  ghost predicate OnlyLatestLives(rows: Rows) {
    forall t, u :: t in rows && u in rows && rows[t].intent == rows[u].intent && Before(rows, t, u) ==> rows[t].status == RefundFailed
  }

  ghost predicate RefundsOk(rows: Rows, intents: map<Id, Intent>) {
    RowsOk(rows, intents) && OnlyLatestLives(rows)
  }

  /** A settled intent stays as it is; every other intent may change. */
  ghost predicate SettledKept(before: map<Id, Intent>, after: map<Id, Intent>) {
    forall i :: i in before && before[i].status == Succeeded ==> i in after && after[i] == before[i]
  }

  /** Whatever payments do between two refund calls keeps settled intents. */
  lemma PaymentsKeepSettled(before: seq<Protocol.Action>, after: seq<Protocol.Action>)
    ensures SettledKept(Protocol.Run(Protocol.START, before).l.intents,
                        Protocol.Run(Protocol.Run(Protocol.START, before), after).l.intents)
  {
    Theorems.SettledForGood(before, after);
  }

  /** The new row sorts after every earlier refund of its intent. */
  ghost predicate SortsLast(rows: Rows, c: Call) {
    forall t :: t in rows && rows[t].intent == c.intent ==>
      rows[t].createdAt < c.now || (rows[t].createdAt == c.now && t < c.id)
  }

  /** What Check asks of the earlier refunds: the latest, if there is one, has failed. */
  ghost predicate LatestFailed(rows: Rows, i: Id) {
    Latest(rows, i).None? || rows[Latest(rows, i).value].status == RefundFailed
  }

  /** While only the latest lives, looking at the latest is looking at all of them. */
  lemma LatestFailedMeansAll(rows: Rows, i: Id)
    requires OnlyLatestLives(rows)
    ensures LatestFailed(rows, i) <==> forall t :: t in rows && rows[t].intent == i ==> rows[t].status == RefundFailed
  {
    var s := set u | u in rows && rows[u].intent == i;
    if s == {} {
      LatestNone(rows, i, s);
      assert forall t :: t in rows && rows[t].intent == i ==> t in s;
    } else {
      var last := LatestExists(rows, s);
      assert IsLatest(rows, i, last);
      LatestUnique(rows, i, last);
      forall t | t in rows && rows[t].intent == i ensures t == last || rows[t].status == RefundFailed {
        assert t in s;
      }
      assert last in s;
    }
  }

  /** Adding a live row keeps the order exactly when it sorts last and finds nothing alive. */
  lemma LiveRowKeepsIff(rows: Rows, after: Rows, c: Call)
    requires OnlyLatestLives(rows) && c.id !in rows && c.id in after && after == rows[c.id := after[c.id]]
    requires after[c.id].intent == c.intent && after[c.id].createdAt == c.now && after[c.id].status != RefundFailed
    ensures OnlyLatestLives(after) <==> SortsLast(rows, c) && LatestFailed(rows, c.intent)
  {
    LatestFailedMeansAll(rows, c.intent);
    if OnlyLatestLives(after) {
      forall t | t in rows && rows[t].intent == c.intent
        ensures Before(after, t, c.id) && rows[t].status == RefundFailed
      {
        assert Before(after, t, c.id) || Before(after, c.id, t);
      }
    }
    if SortsLast(rows, c) && LatestFailed(rows, c.intent) {
      forall t, u | t in after && u in after && after[t].intent == after[u].intent && Before(after, t, u)
        ensures after[t].status == RefundFailed
      {
        assert t in rows;
        assert u == c.id || Before(rows, t, u);
      }
    }
  }

  lemma FailedRowKeeps(rows: Rows, after: Rows, c: Call)
    requires OnlyLatestLives(rows) && LatestFailed(rows, c.intent)
    requires c.id !in rows && c.id in after && after == rows[c.id := after[c.id]]
    requires after[c.id].intent == c.intent && after[c.id].status == RefundFailed
    ensures OnlyLatestLives(after)
  {
    LatestFailedMeansAll(rows, c.intent);
    forall t, u | t in after && u in after && after[t].intent == after[u].intent && Before(after, t, u)
      ensures after[t].status == RefundFailed
    {
      if t != c.id && u != c.id { assert Before(rows, t, u); }
    }
  }

  // ----- serialised calls -----

  /** The call got as far as writing its row. */
  ghost predicate Writes(rows: Rows, c: Call) {
    Check(rows, c).None? && InsertRow(rows, c.intents, c.id, Requested(c)).1.Ok?
  }

  lemma WrittenRow(rows: Rows, c: Call)
    requires Writes(rows, c)
    ensures var after := RefundOnce(rows, c).0;
            && c.id !in rows && c.id in after && after == rows[c.id := after[c.id]]
            && after[c.id] == Requested(c).(status := EndsIn(c.answer), ref := after[c.id].ref, failure := after[c.id].failure)
  {
  }

  lemma NothingWritten(rows: Rows, c: Call)
    requires !Writes(rows, c)
    ensures RefundOnce(rows, c).0 == rows
  {
  }

  /** A call that writes its row leaves every refund but the latest failed exactly when the new row sorts
      last or the provider's answer fails it. */
  lemma RefundKeepsIff(rows: Rows, intents: map<Id, Intent>, c: Call)
    requires RefundsOk(rows, intents) && SettledKept(intents, c.intents) && Writes(rows, c)
    ensures var after := RefundOnce(rows, c).0;
            RefundsOk(after, c.intents) <==> SortsLast(rows, c) || EndsIn(c.answer) == RefundFailed
  {
    var after := RefundOnce(rows, c).0;
    WrittenRow(rows, c);
    RowsKept(rows, intents, after, c);
    if EndsIn(c.answer) == RefundFailed {
      FailedRowKeeps(rows, after, c);
    } else {
      LiveRowKeepsIff(rows, after, c);
    }
  }

  lemma RowsKept(rows: Rows, intents: map<Id, Intent>, after: Rows, c: Call)
    requires RowsOk(rows, intents) && SettledKept(intents, c.intents) && Writes(rows, c) && after == RefundOnce(rows, c).0
    ensures RowsOk(after, c.intents)
  {
    WrittenRow(rows, c);
  }

  /** The call writes nothing, or its row sorts last or is failed by the provider's answer. */
  ghost predicate Harmless(rows: Rows, c: Call) {
    Writes(rows, c) ==> SortsLast(rows, c) || EndsIn(c.answer) == RefundFailed
  }

  ghost function RefundAll(rows: Rows, calls: seq<Call>): Rows
    decreases |calls|
  {
    if calls == [] then rows else RefundAll(RefundOnce(rows, calls[0]).0, calls[1..])
  }

  /** The payments protocol runs between one call and the next. */
  ghost predicate Serial(intents: map<Id, Intent>, calls: seq<Call>)
    decreases |calls|
  {
    calls == [] || (SettledKept(intents, calls[0].intents) && Serial(calls[0].intents, calls[1..]))
  }

  ghost predicate AllHarmless(rows: Rows, calls: seq<Call>)
    decreases |calls|
  {
    calls == [] || (Harmless(rows, calls[0]) && AllHarmless(RefundOnce(rows, calls[0]).0, calls[1..]))
  }

  /** Every refund but the latest is failed after each of the calls. */
  ghost predicate AlwaysOk(rows: Rows, calls: seq<Call>)
    decreases |calls|
  {
    calls == [] || (var after := RefundOnce(rows, calls[0]).0;
                    RefundsOk(after, calls[0].intents) && AlwaysOk(after, calls[1..]))
  }

  function Finally(intents: map<Id, Intent>, calls: seq<Call>): map<Id, Intent> {
    if calls == [] then intents else calls[|calls| - 1].intents
  }

  /** Over any sequence of serialised calls: the order is kept throughout exactly when every call is
      harmless. */
  lemma {:induction false} AlwaysOkIff(rows: Rows, intents: map<Id, Intent>, calls: seq<Call>)
    requires RefundsOk(rows, intents) && Serial(intents, calls)
    ensures AlwaysOk(rows, calls) <==> AllHarmless(rows, calls)
    ensures AllHarmless(rows, calls) ==> RefundsOk(RefundAll(rows, calls), Finally(intents, calls))
    decreases |calls|
  {
    if calls != [] {
      var c := calls[0];
      if Writes(rows, c) {
        RefundKeepsIff(rows, intents, c);
      } else {
        NothingWritten(rows, c);
      }
      if Harmless(rows, c) {
        AlwaysOkIff(RefundOnce(rows, c).0, c.intents, calls[1..]);
      }
    }
  }

  // ----- money -----

  function CompletedOf(rows: Rows, i: Id): set<Id> {
    set t | t in rows && rows[t].intent == i && rows[t].status == RefundCompleted
  }

  ghost function Total(rows: Rows, s: set<Id>): int
    requires s <= rows.Keys
  {
    if s == {} then 0
    else
      var t :| t in s;
      rows[t].amount + Total(rows, s - {t})
  }

  ghost function RefundedTotal(rows: Rows, i: Id): int { Total(rows, CompletedOf(rows, i)) }

  /** What was collected for an intent. */
  function Collected(intents: map<Id, Intent>, i: Id): int {
    if i in intents && intents[i].status == Succeeded then intents[i].amount else 0
  }

  lemma {:induction false} TotalIsCount(rows: Rows, s: set<Id>, amount: int)
    requires s <= rows.Keys && forall t :: t in s ==> rows[t].amount == amount
    ensures Total(rows, s) == |s| * amount
    decreases |s|
  {
    if s != {} {
      var t :| t in s && Total(rows, s) == rows[t].amount + Total(rows, s - {t});
      TotalIsCount(rows, s - {t}, amount);
      assert |s| * amount == (|s| - 1) * amount + amount;
    }
  }

  /** What was refunded is the collected amount times the number of completed refunds. */
  lemma RefundedIsCount(rows: Rows, intents: map<Id, Intent>, i: Id)
    requires RowsOk(rows, intents)
    ensures RefundedTotal(rows, i) == |CompletedOf(rows, i)| * Collected(intents, i)
  {
    TotalIsCount(rows, CompletedOf(rows, i), Collected(intents, i));
  }

  /** Never more than was collected: at most one refund has completed. */
  lemma RefundedWithinIff(rows: Rows, intents: map<Id, Intent>, i: Id)
    requires RowsOk(rows, intents) && (i in intents ==> intents[i].amount > 0)
    ensures RefundedTotal(rows, i) <= Collected(intents, i) <==> |CompletedOf(rows, i)| <= 1
  {
    RefundedIsCount(rows, intents, i);
    var n, a := |CompletedOf(rows, i)|, Collected(intents, i);
    if n > 0 {
      var t :| t in CompletedOf(rows, i);
      if n > 1 { assert n * a == a + (n - 1) * a && (n - 1) * a > 0; }
    }
  }

  /** Over any sequence of serialised refund calls that are all harmless, with any provider answers: an
      intent is refunded either not at all or exactly in full, in full when its latest refund completed,
      and never more than was collected. */
  lemma RefundConservation(calls: seq<Call>, i: Id)
    requires Serial(map[], calls) && AllHarmless(map[], calls)
    requires forall j :: j in Finally(map[], calls) ==> Finally(map[], calls)[j].amount > 0
    ensures var rows := RefundAll(map[], calls);
            var collected := Collected(Finally(map[], calls), i);
            && (forall t, u :: t in rows && IsLatest(rows, i, u) && rows[t].intent == i && t != u ==> rows[t].status == RefundFailed)
            && RefundedTotal(rows, i) == (if exists t :: IsLatest(rows, i, t) && rows[t].status == RefundCompleted then collected else 0)
            && 0 <= collected - RefundedTotal(rows, i)
  {
    AlwaysOkIff(map[], map[], calls);
    ConservedWhenOk(RefundAll(map[], calls), Finally(map[], calls), i);
  }

  lemma ConservedWhenOk(rows: Rows, intents: map<Id, Intent>, i: Id)
    requires RefundsOk(rows, intents) && (i in intents ==> intents[i].amount > 0)
    ensures forall t, u :: t in rows && IsLatest(rows, i, u) && rows[t].intent == i && t != u ==> rows[t].status == RefundFailed
    ensures RefundedTotal(rows, i) == if exists t :: IsLatest(rows, i, t) && rows[t].status == RefundCompleted then Collected(intents, i) else 0
    ensures 0 <= Collected(intents, i) - RefundedTotal(rows, i)
  {
    RefundedIsCount(rows, intents, i);
    if CompletedOf(rows, i) != {} {
      var t :| t in CompletedOf(rows, i);
      AloneCompleted(rows, intents, i, t);
    }
    forall t | IsLatest(rows, i, t) && rows[t].status == RefundCompleted ensures t in CompletedOf(rows, i) {}
  }

  lemma AloneCompleted(rows: Rows, intents: map<Id, Intent>, i: Id, t: Id)
    requires RefundsOk(rows, intents) && t in CompletedOf(rows, i)
    ensures IsLatest(rows, i, t) && CompletedOf(rows, i) == {t}
  {
    forall u | u in rows && rows[u].intent == i ensures u == t || Before(rows, u, t) {
      assert u == t || Before(rows, u, t) || Before(rows, t, u);
    }
    forall u | u in CompletedOf(rows, i) ensures u == t { assert u == t || Before(rows, u, t); }
  }

  // ----- the store and the service -----

  class RefundStore {
    var rows: Rows

    constructor ()
      ensures rows == map[]
    {
      rows := map[];
    }

    method InsertRefund(intents: map<Id, Intent>, id: Id, r: Refund) returns (res: Outcome<()>)
      modifies this
      ensures (rows, res) == InsertRow(old(rows), intents, id, r)
    {
      if id in rows {
        return Err(Duplicate);
      }
      if r.status == RefundRequested && exists t :: t in rows && rows[t].intent == r.intent && rows[t].status == RefundRequested {
        return Err(Duplicate);
      }
      if r.intent !in intents {
        return Err(NotFound);
      }
      rows := rows[id := r];
      res := Ok(());
    }

    method UpdateRefundStatus(id: Id, expectedFrom: RefundStatus, newStatus: RefundStatus, ref: string, failure: string)
      returns (res: Outcome<()>)
      modifies this
      ensures (rows, res) == MoveRow(old(rows), id, expectedFrom, newStatus, ref, failure)
    {
      if id !in rows {
        return Err(NotFound);
      }
      var current := rows[id].status;
      if current != expectedFrom {
        return Err(Conflict);
      }
      if current != RefundRequested || newStatus == RefundRequested {
        return Err(Conflict);
      }
      var r := rows[id].(status := newStatus);
      if ref != "" {
        r := r.(ref := ref);
      }
      if failure != "" {
        r := r.(failure := failure);
      }
      rows := rows[id := r];
      res := Ok(());
    }

    method LatestRefundForIntent(i: Id) returns (r: Option<Id>)
      ensures r == Latest(rows, i)
    {
      var mine := set t | t in rows && rows[t].intent == i;
      if mine == {} {
        LatestNone(rows, i, mine);
        return None;
      }
      var t := PickLatest(rows, mine);
      assert IsLatest(rows, i, t);
      LatestUnique(rows, i, t);
      r := Some(t);
    }
  }

  lemma LatestNone(rows: Rows, i: Id, mine: set<Id>)
    requires mine == {} && mine == set t | t in rows && rows[t].intent == i
    ensures Latest(rows, i) == None
  {
    assert forall t :: IsLatest(rows, i, t) ==> t in mine;
  }

  /** ORDER BY created_at DESC, id DESC LIMIT 1. */
  method PickLatest(rows: Rows, s: set<Id>) returns (t: Id)
    requires s != {} && s <= rows.Keys
    ensures t in s && forall u :: u in s ==> u == t || Before(rows, u, t)
  {
    ghost var w := LatestExists(rows, s);
    t :| t in s && forall u :: u in s ==>
      u == t || rows[u].createdAt < rows[t].createdAt || (rows[u].createdAt == rows[t].createdAt && u < t);
  }

  class RefundService {
    const store: RefundStore
    var events: seq<RefundEvent>

    constructor (store: RefundStore)
      ensures this.store == store && events == []
    {
      this.store := store;
      events := [];
    }

    method RefundPayment(c: Call) returns (v: Verdict)
      modifies this`events, store
      ensures var (after, verdict, out) := RefundOnce(old(store.rows), c);
              store.rows == after && v == verdict && events == old(events) + out
    {
      assert events + [] == events;
      if c.intent !in c.intents {
        return UnknownIntent;
      }
      var intent := c.intents[c.intent];
      if intent.status != Succeeded {
        return NotRefundable;
      }
      if |c.reason| > MAX_REFUND_REASON_LENGTH {
        return InvalidReason;
      }
      var existing := store.LatestRefundForIntent(c.intent);
      if existing.Some? && store.rows[existing.value].status != RefundFailed {
        return AlreadyRefunded;
      }
      if intent.provider !in c.providers {
        return UnknownProvider;
      }
      var refund := Refund(c.intent, intent.amount, intent.provider, RefundRequested, "", "", c.now);
      var inserted := store.InsertRefund(c.intents, c.id, refund);
      if inserted.Err? {
        return NotInserted;
      }
      match c.answer
      case Down =>
        v := ProviderDown(refund);
      case Refused(why) =>
        var moved := store.UpdateRefundStatus(c.id, RefundRequested, RefundFailed, "", why);
        if moved.Err? {
          return NotRecorded(refund);
        }
        events := events + [FailedEvent(c.id)];
        v := ProviderRefused(refund.(status := RefundFailed, failure := why));
      case Answered(status, ref, failure) =>
        var moved := store.UpdateRefundStatus(c.id, RefundRequested, status, ref, failure);
        if moved.Err? {
          return NotRecorded(refund);
        }
        events := events + [CompletedEvent(c.id)];
        v := Refunded(refund.(status := status, ref := ref));
    }
  }
}
