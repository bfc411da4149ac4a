/** Safety of the settlement protocol over every run. */
module PaymentSafety {
  import opened Wrappers
  import opened PaymentLedger
  import opened PaymentProtocol

  // ----- what each store transaction keeps -----

  lemma IntentInserted(l: Ledger, i: Id, x: Intent)
    requires LedgerInv(l) && x.status == Created
    ensures LedgerInv(l.InsertIntent(i, x).0)
    ensures i !in l.intents ==> !HasTx(l.InsertIntent(i, x).0.txs, i)
  {
    var m := l.InsertIntent(i, x).0;
    forall j | j in m.intents && m.intents[j].status != Created
      ensures HasTx(m.txs, j)
    {
      assert HasTx(l.txs, j);
      var t :| TxFor(l.txs, t, j);
      assert TxFor(m.txs, t, j);
    }
  }

  lemma TxInserted(l: Ledger, t: Id, x: Transaction)
    requires LedgerInv(l)
    requires x.intent in l.intents && l.intents[x.intent].status == Created && !HasTx(l.txs, x.intent)
    requires x.status != TxSucceeded
    ensures LedgerInv(l.InsertTx(t, x).0)
  {
    InsertKeepsUniqueRefs(l, t, x);
    var m := l.InsertTx(t, x).0;
    forall u, v, j | TxFor(m.txs, u, j) && TxFor(m.txs, v, j)
      ensures u == v
    {
      assert u == t || TxFor(l.txs, u, j);
      assert v == t || TxFor(l.txs, v, j);
    }
    forall j | j in m.intents && m.intents[j].status != Created
      ensures HasTx(m.txs, j)
    {
      var u :| TxFor(l.txs, u, j);
      assert TxFor(m.txs, u, j);
    }
  }

  lemma PathExtended(moves: seq<Move>, from: IntentStatus, m: Move)
    requires Path(moves, from, m.from)
    ensures Path(moves + [m], from, m.to)
  {
    assert (moves + [m])[..|moves|] == moves;
  }

  lemma IntentMoved(l: Ledger, i: Id, t: Id, to: IntentStatus, reason: string)
    requires LedgerInv(l)
    requires i in l.intents && l.intents[i].status == Created && TxFor(l.txs, t, i)
    requires (to == Processing && l.txs[t].status == TxPending) || (to == Failed && l.txs[t].status == TxFailed)
    ensures LedgerInv(l.MoveIntent(i, Created, to, reason).0)
  {
    var m := l.MoveIntent(i, Created, to, reason).0;
    forall u | u in m.txs && u != t
      ensures m.txs[u].intent != i
    {
      assert !TxFor(l.txs, u, i) || !TxFor(l.txs, t, i);
    }
    PathExtended(l.log[i], Created, Move(Created, to, reason));
    forall j | j in m.intents && m.intents[j].status != Created
      ensures HasTx(m.txs, j)
    {
      if j == i {
        assert TxFor(m.txs, t, i);
      } else {
        var u :| TxFor(l.txs, u, j);
        assert TxFor(m.txs, u, j);
      }
    }
  }

  /** A settlement that took effect: a PENDING attempt of a PROCESSING intent moved together with
      its intent, and the move was logged. */
  ghost predicate TookEffect(l: Ledger, m: Ledger, t: Id, s: TxStatus, cause: Cause) {
    && HoldsStatus(l, t, TxPending) && s != TxPending
    && var i := l.txs[t].intent;
       && i in l.intents && l.intents[i].status == Processing
       && m.txs == l.txs[t := Stamped(l.txs[t], s, cause.receipt)]
       && m.intents == l.intents[i := l.intents[i].(status := IntentFor(s))]
       && m.log == l.log[i := l.Moves(i) + [Move(Processing, IntentFor(s), cause.reason)]]
       && m.keys == l.keys
  }

  lemma IntentSettled(l: Ledger, t: Id, s: TxStatus, cause: Cause, m: Ledger)
    requires LedgerInv(l) && TookEffect(l, m, t, s, cause)
    ensures OnePerIntent(m.txs) && Linked(m) && Backed(m) && Logged(m)
  {
    var i := l.txs[t].intent;
    PathExtended(l.log[i], Created, Move(Processing, IntentFor(s), cause.reason));
    forall u, v, j | TxFor(m.txs, u, j) && TxFor(m.txs, v, j)
      ensures u == v
    {
      assert TxFor(l.txs, u, j) && TxFor(l.txs, v, j);
    }
    forall u | u in m.txs && u != t
      ensures m.txs[u].intent != i
    {
      assert !TxFor(l.txs, u, i) || !TxFor(l.txs, t, i);
    }
    forall j | j in m.intents && m.intents[j].status != Created
      ensures HasTx(m.txs, j)
    {
      assert HasTx(l.txs, j);
      var u :| TxFor(l.txs, u, j);
      assert TxFor(m.txs, u, j);
    }
  }

  /** A settlement either takes full effect, or leaves the ledger as it was: the branch for an
      intent that already settled beside a still pending attempt is never taken. */
  lemma Settled(l: Ledger, t: Id, s: TxStatus, cause: Cause)
    requires LedgerInv(l) && s != TxPending
    ensures var (m, r) := l.Settle(SettlementOf(t, s, cause));
            && LedgerInv(m)
            && (r == Ok(true) ==> TookEffect(l, m, t, s, cause))
            && (r != Ok(true) ==> m == l)
            && (r == Ok(false) <==> HoldsStatus(l, t, s))
  {
    SettleKeepsUniqueRefs(l, SettlementOf(t, s, cause));
    var (m, r) := l.Settle(SettlementOf(t, s, cause));
    if HoldsStatus(l, t, TxPending) {
      assert Paired(l.intents[l.txs[t].intent].status, TxPending);
      if TookEffect(l, m, t, s, cause) {
        IntentSettled(l, t, s, cause, m);
      }
    }
  }

  // ----- what never changes once written -----

  ghost predicate SameRow(x: Transaction, y: Transaction) {
    y == x.(status := y.status, receipt := y.receipt) && (x.status != TxPending ==> y == x)
  }

  ghost predicate Evolves(l: Ledger, m: Ledger) {
    && (forall i :: i in l.intents ==> i in m.intents && m.intents[i] == l.intents[i].(status := m.intents[i].status)
                                       && (Terminal(l.intents[i].status) ==> m.intents[i] == l.intents[i]))
    && (forall t :: t in l.txs ==> t in m.txs && SameRow(l.txs[t], m.txs[t]))
    && (forall k :: k in l.keys ==> k in m.keys && m.keys[k].payloadHash == l.keys[k].payloadHash
                                    && (l.keys[k].result == "applied" ==> m.keys[k] == l.keys[k]))
  }

  /** Facts about written rows survive any later transaction. */
  lemma LiveKept(l: Ledger, m: Ledger, hooks: map<Id, Hook>, runs: map<Id, RecRun>, applied: seq<Id>)
    requires Evolves(l, m) && Live(l, hooks, runs, applied)
    ensures Live(m, hooks, runs, applied)
  {
    forall p | p in hooks ensures HookOk(m, hooks[p]) { assert HookOk(l, hooks[p]); }
    forall p | p in runs && runs[p].announce.Some? ensures AnnounceOk(m, applied, runs[p].announce.value) {
      assert AnnounceOk(l, applied, runs[p].announce.value);
    }
  }

  lemma HistoryKept(l: Ledger, m: Ledger, events: seq<Event>, wins: seq<Key>, applied: seq<Id>, replies: seq<Reply>)
    requires Evolves(l, m) && m.keys == l.keys && History(l, events, wins, applied, replies)
    ensures History(m, events, wins, applied, replies)
  {
    forall e | e in events ensures EventOk(m, applied, e) { assert EventOk(l, applied, e); }
  }

  /** Nothing about intent j or its attempt changed. */
  ghost predicate Untouched(l: Ledger, m: Ledger, j: Id) {
    && (j in l.intents ==> j in m.intents && m.intents[j] == l.intents[j])
    && (forall t :: TxFor(l.txs, t, j) ==> t in m.txs && m.txs[t] == l.txs[t])
    && (HasTx(m.txs, j) ==> HasTx(l.txs, j))
  }

  lemma InitsKept(l: Ledger, m: Ledger, inits: map<Id, InitPhase>, i: Id)
    requires InitsOk(l, inits)
    requires forall j :: j in inits && j != i ==> Untouched(l, m, j)
    ensures InitsOk(m, inits - {i})
  {
    forall j | j in inits && j != i
      ensures InitOk(m, j, inits[j])
    {
      assert InitOk(l, j, inits[j]) && Untouched(l, m, j);
    }
  }

  // ----- initiation -----

  lemma InsertedUntouched(l: Ledger, i: Id, x: Intent)
    requires i !in l.intents
    ensures Evolves(l, l.InsertIntent(i, x).0)
    ensures forall j :: j != i ==> Untouched(l, l.InsertIntent(i, x).0, j)
  {
    var m := l.InsertIntent(i, x).0;
    forall j | j != i ensures Untouched(l, m, j) {
      if HasTx(m.txs, j) {
        var t :| TxFor(m.txs, t, j);
        assert TxFor(l.txs, t, j);
      }
    }
  }

  lemma InitiateCore(l: Ledger, inits: map<Id, InitPhase>, i: Id, t: Id, amount: int, provider: string)
    requires Core(l, inits) && i !in l.intents
    ensures Core(l.InsertIntent(i, Intent(amount, provider, Created)).0, inits[i := Calling(t, amount, provider)])
  {
    var x := Intent(amount, provider, Created);
    var m := l.InsertIntent(i, x).0;
    IntentInserted(l, i, x);
    InsertedUntouched(l, i, x);
    InitsKept(l, m, inits, i);
    var inits' := inits[i := Calling(t, amount, provider)];
    forall j | j in inits' ensures InitOk(m, j, inits'[j]) {
      assert j != i ==> j in inits - {i};
    }
  }

  lemma QuietInitsChanged(inits: map<Id, InitPhase>, i: Id, phase: InitPhase, applied: seq<Id>, events: seq<Event>)
    requires InitsQuiet(inits, applied, events)
    requires forall t :: WillAnnounce(phase, t) ==> t !in applied && !Published(events, t, Initiation)
    ensures InitsQuiet(inits[i := phase], applied, events)
  {
  }

  /** A transaction of an initiation: only the ledger and the initiations change. */
  lemma InitiationKeeps(w: World, v: World)
    requires Inv(w) && v == w.(l := v.l, inits := v.inits)
    requires Evolves(w.l, v.l) && v.l.keys == w.l.keys
    requires Core(v.l, v.inits) && InitsQuiet(v.inits, w.applied, w.events)
    ensures Inv(v)
  {
    LiveKept(w.l, v.l, w.hooks, w.runs, w.applied);
    HistoryKept(w.l, v.l, w.events, w.wins, w.applied, w.replies);
  }

  lemma InitiateShape(w: World, i: Id, t: Id, amount: int, provider: string)
    ensures var v := Next(w, Initiate(i, t, amount, provider));
            if i !in w.l.intents && amount > 0 then
              v == w.(l := w.l.InsertIntent(i, Intent(amount, provider, Created)).0, inits := w.inits[i := Calling(t, amount, provider)])
              && v.l.keys == w.l.keys
            else v == w
  {
  }

  lemma InitiateKeeps(w: World, v: World, i: Id, t: Id, amount: int, provider: string)
    requires Inv(w) && v == Next(w, Initiate(i, t, amount, provider))
    ensures Inv(v)
  {
    InitiateShape(w, i, t, amount, provider);
    if i !in w.l.intents && amount > 0 {
      InitiateCore(w.l, w.inits, i, t, amount, provider);
      InsertedUntouched(w.l, i, Intent(amount, provider, Created));
      QuietInitsChanged(w.inits, i, Calling(t, amount, provider), w.applied, w.events);
      InitiationKeeps(w, v);
    }
  }

  lemma InsertTxUntouched(l: Ledger, t: Id, x: Transaction)
    ensures forall j :: j != x.intent ==> Untouched(l, l.InsertTx(t, x).0, j)
  {
    var m := l.InsertTx(t, x).0;
    forall j | j != x.intent ensures Untouched(l, m, j) {
      if HasTx(m.txs, j) {
        var u :| TxFor(m.txs, u, j);
        assert TxFor(l.txs, u, j);
      }
    }
  }

  lemma InsertTxEvolves(l: Ledger, t: Id, x: Transaction)
    ensures Evolves(l, l.InsertTx(t, x).0)
  {
  }

  /** One initiation moves on, the others are not touched. */
  lemma Continued(l: Ledger, m: Ledger, inits: map<Id, InitPhase>, i: Id, next: Option<InitPhase>)
    requires InitsOk(l, inits)
    requires forall j :: j in inits && j != i ==> Untouched(l, m, j)
    requires next.Some? ==> InitOk(m, i, next.value)
    ensures InitsOk(m, if next.Some? then inits[i := next.value] else inits - {i})
  {
    InitsKept(l, m, inits, i);
    if next.Some? {
      var inits' := inits[i := next.value];
      forall j | j in inits' ensures InitOk(m, j, inits'[j]) {
        assert j != i ==> j in inits - {i};
      }
    }
  }

  lemma CallingStep(l: Ledger, i: Id, ph: InitPhase, e: Effect<Option<InitPhase>>, answer: InitAnswer, now: int)
    requires LedgerInv(l) && ph.Calling? && InitOk(l, i, ph) && e == InitStep(l, i, ph, answer, now)
    ensures LedgerInv(e.l) && Evolves(l, e.l)
    ensures forall j :: j != i ==> Untouched(l, e.l, j)
  {
    var ref := if answer.Accepted? && answer.ref != "" then Some(answer.ref) else None;
    var x := Transaction(i, ph.provider, ref, if answer.Accepted? then TxPending else TxFailed, ph.amount, now, "");
    TxInserted(l, ph.tx, x);
    InsertTxUntouched(l, ph.tx, x);
    InsertTxEvolves(l, ph.tx, x);
  }

  lemma CallingNext(l: Ledger, i: Id, ph: InitPhase, e: Effect<Option<InitPhase>>, answer: InitAnswer, now: int)
    requires ph.Calling? && InitOk(l, i, ph) && e == InitStep(l, i, ph, answer, now)
    ensures e.next.Some? ==> InitOk(e.l, i, e.next.value)
  {
  }

  lemma CallingCore(l: Ledger, inits: map<Id, InitPhase>, i: Id, e: Effect<Option<InitPhase>>, answer: InitAnswer, now: int)
    requires Core(l, inits) && i in inits && inits[i].Calling?
    requires e == InitStep(l, i, inits[i], answer, now)
    ensures Core(e.l, if e.next.Some? then inits[i := e.next.value] else inits - {i})
    ensures Evolves(l, e.l)
  {
    assert InitOk(l, i, inits[i]);
    CallingStep(l, i, inits[i], e, answer, now);
    CallingNext(l, i, inits[i], e, answer, now);
    Continued(l, e.l, inits, i, e.next);
  }

  lemma MovedUntouched(l: Ledger, i: Id, from: IntentStatus, to: IntentStatus, reason: string)
    requires !Terminal(from)
    ensures Evolves(l, l.MoveIntent(i, from, to, reason).0)
    ensures forall j :: j != i ==> Untouched(l, l.MoveIntent(i, from, to, reason).0, j)
  {
    var m := l.MoveIntent(i, from, to, reason).0;
    assert m.txs == l.txs;
    forall j | j != i ensures Untouched(l, m, j) {
      if HasTx(m.txs, j) {
        var u :| TxFor(m.txs, u, j);
        assert TxFor(l.txs, u, j);
      }
    }
  }

  lemma RecordedStep(l: Ledger, i: Id, ph: InitPhase, e: Effect<Option<InitPhase>>, answer: InitAnswer, now: int)
    requires ph.Recorded? && InitOk(l, i, ph) && e == InitStep(l, i, ph, answer, now)
    ensures Evolves(l, e.l)
    ensures forall j :: j != i ==> Untouched(l, e.l, j)
  {
    MovedUntouched(l, i, Created, Processing, "provider accepted the initiation");
    MovedUntouched(l, i, Created, Failed, "provider rejected the initiation");
  }

  lemma RecordedInv(l: Ledger, i: Id, ph: InitPhase, e: Effect<Option<InitPhase>>, answer: InitAnswer, now: int)
    requires LedgerInv(l) && ph.Recorded? && InitOk(l, i, ph) && e == InitStep(l, i, ph, answer, now)
    ensures LedgerInv(e.l)
  {
    if ph.accepted {
      IntentMoved(l, i, ph.tx, Processing, "provider accepted the initiation");
    } else {
      IntentMoved(l, i, ph.tx, Failed, "provider rejected the initiation");
    }
  }

  lemma RecordedNext(l: Ledger, i: Id, ph: InitPhase, e: Effect<Option<InitPhase>>, answer: InitAnswer, now: int)
    requires ph.Recorded? && InitOk(l, i, ph) && e == InitStep(l, i, ph, answer, now)
    ensures e.next.Some? ==> InitOk(e.l, i, e.next.value)
  {
  }

  lemma RecordedCore(l: Ledger, inits: map<Id, InitPhase>, i: Id, e: Effect<Option<InitPhase>>, answer: InitAnswer, now: int)
    requires Core(l, inits) && i in inits && inits[i].Recorded?
    requires e == InitStep(l, i, inits[i], answer, now)
    ensures Core(e.l, if e.next.Some? then inits[i := e.next.value] else inits - {i})
    ensures Evolves(l, e.l)
  {
    assert InitOk(l, i, inits[i]);
    RecordedStep(l, i, inits[i], e, answer, now);
    RecordedInv(l, i, inits[i], e, answer, now);
    RecordedNext(l, i, inits[i], e, answer, now);
    Continued(l, e.l, inits, i, e.next);
  }

  lemma InitAdvanceShape(w: World, i: Id, answer: InitAnswer, now: int)
    requires i in w.inits && !w.inits[i].Announcing?
    ensures var e := InitStep(w.l, i, w.inits[i], answer, now);
            Next(w, InitAdvance(i, answer, now)) ==
            w.(l := e.l, inits := if e.next.Some? then w.inits[i := e.next.value] else w.inits - {i})
    ensures InitStep(w.l, i, w.inits[i], answer, now).l.keys == w.l.keys
  {
    var e := InitStep(w.l, i, w.inits[i], answer, now);
    assert e.applied == [] && e.wins == [] && e.events == [];
  }

  lemma InitAdvanceKeeps(w: World, i: Id, answer: InitAnswer, now: int)
    requires Inv(w) && i in w.inits && !w.inits[i].Announcing?
    ensures Inv(Next(w, InitAdvance(i, answer, now)))
  {
    var e := InitStep(w.l, i, w.inits[i], answer, now);
    if w.inits[i].Calling? {
      CallingCore(w.l, w.inits, i, e, answer, now);
    } else {
      RecordedCore(w.l, w.inits, i, e, answer, now);
    }
    AdvancedQuiet(w.l, w.inits, i, e, answer, now, w.applied, w.events);
    InitAdvanceShape(w, i, answer, now);
    InitiationKeeps(w, Next(w, InitAdvance(i, answer, now)));
  }

  lemma AdvancedQuiet(l: Ledger, inits: map<Id, InitPhase>, i: Id, e: Effect<Option<InitPhase>>, answer: InitAnswer, now: int,
                      applied: seq<Id>, events: seq<Event>)
    requires i in inits && !inits[i].Announcing? && e == InitStep(l, i, inits[i], answer, now)
    requires InitsQuiet(inits, applied, events) && AppliedOk(l, applied) && EventsOk(l, applied, events)
    ensures InitsQuiet(if e.next.Some? then inits[i := e.next.value] else inits - {i}, applied, events)
  {
    if e.next.Some? {
      var phase := e.next.value;
      forall t | WillAnnounce(phase, t)
        ensures t !in applied && !Published(events, t, Initiation)
      {
        if inits[i].Calling? {
          assert t !in l.txs;
          assert forall x :: x in events ==> EventOk(l, applied, x);
        } else {
          assert WillAnnounce(inits[i], t);
        }
      }
      QuietInitsChanged(inits, i, phase, applied, events);
    }
  }

  /** Publishing one event keeps the history, if its path has not announced that attempt before. */
  lemma EventPublished(l: Ledger, applied: seq<Id>, events: seq<Event>, e: Event)
    requires EventsOk(l, applied, events) && EventsApart(events)
    requires EventOk(l, applied, e) && !Published(events, e.tx, e.via)
    ensures EventsOk(l, applied, events + [e]) && EventsApart(events + [e])
  {
    var more := events + [e];
    forall x | x in more ensures EventOk(l, applied, x) { assert x == e || x in events; }
    forall i, j | 0 <= i < j < |more| ensures more[i].tx != more[j].tx || more[i].via != more[j].via {
      if j == |events| {
        assert more[i] in events;
      }
    }
  }

  lemma AnnouncingShape(w: World, i: Id, answer: InitAnswer, now: int)
    requires i in w.inits && w.inits[i].Announcing?
    ensures Next(w, InitAdvance(i, answer, now)) ==
            w.(events := w.events + [Event(w.inits[i].tx, TxFailed, Initiation)], inits := w.inits - {i})
  {
    assert InitStep(w.l, i, w.inits[i], answer, now).applied == [];
  }

  lemma AnnouncingQuiet(l: Ledger, inits: map<Id, InitPhase>, applied: seq<Id>, events: seq<Event>, i: Id)
    requires InitsOk(l, inits) && InitsQuiet(inits, applied, events) && i in inits && inits[i].Announcing?
    ensures InitsQuiet(inits - {i}, applied, events + [Event(inits[i].tx, TxFailed, Initiation)])
    ensures InitsOk(l, inits - {i})
  {
    var t := inits[i].tx;
    assert InitOk(l, i, inits[i]);
    forall j, u | j in inits - {i} && WillAnnounce(inits[j], u)
      ensures !Published(events + [Event(t, TxFailed, Initiation)], u, Initiation)
    {
      assert InitOk(l, j, inits[j]);
      assert u != t && !Published(events, u, Initiation);
      assert forall e :: e in events + [Event(t, TxFailed, Initiation)] ==> e in events || e.tx == t;
    }
    forall j | j in inits - {i} ensures InitOk(l, j, (inits - {i})[j]) { assert InitOk(l, j, inits[j]); }
  }

  lemma AnnouncingKeeps(w: World, i: Id, answer: InitAnswer, now: int)
    requires Inv(w) && i in w.inits && w.inits[i].Announcing?
    ensures Inv(Next(w, InitAdvance(i, answer, now)))
  {
    var t := w.inits[i].tx;
    var e := Event(t, TxFailed, Initiation);
    AnnouncingShape(w, i, answer, now);
    assert InitOk(w.l, i, w.inits[i]) && WillAnnounce(w.inits[i], t);
    EventPublished(w.l, w.applied, w.events, e);
    AnnouncingQuiet(w.l, w.inits, w.applied, w.events, i);
    QuietAfter(w.hooks, w.runs, w.events, e);
  }

  lemma QuietAfter(hooks: map<Id, Hook>, runs: map<Id, RecRun>, events: seq<Event>, e: Event)
    requires HooksQuiet(hooks, events) && RunsQuiet(runs, events)
    requires e.via == Initiation
    ensures HooksQuiet(hooks, events + [e]) && RunsQuiet(runs, events + [e])
  {
  }

  // ----- settlement, from either path -----

  lemma EffectElsewhere(l: Ledger, m: Ledger, t: Id, s: TxStatus, cause: Cause)
    requires TookEffect(l, m, t, s, cause)
    ensures forall j :: j != l.txs[t].intent ==> Untouched(l, m, j)
  {
    forall j | j != l.txs[t].intent
      ensures Untouched(l, m, j)
    {
      if HasTx(m.txs, j) {
        var u :| TxFor(m.txs, u, j);
        assert TxFor(l.txs, u, j);
      }
    }
  }

  lemma EffectEvolves(l: Ledger, m: Ledger, t: Id, s: TxStatus, cause: Cause)
    requires TookEffect(l, m, t, s, cause)
    ensures Evolves(l, m)
  {
  }

  /** An intent that is PROCESSING has no initiation left. */
  lemma NotInitiating(l: Ledger, inits: map<Id, InitPhase>, t: Id)
    requires OnePerIntent(l.txs) && InitsOk(l, inits)
    requires HoldsStatus(l, t, TxPending) && l.txs[t].intent in l.intents && l.intents[l.txs[t].intent].status == Processing
    ensures l.txs[t].intent !in inits
  {
    var i := l.txs[t].intent;
    assert TxFor(l.txs, t, i);
    assert i in inits ==> InitOk(l, i, inits[i]);
  }

  lemma EffectInits(l: Ledger, m: Ledger, inits: map<Id, InitPhase>, t: Id, s: TxStatus, cause: Cause)
    requires OnePerIntent(l.txs) && InitsOk(l, inits) && TookEffect(l, m, t, s, cause)
    ensures InitsOk(m, inits)
  {
    NotInitiating(l, inits, t);
    EffectElsewhere(l, m, t, s, cause);
    InitsKept(l, m, inits, l.txs[t].intent);
    assert inits - {l.txs[t].intent} == inits;
  }

  lemma AppliedGrows(l: Ledger, m: Ledger, t: Id, events: seq<Event>, wins: seq<Key>, applied: seq<Id>, replies: seq<Reply>)
    requires History(m, events, wins, applied, replies) && AppliedOk(l, applied) && EventsOk(l, applied, events)
    requires HoldsStatus(l, t, TxPending) && t in m.txs && m.txs[t].status != TxPending
    ensures History(m, events, wins, applied + [t], replies)
  {
    forall e | e in events
      ensures EventOk(m, applied + [t], e)
    {
      assert EventOk(l, applied, e) && EventOk(m, applied, e);
    }
  }

  lemma RunsGrow(l: Ledger, applied: seq<Id>, t: Id, runs: map<Id, RecRun>)
    requires RunsOk(l, applied, runs)
    ensures RunsOk(l, applied + [t], runs)
  {
    forall p | p in runs && runs[p].announce.Some?
      ensures AnnounceOk(l, applied + [t], runs[p].announce.value)
    {
      assert AnnounceOk(l, applied, runs[p].announce.value);
    }
  }

  lemma InitsQuietGrow(l: Ledger, inits: map<Id, InitPhase>, applied: seq<Id>, events: seq<Event>, t: Id)
    requires InitsOk(l, inits) && InitsQuiet(inits, applied, events) && HoldsStatus(l, t, TxPending)
    ensures InitsQuiet(inits, applied + [t], events)
  {
    forall i, u | i in inits && WillAnnounce(inits[i], u)
      ensures u !in applied + [t]
    {
      assert InitOk(l, i, inits[i]);
    }
  }

  /** The world after one settlement attempt, with its report added to the history. */
  ghost function AfterSettle(w: World, t: Id, s: TxStatus, cause: Cause): World {
    var (m, r) := w.l.Settle(SettlementOf(t, s, cause));
    w.(l := m, applied := w.applied + (if r == Ok(true) then [t] else []))
  }

  lemma EffectKeeps(w: World, m: Ledger, t: Id, s: TxStatus, cause: Cause)
    requires Inv(w) && LedgerInv(m) && TookEffect(w.l, m, t, s, cause)
    ensures Inv(w.(l := m, applied := w.applied + [t]))
  {
    EffectEvolves(w.l, m, t, s, cause);
    EffectInits(w.l, m, w.inits, t, s, cause);
    LiveKept(w.l, m, w.hooks, w.runs, w.applied);
    HistoryKept(w.l, m, w.events, w.wins, w.applied, w.replies);
    AppliedGrows(w.l, m, t, w.events, w.wins, w.applied, w.replies);
    RunsGrow(m, w.applied, t, w.runs);
    InitsQuietGrow(w.l, w.inits, w.applied, w.events, t);
  }

  lemma SettleKeeps(w: World, t: Id, s: TxStatus, cause: Cause)
    requires Inv(w) && s != TxPending
    ensures Inv(AfterSettle(w, t, s, cause))
  {
    var (m, r) := w.l.Settle(SettlementOf(t, s, cause));
    Settled(w.l, t, s, cause);
    if r == Ok(true) {
      EffectKeeps(w, m, t, s, cause);
    } else {
      assert AfterSettle(w, t, s, cause) == w;
    }
  }
}
