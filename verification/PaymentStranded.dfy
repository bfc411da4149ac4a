/** What nothing repairs: intents that can no longer leave CREATED and keys that stay claimed, with the
    exact conditions under which they come about. */
module PaymentStranded {
  import opened Wrappers
  import opened PaymentLedger
  import opened PaymentProtocol
  import opened PaymentSafety
  import opened PaymentDeliveries
  import opened PaymentTheorems
  import opened PaymentService

  // ----- settling an attempt -----

  /** A pending attempt can be settled exactly when its intent is PROCESSING, not CREATED, and the receipt
      is no other attempt's. */
  lemma PendingSettlesIff(actions: seq<Action>, t: Id, s: TxStatus, cause: Cause)
    requires HoldsStatus(Run(START, actions).l, t, TxPending) && s != TxPending
    ensures var l := Run(START, actions).l;
            l.txs[t].intent in l.intents &&
            (l.Settle(SettlementOf(t, s, cause)).1 == Ok(true) <==>
             l.intents[l.txs[t].intent].status == Processing && !l.ReceiptTaken(t, cause.receipt))
  {
    Reachable(actions);
  }

  lemma SettlesIff(l: Ledger, t: Id, s: TxStatus, cause: Cause)
    requires LedgerInv(l) && s != TxPending && t in l.txs
    ensures l.txs[t].intent in l.intents
    ensures l.Settle(SettlementOf(t, s, cause)).1.Ok? <==>
            l.txs[t].status == s
            || (l.txs[t].status == TxPending && l.intents[l.txs[t].intent].status == Processing && !l.ReceiptTaken(t, cause.receipt))
  {
  }

  // ----- stranded intents -----

  /** A CREATED intent whose initiation is gone, having crashed or failed to reach the provider, or can
      only fail, its attempt's id being taken. */
  ghost predicate Stranded(w: World, i: Id) {
    && i in w.l.intents && w.l.intents[i].status == Created
    && (i in w.inits ==> w.inits[i].Calling? && w.inits[i].tx in w.l.txs)
  }

  lemma StrandedStep(w: World, a: Action, i: Id)
    requires Stranded(w, i)
    ensures Stranded(Next(w, a), i)
    ensures Untouched(w.l, Next(w, a).l, i)
  {
    NextLedger(w, a);
    match a
    case InitAdvance(j, answer, now) =>
      if j in w.inits {
        if j == i { DoomedInit(w.l, i, w.inits[i], answer, now); } else { OrphanBesideInit(w.l, i, j, w.inits[j], answer, now); }
        InitStepEvolves(w.l, j, w.inits[j], answer, now);
      }
    case HookAdvance(p) => if p in w.hooks { OrphanBesideHook(w.l, i, w.hooks[p].d, w.hooks[p].phase); }
    case RunAdvance(p, answer) => if p in w.runs { OrphanBesideRun(w.l, i, w.runs[p], answer); }
    case _ =>
  }

  lemma DoomedInit(l: Ledger, i: Id, phase: InitPhase, answer: InitAnswer, now: int)
    requires phase.Calling? && phase.tx in l.txs
    ensures InitStep(l, i, phase, answer, now) == Silent(l, None)
  {
  }

  lemma OrphanBesideHook(l: Ledger, i: Id, d: Delivery, phase: HookPhase)
    requires i in l.intents && l.intents[i].status == Created
    ensures Untouched(l, HookStep(l, d, phase).l, i) && HookStep(l, d, phase).l.txs.Keys == l.txs.Keys
  {
    if phase.Claimed? {
      ClaimedLedger(l, d, phase);
      OrphanNotSettled(l, i, SettlementOf(phase.tx, StatusOf(d.event), Cause("webhook", d.receipt)));
    }
  }

  lemma OrphanBesideRun(l: Ledger, i: Id, r: RecRun, answer: QueryAnswer)
    requires i in l.intents && l.intents[i].status == Created
    ensures Untouched(l, RecStep(l, r, answer).l, i) && RecStep(l, r, answer).l.txs.Keys == l.txs.Keys
  {
    RecLedger(l, r, answer);
    if r.queue != [] && answer.QueryStatus? {
      OrphanNotSettled(l, i, SettlementOf(r.queue[0], answer.status, Cause("reconciliation", answer.receipt)));
    }
  }

  lemma OrphanBesideInit(l: Ledger, i: Id, j: Id, phase: InitPhase, answer: InitAnswer, now: int)
    requires i != j
    ensures Untouched(l, InitStep(l, j, phase, answer, now).l, i)
  {
    match phase
    case Calling(t, amount, provider) =>
      var ref := if answer.Accepted? && answer.ref != "" then Some(answer.ref) else None;
      InsertTxUntouched(l, t, Transaction(j, provider, ref, if answer.Accepted? then TxPending else TxFailed, amount, now, ""));
    case Recorded(t, accepted) =>
      MovedUntouched(l, j, Created, Processing, "provider accepted the initiation");
      MovedUntouched(l, j, Created, Failed, "provider rejected the initiation");
    case Announcing(_) =>
  }

  lemma OrphanNotSettled(l: Ledger, i: Id, p: Settlement)
    requires i in l.intents && l.intents[i].status == Created && p.intentStatus != Created
    ensures Untouched(l, l.Settle(p).0, i)
  {
    var m := l.Settle(p).0;
    if HasTx(m.txs, i) {
      var t :| TxFor(m.txs, t, i);
      assert TxFor(l.txs, t, i);
    }
  }

  lemma UntouchedTransitive(l: Ledger, m: Ledger, n: Ledger, i: Id)
    requires Untouched(l, m, i) && Untouched(m, n, i)
    ensures Untouched(l, n, i)
  {
    forall t | TxFor(l.txs, t, i) ensures t in n.txs && n.txs[t] == l.txs[t] { assert TxFor(m.txs, t, i); }
  }

  /** Neither webhooks nor reconciliation ever settle a stranded intent, whatever the provider answers:
      it stays CREATED and its attempt, if it has one, keeps its status. */
  lemma {:induction false} StrandedForever(w: World, actions: seq<Action>, i: Id)
    requires Stranded(w, i)
    ensures Stranded(Run(w, actions), i) && Untouched(w.l, Run(w, actions).l, i)
    decreases |actions|
  {
    if actions != [] {
      StrandedStep(w, actions[0], i);
      StrandedForever(Next(w, actions[0]), actions[1..], i);
      UntouchedTransitive(w.l, Next(w, actions[0]).l, Run(w, actions).l, i);
    }
  }

  predicate Left(w: World, i: Id) { i in w.l.intents && w.l.intents[i].status != Created }

  /** In every reachable state: a CREATED intent can still leave CREATED exactly when it is not stranded,
      that is when its initiation is live and has recorded its attempt or still can. */
  lemma LeavesIffNotStranded(before: seq<Action>, i: Id)
    requires i in Run(START, before).l.intents && Run(START, before).l.intents[i].status == Created
    ensures (exists after: seq<Action> :: Left(Run(Run(START, before), after), i)) <==> !Stranded(Run(START, before), i)
  {
    Reachable(before);
    var w := Run(START, before);
    if Stranded(w, i) {
      forall after: seq<Action> ensures !Left(Run(w, after), i) { StrandedForever(w, after, i); }
    } else {
      assert InitOk(w.l, i, w.inits[i]);
      var a := InitAdvance(i, Rejected, 0);
      if w.inits[i].Recorded? {
        RunOne(w, a);
        assert Left(Run(w, [a]), i);
      } else {
        RejectedLeaves(w, i);
        RunTwo(w, a, a);
        assert Left(Run(w, [a, a]), i);
      }
    }
  }

  lemma RejectedLeaves(w: World, i: Id)
    requires InitsOk(w.l, w.inits) && i in w.inits && w.inits[i].Calling? && w.inits[i].tx !in w.l.txs
    ensures var a := InitAdvance(i, Rejected, 0);
            Left(Next(Next(w, a), a), i)
  {
    var a := InitAdvance(i, Rejected, 0);
    assert InitOk(w.l, i, w.inits[i]);
    var v := Next(w, a);
    assert v.inits[i] == Recorded(w.inits[i].tx, false) && v.l.intents == w.l.intents;
  }

  lemma RunTwo(w: World, a: Action, b: Action)
    ensures Run(w, [a, b]) == Next(Next(w, a), b)
  {
    assert [a, b][1..] == [b];
    RunOne(Next(w, a), b);
  }

  /** Crashing between recording the attempt and moving the intent strands it, its attempt PENDING; so does
      a provider that cannot be reached, without an attempt. */
  lemma StrandingHappens()
    ensures exists actions: seq<Action> ::
              Stranded(Run(START, actions), 1) && HoldsStatus(Run(START, actions).l, 1, TxPending)
    ensures exists actions: seq<Action> ::
              CrashFree(actions) && Stranded(Run(START, actions), 1) && Run(START, actions).l.txs == map[]
  {
    Unreached();
    var a, b, c := Initiate(1, 1, 100, "sandbox"), InitAdvance(1, Accepted("r"), 0), InitCrash(1);
    RunThree(START, a, b, c);
    var w := Next(Next(Next(START, a), b), c);
    assert Stranded(w, 1) && HoldsStatus(w.l, 1, TxPending);
  }

  lemma Unreached()
    ensures exists actions: seq<Action> ::
              CrashFree(actions) && Stranded(Run(START, actions), 1) && Run(START, actions).l.txs == map[]
  {
    var a, b := Initiate(1, 1, 100, "sandbox"), InitAdvance(1, Unavailable, 0);
    RunTwo(START, a, b);
    var w := Next(Next(START, a), b);
    assert Stranded(w, 1) && w.l.txs == map[];
    assert CrashFree([a, b]) && Run(START, [a, b]) == w;
  }

  // ----- abandoned keys -----

  /** A key claimed by a delivery that is gone without completing it. */
  ghost predicate Abandoned(w: World, k: Key) {
    && k in w.l.keys && w.l.keys[k].result == ""
    && forall p :: p in w.hooks && PastClaim(w.hooks[p]) ==> KeyHeld(w.hooks[p]) != k
  }

  lemma AbandonedStep(w: World, a: Action, k: Key)
    requires Abandoned(w, k)
    ensures Abandoned(Next(w, a), k)
  {
    if a.HookAdvance? && a.pid in w.hooks {
      AbandonedBesideHook(w, a.pid, k);
    }
  }

  lemma AbandonedBesideHook(w: World, p: Id, k: Key)
    requires Abandoned(w, k) && p in w.hooks
    ensures Abandoned(Next(w, HookAdvance(p)), k)
  {
    var h := w.hooks[p];
    var v := Next(w, HookAdvance(p));
    NextLedger(w, HookAdvance(p));
    StepLeavesKey(w.l, h.d, h.phase, k);
    HookNextShape(w, p);
  }

  /** Only its holder completes an incomplete key. */
  lemma StepLeavesKey(l: Ledger, d: Delivery, phase: HookPhase, k: Key)
    requires k in l.keys && l.keys[k].result == ""
    requires PastClaim(Hook(d, phase)) ==> KeyOf(d, phase.tx) != k
    ensures var e := HookStep(l, d, phase);
            && k in e.l.keys && e.l.keys[k].result == ""
            && (e.next.Continue? && PastClaim(Hook(d, e.next.phase)) ==> KeyOf(d, e.next.phase.tx) != k)
  {
    if phase.Claimed? { ClaimedLedger(l, d, phase); }
  }

  /** An abandoned key stays refused: no later delivery under it is ever answered "applied" or
      "duplicate". */
  lemma {:induction false} AbandonedForever(w: World, actions: seq<Action>, k: Key)
    requires Abandoned(w, k)
    ensures Abandoned(Run(w, actions), k)
    decreases |actions|
  {
    if actions != [] {
      AbandonedStep(w, actions[0], k);
      AbandonedForever(Next(w, actions[0]), actions[1..], k);
    }
  }

  lemma AbandonedRefuses(w: World, p: Id)
    requires p in w.hooks && w.hooks[p].phase.Correlated? && Abandoned(w, KeyOf(w.hooks[p].d, w.hooks[p].phase.tx))
    ensures var h := w.hooks[p];
            exists answer :: (answer == AnsInFlight || answer == AnsRejected) &&
              Next(w, HookAdvance(p)) == WithReply(w, p, [Reply(h.phase.tx, h.d.event, answer)])
  {
    ClaimLost(w, p);
  }

  /** The step takes the key's holder away before the key is completed: the holder crashes, or its
      settlement is refused. */
  ghost predicate Loses(w: World, a: Action, p: Id, k: Key) {
    && p in w.hooks && PastClaim(w.hooks[p]) && KeyHeld(w.hooks[p]) == k
    && k in w.l.keys && w.l.keys[k].result == ""
    && (a == HookCrash(p) || (a == HookAdvance(p) && w.hooks[p].phase.Claimed? && !SettlesNow(w, p)))
  }

  /** Whether the claimed delivery's settlement goes through, as a caller could check it. */
  ghost predicate SettlesNow(w: World, p: Id)
    requires p in w.hooks && w.hooks[p].phase.Claimed?
  {
    var h := w.hooks[p];
    && h.phase.tx in w.l.txs && w.l.txs[h.phase.tx].intent in w.l.intents
    && (w.l.txs[h.phase.tx].status == StatusOf(h.d.event)
        || (w.l.txs[h.phase.tx].status == TxPending && w.l.intents[w.l.txs[h.phase.tx].intent].status == Processing
            && !w.l.ReceiptTaken(h.phase.tx, h.d.receipt)))
  }

  /** In every reachable state: a step abandons a key exactly when the delivery that holds it crashes before
      completing it or finds its settlement refused, the attempt being neither in the status the event names
      nor PENDING beside a PROCESSING intent. */
  lemma AbandonedExactly(w: World, a: Action, k: Key)
    requires Inv(w) && !Abandoned(w, k)
    ensures Abandoned(Next(w, a), k) <==> exists p :: Loses(w, a, p, k)
  {
    forall p | Loses(w, a, p, k) ensures Abandoned(Next(w, a), k) { LosingAbandons(w, a, p, k); }
    if Abandoned(Next(w, a), k) {
      var p := AbandonedHadHolder(w, a, k);
      HolderLeft(w, a, p, k);
    }
  }

  lemma LosingAbandons(w: World, a: Action, p: Id, k: Key)
    requires Inv(w) && Loses(w, a, p, k)
    ensures Abandoned(Next(w, a), k)
  {
    if a.HookAdvance? {
      assert HookOk(w.l, w.hooks[p]);
      SettlesIff(w.l, w.hooks[p].phase.tx, StatusOf(w.hooks[p].d.event), Cause("webhook", w.hooks[p].d.receipt));
      ClaimedShape(w, p);
    }
  }

  /** An abandoned key was claimed, incomplete and held the step before. */
  lemma AbandonedHadHolder(w: World, a: Action, k: Key) returns (p: Id)
    requires Inv(w) && !Abandoned(w, k) && Abandoned(Next(w, a), k)
    ensures p in w.hooks && PastClaim(w.hooks[p]) && KeyHeld(w.hooks[p]) == k && k in w.l.keys && w.l.keys[k].result == ""
  {
    KeyWasThere(w, a, k);
    p :| p in w.hooks && PastClaim(w.hooks[p]) && KeyHeld(w.hooks[p]) == k;
  }

  lemma KeyWasThere(w: World, a: Action, k: Key)
    requires Inv(w) && Abandoned(Next(w, a), k)
    ensures k in w.l.keys && w.l.keys[k].result == ""
  {
    NextLedger(w, a);
    StepEvolves(w, a);
    if k !in w.l.keys {
      NewKeyIsHeld(w, a, k);
    }
  }

  /** Only a claim makes a key, and the claiming delivery holds it. */
  lemma NewKeyIsHeld(w: World, a: Action, k: Key)
    requires Inv(w) && k !in w.l.keys && k in Next(w, a).l.keys
    ensures exists p :: p in Next(w, a).hooks && PastClaim(Next(w, a).hooks[p]) && KeyHeld(Next(w, a).hooks[p]) == k
  {
    if a.HookAdvance? { NewKeyByHook(w, a.pid, k); } else { OnlyHooksMakeKeys(w, a); }
  }

  lemma OnlyHooksMakeKeys(w: World, a: Action)
    requires !a.HookAdvance?
    ensures Next(w, a).l.keys == w.l.keys
  {
    NextLedger(w, a);
    match a
    case RunAdvance(p, answer) => if p in w.runs { RecLedger(w.l, w.runs[p], answer); }
    case InitAdvance(i, answer, now) => if i in w.inits { InitStepKeys(w.l, i, w.inits[i], answer, now); }
    case _ =>
  }

  lemma NewKeyByHook(w: World, p: Id, k: Key)
    requires Inv(w) && k !in w.l.keys && k in Next(w, HookAdvance(p)).l.keys
    ensures var hooks := Next(w, HookAdvance(p)).hooks;
            p in hooks && PastClaim(hooks[p]) && KeyHeld(hooks[p]) == k
  {
    NextLedger(w, HookAdvance(p));
    var h := w.hooks[p];
    if h.phase.Correlated? {
      if KeyOf(h.d, h.phase.tx) in w.l.keys { ClaimLost(w, p); } else { ClaimWonShape(w, p); }
    } else {
      OnlyClaimsMakeKeys(w.l, h.d, h.phase);
    }
  }

  lemma OnlyClaimsMakeKeys(l: Ledger, d: Delivery, phase: HookPhase)
    requires !phase.Correlated?
    ensures HookStep(l, d, phase).l.keys.Keys == l.keys.Keys
  {
    if phase.Claimed? { ClaimedLedger(l, d, phase); }
  }

  lemma InitStepKeys(l: Ledger, i: Id, phase: InitPhase, answer: InitAnswer, now: int)
    ensures InitStep(l, i, phase, answer, now).l.keys == l.keys
  {
  }

  lemma HolderLeft(w: World, a: Action, p: Id, k: Key)
    requires Inv(w) && Abandoned(Next(w, a), k)
    requires p in w.hooks && PastClaim(w.hooks[p]) && KeyHeld(w.hooks[p]) == k && k in w.l.keys && w.l.keys[k].result == ""
    ensures Loses(w, a, p, k)
  {
    if a == HookAdvance(p) {
      HolderAdvanced(w, p, k);
    } else if a != HookCrash(p) {
      HookStays(w, a, p);
    }
  }

  lemma HolderAdvanced(w: World, p: Id, k: Key)
    requires Inv(w) && Abandoned(Next(w, HookAdvance(p)), k)
    requires p in w.hooks && PastClaim(w.hooks[p]) && KeyHeld(w.hooks[p]) == k && k in w.l.keys && w.l.keys[k].result == ""
    ensures w.hooks[p].phase.Claimed? && !SettlesNow(w, p)
  {
    assert HookOk(w.l, w.hooks[p]);
    if w.hooks[p].phase.Applied? {
      AppliedShape(w, p);
    } else if w.hooks[p].phase.Claimed? && SettlesNow(w, p) {
      SettlingHolds(w, p);
    }
  }

  lemma SettlingHolds(w: World, p: Id)
    requires Inv(w) && p in w.hooks && w.hooks[p].phase.Claimed? && SettlesNow(w, p)
    ensures var hooks := Next(w, HookAdvance(p)).hooks;
            p in hooks && PastClaim(hooks[p]) && KeyHeld(hooks[p]) == KeyHeld(w.hooks[p])
  {
    SettlesIff(w.l, w.hooks[p].phase.tx, StatusOf(w.hooks[p].d.event), Cause("webhook", w.hooks[p].d.receipt));
    ClaimedShape(w, p);
  }

  /** A delivery moves only by its own steps. */
  lemma HookStays(w: World, a: Action, p: Id)
    requires p in w.hooks && a != HookAdvance(p) && a != HookCrash(p)
    ensures p in Next(w, a).hooks && Next(w, a).hooks[p] == w.hooks[p]
  {
    match a
    case HookAdvance(q) =>
      if q in w.hooks { HookNextShape(w, q); }
    case _ =>
  }

  /** A delivery that correlates with an attempt and wins its key, run alone: it answers "applied" exactly
      when the attempt already holds the status its event names, or is PENDING beside a PROCESSING intent
      with the receipt free; otherwise it answers "conflict" and leaves its key claimed and incomplete. */
  lemma DeliveryAloneIff(l: Ledger, d: Delivery, t: Id)
    requires LedgerInv(l) && l.ByRef(d.provider, d.ref) == Some(t) && t in l.txs
    requires Attests(d, l.txs[t])
    requires KeyOf(d, t) !in l.keys
    ensures var (m, events, answer) := HookAlone(l, d, Arrived);
            var k := KeyOf(d, t);
            && l.txs[t].intent in l.intents && k in m.keys
            && (answer == AnsApplied <==>
                l.txs[t].status == StatusOf(d.event)
                || (l.txs[t].status == TxPending && l.intents[l.txs[t].intent].status == Processing && !l.ReceiptTaken(t, d.receipt)))
            && (if answer == AnsApplied then m.keys[k].result == "applied" && HoldsStatus(m, t, StatusOf(d.event))
                else answer == AnsConflict && events == [] && m == l.(keys := l.keys[k := Claim(d.hash, "")]))
  {
    var claimed := l.ClaimKey(KeyOf(d, t), d.hash).0;
    HookSilent(l, d, Arrived);
    HookSilent(l, d, Correlated(t));
    assert HookAlone(l, d, Arrived) == HookAlone(claimed, d, Claimed(t));
    ClaimedAlone(claimed, d, t);
  }

  lemma ClaimedAlone(l: Ledger, d: Delivery, t: Id)
    requires LedgerInv(l) && t in l.txs && KeyOf(d, t) in l.keys
    ensures var (m, events, answer) := HookAlone(l, d, Claimed(t));
            && l.txs[t].intent in l.intents && KeyOf(d, t) in m.keys
            && (answer == AnsApplied <==>
                l.txs[t].status == StatusOf(d.event)
                || (l.txs[t].status == TxPending && l.intents[l.txs[t].intent].status == Processing && !l.ReceiptTaken(t, d.receipt)))
            && (if answer == AnsApplied then m.keys[KeyOf(d, t)].result == "applied" && HoldsStatus(m, t, StatusOf(d.event))
                else answer == AnsConflict && events == [] && m == l)
  {
    var s, cause := StatusOf(d.event), Cause("webhook", d.receipt);
    SettlesIff(l, t, s, cause);
    SettledHolds(l, t, s, cause);
    Settled(l, t, s, cause);
    var (m, r) := l.Settle(SettlementOf(t, s, cause));
    if r.Ok? {
      HookSilent(l, d, Claimed(t));
      HookSilent(m, d, PaymentProtocol.Applied(t));
    }
  }

  /** No crash is needed: a webhook that arrives between the recording of an attempt and the moving of its
      intent conflicts, and its key is abandoned beside a PROCESSING intent. */
  lemma AbandonedWithoutCrash()
    ensures exists actions: seq<Action> ::
              && CrashFree(actions)
              && Abandoned(Run(START, actions), Key("sandbox", EventSucceeded, 1))
              && 1 in Run(START, actions).l.intents && Run(START, actions).l.intents[1].status == Processing
  {
    var d := Delivery("sandbox", EventSucceeded, "r", 100, CURRENCY_KES, None, "", "h");
    var a, w1 := RecordedOnly();
    var b, w2 := ClaimedTooSoon(w1, d);
    var c, w3 := ConflictThenMove(w2, d);
    NoCrashes(a, b, c);
    InThree(a, b, c, w1, w2, w3);
  }

  lemma InThree(a: seq<Action>, b: seq<Action>, c: seq<Action>, u: World, v: World, x: World)
    requires u == Run(START, a) && v == Run(u, b) && x == Run(v, c)
    ensures x == Run(START, a + b + c)
  {
    RunAppend(START, a, b);
    RunAppend(START, a + b, c);
  }

  predicate CrashFree(actions: seq<Action>) {
    forall a: Action :: a in actions ==> !a.InitCrash? && !a.HookCrash? && !a.RunCrash?
  }

  lemma NoCrashes(a: seq<Action>, b: seq<Action>, c: seq<Action>)
    requires CrashFree(a) && CrashFree(b) && CrashFree(c)
    ensures CrashFree(a + b + c)
  {
  }

  lemma RecordedOnly() returns (a: seq<Action>, w: World)
    ensures w == Run(START, a) && CrashFree(a)
    ensures w.l.intents == map[1 := Intent(100, "sandbox", Created)] && w.inits == map[1 := Recorded(1, true)]
    ensures w.l.txs == map[1 := Transaction(1, "sandbox", Some("r"), TxPending, 100, 0, "")]
    ensures w.l.keys == map[] && w.hooks == map[]
  {
    a := [Initiate(1, 1, 100, "sandbox"), InitAdvance(1, Accepted("r"), 0)];
    RunTwo(START, Initiate(1, 1, 100, "sandbox"), InitAdvance(1, Accepted("r"), 0));
    w := Next(Next(START, Initiate(1, 1, 100, "sandbox")), InitAdvance(1, Accepted("r"), 0));
  }

  lemma ClaimedTooSoon(w: World, d: Delivery) returns (a: seq<Action>, v: World)
    requires d == Delivery("sandbox", EventSucceeded, "r", 100, CURRENCY_KES, None, "", "h")
    requires w.l.txs == map[1 := Transaction(1, "sandbox", Some("r"), TxPending, 100, 0, "")] && w.l.keys == map[] && w.hooks == map[]
    ensures v == Run(w, a) && CrashFree(a)
    ensures v.l.intents == w.l.intents && v.l.txs == w.l.txs && v.inits == w.inits
    ensures v.hooks == map[0 := Hook(d, Claimed(1))] && v.l.keys == map[KeyOf(d, 1) := Claim("h", "")]
  {
    assert HasRef(w.l.txs, 1, "sandbox", "r");
    var w1 := Next(w, Deliver(0, d));
    var w2 := Next(w1, HookAdvance(0));
    assert w2 == w1.(hooks := map[0 := Hook(d, Correlated(1))]);
    ClaimWonShape(w2, 0);
    a := [Deliver(0, d), HookAdvance(0), HookAdvance(0)];
    RunThree(w, Deliver(0, d), HookAdvance(0), HookAdvance(0));
    v := Next(w2, HookAdvance(0));
  }

  lemma ConflictThenMove(w: World, d: Delivery) returns (a: seq<Action>, v: World)
    requires d == Delivery("sandbox", EventSucceeded, "r", 100, CURRENCY_KES, None, "", "h")
    requires w.l.intents == map[1 := Intent(100, "sandbox", Created)] && w.inits == map[1 := Recorded(1, true)]
    requires w.l.txs == map[1 := Transaction(1, "sandbox", Some("r"), TxPending, 100, 0, "")]
    requires w.hooks == map[0 := Hook(d, Claimed(1))] && w.l.keys == map[KeyOf(d, 1) := Claim("h", "")]
    ensures v == Run(w, a) && CrashFree(a)
    ensures Abandoned(v, KeyOf(d, 1)) && 1 in v.l.intents && v.l.intents[1].status == Processing
  {
    ClaimedShape(w, 0);
    var u := Next(w, HookAdvance(0));
    assert u == WithReply(w, 0, [Reply(1, EventSucceeded, AnsConflict)]);
    a := [HookAdvance(0), InitAdvance(1, Accepted("r"), 0)];
    RunTwo(w, HookAdvance(0), InitAdvance(1, Accepted("r"), 0));
    v := Next(u, InitAdvance(1, Accepted("r"), 0));
  }
}
