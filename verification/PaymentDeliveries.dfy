/** Webhook deliveries and reconciliation runs keep the invariant; so does every run of the protocol. */
module PaymentDeliveries {
  import opened Wrappers
  import opened PaymentLedger
  import opened PaymentProtocol
  import opened PaymentSafety

  // ----- replacing one delivery -----

  lemma HookReplaced(l: Ledger, hooks: map<Id, Hook>, p: Id, h: Hook, events: seq<Event>)
    requires HooksOk(l, hooks) && HooksApart(hooks) && HooksQuiet(hooks, events)
    requires HookOk(l, h)
    requires PastClaim(h) ==> forall q :: q in hooks && q != p && PastClaim(hooks[q]) ==> KeyHeld(hooks[q]) != KeyHeld(h)
    requires PastClaim(h) ==>
               forall e :: e in events && e.via == Webhook && e.tx == h.phase.tx ==> e.status != StatusOf(h.d.event)
    ensures HooksOk(l, hooks[p := h]) && HooksApart(hooks[p := h]) && HooksQuiet(hooks[p := h], events)
  {
    var more := hooks[p := h];
    forall q | q in more ensures HookOk(l, more[q]) { assert q == p || HookOk(l, hooks[q]); }
  }

  lemma HookRemoved(l: Ledger, hooks: map<Id, Hook>, p: Id, events: seq<Event>)
    requires HooksOk(l, hooks) && HooksApart(hooks) && HooksQuiet(hooks, events)
    ensures HooksOk(l, hooks - {p}) && HooksApart(hooks - {p}) && HooksQuiet(hooks - {p}, events)
  {
    forall q | q in hooks - {p} ensures HookOk(l, (hooks - {p})[q]) { assert HookOk(l, hooks[q]); }
  }

  /** A delivery moves on with the ledger unchanged. */
  lemma ContinueKeeps(w: World, p: Id, h: Hook)
    requires Inv(w) && HookOk(w.l, h)
    requires PastClaim(h) ==> forall q :: q in w.hooks && q != p && PastClaim(w.hooks[q]) ==> KeyHeld(w.hooks[q]) != KeyHeld(h)
    requires PastClaim(h) ==>
               forall e :: e in w.events && e.via == Webhook && e.tx == h.phase.tx ==> e.status != StatusOf(h.d.event)
    ensures Inv(w.(hooks := w.hooks[p := h]))
  {
    HookReplaced(w.l, w.hooks, p, h, w.events);
  }

  function WithReply(w: World, p: Id, replies: seq<Reply>): World {
    w.(hooks := w.hooks - {p}, replies := w.replies + replies)
  }

  /** A delivery answers with the ledger unchanged. */
  lemma FinishKeeps(w: World, p: Id, r: seq<Reply>)
    requires Inv(w)
    requires forall x :: x in r && (x.answer.AnsApplied? || x.answer.AnsDuplicate?) ==> HoldsStatus(w.l, x.tx, StatusOf(x.event))
    ensures Inv(WithReply(w, p, r))
  {
    HookRemoved(w.l, w.hooks, p, w.events);
  }

  // ----- correlation and claim -----

  /** A delivery that loses the claim leaves everything but its own answer as it was; a duplicate
      answer means the stored outcome is the one the event names. */
  lemma ClaimLost(w: World, p: Id)
    requires p in w.hooks && w.hooks[p].phase.Correlated?
    requires KeyOf(w.hooks[p].d, w.hooks[p].phase.tx) in w.l.keys
    ensures var h := w.hooks[p];
            var c := w.l.keys[KeyOf(h.d, h.phase.tx)];
            var answer := if c.payloadHash != h.d.hash then AnsRejected else if c.result == "" then AnsInFlight else AnsDuplicate;
            Next(w, HookAdvance(p)) == WithReply(w, p, [Reply(h.phase.tx, h.d.event, answer)])
  {
    var h := w.hooks[p];
    var c := w.l.keys[KeyOf(h.d, h.phase.tx)];
    var answer := if c.payloadHash != h.d.hash then AnsRejected else if c.result == "" then AnsInFlight else AnsDuplicate;
    assert HookStep(w.l, h.d, h.phase) == Silent(w.l, Finish(Some(h.phase.tx), answer));
  }

  lemma DuplicateHolds(l: Ledger, k: Key)
    requires KeysInv(l) && k in l.keys && l.keys[k].result != ""
    ensures HoldsStatus(l, k.tx, StatusOf(k.event))
  {
  }

  lemma KeyClaimed(l: Ledger, m: Ledger, k: Key, hash: string, events: seq<Event>, wins: seq<Key>, applied: seq<Id>, replies: seq<Reply>)
    requires History(l, events, wins, applied, replies) && k !in l.keys && m == l.(keys := l.keys[k := Claim(hash, "")])
    ensures History(m, events, wins + [k], applied, replies)
  {
    forall e | e in events ensures EventOk(m, applied, e) { assert EventOk(l, applied, e); }
  }

  lemma SameRowsSameCore(l: Ledger, m: Ledger, inits: map<Id, InitPhase>)
    requires Core(l, inits) && m == l.(keys := m.keys)
    ensures Core(m, inits)
  {
    forall i | i in inits ensures InitOk(m, i, inits[i]) { assert InitOk(l, i, inits[i]); }
  }

  /** A fresh key collides with no live delivery and with no published event. */
  lemma FreshKey(l: Ledger, hooks: map<Id, Hook>, applied: seq<Id>, events: seq<Event>, h: Hook)
    requires HooksOk(l, hooks) && EventsOk(l, applied, events)
    requires PastClaim(h) && KeyHeld(h) !in l.keys && HasRef(l.txs, h.phase.tx, h.d.provider, h.d.ref)
    ensures forall q :: q in hooks && PastClaim(hooks[q]) ==> KeyHeld(hooks[q]) != KeyHeld(h)
    ensures forall e :: e in events && e.via == Webhook && e.tx == h.phase.tx ==> e.status != StatusOf(h.d.event)
  {
    forall q | q in hooks && PastClaim(hooks[q]) ensures KeyHeld(hooks[q]) != KeyHeld(h) { assert HookOk(l, hooks[q]); }
    forall e | e in events && e.via == Webhook && e.tx == h.phase.tx
      ensures e.status != StatusOf(h.d.event)
    {
      assert EventOk(l, applied, e);
    }
  }

  function WithClaim(w: World, k: Key, hash: string): World {
    w.(l := w.l.(keys := w.l.keys[k := Claim(hash, "")]), wins := w.wins + [k])
  }

  lemma ClaimKeeps(w: World, k: Key, hash: string)
    requires Inv(w) && k !in w.l.keys
    ensures Inv(WithClaim(w, k, hash))
  {
    var m := w.l.(keys := w.l.keys[k := Claim(hash, "")]);
    SameRowsSameCore(w.l, m, w.inits);
    KeyClaimed(w.l, m, k, hash, w.events, w.wins, w.applied, w.replies);
    LiveKept(w.l, m, w.hooks, w.runs, w.applied);
  }

  lemma ClaimWonKeeps(w: World, p: Id, h: Hook)
    requires Inv(w) && p in w.hooks && w.hooks[p].phase.Correlated? && w.hooks[p].d == h.d && h.phase == Claimed(w.hooks[p].phase.tx)
    requires KeyHeld(h) !in w.l.keys
    ensures Inv(WithClaim(w, KeyHeld(h), h.d.hash).(hooks := w.hooks[p := h]))
  {
    assert HookOk(w.l, w.hooks[p]);
    FreshKey(w.l, w.hooks, w.applied, w.events, h);
    ClaimKeeps(w, KeyHeld(h), h.d.hash);
    ContinueKeeps(WithClaim(w, KeyHeld(h), h.d.hash), p, h);
  }

  // ----- settlement, completion, publication -----

  /** Moving a delivery on while it holds its key. */
  lemma HeldOn(w: World, p: Id, phase: HookPhase)
    requires Inv(w) && p in w.hooks && PastClaim(w.hooks[p])
    requires phase.Applied? || phase.Completed?
    requires phase.tx == w.hooks[p].phase.tx && HoldsStatus(w.l, phase.tx, StatusOf(w.hooks[p].d.event))
    requires phase.Completed? ==> KeyHeld(w.hooks[p]) in w.l.keys && w.l.keys[KeyHeld(w.hooks[p])].result == "applied"
    ensures Inv(w.(hooks := w.hooks[p := Hook(w.hooks[p].d, phase)]))
  {
    assert HookOk(w.l, w.hooks[p]);
    ContinueKeeps(w, p, Hook(w.hooks[p].d, phase));
  }

  lemma KeyCompleted(l: Ledger, m: Ledger, k: Key, events: seq<Event>, wins: seq<Key>, applied: seq<Id>, replies: seq<Reply>)
    requires History(l, events, wins, applied, replies) && k in l.keys && HoldsStatus(l, k.tx, StatusOf(k.event))
    requires m == l.(keys := l.keys[k := l.keys[k].(result := "applied")])
    ensures History(m, events, wins, applied, replies)
  {
    forall e | e in events ensures EventOk(m, applied, e) { assert EventOk(l, applied, e); }
  }

  lemma CompleteKeeps(w: World, k: Key)
    requires Inv(w) && k in w.l.keys && HoldsStatus(w.l, k.tx, StatusOf(k.event))
    ensures Inv(w.(l := w.l.CompleteKey(k, "applied")))
  {
    var m := w.l.CompleteKey(k, "applied");
    SameRowsSameCore(w.l, m, w.inits);
    KeyCompleted(w.l, m, k, w.events, w.wins, w.applied, w.replies);
    CompletedEvolves(w.l, k);
    LiveKept(w.l, m, w.hooks, w.runs, w.applied);
  }

  lemma CompletedEvolves(l: Ledger, k: Key)
    ensures Evolves(l, l.CompleteKey(k, "applied"))
  {
  }

  /** The publishing delivery is the only one that could publish this settlement by this path. */
  lemma WebhookPublishes(l: Ledger, hooks: map<Id, Hook>, applied: seq<Id>, events: seq<Event>, p: Id)
    requires HooksOk(l, hooks) && HooksApart(hooks) && HooksQuiet(hooks, events) && EventsOk(l, applied, events)
    requires p in hooks && hooks[p].phase.Completed?
    ensures var e := Event(hooks[p].phase.tx, StatusOf(hooks[p].d.event), Webhook);
            && EventOk(l, applied, e) && !Published(events, e.tx, Webhook)
            && HooksQuiet(hooks - {p}, events + [e])
  {
    var h := hooks[p];
    var e := Event(h.phase.tx, StatusOf(h.d.event), Webhook);
    assert HookOk(l, h) && KeyHeld(h) in l.keys;
    forall x | x in events && x.tx == e.tx
      ensures x.via != Webhook
    {
      assert EventOk(l, applied, x);
    }
    forall q, x | q in hooks && q != p && x in events + [e] && PastClaim(hooks[q]) && x.via == Webhook && x.tx == hooks[q].phase.tx
      ensures x.status != StatusOf(hooks[q].d.event)
    {
      assert HookOk(l, hooks[q]);
      if x !in events {
        assert KeyHeld(hooks[q]) != KeyHeld(h);
      }
    }
  }

  lemma OthersQuiet(inits: map<Id, InitPhase>, applied: seq<Id>, runs: map<Id, RecRun>, events: seq<Event>, e: Event)
    requires InitsQuiet(inits, applied, events) && RunsQuiet(runs, events) && e.via == Webhook
    ensures InitsQuiet(inits, applied, events + [e]) && RunsQuiet(runs, events + [e])
  {
    assert forall t, via :: via != Webhook && Published(events + [e], t, via) ==> Published(events, t, via);
  }

  lemma PublishKeeps(w: World, p: Id, e: Event)
    requires Inv(w) && p in w.hooks && w.hooks[p].phase.Completed?
    requires e == Event(w.hooks[p].phase.tx, StatusOf(w.hooks[p].d.event), Webhook)
    ensures Inv(w.(events := w.events + [e], hooks := w.hooks - {p}))
    ensures HoldsStatus(w.l, e.tx, e.status)
  {
    WebhookPublishes(w.l, w.hooks, w.applied, w.events, p);
    assert HookOk(w.l, w.hooks[p]);
    EventPublished(w.l, w.applied, w.events, e);
    HookRemoved(w.l, w.hooks, p, w.events);
    OthersQuiet(w.inits, w.applied, w.runs, w.events, e);
  }

  // ----- every step of a delivery -----

  lemma SettledHolds(l: Ledger, t: Id, s: TxStatus, cause: Cause)
    requires LedgerInv(l) && s != TxPending
    ensures l.Settle(SettlementOf(t, s, cause)).1.Ok? ==> HoldsStatus(l.Settle(SettlementOf(t, s, cause)).0, t, s)
  {
    Settled(l, t, s, cause);
  }

  lemma ArrivedShape(w: World, p: Id)
    requires p in w.hooks && w.hooks[p].phase.Arrived?
    ensures var h := w.hooks[p];
            var found := w.l.ByRef(h.d.provider, h.d.ref);
            var v := Next(w, HookAdvance(p));
            || v == WithReply(w, p, [])
            || (found.Some? && v == WithReply(w, p, [Reply(found.value, h.d.event, AnsRejected)]))
            || (found.Some? && v == w.(hooks := w.hooks[p := Hook(h.d, Correlated(found.value))]) &&
                Attests(h.d, w.l.txs[found.value]))
  {
    var h := w.hooks[p];
    var e := HookStep(w.l, h.d, h.phase);
    assert w.After(e) == w;
  }

  lemma ArrivedStep(w: World, p: Id)
    requires Inv(w) && p in w.hooks && w.hooks[p].phase.Arrived?
    ensures Inv(Next(w, HookAdvance(p)))
  {
    var h := w.hooks[p];
    var found := w.l.ByRef(h.d.provider, h.d.ref);
    ArrivedShape(w, p);
    FinishKeeps(w, p, []);
    if found.Some? {
      FinishKeeps(w, p, [Reply(found.value, h.d.event, AnsRejected)]);
      if Next(w, HookAdvance(p)) == w.(hooks := w.hooks[p := Hook(h.d, Correlated(found.value))]) {
        CorrelatedOk(w, p);
        ContinueKeeps(w, p, Hook(h.d, Correlated(found.value)));
      }
    }
  }

  /** A correlated delivery attests the attempted amount and names no other intent. */
  lemma CorrelatedOk(w: World, p: Id)
    requires p in w.hooks && w.hooks[p].phase.Arrived?
    requires w.l.ByRef(w.hooks[p].d.provider, w.hooks[p].d.ref).Some?
    requires var t := w.l.ByRef(w.hooks[p].d.provider, w.hooks[p].d.ref).value;
             Next(w, HookAdvance(p)) == w.(hooks := w.hooks[p := Hook(w.hooks[p].d, Correlated(t))])
    ensures HookOk(w.l, Next(w, HookAdvance(p)).hooks[p])
  {
  }

  lemma ClaimWonShape(w: World, p: Id)
    requires p in w.hooks && w.hooks[p].phase.Correlated?
    requires KeyOf(w.hooks[p].d, w.hooks[p].phase.tx) !in w.l.keys
    ensures var h := w.hooks[p];
            Next(w, HookAdvance(p)) ==
            WithClaim(w, KeyOf(h.d, h.phase.tx), h.d.hash).(hooks := w.hooks[p := Hook(h.d, Claimed(h.phase.tx))])
  {
    var h := w.hooks[p];
    assert HookStep(w.l, h.d, h.phase).applied == [];
  }

  lemma CorrelatedStep(w: World, p: Id)
    requires Inv(w) && p in w.hooks && w.hooks[p].phase.Correlated?
    ensures Inv(Next(w, HookAdvance(p)))
  {
    var h := w.hooks[p];
    var k := KeyOf(h.d, h.phase.tx);
    if k in w.l.keys {
      ClaimLost(w, p);
      var c := w.l.keys[k];
      if c.result != "" {
        DuplicateHolds(w.l, k);
      }
      var answer := if c.payloadHash != h.d.hash then AnsRejected else if c.result == "" then AnsInFlight else AnsDuplicate;
      FinishKeeps(w, p, [Reply(h.phase.tx, h.d.event, answer)]);
    } else {
      ClaimWonShape(w, p);
      ClaimWonKeeps(w, p, Hook(h.d, Claimed(h.phase.tx)));
    }
  }

  lemma ClaimedShape(w: World, p: Id)
    requires p in w.hooks && w.hooks[p].phase.Claimed?
    ensures var h := w.hooks[p];
            var t := h.phase.tx;
            var s := StatusOf(h.d.event);
            var u := AfterSettle(w, t, s, Cause("webhook", h.d.receipt));
            Next(w, HookAdvance(p)) ==
              if w.l.Settle(SettlementOf(t, s, Cause("webhook", h.d.receipt))).1.Err? then WithReply(w, p, [Reply(t, h.d.event, AnsConflict)])
              else u.(hooks := u.hooks[p := Hook(h.d, PaymentProtocol.Applied(t))])
  {
    var e := HookStep(w.l, w.hooks[p].d, w.hooks[p].phase);
    assert e.events == [] && e.wins == [];
  }

  lemma ClaimedStep(w: World, p: Id)
    requires Inv(w) && p in w.hooks && w.hooks[p].phase.Claimed?
    ensures Inv(Next(w, HookAdvance(p)))
  {
    var h := w.hooks[p];
    var t := h.phase.tx;
    var s := StatusOf(h.d.event);
    ClaimedShape(w, p);
    if w.l.Settle(SettlementOf(t, s, Cause("webhook", h.d.receipt))).1.Err? {
      FinishKeeps(w, p, [Reply(t, h.d.event, AnsConflict)]);
    } else {
      SettledHolds(w.l, t, s, Cause("webhook", h.d.receipt));
      SettleKeeps(w, t, s, Cause("webhook", h.d.receipt));
      HeldOn(AfterSettle(w, t, s, Cause("webhook", h.d.receipt)), p, PaymentProtocol.Applied(t));
    }
  }

  lemma AppliedShape(w: World, p: Id)
    requires p in w.hooks && w.hooks[p].phase.Applied?
    ensures var h := w.hooks[p];
            Next(w, HookAdvance(p)) ==
            w.(l := w.l.CompleteKey(KeyOf(h.d, h.phase.tx), "applied"), hooks := w.hooks[p := Hook(h.d, Completed(h.phase.tx))])
  {
    var h := w.hooks[p];
    assert HookStep(w.l, h.d, h.phase).applied == [];
  }

  lemma AppliedStep(w: World, p: Id)
    requires Inv(w) && p in w.hooks && w.hooks[p].phase.Applied?
    ensures Inv(Next(w, HookAdvance(p)))
  {
    var h := w.hooks[p];
    var k := KeyOf(h.d, h.phase.tx);
    assert HookOk(w.l, h) && KeyHeld(h) == k;
    AppliedShape(w, p);
    CompleteKeeps(w, k);
    HeldOn(w.(l := w.l.CompleteKey(k, "applied")), p, Completed(h.phase.tx));
  }

  lemma CompletedShape(w: World, p: Id)
    requires p in w.hooks && w.hooks[p].phase.Completed?
    ensures var h := w.hooks[p];
            Next(w, HookAdvance(p)) ==
            WithReply(w.(events := w.events + [Event(h.phase.tx, StatusOf(h.d.event), Webhook)], hooks := w.hooks - {p}), p,
                      [Reply(h.phase.tx, h.d.event, AnsApplied)])
  {
    var h := w.hooks[p];
    assert HookStep(w.l, h.d, h.phase).applied == [];
    assert w.hooks - {p} - {p} == w.hooks - {p};
  }

  lemma CompletedStep(w: World, p: Id)
    requires Inv(w) && p in w.hooks && w.hooks[p].phase.Completed?
    ensures Inv(Next(w, HookAdvance(p)))
  {
    var h := w.hooks[p];
    var e := Event(h.phase.tx, StatusOf(h.d.event), Webhook);
    CompletedShape(w, p);
    PublishKeeps(w, p, e);
    FinishKeeps(w.(events := w.events + [e], hooks := w.hooks - {p}), p, [Reply(h.phase.tx, h.d.event, AnsApplied)]);
  }

  // ----- every step of a reconciliation run -----

  lemma RunReplaced(l: Ledger, applied: seq<Id>, runs: map<Id, RecRun>, events: seq<Event>, p: Id, r: RecRun)
    requires RunsOk(l, applied, runs) && RunsApart(runs) && RunsQuiet(runs, events)
    requires r.announce.Some? ==>
               && AnnounceOk(l, applied, r.announce.value) && !Published(events, r.announce.value.tx, Reconciliation)
               && forall q :: q in runs && q != p && runs[q].announce.Some? ==> runs[q].announce.value.tx != r.announce.value.tx
    ensures RunsOk(l, applied, runs[p := r]) && RunsApart(runs[p := r]) && RunsQuiet(runs[p := r], events)
  {
    var more := runs[p := r];
    forall q | q in more && more[q].announce.Some? ensures AnnounceOk(l, applied, more[q].announce.value) {
      assert q == p || AnnounceOk(l, applied, runs[q].announce.value);
    }
  }

  lemma RunSetKeeps(w: World, p: Id, r: RecRun)
    requires Inv(w)
    requires r.announce.Some? ==>
               && AnnounceOk(w.l, w.applied, r.announce.value) && !Published(w.events, r.announce.value.tx, Reconciliation)
               && forall q :: q in w.runs && q != p && w.runs[q].announce.Some? ==> w.runs[q].announce.value.tx != r.announce.value.tx
    ensures Inv(w.(runs := w.runs[p := r]))
  {
    RunReplaced(w.l, w.applied, w.runs, w.events, p, r);
  }

  /** A settlement applied just now was announced by nobody and is awaited by nobody. */
  lemma FreshSettlement(w: World, t: Id)
    requires RunsOk(w.l, w.applied, w.runs) && EventsOk(w.l, w.applied, w.events) && AppliedOk(w.l, w.applied)
    requires HoldsStatus(w.l, t, TxPending)
    ensures !Published(w.events, t, Reconciliation)
    ensures forall q :: q in w.runs && w.runs[q].announce.Some? ==> w.runs[q].announce.value.tx != t
  {
    forall e | e in w.events && e.via == Reconciliation ensures e.tx != t { assert EventOk(w.l, w.applied, e); }
    forall q | q in w.runs && w.runs[q].announce.Some? ensures w.runs[q].announce.value.tx != t {
      assert AnnounceOk(w.l, w.applied, w.runs[q].announce.value);
    }
  }

  lemma RunSettles(w: World, p: Id, t: Id, s: TxStatus, receipt: string, r: RecRun)
    requires Inv(w) && s != TxPending && r.announce == Some(Event(t, s, Reconciliation))
    requires w.l.Settle(SettlementOf(t, s, Cause("reconciliation", receipt))).1 == Ok(true)
    ensures Inv(AfterSettle(w, t, s, Cause("reconciliation", receipt)).(runs := w.runs[p := r]))
  {
    Settled(w.l, t, s, Cause("reconciliation", receipt));
    FreshSettlement(w, t);
    SettleKeeps(w, t, s, Cause("reconciliation", receipt));
    SettledHolds(w.l, t, s, Cause("reconciliation", receipt));
    RunSetKeeps(AfterSettle(w, t, s, Cause("reconciliation", receipt)), p, r);
  }

  lemma RunPublishes(w: World, p: Id, e: Event)
    requires Inv(w) && p in w.runs && w.runs[p].announce == Some(e)
    ensures Inv(w.(events := w.events + [e], runs := w.runs[p := w.runs[p].(announce := None)]))
  {
    var r := w.runs[p].(announce := None);
    assert AnnounceOk(w.l, w.applied, e);
    EventPublished(w.l, w.applied, w.events, e);
    RunReplaced(w.l, w.applied, w.runs, w.events, p, r);
    QuietBesides(w.inits, w.hooks, w.applied, w.runs[p := r], w.events, e);
  }

  lemma QuietBesides(inits: map<Id, InitPhase>, hooks: map<Id, Hook>, applied: seq<Id>, runs: map<Id, RecRun>, events: seq<Event>, e: Event)
    requires InitsQuiet(inits, applied, events) && HooksQuiet(hooks, events) && RunsQuiet(runs, events) && e.via == Reconciliation
    requires forall q :: q in runs && runs[q].announce.Some? ==> runs[q].announce.value.tx != e.tx
    ensures InitsQuiet(inits, applied, events + [e]) && HooksQuiet(hooks, events + [e]) && RunsQuiet(runs, events + [e])
  {
    assert forall t :: Published(events + [e], t, Initiation) ==> Published(events, t, Initiation);
    assert forall t :: t != e.tx && Published(events + [e], t, Reconciliation) ==> Published(events, t, Reconciliation);
  }

  lemma RunShape(w: World, p: Id, answer: QueryAnswer)
    requires p in w.runs && w.runs[p].announce.None?
    requires w.runs[p].queue == [] || !answer.QueryStatus? || answer.status == TxPending ||
             w.l.Settle(SettlementOf(w.runs[p].queue[0], answer.status, Cause("reconciliation", answer.receipt))).1.Err?
    ensures exists r: RecRun :: r.announce.None? && Next(w, RunAdvance(p, answer)) == w.(runs := w.runs[p := r])
  {
    var e := RecStep(w.l, w.runs[p], answer);
    assert w.After(e) == w;
    assert e.next.announce.None? && Next(w, RunAdvance(p, answer)) == w.(runs := w.runs[p := e.next]);
  }

  lemma RunSettleShape(w: World, p: Id, s: TxStatus, receipt: string)
    requires p in w.runs && w.runs[p].announce.None? && w.runs[p].queue != [] && s != TxPending
    requires w.l.Settle(SettlementOf(w.runs[p].queue[0], s, Cause("reconciliation", receipt))).1.Ok?
    ensures var t := w.runs[p].queue[0];
            var r := RecStep(w.l, w.runs[p], QueryStatus(s, receipt)).next;
            && Next(w, RunAdvance(p, QueryStatus(s, receipt))) == AfterSettle(w, t, s, Cause("reconciliation", receipt)).(runs := w.runs[p := r])
            && r.announce == if w.l.Settle(SettlementOf(t, s, Cause("reconciliation", receipt))).1 == Ok(true) then Some(Event(t, s, Reconciliation)) else None
  {
    var e := RecStep(w.l, w.runs[p], QueryStatus(s, receipt));
    assert e.events == [] && e.wins == [];
  }

  lemma RunAnnounceShape(w: World, p: Id, answer: QueryAnswer)
    requires p in w.runs && w.runs[p].announce.Some?
    ensures Next(w, RunAdvance(p, answer)) ==
            w.(events := w.events + [w.runs[p].announce.value], runs := w.runs[p := w.runs[p].(announce := None)])
  {
    var e := RecStep(w.l, w.runs[p], answer);
    assert e.applied == [] && e.wins == [];
  }

  lemma RunStep(w: World, p: Id, answer: QueryAnswer)
    requires Inv(w) && p in w.runs
    ensures Inv(Next(w, RunAdvance(p, answer)))
  {
    var r := w.runs[p];
    if r.announce.Some? {
      RunAnnounceShape(w, p, answer);
      RunPublishes(w, p, r.announce.value);
    } else if r.queue == [] || !answer.QueryStatus? || answer.status == TxPending ||
              w.l.Settle(SettlementOf(r.queue[0], answer.status, Cause("reconciliation", answer.receipt))).1.Err? {
      RunShape(w, p, answer);
      var r': RecRun :| r'.announce.None? && Next(w, RunAdvance(p, answer)) == w.(runs := w.runs[p := r']);
      RunSetKeeps(w, p, r');
    } else {
      RunSettleStep(w, p, answer.status, answer.receipt);
    }
  }

  lemma RunSettleStep(w: World, p: Id, s: TxStatus, receipt: string)
    requires Inv(w) && p in w.runs && w.runs[p].announce.None? && w.runs[p].queue != [] && s != TxPending
    requires w.l.Settle(SettlementOf(w.runs[p].queue[0], s, Cause("reconciliation", receipt))).1.Ok?
    ensures Inv(Next(w, RunAdvance(p, QueryStatus(s, receipt))))
  {
    var t := w.runs[p].queue[0];
    var r := RecStep(w.l, w.runs[p], QueryStatus(s, receipt)).next;
    RunSettleShape(w, p, s, receipt);
    if r.announce.Some? {
      RunSettles(w, p, t, s, receipt, r);
    } else {
      SettleKeeps(w, t, s, Cause("reconciliation", receipt));
      RunSetKeeps(AfterSettle(w, t, s, Cause("reconciliation", receipt)), p, r);
    }
  }
}
