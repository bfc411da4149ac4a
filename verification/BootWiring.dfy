/** The degraded-boot wiring loop and the shutdown hooks (backend/platform/boot.go). What each step does
    in each pass is given by an oracle; the context is cancelled when its passes run out. */
module BootWiring {
  import opened Wrappers

  datatype BootStep = BootStep(name: string, permanent: bool)

  datatype StepOutcome = Succeeds | Fails(why: string) | Panics(what: string)

  function Reason(o: StepOutcome): string {
    match o case Succeeds => "" case Fails(why) => why case Panics(what) => "panic: " + what
  }

  /** One step that was run. */
  datatype Ran = Ran(pass: nat, step: nat, ok: bool)

  /** The readiness state, what has been run and how long the loop has waited after each pass. */
  datatype Wire = Wire(blockers: map<string, string>, permanent: set<string>, ready: bool, ran: seq<Ran>, waits: seq<int>)

  datatype Exit = Finished | Cancelled

  const FRESH: Wire := Wire(map[], {}, false, [], [])

  // ----- the loop as a function -----

  function Blocked(w: Wire, step: BootStep, reason: string): Wire {
    w.(blockers := w.blockers[step.name := reason], ready := false,
       permanent := if step.permanent then w.permanent + {step.name} else w.permanent)
  }

  /** The rest of pass p from step i on; true when a step failed. */
  function PassFrom(w: Wire, steps: seq<BootStep>, answers: seq<StepOutcome>, p: nat, i: nat): (Wire, bool)
    requires |answers| == |steps| && i <= |steps|
    decreases |steps| - i
  {
    if i == |steps| then (w, false)
    else if steps[i].name in w.permanent then PassFrom(w, steps, answers, p, i + 1)
    else
      var run := w.(ran := w.ran + [Ran(p, i, answers[i].Succeeds?)]);
      if answers[i].Succeeds? then PassFrom(run.(blockers := run.blockers - {steps[i].name}), steps, answers, p, i + 1)
      else (Blocked(run, steps[i], Reason(answers[i])), true)
  }

  function Doubled(delay: int, max: int): int { if delay * 2 > max then max else delay * 2 }

  predicate Answers(steps: seq<BootStep>, passes: seq<seq<StepOutcome>>) {
    forall p :: 0 <= p < |passes| ==> |passes[p]| == |steps|
  }

  /** The loop from pass p on. */
  function RunFrom(w: Wire, steps: seq<BootStep>, passes: seq<seq<StepOutcome>>, p: nat, delay: int, max: int): (Wire, Exit)
    requires Answers(steps, passes) && p <= |passes|
    decreases |passes| - p
  {
    if p == |passes| then (w, Cancelled)
    else
      var (after, blocked) := PassFrom(w, steps, passes[p], p, 0);
      if !blocked then (if |after.blockers| == 0 then after.(ready := true) else after, Finished)
      else RunFrom(after.(waits := after.waits + [delay]), steps, passes, p + 1, Doubled(delay, max), max)
  }

  // ----- blockers and readiness -----

  predicate IsPermanentFailure(r: Ran, steps: seq<BootStep>, name: string) {
    !r.ok && r.step < |steps| && steps[r.step].permanent && steps[r.step].name == name
  }

  /** A permanent step of this name has failed. */
  predicate PermanentlyFailed(ran: seq<Ran>, steps: seq<BootStep>, name: string) {
    exists k :: 0 <= k < |ran| && IsPermanentFailure(ran[k], steps, name)
  }

  predicate IsStep(steps: seq<BootStep>, name: string) { exists i :: 0 <= i < |steps| && steps[i].name == name }

  /** Not ready; only steps are blocked; exactly the permanently failed ones are latched, and they are blocked. */
  ghost predicate Latched(w: Wire, steps: seq<BootStep>) {
    && !w.ready
    && (forall name :: name in w.blockers ==> IsStep(steps, name))
    && (forall name :: name in w.permanent <==> PermanentlyFailed(w.ran, steps, name))
    && w.permanent <= w.blockers.Keys
  }

  /** Behind step i of a pass, what is not latched is not blocked. */
  predicate ClearBehind(w: Wire, steps: seq<BootStep>, i: nat)
    requires i <= |steps|
  {
    forall j :: 0 <= j < i ==> steps[j].name in w.permanent || steps[j].name !in w.blockers
  }

  lemma RanKeepsFailures(ran: seq<Ran>, r: Ran, steps: seq<BootStep>, name: string)
    ensures PermanentlyFailed(ran + [r], steps, name) <==> PermanentlyFailed(ran, steps, name) || IsPermanentFailure(r, steps, name)
  {
    var all := ran + [r];
    if PermanentlyFailed(ran, steps, name) {
      var k :| 0 <= k < |ran| && IsPermanentFailure(ran[k], steps, name);
      assert all[k] == ran[k];
    }
    if IsPermanentFailure(r, steps, name) {
      assert all[|ran|] == r;
    }
  }

  lemma StepKeepsLatched(w: Wire, steps: seq<BootStep>, p: nat, i: nat, o: StepOutcome)
    requires Latched(w, steps) && i < |steps| && ClearBehind(w, steps, i) && steps[i].name !in w.permanent
    ensures var run := w.(ran := w.ran + [Ran(p, i, o.Succeeds?)]);
            if o.Succeeds? then
              var next := run.(blockers := run.blockers - {steps[i].name});
              Latched(next, steps) && ClearBehind(next, steps, i + 1)
            else Latched(Blocked(run, steps[i], Reason(o)), steps)
  {
    forall name ensures PermanentlyFailed(w.ran + [Ran(p, i, o.Succeeds?)], steps, name) <==>
                        name in w.permanent || (!o.Succeeds? && steps[i].permanent && steps[i].name == name) {
      RanKeepsFailures(w.ran, Ran(p, i, o.Succeeds?), steps, name);
    }
  }

  lemma {:induction false} PassKeepsLatched(w: Wire, steps: seq<BootStep>, answers: seq<StepOutcome>, p: nat, i: nat)
    requires |answers| == |steps| && i <= |steps| && Latched(w, steps) && ClearBehind(w, steps, i)
    ensures var (after, blocked) := PassFrom(w, steps, answers, p, i);
            Latched(after, steps) && after.waits == w.waits && (!blocked ==> ClearBehind(after, steps, |steps|))
    decreases |steps| - i
  {
    if i < |steps| {
      if steps[i].name in w.permanent {
        PassKeepsLatched(w, steps, answers, p, i + 1);
      } else {
        StepKeepsLatched(w, steps, p, i, answers[i]);
        if answers[i].Succeeds? {
          var run := w.(ran := w.ran + [Ran(p, i, true)]);
          PassKeepsLatched(run.(blockers := run.blockers - {steps[i].name}), steps, answers, p, i + 1);
        }
      }
    }
  }

  lemma WaitKeepsLatched(w: Wire, steps: seq<BootStep>, delay: int)
    requires Latched(w, steps)
    ensures Latched(w.(waits := w.waits + [delay]), steps)
  {
  }

  /** How the loop may end. */
  ghost predicate EndsWell(end: Wire, exit: Exit, steps: seq<BootStep>) {
    && Latched(end.(ready := false), steps)
    && (exit.Cancelled? ==> !end.ready)
    && (exit.Finished? ==> end.blockers.Keys == end.permanent && (end.ready <==> end.blockers == map[]))
  }

  lemma LastPassEndsWell(after: Wire, steps: seq<BootStep>)
    requires Latched(after, steps) && ClearBehind(after, steps, |steps|)
    ensures EndsWell(if |after.blockers| == 0 then after.(ready := true) else after, Finished, steps)
  {
    forall name | name in after.blockers ensures name in after.permanent { var i :| 0 <= i < |steps| && steps[i].name == name; }
  }

  /** A pass carries on what keeps holding while a step is blocked, and ends well otherwise. */
  predicate PassLeaves(keeps: Wire -> bool, ends: (Wire, Exit) -> bool, w: Wire, steps: seq<BootStep>, answers: seq<StepOutcome>, p: nat, delay: int)
    requires |answers| == |steps|
  {
    var (after, blocked) := PassFrom(w, steps, answers, p, 0);
    if blocked then keeps(after.(waits := after.waits + [delay]))
    else ends(if |after.blockers| == 0 then after.(ready := true) else after, Finished)
  }

  /** Then the loop ends well. */
  lemma {:induction false} RunEnds(keeps: Wire -> bool, ends: (Wire, Exit) -> bool, w: Wire, steps: seq<BootStep>, passes: seq<seq<StepOutcome>>,
                                   p: nat, delay: int, max: int)
    requires Answers(steps, passes) && p <= |passes| && keeps(w)
    requires forall v: Wire :: keeps(v) ==> ends(v, Cancelled)
    requires forall v: Wire, q: nat, d: int :: q < |passes| && keeps(v) ==> PassLeaves(keeps, ends, v, steps, passes[q], q, d)
    ensures var (end, exit) := RunFrom(w, steps, passes, p, delay, max);
            ends(end, exit)
    decreases |passes| - p
  {
    if p < |passes| {
      assert PassLeaves(keeps, ends, w, steps, passes[p], p, delay);
      var (after, blocked) := PassFrom(w, steps, passes[p], p, 0);
      if blocked {
        RunEnds(keeps, ends, after.(waits := after.waits + [delay]), steps, passes, p + 1, Doubled(delay, max), max);
      }
    }
  }

  lemma PassEndsWell(w: Wire, steps: seq<BootStep>, answers: seq<StepOutcome>, p: nat, delay: int)
    requires |answers| == |steps| && Latched(w, steps)
    ensures PassLeaves((v: Wire) => Latched(v, steps), (v: Wire, exit: Exit) => EndsWell(v, exit, steps), w, steps, answers, p, delay)
  {
    var (after, blocked) := PassFrom(w, steps, answers, p, 0);
    PassKeepsLatched(w, steps, answers, p, 0);
    if blocked { WaitKeepsLatched(after, steps, delay); } else { LastPassEndsWell(after, steps); }
  }

  lemma RunKeepsLatched(w: Wire, steps: seq<BootStep>, passes: seq<seq<StepOutcome>>, p: nat, delay: int, max: int)
    requires Answers(steps, passes) && p <= |passes| && Latched(w, steps)
    ensures var (end, exit) := RunFrom(w, steps, passes, p, delay, max);
            EndsWell(end, exit, steps)
  {
    var keeps, ends := (v: Wire) => Latched(v, steps), (v: Wire, exit: Exit) => EndsWell(v, exit, steps);
    forall v: Wire | keeps(v) ensures ends(v, Cancelled) { assert v.(ready := false) == v; }
    forall v: Wire, q: nat, d: int | q < |passes| && keeps(v) ensures PassLeaves(keeps, ends, v, steps, passes[q], q, d) {
      PassEndsWell(v, steps, passes[q], q, d);
    }
    RunEnds(keeps, ends, w, steps, passes, p, delay, max);
  }

  /** When the loop finishes, what is blocked is exactly what failed permanently, and the service is ready
      if and only if there is nothing of the kind; when it is cancelled the service is not ready. */
  lemma ReadyIffNothingPermanent(steps: seq<BootStep>, passes: seq<seq<StepOutcome>>, base: int, max: int)
    requires Answers(steps, passes)
    ensures var (end, exit) := RunFrom(FRESH, steps, passes, 0, base, max);
            && (exit.Cancelled? ==> !end.ready)
            && (exit.Finished? ==> forall name :: name in end.blockers <==> PermanentlyFailed(end.ran, steps, name))
            && (exit.Finished? ==> (end.ready <==> forall name :: !PermanentlyFailed(end.ran, steps, name)))
  {
    RunKeepsLatched(FRESH, steps, passes, 0, base, max);
    var (end, exit) := RunFrom(FRESH, steps, passes, 0, base, max);
    if exit.Finished? && forall name :: !PermanentlyFailed(end.ran, steps, name) {
      assert end.blockers.Keys == {};
    }
  }

  /** In the middle of any pass: not ready, so readiness is never seen beside a blocker. */
  lemma NeverReadyWhileWiring(steps: seq<BootStep>, passes: seq<seq<StepOutcome>>, p: nat, i: nat, base: int, max: int)
    requires Answers(steps, passes) && p < |passes| && i <= |steps|
    requires RunFrom(FRESH, steps, passes[..p], 0, base, max).1.Cancelled?
    ensures var before := RunFrom(FRESH, steps, passes[..p], 0, base, max).0;
            !before.ready && !PassFrom(before, steps[..i], passes[p][..i], p, 0).0.ready
  {
    RunKeepsLatched(FRESH, steps, passes[..p], 0, base, max);
    var before := RunFrom(FRESH, steps, passes[..p], 0, base, max).0;
    PassNotReady(before, steps[..i], passes[p][..i], p, 0);
  }

  lemma {:induction false} PassNotReady(w: Wire, steps: seq<BootStep>, answers: seq<StepOutcome>, p: nat, i: nat)
    requires |answers| == |steps| && i <= |steps| && !w.ready
    ensures !PassFrom(w, steps, answers, p, i).0.ready
    decreases |steps| - i
  {
    if i < |steps| {
      if steps[i].name in w.permanent {
        PassNotReady(w, steps, answers, p, i + 1);
      } else if answers[i].Succeeds? {
        var run := w.(ran := w.ran + [Ran(p, i, true)]);
        PassNotReady(run.(blockers := run.blockers - {steps[i].name}), steps, answers, p, i + 1);
      }
    }
  }

  // ----- what has run before a step -----

  /** Step j is out of the way in pass p: it succeeded in that very pass, or failed for good before. */
  predicate Cleared(ran: seq<Ran>, steps: seq<BootStep>, p: nat, j: nat)
    requires j < |steps|
  {
    Ran(p, j, true) in ran || PermanentlyFailed(ran, steps, steps[j].name)
  }

  /** Every step that ran did so after all earlier steps were out of the way, and had not failed for good. */
  predicate InOrder(ran: seq<Ran>, steps: seq<BootStep>) {
    ran == [] || (
      var before, last := ran[..|ran| - 1], ran[|ran| - 1];
      && last.step < |steps| && !PermanentlyFailed(before, steps, steps[last.step].name)
      && (forall j :: 0 <= j < last.step ==> Cleared(before, steps, last.pass, j))
      && InOrder(before, steps))
  }

  lemma ClearedStays(ran: seq<Ran>, r: Ran, steps: seq<BootStep>, p: nat, j: nat)
    requires j < |steps| && Cleared(ran, steps, p, j)
    ensures Cleared(ran + [r], steps, p, j)
  {
    RanKeepsFailures(ran, r, steps, steps[j].name);
  }

  lemma {:induction false} PassInOrder(w: Wire, steps: seq<BootStep>, answers: seq<StepOutcome>, p: nat, i: nat)
    requires |answers| == |steps| && i <= |steps| && Latched(w, steps) && ClearBehind(w, steps, i)
    requires InOrder(w.ran, steps) && forall j :: 0 <= j < i ==> Cleared(w.ran, steps, p, j)
    ensures InOrder(PassFrom(w, steps, answers, p, i).0.ran, steps)
    decreases |steps| - i
  {
    if i < |steps| {
      if steps[i].name in w.permanent {
        PassInOrder(w, steps, answers, p, i + 1);
      } else {
        var r := Ran(p, i, answers[i].Succeeds?);
        var all := w.ran + [r];
        assert all[..|all| - 1] == w.ran && all[|all| - 1] == r;
        assert InOrder(all, steps);
        if answers[i].Succeeds? {
          StepKeepsLatched(w, steps, p, i, answers[i]);
          forall j | 0 <= j < i + 1 ensures Cleared(all, steps, p, j) {
            if j < i { ClearedStays(w.ran, r, steps, p, j); } else { assert r in all; }
          }
          var run := w.(ran := all);
          PassInOrder(run.(blockers := run.blockers - {steps[i].name}), steps, answers, p, i + 1);
        }
      }
    }
  }

  lemma {:induction false} RunInOrder(w: Wire, steps: seq<BootStep>, passes: seq<seq<StepOutcome>>, p: nat, delay: int, max: int)
    requires Answers(steps, passes) && p <= |passes| && Latched(w, steps) && InOrder(w.ran, steps)
    ensures InOrder(RunFrom(w, steps, passes, p, delay, max).0.ran, steps)
    decreases |passes| - p
  {
    if p < |passes| {
      var (after, blocked) := PassFrom(w, steps, passes[p], p, 0);
      PassKeepsLatched(w, steps, passes[p], p, 0);
      PassInOrder(w, steps, passes[p], p, 0);
      if blocked {
        RunInOrder(after.(waits := after.waits + [delay]), steps, passes, p + 1, Doubled(delay, max), max);
      }
    }
  }

  /** A step runs only after every earlier step has succeeded in the same pass or failed for good in an
      earlier one, and a step that failed for good never runs again. */
  lemma StepsRunInOrder(steps: seq<BootStep>, passes: seq<seq<StepOutcome>>, base: int, max: int, k: nat)
    requires Answers(steps, passes)
    requires k < |RunFrom(FRESH, steps, passes, 0, base, max).0.ran|
    ensures var ran := RunFrom(FRESH, steps, passes, 0, base, max).0.ran;
            && ran[k].step < |steps| && !PermanentlyFailed(ran[..k], steps, steps[ran[k].step].name)
            && forall j :: 0 <= j < ran[k].step ==> Cleared(ran[..k], steps, ran[k].pass, j)
  {
    RunInOrder(FRESH, steps, passes, 0, base, max);
    InOrderAt(RunFrom(FRESH, steps, passes, 0, base, max).0.ran, steps, k);
  }

  lemma {:induction false} InOrderAt(ran: seq<Ran>, steps: seq<BootStep>, k: nat)
    requires InOrder(ran, steps) && k < |ran|
    ensures ran[k].step < |steps| && !PermanentlyFailed(ran[..k], steps, steps[ran[k].step].name)
    ensures forall j :: 0 <= j < ran[k].step ==> Cleared(ran[..k], steps, ran[k].pass, j)
    decreases |ran|
  {
    if k < |ran| - 1 {
      InOrderAt(ran[..|ran| - 1], steps, k);
      assert ran[..|ran| - 1][..k] == ran[..k];
    }
  }

  // ----- delays -----

  function Power(i: nat): nat { if i == 0 then 1 else 2 * Power(i - 1) }

  /** The wait after pass i. */
  function DelayOf(i: nat, base: int, max: int): int {
    if i == 0 then base else if base * Power(i) > max then max else base * Power(i)
  }

  lemma {:induction false} PowerPositive(i: nat)
    ensures Power(i) > 0
  {
    if i > 0 { PowerPositive(i - 1); }
  }

  lemma DelayDoubles(i: nat, base: int, max: int)
    requires base >= 0 && max >= 0
    ensures Doubled(DelayOf(i, base, max), max) == DelayOf(i + 1, base, max)
  {
    PowerPositive(i);
    assert base * Power(i + 1) == 2 * (base * Power(i));
    assert base * Power(0) == base;
  }

  lemma {:induction false} WaitsFrom(w: Wire, steps: seq<BootStep>, passes: seq<seq<StepOutcome>>, p: nat, base: int, max: int)
    requires Answers(steps, passes) && p <= |passes| && base >= 0 && max >= 0
    requires |w.waits| == p && forall i :: 0 <= i < p ==> w.waits[i] == DelayOf(i, base, max)
    ensures var waits := RunFrom(w, steps, passes, p, DelayOf(p, base, max), max).0.waits;
            forall i :: 0 <= i < |waits| ==> waits[i] == DelayOf(i, base, max)
    decreases |passes| - p
  {
    if p < |passes| {
      var (after, blocked) := PassFrom(w, steps, passes[p], p, 0);
      PassKeepsWaits(w, steps, passes[p], p, 0);
      if blocked {
        DelayDoubles(p, base, max);
        WaitsFrom(after.(waits := after.waits + [DelayOf(p, base, max)]), steps, passes, p + 1, base, max);
      }
    }
  }

  lemma {:induction false} PassKeepsWaits(w: Wire, steps: seq<BootStep>, answers: seq<StepOutcome>, p: nat, i: nat)
    requires |answers| == |steps| && i <= |steps|
    ensures PassFrom(w, steps, answers, p, i).0.waits == w.waits
    decreases |steps| - i
  {
    if i < |steps| {
      if steps[i].name in w.permanent {
        PassKeepsWaits(w, steps, answers, p, i + 1);
      } else if answers[i].Succeeds? {
        var run := w.(ran := w.ran + [Ran(p, i, true)]);
        PassKeepsWaits(run.(blockers := run.blockers - {steps[i].name}), steps, answers, p, i + 1);
      }
    }
  }

  /** The i-th wait is base * 2^i capped at max, except that the first is base uncapped: so the capped
      form holds for every wait exactly when base does not exceed max, or there is no wait at all. */
  lemma WaitsDouble(steps: seq<BootStep>, passes: seq<seq<StepOutcome>>, base: int, max: int)
    requires Answers(steps, passes) && base >= 0 && max >= 0
    ensures var waits := RunFrom(FRESH, steps, passes, 0, base, max).0.waits;
            && (forall i :: 0 <= i < |waits| ==> waits[i] == DelayOf(i, base, max))
            && ((forall i :: 0 <= i < |waits| ==> waits[i] == if base * Power(i) > max then max else base * Power(i)) <==>
                base <= max || waits == [])
  {
    WaitsFrom(FRESH, steps, passes, 0, base, max);
    assert base * Power(0) == base;
    var waits := RunFrom(FRESH, steps, passes, 0, base, max).0.waits;
    assert waits != [] ==> waits[0] == base;
  }

  // ----- the coordinator -----

  class Boot {
    const wireBackoffBase: int
    const wireBackoffMax: int
    var blockers: map<string, string>
    var permanent: set<string>
    var ready: bool
    var hooks: seq<nat>
    ghost var ran: seq<Ran>
    ghost var waits: seq<int>

    ghost function State(): Wire
      reads this
    {
      Wire(blockers, permanent, ready, ran, waits)
    }

    constructor (base: int, max: int)
      ensures wireBackoffBase == base && wireBackoffMax == max && State() == FRESH && hooks == []
    {
      wireBackoffBase, wireBackoffMax := base, max;
      blockers, permanent, ready, hooks := map[], {}, false, [];
      ran, waits := [], [];
    }

    method Block(name: string, reason: string)
      modifies this`blockers, this`ready
      ensures blockers == old(blockers)[name := reason] && !ready
    {
      blockers := blockers[name := reason];
      ready := false;
    }

    method BlockPermanent(name: string, reason: string)
      modifies this`blockers, this`ready, this`permanent
      ensures blockers == old(blockers)[name := reason] && !ready && permanent == old(permanent) + {name}
    {
      permanent := permanent + {name};
      Block(name, reason);
    }

    method Unblock(name: string)
      modifies this`blockers
      ensures blockers == old(blockers) - {name}
    {
      blockers := blockers - {name};
    }

    /** A panic is a failure like any other. */
    method RunStep(p: nat, i: nat, step: BootStep, o: StepOutcome) returns (err: Option<string>)
      modifies this`blockers, this`ran
      ensures err == if o.Succeeds? then None else Some(Reason(o))
      ensures blockers == (if o.Succeeds? then old(blockers) - {step.name} else old(blockers))
      ensures ran == old(ran) + [Ran(p, i, o.Succeeds?)]
    {
      ran := ran + [Ran(p, i, o.Succeeds?)];
      match o
      case Succeeds =>
        Unblock(step.name);
        err := None;
      case Fails(why) =>
        err := Some(why);
      case Panics(what) =>
        err := Some("panic: " + what);
    }

    method RunPass(steps: seq<BootStep>, answers: seq<StepOutcome>, p: nat) returns (passBlocked: bool)
      requires |answers| == |steps|
      modifies this`blockers, this`ran, this`permanent, this`ready
      ensures (State(), passBlocked) == PassFrom(old(State()), steps, answers, p, 0)
    {
      ghost var whole := PassFrom(State(), steps, answers, p, 0);
      passBlocked := false;
      for i := 0 to |steps|
        invariant !passBlocked && PassFrom(State(), steps, answers, p, i) == whole
      {
        if steps[i].name !in permanent {
          var err := RunStep(p, i, steps[i], answers[i]);
          if err.Some? {
            if steps[i].permanent {
              BlockPermanent(steps[i].name, err.value);
            } else {
              Block(steps[i].name, err.value);
            }
            passBlocked := true;
            return;
          }
        }
      }
    }

    method RunWire(steps: seq<BootStep>, passes: seq<seq<StepOutcome>>) returns (exit: Exit)
      requires Answers(steps, passes)
      modifies this
      ensures (State(), exit) == RunFrom(old(State()), steps, passes, 0, wireBackoffBase, wireBackoffMax)
      ensures hooks == old(hooks)
    {
      ghost var whole := RunFrom(State(), steps, passes, 0, wireBackoffBase, wireBackoffMax);
      var delay := wireBackoffBase;
      for p := 0 to |passes|
        invariant RunFrom(State(), steps, passes, p, delay, wireBackoffMax) == whole
        invariant hooks == old(hooks)
      {
        var passBlocked := RunPass(steps, passes[p], p);
        if !passBlocked {
          if |blockers| == 0 {
            ready := true;
          }
          return Finished;
        }
        waits := waits + [delay];
        delay := delay * 2;
        if delay > wireBackoffMax {
          delay := wireBackoffMax;
        }
      }
      exit := Cancelled;
    }

    method OnShutdown(hook: Option<nat>)
      modifies this`hooks
      ensures hooks == old(hooks) + if hook.Some? then [hook.value] else []
    {
      if hook.Some? {
        hooks := hooks + [hook.value];
      }
    }

    /** Every hook runs, the last registered first, whatever the others return; the first error met is
        the one returned. `fails` is what each hook returns. */
    method RunShutdownHooks(fails: nat -> Option<string>) returns (called: seq<nat>, firstErr: Option<string>)
      ensures |called| == |hooks| && forall i :: 0 <= i < |hooks| ==> called[i] == hooks[|hooks| - 1 - i]
      ensures firstErr.None? <==> forall i :: 0 <= i < |hooks| ==> fails(hooks[i]).None?
      ensures firstErr.Some? ==> exists i :: 0 <= i < |hooks| && fails(hooks[i]) == firstErr &&
                                   forall j :: i < j < |hooks| ==> fails(hooks[j]).None?
    {
      called, firstErr := [], None;
      var i := |hooks|;
      while i > 0
        invariant 0 <= i <= |hooks|
        invariant |called| == |hooks| - i && forall k :: 0 <= k < |called| ==> called[k] == hooks[|hooks| - 1 - k]
        invariant firstErr.None? <==> forall k :: i <= k < |hooks| ==> fails(hooks[k]).None?
        invariant firstErr.Some? ==> exists k :: i <= k < |hooks| && fails(hooks[k]) == firstErr &&
                                       forall j :: k < j < |hooks| ==> fails(hooks[j]).None?
      {
        i := i - 1;
        called := called + [hooks[i]];
        var err := fails(hooks[i]);
        if err.Some? && firstErr.None? {
          firstErr := err;
        }
      }
    }
  }
}
