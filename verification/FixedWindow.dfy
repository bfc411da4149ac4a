/** The in-process fixed-window rate limiter with its lazy sweep (backend/platform/ratelimit.go). */
module FixedWindow {
  import opened Wrappers

  datatype RateBucket = RateBucket(count: nat, starts: int)

  datatype Call = Call(key: string, now: int)

  // ----- one key on its own, nothing ever swept -----

  /** The bucket a call at `now` counts against. */
  function Current(b: Option<RateBucket>, now: int, window: int): RateBucket {
    if b.None? || now - b.value.starts >= window then RateBucket(0, now) else b.value
  }

  function Admits(b: RateBucket, rpm: int): bool { b.count < rpm }

  function Counted(b: RateBucket, rpm: int): RateBucket {
    if Admits(b, rpm) then b.(count := b.count + 1) else b
  }

  /** The bucket of a key that was called at these times. */
  function BucketAt(times: seq<int>, rpm: int, window: int): Option<RateBucket> {
    if times == [] then None
    else Some(Counted(Current(BucketAt(times[..|times| - 1], rpm, window), times[|times| - 1], window), rpm))
  }

  /** The answer to the last of these calls. */
  predicate Answer(times: seq<int>, rpm: int, window: int)
    requires times != []
  {
    Admits(Current(BucketAt(times[..|times| - 1], rpm, window), times[|times| - 1], window), rpm)
  }

  predicate Rising(times: seq<int>) {
    forall i, j :: 0 <= i < j < |times| ==> times[i] <= times[j]
  }

  // ----- all keys together, swept -----

  function Sweep(buckets: map<string, RateBucket>, now: int, window: int): map<string, RateBucket> {
    map k | k in buckets && now - buckets[k].starts < window :: buckets[k]
  }

  function Lookup(buckets: map<string, RateBucket>, key: string): Option<RateBucket> {
    if key in buckets then Some(buckets[key]) else None
  }

  const SWEEP_FACTOR: int := 4
  const SWEEP_SLACK: int := 1024

  /** One call of Allow. */
  function Step(buckets: map<string, RateBucket>, c: Call, rpm: int, window: int): (map<string, RateBucket>, bool) {
    var b := Current(Lookup(buckets, c.key), c.now, window);
    var all := buckets[c.key := b];
    var kept := if |all| > SWEEP_FACTOR * rpm + SWEEP_SLACK then Sweep(all, c.now, window) else all;
    (if c.key in kept then kept[c.key := Counted(b, rpm)] else kept, Admits(b, rpm))
  }

  function BucketsAfter(calls: seq<Call>, rpm: int, window: int): map<string, RateBucket> {
    if calls == [] then map[]
    else Step(BucketsAfter(calls[..|calls| - 1], rpm, window), calls[|calls| - 1], rpm, window).0
  }

  predicate SweptAnswer(calls: seq<Call>, rpm: int, window: int)
    requires calls != []
  {
    Step(BucketsAfter(calls[..|calls| - 1], rpm, window), calls[|calls| - 1], rpm, window).1
  }

  predicate Ordered(calls: seq<Call>) {
    forall i, j :: 0 <= i < j < |calls| ==> calls[i].now <= calls[j].now
  }

  /** When one key was called. */
  function TimesOf(calls: seq<Call>, key: string): seq<int> {
    if calls == [] then []
    else TimesOf(calls[..|calls| - 1], key) + if calls[|calls| - 1].key == key then [calls[|calls| - 1].now] else []
  }

  /** The table holds the key's own bucket, or has swept one that no longer counts. */
  predicate Agrees(held: Option<RateBucket>, own: Option<RateBucket>, now: int, window: int) {
    held == own || (held.None? && own.Some? && now - own.value.starts >= window)
  }

  lemma StepAgrees(buckets: map<string, RateBucket>, c: Call, rpm: int, window: int, key: string, own: Option<RateBucket>)
    requires Agrees(Lookup(buckets, key), own, c.now, window)
    ensures var (after, ok) := Step(buckets, c, rpm, window);
            if key == c.key then
              Agrees(Lookup(after, key), Some(Counted(Current(own, c.now, window), rpm)), c.now, window)
              && ok == Admits(Current(own, c.now, window), rpm)
            else Agrees(Lookup(after, key), own, c.now, window)
  {
  }

  lemma {:induction false} SweptTracks(calls: seq<Call>, rpm: int, window: int, key: string)
    requires Ordered(calls)
    ensures calls != [] ==> Agrees(Lookup(BucketsAfter(calls, rpm, window), key), BucketAt(TimesOf(calls, key), rpm, window),
                                   calls[|calls| - 1].now, window)
  {
    if calls != [] {
      var before, c := calls[..|calls| - 1], calls[|calls| - 1];
      SweptTracks(before, rpm, window, key);
      var own := BucketAt(TimesOf(before, key), rpm, window);
      assert Agrees(Lookup(BucketsAfter(before, rpm, window), key), own, c.now, window);
      StepAgrees(BucketsAfter(before, rpm, window), c, rpm, window, key, own);
      TimesOfLast(calls, key);
    }
  }

  lemma TimesOfLast(calls: seq<Call>, key: string)
    requires calls != []
    ensures var before, c := calls[..|calls| - 1], calls[|calls| - 1];
            if c.key != key then TimesOf(calls, key) == TimesOf(before, key)
            else TimesOf(calls, key) != [] && TimesOf(calls, key)[|TimesOf(calls, key)| - 1] == c.now
                 && TimesOf(calls, key)[..|TimesOf(calls, key)| - 1] == TimesOf(before, key)
  {
  }

  /** The swept table answers every call as the key's own unswept bucket would, so each key's answers
      depend on nothing but that key's own calls. */
  lemma SweepInvisible(calls: seq<Call>, rpm: int, window: int, i: nat)
    requires Ordered(calls) && i < |calls|
    ensures TimesOf(calls[..i + 1], calls[i].key) != []
    ensures SweptAnswer(calls[..i + 1], rpm, window) == Answer(TimesOf(calls[..i + 1], calls[i].key), rpm, window)
  {
    var upto := calls[..i + 1];
    assert upto[..i] == calls[..i];
    var key := calls[i].key;
    SweptTracks(calls[..i], rpm, window, key);
    TimesOfLast(upto, key);
    if i > 0 {
      var own := BucketAt(TimesOf(calls[..i], key), rpm, window);
      assert Agrees(Lookup(BucketsAfter(calls[..i], rpm, window), key), own, calls[i].now, window);
      StepAgrees(BucketsAfter(calls[..i], rpm, window), calls[i], rpm, window, key, own);
    }
  }

  // ----- bounds -----

  predicate In(t: int, from: int, window: int) { from <= t < from + window }

  /** How many of the calls were admitted at times in [from, from + length). */
  function Admitted(times: seq<int>, rpm: int, window: int, from: int, length: int): nat {
    if times == [] then 0
    else
      Admitted(times[..|times| - 1], rpm, window, from, length)
      + if Answer(times, rpm, window) && In(times[|times| - 1], from, length) then 1 else 0
  }

  lemma {:induction false} NoneEarlier(times: seq<int>, rpm: int, window: int, from: int, length: int)
    requires forall i :: 0 <= i < |times| ==> times[i] < from
    ensures Admitted(times, rpm, window, from, length) == 0
  {
    if times != [] {
      NoneEarlier(times[..|times| - 1], rpm, window, from, length);
    }
  }

  /** A window admits what its bucket counts: rpm calls at most. */
  lemma {:induction false} WindowAdmits(times: seq<int>, rpm: int, window: int)
    requires Rising(times) && times != [] && rpm > 0 && window > 0
    ensures var b := BucketAt(times, rpm, window).value;
            && times[|times| - 1] - window < b.starts <= times[|times| - 1]
            && Admitted(times, rpm, window, b.starts, window) == b.count
            && 1 <= b.count <= rpm
  {
    var before, now := times[..|times| - 1], times[|times| - 1];
    if before != [] {
      WindowAdmits(before, rpm, window);
      if now - BucketAt(before, rpm, window).value.starts >= window {
        NoneEarlier(before, rpm, window, now, window);
      }
    }
  }

  /** Any interval as long as the window holds at most 2 * rpm - 1 admitted calls of a key. */
  lemma {:induction false} AnyIntervalAdmits(times: seq<int>, rpm: int, window: int, from: int)
    requires Rising(times) && times != [] && rpm > 0 && window > 0
    ensures var b := BucketAt(times, rpm, window).value;
            var n := Admitted(times, rpm, window, from, window);
            && n <= 2 * rpm - 1
            && (b.starts < from ==> n <= b.count - 1)
            && (In(b.starts, from, window) ==> n <= b.count + rpm - 1)
  {
    var before, now := times[..|times| - 1], times[|times| - 1];
    WindowAdmits(times, rpm, window);
    if before != [] {
      WindowAdmits(before, rpm, window);
      AnyIntervalAdmits(before, rpm, window, from);
      if now < from {
        NoneEarlier(times, rpm, window, from, window);
      }
    }
  }

  /** The calls, and n more at one time. */
  function AndThen(times: seq<int>, t: int, n: nat): seq<int> {
    if n == 0 then times else AndThen(times, t, n - 1) + [t]
  }

  /** The calls leave a bucket with this start and count, and admitted m of them in the interval. */
  ghost predicate Leaves(times: seq<int>, starts: int, count: nat, m: nat, rpm: int, window: int, from: int) {
    BucketAt(times, rpm, window) == Some(RateBucket(count, starts)) && Admitted(times, rpm, window, from, window) == m
  }

  /** One more call in a window that still has room. */
  lemma CallInWindow(times: seq<int>, starts: int, count: nat, m: nat, t: int, rpm: int, window: int, from: int)
    requires Leaves(times, starts, count, m, rpm, window, from) && t - starts < window && count < rpm && In(t, from, window)
    ensures Leaves(times + [t], starts, count + 1, m + 1, rpm, window, from)
  {
    var all := times + [t];
    assert all[..|all| - 1] == times && all[|all| - 1] == t;
    assert Answer(all, rpm, window);
  }

  /** A relation between calls, their count and the admitted ones that each call at t carries on holds after
      n of them. */
  lemma {:induction false} EachCallKeeps(holds: (seq<int>, nat, nat) -> bool, times: seq<int>, count: nat, m: nat, t: int, n: nat, rpm: int)
    requires holds(times, count, m) && count + n <= rpm
    requires forall s: seq<int>, c: nat, k: nat :: holds(s, c, k) && c < rpm ==> holds(s + [t], c + 1, k + 1)
    ensures holds(AndThen(times, t, n), count + n, m + n)
    decreases n
  {
    if n > 0 { EachCallKeeps(holds, times, count, m, t, n - 1, rpm); }
  }

  lemma RepeatAdmits(times: seq<int>, starts: int, count: nat, m: nat, t: int, n: nat, rpm: int, window: int, from: int)
    requires Leaves(times, starts, count, m, rpm, window, from) && t - starts < window
    requires count + n <= rpm && In(t, from, window)
    ensures Leaves(AndThen(times, t, n), starts, count + n, m + n, rpm, window, from)
  {
    var holds := (s: seq<int>, c: nat, k: nat) => Leaves(s, starts, c, k, rpm, window, from);
    forall s: seq<int>, c: nat, k: nat | holds(s, c, k) && c < rpm ensures holds(s + [t], c + 1, k + 1) {
      CallInWindow(s, starts, c, k, t, rpm, window, from);
    }
    EachCallKeeps(holds, times, count, m, t, n, rpm);
  }

  lemma {:induction false} SameFirst(times: seq<int>, t: int, n: nat)
    requires times != []
    ensures AndThen(times, t, n) != [] && AndThen(times, t, n)[0] == times[0]
  {
    if n > 0 { SameFirst(times, t, n - 1); }
  }

  /** One call opens a window when the last has ended. */
  lemma CallOpensWindow(times: seq<int>, starts: int, count: nat, m: nat, t: int, rpm: int, window: int, from: int)
    requires Leaves(times, starts, count, m, rpm, window, from) && t - starts >= window && rpm > 0 && In(t, from, window)
    ensures Leaves(times + [t], t, 1, m + 1, rpm, window, from)
  {
    var all := times + [t];
    assert all[..|all| - 1] == times && all[|all| - 1] == t;
    assert Answer(all, rpm, window);
  }

  /** The bound is reached: one call opens a window, the rest come at its end, and a full window
      follows at once. */
  lemma BoundReached(rpm: int, window: int)
    requires rpm > 0 && window > 1
    ensures exists times: seq<int> :: times != [] && times[0] == 0 &&
              Admitted(times, rpm, window, window - 1, window) == 2 * rpm - 1
  {
    FirstCall(rpm, window);
    RepeatAdmits([0], 0, 1, 0, window - 1, rpm - 1, rpm, window, window - 1);
    SameFirst([0], window - 1, rpm - 1);
    NextWindow(AndThen([0], window - 1, rpm - 1), rpm, window);
  }

  lemma NextWindow(late: seq<int>, rpm: int, window: int)
    requires rpm > 0 && window > 1 && late != [] && late[0] == 0 && Leaves(late, 0, rpm, rpm - 1, rpm, window, window - 1)
    ensures exists times: seq<int> :: times != [] && times[0] == 0 &&
              Admitted(times, rpm, window, window - 1, window) == 2 * rpm - 1
  {
    CallOpensWindow(late, 0, rpm, rpm - 1, window, rpm, window, window - 1);
    RepeatAdmits(late + [window], window, 1, rpm, window, rpm - 1, rpm, window, window - 1);
    SameFirst(late + [window], window, rpm - 1);
    assert Leaves(AndThen(late + [window], window, rpm - 1), window, rpm, 2 * rpm - 1, rpm, window, window - 1);
  }

  lemma FirstCall(rpm: int, window: int)
    requires rpm > 0 && window > 1
    ensures Leaves([0], 0, 1, 0, rpm, window, window - 1)
  {
    assert [0][..0] == [];
  }

  // ----- the limiter -----

  class RateLimiter {
    const rpm: int
    const window: int
    var buckets: map<string, RateBucket>

    constructor (rpm: int, window: int)
      ensures this.rpm == rpm && this.window == window && buckets == BucketsAfter([], rpm, window)
    {
      this.rpm := rpm;
      this.window := window;
      buckets := map[];
    }

    method Allow(key: string, now: int) returns (ok: bool)
      modifies this
      ensures rpm <= 0 ==> ok && buckets == old(buckets)
      ensures rpm > 0 ==> (buckets, ok) == Step(old(buckets), Call(key, now), rpm, window)
    {
      if rpm <= 0 {
        return true;
      }
      if key !in buckets || now - buckets[key].starts >= window {
        buckets := buckets[key := RateBucket(0, now)];
      }
      var b := buckets[key];
      assert b == Current(Lookup(old(buckets), key), now, window) && buckets == old(buckets)[key := b];
      if |buckets| > SWEEP_FACTOR * rpm + SWEEP_SLACK {
        DeleteExpired(now);
      }
      if b.count >= rpm {
        assert key in buckets ==> buckets[key := b] == buckets;
        return false;
      }
      // A bucket the sweep has dropped is counted all the same, on its own.
      if key in buckets {
        buckets := buckets[key := b.(count := b.count + 1)];
      }
      ok := true;
    }

    method DeleteExpired(now: int)
      modifies this
      ensures buckets == Sweep(old(buckets), now, window)
    {
      var left := buckets.Keys;
      while left != {}
        invariant left <= old(buckets).Keys
        invariant forall k :: k in buckets <==> k in old(buckets) && (k in left || now - old(buckets)[k].starts < window)
        invariant forall k :: k in buckets ==> buckets[k] == old(buckets)[k]
        decreases |left|
      {
        var k :| k in left;
        left := left - {k};
        if now - buckets[k].starts >= window {
          buckets := buckets - {k};
        }
      }
    }
  }
}
