/** The distributed sliding-window rate limiter: one atomic script over a sorted set in Redis, run by
    any number of replicas on one clock (backend/platform/ratelimit_redis.go). */
module SlidingWindow {
  import opened Wrappers

  /** A request's own unique member, or the fixed member RetryAfter uses. */
  datatype Member = Request(id: nat) | Probe

  /** A sorted set: members and their scores, in milliseconds. */
  type ZSet = map<Member, int>

  /** What Redis keeps under one key; the key may be gone from `expires` on. */
  datatype Bucket = Bucket(z: ZSet, expires: Option<int>)

  datatype Reply = Reply(allowed: bool, retry: int)

  /** One script call; `gone` says whether Redis has dropped the key if it may have. */
  datatype Call = Call(now: int, member: Member, gone: bool)

  /** What ZREMRANGEBYSCORE -inf cutoff leaves. */
  function Prune(z: ZSet, cutoff: int): ZSet {
    map m | m in z && z[m] > cutoff :: z[m]
  }

  ghost predicate IsOldest(z: ZSet, score: int) {
    (exists m :: m in z && z[m] == score) && forall m :: m in z ==> score <= z[m]
  }

  /** ZRANGE 0 0 WITHSCORES. */
  ghost function Oldest(z: ZSet): int
    requires |z| > 0
  {
    OldestIs(z);
    var s :| IsOldest(z, s);
    s
  }

  lemma {:induction false} OldestIs(z: ZSet)
    requires |z| > 0
    ensures exists s :: IsOldest(z, s)
    decreases |z|
  {
    var m :| m in z;
    var rest := z - {m};
    if |rest| == 0 {
      assert forall k :: k in z ==> k == m || k in rest;
      assert IsOldest(z, z[m]);
    } else {
      assert |rest| < |z|;
      OldestIs(rest);
      var s :| IsOldest(rest, s);
      assert forall k :: k in z ==> k == m || k in rest;
      assert IsOldest(z, if z[m] < s then z[m] else s);
    }
  }

  /** The retry_after of a refusal. */
  ghost function Wait(z: ZSet, now: int, window: int): int {
    if |z| == 0 then window
    else if Oldest(z) + window - now < 1 then 1
    else Oldest(z) + window - now
  }

  /** The decision on a set that never expires. */
  ghost function Decide(z: ZSet, now: int, window: int, limit: int, member: Member): (ZSet, Reply) {
    var p := Prune(z, now - window);
    if |p| < limit then (p[member := now], Reply(true, 0)) else (p, Reply(false, Wait(p, now, window)))
  }

  predicate MayBeGone(b: Bucket, now: int) { b.expires.Some? && b.expires.value <= now }

  function Found(b: Bucket, c: Call): Bucket {
    if c.gone && MayBeGone(b, c.now) then Bucket(map[], None) else b
  }

  /** The script itself. */
  ghost function Script(b: Bucket, c: Call, window: int, limit: int): (Bucket, Reply) {
    var found := Found(b, c);
    var (z, reply) := Decide(found.z, c.now, window, limit, c.member);
    (Bucket(z, if reply.allowed then Some(c.now + window) else found.expires), reply)
  }

  // ----- a run of calls on one key -----

  predicate Ordered(calls: seq<Call>) {
    forall i, j :: 0 <= i < j < |calls| ==> calls[i].now <= calls[j].now
  }

  /** Every request brings its own member. */
  predicate Fresh(calls: seq<Call>) {
    forall i, j :: 0 <= i < j < |calls| && calls[i].member.Request? ==> calls[i].member != calls[j].member
  }

  ghost function After(calls: seq<Call>, window: int, limit: int): ZSet {
    if calls == [] then map[]
    else
      var c := calls[|calls| - 1];
      Decide(After(calls[..|calls| - 1], window, limit), c.now, window, limit, c.member).0
  }

  /** The answer to the last call. */
  ghost function Answer(calls: seq<Call>, window: int, limit: int): Reply
    requires calls != []
  {
    var c := calls[|calls| - 1];
    Decide(After(calls[..|calls| - 1], window, limit), c.now, window, limit, c.member).1
  }

  ghost function BucketAfter(calls: seq<Call>, window: int, limit: int): Bucket {
    if calls == [] then Bucket(map[], None)
    else Script(BucketAfter(calls[..|calls| - 1], window, limit), calls[|calls| - 1], window, limit).0
  }

  ghost function ScriptAnswer(calls: seq<Call>, window: int, limit: int): Reply
    requires calls != []
  {
    Script(BucketAfter(calls[..|calls| - 1], window, limit), calls[|calls| - 1], window, limit).1
  }

  // ----- PEXPIRE never changes a decision -----

  /** Every member of the bucket is out of the window by the time the key may be gone. */
  ghost predicate ExpiresLate(b: Bucket, window: int) {
    forall m :: m in b.z ==> b.expires.Some? && b.z[m] + window <= b.expires.value
  }

  lemma ScriptDecides(b: Bucket, z: ZSet, c: Call, window: int, limit: int)
    requires ExpiresLate(b, window) && Prune(b.z, c.now - window) == Prune(z, c.now - window)
    requires window >= 0 && forall m :: m in b.z ==> b.z[m] <= c.now
    ensures var (after, reply) := Script(b, c, window, limit);
            (after.z, reply) == Decide(z, c.now, window, limit, c.member) && ExpiresLate(after, window)
  {
    if c.gone && MayBeGone(b, c.now) {
      assert Prune(b.z, c.now - window) == map[];
      assert Prune(map[], c.now - window) == map[];
    }
  }

  lemma {:induction false} ScoresPast(calls: seq<Call>, window: int, limit: int)
    requires Ordered(calls)
    ensures forall m :: m in After(calls, window, limit) ==> After(calls, window, limit)[m] <= calls[|calls| - 1].now
  {
    if calls != [] {
      ScoresPast(calls[..|calls| - 1], window, limit);
    }
  }

  lemma {:induction false} BucketTracks(calls: seq<Call>, window: int, limit: int)
    requires Ordered(calls) && window >= 0
    ensures BucketAfter(calls, window, limit).z == After(calls, window, limit)
    ensures ExpiresLate(BucketAfter(calls, window, limit), window)
    ensures calls != [] ==> ScriptAnswer(calls, window, limit) == Answer(calls, window, limit)
  {
    if calls != [] {
      var before := calls[..|calls| - 1];
      BucketTracks(before, window, limit);
      ScoresPast(before, window, limit);
      ScriptDecides(BucketAfter(before, window, limit), After(before, window, limit), calls[|calls| - 1], window, limit);
    }
  }

  /** Whenever Redis drops expired keys, every call is answered as if keys never expired. */
  lemma ExpiryInvisible(calls: seq<Call>, window: int, limit: int, i: nat)
    requires Ordered(calls) && window >= 0 && i < |calls|
    ensures ScriptAnswer(calls[..i + 1], window, limit) == Answer(calls[..i + 1], window, limit)
  {
    BucketTracks(calls[..i + 1], window, limit);
  }

  // ----- the bound -----

  predicate In(t: int, from: int, window: int) { from <= t < from + window }

  /** How many requests were admitted at times in [from, from + window). */
  ghost function Admitted(calls: seq<Call>, from: int, window: int, limit: int): nat {
    if calls == [] then 0
    else
      Admitted(calls[..|calls| - 1], from, window, limit) + if AdmitsLast(calls, from, window, limit) then 1 else 0
  }

  ghost predicate AdmitsLast(calls: seq<Call>, from: int, window: int, limit: int)
    requires calls != []
  {
    var c := calls[|calls| - 1];
    c.member.Request? && ScriptAnswer(calls, window, limit).allowed && In(c.now, from, window)
  }

  ghost function AdmittedMembers(calls: seq<Call>, from: int, window: int, limit: int): set<Member> {
    if calls == [] then {}
    else
      AdmittedMembers(calls[..|calls| - 1], from, window, limit)
      + if AdmitsLast(calls, from, window, limit) then {calls[|calls| - 1].member} else {}
  }

  lemma {:induction false} NotYet(calls: seq<Call>, from: int, window: int, limit: int, m: Member)
    requires forall i :: 0 <= i < |calls| && calls[i].member.Request? ==> calls[i].member != m
    ensures m !in AdmittedMembers(calls, from, window, limit)
  {
    if calls != [] {
      NotYet(calls[..|calls| - 1], from, window, limit, m);
    }
  }

  lemma {:induction false} MembersCount(calls: seq<Call>, from: int, window: int, limit: int)
    requires Fresh(calls)
    ensures |AdmittedMembers(calls, from, window, limit)| == Admitted(calls, from, window, limit)
  {
    if calls != [] {
      MembersCount(calls[..|calls| - 1], from, window, limit);
      NotYet(calls[..|calls| - 1], from, window, limit, calls[|calls| - 1].member);
    }
  }

  /** Admitted requests still in the window are still in the set. */
  lemma {:induction false} AdmittedRemain(calls: seq<Call>, from: int, window: int, limit: int)
    requires Ordered(calls) && Fresh(calls) && window >= 0
    requires calls != [] ==> In(calls[|calls| - 1].now, from, window)
    ensures forall m :: m in AdmittedMembers(calls, from, window, limit) ==>
              m in After(calls, window, limit) && After(calls, window, limit)[m] >= from
  {
    if calls != [] {
      var before := calls[..|calls| - 1];
      BucketTracks(calls, window, limit);
      if before != [] && before[|before| - 1].now < from {
        NoneBefore(before, from, window, limit);
      } else {
        AdmittedRemain(before, from, window, limit);
      }
    }
  }

  lemma {:induction false} NoneBefore(calls: seq<Call>, from: int, window: int, limit: int)
    requires forall i :: 0 <= i < |calls| ==> calls[i].now < from
    ensures AdmittedMembers(calls, from, window, limit) == {}
  {
    if calls != [] {
      NoneBefore(calls[..|calls| - 1], from, window, limit);
    }
  }

  /** Whatever mix of requests and probes is called, no half-open interval as long as the window holds
      more than `limit` admitted requests. */
  lemma {:induction false} WindowBound(calls: seq<Call>, from: int, window: int, limit: nat)
    requires Ordered(calls) && Fresh(calls) && window >= 0
    ensures Admitted(calls, from, window, limit) <= limit
  {
    if calls != [] {
      var before, c := calls[..|calls| - 1], calls[|calls| - 1];
      WindowBound(before, from, window, limit);
      if AdmitsLast(calls, from, window, limit) {
        BucketTracks(calls, window, limit);
        InWindowBefore(before, c.now, from, window, limit);
        MembersCount(before, from, window, limit);
        SubsetSize(AdmittedMembers(before, from, window, limit), Prune(After(before, window, limit), c.now - window).Keys);
      }
    }
  }

  lemma InWindowBefore(before: seq<Call>, now: int, from: int, window: int, limit: int)
    requires Ordered(before) && Fresh(before) && window >= 0 && In(now, from, window)
    requires before != [] ==> before[|before| - 1].now <= now
    ensures AdmittedMembers(before, from, window, limit) <= Prune(After(before, window, limit), now - window).Keys
  {
    if before != [] && before[|before| - 1].now < from {
      NoneBefore(before, from, window, limit);
    } else {
      AdmittedRemain(before, from, window, limit);
    }
  }

  // ----- the retry hint -----

  lemma PruneAgain(z: ZSet, a: int, b: int)
    requires a <= b
    ensures Prune(Prune(z, a), b) == Prune(z, b)
  {
  }

  lemma PruneSmaller(z: ZSet, cutoff: int)
    ensures |Prune(z, cutoff)| <= |z|
    ensures |Prune(z, cutoff)| == |z| <==> forall m :: m in z ==> z[m] > cutoff
  {
    var p := Prune(z, cutoff);
    assert p.Keys <= z.Keys;
    SubsetSize(p.Keys, z.Keys);
    assert |z.Keys - p.Keys| == |z.Keys| - |p.Keys|;
    if forall m :: m in z ==> z[m] > cutoff {
      assert p == z;
    } else {
      var m :| m in z && z[m] <= cutoff;
      assert m in z.Keys - p.Keys;
    }
  }

  lemma {:induction false} NeverOverLimit(calls: seq<Call>, window: int, limit: nat)
    ensures |After(calls, window, limit)| <= limit
  {
    if calls != [] {
      var before, c := calls[..|calls| - 1], calls[|calls| - 1];
      NeverOverLimit(before, window, limit);
      PruneSmaller(After(before, window, limit), c.now - window);
    }
  }

  /** A refusal's retry_after is exact, whatever Redis drops: the next call of any kind is refused before it
      has passed and admitted once it has. */
  lemma RetryExact(calls: seq<Call>, window: int, limit: nat, next: Call)
    requires Ordered(calls) && calls != [] && limit > 0 && window > 0
    requires !ScriptAnswer(calls, window, limit).allowed && calls[|calls| - 1].now <= next.now
    ensures var now, retry := calls[|calls| - 1].now, ScriptAnswer(calls, window, limit).retry;
            && 1 <= retry <= window
            && (ScriptAnswer(calls + [next], window, limit).allowed <==> now + retry <= next.now)
  {
    var more := calls + [next];
    assert more[..|more| - 1] == calls;
    OrderedMore(calls, next);
    RetryAt(calls, more, window, limit);
  }

  lemma RetryAt(calls: seq<Call>, more: seq<Call>, window: int, limit: nat)
    requires Ordered(more) && |more| > 1 && more[..|more| - 1] == calls && limit > 0 && window > 0
    requires !ScriptAnswer(calls, window, limit).allowed
    ensures var now, retry := calls[|calls| - 1].now, ScriptAnswer(calls, window, limit).retry;
            && 1 <= retry <= window
            && (ScriptAnswer(more, window, limit).allowed <==> now + retry <= more[|more| - 1].now)
  {
    BucketTracks(calls, window, limit);
    BucketTracks(more, window, limit);
    LastAnswer(calls, more, window, limit);
    RetryOfRefusal(calls, window, limit, more[|more| - 1].now);
  }

  lemma OrderedMore(calls: seq<Call>, next: Call)
    requires Ordered(calls) && (calls != [] ==> calls[|calls| - 1].now <= next.now)
    ensures Ordered(calls + [next])
  {
  }

  lemma LastAnswer(calls: seq<Call>, more: seq<Call>, window: int, limit: nat)
    requires more != [] && more[..|more| - 1] == calls
    ensures Answer(more, window, limit).allowed <==> |Prune(After(calls, window, limit), more[|more| - 1].now - window)| < limit
  {
  }

  lemma RetryOfRefusal(calls: seq<Call>, window: int, limit: nat, t: int)
    requires Ordered(calls) && calls != [] && limit > 0 && window > 0
    requires !Answer(calls, window, limit).allowed && calls[|calls| - 1].now <= t
    ensures var now, retry := calls[|calls| - 1].now, Answer(calls, window, limit).retry;
            && 1 <= retry <= window
            && (|Prune(After(calls, window, limit), t - window)| < limit <==> now + retry <= t)
  {
    FullWhenRefused(calls, window, limit);
    RetryOfFullSet(After(calls, window, limit), calls[|calls| - 1].now, window, limit, t);
  }

  lemma FullWhenRefused(calls: seq<Call>, window: int, limit: nat)
    requires Ordered(calls) && calls != [] && limit > 0
    requires !Answer(calls, window, limit).allowed
    ensures var z, now := After(calls, window, limit), calls[|calls| - 1].now;
            && |z| == limit && (forall k :: k in z ==> now - window < z[k] <= now)
            && Answer(calls, window, limit).retry == Wait(z, now, window)
  {
    var before, now := calls[..|calls| - 1], calls[|calls| - 1].now;
    NeverOverLimit(before, window, limit);
    ScoresPast(before, window, limit);
    RefusedSet(After(before, window, limit), now, window, limit, calls[|calls| - 1].member);
  }

  lemma RefusedSet(z: ZSet, now: int, window: int, limit: nat, m: Member)
    requires |z| <= limit && (forall k :: k in z ==> z[k] <= now) && !Decide(z, now, window, limit, m).1.allowed
    ensures var (after, reply) := Decide(z, now, window, limit, m);
            && |after| == limit && (forall k :: k in after ==> now - window < after[k] <= now)
            && reply.retry == Wait(after, now, window)
  {
    PruneSmaller(z, now - window);
  }

  lemma RetryOfFullSet(z: ZSet, now: int, window: int, limit: nat, t: int)
    requires |z| == limit > 0 && now <= t
    requires forall k :: k in z ==> now - window < z[k] <= now
    ensures 1 <= Oldest(z) + window - now <= window
    ensures |Prune(z, t - window)| < limit <==> Oldest(z) + window <= t
  {
    var o := Oldest(z);
    OldestIs(z);
    assert IsOldest(z, o);
    PruneSmaller(z, t - window);
  }

  /** Refused calls in between do not matter: they leave every later decision as it was. */
  lemma RefusalsLeaveNoTrace(z: ZSet, now: int, m: Member, t: int, n: Member, window: int, limit: int)
    requires now <= t && !Decide(z, now, window, limit, m).1.allowed
    ensures Decide(Decide(z, now, window, limit, m).0, t, window, limit, n) == Decide(z, t, window, limit, n)
  {
    PruneAgain(z, now - window, t - window);
  }

  /** Asking for the retry hint is itself a call: with room in the window the probe is admitted and holds a
      slot until it leaves the window. */
  lemma ProbeTakesASlot(z: ZSet, now: int, window: int, limit: int)
    requires window > 0
    ensures var p, (after, reply) := Prune(z, now - window), Decide(z, now, window, limit, Probe);
            && (reply.allowed <==> |p| < limit)
            && |Prune(after, now - window)| == if |p| < limit && Probe !in p then |p| + 1 else |p|
  {
    var p := Prune(z, now - window);
    var after := Decide(z, now, window, limit, Probe).0;
    if |p| < limit {
      assert Prune(after, now - window) == p[Probe := now];
      assert p[Probe := now].Keys == p.Keys + {Probe};
    } else {
      PruneAgain(z, now - window, now - window);
    }
  }

  /** Asking for the hint changes the answer to the next request at the same instant exactly when the probe
      takes the last free slot. */
  lemma ProbeRefusesNextIff(z: ZSet, now: int, window: int, limit: int, r: Member)
    requires window > 0
    ensures var p := Prune(z, now - window);
            Decide(Decide(z, now, window, limit, Probe).0, now, window, limit, r).1.allowed != Decide(z, now, window, limit, r).1.allowed
            <==> |p| == limit - 1 && Probe !in p
  {
    ProbeTakesASlot(z, now, window, limit);
  }

  // ----- the server and the limiter -----

  class RedisServer {
    var zsets: map<string, ZSet>
    var expiry: map<string, int>

    constructor ()
      ensures forall k :: BucketOf(k) == Bucket(map[], None)
    {
      zsets, expiry := map[], map[];
    }

    function BucketOf(key: string): Bucket
      reads this
    {
      Bucket(if key in zsets then zsets[key] else map[], if key in expiry then Some(expiry[key]) else None)
    }

    /** Redis drops a key whose time has come, now or at any later moment. */
    method Expire(key: string, c: Call)
      modifies this
      ensures BucketOf(key) == Found(old(BucketOf(key)), c)
      ensures forall k :: k != key ==> BucketOf(k) == old(BucketOf(k))
    {
      if c.gone && key in expiry && expiry[key] <= c.now {
        zsets, expiry := zsets - {key}, expiry - {key};
      }
    }

    method ZRemRangeByScore(key: string, max: int) returns (card: nat)
      modifies this`zsets
      ensures BucketOf(key) == old(BucketOf(key)).(z := Prune(old(BucketOf(key)).z, max)) && card == |BucketOf(key).z|
      ensures forall k :: k != key ==> BucketOf(k) == old(BucketOf(k))
    {
      var z: ZSet := if key in zsets then zsets[key] else map[];
      zsets := zsets[key := map m | m in z && z[m] > max :: z[m]];
      card := |zsets[key]|;
    }

    method ZAddPExpire(key: string, score: int, member: Member, window: int)
      modifies this
      ensures BucketOf(key) == Bucket(old(BucketOf(key)).z[member := score], Some(score + window))
      ensures forall k :: k != key ==> BucketOf(k) == old(BucketOf(k))
    {
      var z: ZSet := if key in zsets then zsets[key] else map[];
      zsets := zsets[key := z[member := score]];
      expiry := expiry[key := score + window];
    }

    method Eval(key: string, c: Call, window: int, limit: int) returns (reply: Reply)
      modifies this
      ensures (BucketOf(key), reply) == Script(old(BucketOf(key)), c, window, limit)
      ensures forall k :: k != key ==> BucketOf(k) == old(BucketOf(k))
    {
      Expire(key, c);
      var count := ZRemRangeByScore(key, c.now - window);
      if count < limit {
        ZAddPExpire(key, c.now, c.member, window);
        return Reply(true, 0);
      }
      var retry := Retry(BucketOf(key).z, c.now, window);
      reply := Reply(false, retry);
    }
  }

  /** The last lines of the script. */
  method Retry(z: ZSet, now: int, window: int) returns (retry: int)
    ensures retry == Wait(z, now, window)
  {
    retry := window;
    if |z| > 0 {
      var oldest := First(z);
      retry := oldest + window - now;
      if retry < 1 {
        retry := 1;
      }
    }
  }

  method First(z: ZSet) returns (score: int)
    requires |z| > 0
    ensures score == Oldest(z)
  {
    OldestIs(z);
    ghost var s :| IsOldest(z, s);
    ghost var w :| w in z && z[w] == s;
    var m :| m in z && forall k :: k in z ==> z[m] <= z[k];
    score := z[m];
    assert IsOldest(z, score);
  }

  const REDIS_WINDOW: int := 60000

  datatype Verdict = Admit | AdmitFailedOpen | TooMany

  class RedisRateLimiter {
    const server: RedisServer
    const rpm: int

    constructor (server: RedisServer, rpm: int)
      ensures this.server == server && this.rpm == rpm
    {
      this.server := server;
      this.rpm := rpm;
    }

    /** `up` says whether Redis answers; without it the request goes through. */
    method Allow(key: string, now: int, id: nat, gone: bool, up: bool) returns (v: Verdict)
      modifies server
      ensures v == TooMany <==> rpm > 0 && up && !Script(old(server.BucketOf(key)), Call(now, Request(id), gone), REDIS_WINDOW, rpm).1.allowed
      ensures v == AdmitFailedOpen <==> rpm > 0 && !up
      ensures server.BucketOf(key) == if rpm > 0 && up then Script(old(server.BucketOf(key)), Call(now, Request(id), gone), REDIS_WINDOW, rpm).0
                                      else old(server.BucketOf(key))
      ensures forall k :: k != key ==> server.BucketOf(k) == old(server.BucketOf(k))
    {
      if rpm <= 0 {
        return Admit;
      }
      if !up {
        return AdmitFailedOpen;
      }
      var reply := server.Eval(key, Call(now, Request(id), gone), REDIS_WINDOW, rpm);
      v := if reply.allowed then Admit else TooMany;
    }

    /** Milliseconds until the window admits again. */
    method RetryAfter(key: string, now: int, gone: bool, up: bool) returns (ms: int)
      modifies server
      ensures rpm <= 0 ==> ms == 0
      ensures rpm > 0 && !up ==> ms == REDIS_WINDOW
      ensures rpm > 0 && up ==>
                var (after, reply) := Script(old(server.BucketOf(key)), Call(now, Probe, gone), REDIS_WINDOW, rpm);
                server.BucketOf(key) == after && ms == if reply.allowed then 1000 else reply.retry
      ensures rpm <= 0 || !up ==> server.BucketOf(key) == old(server.BucketOf(key))
      ensures forall k :: k != key ==> server.BucketOf(k) == old(server.BucketOf(k))
    {
      if rpm <= 0 {
        return 0;
      }
      if !up {
        return REDIS_WINDOW;
      }
      var reply := server.Eval(key, Call(now, Probe, gone), REDIS_WINDOW, rpm);
      if reply.retry <= 0 {
        return 1000;
      }
      ms := reply.retry;
    }
  }
}
