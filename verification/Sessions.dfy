/** Login sessions and refresh-token rotation, one call at a time (backend/identity/tokens.go, store.go).
    Tokens are looked up by their digest, which the table keeps unique; `digest` is any function. */
module Sessions {
  import opened Wrappers

  type Id = nat

  datatype User = User(active: bool, verified: bool, createdAt: int)

  /** The row of sessions; `login` is history: the login the session came from. */
  datatype Session = Session(user: Id, hash: string, expiresAt: int, absoluteExpiresAt: int, revoked: bool, login: nat)

  /** Lifetimes; a grace of zero or less switches the verification gate off. */
  datatype Config = Config(refreshTTL: int, absoluteTTL: int, grace: int, digest: string -> string)

  /** The rows, and, as history, the sessions of each login, oldest first. */
  datatype State = State(rows: map<Id, Session>, chains: seq<seq<Id>>)

  const EMPTY: State := State(map[], [])

  /** Every session is among those of its login. */
  ghost predicate Placed(w: State) {
    forall s :: s in w.rows ==> w.rows[s].login < |w.chains| && s in w.chains[w.rows[s].login]
  }

  datatype Reply = Granted | Unauthorized | Forbidden | Failed

  predicate VerificationRefused(now: int, u: User, grace: int) {
    grace > 0 && !u.verified && now >= u.createdAt + grace
  }

  /** What minting a session is given: the new id and token, the clock at the gate and at the creation,
      and whether the claims can be resolved and the token signed. */
  datatype Mint = Mint(id: Id, token: string, gateAt: int, createAt: int, claimsOk: bool, signOk: bool)

  predicate HashTaken(rows: map<Id, Session>, hash: string) { exists s :: s in rows && rows[s].hash == hash }

  /** Issuer.issue: `absolute` is None for a fresh login, and `chain` the login the session belongs to. */
  function MintSession(w: State, cfg: Config, owner: Id, u: User, absolute: Option<int>, chain: nat, m: Mint): (State, Reply) {
    if VerificationRefused(m.gateAt, u, cfg.grace) then (w, Forbidden)
    else if !m.claimsOk then (w, Failed)
    else if m.id in w.rows || HashTaken(w.rows, cfg.digest(m.token)) then (w, Failed)
    else
      var bound := if absolute.Some? then absolute.value else m.createAt + cfg.absoluteTTL;
      var row := Session(owner, cfg.digest(m.token), m.createAt + cfg.refreshTTL, bound, false, chain);
      (State(w.rows[m.id := row], Extended(w.chains, chain, m.id)), if m.signOk then Granted else Failed)
  }

  ghost function ByHash(rows: map<Id, Session>, hash: string): Option<Id> {
    if exists s :: s in rows && rows[s].hash == hash then
      var s :| s in rows && rows[s].hash == hash;
      Some(s)
    else None
  }

  function Revoke(w: State, s: Id): (State, Reply) {
    if s in w.rows then (w.(rows := w.rows[s := w.rows[s].(revoked := true)]), Granted) else (w, Unauthorized)
  }

  function RevokeUser(w: State, owner: Id): State {
    w.(rows := map s | s in w.rows :: if w.rows[s].user == owner then w.rows[s].(revoked := true) else w.rows[s])
  }

  /** Issuer.Refresh, with the clock read first at `now`. */
  ghost function Refresh(w: State, cfg: Config, users: map<Id, User>, token: string, now: int, m: Mint): (State, Reply) {
    var found := if token == "" then None else ByHash(w.rows, cfg.digest(token));
    if found.None? then (w, Unauthorized)
    else
      var sess := w.rows[found.value];
      if sess.revoked || now >= sess.expiresAt || now >= sess.absoluteExpiresAt || sess.user !in users then (w, Unauthorized)
      else if !users[sess.user].active || VerificationRefused(now, users[sess.user], cfg.grace) then (w, Forbidden)
      else
        var rotated := Revoke(w, found.value).0;
        MintSession(rotated, cfg, sess.user, users[sess.user], Some(sess.absoluteExpiresAt), sess.login, m)
  }

  function Login(w: State, cfg: Config, users: map<Id, User>, owner: Id, m: Mint): (State, Reply) {
    if owner !in users then (w, Unauthorized) else MintSession(w, cfg, owner, users[owner], None, |w.chains|, m)
  }

  datatype Call =
    | DoLogin(users: map<Id, User>, owner: Id, m: Mint)
    | DoRefresh(users: map<Id, User>, token: string, now: int, m: Mint)
    | DoRevoke(s: Id)
    | DoRevokeUser(owner: Id)

  ghost function Serve(w: State, cfg: Config, c: Call): State {
    match c
    case DoLogin(users, owner, m) => Login(w, cfg, users, owner, m).0
    case DoRefresh(users, token, now, m) => Refresh(w, cfg, users, token, now, m).0
    case DoRevoke(s) => Revoke(w, s).0
    case DoRevokeUser(owner) => RevokeUser(w, owner)
  }

  ghost function ServeAll(w: State, cfg: Config, calls: seq<Call>): State
    decreases |calls|
  {
    if calls == [] then w else ServeAll(Serve(w, cfg, calls[0]), cfg, calls[1..])
  }

  // ----- the invariant -----

  /** One login's sessions: one owner and one bound, and none but the newest unrevoked. */
  predicate ChainOk(rows: map<Id, Session>, chains: seq<seq<Id>>, k: nat)
    requires k < |chains|
  {
    var chain := chains[k];
    && chain != []
    && (forall i :: 0 <= i < |chain| ==> chain[i] in rows && rows[chain[i]].login == k)
    && (forall i :: 0 <= i < |chain| ==> rows[chain[i]].user == rows[chain[0]].user
                                         && rows[chain[i]].absoluteExpiresAt == rows[chain[0]].absoluteExpiresAt)
    && (forall i :: 0 <= i < |chain| - 1 ==> rows[chain[i]].revoked)
  }

  ghost predicate ChainsOk(rows: map<Id, Session>, chains: seq<seq<Id>>) {
    forall k :: 0 <= k < |chains| ==> ChainOk(rows, chains, k)
  }

  ghost predicate HashesApart(rows: map<Id, Session>) {
    forall s, t :: s in rows && t in rows && rows[s].hash == rows[t].hash ==> s == t
  }

  ghost predicate Valid(w: State) {
    ChainsOk(w.rows, w.chains) && Placed(w) && HashesApart(w.rows)
  }

  function Extended(chains: seq<seq<Id>>, chain: nat, id: Id): seq<seq<Id>> {
    if chain < |chains| then chains[chain := chains[chain] + [id]] else chains + [[id]]
  }

  /** A new row at the end of a login whose newest session is revoked and has the row's owner and bound. */
  predicate Continues(rows: map<Id, Session>, chains: seq<seq<Id>>, row: Session) {
    row.login < |chains| && chains[row.login] != [] ==>
      var last := chains[row.login][|chains[row.login]| - 1];
      last in rows && rows[last].revoked && rows[last].user == row.user && rows[last].absoluteExpiresAt == row.absoluteExpiresAt
  }

  lemma NewRowChains(rows: map<Id, Session>, chains: seq<seq<Id>>, id: Id, row: Session)
    requires ChainsOk(rows, chains) && row.login <= |chains| && id !in rows && Continues(rows, chains, row)
    ensures ChainsOk(rows[id := row], Extended(chains, row.login, id))
  {
    var more, after := rows[id := row], Extended(chains, row.login, id);
    forall k | 0 <= k < |after| ensures ChainOk(more, after, k) {
      assert k < |chains| ==> ChainOk(rows, chains, k);
    }
  }

  lemma NewRowKeeps(w: State, id: Id, row: Session)
    requires Valid(w) && row.login <= |w.chains| && id !in w.rows && !HashTaken(w.rows, row.hash)
    requires Continues(w.rows, w.chains, row)
    ensures Valid(State(w.rows[id := row], Extended(w.chains, row.login, id)))
  {
    NewRowChains(w.rows, w.chains, id, row);
  }

  lemma MintKeeps(w: State, cfg: Config, owner: Id, u: User, absolute: Option<int>, chain: nat, m: Mint)
    requires Valid(w) && chain <= |w.chains|
    requires var bound := if absolute.Some? then absolute.value else m.createAt + cfg.absoluteTTL;
             Continues(w.rows, w.chains, Session(owner, cfg.digest(m.token), m.createAt + cfg.refreshTTL, bound, false, chain))
    ensures Valid(MintSession(w, cfg, owner, u, absolute, chain, m).0)
  {
    if m.id !in w.rows && !HashTaken(w.rows, cfg.digest(m.token)) {
      var bound := if absolute.Some? then absolute.value else m.createAt + cfg.absoluteTTL;
      NewRowKeeps(w, m.id, Session(owner, cfg.digest(m.token), m.createAt + cfg.refreshTTL, bound, false, chain));
    }
  }

  /** Rows differ in having been revoked only. */
  predicate OnlyRevoked(before: map<Id, Session>, after: map<Id, Session>) {
    && after.Keys == before.Keys
    && forall s :: s in after ==> after[s] == before[s].(revoked := after[s].revoked) && (before[s].revoked ==> after[s].revoked)
  }

  lemma RevokedKeeps(w: State, v: State)
    requires Valid(w) && v.chains == w.chains && OnlyRevoked(w.rows, v.rows)
    ensures Valid(v)
  {
    forall k | 0 <= k < |w.chains| ensures ChainOk(v.rows, v.chains, k) { assert ChainOk(w.rows, w.chains, k); }
  }

  /** An unrevoked session is the newest of its login. */
  lemma UnrevokedIsNewest(w: State, s: Id)
    requires Valid(w) && s in w.rows && !w.rows[s].revoked
    ensures var k := w.rows[s].login;
            k < |w.chains| && w.chains[k] != [] && w.chains[k][|w.chains[k]| - 1] == s
  {
    var k := w.rows[s].login;
    assert ChainOk(w.rows, w.chains, k);
    var i :| 0 <= i < |w.chains[k]| && w.chains[k][i] == s;
  }

  lemma RefreshKeeps(w: State, cfg: Config, users: map<Id, User>, token: string, now: int, m: Mint)
    requires Valid(w)
    ensures Valid(Refresh(w, cfg, users, token, now, m).0)
  {
    var found := ByHash(w.rows, cfg.digest(token));
    if found.Some? && !w.rows[found.value].revoked && w.rows[found.value].user in users {
      var s, sess := found.value, w.rows[found.value];
      UnrevokedIsNewest(w, s);
      var rotated := Revoke(w, s).0;
      RevokedKeeps(w, rotated);
      MintKeeps(rotated, cfg, sess.user, users[sess.user], Some(sess.absoluteExpiresAt), sess.login, m);
    }
  }

  lemma ServeKeeps(w: State, cfg: Config, c: Call)
    requires Valid(w)
    ensures Valid(Serve(w, cfg, c))
  {
    match c
    case DoLogin(users, owner, m) =>
      if owner in users { MintKeeps(w, cfg, owner, users[owner], None, |w.chains|, m); }
    case DoRefresh(users, token, now, m) => RefreshKeeps(w, cfg, users, token, now, m);
    case DoRevoke(s) => RevokedKeeps(w, Revoke(w, s).0);
    case DoRevokeUser(owner) => RevokedKeeps(w, RevokeUser(w, owner));
  }

  lemma {:induction false} ServeAllKeeps(w: State, cfg: Config, calls: seq<Call>)
    requires Valid(w)
    ensures Valid(ServeAll(w, cfg, calls))
    decreases |calls|
  {
    if calls != [] {
      ServeKeeps(w, cfg, calls[0]);
      ServeAllKeeps(Serve(w, cfg, calls[0]), cfg, calls[1..]);
    }
  }

  /** Of the sessions of one login at most the newest is unrevoked, and all share its owner and its
      absolute bound. */
  lemma OneLivePerLogin(cfg: Config, calls: seq<Call>, k: nat)
    requires k < |ServeAll(EMPTY, cfg, calls).chains|
    ensures ChainOk(ServeAll(EMPTY, cfg, calls).rows, ServeAll(EMPTY, cfg, calls).chains, k)
  {
    ServeAllKeeps(EMPTY, cfg, calls);
  }

  // ----- what a refresh takes and does -----

  lemma HashFinds(rows: map<Id, Session>, s: Id)
    requires HashesApart(rows) && s in rows
    ensures ByHash(rows, rows[s].hash) == Some(s)
  {
  }

  /** A refresh is granted only on the newest, unrevoked session of a login, before its idle expiry and
      strictly before the login's absolute bound; the successor keeps owner and bound, and the presented
      session is revoked. */
  lemma RefreshRotates(w: State, cfg: Config, users: map<Id, User>, token: string, now: int, m: Mint) returns (s: Id, k: nat)
    requires Valid(w) && Refresh(w, cfg, users, token, now, m).1 == Granted
    ensures s in w.rows && w.rows[s].hash == cfg.digest(token)
    ensures k < |w.chains| && w.chains[k] != [] && w.chains[k][|w.chains[k]| - 1] == s
    ensures !w.rows[s].revoked && now < w.rows[s].expiresAt && now < w.rows[s].absoluteExpiresAt
    ensures Refresh(w, cfg, users, token, now, m).0 ==
            State(w.rows[s := w.rows[s].(revoked := true)]
                        [m.id := Session(w.rows[s].user, cfg.digest(m.token), m.createAt + cfg.refreshTTL, w.rows[s].absoluteExpiresAt, false, k)],
                  w.chains[k := w.chains[k] + [m.id]])
    ensures m.id !in w.rows
  {
    s := ByHash(w.rows, cfg.digest(token)).value;
    k := w.rows[s].login;
    UnrevokedIsNewest(w, s);
  }

  // ----- what stays refused -----

  /** Rows are kept, with owner, digest and bound, and a revoked row stays revoked. */
  predicate Evolves(w: State, v: State) {
    forall s :: s in w.rows ==>
      s in v.rows && v.rows[s] == w.rows[s].(revoked := v.rows[s].revoked) && (w.rows[s].revoked ==> v.rows[s].revoked)
  }

  lemma ServeEvolves(w: State, cfg: Config, c: Call)
    ensures Evolves(w, Serve(w, cfg, c))
  {
    match c
    case DoLogin(users, owner, m) => if owner in users { MintEvolves(w, cfg, owner, users[owner], None, |w.chains|, m); }
    case DoRefresh(users, token, now, m) => RefreshEvolves(w, cfg, users, token, now, m);
    case DoRevoke(s) => RevokeEvolves(w, s);
    case DoRevokeUser(owner) =>
  }

  lemma MintEvolves(w: State, cfg: Config, owner: Id, u: User, absolute: Option<int>, chain: nat, m: Mint)
    ensures Evolves(w, MintSession(w, cfg, owner, u, absolute, chain, m).0)
  {
  }

  lemma RevokeEvolves(w: State, s: Id)
    ensures Evolves(w, Revoke(w, s).0)
  {
  }

  lemma RefreshEvolves(w: State, cfg: Config, users: map<Id, User>, token: string, now: int, m: Mint)
    ensures Evolves(w, Refresh(w, cfg, users, token, now, m).0)
  {
    if MayRotate(w, cfg, users, token, now) {
      var s := Presented(w, cfg, token).value;
      RotatedThenMinted(w, cfg, users, token, now, m);
      RevokeEvolves(w, s);
      MintEvolves(Revoke(w, s).0, cfg, w.rows[s].user, users[w.rows[s].user], Some(w.rows[s].absoluteExpiresAt), w.rows[s].login, m);
    }
  }

  lemma {:induction false} ServeAllEvolves(w: State, cfg: Config, calls: seq<Call>)
    ensures Evolves(w, ServeAll(w, cfg, calls))
    decreases |calls|
  {
    if calls != [] {
      ServeEvolves(w, cfg, calls[0]);
      ServeAllEvolves(Serve(w, cfg, calls[0]), cfg, calls[1..]);
    }
  }

  /** A revoked session's token is refused in every later state. */
  lemma RevokedForever(w: State, cfg: Config, after: seq<Call>, s: Id, users: map<Id, User>, token: string, now: int, m: Mint)
    requires Valid(w) && s in w.rows && w.rows[s].revoked && w.rows[s].hash == cfg.digest(token)
    ensures var v := ServeAll(w, cfg, after);
            Refresh(v, cfg, users, token, now, m) == (v, Unauthorized)
  {
    ServeAllEvolves(w, cfg, after);
    ServeAllKeeps(w, cfg, after);
    HashFinds(ServeAll(w, cfg, after).rows, s);
  }

  /** A token that has been rotated never refreshes again. */
  lemma RotatedForever(cfg: Config, before: seq<Call>, users: map<Id, User>, token: string, now: int, m: Mint, after: seq<Call>,
                       users': map<Id, User>, now': int, m': Mint)
    requires Refresh(ServeAll(EMPTY, cfg, before), cfg, users, token, now, m).1 == Granted
    ensures var v := ServeAll(Refresh(ServeAll(EMPTY, cfg, before), cfg, users, token, now, m).0, cfg, after);
            Refresh(v, cfg, users', token, now', m') == (v, Unauthorized)
  {
    ServeAllKeeps(EMPTY, cfg, before);
    var w := ServeAll(EMPTY, cfg, before);
    var s, k := RefreshRotates(w, cfg, users, token, now, m);
    RefreshKeeps(w, cfg, users, token, now, m);
    RevokedForever(Refresh(w, cfg, users, token, now, m).0, cfg, after, s, users', token, now', m');
  }

  /** Once all of a user's sessions are revoked, no token given out before refreshes again. */
  lemma RevokeAllIsFinal(cfg: Config, before: seq<Call>, owner: Id, s: Id, after: seq<Call>, users: map<Id, User>, token: string, now: int, m: Mint)
    requires s in ServeAll(EMPTY, cfg, before).rows && ServeAll(EMPTY, cfg, before).rows[s].user == owner
    requires ServeAll(EMPTY, cfg, before).rows[s].hash == cfg.digest(token)
    ensures var v := ServeAll(RevokeUser(ServeAll(EMPTY, cfg, before), owner), cfg, after);
            Refresh(v, cfg, users, token, now, m) == (v, Unauthorized)
  {
    ServeAllKeeps(EMPTY, cfg, before);
    var w := ServeAll(EMPTY, cfg, before);
    RevokedKeeps(w, RevokeUser(w, owner));
    RevokedForever(RevokeUser(w, owner), cfg, after, s, users, token, now, m);
  }

  /** No token of a login, however often rotated, refreshes at or past the bound the login started with. */
  lemma BoundIsFinal(cfg: Config, before: seq<Call>, s: Id, after: seq<Call>, users: map<Id, User>, token: string, now: int, m: Mint, k: nat, i: nat)
    requires var w := ServeAll(EMPTY, cfg, before);
             s in w.rows && k < |w.chains| && w.chains[k] != [] && w.chains[k][0] == s && now >= w.rows[s].absoluteExpiresAt
    requires var v := ServeAll(ServeAll(EMPTY, cfg, before), cfg, after);
             k < |v.chains| && i < |v.chains[k]| && v.chains[k][i] in v.rows && v.chains[k][0] == s
             && v.rows[v.chains[k][i]].hash == cfg.digest(token)
    ensures var v := ServeAll(ServeAll(EMPTY, cfg, before), cfg, after);
            Refresh(v, cfg, users, token, now, m) == (v, Unauthorized)
  {
    ServeAllKeeps(EMPTY, cfg, before);
    var w := ServeAll(EMPTY, cfg, before);
    ServeAllEvolves(w, cfg, after);
    ServeAllKeeps(w, cfg, after);
    var v := ServeAll(w, cfg, after);
    assert ChainOk(v.rows, v.chains, k);
    HashFinds(v.rows, v.chains[k][i]);
  }

  // ----- what a refused refresh does -----

  /** Everything Refresh checks before it rotates: the token is known, its session unrevoked and within
      both expiries, its user there and active, and the verification gate open. */
  ghost predicate MayRotate(w: State, cfg: Config, users: map<Id, User>, token: string, now: int) {
    token != "" &&
    var found := ByHash(w.rows, cfg.digest(token));
    found.Some? &&
    var sess := w.rows[found.value];
    && !sess.revoked && now < sess.expiresAt && now < sess.absoluteExpiresAt && sess.user in users
    && users[sess.user].active && !VerificationRefused(now, users[sess.user], cfg.grace)
  }

  /** What can keep the successor from being created once the presented session is revoked: the gate, read
      again, has closed, the claims fail, or the id or digest is taken. */
  predicate NotCreated(w: State, cfg: Config, u: User, m: Mint) {
    VerificationRefused(m.gateAt, u, cfg.grace) || !m.claimsOk || m.id in w.rows || HashTaken(w.rows, cfg.digest(m.token))
  }

  ghost function Presented(w: State, cfg: Config, token: string): Option<Id> { ByHash(w.rows, cfg.digest(token)) }

  lemma SameHashes(before: map<Id, Session>, after: map<Id, Session>, hash: string)
    requires OnlyRevoked(before, after)
    ensures HashTaken(after, hash) <==> HashTaken(before, hash)
  {
    if HashTaken(after, hash) {
      var t :| t in after && after[t].hash == hash;
      assert t in before && before[t].hash == hash;
    }
    if HashTaken(before, hash) {
      var t :| t in before && before[t].hash == hash;
      assert t in after && after[t].hash == hash;
    }
  }

  lemma RotatedThenMinted(w: State, cfg: Config, users: map<Id, User>, token: string, now: int, m: Mint)
    requires MayRotate(w, cfg, users, token, now)
    ensures var s := Presented(w, cfg, token).value;
            var rotated := Revoke(w, s).0;
            var u := users[w.rows[s].user];
            && rotated != w && rotated.chains == w.chains && OnlyRevoked(w.rows, rotated.rows)
            && Refresh(w, cfg, users, token, now, m) == MintSession(rotated, cfg, w.rows[s].user, u, Some(w.rows[s].absoluteExpiresAt), w.rows[s].login, m)
            && (NotCreated(rotated, cfg, u, m) <==> NotCreated(w, cfg, u, m))
  {
    var s := Presented(w, cfg, token).value;
    var rotated := Revoke(w, s).0;
    assert rotated.rows[s].revoked && !w.rows[s].revoked;
    SameHashes(w.rows, rotated.rows, cfg.digest(m.token));
  }

  /** A refresh is granted exactly when it may rotate, the successor is created and the token signed; a
      refused one changes the sessions exactly when it may rotate, that is when it fails after the
      presented session was revoked. */
  lemma RefreshChangesIff(w: State, cfg: Config, users: map<Id, User>, token: string, now: int, m: Mint)
    ensures var (v, reply) := Refresh(w, cfg, users, token, now, m);
            && (reply == Granted <==>
                  MayRotate(w, cfg, users, token, now)
                  && !NotCreated(w, cfg, users[w.rows[Presented(w, cfg, token).value].user], m) && m.signOk)
            && (reply != Granted ==>
                  (v != w <==>
                   MayRotate(w, cfg, users, token, now)
                   && (NotCreated(w, cfg, users[w.rows[Presented(w, cfg, token).value].user], m) || !m.signOk)))
  {
    if MayRotate(w, cfg, users, token, now) {
      RotatedThenMinted(w, cfg, users, token, now, m);
      var s := Presented(w, cfg, token).value;
      var v := Refresh(w, cfg, users, token, now, m).0;
      if !NotCreated(w, cfg, users[w.rows[s].user], m) {
        assert m.id in v.rows && m.id !in w.rows;
      }
    }
  }

  /** No session of the login is live. */
  predicate LoginDead(w: State, k: nat) {
    k < |w.chains| && forall i :: 0 <= i < |w.chains[k]| ==> w.chains[k][i] in w.rows && w.rows[w.chains[k][i]].revoked
  }

  /** A login whose token is live loses its last live session to a refresh exactly when the refresh may
      rotate and no successor is created. A signature that fails leaves a live successor whose token
      nobody was given. */
  lemma LoginLostIff(w: State, cfg: Config, users: map<Id, User>, token: string, now: int, m: Mint, s: Id)
    requires Valid(w) && s in w.rows && w.rows[s].hash == cfg.digest(token) && !w.rows[s].revoked
    ensures LoginDead(Refresh(w, cfg, users, token, now, m).0, w.rows[s].login) <==>
            MayRotate(w, cfg, users, token, now) && NotCreated(w, cfg, users[w.rows[s].user], m)
  {
    HashFinds(w.rows, s);
    UnrevokedIsNewest(w, s);
    var k := w.rows[s].login;
    assert ChainOk(w.rows, w.chains, k);
    if MayRotate(w, cfg, users, token, now) {
      RotatedThenMinted(w, cfg, users, token, now, m);
      var v := Refresh(w, cfg, users, token, now, m).0;
      if NotCreated(w, cfg, users[w.rows[s].user], m) {
        AllRevoked(w, s);
      } else {
        assert v.chains[k][|w.chains[k]|] == m.id && !v.rows[m.id].revoked;
      }
    } else {
      assert Refresh(w, cfg, users, token, now, m).0 == w;
      assert w.chains[k][|w.chains[k]| - 1] == s;
    }
  }

  lemma AllRevoked(w: State, s: Id)
    requires Valid(w) && s in w.rows && !w.rows[s].revoked
    ensures LoginDead(Revoke(w, s).0, w.rows[s].login)
  {
    UnrevokedIsNewest(w, s);
    assert ChainOk(w.rows, w.chains, w.rows[s].login);
  }

  /** It happens: the verification grace ends between the two readings of the gate, and a refresh that was
      let through leaves the user's one login without a live session. */
  lemma GateClosingLosesTheLogin()
    ensures exists cfg: Config, calls: seq<Call>, users: map<Id, User>, token: string, now: int, m: Mint ::
              var w := ServeAll(EMPTY, cfg, calls);
              MayRotate(w, cfg, users, token, now) && LoginDead(Refresh(w, cfg, users, token, now, m).0, 0)
  {
    var cfg := Config(100, 1000, 10, (token: string) => token);
    var users := map[0 := User(true, false, 0)];
    var first := DoLogin(users, 0, Mint(0, "a", 0, 0, true, true));
    var w := ServeAll(EMPTY, cfg, [first]);
    assert [first][1..] == [];
    assert ServeAll(Serve(EMPTY, cfg, first), cfg, []) == Serve(EMPTY, cfg, first);
    assert w == State(map[0 := Session(0, "a", 100, 1000, false, 0)], [[0]]);
    ServeAllKeeps(EMPTY, cfg, [first]);
    HashFinds(w.rows, 0);
    var m := Mint(1, "b", 10, 10, true, true);
    assert MayRotate(w, cfg, users, "a", 9);
    LoginLostIff(w, cfg, users, "a", 9, m, 0);
    assert LoginDead(Refresh(w, cfg, users, "a", 9, m).0, 0);
  }

  // ----- the store and the issuer -----

  class SessionStore {
    var rows: map<Id, Session>
    /** History, kept for the proofs' sake. */
    var chains: seq<seq<Id>>

    function Now(): State
      reads this
    {
      State(rows, chains)
    }

    constructor ()
      ensures Now() == EMPTY
    {
      rows := map[];
      chains := [];
    }

    method GetSessionByRefreshHash(hash: string) returns (found: Option<Id>)
      requires HashesApart(rows)
      ensures found == ByHash(rows, hash)
    {
      if s :| s in rows && rows[s].hash == hash {
        HashFinds(rows, s);
        return Some(s);
      }
      found := None;
    }

    method CreateSession(id: Id, row: Session) returns (ok: bool)
      modifies this
      ensures ok <==> id !in old(rows) && !HashTaken(old(rows), row.hash)
      ensures !ok ==> Now() == old(Now())
      ensures ok ==> rows == old(rows)[id := row]
                     && chains == Extended(old(chains), row.login, id)
    {
      if id in rows || HashTaken(rows, row.hash) {
        return false;
      }
      rows := rows[id := row];
      chains := Extended(chains, row.login, id);
      ok := true;
    }

    method RevokeSession(s: Id) returns (ok: bool)
      modifies this`rows
      ensures ok <==> s in old(rows)
      ensures Now() == Revoke(old(Now()), s).0
    {
      if s !in rows {
        return false;
      }
      rows := rows[s := rows[s].(revoked := true)];
      ok := true;
    }

    method RevokeUserSessions(owner: Id) returns (count: nat)
      modifies this`rows
      ensures Now() == RevokeUser(old(Now()), owner)
      ensures count == |set s | s in old(rows) && old(rows)[s].user == owner && !old(rows)[s].revoked|
    {
      count := |set s | s in rows && rows[s].user == owner && !rows[s].revoked|;
      rows := map s | s in rows :: if rows[s].user == owner then rows[s].(revoked := true) else rows[s];
    }
  }

  class Issuer {
    const store: SessionStore
    const cfg: Config

    constructor (store: SessionStore, cfg: Config)
      ensures this.store == store && this.cfg == cfg
    {
      this.store := store;
      this.cfg := cfg;
    }

    method IssueSession(owner: Id, u: User, absolute: Option<int>, login: nat, m: Mint) returns (r: Reply)
      modifies store
      ensures (store.Now(), r) == MintSession(old(store.Now()), cfg, owner, u, absolute, login, m)
    {
      if VerificationRefused(m.gateAt, u, cfg.grace) {
        return Forbidden;
      }
      if !m.claimsOk {
        return Failed;
      }
      var bound := m.createAt + cfg.absoluteTTL;
      if absolute.Some? {
        bound := absolute.value;
      }
      var ok := store.CreateSession(m.id, Session(owner, cfg.digest(m.token), m.createAt + cfg.refreshTTL, bound, false, login));
      if !ok || !m.signOk {
        return Failed;
      }
      r := Granted;
    }

    method Issue(users: map<Id, User>, owner: Id, m: Mint) returns (r: Reply)
      modifies store
      ensures (store.Now(), r) == Login(old(store.Now()), cfg, users, owner, m)
    {
      if owner !in users {
        return Unauthorized;
      }
      r := IssueSession(owner, users[owner], None, |store.chains|, m);
    }

    method RefreshSession(users: map<Id, User>, token: string, now: int, m: Mint) returns (r: Reply)
      requires Valid(store.Now())
      modifies store
      ensures Valid(store.Now())
      ensures (store.Now(), r) == Refresh(old(store.Now()), cfg, users, token, now, m)
    {
      RefreshKeeps(store.Now(), cfg, users, token, now, m);
      if token == "" {
        return Unauthorized;
      }
      var found := store.GetSessionByRefreshHash(cfg.digest(token));
      if found.None? {
        return Unauthorized;
      }
      var sess := store.rows[found.value];
      if sess.revoked {
        return Unauthorized;
      }
      if now >= sess.expiresAt {
        return Unauthorized;
      }
      if now >= sess.absoluteExpiresAt {
        return Unauthorized;
      }
      if sess.user !in users {
        return Unauthorized;
      }
      var user := users[sess.user];
      if !user.active {
        return Forbidden;
      }
      if VerificationRefused(now, user, cfg.grace) {
        return Forbidden;
      }
      var _ := store.RevokeSession(found.value);
      r := IssueSession(sess.user, user, Some(sess.absoluteExpiresAt), sess.login, m);
    }
  }
}
