/**
 Login, refresh and logout as interleaved Redis commands.  Every process runs one request and stops
 between any two commands while others run, time passes, or it fails.

 Beside the real state the model keeps a history: for each session who holds its right to go on,
 which session a token was issued for, which tokens reached a client, and which were accepted.
 */
module RotationProtocol {
  import opened Wrappers
  import opened RefreshTokens

  type Pid = nat

  /** What a running request does next. */
  datatype Pc =
    | SetToken(hash: Hash, data: Stored)
    | AddToIndex(hash: Hash, data: Stored)
    | ExpireIndex(hash: Hash, data: Stored)
    | RemoveFromIndex(hash: Hash, data: Stored)
    | Reload(data: Stored)
    | ReadIndex(session: SessionKey)
    | DeleteKeys(session: SessionKey, hashes: set<Hash>)

  /** A session's right to go on: a stored token, a request between taking one and storing the next, or nothing. */
  datatype Holder = InStore(hash: Hash, saver: Pid) | InFlight(pid: Pid) | Gone

  datatype State = State(
    redis: Redis, now: int, procs: map<Pid, Pc>,
    holder: map<SessionKey, Holder>, issuedFor: map<Hash, SessionKey>,
    delivered: set<Hash>, accepted: seq<Hash>, orphaned: set<Hash>, abandoned: set<Hash>)

  datatype Action =
    | Tick(seconds: nat)
    | Login(pid: Pid, data: Stored, hash: Hash)
    | Refresh(pid: Pid, hash: Hash, tenant: string)
    | Logout(pid: Pid, session: SessionKey)
    | Advance(pid: Pid, userActive: bool, hash: Hash)
    | Fail(pid: Pid)

  function Initial(): State {
    State(Redis(map[], map[]), 0, map[], map[], map[], {}, [], {}, {})
  }

  /** New session ids and new tokens are new; a request has its own process. */
  predicate Enabled(s: State, a: Action) {
    match a
    case Tick(_) => true
    case Login(p, d, h) => p !in s.procs && SessionOf(d) !in s.holder && h !in s.issuedFor
    case Refresh(p, _, _) => p !in s.procs
    case Logout(p, _) => p !in s.procs
    case Advance(p, _, h) => p in s.procs && (s.procs[p].Reload? ==> h !in s.issuedFor)
    case Fail(p) => p in s.procs
  }

  /** The request has taken a token, or is a login, and has not stored the next one yet. */
  predicate CarriesSession(pc: Pc) { pc.SetToken? || pc.RemoveFromIndex? || pc.Reload? }

  function Next(s: State, a: Action): State
    requires Enabled(s, a)
  {
    match a
    case Tick(n) => s.(now := s.now + n, redis := Purge(s.redis, s.now + n))
    case Login(p, d, h) =>
      s.(procs := s.procs[p := SetToken(h, d)],
         holder := s.holder[SessionOf(d) := InFlight(p)],
         issuedFor := s.issuedFor[h := SessionOf(d)])
    case Refresh(p, h, tenant) => Consume(s, p, TokenKey(tenant, h))
    case Logout(p, k) => s.(procs := s.procs[p := ReadIndex(k)])
    case Advance(p, active, h) => Run(s, p, active, h)
    case Fail(p) => Interrupted(s, p)
  }

  /** The atomic read-and-delete that starts a refresh; a token stored for another tenant is spent and refused. */
  function Consume(s: State, p: Pid, k: TokenKey): State {
    match Get(s.redis, k)
    case None => s
    case Some(d) =>
      if d.tenantId != k.tenant then s.(redis := Del(s.redis, k))
      else s.(redis := Del(s.redis, k),
              procs := s.procs[p := RemoveFromIndex(k.hash, d)],
              holder := s.holder[SessionOf(d) := InFlight(p)],
              accepted := s.accepted + [k.hash])
  }

  /** The next command of process p. */
  function Run(s: State, p: Pid, active: bool, newHash: Hash): State
    requires p in s.procs
  {
    match s.procs[p]
    case SetToken(h, d) =>
      s.(redis := Set(s.redis, TokenKey(d.tenantId, h), d, s.now),
         procs := s.procs[p := AddToIndex(h, d)],
         holder := s.holder[SessionOf(d) := InStore(h, p)])
    case AddToIndex(h, d) =>
      s.(redis := SAdd(s.redis, SessionOf(d), h), procs := s.procs[p := ExpireIndex(h, d)])
    case ExpireIndex(h, d) =>
      s.(redis := Expire(s.redis, SessionOf(d), s.now), procs := s.procs - {p}, delivered := s.delivered + {h})
    case RemoveFromIndex(h, d) =>
      s.(redis := SRem(s.redis, SessionOf(d), h), procs := s.procs[p := Reload(d)])
    case Reload(d) =>
      if active then
        s.(procs := s.procs[p := SetToken(newHash, d)], issuedFor := s.issuedFor[newHash := SessionOf(d)])
      else
        s.(procs := s.procs - {p}, holder := s.holder[SessionOf(d) := Gone])
    case ReadIndex(k) =>
      if SMembers(s.redis, k) == {} then s.(procs := s.procs - {p})
      else s.(procs := s.procs[p := DeleteKeys(k, SMembers(s.redis, k))])
    case DeleteKeys(k, hashes) =>
      s.(redis := DelSession(s.redis, k, hashes), procs := s.procs - {p},
         orphaned := s.orphaned + (SMembers(s.redis, k) - hashes))
  }

  /** A request that fails: a session it carried has no holder, a save it was in stays half done. */
  function Interrupted(s: State, p: Pid): State
    requires p in s.procs
  {
    var pc := s.procs[p];
    var t := s.(procs := s.procs - {p});
    if CarriesSession(pc) then t.(holder := s.holder[SessionOf(pc.data) := Gone])
    else if pc.AddToIndex? || pc.ExpireIndex? then t.(abandoned := s.abandoned + {pc.hash})
    else t
  }

  predicate Possible(s: State, run: seq<Action>)
    decreases |run|
  {
    run == [] || (Enabled(s, run[0]) && Possible(Next(s, run[0]), run[1..]))
  }

  function After(s: State, run: seq<Action>): State
    requires Possible(s, run)
    decreases |run|
  {
    if run == [] then s else After(Next(s, run[0]), run[1..])
  }

  // ------------------------------------------------------------------ the invariant of rotation

  predicate StoredRight(s: State, k: TokenKey)
    requires k in s.redis.tokens
  {
    var d := s.redis.tokens[k].data;
    && d.tenantId == k.tenant
    && k.hash in s.issuedFor && s.issuedFor[k.hash] == SessionOf(d)
    && SessionOf(d) in s.holder && s.holder[SessionOf(d)].InStore? && s.holder[SessionOf(d)].hash == k.hash
    && k.hash !in s.accepted
  }

  predicate ProcessRight(s: State, p: Pid)
    requires p in s.procs
  {
    var pc := s.procs[p];
    && (CarriesSession(pc) ==> SessionOf(pc.data) in s.holder && s.holder[SessionOf(pc.data)] == InFlight(p))
    && (pc.SetToken? ==> pc.hash in s.issuedFor && s.issuedFor[pc.hash] == SessionOf(pc.data) && pc.hash !in s.accepted)
  }

  predicate Distinct(xs: seq<Hash>) { forall i, j | 0 <= i < j < |xs| :: xs[i] != xs[j] }

  ghost predicate Rotating(s: State) {
    && (forall k | k in s.redis.tokens :: StoredRight(s, k))
    && (forall p | p in s.procs :: ProcessRight(s, p))
    && (forall i | 0 <= i < |s.accepted| :: s.accepted[i] in s.issuedFor)
    && Distinct(s.accepted)
  }

  lemma ConsumeKeepsRotating(s: State, p: Pid, k: TokenKey)
    requires Rotating(s) && p !in s.procs
    ensures Rotating(Consume(s, p, k))
  {
    var t := Consume(s, p, k);
    if k in s.redis.tokens {
      assert StoredRight(s, k);
      forall l | l in t.redis.tokens ensures StoredRight(t, l) { assert StoredRight(s, l); }
      forall q | q in t.procs ensures ProcessRight(t, q) {
        if q != p { assert ProcessRight(s, q); }
      }
    }
  }

  lemma RunKeepsTokens(s: State, p: Pid, active: bool, newHash: Hash, l: TokenKey)
    requires Rotating(s) && p in s.procs && (s.procs[p].Reload? ==> newHash !in s.issuedFor)
    requires l in Run(s, p, active, newHash).redis.tokens
    ensures StoredRight(Run(s, p, active, newHash), l)
  {
    hide Rotating, Distinct, Purge, SAdd, SRem, Expire;
    assert ProcessRight(s, p) by { RotatingParts(s); }
    assert l in s.redis.tokens ==> StoredRight(s, l) by { RotatingParts(s); }
  }

  lemma RunKeepsProcesses(s: State, p: Pid, active: bool, newHash: Hash, q: Pid)
    requires Rotating(s) && p in s.procs && (s.procs[p].Reload? ==> newHash !in s.issuedFor)
    requires q in Run(s, p, active, newHash).procs
    ensures ProcessRight(Run(s, p, active, newHash), q)
  {
    hide Rotating, Distinct, Purge, SAdd, SRem, Expire;
    assert ProcessRight(s, p) && ProcessRight(s, q) by { RotatingParts(s); }
    assert forall i | 0 <= i < |s.accepted| :: s.accepted[i] in s.issuedFor by { RotatingParts(s); }
  }

  lemma RotatingParts(s: State)
    requires Rotating(s)
    ensures forall k | k in s.redis.tokens :: StoredRight(s, k)
    ensures forall p | p in s.procs :: ProcessRight(s, p)
    ensures forall i | 0 <= i < |s.accepted| :: s.accepted[i] in s.issuedFor
  {
  }

  lemma RunKeepsRotating(s: State, p: Pid, active: bool, newHash: Hash)
    requires Rotating(s) && p in s.procs && (s.procs[p].Reload? ==> newHash !in s.issuedFor)
    ensures Rotating(Run(s, p, active, newHash))
  {
    hide StoredRight, ProcessRight;
    var t := Run(s, p, active, newHash);
    forall l | l in t.redis.tokens ensures StoredRight(t, l) { RunKeepsTokens(s, p, active, newHash, l); }
    forall q | q in t.procs ensures ProcessRight(t, q) { RunKeepsProcesses(s, p, active, newHash, q); }
  }

  lemma InterruptedKeepsRotating(s: State, p: Pid)
    requires Rotating(s) && p in s.procs
    ensures Rotating(Interrupted(s, p))
  {
    var t := Interrupted(s, p);
    assert ProcessRight(s, p);
    forall l | l in t.redis.tokens ensures StoredRight(t, l) { assert StoredRight(s, l); }
    forall q | q in t.procs ensures ProcessRight(t, q) { assert ProcessRight(s, q); }
  }

  lemma NextKeepsRotating(s: State, a: Action)
    requires Rotating(s) && Enabled(s, a)
    ensures Rotating(Next(s, a))
  {
    hide Consume, Run, Interrupted;
    match a
    case Refresh(p, h, tenant) => ConsumeKeepsRotating(s, p, TokenKey(tenant, h));
    case Advance(p, active, h) => RunKeepsRotating(s, p, active, h);
    case Fail(p) => InterruptedKeepsRotating(s, p);
    case _ =>
      var t := Next(s, a);
      forall l | l in t.redis.tokens ensures StoredRight(t, l) { assert StoredRight(s, l); }
      forall q | q in t.procs ensures ProcessRight(t, q) {
        if q in s.procs { assert ProcessRight(s, q); }
      }
  }

  lemma {:induction false} AfterKeepsRotating(s: State, run: seq<Action>)
    requires Rotating(s) && Possible(s, run)
    ensures Rotating(After(s, run))
    decreases |run|
  {
    if run != [] {
      NextKeepsRotating(s, run[0]);
      AfterKeepsRotating(Next(s, run[0]), run[1..]);
    }
  }

  // ------------------------------------------------------------------ one right per session, one use per token

  function TokensOf(s: State, k: SessionKey): set<TokenKey> { TokensUnder(s.redis, k) }

  function CarriersOf(s: State, k: SessionKey): set<Pid> {
    set p | p in s.procs && CarriesSession(s.procs[p]) && SessionOf(s.procs[p].data) == k
  }

  lemma AtMostOne<T>(xs: set<T>)
    requires forall x, y | x in xs && y in xs :: x == y
    ensures |xs| <= 1
  {
    if xs != {} {
      var x :| x in xs;
      assert xs == {x};
    }
  }

  lemma RotatingHasOneHolder(s: State, k: SessionKey)
    requires Rotating(s)
    ensures |TokensOf(s, k)| + |CarriersOf(s, k)| <= 1
  {
    var tokens, carriers := TokensOf(s, k), CarriersOf(s, k);
    forall t, u | t in tokens && u in tokens ensures t == u {
      assert StoredRight(s, t) && StoredRight(s, u);
    }
    forall p, q | p in carriers && q in carriers ensures p == q {
      assert ProcessRight(s, p) && ProcessRight(s, q);
    }
    AtMostOne(tokens);
    AtMostOne(carriers);
    assert tokens != {} ==> k in s.holder && s.holder[k].InStore? by {
      if t :| t in tokens { assert StoredRight(s, t); }
    }
    assert carriers != {} ==> k in s.holder && s.holder[k].InFlight? by {
      if p :| p in carriers { assert ProcessRight(s, p); }
    }
  }

  /**
   Whatever the interleaving, clients and failures: a session has at most one of a stored token and
   a request carrying it, every accepted token was issued, and no token is accepted twice.
   */
  lemma OneUsePerToken(run: seq<Action>, k: SessionKey)
    requires Possible(Initial(), run)
    ensures var s := After(Initial(), run);
      && |TokensOf(s, k)| + |CarriersOf(s, k)| <= 1
      && Distinct(s.accepted)
      && forall i | 0 <= i < |s.accepted| :: s.accepted[i] in s.issuedFor
  {
    AfterKeepsRotating(Initial(), run);
    RotatingHasOneHolder(After(Initial(), run), k);
  }

  /** The branch that spends a token on behalf of another tenant is never taken: a key names its own tenant. */
  lemma NoCrossTenantBranch(run: seq<Action>, k: TokenKey)
    requires Possible(Initial(), run)
    ensures var s := After(Initial(), run);
      Get(s.redis, k).Some? ==> Get(s.redis, k).value.tenantId == k.tenant
  {
    AfterKeepsRotating(Initial(), run);
    if k in After(Initial(), run).redis.tokens {
      assert StoredRight(After(Initial(), run), k);
    }
  }

  // ------------------------------------------------------------------ a dead session stays dead

  /** No stored token and nobody about to store one; the session id is taken. */
  predicate Dead(s: State, k: SessionKey) {
    k in s.holder && TokensOf(s, k) == {} && CarriersOf(s, k) == {}
  }

  /** How often tokens of a session were accepted. */
  function AcceptedOf(s: State, k: SessionKey): nat { CountFor(s.accepted, s.issuedFor, k) }

  function CountFor(hs: seq<Hash>, issuedFor: map<Hash, SessionKey>, k: SessionKey): nat {
    if hs == [] then 0
    else CountFor(hs[..|hs| - 1], issuedFor, k) + if hs[|hs| - 1] in issuedFor &&
      issuedFor[hs[|hs| - 1]] == k then 1 else 0
  }

  lemma {:induction false} CountForIssue(hs: seq<Hash>, issuedFor: map<Hash, SessionKey>, h: Hash,
      j: SessionKey, k: SessionKey)
    requires h !in issuedFor && forall i | 0 <= i < |hs| :: hs[i] in issuedFor
    ensures CountFor(hs, issuedFor[h := j], k) == CountFor(hs, issuedFor, k)
  {
    if hs != [] {
      CountForIssue(hs[..|hs| - 1], issuedFor, h, j, k);
    }
  }

  /** Accepting a token is the only step that counts, and it counts for the token's session. */
  lemma AcceptedOfNext(s: State, a: Action, k: SessionKey)
    requires Rotating(s) && Enabled(s, a)
    ensures AcceptedOf(Next(s, a), k) == AcceptedOf(s, k) +
      if a.Refresh? && TokenKey(a.tenant, a.hash) in TokensOf(s, k) then 1 else 0
  {
    var t := Next(s, a);
    match a
    case Login(p, d, h) => CountForIssue(s.accepted, s.issuedFor, h, SessionOf(d), k);
    case Advance(p, active, h) =>
      if s.procs[p].Reload? { CountForIssue(s.accepted, s.issuedFor, h, SessionOf(s.procs[p].data), k); }
    case Refresh(p, h, tenant) =>
      if TokenKey(tenant, h) in s.redis.tokens {
        assert StoredRight(s, TokenKey(tenant, h));
        assert t.accepted[..|t.accepted| - 1] == s.accepted;
      }
    case _ =>
  }

  lemma CarriersNext(s: State, a: Action, k: SessionKey)
    requires Enabled(s, a)
    ensures CarriersOf(Next(s, a), k) <= CarriersOf(s, k) +
      if (a.Refresh? && TokenKey(a.tenant, a.hash) in TokensOf(s, k)) ||
        (a.Login? && SessionOf(a.data) == k) then {a.pid} else {}
  {
  }

  lemma TokensNext(s: State, a: Action, k: SessionKey)
    requires Enabled(s, a)
    ensures forall x | x in TokensOf(Next(s, a), k) && x !in TokensOf(s, k) :: a.Advance? && a.pid in CarriersOf(s, k)
  {
  }

  /** A session with no carrier gets one only by an accepted refresh, and gets no new token. */
  lemma NoCarrierNext(s: State, a: Action, k: SessionKey)
    requires Rotating(s) && Enabled(s, a) && k in s.holder && CarriersOf(s, k) == {}
    requires AcceptedOf(Next(s, a), k) == AcceptedOf(s, k)
    ensures k in Next(s, a).holder && CarriersOf(Next(s, a), k) == {} && TokensOf(Next(s, a), k) <= TokensOf(s, k)
  {
    AcceptedOfNext(s, a, k);
    CarriersNext(s, a, k);
    TokensNext(s, a, k);
    HoldersStay(s, a, k);
    hide AcceptedOf, Next, Rotating, TokensOf;
  }

  lemma HoldersStay(s: State, a: Action, k: SessionKey)
    requires Enabled(s, a) && k in s.holder
    ensures k in Next(s, a).holder
  {
  }

  lemma {:induction false} NoCarrierAfter(s: State, run: seq<Action>, k: SessionKey)
    requires Rotating(s) && Possible(s, run) && k in s.holder && CarriersOf(s, k) == {}
    requires AcceptedOf(After(s, run), k) <= AcceptedOf(s, k)
    ensures k in After(s, run).holder && CarriersOf(After(s, run), k) == {} &&
      TokensOf(After(s, run), k) <= TokensOf(s, k)
    decreases |run|
  {
    if run != [] {
      var t := Next(s, run[0]);
      NextKeepsRotating(s, run[0]);
      AcceptedOfNext(s, run[0], k);
      AcceptedOfGrows(t, run[1..], k);
      NoCarrierNext(s, run[0], k);
      NoCarrierAfter(t, run[1..], k);
    }
  }

  lemma {:induction false} AcceptedOfGrows(s: State, run: seq<Action>, k: SessionKey)
    requires Rotating(s) && Possible(s, run)
    ensures AcceptedOf(s, k) <= AcceptedOf(After(s, run), k)
    decreases |run|
  {
    if run != [] {
      NextKeepsRotating(s, run[0]);
      AcceptedOfNext(s, run[0], k);
      AcceptedOfGrows(Next(s, run[0]), run[1..], k);
    }
  }

  /** From a dead session on, no run accepts a token of it, and it stays dead. */
  lemma {:induction false} DeadForever(s: State, run: seq<Action>, k: SessionKey)
    requires Rotating(s) && Possible(s, run) && Dead(s, k)
    ensures Dead(After(s, run), k) && AcceptedOf(After(s, run), k) == AcceptedOf(s, k)
    decreases |run|
  {
    if run != [] {
      NextKeepsRotating(s, run[0]);
      AcceptedOfNext(s, run[0], k);
      NoCarrierNext(s, run[0], k);
      DeadForever(Next(s, run[0]), run[1..], k);
    }
  }

  // ------------------------------------------ the service's own methods are undisturbed requests

  /** Three commands in a row are the store's `Save`, and only then is the token handed out. */
  lemma UndisturbedSave(s: State, p: Pid, h: Hash, d: Stored)
    requires p in s.procs && s.procs[p] == SetToken(h, d) && h !in s.delivered
    ensures var a := Run(s, p, true, "");
      && a.procs[p] == AddToIndex(h, d) && h !in a.delivered
      && var b := Run(a, p, true, "");
      && b.procs[p] == ExpireIndex(h, d) && h !in b.delivered
      && var c := Run(b, p, true, "");
      && c.redis == Saved(s.redis, h, d, s.now) && c.procs == s.procs - {p} && c.delivered == s.delivered + {h}
  {
    hide Set, SAdd, Expire;
    assert s.procs[p := AddToIndex(h, d)][p := ExpireIndex(h, d)] - {p} == s.procs - {p};
  }

  /** A refresh alone: the token and its listing go, and an active user goes on to a save, another gets nothing. */
  lemma UndisturbedRefresh(s: State, p: Pid, k: TokenKey, active: bool, newHash: Hash)
    requires p !in s.procs && k in s.redis.tokens && s.redis.tokens[k].data.tenantId == k.tenant
    ensures var d := s.redis.tokens[k].data;
      && var a := Next(s, Refresh(p, k.hash, k.tenant));
      && a.procs == s.procs[p := RemoveFromIndex(k.hash, d)] && a.accepted == s.accepted + [k.hash]
      && var b := Run(a, p, true, "");
      && b.procs == s.procs[p := Reload(d)] && b.redis == SRem(Del(s.redis, k), SessionOf(d), k.hash)
      && var c := Run(b, p, active, newHash);
      && c.redis == b.redis
      && c.procs == if active then s.procs[p := SetToken(newHash, d)] else s.procs
  {
    hide SRem, Del;
    var d := s.redis.tokens[k].data;
    assert s.procs[p := RemoveFromIndex(k.hash, d)][p := Reload(d)] == s.procs[p := Reload(d)];
    assert s.procs[p := Reload(d)][p := SetToken(newHash, d)] == s.procs[p := SetToken(newHash, d)];
    assert s.procs[p := Reload(d)] - {p} == s.procs;
  }

  /** A logout alone: nothing for an empty index; otherwise one DEL of what it lists. */
  lemma UndisturbedLogout(s: State, p: Pid, k: SessionKey)
    requires p !in s.procs
    ensures var a := Next(s, Logout(p, k));
      && a.procs == s.procs[p := ReadIndex(k)] && a.redis == s.redis
      && var b := Run(a, p, true, "");
      && b.redis == s.redis
      && (SMembers(s.redis, k) == {} ==> b.procs == s.procs)
      && (SMembers(s.redis, k) != {} ==>
            && b.procs == s.procs[p := DeleteKeys(k, SMembers(s.redis, k))]
            && Run(b, p, true, "").redis == DelSession(s.redis, k, SMembers(s.redis, k))
            && Run(b, p, true, "").procs == s.procs)
  {
    hide SMembers, DelSession;
    assert s.procs[p := ReadIndex(k)] - {p} == s.procs;
    assert s.procs[p := ReadIndex(k)][p := DeleteKeys(k, SMembers(s.redis, k))] - {p} == s.procs;
    assert s.procs[p := ReadIndex(k)][p := DeleteKeys(k, SMembers(s.redis, k))] ==
      s.procs[p := DeleteKeys(k, SMembers(s.redis, k))];
  }
}
