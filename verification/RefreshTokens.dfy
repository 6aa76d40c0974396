/**
 The refresh-token store over Redis, its key names, and login, refresh and logout as they run when
 nothing else runs between their commands.  A token stands for its SHA-256 digest throughout.
 */
module RefreshTokens {
  import opened Numbers
  import opened Wrappers

  /** Seven days, in seconds: the life of a refresh token and of a session's index. */
  const REFRESH_TTL: nat := 604800

  lemma SevenDays()
    ensures REFRESH_TTL == 7 * 24 * 60 * 60
  {
  }

  type Hash = string

  datatype Stored = Stored(userId: string, tenantId: string, sessionId: string)

  datatype TokenKey = TokenKey(tenant: string, hash: Hash)

  datatype SessionKey = SessionKey(tenant: string, session: string)

  function SessionOf(d: Stored): SessionKey { SessionKey(d.tenantId, d.sessionId) }

  // ------------------------------------------------------------------ key names

  predicate NoColon(s: string) { ':' !in s }

  function TokenKeyName(k: TokenKey): string { "rt:" + k.tenant + ":" + k.hash }

  function SessionKeyName(k: SessionKey): string { "session:" + k.tenant + ":" + k.session + ":refresh_tokens" }

  lemma KeyNamesText()
    ensures TokenKeyName(TokenKey("acme", "9f")) == "rt:acme:9f"
    ensures SessionKeyName(SessionKey("acme", "s1")) == "session:acme:s1:refresh_tokens"
  {
  }

  /** Digests and session ids hold no colon, so two keys never share a name, whatever the tenant id is. */
  lemma KeyNamesDistinct(k: TokenKey, l: TokenKey, m: SessionKey, n: SessionKey)
    requires NoColon(k.hash) && NoColon(l.hash) && NoColon(m.session) && NoColon(n.session)
    ensures TokenKeyName(k) == TokenKeyName(l) ==> k == l
    ensures SessionKeyName(m) == SessionKeyName(n) ==> m == n
    ensures TokenKeyName(k) != SessionKeyName(m)
  {
    if TokenKeyName(k) == TokenKeyName(l) {
      SplitAtLast(':', "rt:" + k.tenant, k.hash, "rt:" + l.tenant, l.hash);
      assert ("rt:" + k.tenant)[3..] == k.tenant && ("rt:" + l.tenant)[3..] == l.tenant;
    }
    if SessionKeyName(m) == SessionKeyName(n) {
      var a, b := "session:" + m.tenant + ":" + m.session, "session:" + n.tenant + ":" + n.session;
      assert SessionKeyName(m) == a + ":refresh_tokens" && SessionKeyName(n) == b + ":refresh_tokens";
      assert SessionKeyName(m)[..|a|] == a && SessionKeyName(n)[..|b|] == b;
      SplitAtLast(':', "session:" + m.tenant, m.session, "session:" + n.tenant, n.session);
      assert ("session:" + m.tenant)[8..] == m.tenant && ("session:" + n.tenant)[8..] == n.tenant;
    }
    assert TokenKeyName(k)[0] == 'r' && SessionKeyName(m)[0] == 's';
  }

  // ------------------------------------------------------------------ Redis commands

  datatype Entry = Entry(data: Stored, expiresAt: int)

  /** A session's set of digests; a set without an expiry stays until it is deleted or emptied. */
  datatype Index = Index(members: set<Hash>, expiresAt: Option<int>)

  datatype Redis = Redis(tokens: map<TokenKey, Entry>, sessions: map<SessionKey, Index>)

  function Set(r: Redis, k: TokenKey, d: Stored, now: int): Redis {
    r.(tokens := r.tokens[k := Entry(d, now + REFRESH_TTL)])
  }

  /** SADD keeps the expiry of a set that exists and makes a new set without one. */
  function SAdd(r: Redis, k: SessionKey, h: Hash): (s: Redis)
    ensures s.tokens == r.tokens
  {
    var members := if k in r.sessions then r.sessions[k].members else {};
    var expiresAt := if k in r.sessions then r.sessions[k].expiresAt else None;
    r.(sessions := r.sessions[k := Index(members + {h}, expiresAt)])
  }

  /** EXPIRE does nothing to a key that is not there. */
  function Expire(r: Redis, k: SessionKey, now: int): (s: Redis)
    ensures s.tokens == r.tokens
  {
    if k in r.sessions then r.(sessions := r.sessions[k := r.sessions[k].(expiresAt := Some(now + REFRESH_TTL))]) else r
  }

  /** SREM of the last member deletes the set. */
  function SRem(r: Redis, k: SessionKey, h: Hash): (s: Redis)
    ensures s.tokens == r.tokens
  {
    if k !in r.sessions then r
    else if r.sessions[k].members - {h} == {} then r.(sessions := r.sessions - {k})
    else r.(sessions := r.sessions[k := r.sessions[k].(members := r.sessions[k].members - {h})])
  }

  function SMembers(r: Redis, k: SessionKey): set<Hash> {
    if k in r.sessions then r.sessions[k].members else {}
  }

  function Get(r: Redis, k: TokenKey): Option<Stored> {
    if k in r.tokens then Some(r.tokens[k].data) else None
  }

  function Del(r: Redis, k: TokenKey): Redis { r.(tokens := r.tokens - {k}) }

  /** One DEL of a session's set and of the tokens with the given digests. */
  function DelSession(r: Redis, k: SessionKey, hashes: set<Hash>): Redis {
    Redis(map t | t in r.tokens && !(t.tenant == k.tenant && t.hash in hashes) :: r.tokens[t], r.sessions - {k})
  }

  /** What is left at a time: an entry is there strictly before its expiry. */
  function Purge(r: Redis, now: int): Redis {
    Redis(
      map t | t in r.tokens && now < r.tokens[t].expiresAt :: r.tokens[t],
      map k | k in r.sessions && (r.sessions[k].expiresAt == None || now < r.sessions[k].expiresAt.value) ::
        r.sessions[k])
  }

  // ------------------------------------------------------------------ the store and the service, undisturbed

  function Saved(r: Redis, h: Hash, d: Stored, now: int): Redis {
    Expire(SAdd(Set(r, TokenKey(d.tenantId, h), d, now), SessionOf(d), h), SessionOf(d), now)
  }

  /** The index lists the token and lasts at least as long. */
  predicate Covered(r: Redis, k: TokenKey)
    requires k in r.tokens
  {
    var s := SessionOf(r.tokens[k].data);
    && s in r.sessions && k.hash in r.sessions[s].members
    && (r.sessions[s].expiresAt == None || r.tokens[k].expiresAt <= r.sessions[s].expiresAt.value)
  }

  function TokensUnder(r: Redis, k: SessionKey): set<TokenKey> {
    set t | t in r.tokens && SessionOf(r.tokens[t].data) == k
  }

  /** Nothing is stored under the session. */
  predicate Unused(r: Redis, k: SessionKey) { k !in r.sessions && TokensUnder(r, k) == {} }

  class RefreshTokenStore {
    var redis: Redis
    var now: int

    constructor ()
      ensures redis == Redis(map[], map[]) && now == 0
    {
      redis, now := Redis(map[], map[]), 0;
    }

    method Save(h: Hash, d: Stored)
      modifies this
      ensures now == old(now) && redis == Saved(old(redis), h, d, now)
      ensures TokenKey(d.tenantId, h) in redis.tokens && Covered(redis, TokenKey(d.tenantId, h))
      ensures redis.tokens == old(redis.tokens)[TokenKey(d.tenantId, h) := Entry(d, now + REFRESH_TTL)]
      ensures redis.sessions - {SessionOf(d)} == old(redis.sessions) - {SessionOf(d)}
      ensures SMembers(redis, SessionOf(d)) == SMembers(old(redis), SessionOf(d)) + {h}
      ensures SessionOf(d) in redis.sessions && redis.sessions[SessionOf(d)].expiresAt == Some(now + REFRESH_TTL)
    {
      redis := Set(redis, TokenKey(d.tenantId, h), d, now);
      redis := SAdd(redis, SessionOf(d), h);
      redis := Expire(redis, SessionOf(d), now);
    }

    /**
     A token is accepted exactly when it is stored for the tenant that presents it, and whatever
     is returned, it is no longer stored.
     */
    method ConsumeAndValidate(h: Hash, tenantId: string) returns (r: Option<Stored>)
      modifies this
      ensures now == old(now)
      ensures r.Some? <==>
        var k := TokenKey(tenantId, h);
        k in old(redis.tokens) && old(redis.tokens)[k].data.tenantId == tenantId
      ensures r.Some? ==> r.value == old(redis.tokens)[TokenKey(tenantId, h)].data
      ensures redis.tokens == old(redis.tokens) - {TokenKey(tenantId, h)}
      ensures r.None? ==> redis.sessions == old(redis.sessions)
      ensures r.Some? ==>
        && SMembers(redis, SessionOf(r.value)) == SMembers(old(redis), SessionOf(r.value)) - {h}
        && redis.sessions - {SessionOf(r.value)} == old(redis.sessions) - {SessionOf(r.value)}
        && (SessionOf(r.value) in redis.sessions ==>
              && redis.sessions[SessionOf(r.value)].members != {}
              && SessionOf(r.value) in old(redis.sessions)
              && redis.sessions[SessionOf(r.value)].expiresAt == old(redis.sessions)[SessionOf(r.value)].expiresAt)
    {
      var k := TokenKey(tenantId, h);
      var found := Get(redis, k);
      if found.None? { return None; }
      redis := Del(redis, k);
      if found.value.tenantId != tenantId { return None; }
      redis := SRem(redis, SessionKey(tenantId, found.value.sessionId), h);
      return found;
    }

    /** Every token the index lists is gone, and so is the index; nothing else is touched. */
    method RevokeAllForSession(tenantId: string, sessionId: string)
      modifies this
      ensures now == old(now)
      ensures var k := SessionKey(tenantId, sessionId);
        && redis.sessions == (if SMembers(old(redis), k) == {} then old(redis.sessions) else old(redis.sessions) - {k})
        && (forall t :: t in redis.tokens <==>
          t in old(redis.tokens) && !(t.tenant == tenantId && t.hash in SMembers(old(redis), k)))
        && (forall t | t in redis.tokens :: redis.tokens[t] == old(redis.tokens)[t])
    {
      var k := SessionKey(tenantId, sessionId);
      var hashes := SMembers(redis, k);
      if hashes != {} {
        redis := DelSession(redis, k, hashes);
      }
    }
  }

  /** The index lists no token of another session. */
  predicate ListsOwn(r: Redis, k: SessionKey) {
    forall t | t in r.tokens && t.tenant == k.tenant && t.hash in SMembers(r, k) :: SessionOf(r.tokens[t].data) == k
  }

  datatype AuthError = InvalidToken | AccountDisabled

  class AuthService {
    const store: RefreshTokenStore

    constructor (store: RefreshTokenStore)
      ensures this.store == store
    {
      this.store := store;
    }

    /**
     One token more, of the user, tenant and session of the login, covered by the index.  For a session
     id nothing was stored under it is the session's only token and the only one the index lists.
     */
    method Login(userId: string, tenantId: string, newSession: string, newToken: Hash) returns (token: Hash)
      modifies store
      ensures token == newToken && store.now == old(store.now)
      ensures var k := TokenKey(tenantId, newToken);
        && store.redis.tokens ==
          old(store.redis.tokens)[k := Entry(Stored(userId, tenantId, newSession), store.now + REFRESH_TTL)]
        && Covered(store.redis, k)
      ensures store.redis.sessions - {SessionKey(tenantId, newSession)} ==
        old(store.redis.sessions) - {SessionKey(tenantId, newSession)}
      ensures Unused(old(store.redis), SessionKey(tenantId, newSession)) ==>
        && SMembers(store.redis, SessionKey(tenantId, newSession)) == {newToken}
        && TokensUnder(store.redis, SessionKey(tenantId, newSession)) == {TokenKey(tenantId, newToken)}
    {
      store.Save(newToken, Stored(userId, tenantId, newSession));
      return newToken;
    }

    /**
     Rotation: the presented token is spent in every case; a new one of the same user, tenant and
     session takes its place exactly when the old one was stored and the user is active.
     */
    method Refresh(h: Hash, tenantId: string, userActive: bool, newToken: Hash) returns (r: Result<Hash, AuthError>)
      modifies store
      ensures var k := TokenKey(tenantId, h);
        var accepted := k in old(store.redis.tokens) && old(store.redis.tokens)[k].data.tenantId == tenantId;
        && (r == Failure(InvalidToken) <==> !accepted)
        && (r == Failure(AccountDisabled) <==> accepted && !userActive)
        && (r.Success? ==>
              var d := old(store.redis.tokens)[k].data;
              && r.value == newToken
              && store.redis.tokens ==
                (old(store.redis.tokens) - {k})[TokenKey(tenantId, newToken) := Entry(d, store.now + REFRESH_TTL)]
              && Covered(store.redis, TokenKey(tenantId, newToken))
              && SMembers(store.redis, SessionOf(d)) == SMembers(old(store.redis), SessionOf(d)) - {h} + {newToken}
              && store.redis.sessions[SessionOf(d)].expiresAt == Some(store.now + REFRESH_TTL))
        && (r.Failure? ==> store.redis.tokens == old(store.redis.tokens) - {k})
        && (r == Failure(InvalidToken) ==> store.redis.sessions == old(store.redis.sessions))
        && (accepted ==>
              var j := SessionOf(old(store.redis.tokens)[k].data);
              && store.redis.sessions - {j} == old(store.redis.sessions) - {j}
              && (r.Failure? ==> SMembers(store.redis, j) == SMembers(old(store.redis), j) - {h}))
      ensures store.now == old(store.now)
    {
      var stored := store.ConsumeAndValidate(h, tenantId);
      if stored.None? { return Failure(InvalidToken); }
      if !userActive { return Failure(AccountDisabled); }
      store.Save(newToken, stored.value);
      return Success(newToken);
    }

    /**
     Exactly the listed tokens and the index go.  When the index covers all tokens of the session none is
     left, and when it lists no others those of all other sessions stay.
     */
    method Logout(tenantId: string, sessionId: string)
      modifies store
      ensures store.now == old(store.now)
      ensures var k := SessionKey(tenantId, sessionId);
        && (forall t :: t in store.redis.tokens <==>
          t in old(store.redis.tokens) && !(t.tenant == tenantId && t.hash in SMembers(old(store.redis), k)))
        && store.redis.sessions - {k} == old(store.redis.sessions) - {k} && SMembers(store.redis, k) == {}
      ensures ListsOwn(old(store.redis), SessionKey(tenantId, sessionId)) ==>
        forall t | t in old(store.redis.tokens) &&
          SessionOf(old(store.redis.tokens)[t].data) != SessionKey(tenantId, sessionId) :: t in store.redis.tokens
      ensures forall t | t in store.redis.tokens ::
        t in old(store.redis.tokens) && store.redis.tokens[t] == old(store.redis.tokens)[t]
      ensures (forall t | t in old(store.redis.tokens) &&
        SessionOf(old(store.redis.tokens)[t].data) == SessionKey(tenantId, sessionId)
                 :: t.tenant == tenantId && Covered(old(store.redis), t))
        ==> forall t | t in store.redis.tokens ::
          SessionOf(store.redis.tokens[t].data) != SessionKey(tenantId, sessionId)
    {
      store.RevokeAllForSession(tenantId, sessionId);
    }
  }
}
