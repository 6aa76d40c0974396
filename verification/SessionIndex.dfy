/**
 The session index against the stored tokens, when clients present only tokens that reached them or
 that were never issued.
 */
module SessionIndex {
  import opened Wrappers
  import opened RefreshTokens
  import opened RotationProtocol

  /** A client cannot present an issued token before it was answered with it. */
  predicate Honest(s: State, a: Action) {
    a.Refresh? ==> a.hash in s.delivered || a.hash !in s.issuedFor
  }

  predicate HonestRun(s: State, run: seq<Action>)
    requires Possible(s, run)
    decreases |run|
  {
    run == [] || (Honest(s, run[0]) && HonestRun(Next(s, run[0]), run[1..]))
  }

  // ------------------------------------------------------------------ the invariant of the index

  /** The request is between storing token h of session k and answering with it. */
  predicate Saving(pc: Pc, h: Hash, k: SessionKey) {
    (pc.AddToIndex? || pc.ExpireIndex?) && pc.hash == h && SessionOf(pc.data) == k
  }

  predicate HolderOk(s: State, k: SessionKey)
    requires k in s.holder
  {
    match s.holder[k]
    case InFlight(p) => p in s.procs && CarriesSession(s.procs[p]) && SessionOf(s.procs[p].data) == k
    case InStore(h, p) =>
      && h in s.issuedFor && s.issuedFor[h] == k
      && (h in s.delivered || h in s.abandoned || (p in s.procs && Saving(s.procs[p], h, k)))
    case Gone => true
  }

  predicate ProcOk(s: State, p: Pid)
    requires p in s.procs
  {
    match s.procs[p]
    case SetToken(h, d) => SessionOf(d) !in s.redis.sessions && Unseen(s, h) && h !in s.orphaned
    case AddToIndex(h, d) =>
      && SessionOf(d) in s.holder && s.holder[SessionOf(d)] == InStore(h, p)
      && SessionOf(d) !in s.redis.sessions && Unseen(s, h) && h !in s.orphaned
    case ExpireIndex(h, d) =>
      && SessionOf(d) in s.holder && s.holder[SessionOf(d)] == InStore(h, p)
      && (SessionOf(d) in s.redis.sessions ==> s.redis.sessions[SessionOf(d)].expiresAt == None) && Unseen(s, h)
    case RemoveFromIndex(h, d) =>
      SessionOf(d) in s.redis.sessions ==> s.redis.sessions[SessionOf(d)].members == {h}
    case Reload(d) => SessionOf(d) !in s.redis.sessions
    case ReadIndex(_) => true
    case DeleteKeys(k, hashes) => forall h | h in hashes :: h in s.issuedFor && s.issuedFor[h] == k
  }

  /** No client was answered with the token, and its save has not failed. */
  predicate Unseen(s: State, h: Hash) { h !in s.delivered && h !in s.abandoned }

  predicate IndexOk(s: State, k: SessionKey)
    requires k in s.redis.sessions
  {
    && k in s.holder
    && (forall h | h in s.redis.sessions[k].members :: h in s.issuedFor && s.issuedFor[h] == k)
    && (s.holder[k].InStore? ==> s.redis.sessions[k].members == {s.holder[k].hash})
  }

  /** The index of the token's session exists exactly when no logout dropped it under the token. */
  predicate IndexFollows(s: State, t: TokenKey)
    requires t in s.redis.tokens
  {
    var k := SessionOf(s.redis.tokens[t].data);
    && (k in s.redis.sessions <==> t.hash !in s.orphaned)
    && (k in s.redis.sessions ==>
          var e := s.redis.sessions[k].expiresAt;
          e == None || s.redis.tokens[t].expiresAt <= e.value)
  }

  /** Its saver has gone past SADD and did not fail. */
  predicate Settled(s: State, t: TokenKey)
    requires t in s.redis.tokens
  {
    var k := SessionOf(s.redis.tokens[t].data);
    && t.hash !in s.abandoned
    && k in s.holder && s.holder[k].InStore?
    && !(s.holder[k].saver in s.procs && s.procs[s.holder[k].saver].AddToIndex? &&
      s.procs[s.holder[k].saver].hash == t.hash)
  }

  predicate TokenOk(s: State, t: TokenKey)
    requires t in s.redis.tokens
  {
    && s.redis.tokens[t].expiresAt <= s.now + REFRESH_TTL
    && (Settled(s, t) ==> IndexFollows(s, t))
  }

  predicate NamesIssued(s: State) {
    s.delivered <= s.issuedFor.Keys && s.abandoned <= s.issuedFor.Keys && s.orphaned <= s.issuedFor.Keys
  }

  ghost predicate ProcessesOk(s: State) {
    && NamesIssued(s)
    && (forall k | k in s.holder :: HolderOk(s, k))
    && (forall p | p in s.procs :: ProcOk(s, p))
  }

  ghost predicate IndexesOk(s: State) {
    && (forall k | k in s.redis.sessions :: IndexOk(s, k))
    && (forall t | t in s.redis.tokens :: TokenOk(s, t))
  }

  ghost predicate Indexing(s: State) { Rotating(s) && ProcessesOk(s) && IndexesOk(s) }

  // -------------------------------------------- one step and one session, process, index or token

  /** What the invariant says of one process and its session. */
  lemma OfProcess(s: State, p: Pid)
    requires Indexing(s) && p in s.procs
    ensures ProcOk(s, p) && ProcessRight(s, p) && NamesIssued(s)
    ensures var pc := s.procs[p];
      && (pc.ReadIndex? || pc.DeleteKeys? ==> pc.session in s.redis.sessions ==> IndexOk(s, pc.session))
      && (CarriesSession(pc) || pc.AddToIndex? || pc.ExpireIndex? ==>
            && SessionOf(pc.data) in s.holder && HolderOk(s, SessionOf(pc.data))
            && (SessionOf(pc.data) in s.redis.sessions ==> IndexOk(s, SessionOf(pc.data))))
  {
    RotatingParts(s);
    hide Rotating, StoredRight, TokenOk, HolderOk, IndexOk;
  }

  /** What it says of a session. */
  lemma OfSession(s: State, k: SessionKey)
    requires Indexing(s)
    ensures NamesIssued(s) && (k in s.holder ==> HolderOk(s, k)) && (k in s.redis.sessions ==> IndexOk(s, k))
  {
  }

  /** What it says of one stored token and its session. */
  lemma OfToken(s: State, l: TokenKey)
    requires Indexing(s) && l in s.redis.tokens
    ensures StoredRight(s, l) && TokenOk(s, l) && HolderOk(s, SessionOf(s.redis.tokens[l].data)) && NamesIssued(s)
    ensures var k := SessionOf(s.redis.tokens[l].data); k in s.redis.sessions ==> IndexOk(s, k)
  {
    RotatingParts(s);
    hide Rotating, ProcOk, TokenOk, HolderOk, IndexOk;
  }

  lemma RunKeepsIndex(s: State, p: Pid, active: bool, newHash: Hash, k: SessionKey)
    requires Indexing(s) && p in s.procs && (s.procs[p].Reload? ==> newHash !in s.issuedFor)
    requires k in Run(s, p, active, newHash).redis.sessions
    ensures IndexOk(Run(s, p, active, newHash), k)
  {
    hide Indexing, ProcessesOk, IndexesOk, Rotating, StoredRight, TokenOk, NamesIssued, ProcessRight;
    OfSession(s, k);
    OfProcess(s, p);
  }

  /** The commands of a save; the others are the rest of a refresh, or a logout. */
  predicate Saves(pc: Pc) { pc.SetToken? || pc.AddToIndex? || pc.ExpireIndex? }

  lemma SaveKeepsToken(s: State, p: Pid, active: bool, newHash: Hash, l: TokenKey)
    requires Indexing(s) && p in s.procs && Saves(s.procs[p])
    requires l in Run(s, p, active, newHash).redis.tokens
    ensures TokenOk(Run(s, p, active, newHash), l)
  {
    hide Indexing, ProcessesOk, IndexesOk, Rotating;
    OfProcess(s, p);
    if l in s.redis.tokens { OfToken(s, l); }
  }

  lemma RestKeepsToken(s: State, p: Pid, active: bool, newHash: Hash, l: TokenKey)
    requires Indexing(s) && p in s.procs && !Saves(s.procs[p]) && (s.procs[p].Reload? ==> newHash !in s.issuedFor)
    requires l in Run(s, p, active, newHash).redis.tokens
    ensures TokenOk(Run(s, p, active, newHash), l)
  {
    hide Indexing, ProcessesOk, IndexesOk, Rotating;
    OfProcess(s, p);
    if l in s.redis.tokens { OfToken(s, l); }
  }

  lemma RunKeepsToken(s: State, p: Pid, active: bool, newHash: Hash, l: TokenKey)
    requires Indexing(s) && p in s.procs && (s.procs[p].Reload? ==> newHash !in s.issuedFor)
    requires l in Run(s, p, active, newHash).redis.tokens
    ensures TokenOk(Run(s, p, active, newHash), l)
  {
    hide Run, Indexing, TokenOk;
    if Saves(s.procs[p]) {
      SaveKeepsToken(s, p, active, newHash, l);
    } else {
      RestKeepsToken(s, p, active, newHash, l);
    }
  }

  lemma SaveKeepsProcess(s: State, p: Pid, active: bool, newHash: Hash, q: Pid)
    requires Indexing(s) && p in s.procs && Saves(s.procs[p])
    requires q in Run(s, p, active, newHash).procs
    ensures ProcOk(Run(s, p, active, newHash), q)
  {
    hide Indexing, ProcessesOk, IndexesOk, Rotating, StoredRight, TokenOk;
    OfProcess(s, p);
    OfProcess(s, q);
  }

  lemma RestKeepsProcess(s: State, p: Pid, active: bool, newHash: Hash, q: Pid)
    requires Indexing(s) && p in s.procs && !Saves(s.procs[p]) && (s.procs[p].Reload? ==> newHash !in s.issuedFor)
    requires q in Run(s, p, active, newHash).procs
    ensures ProcOk(Run(s, p, active, newHash), q)
  {
    hide Indexing, ProcessesOk, IndexesOk, Rotating, StoredRight, TokenOk;
    OfProcess(s, p);
    OfProcess(s, q);
  }

  lemma RunKeepsProcess(s: State, p: Pid, active: bool, newHash: Hash, q: Pid)
    requires Indexing(s) && p in s.procs && (s.procs[p].Reload? ==> newHash !in s.issuedFor)
    requires q in Run(s, p, active, newHash).procs
    ensures ProcOk(Run(s, p, active, newHash), q)
  {
    hide Run, Indexing, ProcOk;
    if Saves(s.procs[p]) {
      SaveKeepsProcess(s, p, active, newHash, q);
    } else {
      RestKeepsProcess(s, p, active, newHash, q);
    }
  }

  lemma RunKeepsHolder(s: State, p: Pid, active: bool, newHash: Hash, k: SessionKey)
    requires Indexing(s) && p in s.procs && (s.procs[p].Reload? ==> newHash !in s.issuedFor)
    requires k in Run(s, p, active, newHash).holder
    ensures HolderOk(Run(s, p, active, newHash), k)
  {
    hide Indexing, ProcessesOk, IndexesOk, Rotating, StoredRight, TokenOk, NamesIssued, Purge, SAdd, SRem, Set,
      Expire, DelSession, ProcOk, IndexOk;
    OfProcess(s, p);
    OfSession(s, k);
  }

  // -------------------------------------------- the same for the steps that are no command of a request

  lemma OtherKeepsIndex(s: State, a: Action, k: SessionKey)
    requires Indexing(s) && Enabled(s, a) && Honest(s, a) && !a.Advance? && k in Next(s, a).redis.sessions
    ensures IndexOk(Next(s, a), k)
  {
    hide Indexing, ProcessesOk, IndexesOk, Rotating, Run, StoredRight, TokenOk, NamesIssued, ProcOk, ProcessRight;
    OfSession(s, k);
    if a.Fail? { OfProcess(s, a.pid); }
    if a.Refresh? && TokenKey(a.tenant, a.hash) in s.redis.tokens { OfToken(s, TokenKey(a.tenant, a.hash)); }
  }

  lemma OtherKeepsToken(s: State, a: Action, l: TokenKey)
    requires Indexing(s) && Enabled(s, a) && Honest(s, a) && !a.Advance? && l in Next(s, a).redis.tokens
    ensures TokenOk(Next(s, a), l)
  {
    hide Indexing, ProcessesOk, IndexesOk, Rotating, Run;
    if a.Fail? { OfProcess(s, a.pid); }
    if a.Refresh? && TokenKey(a.tenant, a.hash) in s.redis.tokens { OfToken(s, TokenKey(a.tenant, a.hash)); }
    if l in s.redis.tokens { OfToken(s, l); }
  }

  lemma OtherKeepsHolder(s: State, a: Action, k: SessionKey)
    requires Indexing(s) && Enabled(s, a) && Honest(s, a) && !a.Advance? && k in Next(s, a).holder
    ensures HolderOk(Next(s, a), k)
  {
    hide Indexing, ProcessesOk, IndexesOk, Rotating, Run, IndexOk;
    if a.Fail? { OfProcess(s, a.pid); }
    if a.Refresh? && TokenKey(a.tenant, a.hash) in s.redis.tokens { OfToken(s, TokenKey(a.tenant, a.hash)); }
    OfSession(s, k);
  }

  lemma OtherKeepsProcess(s: State, a: Action, q: Pid)
    requires Indexing(s) && Enabled(s, a) && Honest(s, a) && !a.Advance? && q in Next(s, a).procs
    ensures ProcOk(Next(s, a), q)
  {
    hide Indexing, ProcessesOk, IndexesOk, Rotating, Run;
    if a.Fail? { OfProcess(s, a.pid); }
    if a.Refresh? && TokenKey(a.tenant, a.hash) in s.redis.tokens { OfToken(s, TokenKey(a.tenant, a.hash)); }
    if a.Login? { OfSession(s, SessionOf(a.data)); }
    if q in s.procs { OfProcess(s, q); }
  }

  lemma NamesStayIssued(s: State, a: Action)
    requires Indexing(s) && Enabled(s, a)
    ensures NamesIssued(Next(s, a))
  {
    if a.Advance? || a.Fail? { OfProcess(s, a.pid); }
    hide Rotating, StoredRight, TokenOk;
  }

  lemma NextKeepsIndexing(s: State, a: Action)
    requires Indexing(s) && Enabled(s, a) && Honest(s, a)
    ensures Indexing(Next(s, a))
  {
    NextKeepsRotating(s, a);
    NamesStayIssued(s, a);
    hide Rotating, HolderOk, ProcOk, IndexOk, TokenOk, NamesIssued, Run, Consume, Interrupted, Honest;
    var t := Next(s, a);
    forall k | k in t.holder ensures HolderOk(t, k) {
      if a.Advance? { RunKeepsHolder(s, a.pid, a.userActive, a.hash, k); } else { OtherKeepsHolder(s, a, k); }
    }
    forall q | q in t.procs ensures ProcOk(t, q) {
      if a.Advance? { RunKeepsProcess(s, a.pid, a.userActive, a.hash, q); } else { OtherKeepsProcess(s, a, q); }
    }
    forall k | k in t.redis.sessions ensures IndexOk(t, k) {
      if a.Advance? { RunKeepsIndex(s, a.pid, a.userActive, a.hash, k); } else { OtherKeepsIndex(s, a, k); }
    }
    forall l | l in t.redis.tokens ensures TokenOk(t, l) {
      if a.Advance? { RunKeepsToken(s, a.pid, a.userActive, a.hash, l); } else { OtherKeepsToken(s, a, l); }
    }
  }

  lemma {:induction false} AfterKeepsIndexing(s: State, run: seq<Action>)
    requires Indexing(s) && Possible(s, run) && HonestRun(s, run)
    ensures Indexing(After(s, run))
    decreases |run|
  {
    hide Indexing;
    if run != [] {
      NextKeepsIndexing(s, run[0]);
      AfterKeepsIndexing(Next(s, run[0]), run[1..]);
    }
  }

  // ------------------------------------------------------------------ what the index covers

  /** No save of the token is between SET and SADD, and none failed. */
  predicate SaveDone(s: State, t: TokenKey) {
    && t.hash !in s.abandoned
    && forall p | p in s.procs :: !(s.procs[p].AddToIndex? && s.procs[p].hash == t.hash)
  }

  lemma SaveDoneIsCovered(s: State, t: TokenKey)
    requires Indexing(s) && t in s.redis.tokens && SaveDone(s, t)
    ensures Covered(s.redis, t) <==> t.hash !in s.orphaned
  {
    RotatingParts(s);
    assert StoredRight(s, t) && TokenOk(s, t);
    var k := SessionOf(s.redis.tokens[t].data);
    assert HolderOk(s, k);
    assert k in s.redis.sessions ==> IndexOk(s, k);
  }
}
