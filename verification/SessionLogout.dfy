/**
 What the session index covers over whole runs, what a logout leaves, and the race it loses.
 */
module SessionLogout {
  import opened Wrappers
  import opened RefreshTokens
  import opened RotationProtocol
  import opened SessionIndex

  // ------------------------------------------------------------------ a run and its states

  /** The state after the first n steps of a run from the start. */
  function At(run: seq<Action>, n: nat): State
    requires Possible(Initial(), run) && n <= |run|
  {
    PrefixPossible(Initial(), run, n);
    After(Initial(), run[..n])
  }

  lemma {:induction false} PrefixPossible(s: State, run: seq<Action>, n: nat)
    requires Possible(s, run) && n <= |run|
    ensures Possible(s, run[..n])
    ensures HonestRun(s, run) ==> HonestRun(s, run[..n])
    ensures n < |run| ==>
      && Enabled(After(s, run[..n]), run[n]) && Possible(s, run[..n + 1])
      && After(s, run[..n + 1]) == Next(After(s, run[..n]), run[n])
      && (HonestRun(s, run) ==> Honest(After(s, run[..n]), run[n]))
    decreases n
  {
    hide Next, Enabled, Honest;
    if n > 0 {
      assert run[..n][1..] == run[1..][..n - 1];
      PrefixPossible(Next(s, run[0]), run[1..], n - 1);
      if n < |run| { assert run[..n + 1][1..] == run[1..][..n]; }
    } else if run != [] {
      assert run[..1][1..] == [] && run[..0] == [];
    }
  }

  lemma AtNext(run: seq<Action>, n: nat)
    requires Possible(Initial(), run) && HonestRun(Initial(), run) && n <= |run|
    ensures Indexing(At(run, n)) && At(run, |run|) == After(Initial(), run) && At(run, 0) == Initial()
    ensures n < |run| ==>
      && Enabled(At(run, n), run[n]) && Honest(At(run, n), run[n])
      && At(run, n + 1) == Next(At(run, n), run[n])
  {
    hide Next, Enabled, Honest, Indexing, Possible, HonestRun;
    PrefixPossible(Initial(), run, n);
    StartsIndexing();
    AfterKeepsIndexing(Initial(), run[..n]);
    assert run[..|run|] == run && run[..0] == [];
  }

  lemma StartsIndexing()
    ensures Indexing(Initial())
  {
  }

  /** At step n a process takes the given command. */
  predicate Takes(run: seq<Action>, n: nat, p: Pid, pc: Pc)
    requires Possible(Initial(), run) && n <= |run|
  {
    n < |run| && run[n].Advance? && run[n].pid == p && p in At(run, n).procs && At(run, n).procs[p] == pc
  }

  /** At step n the token is put into the index of the session. */
  predicate Adds(run: seq<Action>, n: nat, h: Hash, k: SessionKey)
    requires Possible(Initial(), run) && n <= |run|
  {
    && n < |run| && run[n].Advance? && run[n].pid in At(run, n).procs
    && var pc := At(run, n).procs[run[n].pid]; pc.AddToIndex? && pc.hash == h && SessionOf(pc.data) == k
  }

  predicate LeavesAlone(a: Action, p: Pid) { !((a.Advance? || a.Fail?) && a.pid == p) }

  /** The process is not heard of between two steps. */
  predicate Sleeps(run: seq<Action>, p: Pid, lo: nat, hi: nat)
    requires hi <= |run|
  {
    forall i | lo < i < hi :: LeavesAlone(run[i], p)
  }

  /** A logout that read the index at r deletes it at d. */
  predicate LogoutOver(run: seq<Action>, p: Pid, k: SessionKey, r: nat, d: nat)
    requires Possible(Initial(), run) && d < |run|
  {
    && r < d && Takes(run, r, p, ReadIndex(k)) && Sleeps(run, p, r, d)
    && Takes(run, d, p, DeleteKeys(k, SMembers(At(run, r).redis, k)))
  }

  /** A logout of the session reads the index before, and deletes it after, the token is put into it. */
  ghost predicate Raced(run: seq<Action>, n: nat, h: Hash, k: SessionKey)
    requires Possible(Initial(), run) && n <= |run|
  {
    exists p, r: nat, w: nat, d: nat :: r < w < d < n && LogoutOver(run, p, k, r, d) && Adds(run, w, h, k)
  }

  lemma DeletingNext(s: State, a: Action, p: Pid)
    requires Enabled(s, a) && p in Next(s, a).procs && Next(s, a).procs[p].DeleteKeys?
    ensures p in s.procs
    ensures LeavesAlone(a, p) ==> s.procs[p] == Next(s, a).procs[p]
    ensures !LeavesAlone(a, p) ==>
      && a.Advance? && a.pid == p && s.procs[p].ReadIndex?
      && Next(s, a).procs[p] == DeleteKeys(s.procs[p].session, SMembers(s.redis, s.procs[p].session))
  {
  }

  /** A token loses its index only by the DEL of a logout of its session that had not read it. */
  lemma OrphanedNext(s: State, a: Action, h: Hash)
    requires Indexing(s) && Enabled(s, a) && h in Next(s, a).orphaned && h !in s.orphaned
    ensures a.Advance? && a.pid in s.procs && s.procs[a.pid].DeleteKeys?
    ensures h in s.issuedFor && s.issuedFor[h] == s.procs[a.pid].session
    ensures h in SMembers(s.redis, s.procs[a.pid].session) && h !in s.procs[a.pid].hashes
  {
    forall k | k in s.redis.sessions ensures IndexOk(s, k) {}
    hide Indexing, Rotating, ProcessesOk, IndexesOk, Purge, Set, SAdd, SRem, Expire, Del, DelSession;
  }

  /** A process about to delete has read before, and slept since. */
  lemma {:induction false} DeletingHasRead(run: seq<Action>, d: nat, p: Pid) returns (r: nat)
    requires Possible(Initial(), run) && HonestRun(Initial(), run) && d <= |run|
    requires p in At(run, d).procs && At(run, d).procs[p].DeleteKeys?
    ensures var k := At(run, d).procs[p].session;
      && r < d && Takes(run, r, p, ReadIndex(k)) && Sleeps(run, p, r, d)
      && At(run, d).procs[p].hashes == SMembers(At(run, r).redis, k)
    decreases d
  {
    hide Next, Enabled, Honest, Indexing, Possible, HonestRun;
    AtNext(run, 0);
    assert d > 0 by { NobodyAtStart(); }
    AtNext(run, d - 1);
    DeletingNext(At(run, d - 1), run[d - 1], p);
    if LeavesAlone(run[d - 1], p) {
      r := DeletingHasRead(run, d - 1, p);
    } else {
      r := d - 1;
    }
  }

  lemma NobodyAtStart()
    ensures Initial().procs == map[] && Initial().orphaned == {}
  {
  }

  lemma IssuedStays(s: State, a: Action, h: Hash)
    requires Enabled(s, a) && h in s.issuedFor
    ensures h in Next(s, a).issuedFor && Next(s, a).issuedFor[h] == s.issuedFor[h]
  {
  }

  lemma MembersNext(s: State, a: Action, h: Hash, k: SessionKey)
    requires Enabled(s, a) && h in SMembers(Next(s, a).redis, k) && h !in SMembers(s.redis, k)
    ensures a.Advance? && a.pid in s.procs && s.procs[a.pid].AddToIndex? && s.procs[a.pid].hash == h
    ensures SessionOf(s.procs[a.pid].data) == k
  {
  }

  /** What an index did not list and lists later was added in between. */
  lemma {:induction false} MemberWasAdded(run: seq<Action>, lo: nat, hi: nat, h: Hash, k: SessionKey) returns (w: nat)
    requires Possible(Initial(), run) && HonestRun(Initial(), run) && lo <= hi <= |run|
    requires h !in SMembers(At(run, lo).redis, k) && h in SMembers(At(run, hi).redis, k)
    ensures lo <= w < hi && Adds(run, w, h, k)
    decreases hi
  {
    hide Next, Enabled, Honest, Indexing, Possible, HonestRun, SMembers;
    AtNext(run, hi - 1);
    if h in SMembers(At(run, hi - 1).redis, k) {
      w := MemberWasAdded(run, lo, hi - 1, h, k);
    } else {
      MembersNext(At(run, hi - 1), run[hi - 1], h, k);
      w := hi - 1;
    }
  }

  lemma {:induction false} OrphanedIsRaced(run: seq<Action>, n: nat, h: Hash)
    requires Possible(Initial(), run) && HonestRun(Initial(), run) && n <= |run| && h in At(run, n).orphaned
    ensures h in At(run, n).issuedFor && Raced(run, n, h, At(run, n).issuedFor[h])
    decreases n
  {
    hide Next, Enabled, Honest, Indexing, Possible, HonestRun, SMembers, Adds, LogoutOver;
    AtNext(run, 0);
    assert n > 0 by { NobodyAtStart(); }
    AtNext(run, n - 1);
    var s, a := At(run, n - 1), run[n - 1];
    if h in s.orphaned {
      OrphanedIsRaced(run, n - 1, h);
      IssuedStays(s, a, h);
    } else {
      OrphanedNext(s, a, h);
      IssuedStays(s, a, h);
      DropIsRaced(run, n - 1, h);
    }
  }

  lemma DropIsRaced(run: seq<Action>, d: nat, h: Hash)
    requires Possible(Initial(), run) && HonestRun(Initial(), run) && d < |run| && run[d].Advance?
    requires run[d].pid in At(run, d).procs && At(run, d).procs[run[d].pid].DeleteKeys?
    requires h in SMembers(At(run, d).redis, At(run, d).procs[run[d].pid].session)
    requires h !in At(run, d).procs[run[d].pid].hashes
    ensures Raced(run, d + 1, h, At(run, d).procs[run[d].pid].session)
  {
    hide Next, Enabled, Honest, Indexing, Possible, HonestRun, SMembers, Sleeps, At;
    var p := run[d].pid;
    var k := At(run, d).procs[p].session;
    var r := DeletingHasRead(run, d, p);
    var w := MemberWasAdded(run, r, d, h, k);
    assert w != r && LogoutOver(run, p, k, r, d);
  }

  // ------------------------------------------------------------------ a token is saved once

  /** The token is not issued, or not in the index yet. */
  predicate Fresh(s: State, h: Hash) {
    h !in s.issuedFor || exists q :: q in s.procs && Placing(s.procs[q], h)
  }

  predicate Placing(pc: Pc, h: Hash) { (pc.SetToken? || pc.AddToIndex?) && pc.hash == h }

  lemma PlacingNext(s: State, a: Action, q: Pid, h: Hash)
    requires Enabled(s, a) && h in s.issuedFor && q in Next(s, a).procs && Placing(Next(s, a).procs[q], h)
    ensures q in s.procs && Placing(s.procs[q], h)
  {
  }

  lemma SpentNext(s: State, a: Action, t: TokenKey)
    requires Enabled(s, a) && !Fresh(s, t.hash)
    ensures !Fresh(Next(s, a), t.hash)
    ensures t in Next(s, a).redis.tokens ==> t in s.redis.tokens
  {
    forall q | q in Next(s, a).procs && Placing(Next(s, a).procs[q], t.hash) ensures false {
      PlacingNext(s, a, q, t.hash);
    }
    IssuedStays(s, a, t.hash);
    hide Next, Placing;
    if t in Next(s, a).redis.tokens && t !in s.redis.tokens { StoredNext(s, a, t); }
  }

  lemma StoredNext(s: State, a: Action, t: TokenKey)
    requires Enabled(s, a) && t in Next(s, a).redis.tokens && t !in s.redis.tokens
    ensures a.Advance? && Placing(s.procs[a.pid], t.hash)
  {
  }

  lemma HistoryGrows(s: State, a: Action)
    requires Enabled(s, a)
    ensures s.orphaned <= Next(s, a).orphaned && s.abandoned <= Next(s, a).abandoned
  {
  }

  /** What stays over any later steps. */
  lemma {:induction false} Later(run: seq<Action>, i: nat, j: nat, t: TokenKey)
    requires Possible(Initial(), run) && HonestRun(Initial(), run) && i <= j <= |run|
    ensures At(run, i).orphaned <= At(run, j).orphaned && At(run, i).abandoned <= At(run, j).abandoned
    ensures t.hash in At(run, i).issuedFor ==> (
      t.hash in At(run, j).issuedFor && At(run, j).issuedFor[t.hash] == At(run, i).issuedFor[t.hash])
    ensures !Fresh(At(run, i), t.hash) ==> !Fresh(At(run, j), t.hash)
    ensures !Fresh(At(run, i), t.hash) && t in At(run, j).redis.tokens ==> t in At(run, i).redis.tokens
    decreases j
  {
    hide Next, Enabled, Honest, Indexing, Possible, HonestRun, Fresh, At;
    if i < j {
      Later(run, i, j - 1, t);
      AtNext(run, j - 1);
      var s, a := At(run, j - 1), run[j - 1];
      HistoryGrows(s, a);
      if t.hash in s.issuedFor { IssuedStays(s, a, t.hash); }
      if !Fresh(s, t.hash) { SpentNext(s, a, t); }
    }
  }

  /** A token that is not in the index yet is in no index. */
  lemma FreshIsUnlisted(s: State, h: Hash, k: SessionKey)
    requires Indexing(s) && Fresh(s, h)
    ensures h !in SMembers(s.redis, k)
  {
    OfSession(s, k);
    if h in s.issuedFor {
      var q :| q in s.procs && Placing(s.procs[q], h);
      OfProcess(s, q);
    }
    hide Indexing;
  }

  /** Once put into the index a token is fresh no more. */
  lemma AddingSpends(s: State, a: Action, h: Hash)
    requires Indexing(s) && Enabled(s, a) && a.Advance? && s.procs[a.pid].AddToIndex? && s.procs[a.pid].hash == h
    ensures Fresh(s, h) && !Fresh(Next(s, a), h)
    ensures h in s.issuedFor && s.issuedFor[h] == SessionOf(s.procs[a.pid].data)
  {
    OfProcess(s, a.pid);
    assert Placing(s.procs[a.pid], h);
    forall q | q in s.procs && Placing(s.procs[q], h) ensures q == a.pid { OfProcess(s, q); }
    hide Indexing;
  }

  lemma RacedIsOrphaned(run: seq<Action>, t: TokenKey, k: SessionKey)
    requires Possible(Initial(), run) && HonestRun(Initial(), run)
    requires t in At(run, |run|).redis.tokens && t.hash !in At(run, |run|).abandoned
    requires Raced(run, |run|, t.hash, k)
    ensures t.hash in At(run, |run|).orphaned
  {
    hide Next, Enabled, Honest, Indexing, Possible, HonestRun, Fresh, At, SMembers;
    var n, h := |run|, t.hash;
    var p, r: nat, w: nat, d: nat :| r < w < d < n && LogoutOver(run, p, k, r, d) && Adds(run, w, h, k);
    AtNext(run, r);
    AtNext(run, w);
    AtNext(run, d);
    AddingSpends(At(run, w), run[w], h);
    Later(run, r, w, t);
    FreshIsUnlisted(At(run, r), h, k);
    Later(run, w, w + 1, t);
    Later(run, w + 1, d, t);
    Later(run, d, n, t);
    Later(run, d + 1, n, t);
    DropOrphans(At(run, d), run[d], t, k);
  }

  /** A DEL that has not read a saved token orphans it, unless another has done so before. */
  lemma DropOrphans(s: State, a: Action, t: TokenKey, k: SessionKey)
    requires Indexing(s) && Enabled(s, a) && a.Advance? && s.procs[a.pid].DeleteKeys? && s.procs[a.pid].session == k
    requires t.hash !in s.procs[a.pid].hashes && t.hash in s.issuedFor && s.issuedFor[t.hash] == k
    requires t in s.redis.tokens && !Fresh(s, t.hash) && t.hash !in s.abandoned
    ensures t.hash in Next(s, a).orphaned
  {
    OfToken(s, t);
    forall q | q in s.procs ensures !(s.procs[q].AddToIndex? && s.procs[q].hash == t.hash) {
      assert !Placing(s.procs[q], t.hash);
    }
    SaveDoneIsCovered(s, t);
    hide Indexing;
  }

  /**
   In every run of honest clients a stored token whose save is past SADD is listed by an index that lasts
   at least as long, exactly when no logout of its session read the index before the token was put into
   it and deleted it after.
   */
  lemma IndexCoversTokens(run: seq<Action>, t: TokenKey)
    requires Possible(Initial(), run) && HonestRun(Initial(), run)
    requires t in After(Initial(), run).redis.tokens && SaveDone(After(Initial(), run), t)
    ensures Covered(After(Initial(), run).redis, t) <==>
      !Raced(run, |run|, t.hash, SessionOf(After(Initial(), run).redis.tokens[t].data))
  {
    AtNext(run, |run|);
    var s := At(run, |run|);
    SaveDoneIsCovered(s, t);
    OfToken(s, t);
    hide Raced, Indexing, At, After;
    if t.hash in s.orphaned {
      OrphanedIsRaced(run, |run|, t.hash);
    } else if Raced(run, |run|, t.hash, SessionOf(s.redis.tokens[t].data)) {
      RacedIsOrphaned(run, t, SessionOf(s.redis.tokens[t].data));
    }
  }

  function LoggedOut(run: seq<Action>): set<SessionKey> { set a | a in run && a.Logout? :: a.session }

  lemma ReadingNext(s: State, a: Action, p: Pid)
    requires Enabled(s, a) && p in Next(s, a).procs && Next(s, a).procs[p].ReadIndex?
    ensures a == Logout(p, Next(s, a).procs[p].session) || (p in s.procs && s.procs[p] == Next(s, a).procs[p])
  {
  }

  lemma {:induction false} ReadingWasLoggedOut(run: seq<Action>, n: nat, p: Pid)
    requires Possible(Initial(), run) && HonestRun(Initial(), run) && n <= |run|
    requires p in At(run, n).procs && At(run, n).procs[p].ReadIndex?
    ensures At(run, n).procs[p].session in LoggedOut(run)
    decreases n
  {
    hide Next, Enabled, Honest, Indexing, Possible, HonestRun;
    AtNext(run, 0);
    assert n > 0 by { NobodyAtStart(); }
    AtNext(run, n - 1);
    ReadingNext(At(run, n - 1), run[n - 1], p);
    if run[n - 1] == Logout(p, At(run, n).procs[p].session) {
      assert run[n - 1] in run;
    } else {
      ReadingWasLoggedOut(run, n - 1, p);
    }
  }

  /** Only a logout of its own session can uncover a token. */
  lemma CoveredUnlessLoggedOut(run: seq<Action>, t: TokenKey)
    requires Possible(Initial(), run) && HonestRun(Initial(), run)
    requires t in After(Initial(), run).redis.tokens && SaveDone(After(Initial(), run), t)
    requires SessionOf(After(Initial(), run).redis.tokens[t].data) !in LoggedOut(run)
    ensures Covered(After(Initial(), run).redis, t)
  {
    var k := SessionOf(After(Initial(), run).redis.tokens[t].data);
    IndexCoversTokens(run, t);
    hide At, Possible, HonestRun, After, LoggedOut, Adds, SMembers, Sleeps, Covered, SaveDone;
    if Raced(run, |run|, t.hash, k) {
      var p, r: nat, w: nat, d: nat :| r < w < d < |run| && LogoutOver(run, p, k, r, d) && Adds(run, w, t.hash, k);
      ReadingWasLoggedOut(run, r, p);
    }
  }

  // ------------------------------------------------------------------ what a step leaves alone

  /** The session a step works on; none for the clock, the start of a logout and a failure. */
  function WorksOn(s: State, a: Action): Option<SessionKey>
    requires Enabled(s, a)
  {
    match a
    case Login(_, d, _) => Some(SessionOf(d))
    case Refresh(_, h, tenant) =>
      if TokenKey(tenant, h) in s.redis.tokens then Some(SessionOf(s.redis.tokens[TokenKey(tenant, h)].data)) else None
    case Advance(p, _, _) =>
      var pc := s.procs[p];
      Some(if pc.ReadIndex? || pc.DeleteKeys? then pc.session else SessionOf(pc.data))
    case _ => None
  }

  /** The token is stored under the session, with the same data and life as before. */
  predicate Survives(s: State, n: State, t: TokenKey)
    requires t in s.redis.tokens
  {
    t in n.redis.tokens && n.redis.tokens[t] == s.redis.tokens[t]
  }

  /** A DEL takes no token of another session with it, and no other index. */
  lemma DeleteSparesOthers(s: State, p: Pid, active: bool, h: Hash, t: TokenKey)
    requires Indexing(s) && p in s.procs && s.procs[p].DeleteKeys?
    requires t in s.redis.tokens && SessionOf(s.redis.tokens[t].data) != s.procs[p].session
    ensures Survives(s, Next(s, Advance(p, active, h)), t)
    ensures var n := Next(s, Advance(p, active, h));
      n.redis.sessions == s.redis.sessions - {s.procs[p].session}
  {
    OfProcess(s, p);
    OfToken(s, t);
  }

  /** No step other than the clock touches a token or an index of a session it does not work on. */
  lemma StepSparesOthers(s: State, a: Action, j: SessionKey)
    requires Indexing(s) && Enabled(s, a) && !a.Tick? && WorksOn(s, a) != Some(j)
    ensures forall t | t in TokensOf(s, j) :: Survives(s, Next(s, a), t)
    ensures TokensOf(Next(s, a), j) == TokensOf(s, j)
    ensures j in Next(s, a).redis.sessions <==> j in s.redis.sessions
    ensures j in s.redis.sessions ==> Next(s, a).redis.sessions[j] == s.redis.sessions[j]
  {
    forall t | t in TokensOf(s, j) ensures Survives(s, Next(s, a), t) { TokenSpared(s, a, t); }
    forall t | t in TokensOf(Next(s, a), j) ensures t in TokensOf(s, j) { TokenNotNew(s, a, j, t); }
    IndexSpared(s, a, j);
    hide Indexing, Next;
  }

  lemma TokenSpared(s: State, a: Action, t: TokenKey)
    requires Indexing(s) && Enabled(s, a) && !a.Tick? && t in s.redis.tokens
    requires WorksOn(s, a) != Some(SessionOf(s.redis.tokens[t].data))
    ensures Survives(s, Next(s, a), t)
  {
    hide Indexing, SAdd, SRem, Expire, IndexOk, HolderOk, TokenOk;
    if a.Advance? { OfProcess(s, a.pid); }
    OfToken(s, t);
  }

  lemma TokenNotNew(s: State, a: Action, j: SessionKey, t: TokenKey)
    requires Indexing(s) && Enabled(s, a) && !a.Tick? && WorksOn(s, a) != Some(j) && t in TokensOf(Next(s, a), j)
    ensures t in TokensOf(s, j)
  {
  }

  lemma IndexSpared(s: State, a: Action, j: SessionKey)
    requires Enabled(s, a) && !a.Tick? && WorksOn(s, a) != Some(j)
    ensures j in Next(s, a).redis.sessions <==> j in s.redis.sessions
    ensures j in s.redis.sessions ==> Next(s, a).redis.sessions[j] == s.redis.sessions[j]
  {
    hide Purge, SMembers, TokensUnder;
    assert !a.Advance? ==> Next(s, a).redis.sessions == s.redis.sessions;
  }

  /** The clock takes exactly what has come to its expiry: an entry lives until then and no longer. */
  lemma TickExpires(s: State, n: nat, t: TokenKey, k: SessionKey)
    ensures var m := Next(s, Tick(n));
      && (t in m.redis.tokens <==> t in s.redis.tokens && s.now + n < s.redis.tokens[t].expiresAt)
      && (t in m.redis.tokens ==> m.redis.tokens[t] == s.redis.tokens[t])
      && (k in m.redis.sessions <==>
            && k in s.redis.sessions
            && (s.redis.sessions[k].expiresAt.Some? ==> s.now + n < s.redis.sessions[k].expiresAt.value))
      && (k in m.redis.sessions ==> m.redis.sessions[k] == s.redis.sessions[k])
      && m.now == s.now + n && m.procs == s.procs
  {
  }

  // ------------------------------------------------------------------ what a logout leaves

  /** A logout's DEL ends the session exactly when nobody carries it and it read every stored token. */
  lemma DeleteEndsSession(s: State, p: Pid, k: SessionKey, hashes: set<Hash>, active: bool, h: Hash)
    requires Rotating(s) && k in s.holder && p in s.procs && s.procs[p] == DeleteKeys(k, hashes)
    ensures Dead(Next(s, Advance(p, active, h)), k) <==>
      CarriersOf(s, k) == {} && forall t | t in TokensOf(s, k) :: t.hash in hashes
  {
    var n := Next(s, Advance(p, active, h));
    RotatingParts(s);
    hide Rotating;
    assert CarriersOf(n, k) == CarriersOf(s, k);
    assert forall t | t in TokensOf(s, k) :: StoredRight(s, t);
    assert forall t :: t in TokensOf(n, k) <==> t in TokensOf(s, k) && t.hash !in hashes;
  }

  lemma {:induction false} UntouchedProcess(s: State, run: seq<Action>, p: Pid)
    requires Possible(s, run) && p in s.procs && forall a | a in run :: LeavesAlone(a, p)
    ensures p in After(s, run).procs && After(s, run).procs[p] == s.procs[p]
    decreases |run|
  {
    if run != [] {
      UntouchedNext(s, run[0], p);
      UntouchedProcess(Next(s, run[0]), run[1..], p);
    }
  }

  lemma UntouchedNext(s: State, a: Action, p: Pid)
    requires Enabled(s, a) && p in s.procs && LeavesAlone(a, p)
    ensures p in Next(s, a).procs && Next(s, a).procs[p] == s.procs[p]
  {
  }

  /** Nobody carries the session, and all its tokens are saved and not orphaned. */
  ghost predicate Quiet(s: State, k: SessionKey) {
    && k in s.holder && CarriersOf(s, k) == {}
    && forall t | t in TokensOf(s, k) :: SaveDone(s, t) && t.hash !in s.orphaned
  }

  lemma QuietIsListed(s: State, k: SessionKey, t: TokenKey)
    requires Indexing(s) && Quiet(s, k) && t in TokensOf(s, k)
    ensures t.hash in SMembers(s.redis, k)
  {
    SaveDoneIsCovered(s, t);
  }

  /** The state when a logout that is about to read the index has run: others run between its commands. */
  function AfterLogout(s: State, p: Pid, during: seq<Action>): State
    requires p in s.procs && s.procs[p].ReadIndex? && Possible(Next(s, Advance(p, true, "")), during)
    requires forall a | a in during :: LeavesAlone(a, p)
  {
    var read := Next(s, Advance(p, true, ""));
    if p in read.procs then
      UntouchedProcess(read, during, p);
      Next(After(read, during), Advance(p, true, ""))
    else After(read, during)
  }

  /**
   A logout that starts on a quiet session, and during which no refresh of the session is accepted,
   ends the session: no token is left, and no later run accepts one.
   */
  lemma QuietLogoutEndsSession(before: seq<Action>, p: Pid, k: SessionKey, during: seq<Action>, later: seq<Action>)
    requires Possible(Initial(), before) && HonestRun(Initial(), before)
    requires var s := After(Initial(), before);
      && p in s.procs && s.procs[p] == ReadIndex(k) && Quiet(s, k)
      && (forall a | a in during :: LeavesAlone(a, p))
      && Possible(Next(s, Advance(p, true, "")), during)
      && AcceptedOf(After(Next(s, Advance(p, true, "")), during), k) <= AcceptedOf(s, k)
      && Possible(AfterLogout(s, p, during), later)
    ensures var s := After(Initial(), before);
      && Dead(AfterLogout(s, p, during), k)
      && AcceptedOf(After(AfterLogout(s, p, during), later), k) == AcceptedOf(s, k)
  {
    var s := After(Initial(), before);
    AfterKeepsIndexing(Initial(), before);
    var read := Next(s, Advance(p, true, ""));
    var done := After(read, during);
    ReadKeepsSession(s, p, k);
    assert Rotating(s);
    NextKeepsRotating(s, Advance(p, true, ""));
    AfterKeepsRotating(read, during);
    NoCarrierAfter(read, during, k);
    AcceptedOfGrows(read, during, k);
    forall t | t in TokensOf(done, k) ensures t.hash in SMembers(s.redis, k) { QuietIsListed(s, k, t); }
    if p in read.procs {
      UntouchedProcess(read, during, p);
      DeleteEndsSession(done, p, k, SMembers(s.redis, k), true, "");
      NextKeepsRotating(done, Advance(p, true, ""));
      AcceptedOfNext(done, Advance(p, true, ""), k);
    }
    DeadForever(AfterLogout(s, p, during), later, k);
  }

  lemma ReadKeepsSession(s: State, p: Pid, k: SessionKey)
    requires Rotating(s) && p in s.procs && s.procs[p] == ReadIndex(k)
    ensures var read := Next(s, Advance(p, true, ""));
      && read.redis == s.redis && read.holder == s.holder && read.accepted == s.accepted &&
        read.issuedFor == s.issuedFor
      && CarriersOf(read, k) == CarriersOf(s, k) && TokensOf(read, k) == TokensOf(s, k)
      && (p in read.procs <==> SMembers(s.redis, k) != {})
      && (p in read.procs ==> read.procs[p] == DeleteKeys(k, SMembers(s.redis, k)))
  {
  }

  // ------------------------------------------------------------------ the race a logout loses

  const RACER := Stored("user", "tenant", "session")

  /** A login, then a logout that reads the index before, and deletes after, a whole refresh. */
  function RaceStep(i: nat): Action {
    match i
    case 0 => Login(0, RACER, "a")
    case 4 => Logout(1, SessionOf(RACER))
    case 5 => Advance(1, true, "")
    case 6 => Refresh(2, "a", "tenant")
    case 12 => Advance(1, true, "")
    case _ => Advance(if i < 4 then 0 else 2, true, if i == 8 then "b" else "")
  }

  function Race(from: nat): seq<Action>
    decreases 13 - from
  {
    if from >= 13 then [] else [RaceStep(from)] + Race(from + 1)
  }

  lemma Unfold(s: State, run: seq<Action>)
    requires run != [] && Enabled(s, run[0]) && Honest(s, run[0])
    requires Possible(Next(s, run[0]), run[1..]) && HonestRun(Next(s, run[0]), run[1..])
    ensures Possible(s, run) && HonestRun(s, run) && After(s, run) == After(Next(s, run[0]), run[1..])
  {
  }

  /** A step in the middle of the race, and the rest of it. */
  lemma RaceFrom(s: State, i: nat)
    requires i < 13 && Enabled(s, RaceStep(i)) && Honest(s, RaceStep(i))
    requires Possible(Next(s, RaceStep(i)), Race(i + 1)) && HonestRun(Next(s, RaceStep(i)), Race(i + 1))
    ensures Possible(s, Race(i)) && HonestRun(s, Race(i))
    ensures After(s, Race(i)) == After(Next(s, RaceStep(i)), Race(i + 1))
  {
    hide Next, Enabled, Honest, RaceStep, Possible, HonestRun, After;
    assert Race(i)[0] == RaceStep(i) && Race(i)[1..] == Race(i + 1);
    Unfold(s, Race(i));
  }

  const RACE_SESSION := SessionOf(RACER)
  const FIRST := TokenKey("tenant", "a")
  const SECOND := TokenKey("tenant", "b")
  const WEEK := Entry(RACER, 604800)

  function Listing(h: Hash): map<SessionKey, Index> { map[RACE_SESSION := Index({h}, Some(604800))] }

  /**
   The race after each SET, after the login, after the logout's read, after the refresh's SREM, and before the DEL.
   */
  const STORED := State(Redis(map[FIRST := WEEK], map[]), 0, map[0 := AddToIndex("a", RACER)],
    map[RACE_SESSION := InStore("a", 0)], map["a" := RACE_SESSION], {}, [], {}, {})
  const LOGGED_IN := State(Redis(map[FIRST := WEEK], Listing("a")), 0, map[],
    map[RACE_SESSION := InStore("a", 0)], map["a" := RACE_SESSION], {"a"}, [], {}, {})
  const READ := LOGGED_IN.(procs := map[1 := DeleteKeys(RACE_SESSION, {"a"})])
  const REMOVED := READ.(redis := Redis(map[], map[]), accepted := ["a"], holder := map[RACE_SESSION := InFlight(2)],
    procs := map[1 := DeleteKeys(RACE_SESSION, {"a"}), 2 := Reload(RACER)])
  const RESTORED := REMOVED.(redis := Redis(map[SECOND := WEEK], map[]), holder := map[RACE_SESSION := InStore("b", 2)],
    procs := map[1 := DeleteKeys(RACE_SESSION, {"a"}), 2 := AddToIndex("b", RACER)],
    issuedFor := map["a" := RACE_SESSION, "b" := RACE_SESSION])
  const ADDED := RESTORED.(redis := Redis(map[SECOND := WEEK], map[RACE_SESSION := Index({"b"}, None)]),
    procs := map[1 := DeleteKeys(RACE_SESSION, {"a"}), 2 := ExpireIndex("b", RACER)])
  const REFRESHED := READ.(redis := Redis(map[SECOND := WEEK], Listing("b")), accepted := ["a"],
    holder := map[RACE_SESSION := InStore("b", 2)], delivered := {"a", "b"},
    issuedFor := map["a" := RACE_SESSION, "b" := RACE_SESSION])
  const OUT := REFRESHED.(redis := Redis(map[SECOND := WEEK], map[]), procs := map[], orphaned := {"b"})

  ghost predicate Finishes(s: State, i: nat) {
    Possible(s, Race(i)) && HonestRun(s, Race(i)) && After(s, Race(i)) == OUT
  }

  /** Two steps of the race. */
  ghost predicate Leads(s: State, i: nat, t: State) {
    && Enabled(s, RaceStep(i)) && Honest(s, RaceStep(i))
    && var m := Next(s, RaceStep(i));
       Enabled(m, RaceStep(i + 1)) && Honest(m, RaceStep(i + 1)) && Next(m, RaceStep(i + 1)) == t
  }

  lemma RaceTwo(s: State, i: nat, t: State)
    requires i < 12
    ensures Leads(s, i, t) && Finishes(t, i + 2) ==> Finishes(s, i)
  {
    hide Next, Enabled, Honest, RaceStep, Possible, HonestRun, After, Race;
    if Leads(s, i, t) && Finishes(t, i + 2) {
      RaceFrom(Next(s, RaceStep(i)), i + 1);
      RaceFrom(s, i);
    }
  }

  lemma RaceLogin()
    ensures Leads(Initial(), 0, STORED)
  {
    var s := Next(Initial(), RaceStep(0));
    assert Next(s, RaceStep(1)) == STORED;
  }

  lemma RaceIndex()
    ensures Leads(STORED, 2, LOGGED_IN)
  {
    var s := Next(STORED, RaceStep(2));
    assert s.redis.sessions == map[RACE_SESSION := Index({"a"}, None)] by { assert {} + {"a"} == {"a"}; }
    assert Next(s, RaceStep(3)) == LOGGED_IN;
  }

  lemma RaceRead()
    ensures Leads(LOGGED_IN, 4, READ)
  {
    var s := Next(LOGGED_IN, RaceStep(4));
    assert Next(s, RaceStep(5)) == READ;
  }

  lemma RaceConsume()
    ensures Leads(READ, 6, REMOVED)
  {
    var s := Next(READ, RaceStep(6));
    assert Next(s, RaceStep(7)) == REMOVED;
  }

  lemma RaceSave()
    ensures Leads(REMOVED, 8, RESTORED)
  {
    var s := Next(REMOVED, RaceStep(8));
    assert Next(s, RaceStep(9)) == RESTORED;
  }

  lemma RaceAdd()
    ensures Enabled(RESTORED, RaceStep(10)) && Next(RESTORED, RaceStep(10)) == ADDED
  {
    assert {} + {"b"} == {"b"};
    assert Next(RESTORED, RaceStep(10)).redis.sessions == map[RACE_SESSION := Index({"b"}, None)];
  }

  lemma RaceExpire()
    ensures Enabled(ADDED, RaceStep(11)) && Next(ADDED, RaceStep(11)) == REFRESHED
  {
    var s := Next(ADDED, RaceStep(11));
    assert s.redis.sessions == Listing("b");
    assert s.procs == READ.procs;
    assert s.delivered == {"a", "b"};
  }

  lemma RaceReindex()
    ensures Leads(RESTORED, 10, REFRESHED)
  {
    RaceAdd();
    RaceExpire();
    hide Next, Enabled;
  }

  lemma RaceDelete()
    ensures Finishes(REFRESHED, 12)
  {
    assert Next(REFRESHED, RaceStep(12)) == OUT;
    RaceFrom(REFRESHED, 12);
  }

  lemma RaceRuns()
    ensures Finishes(Initial(), 0)
  {
    hide *;
    RaceDelete();
    RaceReindex(); RaceTwo(RESTORED, 10, REFRESHED);
    RaceSave(); RaceTwo(REMOVED, 8, RESTORED);
    RaceConsume(); RaceTwo(READ, 6, REMOVED);
    RaceRead(); RaceTwo(LOGGED_IN, 4, READ);
    RaceIndex(); RaceTwo(STORED, 2, LOGGED_IN);
    RaceLogin(); RaceTwo(Initial(), 0, STORED);
  }

  /**
   An honest run after which the logout is over, a token of the session is stored, no index lists
   it, a second logout would find nothing, and a refresh with it is accepted.
   */
  lemma RacingLogoutLeavesAToken()
    ensures Possible(Initial(), Race(0)) && HonestRun(Initial(), Race(0))
    ensures var s := After(Initial(), Race(0));
      && s.procs == map[] && "b" in s.delivered && "b" in s.orphaned
      && SECOND in s.redis.tokens && !Covered(s.redis, SECOND)
      && SMembers(s.redis, RACE_SESSION) == {}
      && s.accepted == ["a"] && Consume(s, 3, SECOND).accepted == ["a", "b"]
  {
    RaceRuns();
    hide Next, Possible, HonestRun, After, Race;
  }
}
