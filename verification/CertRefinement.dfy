/**
 The cached manager against one that keeps no cache: it reads every certificate
 from its file and remembers only which keys it manages.
 */
module CertRefinement {
  import opened Outcomes
  import opened CertPaths
  import opened Certificates

  datatype Store = Store(now: int, files: map<string, File>, managed: set<Key>)

  datatype StoreAction =
    | Wait(to: int)
    | Fetch(key: Key, force: bool, attempt: Attempt)
    | Replace(key: Key, attempt: Attempt)
    | Purge
    | Forget(key: Key)
    | Idle

  function MakeInStore(cfg: Config, st: Store, k: Key, attempt: Attempt): (Store, Option<Cert>) {
    match attempt
    case Makes(certPem, keyPem) =>
      var cert := NewCert(cfg, st.now, certPem, keyPem);
      (st.(files := st.files[k.Path() := Good(cert)], managed := st.managed + {k}), Some(cert))
    case Fails => (st, None)
    case TearsFile => (st.(files := st.files[k.Path() := Unreadable]), None)
  }

  /** Return the stored certificate if there is one that has not expired; make one otherwise. */
  function FetchFromStore(cfg: Config, st: Store, k: Key, force: bool, attempt: Attempt): (Store, Option<Cert>) {
    var loaded := Load(st.files, k);
    if !force && loaded.Some? && !Expired(st.now, loaded.value) then (st.(managed := st.managed + {k}), loaded)
    else MakeInStore(cfg, st, k, attempt)
  }

  function ForgetKeys(st: Store, ks: set<Key>): Store {
    st.(files := st.files - (set k | k in ks :: k.Path()), managed := st.managed - ks)
  }

  function StoredExpired(st: Store): set<Key> {
    set k | k in st.managed && Load(st.files, k).Some? && Expired(st.now, Load(st.files, k).value)
  }

  function StoreNext(cfg: Config, st: Store, a: StoreAction): Store {
    match a
    case Wait(to) => if st.now <= to then st.(now := to) else st
    case Fetch(k, force, attempt) => FetchFromStore(cfg, st, k, force, attempt).0
    case Replace(k, attempt) => MakeInStore(cfg, st, k, attempt).0
    case Purge => ForgetKeys(st, StoredExpired(st))
    case Forget(k) => ForgetKeys(st, {k})
    case Idle => st
  }

  // ----- the abstraction -----

  function Abs(s: State): Store {
    Store(s.now, s.files, s.cache.Keys)
  }

  /** What an action of the manager is to the store; renewal bookkeeping is nothing to it. */
  function AbsAction(s: State, a: Action): StoreAction {
    match a
    case Tick(to) => Wait(to)
    case Get(k, force, attempt) => Fetch(k, force, attempt)
    case Wake(i, attempt) => if CanWake(s, i) then Replace(s.tasks[i].key, attempt) else Idle
    case EndCancelled(_) => Idle
    case Cleanup => Purge
    case Revoke(k) => Forget(k)
    case Shutdown => Idle
  }

  /** The keys in use have files of their own. */
  ghost predicate DistinctPaths(ks: iset<Key>) {
    forall k, l :: k in ks && l in ks && k.Path() == l.Path() ==> k == l
  }

  ghost predicate Within(s: State, ks: iset<Key>) {
    (forall k :: k in s.cache ==> k in ks) && (forall i :: i in s.tasks ==> s.tasks[i].key in ks)
  }

  ghost predicate Uses(a: Action, ks: iset<Key>) {
    (a.Get? ==> a.key in ks) && (a.Revoke? ==> a.key in ks)
  }

  /** The step makes a certificate for a cached key and the write of its file breaks off half way. */
  predicate TearsCached(s: State, a: Action) {
    match a
    case Get(k, force, attempt) =>
      attempt.TearsFile? && k in s.cache && (force || Expired(s.now, s.cache[k]))
    case Wake(i, attempt) =>
      attempt.TearsFile? && CanWake(s, i) && s.tasks[i].key in s.cache
    case _ => false
  }

  /** The cache holds what the files hold. */
  ghost predicate Coherent(s: State) {
    forall k :: k in s.cache ==> Load(s.files, k) == Some(s.cache[k])
  }

  lemma ScheduleTouchesNoCert(cfg: Config, s: State, k: Key, cert: Cert, current: Option<nat>)
    ensures var s' := Schedule(cfg, s, k, cert, current);
      s'.now == s.now && s'.cache == s.cache && s'.files == s.files
  {
  }

  /** An unreadable file parts the cache from the files exactly when its key is cached. */
  lemma TornFileDiverges(s: State, k: Key, ks: iset<Key>)
    requires DistinctPaths(ks) && (forall l :: l in s.cache ==> l in ks) && k in ks && Coherent(s)
    ensures Coherent(s.(files := s.files[k.Path() := Unreadable])) <==> k !in s.cache
  {
    hide CertPath;
    var torn := s.(files := s.files[k.Path() := Unreadable]);
    assert Load(torn.files, k) == None;
  }

  lemma MakeRefines(cfg: Config, s: State, k: Key, attempt: Attempt, current: Option<nat>, ks: iset<Key>)
    requires DistinctPaths(ks) && (forall l :: l in s.cache ==> l in ks) && k in ks
    requires Coherent(s)
    ensures var (s', made) := Make(cfg, s, k, attempt, current);
      && (Coherent(s') <==> !(attempt.TearsFile? && k in s.cache))
      && (Abs(s'), made) == MakeInStore(cfg, Abs(s), k, attempt)
  {
    hide Schedule, CertPath, NewCert;
    if attempt.Makes? {
      var cert := NewCert(cfg, s.now, attempt.certPem, attempt.keyPem);
      var stored := s.(files := s.files[k.Path() := Good(cert)], cache := s.cache[k := cert]);
      ScheduleTouchesNoCert(cfg, stored, k, cert, current);
      assert stored.cache.Keys == s.cache.Keys + {k};
    } else if attempt.TearsFile? {
      TornFileDiverges(s, k, ks);
    }
  }

  /** `get_certificate` returns, and leaves in the files, what the cacheless manager would. */
  lemma GetRefines(cfg: Config, s: State, k: Key, force: bool, attempt: Attempt, ks: iset<Key>)
    requires DistinctPaths(ks) && Within(s, ks) && k in ks
    requires Coherent(s)
    ensures var (s', returned) := GetCertificate(cfg, s, k, force, attempt);
      && (Coherent(s') <==> !TearsCached(s, Get(k, force, attempt)))
      && (Abs(s'), returned) == FetchFromStore(cfg, Abs(s), k, force, attempt)
  {
    hide Schedule, CertPath, Make, MakeInStore;
    MakeRefines(cfg, s, k, attempt, None, ks);
    var loaded := Load(s.files, k);
    if loaded.Some? {
      ScheduleTouchesNoCert(cfg, s.(cache := s.cache[k := loaded.value]), k, loaded.value, None);
      assert s.cache[k := loaded.value].Keys == s.cache.Keys + {k};
    }
    if k in s.cache {
      assert s.cache.Keys + {k} == s.cache.Keys;
    }
  }

  lemma DropRefines(s: State, dropped: set<Key>, ks: iset<Key>)
    requires DistinctPaths(ks) && Within(s, ks) && Coherent(s)
    requires forall k :: k in dropped ==> k in ks
    ensures Coherent(Drop(s, dropped)) && Abs(Drop(s, dropped)) == ForgetKeys(Abs(s), dropped)
  {
  }

  lemma ExpiredAgree(s: State)
    requires Coherent(s)
    ensures ExpiredKeys(s) == StoredExpired(Abs(s))
  {
  }

  /**
   Every action of the manager is an action of the store-only one, and it leaves the
   cache equal to the files exactly when it does not tear the file of a cached key.
   */
  lemma NextRefines(cfg: Config, s: State, a: Action, ks: iset<Key>)
    requires DistinctPaths(ks) && Within(s, ks) && Coherent(s) && Uses(a, ks)
    ensures Coherent(Next(cfg, s, a)) <==> !TearsCached(s, a)
    ensures Abs(Next(cfg, s, a)) == StoreNext(cfg, Abs(s), AbsAction(s, a))
  {
    hide DistinctPaths, CertPath, Make, MakeInStore, GetCertificate, FetchFromStore, Drop, ForgetKeys,
      StoredExpired, ExpiredKeys, CancelScopes;
    match a
    case Get(k, force, attempt) => GetRefines(cfg, s, k, force, attempt, ks);
    case Wake(i, attempt) =>
      if CanWake(s, i) {
        MakeRefines(cfg, s, s.tasks[i].key, attempt, Some(i), ks);
      }
    case Cleanup =>
      ExpiredAgree(s);
      ExpiredWithin(s, ks);
      DropRefines(s, ExpiredKeys(s), ks);
    case Revoke(k) => DropRefines(s, {k}, ks);
    case _ =>
  }

  lemma ExpiredWithin(s: State, ks: iset<Key>)
    requires Within(s, ks)
    ensures forall k :: k in ExpiredKeys(s) ==> k in ks
  {
  }

  lemma ScheduleStaysWithin(cfg: Config, s: State, k: Key, cert: Cert, current: Option<nat>, ks: iset<Key>)
    requires Within(s, ks) && k in ks
    ensures Within(Schedule(cfg, s, k, cert, current), ks)
  {
  }

  lemma MakeStaysWithin(cfg: Config, s: State, k: Key, attempt: Attempt, current: Option<nat>, ks: iset<Key>)
    requires Within(s, ks) && k in ks
    ensures Within(Make(cfg, s, k, attempt, current).0, ks)
  {
  }

  lemma NextStaysWithin(cfg: Config, s: State, a: Action, ks: iset<Key>)
    requires Within(s, ks) && Uses(a, ks)
    ensures Within(Next(cfg, s, a), ks)
  {
    hide CertPath, Expired, Make, Schedule;
    match a
    case Get(k, force, attempt) =>
      MakeStaysWithin(cfg, s, k, attempt, None, ks);
      var loaded := Load(s.files, k);
      if loaded.Some? {
        ScheduleStaysWithin(cfg, s.(cache := s.cache[k := loaded.value]), k, loaded.value, None, ks);
      }
    case Wake(i, attempt) =>
      if CanWake(s, i) {
        MakeStaysWithin(cfg, s, s.tasks[i].key, attempt, Some(i), ks);
      }
    case _ =>
  }

  function AbsRun(cfg: Config, s: State, run: seq<Action>): seq<StoreAction> {
    if run == [] then []
    else AbsRun(cfg, s, run[..|run| - 1]) + [AbsAction(After(cfg, s, run[..|run| - 1]), run[|run| - 1])]
  }

  function StoreAfter(cfg: Config, st: Store, run: seq<StoreAction>): Store {
    if run == [] then st else StoreNext(cfg, StoreAfter(cfg, st, run[..|run| - 1]), run[|run| - 1])
  }

  /** A run over the given keys in which no step tears the file of a key cached at that time. */
  ghost predicate Tame(cfg: Config, s: State, run: seq<Action>, ks: iset<Key>) {
    forall n :: 0 <= n < |run| ==> Uses(run[n], ks) && !TearsCached(After(cfg, s, run[..n]), run[n])
  }

  lemma TamePrefix(cfg: Config, s: State, run: seq<Action>, n: nat, ks: iset<Key>)
    requires Tame(cfg, s, run, ks) && n <= |run|
    ensures Tame(cfg, s, run[..n], ks)
  {
    assert forall m :: 0 <= m < n ==> run[..n][..m] == run[..m];
  }

  /**
   For keys with distinct files and no torn write to a cached key's file, the cached
   manager refines the one that reads only files: along every run its cache equals
   its files and its files are those of the store-only manager, and at the end of
   the run any `get_certificate` returns what that manager would return.
   */
  lemma {:induction false} CacheIsInvisible(cfg: Config, s: State, run: seq<Action>, ks: iset<Key>)
    requires Initial(s) && DistinctPaths(ks) && Tame(cfg, s, run, ks)
    ensures var s' := After(cfg, s, run);
      && Within(s', ks)
      && Coherent(s')
      && Abs(s') == StoreAfter(cfg, Abs(s), AbsRun(cfg, s, run))
    ensures forall k, force, attempt: Attempt :: k in ks ==>
      GetCertificate(cfg, After(cfg, s, run), k, force, attempt).1
      == FetchFromStore(cfg, StoreAfter(cfg, Abs(s), AbsRun(cfg, s, run)), k, force, attempt).1
  {
    hide DistinctPaths, CertPath, GetCertificate, FetchFromStore, Next, StoreNext, AbsAction, TearsCached, Uses;
    if run != [] {
      var prefix, last := run[..|run| - 1], run[|run| - 1];
      TamePrefix(cfg, s, run, |run| - 1, ks);
      CacheIsInvisible(cfg, s, prefix, ks);
      NextRefines(cfg, After(cfg, s, prefix), last, ks);
      NextStaysWithin(cfg, After(cfg, s, prefix), last, ks);
      var abs := AbsRun(cfg, s, run);
      assert abs[..|abs| - 1] == AbsRun(cfg, s, prefix);
    }
    forall k, force, attempt: Attempt | k in ks
      ensures GetCertificate(cfg, After(cfg, s, run), k, force, attempt).1
           == FetchFromStore(cfg, StoreAfter(cfg, Abs(s), AbsRun(cfg, s, run)), k, force, attempt).1
    {
      GetRefines(cfg, After(cfg, s, run), k, force, attempt, ks);
    }
  }

  ghost predicate CoherentThroughout(cfg: Config, s: State, run: seq<Action>) {
    forall n :: 0 <= n <= |run| ==> Coherent(After(cfg, s, run[..n]))
  }

  lemma {:induction false} AfterStaysWithin(cfg: Config, s: State, run: seq<Action>, ks: iset<Key>)
    requires Within(s, ks) && forall n :: 0 <= n < |run| ==> Uses(run[n], ks)
    ensures Within(After(cfg, s, run), ks)
  {
    hide Within, Uses, Next;
    if run != [] {
      AfterStaysWithin(cfg, s, run[..|run| - 1], ks);
      NextStaysWithin(cfg, After(cfg, s, run[..|run| - 1]), run[|run| - 1], ks);
    }
  }

  lemma AfterOneMore(cfg: Config, s: State, run: seq<Action>, n: nat)
    requires n < |run|
    ensures After(cfg, s, run[..n + 1]) == Next(cfg, After(cfg, s, run[..n]), run[n])
  {
    hide Next;
    assert run[..n + 1][..n] == run[..n];
  }

  /** The cache equals the files throughout a run exactly when no step tears the file of a cached key. */
  lemma CoherentExactlyWhenTame(cfg: Config, s: State, run: seq<Action>, ks: iset<Key>)
    requires Initial(s) && DistinctPaths(ks) && forall n :: 0 <= n < |run| ==> Uses(run[n], ks)
    ensures CoherentThroughout(cfg, s, run) <==> Tame(cfg, s, run, ks)
  {
    hide DistinctPaths, Coherent, TearsCached, Uses, Next, After;
    if Tame(cfg, s, run, ks) {
      forall n | 0 <= n <= |run|
        ensures Coherent(After(cfg, s, run[..n]))
      {
        TamePrefix(cfg, s, run, n, ks);
        CacheIsInvisible(cfg, s, run[..n], ks);
      }
    }
    if CoherentThroughout(cfg, s, run) {
      forall n | 0 <= n < |run|
        ensures !TearsCached(After(cfg, s, run[..n]), run[n])
      {
        AfterStaysWithin(cfg, s, run[..n], ks);
        AfterOneMore(cfg, s, run, n);
        NextRefines(cfg, After(cfg, s, run[..n]), run[n], ks);
      }
    }
  }

  /**
   Keys with base58 peers, whose domains hold no underscore and no `wildcard`, have
   distinct files exactly when no two of them differ only by repeated slashes.
   */
  lemma NamesWithDistinctPaths(ks: iset<Key>)
    requires forall k :: k in ks ==> Base58(k.peer) && CleanName(k.domain, WILDCARD)
    ensures DistinctPaths(ks) <==>
      forall k, l :: k in ks && l in ks && k.peer == l.peer && Collapse(k.domain) == Collapse(l.domain) ==> k == l
  {
    hide CertPath, CleanName, Base58;
    forall k: Key, l: Key | k in ks && l in ks
      ensures k.Path() == l.Path() <==> k.peer == l.peer && Collapse(k.domain) == Collapse(l.domain)
    {
      CertPathInjective(k.peer, k.domain, l.peer, l.domain);
    }
  }

  /** So the keys whose domains hold no doubled slash either are such a set of keys. */
  lemma CleanKeysHaveDistinctPaths()
    ensures DistinctPaths(iset k: Key | Base58(k.peer) && CleanDomain(k.domain))
  {
    hide CertPath, CleanName, Base58;
    var ks := iset k: Key | Base58(k.peer) && CleanDomain(k.domain);
    NamesWithDistinctPaths(ks);
    forall k | k in ks
      ensures Collapse(k.domain) == k.domain
    {
      CollapseKeeps(k.domain);
    }
  }

  /** From any state, two keys that share a file make the cache and the files part ways. */
  lemma ClashingKeysDiverge(cfg: Config, s: State, k: Key, l: Key, first: Attempt, second: Attempt)
    requires k != l && k.Path() == l.Path() && first.Makes? && second.Makes? && first != second
    ensures !Coherent(Next(cfg, Next(cfg, s, Get(k, true, first)), Get(l, true, second)))
  {
    hide CertPath, WakeTime, CancelScopes;
    var s' := Next(cfg, Next(cfg, s, Get(k, true, first)), Get(l, true, second));
    assert k in s'.cache && s'.cache[k] == NewCert(cfg, s.now, first.certPem, first.keyPem);
    assert Load(s'.files, k) == Some(NewCert(cfg, s.now, second.certPem, second.keyPem));
  }

  /** Distinct files are exactly what it takes: otherwise some run without any torn write diverges. */
  lemma DistinctPathsExactly(cfg: Config, s: State, ks: iset<Key>)
    requires Initial(s)
    ensures DistinctPaths(ks) <==> forall run :: Tame(cfg, s, run, ks) ==> Coherent(After(cfg, s, run))
  {
    hide Tame, Coherent, CertPath, Initial;
    if DistinctPaths(ks) {
      forall run | Tame(cfg, s, run, ks)
        ensures Coherent(After(cfg, s, run))
      {
        CacheIsInvisible(cfg, s, run, ks);
      }
    } else {
      var k, l :| k in ks && l in ks && k.Path() == l.Path() && k != l;
      hide DistinctPaths;
      ClashingRun(cfg, s, k, l, ks);
    }
  }

  lemma ClashingRun(cfg: Config, s: State, k: Key, l: Key, ks: iset<Key>)
    requires k in ks && l in ks && k.Path() == l.Path() && k != l
    ensures exists run :: Tame(cfg, s, run, ks) && !Coherent(After(cfg, s, run))
  {
    hide Next, Coherent, CertPath;
    var first, second := Makes("a", ""), Makes("b", "");
    assert first != second by {
      assert first.certPem[0] != second.certPem[0];
    }
    ClashingKeysDiverge(cfg, s, k, l, first, second);
    var run := [Get(k, true, first), Get(l, true, second)];
    assert run[..1] == [run[0]] && run[..1][..0] == [];
    assert After(cfg, s, run[..1]) == Next(cfg, s, run[0]);
    assert After(cfg, s, run) == Next(cfg, Next(cfg, s, run[0]), run[1]);
    assert Tame(cfg, s, run, ks);
  }

  // ----- a revoked key's file stays away too -----

  lemma NextLeavesFileAway(cfg: Config, s: State, a: Action, k: Key, ks: iset<Key>)
    requires DistinctPaths(ks) && Within(s, ks) && Uses(a, ks) && k in ks
    requires Registered(s) && Gone(s, k) && k.Path() !in s.files && !(a.Get? && a.key == k)
    ensures k.Path() !in Next(cfg, s, a).files
  {
    hide CertPath, Expired, WakeTime, CancelScopes, NewCert;
  }

  /** With distinct files, revocation also keeps the certificate out of storage until k is asked for again. */
  lemma {:induction false} RevokedFileStaysAway(cfg: Config, s: State, run: seq<Action>, k: Key, ks: iset<Key>)
    requires DistinctPaths(ks) && Within(s, ks) && Registered(s) && k in ks
    requires forall n :: 0 <= n < |run| ==> Uses(run[n], ks) && !(run[n].Get? && run[n].key == k)
    ensures var s' := After(cfg, Next(cfg, s, Revoke(k)), run); Within(s', ks) && k.Path() !in s'.files
  {
    hide DistinctPaths, CertPath, Uses, Within, Registered, Gone;
    var revoked := Next(cfg, s, Revoke(k));
    NextRegisters(cfg, s, Revoke(k));
    if run == [] {
      RevokeRemoves(s, k);
      RevokeStaysWithin(cfg, s, k, ks);
    } else {
      var prefix, last := run[..|run| - 1], run[|run| - 1];
      RevokedFileStaysAway(cfg, s, prefix, k, ks);
      RevokedStaysAway(cfg, s, prefix, k);
      AfterRegisters(cfg, revoked, prefix);
      hide Next;
      NextLeavesFileAway(cfg, After(cfg, revoked, prefix), last, k, ks);
      NextStaysWithin(cfg, After(cfg, revoked, prefix), last, ks);
    }
  }

  lemma RevokeStaysWithin(cfg: Config, s: State, k: Key, ks: iset<Key>)
    requires Within(s, ks) && k in ks
    ensures Within(Next(cfg, s, Revoke(k)), ks)
  {
  }
}
