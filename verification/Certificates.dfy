/**
 The certificate manager as a machine: a cache over files, and renewal tasks that
 sleep, wake, renew and reschedule themselves, each under a cancel scope. One
 action is what the code does between two points where it can be suspended.
 Times are in microseconds.
 */
module Certificates {
  import opened Outcomes
  import opened CertPaths

  const SECOND := 1_000_000
  const HOUR := 3600 * SECOND
  const DAY := 24 * HOUR

  datatype Config = Config(validityDays: int, thresholdHours: int) {
    function Validity(): int { validityDays * DAY }
    function Threshold(): int { thresholdHours * HOUR }
  }

  datatype Key = Key(peer: string, domain: string) {
    function Path(): string { CertPath(peer, domain) }
  }

  datatype Cert = Cert(certPem: string, keyPem: string, createdAt: int, expiresAt: int)

  /** What a certificate file holds: a certificate, or text that does not parse. */
  datatype File = Good(cert: Cert) | Unreadable

  /** A sleeping renewal task, known by the number of its cancel scope. */
  datatype Renewal = Renewal(key: Key, wakeAt: int, cancelled: bool)

  datatype State = State(
    now: int,
    cache: map<Key, Cert>,
    files: map<string, File>,
    scopes: map<Key, nat>,
    tasks: map<nat, Renewal>,
    next: nat)

  /** How an attempt to make and store a new certificate ends. */
  datatype Attempt = Makes(certPem: string, keyPem: string) | Fails | TearsFile

  predicate Expired(now: int, cert: Cert) {
    cert.expiresAt <= now
  }

  function Load(files: map<string, File>, k: Key): Option<Cert> {
    if k.Path() in files && files[k.Path()].Good? then Some(files[k.Path()].cert) else None
  }

  function NewCert(cfg: Config, now: int, certPem: string, keyPem: string): Cert {
    Cert(certPem, keyPem, now, now + cfg.Validity())
  }

  /** `scope.cancel()` on each of the given scopes; on a finished task it does nothing. */
  function CancelScopes(tasks: map<nat, Renewal>, ids: set<nat>): map<nat, Renewal> {
    map i | i in tasks :: if i in ids then tasks[i].(cancelled := true) else tasks[i]
  }

  function WakeTime(cfg: Config, now: int, cert: Cert): int {
    var delay := cert.expiresAt - cfg.Threshold() - now;
    now + if delay <= 0 then SECOND else delay
  }

  function Schedule(cfg: Config, s: State, k: Key, cert: Cert, current: Option<nat>): State {
    var tasks :=
      if k in s.scopes && Some(s.scopes[k]) != current then CancelScopes(s.tasks, {s.scopes[k]}) else s.tasks;
    s.(scopes := s.scopes[k := s.next],
       tasks := tasks[s.next := Renewal(k, WakeTime(cfg, s.now, cert), false)],
       next := s.next + 1)
  }

  /** Stores a new certificate, caches it and schedules its renewal. */
  function Install(cfg: Config, s: State, k: Key, cert: Cert, current: Option<nat>): State {
    Schedule(cfg, s.(files := s.files[k.Path() := Good(cert)], cache := s.cache[k := cert]), k, cert, current)
  }

  function Make(cfg: Config, s: State, k: Key, attempt: Attempt, current: Option<nat>): (State, Option<Cert>) {
    match attempt
    case Makes(certPem, keyPem) =>
      var cert := NewCert(cfg, s.now, certPem, keyPem);
      (Install(cfg, s, k, cert, current), Some(cert))
    case Fails => (s, None)
    case TearsFile => (s.(files := s.files[k.Path() := Unreadable]), None)
  }

  /** The certificate returned, or None if an exception is raised. */
  function GetCertificate(cfg: Config, s: State, k: Key, force: bool, attempt: Attempt): (State, Option<Cert>) {
    if !force && k in s.cache && !Expired(s.now, s.cache[k]) then (s, Some(s.cache[k]))
    else
      var loaded := Load(s.files, k);
      if !force && loaded.Some? && !Expired(s.now, loaded.value) then
        (Schedule(cfg, s.(cache := s.cache[k := loaded.value]), k, loaded.value, None), loaded)
      else Make(cfg, s, k, attempt, None)
  }

  predicate CanWake(s: State, i: nat) {
    i in s.tasks && !s.tasks[i].cancelled && s.tasks[i].wakeAt <= s.now
  }

  /** The `finally` block of a renewal task: unregister its scope if it is still the registered one. */
  function Finally(s: State, i: nat): State
    requires i in s.tasks
  {
    var k := s.tasks[i].key;
    s.(scopes := if k in s.scopes && s.scopes[k] == i then s.scopes - {k} else s.scopes,
       tasks := s.tasks - {i})
  }

  function Renew(cfg: Config, s: State, i: nat, attempt: Attempt): State
    requires i in s.tasks
  {
    var s' := Make(cfg, s, s.tasks[i].key, attempt, Some(i)).0;
    if i in s'.tasks then Finally(s', i) else s'
  }

  function ScopesOf(s: State, ks: set<Key>): set<nat> {
    set k | k in ks && k in s.scopes :: s.scopes[k]
  }

  function ExpiredKeys(s: State): set<Key> {
    set k | k in s.cache && Expired(s.now, s.cache[k])
  }

  /** Drops the given keys everywhere: cache, files, registered scopes. */
  function Drop(s: State, ks: set<Key>): State {
    s.(cache := s.cache - ks,
       files := s.files - (set k | k in ks :: k.Path()),
       scopes := s.scopes - ks,
       tasks := CancelScopes(s.tasks, ScopesOf(s, ks)))
  }

  datatype Action =
    | Tick(to: int)
    | Get(key: Key, force: bool, attempt: Attempt)
    | Wake(task: nat, attempt: Attempt)
    | EndCancelled(task: nat)
    | Cleanup
    | Revoke(key: Key)
    | Shutdown

  /** An action that is not possible in a state changes nothing. */
  function Next(cfg: Config, s: State, a: Action): State {
    match a
    case Tick(to) => if s.now <= to then s.(now := to) else s
    case Get(k, force, attempt) => GetCertificate(cfg, s, k, force, attempt).0
    case Wake(i, attempt) => if CanWake(s, i) then Renew(cfg, s, i, attempt) else s
    case EndCancelled(i) => if i in s.tasks && s.tasks[i].cancelled then Finally(s, i) else s
    case Cleanup => Drop(s, ExpiredKeys(s))
    case Revoke(k) => Drop(s, {k})
    case Shutdown => s.(tasks := CancelScopes(s.tasks, s.scopes.Values))
  }

  function After(cfg: Config, s: State, run: seq<Action>): State {
    if run == [] then s else Next(cfg, After(cfg, s, run[..|run| - 1]), run[|run| - 1])
  }

  // ----- what each action does -----

  /** The state differs at most in what it holds for the key: cache entry, file, scope, and tasks for it. */
  ghost predicate OnlyFor(s: State, s': State, k: Key) {
    && s'.now == s.now
    && s'.cache - {k} == s.cache - {k}
    && s'.files - {k.Path()} == s.files - {k.Path()}
    && s'.scopes - {k} == s.scopes - {k}
    && (forall i :: i in s'.tasks && i !in s.tasks ==> s'.tasks[i].key == k)
    && (forall i :: i in s.tasks && s.tasks[i].key != k ==> i in s'.tasks && s'.tasks[i] == s.tasks[i])
  }

  /** `get_certificate` never returns an expired certificate, and what it returns is what it has cached. */
  lemma GetReturnsValid(cfg: Config, s: State, k: Key, force: bool, attempt: Attempt)
    requires cfg.validityDays > 0
    ensures var (s', returned) := GetCertificate(cfg, s, k, force, attempt);
      returned.Some? ==> s.now < returned.value.expiresAt && k in s'.cache && s'.cache[k] == returned.value
  {
    hide CertPath;
  }

  /** It touches nothing but its own key. */
  lemma GetTouchesOwnKey(cfg: Config, s: State, k: Key, force: bool, attempt: Attempt)
    requires Registered(s)
    ensures OnlyFor(s, GetCertificate(cfg, s, k, force, attempt).0, k)
  {
    hide CertPath, Registered, Schedule, OnlyFor;
    SameForOthers(s, s, k);
    var loaded := Load(s.files, k);
    if loaded.Some? {
      ScheduleOnlyFor(cfg, s, s.(cache := s.cache[k := loaded.value]), k, loaded.value, None);
    }
    match attempt
    case Makes(certPem, keyPem) =>
      var cert := NewCert(cfg, s.now, certPem, keyPem);
      ScheduleOnlyFor(cfg, s, s.(files := s.files[k.Path() := Good(cert)], cache := s.cache[k := cert]), k, cert, None);
    case Fails =>
    case TearsFile => SameForOthers(s, s.(files := s.files[k.Path() := Unreadable]), k);
  }

  lemma SameForOthers(s: State, s': State, k: Key)
    requires s'.now == s.now && s'.scopes == s.scopes && s'.tasks == s.tasks
    requires s'.cache - {k} == s.cache - {k} && s'.files - {k.Path()} == s.files - {k.Path()}
    ensures OnlyFor(s, s', k)
  {
  }

  lemma ScheduleOnlyFor(cfg: Config, s: State, s': State, k: Key, cert: Cert, current: Option<nat>)
    requires Registered(s)
    requires s'.now == s.now && s'.scopes == s.scopes && s'.tasks == s.tasks && s'.next == s.next
    requires s'.cache - {k} == s.cache - {k} && s'.files - {k.Path()} == s.files - {k.Path()}
    ensures OnlyFor(s, Schedule(cfg, s', k, cert, current), k)
  {
    hide CertPath, WakeTime;
  }

  /** A cached certificate is returned as it is while it lasts, unless a new one is forced. */
  lemma GetFromCache(cfg: Config, s: State, k: Key, attempt: Attempt)
    requires k in s.cache && s.now < s.cache[k].expiresAt
    ensures GetCertificate(cfg, s, k, false, attempt) == (s, Some(s.cache[k]))
  {
  }

  /** Otherwise a file's certificate is, while it lasts: it is cached and its renewal is scheduled. */
  lemma GetFromFile(cfg: Config, s: State, k: Key, attempt: Attempt, cert: Cert)
    requires k.Path() in s.files && s.files[k.Path()] == Good(cert) && s.now < cert.expiresAt
    requires k in s.cache ==> s.cache[k].expiresAt <= s.now
    ensures var (s', returned) := GetCertificate(cfg, s, k, false, attempt);
      && returned == Some(cert)
      && s'.cache == s.cache[k := cert] && s'.files == s.files && s'.now == s.now
      && ScheduledFor(cfg, s', k, cert)
  {
    hide CertPath;
  }

  /**
   Otherwise, and always when forced, a new certificate is made. It is valid from
   now for the configured number of days, and cache and file hold it. A failed
   attempt changes nothing, except that a write that breaks off spoils the file.
   */
  lemma GetMakesNew(cfg: Config, s: State, k: Key, force: bool, attempt: Attempt)
    requires !force && k in s.cache ==> s.cache[k].expiresAt <= s.now
    requires !force && Load(s.files, k).Some? ==> Load(s.files, k).value.expiresAt <= s.now
    ensures var (s', returned) := GetCertificate(cfg, s, k, force, attempt);
      match attempt
      case Makes(certPem, keyPem) =>
        var cert := Cert(certPem, keyPem, s.now, s.now + cfg.validityDays * 86_400_000_000);
        && returned == Some(cert)
        && s'.cache == s.cache[k := cert] && s'.files == s.files[k.Path() := Good(cert)] && s'.now == s.now
        && ScheduledFor(cfg, s', k, cert)
      case Fails => returned == None && s' == s
      case TearsFile => returned == None && s' == s.(files := s.files[k.Path() := Unreadable])
  {
    hide CertPath;
  }

  /**
   The key's registered task sleeps until the configured number of hours before
   the certificate expires, or for one second if that time has come.
   */
  ghost predicate ScheduledFor(cfg: Config, s: State, k: Key, cert: Cert) {
    && k in s.scopes && s.scopes[k] in s.tasks
    && var due := cert.expiresAt - cfg.thresholdHours * 3_600_000_000;
       s.tasks[s.scopes[k]] == Renewal(k, if s.now < due then due else s.now + 1_000_000, false)
  }

  /** Scheduling cancels the task registered so far, unless that is the one that schedules its own successor. */
  lemma ScheduleSparesCurrent(cfg: Config, s: State, k: Key, cert: Cert, current: Option<nat>, i: nat)
    requires Registered(s) && i in s.tasks
    ensures var s' := Schedule(cfg, s, k, cert, current);
      && i in s'.tasks && s'.tasks[i].key == s.tasks[i].key && s'.tasks[i].wakeAt == s.tasks[i].wakeAt
      && (s'.tasks[i].cancelled <==>
            s.tasks[i].cancelled || (k in s.scopes && s.scopes[k] == i && current != Some(i)))
      && ScheduledFor(cfg, s', k, cert)
  {
  }

  /** A renewal that succeeds ends its own task and leaves a new certificate in cache and file, with its own renewal. */
  lemma RenewalReplaces(cfg: Config, s: State, i: nat, certPem: string, keyPem: string)
    requires Registered(s) && Awake(s, i) && s.tasks[i].wakeAt <= s.now
    ensures var k, s' := s.tasks[i].key, Next(cfg, s, Wake(i, Makes(certPem, keyPem)));
      var cert := Cert(certPem, keyPem, s.now, s.now + cfg.validityDays * 86_400_000_000);
      && s'.cache == s.cache[k := cert] && s'.files == s.files[k.Path() := Good(cert)]
      && ScheduledFor(cfg, s', k, cert)
      && i !in s'.tasks
  {
    hide CertPath;
  }

  /** However it ends, a renewal touches nothing but its own key. */
  lemma RenewalTouchesOwnKey(cfg: Config, s: State, i: nat, attempt: Attempt)
    requires Registered(s) && CanWake(s, i)
    ensures OnlyFor(s, Next(cfg, s, Wake(i, attempt)), s.tasks[i].key)
  {
    hide CertPath, Registered, Schedule, OnlyFor, Finally;
    var k := s.tasks[i].key;
    var made := Make(cfg, s, k, attempt, Some(i)).0;
    match attempt
    case Makes(certPem, keyPem) =>
      var cert := NewCert(cfg, s.now, certPem, keyPem);
      var stored := s.(files := s.files[k.Path() := Good(cert)], cache := s.cache[k := cert]);
      ScheduleOnlyFor(cfg, s, stored, k, cert, Some(i));
      ScheduleKeepsKeys(cfg, s, stored, k, cert, i);
      FinallyOnlyFor(s, made, i, k);
    case Fails =>
      SameForOthers(s, s, k);
      FinallyOnlyFor(s, s, i, k);
    case TearsFile =>
      SameForOthers(s, made, k);
      FinallyOnlyFor(s, made, i, k);
  }

  lemma ScheduleKeepsKeys(cfg: Config, s: State, s': State, k: Key, cert: Cert, i: nat)
    requires Registered(s) && s'.tasks == s.tasks && s'.next == s.next && i in s.tasks
    ensures var after := Schedule(cfg, s', k, cert, Some(i)); i in after.tasks && after.tasks[i].key == s.tasks[i].key
  {
    hide CertPath, WakeTime;
  }

  lemma FinallyOnlyFor(s: State, s': State, i: nat, k: Key)
    requires OnlyFor(s, s', k) && i in s.tasks && s.tasks[i].key == k && i in s'.tasks && s'.tasks[i].key == k
    ensures OnlyFor(s, Finally(s', i), k)
  {
    hide CertPath;
  }

  /** Before its time, or once cancelled, a task does nothing. */
  lemma SleepsUntilDue(cfg: Config, s: State, i: nat, attempt: Attempt)
    requires Awake(s, i) ==> s.now < s.tasks[i].wakeAt
    ensures Next(cfg, s, Wake(i, attempt)) == s
  {
  }

  /** Clean-up keeps exactly the cached certificates that have not expired, as they are. */
  lemma CleanupKeepsValid(cfg: Config, s: State, k: Key)
    ensures var s' := Next(cfg, s, Cleanup);
      && (k in s'.cache <==> k in s.cache && s.now < s.cache[k].expiresAt)
      && (k in s'.cache ==> s'.cache[k] == s.cache[k])
      && (k.Path() in s'.files ==> k.Path() in s.files && s'.files[k.Path()] == s.files[k.Path()])
      && (k in s.cache && s.cache[k].expiresAt <= s.now ==> k !in s'.scopes && k.Path() !in s'.files)
  {
    hide CertPath, CancelScopes;
  }

  /** After a shutdown no renewal task is left to wake, and everything else is as it was. */
  lemma ShutdownSilences(cfg: Config, s: State, i: nat)
    requires Registered(s)
    ensures var s' := Next(cfg, s, Shutdown);
      !Awake(s', i) && s' == s.(tasks := s'.tasks) && s'.tasks.Keys == s.tasks.Keys
  {
  }

  /** A cancelled task ends and takes its own registration with it, and no other. */
  lemma CancelledTaskEnds(cfg: Config, s: State, i: nat, k: Key)
    requires i in s.tasks && s.tasks[i].cancelled
    ensures var s' := Next(cfg, s, EndCancelled(i));
      && s' == s.(tasks := s.tasks - {i}, scopes := s'.scopes)
      && (k in s'.scopes <==> k in s.scopes && !(k == s.tasks[i].key && s.scopes[k] == i))
      && (k in s'.scopes ==> s'.scopes[k] == s.scopes[k])
  {
  }

  // ----- one renewal task per key -----

  ghost predicate Awake(s: State, i: nat) {
    i in s.tasks && !s.tasks[i].cancelled
  }

  /** Every task that is not cancelled is the registered one of a cached key; every registered scope has its task. */
  ghost predicate Registered(s: State) {
    && (forall i :: Awake(s, i) ==> s.tasks[i].key in s.scopes && s.scopes[s.tasks[i].key] == i)
    && (forall i :: Awake(s, i) ==> s.tasks[i].key in s.cache)
    && (forall k :: k in s.scopes ==> s.scopes[k] in s.tasks && s.tasks[s.scopes[k]].key == k)
    && (forall i :: i in s.tasks ==> i < s.next)
  }

  /** A freshly constructed manager over any existing files. */
  ghost predicate Initial(s: State) {
    s.cache == map[] && s.scopes == map[] && s.tasks == map[]
  }

  lemma ScheduleRegisters(cfg: Config, s: State, k: Key, cert: Cert)
    requires Registered(s) && k in s.cache
    ensures Registered(Schedule(cfg, s, k, cert, None))
  {
  }

  /** A renewal ends with the new task registered in its place, or with none. */
  lemma RenewRegisters(cfg: Config, s: State, i: nat, attempt: Attempt)
    requires Registered(s) && Awake(s, i)
    ensures Registered(Renew(cfg, s, i, attempt))
  {
  }

  lemma DropRegisters(s: State, ks: set<Key>)
    requires Registered(s)
    ensures Registered(Drop(s, ks))
  {
  }

  lemma ShutdownRegisters(s: State)
    requires Registered(s)
    ensures Registered(s.(tasks := CancelScopes(s.tasks, s.scopes.Values)))
  {
  }

  lemma GetRegisters(cfg: Config, s: State, k: Key, force: bool, attempt: Attempt)
    requires Registered(s)
    ensures Registered(GetCertificate(cfg, s, k, force, attempt).0)
  {
    hide Registered, Schedule, NewCert;
    var loaded := Load(s.files, k);
    if loaded.Some? {
      SameScopes(s, s.(cache := s.cache[k := loaded.value]));
      ScheduleRegisters(cfg, s.(cache := s.cache[k := loaded.value]), k, loaded.value);
    }
    match attempt
    case Makes(certPem, keyPem) =>
      var cert := NewCert(cfg, s.now, certPem, keyPem);
      var stored := s.(files := s.files[k.Path() := Good(cert)], cache := s.cache[k := cert]);
      SameScopes(s, stored);
      ScheduleRegisters(cfg, stored, k, cert);
    case Fails =>
    case TearsFile => SameScopes(s, s.(files := s.files[k.Path() := Unreadable]));
  }

  lemma SameScopes(s: State, s': State)
    requires Registered(s) && s'.tasks == s.tasks && s'.scopes == s.scopes && s'.next == s.next
    requires forall k :: k in s.cache ==> k in s'.cache
    ensures Registered(s')
  {
  }

  lemma NextRegisters(cfg: Config, s: State, a: Action)
    requires Registered(s)
    ensures Registered(Next(cfg, s, a))
  {
    hide GetCertificate, Renew, Drop, CancelScopes;
    match a
    case Tick(to) => SameScopes(s, s.(now := to));
    case Get(k, force, attempt) => GetRegisters(cfg, s, k, force, attempt);
    case Wake(i, attempt) => if CanWake(s, i) { RenewRegisters(cfg, s, i, attempt); }
    case EndCancelled(i) =>
    case Cleanup => DropRegisters(s, ExpiredKeys(s));
    case Revoke(k) => DropRegisters(s, {k});
    case Shutdown => ShutdownRegisters(s);
  }

  lemma {:induction false} AfterRegisters(cfg: Config, s: State, run: seq<Action>)
    requires Registered(s)
    ensures Registered(After(cfg, s, run))
  {
    if run != [] {
      AfterRegisters(cfg, s, run[..|run| - 1]);
      NextRegisters(cfg, After(cfg, s, run[..|run| - 1]), run[|run| - 1]);
    }
  }

  /** In every run, the tasks that are not cancelled are the registered ones of cached keys: at most one per key. */
  lemma OneRenewalPerKey(cfg: Config, s: State, run: seq<Action>, i: nat, j: nat)
    requires Initial(s)
    ensures var s' := After(cfg, s, run);
      && (Awake(s', i) ==> var k := s'.tasks[i].key; k in s'.cache && k in s'.scopes && s'.scopes[k] == i)
      && (Awake(s', i) && Awake(s', j) && s'.tasks[i].key == s'.tasks[j].key ==> i == j)
  {
    AfterRegisters(cfg, s, run);
  }

  // ----- every cached key is tended -----

  /** The key has a renewal task that is registered and not cancelled. */
  ghost predicate Tended(s: State, k: Key) {
    k in s.scopes && Awake(s, s.scopes[k])
  }

  ghost predicate AllTended(s: State) {
    forall k :: k in s.cache ==> Tended(s, k)
  }

  /** A shutdown, or a renewal that fails. */
  predicate GivesUp(a: Action) {
    a.Shutdown? || (a.Wake? && !a.attempt.Makes?)
  }

  lemma ScheduleTends(cfg: Config, s: State, k: Key, cert: Cert, current: Option<nat>)
    requires Registered(s) && (forall other :: other in s.cache && other != k ==> Tended(s, other))
    ensures AllTended(Schedule(cfg, s, k, cert, current))
  {
  }

  lemma RenewTends(cfg: Config, s: State, i: nat, certPem: string, keyPem: string)
    requires Registered(s) && AllTended(s) && Awake(s, i)
    ensures AllTended(Renew(cfg, s, i, Makes(certPem, keyPem)))
  {
  }

  lemma DropTends(s: State, ks: set<Key>)
    requires Registered(s) && AllTended(s)
    ensures AllTended(Drop(s, ks))
  {
  }

  lemma GetTends(cfg: Config, s: State, k: Key, force: bool, attempt: Attempt)
    requires Registered(s) && AllTended(s)
    ensures AllTended(GetCertificate(cfg, s, k, force, attempt).0)
  {
    hide Registered, Schedule, NewCert;
    var loaded := Load(s.files, k);
    if loaded.Some? {
      SameScopes(s, s.(cache := s.cache[k := loaded.value]));
      ScheduleTends(cfg, s.(cache := s.cache[k := loaded.value]), k, loaded.value, None);
    }
    match attempt
    case Makes(certPem, keyPem) =>
      var cert := NewCert(cfg, s.now, certPem, keyPem);
      var stored := s.(files := s.files[k.Path() := Good(cert)], cache := s.cache[k := cert]);
      SameScopes(s, stored);
      ScheduleTends(cfg, stored, k, cert, None);
    case Fails =>
    case TearsFile =>
  }

  lemma NextTends(cfg: Config, s: State, a: Action)
    requires Registered(s) && AllTended(s) && !GivesUp(a)
    ensures AllTended(Next(cfg, s, a))
  {
    hide GetCertificate, Renew, Drop, CancelScopes;
    match a
    case Tick(_) =>
    case Get(k, force, attempt) => GetTends(cfg, s, k, force, attempt);
    case Wake(i, attempt) => if CanWake(s, i) { RenewTends(cfg, s, i, attempt.certPem, attempt.keyPem); }
    case EndCancelled(i) =>
    case Cleanup => DropTends(s, ExpiredKeys(s));
    case Revoke(k) => DropTends(s, {k});
  }

  /** In every run without shutdown and without a failed renewal, every cached key has exactly one live renewal task. */
  lemma {:induction false} CachedKeysAreTended(cfg: Config, s: State, run: seq<Action>, k: Key)
    requires Initial(s) && forall n :: 0 <= n < |run| ==> !GivesUp(run[n])
    ensures AllTended(After(cfg, s, run))
    ensures var s' := After(cfg, s, run);
      k in s'.cache ==>
        exists i :: Awake(s', i) && s'.tasks[i].key == k
          && (forall j :: Awake(s', j) && s'.tasks[j].key == k ==> j == i)
  {
    if run != [] {
      var before := After(cfg, s, run[..|run| - 1]);
      CachedKeysAreTended(cfg, s, run[..|run| - 1], k);
      AfterRegisters(cfg, s, run[..|run| - 1]);
      NextTends(cfg, before, run[|run| - 1]);
    }
    AfterRegisters(cfg, s, run);
    var s' := After(cfg, s, run);
    if k in s'.cache {
      assert Tended(s', k);
      assert Awake(s', s'.scopes[k]) && s'.tasks[s'.scopes[k]].key == k;
    }
  }

  /** And a failed renewal does leave its key cached with none. */
  lemma FailedRenewalAbandons(cfg: Config, s: State, i: nat, attempt: Attempt)
    requires Registered(s) && CanWake(s, i) && !attempt.Makes?
    ensures var s' := Next(cfg, s, Wake(i, attempt));
      s.tasks[i].key in s'.cache && !Tended(s', s.tasks[i].key) && s'.cache == s.cache
  {
    assert Awake(s, i);
  }

  // ----- a revoked key stays away -----

  /** Nothing left that could bring the key back. */
  ghost predicate Gone(s: State, k: Key) {
    k !in s.cache && k !in s.scopes && forall i :: Awake(s, i) ==> s.tasks[i].key != k
  }

  lemma RevokeRemoves(s: State, k: Key)
    requires Registered(s)
    ensures Gone(Drop(s, {k}), k) && k.Path() !in Drop(s, {k}).files
  {
  }

  ghost predicate Absent(s: State, k: Key) {
    k !in s.cache && k !in s.scopes
  }

  lemma MakeLeavesAbsent(cfg: Config, s: State, l: Key, attempt: Attempt, current: Option<nat>, k: Key)
    requires Absent(s, k) && l != k
    ensures Absent(Make(cfg, s, l, attempt, current).0, k)
  {
  }

  lemma NextLeavesAbsent(cfg: Config, s: State, a: Action, k: Key)
    requires Gone(s, k) && !(a.Get? && a.key == k)
    ensures Absent(Next(cfg, s, a), k)
  {
    hide CancelScopes, CertPath, WakeTime, Expired, Make;
    match a
    case Get(l, _, attempt) => MakeLeavesAbsent(cfg, s, l, attempt, None, k);
    case Wake(i, attempt) =>
      if CanWake(s, i) {
        assert Awake(s, i);
        MakeLeavesAbsent(cfg, s, s.tasks[i].key, attempt, Some(i), k);
      }
    case _ =>
  }

  lemma NextLeavesGone(cfg: Config, s: State, a: Action, k: Key)
    requires Registered(s) && Gone(s, k) && !(a.Get? && a.key == k)
    ensures Gone(Next(cfg, s, a), k)
  {
    NextRegisters(cfg, s, a);
    NextLeavesAbsent(cfg, s, a, k);
    GoneIfUnregistered(Next(cfg, s, a), k);
    hide Next;
  }

  lemma GoneIfUnregistered(s: State, k: Key)
    requires Registered(s)
    ensures k !in s.cache && k !in s.scopes ==> Gone(s, k)
  {
  }

  /** After `revoke_certificate(k)`, only a new `get_certificate(k)` brings k back, whatever else happens. */
  lemma {:induction false} RevokedStaysAway(cfg: Config, s: State, run: seq<Action>, k: Key)
    requires Registered(s) && forall n :: 0 <= n < |run| ==> !(run[n].Get? && run[n].key == k)
    ensures Gone(After(cfg, Next(cfg, s, Revoke(k)), run), k)
  {
    var revoked := Next(cfg, s, Revoke(k));
    NextRegisters(cfg, s, Revoke(k));
    if run == [] {
      RevokeRemoves(s, k);
    } else {
      RevokedStaysAway(cfg, s, run[..|run| - 1], k);
      AfterRegisters(cfg, revoked, run[..|run| - 1]);
      NextLeavesGone(cfg, After(cfg, revoked, run[..|run| - 1]), run[|run| - 1], k);
    }
  }
}
