/** Renewals that fire on time keep every cached certificate valid. */
module CertTiming {
  import opened Outcomes
  import opened CertPaths
  import opened Certificates

  /**
   A certificate that is still valid when it is scheduled is renewed strictly
   before it expires exactly when it has more than one second left.
   */
  lemma RenewedInTime(cfg: Config, now: int, cert: Cert)
    requires cfg.thresholdHours > 0 && now < cert.expiresAt
    ensures WakeTime(cfg, now, cert) < cert.expiresAt <==> cert.expiresAt - now > 1_000_000
    ensures now < WakeTime(cfg, now, cert)
  {
  }

  /** Renewals are spaced by validity minus threshold, or by a second when the threshold is not smaller. */
  lemma RenewalSpacing(cfg: Config, now: int, certPem: string, keyPem: string)
    ensures var spacing := cfg.validityDays * 86_400_000_000 - cfg.thresholdHours * 3_600_000_000;
      WakeTime(cfg, now, NewCert(cfg, now, certPem, keyPem)) - now == if spacing > 0 then spacing else 1_000_000
  {
  }

  /** The call takes a certificate from its file. */
  predicate TakesFile(s: State, k: Key, force: bool) {
    && !force
    && !(k in s.cache && !Expired(s.now, s.cache[k]))
    && Load(s.files, k).Some?
    && !Expired(s.now, Load(s.files, k).value)
  }

  /**
   The clock never passes the wake-up time of a task before the task has run, no
   renewal fails, the manager is not shut down, and a certificate taken from a
   file has more than a second left.
   */
  ghost predicate Timely(s: State, a: Action) {
    match a
    case Tick(to) => s.now <= to && forall i :: Awake(s, i) ==> to <= s.tasks[i].wakeAt
    case Get(k, force, _) => TakesFile(s, k, force) ==> Load(s.files, k).value.expiresAt - s.now > SECOND
    case Wake(_, attempt) => attempt.Makes?
    case Shutdown => false
    case _ => true
  }

  ghost predicate TimelyRun(cfg: Config, s: State, run: seq<Action>) {
    forall n :: 0 <= n < |run| ==> Timely(After(cfg, s, run[..n]), run[n])
  }

  /** The key's renewal is due no earlier than now and before its certificate expires. */
  ghost predicate Guarded(s: State, k: Key)
    requires k in s.cache
  {
    Tended(s, k) && s.now <= s.tasks[s.scopes[k]].wakeAt < s.cache[k].expiresAt
  }

  ghost predicate AllGuarded(s: State) {
    forall k :: k in s.cache ==> Guarded(s, k)
  }

  lemma ScheduleGuards(cfg: Config, s: State, k: Key, cert: Cert, current: Option<nat>)
    requires cfg.thresholdHours > 0 && Registered(s) && k in s.cache && s.cache[k] == cert
    requires forall other :: other in s.cache && other != k ==> Guarded(s, other)
    requires !Expired(s.now, cert) && cert.expiresAt - s.now > SECOND
    ensures AllGuarded(Schedule(cfg, s, k, cert, current))
  {
  }

  lemma InstallGuards(cfg: Config, s: State, k: Key, certPem: string, keyPem: string, current: Option<nat>)
    requires cfg.thresholdHours > 0 && cfg.validityDays > 0 && Registered(s) && AllGuarded(s)
    ensures AllGuarded(Install(cfg, s, k, NewCert(cfg, s.now, certPem, keyPem), current))
  {
    hide Registered, Schedule, CertPath;
    var cert := NewCert(cfg, s.now, certPem, keyPem);
    var stored := s.(files := s.files[k.Path() := Good(cert)], cache := s.cache[k := cert]);
    SameScopes(s, stored);
    ScheduleGuards(cfg, stored, k, cert, current);
  }

  lemma GetGuards(cfg: Config, s: State, k: Key, force: bool, attempt: Attempt)
    requires cfg.thresholdHours > 0 && cfg.validityDays > 0 && Registered(s) && AllGuarded(s)
    requires Timely(s, Get(k, force, attempt))
    ensures AllGuarded(GetCertificate(cfg, s, k, force, attempt).0)
  {
    hide Registered, Schedule, CertPath, Install;
    if TakesFile(s, k, force) {
      var cert := Load(s.files, k).value;
      var cached := s.(cache := s.cache[k := cert]);
      SameScopes(s, cached);
      ScheduleGuards(cfg, cached, k, cert, None);
    } else if attempt.Makes? {
      InstallGuards(cfg, s, k, attempt.certPem, attempt.keyPem, None);
    }
  }

  lemma RenewGuards(cfg: Config, s: State, i: nat, certPem: string, keyPem: string)
    requires cfg.thresholdHours > 0 && cfg.validityDays > 0 && Registered(s) && AllGuarded(s) && Awake(s, i)
    ensures AllGuarded(Renew(cfg, s, i, Makes(certPem, keyPem)))
  {
    hide CertPath, WakeTime, NewCert;
    InstallGuards(cfg, s, s.tasks[i].key, certPem, keyPem, Some(i));
  }

  lemma DropGuards(s: State, ks: set<Key>)
    requires Registered(s) && AllGuarded(s)
    ensures AllGuarded(Drop(s, ks))
  {
  }

  lemma NextGuards(cfg: Config, s: State, a: Action)
    requires cfg.thresholdHours > 0 && cfg.validityDays > 0 && Registered(s) && AllGuarded(s) && Timely(s, a)
    ensures AllGuarded(Next(cfg, s, a))
  {
    hide GetCertificate, Renew, Drop, CancelScopes, TakesFile;
    match a
    case Tick(to) =>
      forall k | k in s.cache
        ensures Guarded(s.(now := to), k)
      {
        assert Guarded(s, k) && Awake(s, s.scopes[k]);
      }
    case Get(k, force, attempt) => GetGuards(cfg, s, k, force, attempt);
    case Wake(i, attempt) => if CanWake(s, i) { RenewGuards(cfg, s, i, attempt.certPem, attempt.keyPem); }
    case EndCancelled(i) =>
      forall k | k in s.cache
        ensures Guarded(Next(cfg, s, a), k)
      {
        assert Guarded(s, k);
      }
    case Cleanup => DropGuards(s, ExpiredKeys(s));
    case Revoke(k) => DropGuards(s, {k});
  }

  /**
   Along every timely run, from the first certificate through the whole chain of
   renewals: no cached certificate ever expires, a clean-up never finds one, and a
   renewal that can fire replaces a certificate that is still valid.
   */
  lemma {:induction false} NoCachedCertificateExpires(cfg: Config, s: State, run: seq<Action>)
    requires cfg.thresholdHours > 0 && cfg.validityDays > 0
    requires Initial(s) && TimelyRun(cfg, s, run)
    ensures var s' := After(cfg, s, run);
      && AllGuarded(s')
      && (forall k :: k in s'.cache ==> s'.now < s'.cache[k].expiresAt)
      && ExpiredKeys(s') == {}
      && (forall i :: CanWake(s', i) && s'.tasks[i].key in s'.cache ==> s'.now < s'.cache[s'.tasks[i].key].expiresAt)
  {
    hide Next, Timely, Registered;
    if run != [] {
      var prefix := run[..|run| - 1];
      forall n | 0 <= n < |prefix|
        ensures Timely(After(cfg, s, prefix[..n]), prefix[n])
      {
        assert prefix[..n] == run[..n];
      }
      NoCachedCertificateExpires(cfg, s, prefix);
      InitialRegistered(s);
      AfterRegisters(cfg, s, prefix);
      NextGuards(cfg, After(cfg, s, prefix), run[|run| - 1]);
    }
    var s' := After(cfg, s, run);
    forall k | k in s'.cache
      ensures s'.now < s'.cache[k].expiresAt
    {
      assert Guarded(s', k);
    }
  }

  lemma InitialRegistered(s: State)
    requires Initial(s)
    ensures Registered(s)
  {
  }
}
