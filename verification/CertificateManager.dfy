/** The certificate manager as an object whose methods update its dictionaries and files step by step. */
module CertificateManagers {
  import opened Outcomes
  import opened CertPaths
  import opened Certificates

  /** Dropping keys one after another drops them all. */
  lemma DropOneMore(s: State, done: set<Key>, k: Key)
    requires k !in done
    ensures Drop(Drop(s, done), {k}) == Drop(s, done + {k})
  {
  }

  lemma DropNothing(s: State)
    ensures Drop(s, {}) == s
  {
  }

  class CertificateManager {
    const cfg: Config
    var certificates: map<Key, Cert>
    var renewalScopes: map<Key, nat>
    var files: map<string, File>
    var tasks: map<nat, Renewal>
    var next: nat

    constructor (cfg: Config, files: map<string, File>)
      ensures this.cfg == cfg && this.files == files
      ensures forall now :: Initial(View(now))
    {
      this.cfg, this.files := cfg, files;
      certificates, renewalScopes, tasks, next := map[], map[], map[], 0;
    }

    ghost function View(now: int): State
      reads this
    {
      State(now, certificates, files, renewalScopes, tasks, next)
    }

    method CancelScope(i: nat)
      modifies this`tasks
      ensures tasks == CancelScopes(old(tasks), {i})
    {
      if i in tasks {
        tasks := tasks[i := tasks[i].(cancelled := true)];
      }
    }

    method ScheduleRenewal(now: int, k: Key, cert: Cert, current: Option<nat>)
      modifies this`renewalScopes, this`tasks, this`next
      ensures View(now) == Schedule(cfg, old(View(now)), k, cert, current)
    {
      if k in renewalScopes && Some(renewalScopes[k]) != current {
        CancelScope(renewalScopes[k]);
      }
      var renewalTime := cert.expiresAt - cfg.Threshold();
      var delay := renewalTime - now;
      if delay <= 0 {
        delay := SECOND;
      }
      renewalScopes := renewalScopes[k := next];
      tasks := tasks[next := Renewal(k, now + delay, false)];
      next := next + 1;
    }

    /** Generates, stores, caches and schedules; None if generating or storing raises. */
    method MakeCertificate(now: int, k: Key, attempt: Attempt, current: Option<nat>) returns (made: Option<Cert>)
      modifies this
      ensures (View(now), made) == Make(cfg, old(View(now)), k, attempt, current)
    {
      hide CertPath, Schedule;
      if attempt.Fails? {
        return None;
      }
      if attempt.TearsFile? {
        files := files[k.Path() := Unreadable];
        return None;
      }
      var cert := NewCert(cfg, now, attempt.certPem, attempt.keyPem);
      files := files[k.Path() := Good(cert)];
      certificates := certificates[k := cert];
      ScheduleRenewal(now, k, cert, current);
      made := Some(cert);
    }

    method GetCertificate(now: int, k: Key, force: bool, attempt: Attempt) returns (returned: Option<Cert>)
      modifies this
      ensures (View(now), returned) == Certificates.GetCertificate(cfg, old(View(now)), k, force, attempt)
    {
      hide CertPath, Schedule, Make;
      if !force && k in certificates {
        var cert := certificates[k];
        if !Expired(now, cert) {
          return Some(cert);
        }
      }
      if !force {
        var loaded := Load(files, k);
        if loaded.Some? && !Expired(now, loaded.value) {
          certificates := certificates[k := loaded.value];
          ScheduleRenewal(now, k, loaded.value, None);
          return loaded;
        }
      }
      returned := MakeCertificate(now, k, attempt, None);
    }

    /** The `finally` block that ends every renewal task. */
    method FinishRenewal(i: nat, ghost now: int)
      requires i in tasks
      modifies this`renewalScopes, this`tasks
      ensures View(now) == Finally(old(View(now)), i)
    {
      var k := tasks[i].key;
      if k in renewalScopes && renewalScopes[k] == i {
        renewalScopes := renewalScopes - {k};
      }
      tasks := tasks - {i};
    }

    /** What a renewal task does from its wake-up to its end. */
    method RenewCertificate(now: int, i: nat, attempt: Attempt)
      requires CanWake(View(now), i)
      modifies this
      ensures View(now) == Next(cfg, old(View(now)), Wake(i, attempt))
    {
      hide CertPath, Make;
      var made := MakeCertificate(now, tasks[i].key, attempt, Some(i));
      if i in tasks {
        FinishRenewal(i, now);
      }
    }

    method CleanupExpiredCertificates(now: int)
      modifies this
      ensures View(now) == Next(cfg, old(View(now)), Cleanup)
    {
      hide CertPath, Drop;
      var expired := CollectExpired(now);
      ghost var before := View(now);
      ghost var done: set<Key> := {};
      DropNothing(before);
      var todo := expired;
      while todo != {}
        invariant done !! todo && done + todo == expired
        invariant View(now) == Drop(before, done)
        decreases todo
      {
        var k :| k in todo;
        DropOneMore(before, done, k);
        DropKey(k, now);
        todo, done := todo - {k}, done + {k};
      }
      assert done == expired;
    }

    method CollectExpired(now: int) returns (expired: set<Key>)
      ensures expired == ExpiredKeys(View(now))
    {
      expired := {};
      var todo := certificates.Keys;
      while todo != {}
        invariant todo <= certificates.Keys
        invariant expired == set k | k in certificates && k !in todo && Expired(now, certificates[k])
        decreases todo
      {
        var k :| k in todo;
        if Expired(now, certificates[k]) {
          expired := expired + {k};
        }
        todo := todo - {k};
      }
    }

    /** Removes one key from the cache, the files and the registry, and cancels its renewal. */
    method DropKey(k: Key, ghost now: int)
      modifies this
      ensures View(now) == Drop(old(View(now)), {k})
    {
      hide CertPath;
      certificates := certificates - {k};
      ghost var registered := ScopesOf(old(View(now)), {k});
      if k in renewalScopes {
        var i := renewalScopes[k];
        renewalScopes := renewalScopes - {k};
        CancelScope(i);
        assert registered == {i};
      } else {
        assert registered == {};
        assert tasks == CancelScopes(tasks, {});
      }
      if k.Path() in files {
        files := files - {k.Path()};
      }
      assert (set l | l in {k} :: l.Path()) == {k.Path()};
    }

    method RevokeCertificate(k: Key, ghost now: int)
      modifies this
      ensures View(now) == Next(cfg, old(View(now)), Revoke(k))
    {
      DropKey(k, now);
    }

    method Shutdown(ghost now: int)
      modifies this`tasks
      ensures View(now) == Next(cfg, old(View(now)), Certificates.Shutdown)
    {
      var todo := renewalScopes.Keys;
      ghost var ids: set<nat> := {};
      ghost var before := tasks;
      assert tasks == CancelScopes(before, {});
      while todo != {}
        invariant todo <= renewalScopes.Keys
        invariant ids == set k | k in renewalScopes && k !in todo :: renewalScopes[k]
        invariant tasks == CancelScopes(before, ids)
        decreases todo
      {
        var k :| k in todo;
        CancelScope(renewalScopes[k]);
        todo, ids := todo - {k}, ids + {renewalScopes[k]};
      }
      assert ids == renewalScopes.Values;
    }
  }
}
