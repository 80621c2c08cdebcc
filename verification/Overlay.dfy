/**
 Joining an overlay shaped like a binary heap: peer i dials its parent (i-1)/2,
 level by level, and each joined peer is then made known to all its ancestors.
 */
module Overlay {
  import opened Numbers

  // ----- the tree -----

  function Parent(i: nat): nat
    requires i > 0
  {
    (i - 1) / 2
  }

  function Depth(i: nat): nat {
    if i == 0 then 0 else 1 + Depth(Parent(i))
  }

  /** The peers met on the way from i up to the root. */
  function Ancestors(i: nat): seq<nat> {
    if i == 0 then [] else [Parent(i)] + Ancestors(Parent(i))
  }

  function Pow2(n: nat): nat {
    if n == 0 then 1 else 2 * Pow2(n - 1)
  }

  /** The depth of i is the whole part of the binary logarithm of i + 1. */
  lemma {:induction false} DepthIsLog(i: nat)
    ensures Pow2(Depth(i)) <= i + 1 < 2 * Pow2(Depth(i))
  {
    if i > 0 {
      DepthIsLog(Parent(i));
    }
  }

  /** `x >> n`: drops the last n binary digits. */
  function Shift(x: nat, n: nat): nat {
    if n == 0 then x else Shift(x / 2, n - 1)
  }

  /** The n-th ancestor is found by dropping n binary digits of i + 1. */
  lemma {:induction false} AncestorByShift(i: nat, n: nat)
    requires 0 < n <= Depth(i)
    ensures |Ancestors(i)| == Depth(i)
    ensures Ancestors(i)[n - 1] + 1 == Shift(i + 1, n)
  {
    var p := Parent(i);
    assert p + 1 == (i + 1) / 2;
    if p > 0 {
      AncestorByShift(p, if n > 1 then n - 1 else 1);
    }
  }

  /** `a` is a proper ancestor of `i`: i + 1 begins with the binary digits of a + 1 and goes on. */
  ghost predicate ProperAncestor(a: nat, i: nat) {
    exists n: nat :: 0 < n <= Depth(i) && ShiftsTo(i, n, a)
  }

  predicate ShiftsTo(i: nat, n: nat, a: nat) {
    Shift(i + 1, n) == a + 1
  }

  /** The climb meets exactly the proper ancestors, `Depth(i)` of them, and ends at the root. */
  lemma AncestorsExact(i: nat, a: nat)
    ensures a in Ancestors(i) <==> ProperAncestor(a, i)
    ensures |Ancestors(i)| == Depth(i)
    ensures i > 0 ==> Depth(i) > 0 && Ancestors(i)[Depth(i) - 1] == 0
  {
    if i > 0 {
      AncestorByShift(i, 1);
    }
    forall n: nat | 0 < n <= Depth(i) && ShiftsTo(i, n, a)
      ensures a in Ancestors(i)
    {
      AncestorByShift(i, n);
    }
    if a in Ancestors(i) {
      var k: nat :| k < |Ancestors(i)| && Ancestors(i)[k] == a;
      AncestorByShift(i, k + 1);
      assert ShiftsTo(i, k + 1, a);
    }
    ClimbEndsAtRoot(i);
  }

  lemma {:induction false} ClimbEndsAtRoot(i: nat)
    ensures i > 0 ==> Ancestors(i) != [] && Ancestors(i)[|Ancestors(i)| - 1] == 0
  {
    if i > 0 {
      ClimbEndsAtRoot(Parent(i));
    }
  }

  // ----- the join log -----

  /** A join attempt of a peer begins, and ends well or badly. */
  datatype Event = Begin(peer: nat) | End(peer: nat, ok: bool)

  function Begun(log: seq<Event>): set<nat> {
    if log == [] then {}
    else
      var last := log[|log| - 1];
      Begun(log[..|log| - 1]) + if last.Begin? then {last.peer} else {}
  }

  function Ended(log: seq<Event>): set<nat> {
    if log == [] then {}
    else
      var last := log[|log| - 1];
      Ended(log[..|log| - 1]) + if last.End? then {last.peer} else {}
  }

  /** The log allows this event next. */
  ghost predicate Allowed(log: seq<Event>, e: Event, limit: nat) {
    match e
    case Begin(i) =>
      && i > 0
      && i !in Begun(log)
      && (Parent(i) == 0 || Parent(i) in Ended(log))
      && |Begun(log) - Ended(log)| < limit
    case End(i, _) => i in Begun(log) && i !in Ended(log)
  }

  /**
   No peer begins or ends twice, none begins before its parent has ended, and no
   more than `limit` are under way at once.
   */
  ghost predicate Proper(log: seq<Event>, limit: nat) {
    log == [] || (Proper(log[..|log| - 1], limit) && Allowed(log[..|log| - 1], log[|log| - 1], limit))
  }

  lemma Grow(log: seq<Event>, e: Event, limit: nat)
    ensures Begun(log + [e]) == Begun(log) + if e.Begin? then {e.peer} else {}
    ensures Ended(log + [e]) == Ended(log) + if e.End? then {e.peer} else {}
    ensures Proper(log + [e], limit) <==> Proper(log, limit) && Allowed(log, e, limit)
  {
  }

  lemma {:induction false} EndedMeans(log: seq<Event>, i: nat)
    ensures i in Ended(log) <==> exists q :: 0 <= q < |log| && log[q].End? && log[q].peer == i
    ensures i in Begun(log) <==> Begin(i) in log
  {
    if log != [] {
      var init, last := log[..|log| - 1], log[|log| - 1];
      assert log == init + [last];
      EndedMeans(init, i);
      if i in Ended(init) {
        var q :| 0 <= q < |init| && init[q].End? && init[q].peer == i;
        assert log[q] == init[q];
      }
    }
  }

  /** In a proper log, an attempt begins only after an entry that ends its parent's, unless the parent is the root. */
  lemma {:induction false} ParentsFirst(log: seq<Event>, limit: nat, p: nat, i: nat)
    requires Proper(log, limit) && p < |log| && log[p] == Begin(i)
    ensures i > 0
    ensures Parent(i) > 0 ==> exists q :: 0 <= q < p && log[q].End? && log[q].peer == Parent(i)
  {
    var init := log[..|log| - 1];
    if p < |init| {
      ParentsFirst(init, limit, p, i);
    } else {
      EndedMeans(init, Parent(i));
    }
    if Parent(i) > 0 {
      var q :| 0 <= q < p && init[q].End? && init[q].peer == Parent(i);
      assert log[q] == init[q];
    }
  }

  /** In a proper log, no attempt begins twice. */
  lemma {:induction false} BeginsOnce(log: seq<Event>, limit: nat, p: nat, q: nat, i: nat)
    requires Proper(log, limit) && p <= q < |log| && log[p] == log[q] == Begin(i)
    ensures p == q
  {
    var init := log[..|log| - 1];
    if q < |init| {
      BeginsOnce(init, limit, p, q, i);
    } else {
      EndedMeans(init, i);
      assert forall r :: 0 <= r < |init| ==> init[r] == log[r] && init[r] in init;
    }
  }

  function Peers(lo: nat, hi: nat): (ps: set<nat>)
    ensures forall i: nat :: i in ps <==> lo <= i < hi
  {
    if hi <= lo then {} else Peers(lo, hi - 1) + {hi - 1}
  }

  lemma {:induction false} PeersCount(lo: nat, hi: nat)
    requires lo <= hi
    ensures |Peers(lo, hi)| == hi - lo
  {
    if lo < hi {
      PeersCount(lo, hi - 1);
    }
  }

  // ----- joining -----

  const ATTEMPTS := 8

  /** How the network answers: whether the given attempt of a peer to reach its parent succeeds. */
  type Network = (nat, nat) -> bool

  ghost predicate Joins(net: Network, i: nat) {
    exists attempt: nat :: attempt < 8 && net(i, attempt)
  }

  /** Those of the given peers that join. */
  ghost function Joiners(net: Network, ps: set<nat>): set<nat> {
    set i | i in ps && Joins(net, i)
  }

  lemma JoinersAdd(net: Network, ps: set<nat>, i: nat)
    ensures Joiners(net, ps + {i}) == Joiners(net, ps) + if Joins(net, i) then {i} else {}
    ensures i !in ps ==> i !in Joiners(net, ps) && |ps + {i}| == |ps| + 1
  {
  }

  method JoinPeer(net: Network, i: nat) returns (ok: bool)
    ensures ok <==> Joins(net, i)
  {
    for attempt := 0 to ATTEMPTS
      invariant forall a :: 0 <= a < attempt ==> !net(i, a)
    {
      if net(i, attempt) {
        return true;
      }
    }
    return false;
  }

  function JoinLimit(n: nat): nat {
    if n >= 200 then 8 else if n < 16 then n else 16
  }

  datatype Tally = Tally(log: seq<Event>, joined: set<nat>, ok: nat, fail: nat)

  /** The tally agrees with the log so far. */
  ghost predicate Sound(t: Tally, net: Network, limit: nat) {
    && Proper(t.log, limit)
    && Ended(t.log) <= Begun(t.log)
    && 0 !in Begun(t.log)
    && t.joined == {0} + Joiners(net, Ended(t.log))
    && t.ok + t.fail == |Ended(t.log)|
    && t.ok + 1 == |t.joined|
  }

  lemma SoundBegin(t: Tally, net: Network, limit: nat, i: nat)
    requires Sound(t, net, limit) && Allowed(t.log, Begin(i), limit)
    ensures Sound(t.(log := t.log + [Begin(i)]), net, limit)
  {
  }

  lemma SoundEnd(t: Tally, net: Network, limit: nat, i: nat, ok: bool)
    requires Sound(t, net, limit) && Allowed(t.log, End(i, ok), limit) && (ok <==> Joins(net, i))
    ensures var log := t.log + [End(i, ok)];
      var t' := if ok then Tally(log, t.joined + {i}, t.ok + 1, t.fail) else Tally(log, t.joined, t.ok, t.fail + 1);
      Sound(t', net, limit)
  {
    hide Joins, Joiners, Proper, Begun, Ended;
    Grow(t.log, End(i, ok), limit);
    JoinersAdd(net, Ended(t.log), i);
    OneMore(t.joined, Joiners(net, Ended(t.log)), i);
  }

  lemma OneMore(joined: set<nat>, joiners: set<nat>, i: nat)
    requires joined == {0} + joiners && i > 0 && i !in joiners
    ensures joined + {i} == {0} + (joiners + {i}) && |joined + {i}| == |joined| + 1
  {
  }

  /** Where a level stands: who waits, who is under way, who is done. */
  ghost predicate LevelState(t: Tally, base: set<nat>, level: set<nat>,
                             waiting: set<nat>, running: set<nat>, done: set<nat>)
  {
    && (forall i :: i in level <==> i in waiting || i in running || i in done)
    && (forall i :: i in waiting ==> i !in running && i !in done)
    && (forall i :: i in running ==> i !in done)
    && (forall i :: i in level ==> i !in base && i > 0 && (Parent(i) == 0 || Parent(i) in base))
    && (forall i :: i in Begun(t.log) <==> i in base || i in running || i in done)
    && (forall i :: i in Ended(t.log) <==> i in base || i in done)
  }

  lemma LevelBegins(t: Tally, base: set<nat>, level: set<nat>, waiting: set<nat>, running: set<nat>, done: set<nat>,
                    i: nat, limit: nat)
    requires LevelState(t, base, level, waiting, running, done) && i in waiting && |running| < limit
    ensures Allowed(t.log, Begin(i), limit)
    ensures LevelState(t.(log := t.log + [Begin(i)]), base, level, waiting - {i}, running + {i}, done)
  {
    hide Begun, Ended, Proper;
    assert Begun(t.log) - Ended(t.log) == running;
    Grow(t.log, Begin(i), limit);
  }

  lemma LevelEnds(t: Tally, t': Tally, base: set<nat>, level: set<nat>, waiting: set<nat>, running: set<nat>,
                  done: set<nat>, i: nat, ok: bool, limit: nat)
    requires LevelState(t, base, level, waiting, running, done) && i in running
    requires t'.log == t.log + [End(i, ok)]
    ensures Allowed(t.log, End(i, ok), limit)
    ensures LevelState(t', base, level, waiting, running - {i}, done + {i})
  {
  }

  /**
   One nursery: all peers of a level start, at most `limit` are under way at any
   moment, and they finish in whatever order the network decides.
   */
  method RunLevel(net: Network, level: set<nat>, limit: nat, start: Tally) returns (t: Tally)
    requires limit > 0 && Sound(start, net, limit) && Begun(start.log) == Ended(start.log)
    requires forall i :: i in level ==>
      i > 0 && i !in Begun(start.log) && (Parent(i) == 0 || Parent(i) in Ended(start.log))
    ensures Sound(t, net, limit)
    ensures Begun(t.log) == Ended(t.log) == Ended(start.log) + level
  {
    hide Sound, LevelState, Allowed, Joins;
    t := start;
    var waiting, running := level, {};
    ghost var done: set<nat>, base := {}, Ended(start.log);
    LevelStarts(t, level);
    while waiting != {} || running != {}
      invariant Sound(t, net, limit) && LevelState(t, base, level, waiting, running, done) && |running| <= limit
      decreases |waiting| * 2 + |running|
    {
      var startsNext := *;
      if waiting != {} && |running| < limit && (running == {} || startsNext) {
        var i :| i in waiting;
        LevelBegins(t, base, level, waiting, running, done, i, limit);
        SoundBegin(t, net, limit, i);
        t := t.(log := t.log + [Begin(i)]);
        waiting, running := waiting - {i}, running + {i};
      } else {
        var i :| i in running;
        var ok := JoinPeer(net, i);
        ghost var before := t;
        if ok {
          t := Tally(t.log + [End(i, ok)], t.joined + {i}, t.ok + 1, t.fail);
        } else {
          t := Tally(t.log + [End(i, ok)], t.joined, t.ok, t.fail + 1);
        }
        LevelEnds(before, t, base, level, waiting, running, done, i, ok, limit);
        SoundEnd(before, net, limit, i, ok);
        running, done := running - {i}, done + {i};
      }
    }
    LevelFinishes(t, base, level, done);
  }

  lemma LevelStarts(t: Tally, level: set<nat>)
    requires Begun(t.log) == Ended(t.log)
    requires forall i :: i in level ==> i > 0 && i !in Begun(t.log) && (Parent(i) == 0 || Parent(i) in Ended(t.log))
    ensures LevelState(t, Ended(t.log), level, level, {}, {})
  {
  }

  lemma LevelFinishes(t: Tally, base: set<nat>, level: set<nat>, done: set<nat>)
    requires LevelState(t, base, level, {}, {}, done)
    ensures Begun(t.log) == Ended(t.log) == base + level
  {
  }

  // ----- levels -----

  function Range(lo: nat, hi: nat): seq<nat>
    requires lo <= hi
  {
    if lo == hi then [] else Range(lo, hi - 1) + [hi - 1]
  }

  lemma {:induction false} RangeIs(lo: nat, hi: nat)
    requires lo <= hi
    ensures forall i: nat :: i in Range(lo, hi) <==> lo <= i < hi
  {
    if lo < hi {
      RangeIs(lo, hi - 1);
    }
  }

  function Below(i: nat, n: nat): seq<nat> {
    if i < n then [i] else []
  }

  /** The children, within the network, of the peers of a level. */
  function Children(level: seq<nat>, n: nat): seq<nat> {
    if level == [] then []
    else
      var i := level[|level| - 1];
      Children(level[..|level| - 1], n) + Below(2 * i + 1, n) + Below(2 * i + 2, n)
  }

  lemma RangeSnoc(lo: nat, hi: nat)
    requires lo < hi
    ensures Range(lo, hi) == Range(lo, hi - 1) + [hi - 1]
  {
  }

  lemma {:induction false} ChildrenOfRange(lo: nat, hi: nat, n: nat)
    requires lo <= hi
    ensures Children(Range(lo, hi), n) == Range(Min(2 * lo + 1, n), Min(2 * hi + 1, n))
  {
    if lo < hi {
      ChildrenOfRange(lo, hi - 1, n);
      OneFamilyMore(lo, hi, n);
    }
  }

  lemma OneFamilyMore(lo: nat, hi: nat, n: nat)
    requires lo < hi
    requires Children(Range(lo, hi - 1), n) == Range(Min(2 * lo + 1, n), Min(2 * hi - 1, n))
    ensures Children(Range(lo, hi), n) == Range(Min(2 * lo + 1, n), Min(2 * hi + 1, n))
  {
    hide Range, Children, Below;
    RangeSnoc(lo, hi);
    ChildrenAppend(Range(lo, hi - 1), hi - 1, n);
    ExtendRange(Min(2 * lo + 1, n), 2 * hi - 1, n);
    ExtendRange(Min(2 * lo + 1, n), 2 * hi, n);
  }

  lemma ChildrenAppend(level: seq<nat>, i: nat, n: nat)
    ensures Children(level + [i], n) == Children(level, n) + Below(2 * i + 1, n) + Below(2 * i + 2, n)
  {
    assert (level + [i])[..|level|] == level;
  }

  lemma ExtendRange(lo: nat, i: nat, n: nat)
    requires lo <= Min(i, n)
    ensures Range(lo, Min(i, n)) + Below(i, n) == Range(lo, Min(i + 1, n))
  {
  }

  method NextLevel(level: seq<nat>, n: nat) returns (next: seq<nat>)
    ensures next == Children(level, n)
  {
    next := [];
    for k := 0 to |level|
      invariant next == Children(level[..k], n)
    {
      assert level[..k + 1][..k] == level[..k];
      var i := level[k];
      if 2 * i + 1 < n {
        next := next + [2 * i + 1];
      }
      if 2 * i + 2 < n {
        next := next + [2 * i + 2];
      }
    }
    assert level[..|level|] == level;
  }

  function ToSet(level: seq<nat>): set<nat> {
    set i | i in level
  }

  /**
   The whole join: it terminates, attempts every peer but the root exactly once and
   only after its parent's attempt has ended, and accounts for all of them.
   */
  method JoinOverlay(net: Network, n: nat) returns (t: Tally)
    requires n >= 2
    ensures Proper(t.log, if n >= 200 then 8 else Min(16, n))
    ensures Begun(t.log) == Ended(t.log) == Peers(1, n)
    ensures t.ok + t.fail == n - 1
    ensures t.joined == {0} + Joiners(net, Peers(1, n))
    ensures |t.joined| == t.ok + 1
    ensures t.fail == 0 <==> t.joined == Peers(0, n)
  {
    hide Joins, Joiners, Begun, Ended, Proper, Range, Children, Sound, ToSet, Peers, Parent;
    var limit := JoinLimit(n);
    t := Tally([], {0}, 0, 0);
    SoundStart(net, limit);
    var level := if n > 2 then [1, 2] else [1];
    ghost var lo: nat, hi: nat := 1, Min(3, n);
    FirstLevel(n);
    while level != []
      invariant 1 <= lo <= hi <= n && hi == Min(2 * lo + 1, n) && level == Range(lo, hi)
      invariant Sound(t, net, limit)
      invariant Begun(t.log) == Ended(t.log) == Peers(1, lo)
      decreases n - lo
    {
      RangeNonEmpty(lo, hi);
      LevelFits(lo, hi, n);
      t := RunLevel(net, ToSet(level), limit, t);
      level := NextLevel(level, n);
      lo, hi := hi, Min(2 * hi + 1, n);
    }
    RangeNonEmpty(lo, hi);
    PeersCount(1, n);
    SoundEnough(t, net, limit);
    AllJoined(net, t.joined, n);
  }

  /** A level is ready to run once the peers above it have, and the next one starts where it ends. */
  lemma LevelFits(lo: nat, hi: nat, n: nat)
    requires 1 <= lo < hi <= n && hi == Min(2 * lo + 1, n)
    ensures ToSet(Range(lo, hi)) == Peers(lo, hi)
    ensures forall i :: i in Peers(lo, hi) ==>
      i > 0 && i !in Peers(1, lo) && (Parent(i) == 0 || Parent(i) in Peers(1, lo))
    ensures Peers(1, lo) + Peers(lo, hi) == Peers(1, hi)
    ensures Children(Range(lo, hi), n) == Range(hi, Min(2 * hi + 1, n))
  {
    hide Range, Children;
    RangeIs(lo, hi);
    ChildrenOfRange(lo, hi, n);
  }

  lemma AllJoined(net: Network, joined: set<nat>, n: nat)
    requires n >= 1 && joined == {0} + Joiners(net, Peers(1, n))
    ensures joined == Peers(0, n) <==> |joined| == n
  {
    hide Joins;
    PeersCount(0, n);
    if |joined| == n {
      FullSubset(joined, Peers(0, n));
    }
  }

  lemma SoundStart(net: Network, limit: nat)
    ensures Sound(Tally([], {0}, 0, 0), net, limit) && Begun([]) == Ended([]) == Peers(1, 1)
  {
  }

  lemma SoundEnough(t: Tally, net: Network, limit: nat)
    requires Sound(t, net, limit)
    ensures Proper(t.log, limit) && t.ok + t.fail == |Ended(t.log)| && |t.joined| == t.ok + 1
    ensures t.joined == {0} + Joiners(net, Ended(t.log))
  {
  }

  lemma RangeNonEmpty(lo: nat, hi: nat)
    requires lo <= hi
    ensures Range(lo, hi) == [] <==> lo == hi
  {
  }

  lemma FirstLevel(n: nat)
    requires n >= 2
    ensures Range(1, Min(3, n)) == if n > 2 then [1, 2] else [1]
  {
  }

  /** When every peer has joined, each reaches the root through joined parents in `Depth(i)` hops. */
  lemma AllReachRoot(n: nat, i: nat)
    requires 0 < i < n
    ensures |Ancestors(i)| == Depth(i) && Ancestors(i)[Depth(i) - 1] == 0
    ensures forall a :: a in Ancestors(i) ==> a in Peers(0, n)
    ensures Pow2(Depth(i)) <= i + 1 < 2 * Pow2(Depth(i))
  {
    AncestorsExact(i, 0);
    AncestorsAreSmaller(i);
    DepthIsLog(i);
  }

  lemma FullSubset(a: set<nat>, b: set<nat>)
    requires a <= b && |a| == |b|
    ensures a == b
  {
    assert |b - a| == |b| - |a|;
  }

  lemma {:induction false} AncestorsAreSmaller(i: nat)
    ensures forall a :: a in Ancestors(i) ==> a < i
  {
    if i > 0 {
      AncestorsAreSmaller(Parent(i));
    }
  }

  // ----- warming up -----

  /** One `add_peer` call: the table of `at` is given `peer`. */
  datatype AddPeer = AddPeer(at: nat, peer: nat)

  /** Who was given the peer, in order. */
  function GivenTo(calls: seq<AddPeer>, peer: nat): seq<nat> {
    if calls == [] then []
    else GivenTo(calls[..|calls| - 1], peer)
         + if calls[|calls| - 1].peer == peer then [calls[|calls| - 1].at] else []
  }

  lemma GivenToAppend(calls: seq<AddPeer>, c: AddPeer, peer: nat)
    ensures GivenTo(calls + [c], peer) == GivenTo(calls, peer) + if c.peer == peer then [c.at] else []
  {
  }

  ghost predicate Increasing(ps: seq<nat>) {
    forall i, j :: 0 <= i < j < |ps| ==> ps[i] < ps[j]
  }

  /** Climbs from one peer to the root, handing it to every peer on the way. */
  method Climb(peer: nat, before: seq<AddPeer>) returns (calls: seq<AddPeer>)
    ensures GivenTo(calls, peer) == GivenTo(before, peer) + Ancestors(peer)
    ensures forall other :: other != peer ==> GivenTo(calls, other) == GivenTo(before, other)
  {
    calls := before;
    var cur := peer;
    while cur > 0
      invariant GivenTo(calls, peer) + Ancestors(cur) == GivenTo(before, peer) + Ancestors(peer)
      invariant forall other :: other != peer ==> GivenTo(calls, other) == GivenTo(before, other)
      decreases cur
    {
      var parent := Parent(cur);
      forall p: nat
        ensures GivenTo(calls + [AddPeer(parent, peer)], p) == GivenTo(calls, p) + if p == peer then [parent] else []
      {
        GivenToAppend(calls, AddPeer(parent, peer), p);
      }
      calls := calls + [AddPeer(parent, peer)];
      cur := parent;
    }
  }

  /**
   The warm-up hands every joined peer to exactly its proper ancestors, nearest
   first and once each, and hands nothing else to anyone.
   */
  method WarmUp(joined: seq<nat>) returns (calls: seq<AddPeer>)
    requires Increasing(joined)
    ensures forall i: nat :: GivenTo(calls, i) == if i in joined then Ancestors(i) else []
  {
    calls := [];
    for k := 0 to |joined|
      invariant forall i: nat :: GivenTo(calls, i) == if i in joined[..k] then Ancestors(i) else []
    {
      var i := joined[k];
      assert i !in joined[..k];
      assert forall j: nat :: j in joined[..k + 1] <==> j in joined[..k] || j == i;
      if i == 0 {
        continue;
      }
      calls := Climb(i, calls);
    }
    assert joined[..|joined|] == joined;
  }

  /** Put together: who was given i, and how often. */
  lemma WarmUpReachesAncestors(joined: seq<nat>, calls: seq<AddPeer>, i: nat, a: nat)
    requires forall j: nat :: GivenTo(calls, j) == if j in joined then Ancestors(j) else []
    requires i in joined
    ensures a in GivenTo(calls, i) <==> ProperAncestor(a, i)
    ensures |GivenTo(calls, i)| == Depth(i) && Pow2(Depth(i)) <= i + 1 < 2 * Pow2(Depth(i))
    ensures i > 0 ==> 0 in GivenTo(calls, i)
  {
    AncestorsExact(i, a);
    DepthIsLog(i);
  }
}
