/** The exam after the join: random directed pairs of joined peers look each other up and chat. */
module PairBattery {
  import opened Outcomes
  import opened Lists
  import opened Numbers
  import opened Text
  import opened Overlay

  type Pair = (nat, nat)

  // ----- how many pairs -----

  datatype SizeError = NetworkTooSmall | NoPairs

  /** The number of pairs asked for, after defaults and clamping. */
  function PairCount(n: int, requested: Option<int>): Result<nat, SizeError> {
    if n < 2 then Err(NetworkTooSmall)
    else
      var max := n * (n - 1);
      var count := if requested.None? then Min(Min(max, Max(n, 10)), 40) else requested.value;
      if count < 1 then Err(NoPairs) else if count > max then Ok(max) else Ok(count)
  }

  /**
   How many pairs are run. The default is all of them for up to three peers, ten
   below ten peers, one per peer from then on, and forty at most.
   */
  lemma PairCountExact(n: int, requested: Option<int>)
    ensures PairCount(n, requested) == Err(NetworkTooSmall) <==> n < 2
    ensures PairCount(n, requested) == Err(NoPairs) <==> n >= 2 && requested.Some? && requested.value < 1
    ensures n >= 2 && requested.None? ==>
      var count := if n == 2 then 2 else if n == 3 then 6 else if n < 10 then 10 else if n < 40 then n else 40;
      PairCount(n, requested) == Ok(count)
    ensures n >= 2 && requested.Some? && 1 <= requested.value ==>
      PairCount(n, requested) == Ok(Min(requested.value, n * (n - 1)))
  {
    if n >= 4 {
      AtLeast(n, 3);
    }
    if n >= 10 {
      AtLeast(n, 1);
    }
  }

  lemma AtLeast(n: int, k: int)
    requires 0 <= k <= n - 1
    ensures n * (n - 1) >= n * k
  {
  }

  // ----- which pairs -----

  /** `[(a, b) for b in bs if a != b]`. */
  function Row(a: nat, bs: seq<nat>): seq<Pair> {
    if bs == [] then []
    else Row(a, bs[..|bs| - 1]) + if bs[|bs| - 1] != a then [(a, bs[|bs| - 1])] else []
  }

  function Rows(sources: seq<nat>, bs: seq<nat>): seq<Pair> {
    if sources == [] then [] else Rows(sources[..|sources| - 1], bs) + Row(sources[|sources| - 1], bs)
  }

  /** `[(a, b) for a in js for b in js if a != b]`. */
  function AllDirected(js: seq<nat>): seq<Pair> {
    Rows(js, js)
  }

  lemma {:induction false} RowIs(a: nat, bs: seq<nat>)
    requires NoRepeats(bs)
    ensures |Row(a, bs)| == |bs| - if a in bs then 1 else 0
    ensures forall p :: p in Row(a, bs) <==> p.0 == a && p.1 in bs && p.1 != a
    ensures NoRepeats(Row(a, bs))
  {
    if bs != [] {
      var init, last := bs[..|bs| - 1], bs[|bs| - 1];
      RowIs(a, init);
      assert last !in init;
      assert bs == init + [last];
    }
  }

  lemma {:induction false} RowsCount(sources: seq<nat>, bs: seq<nat>)
    requires NoRepeats(bs) && forall a :: a in sources ==> a in bs
    ensures |Rows(sources, bs)| == |sources| * (|bs| - 1)
  {
    if sources != [] {
      var init, last := sources[..|sources| - 1], sources[|sources| - 1];
      RowsCount(init, bs);
      RowIs(last, bs);
      assert last in sources;
      MoreRows(|init|, |bs| - 1);
    }
  }

  lemma MoreRows(n: nat, width: int)
    ensures (n + 1) * width == n * width + width
  {
  }

  lemma {:induction false} RowsHold(sources: seq<nat>, bs: seq<nat>, p: Pair)
    requires NoRepeats(bs)
    ensures p in Rows(sources, bs) <==> p.0 in sources && p.1 in bs && p.0 != p.1
  {
    hide Row, NoRepeats;
    if sources != [] {
      var init, last := sources[..|sources| - 1], sources[|sources| - 1];
      RowsHold(init, bs, p);
      RowIs(last, bs);
      assert sources == init + [last];
    }
  }

  lemma {:induction false} RowsDoNotRepeat(sources: seq<nat>, bs: seq<nat>)
    requires NoRepeats(sources) && NoRepeats(bs)
    ensures NoRepeats(Rows(sources, bs))
  {
    if sources != [] {
      var init, last := sources[..|sources| - 1], sources[|sources| - 1];
      RowsDoNotRepeat(init, bs);
      RowIs(last, bs);
      assert last !in init;
      forall p | p in Rows(init, bs)
        ensures p !in Row(last, bs)
      {
        RowsHold(init, bs, p);
      }
      AppendDistinct(Rows(init, bs), Row(last, bs));
    }
  }

  function Take<T>(s: seq<T>, count: nat): seq<T> {
    if count <= |s| then s[..count] else s
  }

  /**
   However the shuffle falls, the chosen pairs are distinct, directed, between
   joined peers, and as many as asked for or as there are.
   */
  lemma ChosenPairs(js: seq<nat>, shuffled: seq<Pair>, count: nat)
    requires Increasing(js) && |js| >= 2 && count >= 1
    requires multiset(shuffled) == multiset(AllDirected(js))
    ensures var pairs := Take(shuffled, count);
      && |pairs| == Min(count, |js| * (|js| - 1)) && |pairs| >= 1
      && NoRepeats(pairs)
      && (forall p :: p in pairs ==> p.0 in js && p.1 in js && p.0 != p.1)
      && (count >= |js| * (|js| - 1) ==> forall a, b :: a in js && b in js && a != b ==> (a, b) in pairs)
  {
    hide Row, Rows;
    RowsCount(js, js);
    RowsDoNotRepeat(js, js);
    forall p: Pair
      ensures p in AllDirected(js) <==> p.0 in js && p.1 in js && p.0 != p.1
    {
      RowsHold(js, js, p);
    }
    ShuffleKeeps(AllDirected(js), shuffled);
    assert |js| * (|js| - 1) >= 2;
    var pairs := Take(shuffled, count);
    assert forall p :: p in pairs ==> p in shuffled;
  }

  // ----- payloads -----

  /** The payload of one attempt; `seed` is the seed as printed. */
  function Payload(pair: Pair, idx: nat, seed: string, attempt: nat): string {
    "pair-" + (Decimal(pair.0) + ['-'] + (Decimal(pair.1) + ['-']
    + (Decimal(idx) + ['-'] + (seed + "-a" + (Decimal(attempt) + "\n")))))
  }

  /** The text of a payload. */
  lemma PayloadSays(pair: Pair, idx: nat, seed: string, attempt: nat)
    ensures Payload(pair, idx, seed, attempt) == "pair-" + Decimal(pair.0) + "-" + Decimal(pair.1) + "-"
                                                 + Decimal(idx) + "-" + seed + "-a" + Decimal(attempt) + "\n"
  {
    hide Decimal;
    var x3 := Decimal(attempt) + "\n";
    var x2 := seed + "-a" + x3;
    var x1 := Decimal(idx) + ['-'] + x2;
    var x0 := Decimal(pair.1) + ['-'] + x1;
    var p0 := "pair-" + Decimal(pair.0) + "-";
    assert Payload(pair, idx, seed, attempt) == p0 + x0;
    var p1 := p0 + Decimal(pair.1) + "-";
    assert p0 + x0 == p1 + x1;
    var p2 := p1 + Decimal(idx) + "-";
    assert p1 + x1 == p2 + x2;
    var p3 := p2 + seed + "-a";
    assert p2 + x2 == p3 + x3;
    assert p3 + x3 == p3 + Decimal(attempt) + "\n";
  }

  lemma NoDash(n: nat)
    ensures '-' !in Decimal(n)
  {
  }

  lemma SplitNumber(m: nat, x: string, n: nat, y: string)
    requires Decimal(m) + ['-'] + x == Decimal(n) + ['-'] + y
    ensures m == n && x == y
  {
    NoDash(m);
    NoDash(n);
    FirstSeparator('-', Decimal(m), x, Decimal(n), y);
    DecimalReadsBack(m);
    DecimalReadsBack(n);
  }

  lemma StripCommon(p: string, x: string, y: string)
    requires p + x == p + y
    ensures x == y
  {
    assert x == (p + x)[|p|..] && y == (p + y)[|p|..];
  }

  lemma StripEnd(x: string, y: string, e: string)
    requires x + e == y + e
    ensures x == y
  {
    assert x == (x + e)[..|x|] && y == (y + e)[..|y|];
  }

  /** No two attempts of a run share a payload. */
  lemma PayloadsDiffer(p: Pair, i: nat, a: nat, q: Pair, j: nat, b: nat, seed: string)
    requires Payload(p, i, seed, a) == Payload(q, j, seed, b)
    ensures p == q && i == j && a == b
  {
    hide Decimal;
    var x3, y3 := Decimal(a) + "\n", Decimal(b) + "\n";
    var x2, y2 := seed + "-a" + x3, seed + "-a" + y3;
    var x1, y1 := Decimal(i) + ['-'] + x2, Decimal(j) + ['-'] + y2;
    var x0, y0 := Decimal(p.1) + ['-'] + x1, Decimal(q.1) + ['-'] + y1;
    StripCommon("pair-", Decimal(p.0) + ['-'] + x0, Decimal(q.0) + ['-'] + y0);
    SplitNumber(p.0, x0, q.0, y0);
    SplitNumber(p.1, x1, q.1, y1);
    SplitNumber(i, x2, j, y2);
    StripCommon(seed + "-a", x3, y3);
    StripEnd(Decimal(a), Decimal(b), "\n");
    DecimalReadsBack(a);
    DecimalReadsBack(b);
  }

  // ----- running the pairs -----

  const TRIES := 3

  /**
   What the network does during one attempt: whether the lookup ends in time, what
   reaches the chat handlers before it does, whether connecting and writing work,
   and what reaches the handlers after that until the wait ends.
   */
  datatype Script = Script(
    found: bool, early: seq<string>, written: bool, late: seq<string>, lookupMs: real, msgMs: real)

  predicate Delivers(script: Script, payload: string) {
    script.found && script.written && (payload in script.early || payload in script.late)
  }

  type World = (nat, nat) -> Script

  /** Some attempt of the pair delivers its own payload. */
  ghost predicate PairSucceeds(pair: Pair, idx: nat, seed: string, world: World) {
    exists attempt: nat :: attempt < 3 && Delivers(world(idx, attempt), Payload(pair, idx, seed, attempt))
  }

  /** The lookup times of the attempts from the given one on that find their peer, up to the first that delivers. */
  ghost function Lookups(pair: Pair, idx: nat, seed: string, world: World, attempt: nat): seq<real>
    decreases 3 - attempt
  {
    if attempt >= 3 then []
    else
      var script := world(idx, attempt);
      (if script.found then [script.lookupMs] else [])
      + if Delivers(script, Payload(pair, idx, seed, attempt)) then [] else Lookups(pair, idx, seed, world, attempt + 1)
  }

  /** The message time of a pair, if one of its attempts from the given one on delivers. */
  ghost function Messages(pair: Pair, idx: nat, seed: string, world: World, attempt: nat): seq<real>
    decreases 3 - attempt
  {
    if attempt >= 3 then []
    else if Delivers(world(idx, attempt), Payload(pair, idx, seed, attempt)) then [world(idx, attempt).msgMs]
    else Messages(pair, idx, seed, world, attempt + 1)
  }

  ghost function AllLookups(pairs: seq<Pair>, seed: string, world: World): seq<real> {
    if pairs == [] then []
    else AllLookups(pairs[..|pairs| - 1], seed, world) + Lookups(pairs[|pairs| - 1], |pairs|, seed, world, 0)
  }

  ghost function AllMessages(pairs: seq<Pair>, seed: string, world: World): seq<real> {
    if pairs == [] then []
    else AllMessages(pairs[..|pairs| - 1], seed, world) + Messages(pairs[|pairs| - 1], |pairs|, seed, world, 0)
  }

  ghost function Successes(pairs: seq<Pair>, seed: string, world: World): nat {
    if pairs == [] then 0
    else Successes(pairs[..|pairs| - 1], seed, world)
         + if PairSucceeds(pairs[|pairs| - 1], |pairs|, seed, world) then 1 else 0
  }

  lemma SuccessesAppend(pairs: seq<Pair>, k: nat, seed: string, world: World)
    requires k < |pairs|
    ensures Successes(pairs[..k + 1], seed, world)
         == Successes(pairs[..k], seed, world) + if PairSucceeds(pairs[k], k + 1, seed, world) then 1 else 0
    ensures AllLookups(pairs[..k + 1], seed, world)
         == AllLookups(pairs[..k], seed, world) + Lookups(pairs[k], k + 1, seed, world, 0)
    ensures AllMessages(pairs[..k + 1], seed, world)
         == AllMessages(pairs[..k], seed, world) + Messages(pairs[k], k + 1, seed, world, 0)
  {
    assert pairs[..k + 1][..k] == pairs[..k];
  }

  /** The waiters shared by the chat handlers: payload to the number of the event it sets. */
  class Waiters {
    var pending: map<string, nat>
    var set_: set<nat>

    constructor ()
      ensures pending == map[] && set_ == {}
    {
      pending, set_ := map[], {};
    }

    /** A chat handler has read some data. */
    method Handle(data: string)
      modifies this
      ensures var hit := data != "" && data in old(pending);
        && pending == (if hit then old(pending) - {data} else old(pending))
        && set_ == (if hit then old(set_) + {old(pending)[data]} else old(set_))
    {
      if data == "" {
        return;
      }
      if data in pending {
        var event := pending[data];
        pending := pending - {data};
        set_ := set_ + {event};
      }
    }

    /**
     While one payload is waited for, its event is set exactly when that payload
     arrives, whatever else arrives, and no other event is touched.
     */
    method HandleAll(datas: seq<string>, payload: string, event: nat)
      requires payload != "" && pending == (if event in set_ then map[] else map[payload := event])
      modifies this
      ensures set_ == old(set_) + if payload in datas then {event} else {}
      ensures pending == if event in set_ then map[] else map[payload := event]
    {
      for i := 0 to |datas|
        invariant set_ == old(set_) + if payload in datas[..i] then {event} else {}
        invariant pending == if event in set_ then map[] else map[payload := event]
      {
        assert payload in datas[..i + 1] <==> payload in datas[..i] || payload == datas[i];
        Handle(datas[i]);
      }
      assert datas[..|datas|] == datas;
    }

    /**
     One attempt. It succeeds exactly when the network delivers its own payload,
     and whichever way it ends no waiter is left behind.
     */
    method Attempt(payload: string, event: nat, script: Script) returns (ok: bool)
      requires payload != "" && pending == map[] && event !in set_
      modifies this
      ensures ok <==> Delivers(script, payload)
      ensures pending == map[] && set_ <= old(set_) + {event}
    {
      pending := pending[payload := event];
      HandleAll(script.early, payload, event);
      if !script.found || !script.written {
        pending := pending - {payload};
        return false;
      }
      HandleAll(script.late, payload, event);
      if event in set_ {
        return true;
      }
      pending := pending - {payload};
      return false;
    }
  }

  datatype Report = Report(ok: nat, fail: nat, lookupMs: seq<real>, msgMs: seq<real>)

  /** Up to three attempts for one pair. */
  method RunPair(w: Waiters, pair: Pair, idx: nat, seed: string, world: World, next: nat, before: Report)
    returns (report: Report, events: nat)
    requires w.pending == map[] && forall e :: e in w.set_ ==> e < next
    modifies w
    ensures w.pending == map[] && events >= next && forall e :: e in w.set_ ==> e < events
    ensures report.ok == before.ok + (if PairSucceeds(pair, idx, seed, world) then 1 else 0)
    ensures report.ok + report.fail == before.ok + before.fail + 1
    ensures |report.msgMs| - |before.msgMs| == report.ok - before.ok
    ensures report.ok - before.ok <= |report.lookupMs| - |before.lookupMs| <= 3
    ensures report.lookupMs == before.lookupMs + Lookups(pair, idx, seed, world, 0)
    ensures report.msgMs == before.msgMs + Messages(pair, idx, seed, world, 0)
  {
    hide Payload, Delivers, Lookups, Messages, PairSucceeds;
    report, events := before, next;
    LatencyCounts(pair, idx, seed, world);
    for attempt := 0 to TRIES
      invariant w.pending == map[] && events >= next && forall e :: e in w.set_ ==> e < events
      invariant report.ok == before.ok && report.fail == before.fail && report.msgMs == before.msgMs
      invariant report.lookupMs + Lookups(pair, idx, seed, world, attempt)
             == before.lookupMs + Lookups(pair, idx, seed, world, 0)
      invariant Messages(pair, idx, seed, world, attempt) == Messages(pair, idx, seed, world, 0)
    {
      var payload := Payload(pair, idx, seed, attempt);
      PayloadNonEmpty(pair, idx, seed, attempt);
      var script := world(idx, attempt);
      var ok := w.Attempt(payload, events, script);
      LatencyStep(pair, idx, seed, world, attempt);
      events := events + 1;
      if script.found {
        report := report.(lookupMs := report.lookupMs + [script.lookupMs]);
      }
      if ok {
        report := report.(msgMs := report.msgMs + [script.msgMs], ok := report.ok + 1);
        return;
      }
    }
    LatencyStep(pair, idx, seed, world, TRIES);
    report := report.(fail := report.fail + 1);
  }

  lemma LatencyStep(pair: Pair, idx: nat, seed: string, world: World, attempt: nat)
    ensures attempt >= 3 ==>
      Lookups(pair, idx, seed, world, attempt) == [] && Messages(pair, idx, seed, world, attempt) == []
    ensures attempt < 3 ==>
      var script := world(idx, attempt);
      var delivers := Delivers(script, Payload(pair, idx, seed, attempt));
      && Lookups(pair, idx, seed, world, attempt)
         == (if script.found then [script.lookupMs] else [])
            + (if delivers then [] else Lookups(pair, idx, seed, world, attempt + 1))
      && Messages(pair, idx, seed, world, attempt)
         == (if delivers then [script.msgMs] else Messages(pair, idx, seed, world, attempt + 1))
  {
    hide Delivers, Payload;
  }

  /** A pair that succeeds has one message time, another none; lookup times are at least as many, and at most three. */
  lemma LatencyCounts(pair: Pair, idx: nat, seed: string, world: World)
    ensures |Messages(pair, idx, seed, world, 0)| == if PairSucceeds(pair, idx, seed, world) then 1 else 0
    ensures |Messages(pair, idx, seed, world, 0)| <= |Lookups(pair, idx, seed, world, 0)| <= 3
  {
    hide Delivers, Payload, Lookups, Messages;
    forall attempt: nat | attempt < 3
      ensures Delivers(world(idx, attempt), Payload(pair, idx, seed, attempt)) ==> world(idx, attempt).found
    {
      DeliveredIsFound(world(idx, attempt), Payload(pair, idx, seed, attempt));
    }
    LatencyStep(pair, idx, seed, world, 0);
    LatencyStep(pair, idx, seed, world, 1);
    LatencyStep(pair, idx, seed, world, 2);
    LatencyStep(pair, idx, seed, world, 3);
  }

  lemma DeliveredIsFound(script: Script, payload: string)
    ensures Delivers(script, payload) ==> script.found
  {
  }

  lemma PayloadNonEmpty(pair: Pair, idx: nat, seed: string, attempt: nat)
    ensures Payload(pair, idx, seed, attempt) != ""
  {
  }

  /**
   The battery: every pair is counted once, as succeeded exactly when one of its
   attempts delivers, latencies match the counts, and no waiter outlives its attempt.
   */
  method RunBattery(pairs: seq<Pair>, seed: string, world: World) returns (report: Report, w: Waiters)
    ensures fresh(w) && w.pending == map[]
    ensures report.ok == Successes(pairs, seed, world)
    ensures report.ok + report.fail == |pairs|
    ensures |report.msgMs| == report.ok
    ensures report.ok <= |report.lookupMs| <= 3 * |pairs|
    ensures report.lookupMs == AllLookups(pairs, seed, world) && report.msgMs == AllMessages(pairs, seed, world)
  {
    hide PairSucceeds, Lookups, Messages;
    w := new Waiters();
    var events := 0;
    report := Report(0, 0, [], []);
    for k := 0 to |pairs|
      invariant w.pending == map[] && forall e :: e in w.set_ ==> e < events
      invariant report.ok == Successes(pairs[..k], seed, world)
      invariant report.ok + report.fail == k && |report.msgMs| == report.ok
      invariant report.ok <= |report.lookupMs| <= 3 * k
      invariant report.lookupMs == AllLookups(pairs[..k], seed, world)
      invariant report.msgMs == AllMessages(pairs[..k], seed, world)
    {
      SuccessesAppend(pairs, k, seed, world);
      report, events := RunPair(w, pairs[k], k + 1, seed, world, events, report);
    }
    assert pairs[..|pairs|] == pairs;
  }
}
