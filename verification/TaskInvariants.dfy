/** What every operation of the task store keeps, and what its reads show. */
module TaskInvariants {
  import opened Outcomes
  import opened Json
  import opened Quotes
  import opened Tasks

  // ----- which authorization a task rests on -----

  /** The authorization of the last message that carries one paying for the quote. */
  ghost function LastPaying(env: Env, quote: Quote, ms: seq<Message>): Option<Object> {
    if ms == [] then None
    else
      var auth := AuthorizationOf(ms[|ms| - 1]);
      if auth.Some? && Pays(env, auth.value, quote) then auth
      else LastPaying(env, quote, ms[..|ms| - 1])
  }

  lemma LastPayingAppend(env: Env, quote: Quote, h: seq<Message>, m: Message)
    requires h != []
    ensures (h + [m])[1..] == h[1..] + [m]
    ensures LastPaying(env, quote, (h + [m])[1..]) ==
            if AuthorizationOf(m).Some? && Pays(env, AuthorizationOf(m).value, quote) then AuthorizationOf(m)
            else LastPaying(env, quote, h[1..])
  {
  }

  /** The authorization that `LastPaying` finds does pay, and sits in one of the messages. */
  lemma {:induction false} LastPayingPays(env: Env, quote: Quote, ms: seq<Message>)
    requires LastPaying(env, quote, ms).Some?
    ensures Pays(env, LastPaying(env, quote, ms).value, quote)
    ensures exists i :: 0 <= i < |ms| && AuthorizationOf(ms[i]) == LastPaying(env, quote, ms)
  {
    var last := |ms| - 1;
    var auth := AuthorizationOf(ms[last]);
    if auth.Some? && Pays(env, auth.value, quote) {
      assert AuthorizationOf(ms[last]) == LastPaying(env, quote, ms);
    } else {
      LastPayingPays(env, quote, ms[..last]);
      var i :| 0 <= i < last && AuthorizationOf(ms[..last][i]) == LastPaying(env, quote, ms[..last]);
      assert AuthorizationOf(ms[i]) == LastPaying(env, quote, ms);
    }
  }

  // ----- the invariant -----

  /** The record was quoted for the request it was created from, and is filed under that request's id. */
  ghost predicate Quoted(env: Env, id: string, r: Record) {
    && Acceptable(r.request)
    && id == TaskId(env, r.request)
    && r.quote == BuildQuote(env, r.request)
    && r.contextId == ContextId(id)
  }

  /** Task and record agree. */
  ghost predicate Coherent(id: string, r: Record) {
    && r.task.id == id
    && r.task.contextId == r.contextId
    && r.task.quote == r.quote
    && r.task.history == r.history
    && r.history != []
  }

  /** Pending and completed tasks, and only they, rest on the last paying authorization. */
  ghost predicate PaidFor(env: Env, r: Record)
    requires r.history != []
  {
    var paid := LastPaying(env, r.quote, r.history[1..]);
    && (r.pending.Some? ==>
          && paid == Some(r.pending.value.authorization)
          && r.pending.value == MakePending(env, r.request, r.quote, r.pending.value.authorization))
    && (r.task.state.Completed? ==>
          && paid.Some?
          && r.pending.None?
          && r.task.authorization == paid
          && r.task.artifacts == Some([BuildPaymentArtifact(env, r.quote, paid.value),
                                       StorageArtifact(SimulatedResult(env, r.request, r.quote))]))
    && (r.pending.None? && !r.task.state.Completed? ==> paid.None?)
  }

  ghost predicate StateShape(r: Record, hasDeadline: bool) {
    && !r.task.state.Failed?
    && !r.task.state.Rejected?
    && (r.task.state.Working? ==>
          && hasDeadline
          && r.pending.Some?
          && r.task.authorization == Some(r.pending.value.authorization))
    && (!r.task.state.Completed? ==> r.task.artifacts.None? || r.task.artifacts == Some([]))
  }

  ghost predicate SettledRecord(env: Env, id: string, r: Record, hasDeadline: bool) {
    Coherent(id, r) && PaidFor(env, r) && StateShape(r, hasDeadline)
  }

  /** Every record agrees with its task, its payments and its state. */
  ghost predicate Settled(env: Env, s: State) {
    forall id :: id in s.tasks ==> SettledRecord(env, id, s.tasks[id], id in s.deadlines)
  }

  ghost predicate RecordInv(env: Env, id: string, r: Record, hasDeadline: bool) {
    Quoted(env, id, r) && SettledRecord(env, id, r, hasDeadline)
  }

  ghost predicate Inv(env: Env, s: State) {
    && Ordered(s)
    && (forall id :: id in s.tasks ==> RecordInv(env, id, s.tasks[id], id in s.deadlines))
  }

  lemma InvSettles(env: Env, s: State)
    requires Inv(env, s)
    ensures Settled(env, s)
  {
    hide Quoted, SettledRecord;
  }

  lemma EmptyInv(env: Env)
    ensures Inv(env, EMPTY)
  {
  }

  /** Replacing one record by another good one keeps the invariant. */
  lemma UpdateKeeps(env: Env, s: State, id: string, r: Record, deadlines: map<string, real>)
    requires Inv(env, s) && id in s.tasks
    requires RecordInv(env, id, r, id in deadlines)
    requires forall x :: x != id ==> (x in deadlines <==> x in s.deadlines)
    ensures Inv(env, s.(tasks := s.tasks[id := r], deadlines := deadlines))
  {
    hide RecordInv;
  }

  /** So does adding one under a new id, at the end of the order. */
  lemma AddKeeps(env: Env, s: State, id: string, r: Record)
    requires Inv(env, s) && id !in s.tasks
    requires RecordInv(env, id, r, id in s.deadlines)
    ensures Inv(env, s.(tasks := s.tasks[id := r], order := s.order + [id]))
  {
  }

  lemma CompletedRecord(env: Env, id: string, r: Record, clk: Clock)
    requires RecordInv(env, id, r, true) && r.pending.Some?
    ensures RecordInv(env, id, r.(pending := None, task := CompletedTask(id, r, r.pending.value, clk)), false)
  {
  }

  /** Completion keeps the invariant whether or not the task is WORKING. */
  lemma ForceCompleteKeeps(env: Env, s: State, id: string, clk: Clock)
    requires Inv(env, s) && id in s.tasks
    ensures Inv(env, ForceComplete(s, id, clk))
  {
    var r := s.tasks[id];
    if r.pending.Some? {
      CompletedRecord(env, id, r, clk);
      var completed := r.(pending := None, task := CompletedTask(id, r, r.pending.value, clk));
      UpdateKeeps(env, s, id, completed, s.deadlines - {id});
    }
  }

  lemma TryCompleteKeeps(env: Env, s: State, id: string, clk: Clock)
    requires Inv(env, s) && id in s.tasks
    ensures Inv(env, TryComplete(s, id, clk))
  {
    if Due(s, id, clk) {
      ForceCompleteKeeps(env, s, id, clk);
    }
  }

  lemma CancelKeeps(env: Env, s: State, id: string, clk: Clock)
    requires Inv(env, s)
    ensures Inv(env, Cancel(s, id, clk).0)
  {
    if id in s.tasks && !Terminal(s.tasks[id].task.state) {
      var r := s.tasks[id];
      UpdateKeeps(env, s, id, r.(task := r.task.(state := Canceled, stamp := clk.stamp)), s.deadlines);
    }
  }

  lemma NewRecord(env: Env, request: StoreRequest, m: Message, stamp: int, hasDeadline: bool)
    requires Acceptable(request)
    ensures var id, quote := TaskId(env, request), BuildQuote(env, request);
      var task := Task(id, ContextId(id), AuthRequired, stamp, [m], None, quote, None);
      RecordInv(env, id, Record(ContextId(id), request, quote, task, [m], None), hasDeadline)
  {
  }

  lemma CreateKeeps(env: Env, s: State, m: Message, payload: Object, clk: Clock)
    requires Inv(env, s)
    ensures Inv(env, Create(env, s, m, payload, clk).0)
  {
    hide Inv, Acceptable, TaskId, BuildQuote, ContextId, NormalizeStoreRequest;
    var (s', result) := Create(env, s, m, payload, clk);
    if result.Ok? {
      var request := NormalizeStoreRequest(payload).value;
      var id := TaskId(env, request);
      NormalizeRoundTrip(payload, request);
      NewRecord(env, request, m, clk.stamp, id in s.deadlines);
      if id in s.tasks {
        UpdateKeeps(env, s, id, s'.tasks[id], s.deadlines);
      } else {
        AddKeeps(env, s, id, s'.tasks[id]);
      }
    }
  }

  /** A message without a paying authorization puts the task back to AUTH_REQUIRED. */
  lemma UnpaidRecord(env: Env, id: string, r: Record, m: Message, stamp: int, hasDeadline: bool)
    requires RecordInv(env, id, r, hasDeadline) && !r.task.state.Completed?
    requires AuthorizationOf(m).Some? ==> !Pays(env, AuthorizationOf(m).value, r.quote)
    ensures var history := r.history + [m];
      var task := r.task.(history := history, state := AuthRequired, stamp := stamp);
      RecordInv(env, id, r.(history := history, task := task), hasDeadline)
  {
    LastPayingAppend(env, r.quote, r.history, m);
  }

  /** A paying authorization replaces whatever was pending. */
  lemma PaidRecord(env: Env, id: string, r: Record, m: Message, stamp: int, hasDeadline: bool)
    requires RecordInv(env, id, r, hasDeadline)
    requires AuthorizationOf(m).Some? && Pays(env, AuthorizationOf(m).value, r.quote)
    ensures var history := r.history + [m];
      var auth := AuthorizationOf(m);
      var task := Task(id, r.contextId, Working, stamp, history, Some([]), r.quote, auth);
      RecordInv(env, id, r.(history := history, task := task,
                            pending := Some(MakePending(env, r.request, r.quote, auth.value))), true)
  {
    LastPayingAppend(env, r.quote, r.history, m);
  }

  lemma RecordFacts(env: Env, id: string, r: Record, hasDeadline: bool)
    requires RecordInv(env, id, r, hasDeadline)
    ensures r.history != [] && r.task.quote == r.quote
  {
  }

  lemma ContinueKeeps(env: Env, s: State, id: string, m: Message, payload: Object, clk: Clock)
    requires Inv(env, s) && ExtractPayload(m) == Some(payload)
    ensures Inv(env, Continue(env, s, id, m, payload, clk).0)
  {
    hide RecordInv, Pays, MakePending, ExtractPayload, ValidateAuthorization, Ordered;
    var (s', result) := Continue(env, s, id, m, payload, clk);
    if result.Ok? {
      var r := s.tasks[id];
      assert RecordInv(env, id, r, id in s.deadlines);
      RecordFacts(env, id, r, id in s.deadlines);
      var auth := AuthorizationIn(payload);
      if auth.Some? {
        ValidateExact(env, auth.value, r.quote);
      }
      if auth.Some? && Pays(env, auth.value, r.quote) {
        PaidRecord(env, id, r, m, clk.stamp, id in s.deadlines);
      } else {
        UnpaidRecord(env, id, r, m, clk.stamp, id in s.deadlines);
      }
      UpdateKeeps(env, s, id, s'.tasks[id], s'.deadlines);
    }
  }

  lemma SendKeeps(env: Env, s: State, m: Message, clk: Clock)
    requires Inv(env, s)
    ensures Inv(env, Send(env, s, m, clk).0)
  {
    var payload := ExtractPayload(m);
    if payload.Some? {
      CreateKeeps(env, s, m, payload.value, clk);
      match OptionalString(m, "taskId")
      case None =>
      case Some(id) => ContinueKeeps(env, s, id, m, payload.value, clk);
    }
  }

  lemma {:induction false} RefreshKeeps(env: Env, s: State, ids: seq<string>, clk: Clock)
    requires Inv(env, s)
    ensures Inv(env, Refresh(s, ids, clk))
  {
    hide Inv;
    if ids != [] {
      RefreshKeeps(env, s, ids[..|ids| - 1], clk);
      var before := Refresh(s, ids[..|ids| - 1], clk);
      if ids[|ids| - 1] in before.tasks {
        TryCompleteKeeps(env, before, ids[|ids| - 1], clk);
      }
    }
  }

  lemma ListKeeps(env: Env, s: State, contextId: string, state: string, includeArtifacts: bool, clk: Clock)
    requires Inv(env, s)
    ensures Inv(env, ListTasks(s, contextId, state, includeArtifacts, clk).0)
  {
    RefreshKeeps(env, s, s.order, clk);
  }

  // ----- reads -----

  /** A read shows a WORKING task as WORKING exactly while its deadline is ahead, and as COMPLETED from then on. */
  lemma WorkingUntilDeadline(env: Env, s: State, id: string, clk: Clock)
    requires Settled(env, s) && id in s.tasks && s.tasks[id].task.state.Working?
    ensures id in s.deadlines
    ensures var shown := GetTask(s, id, clk).1;
      && shown.Some?
      && (shown.value.state.Working? <==> clk.monotonic < s.deadlines[id])
      && (shown.value.state.Completed? <==> s.deadlines[id] <= clk.monotonic)
  {
    assert SettledRecord(env, id, s.tasks[id], id in s.deadlines);
  }

  /** A completed task was paid for: some message after the first carries what it shows. */
  lemma CompletedWasPaid(env: Env, s: State, id: string)
    requires Settled(env, s) && id in s.tasks && s.tasks[id].task.state.Completed?
    ensures var t := s.tasks[id].task;
      && t.authorization.Some?
      && Pays(env, t.authorization.value, t.quote)
      && (exists i :: 1 <= i < |t.history| && AuthorizationOf(t.history[i]) == t.authorization)
  {
    hide Pays, SimulatedResult, BuildPaymentArtifact, MakePending;
    var r := s.tasks[id];
    assert SettledRecord(env, id, r, id in s.deadlines);
    var ms := r.history[1..];
    LastPayingPays(env, r.quote, ms);
    var i :| 0 <= i < |ms| && AuthorizationOf(ms[i]) == LastPaying(env, r.quote, ms);
    assert r.task.history[i + 1] == ms[i];
  }

  /**
   What a completed task shows for its money. The payment is of the sums quoted for
   the request, approved, and by the parseable payer of the authorization; the
   receipt is on the same rail and accounts for every requested copy.
   */
  lemma CompletedShowsReceipt(env: Env, s: State, id: string)
    requires Inv(env, s) && id in s.tasks && s.tasks[id].task.state.Completed?
    ensures var r := s.tasks[id];
      && r.task.authorization.Some?
      && r.task.artifacts.Some? && |r.task.artifacts.value| == 2
      && var payment, receipt := r.task.artifacts.value[0], r.task.artifacts.value[1];
      && PaysFor(env, payment, r.request, r.task.authorization.value)
      && receipt.StorageArtifact?
      && receipt.result.railId == payment.railId
      && |receipt.result.copies| + |receipt.result.failedAttempts| == r.request.copies
      && (receipt.result.complete <==> r.request.copies <= 2)
  {
    hide SimulatedResult, Ordered, TaskId, ContextId, LastPaying, Pays, PaysFor, BuildQuote;
    InvSettles(env, s);
    CompletedWasPaid(env, s, id);
    var r := s.tasks[id];
    assert RecordInv(env, id, r, id in s.deadlines);
    ResultAccountsForCopies(env, r.request, r.quote);
    ReceiptNamesRail(env, r.request, r.quote);
    PaymentSays(env, r.request, r.task.authorization.value);
  }

  /** The artifact of a payment for the request by the given authorization. */
  ghost predicate PaysFor(env: Env, payment: Artifact, request: StoreRequest, auth: Object) {
    && payment.PaymentArtifact?
    && payment.fixedLockup == FixedLockup(request.size, request.copies)
    && payment.streamingLockup == StreamingLockup(request.rate, request.epochs, request.copies)
    && payment.deposit == payment.fixedLockup + payment.streamingLockup
    && payment.token == request.token
    && payment.railId == "rail-" + env.railDigest(request.contentLabel, request.size, request.copies)
    && payment.approved == Bool(true)
    && payment.payer.Str? && payment.payer == Field(auth, "payer")
    && payment.payerAddress.Some? && payment.payerAddress == env.parseAddress(payment.payer.s)
  }

  lemma PaymentSays(env: Env, request: StoreRequest, auth: Object)
    requires Pays(env, auth, BuildQuote(env, request))
    ensures PaysFor(env, BuildPaymentArtifact(env, BuildQuote(env, request), auth), request, auth)
  {
    hide FixedLockup, StreamingLockup;
  }

  lemma ReceiptNamesRail(env: Env, r: StoreRequest, quote: Quote)
    ensures SimulatedResult(env, r, quote).railId == quote.railId
  {
  }

  /** Refreshing many tasks does to each what refreshing it alone does. */
  lemma {:induction false} RefreshAt(s: State, ids: seq<string>, id: string, clk: Clock)
    requires id in s.tasks
    ensures id in Refresh(s, ids, clk).tasks
    ensures var alone := if id in ids then TryComplete(s, id, clk) else s;
      && Refresh(s, ids, clk).tasks[id] == alone.tasks[id]
      && (id in Refresh(s, ids, clk).deadlines <==> id in alone.deadlines)
      && (id in alone.deadlines ==> Refresh(s, ids, clk).deadlines[id] == alone.deadlines[id])
  {
    if ids != [] {
      var last := |ids| - 1;
      assert forall x :: x in ids <==> x in ids[..last] || x == ids[last];
      RefreshAt(s, ids[..last], id, clk);
    }
  }

  /** The name of a state in a filter. */
  function FilterName(state: TaskState): string {
    if state.AuthRequired? then "TASK_STATE_AUTH_REQUIRED"
    else if state.Working? then "TASK_STATE_WORKING"
    else if state.Completed? then "TASK_STATE_COMPLETED"
    else if state.Failed? then "TASK_STATE_FAILED"
    else if state.Canceled? then "TASK_STATE_CANCELED"
    else "TASK_STATE_REJECTED"
  }

  /** A listed task: there unless a filter says otherwise, and without artifacts unless they are asked for. */
  function ShownAs(task: Task, contextId: string, state: string, includeArtifacts: bool): seq<Task> {
    if contextId != "" && contextId != task.contextId then []
    else if state != "" && state != FilterName(task.state) then []
    else if includeArtifacts then [task]
    else [task.(artifacts := None)]
  }

  lemma PickExact(task: Task, contextId: string, state: string, includeArtifacts: bool)
    ensures Pick(task, contextId, state, includeArtifacts) == ShownAs(task, contextId, state, includeArtifacts)
  {
  }

  /** What `get_task` shows for each selected id, one read at a time on the original state. */
  function SelectShown(
      s: State, ids: seq<string>, contextId: string, state: string, includeArtifacts: bool, clk: Clock): seq<Task>
  {
    if ids == [] then []
    else
      var shown := GetTask(s, ids[|ids| - 1], clk).1;
      SelectShown(s, ids[..|ids| - 1], contextId, state, includeArtifacts, clk)
      + if shown.Some? then ShownAs(shown.value, contextId, state, includeArtifacts) else []
  }

  lemma {:induction false} RefreshAddsNothing(s: State, ids: seq<string>, id: string, clk: Clock)
    requires id !in s.tasks
    ensures id !in Refresh(s, ids, clk).tasks
  {
    if ids != [] {
      RefreshAddsNothing(s, ids[..|ids| - 1], id, clk);
    }
  }

  lemma {:induction false} SelectIsShown(
      s: State, ids: seq<string>, contextId: string, state: string, includeArtifacts: bool, clk: Clock)
    requires forall id :: id in s.tasks ==> id in s.order
    ensures Select(Refresh(s, s.order, clk), ids, contextId, state, includeArtifacts)
         == SelectShown(s, ids, contextId, state, includeArtifacts, clk)
  {
    hide Pick, ShownAs;
    if ids != [] {
      SelectIsShown(s, ids[..|ids| - 1], contextId, state, includeArtifacts, clk);
      if ids[|ids| - 1] in s.tasks {
        RefreshAt(s, s.order, ids[|ids| - 1], clk);
        PickExact(GetTask(s, ids[|ids| - 1], clk).1.value, contextId, state, includeArtifacts);
      } else {
        RefreshAddsNothing(s, s.order, ids[|ids| - 1], clk);
      }
    }
  }

  // ----- the sort -----

  /** The tasks with a given stamp, in order. */
  function Bucket(ts: seq<Task>, stamp: int): seq<Task> {
    if ts == [] then []
    else Bucket(ts[..|ts| - 1], stamp) + if ts[|ts| - 1].stamp == stamp then [ts[|ts| - 1]] else []
  }

  ghost predicate NewestFirst(ts: seq<Task>) {
    forall i, j :: 0 <= i < j < |ts| ==> ts[j].stamp <= ts[i].stamp
  }

  lemma BucketAppend(ts: seq<Task>, t: Task, stamp: int)
    ensures Bucket(ts + [t], stamp) == Bucket(ts, stamp) + if t.stamp == stamp then [t] else []
  {
  }

  lemma {:induction false} InsertRearranges(sorted: seq<Task>, t: Task)
    ensures multiset(InsertByStamp(sorted, t)) == multiset(sorted) + multiset{t}
  {
    if sorted != [] && sorted[|sorted| - 1].stamp < t.stamp {
      assert sorted == sorted[..|sorted| - 1] + [sorted[|sorted| - 1]];
      InsertRearranges(sorted[..|sorted| - 1], t);
    }
  }

  lemma {:induction false} InsertSorts(sorted: seq<Task>, t: Task)
    requires NewestFirst(sorted)
    ensures NewestFirst(InsertByStamp(sorted, t))
  {
    if sorted != [] && sorted[|sorted| - 1].stamp < t.stamp {
      var init, last := sorted[..|sorted| - 1], sorted[|sorted| - 1];
      InsertSorts(init, t);
      InsertRearranges(init, t);
      var inserted := InsertByStamp(init, t);
      forall i | 0 <= i < |inserted|
        ensures last.stamp <= inserted[i].stamp
      {
        assert inserted[i] in multiset(inserted);
        assert inserted[i] in init || inserted[i] == t;
      }
    }
  }

  lemma {:induction false} InsertIsStable(sorted: seq<Task>, t: Task, stamp: int)
    requires NewestFirst(sorted)
    ensures Bucket(InsertByStamp(sorted, t), stamp) == Bucket(sorted + [t], stamp)
  {
    BucketAppend(sorted, t, stamp);
    if sorted != [] && sorted[|sorted| - 1].stamp < t.stamp {
      var init, last := sorted[..|sorted| - 1], sorted[|sorted| - 1];
      InsertIsStable(init, t, stamp);
      BucketAppend(InsertByStamp(init, t), last, stamp);
      BucketAppend(init, t, stamp);
    }
  }

  /**
   The sort is the stable one, newest first: an ordered rearrangement that keeps
   the tasks of each stamp in the order they came in.
   */
  lemma {:induction false} SortIsStable(ts: seq<Task>, stamp: int)
    ensures NewestFirst(SortNewestFirst(ts))
    ensures multiset(SortNewestFirst(ts)) == multiset(ts)
    ensures Bucket(SortNewestFirst(ts), stamp) == Bucket(ts, stamp)
  {
    if ts != [] {
      var init, last := ts[..|ts| - 1], ts[|ts| - 1];
      assert ts == init + [last];
      SortIsStable(init, stamp);
      InsertRearranges(SortNewestFirst(init), last);
      InsertSorts(SortNewestFirst(init), last);
      InsertIsStable(SortNewestFirst(init), last, stamp);
      BucketAppend(SortNewestFirst(init), last, stamp);
      BucketAppend(init, last, stamp);
    }
  }

  /** A refresh of all leaves each task as a read of it alone would. */
  lemma RefreshLeaves(s: State, id: string, clk: Clock)
    requires Ordered(s) && id in s.tasks
    ensures id in Refresh(s, s.order, clk).tasks && id in GetTask(s, id, clk).0.tasks
    ensures Refresh(s, s.order, clk).tasks[id] == GetTask(s, id, clk).0.tasks[id]
  {
    hide Refresh;
    RefreshAt(s, s.order, id, clk);
  }

  /** What a listing leaves behind is what one read of every task leaves behind. */
  ghost predicate LeftAsRead(s: State, s': State, clk: Clock) {
    forall id :: id in s.tasks ==>
      id in s'.tasks && id in GetTask(s, id, clk).0.tasks && s'.tasks[id] == GetTask(s, id, clk).0.tasks[id]
  }

  /**
   `list_tasks` at an instant is the filtered and sorted collection of what
   `get_task` returns at that instant for every id, and leaves every task as
   that `get_task` would.
   */
  lemma ListIsEveryGet(s: State, contextId: string, state: string, includeArtifacts: bool, clk: Clock, stamp: int)
    requires Ordered(s)
    ensures var (s', listed) := ListTasks(s, contextId, state, includeArtifacts, clk);
            var shown := SelectShown(s, s.order, contextId, state, includeArtifacts, clk);
      && NewestFirst(listed)
      && multiset(listed) == multiset(shown)
      && Bucket(listed, stamp) == Bucket(shown, stamp)
      && LeftAsRead(s, s', clk)
  {
    hide Bucket, NewestFirst, SortNewestFirst, Select, SelectShown, Refresh, GetTask;
    SelectIsShown(s, s.order, contextId, state, includeArtifacts, clk);
    SortIsStable(SelectShown(s, s.order, contextId, state, includeArtifacts, clk), stamp);
    forall id | id in s.tasks
      ensures id in Refresh(s, s.order, clk).tasks && id in GetTask(s, id, clk).0.tasks
      ensures Refresh(s, s.order, clk).tasks[id] == GetTask(s, id, clk).0.tasks[id]
    {
      RefreshLeaves(s, id, clk);
    }
  }

  // ----- what complete_working_task alone would allow -----

  /**
   Called on a terminal task, `complete_working_task` changes it exactly when the
   task was canceled with a completion still pending.
   */
  lemma CompleteWorkingOnTerminal(env: Env, s: State, id: string, clk: Clock)
    requires Settled(env, s) && id in s.tasks && Terminal(s.tasks[id].task.state)
    ensures var s' := CompleteWorking(s, id, clk).0;
      s'.tasks[id].task.state != s.tasks[id].task.state <==>
      s.tasks[id].task.state.Canceled? && s.tasks[id].pending.Some?
  {
    assert SettledRecord(env, id, s.tasks[id], id in s.deadlines);
  }

  /** Canceling any WORKING task and then calling `complete_working_task` ends in COMPLETED. */
  lemma CanceledCanBeRevived(env: Env, s: State, id: string, clk: Clock)
    requires Settled(env, s) && id in s.tasks && s.tasks[id].task.state.Working?
    ensures var canceled := Cancel(s, id, clk).0;
      && canceled.tasks[id].task.state.Canceled?
      && CompleteWorking(canceled, id, clk).0.tasks[id].task.state.Completed?
  {
    assert SettledRecord(env, id, s.tasks[id], id in s.deadlines);
  }
}
