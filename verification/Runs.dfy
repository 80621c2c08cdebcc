/**
 Whole runs: any number of handler calls, JSON-RPC requests and streaming calls,
 interleaved in any order at the points where a streaming call is suspended.
 */
module Runs {
  import opened Outcomes
  import opened Json
  import opened Quotes
  import opened Tasks
  import opened TaskInvariants
  import opened Sending
  import opened Streaming
  import opened Rpc

  datatype System = System(tasks: State, calls: seq<Call>)

  const INITIAL := System(EMPTY, [])

  datatype Action =
    | OnGetTask(id: string)
    | OnListTasks(contextId: string, state: string, includeArtifacts: bool)
    | OnCancelTask(id: string)
    | OnMessageSend(m: Message)
    | OnSubscribe(id: string)
    | OpenStream(m: Message)
    | ResumeStream(call: nat)
    | OnRequest(envelope: Value)

  /** One action at one reading of the clocks. */
  datatype Step = Step(action: Action, clock: Clock)

  function Effect(env: Env, sys: System, step: Step): System {
    var s, clk := sys.tasks, step.clock;
    match step.action
    case OnGetTask(id) => sys.(tasks := GetTask(s, id, clk).0)
    case OnListTasks(contextId, state, withArtifacts) =>
      sys.(tasks := ListTasks(s, contextId, state, withArtifacts, clk).0)
    case OnCancelTask(id) => sys.(tasks := Cancel(s, id, clk).0)
    case OnMessageSend(m) => sys.(tasks := Send(env, s, m, clk).0)
    case OnSubscribe(id) => sys.(tasks := GetTask(s, id, clk).0)
    case OpenStream(m) => sys.(calls := sys.calls + [Opened(m)])
    case ResumeStream(k) =>
      if k < |sys.calls| then
        var r := Resume(env, s, sys.calls[k], clk);
        System(r.state, sys.calls[k := r.call])
      else sys
    case OnRequest(envelope) => sys.(tasks := ProcessRequest(env, s, envelope, clk).0)
  }

  /** The system after a run. */
  function After(env: Env, sys: System, run: seq<Step>): System {
    if run == [] then sys else Effect(env, After(env, sys, run[..|run| - 1]), run[|run| - 1])
  }

  // ----- every reachable state -----

  lemma ActKeeps(env: Env, sys: System, step: Step)
    requires Inv(env, sys.tasks)
    ensures Inv(env, Effect(env, sys, step).tasks)
  {
    hide Inv, Send, GetTask, Cancel, ListTasks, Resume, ProcessRequest;
    var s, clk := sys.tasks, step.clock;
    match step.action
    case OnGetTask(id) => GetTaskKeeps(env, s, id, clk);
    case OnListTasks(contextId, state, withArtifacts) => ListKeeps(env, s, contextId, state, withArtifacts, clk);
    case OnCancelTask(id) => CancelKeeps(env, s, id, clk);
    case OnMessageSend(m) => SendKeeps(env, s, m, clk);
    case OnSubscribe(id) => GetTaskKeeps(env, s, id, clk);
    case OpenStream(_) =>
    case ResumeStream(k) => if k < |sys.calls| { ResumeKeeps(env, s, sys.calls[k], clk); }
    case OnRequest(envelope) => RequestKeeps(env, s, envelope, clk);
  }

  lemma {:induction false} AfterKeeps(env: Env, run: seq<Step>)
    ensures Inv(env, After(env, INITIAL, run).tasks)
  {
    hide Inv, Effect;
    EmptyInv(env);
    if run != [] {
      AfterKeeps(env, run[..|run| - 1]);
      ActKeeps(env, After(env, INITIAL, run[..|run| - 1]), run[|run| - 1]);
    }
  }

  /**
   Whatever was called and however it was
   interleaved, task and record agree on history and quote, a pending or completed
   task carries the last paying authorization sent after the creating message, and
   a completed task has been paid for.
   */
  lemma EveryReachableTaskIsPaidFor(env: Env, run: seq<Step>, id: string)
    requires id in After(env, INITIAL, run).tasks.tasks
    ensures var r := After(env, INITIAL, run).tasks.tasks[id];
      && r.history != []
      && var paid := LastPaying(env, r.quote, r.history[1..]);
      && r.task.history == r.history
      && r.task.quote == r.quote == BuildQuote(env, r.request)
      && (r.pending.Some? ==> paid == Some(r.pending.value.authorization))
      && (r.task.state.Completed? ==> paid.Some? && r.task.authorization == paid && Pays(env, paid.value, r.quote))
      && (r.task.state.Working? ==> r.pending.Some? && id in After(env, INITIAL, run).tasks.deadlines)
  {
    AfterKeeps(env, run);
    hide After;
    var s := After(env, INITIAL, run).tasks;
    assert RecordInv(env, id, s.tasks[id], id in s.deadlines);
    if s.tasks[id].task.state.Completed? {
      InvSettles(env, s);
      CompletedWasPaid(env, s, id);
    }
  }

  // ----- terminal tasks stay as they are -----

  /** The step hands the service a store request for the given task id. */
  ghost predicate Replaces(env: Env, sys: System, step: Step, id: string) {
    match step.action
    case OnMessageSend(m) => Stores(env, m, id)
    case ResumeStream(k) =>
      && k < |sys.calls|
      && sys.calls[k].Opened?
      && !Field(sys.calls[k].m, "taskId").Str?
      && Stores(env, sys.calls[k].m, id)
    case OnRequest(Obj(e)) =>
      && Field(e, "jsonrpc") == Str("2.0")
      && Field(e, "method") == Str("SendMessage")
      && FieldOr(e, "params", Obj(map[])).Obj?
      && SentBy(env, FieldOr(e, "params", Obj(map[])).fields, id)
    case _ => false
  }

  ghost predicate SentBy(env: Env, params: Object, id: string) {
    Field(params, "message").Obj? && Stores(env, Field(params, "message").fields, id)
  }

  /**
   The record is still there, with its request, quote and context; its history has
   only grown; and if its task was terminal nothing about it has changed.
   */
  ghost predicate Evolves(s: State, s': State, id: string)
    requires id in s.tasks
  {
    && id in s'.tasks
    && s'.tasks[id].request == s.tasks[id].request
    && s'.tasks[id].quote == s.tasks[id].quote
    && s'.tasks[id].contextId == s.tasks[id].contextId
    && s.tasks[id].history <= s'.tasks[id].history
    && (Terminal(s.tasks[id].task.state) ==> s'.tasks[id] == s.tasks[id])
  }

  ghost predicate StartedOver(s': State, id: string) {
    id in s'.tasks && s'.tasks[id].task.state.AuthRequired? && s'.tasks[id].pending.None?
  }

  /** A message lets a task evolve, unless it is a store request for it, and that starts the task over. */
  lemma SendEvolves(env: Env, s: State, m: Message, clk: Clock, id: string)
    requires id in s.tasks
    ensures !Stores(env, m, id) ==> Evolves(s, Send(env, s, m, clk).0, id)
    ensures Stores(env, m, id) ==> StartedOver(Send(env, s, m, clk).0, id)
  {
    hide NormalizeStoreRequest, BuildQuote, TaskId, ContextId, ExtractPayload, ValidateAuthorization, MakePending,
      AuthorizationIn;
  }

  lemma GetEvolves(s: State, other: string, clk: Clock, id: string)
    requires id in s.tasks
    ensures Evolves(s, GetTask(s, other, clk).0, id)
  {
  }

  lemma CancelEvolves(s: State, other: string, clk: Clock, id: string)
    requires id in s.tasks
    ensures Evolves(s, Cancel(s, other, clk).0, id)
  {
  }

  lemma ListEvolves(s: State, contextId: string, state: string, withArtifacts: bool, clk: Clock, id: string)
    requires id in s.tasks
    ensures Evolves(s, ListTasks(s, contextId, state, withArtifacts, clk).0, id)
  {
    RefreshAt(s, s.order, id, clk);
  }

  lemma CompleteEvolves(s: State, other: string, clk: Clock, id: string)
    requires id in s.tasks && (id == other ==> !Terminal(s.tasks[id].task.state))
    ensures Evolves(s, CompleteWorking(s, other, clk).0, id)
  {
  }

  lemma EvolvesOn(s: State, s': State, s'': State, id: string)
    requires id in s.tasks && Evolves(s, s', id) && Evolves(s', s'', id)
    ensures Evolves(s, s'', id)
  {
  }

  /**
   The call order of the handler at work: the authorization is sent first, the
   service refuses it for a terminal task, and so the completion that would revive
   a canceled task is never reached for one.
   */
  lemma FinishEvolves(env: Env, s: State, m: Message, other: string, clk: Clock, id: string)
    requires id in s.tasks && OptionalString(m, "taskId") == Some(other)
    ensures Evolves(s, Finish(env, s, m, other, clk).state, id)
  {
    hide Evolves, CompleteWorking, FinalEvents, Create;
    SendEvolves(env, s, m, clk, id);
    var (s', sent) := Send(env, s, m, clk);
    if sent.Ok? {
      SentIsOpen(env, s, m, other, clk);
      HeldBy(s, s', id);
      CompleteEvolves(s', other, clk, id);
      EvolvesOn(s, s', CompleteWorking(s', other, clk).0, id);
    }
  }

  lemma HeldBy(s: State, s': State, id: string)
    requires id in s.tasks && Evolves(s, s', id)
    ensures id in s'.tasks
  {
  }

  lemma SentIsOpen(env: Env, s: State, m: Message, id: string, clk: Clock)
    requires OptionalString(m, "taskId") == Some(id) && Send(env, s, m, clk).1.Ok?
    ensures id in Send(env, s, m, clk).0.tasks && !Terminal(Send(env, s, m, clk).0.tasks[id].task.state)
  {
    hide ExtractPayload, ValidateAuthorization, MakePending, Create;
  }

  lemma StartEvolves(env: Env, s: State, m: Message, clk: Clock, id: string)
    requires id in s.tasks && "" !in s.tasks
    ensures var stores := !Field(m, "taskId").Str? && Stores(env, m, id);
      && (!stores ==> Evolves(s, Start(env, s, m, clk).state, id))
      && (stores ==> StartedOver(Start(env, s, m, clk).state, id))
  {
    hide Send, Stores, ValidateAuthorization, Evolves, TryComplete;
    if Field(m, "taskId").Str? {
      var named := Field(m, "taskId").s;
      var read := GetTask(s, named, clk).0;
      GetEvolves(s, named, clk, id);
      HeldBy(s, read, id);
      SendEvolves(env, read, m, clk, id);
      if named != "" {
        NamedNeverStores(env, m, id);
        EvolvesOn(s, read, Send(env, read, m, clk).0, id);
      }
    } else {
      SendEvolves(env, s, m, clk, id);
    }
  }

  lemma NamedNeverStores(env: Env, m: Message, id: string)
    requires Field(m, "taskId").Str? && Field(m, "taskId").s != ""
    ensures !Stores(env, m, id)
  {
  }

  lemma DispatchEvolves(env: Env, s: State, name: string, params: Object, clk: Clock, id: string)
    requires id in s.tasks
    ensures var stores := name == "SendMessage" && SentBy(env, params, id);
      && (!stores ==> Evolves(s, Dispatch(env, s, name, params, clk).0, id))
      && (stores ==> StartedOver(Dispatch(env, s, name, params, clk).0, id))
  {
    hide Send, GetTask, Cancel, ListTasks, Stores, Evolves, StartedOver;
    var contextId, status := Filter(OptionalString(params, "contextId")), Filter(OptionalString(params, "status"));
    ListEvolves(s, contextId, status, true, clk, id);
    ListEvolves(s, contextId, status, false, clk, id);
    if Field(params, "message").Obj? {
      SendEvolves(env, s, Field(params, "message").fields, clk, id);
    }
    var target := OptionalString(params, "id");
    if target.Some? {
      GetEvolves(s, target.value, clk, id);
      CancelEvolves(s, target.value, clk, id);
    }
    SameEvolves(s, id);
  }

  lemma SameEvolves(s: State, id: string)
    requires id in s.tasks
    ensures Evolves(s, s, id)
  {
  }

  lemma RequestEvolves(env: Env, sys: System, envelope: Value, clk: Clock, id: string)
    requires id in sys.tasks.tasks
    ensures var stores := Replaces(env, sys, Step(OnRequest(envelope), clk), id);
      && (!stores ==> Evolves(sys.tasks, ProcessRequest(env, sys.tasks, envelope, clk).0, id))
      && (stores ==> StartedOver(ProcessRequest(env, sys.tasks, envelope, clk).0, id))
  {
    hide Dispatch, Respond, SentBy, Evolves, StartedOver;
    SameEvolves(sys.tasks, id);
    if envelope.Obj? && Field(envelope.fields, "method").Str? {
      var name := Field(envelope.fields, "method").s;
      match FieldOr(envelope.fields, "params", Obj(map[]))
      case Null =>
        DispatchEvolves(env, sys.tasks, name, map[], clk, id);
        EmptyNeverStores(env, id);
      case Obj(params) => DispatchEvolves(env, sys.tasks, name, params, clk, id);
      case _ =>
    }
  }

  lemma EmptyNeverStores(env: Env, id: string)
    ensures !SentBy(env, map[], id)
  {
  }

  /** A suspended call holds a message for an existing kind of task id: never a store request. */
  ghost predicate CallsContinue(calls: seq<Call>) {
    forall k :: 0 <= k < |calls| && calls[k].Accepted? ==> OptionalString(calls[k].m, "taskId") == Some(calls[k].id)
  }

  lemma NoTaskWithoutName(env: Env, s: State)
    requires Inv(env, s)
    ensures "" !in s.tasks
  {
  }

  lemma StartContinues(env: Env, s: State, m: Message, clk: Clock)
    requires Inv(env, s)
    ensures var call := Start(env, s, m, clk).call; call.Accepted? ==> OptionalString(call.m, "taskId") == Some(call.id)
  {
    hide Inv, Start, Settled;
    NoTaskWithoutName(env, s);
    InvSettles(env, s);
    StartPromises(env, s, m, clk);
  }

  lemma EffectKeepsCalls(env: Env, sys: System, step: Step)
    requires Inv(env, sys.tasks) && CallsContinue(sys.calls)
    ensures CallsContinue(Effect(env, sys, step).calls)
  {
    hide Inv, Send, GetTask, Cancel, ListTasks, ProcessRequest, Start, CompleteWorking, FinalEvents, OptionalString;
    if step.action.ResumeStream? && step.action.call < |sys.calls| && sys.calls[step.action.call].Opened? {
      StartContinues(env, sys.tasks, sys.calls[step.action.call].m, step.clock);
    }
  }

  /** A step lets a task evolve, or is a store request for it and starts it over. */
  lemma EffectEvolves(env: Env, sys: System, step: Step, id: string)
    requires Inv(env, sys.tasks) && CallsContinue(sys.calls) && id in sys.tasks.tasks
    ensures !Replaces(env, sys, step, id) ==> Evolves(sys.tasks, Effect(env, sys, step).tasks, id)
    ensures Replaces(env, sys, step, id) ==> StartedOver(Effect(env, sys, step).tasks, id)
  {
    hide Inv, Send, GetTask, Cancel, ListTasks, Start, Finish, ProcessRequest, Evolves, StartedOver, Stores;
    var s, clk := sys.tasks, step.clock;
    NoTaskWithoutName(env, s);
    SameEvolves(s, id);
    match step.action
    case OnGetTask(other) => GetEvolves(s, other, clk, id);
    case OnListTasks(contextId, state, withArtifacts) => ListEvolves(s, contextId, state, withArtifacts, clk, id);
    case OnCancelTask(other) => CancelEvolves(s, other, clk, id);
    case OnMessageSend(m) => SendEvolves(env, s, m, clk, id);
    case OnSubscribe(other) => GetEvolves(s, other, clk, id);
    case OpenStream(_) =>
    case ResumeStream(k) =>
      if k < |sys.calls| {
        match sys.calls[k]
        case Opened(m) => StartEvolves(env, s, m, clk, id);
        case Accepted(m, other) => FinishEvolves(env, s, m, other, clk, id);
        case _ =>
      }
    case OnRequest(envelope) => RequestEvolves(env, sys, envelope, clk, id);
  }

  lemma {:induction false} CallsContinueAfter(env: Env, run: seq<Step>)
    ensures CallsContinue(After(env, INITIAL, run).calls)
  {
    if run != [] {
      CallsContinueAfter(env, run[..|run| - 1]);
      AfterKeeps(env, run[..|run| - 1]);
      EffectKeepsCalls(env, After(env, INITIAL, run[..|run| - 1]), run[|run| - 1]);
    }
  }

  /** From its `since`-th step on, the run hands the service no store request for the given task id. */
  ghost predicate NeverReplaced(env: Env, run: seq<Step>, since: nat, id: string) {
    forall k :: since <= k < |run| ==> !Replaces(env, After(env, INITIAL, run[..k]), run[k], id)
  }

  /**
   In every continuation of every run, until a store request with the same id
   replaces it, a task keeps its request, quote and context and its history only
   grows.
   */
  lemma {:induction false} TasksOnlyEvolve(env: Env, run: seq<Step>, since: nat, id: string)
    requires since <= |run| && id in After(env, INITIAL, run[..since]).tasks.tasks
    requires NeverReplaced(env, run, since, id)
    ensures Evolves(After(env, INITIAL, run[..since]).tasks, After(env, INITIAL, run).tasks, id)
  {
    hide Inv, Effect, Replaces, Evolves;
    var first := After(env, INITIAL, run[..since]).tasks;
    if since == |run| {
      assert run[..since] == run;
      SameEvolves(first, id);
    } else {
      var last := |run| - 1;
      var prefix := run[..last];
      assert prefix[..since] == run[..since];
      assert forall k :: since <= k < last ==> prefix[..k] == run[..k];
      TasksOnlyEvolve(env, prefix, since, id);
      var before := After(env, INITIAL, prefix);
      HeldBy(first, before.tasks, id);
      CallsContinueAfter(env, prefix);
      AfterKeeps(env, prefix);
      EffectEvolves(env, before, run[last], id);
      EvolvesOn(first, before.tasks, Effect(env, before, run[last]).tasks, id);
    }
  }

  /**
   Once a task is COMPLETED or CANCELED it stays exactly as it is, history,
   artifacts and all, in every continuation of every run, until a store request
   with the same task id replaces it (and then `EffectEvolves` says that it does
   leave the terminal state).
   */
  lemma TerminalIsForever(env: Env, run: seq<Step>, since: nat, id: string)
    requires since <= |run| && NeverReplaced(env, run, since, id)
    requires id in After(env, INITIAL, run[..since]).tasks.tasks
    requires var state := After(env, INITIAL, run[..since]).tasks.tasks[id].task.state;
      state == Completed || state == Canceled
    ensures id in After(env, INITIAL, run).tasks.tasks
    ensures After(env, INITIAL, run).tasks.tasks[id] == After(env, INITIAL, run[..since]).tasks.tasks[id]
  {
    hide NeverReplaced, After;
    TasksOnlyEvolve(env, run, since, id);
  }

  // ----- accepted streams among everything else -----

  /** No two acceptable requests share a task id. */
  ghost predicate UniqueIds(env: Env) {
    forall a, b :: Acceptable(a) && Acceptable(b) && TaskId(env, a) == TaskId(env, b) ==> a == b
  }

  /** No run removes a task. */
  lemma {:induction false} TasksStay(env: Env, run: seq<Step>, since: nat, id: string)
    requires since <= |run| && id in After(env, INITIAL, run[..since]).tasks.tasks
    ensures id in After(env, INITIAL, run).tasks.tasks
  {
    hide Inv, Effect, Replaces;
    if since == |run| {
      assert run[..since] == run;
    } else {
      var prefix := run[..|run| - 1];
      assert prefix[..since] == run[..since];
      TasksStay(env, prefix, since, id);
      CallsContinueAfter(env, prefix);
      AfterKeeps(env, prefix);
      EffectEvolves(env, After(env, INITIAL, prefix), run[|run| - 1], id);
    }
  }

  /** The quote of a task changes in no run that leaves the task unreplaced, and in no run at all if ids are unique. */
  lemma QuoteIsFixed(env: Env, run: seq<Step>, since: nat, id: string)
    requires since <= |run| && id in After(env, INITIAL, run[..since]).tasks.tasks
    requires NeverReplaced(env, run, since, id) || UniqueIds(env)
    ensures id in After(env, INITIAL, run).tasks.tasks
    ensures After(env, INITIAL, run).tasks.tasks[id].quote == After(env, INITIAL, run[..since]).tasks.tasks[id].quote
  {
    hide NeverReplaced, After, TaskId, BuildQuote, Acceptable, SettledRecord;
    if NeverReplaced(env, run, since, id) {
      TasksOnlyEvolve(env, run, since, id);
    } else {
      TasksStay(env, run, since, id);
      AfterKeeps(env, run);
      AfterKeeps(env, run[..since]);
      var first, last := After(env, INITIAL, run[..since]).tasks, After(env, INITIAL, run).tasks;
      assert RecordInv(env, id, first.tasks[id], id in first.deadlines);
      assert RecordInv(env, id, last.tasks[id], id in last.deadlines);
    }
  }

  /** A call stays where it is suspended until it is resumed. */
  lemma {:induction false} CallStays(env: Env, run: seq<Step>, since: nat, k: nat)
    requires since <= |run| && k < |After(env, INITIAL, run[..since]).calls|
    requires forall j :: since <= j < |run| ==> run[j].action != ResumeStream(k)
    ensures k < |After(env, INITIAL, run).calls|
    ensures After(env, INITIAL, run).calls[k] == After(env, INITIAL, run[..since]).calls[k]
  {
    hide Resume, GetTask, ListTasks, Cancel, Send, ProcessRequest;
    if since == |run| {
      assert run[..since] == run;
    } else {
      var prefix := run[..|run| - 1];
      assert prefix[..since] == run[..since];
      CallStays(env, prefix, since, k);
    }
  }

  /** The step resumes the call k, which was not started yet, and the handler accepts it for the given task. */
  ghost predicate Accepts(env: Env, run: seq<Step>, at: nat, k: nat, m: Message, id: string)
    requires at < |run|
  {
    var before, accepted := After(env, INITIAL, run[..at]), After(env, INITIAL, run[..at + 1]);
    && run[at].action == ResumeStream(k)
    && k < |before.calls| && before.calls[k] == Opened(m)
    && k < |accepted.calls| && accepted.calls[k] == Accepted(m, id)
  }

  lemma AcceptedIsPromised(env: Env, run: seq<Step>, at: nat, k: nat, m: Message, id: string)
    requires at < |run| && Accepts(env, run, at, k, m, id)
    ensures Promised(env, After(env, INITIAL, run[..at + 1]).tasks, m, id)
  {
    hide Start, Promised, Inv, Settled;
    var before := After(env, INITIAL, run[..at]);
    assert run[..at + 1][..at] == run[..at];
    assert After(env, INITIAL, run[..at + 1]) == Effect(env, before, run[at]);
    AfterKeeps(env, run[..at]);
    NoTaskWithoutName(env, before.tasks);
    InvSettles(env, before.tasks);
    StartPromises(env, before.tasks, m, run[at].clock);
  }

  /**
   Whatever runs between the acceptance of a streaming call and its next resumption
   (other calls, requests, cancellations, other streams on the same task), as long
   as the task is not replaced or ids are unique: the call then completes the task
   with its own authorization, or raises and changes nothing. It raises a
   RuntimeError exactly when the task has become terminal, and a ValueError exactly
   when its message is not a user's.
   */
  lemma AcceptedCallOutcome(env: Env, run: seq<Step>, at: nat, k: nat, m: Message, id: string, clk: Clock)
    requires at < |run| && Accepts(env, run, at, k, m, id)
    requires forall j :: at < j < |run| ==> run[j].action != ResumeStream(k)
    requires NeverReplaced(env, run, at + 1, id) || UniqueIds(env)
    ensures var sys := After(env, INITIAL, run);
            var resumed := Finish(env, sys.tasks, m, id, clk);
      && k < |sys.calls|
      && Effect(env, sys, Step(ResumeStream(k), clk)) == System(resumed.state, sys.calls[k := resumed.call])
      && id in sys.tasks.tasks && AuthorizationOf(m).Some?
      && var user, terminal := Field(m, "role") == Str("ROLE_USER"), Terminal(sys.tasks.tasks[id].task.state);
      && (user && !terminal <==> CompletesWith(env, sys.tasks, m, id, clk, resumed))
      && (user && terminal <==> resumed.call == Raised(Uncaught(RuntimeError)))
      && (!user <==> resumed.call == Raised(Uncaught(ValueError)))
      && (resumed.call.Raised? ==> resumed.state == sys.tasks)
  {
    hide After, Finish, CompletesWith, NeverReplaced, UniqueIds, Terminal, Pays, AuthorizationOf, ExtractPayload;
    AcceptedIsPromised(env, run, at, k, m, id);
    QuoteIsFixed(env, run, at + 1, id);
    CallStays(env, run, at + 1, k);
    FinishOutcome(env, After(env, INITIAL, run).tasks, m, id, clk);
  }

  // ----- every step counts -----

  /** The task is WORKING though its deadline has come. */
  ghost predicate Overdue(s: State, id: string, clk: Clock) {
    && id in s.tasks && s.tasks[id].task.state.Working?
    && id in s.deadlines && s.deadlines[id] <= clk.monotonic
  }

  /** After a read, a subscription or a listing no task it looked at is overdue. */
  lemma ReadsComplete(env: Env, sys: System, id: string, contextId: string, state: string, artifacts: bool, clk: Clock)
    requires Inv(env, sys.tasks)
    ensures !Overdue(Effect(env, sys, Step(OnGetTask(id), clk)).tasks, id, clk)
    ensures !Overdue(Effect(env, sys, Step(OnSubscribe(id), clk)).tasks, id, clk)
    ensures !Overdue(Effect(env, sys, Step(OnListTasks(contextId, state, artifacts), clk)).tasks, id, clk)
  {
    hide Inv, Settled;
    InvSettles(env, sys.tasks);
    if id in sys.tasks.tasks {
      ReadExact(env, sys.tasks, id, clk);
      InOrder(env, sys.tasks, id);
      RefreshAt(sys.tasks, sys.tasks.order, id, clk);
    } else {
      RefreshAddsNothing(sys.tasks, sys.tasks.order, id, clk);
    }
  }

  lemma InOrder(env: Env, s: State, id: string)
    requires Inv(env, s) && id in s.tasks
    ensures id in s.order
  {
  }

  /** The two entrypoints do the same to the store, and neither touches the streams; opening one does only that. */
  lemma EntrypointsAgree(env: Env, sys: System, id: Value, m: Message, taskId: string, clk: Clock)
    requires taskId != ""
    ensures var named := map["id" := Str(taskId)];
      && Effect(env, sys, Step(OnRequest(Request(id, "SendMessage", map["message" := Obj(m)])), clk))
         == Effect(env, sys, Step(OnMessageSend(m), clk)) == System(Send(env, sys.tasks, m, clk).0, sys.calls)
      && Effect(env, sys, Step(OnRequest(Request(id, "GetTask", named)), clk))
         == Effect(env, sys, Step(OnGetTask(taskId), clk))
      && Effect(env, sys, Step(OnRequest(Request(id, "CancelTask", named)), clk))
         == Effect(env, sys, Step(OnCancelTask(taskId), clk)) == System(Cancel(sys.tasks, taskId, clk).0, sys.calls)
      && Effect(env, sys, Step(OpenStream(m), clk)) == System(sys.tasks, sys.calls + [Opened(m)])
  {
    hide Send, GetTask, Cancel, ListTasks, Request, ProcessRequest;
    var named := map["id" := Str(taskId)];
    assert Field(map["message" := Obj(m)], "message") == Obj(m) && OptionalString(named, "id") == Some(taskId);
    RequestDispatches(env, sys.tasks, id, "SendMessage", map["message" := Obj(m)], clk);
    RequestDispatches(env, sys.tasks, id, "GetTask", named, clk);
    RequestDispatches(env, sys.tasks, id, "CancelTask", named, clk);
  }

  lemma AfterThree(env: Env, sys: System, a: Step, b: Step, c: Step)
    ensures After(env, sys, [a, b, c]) == Effect(env, Effect(env, Effect(env, sys, a), b), c)
  {
    hide Effect;
    assert [a, b, c][..2] == [a, b] && [a, b][..1] == [a] && [a][..0] == [];
    assert After(env, sys, [a]) == Effect(env, sys, a);
    assert After(env, sys, [a, b]) == Effect(env, After(env, sys, [a]), b);
  }

  /**
   From every reachable store: a store request, a message that pays for it, and a
   read half a second later leave the task COMPLETED with that payment, whatever
   was filed under its id before.
   */
  lemma PurchaseCompletes(env: Env, sys: System, m: Message, pay: Message, id: string, clks: seq<Clock>)
    requires Inv(env, sys.tasks) && |clks| == 3 && clks[1].monotonic + 0.5 <= clks[2].monotonic
    requires Stores(env, m, id) && Continues(pay, id) && AuthorizationOf(pay).Some?
    requires var request := NormalizeStoreRequest(ExtractPayload(m).value).value;
      Pays(env, AuthorizationOf(pay).value, BuildQuote(env, request))
    ensures
      var store, paid := Step(OnMessageSend(m), clks[0]), Step(OnMessageSend(pay), clks[1]);
      var read := Step(OnGetTask(id), clks[2]);
      var s := After(env, sys, [store, paid, read]).tasks;
      && id in s.tasks
      && s.tasks[id].task.state == Completed && s.tasks[id].task.stamp == clks[2].stamp
      && s.tasks[id].task.authorization == AuthorizationOf(pay)
      && s.tasks[id].history == [m, pay]
  {
    hide Inv, Settled, Send, GetTask, Pays, BuildQuote, NormalizeStoreRequest, ExtractPayload, AuthorizationOf,
      MakePending;
    AfterThree(env, sys,
               Step(OnMessageSend(m), clks[0]), Step(OnMessageSend(pay), clks[1]), Step(OnGetTask(id), clks[2]));
    hide After;
    var s1 := Send(env, sys.tasks, m, clks[0]).0;
    var s2 := Send(env, s1, pay, clks[1]).0;
    StoreIsFiled(env, sys.tasks, m, id, clks[0]);
    NamedMessage(env, s1, pay, id, clks[1]);
    SendKeeps(env, sys.tasks, m, clks[0]);
    SendKeeps(env, s1, pay, clks[1]);
    InvSettles(env, s2);
    ReadExact(env, s2, id, clks[2]);
    PendingCarries(env, s1.tasks[id].request, s1.tasks[id].quote, AuthorizationOf(pay).value);
  }
}
