/**
 The service itself: a dictionary of mutable task records, updated in place. Each
 method is proved to do to the dictionary what the function of the same name in
 `Tasks` does to the state it stands for.
 */
module TaskServices {
  import opened Outcomes
  import opened Json
  import opened Quotes
  import opened Tasks
  import opened Streaming
  import opened Rpc

  class TaskRecord {
    const taskId: string
    const contextId: string
    const request: StoreRequest
    const quote: Quote
    var task: Task
    var history: seq<Message>
    var pending: Option<Pending>

    constructor (taskId: string, contextId: string, request: StoreRequest, quote: Quote, task: Task,
                 history: seq<Message>)
      ensures this.taskId == taskId
      ensures View() == Record(contextId, request, quote, task, history, None)
    {
      this.taskId, this.contextId, this.request, this.quote := taskId, contextId, request, quote;
      this.task, this.history, this.pending := task, history, None;
    }

    function View(): Record
      reads this
    {
      Record(contextId, request, quote, task, history, pending)
    }

    method Append(m: Message)
      modifies this
      ensures View() == old(View()).(history := old(history) + [m], task := old(task).(history := old(history) + [m]))
    {
      history := history + [m];
      task := task.(history := history);
    }

    method SetState(state: TaskState, stamp: int)
      modifies this`task
      ensures View() == old(View()).(task := old(task).(state := state, stamp := stamp))
    {
      task := task.(state := state, stamp := stamp);
    }
  }

  /** The loop over the provider catalog that simulates a storage run. */
  method BuildSimulatedStorageResult(env: Env, request: StoreRequest, quote: Quote) returns (result: StorageResult)
    ensures result == SimulatedResult(env, request, quote)
  {
    var cid := PieceCid(env, request);
    var providers := Chosen(request.copies);
    var copies: seq<Copy>, failures: seq<FailedAttempt> := [], [];
    for i := 0 to |providers|
      invariant copies == CopiesAt(env, cid, providers[..i])
      invariant failures == FailuresAt(providers[..i])
    {
      var p := providers[i];
      assert providers[..i + 1][..i] == providers[..i];
      if !p.healthy {
        failures := failures + [FailedAttempt(p.id, p.role)];
      } else {
        copies := copies + [CopyAt(env, cid, p)];
      }
    }
    assert providers[..|providers|] == providers;
    result := StorageResult(cid, request.contentLabel, request.size, request.copies, |copies| == request.copies, copies,
                            failures, request.withCdn, quote.railId);
  }

  class TaskService {
    const env: Env
    var records: map<string, TaskRecord>
    var order: seq<string>
    var deadlines: map<string, real>

    /** Records are filed under their own id, so no two ids share one. */
    ghost predicate Valid()
      reads this, records.Values
    {
      && (forall id :: id in records ==> records[id].taskId == id)
      && Ordered(View())
    }

    ghost function View(): State
      reads this, records.Values
    {
      State(map id | id in records :: records[id].View(), order, deadlines)
    }

    ghost predicate Holds(r: TaskRecord)
      reads this
    {
      r.taskId in records && records[r.taskId] == r
    }

    /** Changing one record in place changes one entry of the state. */
    twostate lemma OneRecordChanged(r: TaskRecord)
      requires old(Valid()) && old(Holds(r)) && records == old(records) && order == old(order)
      requires forall other :: other in records.Values && other != r ==> unchanged(other)
      ensures Valid()
      ensures View() == State(old(View()).tasks[r.taskId := r.View()], old(order), deadlines)
    {
      forall id | id in records && id != r.taskId
        ensures View().tasks[id] == old(View()).tasks[id]
      {
        assert records[id] in records.Values && records[id] != r;
      }
      assert View().tasks == old(View()).tasks[r.taskId := r.View()];
    }

    constructor (env: Env)
      ensures Valid() && View() == EMPTY && this.env == env && records == map[]
    {
      this.env := env;
      records, order, deadlines := map[], [], map[];
    }

    method ForceComplete(r: TaskRecord, clk: Clock)
      requires Valid() && Holds(r)
      modifies r, this`deadlines
      ensures Valid()
      ensures View() == Tasks.ForceComplete(old(View()), r.taskId, clk)
    {
      if r.pending.None? {
        return;
      }
      var p := r.pending.value;
      r.pending := None;
      deadlines := deadlines - {r.taskId};
      r.task := Task(r.taskId, r.contextId, Completed, clk.stamp, r.history, Some([p.payment, p.storage]), r.quote,
                     Some(p.authorization));
      OneRecordChanged(r);
    }

    method TryCompletePending(r: TaskRecord, clk: Clock)
      requires Valid() && Holds(r)
      modifies r, this`deadlines
      ensures Valid()
      ensures View() == TryComplete(old(View()), r.taskId, clk)
    {
      if r.pending.None? || !r.task.state.Working? {
        return;
      }
      if r.taskId !in deadlines || clk.monotonic < deadlines[r.taskId] {
        return;
      }
      ForceComplete(r, clk);
    }

    method GetTask(id: string, clk: Clock) returns (task: Option<Task>)
      requires Valid()
      modifies this`deadlines, records.Values
      ensures Valid()
      ensures (View(), task) == Tasks.GetTask(old(View()), id, clk)
    {
      if id !in records {
        return None;
      }
      TryCompletePending(records[id], clk);
      task := Some(records[id].task);
    }

    method CompleteWorkingTask(id: string, clk: Clock) returns (task: Option<Task>)
      requires Valid()
      modifies this`deadlines, records.Values
      ensures Valid()
      ensures (View(), task) == CompleteWorking(old(View()), id, clk)
    {
      if id !in records {
        return None;
      }
      ForceComplete(records[id], clk);
      task := Some(records[id].task);
    }

    method CancelTask(id: string, clk: Clock) returns (result: Result<Option<Task>, Error>)
      requires Valid()
      modifies records.Values
      ensures Valid()
      ensures (View(), result) == Cancel(old(View()), id, clk)
    {
      if id !in records {
        return Ok(None);
      }
      var r := records[id];
      if Terminal(r.task.state) {
        return Err(NotCancelable);
      }
      r.SetState(Canceled, clk.stamp);
      OneRecordChanged(r);
      result := Ok(Some(r.task));
    }

    method BuildStreamingWorkingTask(id: string, clk: Clock) returns (task: Option<Task>)
      requires Valid()
      ensures task == StreamingWorkingTask(View(), id, clk)
    {
      if id !in records {
        return None;
      }
      task := Some(records[id].task.(state := Working, stamp := clk.stamp));
    }

    method CreateTaskFromMessage(m: Message, payload: Object, clk: Clock) returns (result: Result<Task, Error>)
      requires Valid()
      modifies this`records, this`order
      ensures Valid() && fresh(records.Values - old(records.Values))
      ensures (View(), result) == Create(env, old(View()), m, payload, clk)
    {
      hide NormalizeStoreRequest, TaskId, BuildQuote, ContextId, Ordered;
      if Field(payload, "action") != Str("store_data") {
        return Err(ValueError);
      }
      var normalized := NormalizeStoreRequest(payload);
      if normalized.Err? {
        return Err(ValueError);
      }
      var request := normalized.value;
      if !env.encodable(request.contentLabel) || !env.encodable(request.token) {
        return Err(ValueError);
      }
      var id, quote := TaskId(env, request), BuildQuote(env, request);
      var task := Task(id, ContextId(id), AuthRequired, clk.stamp, [m], None, quote, None);
      var r := new TaskRecord(id, ContextId(id), request, quote, task, [m]);
      File(r);
      result := Ok(task);
    }

    /** `self._tasks[task_id] = record`. */
    method File(r: TaskRecord)
      requires Valid()
      modifies this`records, this`order
      ensures Valid() && records.Values <= old(records.Values) + {r}
      ensures View() == old(View()).(tasks := old(View()).tasks[r.taskId := r.View()],
                                     order := if r.taskId in old(records) then old(order) else old(order) + [r.taskId])
    {
      if r.taskId !in records {
        order := order + [r.taskId];
      }
      records := records[r.taskId := r];
      assert View().tasks == old(View()).tasks[r.taskId := r.View()];
      OrderedAdd(old(View()), r.taskId, r.View());
    }

    method ContinueTask(id: string, m: Message, payload: Object, clk: Clock) returns (result: Result<Task, Error>)
      requires Valid()
      modifies this`deadlines, records.Values
      ensures Valid()
      ensures (View(), result) == Continue(env, old(View()), id, m, payload, clk)
    {
      hide Terminal, ValidateAuthorization, AuthorizationIn, BuildPaymentArtifact, SimulatedResult, Ordered;
      if id !in records {
        return Err(KeyError);
      }
      var r := records[id];
      if Terminal(r.task.state) {
        return Err(RuntimeError);
      }
      r.Append(m);
      var auth := AuthorizationIn(payload);
      if auth.None? || ValidateAuthorization(env, auth.value, r.quote) != [] {
        r.SetState(AuthRequired, clk.stamp);
        OneRecordChanged(r);
        return Ok(r.task);
      }
      var stored := BuildSimulatedStorageResult(env, r.request, r.quote);
      var payment := BuildPaymentArtifact(env, r.quote, auth.value);
      deadlines := deadlines[id := clk.monotonic + STREAMING_DELAY];
      r.task := Task(id, r.contextId, Working, clk.stamp, r.history, Some([]), r.quote, auth);
      r.pending := Some(Pending(payment, StorageArtifact(stored), auth.value));
      OneRecordChanged(r);
      result := Ok(r.task);
    }

    method SendMessage(m: Message, clk: Clock) returns (result: Result<Task, Error>)
      requires Valid()
      modifies this, records.Values
      ensures Valid() && fresh(records.Values - old(records.Values))
      ensures (View(), result) == Send(env, old(View()), m, clk)
    {
      hide Create, Continue, ExtractPayload, OptionalString, Ordered;
      if Field(m, "role") != Str("ROLE_USER") {
        return Err(ValueError);
      }
      var payload := ExtractPayload(m);
      if payload.None? {
        return Err(ValueError);
      }
      var id := OptionalString(m, "taskId");
      if id.None? {
        result := CreateTaskFromMessage(m, payload.value, clk);
      } else {
        result := ContinueTask(id.value, m, payload.value, clk);
      }
    }

    method ListTasks(contextId: string, state: string, includeArtifacts: bool, clk: Clock) returns (tasks: seq<Task>)
      requires Valid()
      modifies this`deadlines, records.Values
      ensures Valid()
      ensures (View(), tasks) == Tasks.ListTasks(old(View()), contextId, state, includeArtifacts, clk)
    {
      hide Selected, Listed, SortNewestFirst, Ordered, TryComplete, Refresh, Select;
      ghost var before := View();
      BeforeListing(before, contextId, state, includeArtifacts, clk);
      tasks := [];
      for i := 0 to |order|
        invariant Valid() && (forall id :: id in order ==> id in before.tasks && id in records)
        invariant View() == Refresh(before, order[..i], clk)
        invariant tasks == Select(View(), order[..i], contextId, state, includeArtifacts)
      {
        ghost var mid := View();
        var r := records[order[i]];
        TryCompletePending(r, clk);
        OneMore(before, mid, View(), order, i, contextId, state, includeArtifacts, clk);
        if Selected(r.task, contextId, state) {
          tasks := tasks + [Listed(r.task, includeArtifacts)];
        }
      }
      assert order[..|order|] == order;
      tasks := SortNewestFirst(tasks);
    }
  }

  lemma BeforeListing(s: State, contextId: string, state: string, includeArtifacts: bool, clk: Clock)
    requires Ordered(s)
    ensures forall id :: id in s.order ==> id in s.tasks
    ensures Refresh(s, s.order[..0], clk) == s
    ensures Select(s, s.order[..0], contextId, state, includeArtifacts) == []
  {
  }

  /** One turn of the listing loop. */
  lemma OneMore(s: State, mid: State, s': State, ids: seq<string>, i: nat,
                contextId: string, state: string, includeArtifacts: bool, clk: Clock)
    requires i < |ids| && mid == Refresh(s, ids[..i], clk)
    requires ids[i] in mid.tasks && s' == TryComplete(mid, ids[i], clk)
    requires Ordered(s) && ids == s.order
    ensures s' == Refresh(s, ids[..i + 1], clk)
    ensures var task := s'.tasks[ids[i]].task;
      Select(s', ids[..i + 1], contextId, state, includeArtifacts)
      == Select(mid, ids[..i], contextId, state, includeArtifacts)
         + if Selected(task, contextId, state) then [Listed(task, includeArtifacts)] else []
  {
    hide Selected, Listed, Due, CompletedTask;
    assert ids[..i + 1][..i] == ids[..i];
    SelectFrame(mid, s', ids[..i], contextId, state, includeArtifacts);
  }

  lemma OrderedAdd(s: State, id: string, r: Record)
    requires Ordered(s)
    ensures Ordered(s.(tasks := s.tasks[id := r], order := if id in s.tasks then s.order else s.order + [id]))
  {
  }

  /** The selection depends only on the tasks it looks at. */
  lemma {:induction false} SelectFrame(
      s: State, s': State, ids: seq<string>, contextId: string, state: string, includeArtifacts: bool)
    requires s.tasks.Keys == s'.tasks.Keys && forall id :: id in ids && id in s.tasks ==> s.tasks[id] == s'.tasks[id]
    ensures Select(s, ids, contextId, state, includeArtifacts) == Select(s', ids, contextId, state, includeArtifacts)
  {
    if ids != [] {
      SelectFrame(s, s', ids[..|ids| - 1], contextId, state, includeArtifacts);
    }
  }

  // ----- the two entrypoints -----

  class RequestHandler {
    const service: TaskService

    constructor (service: TaskService)
      ensures this.service == service
    {
      this.service := service;
    }

    /** Runs a streaming call from where it is suspended to its next yield, or to its end. */
    method ResumeStream(call: Call, clk: Clock) returns (next: Call, event: Option<Event>)
      requires service.Valid()
      modifies service, service.records.Values
      ensures service.Valid() && fresh(service.records.Values - old(service.records.Values))
      ensures Resumption(service.View(), next, event) == Resume(service.env, old(service.View()), call, clk)
    {
      match call
      case Opened(m) => next, event := StartStream(m, clk);
      case Accepted(m, id) => next, event := FinishStream(m, id, clk);
      case Draining(events) =>
        if events == [] {
          return Returned, None;
        }
        return Draining(events[1..]), Some(events[0]);
      case Returned => return call, None;
      case Raised(_) => return call, None;
    }

    method SendAndYieldTask(m: Message, clk: Clock) returns (next: Call, event: Option<Event>)
      requires service.Valid()
      modifies service, service.records.Values
      ensures service.Valid() && fresh(service.records.Values - old(service.records.Values))
      ensures Resumption(service.View(), next, event) == SendAndYield(service.env, old(service.View()), m, clk)
    {
      hide Send, Ordered;
      var sent := service.SendMessage(m, clk);
      if sent.Err? {
        return Raised(Translate(sent.error)), None;
      }
      return Draining([]), Some(TaskEvent(sent.value));
    }

    method StartStream(m: Message, clk: Clock) returns (next: Call, event: Option<Event>)
      requires service.Valid()
      modifies service, service.records.Values
      ensures service.Valid() && fresh(service.records.Values - old(service.records.Values))
      ensures Resumption(service.View(), next, event) == Start(service.env, old(service.View()), m, clk)
    {
      hide Send, Tasks.GetTask, StreamingWorkingTask, ValidateAuthorization, AuthorizationOf, Ordered;
      var named := Field(m, "taskId");
      if !named.Str? {
        next, event := SendAndYieldTask(m, clk);
        return;
      }
      var current := service.GetTask(named.s, clk);
      if current.None? {
        return Raised(TaskNotFound), None;
      }
      var auth := AuthorizationOf(m);
      if auth.Some? {
        var errors := ValidateAuthorization(service.env, auth.value, current.value.quote);
        if errors == [] {
          var working := service.BuildStreamingWorkingTask(named.s, clk);
          if working.None? {
            return Raised(Uncaught(KeyError)), None;
          }
          return Accepted(m, named.s), Some(TaskEvent(working.value));
        }
      }
      next, event := SendAndYieldTask(m, clk);
    }

    method FinishStream(m: Message, id: string, clk: Clock) returns (next: Call, event: Option<Event>)
      requires service.Valid()
      modifies service, service.records.Values
      ensures service.Valid() && fresh(service.records.Values - old(service.records.Values))
      ensures Resumption(service.View(), next, event) == Finish(service.env, old(service.View()), m, id, clk)
    {
      hide Send, CompleteWorking, FinalEvents, Ordered;
      var sent := service.SendMessage(m, clk);
      if sent.Err? {
        return Raised(Uncaught(sent.error)), None;
      }
      var final := service.CompleteWorkingTask(id, clk);
      if final.None? {
        return Raised(TaskNotFound), None;
      }
      var events := FinalEvents(id, final.value);
      return Draining(events[1..]), Some(events[0]);
    }
  }

  class DemoServer {
    const service: TaskService

    constructor (service: TaskService)
      ensures this.service == service
    {
      this.service := service;
    }

    method Dispatch(name: string, params: Object, clk: Clock) returns (answer: Answer)
      requires service.Valid()
      modifies service, service.records.Values
      ensures service.Valid() && fresh(service.records.Values - old(service.records.Values))
      ensures (service.View(), answer) == Rpc.Dispatch(service.env, old(service.View()), name, params, clk)
    {
      hide Send, Tasks.GetTask, Cancel, Tasks.ListTasks, Ordered;
      if name == "GetAgentCard" {
        return Ok(Card);
      }
      if name == "SendMessage" {
        var message := Field(params, "message");
        if !message.Obj? {
          return Err(-32602);
        }
        var sent := service.SendMessage(message.fields, clk);
        return if sent.Ok? then Ok(OneTask(sent.value)) else Err(ErrorCode(sent.error));
      }
      if name == "GetTask" {
        var id := OptionalString(params, "id");
        if id.None? {
          return Err(-32602);
        }
        var task := service.GetTask(id.value, clk);
        return Found(task);
      }
      if name == "CancelTask" {
        var id := OptionalString(params, "id");
        if id.None? {
          return Err(-32602);
        }
        var canceled := service.CancelTask(id.value, clk);
        return if canceled.Ok? then Found(canceled.value) else Err(ErrorCode(canceled.error));
      }
      if name == "ListTasks" {
        var withArtifacts := FieldOr(params, "includeArtifacts", Bool(true));
        if !withArtifacts.Bool? {
          return Err(-32602);
        }
        var tasks := service.ListTasks(Filter(OptionalString(params, "contextId")),
                                       Filter(OptionalString(params, "status")), withArtifacts.b, clk);
        return Ok(ManyTasks(tasks, |tasks|, |tasks|));
      }
      return Err(-32601);
    }

    method ProcessRequest(envelope: Value, clk: Clock) returns (response: Response)
      requires service.Valid()
      modifies service, service.records.Values
      ensures service.Valid() && fresh(service.records.Values - old(service.records.Values))
      ensures (service.View(), response) == Rpc.ProcessRequest(service.env, old(service.View()), envelope, clk)
    {
      hide Rpc.Dispatch, Respond, Ordered;
      if !envelope.Obj? {
        return Respond(Null, Err(-32600));
      }
      var e := envelope.fields;
      var id := Field(e, "id");
      if Field(e, "jsonrpc") != Str("2.0") || !Field(e, "method").Str? {
        return Respond(id, Err(-32600));
      }
      var params := FieldOr(e, "params", Obj(map[]));
      if params.Null? {
        params := Obj(map[]);
      }
      if !params.Obj? {
        return Respond(id, Err(-32602));
      }
      var answer := Dispatch(Field(e, "method").s, params.fields, clk);
      response := Respond(id, answer);
    }
  }
}
