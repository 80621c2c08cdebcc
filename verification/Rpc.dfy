/** The JSON-RPC dispatcher in front of the task store. */
module Rpc {
  import opened Outcomes
  import opened Json
  import opened Quotes
  import opened Tasks
  import opened TaskInvariants
  import opened Sending
  import opened Streaming

  datatype Payload =
    | Version(version: string)
    | Id(id: Value)
    | Card
    | OneTask(task: Task)
    | ManyTasks(tasks: seq<Task>, pageSize: nat, totalSize: nat)
    | ErrorObject(code: int)

  /** The members of a response object. */
  type Response = map<string, Payload>

  function ResultResponse(id: Value, result: Payload): Response {
    map["jsonrpc" := Version("2.0"), "id" := Id(id), "result" := result]
  }

  function ErrorResponse(id: Value, code: int): Response {
    map["jsonrpc" := Version("2.0"), "id" := Id(id), "error" := ErrorObject(code)]
  }

  function ErrorCode(e: Error): int {
    match e
    case KeyError => -32001
    case NotCancelable => -32002
    case RuntimeError => -32004
    case ValueError => -32602
  }

  /** `None` is a missing filter. */
  function Filter(o: Option<string>): string {
    if o.Some? then o.value else ""
  }

  /** What a request comes to: a result, or an error code. */
  type Answer = Result<Payload, int>

  function Respond(id: Value, answer: Answer): Response {
    match answer
    case Ok(result) => ResultResponse(id, result)
    case Err(code) => ErrorResponse(id, code)
  }

  function Found(task: Option<Task>): Answer {
    if task.Some? then Ok(OneTask(task.value)) else Err(-32001)
  }

  function Dispatch(env: Env, s: State, name: string, params: Object, clk: Clock): (State, Answer) {
    if name == "GetAgentCard" then (s, Ok(Card))
    else if name == "SendMessage" then
      (match Field(params, "message")
       case Obj(m) =>
         (match Send(env, s, m, clk)
          case (s', Ok(task)) => (s', Ok(OneTask(task)))
          case (s', Err(e)) => (s', Err(ErrorCode(e))))
       case _ => (s, Err(-32602)))
    else if name == "GetTask" then
      (match OptionalString(params, "id")
       case None => (s, Err(-32602))
       case Some(taskId) => var (s', task) := GetTask(s, taskId, clk); (s', Found(task)))
    else if name == "CancelTask" then
      (match OptionalString(params, "id")
       case None => (s, Err(-32602))
       case Some(taskId) =>
         match Cancel(s, taskId, clk)
         case (s', Ok(task)) => (s', Found(task))
         case (s', Err(e)) => (s', Err(ErrorCode(e))))
    else if name == "ListTasks" then
      (match FieldOr(params, "includeArtifacts", Bool(true))
       case Bool(withArtifacts) =>
         var (s', tasks) := ListTasks(s, Filter(OptionalString(params, "contextId")),
                                      Filter(OptionalString(params, "status")), withArtifacts, clk);
         (s', Ok(ManyTasks(tasks, |tasks|, |tasks|)))
       case _ => (s, Err(-32602)))
    else (s, Err(-32601))
  }

  /** The envelope checks, in order, and then the dispatch. */
  function Handle(env: Env, s: State, e: Object, clk: Clock): (State, Answer) {
    if Field(e, "jsonrpc") != Str("2.0") || !Field(e, "method").Str? then (s, Err(-32600))
    else
      match FieldOr(e, "params", Obj(map[]))
      case Null => Dispatch(env, s, Field(e, "method").s, map[], clk)
      case Obj(params) => Dispatch(env, s, Field(e, "method").s, params, clk)
      case _ => (s, Err(-32602))
  }

  function ProcessRequest(env: Env, s: State, envelope: Value, clk: Clock): (State, Response) {
    if !envelope.Obj? then (s, Respond(Null, Err(-32600)))
    else
      var (s', answer) := Handle(env, s, envelope.fields, clk);
      (s', Respond(Field(envelope.fields, "id"), answer))
  }

  /** The id a response must repeat: the request's own, or null when there is none to read. */
  function RequestId(envelope: Value): Value {
    if envelope.Obj? then Field(envelope.fields, "id") else Null
  }

  /** A response object to the given id, as section 5 of the JSON-RPC 2.0 Specification asks for. */
  ghost predicate WellFormed(response: Response, id: Value) {
    && response.Keys <= {"jsonrpc", "id", "result", "error"}
    && "jsonrpc" in response && response["jsonrpc"] == Version("2.0")
    && "id" in response && response["id"] == Id(id)
    && ("result" in response <==> "error" !in response)
    && ("error" in response ==> response["error"].ErrorObject?)
  }

  lemma SendErrorChangesNothing(env: Env, s: State, m: Message, clk: Clock)
    ensures Send(env, s, m, clk).1.Err? ==> Send(env, s, m, clk).0 == s
  {
  }

  lemma RespondIsWellFormed(id: Value, answer: Answer)
    ensures WellFormed(Respond(id, answer), id)
    ensures "error" in Respond(id, answer) <==> answer.Err?
  {
  }

  lemma DispatchErrorChangesNothing(env: Env, s: State, name: string, params: Object, clk: Clock)
    ensures Dispatch(env, s, name, params, clk).1.Err? ==> Dispatch(env, s, name, params, clk).0 == s
  {
    hide Send, GetTask, Cancel, ListTasks;
    if Field(params, "message").Obj? {
      SendErrorChangesNothing(env, s, Field(params, "message").fields, clk);
    }
    var target := OptionalString(params, "id");
    if target.Some? {
      NoTaskChangesNothing(s, target.value, clk);
    }
  }

  lemma NoTaskChangesNothing(s: State, id: string, clk: Clock)
    ensures GetTask(s, id, clk).1.None? ==> GetTask(s, id, clk).0 == s
    ensures Cancel(s, id, clk).1.Err? || Cancel(s, id, clk).1 == Ok(None) ==> Cancel(s, id, clk).0 == s
  {
  }

  /**
   Every request, well formed or not, gets a response with exactly one of result
   and error and with its own id; and an error response means that no task, no
   history, no pending completion and no deadline has changed.
   */
  lemma EveryRequestAnswered(env: Env, s: State, envelope: Value, clk: Clock)
    ensures var (s', response) := ProcessRequest(env, s, envelope, clk);
      && WellFormed(response, RequestId(envelope))
      && ("error" in response ==> s' == s)
  {
    hide Dispatch, Respond, WellFormed;
    if envelope.Obj? {
      var e := envelope.fields;
      RespondIsWellFormed(Field(e, "id"), Handle(env, s, e, clk).1);
      if Field(e, "method").Str? {
        DispatchErrorChangesNothing(env, s, Field(e, "method").s, map[], clk);
        var params := FieldOr(e, "params", Obj(map[]));
        if params.Obj? {
          DispatchErrorChangesNothing(env, s, Field(e, "method").s, params.fields, clk);
        }
      }
    } else {
      RespondIsWellFormed(Null, Err(-32600));
    }
  }

  lemma DispatchKeeps(env: Env, s: State, name: string, params: Object, clk: Clock)
    requires Inv(env, s)
    ensures Inv(env, Dispatch(env, s, name, params, clk).0)
  {
    hide Inv, Send, GetTask, Cancel, ListTasks;
    var contextId, status := Filter(OptionalString(params, "contextId")), Filter(OptionalString(params, "status"));
    ListKeeps(env, s, contextId, status, true, clk);
    ListKeeps(env, s, contextId, status, false, clk);
    if Field(params, "message").Obj? {
      SendKeeps(env, s, Field(params, "message").fields, clk);
    }
    var target := OptionalString(params, "id");
    if target.Some? {
      GetTaskKeeps(env, s, target.value, clk);
      CancelKeeps(env, s, target.value, clk);
    }
  }

  lemma RequestKeeps(env: Env, s: State, envelope: Value, clk: Clock)
    requires Inv(env, s)
    ensures Inv(env, ProcessRequest(env, s, envelope, clk).0)
  {
    hide Inv, Dispatch, Respond;
    if envelope.Obj? && Field(envelope.fields, "method").Str? {
      DispatchKeeps(env, s, Field(envelope.fields, "method").s, map[], clk);
      var params := FieldOr(envelope.fields, "params", Obj(map[]));
      if params.Obj? {
        DispatchKeeps(env, s, Field(envelope.fields, "method").s, params.fields, clk);
      }
    }
  }

  /** A JSON-RPC 2.0 request object. */
  function Request(id: Value, name: string, params: Object): Value {
    Obj(map["jsonrpc" := Str("2.0"), "id" := id, "method" := Str(name), "params" := Obj(params)])
  }

  lemma RequestDispatches(env: Env, s: State, id: Value, name: string, params: Object, clk: Clock)
    ensures var (s', answer) := Dispatch(env, s, name, params, clk);
      ProcessRequest(env, s, Request(id, name, params), clk) == (s', Respond(id, answer))
  {
    hide Dispatch, Respond;
    var e := Request(id, name, params).fields;
    assert Field(e, "jsonrpc") == Str("2.0") && Field(e, "id") == id;
    assert Field(e, "method") == Str(name) && FieldOr(e, "params", Obj(map[])) == Obj(params);
  }

  ghost predicate Fails(response: Response, code: int) {
    "error" in response && response["error"] == ErrorObject(code)
  }

  /** A cancel request fails as not found, or as not cancelable, exactly when the task is missing, or terminal. */
  lemma CancelOutcome(env: Env, s: State, id: Value, taskId: string, clk: Clock)
    requires taskId != ""
    ensures var (s', response) := ProcessRequest(env, s, Request(id, "CancelTask", map["id" := Str(taskId)]), clk);
      && (Fails(response, -32001) <==> taskId !in s.tasks)
      && (Fails(response, -32002) <==> taskId in s.tasks && Terminal(s.tasks[taskId].task.state))
      && ("result" in response ==>
            && taskId in s'.tasks && s'.tasks[taskId].task.state.Canceled?
            && response["result"] == OneTask(s'.tasks[taskId].task))
  {
    hide Request, ProcessRequest, Terminal, ListTasks, GetTask, Send;
    var params := map["id" := Str(taskId)];
    RequestDispatches(env, s, id, "CancelTask", params, clk);
    assert OptionalString(params, "id") == Some(taskId);
  }

  ghost predicate Answers(response: Response, result: Payload) {
    "result" in response && response["result"] == result
  }

  /** A SendMessage request answers with what the service makes of the message. */
  lemma SendOutcome(env: Env, s: State, id: Value, params: Object, clk: Clock)
    ensures var (s', response) := ProcessRequest(env, s, Request(id, "SendMessage", params), clk);
      match Field(params, "message")
      case Obj(m) =>
        var (sentState, sent) := Send(env, s, m, clk);
        && s' == sentState
        && (sent.Ok? ==> Answers(response, OneTask(sent.value)))
        && (sent == Err(KeyError) ==> Fails(response, -32001))
        && (sent == Err(RuntimeError) ==> Fails(response, -32004))
        && (sent == Err(ValueError) ==> Fails(response, -32602))
      case _ => s' == s && Fails(response, -32602)
  {
    hide Request, ProcessRequest, ListTasks, GetTask, Cancel, Send;
    RequestDispatches(env, s, id, "SendMessage", params, clk);
  }

  /** A GetTask request answers with what a read at that instant shows, and leaves what it leaves. */
  lemma GetOutcome(env: Env, s: State, id: Value, params: Object, clk: Clock)
    ensures var (s', response) := ProcessRequest(env, s, Request(id, "GetTask", params), clk);
      match OptionalString(params, "id")
      case Some(taskId) =>
        && s' == GetTask(s, taskId, clk).0
        && (taskId in s.tasks ==> taskId in s'.tasks && Answers(response, OneTask(s'.tasks[taskId].task)))
        && (taskId !in s.tasks <==> Fails(response, -32001))
      case None => s' == s && Fails(response, -32602)
  {
    hide Request, ProcessRequest, ListTasks, GetTask, Cancel, Send;
    RequestDispatches(env, s, id, "GetTask", params, clk);
    if OptionalString(params, "id").Some? {
      ReadFinds(s, OptionalString(params, "id").value, clk);
    }
  }

  /** A ListTasks request answers with the listing for its filters; artifacts are in unless it says they are not. */
  lemma ListOutcome(env: Env, s: State, id: Value, params: Object, clk: Clock)
    ensures var (s', response) := ProcessRequest(env, s, Request(id, "ListTasks", params), clk);
            var contextId, status := OptionalString(params, "contextId"), OptionalString(params, "status");
            var artifacts := if "includeArtifacts" in params then params["includeArtifacts"] else Bool(true);
      match artifacts
      case Bool(withArtifacts) =>
        var (listedState, listed) := ListTasks(s, if contextId.Some? then contextId.value else "",
                                               if status.Some? then status.value else "", withArtifacts, clk);
        s' == listedState && Answers(response, ManyTasks(listed, |listed|, |listed|))
      case _ => s' == s && Fails(response, -32602)
  {
    hide Request, ProcessRequest, ListTasks, GetTask, Cancel, Send;
    RequestDispatches(env, s, id, "ListTasks", params, clk);
  }

  /** A CancelTask request without an id is invalid; a request for the agent card changes nothing. */
  lemma OtherOutcomes(env: Env, s: State, id: Value, params: Object, clk: Clock)
    ensures OptionalString(params, "id").None? ==>
      var (s', response) := ProcessRequest(env, s, Request(id, "CancelTask", params), clk);
      s' == s && Fails(response, -32602)
    ensures var (s', response) := ProcessRequest(env, s, Request(id, "GetAgentCard", params), clk);
      s' == s && Answers(response, Card)
  {
    hide Request, ProcessRequest, ListTasks, GetTask, Cancel, Send;
    RequestDispatches(env, s, id, "CancelTask", params, clk);
    RequestDispatches(env, s, id, "GetAgentCard", params, clk);
  }

  /** A message to a task fails as not found, or as unsupported, exactly when the task is missing, or terminal. */
  lemma FollowUpOutcome(env: Env, s: State, id: Value, m: Message, taskId: string, clk: Clock)
    requires Continues(m, taskId)
    ensures var (s', response) := ProcessRequest(env, s, Request(id, "SendMessage", map["message" := Obj(m)]), clk);
      && (Fails(response, -32001) <==> taskId !in s.tasks)
      && (Fails(response, -32004) <==> taskId in s.tasks && Terminal(s.tasks[taskId].task.state))
      && ("result" in response ==>
            taskId in s.tasks && taskId in s'.tasks && s'.tasks[taskId].history == s.tasks[taskId].history + [m])
  {
    hide Request, ProcessRequest, Send, Terminal, ExtractPayload;
    var params := map["message" := Obj(m)];
    assert Field(params, "message") == Obj(m);
    SendOutcome(env, s, id, params, clk);
    NamedMessage(env, s, m, taskId, clk);
    OneOrTheOther(env, s, Request(id, "SendMessage", params), clk);
  }

  lemma OneOrTheOther(env: Env, s: State, envelope: Value, clk: Clock)
    ensures var response := ProcessRequest(env, s, envelope, clk).1; "result" in response <==> "error" !in response
  {
    hide ProcessRequest;
    EveryRequestAnswered(env, s, envelope, clk);
  }

  const METHODS := {"GetAgentCard", "SendMessage", "GetTask", "CancelTask", "ListTasks"}

  lemma UnknownMethod(env: Env, s: State, name: string, params: Object, clk: Clock)
    ensures Dispatch(env, s, name, params, clk).1 == Err(-32601) <==> name !in METHODS
  {
    hide Send, GetTask, Cancel, ListTasks;
  }

  /** A request that is no object or has the wrong version is invalid; else it is unknown exactly when its method is. */
  lemma RejectedRequests(env: Env, s: State, envelope: Value, id: Value, name: string, params: Object, clk: Clock)
    ensures !envelope.Obj? ==> Fails(ProcessRequest(env, s, envelope, clk).1, -32600)
    ensures envelope.Obj? && Field(envelope.fields, "jsonrpc") != Str("2.0") ==>
      Fails(ProcessRequest(env, s, envelope, clk).1, -32600)
    ensures envelope.Obj? && !Field(envelope.fields, "method").Str? ==>
      Fails(ProcessRequest(env, s, envelope, clk).1, -32600)
    ensures Fails(ProcessRequest(env, s, Request(id, name, params), clk).1, -32601) <==> name !in METHODS
  {
    hide Dispatch, Request;
    RequestDispatches(env, s, id, name, params, clk);
    UnknownMethod(env, s, name, params, clk);
  }

  /** Parameters may be left out or null, and then are none; anything but an object is invalid. */
  lemma Parameters(env: Env, s: State, e: Object, name: string, clk: Clock)
    requires Field(e, "jsonrpc") == Str("2.0") && Field(e, "method") == Str(name)
    ensures "params" !in e || e["params"] == Null ==>
      ProcessRequest(env, s, Obj(e), clk) == ProcessRequest(env, s, Request(Field(e, "id"), name, map[]), clk)
    ensures "params" in e && e["params"].Obj? ==>
      ProcessRequest(env, s, Obj(e), clk)
      == ProcessRequest(env, s, Request(Field(e, "id"), name, e["params"].fields), clk)
    ensures "params" in e && !e["params"].Obj? && e["params"] != Null ==>
      Fails(ProcessRequest(env, s, Obj(e), clk).1, -32602)
  {
    hide Dispatch, Request;
    RequestDispatches(env, s, Field(e, "id"), name, map[], clk);
    if "params" in e && e["params"].Obj? {
      RequestDispatches(env, s, Field(e, "id"), name, e["params"].fields, clk);
    }
  }
}
