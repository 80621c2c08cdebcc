/**
 The HTTP handler's streaming call. It is an async generator, so it is a little
 machine that runs from one yield to the next; other handlers run in between.
 */
module Streaming {
  import opened Outcomes
  import opened Json
  import opened Quotes
  import opened Tasks
  import opened TaskInvariants
  import opened Sending

  datatype Event =
    | TaskEvent(task: Task)
    | ArtifactUpdate(taskId: string, contextId: string, artifact: Artifact)
    | StatusUpdate(taskId: string, contextId: string, state: TaskState, stamp: int)

  /** What the handler raises; `Uncaught` is a service exception it does not translate. */
  datatype Failure = TaskNotFound | InvalidParams | UnsupportedOperation | Uncaught(error: Error)

  /**
   Where a streaming call stands: not started, suspended at the WORKING event with
   the message still to be sent, suspended with events left to yield, or over.
   */
  datatype Call =
    | Opened(m: Message)
    | Accepted(m: Message, id: string)
    | Draining(events: seq<Event>)
    | Returned
    | Raised(failure: Failure)

  datatype Resumption = Resumption(state: State, call: Call, event: Option<Event>)

  function Translate(e: Error): Failure {
    match e
    case ValueError => InvalidParams
    case NotCancelable => InvalidParams
    case RuntimeError => UnsupportedOperation
    case KeyError => Uncaught(KeyError)
  }

  /** Sends the message and yields the resulting task as the only event. */
  function SendAndYield(env: Env, s: State, m: Message, clk: Clock): Resumption {
    match Send(env, s, m, clk)
    case (s', Ok(task)) => Resumption(s', Draining([]), Some(TaskEvent(task)))
    case (s', Err(e)) => Resumption(s', Raised(Translate(e)), None)
  }

  function Start(env: Env, s: State, m: Message, clk: Clock): Resumption {
    match Field(m, "taskId")
    case Str(id) =>
      (match GetTask(s, id, clk)
       case (s', None) => Resumption(s', Raised(TaskNotFound), None)
       case (s', Some(current)) =>
         var auth := AuthorizationOf(m);
         if auth.Some? && ValidateAuthorization(env, auth.value, current.quote) == [] then
           (match StreamingWorkingTask(s', id, clk)
            case Some(working) => Resumption(s', Accepted(m, id), Some(TaskEvent(working)))
            case None => Resumption(s', Raised(Uncaught(KeyError)), None))
         else SendAndYield(env, s', m, clk))
    case _ => SendAndYield(env, s, m, clk)
  }

  function ArtifactEvents(id: string, contextId: string, artifacts: seq<Artifact>): (events: seq<Event>)
    ensures |events| == |artifacts|
  {
    if artifacts == [] then []
    else ArtifactEvents(id, contextId, artifacts[..|artifacts| - 1])
         + [ArtifactUpdate(id, contextId, artifacts[|artifacts| - 1])]
  }

  function FinalEvents(id: string, task: Task): (events: seq<Event>)
    ensures events != []
  {
    (if task.artifacts.Some? then ArtifactEvents(id, task.contextId, task.artifacts.value) else [])
    + [StatusUpdate(id, task.contextId, task.state, task.stamp)]
  }

  /** Sends the authorization and, if the service takes it, completes the task at once. */
  function Finish(env: Env, s: State, m: Message, id: string, clk: Clock): Resumption {
    match Send(env, s, m, clk)
    case (s', Err(e)) => Resumption(s', Raised(Uncaught(e)), None)
    case (s', Ok(_)) =>
      match CompleteWorking(s', id, clk)
      case (s'', None) => Resumption(s'', Raised(TaskNotFound), None)
      case (s'', Some(final)) =>
        var events := FinalEvents(id, final);
        Resumption(s'', Draining(events[1..]), Some(events[0]))
  }

  function Resume(env: Env, s: State, call: Call, clk: Clock): Resumption {
    match call
    case Opened(m) => Start(env, s, m, clk)
    case Accepted(m, id) => Finish(env, s, m, id, clk)
    case Draining(events) =>
      if events == [] then Resumption(s, Returned, None)
      else Resumption(s, Draining(events[1..]), Some(events[0]))
    case Returned => Resumption(s, call, None)
    case Raised(_) => Resumption(s, call, None)
  }

  lemma CompleteWorkingKeeps(env: Env, s: State, id: string, clk: Clock)
    requires Inv(env, s)
    ensures Inv(env, CompleteWorking(s, id, clk).0)
  {
    if id in s.tasks {
      ForceCompleteKeeps(env, s, id, clk);
    }
  }

  lemma GetTaskKeeps(env: Env, s: State, id: string, clk: Clock)
    requires Inv(env, s)
    ensures Inv(env, GetTask(s, id, clk).0)
  {
    if id in s.tasks {
      TryCompleteKeeps(env, s, id, clk);
    }
  }

  lemma ResumeKeeps(env: Env, s: State, call: Call, clk: Clock)
    requires Inv(env, s)
    ensures Inv(env, Resume(env, s, call, clk).state)
  {
    hide Inv, Send, GetTask, CompleteWorking, FinalEvents, StreamingWorkingTask, ValidateAuthorization;
    match call
    case Opened(m) =>
      SendKeeps(env, s, m, clk);
      if Field(m, "taskId").Str? {
        var id := Field(m, "taskId").s;
        GetTaskKeeps(env, s, id, clk);
        SendKeeps(env, GetTask(s, id, clk).0, m, clk);
      }
    case Accepted(m, id) =>
      SendKeeps(env, s, m, clk);
      CompleteWorkingKeeps(env, Send(env, s, m, clk).0, id, clk);
    case _ =>
  }

  // ----- the stream of a task nobody else touches -----

  /** The message continues the given task. */
  ghost predicate Continues(m: Message, id: string) {
    && Field(m, "role") == Str("ROLE_USER")
    && Field(m, "taskId") == Str(id)
    && id != ""
    && ExtractPayload(m).Some?
  }

  /** Sending such a message to a non-terminal task puts it to WORKING exactly when the message pays. */
  lemma SendAccepts(env: Env, s: State, m: Message, id: string, clk: Clock)
    requires Continues(m, id) && id in s.tasks && !Terminal(s.tasks[id].task.state)
    ensures var (s', sent) := Send(env, s, m, clk);
      && sent.Ok?
      && s' == Continue(env, s, id, m, ExtractPayload(m).value, clk).0
      && (sent.value.state.Working? <==>
            AuthorizationOf(m).Some? && Pays(env, AuthorizationOf(m).value, s.tasks[id].quote))
  {
    hide Pays, ValidateAuthorization, MakePending, ExtractPayload, Terminal;
    if AuthorizationOf(m).Some? {
      ValidateExact(env, AuthorizationOf(m).value, s.tasks[id].quote);
    }
  }

  lemma QuoteShown(env: Env, s: State, id: string, clk: Clock)
    requires Settled(env, s) && id in s.tasks
    ensures GetTask(s, id, clk).1.value.quote == s.tasks[id].quote
    ensures GetTask(s, id, clk).0.tasks[id].quote == s.tasks[id].quote
  {
    assert SettledRecord(env, id, s.tasks[id], id in s.deadlines);
  }

  /**
   The pre-check of a streaming call and the service agree: for a task that reads
   as non-terminal, the call is accepted exactly when sending the same message
   would put the task to WORKING.
   */
  lemma PreCheckAgreesWithService(env: Env, s: State, m: Message, id: string, clk: Clock, clk': Clock)
    requires Settled(env, s) && Continues(m, id) && id in s.tasks
    requires !Terminal(GetTask(s, id, clk).1.value.state)
    ensures var (read, _) := GetTask(s, id, clk);
            var (_, sent) := Send(env, read, m, clk');
      && sent.Ok?
      && (Start(env, s, m, clk).call == Accepted(m, id) <==> sent.value.state.Working?)
      && (sent.value.state.Working? <==>
            AuthorizationOf(m).Some? && Pays(env, AuthorizationOf(m).value, s.tasks[id].quote))
  {
    var (read, shown) := GetTask(s, id, clk);
    QuoteShown(env, s, id, clk);
    SendAccepts(env, read, m, id, clk');
    assert shown == Some(read.tasks[id].task);
    var auth := AuthorizationOf(m);
    if auth.Some? {
      ValidateExact(env, auth.value, s.tasks[id].quote);
    }
  }

  lemma TwoArtifactEvents(id: string, contextId: string, a: Artifact, b: Artifact)
    ensures ArtifactEvents(id, contextId, [a, b])
         == [ArtifactUpdate(id, contextId, a), ArtifactUpdate(id, contextId, b)]
  {
  }

  lemma ThreeEvents(id: string, task: Task, a: Artifact, b: Artifact)
    requires task.artifacts == Some([a, b])
    ensures FinalEvents(id, task) ==
      [ArtifactUpdate(id, task.contextId, a), ArtifactUpdate(id, task.contextId, b),
       StatusUpdate(id, task.contextId, task.state, task.stamp)]
  {
    TwoArtifactEvents(id, task.contextId, a, b);
  }

  lemma StatusOnly(id: string, task: Task)
    requires task.artifacts == None || task.artifacts == Some([])
    ensures FinalEvents(id, task) == [StatusUpdate(id, task.contextId, task.state, task.stamp)]
  {
  }

  /**
   The call has sent its message and completed the task with the authorization the
   message carries: the payment artifact is out, the storage artifact and the
   COMPLETED status are to come.
   */
  ghost predicate CompletesWith(env: Env, s: State, m: Message, id: string, clk: Clock, resumed: Resumption)
    requires id in s.tasks && AuthorizationOf(m).Some?
  {
    var r := s.tasks[id];
    var pending := MakePending(env, r.request, r.quote, AuthorizationOf(m).value);
    && id in resumed.state.tasks
    && resumed.state.tasks[id].task.state.Completed?
    && resumed.state.tasks[id].task.authorization == AuthorizationOf(m)
    && resumed.state.tasks[id].history == r.history + [m]
    && resumed.event == Some(ArtifactUpdate(id, r.contextId, pending.payment))
    && resumed.call == Draining([ArtifactUpdate(id, r.contextId, pending.storage),
                                 StatusUpdate(id, r.contextId, Completed, clk.stamp)])
  }

  lemma PendingCarries(env: Env, request: StoreRequest, quote: Quote, auth: Object)
    ensures MakePending(env, request, quote, auth).authorization == auth
  {
  }

  /** Sending a paying message and completing at once leaves the finished task. */
  lemma FinishCompletes(env: Env, s: State, m: Message, id: string, clk: Clock)
    requires Continues(m, id) && id in s.tasks && !Terminal(s.tasks[id].task.state)
    requires AuthorizationOf(m).Some? && Pays(env, AuthorizationOf(m).value, s.tasks[id].quote)
    ensures CompletesWith(env, s, m, id, clk, Finish(env, s, m, id, clk))
  {
    hide MakePending, Pays, ExtractPayload, ValidateAuthorization, Terminal;
    var r := s.tasks[id];
    var pending := MakePending(env, r.request, r.quote, AuthorizationOf(m).value);
    ValidateExact(env, AuthorizationOf(m).value, r.quote);
    SendAccepts(env, s, m, id, clk);
    var sent := Send(env, s, m, clk).0;
    assert sent.tasks[id].pending == Some(pending) && sent.tasks[id].contextId == r.contextId;
    PendingCarries(env, r.request, r.quote, AuthorizationOf(m).value);
    var final := CompleteWorking(sent, id, clk).1.value;
    assert final.artifacts == Some([pending.payment, pending.storage]) && final.state == Completed;
    assert final.contextId == r.contextId && final.stamp == clk.stamp;
    ThreeEvents(id, final, pending.payment, pending.storage);
  }

  // ----- what an accepted call comes to -----

  /** The call was accepted for a message to this task that pays for its quote. */
  ghost predicate Promised(env: Env, s: State, m: Message, id: string) {
    && id in s.tasks
    && OptionalString(m, "taskId") == Some(id)
    && ExtractPayload(m).Some?
    && AuthorizationOf(m).Some?
    && Pays(env, AuthorizationOf(m).value, s.tasks[id].quote)
  }

  lemma StartPromises(env: Env, s: State, m: Message, clk: Clock)
    requires Settled(env, s) && "" !in s.tasks
    ensures var r := Start(env, s, m, clk);
      r.call.Accepted? ==> r.call.m == m && Promised(env, r.state, m, r.call.id)
  {
    hide Settled, Pays, Send, ValidateAuthorization, ExtractPayload, TryComplete;
    if Field(m, "taskId").Str? && Field(m, "taskId").s in s.tasks {
      var id := Field(m, "taskId").s;
      QuoteShown(env, s, id, clk);
      if AuthorizationOf(m).Some? {
        ValidateExact(env, AuthorizationOf(m).value, s.tasks[id].quote);
      }
    }
  }

  /**
   How the rest of an accepted call begins. It completes the task with its own
   authorization, or it raises and changes nothing: a RuntimeError exactly when the
   task is terminal by then, a ValueError exactly when the message is not a user's,
   which the pre-check does not look at.
   */
  lemma FinishOutcome(env: Env, s: State, m: Message, id: string, clk: Clock)
    requires Promised(env, s, m, id)
    ensures var resumed := Finish(env, s, m, id, clk);
            var user, terminal := Field(m, "role") == Str("ROLE_USER"), Terminal(s.tasks[id].task.state);
      && (user && !terminal <==> CompletesWith(env, s, m, id, clk, resumed))
      && (user && terminal <==> resumed.call == Raised(Uncaught(RuntimeError)))
      && (!user <==> resumed.call == Raised(Uncaught(ValueError)))
      && (resumed.call.Raised? ==> resumed.state == s)
  {
    hide Pays, ExtractPayload, Create, ValidateAuthorization, MakePending, AuthorizationOf,
      CompleteWorking, FinalEvents;
    if Field(m, "role") == Str("ROLE_USER") && !Terminal(s.tasks[id].task.state) {
      assert Continues(m, id);
      FinishCompletes(env, s, m, id, clk);
    }
  }

  /**
   A message that does not pay for the quote it meets (the task may have been
   replaced meanwhile) puts the task back to AUTH_REQUIRED. The call then completes
   it with an earlier payment if one is still pending, and otherwise ends with its
   status alone.
   */
  lemma FinishUnpaid(env: Env, s: State, m: Message, id: string, clk: Clock)
    requires Settled(env, s) && Continues(m, id) && id in s.tasks && !Terminal(s.tasks[id].task.state)
    requires AuthorizationOf(m).Some? ==> !Pays(env, AuthorizationOf(m).value, s.tasks[id].quote)
    ensures var r, resumed := s.tasks[id], Finish(env, s, m, id, clk);
      && id in resumed.state.tasks && resumed.state.tasks[id].history == r.history + [m]
      && (r.pending.None? ==>
            && resumed.event == Some(StatusUpdate(id, r.contextId, AuthRequired, clk.stamp))
            && resumed.call == Draining([]))
      && (r.pending.Some? ==>
            && resumed.state.tasks[id].task.state.Completed?
            && resumed.state.tasks[id].task.authorization == Some(r.pending.value.authorization)
            && resumed.event == Some(ArtifactUpdate(id, r.contextId, r.pending.value.payment))
            && resumed.call == Draining([ArtifactUpdate(id, r.contextId, r.pending.value.storage),
                                         StatusUpdate(id, r.contextId, Completed, clk.stamp)]))
  {
    hide Pays, Send, Settled, Terminal, ExtractPayload, AuthorizationOf, MakePending, CompleteWorking, FinalEvents,
      PaidFor, OnlyTask;
    NamedMessage(env, s, m, id, clk);
    SettledAt(env, s, id);
    var r, sent := s.tasks[id], Send(env, s, m, clk).0;
    CompleteExact(sent, id, clk);
    var final := CompleteWorking(sent, id, clk).1.value;
    if r.pending.None? {
      StillOpen(r.task.state);
      StatusOnly(id, final);
    } else {
      CompletedContext(sent, id, clk);
      ThreeEvents(id, final, r.pending.value.payment, r.pending.value.storage);
    }
  }

  lemma StillOpen(state: TaskState)
    requires !Terminal(state)
    ensures !state.Completed?
  {
  }

  lemma CompletedContext(s: State, id: string, clk: Clock)
    requires id in s.tasks && s.tasks[id].pending.Some?
    ensures id in CompleteWorking(s, id, clk).0.tasks && CompleteWorking(s, id, clk).1.Some?
    ensures CompleteWorking(s, id, clk).1.value.contextId == s.tasks[id].contextId
    ensures CompleteWorking(s, id, clk).0.tasks[id].history == s.tasks[id].history
  {
  }

  /** What a call yields when it is resumed again and again with nothing in between. */
  datatype Trace = Trace(state: State, call: Call, events: seq<Event>)

  function Alone(env: Env, s: State, call: Call, clks: seq<Clock>): Trace
    decreases |clks|
  {
    if clks == [] then Trace(s, call, [])
    else
      var r := Resume(env, s, call, clks[0]);
      var rest := Alone(env, r.state, r.call, clks[1..]);
      rest.(events := (if r.event.Some? then [r.event.value] else []) + rest.events)
  }

  lemma {:induction false} DrainYieldsAll(env: Env, s: State, events: seq<Event>, clks: seq<Clock>)
    requires |clks| == |events| + 1
    ensures Alone(env, s, Draining(events), clks) == Trace(s, Returned, events)
  {
    hide Start, Finish;
    if events == [] {
      assert Alone(env, s, Returned, clks[1..]) == Trace(s, Returned, []);
    } else {
      DrainYieldsAll(env, s, events[1..], clks[1..]);
      assert [events[0]] + events[1..] == events;
    }
  }

  /**
   Left alone, an accepted call yields one WORKING task, the payment and storage
   artifacts of that task, and a COMPLETED status, and then returns.
   */
  lemma AcceptedStream(env: Env, s: State, m: Message, id: string, clks: seq<Clock>)
    requires Settled(env, s) && Continues(m, id) && id in s.tasks && |clks| == 5
    requires !Terminal(GetTask(s, id, clks[0]).1.value.state)
    requires AuthorizationOf(m).Some? && Pays(env, AuthorizationOf(m).value, s.tasks[id].quote)
    ensures
      var r := s.tasks[id];
      var pending := MakePending(env, r.request, r.quote, AuthorizationOf(m).value);
      var trace := Alone(env, s, Opened(m), clks);
      && trace.call == Returned
      && id in trace.state.tasks && trace.state.tasks[id].task.state.Completed?
      && trace.events == [
           TaskEvent(r.task.(state := Working, stamp := clks[0].stamp)),
           ArtifactUpdate(id, r.contextId, pending.payment),
           ArtifactUpdate(id, r.contextId, pending.storage),
           StatusUpdate(id, r.contextId, Completed, clks[1].stamp)]
  {
    hide Settled, Pays, Start, Finish, Continues, AuthorizationOf, MakePending, GetTask, Terminal;
    AcceptedStart(env, s, m, id, clks[0]);
    var r0 := Start(env, s, m, clks[0]);
    FinishCompletes(env, r0.state, m, id, clks[1]);
    var r1 := Finish(env, r0.state, m, id, clks[1]);
    DrainYieldsAll(env, r1.state, r1.call.events, clks[2..]);
    assert clks[1..][1..] == clks[2..];
    var tail := Alone(env, r0.state, r0.call, clks[1..]);
    assert tail.events == [r1.event.value] + r1.call.events;
    assert Alone(env, s, Opened(m), clks).events == [r0.event.value] + tail.events;
  }

  /** The first resumption of such a call changes nothing and is suspended at the WORKING event. */
  lemma AcceptedStart(env: Env, s: State, m: Message, id: string, clk: Clock)
    requires Settled(env, s) && Continues(m, id) && id in s.tasks
    requires !Terminal(GetTask(s, id, clk).1.value.state)
    requires AuthorizationOf(m).Some? && Pays(env, AuthorizationOf(m).value, s.tasks[id].quote)
    ensures !Terminal(s.tasks[id].task.state)
    ensures Start(env, s, m, clk)
         == Resumption(s, Accepted(m, id), Some(TaskEvent(s.tasks[id].task.(state := Working, stamp := clk.stamp))))
  {
    hide Settled, Pays, Send, ValidateAuthorization, ExtractPayload;
    PreCheckAgreesWithService(env, s, m, id, clk, clk);
  }

  /**
   Left alone, a call whose message names no task yields the task that the service
   files, and returns; or it raises InvalidParams, for a message that stores nothing.
   */
  lemma UnnamedStream(env: Env, s: State, m: Message, clks: seq<Clock>)
    requires !Field(m, "taskId").Str? && |clks| == 2
    ensures var (s', sent) := Send(env, s, m, clks[0]);
            var trace := Alone(env, s, Opened(m), clks);
      && (sent.Ok? ==> trace == Trace(s', Returned, [TaskEvent(sent.value)]))
      && (sent.Err? ==> trace == Trace(s, Raised(InvalidParams), []))
  {
    hide Send;
    UnnamedMessage(env, s, m, clks[0]);
    SentAlone(env, s, Send(env, s, m, clks[0]), Opened(m), clks);
  }

  /** The second resumption of a call that has yielded its one event, or has raised. */
  lemma SentAlone(env: Env, s: State, outcome: (State, Result<Task, Error>), call: Call, clks: seq<Clock>)
    requires |clks| == 2
    requires Resume(env, s, call, clks[0]) ==
      match outcome.1
      case Ok(task) => Resumption(outcome.0, Draining([]), Some(TaskEvent(task)))
      case Err(e) => Resumption(outcome.0, Raised(Translate(e)), None)
    ensures Alone(env, s, call, clks) ==
      match outcome.1
      case Ok(task) => Trace(outcome.0, Returned, [TaskEvent(task)])
      case Err(e) => Trace(outcome.0, Raised(Translate(e)), [])
  {
    hide Start, Finish;
    var s' := outcome.0;
    if outcome.1.Ok? {
      DrainYieldsAll(env, s', [], clks[1..]);
    } else {
      RaisedAlone(env, s', Translate(outcome.1.error), clks[1..]);
    }
  }

  lemma {:induction false} RaisedAlone(env: Env, s: State, failure: Failure, clks: seq<Clock>)
    ensures Alone(env, s, Raised(failure), clks) == Trace(s, Raised(failure), [])
    decreases |clks|
  {
    if clks != [] {
      RaisedAlone(env, s, failure, clks[1..]);
    }
  }

  /**
   Left alone, a call for a task that its message does not pay for yields the task
   as the service returns it, waiting for its payment, and returns. It raises
   TaskNotFound exactly when there is no such task, InvalidParams when the service
   cannot read the message, UnsupportedOperation when the task reads as terminal.
   */
  lemma UnpaidStream(env: Env, s: State, m: Message, id: string, clks: seq<Clock>)
    requires Settled(env, s) && OptionalString(m, "taskId") == Some(id) && |clks| == 2
    requires id in s.tasks && AuthorizationOf(m).Some? ==> !Pays(env, AuthorizationOf(m).value, s.tasks[id].quote)
    ensures var trace := Alone(env, s, Opened(m), clks);
            var read := GetTask(s, id, clks[0]).0;
            var (s', sent) := Send(env, read, m, clks[0]);
      && (id !in s.tasks <==> trace == Trace(s, Raised(TaskNotFound), []))
      && (id in s.tasks && sent.Ok? ==>
            sent.value.state == AuthRequired && trace == Trace(s', Returned, [TaskEvent(sent.value)]))
      && (id in s.tasks && sent == Err(ValueError) ==> trace == Trace(read, Raised(InvalidParams), []))
      && (id in s.tasks && sent == Err(RuntimeError) ==> trace == Trace(read, Raised(UnsupportedOperation), []))
      && (id in s.tasks ==> sent != Err(KeyError) && sent != Err(NotCancelable))
  {
    hide Settled, Pays, Send, GetTask, ValidateAuthorization, AuthorizationOf, ExtractPayload, Terminal, MakePending;
    var (read, shown) := GetTask(s, id, clks[0]);
    ReadFinds(s, id, clks[0]);
    if id in s.tasks {
      QuoteShown(env, s, id, clks[0]);
      ReadExact(env, s, id, clks[0]);
      NamedMessage(env, read, m, id, clks[0]);
      if AuthorizationOf(m).Some? {
        ValidateExact(env, AuthorizationOf(m).value, s.tasks[id].quote);
      }
      SentAlone(env, s, Send(env, read, m, clks[0]), Opened(m), clks);
    } else {
      assert Start(env, s, m, clks[0]) == Resumption(s, Raised(TaskNotFound), None);
      RaisedAlone(env, s, TaskNotFound, clks[1..]);
    }
  }

  /** A paying message keeps its task WORKING for half a second, and every read after that shows it COMPLETED. */
  lemma WorkingForHalfASecond(env: Env, s: State, m: Message, id: string, clk: Clock, clk': Clock)
    requires Settled(env, s) && Continues(m, id) && id in s.tasks && !Terminal(s.tasks[id].task.state)
    requires AuthorizationOf(m).Some? && Pays(env, AuthorizationOf(m).value, s.tasks[id].quote)
    ensures var shown := GetTask(Send(env, s, m, clk).0, id, clk').1;
      && shown.Some?
      && (shown.value.state.Working? <==> clk'.monotonic < clk.monotonic + 0.5)
      && (shown.value.state.Completed? <==> clk.monotonic + 0.5 <= clk'.monotonic)
  {
    hide Settled, Pays, MakePending, ExtractPayload, ValidateAuthorization, Terminal;
    ValidateExact(env, AuthorizationOf(m).value, s.tasks[id].quote);
    SendAccepts(env, s, m, id, clk);
  }

  /**
   A stream opened on a terminal task. With a paying message the handler first
   yields a WORKING copy of the task, and only then raises what the service says;
   without one it raises at once. Either way no task changes.
   */
  lemma StreamOnTerminalTask(env: Env, s: State, m: Message, id: string, clk: Clock, clk': Clock)
    requires Settled(env, s) && Continues(m, id) && id in s.tasks && Terminal(s.tasks[id].task.state)
    ensures
      var paying := AuthorizationOf(m).Some? && Pays(env, AuthorizationOf(m).value, s.tasks[id].quote);
      var first := Resume(env, s, Opened(m), clk);
      var second := Resume(env, first.state, first.call, clk');
      && first.state == second.state == s
      && (paying ==>
            && first.event == Some(TaskEvent(s.tasks[id].task.(state := Working, stamp := clk.stamp)))
            && second.call == Raised(Uncaught(RuntimeError)))
      && (!paying ==> first.event == None && first.call == Raised(UnsupportedOperation))
  {
    hide Settled, Pays, ExtractPayload, ValidateAuthorization, MakePending, Create;
    QuoteShown(env, s, id, clk);
    if AuthorizationOf(m).Some? {
      ValidateExact(env, AuthorizationOf(m).value, s.tasks[id].quote);
    }
    assert Send(env, s, m, clk) == (s, Err(RuntimeError)) && Send(env, s, m, clk') == (s, Err(RuntimeError));
  }
}
