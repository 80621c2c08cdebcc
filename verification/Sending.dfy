/** What a message, a read and a cancellation do to the task store, and what they leave alone. */
module Sending {
  import opened Outcomes
  import opened Json
  import opened Quotes
  import opened Tasks
  import opened TaskInvariants

  // ----- reading a message -----

  /** The message is a user's and its first part is JSON data. */
  ghost predicate Readable(m: Message, payload: Object) {
    && Field(m, "role") == Str("ROLE_USER")
    && Field(m, "parts").List?
    && var items := Field(m, "parts").items;
    && items != [] && items[0].Obj?
    && Field(items[0].fields, "mediaType") == Str("application/json")
    && Field(items[0].fields, "data") == Obj(payload)
  }

  lemma PayloadExact(m: Message, payload: Object)
    ensures Field(m, "role") == Str("ROLE_USER") && ExtractPayload(m) == Some(payload) <==> Readable(m, payload)
  {
  }

  /** The message is a store request that the service accepts, for the given task id. */
  ghost predicate Stores(env: Env, m: Message, id: string) {
    && Field(m, "role") == Str("ROLE_USER")
    && ExtractPayload(m).Some?
    && OptionalString(m, "taskId").None?
    && StoresPayload(env, ExtractPayload(m).value, id)
  }

  ghost predicate StoresPayload(env: Env, payload: Object, id: string) {
    && Field(payload, "action") == Str("store_data")
    && NormalizeStoreRequest(payload).Ok?
    && var request := NormalizeStoreRequest(payload).value;
       env.encodable(request.contentLabel) && env.encodable(request.token) && TaskId(env, request) == id
  }

  // ----- what is left alone -----

  /** Nothing but the given task has changed, and at most its deadline. */
  ghost predicate OnlyTask(s: State, s': State, id: string) {
    && (forall x :: x != id ==> (x in s'.tasks <==> x in s.tasks) && (x in s'.deadlines <==> x in s.deadlines))
    && (forall x :: x != id && x in s.tasks ==> s'.tasks[x] == s.tasks[x])
    && (forall x :: x != id && x in s.deadlines ==> s'.deadlines[x] == s.deadlines[x])
  }

  // ----- a store request -----

  /** A store request is filed under its id as a new task that waits for its payment, whatever was there. */
  ghost predicate Files(env: Env, s: State, m: Message, id: string, clk: Clock, s': State, task: Task) {
    && id in s'.tasks
    && s'.tasks[id].task == task
    && task.id == id && task.contextId == s'.tasks[id].contextId == ContextId(id)
    && task.state == AuthRequired && task.stamp == clk.stamp
    && task.artifacts == None && task.authorization == None
    && s'.tasks[id].history == task.history == [m]
    && s'.tasks[id].pending == None
    && s'.tasks[id].quote == task.quote == BuildQuote(env, s'.tasks[id].request)
    && ExtractPayload(m).Some?
    && NormalizeStoreRequest(ExtractPayload(m).value) == Ok(s'.tasks[id].request)
    && s'.deadlines == s.deadlines
    && s'.order == (if id in s.tasks then s.order else s.order + [id])
    && OnlyTask(s, s', id)
  }

  lemma StoreIsFiled(env: Env, s: State, m: Message, id: string, clk: Clock)
    requires Stores(env, m, id)
    ensures var (s', sent) := Send(env, s, m, clk); sent.Ok? && Files(env, s, m, id, clk, s', sent.value)
  {
    hide NormalizeStoreRequest, BuildQuote, TaskId, ContextId, ExtractPayload;
  }

  /** The message that spells a request out. */
  function StoreMessage(r: StoreRequest): Message {
    map[
      "role" := Str("ROLE_USER"),
      "parts" := List([Obj(map["mediaType" := Str("application/json"), "data" := Obj(Spell(r))])])]
  }

  /** So every acceptable request can be stored. */
  lemma EveryRequestCanBeStored(env: Env, r: StoreRequest)
    requires Acceptable(r) && env.encodable(r.contentLabel) && env.encodable(r.token)
    ensures Stores(env, StoreMessage(r), TaskId(env, r))
  {
    hide NormalizeStoreRequest, TaskId, Acceptable;
    var m := StoreMessage(r);
    NormalizeRoundTrip(Spell(r), r);
    assert Field(m, "role") == Str("ROLE_USER") && Field(m, "taskId") == Null;
    PayloadExact(m, Spell(r));
    assert Field(Spell(r), "action") == Str("store_data");
  }

  /** A message that names no task is accepted exactly when it is a store request; else nothing changes. */
  lemma UnnamedMessage(env: Env, s: State, m: Message, clk: Clock)
    requires OptionalString(m, "taskId") == None
    ensures var (s', sent) := Send(env, s, m, clk);
      && (sent.Ok? <==> exists id :: Stores(env, m, id))
      && (sent.Err? ==> sent.error == ValueError && s' == s)
  {
    hide NormalizeStoreRequest, BuildQuote, TaskId, ContextId, ExtractPayload;
    var sent := Send(env, s, m, clk).1;
    if sent.Ok? {
      var request := NormalizeStoreRequest(ExtractPayload(m).value).value;
      assert Stores(env, m, TaskId(env, request));
    }
  }

  // ----- a message to a task -----

  /** The message, and with it perhaps a payment, has reached the task. */
  ghost predicate Reaches(env: Env, s: State, m: Message, id: string, clk: Clock, s': State, task: Task)
    requires id in s.tasks
  {
    var r, auth := s.tasks[id], AuthorizationOf(m);
    var pays := auth.Some? && Pays(env, auth.value, r.quote);
    && id in s'.tasks
    && s'.tasks[id].task == task
    && task.history == s'.tasks[id].history == r.history + [m]
    && task.stamp == clk.stamp
    && task.contextId == (if pays then r.contextId else r.task.contextId)
    && task.quote == (if pays then r.quote else r.task.quote)
    && task.state == (if pays then Working else AuthRequired)
    && task.authorization == (if pays then auth else r.task.authorization)
    && task.artifacts == (if pays then Some([]) else r.task.artifacts)
    && s'.tasks[id].request == r.request && s'.tasks[id].quote == r.quote && s'.tasks[id].contextId == r.contextId
    && s'.tasks[id].pending
       == (if pays then Some(MakePending(env, r.request, r.quote, auth.value)) else r.pending)
    && s'.deadlines == (if pays then s.deadlines[id := clk.monotonic + 0.5] else s.deadlines)
    && s'.order == s.order
    && OnlyTask(s, s', id)
  }

  /** What a message to a task comes to: an unreadable, an unknown or a terminal one, or a message that reaches it. */
  lemma NamedMessage(env: Env, s: State, m: Message, id: string, clk: Clock)
    requires OptionalString(m, "taskId") == Some(id)
    ensures var (s', sent) := Send(env, s, m, clk);
            var readable := Field(m, "role") == Str("ROLE_USER") && ExtractPayload(m).Some?;
      && (!readable <==> sent == Err(ValueError))
      && (readable && id !in s.tasks <==> sent == Err(KeyError))
      && (readable && id in s.tasks && Terminal(s.tasks[id].task.state) <==> sent == Err(RuntimeError))
      && (sent.Err? ==> s' == s)
      && (sent.Ok? <==> readable && id in s.tasks && !Terminal(s.tasks[id].task.state))
      && (sent.Ok? ==> id in s.tasks && Reaches(env, s, m, id, clk, s', sent.value))
  {
    hide Pays, ExtractPayload, ValidateAuthorization, MakePending, AuthorizationIn, Create, Terminal;
    if id in s.tasks && AuthorizationOf(m).Some? {
      ValidateExact(env, AuthorizationOf(m).value, s.tasks[id].quote);
    }
  }

  // ----- a read and a cancellation -----

  lemma ReadFinds(s: State, id: string, clk: Clock)
    ensures id !in s.tasks ==> GetTask(s, id, clk) == (s, None)
    ensures id in s.tasks ==> id in GetTask(s, id, clk).0.tasks
    ensures id in s.tasks ==> GetTask(s, id, clk).1 == Some(GetTask(s, id, clk).0.tasks[id].task)
  {
  }

  /** A read changes a task exactly when it is WORKING and its deadline has come; then it is completed. */
  lemma ReadExact(env: Env, s: State, id: string, clk: Clock)
    requires Settled(env, s) && id in s.tasks
    ensures var (s', shown) := GetTask(s, id, clk);
            var r := s.tasks[id];
            var due := r.task.state.Working? && id in s.deadlines && s.deadlines[id] <= clk.monotonic;
      && id in s'.tasks && shown == Some(s'.tasks[id].task)
      && OnlyTask(s, s', id) && s'.order == s.order
      && (!due ==> s' == s)
      && (due ==>
            && r.pending.Some?
            && shown.value.state.Completed? && shown.value.stamp == clk.stamp
            && shown.value.authorization == Some(r.pending.value.authorization)
            && s'.tasks[id].pending.None? && id !in s'.deadlines
            && s'.tasks[id].history == r.history && shown.value.history == r.history)
  {
    hide Settled;
    SettledAt(env, s, id);
  }

  lemma SettledAt(env: Env, s: State, id: string)
    requires Settled(env, s) && id in s.tasks
    ensures SettledRecord(env, id, s.tasks[id], id in s.deadlines)
  {
  }

  /** A cancellation of a task that is not terminal changes its state and stamp, and nothing else. */
  lemma CancelExact(s: State, id: string, clk: Clock)
    requires id in s.tasks && !Terminal(s.tasks[id].task.state)
    ensures var (s', result) := Cancel(s, id, clk);
      && id in s'.tasks && result == Ok(Some(s'.tasks[id].task))
      && s'.tasks[id].task.state == Canceled && s'.tasks[id].task.stamp == clk.stamp
      && s'.tasks[id].history == s.tasks[id].history && s'.tasks[id].task.history == s.tasks[id].task.history
      && s'.deadlines == s.deadlines && s'.tasks[id].pending == s.tasks[id].pending
      && OnlyTask(s, s', id) && s'.order == s.order
  {
  }

  /** A forced completion completes what is pending, changes nothing if nothing is, and touches no other task. */
  lemma CompleteExact(s: State, id: string, clk: Clock)
    requires id in s.tasks
    ensures var (s', final) := CompleteWorking(s, id, clk);
            var r := s.tasks[id];
      && id in s'.tasks && final == Some(s'.tasks[id].task)
      && OnlyTask(s, s', id) && s'.order == s.order
      && (r.pending.None? ==> s' == s)
      && (r.pending.Some? ==>
            && final.value.state.Completed? && final.value.stamp == clk.stamp
            && final.value.authorization == Some(r.pending.value.authorization)
            && final.value.artifacts == Some([r.pending.value.payment, r.pending.value.storage])
            && s'.tasks[id].pending.None? && id !in s'.deadlines)
  {
  }
}
