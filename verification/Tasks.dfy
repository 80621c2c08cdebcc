/**
 The task store behind both A2A entrypoints, as functions from one state to the
 next. `TaskService` implements these functions on mutable records.
 */
module Tasks {
  import opened Outcomes
  import opened Json
  import opened Quotes

  const STREAMING_DELAY: real := 0.5

  type Message = Object

  datatype TaskState = AuthRequired | Working | Completed | Failed | Canceled | Rejected

  predicate Terminal(state: TaskState) {
    state.Completed? || state.Failed? || state.Canceled? || state.Rejected?
  }

  lemma OpenStates(state: TaskState)
    ensures !Terminal(state) <==> state == AuthRequired || state == Working
  {
  }

  /** One reading of the two clocks: the monotonic one and the wall-clock stamp. */
  datatype Clock = Clock(monotonic: real, stamp: int)

  datatype Error = ValueError | NotCancelable | KeyError | RuntimeError

  // ----- the simulated storage backend -----

  datatype Provider = Provider(id: int, role: string, healthy: bool, operatorId: string)

  const CATALOG := [
    Provider(1, "primary", true, "fwss-primary"),
    Provider(2, "secondary", true, "fwss-secondary"),
    Provider(3, "secondary", false, "fwss-draining")]

  datatype Copy = Copy(providerId: int, operatorId: string, pieceId: int, dataSetId: int, role: string)

  datatype FailedAttempt = FailedAttempt(providerId: int, role: string)

  datatype StorageResult = StorageResult(
    pieceCid: string,
    contentLabel: string,
    size: int,
    requestedCopies: int,
    complete: bool,
    copies: seq<Copy>,
    failedAttempts: seq<FailedAttempt>,
    withCdn: bool,
    railId: string)

  function PieceCid(env: Env, r: StoreRequest): string {
    "simulated-bafkzcib-" + env.pieceDigest(r.contentLabel, r.size, r.copies, r.withCdn)
  }

  function CopyAt(env: Env, pieceCid: string, p: Provider): Copy {
    Copy(p.id, p.operatorId, env.stableInt("piece", pieceCid, p.id), env.stableInt("dataset", pieceCid, p.id), p.role)
  }

  /** The copies held by the healthy providers among `ps`, in catalog order. */
  function CopiesAt(env: Env, pieceCid: string, ps: seq<Provider>): seq<Copy> {
    if ps == [] then []
    else
      var last := ps[|ps| - 1];
      CopiesAt(env, pieceCid, ps[..|ps| - 1]) + if last.healthy then [CopyAt(env, pieceCid, last)] else []
  }

  /** One failed attempt for each unhealthy provider among `ps`, in catalog order. */
  function FailuresAt(ps: seq<Provider>): seq<FailedAttempt> {
    if ps == [] then []
    else
      var last := ps[|ps| - 1];
      FailuresAt(ps[..|ps| - 1]) + if last.healthy then [] else [FailedAttempt(last.id, last.role)]
  }

  /** `PROVIDER_CATALOG[:copies]`; Python clamps a slice bound and drops from the end for a negative one. */
  function Chosen(copies: int): seq<Provider> {
    if copies > |CATALOG| then CATALOG
    else if copies >= 0 then CATALOG[..copies]
    else if copies >= -|CATALOG| then CATALOG[..|CATALOG| + copies]
    else []
  }

  function SimulatedResult(env: Env, r: StoreRequest, quote: Quote): StorageResult {
    var cid := PieceCid(env, r);
    var copies := CopiesAt(env, cid, Chosen(r.copies));
    StorageResult(cid, r.contentLabel, r.size, r.copies, |copies| == r.copies, copies,
                  FailuresAt(Chosen(r.copies)), r.withCdn, quote.railId)
  }

  /** Every provider tried is accounted for; when the healthy ones come first, they hold the copies, in order. */
  lemma {:induction false} ProvidersAccountedFor(env: Env, cid: string, ps: seq<Provider>, healthy: nat)
    requires healthy <= |ps| && forall i :: 0 <= i < |ps| ==> (ps[i].healthy <==> i < healthy)
    ensures |CopiesAt(env, cid, ps)| == healthy && |FailuresAt(ps)| == |ps| - healthy
    ensures forall i :: 0 <= i < healthy ==> CopiesAt(env, cid, ps)[i] == CopyAt(env, cid, ps[i])
  {
    hide CopyAt;
    if ps != [] {
      ProvidersAccountedFor(env, cid, ps[..|ps| - 1], if healthy == |ps| then healthy - 1 else healthy);
    }
  }

  /**
   Every requested copy is accounted for, as stored or as failed, and only the
   three-copy request reaches the draining provider and stays incomplete.
   */
  lemma ResultAccountsForCopies(env: Env, r: StoreRequest, quote: Quote)
    requires Acceptable(r)
    ensures var result := SimulatedResult(env, r, quote);
      && |result.copies| + |result.failedAttempts| == r.copies
      && (result.complete <==> r.copies <= 2)
      && (result.complete <==> result.failedAttempts == [])
      && (forall i :: 0 <= i < |result.copies| ==> result.copies[i] == CopyAt(env, result.pieceCid, CATALOG[i]))
  {
    hide CopyAt, CopiesAt, FailuresAt, PieceCid;
    ProvidersAccountedFor(env, PieceCid(env, r), CATALOG[..r.copies], if r.copies <= 2 then r.copies else 2);
  }

  /** Which providers hold the copies, which one fails, and what the result repeats of the request. */
  lemma ResultNamesProviders(env: Env, r: StoreRequest, quote: Quote)
    requires Acceptable(r)
    ensures var result := SimulatedResult(env, r, quote);
      && (forall i :: 0 <= i < |result.copies| ==>
            result.copies[i] == Copy(i + 1, if i == 0 then "fwss-primary" else "fwss-secondary",
                                     env.stableInt("piece", result.pieceCid, i + 1),
                                     env.stableInt("dataset", result.pieceCid, i + 1),
                                     if i == 0 then "primary" else "secondary"))
      && result.failedAttempts == (if r.copies == 3 then [FailedAttempt(3, "secondary")] else [])
      && result.pieceCid == "simulated-bafkzcib-" + env.pieceDigest(r.contentLabel, r.size, r.copies, r.withCdn)
      && result.contentLabel == r.contentLabel && result.size == r.size && result.requestedCopies == r.copies
      && result.withCdn == r.withCdn && result.railId == quote.railId
  {
    hide CopiesAt, FailuresAt, PieceCid;
    ResultAccountsForCopies(env, r, quote);
    PieceCidIs(env, r);
    ThirdProviderFails();
  }

  lemma ThirdProviderFails()
    ensures FailuresAt(CATALOG) == FailuresAt(CATALOG[..3]) == [FailedAttempt(3, "secondary")]
  {
    assert CATALOG[..3] == CATALOG;
    assert CATALOG[..2][..1] == CATALOG[..1] && CATALOG[..1][..0] == [];
    assert FailuresAt(CATALOG[..1]) == [];
    assert FailuresAt(CATALOG[..2]) == [];
  }

  lemma PieceCidIs(env: Env, r: StoreRequest)
    ensures PieceCid(env, r) == "simulated-bafkzcib-" + env.pieceDigest(r.contentLabel, r.size, r.copies, r.withCdn)
  {
  }

  // ----- artifacts, tasks and records -----

  datatype Artifact =
    | PaymentArtifact(
        railId: string, token: string, deposit: int, streamingLockup: int, fixedLockup: int,
        payer: Value, payerAddress: Option<Address>, approved: Value)
    | StorageArtifact(result: StorageResult)

  function BuildPaymentArtifact(env: Env, quote: Quote, auth: Object): Artifact {
    var payer := FieldOr(auth, "payer", Str(""));
    PaymentArtifact(
      quote.railId, quote.token, quote.deposit, quote.streamingLockup, quote.fixedLockup,
      payer, if payer.Str? then env.parseAddress(payer.s) else None, Field(auth, "approved"))
  }

  datatype Task = Task(
    id: string,
    contextId: string,
    state: TaskState,
    stamp: int,
    history: seq<Message>,
    artifacts: Option<seq<Artifact>>,
    quote: Quote,
    authorization: Option<Object>)

  datatype Pending = Pending(payment: Artifact, storage: Artifact, authorization: Object)

  datatype Record = Record(
    contextId: string,
    request: StoreRequest,
    quote: Quote,
    task: Task,
    history: seq<Message>,
    pending: Option<Pending>)

  /** `order` is the insertion order of the task dictionary. */
  datatype State = State(tasks: map<string, Record>, order: seq<string>, deadlines: map<string, real>)

  const EMPTY := State(map[], [], map[])

  function MakePending(env: Env, r: StoreRequest, quote: Quote, auth: Object): Pending {
    Pending(BuildPaymentArtifact(env, quote, auth), StorageArtifact(SimulatedResult(env, r, quote)), auth)
  }

  // ----- message payloads -----

  function ExtractPayload(m: Message): Option<Object> {
    match Field(m, "parts")
    case List(items) =>
      if items == [] || !items[0].Obj? || Field(items[0].fields, "mediaType") != Str("application/json") then None
      else (match Field(items[0].fields, "data")
            case Obj(data) => Some(data)
            case _ => None)
    case _ => None
  }

  function AuthorizationIn(payload: Object): Option<Object> {
    match Field(payload, "paymentAuthorization")
    case Obj(auth) => Some(auth)
    case _ => None
  }

  /** The authorization a message carries. */
  function AuthorizationOf(m: Message): Option<Object> {
    match ExtractPayload(m)
    case Some(payload) => AuthorizationIn(payload)
    case None => None
  }

  // ----- completion -----

  function CompletedTask(id: string, r: Record, p: Pending, clk: Clock): Task {
    Task(id, r.contextId, Completed, clk.stamp, r.history, Some([p.payment, p.storage]), r.quote, Some(p.authorization))
  }

  /** Completes whatever is pending; looks at the pending slot, not at the state. */
  function ForceComplete(s: State, id: string, clk: Clock): State
    requires id in s.tasks
  {
    var r := s.tasks[id];
    if r.pending.None? then s
    else s.(tasks := s.tasks[id := r.(pending := None, task := CompletedTask(id, r, r.pending.value, clk))],
            deadlines := s.deadlines - {id})
  }

  predicate Due(s: State, id: string, clk: Clock)
    requires id in s.tasks
  {
    var r := s.tasks[id];
    && r.pending.Some?
    && r.task.state.Working?
    && id in s.deadlines
    && s.deadlines[id] <= clk.monotonic
  }

  function TryComplete(s: State, id: string, clk: Clock): State
    requires id in s.tasks
  {
    if Due(s, id, clk) then ForceComplete(s, id, clk) else s
  }

  // ----- the operations -----

  function GetTask(s: State, id: string, clk: Clock): (State, Option<Task>) {
    if id !in s.tasks then (s, None)
    else
      var s' := TryComplete(s, id, clk);
      (s', Some(s'.tasks[id].task))
  }

  function CompleteWorking(s: State, id: string, clk: Clock): (State, Option<Task>) {
    if id !in s.tasks then (s, None)
    else
      var s' := ForceComplete(s, id, clk);
      (s', Some(s'.tasks[id].task))
  }

  function Cancel(s: State, id: string, clk: Clock): (State, Result<Option<Task>, Error>) {
    if id !in s.tasks then (s, Ok(None))
    else
      var r := s.tasks[id];
      if Terminal(r.task.state) then (s, Err(NotCancelable))
      else
        var task := r.task.(state := Canceled, stamp := clk.stamp);
        (s.(tasks := s.tasks[id := r.(task := task)]), Ok(Some(task)))
  }

  /** A copy of the task that says WORKING; the stored task is not touched. */
  function StreamingWorkingTask(s: State, id: string, clk: Clock): Option<Task> {
    if id !in s.tasks then None
    else Some(s.tasks[id].task.(state := Working, stamp := clk.stamp))
  }

  function Create(env: Env, s: State, m: Message, payload: Object, clk: Clock): (State, Result<Task, Error>) {
    if Field(payload, "action") != Str("store_data") then (s, Err(ValueError))
    else match NormalizeStoreRequest(payload)
      case Err(_) => (s, Err(ValueError))
      case Ok(request) =>
        if !env.encodable(request.contentLabel) || !env.encodable(request.token) then (s, Err(ValueError))
        else
          var id := TaskId(env, request);
          var quote := BuildQuote(env, request);
          var task := Task(id, ContextId(id), AuthRequired, clk.stamp, [m], None, quote, None);
          (s.(tasks := s.tasks[id := Record(ContextId(id), request, quote, task, [m], None)],
              order := if id in s.tasks then s.order else s.order + [id]),
           Ok(task))
  }

  function Continue(
      env: Env, s: State, id: string, m: Message, payload: Object, clk: Clock): (State, Result<Task, Error>)
  {
    if id !in s.tasks then (s, Err(KeyError))
    else if Terminal(s.tasks[id].task.state) then (s, Err(RuntimeError))
    else
      var r := s.tasks[id].(history := s.tasks[id].history + [m]);
      var auth := AuthorizationIn(payload);
      if auth.None? || ValidateAuthorization(env, auth.value, r.quote) != [] then
        var task := r.task.(history := r.history, state := AuthRequired, stamp := clk.stamp);
        (s.(tasks := s.tasks[id := r.(task := task)]), Ok(task))
      else
        var task := Task(id, r.contextId, Working, clk.stamp, r.history, Some([]), r.quote, auth);
        var pending := MakePending(env, r.request, r.quote, auth.value);
        (s.(tasks := s.tasks[id := r.(task := task, pending := Some(pending))],
            deadlines := s.deadlines[id := clk.monotonic + STREAMING_DELAY]),
         Ok(task))
  }

  function Send(env: Env, s: State, m: Message, clk: Clock): (State, Result<Task, Error>) {
    if Field(m, "role") != Str("ROLE_USER") then (s, Err(ValueError))
    else match ExtractPayload(m)
      case None => (s, Err(ValueError))
      case Some(payload) =>
        match OptionalString(m, "taskId")
        case None => Create(env, s, m, payload, clk)
        case Some(id) => Continue(env, s, id, m, payload, clk)
  }

  // ----- listing -----

  /** `filter == ""` filters nothing, like an absent filter. */
  predicate Selected(task: Task, contextId: string, state: string) {
    && (contextId != "" ==> task.contextId == contextId)
    && (state != "" ==> StateName(task.state) == state)
  }

  function StateName(state: TaskState): string {
    match state
    case AuthRequired => "TASK_STATE_AUTH_REQUIRED"
    case Working => "TASK_STATE_WORKING"
    case Completed => "TASK_STATE_COMPLETED"
    case Failed => "TASK_STATE_FAILED"
    case Canceled => "TASK_STATE_CANCELED"
    case Rejected => "TASK_STATE_REJECTED"
  }

  function Listed(task: Task, includeArtifacts: bool): Task {
    if includeArtifacts then task else task.(artifacts := None)
  }

  /** Completes every due task among `ids`. */
  function Refresh(s: State, ids: seq<string>, clk: Clock): State {
    if ids == [] then s
    else
      var before, id := Refresh(s, ids[..|ids| - 1], clk), ids[|ids| - 1];
      if id in before.tasks then TryComplete(before, id, clk) else before
  }

  function Pick(task: Task, contextId: string, state: string, includeArtifacts: bool): seq<Task> {
    if Selected(task, contextId, state) then [Listed(task, includeArtifacts)] else []
  }

  /** The selected tasks among `ids`, as they stand in `s`, in the order of `ids`. */
  function Select(s: State, ids: seq<string>, contextId: string, state: string, includeArtifacts: bool): seq<Task> {
    if ids == [] then []
    else
      var id := ids[|ids| - 1];
      Select(s, ids[..|ids| - 1], contextId, state, includeArtifacts)
      + if id in s.tasks then Pick(s.tasks[id].task, contextId, state, includeArtifacts) else []
  }

  /** Places a task after every one at least as new, so that equal stamps keep their order. */
  function InsertByStamp(sorted: seq<Task>, t: Task): seq<Task> {
    if sorted == [] || t.stamp <= sorted[|sorted| - 1].stamp then sorted + [t]
    else InsertByStamp(sorted[..|sorted| - 1], t) + [sorted[|sorted| - 1]]
  }

  /** `list.sort` on the stamp with `reverse=True`: newest first, and stable. */
  function SortNewestFirst(ts: seq<Task>): seq<Task> {
    if ts == [] then [] else InsertByStamp(SortNewestFirst(ts[..|ts| - 1]), ts[|ts| - 1])
  }

  /** The dictionary order lists every task once. */
  ghost predicate Ordered(s: State) {
    && (forall id :: id in s.order <==> id in s.tasks)
    && (forall i, j :: 0 <= i < j < |s.order| ==> s.order[i] != s.order[j])
  }

  function ListTasks(
      s: State, contextId: string, state: string, includeArtifacts: bool, clk: Clock): (State, seq<Task>)
  {
    var s' := Refresh(s, s.order, clk);
    (s', SortNewestFirst(Select(s', s.order, contextId, state, includeArtifacts)))
  }
}
