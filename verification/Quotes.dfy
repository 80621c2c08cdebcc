/**
 Store requests, payment quotes and payment authorizations of the A2A payment
 service: what a request must look like, what it costs, and which authorization
 pays for it.
 */
module Quotes {
  import opened Outcomes
  import opened Json
  import opened Numbers

  const MIN_SIZE := 127
  const MAX_SIZE := 1_065_353_216
  const MAX_COPIES := 3

  /** A normalized store request. */
  datatype StoreRequest = StoreRequest(
    contentLabel: string,
    size: int,
    copies: int,
    withCdn: bool,
    rate: int,
    epochs: int,
    token: string)

  datatype FieldError =
    | LabelEmpty
    | SizeNotInteger
    | SizeOutOfRange
    | CopiesNotInteger
    | CopiesOutOfRange
    | CdnNotBoolean
    | RateNotPositive
    | EpochsNotPositive
    | TokenEmpty

  /** A parsed Filecoin address: its protocol and, when delegated, its namespace. */
  datatype Address = Address(protocol: int, namespace: Option<int>)

  /**
   The foreign code the service calls. Nothing is assumed about any of these: in
   particular the digests need not be injective.
   */
  datatype Env = Env(
    requestDigest: StoreRequest -> string,
    railDigest: (string, int, int) -> string,
    pieceDigest: (string, int, int, bool) -> string,
    stableInt: (string, string, int) -> int,
    parseAddress: string -> Option<Address>,
    encodable: string -> bool)

  datatype Quote = Quote(
    railId: string,
    taskId: string,
    token: string,
    rate: int,
    epochs: int,
    streamingLockup: int,
    fixedLockup: int,
    deposit: int)

  // ----- normalize_store_request -----

  function Errors(cond: bool, e: FieldError): seq<FieldError> {
    if cond then [e] else []
  }

  function SizeErrors(size: Option<int>): seq<FieldError> {
    if size.None? then [SizeNotInteger]
    else Errors(!(MIN_SIZE <= size.value <= MAX_SIZE), SizeOutOfRange)
  }

  function CopiesErrors(copies: Option<int>): seq<FieldError> {
    if copies.None? then [CopiesNotInteger]
    else Errors(!(1 <= copies.value <= MAX_COPIES), CopiesOutOfRange)
  }

  predicate NonEmptyString(v: Value) {
    v.Str? && v.s != ""
  }

  predicate Positive(n: Option<int>) {
    n.Some? && 0 < n.value
  }

  /** Everything that is wrong with the values read from a payload, in the order of the checks. */
  function FieldErrors(content: Value, size: Option<int>, copies: Option<int>, cdn: Value,
                       rate: Option<int>, epochs: Option<int>, token: Value): seq<FieldError>
  {
    Errors(!NonEmptyString(content), LabelEmpty)
    + SizeErrors(size)
    + CopiesErrors(copies)
    + Errors(!cdn.Bool?, CdnNotBoolean)
    + Errors(!Positive(rate), RateNotPositive)
    + Errors(!Positive(epochs), EpochsNotPositive)
    + Errors(!NonEmptyString(token), TokenEmpty)
  }

  function NormalizeStoreRequest(payload: Object): Result<StoreRequest, seq<FieldError>> {
    var content := Field(payload, "contentLabel");
    var size := CoerceInt(Field(payload, "declaredSizeBytes"));
    var copies := CoerceInt(FieldOr(payload, "copies", Int(2)));
    var cdn := FieldOr(payload, "withCDN", Bool(false));
    var rate := CoerceInt(FieldOr(payload, "paymentRateUsdfcPerEpoch", Int(1)));
    var epochs := CoerceInt(FieldOr(payload, "lockupEpochs", Int(2880)));
    var token := FieldOr(payload, "paymentToken", Str("USDFC"));
    var errors := FieldErrors(content, size, copies, cdn, rate, epochs, token);
    if errors != [] then Err(errors)
    else Ok(StoreRequest(content.s, size.value, copies.value, cdn.b, rate.value, epochs.value, token.s))
  }

  /** What every accepted request satisfies. */
  ghost predicate Acceptable(r: StoreRequest) {
    && r.contentLabel != ""
    && MIN_SIZE <= r.size <= MAX_SIZE
    && 1 <= r.copies <= MAX_COPIES
    && 0 < r.rate
    && 0 < r.epochs
    && r.token != ""
  }

  /** The payload that spells a request out in full, every default made explicit. */
  function Spell(r: StoreRequest): Object {
    map[
      "action" := Str("store_data"),
      "contentLabel" := Str(r.contentLabel),
      "declaredSizeBytes" := Int(r.size),
      "copies" := Int(r.copies),
      "withCDN" := Bool(r.withCdn),
      "paymentRateUsdfcPerEpoch" := Int(r.rate),
      "lockupEpochs" := Int(r.epochs),
      "paymentToken" := Str(r.token)]
  }

  /**
   Normalization accepts only acceptable requests, rejects with at least one
   error, and is undone by spelling the request out: the acceptable requests are
   exactly the ones it can produce.
   */
  lemma NormalizeRoundTrip(payload: Object, r: StoreRequest)
    ensures NormalizeStoreRequest(payload).Ok? ==> Acceptable(NormalizeStoreRequest(payload).value)
    ensures NormalizeStoreRequest(payload).Err? ==> NormalizeStoreRequest(payload).error != []
    ensures NormalizeStoreRequest(Spell(r)) == Ok(r) <==> Acceptable(r)
  {
    hide Acceptable, Says, NormalizeStoreRequest;
    if NormalizeStoreRequest(payload).Ok? {
      NormalizeExact(payload, NormalizeStoreRequest(payload).value);
    }
    RejectsForReason(payload);
    SpellSays(r);
    NormalizeExact(Spell(r), r);
  }

  lemma RejectsForReason(payload: Object)
    ensures NormalizeStoreRequest(payload).Err? ==> NormalizeStoreRequest(payload).error != []
  {
    hide FieldErrors;
  }

  lemma SpellSays(r: StoreRequest)
    ensures Says(Spell(r), r)
  {
  }

  /** The field is there and says the number, or is not there and the number is the default. */
  ghost predicate ReadsOr(payload: Object, key: string, n: int, default: int) {
    if key in payload then Reads(payload[key], n) else n == default
  }

  /** The payload says this request, the fields it leaves out being 2 copies, no CDN, rate 1, 2880 epochs and USDFC. */
  ghost predicate Says(payload: Object, r: StoreRequest) {
    && Field(payload, "contentLabel") == Str(r.contentLabel)
    && Reads(Field(payload, "declaredSizeBytes"), r.size)
    && ReadsOr(payload, "copies", r.copies, 2)
    && (if "withCDN" in payload then payload["withCDN"] == Bool(r.withCdn) else !r.withCdn)
    && ReadsOr(payload, "paymentRateUsdfcPerEpoch", r.rate, 1)
    && ReadsOr(payload, "lockupEpochs", r.epochs, 2880)
    && (if "paymentToken" in payload then payload["paymentToken"] == Str(r.token) else r.token == "USDFC")
  }

  /** Normalization yields a request exactly when the payload says it and it is within the limits. */
  lemma NormalizeExact(payload: Object, r: StoreRequest)
    ensures NormalizeStoreRequest(payload) == Ok(r) <==> Says(payload, r) && Acceptable(r)
  {
    hide CoerceInt, Reads;
    CoerceIntExact(Field(payload, "declaredSizeBytes"), r.size);
    CoerceIntExact(FieldOr(payload, "copies", Int(2)), r.copies);
    CoerceIntExact(FieldOr(payload, "paymentRateUsdfcPerEpoch", Int(1)), r.rate);
    CoerceIntExact(FieldOr(payload, "lockupEpochs", Int(2880)), r.epochs);
    DefaultReads(2, r.copies);
    DefaultReads(1, r.rate);
    DefaultReads(2880, r.epochs);
  }

  lemma DefaultReads(default: int, n: int)
    ensures Reads(Int(default), n) <==> n == default
  {
  }

  /** What is wrong with a payload. */
  ghost predicate Wrong(payload: Object, e: FieldError) {
    match e
    case LabelEmpty => !NonEmptyString(Field(payload, "contentLabel"))
    case SizeNotInteger => forall n :: !Reads(Field(payload, "declaredSizeBytes"), n)
    case SizeOutOfRange =>
      exists n :: Reads(Field(payload, "declaredSizeBytes"), n) && !(127 <= n <= 1_065_353_216)
    case CopiesNotInteger => "copies" in payload && forall n :: !Reads(payload["copies"], n)
    case CopiesOutOfRange => "copies" in payload && exists n :: Reads(payload["copies"], n) && !(1 <= n <= 3)
    case CdnNotBoolean => "withCDN" in payload && !payload["withCDN"].Bool?
    case RateNotPositive =>
      "paymentRateUsdfcPerEpoch" in payload && forall n :: Reads(payload["paymentRateUsdfcPerEpoch"], n) ==> n <= 0
    case EpochsNotPositive => "lockupEpochs" in payload && forall n :: Reads(payload["lockupEpochs"], n) ==> n <= 0
    case TokenEmpty => "paymentToken" in payload && !NonEmptyString(payload["paymentToken"])
  }

  lemma CoercedOrNot(v: Value)
    ensures CoerceInt(v).Some? ==> Reads(v, CoerceInt(v).value)
    ensures forall n :: Reads(v, n) ==> CoerceInt(v) == Some(n)
  {
    forall n: int
      ensures Reads(v, n) ==> CoerceInt(v) == Some(n)
    {
      CoerceIntExact(v, n);
    }
    if CoerceInt(v).Some? {
      CoerceIntExact(v, CoerceInt(v).value);
    }
  }

  lemma FieldErrorsExact(content: Value, size: Option<int>, copies: Option<int>, cdn: Value,
                         rate: Option<int>, epochs: Option<int>, token: Value, e: FieldError)
    ensures e in FieldErrors(content, size, copies, cdn, rate, epochs, token) <==>
      match e
      case LabelEmpty => !NonEmptyString(content)
      case SizeNotInteger => size.None?
      case SizeOutOfRange => size.Some? && !(127 <= size.value <= 1_065_353_216)
      case CopiesNotInteger => copies.None?
      case CopiesOutOfRange => copies.Some? && !(1 <= copies.value <= 3)
      case CdnNotBoolean => !cdn.Bool?
      case RateNotPositive => rate.None? || rate.value <= 0
      case EpochsNotPositive => epochs.None? || epochs.value <= 0
      case TokenEmpty => !NonEmptyString(token)
  {
    hide Errors, SizeErrors, CopiesErrors;
    ErrorsAre(!NonEmptyString(content), LabelEmpty, e);
    SizeErrorsAre(size, e);
    CopiesErrorsAre(copies, e);
    ErrorsAre(!cdn.Bool?, CdnNotBoolean, e);
    ErrorsAre(!Positive(rate), RateNotPositive, e);
    ErrorsAre(!Positive(epochs), EpochsNotPositive, e);
    ErrorsAre(!NonEmptyString(token), TokenEmpty, e);
  }

  lemma ErrorsAre(cond: bool, named: FieldError, e: FieldError)
    ensures e in Errors(cond, named) <==> cond && e == named
  {
  }

  lemma SizeErrorsAre(size: Option<int>, e: FieldError)
    ensures e in SizeErrors(size) <==>
      if size.None? then e == SizeNotInteger else e == SizeOutOfRange && !(127 <= size.value <= 1_065_353_216)
  {
  }

  lemma CopiesErrorsAre(copies: Option<int>, e: FieldError)
    ensures e in CopiesErrors(copies) <==>
      if copies.None? then e == CopiesNotInteger else e == CopiesOutOfRange && !(1 <= copies.value <= 3)
  {
  }

  /** A rejection names everything that is wrong, and nothing else. */
  lemma NormalizeErrorsExact(payload: Object, e: FieldError)
    ensures var r := NormalizeStoreRequest(payload); r.Err? && e in r.error <==> Wrong(payload, e)
  {
    hide CoerceInt, Reads, FieldErrors;
    var size, copies := Field(payload, "declaredSizeBytes"), FieldOr(payload, "copies", Int(2));
    var rate := FieldOr(payload, "paymentRateUsdfcPerEpoch", Int(1));
    var epochs := FieldOr(payload, "lockupEpochs", Int(2880));
    CoercedOrNot(size);
    CoercedOrNot(copies);
    CoercedOrNot(rate);
    CoercedOrNot(epochs);
    DefaultReads(2, 2);
    DefaultReads(1, 1);
    DefaultReads(2880, 2880);
    FieldErrorsExact(Field(payload, "contentLabel"), CoerceInt(size), CoerceInt(copies),
                     FieldOr(payload, "withCDN", Bool(false)), CoerceInt(rate), CoerceInt(epochs),
                     FieldOr(payload, "paymentToken", Str("USDFC")), e);
  }

  // ----- build_payment_quote -----

  function FixedLockup(size: int, copies: int): int {
    Max(1, (size + MIN_SIZE - 1) / MIN_SIZE) * copies
  }

  function StreamingLockup(rate: int, epochs: int, copies: int): int {
    rate * epochs * copies
  }

  function Deposit(r: StoreRequest): int {
    FixedLockup(r.size, r.copies) + StreamingLockup(r.rate, r.epochs, r.copies)
  }

  function TaskId(env: Env, r: StoreRequest): string {
    "task-" + env.requestDigest(r)
  }

  /** `ctx-` followed by the task id without its `task-` prefix. */
  function ContextId(taskId: string): string {
    "ctx-" + if "task-" <= taskId then taskId[5..] else taskId
  }

  function BuildQuote(env: Env, r: StoreRequest): Quote {
    Quote(
      "rail-" + env.railDigest(r.contentLabel, r.size, r.copies),
      TaskId(env, r),
      r.token,
      r.rate,
      r.epochs,
      StreamingLockup(r.rate, r.epochs, r.copies),
      FixedLockup(r.size, r.copies),
      Deposit(r))
  }

  // ----- validate_payment_authorization -----

  datatype AuthError =
    | NotApproved
    | PayerEmpty
    | PayerInvalid
    | LockupNotInteger
    | LockupTooSmall
    | TokenMismatch

  function AuthErrors(cond: bool, e: AuthError): seq<AuthError> {
    if cond then [e] else []
  }

  function ValidateAuthorization(env: Env, auth: Object, quote: Quote): seq<AuthError> {
    var payer := Field(auth, "payer");
    var lockup := CoerceInt(Field(auth, "maxLockupUsdfc"));
    AuthErrors(Field(auth, "approved") != Bool(true), NotApproved)
    + (if !NonEmptyString(payer) then [PayerEmpty]
       else AuthErrors(env.parseAddress(payer.s).None?, PayerInvalid))
    + (if lockup.None? then [LockupNotInteger]
       else AuthErrors(lockup.value < quote.deposit, LockupTooSmall))
    + AuthErrors(Field(auth, "paymentToken") != Str(quote.token), TokenMismatch)
  }

  /** An authorization pays for a quote. */
  ghost predicate Pays(env: Env, auth: Object, quote: Quote) {
    && Field(auth, "approved") == Bool(true)
    && NonEmptyString(Field(auth, "payer"))
    && env.parseAddress(Field(auth, "payer").s).Some?
    && CoerceInt(Field(auth, "maxLockupUsdfc")).Some?
    && quote.deposit <= CoerceInt(Field(auth, "maxLockupUsdfc")).value
    && Field(auth, "paymentToken") == Str(quote.token)
  }

  /** The validator reports no error exactly for the authorizations that pay. */
  lemma ValidateExact(env: Env, auth: Object, quote: Quote)
    ensures ValidateAuthorization(env, auth, quote) == [] <==> Pays(env, auth, quote)
  {
  }

  /** What is wrong with an authorization. */
  ghost predicate Refuses(env: Env, auth: Object, quote: Quote, e: AuthError) {
    var payer, lockup := Field(auth, "payer"), Field(auth, "maxLockupUsdfc");
    match e
    case NotApproved => Field(auth, "approved") != Bool(true)
    case PayerEmpty => !NonEmptyString(payer)
    case PayerInvalid => NonEmptyString(payer) && env.parseAddress(payer.s).None?
    case LockupNotInteger => forall n :: !Reads(lockup, n)
    case LockupTooSmall => exists n :: Reads(lockup, n) && n < quote.deposit
    case TokenMismatch => Field(auth, "paymentToken") != Str(quote.token)
  }

  /** The validator names everything that is wrong with an authorization, and nothing else. */
  lemma AuthErrorsExact(env: Env, auth: Object, quote: Quote, e: AuthError)
    ensures e in ValidateAuthorization(env, auth, quote) <==> Refuses(env, auth, quote, e)
  {
    hide CoerceInt, Reads;
    CoercedOrNot(Field(auth, "maxLockupUsdfc"));
  }

  // ----- the arithmetic of a quote -----

  /** The streaming lockup is additive in each of rate, epochs and copies, and one for one of each. */
  lemma StreamingLockupLaws(a: int, b: int, x: int, y: int)
    ensures StreamingLockup(a + b, x, y) == StreamingLockup(a, x, y) + StreamingLockup(b, x, y)
    ensures StreamingLockup(x, a + b, y) == StreamingLockup(x, a, y) + StreamingLockup(x, b, y)
    ensures StreamingLockup(x, y, a + b) == StreamingLockup(x, y, a) + StreamingLockup(x, y, b)
    ensures StreamingLockup(1, 1, 1) == 1
  {
    Distribute(a, b, x);
    Distribute(a * x, b * x, y);
    assert x * (a + b) == x * a + x * b;
    Distribute(x * a, x * b, y);
    assert x * y * (a + b) == x * y * a + x * y * b;
  }

  lemma Distribute(a: int, b: int, c: int)
    ensures (a + b) * c == a * c + b * c
  {
  }

  /** The fixed lockup is additive in copies. */
  lemma FixedLockupLaws(size: int, m: int, n: int)
    ensures FixedLockup(size, m + n) == FixedLockup(size, m) + FixedLockup(size, n)
  {
    var units := FixedLockup(size, 1);
    assert units * (m + n) == units * m + units * n;
  }

  /** What a quote says, for a size that takes the given number of 127-byte units. */
  lemma QuoteSays(env: Env, r: StoreRequest, units: int)
    requires 127 * (units - 1) < r.size <= 127 * units && units >= 1
    ensures var q := BuildQuote(env, r);
      && q.fixedLockup == units * r.copies
      && q.streamingLockup == r.rate * r.epochs * r.copies
      && q.deposit == q.fixedLockup + q.streamingLockup
      && q.token == r.token && q.rate == r.rate && q.epochs == r.epochs
      && q.taskId == TaskId(env, r)
      && q.railId == "rail-" + env.railDigest(r.contentLabel, r.size, r.copies)
  {
    UnitsAreLeast(r.size);
  }

  /** Ids tell digests apart, and a context has the digest of its task. */
  lemma IdsFollowDigest(env: Env, a: StoreRequest, b: StoreRequest)
    ensures TaskId(env, a) == TaskId(env, b) <==> env.requestDigest(a) == env.requestDigest(b)
    ensures TaskId(env, a) == "task-" + env.requestDigest(a)
    ensures ContextId(TaskId(env, a)) == "ctx-" + env.requestDigest(a)
  {
    var x, y := env.requestDigest(a), env.requestDigest(b);
    assert ("task-" + x)[5..] == x && ("task-" + y)[5..] == y;
  }

  /** The number of 127-byte units is the least one that holds the declared size. */
  lemma UnitsAreLeast(size: int)
    requires 1 <= size
    ensures MIN_SIZE * (FixedLockup(size, 1) - 1) < size <= MIN_SIZE * FixedLockup(size, 1)
  {
  }

  lemma UnitsMonotone(a: int, b: int)
    requires a <= b
    ensures FixedLockup(a, 1) <= FixedLockup(b, 1)
  {
  }

  lemma ProductMonotone(a: int, b: int, c: int, d: int)
    requires 0 <= a <= b && 0 <= c <= d
    ensures a * c <= b * d
  {
  }

  ghost predicate NoLarger(a: StoreRequest, b: StoreRequest) {
    a.size <= b.size && a.copies <= b.copies && a.rate <= b.rate && a.epochs <= b.epochs
  }

  /** The deposit never falls when any of size, copies, rate or epochs grows. */
  lemma DepositMonotone(a: StoreRequest, b: StoreRequest)
    requires Acceptable(a) && Acceptable(b) && NoLarger(a, b)
    ensures Deposit(a) <= Deposit(b)
    ensures FixedLockup(a.size, a.copies) <= FixedLockup(b.size, b.copies)
  {
    UnitsMonotone(a.size, b.size);
    ProductMonotone(FixedLockup(a.size, 1), FixedLockup(b.size, 1), a.copies, b.copies);
    ProductMonotone(a.rate, b.rate, a.epochs, b.epochs);
    ProductMonotone(a.rate * a.epochs, b.rate * b.epochs, a.copies, b.copies);
  }

  /** Asking for the copies in two requests costs what asking for them in one does. */
  lemma DepositAdditiveInCopies(r: StoreRequest, m: int, n: int)
    ensures Deposit(r.(copies := m + n)) == Deposit(r.(copies := m)) + Deposit(r.(copies := n))
  {
  }

  /** Splitting the declared size never makes the fixed lockup smaller. */
  lemma SplittingNeverCheaper(a: int, b: int, copies: int)
    requires 1 <= a && 1 <= b && 0 <= copies
    ensures FixedLockup(a + b, copies) <= FixedLockup(a, copies) + FixedLockup(b, copies)
  {
    UnitsAreLeast(a);
    UnitsAreLeast(b);
    UnitsAreLeast(a + b);
    var ua, ub, u := FixedLockup(a, 1), FixedLockup(b, 1), FixedLockup(a + b, 1);
    assert u <= ua + ub;
    ProductMonotone(u, ua + ub, copies, copies);
    assert (ua + ub) * copies == ua * copies + ub * copies;
  }

  /** Fixed lockup is at most 3 * 2^23, reached by three copies of the largest size. */
  lemma FixedLockupBound(r: StoreRequest)
    requires Acceptable(r)
    ensures 1 <= FixedLockup(r.size, r.copies) <= 3 * 0x80_0000
    ensures FixedLockup(r.size, r.copies) == 3 * 0x80_0000 ==> r.copies == MAX_COPIES
    ensures FixedLockup(MAX_SIZE, MAX_COPIES) == 3 * 0x80_0000
  {
  }

  /**
   An authorization that pays for one request pays for every request that is no
   larger and uses the same token.
   */
  lemma AuthorizationCoversSmaller(env: Env, auth: Object, small: StoreRequest, large: StoreRequest)
    requires Acceptable(small) && Acceptable(large)
    requires NoLarger(small, large) && small.token == large.token
    requires ValidateAuthorization(env, auth, BuildQuote(env, large)) == []
    ensures ValidateAuthorization(env, auth, BuildQuote(env, small)) == []
  {
    DepositMonotone(small, large);
    ValidateExact(env, auth, BuildQuote(env, large));
    ValidateExact(env, auth, BuildQuote(env, small));
  }
}
