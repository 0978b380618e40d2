/** The request hook of the catalogue (src/hooks/useAnimeAPI.jsx): a
    process-wide rate gate, a registry of one abortable controller per URL,
    a bounded retry policy for HTTP 429 and network failures, the query
    builder of the catalogue request and the checks on each response shape.

    The network is a script: each attempt of a request consumes the next
    `Outcome` of the script. `Date.now()` is the `clock` field, advanced by
    the waits the hook performs and by `AdvanceClock` between requests. */
module AnimeApi {
  import opened Wrappers
  import opened Text
  import opened Catalogue

  const ApiBaseUrl := "https://api.jikan.moe/v4"
  /** Milliseconds after which a request is abandoned. */
  const RequestTimeout := 15000
  /** Minimum spacing, in milliseconds, between two issued requests. */
  const RateLimitDelay := 300
  /** Retries after the first attempt, for 429 and for network errors. */
  const MaxRetries := 3
  /** Items per catalogue page (`limit`). */
  const PageSize := 24
  /** Characters and staff entries kept for the detail view. */
  const DetailLimit := 12
  /** The message an abort is rethrown with; callers test for it. */
  const AbortMessage := "Request was aborted"

  /** The `data` member of a response body. */
  datatype DataField = Missing | NotArray | Array(items: seq<Item>)

  /** A response body: text that is not JSON (with the parser's error
      message), or a JSON value with its `data`, `pagination` and `message`
      members (a missing or empty `message` is ""). */
  datatype Json =
    | Malformed(syntaxError: string)
    | Value(data: DataField, pagination: Option<Pagination>, message: string)

  /** What the transport does with one attempt: answer with a status and a
      body, reject with a network error, reject because the controller was
      aborted, or outlast the 15 s timeout. */
  datatype Outcome =
    | Response(status: nat, body: Json)
    | NetworkFailure(message: string)
    | Aborted
    | Timeout

  /** The errors a request ends with. */
  datatype Failure =
    | AbortedRequest
    | RateLimited
    | HttpError(status: nat, bodyMessage: string)
    | Network(networkMessage: string)
    | BadJson(syntaxError: string)
    | TimedOut
    | InvalidFormat(what: string)
    | MissingId(what: string)
  {
    /** `error.message` of the thrown error. */
    function Message(): string {
      match this
      case AbortedRequest => AbortMessage
      case RateLimited => "Rate limit exceeded. Please try again later."
      case HttpError(status, m) => if m != "" then m else "API responded with status: " + NatToString(status)
      case Network(m) => m
      case BadJson(m) => m
      case TimedOut => "Request timed out after " + NatToString(RequestTimeout) + "ms"
      case InvalidFormat(what) => "Invalid " + what + " data format received from API"
      case MissingId(what) => "Anime ID is required to fetch " + what
    }
  }

  // ---------------------------------------------------------------------
  // Rate gate

  /** The wait before the next request: the least non-negative delay after
      which `RateLimitDelay` ms have passed since the last issue. */
  function GateWait(now: int, last: int): (w: nat)
    ensures now + w >= last + RateLimitDelay
    ensures w > 0 ==> now + w == last + RateLimitDelay
  {
    if now - last < RateLimitDelay then RateLimitDelay - (now - last) else 0
  }

  /** The wait is exactly what is missing to the spacing, and nothing when
      the spacing has already elapsed. */
  lemma GateWaitExact(now: int, last: int)
    ensures now - last < RateLimitDelay ==> GateWait(now, last) == RateLimitDelay - (now - last)
    ensures now - last >= RateLimitDelay ==> GateWait(now, last) == 0
  {
  }

  /** Each issue time is at least `gap` after the one before it. */
  ghost predicate Spaced(times: seq<int>, gap: nat)
    decreases |times|
  {
    |times| < 2 || (times[0] + gap <= times[1] && Spaced(times[1..], gap))
  }

  /** An issue at least `gap` after the last one keeps the log spaced. */
  lemma {:induction false} SpacedAppend(times: seq<int>, gap: nat, t: int)
    requires Spaced(times, gap)
    requires times != [] ==> times[|times| - 1] + gap <= t
    ensures Spaced(times + [t], gap)
    decreases |times|
  {
    if |times| >= 1 {
      assert (times + [t])[1..] == times[1..] + [t];
      SpacedAppend(times[1..], gap, t);
    }
  }

  /** The issue log of a retried request: the first attempt's issue, then
      the log of the retry, which starts at least `gap` later. */
  lemma LogAfterRetry(log0: seq<int>, t: int, log1: seq<int>, log2: seq<int>, gap: nat)
    requires log1 == log0 + [t]
    requires |log2| > |log1| && log2[..|log1|] == log1
    requires log2[|log1|] >= t + gap
    requires Spaced(log2[|log1|..], gap)
    ensures log2[..|log0|] == log0 && log2[|log0|] == t
    ensures Spaced(log2[|log0|..], gap)
  {
    assert log2[|log0|] == log1[|log0|];
    assert log2[|log0|..][1..] == log2[|log1|..];
  }

  /** Spaced issues are spaced pairwise: any later issue is at least `gap`
      after any earlier one. */
  lemma {:induction false} SpacedPairwise(times: seq<int>, gap: nat, i: nat, j: nat)
    requires Spaced(times, gap) && i < j < |times|
    ensures times[i] + gap <= times[j]
    decreases j
  {
    if i == 0 {
      if j > 1 {
        SpacedPairwise(times[1..], gap, 0, j - 1);
      }
    } else {
      SpacedPairwise(times[1..], gap, i - 1, j - 1);
    }
  }

  // ---------------------------------------------------------------------
  // One attempt and the retry policy

  /** What the hook does after one attempt: return the body, retry after a
      back-off, or throw. */
  datatype Step = Done(body: Json) | Retry | Fail(failure: Failure)

  /** `errorData.message` of an error response, where a body that does not
      parse reads as `{}`. */
  function ErrorBodyMessage(body: Json): string {
    match body
    case Malformed(_) => ""
    case Value(_, _, m) => m
  }

  /** The catch block for an error that is not an abort: retried while
      `retryCount < MaxRetries` when its message contains "NetworkError",
      rethrown unchanged otherwise. */
  function Caught(e: Failure, retryCount: nat): (s: Step)
    ensures s == Retry || s == Fail(e)
    ensures s == Retry <==> retryCount < MaxRetries && Contains(e.Message(), "NetworkError")
  {
    if retryCount < MaxRetries && Contains(e.Message(), "NetworkError") then Retry else Fail(e)
  }

  /** What one fetch amounts to before the retry decision: a usable body,
      a 429, or an error thrown inside the `try` block. */
  datatype Verdict = Ok(body: Json) | TooManyRequests | Thrown(error: Failure)

  /** Lines 54-91: the checks on the transport outcome, in the order the
      hook makes them. */
  function Classify(o: Outcome): (v: Verdict)
    ensures v.Ok? ==> o.Response? && 200 <= o.status <= 299 && o.body.Value? && v.body == o.body
  {
    match o
    case Response(status, body) =>
      if status == 429 then TooManyRequests
      else if !(200 <= status <= 299) then Thrown(HttpError(status, ErrorBodyMessage(body)))
      else (
        match body
        case Malformed(m) => Thrown(BadJson(m))
        case Value(_, _, _) => Ok(body))
    case NetworkFailure(m) => Thrown(Network(m))
    case Aborted => Thrown(AbortedRequest)
    case Timeout => Thrown(TimedOut)
  }

  /** One attempt at retry count `retryCount`: a 429 is retried while
      retries remain (lines 70-78) and otherwise rethrown as "Rate limit
      exceeded"; an abort is rethrown as such (lines 95-97); every other
      error goes through the retry test of the catch block. */
  function AttemptStep(o: Outcome, retryCount: nat): (s: Step)
    ensures s.Retry? ==> retryCount < MaxRetries
  {
    match Classify(o)
    case Ok(body) => Done(body)
    case TooManyRequests => if retryCount < MaxRetries then Retry else Caught(RateLimited, retryCount)
    case Thrown(e) => if e == AbortedRequest then Fail(e) else Caught(e, retryCount)
  }

  /** An attempt policy asks for a retry only while retries remain. */
  ghost predicate Bounded(attempt: (Outcome, nat) -> Step) {
    forall o: Outcome, k: nat :: attempt(o, k).Retry? ==> k < MaxRetries
  }

  /** The whole request from retry count `retryCount` on, each attempt
      judged by `attempt`: its result and the number of fetches it made. */
  function Run(attempt: (Outcome, nat) -> Step, script: seq<Outcome>, retryCount: nat): (r: (Result<Json, Failure>, nat))
    requires Bounded(attempt)
    requires retryCount <= MaxRetries
    requires |script| > MaxRetries - retryCount
    ensures 1 <= r.1 <= MaxRetries + 1 - retryCount
    decreases MaxRetries - retryCount
  {
    match attempt(script[0], retryCount)
    case Done(b) => (Success(b), 1)
    case Fail(f) => (Failure(f), 1)
    case Retry =>
      var (res, n) := Run(attempt, script[1..], retryCount + 1);
      (res, n + 1)
  }

  /** The step that ends a request, and the result it ends it with. */
  predicate Concludes(s: Step, res: Result<Json, Failure>) {
    match s
    case Done(b) => res == Success(b)
    case Fail(f) => res == Failure(f)
    case Retry => false
  }

  /** Every attempt before the last one was retried, and the last one gave
      the result. */
  lemma {:induction false} RunAttempts(attempt: (Outcome, nat) -> Step, script: seq<Outcome>, retryCount: nat)
    requires Bounded(attempt)
    requires retryCount <= MaxRetries
    requires |script| > MaxRetries - retryCount
    ensures var (res, n) := Run(attempt, script, retryCount);
      && (forall i :: 0 <= i < n - 1 ==> attempt(script[i], retryCount + i) == Retry)
      && Concludes(attempt(script[n - 1], retryCount + n - 1), res)
    decreases MaxRetries - retryCount
  {
    if attempt(script[0], retryCount) == Retry {
      var rest := script[1..];
      RunAttempts(attempt, rest, retryCount + 1);
      var (res, n) := Run(attempt, rest, retryCount + 1);
      forall i | 0 <= i < n ensures attempt(script[i], retryCount + i) == Retry {
        if i > 0 {
          assert script[i] == rest[i - 1];
        }
      }
      assert script[n] == rest[n - 1];
    }
  }

  /** Conversely, `n` retried attempts followed by one that concludes
      determine the request: its result is that attempt's and it made
      `n + 1` fetches. */
  lemma {:induction false} RunAfterRetries(attempt: (Outcome, nat) -> Step, script: seq<Outcome>, retryCount: nat,
                                           n: nat, res: Result<Json, Failure>)
    requires Bounded(attempt)
    requires retryCount <= MaxRetries
    requires |script| > MaxRetries - retryCount
    requires n < |script|
    requires forall i :: 0 <= i < n ==> attempt(script[i], retryCount + i) == Retry
    requires Concludes(attempt(script[n], retryCount + n), res)
    ensures Run(attempt, script, retryCount) == (res, n + 1)
    decreases n
  {
    if n > 0 {
      var rest := script[1..];
      assert attempt(script[0], retryCount + 0) == Retry;
      forall i | 0 <= i < n - 1 ensures attempt(rest[i], retryCount + 1 + i) == Retry {
        assert rest[i] == script[i + 1];
        assert attempt(script[i + 1], retryCount + (i + 1)) == Retry;
      }
      assert rest[n - 1] == script[n];
      RunAfterRetries(attempt, rest, retryCount + 1, n - 1, res);
    }
  }

  /** One attempt further: a retried first attempt leaves the rest of the
      request to the next retry count. */
  lemma RunRetried(attempt: (Outcome, nat) -> Step, script: seq<Outcome>, retryCount: nat)
    requires Bounded(attempt)
    requires retryCount <= MaxRetries && |script| > MaxRetries - retryCount
    requires attempt(script[0], retryCount) == Retry
    ensures retryCount < MaxRetries
    ensures Run(attempt, script, retryCount) ==
      (Run(attempt, script[1..], retryCount + 1).0, Run(attempt, script[1..], retryCount + 1).1 + 1)
  {
  }

  /** Timeout handling as the hook writes it (lines 54-59): the timer aborts
      the controller before it rejects, the abort rejects the pending fetch
      first, so `Promise.race` settles with the AbortError and the timeout is
      rethrown as "Request was aborted". Everything else is as `AttemptStep`. */
  function AttemptStepAsWritten(o: Outcome, retryCount: nat): (s: Step)
    ensures o != Timeout ==> s == AttemptStep(o, retryCount)
  {
    if o == Timeout then Fail(AbortedRequest) else AttemptStep(o, retryCount)
  }

  /** The request as the hook makes it, a timeout judged as an abort. */
  function Request(script: seq<Outcome>): (Result<Json, Failure>, nat)
    requires |script| > MaxRetries
  {
    Run(AttemptStepAsWritten, script, 0)
  }

  /** The request with a timeout reported as a timeout. */
  function RequestCorrected(script: seq<Outcome>): (Result<Json, Failure>, nat)
    requires |script| > MaxRetries
  {
    Run(AttemptStep, script, 0)
  }

  /** A 429 followed by a success returns the success body after two
      fetches. */
  lemma TooManyRequestsThenSuccess(script: seq<Outcome>, status: nat, body: Json)
    requires |script| > MaxRetries
    requires script[0].Response? && script[0].status == 429
    requires script[1] == Response(status, body) && 200 <= status <= 299 && body.Value?
    ensures Request(script) == (Success(body), 2)
  {
    assert AttemptStepAsWritten(script[0], 0 + 0) == Retry;
    RunAfterRetries(AttemptStepAsWritten, script, 0, 1, Success(body));
  }

  /** Four 429 answers in a row end the request with "Rate limit exceeded"
      after four fetches: the first and three retries. */
  lemma TooManyRequestsExhausted(script: seq<Outcome>)
    requires |script| > MaxRetries
    requires forall i :: 0 <= i <= MaxRetries ==> script[i].Response? && script[i].status == 429
    ensures Request(script) == (Failure(RateLimited), MaxRetries + 1)
  {
    forall i | 0 <= i < MaxRetries ensures AttemptStepAsWritten(script[i], 0 + i) == Retry {
    }
    assert AttemptStepAsWritten(script[MaxRetries], 0 + MaxRetries) == Fail(RateLimited);
    RunAfterRetries(AttemptStepAsWritten, script, 0, MaxRetries, Failure(RateLimited));
  }

  /** An abort is never retried: the request ends at once with the abort. */
  lemma AbortNotRetried(script: seq<Outcome>)
    requires |script| > MaxRetries
    requires script[0] == Aborted
    ensures Request(script) == (Failure(AbortedRequest), 1)
  {
  }

  /** A 429 and then network errors only: the retried request (line 74) is
      returned from the `try` block without being awaited, so its failures
      are handled by its own catch block at its own retry count and never
      by this one. The request fails after four fetches with the last
      network error rethrown. */
  lemma RetryBoundKept(script: seq<Outcome>)
    requires |script| > MaxRetries
    requires script[0] == Response(429, Value(Missing, None, ""))
    requires forall i :: 1 <= i < |script| ==> script[i] == NetworkFailure("NetworkError")
    ensures Request(script) == (Failure(Network("NetworkError")), MaxRetries + 1)
  {
    assert Contains(Network("NetworkError").Message(), "NetworkError");
    forall i | 0 <= i < MaxRetries ensures AttemptStepAsWritten(script[i], 0 + i) == Retry {
    }
    RunAfterRetries(AttemptStepAsWritten, script, 0, MaxRetries, Failure(Network("NetworkError")));
  }

  /** A network failure whose message contains "NetworkError" is retried
      while retries remain; at the last retry it is rethrown unchanged. */
  lemma NetworkErrorRetried(m: string, retryCount: nat)
    requires Contains(m, "NetworkError")
    ensures retryCount < MaxRetries ==> AttemptStep(NetworkFailure(m), retryCount) == Retry
    ensures retryCount >= MaxRetries ==> AttemptStep(NetworkFailure(m), retryCount) == Fail(Network(m))
  {
  }

  /** Any other network failure (for instance the "Failed to fetch" of some
      browsers) propagates unchanged without a retry. */
  lemma OtherNetworkErrorPropagates(m: string, retryCount: nat)
    requires !Contains(m, "NetworkError")
    ensures AttemptStep(NetworkFailure(m), retryCount) == Fail(Network(m))
  {
  }

  /** A status that is neither ok nor 429 fails with the body's message, or
      with "API responded with status: N" when there is none, and is not
      retried unless that message mentions "NetworkError". */
  lemma HttpErrorNotRetried(status: nat, body: Json, retryCount: nat)
    requires status != 429 && !(200 <= status <= 299)
    requires !Contains(HttpError(status, ErrorBodyMessage(body)).Message(), "NetworkError")
    ensures AttemptStep(Response(status, body), retryCount) == Fail(HttpError(status, ErrorBodyMessage(body)))
    ensures ErrorBodyMessage(body) == "" ==>
      AttemptStep(Response(status, body), retryCount).failure.Message() == "API responded with status: " + NatToString(status)
  {
  }

  /** A request that outlasts the timeout fails with the timeout error and
      is not retried. */
  lemma TimeoutNotRetried(retryCount: nat)
    ensures AttemptStep(Timeout, retryCount) == Fail(TimedOut)
  {
    var prefix, digits := "Request timed out after ", NatToString(RequestTimeout);
    assert 'N' !in prefix;
    assert 'N' !in digits by {
      assert forall i :: 0 <= i < |digits| ==> IsDigit(digits[i]);
    }
    assert TimedOut.Message() == prefix + digits + "ms";
    MissingFirstChar(prefix + digits + "ms", "NetworkError");
  }


  // ---------------------------------------------------------------------
  // Response shapes

  /** The catch block of the fetch functions: an error whose message is the
      abort message becomes the neutral result, every other error is
      rethrown. */
  function Neutralise<T>(f: Failure, neutral: T): (r: Result<T, Failure>)
    ensures r.Success? <==> f.Message() == AbortMessage
    ensures r.Success? ==> r.value == neutral
    ensures r.Failure? ==> r.error == f
  {
    if f.Message() == AbortMessage then Success(neutral) else Failure(f)
  }

  lemma InvalidFormatIsNotAbort(what: string)
    ensures InvalidFormat(what).Message() != AbortMessage
  {
    assert InvalidFormat(what).Message()[0] == 'I';
  }

  /** A catalogue page: the items and the pagination block. */
  datatype AnimePage = AnimePage(items: seq<Item>, pagination: Pagination)

  /** The neutral result of an aborted catalogue request. */
  const EmptyPage := AnimePage([], Pagination(false, 0))

  /** `fetchGenres` after the request: the `data` array, or an error. */
  function ShapeGenres(res: Result<Json, Failure>): Result<seq<Item>, Failure> {
    match res
    case Success(Value(Array(items), _, _)) => Success(items)
    case Success(_) => Neutralise(InvalidFormat("genre"), [])
    case Failure(f) => Neutralise(f, [])
  }

  /** `fetchAnime` after the request: the items and the pagination, or an
      error. */
  function ShapeAnime(res: Result<Json, Failure>): Result<AnimePage, Failure> {
    match res
    case Success(Value(Array(items), Some(p), _)) => Success(AnimePage(items, p))
    case Success(_) => Neutralise(InvalidFormat("anime"), EmptyPage)
    case Failure(f) => Neutralise(f, EmptyPage)
  }

  /** `fetchCharacters` / `fetchStaff` after the request: the first
      `DetailLimit` entries, or an error; `what` names the entries in the
      format error. */
  function ShapeDetail(res: Result<Json, Failure>, what: string): Result<seq<Item>, Failure> {
    match res
    case Success(Value(Array(items), _, _)) =>
      Success(if |items| <= DetailLimit then items else items[..DetailLimit])
    case Success(_) => Neutralise(InvalidFormat(what), [])
    case Failure(f) => Neutralise(f, [])
  }

  predicate HasDataArray(body: Json) {
    body.Value? && body.data.Array?
  }

  /** A body without a `data` array, or a catalogue body without
      `pagination`, fails as an invalid format. */
  lemma InvalidShapesFail(body: Json, what: string)
    ensures !HasDataArray(body) ==> ShapeGenres(Success(body)) == Failure(InvalidFormat("genre"))
    ensures !HasDataArray(body) ==> ShapeDetail(Success(body), what) == Failure(InvalidFormat(what))
    ensures !HasDataArray(body) || body.pagination.None? ==>
      ShapeAnime(Success(body)) == Failure(InvalidFormat("anime"))
  {
    InvalidFormatIsNotAbort("genre");
    InvalidFormatIsNotAbort("anime");
    InvalidFormatIsNotAbort(what);
  }

  /** An aborted request yields the neutral result: no genres, no entries,
      or an empty last catalogue page with total 0. */
  lemma AbortedIsNeutral(what: string)
    ensures ShapeGenres(Failure(AbortedRequest)) == Success([])
    ensures ShapeDetail(Failure(AbortedRequest), what) == Success([])
    ensures ShapeAnime(Failure(AbortedRequest)) == Success(EmptyPage)
  {
  }

  /** Every other error reaches the caller unchanged. */
  lemma OtherErrorsPropagate(f: Failure, what: string)
    requires f.Message() != AbortMessage
    ensures ShapeGenres(Failure(f)) == Failure(f)
    ensures ShapeDetail(Failure(f), what) == Failure(f)
    ensures ShapeAnime(Failure(f)) == Failure(f)
  {
  }

  /** The detail lists are the first min(12, n) entries of the response, in
      order. */
  lemma DetailKeepsFirstEntries(items: seq<Item>, p: Option<Pagination>, m: string, what: string)
    ensures var r := ShapeDetail(Success(Value(Array(items), p, m)), what);
      && r.Success?
      && |r.value| == (if |items| < DetailLimit then |items| else DetailLimit)
      && forall i :: 0 <= i < |r.value| ==> r.value[i] == items[i]
  {
  }

  /** A timed-out catalogue request, as the hook is written, reaches the
      provider as an empty last page instead of an error. */
  lemma TimeoutAsWrittenLooksEmpty(retryCount: nat)
    ensures AttemptStepAsWritten(Timeout, retryCount) == Fail(AbortedRequest)
    ensures ShapeAnime(Failure(AttemptStepAsWritten(Timeout, retryCount).failure)) == Success(EmptyPage)
  {
  }

  /** With the timeout reported as a timeout, the provider receives the
      error. */
  lemma TimeoutReported(retryCount: nat)
    ensures AttemptStep(Timeout, retryCount).Fail?
    ensures ShapeAnime(Failure(AttemptStep(Timeout, retryCount).failure)) == Failure(TimedOut)
  {
    TimeoutNotRetried(retryCount);
  }

  /** A catalogue request whose first fetch times out: as written it ends
      after that fetch as an abort, which the catalogue fetch turns into an
      empty last page; with the timeout reported, the caller gets the
      timeout error. */
  lemma TimedOutRequest(script: seq<Outcome>)
    requires |script| > MaxRetries && script[0] == Timeout
    ensures Request(script) == (Failure(AbortedRequest), 1)
    ensures ShapeAnime(Request(script).0) == Success(EmptyPage)
    ensures RequestCorrected(script) == (Failure(TimedOut), 1)
    ensures ShapeAnime(RequestCorrected(script).0) == Failure(TimedOut)
  {
    TimeoutReported(0);
  }

  // ---------------------------------------------------------------------
  // Query parameters of the catalogue request

  /** The query parameters the catalogue request can carry. */
  datatype Key = Page | Limit | OrderBy | SortOrder | Genres | Type | Status | Query | StartDate | EndDate | MinScore
  {
    /** The parameter's name in the query string. */
    function Name(): string {
      match this
      case Page => "page"
      case Limit => "limit"
      case OrderBy => "order_by"
      case SortOrder => "sort"
      case Genres => "genres"
      case Type => "type"
      case Status => "status"
      case Query => "q"
      case StartDate => "start_date"
      case EndDate => "end_date"
      case MinScore => "min_score"
    }

    /** The position at which the catalogue request sets the parameter. */
    function Rank(): nat {
      match this
      case Page => 0
      case Limit => 1
      case OrderBy => 2
      case SortOrder => 3
      case Genres => 4
      case Type => 5
      case Status => 6
      case Query => 7
      case StartDate => 8
      case EndDate => 9
      case MinScore => 10
    }
  }

  type Param = (Key, string)

  /** The value of the first parameter named `key`. */
  function Lookup(ps: seq<Param>, key: Key): Option<string> {
    if ps == [] then None else if ps[0].0 == key then Some(ps[0].1) else Lookup(ps[1..], key)
  }

  /** A parameter the request sets when `present` holds. */
  datatype Entry = Entry(present: bool, key: Key, value: string)

  /** The entries that are present, as parameters, in their order. */
  function Present(es: seq<Entry>): (ps: seq<Param>)
    ensures |ps| <= |es|
  {
    if es == [] then []
    else if es[0].present then [(es[0].key, es[0].value)] + Present(es[1..])
    else Present(es[1..])
  }

  /** The key of entry `i` occurs nowhere else. */
  predicate UniqueKey(es: seq<Entry>, i: nat)
    requires i < |es|
  {
    forall j :: 0 <= j < |es| && j != i ==> es[j].key != es[i].key
  }

  /** Reading back a key that occurs once gives its entry's value when the
      entry is present and nothing otherwise. */
  lemma {:induction false} LookupPresent(es: seq<Entry>, i: nat)
    requires i < |es| && UniqueKey(es, i)
    ensures Lookup(Present(es), es[i].key) == if es[i].present then Some(es[i].value) else None
    decreases |es|
  {
    if i == 0 {
      if !es[0].present {
        assert forall j :: 0 <= j < |es[1..]| ==> es[1..][j] == es[j + 1];
        LookupAbsent(es[1..], es[0].key);
      }
    } else {
      assert forall j :: 0 <= j < |es[1..]| ==> es[1..][j] == es[j + 1];
      LookupPresent(es[1..], i - 1);
    }
  }

  lemma {:induction false} LookupAbsent(es: seq<Entry>, k: Key)
    requires forall i :: 0 <= i < |es| ==> es[i].key != k
    ensures Lookup(Present(es), k) == None
    decreases |es|
  {
    if es != [] {
      LookupAbsent(es[1..], k);
    }
  }

  /** The order in which the catalogue request sets its parameters. */
  const ParamOrder: seq<Key> := [Page, Limit, OrderBy, SortOrder, Genres, Type, Status, Query, StartDate, EndDate, MinScore]

  /** Every key has one place in that order: its rank. */
  lemma ParamOrderPlaces(k: Key)
    ensures k.Rank() < |ParamOrder| && ParamOrder[k.Rank()] == k
    ensures forall j :: 0 <= j < |ParamOrder| && j != k.Rank() ==> ParamOrder[j] != k
  {
    assert forall j :: 0 <= j < |ParamOrder| ==> ParamOrder[j].Rank() == j;
  }

  function OptionalValue(present: bool, value: string): Option<string> {
    if present then Some(value) else None
  }

  /** Whether and with what value the catalogue request sets parameter `k`:
      page, limit, order_by and sort always, the filters when they differ
      from their defaults. */
  function Setting(k: Key, page: int, f: Filters, currentYear: int): (e: Entry)
    ensures e.key == k
  {
    match k
    case Page => Entry(true, Page, IntToString(if page < 1 then 1 else page))
    case Limit => Entry(true, Limit, NatToString(PageSize))
    case OrderBy => Entry(true, OrderBy, if f.sort != "" then f.sort else DefaultSort)
    case SortOrder => Entry(true, SortOrder, if f.sortOrder != "" then f.sortOrder else DefaultSortOrder)
    case Genres => Entry(|f.genres| > 0, Genres, Join(f.genres, ","))
    case Type => Entry(f.kind != "", Type, f.kind)
    case Status => Entry(f.status != "", Status, f.status)
    case Query => Entry(Trim(f.query) != "", Query, Trim(f.query))
    case StartDate => Entry(f.yearMin > DefaultYearMin, StartDate, IntToString(f.yearMin) + "-01-01")
    case EndDate => Entry(f.yearMax < currentYear, EndDate, IntToString(f.yearMax) + "-12-31")
    case MinScore => Entry(f.ratingMin > 0, MinScore, HundredthsToString(if f.ratingMin > 0 then f.ratingMin else 0))
  }

  function Settings(page: int, f: Filters, currentYear: int): (es: seq<Entry>)
    ensures |es| == |ParamOrder|
    ensures forall i :: 0 <= i < |es| ==> es[i] == Setting(ParamOrder[i], page, f, currentYear)
  {
    seq(|ParamOrder|, i requires 0 <= i < |ParamOrder| => Setting(ParamOrder[i], page, f, currentYear))
  }

  /** `url.searchParams` of the catalogue request. */
  function BuildParams(page: int, f: Filters, currentYear: int): seq<Param> {
    Present(Settings(page, f, currentYear))
  }

  /** Reading a parameter of the catalogue request back by name gives its
      setting's value when the request sets it, and nothing otherwise. */
  lemma BuildParamsLookup(page: int, f: Filters, currentYear: int, k: Key)
    ensures var e := Setting(k, page, f, currentYear);
      Lookup(BuildParams(page, f, currentYear), k) == OptionalValue(e.present, e.value)
  {
    var es := Settings(page, f, currentYear);
    ParamOrderPlaces(k);
    LookupPresent(es, k.Rank());
  }

  /** The parameters that are always sent, read back by name: the page
      clamped to at least 1, the page size, and the sort key and order with
      their defaults. */
  lemma FixedParamsValues(page: int, f: Filters, currentYear: int)
    ensures var ps := BuildParams(page, f, currentYear);
      && Lookup(ps, Page) == Some(IntToString(if page < 1 then 1 else page))
      && Lookup(ps, Limit) == Some("24")
      && Lookup(ps, OrderBy) == Some(if f.sort != "" then f.sort else "score")
      && Lookup(ps, SortOrder) == Some(if f.sortOrder != "" then f.sortOrder else "desc")
  {
    assert NatToString(PageSize) == "24" by {
      assert NatToString(2) == "2";
      assert NatToString(4) == "4";
    }
    BuildParamsLookup(page, f, currentYear, Page);
    BuildParamsLookup(page, f, currentYear, Limit);
    BuildParamsLookup(page, f, currentYear, OrderBy);
    BuildParamsLookup(page, f, currentYear, SortOrder);
  }

  /** The filter parameters, read back by name: each is sent exactly when
      the filter differs from its default, with the value the API expects. */
  lemma FilterParamsValues(page: int, f: Filters, currentYear: int)
    ensures var ps := BuildParams(page, f, currentYear);
      && Lookup(ps, Genres) == OptionalValue(|f.genres| > 0, Join(f.genres, ","))
      && Lookup(ps, Type) == OptionalValue(f.kind != "", f.kind)
      && Lookup(ps, Status) == OptionalValue(f.status != "", f.status)
      && Lookup(ps, Query) == OptionalValue(Trim(f.query) != "", Trim(f.query))
      && Lookup(ps, StartDate) == OptionalValue(f.yearMin > 1960, IntToString(f.yearMin) + "-01-01")
      && Lookup(ps, EndDate) == OptionalValue(f.yearMax < currentYear, IntToString(f.yearMax) + "-12-31")
      && Lookup(ps, MinScore) == OptionalValue(f.ratingMin > 0, HundredthsToString(if f.ratingMin > 0 then f.ratingMin else 0))
  {
    BuildParamsLookup(page, f, currentYear, Genres);
    BuildParamsLookup(page, f, currentYear, Type);
    BuildParamsLookup(page, f, currentYear, Status);
    BuildParamsLookup(page, f, currentYear, Query);
    BuildParamsLookup(page, f, currentYear, StartDate);
    BuildParamsLookup(page, f, currentYear, EndDate);
    BuildParamsLookup(page, f, currentYear, MinScore);
  }

  /** The request URL of a parameter list, used as the registry key:
      `key=value` pairs joined by `&` after the endpoint. */
  function QueryString(ps: seq<Param>): string {
    if ps == [] then "" else
      var pair := ps[0].0.Name() + "=" + ps[0].1;
      if |ps| == 1 then pair else pair + "&" + QueryString(ps[1..])
  }

  function AnimeUrl(ps: seq<Param>): string {
    ApiBaseUrl + "/anime?" + QueryString(ps)
  }

  const GenresUrl := ApiBaseUrl + "/genres/anime"

  function DetailUrl(animeId: int, what: string): string {
    ApiBaseUrl + "/anime/" + IntToString(animeId) + "/" + what
  }

  // ---------------------------------------------------------------------
  // The hook's state

  /** An abort controller, named by the order in which it was created. */
  type Handle = nat

  function Superseded(m: map<string, Handle>, url: string): set<Handle> {
    if url in m then {m[url]} else {}
  }

  class AnimeApi {
    /** `Date.now()`. */
    var clock: int
    /** `lastRequestTime.current`: when the last request was issued. */
    var lastRequestTime: int
    /** `activeControllers.current`. */
    var controllers: map<string, Handle>
    /** The controllers on which `abort()` was called. */
    var aborted: set<Handle>
    /** Controllers created so far; the next one is `nextHandle`. */
    var nextHandle: Handle
    /** The requests whose own handling has ended (settled). */
    ghost var settled: set<Handle>
    /** The URL each controller was created for. */
    ghost var issuedFor: seq<string>
    /** When each request was issued. */
    ghost var issueTimes: seq<int>

    /** The controllers of requests still in flight: created, neither
        aborted nor settled. */
    ghost function Live(): set<Handle>
      reads this`nextHandle, this`aborted, this`settled
    {
      set h: Handle | h < nextHandle && h !in aborted && h !in settled
    }

    /** The rate gate's bookkeeping: the last issue time is the latest entry
        of the issue log, never in the future, and issues are spaced. */
    ghost predicate GateInv()
      reads this`clock, this`lastRequestTime, this`issueTimes
    {
      && lastRequestTime <= clock
      && Spaced(issueTimes, RateLimitDelay)
      && (issueTimes != [] ==> issueTimes[|issueTimes| - 1] == lastRequestTime)
    }

    /** The registry's bookkeeping: every stored controller exists and is
        stored under the URL it was created for (so no controller is stored
        twice). */
    ghost predicate RegistryInv()
      reads this`controllers, this`aborted, this`settled, this`nextHandle, this`issuedFor
    {
      && |issuedFor| == nextHandle
      && (forall u :: u in controllers ==> controllers[u] < nextHandle && issuedFor[controllers[u]] == u)
      && (forall h :: h in aborted ==> h < nextHandle)
      && (forall h :: h in settled ==> h < nextHandle)
    }

    /** Every request in flight can be cancelled: the registry holds exactly
        the live controllers. */
    ghost predicate Tracked()
      reads this`controllers, this`aborted, this`settled, this`nextHandle
    {
      Live() == controllers.Values
    }

    ghost predicate Valid()
      reads this
    {
      GateInv() && RegistryInv() && Tracked()
    }

    constructor (now: int)
      requires now >= 0
      ensures Valid()
      ensures clock == now && lastRequestTime == 0 && controllers == map[]
      ensures aborted == {} && nextHandle == 0 && issueTimes == []
    {
      clock, lastRequestTime := now, 0;
      controllers, aborted, nextHandle := map[], {}, 0;
      settled, issuedFor, issueTimes := {}, [], [];
    }

    /** Time passes between requests. */
    method AdvanceClock(ms: nat)
      requires GateInv()
      modifies this`clock
      ensures GateInv()
      ensures clock == old(clock) + ms
    {
      clock := clock + ms;
    }

    /** Lines 29-39: wait until `RateLimitDelay` ms have passed since the
        last issue, then record the issue time. */
    method Throttle() returns (wait: nat)
      requires GateInv()
      modifies this`clock, this`lastRequestTime, this`issueTimes
      ensures GateInv()
      ensures wait == GateWait(old(clock), old(lastRequestTime))
      ensures clock == old(clock) + wait && lastRequestTime == clock
      ensures issueTimes == old(issueTimes) + [clock]
    {
      var elapsed := clock - lastRequestTime;
      wait := 0;
      if elapsed < RateLimitDelay {
        wait := RateLimitDelay - elapsed;
        clock := clock + wait;
      }
      lastRequestTime := clock;
      SpacedAppend(issueTimes, RateLimitDelay, clock);
      issueTimes := issueTimes + [clock];
    }

    /** Lines 42-51: abort and drop the controller stored for `url`, if
        any, then store a new one; the other URLs keep theirs. */
    method Register(url: string) returns (h: Handle)
      requires RegistryInv()
      modifies this`controllers, this`aborted, this`nextHandle, this`issuedFor
      ensures RegistryInv()
      ensures h == old(nextHandle) && nextHandle == h + 1
      ensures controllers == old(controllers)[url := h]
      ensures aborted == old(aborted) + Superseded(old(controllers), url)
      ensures issuedFor == old(issuedFor) + [url]
      ensures old(Tracked()) ==> Tracked()
    {
      ghost var live0 := Live();
      if url in controllers {
        aborted := aborted + {controllers[url]};
        controllers := controllers - {url};
      }
      h := nextHandle;
      nextHandle := nextHandle + 1;
      issuedFor := issuedFor + [url];
      controllers := controllers[url := h];
      if live0 == old(controllers).Values {
        TrackedAfterRegister(old(controllers), url, h, live0);
      }
    }

    lemma TrackedAfterRegister(m0: map<string, Handle>, url: string, h: Handle, live0: set<Handle>)
      requires RegistryInv()
      requires live0 == m0.Values
      requires h == nextHandle - 1 && h !in aborted && h !in settled
      requires controllers == m0[url := h]
      requires forall u :: u in m0 ==> m0[u] < h && issuedFor[m0[u]] == u
      requires Live() == live0 - Superseded(m0, url) + {h}
      ensures Tracked()
    {
      forall x | x in controllers.Values ensures x in Live() {
        var u :| u in controllers && controllers[u] == x;
        if u != url {
          assert m0[u] == x;
          assert x in m0.Values;
          if url in m0 {
            assert m0[url] != x;
          }
        }
      }
      forall x | x in Live() ensures x in controllers.Values {
        if x != h {
          assert x in m0.Values;
          var u :| u in m0 && m0[u] == x;
          assert u != url;
          assert controllers[u] == x;
        } else {
          assert controllers[url] == h;
        }
      }
    }

    /** Lines 69, 89 and 94 as they should read: the request settles and
        its controller is dropped if it is still the one stored for its URL. */
    method Release(url: string, h: Handle)
      requires RegistryInv() && h < nextHandle && issuedFor[h] == url
      modifies this`controllers, this`settled
      ensures RegistryInv()
      ensures settled == old(settled) + {h}
      ensures controllers == if url in old(controllers) && old(controllers)[url] == h
                             then old(controllers) - {url} else old(controllers)
      ensures old(Tracked()) ==> Tracked()
    {
      ghost var live0 := Live();
      settled := settled + {h};
      if url in controllers && controllers[url] == h {
        controllers := controllers - {url};
      }
      if live0 == old(controllers).Values {
        forall x | x in controllers.Values ensures x in Live() {
          var u :| u in controllers && controllers[u] == x;
          assert x in old(controllers).Values;
          assert issuedFor[x] == u;
          assert x != h;
        }
        forall x | x in Live() ensures x in controllers.Values {
          assert x in old(controllers).Values;
          var u :| u in old(controllers) && old(controllers)[u] == x;
          assert u in controllers;
        }
      }
    }

    /** Lines 69, 89 and 94 as written: the entry for `url` is deleted even
        when it is no longer this request's controller. While the entry still
        holds the request's own controller, as it does when requests run one
        at a time, this is `Release` and the registry stays tracked. */
    method ReleaseAsWritten(url: string, ghost h: Handle)
      requires RegistryInv() && h < nextHandle && issuedFor[h] == url
      modifies this`controllers, this`settled
      ensures RegistryInv()
      ensures settled == old(settled) + {h}
      ensures controllers == old(controllers) - {url}
      ensures old(Tracked()) && url in old(controllers) && old(controllers)[url] == h ==> Tracked()
    {
      ghost var live0 := Live();
      settled := settled + {h};
      controllers := controllers - {url};
      if live0 == old(controllers).Values && url in old(controllers) && old(controllers)[url] == h {
        forall x | x in controllers.Values ensures x in Live() {
          var u :| u in controllers && controllers[u] == x;
          assert x in old(controllers).Values;
          assert issuedFor[x] == u;
          assert x != h;
        }
        forall x | x in Live() ensures x in controllers.Values {
          assert x in old(controllers).Values;
          var u :| u in old(controllers) && old(controllers)[u] == x;
          assert u in controllers;
        }
      }
    }

    /** Lines 116-121: abort every stored controller, then empty the map. */
    method CancelAllRequests()
      requires RegistryInv()
      modifies this`controllers, this`aborted
      ensures RegistryInv()
      ensures controllers == map[]
      ensures aborted == old(aborted) + old(controllers).Values
      ensures old(Tracked()) ==> Tracked() && Live() == {}
    {
      var pending := controllers.Keys;
      while pending != {}
        invariant pending <= controllers.Keys
        invariant controllers == old(controllers)
        invariant RegistryInv()
        invariant aborted == old(aborted) + (set u | u in controllers.Keys - pending :: controllers[u])
        decreases pending
      {
        var u :| u in pending;
        ghost var done := set v | v in controllers.Keys - pending :: controllers[v];
        aborted := aborted + {controllers[u]};
        pending := pending - {u};
        assert (set v | v in controllers.Keys - pending :: controllers[v]) == done + {controllers[u]};
      }
      assert (set v | v in controllers.Keys :: controllers[v]) == controllers.Values;
      controllers := map[];
      assert Live() == old(Live()) - old(controllers).Values;
    }

    /** Shorthand for what one completed request did to the hook's state:
        the entry for `url` is gone (aborted if it belonged to an earlier
        request), one controller and one issue time per attempt. */
    twostate predicate Settled(url: string, attempts: nat)
      reads this
    {
      && controllers == old(controllers) - {url}
      && aborted == old(aborted) + Superseded(old(controllers), url)
      && nextHandle == old(nextHandle) + attempts
      && |issueTimes| == |old(issueTimes)| + attempts
      && issueTimes[..|old(issueTimes)|] == old(issueTimes)
    }

    /** One attempt (lines 29-91 up to the retry decision): pass the rate
        gate, register a controller, fetch, settle, and wait
        `2 * RateLimitDelay` ms before a retry. */
    method Attempt(attempt: (Outcome, nat) -> Step, url: string, o: Outcome, retryCount: nat) returns (step: Step)
      requires Valid()
      modifies this
      ensures Valid()
      ensures step == attempt(o, retryCount)
      ensures Settled(url, 1)
      ensures |issueTimes| > 0 && issueTimes == old(issueTimes) + [issueTimes[|issueTimes| - 1]]
      ensures issueTimes[|issueTimes| - 1] >= old(clock)
      ensures step.Retry? ==> clock == issueTimes[|issueTimes| - 1] + 2 * RateLimitDelay
    {
      var _ := Throttle();
      var h := Register(url);
      step := attempt(o, retryCount);
      // The entry for `url` holds `h` here, so `ReleaseAsWritten` would
      // leave the same map (compare the two contracts).
      assert url in controllers && controllers[url] == h;
      Release(url, h);
      if step.Retry? {
        AdvanceClock(2 * RateLimitDelay);
      }
    }

    /** Lines 27-111: one request from retry count `retryCount` on. A retry
        waits `2 * RateLimitDelay` ms and calls the function again with the
        count increased. The result and the number of fetches are those of
        `Run`; the first fetch is not issued before the call, and two fetches
        of the same request are at least `2 * RateLimitDelay` ms apart. */
    method FetchWithTimeout(attempt: (Outcome, nat) -> Step, url: string, script: seq<Outcome>, retryCount: nat)
      returns (r: Result<Json, Failure>, attempts: nat)
      requires Valid() && Bounded(attempt)
      requires retryCount <= MaxRetries && |script| > MaxRetries - retryCount
      modifies this
      ensures Valid()
      ensures (r, attempts) == Run(attempt, script, retryCount)
      ensures Settled(url, attempts)
      ensures issueTimes[|old(issueTimes)|] >= old(clock)
      ensures Spaced(issueTimes[|old(issueTimes)|..], 2 * RateLimitDelay)
      decreases MaxRetries - retryCount
    {
      var step := Attempt(attempt, url, script[0], retryCount);
      match step
      case Done(body) =>
        r, attempts := Success(body), 1;
      case Fail(f) =>
        r, attempts := Failure(f), 1;
      case Retry =>
        ghost var times1 := issueTimes;
        var n;
        r, n := FetchWithTimeout(attempt, url, script[1..], retryCount + 1);
        attempts := n + 1;
        LogAfterRetry(old(issueTimes), times1[|times1| - 1], times1, issueTimes, 2 * RateLimitDelay);
    }

    /** `fetchGenres`, lines 126-142. */
    method FetchGenres(script: seq<Outcome>) returns (r: Result<seq<Item>, Failure>)
      requires Valid()
      requires |script| > MaxRetries
      modifies this
      ensures Valid()
      ensures r == ShapeGenres(Request(script).0)
      ensures Settled(GenresUrl, Request(script).1)
    {
      var res, _ := FetchWithTimeout(AttemptStepAsWritten, GenresUrl, script, 0);
      r := ShapeGenres(res);
    }

    /** `fetchAnime`, lines 147-209: build the query, request it, check the
        shape. */
    method FetchAnime(page: int, f: Filters, currentYear: int, script: seq<Outcome>) returns (r: Result<AnimePage, Failure>)
      requires Valid()
      requires |script| > MaxRetries
      modifies this
      ensures Valid()
      ensures r == ShapeAnime(Request(script).0)
      ensures Settled(AnimeUrl(BuildParams(page, f, currentYear)), Request(script).1)
    {
      var url := AnimeUrl(BuildParams(page, f, currentYear));
      var res, _ := FetchWithTimeout(AttemptStepAsWritten, url, script, 0);
      r := ShapeAnime(res);
    }

    /** `fetchCharacters` (lines 214-240) when `what` is "characters",
        `fetchStaff` (lines 245-271) when it is "staff". A falsy id (0 here)
        throws before any request. */
    method FetchDetail(animeId: int, what: string, script: seq<Outcome>) returns (r: Result<seq<Item>, Failure>)
      requires Valid()
      requires |script| > MaxRetries
      requires what == "characters" || what == "staff"
      modifies this
      ensures Valid()
      ensures animeId == 0 ==> r == Failure(MissingId(what)) && unchanged(this)
      ensures animeId != 0 ==> r == ShapeDetail(Request(script).0, DetailNoun(what))
      ensures animeId != 0 ==> Settled(DetailUrl(animeId, what), Request(script).1)
    {
      if animeId == 0 {
        r := Failure(MissingId(what));
        return;
      }
      var res, _ := FetchWithTimeout(AttemptStepAsWritten, DetailUrl(animeId, what), script, 0);
      r := ShapeDetail(res, DetailNoun(what));
    }
  }

  /** The word the format error uses for a detail list. */
  function DetailNoun(what: string): string {
    if what == "characters" then "character" else what
  }

  /** As written, a request superseded by a second one for the same URL
      deletes the second one's controller when it settles, and the second
      request then escapes `cancelAllRequests`. */
  method SupersededReleaseAsWritten() returns (escaped: bool)
    ensures escaped
  {
    var api := new AnimeApi(0);
    var first := api.Register(GenresUrl);
    var second := api.Register(GenresUrl);
    api.ReleaseAsWritten(GenresUrl, first);
    api.CancelAllRequests();
    escaped := second !in api.aborted;
  }

  /** With the settle step checking that the stored controller is its own,
      `cancelAllRequests` reaches the second request. */
  method SupersededRelease() returns (escaped: bool)
    ensures !escaped
  {
    var api := new AnimeApi(0);
    var first := api.Register(GenresUrl);
    var second := api.Register(GenresUrl);
    api.Release(GenresUrl, first);
    api.CancelAllRequests();
    escaped := second !in api.aborted;
  }
}
