/**
 * The Qwen-Image client: one task-creation request, then a bounded, strictly
 * sequential loop of status polls. The first poll happens at once; every later
 * poll waits one interval first. The loop ends on the first SUCCEED, FAILED or
 * rejected status response, or after `maxAttempts` polls with a timeout.
 *
 * The HTTP exchanges are oracles: the creation response is a value, and the status
 * response read on attempt `i` is `statusAt(i)`. What the client does is recorded
 * as a sequence of effects (creation request, progress callback, sleep, poll).
 */
module QwenImageClient {
  import opened Base

  const DEFAULT_MAX_ATTEMPTS: int := 24
  const DEFAULT_INTERVAL_MS: int := 5000

  /**
   * The caller's polling options; an absent number takes its default, and `onProgress`
   * says whether a progress callback was supplied.
   */
  datatype PollingOptions = PollingOptions(maxAttempts: Option<int>, intervalMs: Option<int>, onProgress: bool)

  /** The response to `POST v1/images/generations`: rejected with a status and body text, or a task id. */
  datatype CreateResponse = CreateRejected(status: int, body: string) | Created(taskId: Option<string>)

  datatype TaskStatus = TaskPending | TaskRunning | TaskSucceed | TaskFailed

  /** The response to `GET v1/tasks/{id}`: rejected with a status, or the task's state. */
  datatype StatusResponse =
    | StatusRejected(status: int)
    | StatusOk(taskStatus: TaskStatus, outputImages: Option<seq<string>>)

  datatype ImageError =
    | NotConfigured
    | CreateFailed(status: int, body: string)
    | PollFailed(status: int)
    | NoImages
    | GenerationFailed
    | Timeout(maxAttempts: int)
  {
    /** The message of the Error the client throws. */
    function Message(): string
    {
      match this
      case NotConfigured => "QWEN_API_KEY is not configured"
      case CreateFailed(s, b) => "Failed to create image task: " + IntToString(s) + " " + b
      case PollFailed(s) => "Failed to get task status: " + IntToString(s)
      case NoImages => "Task succeeded but no images returned"
      case GenerationFailed => "Image generation task failed"
      case Timeout(m) => "Image generation timeout after " + IntToString(m) + " attempts"
    }
  }

  /**
   * What the client does, in order. `Progress(a, m)` is the call of `onProgress` with
   * `ProgressText(a, m)`.
   */
  datatype Effect =
    | CreateTask(prompt: string)
    | Progress(attempt: int, maxAttempts: int)
    | Sleep(ms: int)
    | PollStatus(taskId: Option<string>)

  function MaxAttempts(options: PollingOptions): int
  {
    match options.maxAttempts
    case None => DEFAULT_MAX_ATTEMPTS
    case Some(m) => m
  }

  function IntervalMs(options: PollingOptions): int
  {
    match options.intervalMs
    case None => DEFAULT_INTERVAL_MS
    case Some(ms) => ms
  }

  /** The status text passed to `onProgress` on attempt `attempt`. */
  function ProgressText(attempt: int, maxAttempts: int): string
  {
    "Generating image... (" + IntToString(attempt) + "/" + IntToString(maxAttempts) + ")"
  }

  /** A status response that ends the polling loop. */
  predicate Terminal(resp: StatusResponse)
  {
    resp.StatusRejected? || resp.taskStatus == TaskSucceed || resp.taskStatus == TaskFailed
  }

  /** How a terminal status response ends the call. */
  function TerminalOutcome(resp: StatusResponse): (r: Result<string, ImageError>)
    requires Terminal(resp)
    ensures r.Ok? <==> resp.StatusOk? && resp.taskStatus == TaskSucceed
                       && resp.outputImages.Some? && |resp.outputImages.value| > 0
    ensures r.Ok? ==> r.value == resp.outputImages.value[0]
  {
    match resp
    case StatusRejected(s) => Err(PollFailed(s))
    case StatusOk(st, images) =>
      if st == TaskSucceed then
        if images.None? || |images.value| == 0 then Err(NoImages) else Ok(images.value[0])
      else Err(GenerationFailed)
  }

  /**
   * The number of polls made when polling starts at attempt `i`: the first attempt
   * from `i` to `maxAttempts` whose response is terminal, or `maxAttempts` if none is.
   */
  function PollCount(statusAt: nat -> StatusResponse, maxAttempts: int, i: nat): (n: nat)
    requires 1 <= i
    ensures i - 1 <= n
    ensures n == i - 1 <==> maxAttempts < i
    ensures n >= i ==> n <= maxAttempts && (Terminal(statusAt(n)) || n == maxAttempts)
    ensures forall j :: i <= j < n ==> !Terminal(statusAt(j))
    decreases maxAttempts - i + 1
  {
    if i > maxAttempts then i - 1
    else if Terminal(statusAt(i)) then i
    else PollCount(statusAt, maxAttempts, i + 1)
  }

  /** The result after `n` polls: the last poll's terminal outcome, or a timeout. */
  function PollOutcome(statusAt: nat -> StatusResponse, maxAttempts: int, n: nat): Result<string, ImageError>
  {
    if n >= 1 && Terminal(statusAt(n)) then TerminalOutcome(statusAt(n)) else Err(Timeout(maxAttempts))
  }

  /** The progress call of attempt `a`, made only when a callback was supplied. */
  function ProgressCall(withProgress: bool, a: int, maxAttempts: int): seq<Effect>
  {
    if withProgress then [Progress(a, maxAttempts)] else []
  }

  /** The effects of attempt `a`: progress (when asked for), a sleep unless it is the first attempt, the poll. */
  function AttemptEffects(taskId: Option<string>, withProgress: bool, maxAttempts: int, intervalMs: int, a: int): seq<Effect>
  {
    ProgressCall(withProgress, a, maxAttempts)
    + (if a > 1 then [Sleep(intervalMs)] else [])
    + [PollStatus(taskId)]
  }

  /** The effects of attempts 1 to `n`. */
  function Attempts(taskId: Option<string>, withProgress: bool, maxAttempts: int, intervalMs: int, n: nat): seq<Effect>
  {
    if n == 0 then [] else Attempts(taskId, withProgress, maxAttempts, intervalMs, n - 1) + AttemptEffects(taskId, withProgress, maxAttempts, intervalMs, n)
  }

  /** The result and the effects of `generateImage`, stated without a loop. */
  function Generation(apiKey: Option<string>, prompt: string, options: PollingOptions,
                      create: CreateResponse, statusAt: nat -> StatusResponse): (Result<string, ImageError>, seq<Effect>)
  {
    if !Present(apiKey) then (Err(NotConfigured), [])
    else match create
      case CreateRejected(s, body) => (Err(CreateFailed(s, body)), [CreateTask(prompt)])
      case Created(taskId) =>
        var n := PollCount(statusAt, MaxAttempts(options), 1);
        (PollOutcome(statusAt, MaxAttempts(options), n),
         [CreateTask(prompt)] + Attempts(taskId, options.onProgress, MaxAttempts(options), IntervalMs(options), n))
  }

  /** `generateImage(prompt, options)` */
  method GenerateImage(apiKey: Option<string>, prompt: string, options: PollingOptions,
                       create: CreateResponse, statusAt: nat -> StatusResponse)
    returns (r: Result<string, ImageError>, effects: seq<Effect>)
    ensures (r, effects) == Generation(apiKey, prompt, options, create, statusAt)
  {
    effects := [];
    if !Present(apiKey) {
      r := Err(NotConfigured);
      return;
    }
    var maxAttempts := MaxAttempts(options);
    var intervalMs := IntervalMs(options);
    var withProgress := options.onProgress;

    effects := [CreateTask(prompt)];
    if create.CreateRejected? {
      r := Err(CreateFailed(create.status, create.body));
      return;
    }
    var taskId := create.taskId;

    var attempt := 1;
    while attempt <= maxAttempts
      invariant 1 <= attempt && (attempt <= maxAttempts + 1 || attempt == 1)
      invariant forall j :: 1 <= j < attempt ==> !Terminal(statusAt(j))
      invariant effects == [CreateTask(prompt)] + Attempts(taskId, withProgress, maxAttempts, intervalMs, attempt - 1)
      decreases maxAttempts - attempt + 1
    {
      if withProgress {
        effects := effects + [Progress(attempt, maxAttempts)];
      }
      if attempt > 1 {
        effects := effects + [Sleep(intervalMs)];
      }
      effects := effects + [PollStatus(taskId)];
      assert effects == [CreateTask(prompt)] + Attempts(taskId, withProgress, maxAttempts, intervalMs, attempt);

      var result := statusAt(attempt);
      if Terminal(result) {
        PollCountAt(statusAt, maxAttempts, attempt);
        if result.StatusRejected? {
          r := Err(PollFailed(result.status));
          return;
        }
        if result.taskStatus == TaskSucceed {
          if result.outputImages.None? || |result.outputImages.value| == 0 {
            r := Err(NoImages);
            return;
          }
          r := Ok(result.outputImages.value[0]);
          return;
        }
        r := Err(GenerationFailed);
        return;
      }
      attempt := attempt + 1;
    }
    r := Err(Timeout(maxAttempts));
  }

  /** Once the key is present, the first thing the client does is create the task with the prompt it was given. */
  lemma CreateFirst(apiKey: Option<string>, prompt: string, options: PollingOptions,
                    create: CreateResponse, statusAt: nat -> StatusResponse)
    requires Present(apiKey)
    ensures var effects := Generation(apiKey, prompt, options, create, statusAt).1;
            |effects| > 0 && effects[0] == CreateTask(prompt)
  {
  }

  /** The poll count is the first terminal attempt. */
  lemma PollCountAt(statusAt: nat -> StatusResponse, maxAttempts: int, k: nat)
    requires 1 <= k <= maxAttempts
    requires forall j :: 1 <= j < k ==> !Terminal(statusAt(j))
    requires Terminal(statusAt(k))
    ensures PollCount(statusAt, maxAttempts, 1) == k
  {
  }

  // ----- counting what the client does -----

  /** How many polls, progress calls and sleeps a run of effects holds, and the time slept. */
  datatype Tally = Tally(polls: nat, progress: nat, sleeps: nat, sleptMs: int)
  {
    function Plus(other: Tally): Tally
    {
      Tally(polls + other.polls, progress + other.progress, sleeps + other.sleeps, sleptMs + other.sleptMs)
    }
  }

  function TallyOne(e: Effect): Tally
  {
    match e
    case CreateTask(_) => Tally(0, 0, 0, 0)
    case Progress(_, _) => Tally(0, 1, 0, 0)
    case Sleep(ms) => Tally(0, 0, 1, ms)
    case PollStatus(_) => Tally(1, 0, 0, 0)
  }

  function TallyOf(effects: seq<Effect>): Tally
  {
    if |effects| == 0 then Tally(0, 0, 0, 0)
    else TallyOne(effects[0]).Plus(TallyOf(effects[1..]))
  }

  lemma {:induction false} TallyAppend(xs: seq<Effect>, ys: seq<Effect>)
    ensures TallyOf(xs + ys) == TallyOf(xs).Plus(TallyOf(ys))
  {
    if |xs| == 0 {
      assert xs + ys == ys;
    } else {
      assert (xs + ys)[0] == xs[0];
      assert (xs + ys)[1..] == xs[1..] + ys;
      TallyAppend(xs[1..], ys);
    }
  }

  lemma TallySingle(e: Effect)
    ensures TallyOf([e]) == TallyOne(e)
  {
    assert [e][1..] == [];
  }

  /** The number of progress calls in `n` attempts: one per attempt when a callback was supplied, none otherwise. */
  function ProgressCalls(withProgress: bool, n: nat): nat
  {
    if withProgress then n else 0
  }

  lemma TallyProgress(withProgress: bool, a: int, maxAttempts: int)
    ensures TallyOf(ProgressCall(withProgress, a, maxAttempts)) == Tally(0, ProgressCalls(withProgress, 1), 0, 0)
  {
    TallySingle(Progress(a, maxAttempts));
  }

  lemma TallySleep(a: int, intervalMs: int)
    ensures TallyOf(if a > 1 then [Sleep(intervalMs)] else [])
            == if a > 1 then Tally(0, 0, 1, intervalMs) else Tally(0, 0, 0, 0)
  {
    TallySingle(Sleep(intervalMs));
  }

  /**
   * One attempt: a poll, a progress call when a callback was supplied, and a sleep of
   * `intervalMs` unless it is the first attempt.
   */
  lemma AttemptTally(taskId: Option<string>, withProgress: bool, maxAttempts: int, intervalMs: int, a: int)
    ensures TallyOf(AttemptEffects(taskId, withProgress, maxAttempts, intervalMs, a))
            == Tally(1, ProgressCalls(withProgress, 1), if a > 1 then 1 else 0, if a > 1 then intervalMs else 0)
  {
    var p := ProgressCall(withProgress, a, maxAttempts);
    var z := if a > 1 then [Sleep(intervalMs)] else [];
    var poll := [PollStatus(taskId)];
    TallySingle(PollStatus(taskId));
    TallyProgress(withProgress, a, maxAttempts);
    TallySleep(a, intervalMs);
    TallyAppend(p, z);
    TallyAppend(p + z, poll);
  }

  /**
   * After `n` attempts there have been `n` polls, `n` progress calls when a callback was
   * supplied (none otherwise), and `n - 1` sleeps of `intervalMs` each: the first poll is
   * not preceded by a sleep.
   */
  lemma {:induction false} AttemptCounts(taskId: Option<string>, withProgress: bool, maxAttempts: int, intervalMs: int, n: nat)
    ensures TallyOf(Attempts(taskId, withProgress, maxAttempts, intervalMs, n))
            == if n == 0 then Tally(0, 0, 0, 0) else Tally(n, ProgressCalls(withProgress, n), n - 1, (n - 1) * intervalMs)
  {
    AttemptTallies(taskId, withProgress, maxAttempts, intervalMs, n);
    if n > 0 {
      SleptIs(n - 1, intervalMs);
    }
  }

  /** `x` added `k` times. */
  function Slept(k: nat, x: int): int
  {
    if k == 0 then 0 else Slept(k - 1, x) + x
  }

  lemma {:induction false} SleptIs(k: nat, x: int)
    ensures Slept(k, x) == k * x
  {
    if k > 0 {
      SleptIs(k - 1, x);
      assert (k - 1) * x + x == k * x;
    }
  }

  lemma {:induction false} AttemptTallies(taskId: Option<string>, withProgress: bool, maxAttempts: int, intervalMs: int, n: nat)
    ensures TallyOf(Attempts(taskId, withProgress, maxAttempts, intervalMs, n))
            == if n == 0 then Tally(0, 0, 0, 0) else Tally(n, ProgressCalls(withProgress, n), n - 1, Slept(n - 1, intervalMs))
  {
    if n > 0 {
      var prev := Attempts(taskId, withProgress, maxAttempts, intervalMs, n - 1);
      var last := AttemptEffects(taskId, withProgress, maxAttempts, intervalMs, n);
      assert Attempts(taskId, withProgress, maxAttempts, intervalMs, n) == prev + last;
      TallyAppend(prev, last);
      AttemptTallies(taskId, withProgress, maxAttempts, intervalMs, n - 1);
      AttemptTally(taskId, withProgress, maxAttempts, intervalMs, n);
      TallyStep(TallyOf(prev), TallyOf(last), withProgress, intervalMs, n);
    }
  }

  /** Adding attempt `n`'s tally to that of attempts 1 to `n - 1`. */
  lemma TallyStep(t0: Tally, t1: Tally, withProgress: bool, intervalMs: int, n: nat)
    requires n > 0
    requires t0 == if n == 1 then Tally(0, 0, 0, 0)
                   else Tally(n - 1, ProgressCalls(withProgress, n - 1), n - 2, Slept(n - 2, intervalMs))
    requires t1 == Tally(1, ProgressCalls(withProgress, 1), if n > 1 then 1 else 0, if n > 1 then intervalMs else 0)
    ensures t0.Plus(t1) == Tally(n, ProgressCalls(withProgress, n), n - 1, Slept(n - 1, intervalMs))
  {
  }

  /**
   * Polling starts with the first attempt's progress call (when a callback was supplied)
   * and then the first poll: no sleep comes before it.
   */
  lemma {:induction false} FirstPollWithoutSleep(taskId: Option<string>, withProgress: bool, maxAttempts: int, intervalMs: int, n: nat)
    requires n >= 1
    ensures ProgressCall(withProgress, 1, maxAttempts) + [PollStatus(taskId)] <= Attempts(taskId, withProgress, maxAttempts, intervalMs, n)
  {
    var first := ProgressCall(withProgress, 1, maxAttempts) + [PollStatus(taskId)];
    if n > 1 {
      FirstPollWithoutSleep(taskId, withProgress, maxAttempts, intervalMs, n - 1);
      var prev := Attempts(taskId, withProgress, maxAttempts, intervalMs, n - 1);
      assert first <= prev;
      assert (prev + AttemptEffects(taskId, withProgress, maxAttempts, intervalMs, n))[..|first|] == prev[..|first|];
    } else {
      assert Attempts(taskId, withProgress, maxAttempts, intervalMs, 0) == [];
      assert AttemptEffects(taskId, withProgress, maxAttempts, intervalMs, 1) == first;
    }
  }

  /** Every poll asks about the task id returned by the creation request, unchecked. */
  lemma {:induction false} PollsUseTaskId(taskId: Option<string>, withProgress: bool, maxAttempts: int, intervalMs: int, n: nat)
    ensures forall e :: e in Attempts(taskId, withProgress, maxAttempts, intervalMs, n) && e.PollStatus? ==> e.taskId == taskId
  {
    if n > 0 {
      PollsUseTaskId(taskId, withProgress, maxAttempts, intervalMs, n - 1);
    }
  }

  /**
   * Attempt `k`'s effects follow those of attempts 1 to `k - 1`; they end with its poll and,
   * when a callback was supplied, begin with progress reported as "(k/maxAttempts)"; with no
   * callback no progress is recorded at all.
   */
  lemma {:induction false} ProgressPrecedesPoll(taskId: Option<string>, withProgress: bool, maxAttempts: int, intervalMs: int, n: nat, k: nat)
    requires 1 <= k <= n
    ensures Attempts(taskId, withProgress, maxAttempts, intervalMs, k - 1) + AttemptEffects(taskId, withProgress, maxAttempts, intervalMs, k)
            <= Attempts(taskId, withProgress, maxAttempts, intervalMs, n)
    ensures withProgress ==> AttemptEffects(taskId, withProgress, maxAttempts, intervalMs, k)[0] == Progress(k, maxAttempts)
    ensures !withProgress ==> forall e :: e in AttemptEffects(taskId, withProgress, maxAttempts, intervalMs, k) ==> !e.Progress?
    ensures AttemptEffects(taskId, withProgress, maxAttempts, intervalMs, k)[|AttemptEffects(taskId, withProgress, maxAttempts, intervalMs, k)| - 1] == PollStatus(taskId)
  {
    if k < n {
      ProgressPrecedesPoll(taskId, withProgress, maxAttempts, intervalMs, n - 1, k);
    }
  }

  // ----- how the call ends -----

  /** The call times out exactly when none of the `maxAttempts` polls is terminal, and then it has polled `maxAttempts` times. */
  lemma TimeoutExactly(statusAt: nat -> StatusResponse, maxAttempts: int)
    requires maxAttempts >= 1
    ensures var n := PollCount(statusAt, maxAttempts, 1);
            PollOutcome(statusAt, maxAttempts, n) == Err(Timeout(maxAttempts))
            <==> forall j :: 1 <= j <= maxAttempts ==> !Terminal(statusAt(j))
    ensures var n := PollCount(statusAt, maxAttempts, 1);
            PollOutcome(statusAt, maxAttempts, n) == Err(Timeout(maxAttempts)) ==> n == maxAttempts
  {
    var n := PollCount(statusAt, maxAttempts, 1);
    if n >= 1 && Terminal(statusAt(n)) {
      assert !(forall j :: 1 <= j <= maxAttempts ==> !Terminal(statusAt(j)));
      assert TerminalOutcome(statusAt(n)) != Err(Timeout(maxAttempts));
    }
  }

  /** A FAILED status on attempt `k`, after `k - 1` non-terminal polls, ends the call at once. */
  lemma FailedStopsPolling(statusAt: nat -> StatusResponse, maxAttempts: int, k: nat)
    requires 1 <= k <= maxAttempts
    requires forall j :: 1 <= j < k ==> !Terminal(statusAt(j))
    requires statusAt(k).StatusOk? && statusAt(k).taskStatus == TaskFailed
    ensures PollCount(statusAt, maxAttempts, 1) == k
    ensures PollOutcome(statusAt, maxAttempts, k) == Err(GenerationFailed)
  {
  }

  /** The first SUCCEED ends the call with its first image, or with "no images returned". */
  lemma SucceedStopsPolling(statusAt: nat -> StatusResponse, maxAttempts: int, k: nat)
    requires 1 <= k <= maxAttempts
    requires forall j :: 1 <= j < k ==> !Terminal(statusAt(j))
    requires statusAt(k).StatusOk? && statusAt(k).taskStatus == TaskSucceed
    ensures PollCount(statusAt, maxAttempts, 1) == k
    ensures var images := statusAt(k).outputImages;
            PollOutcome(statusAt, maxAttempts, k)
            == if images.Some? && |images.value| > 0 then Ok(images.value[0]) else Err(NoImages)
  {
  }

  /** A call that returns an image URL polled until a SUCCEED carrying that URL first. */
  lemma SuccessMeansSucceed(apiKey: Option<string>, prompt: string, options: PollingOptions,
                            create: CreateResponse, statusAt: nat -> StatusResponse)
    requires Generation(apiKey, prompt, options, create, statusAt).0.Ok?
    ensures Present(apiKey) && create.Created?
    ensures var n := PollCount(statusAt, MaxAttempts(options), 1);
            var url := Generation(apiKey, prompt, options, create, statusAt).0.value;
            1 <= n <= MaxAttempts(options) && statusAt(n).StatusOk? && statusAt(n).taskStatus == TaskSucceed
            && statusAt(n).outputImages.Some? && |statusAt(n).outputImages.value| > 0
            && url == statusAt(n).outputImages.value[0]
  {
  }

  /**
   * Whatever the responses, a call polls at most `maxAttempts` times and sleeps at most
   * `(maxAttempts - 1) * intervalMs` milliseconds in all; it reports progress once per poll
   * when a callback was supplied, and never otherwise.
   */
  lemma GenerationBounded(apiKey: Option<string>, prompt: string, options: PollingOptions,
                          create: CreateResponse, statusAt: nat -> StatusResponse)
    requires MaxAttempts(options) >= 1 && IntervalMs(options) >= 0
    ensures var t := TallyOf(Generation(apiKey, prompt, options, create, statusAt).1);
            t.polls <= MaxAttempts(options) && t.sleptMs <= (MaxAttempts(options) - 1) * IntervalMs(options)
            && t.progress == ProgressCalls(options.onProgress, t.polls)
  {
    var m, iv := MaxAttempts(options), IntervalMs(options);
    var first := [CreateTask(prompt)];
    TallySingle(CreateTask(prompt));
    if Present(apiKey) && create.Created? {
      var n := PollCount(statusAt, m, 1);
      AttemptCounts(create.taskId, options.onProgress, m, iv, n);
      TallyAppend(first, Attempts(create.taskId, options.onProgress, m, iv, n));
      if n >= 1 {
        MulMonotone(n - 1, m - 1, iv);
      }
    }
  }

  lemma MulMonotone(a: int, b: int, c: int)
    requires 0 <= a <= b && 0 <= c
    ensures a * c <= b * c
  {
  }
}
