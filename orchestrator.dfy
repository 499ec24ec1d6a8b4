/** `hsolve`: the protocol steps in order, the interval timer and the
    retry. Every network reply, the derived token, the clock, the random
    jitter, the generated identity and the classification come in as values
    of an `Attempt`, one per entry into `hsolve`.

    Two variants are modelled. `AsWritten` is the code as it stands: the
    answer submission is not awaited, so `solution` is a promise, which is
    always truthy. `Corrected` awaits the submission, clears the interval on
    every exit and ends the run once the timeout has passed at one of the
    clock readings. */
module Orchestrator {
  import opened JsString
  import opened Options
  import opened Protocol
  import opened Question
  import opened Timeout

  /** The delay before re-entering `hsolve`, in milliseconds. */
  const SLEEP_MS := 3000

  /** The outcome of an awaited network call or script evaluation. */
  datatype Reply<T> = Ok(value: T) | Fault(message: string)

  /** The `c` object of the site configuration reply. */
  datatype SiteConfig = SiteConfig(kind: string, req: string)

  /** The fields of the challenge reply that `hsolve` reads. */
  datatype CaptchaTask = CaptchaTask(
    key: string,
    requestType: string,
    question: string,
    tasklist: seq<ImageTask>,
    passUuid: Option<string>)

  /** What one entry into `hsolve` takes from its environment, in the order
      it asks for it. */
  datatype Attempt = Attempt(
    start: int,                          // Date.now() on entry
    userAgent: string,                   // generateUA()
    siteKey: string,                     // uuidv4()
    config: Reply<Option<SiteConfig>>,   // the `c` field of the configuration reply
    configJson: string,                  // JSON.stringify(c)
    token: Reply<string>,                // hsl(c.req): script fetch and evaluation
    challengeNow: int,                   // Date.now() for the challenge timestamp
    challengeJitter: Jitter,
    challengeMouse: MouseTrace,
    challenge: Reply<CaptchaTask>,
    classification: Reply<Answers>,      // classifyImages(...)
    submitNow: int,                      // Date.now() for the answer timestamp
    submitJitter: Jitter,
    submitMouse: MouseTrace,
    submission: Reply<Option<string>>,   // generated_pass_UUID of the answer reply
    resumeNow: int)                      // Date.now() once sleep(3000) is over

  datatype Step = ConfigStep | TokenStep | ChallengeStep | ClassifyStep | SubmitStep

  /** Why the promise returned by `hsolve` rejects. */
  datatype Rejection =
    | StepFailed(step: Step, message: string)
    | ConfigMissing     // `c.req` read on an undefined `c`
    | QuestionMissing   // `.toLowerCase()` called on `undefined`

  /** How a run ends: the promise resolves (to a token or `null`), rejects,
      is ended by the timeout, or is still retrying when the supplied
      attempts run out. */
  datatype Outcome = Resolved(value: Option<string>) | Rejected(reason: Rejection) | Expired | Pending

  /** The external effects of a run, in order. */
  datatype Call =
    | FetchConfig(request: Request)
    | DeriveToken(req: string)
    | FetchChallenge(request: Request)
    | Classify(service: SolveService, tasks: seq<ImageTask>, question: Option<string>)
    | SubmitAnswers(request: Request)
    | Sleep(ms: int)

  datatype Variant = AsWritten | Corrected

  /** The value of `solution` where it is tested: the pending promise of
      `submitCaptcha` when it is not awaited, its result when it is. */
  datatype Solution = Promise(settles: Reply<Option<string>>) | Value(token: Option<string>)

  predicate Truthy(solution: Solution)
  {
    solution.Promise? || solution.token.Some?
  }

  /** What `return solution` hands to the caller of the async function: a
      returned promise is adopted. */
  function Delivered(solution: Solution): Outcome
  {
    match solution
    case Promise(Ok(uuid)) => Resolved(PassToken(uuid))
    case Promise(Fault(m)) => Rejected(StepFailed(SubmitStep, m))
    case Value(t) => Resolved(t)
  }

  /** `solution` at line 181: the submission promise itself as written, its
      pass token once awaited. */
  function Settle(v: Variant, submission: Reply<Option<string>>): Solution
  {
    if v == Corrected && submission.Ok? then Value(PassToken(submission.value)) else Promise(submission)
  }

  datatype AttemptEnd = Finish(outcome: Outcome) | Retry

  /** One entry into `hsolve`: how it ends, what it called, and whether its
      interval is still running afterwards. */
  datatype AttemptResult = AttemptResult(end: AttemptEnd, calls: seq<Call>, timerLeft: bool)

  /** A whole run: its outcome, its calls, and how many intervals it left
      running. */
  datatype RunResult = RunResult(outcome: Outcome, calls: seq<Call>, liveTimers: nat)

  /** An exit other than line 181: as written the interval is not cleared. */
  function Exit(v: Variant, outcome: Outcome, calls: seq<Call>): AttemptResult
  {
    AttemptResult(Finish(outcome), calls, v == AsWritten)
  }

  /** The question handed to the classifier: the extracted name, or
      `undefined`. */
  function QuestionArg(e: Extraction): Option<string>
  {
    if e.Object? then Some(e.name) else None
  }

  /** The question extracted from the challenge reply; a failed challenge
      has none, and the value given then is never looked at. */
  function QuestionOf(a: Attempt): Extraction
  {
    if a.challenge.Ok? then Extract(a.challenge.value.question) else Undefined
  }

  /** One entry into `hsolve` with the settings after defaulting; `runStart`
      is the clock reading the corrected variant measures the timeout from. */
  function AttemptSpec(v: Variant, s: Settings, host: string, a: Attempt, runStart: int): AttemptResult
  {
    Entry(v, s, host, a, runStart, QuestionOf(a))
  }

  /** One entry into `hsolve`, given what the question extraction of line
      175 yields on its challenge. It begins with the configuration lookup
      under its own identity, makes at most six calls, and one that retries
      has slept 3000 ms as its sixth. */
  function Entry(v: Variant, s: Settings, host: string, a: Attempt, runStart: int, extracted: Extraction): (r: AttemptResult)
    ensures 1 <= |r.calls| <= 6
    ensures r.calls[0] == FetchConfig(ConfigRequest(host, a.siteKey, a.userAgent, AgentsFor(s.proxy)))
    ensures r.end.Retry? ==> |r.calls| == 6 && r.calls[5] == Sleep(SLEEP_MS)
  {
    var agent := AgentsFor(s.proxy);
    var calls1 := [FetchConfig(ConfigRequest(host, a.siteKey, a.userAgent, agent))];
    if a.config.Fault? then Exit(v, Rejected(StepFailed(ConfigStep, a.config.message)), calls1)
    else if v == Corrected && TimedOut(runStart, a.challengeNow, s.timeout) then Exit(v, Expired, calls1)
    else if a.config.value.None? then Exit(v, Rejected(ConfigMissing), calls1)
    else
      var calls2 := calls1 + [DeriveToken(a.config.value.value.req)];
      if a.token.Fault? then Exit(v, Rejected(StepFailed(TokenStep, a.token.message)), calls2)
      else
        var challengeRequest := ChallengeRequest(host, a.siteKey, a.userAgent, a.token.value, a.configJson,
                                                 Timestamp(a.challengeNow, a.challengeJitter), a.challengeMouse, agent);
        var calls3 := calls2 + [FetchChallenge(challengeRequest)];
        if a.challenge.Fault? then Exit(v, Rejected(StepFailed(ChallengeStep, a.challenge.message)), calls3)
        else
          var task := a.challenge.value;
          if PassToken(task.passUuid).Some? then Exit(v, Resolved(PassToken(task.passUuid)), calls3)
          else if extracted.TypeError? then Exit(v, Rejected(QuestionMissing), calls3)
          else
            var calls4 := calls3 + [Classify(s.solveService, task.tasklist, QuestionArg(extracted))];
            if a.classification.Fault? then Exit(v, Rejected(StepFailed(ClassifyStep, a.classification.message)), calls4)
            else if v == Corrected && TimedOut(runStart, a.submitNow, s.timeout) then Exit(v, Expired, calls4)
            else
              var answerRequest := AnswerRequest(host, a.siteKey, a.userAgent, Timestamp(a.submitNow, a.submitJitter),
                                                 task.key, task.requestType, a.classification.value, a.submitMouse, agent);
              var calls5 := calls4 + [SubmitAnswers(answerRequest)];
              if v == Corrected && a.submission.Fault? then Exit(v, Rejected(StepFailed(SubmitStep, a.submission.message)), calls5)
              else
                var solution := Settle(v, a.submission);
                if Truthy(solution) then AttemptResult(Finish(Delivered(solution)), calls5, false)
                else
                  var calls6 := calls5 + [Sleep(SLEEP_MS)];
                  if v == Corrected && TimedOut(runStart, a.resumeNow, s.timeout) then Exit(v, Expired, calls6)
                  else AttemptResult(Retry, calls6, v == AsWritten)
  }

  /** Re-entering `hsolve` with the same url and options for each supplied
      attempt until one finishes. A run begins with its first entry's
      configuration lookup, and each entry leaves at most one interval
      running. */
  function Run(v: Variant, host: string, options: SolveOptions, attempts: seq<Attempt>, runStart: int): RunResult
    decreases |attempts|
  {
    if |attempts| == 0 then RunResult(Pending, [], 0)
    else
      var r := AttemptSpec(v, WithDefaults(options), host, attempts[0], runStart);
      var live := if r.timerLeft then 1 else 0;
      if r.end.Finish? then RunResult(r.end.outcome, r.calls, live)
      else
        var rest := Run(v, host, options, attempts[1..], runStart);
        assert (r.calls + rest.calls)[0] == r.calls[0];
        Then(r.calls, live, rest)
  }

  /** A run preceded by calls already made and intervals already left
      running. */
  function Then(calls: seq<Call>, live: nat, rest: RunResult): RunResult
  {
    RunResult(rest.outcome, calls + rest.calls, live + rest.liveTimers)
  }

  /** `Run` from the `i`-th attempt on, with that entry's result given. */
  lemma RunStep(v: Variant, host: string, options: SolveOptions, attempts: seq<Attempt>, i: nat, runStart: int,
                end: AttemptEnd, calls: seq<Call>, timerLeft: bool)
    requires i < |attempts|
    requires AttemptResult(end, calls, timerLeft) == AttemptSpec(v, WithDefaults(options), host, attempts[i], runStart)
    ensures end.Finish? ==>
      Run(v, host, options, attempts[i..], runStart) == RunResult(end.outcome, calls, if timerLeft then 1 else 0)
    ensures end.Retry? ==>
      Run(v, host, options, attempts[i..], runStart) ==
      Then(calls, if timerLeft then 1 else 0, Run(v, host, options, attempts[i + 1..], runStart))
  {
    assert attempts[i..][0] == attempts[i] && attempts[i..][1..] == attempts[i + 1..];
  }

  /** Prepending calls in two steps is prepending them at once. */
  lemma ThenThen(c1: seq<Call>, l1: nat, c2: seq<Call>, l2: nat, rest: RunResult)
    ensures Then(c1, l1, Then(c2, l2, rest)) == Then(c1 + c2, l1 + l2, rest)
  {
    assert c1 + (c2 + rest.calls) == (c1 + c2) + rest.calls;
  }

  /** The clock reading of the first entry. */
  function StartOf(attempts: seq<Attempt>): int
  {
    if |attempts| == 0 then 0 else attempts[0].start
  }

  /** The body of `hsolve` for one entry, step by step. */
  method RunAttempt(v: Variant, s: Settings, host: string, a: Attempt, runStart: int)
    returns (end: AttemptEnd, calls: seq<Call>, timerLeft: bool)
    ensures AttemptResult(end, calls, timerLeft) == AttemptSpec(v, s, host, a, runStart)
  {
    // setInterval(...): the interval runs until it is cleared
    timerLeft := true;
    var agent := AgentsFor(s.proxy);
    calls := [FetchConfig(ConfigRequest(host, a.siteKey, a.userAgent, agent))];
    var config: Option<SiteConfig>;
    match a.config {
      case Fault(m) =>
        end := Finish(Rejected(StepFailed(ConfigStep, m)));
        timerLeft := v == AsWritten;
        return;
      case Ok(c) => config := c;
    }
    if v == Corrected && TimedOut(runStart, a.challengeNow, s.timeout) {
      end, timerLeft := Finish(Expired), false;
      return;
    }
    if config.None? {
      end := Finish(Rejected(ConfigMissing));
      timerLeft := v == AsWritten;
      return;
    }
    calls := calls + [DeriveToken(config.value.req)];
    var n: string;
    match a.token {
      case Fault(m) =>
        end := Finish(Rejected(StepFailed(TokenStep, m)));
        timerLeft := v == AsWritten;
        return;
      case Ok(t) => n := t;
    }
    var timestamp := Timestamp(a.challengeNow, a.challengeJitter);
    calls := calls + [FetchChallenge(ChallengeRequest(host, a.siteKey, a.userAgent, n, a.configJson,
                                                      timestamp, a.challengeMouse, agent))];
    var task: CaptchaTask;
    match a.challenge {
      case Fault(m) =>
        end := Finish(Rejected(StepFailed(ChallengeStep, m)));
        timerLeft := v == AsWritten;
        return;
      case Ok(t) => task := t;
    }
    var pass := PassToken(task.passUuid);
    if pass.Some? {
      end := Finish(Resolved(pass));
      timerLeft := v == AsWritten;
      return;
    }
    var extracted := Extract(task.question);
    if extracted.TypeError? {
      end := Finish(Rejected(QuestionMissing));
      timerLeft := v == AsWritten;
      return;
    }
    calls := calls + [Classify(s.solveService, task.tasklist, QuestionArg(extracted))];
    var answers: Answers;
    match a.classification {
      case Fault(m) =>
        end := Finish(Rejected(StepFailed(ClassifyStep, m)));
        timerLeft := v == AsWritten;
        return;
      case Ok(x) => answers := x;
    }
    if v == Corrected && TimedOut(runStart, a.submitNow, s.timeout) {
      end, timerLeft := Finish(Expired), false;
      return;
    }
    timestamp := Timestamp(a.submitNow, a.submitJitter);
    calls := calls + [SubmitAnswers(AnswerRequest(host, a.siteKey, a.userAgent, timestamp, task.key,
                                                  task.requestType, answers, a.submitMouse, agent))];
    var solution: Solution;
    if v == AsWritten {
      solution := Promise(a.submission);
    } else {
      match a.submission {
        case Fault(m) =>
          end, timerLeft := Finish(Rejected(StepFailed(SubmitStep, m))), false;
          return;
        case Ok(uuid) => solution := Value(PassToken(uuid));
      }
    }
    assert solution == Settle(v, a.submission);
    if Truthy(solution) {
      // clearInterval(timeoutCheck), then return solution
      end, timerLeft := Finish(Delivered(solution)), false;
      return;
    }
    calls := calls + [Sleep(SLEEP_MS)];
    if v == Corrected && TimedOut(runStart, a.resumeNow, s.timeout) {
      end, timerLeft := Finish(Expired), false;
      return;
    }
    end := Retry;
    timerLeft := v == AsWritten;
  }

  /** `hsolve(url, options)`, with its recursive re-entry as a loop over the
      supplied attempts. */
  method Solve(v: Variant, host: string, options: SolveOptions, attempts: seq<Attempt>)
    returns (outcome: Outcome, calls: seq<Call>, liveTimers: nat)
    ensures RunResult(outcome, calls, liveTimers) == Run(v, host, options, attempts, StartOf(attempts))
  {
    var runStart := StartOf(attempts);
    outcome, calls, liveTimers := Pending, [], 0;
    var i := 0;
    while i < |attempts|
      invariant 0 <= i <= |attempts|
      invariant outcome == Pending
      invariant Run(v, host, options, attempts, runStart) ==
                Then(calls, liveTimers, Run(v, host, options, attempts[i..], runStart))
    {
      // the defaulting of lines 150-155 runs again on every entry
      var settings := WithDefaults(options);
      var end, attemptCalls, timerLeft := RunAttempt(v, settings, host, attempts[i], runStart);
      RunStep(v, host, options, attempts, i, runStart, end, attemptCalls, timerLeft);
      var live := if timerLeft then 1 else 0;
      ThenThen(calls, liveTimers, attemptCalls, live, Run(v, host, options, attempts[i + 1..], runStart));
      calls, liveTimers := calls + attemptCalls, liveTimers + live;
      if end.Finish? {
        outcome := end.outcome;
        return;
      }
      i := i + 1;
    }
  }
}
