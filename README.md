# hsolve challenge solver: a Dafny model of its decision layer

`hsolve(url, options)` negotiates a bot-detection challenge with the
hCaptcha backend. It looks up the site configuration, derives a token by
running a remote script, requests a challenge, extracts the object name from
the challenge question, has the images classified, and posts the answers
back. It returns the pass token the backend hands out. An interval timer
checks a timeout every 500 ms, and a falsy result leads to a 3000 ms sleep
and a recursive re-entry.

This project models that decision layer of `src/index.ts` over injected
values. Every network reply, the derived token, the clock readings, the
random jitter, the generated identity and the classifier's answers are
fields of an `Attempt`, one per entry into `hsolve`.

- `js_string.dfy` (module `JsString`): the JavaScript string operations the
  parser relies on: `indexOf`, `includes`, `split`, `join`, element access
  past the end, and ASCII `toLowerCase`. The proofs cover first-occurrence
  search and the `split`/`join` round trip.
- `question.dfy` (module `Question`): the question parser of line 175, with
  its two branches and its two failure modes (`undefined` and a thrown
  TypeError).
- `options.dfy` (module `Options`): the defaulting of `timeout`, `proxy` and
  `solveService` (lines 150-155), including the falsy tests.
- `timeout.dfy` (module `Timeout`): the predicate of line 160 and the tick at
  which the 500 ms interval first sees it fire.
- `protocol.dfy` (module `Protocol`): the three requests as records (query,
  user agent, form, motion data, agents), the timestamps `now + r` with
  `r` in [30, 120], and the pass-token mapping of line 146.
- `orchestrator.dfy` (module `Orchestrator`): `hsolve` itself.
  - `Entry` and `Run` are its specification: one entry, and the whole run
    over a sequence of attempts.
  - `RunAttempt` is the step-by-step method body with its interval flag.
    `Solve` turns the recursive re-entry into a loop. Both are proved equal
    to the specification.
  - Two variants are modelled. `AsWritten` is the code as it stands.
    `Corrected` awaits the submission, clears the interval on every exit,
    and ends the run when a clock reading is past the timeout.
- `solve_properties.dfy` (module `SolveProperties`): what a run does. It
  covers step order, shared session data, the short-circuit on a
  challenge-level pass, when a run retries, what it resolves to, which
  intervals it leaves running, and how the timeout bounds the retries.

A failing configuration, token, challenge or classification step could be
expected to lead to the same 3000 ms delay and re-entry as a missing pass
token. It does not: `hsolve` has no `try`/`catch`, so a failing step rejects
the promise it returns. Both variants follow the code: a failing step ends
the run with `Rejected`.

## Model

| member | source | states |
|---|---|---|
| JsString.At | src/index.ts:175 | Definition of element access as used by `split(...)[1]`: an element exactly when the index is in range, `undefined` past the end |
| JsString.IndexOfSpec | src/index.ts:175 | `indexOf` finds an occurrence with none before it, and finds none exactly when the substring does not occur |
| JsString.Includes | src/index.ts:175 | `includes` holds exactly when the substring occurs at some position |
| JsString.JoinSplit | src/index.ts:175 | `s.split(sep).join(sep)` gives back `s`, for every separator including the empty one |
| JsString.Split | src/index.ts:175 | An empty separator gives one piece per character; a non-empty one gives at least one piece, and exactly `[s]` when it does not occur in `s` |
| JsString.SplitSecond | src/index.ts:175 | `split(sep)[1]` is `undefined` when `sep` does not occur; otherwise it is the text after the first occurrence, up to the next one |
| JsString.ToLowerCase | src/index.ts:175 | Lower-casing keeps the length |
| JsString.ToLowerCaseSpec | src/index.ts:175 | The lower-cased string has no upper-case letter and differs from the input only in letter case; it is the only string with both properties |
| JsString.ToLowerCaseIdempotent | src/index.ts:175 | Lower-casing twice is lower-casing once |
| Question.Extract | src/index.ts:175 | A question with the "an" marker never throws; a question without it never gives `undefined` |
| Question.ExtractAn | src/index.ts:175 | "an" branch: `undefined` when the full prefix is missing, otherwise the segment after the first prefix with its case unchanged |
| Question.ExtractA | src/index.ts:175 | "a" branch: a TypeError when the full prefix is missing, otherwise the lower-cased segment after the first prefix |
| Question.ExtractALowerCase | src/index.ts:175 | Whatever the "a" branch yields has no upper-case letter |
| Question.APrefixHasNoMarker | src/index.ts:175 | The "a" prefix followed by a name contains the "an" marker only if the name does |
| Question.ExtractAnPhrase | src/index.ts:175 | The "an" prefix followed by a name without that prefix yields the name, case unchanged |
| Question.ExtractAPhrase | src/index.ts:175 | The "a" prefix followed by a name without the marker or the prefix yields the lower-cased name |
| Question.AirplaneExample | src/index.ts:175 | "...containing an airplane" yields "airplane" |
| Question.BoatExample | src/index.ts:175 | "...containing a Boat" yields "boat" |
| Question.AnimalsExample | src/index.ts:175 | "...containing animals" passes the marker test and yields `undefined` without throwing |
| Question.NoPrefixExample | src/index.ts:175 | "Select boats" makes the "a" branch throw |
| Options.WithDefaults | src/index.ts:150-155 | An absent or zero timeout becomes 120000, and an absent or empty proxy becomes `null`. An absent service becomes `{name: "random"}`. Fields already set are kept |
| Options.WithDefaultsIdempotent | src/index.ts:150-155 | Defaulting options that are already defaulted changes nothing |
| Options.WithDefaultsTimeoutOnly | src/index.ts:150-155 | Options that differ only in the timeout default to the same service and proxy |
| Timeout.TimedOut | src/index.ts:160 | The callback's test; with a non-negative timeout it can only fire after the start |
| Timeout.TimedOutThreshold | src/index.ts:160 | The check fires exactly from `start + timeout + 1` on, never at an elapsed time equal to the timeout, and keeps firing once it has |
| Timeout.FirstFiringTick | src/index.ts:159-161 | At the nominal tick times (tick k at exactly `start + 500·k`, no drift), for an interval started at any time, the tick it gives fires and no earlier tick does; for a non-negative timeout it comes at most 500 ms after the timeout |
| Protocol.AgentsFor | src/index.ts:163 | Definition of line 163's agents: made exactly when a proxy is set, and for that proxy |
| Protocol.Timestamp | src/index.ts:171 | `Date.now() + _.random(30, 120)` lies between 30 and 120 ms after the clock reading |
| Protocol.ConfigRequest | src/index.ts:65-80 | The configuration lookup is a GET to `checksiteconfig` without a form |
| Protocol.ChallengeRequest | src/index.ts:93-119 | The challenge request is a POST to `getcaptcha` whose form carries the derived token as `n` and the serialised configuration as `c` |
| Protocol.AnswerRequest | src/index.ts:121-145 | The answer check is a POST to a URL the challenge key can be read back from, whose form carries the answers and the job type |
| Protocol.SubmitKey | src/index.ts:122 | Reading a key back from an answer URL gives the suffix after `checkcaptcha/`, and nothing for other URLs |
| Protocol.RequestsShareSession | src/index.ts:65-145 | All three requests carry `{host, sitekey, sc: 1, swa: 0}`, the same user agent and the same agents. Both posted forms repeat the site key and the host |
| Protocol.AnswerUrlRoundTrip | src/index.ts:122 | The answer URL is `checkcaptcha/` plus the challenge key; the key can be read back, and distinct keys give distinct URLs |
| Protocol.MotionTimestamps | src/index.ts:110-114 | In both posted forms `st == dct`, 30 to 120 ms after the clock reading, with the given trace |
| Protocol.PassToken | src/index.ts:146 | The result is the token exactly when `generated_pass_UUID` is present and non-empty, otherwise `null` |
| Protocol.PassTokenNormal | src/index.ts:146 | The mapping never yields an empty token and is idempotent |
| Orchestrator.Entry | src/index.ts:157-184 | One entry: it opens with the configuration lookup under its own identity, makes at most six calls, and re-enters only after the 3000 ms sleep as its sixth |
| Orchestrator.Run | src/index.ts:149-186 | Definition of the whole run: each entry is `Entry` on the next attempt with the options defaulted again, and an entry that retries is followed by the run over the remaining attempts |
| Orchestrator.RunAttempt | src/index.ts:157-184 | The step-by-step body of one entry produces the outcome, calls and interval state of the specification |
| Orchestrator.Solve | src/index.ts:149-186 | The loop of entries produces the outcome, call trace and running-interval count of the recursive run |
| SolveProperties.EntryCallsInOrder | src/index.ts:169-184 | An entry makes 1 to 6 calls, strictly in the order configuration, token, challenge, classification, submission, sleep |
| SolveProperties.EntryRequestsShareSession | src/index.ts:163-179 | The configuration, challenge and answer requests of an entry carry its site key, user agent, host and agents |
| SolveProperties.ClassifiesOnlyWithoutPass | src/index.ts:173-177 | Classification runs only without a challenge-level pass and with a question that did not throw. It gets the configured service, the challenge's tasks and the extracted question |
| SolveProperties.ShortCircuit | src/index.ts:173 | A truthy pass on the challenge is returned as it is after three calls, with no classification and no submission. As written the interval stays running |
| SolveProperties.SolutionTruthiness | src/index.ts:179-181 | As written `solution` is always truthy; awaited, it is truthy exactly when the token is there |
| SolveProperties.SubmitPath | src/index.ts:177-181 | An entry that reaches the answer check resolves to the answer reply's pass token after five calls. The fifth posts the classifier's answers to the challenge's own URL, and the interval is cleared |
| SolveProperties.AsWrittenNeverRetries | src/index.ts:181-184 | As written, the sleep and re-entry of lines 183-184 are unreachable |
| SolveProperties.AsWrittenTimer | src/index.ts:159-181 | As written an entry leaves its interval running exactly when it does not reach line 181 |
| SolveProperties.CorrectedRetryCondition | src/index.ts:179-184 | Corrected, an entry retries exactly when it reached the answer check in time, got no token, and the timeout had not passed after the sleep |
| SolveProperties.CorrectedEntryClearsTimer | src/index.ts:181 | A corrected entry never leaves its interval running |
| SolveProperties.AsWrittenEntryIgnoresTimeout | src/index.ts:159-161 | As written, the timeout and the run's start time play no part in an entry |
| SolveProperties.RunFirstCall | src/index.ts:169 | A run begins with its first entry's configuration lookup |
| SolveProperties.AsWrittenSingleEntry | src/index.ts:179-184 | As written a run never re-enters: the run is its first entry, and it does not end `Pending` for want of attempts |
| SolveProperties.AsWrittenResolvesNull | src/index.ts:146-181 | As written, a rejected answer check makes `hsolve` resolve to `null` after five calls instead of retrying |
| SolveProperties.CorrectedRetryFreshSession | src/index.ts:184 | Corrected, a retry re-enters after six calls with the next attempt's site key and user agent, the same host, and agents built from the same proxy |
| SolveProperties.CorrectedResolvesOnlyTokens | src/index.ts:173-181 | A corrected run resolves only to a non-empty token that the backend handed to one of its entries |
| SolveProperties.AsWrittenLeaksTimer | src/index.ts:159-181 | As written a run leaves one interval running unless its entry reached the answer check |
| SolveProperties.CorrectedClearsTimers | src/index.ts:181 | A corrected run leaves no interval running, however it ends |
| SolveProperties.AsWrittenIgnoresTimeout | src/index.ts:159-161 | As written, two runs whose options differ only in the timeout behave identically |
| SolveProperties.CorrectedExpires | src/index.ts:160 | Corrected, a clock reading past the timeout after the configuration lookup ends the run before the challenge |
| SolveProperties.CorrectedEntriesBounded | src/index.ts:183-184 | Corrected, with a clock that runs forward, each re-entry follows a 3000 ms sleep that ended within the timeout |
| SolveProperties.CorrectedRetriesWithinTimeout | src/index.ts:183-184 | Corrected, a run makes at most `timeout / 3000` retries |
| SolveProperties.EndToEnd | src/index.ts:169-181 | An attempt that reaches the answer check and gets token `t` makes `hsolve` resolve to `t` after five calls. It posts the classifier's answers to the challenge's URL and leaves no interval running |

## Left out

- HTTP through `got` (lines 66, 83, 94, 122) is not modelled. Each reply, or its failure, is a field of an `Attempt`.
- JSON decoding of the replies is not modelled. Replies come already decoded into `SiteConfig` and `CaptchaTask`. A reply without `requester_question` would also throw at line 175; the model assumes the field is present.
- The evaluation of the remote `hsl.js` in a VM (lines 82-91) is foreign code. The token it derives, or its failure, is an input.
- The fetch of `hsl.js` at line 83 is a fourth HTTP request of every entry that is not modelled as a request: it is sent with `got`'s default user agent, without query or site key, and without the proxy agents, so it bypasses the configured proxy. `DeriveToken` stands for this fetch and the evaluation together, and the lemmas about shared session data cover only the configuration, challenge and answer requests.
- The `setInterval` concurrency (lines 159-161) is not modelled. Only the predicate of line 160 and the arithmetic of the ticks are kept. The callback is `async`, so its throw rejects the callback's own promise, which nothing handles: it never settles `hsolve`'s promise. What it does to the process is outside the model: before Node 15 every tick past the timeout logs an unhandled-rejection warning, and from Node 15 on the default mode turns the first one into an uncaught exception that ends the process. That includes the intervals left running by line 173 and by the failing steps.
- Every awaited step (the HTTP calls through `got`, which have no timeout by default, the `hsl.js` evaluation, which may never call `resolve` or `reject`, and `classifyImages`) is assumed to settle with a value or a failure. As written a step that never settles leaves `hsolve` pending forever, since line 160 cannot end it; the model cannot express such a run.
- Strings are sequences of Unicode scalar values, not UTF-16 code units: a lone surrogate cannot be represented, positions count scalar values, and `split("")` yields one piece per scalar value where JavaScript splits a character outside the Basic Multilingual Plane into two surrogate halves. Line 175 matches ASCII prefixes, whose pieces are the same either way.
- SolveProperties.AsWrittenEntryIgnoresTimeout: states that the timeout plays no part in an entry's outcome and calls; it says nothing about the process, which the interval's unhandled rejection can end once the timeout has passed.
- SolveProperties.AsWrittenIgnoresTimeout: states that runs differing only in the timeout have the same outcome, calls and interval count; it says nothing about the process, which the interval's unhandled rejection can end once the timeout has passed.
- `sleep(3000)` (line 183) is a `Sleep` call in the trace, and its end is the clock reading `resumeNow`.
- `URL.parse` (line 165) is not modelled. The host name is a parameter.
- `uuidv4`, `generateUA`, `Date.now`, `_.random`, `JSON.stringify`, `generateMouse` and `createAgents` are not modelled. Their results are inputs: `Jitter` has the range of `_.random(30, 120)`, `MouseTrace` is taken as given, and agents are identified by the proxy they are built from: line 163 builds new agent objects on every entry, and the model treats two agents built from the same proxy as the same.
- `src/functions.ts` and `src/solve.ts` are not part of this model. `classifyImages` is a `Classify` call whose answers, or failure, are inputs.
- JsString.ToLowerCase: lower-cases only the ASCII letters A-Z, not the rest of Unicode.
- Options.WithDefaults: only an integer or an absent value is allowed for the timeout; fractional timeouts such as `0.5`, `NaN` and other JavaScript values are not.
- Protocol.PassToken: `generated_pass_UUID` is a string or absent; other JSON types, which JavaScript would also test for truthiness, are not considered.
- Orchestrator.Solve: `Corrected` checks the timeout at the clock readings between steps, not during a step in flight. A timeout that aborts a pending network call would need the concurrency left out above.
- Orchestrator.Solve: a run over a finite sequence of attempts ends `Pending` when the attempts run out. Unbounded retrying is modelled only as far as the attempts supplied.

## Findings

| source | as written | input that shows it | evidently intended | confidence | as-written member | corrected member |
|---|---|---|---|---|---|---|
| src/index.ts:179 | `submitCaptcha(...)` is not awaited, so `solution` is a promise and always truthy | an answer reply without `generated_pass_UUID` | await the submission and retry when no pass token comes back | high, not executed | SolveProperties.AsWrittenResolvesNull | SolveProperties.CorrectedRetryCondition |
| src/index.ts:173 | the early return and every thrown step skip `clearInterval` | a challenge reply that carries `generated_pass_UUID` | clear the interval on every exit | high, not executed | SolveProperties.AsWrittenLeaksTimer | SolveProperties.CorrectedClearsTimers |
| src/index.ts:159-161 | the timeout is thrown inside the `async` interval callback, so it never settles `hsolve`'s promise; it surfaces only as an unhandled rejection (a warning before Node 15, the end of the process from Node 15 on); each re-entry also restarts the clock at line 157 | any run whose steps together take longer than `timeout` | end the run once the timeout has passed since the first entry | high, not executed | SolveProperties.AsWrittenIgnoresTimeout | SolveProperties.CorrectedRetriesWithinTimeout |
