/** What a run of `hsolve` does, as written and corrected: the order of its
    steps, the short-circuit on a challenge-level pass, when it retries,
    what it resolves to, which intervals it leaves running and how the
    timeout bounds it. */
module SolveProperties {
  import opened JsString
  import opened Options
  import opened Protocol
  import opened Question
  import opened Timeout
  import opened Orchestrator

  /** The position of each kind of call in an entry of `hsolve`. */
  function Rank(c: Call): nat
  {
    match c
    case FetchConfig(_) => 0
    case DeriveToken(_) => 1
    case FetchChallenge(_) => 2
    case Classify(_, _, _) => 3
    case SubmitAnswers(_) => 4
    case Sleep(_) => 5
  }

  /** The attempt gets through every step up to the answer submission:
      a configuration, a token, a challenge without a pass, a question whose
      extraction `e` does not throw, and a classification. */
  predicate ReachesSubmit(a: Attempt, e: Extraction)
  {
    a.config.Ok? && a.config.value.Some? && a.token.Ok? && a.challenge.Ok? &&
    PassToken(a.challenge.value.passUuid).None? && !e.TypeError? && a.classification.Ok?
  }

  /** Neither clock reading before the submission is past the timeout. */
  predicate InTime(a: Attempt, runStart: int, timeout: int)
  {
    !TimedOut(runStart, a.challengeNow, timeout) && !TimedOut(runStart, a.submitNow, timeout)
  }

  /** The clock never runs backwards: within an entry the readings follow
      the steps, the sleep takes its 3000 ms, and the next entry starts after
      the previous one resumed. */
  predicate ClockAdvances(attempts: seq<Attempt>)
  {
    (forall i :: 0 <= i < |attempts| ==>
       attempts[i].start <= attempts[i].challengeNow <= attempts[i].submitNow &&
       attempts[i].submitNow + SLEEP_MS <= attempts[i].resumeNow) &&
    (forall i :: 0 <= i < |attempts| - 1 ==> attempts[i].resumeNow <= attempts[i + 1].start)
  }

  /** The number of entries into `hsolve` a call trace shows. */
  function Entries(calls: seq<Call>): nat
  {
    if |calls| == 0 then 0 else (if calls[0].FetchConfig? then 1 else 0) + Entries(calls[1..])
  }

  /** `t` is a pass token the attempt received, on the challenge or on the
      answer check. */
  predicate Received(a: Attempt, t: string)
  {
    (a.challenge.Ok? && a.challenge.value.passUuid == Some(t)) || a.submission == Ok(Some(t))
  }

  /** Every entry makes its calls in the order configuration, token,
      challenge, classification, submission, sleep, stopping at the first
      step that ends it. */
  lemma EntryCallsInOrder(v: Variant, s: Settings, host: string, a: Attempt, runStart: int, e: Extraction)
    ensures var r := Entry(v, s, host, a, runStart, e);
      1 <= |r.calls| <= 6 && forall k :: 0 <= k < |r.calls| ==> Rank(r.calls[k]) == k
  {
    if a.config.Fault? {
    } else if v == Corrected && TimedOut(runStart, a.challengeNow, s.timeout) {
    } else if a.config.value.None? {
    } else if a.token.Fault? {
    } else if a.challenge.Fault? {
    } else if PassToken(a.challenge.value.passUuid).Some? {
    } else if e.TypeError? {
    } else if a.classification.Fault? {
    } else if v == Corrected && TimedOut(runStart, a.submitNow, s.timeout) {
    } else {
    }
  }

  /** The configuration, challenge and answer requests of an entry carry
      the entry's site key and user agent, the target host and the agents of
      the configured proxy. The fetch of the `hsl.js` script inside the token
      step is not one of them. */
  lemma EntryRequestsShareSession(v: Variant, s: Settings, host: string, a: Attempt, runStart: int, e: Extraction)
    ensures var r := Entry(v, s, host, a, runStart, e);
      forall c :: c in r.calls && (c.FetchConfig? || c.FetchChallenge? || c.SubmitAnswers?) ==>
        c.request.query == SearchParams(host, a.siteKey) &&
        c.request.userAgent == a.userAgent &&
        c.request.agent == AgentsFor(s.proxy)
  {
    if a.config.Fault? {
    } else if v == Corrected && TimedOut(runStart, a.challengeNow, s.timeout) {
    } else if a.config.value.None? {
    } else if a.token.Fault? {
    } else if a.challenge.Fault? {
    } else if PassToken(a.challenge.value.passUuid).Some? {
    } else if e.TypeError? {
    } else if a.classification.Fault? {
    } else if v == Corrected && TimedOut(runStart, a.submitNow, s.timeout) {
    } else {
    }
  }

  /** The images are classified only when the challenge carries no pass and
      the question does not throw, with the configured service, the
      challenge's tasks and the extracted question. */
  lemma ClassifiesOnlyWithoutPass(v: Variant, s: Settings, host: string, a: Attempt, runStart: int, e: Extraction)
    ensures var r := Entry(v, s, host, a, runStart, e);
      |r.calls| >= 4 ==>
        a.config.Ok? && a.config.value.Some? && a.token.Ok? && a.challenge.Ok? &&
        PassToken(a.challenge.value.passUuid).None? && !e.TypeError? &&
        r.calls[3] == Classify(s.solveService, a.challenge.value.tasklist, QuestionArg(e))
  {
  }

  /** A challenge reply that already carries a pass ends the entry with that
      pass after three calls: no classification and no submission. As
      written the interval is then left running. */
  lemma ShortCircuit(v: Variant, s: Settings, host: string, a: Attempt, runStart: int, e: Extraction)
    requires a.config.Ok? && a.config.value.Some? && a.token.Ok? && a.challenge.Ok?
    requires a.challenge.value.passUuid.Some? && a.challenge.value.passUuid.value != ""
    requires v == Corrected ==> !TimedOut(runStart, a.challengeNow, s.timeout)
    ensures var r := Entry(v, s, host, a, runStart, e);
      r.end == Finish(Resolved(a.challenge.value.passUuid)) && |r.calls| == 3 &&
      (forall c :: c in r.calls ==> !c.Classify? && !c.SubmitAnswers?) &&
      r.timerLeft == (v == AsWritten)
  {
  }

  /** The solution tested at line 181: as written it is a promise and so
      always truthy; awaited, it is truthy exactly when the pass token is
      there. */
  lemma SolutionTruthiness(submission: Reply<Option<string>>, uuid: Option<string>)
    ensures Truthy(Settle(AsWritten, submission))
    ensures Truthy(Settle(Corrected, Ok(uuid))) <==> uuid.Some? && uuid.value != ""
  {
  }

  /** An entry that reaches the answer check in time and settles with a
      token (or, as written, settles at all) resolves to the pass token of
      the answer reply after five calls, the fifth being the post of the
      classifier's answers to the challenge's own URL; the interval is
      cleared. */
  lemma SubmitPath(v: Variant, s: Settings, host: string, a: Attempt, runStart: int, e: Extraction)
    requires ReachesSubmit(a, e) && a.submission.Ok?
    requires v == Corrected ==> InTime(a, runStart, s.timeout) && PassToken(a.submission.value).Some?
    ensures var r := Entry(v, s, host, a, runStart, e);
      r.end == Finish(Resolved(PassToken(a.submission.value))) && !r.timerLeft && |r.calls| == 5 &&
      r.calls[3] == Classify(s.solveService, a.challenge.value.tasklist, QuestionArg(e)) &&
      r.calls[4] == SubmitAnswers(AnswerRequest(host, a.siteKey, a.userAgent, Timestamp(a.submitNow, a.submitJitter),
                                                a.challenge.value.key, a.challenge.value.requestType,
                                                a.classification.value, a.submitMouse, AgentsFor(s.proxy)))
  {
  }

  /** As written an entry never sleeps and never re-enters `hsolve`. */
  lemma AsWrittenNeverRetries(s: Settings, host: string, a: Attempt, runStart: int, e: Extraction)
    ensures Entry(AsWritten, s, host, a, runStart, e).end.Finish?
    ensures forall c :: c in Entry(AsWritten, s, host, a, runStart, e).calls ==> !c.Sleep?
  {
  }

  /** As written the interval is cleared only on the path that reaches the
      answer check; the short-circuit and every thrown error leave it
      running. */
  lemma AsWrittenTimer(s: Settings, host: string, a: Attempt, runStart: int, e: Extraction)
    ensures Entry(AsWritten, s, host, a, runStart, e).timerLeft <==> !ReachesSubmit(a, e)
  {
  }

  /** The corrected entry retries exactly when it got through to the answer
      check in time, the backend returned no pass token, and the timeout had
      not passed once the sleep was over. */
  lemma CorrectedRetryCondition(s: Settings, host: string, a: Attempt, runStart: int, e: Extraction)
    ensures Entry(Corrected, s, host, a, runStart, e).end.Retry? <==>
      ReachesSubmit(a, e) && InTime(a, runStart, s.timeout) &&
      a.submission.Ok? && PassToken(a.submission.value).None? &&
      !TimedOut(runStart, a.resumeNow, s.timeout)
  {
  }

  /** The corrected entry never leaves its interval running. */
  lemma CorrectedEntryClearsTimer(s: Settings, host: string, a: Attempt, runStart: int, e: Extraction)
    ensures !Entry(Corrected, s, host, a, runStart, e).timerLeft
  {
  }

  /** As written the settings' timeout plays no part in an entry. */
  lemma AsWrittenEntryIgnoresTimeout(s1: Settings, s2: Settings, host: string, a: Attempt,
                                     runStart1: int, runStart2: int, e: Extraction)
    requires s1.solveService == s2.solveService && s1.proxy == s2.proxy
    ensures Entry(AsWritten, s1, host, a, runStart1, e) == Entry(AsWritten, s2, host, a, runStart2, e)
  {
  }

  /** A run begins with the configuration lookup of its first entry. */
  lemma RunFirstCall(v: Variant, host: string, options: SolveOptions, attempts: seq<Attempt>, runStart: int)
    requires |attempts| >= 1
    ensures var calls := Run(v, host, options, attempts, runStart).calls;
      |calls| >= 1 &&
      calls[0] == FetchConfig(ConfigRequest(host, attempts[0].siteKey, attempts[0].userAgent,
                                            AgentsFor(WithDefaults(options).proxy)))
  {
    var r := AttemptSpec(v, WithDefaults(options), host, attempts[0], runStart);
    if r.end.Retry? {
      var rest := Run(v, host, options, attempts[1..], runStart);
      assert (r.calls + rest.calls)[0] == r.calls[0];
    }
  }

  /** As written a run is its first entry: whatever further attempts the
      environment would offer are never reached, and the run does not end
      `Pending` for want of attempts. */
  lemma AsWrittenSingleEntry(host: string, options: SolveOptions, attempts: seq<Attempt>, runStart: int)
    requires |attempts| >= 1
    ensures var r := AttemptSpec(AsWritten, WithDefaults(options), host, attempts[0], runStart);
      Run(AsWritten, host, options, attempts, runStart).calls == r.calls &&
      Run(AsWritten, host, options, attempts, runStart).outcome == r.end.outcome
    ensures Run(AsWritten, host, options, attempts, runStart).outcome != Pending
    ensures Entries(Run(AsWritten, host, options, attempts, runStart).calls) == 1
  {
    var s := WithDefaults(options);
    var e := QuestionOf(attempts[0]);
    AsWrittenNeverRetries(s, host, attempts[0], runStart, e);
    EntryCallsInOrder(AsWritten, s, host, attempts[0], runStart, e);
    OnlyFirstEntry(Entry(AsWritten, s, host, attempts[0], runStart, e).calls);
  }

  /** A trace that starts with the configuration lookup and has no other
      shows one entry. */
  lemma OnlyFirstEntry(calls: seq<Call>)
    requires |calls| >= 1 && forall k :: 0 <= k < |calls| ==> Rank(calls[k]) == k
    ensures Entries(calls) == 1
  {
    NoEntries(calls[1..]);
  }

  lemma {:induction false} NoEntries(calls: seq<Call>)
    requires forall k :: 0 <= k < |calls| ==> Rank(calls[k]) > 0
    ensures Entries(calls) == 0
    decreases |calls|
  {
    if |calls| > 0 {
      assert Rank(calls[0]) > 0;
      NoEntries(calls[1..]);
    }
  }

  lemma {:induction false} EntriesAppend(c1: seq<Call>, c2: seq<Call>)
    ensures Entries(c1 + c2) == Entries(c1) + Entries(c2)
    decreases |c1|
  {
    if |c1| > 0 {
      assert (c1 + c2)[0] == c1[0] && (c1 + c2)[1..] == c1[1..] + c2;
      EntriesAppend(c1[1..], c2);
    } else {
      assert c1 + c2 == c2;
    }
  }

  /** As written, an answer check the backend rejects (no pass token) makes
      `hsolve` resolve to `null` after a single entry, although the code
      that follows is meant to retry. */
  lemma AsWrittenResolvesNull(host: string, options: SolveOptions, attempts: seq<Attempt>, runStart: int)
    requires |attempts| >= 1 && ReachesSubmit(attempts[0], QuestionOf(attempts[0]))
    requires attempts[0].submission.Ok? && PassToken(attempts[0].submission.value).None?
    ensures Run(AsWritten, host, options, attempts, runStart).outcome == Resolved(None)
    ensures |Run(AsWritten, host, options, attempts, runStart).calls| == 5
  {
    SubmitPath(AsWritten, WithDefaults(options), host, attempts[0], runStart, QuestionOf(attempts[0]));
  }

  /** On a retry the corrected run enters `hsolve` again with a fresh site
      key and user agent but the same host and agents. */
  lemma CorrectedRetryFreshSession(host: string, options: SolveOptions, attempts: seq<Attempt>, runStart: int)
    requires |attempts| >= 2
    requires AttemptSpec(Corrected, WithDefaults(options), host, attempts[0], runStart).end.Retry?
    ensures var n := |AttemptSpec(Corrected, WithDefaults(options), host, attempts[0], runStart).calls|;
      var calls := Run(Corrected, host, options, attempts, runStart).calls;
      n == 6 && |calls| > n &&
      calls[n] == FetchConfig(ConfigRequest(host, attempts[1].siteKey, attempts[1].userAgent,
                                            AgentsFor(WithDefaults(options).proxy)))
  {
    var s := WithDefaults(options);
    var r := AttemptSpec(Corrected, s, host, attempts[0], runStart);
    CorrectedEntryClearsTimer(s, host, attempts[0], runStart, QuestionOf(attempts[0]));
    var rest := Run(Corrected, host, options, attempts[1..], runStart);
    assert Run(Corrected, host, options, attempts, runStart).calls == r.calls + rest.calls;
    assert attempts[1..][0] == attempts[1];
    RunFirstCall(Corrected, host, options, attempts[1..], runStart);
  }

  /** The corrected run only resolves to a non-empty pass token, and that
      token is one the backend handed to one of its entries. */
  lemma {:induction false} CorrectedResolvesOnlyTokens(host: string, options: SolveOptions, attempts: seq<Attempt>,
                                                       runStart: int)
    ensures var o := Run(Corrected, host, options, attempts, runStart).outcome;
      o.Resolved? ==>
        (o.value.Some? && o.value.value != "" &&
         exists k :: 0 <= k < |attempts| && Received(attempts[k], o.value.value))
    decreases |attempts|
  {
    if |attempts| > 0 {
      var r := AttemptSpec(Corrected, WithDefaults(options), host, attempts[0], runStart);
      if r.end.Finish? {
        var o := r.end.outcome;
        if o.Resolved? {
          assert Received(attempts[0], o.value.value);
        }
      } else {
        CorrectedResolvesOnlyTokens(host, options, attempts[1..], runStart);
        var o := Run(Corrected, host, options, attempts, runStart).outcome;
        if o.Resolved? {
          var k :| 0 <= k < |attempts[1..]| && Received(attempts[1..][k], o.value.value);
          assert attempts[1..][k] == attempts[k + 1];
        }
      }
    }
  }

  /** As written the interval is cleared only on the path that reaches the
      answer check; the short-circuit and every thrown error leave it
      running. */
  lemma AsWrittenLeaksTimer(host: string, options: SolveOptions, attempts: seq<Attempt>, runStart: int)
    requires |attempts| >= 1
    ensures Run(AsWritten, host, options, attempts, runStart).liveTimers ==
      if ReachesSubmit(attempts[0], QuestionOf(attempts[0])) then 0 else 1
  {
    AsWrittenTimer(WithDefaults(options), host, attempts[0], runStart, QuestionOf(attempts[0]));
  }

  /** The corrected run leaves no interval running, however it ends. */
  lemma {:induction false} CorrectedClearsTimers(host: string, options: SolveOptions, attempts: seq<Attempt>,
                                                 runStart: int)
    ensures Run(Corrected, host, options, attempts, runStart).liveTimers == 0
    decreases |attempts|
  {
    if |attempts| > 0 {
      var r := AttemptSpec(Corrected, WithDefaults(options), host, attempts[0], runStart);
      CorrectedEntryClearsTimer(WithDefaults(options), host, attempts[0], runStart, QuestionOf(attempts[0]));
      if r.end.Retry? {
        CorrectedClearsTimers(host, options, attempts[1..], runStart);
      }
    }
  }

  /** As written the timeout option has no effect on a run's outcome, calls
      or intervals: the interval's throw rejects only the callback's own
      promise and never settles `hsolve`'s. */
  lemma AsWrittenIgnoresTimeout(host: string, o1: SolveOptions, o2: SolveOptions, attempts: seq<Attempt>,
                                runStart1: int, runStart2: int)
    requires o1.solveService == o2.solveService && o1.proxy == o2.proxy
    ensures Run(AsWritten, host, o1, attempts, runStart1) == Run(AsWritten, host, o2, attempts, runStart2)
  {
    WithDefaultsTimeoutOnly(o1, o2);
    if |attempts| > 0 {
      AsWrittenEntryIgnoresTimeout(WithDefaults(o1), WithDefaults(o2), host, attempts[0], runStart1, runStart2,
                                   QuestionOf(attempts[0]));
      AsWrittenNeverRetries(WithDefaults(o1), host, attempts[0], runStart1, QuestionOf(attempts[0]));
    }
  }

  /** The corrected run stops at the first clock reading past the timeout:
      a configuration that arrives too late ends the run before the
      challenge is requested. */
  lemma CorrectedExpires(host: string, options: SolveOptions, attempts: seq<Attempt>, runStart: int)
    requires |attempts| >= 1 && attempts[0].config.Ok?
    requires TimedOut(runStart, attempts[0].challengeNow, WithDefaults(options).timeout)
    ensures Run(Corrected, host, options, attempts, runStart).outcome == Expired
    ensures |Run(Corrected, host, options, attempts, runStart).calls| == 1
  {
  }

  /** Each corrected re-entry follows a 3000 ms sleep that ended within the
      timeout, so a run with `n` entries has `3000 * (n - 1)` ms of sleep
      within the timeout; `m` counts sleeps already behind the first of the
      given attempts. */
  lemma {:induction false} CorrectedEntriesBounded(host: string, options: SolveOptions, attempts: seq<Attempt>,
                                                   runStart: int, m: nat)
    requires ClockAdvances(attempts)
    requires |attempts| > 0 ==> runStart + SLEEP_MS * m <= attempts[0].start
    ensures var n := Entries(Run(Corrected, host, options, attempts, runStart).calls);
      n >= 2 ==> SLEEP_MS * (m + n - 1) <= WithDefaults(options).timeout
    decreases |attempts|
  {
    if |attempts| > 0 {
      var s := WithDefaults(options);
      var a := attempts[0];
      var r := AttemptSpec(Corrected, s, host, a, runStart);
      EntryCallsInOrder(Corrected, s, host, a, runStart, QuestionOf(a));
      OnlyFirstEntry(r.calls);
      if r.end.Retry? {
        CorrectedRetryCondition(s, host, a, runStart, QuestionOf(a));
        assert SLEEP_MS * (m + 1) <= s.timeout;
        var rest := attempts[1..];
        assert ClockAdvances(rest) by {
          forall i | 0 <= i < |rest| - 1 ensures rest[i].resumeNow <= rest[i + 1].start {
            assert rest[i] == attempts[i + 1] && rest[i + 1] == attempts[i + 2];
          }
        }
        if |rest| > 0 {
          assert attempts[0].resumeNow <= rest[0].start;
        }
        CorrectedEntriesBounded(host, options, rest, runStart, m + 1);
        EntriesAppend(r.calls, Run(Corrected, host, options, rest, runStart).calls);
      }
    }
  }

  /** A corrected run that starts its clock on its first entry makes at most
      `timeout / 3000` retries. */
  lemma CorrectedRetriesWithinTimeout(host: string, options: SolveOptions, attempts: seq<Attempt>)
    requires ClockAdvances(attempts)
    ensures var n := Entries(Run(Corrected, host, options, attempts, StartOf(attempts)).calls);
      n >= 2 ==> n - 1 <= WithDefaults(options).timeout / SLEEP_MS
  {
    CorrectedEntriesBounded(host, options, attempts, StartOf(attempts), 0);
  }

  /** The successful path: an entry that reaches the answer check in time
      and is given a pass token resolves to it after five calls, with one
      classification and one submission to the challenge's answer URL, and
      leaves no interval running. */
  lemma EndToEnd(v: Variant, host: string, options: SolveOptions, a: Attempt, rest: seq<Attempt>, t: string)
    requires ReachesSubmit(a, QuestionOf(a)) && a.submission == Ok(Some(t)) && t != ""
    requires v == Corrected ==> InTime(a, a.start, WithDefaults(options).timeout)
    ensures var run := Run(v, host, options, [a] + rest, a.start);
      run.outcome == Resolved(Some(t)) && run.liveTimers == 0 && |run.calls| == 5 &&
      run.calls[3].Classify? && run.calls[4].SubmitAnswers? &&
      run.calls[4].request.url == SUBMIT_URL_PREFIX + a.challenge.value.key &&
      run.calls[4].request.form.answers == a.classification.value
  {
    assert ([a] + rest)[0] == a;
    SubmitPath(v, WithDefaults(options), host, a, a.start, QuestionOf(a));
  }
}
