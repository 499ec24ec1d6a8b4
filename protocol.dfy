/** The three requests `hsolve` sends to the challenge backend (site
    configuration, challenge, answer check) and the pass token it reads from
    the replies. The HTTP exchange itself is not modelled: a request is a
    value, and each reply is supplied by the caller. */
module Protocol {
  import opened JsString

  const CONFIG_URL := "https://hcaptcha.com/checksiteconfig"
  const CHALLENGE_URL := "https://hcaptcha.com/getcaptcha"
  const SUBMIT_URL_PREFIX := "https://hcaptcha.com/checkcaptcha/"

  /** The `sc` and `swa` query parameters every request carries. */
  const SC := 1
  const SWA := 0

  /** `_.random(30, 120)`: an integer between 30 and 120 inclusive. */
  type Jitter = r: int | 30 <= r <= 120 witness 30

  /** The pointer trajectory produced by `generateMouse`, taken as given. */
  datatype MouseTrace = MouseTrace(samples: seq<(int, int, int)>)

  /** Transport agents made by `createAgents` from a proxy URL. */
  datatype Agents = Agents(proxy: string)

  /** An image of the challenge and its task key. */
  datatype ImageTask = ImageTask(datapointUri: string, taskKey: string)

  /** The answers: task key to "matches the question". */
  type Answers = map<string, bool>

  /** The query string shared by all three requests. */
  datatype Query = Query(host: string, sitekey: string, sc: int, swa: int)

  /** The telemetry attached to the challenge and answer requests. */
  datatype MotionData = MotionData(st: int, dct: int, mm: MouseTrace)

  datatype Form =
    | NoForm
    | ChallengeForm(sitekey: string, host: string, n: string, c: string, motionData: MotionData)
    | AnswerForm(sitekey: string, serverdomain: string, answers: Answers, jobMode: string, motionData: MotionData)

  datatype Verb = Get | Post

  datatype Request = Request(verb: Verb, url: string, query: Query, userAgent: string, form: Form, agent: Option<Agents>)

  /** The agents line 163 builds: one for a proxy, none without. */
  function AgentsFor(proxy: Option<string>): (a: Option<Agents>)
    ensures a.Some? <==> proxy.Some?
    ensures a.Some? ==> a.value.proxy == proxy.value
  {
    match proxy
    case None => None
    case Some(p) => Some(Agents(p))
  }

  function SearchParams(host: string, siteKey: string): Query
  {
    Query(host, siteKey, SC, SWA)
  }

  /** The timestamp passed to the challenge and answer requests:
      `Date.now() + _.random(30, 120)`. */
  function Timestamp(now: int, jitter: Jitter): (t: int)
    ensures now + 30 <= t <= now + 120
  {
    now + jitter
  }

  function Motion(timestamp: int, mm: MouseTrace): MotionData
  {
    MotionData(timestamp, timestamp, mm)
  }

  /** The site configuration lookup. */
  function ConfigRequest(host: string, siteKey: string, userAgent: string, agent: Option<Agents>): (r: Request)
    ensures r.verb == Get && r.url == CONFIG_URL && r.form.NoForm?
  {
    Request(Get, CONFIG_URL, SearchParams(host, siteKey), userAgent, NoForm, agent)
  }

  /** The challenge request; `n` is the derived token and `c` the site
      configuration serialised as JSON. */
  function ChallengeRequest(host: string, siteKey: string, userAgent: string, n: string, c: string,
                            timestamp: int, mm: MouseTrace, agent: Option<Agents>): (r: Request)
    ensures r.verb == Post && r.url == CHALLENGE_URL
    ensures r.form.ChallengeForm? && r.form.n == n && r.form.c == c
  {
    Request(Post, CHALLENGE_URL, SearchParams(host, siteKey), userAgent,
            ChallengeForm(siteKey, host, n, c, Motion(timestamp, mm)), agent)
  }

  /** The answer submission, posted to a path keyed by the challenge key. */
  function AnswerRequest(host: string, siteKey: string, userAgent: string, timestamp: int, key: string,
                         jobType: string, answers: Answers, mm: MouseTrace, agent: Option<Agents>): (r: Request)
    ensures r.verb == Post && SubmitKey(r.url) == Some(key)
    ensures r.form.AnswerForm? && r.form.answers == answers && r.form.jobMode == jobType
  {
    assert (SUBMIT_URL_PREFIX + key)[|SUBMIT_URL_PREFIX|..] == key;
    Request(Post, SUBMIT_URL_PREFIX + key, SearchParams(host, siteKey), userAgent,
            AnswerForm(siteKey, host, answers, jobType, Motion(timestamp, mm)), agent)
  }

  /** The challenge key an answer URL is keyed by, if it is one. */
  function SubmitKey(url: string): (key: Option<string>)
    ensures key.Some? ==> SUBMIT_URL_PREFIX + key.value == url
    ensures key.None? ==> !(SUBMIT_URL_PREFIX <= url)
  {
    if SUBMIT_URL_PREFIX <= url then Some(url[|SUBMIT_URL_PREFIX|..]) else None
  }

  /** All three requests carry the query `{host, sitekey, sc: 1, swa: 0}`,
      the same user agent and the same transport agent; the two posted forms
      repeat the site key and the host. */
  lemma RequestsShareSession(host: string, siteKey: string, userAgent: string, n: string, c: string,
                             t1: int, mm1: MouseTrace, t2: int, key: string, jobType: string,
                             answers: Answers, mm2: MouseTrace, agent: Option<Agents>)
    ensures var reqs := [ConfigRequest(host, siteKey, userAgent, agent),
                         ChallengeRequest(host, siteKey, userAgent, n, c, t1, mm1, agent),
                         AnswerRequest(host, siteKey, userAgent, t2, key, jobType, answers, mm2, agent)];
      forall r :: r in reqs ==>
        r.query == Query(host, siteKey, 1, 0) && r.userAgent == userAgent && r.agent == agent
    ensures ChallengeRequest(host, siteKey, userAgent, n, c, t1, mm1, agent).form.sitekey == siteKey
    ensures ChallengeRequest(host, siteKey, userAgent, n, c, t1, mm1, agent).form.host == host
    ensures AnswerRequest(host, siteKey, userAgent, t2, key, jobType, answers, mm2, agent).form.sitekey == siteKey
    ensures AnswerRequest(host, siteKey, userAgent, t2, key, jobType, answers, mm2, agent).form.serverdomain == host
  {
  }

  /** The answer URL determines the challenge key: reading the key back from
      the URL gives it, so distinct challenges are posted to distinct URLs. */
  lemma AnswerUrlRoundTrip(host: string, siteKey: string, userAgent: string, timestamp: int, key: string,
                           key2: string, jobType: string, answers: Answers, mm: MouseTrace, agent: Option<Agents>)
    ensures SubmitKey(AnswerRequest(host, siteKey, userAgent, timestamp, key, jobType, answers, mm, agent).url) == Some(key)
    ensures key != key2 ==>
      AnswerRequest(host, siteKey, userAgent, timestamp, key, jobType, answers, mm, agent).url !=
      AnswerRequest(host, siteKey, userAgent, timestamp, key2, jobType, answers, mm, agent).url
  {
    var url := SUBMIT_URL_PREFIX + key;
    assert url[|SUBMIT_URL_PREFIX|..] == key;
    var url2 := SUBMIT_URL_PREFIX + key2;
    assert url2[|SUBMIT_URL_PREFIX|..] == key2;
  }

  /** The motion data of both posted forms has `st == dct`, equal to a
      timestamp 30 to 120 ms after the clock reading. */
  lemma MotionTimestamps(host: string, siteKey: string, userAgent: string, n: string, c: string,
                         now1: int, r1: Jitter, mm1: MouseTrace, now2: int, r2: Jitter, key: string,
                         jobType: string, answers: Answers, mm2: MouseTrace, agent: Option<Agents>)
    ensures var m := ChallengeRequest(host, siteKey, userAgent, n, c, Timestamp(now1, r1), mm1, agent).form.motionData;
      m.st == m.dct && now1 + 30 <= m.st <= now1 + 120 && m.mm == mm1
    ensures var m := AnswerRequest(host, siteKey, userAgent, Timestamp(now2, r2), key, jobType, answers, mm2, agent).form.motionData;
      m.st == m.dct && now2 + 30 <= m.st <= now2 + 120 && m.mm == mm2
  {
  }

  /** `x ? x : null` on a reply's `generated_pass_UUID`: the token when it
      is present and non-empty, `null` otherwise. */
  function PassToken(uuid: Option<string>): (r: Option<string>)
    ensures r.Some? <==> uuid.Some? && uuid.value != ""
    ensures r.Some? ==> r.value == uuid.value
  {
    if uuid.Some? && uuid.value != "" then uuid else None
  }

  /** The mapping never yields an empty token, and applying it to its own
      result changes nothing. */
  lemma PassTokenNormal(uuid: Option<string>)
    ensures PassToken(uuid) != Some("")
    ensures PassToken(PassToken(uuid)) == PassToken(uuid)
  {
  }
}
