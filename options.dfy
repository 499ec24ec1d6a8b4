/** The options record of `hsolve` and the defaults it fills in. */
module Options {
  import opened JsString

  /** The classification back ends a solve service may name. */
  datatype ServiceName = Random | Aws | Azure | Custom

  /** The `SolveService` configuration: a name and the credentials or
      endpoint that back end needs. */
  datatype SolveService = SolveService(
    name: ServiceName,
    awsAccessKey: Option<string>,
    awsSecretAccessKey: Option<string>,
    awsRegion: Option<string>,
    azureApiKey: Option<string>,
    azureEndpoint: Option<string>,
    customUrl: Option<string>)

  /** The options a caller passes; every field may be left out. */
  datatype SolveOptions = SolveOptions(
    timeout: Option<int>,
    solveService: Option<SolveService>,
    proxy: Option<string>)

  /** The options after defaulting: a timeout and a service are always
      present, the proxy is `null` or a non-empty string. */
  datatype Settings = Settings(timeout: int, solveService: SolveService, proxy: Option<string>)

  const DEFAULT_TIMEOUT := 120000

  /** `{ name: "random" }`. */
  const DEFAULT_SERVICE := SolveService(Random, None, None, None, None, None, None)

  /** A number option is falsy when it is absent or zero. */
  predicate FalsyNumber(x: Option<int>)
  {
    x.None? || x.value == 0
  }

  /** A string option is falsy when it is absent or empty. */
  predicate FalsyString(x: Option<string>)
  {
    x.None? || x.value == ""
  }

  /** Defaulting in `hsolve`: a falsy timeout becomes 120000, a falsy proxy
      becomes `null`, an absent service becomes the random one; fields already
      set are kept as they are. */
  function WithDefaults(options: SolveOptions): (s: Settings)
    ensures FalsyNumber(options.timeout) ==> s.timeout == DEFAULT_TIMEOUT
    ensures !FalsyNumber(options.timeout) ==> s.timeout == options.timeout.value
    ensures s.timeout != 0
    ensures FalsyString(options.proxy) ==> s.proxy == None
    ensures !FalsyString(options.proxy) ==> s.proxy == options.proxy
    ensures s.proxy != Some("")
    ensures options.solveService.None? ==> s.solveService == DEFAULT_SERVICE
    ensures options.solveService.Some? ==> s.solveService == options.solveService.value
  {
    var timeout := if FalsyNumber(options.timeout) then DEFAULT_TIMEOUT else options.timeout.value;
    var proxy := if FalsyString(options.proxy) then None else options.proxy;
    var service := if options.solveService.None? then DEFAULT_SERVICE else options.solveService.value;
    Settings(timeout, service, proxy)
  }

  /** The settings written back as options, all fields present. */
  function AsOptions(s: Settings): SolveOptions
  {
    SolveOptions(Some(s.timeout), Some(s.solveService), s.proxy)
  }

  /** Defaulting is idempotent: options that are already defaulted are left
      as they are. */
  lemma WithDefaultsIdempotent(options: SolveOptions)
    ensures WithDefaults(AsOptions(WithDefaults(options))) == WithDefaults(options)
  {
  }

  /** Two option records that differ only in their timeout default to
      settings that differ only in their timeout. */
  lemma WithDefaultsTimeoutOnly(o1: SolveOptions, o2: SolveOptions)
    requires o1.solveService == o2.solveService && o1.proxy == o2.proxy
    ensures WithDefaults(o1).solveService == WithDefaults(o2).solveService
    ensures WithDefaults(o1).proxy == WithDefaults(o2).proxy
  {
  }
}
