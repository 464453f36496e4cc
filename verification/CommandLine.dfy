/** The command line of limitador-server: printed by the operator into the container arguments
    (pkg/limitador/deployment_options.go and the storage option files), read back by the parser below. */
module CommandLine {
  import opened Wrappers
  import opened Text
  import opened LimitadorTypes

  const LIMITS_FILE := "/home/limitador/etc/limitador-config.yaml"
  const REDIS_URL_VARIABLE := "LIMITADOR_OPERATOR_REDIS_URL"
  const REDIS_URL := "$(LIMITADOR_OPERATOR_REDIS_URL)"
  const DISK_PATH := "/var/lib/limitador/data"

  datatype StorageCommand =
    | MemoryStorage
    | RedisStorage
    | RedisCachedStorage(options: RedisCachedOptions)
    | DiskStorage(optimize: Option<string>)

  /** What a command line says. Verbosity 0 is the flag left out. */
  datatype Invocation = Invocation(
    rateLimitHeaders: Option<string>,
    limitNameInLabels: bool,
    tracingEndpoint: Option<string>,
    verbosity: nat,
    httpPort: int,
    rlsPort: int,
    metricLabelsDefault: Option<string>,
    storage: StorageCommand)

  /** Flag names, grouped so that the proofs below depend only on their being different. */
  datatype CachedFlags = CachedFlags(flushPeriod: string, maxCached: string, responseTimeout: string, batchSize: string)

  const CACHED_FLAGS :=
    CachedFlags("--flush-period", "--max-cached", "--response-timeout", "--batch-size")

  datatype GlobalFlags = GlobalFlags(
    headers: string, exhaustive: string, tracing: string, httpPort: string, rlsPort: string, labels: string)

  const GLOBAL_FLAGS := GlobalFlags(
    "--rate-limit-headers", "--limit-name-in-labels", "--tracing-endpoint",
    "--http-port", "--rls-port", "--metric-labels-default")

  // ---------- printer ----------

  function ValueTokens(flag: string, value: Option<string>): seq<string> {
    if value.None? then [] else [flag, value.value]
  }

  function NumberTokens(flag: string, value: Option<int>): seq<string> {
    if value.None? then [] else [flag, Itoa(value.value)]
  }

  function VerbosityTokens(verbosity: nat): seq<string> {
    if verbosity == 0 then [] else ["-" + Repeat('v', verbosity)]
  }

  function Repeat(c: char, n: nat): string {
    seq(n, _ => c)
  }

  function CachedTokens(flags: CachedFlags, o: RedisCachedOptions): seq<string> {
    NumberTokens(flags.flushPeriod, o.flushPeriod)
    + NumberTokens(flags.maxCached, o.maxCached)
    + NumberTokens(flags.responseTimeout, o.responseTimeout)
    + NumberTokens(flags.batchSize, o.batchSize)
  }

  function PrintStorage(s: StorageCommand): seq<string> {
    match s
    case MemoryStorage => ["memory"]
    case RedisStorage => ["redis", REDIS_URL]
    case RedisCachedStorage(o) => ["redis_cached", REDIS_URL] + CachedTokens(CACHED_FLAGS, o)
    case DiskStorage(optimize) => ["disk"] + ValueTokens("--optimize", optimize) + [DISK_PATH]
  }

  function ChoiceTokens(flags: GlobalFlags, i: Invocation): seq<string> {
    ValueTokens(flags.headers, i.rateLimitHeaders)
    + (if i.limitNameInLabels then [flags.exhaustive] else [])
    + ValueTokens(flags.tracing, i.tracingEndpoint)
    + VerbosityTokens(i.verbosity)
  }

  function PortTokens(flags: GlobalFlags, i: Invocation): seq<string> {
    [flags.httpPort, Itoa(i.httpPort)] + [flags.rlsPort, Itoa(i.rlsPort)]
    + ValueTokens(flags.labels, i.metricLabelsDefault)
  }

  function PrintFlags(i: Invocation): seq<string> {
    ChoiceTokens(GLOBAL_FLAGS, i) + PortTokens(GLOBAL_FLAGS, i) + [LIMITS_FILE]
  }

  function Print(i: Invocation): seq<string> {
    PrintFlags(i) + PrintStorage(i.storage)
  }

  // ---------- parser ----------

  function TakeFlag(flag: string, args: seq<string>): (bool, seq<string>) {
    if args != [] && args[0] == flag then (true, args[1..]) else (false, args)
  }

  function TakeValue(flag: string, args: seq<string>): (Option<string>, seq<string>) {
    if |args| >= 2 && args[0] == flag then (Some(args[1]), args[2..]) else (None, args)
  }

  function TakeNumber(flag: string, args: seq<string>): (Option<int>, seq<string>) {
    match TakeValue(flag, args)
    case (None, _) => (None, args)
    case (Some(token), rest) => if Atoi(token).None? then (None, args) else (Atoi(token), rest)
  }

  function TakeVerbosity(args: seq<string>): (nat, seq<string>) {
    if args != [] && |args[0]| >= 2 && args[0] == "-" + Repeat('v', |args[0]| - 1)
    then (|args[0]| - 1, args[1..])
    else (0, args)
  }

  function TakeCachedOptions(flags: CachedFlags, args: seq<string>): (RedisCachedOptions, seq<string>) {
    var (flushPeriod, afterFlush) := TakeNumber(flags.flushPeriod, args);
    var (maxCached, afterCached) := TakeNumber(flags.maxCached, afterFlush);
    var (responseTimeout, afterTimeout) := TakeNumber(flags.responseTimeout, afterCached);
    var (batchSize, rest) := TakeNumber(flags.batchSize, afterTimeout);
    (RedisCachedOptions(flushPeriod, maxCached, responseTimeout, batchSize), rest)
  }

  function ParseStorage(args: seq<string>): Option<StorageCommand> {
    if args == [] then None
    else if args[0] == "memory" then
      if |args| == 1 then Some(MemoryStorage) else None
    else if args[0] == "redis" then
      if |args| == 2 && args[1] == REDIS_URL then Some(RedisStorage) else None
    else if args[0] == "redis_cached" then
      if |args| == 1 || args[1] != REDIS_URL then None
      else
        var (options, rest) := TakeCachedOptions(CACHED_FLAGS, args[2..]);
        if rest == [] then Some(RedisCachedStorage(options)) else None
    else if args[0] == "disk" then
      var (optimize, rest) := TakeValue("--optimize", args[1..]);
      if |rest| == 1 && rest[0] == DISK_PATH then Some(DiskStorage(optimize)) else None
    else None
  }

  datatype Choices = Choices(headers: Option<string>, exhaustive: bool, tracing: Option<string>, verbosity: nat)

  function TakeChoices(flags: GlobalFlags, args: seq<string>): (Choices, seq<string>) {
    var (headers, afterHeaders) := TakeValue(flags.headers, args);
    var (exhaustive, afterExhaustive) := TakeFlag(flags.exhaustive, afterHeaders);
    var (tracing, afterTracing) := TakeValue(flags.tracing, afterExhaustive);
    var (verbosity, rest) := TakeVerbosity(afterTracing);
    (Choices(headers, exhaustive, tracing, verbosity), rest)
  }

  datatype PortChoices = PortChoices(http: Option<int>, rls: Option<int>, labels: Option<string>)

  function TakePorts(flags: GlobalFlags, args: seq<string>): (PortChoices, seq<string>) {
    var (http, afterHttp) := TakeNumber(flags.httpPort, args);
    var (rls, afterRls) := TakeNumber(flags.rlsPort, afterHttp);
    var (labels, rest) := TakeValue(flags.labels, afterRls);
    (PortChoices(http, rls, labels), rest)
  }

  function Parse(args: seq<string>): Option<Invocation> {
    var (c, afterChoices) := TakeChoices(GLOBAL_FLAGS, args);
    var (p, rest) := TakePorts(GLOBAL_FLAGS, afterChoices);
    if p.http.None? || p.rls.None? || rest == [] || rest[0] != LIMITS_FILE || ParseStorage(rest[1..]).None? then None
    else Some(Invocation(c.headers, c.exhaustive, c.tracing, c.verbosity,
                         p.http.value, p.rls.value, p.labels, ParseStorage(rest[1..]).value))
  }

  // ---------- round trip ----------

  lemma TakesValue(flag: string, value: Option<string>, rest: seq<string>)
    requires rest != [] ==> rest[0] != flag
    ensures TakeValue(flag, ValueTokens(flag, value) + rest) == (value, rest)
  {
    var args := ValueTokens(flag, value) + rest;
    if value.None? {
      assert args == rest;
    } else {
      assert args[2..] == rest;
    }
  }

  lemma TakesNumber(flag: string, value: Option<int>, rest: seq<string>)
    requires rest != [] ==> rest[0] != flag
    ensures TakeNumber(flag, NumberTokens(flag, value) + rest) == (value, rest)
  {
    if value.Some? {
      ItoaRoundTrip(value.value);
      TakesValue(flag, Some(Itoa(value.value)), rest);
    } else {
      TakesValue(flag, None, rest);
      assert NumberTokens(flag, value) + rest == rest;
    }
  }

  lemma TakesVerbosity(verbosity: nat, rest: seq<string>)
    requires rest != [] && |rest[0]| >= 2 && rest[0][1] == '-'
    ensures TakeVerbosity(VerbosityTokens(verbosity) + rest) == (verbosity, rest)
  {
    var args := VerbosityTokens(verbosity) + rest;
    if verbosity == 0 {
      assert args == rest;
      assert ("-" + Repeat('v', |rest[0]| - 1))[1] == 'v';
    } else {
      assert args[1..] == rest;
    }
  }

  lemma TakesCachedOptions(flags: CachedFlags, o: RedisCachedOptions)
    requires flags.flushPeriod !in {flags.maxCached, flags.responseTimeout, flags.batchSize}
    requires flags.maxCached !in {flags.responseTimeout, flags.batchSize}
    requires flags.responseTimeout != flags.batchSize
    ensures TakeCachedOptions(flags, CachedTokens(flags, o)) == (o, [])
  {
    var batch := NumberTokens(flags.batchSize, o.batchSize);
    var timeout := NumberTokens(flags.responseTimeout, o.responseTimeout) + batch;
    var cached := NumberTokens(flags.maxCached, o.maxCached) + timeout;
    assert CachedTokens(flags, o) == NumberTokens(flags.flushPeriod, o.flushPeriod) + cached;
    TakesNumber(flags.flushPeriod, o.flushPeriod, cached);
    TakesNumber(flags.maxCached, o.maxCached, timeout);
    TakesNumber(flags.responseTimeout, o.responseTimeout, batch);
    assert batch + [] == batch;
    TakesNumber(flags.batchSize, o.batchSize, []);
  }

  lemma CachedStorageRoundTrip(o: RedisCachedOptions)
    ensures ParseStorage(PrintStorage(RedisCachedStorage(o))) == Some(RedisCachedStorage(o))
  {
    assert CACHED_FLAGS.flushPeriod[2] == 'f' && CACHED_FLAGS.maxCached[2] == 'm'
        && CACHED_FLAGS.responseTimeout[2] == 'r' && CACHED_FLAGS.batchSize[2] == 'b';
    TakesCachedOptions(CACHED_FLAGS, o);
    var args := PrintStorage(RedisCachedStorage(o));
    assert args[2..] == CachedTokens(CACHED_FLAGS, o);
    assert args[0][5] == '_';
  }

  lemma DiskStorageRoundTrip(optimize: Option<string>)
    ensures ParseStorage(PrintStorage(DiskStorage(optimize))) == Some(DiskStorage(optimize))
  {
    var args := PrintStorage(DiskStorage(optimize));
    assert args[1..] == ValueTokens("--optimize", optimize) + [DISK_PATH];
    assert DISK_PATH[0] == '/';
    TakesValue("--optimize", optimize, [DISK_PATH]);
    assert args[0][0] == 'd';
  }

  lemma StorageRoundTrip(s: StorageCommand)
    ensures ParseStorage(PrintStorage(s)) == Some(s)
  {
    match s
    case MemoryStorage =>
    case RedisStorage => assert PrintStorage(s)[0][0] == 'r';
    case RedisCachedStorage(o) => CachedStorageRoundTrip(o);
    case DiskStorage(optimize) => DiskStorageRoundTrip(optimize);
  }

  predicate LongFlag(flag: string) {
    |flag| >= 2 && flag[1] == '-'
  }

  lemma TakesChoices(flags: GlobalFlags, i: Invocation, rest: seq<string>)
    requires flags.headers !in {flags.exhaustive, flags.tracing, flags.httpPort}
    requires flags.exhaustive !in {flags.tracing, flags.httpPort} && flags.tracing != flags.httpPort
    requires LongFlag(flags.headers) && LongFlag(flags.exhaustive)
    requires LongFlag(flags.tracing) && LongFlag(flags.httpPort)
    requires rest != [] && rest[0] == flags.httpPort
    ensures TakeChoices(flags, ChoiceTokens(flags, i) + rest)
         == (Choices(i.rateLimitHeaders, i.limitNameInLabels, i.tracingEndpoint, i.verbosity), rest)
  {
    var verbosity := VerbosityTokens(i.verbosity) + rest;
    var tracing := ValueTokens(flags.tracing, i.tracingEndpoint) + verbosity;
    var exhaustive := (if i.limitNameInLabels then [flags.exhaustive] else []) + tracing;
    var headers := ValueTokens(flags.headers, i.rateLimitHeaders) + exhaustive;
    assert ChoiceTokens(flags, i) + rest == headers;
    if i.verbosity > 0 {
      assert verbosity[0][1] == 'v';
    }
    assert verbosity[0] !in {flags.headers, flags.exhaustive, flags.tracing};
    TakesValue(flags.headers, i.rateLimitHeaders, exhaustive);
    assert TakeFlag(flags.exhaustive, exhaustive) == (i.limitNameInLabels, tracing) by {
      if i.limitNameInLabels { assert exhaustive[1..] == tracing; } else { assert exhaustive == tracing; }
    }
    TakesValue(flags.tracing, i.tracingEndpoint, verbosity);
    TakesVerbosity(i.verbosity, rest);
  }

  lemma TakesPorts(flags: GlobalFlags, i: Invocation, rest: seq<string>)
    requires flags.httpPort != flags.rlsPort && flags.rlsPort != flags.labels
    requires rest != [] && rest[0] !in {flags.rlsPort, flags.labels}
    ensures TakePorts(flags, PortTokens(flags, i) + rest)
         == (PortChoices(Some(i.httpPort), Some(i.rlsPort), i.metricLabelsDefault), rest)
  {
    var labels := ValueTokens(flags.labels, i.metricLabelsDefault) + rest;
    var rls := NumberTokens(flags.rlsPort, Some(i.rlsPort)) + labels;
    assert PortTokens(flags, i) + rest == NumberTokens(flags.httpPort, Some(i.httpPort)) + rls;
    TakesNumber(flags.httpPort, Some(i.httpPort), rls);
    TakesNumber(flags.rlsPort, Some(i.rlsPort), labels);
    TakesValue(flags.labels, i.metricLabelsDefault, rest);
  }

  lemma FlagsDiffer(flags: GlobalFlags)
    requires flags == GLOBAL_FLAGS
    ensures flags.headers !in {flags.exhaustive, flags.tracing, flags.httpPort}
    ensures flags.exhaustive !in {flags.tracing, flags.httpPort} && flags.tracing != flags.httpPort
    ensures flags.httpPort != flags.rlsPort && flags.rlsPort != flags.labels
    ensures LIMITS_FILE !in {flags.rlsPort, flags.labels}
    ensures LongFlag(flags.headers) && LongFlag(flags.exhaustive) && LongFlag(flags.tracing) && LongFlag(flags.httpPort)
  {
  }

  /** The parser recovers every choice from the printed arguments, whatever the strings and numbers are. */
  lemma ArgumentsRoundTrip(i: Invocation)
    ensures Parse(Print(i)) == Some(i)
  {
    hide PrintStorage, ParseStorage, TakeChoices, TakePorts, ChoiceTokens, GLOBAL_FLAGS, LIMITS_FILE;
    var flags := GLOBAL_FLAGS;
    var positional := [LIMITS_FILE] + PrintStorage(i.storage);
    var ports := PortTokens(flags, i) + positional;
    assert Print(i) == ChoiceTokens(flags, i) + ports;
    FlagsDiffer(flags);
    TakesChoices(flags, i, ports);
    TakesPorts(flags, i, positional);
    assert positional[1..] == PrintStorage(i.storage);
    StorageRoundTrip(i.storage);
  }

  /** Different choices give different argument lists. */
  lemma PrintInjective(i: Invocation, j: Invocation)
    requires Print(i) == Print(j)
    ensures i == j
  {
    ArgumentsRoundTrip(i);
    ArgumentsRoundTrip(j);
  }
}
