/** What the objects say, setting by setting, in the words of the resource: names, labels, ports, image, strategy,
    limits, storage and the command line as a reader of flags sees it. */
module Translation {
  import opened Wrappers
  import opened Text
  import opened Fields
  import opened Objects
  import opened LimitadorTypes
  import opened CommandLine
  import opened K8sObjects
  import opened Cluster
  import opened Reconcilers
  import opened Controller
  import opened Consistency

  // ---------- reading a command line by flag names ----------

  /** The flags that are followed by a value. */
  const VALUED := {
    "--rate-limit-headers", "--tracing-endpoint", "--http-port", "--rls-port", "--metric-labels-default",
    "--flush-period", "--max-cached", "--response-timeout", "--batch-size", "--optimize"}

  /** The values by flag name, and the other words in order. */
  datatype Reading = Reading(values: map<string, string>, words: seq<string>)

  function Read(args: seq<string>): Reading
    decreases |args|
  {
    if args == [] then Reading(map[], [])
    else if args[0] !in VALUED then
      var rest := Read(args[1..]);
      rest.(words := [args[0]] + rest.words)
    else if |args| == 1 then Reading(map[], [])
    else With(Read(args[2..]), args[0], Some(args[1]))
  }

  function With(r: Reading, flag: string, value: Option<string>): Reading {
    if value.None? then r else r.(values := r.values[flag := value.value])
  }

  function Decimal(n: Option<int>): Option<string> {
    if n.None? then None else Some(Itoa(n.value))
  }

  lemma ReadsValue(flag: string, value: Option<string>, rest: seq<string>)
    requires flag in VALUED
    ensures Read(ValueTokens(flag, value) + rest) == With(Read(rest), flag, value)
  {
    hide VALUED;
    var args := ValueTokens(flag, value) + rest;
    if value.None? {
      assert args == rest;
    } else {
      assert args[2..] == rest;
    }
  }

  lemma ReadsNumber(flag: string, value: Option<int>, rest: seq<string>)
    requires flag in VALUED
    ensures Read(NumberTokens(flag, value) + rest) == With(Read(rest), flag, Decimal(value))
  {
    hide VALUED, Read, With, Itoa;
    assert NumberTokens(flag, value) == ValueTokens(flag, Decimal(value));
    ReadsValue(flag, Decimal(value), rest);
  }

  lemma ReadsWord(word: string, rest: seq<string>)
    requires word !in VALUED
    ensures Read([word] + rest) == Reading(Read(rest).values, [word] + Read(rest).words)
  {
    hide VALUED;
    assert ([word] + rest)[1..] == rest;
  }

  lemma ReadsWords(words: seq<string>, rest: seq<string>)
    requires forall word | word in words :: word !in VALUED
    ensures Read(words + rest) == Reading(Read(rest).values, words + Read(rest).words)
  {
    hide VALUED, Read;
    if words == [] {
      assert words + rest == rest;
    } else {
      var tail := words[1..];
      assert words[0] in words && forall word | word in tail :: word in words;
      ReadsWords(tail, rest);
      ReadsWord(words[0], tail + rest);
      assert words + rest == [words[0]] + (tail + rest);
      assert words + Read(rest).words == [words[0]] + (tail + Read(rest).words);
    }
  }

  predicate AllValued(flags: seq<string>) {
    forall flag | flag in flags :: flag in VALUED
  }

  function NamedValues(r: Reading, flags: GlobalFlags, i: Invocation): Reading {
    With(With(With(With(With(r, flags.labels, i.metricLabelsDefault), flags.rlsPort, Some(Itoa(i.rlsPort))),
         flags.httpPort, Some(Itoa(i.httpPort))), flags.tracing, i.tracingEndpoint), flags.headers, i.rateLimitHeaders)
  }

  function Verbose(verbosity: nat): seq<string> {
    if verbosity == 0 then [] else ["-" + Repeat('v', verbosity)]
  }

  lemma ReadsPorts(flags: GlobalFlags, i: Invocation, rest: seq<string>)
    requires flags.httpPort in VALUED && flags.rlsPort in VALUED && flags.labels in VALUED
    ensures Read(PortTokens(flags, i) + rest) ==
      With(With(With(Read(rest), flags.labels, i.metricLabelsDefault), flags.rlsPort, Some(Itoa(i.rlsPort))),
           flags.httpPort, Some(Itoa(i.httpPort)))
  {
    hide VALUED, Read, With, Itoa, ValueTokens;
    var labels := ValueTokens(flags.labels, i.metricLabelsDefault) + rest;
    var rls := NumberTokens(flags.rlsPort, Some(i.rlsPort)) + labels;
    assert PortTokens(flags, i) + rest == NumberTokens(flags.httpPort, Some(i.httpPort)) + rls;
    ReadsNumber(flags.httpPort, Some(i.httpPort), rls);
    ReadsNumber(flags.rlsPort, Some(i.rlsPort), labels);
    ReadsValue(flags.labels, i.metricLabelsDefault, rest);
  }

  lemma ReadsChoices(flags: GlobalFlags, i: Invocation, rest: seq<string>)
    requires flags.headers in VALUED && flags.tracing in VALUED && flags.exhaustive !in VALUED
    requires forall word | word in Verbose(i.verbosity) :: word !in VALUED
    ensures var words := (if i.limitNameInLabels then [flags.exhaustive] else []) + Verbose(i.verbosity);
      Read(ChoiceTokens(flags, i) + rest) ==
        With(With(Reading(Read(rest).values, words + Read(rest).words), flags.tracing, i.tracingEndpoint),
             flags.headers, i.rateLimitHeaders)
  {
    hide VALUED, Read, ValueTokens, Repeat;
    var exhaustive := if i.limitNameInLabels then [flags.exhaustive] else [];
    var verbose := Verbose(i.verbosity) + rest;
    var tracing := ValueTokens(flags.tracing, i.tracingEndpoint) + verbose;
    assert ChoiceTokens(flags, i) + rest
        == ValueTokens(flags.headers, i.rateLimitHeaders) + (exhaustive + tracing);
    ReadsValue(flags.headers, i.rateLimitHeaders, exhaustive + tracing);
    ReadsWords(exhaustive, tracing);
    ReadsValue(flags.tracing, i.tracingEndpoint, verbose);
    ReadsWords(Verbose(i.verbosity), rest);
    assert exhaustive + (Verbose(i.verbosity) + Read(rest).words)
        == exhaustive + Verbose(i.verbosity) + Read(rest).words;
  }

  lemma ReadsCached(flags: CachedFlags, o: RedisCachedOptions)
    requires AllValued([flags.flushPeriod, flags.maxCached, flags.responseTimeout, flags.batchSize])
    ensures Read(CachedTokens(flags, o)) ==
      With(With(With(With(Reading(map[], []), flags.batchSize, Decimal(o.batchSize)),
                     flags.responseTimeout, Decimal(o.responseTimeout)),
                flags.maxCached, Decimal(o.maxCached)),
           flags.flushPeriod, Decimal(o.flushPeriod))
  {
    hide VALUED, With, NumberTokens, Decimal;
    var names := [flags.flushPeriod, flags.maxCached, flags.responseTimeout, flags.batchSize];
    assert names[0] in names && names[1] in names && names[2] in names && names[3] in names;
    var batch := NumberTokens(flags.batchSize, o.batchSize);
    var timeout := NumberTokens(flags.responseTimeout, o.responseTimeout) + batch;
    var cached := NumberTokens(flags.maxCached, o.maxCached) + timeout;
    assert CachedTokens(flags, o) == NumberTokens(flags.flushPeriod, o.flushPeriod) + cached;
    ReadsNumber(flags.flushPeriod, o.flushPeriod, cached);
    ReadsNumber(flags.maxCached, o.maxCached, timeout);
    ReadsNumber(flags.responseTimeout, o.responseTimeout, batch);
    assert batch + [] == batch;
    ReadsNumber(flags.batchSize, o.batchSize, []);
  }

  // ---------- the printed command line ----------

  lemma GlobalNames(f: GlobalFlags)
    requires f == GLOBAL_FLAGS
    ensures AllValued([f.headers, f.tracing, f.httpPort, f.rlsPort, f.labels]) && f.exhaustive !in VALUED
    ensures f.headers == "--rate-limit-headers" && f.exhaustive == "--limit-name-in-labels"
    ensures f.tracing == "--tracing-endpoint" && f.httpPort == "--http-port" && f.rlsPort == "--rls-port"
    ensures f.labels == "--metric-labels-default"
  {
  }

  lemma CachedNames(f: CachedFlags)
    requires f == CACHED_FLAGS
    ensures AllValued([f.flushPeriod, f.maxCached, f.responseTimeout, f.batchSize])
    ensures f.flushPeriod == "--flush-period" && f.maxCached == "--max-cached"
    ensures f.responseTimeout == "--response-timeout" && f.batchSize == "--batch-size"
  {
  }

  /** A word whose second character is not a dash is no flag with a value. */
  lemma PlainWord(word: string)
    requires |word| >= 2 && word[1] != '-'
    ensures word !in VALUED
  {
  }

  lemma ReadsPrint(i: Invocation, flags: GlobalFlags)
    requires flags == GLOBAL_FLAGS
    ensures var r := Read(Print(i)); var s := Read(PrintStorage(i.storage));
      && r.values == NamedValues(s, flags, i).values
      && r.words == (if i.limitNameInLabels then ["--limit-name-in-labels"] else []) + Verbose(i.verbosity)
                    + ["/home/limitador/etc/limitador-config.yaml"] + s.words
  {
    hide VALUED, Read, ChoiceTokens, PortTokens, PrintStorage, GLOBAL_FLAGS, Itoa, Repeat, LIMITS_FILE;
    GlobalNames(flags);
    LimitsFileWord();
    var names := [flags.headers, flags.tracing, flags.httpPort, flags.rlsPort, flags.labels];
    assert names[0] in names && names[1] in names && names[2] in names && names[3] in names && names[4] in names;
    var storage := PrintStorage(i.storage);
    var ports := PortTokens(flags, i) + ([LIMITS_FILE] + storage);
    assert Print(i) == ChoiceTokens(flags, i) + ports;
    forall word | word in Verbose(i.verbosity)
      ensures word !in VALUED
    {
      VerboseWord(i.verbosity, word);
    }
    ReadsChoices(flags, i, ports);
    ReadsPorts(flags, i, [LIMITS_FILE] + storage);
    ReadsWord(LIMITS_FILE, storage);
  }

  lemma LimitsFileWord()
    ensures LIMITS_FILE == "/home/limitador/etc/limitador-config.yaml" && LIMITS_FILE !in VALUED
  {
    hide VALUED;
    assert LIMITS_FILE[1] == 'h';
    PlainWord(LIMITS_FILE);
  }

  lemma VerboseWord(verbosity: nat, word: string)
    requires word in Verbose(verbosity)
    ensures word !in VALUED
  {
    hide VALUED;
    assert word[1] == 'v';
    PlainWord(word);
  }

  lemma ReadsCachedStorage(o: RedisCachedOptions)
    ensures Read(PrintStorage(RedisCachedStorage(o))) ==
      Reading(CachedValues(o), ["redis_cached", "$(LIMITADOR_OPERATOR_REDIS_URL)"])
  {
    hide VALUED, Read, Decimal, CachedTokens, CACHED_FLAGS;
    CachedNames(CACHED_FLAGS);
    var words := ["redis_cached", REDIS_URL];
    assert words[0][1] == 'e' && words[1][1] == '(';
    PlainWord(words[0]);
    PlainWord(words[1]);
    ReadsWords(words, CachedTokens(CACHED_FLAGS, o));
    ReadsCached(CACHED_FLAGS, o);
    NoWords(CachedValues(o), words);
  }

  lemma NoWords(values: map<string, string>, words: seq<string>)
    ensures Reading(values, words + []) == Reading(values, words)
  {
    assert words + [] == words;
  }

  lemma ReadsAround(first: string, flag: string, value: Option<string>, last: string)
    requires first !in VALUED && flag in VALUED && last !in VALUED
    ensures Read([first] + ValueTokens(flag, value) + [last]) == With(Reading(map[], [first, last]), flag, value)
  {
    hide VALUED, Read, ValueTokens;
    var rest := ValueTokens(flag, value) + [last];
    assert [first] + ValueTokens(flag, value) + [last] == [first] + rest;
    ReadsWord(first, rest);
    ReadsValue(flag, value, [last]);
    ReadsEnd([last]);
    assert [first] + [last] == [first, last];
  }

  lemma ReadsDiskStorage(optimize: Option<string>)
    ensures Read(PrintStorage(DiskStorage(optimize))) ==
      With(Reading(map[], ["disk", "/var/lib/limitador/data"]), "--optimize", optimize)
  {
    hide VALUED, Read, ValueTokens, With;
    OptimizeName();
    var words := ["disk", DISK_PATH];
    assert words[0][1] == 'i' && words[1][1] == 'v';
    PlainWord(words[0]);
    PlainWord(words[1]);
    ReadsAround(words[0], "--optimize", optimize, words[1]);
  }

  lemma ReadsPlainStorage()
    ensures Read(PrintStorage(MemoryStorage)) == Reading(map[], ["memory"])
    ensures Read(PrintStorage(RedisStorage)) == Reading(map[], ["redis", "$(LIMITADOR_OPERATOR_REDIS_URL)"])
  {
    hide VALUED, Read;
    var memory, redis := PrintStorage(MemoryStorage), PrintStorage(RedisStorage);
    assert memory[0][1] == 'e' && redis[0][1] == 'e' && redis[1][1] == '(';
    PlainWord(memory[0]);
    PlainWord(redis[0]);
    PlainWord(redis[1]);
    ReadsEnd(memory);
    ReadsEnd(redis);
  }

  lemma OptimizeName()
    ensures "--optimize" in VALUED
  {
  }

  lemma ReadsEnd(words: seq<string>)
    requires forall word | word in words :: word !in VALUED
    ensures Read(words) == Reading(map[], words)
  {
    hide VALUED;
    ReadsWords(words, []);
    assert words + [] == words;
  }

  function CachedValues(o: RedisCachedOptions): map<string, string> {
    With(With(With(With(Reading(map[], []), "--batch-size", Decimal(o.batchSize)),
                   "--response-timeout", Decimal(o.responseTimeout)),
              "--max-cached", Decimal(o.maxCached)),
         "--flush-period", Decimal(o.flushPeriod)).values
  }

  /** The command line gives the flag with this value, or not at all. */
  predicate Gives(r: Reading, flag: string, value: Option<string>) {
    (flag in r.values <==> value.Some?) && (value.Some? ==> r.values[flag] == value.value)
  }

  lemma NamedGives(s: Reading, f: GlobalFlags, i: Invocation)
    requires f.headers !in {f.tracing, f.httpPort, f.rlsPort, f.labels}
    requires f.tracing !in {f.httpPort, f.rlsPort, f.labels}
    requires f.httpPort !in {f.rlsPort, f.labels} && f.rlsPort != f.labels
    requires forall flag | flag in {f.headers, f.tracing, f.httpPort, f.rlsPort, f.labels} :: flag !in s.values
    ensures var r := NamedValues(s, f, i);
      && Gives(r, f.headers, i.rateLimitHeaders) && Gives(r, f.tracing, i.tracingEndpoint)
      && Gives(r, f.httpPort, Some(Itoa(i.httpPort))) && Gives(r, f.rlsPort, Some(Itoa(i.rlsPort)))
      && Gives(r, f.labels, i.metricLabelsDefault)
      && forall flag, v | flag !in {f.headers, f.tracing, f.httpPort, f.rlsPort, f.labels} ::
           Gives(s, flag, v) ==> Gives(r, flag, v)
  {
    hide Itoa;
  }

  lemma CachedGives(o: RedisCachedOptions, words: seq<string>)
    ensures var r := Reading(CachedValues(o), words);
      && Gives(r, "--flush-period", Decimal(o.flushPeriod)) && Gives(r, "--max-cached", Decimal(o.maxCached))
      && Gives(r, "--response-timeout", Decimal(o.responseTimeout)) && Gives(r, "--batch-size", Decimal(o.batchSize))
      && Gives(r, "--optimize", None)
      && r.values.Keys <= {"--flush-period", "--max-cached", "--response-timeout", "--batch-size"}
  {
    hide Decimal;
  }

  // ---------- which storage ----------

  const NOTHING_SET := RedisCachedOptions(None, None, None, None)

  function StorageSet(spec: LimitadorSpec): Storage {
    spec.storage.GetOr(Storage(None, None, None))
  }

  /** The options of cached Redis, if that is what is used. */
  function CacheSet(spec: LimitadorSpec): RedisCachedOptions {
    var s := StorageSet(spec);
    if s.redis.None? && s.redisCached.Some? then s.redisCached.value.options.GetOr(NOTHING_SET) else NOTHING_SET
  }

  /** Redis is used when it is set, else cached Redis, else the disk, else memory. */
  predicate IsStorage(spec: LimitadorSpec, c: StorageCommand) {
    var s := StorageSet(spec);
    && (c.RedisStorage? <==> s.redis.Some?)
    && (c.RedisCachedStorage? <==> s.redis.None? && s.redisCached.Some?)
    && (c.DiskStorage? <==> DiskSelected(spec))
    && (c.RedisCachedStorage? ==>
          && c.options.flushPeriod == CacheSet(spec).flushPeriod && c.options.maxCached == CacheSet(spec).maxCached
          && c.options.responseTimeout == CacheSet(spec).responseTimeout
          && c.options.batchSize == CacheSet(spec).batchSize)
    && (c.DiskStorage? ==> c.optimize == s.disk.value.optimize)
  }

  lemma CommandByPriority(lim: Limitador)
    ensures IsStorage(lim.spec, InvocationOf(lim).storage)
    ensures OptionsOf(lim).args == Print(InvocationOf(lim))
  {
    hide PrintFlags, PrintStorage;
  }

  /** The server is told to use the storage of highest priority among those set, with the options set for it: plain
      Redis, then cached Redis, then disk, then memory. */
  lemma StorageByPriority(lim: Limitador)
    ensures var i := Parse(OptionsOf(lim).args); i.Some? && IsStorage(lim.spec, i.value.storage)
  {
    hide OptionsOf, InvocationOf, Parse, Print, IsStorage;
    CommandByPriority(lim);
    ArgumentsRoundTrip(InvocationOf(lim));
  }

  /** What the storage command reads as, by flag name. */
  predicate StorageRead(spec: LimitadorSpec, r: Reading) {
    var s := StorageSet(spec);
    && Gives(r, "--flush-period", Decimal(CacheSet(spec).flushPeriod))
    && Gives(r, "--max-cached", Decimal(CacheSet(spec).maxCached))
    && Gives(r, "--response-timeout", Decimal(CacheSet(spec).responseTimeout))
    && Gives(r, "--batch-size", Decimal(CacheSet(spec).batchSize))
    && Gives(r, "--optimize", if DiskSelected(spec) then s.disk.value.optimize else None)
  }

  function StorageWords(spec: LimitadorSpec): seq<string> {
    var s := StorageSet(spec);
    if s.redis.Some? then ["redis", "$(LIMITADOR_OPERATOR_REDIS_URL)"]
    else if s.redisCached.Some? then ["redis_cached", "$(LIMITADOR_OPERATOR_REDIS_URL)"]
    else if s.disk.Some? then ["disk", "/var/lib/limitador/data"]
    else ["memory"]
  }

  const STORAGE_FLAGS := {"--flush-period", "--max-cached", "--response-timeout", "--batch-size", "--optimize"}

  lemma StorageCommandRead(spec: LimitadorSpec, c: StorageCommand)
    requires IsStorage(spec, c)
    ensures var r := Read(PrintStorage(c));
      StorageRead(spec, r) && r.words == StorageWords(spec) && r.values.Keys <= STORAGE_FLAGS
  {
    hide Read, PrintStorage, Itoa, VALUED;
    match c
    case MemoryStorage => ReadsPlainStorage();
    case RedisStorage => ReadsPlainStorage();
    case RedisCachedStorage(o) =>
      ReadsCachedStorage(o);
      CachedGives(o, StorageWords(spec));
    case DiskStorage(optimize) =>
      ReadsDiskStorage(optimize);
      DiskGives(optimize, StorageWords(spec));
  }

  lemma DiskGives(optimize: Option<string>, words: seq<string>)
    ensures var r := With(Reading(map[], words), "--optimize", optimize);
      && Gives(r, "--flush-period", None) && Gives(r, "--max-cached", None)
      && Gives(r, "--response-timeout", None) && Gives(r, "--batch-size", None)
      && Gives(r, "--optimize", optimize)
  {
  }

  lemma StorageFlagsApart(f: GlobalFlags)
    requires f == GLOBAL_FLAGS
    ensures f.headers !in {f.tracing, f.httpPort, f.rlsPort, f.labels}
    ensures f.tracing !in {f.httpPort, f.rlsPort, f.labels}
    ensures f.httpPort !in {f.rlsPort, f.labels} && f.rlsPort != f.labels
    ensures {f.headers, f.tracing, f.httpPort, f.rlsPort, f.labels} !! STORAGE_FLAGS
  {
  }

  /** A reader who looks for the flags by their names finds every setting of the resource under its own name, and no
      setting that the resource does not have; the other words are the exhaustive flag when telemetry is exhaustive,
      the verbosity, the limits file and the storage command, in this order. */
  lemma ArgumentsByName(lim: Limitador)
    ensures var r := Read(OptionsOf(lim).args); var spec := lim.spec;
      && Gives(r, "--rate-limit-headers", spec.rateLimitHeaders)
      && Gives(r, "--tracing-endpoint", if spec.tracing.Some? then Some(spec.tracing.value.endpoint) else None)
      && Gives(r, "--http-port", Some(Itoa(lim.HTTPPort()))) && Gives(r, "--rls-port", Some(Itoa(lim.GRPCPort())))
      && Gives(r, "--metric-labels-default", spec.metricLabelsDefault)
      && StorageRead(spec, r)
      && r.words == (if spec.telemetry == Some("exhaustive") then ["--limit-name-in-labels"] else [])
                    + Verbose(if spec.verbosity.Some? then spec.verbosity.value else 0)
                    + ["/home/limitador/etc/limitador-config.yaml"] + StorageWords(spec)
  {
    hide OptionsOf, InvocationOf, Print, IsStorage, Itoa, Decimal, VALUED, Read, PrintStorage, NamedValues, Gives,
         StorageWords, Verbose, Limitador.HTTPPort, Limitador.GRPCPort, GLOBAL_FLAGS;
    var i, f := InvocationOf(lim), GLOBAL_FLAGS;
    CommandByPriority(lim);
    InvocationParts(lim);
    var s := Read(PrintStorage(i.storage));
    StorageCommandRead(lim.spec, i.storage);
    StorageFlagsApart(f);
    GlobalNames(f);
    ReadsPrint(i, f);
    NamedGives(s, f, i);
    SameValues(NamedValues(s, f, i), Read(Print(i)));
  }

  lemma SameValues(r: Reading, q: Reading)
    requires r.values == q.values
    ensures forall flag, v :: Gives(r, flag, v) ==> Gives(q, flag, v)
  {
  }

  // ---------- the secret ----------

  predicate RedisSet(spec: LimitadorSpec) {
    StorageSet(spec).redis.Some? || StorageSet(spec).redisCached.Some?
  }

  /** The secret of plain Redis when that is set, otherwise that of cached Redis. */
  function SecretSet(spec: LimitadorSpec): Option<string>
    requires RedisSet(spec)
  {
    var s := StorageSet(spec);
    if s.redis.Some? then s.redis.value.configSecretRef else s.redisCached.value.configSecretRef
  }

  lemma SecretByPriority(lim: Limitador)
    ensures UsesRedis(SelectedStorage(lim.spec)) <==> RedisSet(lim.spec)
    ensures RedisSet(lim.spec) ==> SecretRef(SelectedStorage(lim.spec)) == SecretSet(lim.spec)
    ensures !RedisSet(lim.spec) ==> SecretRef(SelectedStorage(lim.spec)) == None
  {
  }

  /** Before a Deployment is built nothing is checked without Redis, and with it the secret of the Redis storage used:
      it must be named, be read, and hold a `URL`; each failure has its own error. */
  lemma SecretCheckExactly(w: World, lim: Limitador)
    ensures var done := Exec(w, StorageCheck(lim));
      && (!RedisSet(lim.spec) ==> done == (w, None))
      && (RedisSet(lim.spec) && SecretSet(lim.spec).None? ==>
            done == (w, Some(Failed("there's no ConfigSecretRef set"))))
      && (RedisSet(lim.spec) && SecretSet(lim.spec).Some? ==>
            done == (Before(w), SecretFault(w, Key(Secret, lim.namespace, SecretSet(lim.spec).value))))
  {
    hide Before, Stored, SelectedStorage, SecretSet, RedisSet;
    SecretByPriority(lim);
    if RedisSet(lim.spec) {
      if SecretSet(lim.spec).None? {
        FailStops(w, NO_SECRET_REF);
      } else {
        var k := Key(Secret, lim.namespace, SecretSet(lim.spec).value);
        SingleAction(w, DemandURL(k));
      }
    }
  }

  function SecretFault(w: World, k: Key): Option<Error> {
    match FaultOf(w)
    case Rejected(m) => Some(Failed(m))
    case ReplyLost(m) => Some(Failed(m))
    case NoFault =>
      var secret := Stored(Before(w), k);
      if secret.None? then Some(NotFound(k.name + " not found"))
      else if At(At(Root, Data), Item("URL")) in secret.value.content.fields then None
      else Some(Failed("the storage config Secret doesn't have the `URL` field"))
  }

  /** The variable that the printed URL refers to is bound to the `URL` of that secret. */
  lemma VariableByPriority(lim: Limitador)
    ensures var d := DeploymentManifest(lim).Desired();
      var p := At(At(CONTAINER, Env), Item("LIMITADOR_OPERATOR_REDIS_URL"));
      RedisSet(lim.spec) && SecretSet(lim.spec).Some? ==> Has(d, p, SecretKey(SecretSet(lim.spec).value, "URL"))
  {
    hide DeploymentManifest, OptionsOf, Parse, SelectedStorage, SecretRef, Has;
    SecretByPriority(lim);
    StorageReachesTheServer(lim);
    ArgumentsAndEnvironment(lim);
  }

  // ---------- ports ----------

  /** The ports are those of the listener, and 8080 and 8081 where it names none. */
  lemma PortsChosen(lim: Limitador)
    ensures var listener := lim.spec.listener.GetOr(Listener(None, None));
      && lim.HTTPPort() == listener.http.GetOr(TransportProtocol(None)).port.GetOr(8080)
      && lim.GRPCPort() == listener.grpc.GetOr(TransportProtocol(None)).port.GetOr(8081)
  {
  }

  // ---------- names, labels, owner ----------

  lemma ObjectNames(lim: Limitador)
    ensures var ns := lim.namespace; var name := "limitador-" + lim.name;
      && ServiceManifest(lim).key == Key(Service, ns, name)
      && PvcManifest(lim).key == Key(PersistentVolumeClaim, ns, name)
      && DeploymentManifest(lim).key == Key(Kind.Deployment, ns, name)
      && ConfigMapManifest(lim).key == Key(ConfigMap, ns, "limitador-limits-config-" + lim.name)
      && PdbManifest(lim).key == Key(Kind.PodDisruptionBudget, ns, name)
  {
    hide CommonFields, SelectorLabels, DeploymentFields, ServicePorts, ClaimDefaults, ClaimFields, OptionalField;
  }

  /** The seven labels stand below `parent`. */
  predicate SevenLabels(fields: FieldMap, parent: Path, lim: Limitador) {
    && Has(fields, At(parent, App), Text("limitador"))
    && Has(fields, At(parent, LimitadorResource), Text(lim.name))
    && Has(fields, At(parent, AppName), Text("limitador"))
    && Has(fields, At(parent, AppInstance), Text(lim.name))
    && Has(fields, At(parent, AppComponent), Text("limitador"))
    && Has(fields, At(parent, AppManagedBy), Text("limitador-operator"))
    && Has(fields, At(parent, AppPartOf), Text("kuadrant"))
  }

  /** Labels and owner of every object of the operator. */
  predicate Branded(fields: FieldMap, lim: Limitador) {
    && SevenLabels(fields, At(At(Root, Metadata), Segment.Labels), lim)
    && Has(fields, At(At(At(Root, Metadata), OwnerReferences), Item(lim.name)), Struct)
  }

  lemma LabelsAre(parent: Path, lim: Limitador)
    ensures SevenLabels(K8sObjects.Labels(parent, lim), parent, lim)
  {
  }

  lemma CommonBranded(lim: Limitador)
    ensures Branded(CommonFields(lim), lim) && OffCommon(SelectorLabels(At(SPEC, Selector), lim))
    ensures Branded(CommonFields(lim) + SelectorLabels(At(SPEC, Selector), lim), lim)
  {
    hide K8sObjects.Labels, SevenLabels;
    LabelsAre(LABELS, lim);
    var owner := map[At(At(METADATA, OwnerReferences), Item(lim.name)) := Struct];
    SevenLabelsPlus(K8sObjects.Labels(LABELS, lim), owner, LABELS, lim);
    BrandedPlus(CommonFields(lim), SelectorLabels(At(SPEC, Selector), lim), lim);
  }

  lemma SevenLabelsPlus(a: FieldMap, b: FieldMap, parent: Path, lim: Limitador)
    requires SevenLabels(a, parent, lim) && forall p | p in b :: !(p.At? && p.parent == parent)
    ensures SevenLabels(a + b, parent, lim)
  {
  }

  lemma BrandedPlus(a: FieldMap, b: FieldMap, lim: Limitador)
    requires Branded(a, lim) && OffCommon(b)
    ensures Branded(a + b, lim)
  {
    hide SevenLabels;
    SevenLabelsPlus(a, b, LABELS, lim);
  }

  /** Every object the operator wants carries the seven labels and has the resource as its owner, and so do the pods
      of the Deployment carry the labels. */
  lemma EveryObjectBranded(lim: Limitador)
    ensures Branded(ServiceManifest(lim).Desired(), lim) && Branded(ConfigMapManifest(lim).Desired(), lim)
    ensures Branded(DeploymentManifest(lim).Desired(), lim)
    ensures SevenLabels(DeploymentManifest(lim).Desired(), At(TEMPLATE, Segment.Labels), lim)
    ensures lim.spec.podDisruptionBudget.Some? ==> Branded(PdbManifest(lim).Desired(), lim)
    ensures lim.spec.storage.Some? && lim.spec.storage.value.disk.Some? ==> Branded(PvcManifest(lim).Desired(), lim)
  {
    hide Branded, SevenLabels, CommonFields, SelectorLabels, ServicePorts, DeploymentFields, OffCommon, NoSelector,
         PdbManifest, PvcManifest, OptionsOf, ImageOf, ForwardedPorts;
    CommonBranded(lim);
    UntaggedDesired(ServiceManifest(lim));
    UntaggedDesired(ConfigMapManifest(lim));
    UntaggedDesired(DeploymentManifest(lim));
    PortsForwarded(lim);
    BrandedPlus(CommonFields(lim) + SelectorLabels(At(SPEC, Selector), lim), ServicePorts(lim), lim);
    LimitsBranded(lim);
    DeploymentBranded(lim, ImageOf(lim), OptionsOf(lim));
    PodsBranded(lim, ImageOf(lim), OptionsOf(lim));
    BudgetBranded(lim);
    ClaimBranded(lim);
  }

  lemma LimitsBranded(lim: Limitador)
    ensures Branded(ConfigMapManifest(lim).fields, lim)
  {
    hide Branded, CommonFields, Limitador.Limits;
    CommonBranded(lim);
    BrandedPlus(CommonFields(lim), map[At(At(Root, Data), LimitsFile) := Opaque(lim.Limits())], lim);
  }

  lemma DeploymentBranded(lim: Limitador, image: string, o: DeploymentOptions)
    ensures Branded(DeploymentFields(lim, image, o), lim)
  {
    hide Branded, NoSelector, OffCommon, CommonFields, SelectorLabels, TemplateFields, ContainerFields, StrategyFields;
    CommonBranded(lim);
    DeploymentPartsOffHead(lim, image, o);
    var base := CommonFields(lim) + SelectorLabels(At(SPEC, Selector), lim);
    BrandedPlus(base, TemplateFields(lim, o), lim);
    BrandedPlus(base + TemplateFields(lim, o), ContainerFields(lim, image, o), lim);
    BrandedPlus(base + TemplateFields(lim, o) + ContainerFields(lim, image, o), StrategyFields(o.strategy), lim);
    BrandedPlus(base + TemplateFields(lim, o) + ContainerFields(lim, image, o) + StrategyFields(o.strategy),
                map[REPLICAS := Number(lim.GetReplicas())], lim);
  }

  lemma PodsBranded(lim: Limitador, image: string, o: DeploymentOptions)
    ensures SevenLabels(DeploymentFields(lim, image, o), At(TEMPLATE, Segment.Labels), lim)
  {
    hide DeploymentFields, TemplateFields, Has;
    var labels := At(TEMPLATE, Segment.Labels);
    TemplateBranded(lim, o);
    TemplateInDeployment(lim, image, o, At(labels, App), Text("limitador"));
    TemplateInDeployment(lim, image, o, At(labels, LimitadorResource), Text(lim.name));
    TemplateInDeployment(lim, image, o, At(labels, AppName), Text("limitador"));
    TemplateInDeployment(lim, image, o, At(labels, AppInstance), Text(lim.name));
    TemplateInDeployment(lim, image, o, At(labels, AppComponent), Text("limitador"));
    TemplateInDeployment(lim, image, o, At(labels, AppManagedBy), Text("limitador-operator"));
    TemplateInDeployment(lim, image, o, At(labels, AppPartOf), Text("kuadrant"));
  }

  lemma TemplateBranded(lim: Limitador, o: DeploymentOptions)
    ensures SevenLabels(TemplateFields(lim, o), At(TEMPLATE, Segment.Labels), lim)
  {
    hide SevenLabels, VolumeFields, OptionalField, K8sObjects.Labels;
    OptionalElsewhere(lim);
    var parent := At(TEMPLATE, Segment.Labels);
    LabelsAre(parent, lim);
    var labels := K8sObjects.Labels(parent, lim);
    var affinity := OptionalField(At(TEMPLATE, Affinity), lim.spec.affinity);
    var secrets: FieldMap :=
      if o.imagePullSecrets == [] then map[] else map[At(TEMPLATE, ImagePullSecrets) := Texts(o.imagePullSecrets)];
    SevenLabelsPlus(labels, affinity, parent, lim);
    SevenLabelsPlus(labels + affinity, secrets, parent, lim);
    SevenLabelsPlus(labels + affinity + secrets, VolumeFields(o.volumes), parent, lim);
  }

  lemma OptionalOffCommon(p: Path, v: Option<string>)
    requires p.At? && p.parent == SPEC
    ensures OffCommon(OptionalField(p, v))
  {
  }

  lemma BudgetBranded(lim: Limitador)
    ensures lim.spec.podDisruptionBudget.Some? ==> Branded(PdbManifest(lim).Desired(), lim)
  {
    hide Branded, CommonFields, SelectorLabels, OptionalField, OffCommon;
    if lim.spec.podDisruptionBudget.Some? {
      var b := lim.spec.podDisruptionBudget.value;
      UntaggedDesired(PdbManifest(lim));
      CommonBranded(lim);
      var upper := OptionalField(MAX_UNAVAILABLE, b.maxUnavailable);
      var lower := OptionalField(MIN_AVAILABLE, b.minAvailable);
      OptionalOffCommon(MAX_UNAVAILABLE, b.maxUnavailable);
      OptionalOffCommon(MIN_AVAILABLE, b.minAvailable);
      BrandedPlus(PdbBase(lim).fields, upper, lim);
      BrandedPlus(PdbBase(lim).fields + upper, lower, lim);
    }
  }

  lemma ClaimBranded(lim: Limitador)
    ensures lim.spec.storage.Some? && lim.spec.storage.value.disk.Some? ==> Branded(PvcManifest(lim).Desired(), lim)
  {
    hide Branded, CommonFields, ClaimDefaults, ClaimFields, OffCommon;
    if HasDisk(lim.spec) {
      UntaggedDesired(PvcManifest(lim));
      CommonBranded(lim);
      ClaimOffCommon(lim.spec.storage.value.disk.value.pvc.GetOr(PVCGenericSpec(None, None, None)));
      BrandedPlus(CommonFields(lim), ClaimDefaults(), lim);
      if lim.spec.storage.value.disk.value.pvc.Some? {
        BrandedPlus(PvcBase(lim).fields, ClaimFields(lim.spec.storage.value.disk.value.pvc.value), lim);
      }
    }
  }

  lemma ClaimOffCommon(pvc: PVCGenericSpec)
    ensures OffCommon(ClaimDefaults()) && OffCommon(ClaimFields(pvc))
  {
  }

  // ---------- the Service and the Deployment ----------

  /** A headless Service. */
  lemma ServiceIsHeadless(lim: Limitador)
    ensures var s := ServiceManifest(lim).Desired();
      Has(s, At(SPEC, ClusterIP), Text("None")) && Has(s, At(SPEC, Type), Text("ClusterIP"))
  {
    hide CommonFields, SelectorLabels, ServicePorts, Has;
    UntaggedDesired(ServiceManifest(lim));
    Headless(lim);
    var front := CommonFields(lim) + SelectorLabels(At(SPEC, Selector), lim);
    HasLater(front, ServicePorts(lim), At(SPEC, ClusterIP), Text("None"));
    HasLater(front, ServicePorts(lim), At(SPEC, Type), Text("ClusterIP"));
  }

  lemma Headless(lim: Limitador)
    ensures Has(ServicePorts(lim), At(SPEC, ClusterIP), Text("None"))
    ensures Has(ServicePorts(lim), At(SPEC, Type), Text("ClusterIP"))
  {
    hide Limitador.HTTPPort, Limitador.GRPCPort;
  }

  /** Image, command, resources and number of replicas of the container. */
  lemma DeploymentContents(lim: Limitador)
    ensures var d := DeploymentManifest(lim).Desired(); var spec := lim.spec;
      && Has(d, At(CONTAINER, Image), Text(
           if spec.image.Some? then spec.image.value
           else if spec.version.Some? then "quay.io/kuadrant/limitador:" + spec.version.value
           else "quay.io/kuadrant/limitador:latest"))
      && Has(d, At(CONTAINER, Command), Texts(["limitador-server"]))
      && Has(d, At(CONTAINER, ImagePullPolicy), Text("IfNotPresent"))
      && Has(d, At(CONTAINER, Resources), Opaque(
           if spec.resourceRequirements.Some? then spec.resourceRequirements.value else "default"))
      && Has(d, At(SPEC, Replicas), Number(lim.GetReplicas()))
      && Has(d, At(At(SPEC, Strategy), Type), Text(if DiskSelected(spec) then "Recreate" else "RollingUpdate"))
  {
    hide DeploymentFields, OptionsOf, ImageOf, ContainerBase, Has;
    UntaggedDesired(DeploymentManifest(lim));
    var image, o := ImageOf(lim), OptionsOf(lim);
    ImageChosen(lim);
    BaseSettings(lim, image, o.args);
    BaseInDeployment(lim, image, o, At(CONTAINER, Image), Text(image));
    BaseInDeployment(lim, image, o, At(CONTAINER, Command), Texts(["limitador-server"]));
    BaseInDeployment(lim, image, o, At(CONTAINER, ImagePullPolicy), Text("IfNotPresent"));
    BaseInDeployment(lim, image, o, At(CONTAINER, Resources), ResourcesOf(lim));
    StrategySettings(lim, image, o);
  }

  function ResourcesOf(lim: Limitador): Value {
    Opaque(if lim.spec.resourceRequirements.Some? then lim.spec.resourceRequirements.value else "default")
  }

  lemma ImageChosen(lim: Limitador)
    ensures ImageOf(lim) ==
      if lim.spec.image.Some? then lim.spec.image.value
      else if lim.spec.version.Some? then "quay.io/kuadrant/limitador:" + lim.spec.version.value
      else "quay.io/kuadrant/limitador:latest"
  {
    assert LIMITADOR_REPOSITORY + ":" == "quay.io/kuadrant/limitador:";
  }

  lemma BaseSettings(lim: Limitador, image: string, args: seq<string>)
    ensures var base := ContainerBase(lim, image, args);
      && Has(base, At(CONTAINER, Image), Text(image))
      && Has(base, At(CONTAINER, Command), Texts(["limitador-server"]))
      && Has(base, At(CONTAINER, ImagePullPolicy), Text("IfNotPresent"))
      && Has(base, At(CONTAINER, Resources), ResourcesOf(lim))
  {
    hide Limitador.HTTPPort, Limitador.GRPCPort;
  }

  lemma StrategySettings(lim: Limitador, image: string, o: DeploymentOptions)
    requires o == OptionsOf(lim)
    ensures var d := DeploymentFields(lim, image, o);
      && Has(d, At(SPEC, Replicas), Number(lim.GetReplicas()))
      && Has(d, At(At(SPEC, Strategy), Type), Text(if DiskSelected(lim.spec) then "Recreate" else "RollingUpdate"))
  {
    hide DeploymentFields, OptionsOf;
    StrategyInDeployment(lim, image, o);
    ChoiceOfStrategy(lim);
  }

  /** The affinity and the pull secrets of the resource are those of the pods, and without one there is none. */
  lemma PodSettings(lim: Limitador)
    ensures var d := DeploymentManifest(lim).Desired(); var secrets := lim.spec.imagePullSecrets;
      && StandsFor(d, At(TEMPLATE, Affinity), lim.spec.affinity)
      && (At(TEMPLATE, ImagePullSecrets) in d <==> secrets != [])
      && (secrets != [] ==> Has(d, At(TEMPLATE, ImagePullSecrets), Texts(secrets)))
  {
    hide CommonFields, SelectorLabels, ContainerFields, StrategyFields, VolumeFields, K8sObjects.Labels, ImageOf,
         OptionsOf, DeploymentManifest, DeploymentFields, TemplateFields;
    var image, o := ImageOf(lim), OptionsOf(lim);
    DeploymentParts(lim);
    OnlyInTemplate(lim, image, o, At(TEMPLATE, Affinity));
    OnlyInTemplate(lim, image, o, At(TEMPLATE, ImagePullSecrets));
    TemplateSettings(lim, o);
  }

  lemma DeploymentParts(lim: Limitador)
    ensures DeploymentManifest(lim).Desired() == DeploymentFields(lim, ImageOf(lim), OptionsOf(lim))
    ensures OptionsOf(lim).imagePullSecrets == lim.spec.imagePullSecrets
  {
    hide DeploymentFields, PrintFlags, StorageOptionsOf, ImageOf;
    UntaggedDesired(DeploymentManifest(lim));
  }

  lemma OnlyInTemplate(lim: Limitador, image: string, o: DeploymentOptions, p: Path)
    requires p in {At(TEMPLATE, Affinity), At(TEMPLATE, ImagePullSecrets)}
    ensures var d := DeploymentFields(lim, image, o); var t := TemplateFields(lim, o);
      (p in d <==> p in t) && (p in t ==> d[p] == t[p])
  {
    hide TemplateFields, ContainerFields, CommonFields, SelectorLabels, StrategyFields;
    NotInOtherParts(lim, image, o, p);
  }

  lemma NotInOtherParts(lim: Limitador, image: string, o: DeploymentOptions, p: Path)
    requires p in {At(TEMPLATE, Affinity), At(TEMPLATE, ImagePullSecrets)}
    ensures p !in CommonFields(lim) && p !in SelectorLabels(At(SPEC, Selector), lim)
    ensures p !in ContainerFields(lim, image, o) && p !in StrategyFields(o.strategy) && p != REPLICAS
  {
    hide EnvFields, MountFields, ContainerBase;
    BaseParents(lim, image, o.args);
  }

  lemma TemplateSettings(lim: Limitador, o: DeploymentOptions)
    ensures var t := TemplateFields(lim, o);
      && StandsFor(t, At(TEMPLATE, Affinity), lim.spec.affinity)
      && (At(TEMPLATE, ImagePullSecrets) in t <==> o.imagePullSecrets != [])
      && (o.imagePullSecrets != [] ==> Has(t, At(TEMPLATE, ImagePullSecrets), Texts(o.imagePullSecrets)))
  {
    hide VolumeFields, APP_NAME;
  }
}
