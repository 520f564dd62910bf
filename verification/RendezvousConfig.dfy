/**
  Startup configuration of the rendezvous service (apps/rendezvous-service/src/config.rs) and the
  checks on a failover package (failover.rs). Decryption, URL and number parsing and opening the
  cluster registry are parameters; so are the relay and admission sections, which can only reject.
  */
module RendezvousConfig {
  import opened Wrappers
  import opened Text

  type Lookup = string -> Option<string>

  datatype Args = Args(bind: Option<string>, packagePath: Option<string>)

  datatype Ids = Ids(cluster: string, sourceNode: string, targetNode: Option<string>)

  datatype Envelope = Envelope(version: nat, ids: Ids, publicUrl: string)

  datatype Payload = Payload(ids: Ids, publicUrl: string, clientCa: Option<string>, cert: string, key: string)

  datatype Package = Package(envelope: Envelope, payload: Payload)

  datatype Authority = InlineCa(pem: string) | FileCa(path: string)

  datatype ServerIdentity = InlineIdentity(cert: string, key: string) | FileIdentity(certPath: string, keyPath: string)

  datatype Mtls =
    | Global(registry: string, adminToken: string, ratePerMinute: nat, challengeSeconds: nat, maxPending: nat,
             identity: ServerIdentity)
    | Cluster(ca: Authority, identity: ServerIdentity)

  datatype Config = Config(
    bind: string, publicUrl: string, relayUrls: seq<string>, mtls: Option<Mtls>,
    allowInsecure: bool, failover: Option<Package>)

  datatype Tools = Tools(
    trim: string -> string,
    isHttps: string -> bool,
    parseBind: string -> Option<string>,
    parseNumber: (nat, string) -> Option<nat>,            // width in bits, text
    splitUrls: string -> seq<string>,                     // comma-separated, trimmed, without empty parts
    open: (string, string) -> Result<Package>,            // path, passphrase: read, parse and decrypt
    opensRegistry: string -> bool,
    acceptsRest: (Lookup, string, bool, Option<Mtls>) -> bool)

  const FAILOVER_VERSION := 1
  const PREFIX := "BERRYKEEP_RENDEZVOUS_"

  function Normalised(tools: Tools, url: string): string {
    TrimSlashes(tools.trim(url))
  }

  /** `decrypt_rendezvous_failover_package`: the envelope must repeat what the payload says. */
  function OpenPackage(tools: Tools, path: string, passphrase: string): Result<Package> {
    var p :- tools.open(path, passphrase);
    if p.envelope.version != FAILOVER_VERSION then Err("unsupported failover package version")
    else if p.payload.ids != p.envelope.ids then Err("failover package ids mismatch")
    else if Normalised(tools, p.payload.publicUrl) != Normalised(tools, p.envelope.publicUrl)
    then Err("failover package public URL mismatch")
    else Ok(p)
  }

  function LoadFailover(tools: Tools, args: Args, passphrase: Option<string>): Result<Option<Package>> {
    if args.packagePath.None? then
      if passphrase.Some? then Err("passphrase without a failover package") else Ok(None)
    else if args.bind.None? then Err("a bind address is required with a failover package")
    else if passphrase.None? then Err("failover package without a passphrase")
    else
      var p :- OpenPackage(tools, args.packagePath.value, passphrase.value);
      Ok(Some(p))
  }

  function BindAddress(tools: Tools, args: Args, env: Lookup): Result<string> {
    if args.bind.Some? then Ok(args.bind.value)
    else
      var parsed := tools.parseBind(env(PREFIX + "BIND").GetOr("127.0.0.1:19090"));
      if parsed.Some? then Ok(parsed.value) else Err("invalid bind address")
  }

  function PublicUrl(tools: Tools, configured: Option<string>, failover: Option<Package>, bind: string): Result<string> {
    if configured.Some? then
      if failover.Some?
         && Normalised(tools, configured.value) != Normalised(tools, failover.value.envelope.publicUrl)
      then Err("public URL does not match the failover package") else Ok(configured.value)
    else if failover.Some? then Ok(failover.value.envelope.publicUrl)
    else Ok("http://" + bind)
  }

  function RelayUrls(tools: Tools, configured: Option<string>, publicUrl: string): seq<string> {
    if configured.Some? && tools.splitUrls(configured.value) != [] then tools.splitUrls(configured.value)
    else [publicUrl]
  }

  predicate AllHttps(tools: Tools, publicUrl: string, relayUrls: seq<string>) {
    tools.isHttps(publicUrl) && forall u :: u in relayUrls ==> tools.isHttps(u)
  }

  function Positive(tools: Tools, width: nat, text: Option<string>, default: nat): (r: Result<nat>)
    ensures r.Ok? ==> r.value > 0
  {
    var value := if text.Some? then tools.parseNumber(width, text.value) else Some(default);
    if value.None? then Err("invalid number")
    else if value.value == 0 then Err("must be greater than zero")
    else Ok(value.value)
  }

  predicate Truthy(text: string) {
    text in {"1", "true", "TRUE", "yes", "YES"}
  }

  /** `parse_bool_env`, with absence meaning false. */
  function Flag(tools: Tools, text: Option<string>): Result<bool> {
    if text.None? then Ok(false)
    else if Truthy(tools.trim(text.value)) then Ok(true)
    else if tools.trim(text.value) in {"0", "false", "FALSE", "no", "NO"} then Ok(false)
    else Err("expected true or false")
  }

  function Filled(tools: Tools, text: Option<string>): (r: Result<string>)
    ensures r.Ok? ==> tools.trim(r.value) != ""
  {
    if text.Some? && tools.trim(text.value) != "" then Ok(text.value) else Err("must not be empty")
  }

  /** The registry, token, limits and certificate of a global registration. */
  function GlobalSettings(tools: Tools, env: Lookup): (r: Result<Mtls>)
    ensures r.Ok? ==> r.value.Global? && tools.trim(r.value.adminToken) != ""
    ensures r.Ok? ==> r.value.ratePerMinute > 0 && r.value.challengeSeconds > 0 && r.value.maxPending > 0
  {
    var registry :- Filled(tools, env(PREFIX + "GLOBAL_CLUSTER_REGISTRY"));
    var token :- Filled(tools, env(PREFIX + "GLOBAL_ADMIN_TOKEN"));
    var rate :- Positive(tools, 32, env(PREFIX + "GLOBAL_REGISTRATION_RATE_LIMIT_PER_MINUTE"), 10);
    var ttl :- Positive(tools, 64, env(PREFIX + "GLOBAL_CHALLENGE_TTL_SECS"), 300);
    var pending :- Positive(tools, 64, env(PREFIX + "GLOBAL_MAX_PENDING_CHALLENGES"), 1024);
    var cert, key := env(PREFIX + "TLS_CERT"), env(PREFIX + "TLS_KEY");
    if cert.None? || key.None? then Err("global registration requires a certificate and a key")
    else if !tools.opensRegistry(registry) then Err("cannot open the cluster registry")
    else Ok(Global(registry, token, rate, ttl, pending, FileIdentity(cert.value, key.value)))
  }

  /** `build_global_mtls_config` */
  function BuildGlobal(
    tools: Tools, env: Lookup, enabled: bool, failover: Option<Package>, allowInsecure: bool,
    publicUrl: string, relayUrls: seq<string>): Result<Option<Mtls>>
  {
    if !enabled then Err("global settings require global registration")
    else if env(PREFIX + "CLIENT_CA_CERT").Some? then Err("client CA cannot be combined with global registration")
    else if failover.Some? then Err("global registration cannot use a failover package")
    else if allowInsecure then Err("insecure HTTP cannot be enabled for global registration")
    else if !AllHttps(tools, publicUrl, relayUrls) then Err("global registration requires HTTPS URLs")
    else
      var mtls :- GlobalSettings(tools, env);
      Ok(Some(mtls))
  }

  /** `build_mtls_config` */
  function BuildCluster(env: Lookup, failover: Option<Package>): Result<Option<Mtls>> {
    var ca, cert, key := env(PREFIX + "CLIENT_CA_CERT"), env(PREFIX + "TLS_CERT"), env(PREFIX + "TLS_KEY");
    if failover.Some? then
      var payload := failover.value.payload;
      if cert.Some? || key.Some? then Err("certificate and key cannot be combined with a failover package")
      else if payload.clientCa.Some? then
        Ok(Some(Cluster(InlineCa(payload.clientCa.value), InlineIdentity(payload.cert, payload.key))))
      else if ca.Some? then
        Ok(Some(Cluster(FileCa(ca.value), InlineIdentity(payload.cert, payload.key))))
      else Err("legacy failover packages require a client CA")
    else if ca.Some? && cert.Some? && key.Some? then
      Ok(Some(Cluster(FileCa(ca.value), FileIdentity(cert.value, key.value))))
    else if ca.None? && cert.None? && key.None? then Ok(None)
    else Err("client CA, certificate and key must be set together")
  }

  predicate GlobalSettingsPresent(env: Lookup, enabled: bool) {
    || enabled
    || env(PREFIX + "GLOBAL_CLUSTER_REGISTRY").Some?
    || env(PREFIX + "GLOBAL_ADMIN_TOKEN").Some?
    || env(PREFIX + "GLOBAL_REGISTRATION_RATE_LIMIT_PER_MINUTE").Some?
    || env(PREFIX + "GLOBAL_CHALLENGE_TTL_SECS").Some?
    || env(PREFIX + "GLOBAL_MAX_PENDING_CHALLENGES").Some?
  }

  function AllowsInsecure(tools: Tools, env: Lookup): bool {
    var text := env(PREFIX + "ALLOW_INSECURE_HTTP");
    text.Some? && Truthy(tools.trim(text.value))
  }

  /** `from_lookup` up to the security gate. */
  function Assemble(tools: Tools, args: Args, env: Lookup): Result<Config> {
    var failover :- LoadFailover(tools, args, env(PREFIX + "FAILOVER_PASSPHRASE"));
    var bind :- BindAddress(tools, args, env);
    var publicUrl :- PublicUrl(tools, env(PREFIX + "PUBLIC_URL"), failover, bind);
    var relayUrls := RelayUrls(tools, env("BERRYKEEP_RELAY_PUBLIC_URLS"), publicUrl);
    var allowInsecure := AllowsInsecure(tools, env);
    var enabled :- Flag(tools, env(PREFIX + "GLOBAL_REGISTRATION_ENABLED"));
    var mtls :- if GlobalSettingsPresent(env, enabled)
                then BuildGlobal(tools, env, enabled, failover, allowInsecure, publicUrl, relayUrls)
                else BuildCluster(env, failover);
    if !tools.acceptsRest(env, publicUrl, allowInsecure, mtls) then Err("relay or admission settings rejected")
    else Ok(Config(bind, publicUrl, relayUrls, mtls, allowInsecure, failover))
  }

  /** `validate_startup_security` */
  predicate SecurityGate(tools: Tools, c: Config) {
    if c.mtls.Some? && c.mtls.value.Global? then
      !c.allowInsecure && c.failover.None? && AllHttps(tools, c.publicUrl, c.relayUrls)
    else c.mtls.Some? || c.allowInsecure
  }

  /** `from_lookup` */
  function FromLookup(tools: Tools, args: Args, env: Lookup): Result<Config> {
    var c :- Assemble(tools, args, env);
    if SecurityGate(tools, c) then Ok(c) else Err("refusing insecure startup")
  }

  // ---------------------------------------------------------------------------
  // What acceptance guarantees
  // ---------------------------------------------------------------------------

  /** One public URL, up to normalisation, in the configuration, the envelope and the payload. */
  ghost predicate FailoverAgrees(tools: Tools, args: Args, env: Lookup, c: Config) {
    c.failover.Some? ==>
      && args.packagePath.Some? && args.bind == Some(c.bind)
      && Normalised(tools, c.publicUrl) == Normalised(tools, c.failover.value.envelope.publicUrl)
      && Normalised(tools, c.publicUrl) == Normalised(tools, c.failover.value.payload.publicUrl)
      && c.failover.value.envelope.ids == c.failover.value.payload.ids
      && c.mtls.Some? && c.mtls.value.Cluster?
      && c.mtls.value.identity == InlineIdentity(c.failover.value.payload.cert, c.failover.value.payload.key)
  }

  ghost predicate GlobalIsStrict(tools: Tools, c: Config) {
    c.mtls.Some? && c.mtls.value.Global? ==>
      && AllHttps(tools, c.publicUrl, c.relayUrls) && !c.allowInsecure && c.failover.None?
      && tools.trim(c.mtls.value.adminToken) != ""
      && c.mtls.value.ratePerMinute > 0 && c.mtls.value.challengeSeconds > 0 && c.mtls.value.maxPending > 0
  }

  lemma FailoverLoaded(tools: Tools, args: Args, passphrase: Option<string>)
    ensures var r := LoadFailover(tools, args, passphrase);
            r.Ok? ==>
              && (r.value.Some? <==> args.packagePath.Some?)
              && (r.value.Some? ==>
                    && args.bind.Some?
                    && r.value.value.envelope.ids == r.value.value.payload.ids
                    && Normalised(tools, r.value.value.envelope.publicUrl)
                       == Normalised(tools, r.value.value.payload.publicUrl))
  {
  }

  lemma GlobalBuilt(
    tools: Tools, env: Lookup, enabled: bool, failover: Option<Package>, allowInsecure: bool,
    publicUrl: string, relayUrls: seq<string>)
    ensures var r := BuildGlobal(tools, env, enabled, failover, allowInsecure, publicUrl, relayUrls);
            r.Ok? ==>
              && r.value.Some? && r.value.value.Global? && failover.None? && !allowInsecure
              && AllHttps(tools, publicUrl, relayUrls) && tools.trim(r.value.value.adminToken) != ""
              && r.value.value.ratePerMinute > 0 && r.value.value.challengeSeconds > 0 && r.value.value.maxPending > 0
  {
    hide AllHttps, GlobalSettings;
  }

  /** Where a cluster configuration takes its client authority and its identity from, and when there is none. */
  ghost predicate FromItsSources(env: Lookup, failover: Option<Package>, mtls: Option<Mtls>) {
    var ca := env("BERRYKEEP_RENDEZVOUS_CLIENT_CA_CERT");
    var (cert, key) := (env("BERRYKEEP_RENDEZVOUS_TLS_CERT"), env("BERRYKEEP_RENDEZVOUS_TLS_KEY"));
    if failover.Some? then
      var payload := failover.value.payload;
      && cert.None? && key.None?
      && mtls.Some? && mtls.value.Cluster? && mtls.value.identity == InlineIdentity(payload.cert, payload.key)
      && (payload.clientCa.Some? ==> mtls.value.ca == InlineCa(payload.clientCa.value))
      && (payload.clientCa.None? ==> ca.Some? && mtls.value.ca == FileCa(ca.value))
    else if mtls.Some? then
      && ca.Some? && cert.Some? && key.Some?
      && mtls.value == Cluster(FileCa(ca.value), FileIdentity(cert.value, key.value))
    else ca.None? && cert.None? && key.None?
  }

  /** A cluster configuration is built exactly from the sources it may come from. */
  lemma ClusterBuilt(env: Lookup, failover: Option<Package>, mtls: Option<Mtls>)
    ensures BuildCluster(env, failover) == Ok(mtls) <==> FromItsSources(env, failover, mtls)
  {
    KeyNames();
  }

  lemma KeyNames()
    ensures PREFIX + "CLIENT_CA_CERT" == "BERRYKEEP_RENDEZVOUS_CLIENT_CA_CERT"
    ensures PREFIX + "TLS_CERT" == "BERRYKEEP_RENDEZVOUS_TLS_CERT"
    ensures PREFIX + "TLS_KEY" == "BERRYKEEP_RENDEZVOUS_TLS_KEY"
  {
  }

  /** Every configuration that can be assembled already has the properties of its kind. */
  lemma AssembledIsSound(tools: Tools, args: Args, env: Lookup)
    ensures var r := Assemble(tools, args, env);
            r.Ok? ==> FailoverAgrees(tools, args, env, r.value) && GlobalIsStrict(tools, r.value)
  {
    hide LoadFailover, BuildGlobal, BuildCluster, GlobalSettingsPresent, AllHttps, Normalised, RelayUrls, Flag,
         AllowsInsecure;
    var r := Assemble(tools, args, env);
    if r.Ok? {
      var c := r.value;
      FailoverLoaded(tools, args, env(PREFIX + "FAILOVER_PASSPHRASE"));
      ClusterBuilt(env, c.failover, c.mtls);
      GlobalBuilt(tools, env, true, c.failover, c.allowInsecure, c.publicUrl, c.relayUrls);
      GlobalBuilt(tools, env, false, c.failover, c.allowInsecure, c.publicUrl, c.relayUrls);
    }
  }

  /** The gate rejects an assembled configuration exactly when it has neither mTLS nor the opt-in. */
  lemma GateRejectsExactly(tools: Tools, args: Args, env: Lookup)
    ensures var r := Assemble(tools, args, env);
            r.Ok? ==> (SecurityGate(tools, r.value) <==> r.value.mtls.Some? || r.value.allowInsecure)
  {
    AssembledIsSound(tools, args, env);
    hide Assemble, AllHttps, FailoverAgrees;
  }

  /** What every accepted environment guarantees. */
  lemma AcceptedIsSound(tools: Tools, args: Args, env: Lookup)
    ensures var r := FromLookup(tools, args, env);
            r.Ok? ==>
              && (r.value.mtls.None? ==> AllowsInsecure(tools, env) && args.packagePath.None?)
              && FailoverAgrees(tools, args, env, r.value) && GlobalIsStrict(tools, r.value)
              && (args.packagePath.Some? <==> r.value.failover.Some?)
  {
    AssembledIsSound(tools, args, env);
    FailoverLoaded(tools, args, env(PREFIX + "FAILOVER_PASSPHRASE"));
    hide LoadFailover, BuildGlobal, BuildCluster, GlobalSettingsPresent, AllHttps, Normalised, RelayUrls, Flag,
         AllowsInsecure;
  }

  // ---------------------------------------------------------------------------
  // Exactly which environments are accepted, and as what
  // ---------------------------------------------------------------------------

  /** A package is loaded exactly if a path, a passphrase and a bind address are given and it is consistent. */
  ghost predicate FailoverFor(tools: Tools, args: Args, env: Lookup, failover: Option<Package>) {
    var passphrase := env("BERRYKEEP_RENDEZVOUS_FAILOVER_PASSPHRASE");
    && (args.packagePath.Some? <==> failover.Some?) && (args.packagePath.Some? <==> passphrase.Some?)
    && (failover.Some? ==>
          var p := failover.value;
          && args.bind.Some? && tools.open(args.packagePath.value, passphrase.value) == Ok(p)
          && p.envelope.version == 1 && p.payload.ids == p.envelope.ids
          && Normalised(tools, p.payload.publicUrl) == Normalised(tools, p.envelope.publicUrl))
  }

  lemma FailoverIff(tools: Tools, args: Args, env: Lookup, failover: Option<Package>)
    ensures LoadFailover(tools, args, env(PREFIX + "FAILOVER_PASSPHRASE")) == Ok(failover) <==>
            FailoverFor(tools, args, env, failover)
  {
    hide Normalised;
    assert PREFIX + "FAILOVER_PASSPHRASE" == "BERRYKEEP_RENDEZVOUS_FAILOVER_PASSPHRASE";
  }

  /** The address given as an argument, else the one in the environment, else the default. */
  ghost predicate BindFor(tools: Tools, args: Args, env: Lookup, bind: string) {
    var configured := env("BERRYKEEP_RENDEZVOUS_BIND");
    if args.bind.Some? then bind == args.bind.value
    else if configured.Some? then tools.parseBind(configured.value) == Some(bind)
    else tools.parseBind("127.0.0.1:19090") == Some(bind)
  }

  lemma BindIff(tools: Tools, args: Args, env: Lookup, bind: string)
    ensures BindAddress(tools, args, env) == Ok(bind) <==> BindFor(tools, args, env, bind)
  {
    assert PREFIX + "BIND" == "BERRYKEEP_RENDEZVOUS_BIND";
  }

  /** The configured address, else the package's, else one made from the bind address; never in conflict with a package. */
  ghost predicate UrlFor(tools: Tools, env: Lookup, failover: Option<Package>, bind: string, url: string) {
    var configured := env("BERRYKEEP_RENDEZVOUS_PUBLIC_URL");
    && (configured.Some? ==> url == configured.value)
    && (configured.None? && failover.None? ==> url == "http://" + bind)
    && (failover.Some? ==>
          && (configured.None? ==> url == failover.value.envelope.publicUrl)
          && Normalised(tools, url) == Normalised(tools, failover.value.envelope.publicUrl))
  }

  lemma UrlIff(tools: Tools, env: Lookup, failover: Option<Package>, bind: string, url: string)
    ensures PublicUrl(tools, env(PREFIX + "PUBLIC_URL"), failover, bind) == Ok(url) <==>
            UrlFor(tools, env, failover, bind, url)
  {
    hide Normalised;
    assert PREFIX + "PUBLIC_URL" == "BERRYKEEP_RENDEZVOUS_PUBLIC_URL";
  }

  ghost predicate RelaysFor(tools: Tools, env: Lookup, url: string, relays: seq<string>) {
    var configured := env("BERRYKEEP_RELAY_PUBLIC_URLS");
    if exists u :: configured.Some? && u in tools.splitUrls(configured.value)
    then relays == tools.splitUrls(configured.value) else relays == [url]
  }

  lemma RelaysIff(tools: Tools, env: Lookup, url: string, relays: seq<string>)
    ensures RelayUrls(tools, env("BERRYKEEP_RELAY_PUBLIC_URLS"), url) == relays <==> RelaysFor(tools, env, url, relays)
  {
    var configured := env("BERRYKEEP_RELAY_PUBLIC_URLS");
    if configured.Some? && tools.splitUrls(configured.value) != [] {
      assert tools.splitUrls(configured.value)[0] in tools.splitUrls(configured.value);
    }
  }

  ghost predicate Says(tools: Tools, text: Option<string>, words: set<string>) {
    text.Some? && tools.trim(text.value) in words
  }

  lemma FlagIff(tools: Tools, text: Option<string>, value: bool)
    ensures Flag(tools, text) == Ok(value) <==>
            if value then Says(tools, text, {"1", "true", "TRUE", "yes", "YES"})
            else text.None? || Says(tools, text, {"0", "false", "FALSE", "no", "NO"})
  {
  }

  lemma OptInIff(tools: Tools, env: Lookup)
    ensures AllowsInsecure(tools, env) <==>
            Says(tools, env("BERRYKEEP_RENDEZVOUS_ALLOW_INSECURE_HTTP"), {"1", "true", "TRUE", "yes", "YES"})
  {
    assert PREFIX + "ALLOW_INSECURE_HTTP" == "BERRYKEEP_RENDEZVOUS_ALLOW_INSECURE_HTTP";
  }

  /** A positive number that fits, or the default when none is given. */
  ghost predicate NumberFor(tools: Tools, width: nat, text: Option<string>, default: nat, n: nat) {
    n > 0 && if text.Some? then tools.parseNumber(width, text.value) == Some(n) else n == default
  }

  lemma PositiveIff(tools: Tools, width: nat, text: Option<string>, default: nat, n: nat)
    ensures Positive(tools, width, text, default) == Ok(n) <==> NumberFor(tools, width, text, default, n)
  {
  }

  /** A global registration's settings, each from its own variable. */
  ghost predicate GlobalFor(tools: Tools, env: Lookup, g: Mtls) {
    && g.Global? && env(PREFIX + "GLOBAL_CLUSTER_REGISTRY") == Some(g.registry) && tools.trim(g.registry) != ""
    && env(PREFIX + "GLOBAL_ADMIN_TOKEN") == Some(g.adminToken) && tools.trim(g.adminToken) != ""
    && NumberFor(tools, 32, env(PREFIX + "GLOBAL_REGISTRATION_RATE_LIMIT_PER_MINUTE"), 10, g.ratePerMinute)
    && NumberFor(tools, 64, env(PREFIX + "GLOBAL_CHALLENGE_TTL_SECS"), 300, g.challengeSeconds)
    && NumberFor(tools, 64, env(PREFIX + "GLOBAL_MAX_PENDING_CHALLENGES"), 1024, g.maxPending)
    && g.identity.FileIdentity? && env(PREFIX + "TLS_CERT") == Some(g.identity.certPath)
    && env(PREFIX + "TLS_KEY") == Some(g.identity.keyPath) && tools.opensRegistry(g.registry)
  }

  lemma GlobalIff(tools: Tools, env: Lookup, g: Mtls)
    ensures GlobalSettings(tools, env) == Ok(g) <==> GlobalFor(tools, env, g)
  {
    hide Positive, NumberFor;
    if g.Global? {
      PositiveIff(tools, 32, env(PREFIX + "GLOBAL_REGISTRATION_RATE_LIMIT_PER_MINUTE"), 10, g.ratePerMinute);
      PositiveIff(tools, 64, env(PREFIX + "GLOBAL_CHALLENGE_TTL_SECS"), 300, g.challengeSeconds);
      PositiveIff(tools, 64, env(PREFIX + "GLOBAL_MAX_PENDING_CHALLENGES"), 1024, g.maxPending);
    }
  }

  /** The global variables, after the common prefix. */
  const GLOBAL_NAMES := {"GLOBAL_CLUSTER_REGISTRY", "GLOBAL_ADMIN_TOKEN", "GLOBAL_REGISTRATION_RATE_LIMIT_PER_MINUTE",
                         "GLOBAL_CHALLENGE_TTL_SECS", "GLOBAL_MAX_PENDING_CHALLENGES"}

  /** Any of the global variables makes the configuration a global one. */
  lemma GlobalPresentIff(env: Lookup, enabled: bool)
    ensures GlobalSettingsPresent(env, enabled) <==> enabled || exists n :: n in GLOBAL_NAMES && env(PREFIX + n).Some?
  {
  }

  lemma AllHttpsIff(tools: Tools, publicUrl: string, relayUrls: seq<string>)
    ensures AllHttps(tools, publicUrl, relayUrls) <==>
            tools.isHttps(publicUrl) && forall i :: 0 <= i < |relayUrls| ==> tools.isHttps(relayUrls[i])
  {
    assert forall u :: u in relayUrls <==> exists i :: 0 <= i < |relayUrls| && relayUrls[i] == u;
  }

  /** Normalising trims the text and then drops its trailing slashes, no more. */
  lemma NormalisedIs(tools: Tools, url: string) returns (slashes: string)
    ensures tools.trim(url) == Normalised(tools, url) + slashes && (forall c :: c in slashes ==> c == '/')
    ensures var n := Normalised(tools, url); n == "" || n[|n| - 1] != '/'
  {
    slashes := TrimSlashesIs(tools.trim(url));
  }

  /** The mTLS part: global if any global setting is there and then strict, otherwise from certificates or a package. */
  ghost predicate MtlsFor(tools: Tools, env: Lookup, enabled: bool, c: Config) {
    if GlobalSettingsPresent(env, enabled) then
      && enabled && env(PREFIX + "CLIENT_CA_CERT").None? && c.failover.None? && !c.allowInsecure
      && AllHttps(tools, c.publicUrl, c.relayUrls) && c.mtls.Some? && GlobalFor(tools, env, c.mtls.value)
    else FromItsSources(env, c.failover, c.mtls)
  }

  lemma MtlsIff(tools: Tools, env: Lookup, enabled: bool, c: Config)
    ensures var built := if GlobalSettingsPresent(env, enabled)
                         then BuildGlobal(tools, env, enabled, c.failover, c.allowInsecure, c.publicUrl, c.relayUrls)
                         else BuildCluster(env, c.failover);
            built == Ok(c.mtls) <==> MtlsFor(tools, env, enabled, c)
  {
    hide GlobalSettingsPresent, BuildCluster, FromItsSources, GlobalSettings, GlobalFor, AllHttps;
    ClusterBuilt(env, c.failover, c.mtls);
    if c.mtls.Some? {
      GlobalIff(tools, env, c.mtls.value);
    }
  }

  /** Everything an accepted configuration is, as a relation to the arguments and the environment. */
  ghost predicate IsConfigOf(tools: Tools, args: Args, env: Lookup, enabled: bool, c: Config) {
    && FailoverFor(tools, args, env, c.failover) && BindFor(tools, args, env, c.bind)
    && UrlFor(tools, env, c.failover, c.bind, c.publicUrl) && RelaysFor(tools, env, c.publicUrl, c.relayUrls)
    && c.allowInsecure == AllowsInsecure(tools, env)
    && Flag(tools, env(PREFIX + "GLOBAL_REGISTRATION_ENABLED")) == Ok(enabled) && MtlsFor(tools, env, enabled, c)
    && tools.acceptsRest(env, c.publicUrl, c.allowInsecure, c.mtls)
  }

  lemma AssembledIff(tools: Tools, args: Args, env: Lookup, c: Config)
    ensures Assemble(tools, args, env) == Ok(c) <==> exists enabled :: IsConfigOf(tools, args, env, enabled, c)
  {
    FailoverIff(tools, args, env, c.failover);
    BindIff(tools, args, env, c.bind);
    UrlIff(tools, env, c.failover, c.bind, c.publicUrl);
    RelaysIff(tools, env, c.publicUrl, c.relayUrls);
    MtlsIff(tools, env, true, c);
    MtlsIff(tools, env, false, c);
    hide LoadFailover, FailoverFor, BindAddress, BindFor, PublicUrl, UrlFor, RelayUrls, RelaysFor, AllowsInsecure, Flag,
         GlobalSettingsPresent, BuildGlobal, BuildCluster, MtlsFor;
    if Assemble(tools, args, env) == Ok(c) {
      assert IsConfigOf(tools, args, env, Flag(tools, env(PREFIX + "GLOBAL_REGISTRATION_ENABLED")).value, c);
    }
  }

  /** An environment is accepted as a configuration exactly if it describes it, and it has mTLS or the opt-in. */
  lemma AcceptedIff(tools: Tools, args: Args, env: Lookup, c: Config)
    ensures FromLookup(tools, args, env) == Ok(c) <==>
            ((exists enabled :: IsConfigOf(tools, args, env, enabled, c)) && (c.mtls.Some? || c.allowInsecure))
  {
    AssembledIff(tools, args, env, c);
    GateRejectsExactly(tools, args, env);
    hide Assemble, IsConfigOf, SecurityGate;
  }
}
