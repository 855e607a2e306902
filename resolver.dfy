/**
 * The credential resolver of auth.go: which single source answers for a
 * registry hostname, given the loaded configuration (or the failure to load it).
 */
module Resolver {
  import opened Wrappers
  import opened CredentialHelper

  /** An inline credential entry of the configuration file. */
  datatype AuthConfig = AuthConfig(username: string, password: string)

  /** The parts of the configuration file the resolver consults. */
  datatype Config = Config(
    credentialHelpers: map<string, string>,
    credentialsStore: string,
    authConfigs: map<string, AuthConfig>)

  /** A configuration that names no source at all. */
  const EmptyConfig := Config(map[], "", map[])

  /** What loading the default configuration gave: no file, another error, or a configuration. */
  datatype LoadResult = NotExist | OtherErr(err: Error) | Loaded(config: Config)

  /** The one credential source that answers for a hostname. */
  datatype Source = PerHostHelper(helper: string) | Store(helper: string) | Inline(auth: AuthConfig) | PlatformDefault

  /** The precedence: per-host helper, then the global store, then the inline entry,
      then the platform default. Each source is chosen exactly when every source
      before it is absent and it is present. */
  function SelectSource(c: Config, hostname: string): (s: Source)
    ensures s.PerHostHelper? <==> hostname in c.credentialHelpers
    ensures s.Store? <==> hostname !in c.credentialHelpers && c.credentialsStore != ""
    ensures s.Inline? <==> hostname !in c.credentialHelpers && c.credentialsStore == "" && hostname in c.authConfigs
    ensures s.PlatformDefault? <==>
      hostname !in c.credentialHelpers && c.credentialsStore == "" && hostname !in c.authConfigs
    ensures s.PerHostHelper? ==> s.helper == c.credentialHelpers[hostname]
    ensures s.Store? ==> s.helper == c.credentialsStore
    ensures s.Inline? ==> s.auth == c.authConfigs[hostname]
  {
    if hostname in c.credentialHelpers then PerHostHelper(c.credentialHelpers[hostname])
    else if c.credentialsStore != "" then Store(c.credentialsStore)
    else if hostname in c.authConfigs then Inline(c.authConfigs[hostname])
    else PlatformDefault
  }

  /** What consulting one source gives: a helper lookup, or the inline entry as it stands. */
  function Consult(s: Source, hostname: string, env: Environment): Outcome
  {
    match s
    case PerHostHelper(h) => GetCredentialsFromHelper(h, hostname, env)
    case Store(h) => GetCredentialsFromHelper(h, hostname, env)
    case Inline(a) => Outcome(a.username, a.password, None, None)
    case PlatformDefault => GetCredentialsFromHelper("", hostname, env)
  }

  /** `(*Config).GetRegistryCredentials`, as auth.go writes it: early returns in precedence order. */
  function ConfigRegistryCredentials(c: Config, hostname: string, env: Environment): (o: Outcome)
    ensures o == Consult(SelectSource(c, hostname), hostname, env)
  {
    if hostname in c.credentialHelpers then
      GetCredentialsFromHelper(c.credentialHelpers[hostname], hostname, env)
    else if c.credentialsStore != "" then
      GetCredentialsFromHelper(c.credentialsStore, hostname, env)
    else if hostname !in c.authConfigs then
      GetCredentialsFromHelper("", hostname, env)
    else
      var auth := c.authConfigs[hostname];
      Outcome(auth.username, auth.password, None, None)
  }

  /** The top-level `GetRegistryCredentials`: a missing configuration means the
      platform default helper, any other load error is returned as it is, and a
      loaded configuration decides by itself. */
  function GetRegistryCredentials(load: LoadResult, hostname: string, env: Environment): (o: Outcome)
    // A missing configuration behaves as an empty one: the platform default answers.
    ensures load.NotExist? ==> o == Consult(PlatformDefault, hostname, env)
    ensures load.NotExist? ==> o == ConfigRegistryCredentials(EmptyConfig, hostname, env)
    // Any other load error: empty credentials, that very error, and no helper run.
    ensures load.OtherErr? ==> o == Outcome("", "", Some(load.err), None)
    // A loaded configuration: the source it selects answers.
    ensures load.Loaded? ==> o == Consult(SelectSource(load.config, hostname), hostname, env)
  {
    match load
    case OtherErr(e) => Outcome("", "", Some(e), None)
    case NotExist => GetCredentialsFromHelper("", hostname, env)
    case Loaded(c) => ConfigRegistryCredentials(c, hostname, env)
  }

  /** A per-host helper wins: it is the helper asked, whatever the store and the
      inline entries say. */
  lemma PerHostHelperWins(c: Config, hostname: string, env: Environment,
                          store: string, auths: map<string, AuthConfig>)
    requires hostname in c.credentialHelpers
    ensures ConfigRegistryCredentials(c, hostname, env)
         == GetCredentialsFromHelper(c.credentialHelpers[hostname], hostname, env)
    ensures ConfigRegistryCredentials(c.(credentialsStore := store, authConfigs := auths), hostname, env)
         == ConfigRegistryCredentials(c, hostname, env)
  {
  }

  /** A per-host helper entry that is empty means the platform default, even when
      a store is set or an inline entry exists. */
  lemma EmptyPerHostHelperMeansPlatformDefault(c: Config, hostname: string, env: Environment)
    requires hostname in c.credentialHelpers && c.credentialHelpers[hostname] == ""
    ensures ConfigRegistryCredentials(c, hostname, env) == GetCredentialsFromHelper("", hostname, env)
  {
  }

  /** Without a per-host helper, a set store answers for every hostname, and the
      inline entries are never read. */
  lemma StoreWinsOverInlineEntries(c: Config, hostname: string, env: Environment,
                                   auths: map<string, AuthConfig>)
    requires hostname !in c.credentialHelpers && c.credentialsStore != ""
    ensures ConfigRegistryCredentials(c, hostname, env) == GetCredentialsFromHelper(c.credentialsStore, hostname, env)
    ensures ConfigRegistryCredentials(c.(authConfigs := auths), hostname, env) == ConfigRegistryCredentials(c, hostname, env)
  {
  }

  /** With neither a per-host helper nor a store, an inline entry is returned as
      it stands, with no error and no helper run. */
  lemma InlineEntryReturnedVerbatim(c: Config, hostname: string, env: Environment)
    requires hostname !in c.credentialHelpers && c.credentialsStore == "" && hostname in c.authConfigs
    ensures ConfigRegistryCredentials(c, hostname, env)
         == Outcome(c.authConfigs[hostname].username, c.authConfigs[hostname].password, None, None)
  {
  }

  /** With no source configured for the hostname, the platform default helper answers. */
  lemma UnconfiguredHostUsesPlatformDefault(c: Config, hostname: string, env: Environment)
    requires hostname !in c.credentialHelpers && c.credentialsStore == "" && hostname !in c.authConfigs
    ensures ConfigRegistryCredentials(c, hostname, env) == GetCredentialsFromHelper("", hostname, env)
  {
  }
}
