/**
 * Start-up of the authentication state: whether a pending account-link
 * operation is cancelled first, which cluster becomes the home cluster, and
 * whether the stored API token is restored.
 */
module AuthAction {
  import opened Common
  import opened JsObjects

  /** The parts of the cluster configuration that `init` reads. */
  datatype Config = Config(remoteHosts: map<string, string>, loginCluster: string, uuidPrefix: string)

  /** The actions dispatched at start-up, in the order they are dispatched. */
  datatype AuthAction =
    | CancelLinking
    | RunInit
    | ConfigLoaded(config: Config)
    | SetHomeCluster(cluster: string)
    | SaveApiToken(token: string)

  /**
   * `initAuth`: linking is cancelled before `init` only when the location is
   * on neither token route and there is no link-operation status; otherwise
   * `init` runs directly.
   */
  function InitAuthSteps(onTokenRoute: bool, onFedTokenRoute: bool, hasLinkOpStatus: bool): (steps: seq<AuthAction>)
    ensures |steps| >= 1 && steps[|steps| - 1] == RunInit
    ensures CancelLinking in steps <==> !onTokenRoute && !onFedTokenRoute && !hasLinkOpStatus
    ensures CancelLinking in steps ==> steps == [CancelLinking, RunInit]
    ensures CancelLinking !in steps ==> steps == [RunInit]
  {
    if !onTokenRoute && !onFedTokenRoute && !hasLinkOpStatus then [CancelLinking, RunInit] else [RunInit]
  }

  /**
   * A stored home cluster survives when it is non-empty and
   * `remoteHosts[cluster]` is truthy: a non-empty host entry, or, with no
   * entry of that name, a member every object inherits from
   * `Object.prototype`.
   */
  predicate KnownCluster(config: Config, cluster: string)
  {
    cluster != "" && ReadTruthy(config.remoteHosts, cluster, (host: string) => host != "")
  }

  /**
   * The home cluster: the login cluster if set, else the stored cluster if it
   * survives, else the local uuid prefix. It is never a stored cluster that
   * `remoteHosts` does not answer for.
   */
  function HomeCluster(config: Config, stored: Option<string>): (cluster: string)
    ensures config.loginCluster != "" ==> cluster == config.loginCluster
    ensures config.loginCluster == "" && stored.Some? && KnownCluster(config, stored.value) ==> cluster == stored.value
    ensures config.loginCluster == "" && (stored.None? || !KnownCluster(config, stored.value)) ==> cluster == config.uuidPrefix
    ensures cluster == config.loginCluster || cluster == config.uuidPrefix || KnownCluster(config, cluster)
    ensures cluster != config.loginCluster && cluster != config.uuidPrefix ==>
      (cluster in config.remoteHosts && config.remoteHosts[cluster] != "") || cluster in PrototypeNames
  {
    if config.loginCluster != "" then config.loginCluster
    else if stored.Some? && KnownCluster(config, stored.value) then stored.value
    else config.uuidPrefix
  }

  /** A stored cluster named `constructor` survives a configuration without remote hosts. */
  lemma InheritedClusterSurvives(uuidPrefix: string)
    ensures HomeCluster(Config(map[], "", uuidPrefix), Some("constructor")) == "constructor"
  {
    assert "constructor" in PrototypeNames;
  }

  /** The stored token is restored when present and not the text `undefined`. */
  predicate RestoresToken(token: Option<string>)
  {
    token.Some? && token.value != "" && token.value != "undefined"
  }

  /**
   * `init`: discards a stored home cluster the configuration does not know,
   * then dispatches the configuration, the home cluster and, when there is a
   * usable stored token, its restoration.
   */
  method Init(config: Config, token: Option<string>, storedHomeCluster: Option<string>)
    returns (dispatched: seq<AuthAction>)
    ensures |dispatched| >= 2
    ensures dispatched[0] == ConfigLoaded(config)
    ensures dispatched[1] == SetHomeCluster(HomeCluster(config, storedHomeCluster))
    ensures |dispatched| == 3 <==> RestoresToken(token)
    ensures |dispatched| == 3 ==> dispatched[2] == SaveApiToken(token.value)
    ensures |dispatched| <= 3
  {
    var homeCluster := if storedHomeCluster.Some? then storedHomeCluster.value else "";
    if homeCluster != "" && !ReadTruthy(config.remoteHosts, homeCluster, (host: string) => host != "") {
      homeCluster := "";
    }
    dispatched := [ConfigLoaded(config)];
    var cluster := if config.loginCluster != "" then config.loginCluster
      else if homeCluster != "" then homeCluster
      else config.uuidPrefix;
    dispatched := dispatched + [SetHomeCluster(cluster)];
    if token.Some? && token.value != "" && token.value != "undefined" {
      dispatched := dispatched + [SaveApiToken(token.value)];
    }
  }
}
