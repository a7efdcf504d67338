/**
  Start-up: the six configuration values read from the environment, the
  completeness check over them, and the service clients built from them.
  Reading the environment is outside the model; an unset variable is None.
*/
module Startup {

  import opened Wrappers

  /** The environment variables the application reads, as the lookups return them. */
  datatype Env = Env(
    aiServiceEndpoint: Option<string>,
    aiServiceKey: Option<string>,
    translatorRegion: Option<string>,
    translatorKey: Option<string>,
    speechKey: Option<string>,
    speechRegion: Option<string>)

  /** A configuration value counts as given when it is set and not empty. */
  predicate Given(v: Option<string>)
  {
    v.Some? && v.value != ""
  }

  /** All six configuration values are given. */
  predicate Complete(env: Env)
  {
    && Given(env.aiServiceEndpoint)
    && Given(env.aiServiceKey)
    && Given(env.translatorRegion)
    && Given(env.translatorKey)
    && Given(env.speechKey)
    && Given(env.speechRegion)
  }

  /**
    What the three clients are built from: the text-analytics endpoint and
    key, the translator key and region, and the speech key and region. The
    speech configuration takes the AI-service key and the speech region.
  */
  datatype Clients = Clients(
    analyticsEndpoint: string,
    analyticsKey: string,
    translatorKey: string,
    translatorRegion: string,
    speechConfigKey: string,
    speechConfigRegion: string)

  /**
    Builds the clients when every value is given; `sdkAccepts` is whether the
    client constructors return normally (they raise on values they refuse).
    Otherwise there are no clients, and the application stops.
  */
  function InitializeClients(env: Env, sdkAccepts: bool): (r: Option<Clients>)
    ensures r.Some? <==> Complete(env) && sdkAccepts
    ensures r.Some? ==>
      && r.value.analyticsEndpoint == env.aiServiceEndpoint.value
      && r.value.analyticsKey == env.aiServiceKey.value
      && r.value.translatorKey == env.translatorKey.value
      && r.value.translatorRegion == env.translatorRegion.value
      && r.value.speechConfigKey == env.aiServiceKey.value
      && r.value.speechConfigRegion == env.speechRegion.value
  {
    if !Complete(env) || !sdkAccepts then None
    else Some(Clients(
      env.aiServiceEndpoint.value, env.aiServiceKey.value,
      env.translatorKey.value, env.translatorRegion.value,
      env.aiServiceKey.value, env.speechRegion.value))
  }

  /** A single missing or empty value is enough to stop start-up. */
  lemma AnyMissingStops(env: Env, sdkAccepts: bool)
    requires !Given(env.aiServiceEndpoint) || !Given(env.aiServiceKey) || !Given(env.translatorRegion)
          || !Given(env.translatorKey) || !Given(env.speechKey) || !Given(env.speechRegion)
    ensures InitializeClients(env, sdkAccepts) == None
  {
  }
}
