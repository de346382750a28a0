/**
 * The table of variables the envify transform substitutes into the bundle
 * (`setupBundlerDefaults`, development/build/scripts.js:232-239).
 */
module Envify {
  import opened Wrappers
  import opened Environment

  /** The process environment as far as the build reads it; `None` is an unset variable. */
  datatype ProcessEnv = ProcessEnv(ci: CiVars, pubnubSubKey: Option<string>, pubnubPubKey: Option<string>)

  /** A substituted value: the table mixes strings and booleans. */
  datatype EnvValue = Str(s: string) | Bool(b: bool)

  datatype EnvifyTable = EnvifyTable(
    metamaskDebug: EnvValue,
    metamaskEnvironment: EnvValue,
    nodeEnv: EnvValue,
    inTest: EnvValue,
    pubnubSubKey: EnvValue,
    pubnubPubKey: EnvValue)

  /** `v || ''` for a string variable. */
  function OrEmpty(v: Option<string>): (r: string)
    ensures v.Some? ==> r == v.value
    ensures v.None? ==> r == ""
  {
    if Truthy(v) then v.value else ""
  }

  /**
   * The envify table. `getEnvironment` is called with `devMode` alone, so the
   * `test` flag reaches only IN_TEST.
   */
  function EnvifyVars(devMode: bool, test: bool, env: ProcessEnv): (t: EnvifyTable)
    ensures t.metamaskDebug == Bool(devMode)
    ensures t.metamaskEnvironment != Str("testing")
    ensures t.metamaskEnvironment == Str(SlugName(GetEnvironment(devMode, false, env.ci)))
    ensures t.nodeEnv == Str("development") <==> devMode
    ensures t.nodeEnv == Str("production") <==> !devMode
    ensures t.inTest == Str("true") <==> test
    ensures t.inTest == Bool(false) <==> !test
    ensures t.pubnubSubKey == Str(if env.pubnubSubKey.Some? then env.pubnubSubKey.value else "")
    ensures t.pubnubPubKey == Str(if env.pubnubPubKey.Some? then env.pubnubPubKey.value else "")
  {
    var slug := GetEnvironment(devMode, false, env.ci);
    SlugNameInjective(slug, Testing);
    EnvifyTable(
      Bool(devMode),
      Str(SlugName(slug)),
      Str(if devMode then "development" else "production"),
      if test then Str("true") else Bool(false),
      Str(OrEmpty(env.pubnubSubKey)),
      Str(OrEmpty(env.pubnubPubKey)))
  }

  /** The `test` flag never changes the injected environment slug. */
  lemma EnvironmentIgnoresTest(devMode: bool, env: ProcessEnv)
    ensures EnvifyVars(devMode, true, env).metamaskEnvironment == EnvifyVars(devMode, false, env).metamaskEnvironment
  {
  }

  /** METAMASK_ENVIRONMENT and NODE_ENV agree about development builds. */
  lemma {:induction false} EnvironmentAgreesWithNodeEnv(devMode: bool, test: bool, env: ProcessEnv)
    ensures var t := EnvifyVars(devMode, test, env);
      t.metamaskEnvironment == Str("development") <==> t.nodeEnv == Str("development")
  {
    SlugNameInjective(GetEnvironment(devMode, false, env.ci), Development);
  }
}
