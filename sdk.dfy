/**
 * The in-memory cache factory of `lib/sdk.ts`: the default time to live is
 * computed once from the `stage` environment variable, and `getCache` uses
 * it when it is called without an argument. The cache itself is not modelled;
 * `CacheOptions` is what the factory hands to it.
 */
module Sdk {
  import opened Wrappers

  const SecondsInAMinute: int := 60
  const DevSeconds: int := 5
  const DevMinutes: int := 0
  const ProdSeconds: int := 0
  const ProdMinutes: int := 5

  const DevTtlInSeconds: int := DevMinutes * SecondsInAMinute + DevSeconds
  const ProdTtlInSeconds: int := ProdMinutes * SecondsInAMinute + ProdSeconds

  /** Staging for the cache is production or qa only: unlike the stage resolution, `dev` does not count. */
  predicate CacheStaging(stageEnv: Option<string>) {
    var stage := stageEnv.GetOr("");
    stage == "prod" || stage == "qa"
  }

  function TtlInSecondsDefault(stageEnv: Option<string>): int {
    if CacheStaging(stageEnv) then ProdTtlInSeconds else DevTtlInSeconds
  }

  /** The options a new cache is created with. */
  datatype CacheOptions = CacheOptions(stdTTL: int, useClones: bool)

  /** `getCache(ttlInSeconds?)`: an argument left out (`None`) takes the module's default. */
  function GetCache(stageEnv: Option<string>, ttlInSeconds: Option<int>): (r: CacheOptions)
    ensures !r.useClones
  {
    CacheOptions(ttlInSeconds.GetOr(TtlInSecondsDefault(stageEnv)), false)
  }

  /** Production keeps entries five minutes, development five seconds. */
  lemma TtlConstants()
    ensures ProdTtlInSeconds == 300
    ensures DevTtlInSeconds == 5
  {
  }

  /**
   * The default time to live is 300 seconds exactly for the stages `prod`
   * and `qa`, and 5 seconds for every other stage, for `dev` and for an
   * unset stage.
   */
  lemma DefaultTtl(stageEnv: Option<string>)
    ensures TtlInSecondsDefault(stageEnv) == 300 <==> stageEnv == Some("prod") || stageEnv == Some("qa")
    ensures TtlInSecondsDefault(stageEnv) == 5 <==> !(stageEnv == Some("prod") || stageEnv == Some("qa"))
    ensures TtlInSecondsDefault(Some("dev")) == 5 && TtlInSecondsDefault(None) == 5
  {
  }

  /** An explicit time to live is used as given; without one the cache gets the default. */
  lemma GetCacheTtl(stageEnv: Option<string>, ttlInSeconds: Option<int>)
    ensures ttlInSeconds.Some? ==> GetCache(stageEnv, ttlInSeconds).stdTTL == ttlInSeconds.value
    ensures ttlInSeconds.None? ==> GetCache(stageEnv, ttlInSeconds).stdTTL == (if CacheStaging(stageEnv) then 300 else 5)
  {
  }
}
