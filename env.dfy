/**
 * The start-up configuration check. Configuration values are read from the
 * process environment, a missing variable reading as the empty string, and
 * the check accepts the record-store URL and key only when neither is empty
 * nor still the template's placeholder.
 */
module Env {

  /** The application's configuration record. */
  datatype Config = Config(
    supabaseUrl: string, supabaseAnonKey: string, geminiApiKey: string,
    mapsApiKey: string, weatherApiKey: string)

  const UrlVariable := "EXPO_PUBLIC_SUPABASE_URL"
  const AnonKeyVariable := "EXPO_PUBLIC_SUPABASE_ANON_KEY"
  const GeminiKeyVariable := "EXPO_PUBLIC_GEMINI_API_KEY"
  const MapsKeyVariable := "EXPO_PUBLIC_MAPS_API_KEY"
  const WeatherKeyVariable := "EXPO_PUBLIC_WEATHER_API_KEY"

  const UrlPlaceholder := "your_supabase_url"
  const AnonKeyPlaceholder := "your_supabase_anon_key"

  /** `process.env[name] || ''`. */
  function EnvOrEmpty(env: map<string, string>, name: string): (v: string)
    ensures name !in env ==> v == ""
    ensures name in env ==> v == env[name]
  {
    if name in env then env[name] else ""
  }

  /** The `CONFIG` record: each key read from its variable, an unset one as `''`. */
  function ConfigFrom(env: map<string, string>): (c: Config)
    ensures c.supabaseUrl == EnvOrEmpty(env, UrlVariable) && c.supabaseAnonKey == EnvOrEmpty(env, AnonKeyVariable)
    ensures c.geminiApiKey == EnvOrEmpty(env, GeminiKeyVariable)
    ensures c.mapsApiKey == EnvOrEmpty(env, MapsKeyVariable) && c.weatherApiKey == EnvOrEmpty(env, WeatherKeyVariable)
  {
    Config(EnvOrEmpty(env, UrlVariable), EnvOrEmpty(env, AnonKeyVariable), EnvOrEmpty(env, GeminiKeyVariable),
      EnvOrEmpty(env, MapsKeyVariable), EnvOrEmpty(env, WeatherKeyVariable))
  }

  /**
   * `checkEnvVariables`: false as soon as the URL is empty or the placeholder,
   * then false as soon as the key is; true only when both pass.
   */
  function CheckEnvVariables(c: Config): (ok: bool)
    ensures c.supabaseUrl == "" || c.supabaseUrl == UrlPlaceholder ==> !ok
    ensures c.supabaseAnonKey == "" || c.supabaseAnonKey == AnonKeyPlaceholder ==> !ok
    ensures ok <==> c.supabaseUrl !in {"", UrlPlaceholder} && c.supabaseAnonKey !in {"", AnonKeyPlaceholder}
  {
    if c.supabaseUrl == "" || c.supabaseUrl == UrlPlaceholder then
      false
    else if c.supabaseAnonKey == "" || c.supabaseAnonKey == AnonKeyPlaceholder then
      false
    else
      true
  }

  /** Only the URL and the anon key are checked; the other keys are only logged. */
  lemma CheckReadsOnlyUrlAndKey(c: Config, gemini: string, maps: string, weather: string)
    ensures CheckEnvVariables(c.(geminiApiKey := gemini, mapsApiKey := maps, weatherApiKey := weather)) == CheckEnvVariables(c)
  {
  }

  /** An unset URL or key variable reads as `''`, so the check fails. */
  lemma MissingVariableFails(env: map<string, string>)
    requires UrlVariable !in env || AnonKeyVariable !in env
    ensures !CheckEnvVariables(ConfigFrom(env))
  {
  }

  /** Set to real values, both variables pass whatever else the environment holds. */
  lemma ConfiguredEnvironmentPasses(env: map<string, string>)
    requires UrlVariable in env && env[UrlVariable] !in {"", UrlPlaceholder}
    requires AnonKeyVariable in env && env[AnonKeyVariable] !in {"", AnonKeyPlaceholder}
    ensures CheckEnvVariables(ConfigFrom(env))
  {
  }
}
