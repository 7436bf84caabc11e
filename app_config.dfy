/** The configuration object: the five settings it reads from the process
    environment, and how a setting reads when it is interpolated into a
    string. */
module AppConfig {
  import opened Optional

  /** The properties the configuration object is built with. */
  const ConfiguredKeys: set<string> :=
    {"PORT", "REDIS_PASSWORD", "REDIS_HOST", "REDIS_PORT", "REDIS_USERNAME"}

  /** `Config[name]` for the object built in configs/config.js:5-11 when the
      process environment is `env`: a configured property holds its
      environment variable (or is undefined when that is unset); any other
      property is undefined. */
  function Setting(env: map<string, string>, name: string): (r: Option<string>)
    ensures r.Some? <==> name in ConfiguredKeys && name in env
  {
    if name in ConfiguredKeys && name in env then Some(env[name]) else None
  }

  /** A possibly undefined string inside a template literal. */
  function Interpolate(v: Option<string>): string {
    match v
    case None => "undefined"
    case Some(s) => s
  }
}
