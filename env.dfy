/** Process environment variables, read through `os.getenv`. */
module Env {
  import opened Wrappers

  type Environment = map<string, string>

  /** `os.getenv(name)`: the value, or `None` when the variable is unset. */
  function Getenv(env: Environment, name: string): (v: Option<string>)
    ensures v.Some? <==> name in env
    ensures v.Some? ==> v.value == env[name]
  {
    if name in env then Some(env[name]) else None
  }

  /** `os.getenv(name, default)`: the default only when the variable is unset
    * (a variable set to the empty string keeps its empty value). */
  function GetenvOr(env: Environment, name: string, default: string): (v: string)
    ensures name in env ==> v == env[name]
    ensures name !in env ==> v == default
  {
    if name in env then env[name] else default
  }

  /** `if not os.getenv(name)`: unset or set to the empty string. */
  predicate Missing(env: Environment, name: string)
  {
    name !in env || env[name] == ""
  }
}
