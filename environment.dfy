/**
 * The process environment as a value. `os.Getenv` reports an unset variable and a variable
 * set to the empty string alike, as "".
 */
module Environment {

  type Env = map<string, string>

  /** `os.Getenv`: the value of `key`, or "" when it is not set. */
  function Getenv(env: Env, key: string): (v: string)
    ensures key !in env ==> v == ""
    ensures key in env ==> v == env[key]
  {
    if key in env then env[key] else ""
  }

  /** True when none of `keys` is set to a non-empty value. */
  predicate AllEmpty(env: Env, keys: set<string>) {
    forall k :: k in keys ==> Getenv(env, k) == ""
  }

  /**
   * The override rule shared by every string field of both configurations: a variable
   * replaces the current value exactly when it is non-empty.
   */
  function OverrideString(env: Env, key: string, current: string): (v: string)
    ensures Getenv(env, key) != "" ==> v == Getenv(env, key)
    ensures Getenv(env, key) == "" ==> v == current
  {
    var s := Getenv(env, key);
    if s != "" then s else current
  }
}
