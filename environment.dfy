/**
 * The process environment as the service sees it: a map from variable
 * names to string values. A variable that is not set is simply absent.
 *
 * Every configuration read in the service is written `process.env.X || d`
 * or tested with `!process.env[X]`. In JavaScript both an unset variable
 * (`undefined`) and an empty string are falsy, so both count as "not
 * provided". `Present` and `OrDefault` capture exactly that rule once.
 */
module Environment {

  type Env = map<string, string>

  /**
   * `process.env[key]` is truthy: an unset variable (`undefined`) and the
   * empty string are falsy, and every other string is truthy.
   */
  predicate Present(env: Env, key: string): (b: bool)
    ensures key !in env ==> !b
    ensures key in env && env[key] == "" ==> !b
    ensures key in env && env[key] != "" ==> b
  {
    key in env && env[key] != ""
  }

  /** `process.env[key] || fallback`. */
  function OrDefault(env: Env, key: string, fallback: string): (r: string)
    ensures Present(env, key) ==> r == env[key]
    ensures !Present(env, key) ==> r == fallback
  {
    if Present(env, key) then env[key] else fallback
  }

  /** The value is never empty as long as the fallback is not. */
  lemma OrDefaultNonEmpty(env: Env, key: string, fallback: string)
    requires fallback != ""
    ensures OrDefault(env, key, fallback) != ""
  {
  }

  /**
   * Setting a variable to the empty string has the same effect as
   * leaving it unset, for every key.
   */
  lemma EmptyIsUnset(env: Env, key: string, other: string, fallback: string)
    ensures OrDefault(env[key := ""], other, fallback) == OrDefault(env - {key}, other, fallback)
  {
  }
}
