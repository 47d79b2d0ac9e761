/**
 * The startup gate of the HTTP service (server.js): a fixed list of
 * required variables is filtered for those that are unset or empty; if
 * any are missing the process exits with status 1, otherwise it listens
 * on `PORT` (default 5000).
 */
module Startup {
  import opened Environment
  import opened Sequences

  /** The required variables, in the order the service lists them. */
  const RequiredEnv: seq<string> :=
    ["DB_HOST", "DB_USER", "DB_PASSWORD", "DB_NAME", "GOOGLE_CLIENT_ID", "YOUTUBE_API_KEY"]

  const DefaultPort: nat := 5000

  /** What `app.listen` receives: the variable's text, or the number 5000. */
  datatype Port = PortVariable(text: string) | PortNumber(number: nat)

  /** How startup ends: `process.exit(status)` with the missing keys logged, or `app.listen(port)`. */
  datatype Decision = Exit(status: int, missing: seq<string>) | Listen(port: Port)

  /** `xs` is `ys` with some elements dropped and the rest kept in order. */
  predicate IsSubsequence(xs: seq<string>, ys: seq<string>)
    decreases |ys|
  {
    if xs == [] then true
    else if ys == [] then false
    else if xs[0] == ys[0] then IsSubsequence(xs[1..], ys[1..])
    else IsSubsequence(xs, ys[1..])
  }

  /**
   * `keys.filter(k => !process.env[k])`: the keys whose variable is absent
   * or empty, in the order of `keys`.
   */
  function MissingFrom(keys: seq<string>, env: Env): (r: seq<string>)
    ensures forall k :: k in r <==> k in keys && !Present(env, k)
    ensures IsSubsequence(r, keys)
    ensures NoDuplicates(keys) ==> NoDuplicates(r)
  {
    if keys == [] then []
    else if Present(env, keys[0]) then MissingFrom(keys[1..], env)
    else [keys[0]] + MissingFrom(keys[1..], env)
  }

  /** `missingEnv` of server.js. */
  function MissingEnv(env: Env): (r: seq<string>)
    ensures forall k :: k in r <==> k in RequiredEnv && !Present(env, k)
    ensures IsSubsequence(r, RequiredEnv) && NoDuplicates(r) && |r| <= 6
  {
    RequiredKeysDistinct();
    SubsequenceNoLonger(MissingFrom(RequiredEnv, env), RequiredEnv);
    MissingFrom(RequiredEnv, env)
  }

  /** `process.env.PORT || 5000`. */
  function ListenPort(env: Env): (p: Port)
    ensures Present(env, "PORT") ==> p == PortVariable(env["PORT"])
    ensures !Present(env, "PORT") ==> p == PortNumber(5000)
  {
    if Present(env, "PORT") then PortVariable(env["PORT"]) else PortNumber(DefaultPort)
  }

  /** The gate: exit with status 1 if anything is missing, otherwise listen. */
  function StartupDecision(env: Env): (d: Decision)
    ensures d.Exit? <==> exists k :: k in RequiredEnv && !Present(env, k)
    ensures d.Exit? ==> d.status == 1 && d.missing == MissingEnv(env) && d.missing != []
    ensures d.Listen? ==> (forall k :: k in RequiredEnv ==> Present(env, k)) && d.port == ListenPort(env)
  {
    var missing := MissingEnv(env);
    if |missing| > 0 then
      assert missing[0] in missing;
      Exit(1, missing)
    else
      Listen(ListenPort(env))
  }

  lemma RequiredKeysDistinct()
    ensures NoDuplicates(RequiredEnv) && |RequiredEnv| == 6
  {
  }

  /** Every element of a subsequence occurs in the sequence. */
  lemma {:induction false} SubsequenceMembers(xs: seq<string>, ys: seq<string>)
    requires IsSubsequence(xs, ys)
    ensures forall x :: x in xs ==> x in ys
    decreases |ys|
  {
    if xs != [] {
      if xs[0] == ys[0] {
        SubsequenceMembers(xs[1..], ys[1..]);
        forall x | x in xs ensures x in ys {
          if x != xs[0] {
            assert x in xs[1..];
          }
        }
      } else {
        SubsequenceMembers(xs, ys[1..]);
      }
    }
  }

  lemma {:induction false} SubsequenceNoLonger(xs: seq<string>, ys: seq<string>)
    requires IsSubsequence(xs, ys)
    ensures |xs| <= |ys|
    decreases |ys|
  {
    if xs != [] {
      if xs[0] == ys[0] {
        SubsequenceNoLonger(xs[1..], ys[1..]);
      } else {
        SubsequenceNoLonger(xs, ys[1..]);
      }
    }
  }

  /**
   * The filter's contract pins its result down: over distinct keys, the
   * only ordered selection holding exactly the missing keys is `MissingFrom`.
   */
  lemma {:induction false} MissingFromUnique(keys: seq<string>, env: Env, m: seq<string>)
    requires NoDuplicates(keys)
    requires IsSubsequence(m, keys)
    requires forall k :: k in m <==> k in keys && !Present(env, k)
    ensures m == MissingFrom(keys, env)
    decreases |keys|
  {
    if keys == [] {
    } else {
      var rest := keys[1..];
      assert NoDuplicates(rest) by {
        forall i, j | 0 <= i < j < |rest| ensures rest[i] != rest[j] {
          assert rest[i] == keys[i + 1] && rest[j] == keys[j + 1];
        }
      }
      assert keys[0] !in rest by {
        forall i | 0 <= i < |rest| ensures rest[i] != keys[0] {
          assert rest[i] == keys[i + 1];
        }
      }
      if m != [] && m[0] == keys[0] {
        assert IsSubsequence(m[1..], rest);
        SubsequenceMembers(m[1..], rest);
        forall k ensures k in m[1..] <==> k in rest && !Present(env, k) {
          if k in rest && !Present(env, k) {
            assert k in m;
            assert k != m[0];
          }
          if k in m[1..] {
            assert k in m;
          }
        }
        MissingFromUnique(rest, env, m[1..]);
        assert m == [m[0]] + m[1..];
      } else {
        assert IsSubsequence(m, rest);
        SubsequenceMembers(m, rest);
        assert keys[0] !in m;
        assert keys[0] in keys;
        forall k ensures k in m <==> k in rest && !Present(env, k) {
          if k in rest {
            assert k in keys;
          }
        }
        MissingFromUnique(rest, env, m);
      }
    }
  }

  /** `missingEnv` is the one ordered, duplicate-free list of exactly the absent required keys. */
  lemma MissingEnvCharacterized(env: Env, m: seq<string>)
    requires IsSubsequence(m, RequiredEnv)
    requires forall k :: k in m <==> k in RequiredEnv && !Present(env, k)
    ensures m == MissingEnv(env)
  {
    RequiredKeysDistinct();
    MissingFromUnique(RequiredEnv, env, m);
  }

  /** A single absent or empty required variable stops startup, and its name is reported. */
  lemma AnyMissingKeyIsReported(env: Env, k: string)
    requires k in RequiredEnv && !Present(env, k)
    ensures StartupDecision(env).Exit? && k in StartupDecision(env).missing
  {
  }
}
