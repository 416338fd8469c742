/** Start-up configuration of the stream wrapper (app/aws.server.ts, lines 10-27). */
module AwsConfig {

  /** The process environment: a variable that is not set is absent from the map. */
  type Env = map<string, string>

  const StreamNameVar := "AWS_KINESIS_STREAM_NAME"

  /** The keys of `requiredEnvVars`, in declaration order. */
  const RequiredEnvVars: seq<string> :=
    ["AWS_REGION", "AWS_ACCESS_KEY_ID", "AWS_SECRET_ACCESS_KEY", StreamNameVar]

  /** The stream used when `AWS_KINESIS_STREAM_NAME` is unset or empty. */
  const DefaultStreamName := "shopify-events-stream"

  /** `!value`: an unset variable and an empty one are both falsy. */
  predicate Unset(env: Env, name: string): (falsy: bool)
    ensures !falsy <==> name in env && |env[name]| > 0
  {
    name !in env || env[name] == ""
  }

  /** `a` is `b` with some elements left out, the rest kept in order. */
  predicate IsSubsequence(a: seq<string>, b: seq<string>)
  {
    a == [] ||
    (b != [] && ((a[0] == b[0] && IsSubsequence(a[1..], b[1..])) || IsSubsequence(a, b[1..])))
  }

  /** Distinct elements. */
  predicate NoDuplicates(s: seq<string>)
  {
    forall i, j :: 0 <= i < j < |s| ==> s[i] != s[j]
  }

  /** `Object.entries(...).filter(([_, v]) => !v).map(([k]) => k)` over the names `names`. */
  function MissingAmong(names: seq<string>, env: Env): (r: seq<string>)
    ensures forall x :: x in r <==> x in names && Unset(env, x)
    ensures IsSubsequence(r, names)
    ensures NoDuplicates(names) ==> NoDuplicates(r)
  {
    if names == [] then []
    else
      var rest := MissingAmong(names[1..], env);
      assert NoDuplicates(names) ==> NoDuplicates(names[1..]) by {
        if NoDuplicates(names) {
          forall i, j | 0 <= i < j < |names[1..]| ensures names[1..][i] != names[1..][j] {
            assert names[1..][i] == names[i + 1] && names[1..][j] == names[j + 1];
          }
        }
      }
      if Unset(env, names[0]) then [names[0]] + rest else rest
  }

  /** `missingVars`: exactly the required variables that are unset or empty, in declaration order. */
  function MissingVars(env: Env): (r: seq<string>)
    ensures forall x :: x in r <==> x in RequiredEnvVars && Unset(env, x)
    ensures IsSubsequence(r, RequiredEnvVars)
    ensures NoDuplicates(r) && |r| <= |RequiredEnvVars|
  {
    var r := MissingAmong(RequiredEnvVars, env);
    SubsequenceNoLonger(r, RequiredEnvVars);
    r
  }

  /** `STREAM_NAME`: the configured name when it is set and non-empty, otherwise the default. */
  function StreamName(env: Env): (r: string)
    ensures r != ""
    ensures r == DefaultStreamName || (StreamNameVar in env && r == env[StreamNameVar])
    ensures Unset(env, StreamNameVar) ==> r == DefaultStreamName
    ensures !Unset(env, StreamNameVar) ==> r == env[StreamNameVar]
  {
    if Unset(env, StreamNameVar) then DefaultStreamName else env[StreamNameVar]
  }

  /** The stream name falls back to the default exactly when its variable is reported missing. */
  lemma StreamNameAgreesWithMissingVars(env: Env)
    ensures StreamNameVar in MissingVars(env) ==> StreamName(env) == DefaultStreamName
    ensures StreamNameVar !in MissingVars(env) ==> StreamNameVar in env && StreamName(env) == env[StreamNameVar] != ""
  {
  }

  /** With every variable set to a non-empty value nothing is reported missing; with none set all four are. */
  lemma MissingVarsExtremes(env: Env)
    ensures (forall x :: x in RequiredEnvVars ==> !Unset(env, x)) ==> MissingVars(env) == []
    ensures (forall x :: x in RequiredEnvVars ==> x !in env) ==> MissingVars(env) == RequiredEnvVars
  {
    var r := MissingVars(env);
    if forall x :: x in RequiredEnvVars ==> !Unset(env, x) {
      AllSetAreNotMissing(RequiredEnvVars, env);
    }
    if forall x :: x in RequiredEnvVars ==> x !in env {
      AllUnsetAreMissing(RequiredEnvVars, env);
    }
  }

  /** When every name is set to a non-empty value, none is reported. */
  lemma {:induction false} AllSetAreNotMissing(names: seq<string>, env: Env)
    requires forall x :: x in names ==> !Unset(env, x)
    ensures MissingAmong(names, env) == []
  {
    if names != [] {
      assert names[0] in names;
      AllSetAreNotMissing(names[1..], env);
    }
  }

  /** When every name is unset, all of them are reported, in order. */
  lemma {:induction false} AllUnsetAreMissing(names: seq<string>, env: Env)
    requires forall x :: x in names ==> Unset(env, x)
    ensures MissingAmong(names, env) == names
  {
    if names != [] {
      assert names[0] in names;
      AllUnsetAreMissing(names[1..], env);
      assert [names[0]] + names[1..] == names;
    }
  }

  /** A subsequence is no longer than the sequence it is taken from. */
  lemma {:induction false} SubsequenceNoLonger(a: seq<string>, b: seq<string>)
    requires IsSubsequence(a, b)
    ensures |a| <= |b|
  {
    if a != [] {
      if a[0] == b[0] && IsSubsequence(a[1..], b[1..]) {
        SubsequenceNoLonger(a[1..], b[1..]);
      } else {
        SubsequenceNoLonger(a, b[1..]);
      }
    }
  }
}
