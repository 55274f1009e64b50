/** What the transformations mean for the pods they describe. */
module EnvLaws {
  import opened Policy
  import opened Transforms

  ghost predicate UniqueNames(env: seq<EnvVar>) {
    forall a, b :: 0 <= a < b < |env| ==> env[a].name != env[b].name
  }

  /** The environment a list of variables sets up, the last of several settings winning. */
  function AsMap(env: seq<EnvVar>): map<string, string> {
    if env == [] then map[] else map[env[0].name := env[0].value] + AsMap(env[1..])
  }

  lemma {:induction false} AsMapKeys(env: seq<EnvVar>, name: string)
    ensures name in AsMap(env) ==> exists k :: 0 <= k < |env| && env[k].name == name
  {
    if env != [] && name in AsMap(env) && env[0].name != name {
      AsMapKeys(env[1..], name);
      var k :| 0 <= k < |env[1..]| && env[1..][k].name == name;
      assert env[k + 1].name == name;
    }
  }

  /** Setting one variable keeps names unique and in place. */
  lemma UpsertNames(env: seq<EnvVar>, key: string, value: string)
    requires UniqueNames(env)
    ensures var r := Upsert(env, key, value);
            UniqueNames(r) && |env| <= |r| && (forall k :: 0 <= k < |env| ==> r[k].name == env[k].name)
  {
  }

  lemma UpsertRest(env: seq<EnvVar>, key: string, value: string)
    requires env != [] && env[0].name != key
    ensures Upsert(env, key, value) == [env[0]] + Upsert(env[1..], key, value)
  {
  }

  /** Setting one variable overrides one entry of the environment. */
  lemma {:induction false} UpsertMap(env: seq<EnvVar>, key: string, value: string)
    requires UniqueNames(env)
    ensures AsMap(Upsert(env, key, value)) == AsMap(env)[key := value]
  {
    if env == [] {
      assert Upsert(env, key, value) == [EnvVar(key, value)];
      assert AsMap([EnvVar(key, value)]) == map[key := value] + AsMap([]);
    } else {
      var rest := env[1..];
      if env[0].name == key {
        assert Upsert(env, key, value) == [EnvVar(key, value)] + rest;
        if key in AsMap(rest) {
          AsMapKeys(rest, key);
          assert false;
        }
      } else {
        UpsertRest(env, key, value);
        UpsertMap(rest, key, value);
        Override(map[env[0].name := env[0].value], AsMap(rest), key, value);
      }
    }
  }

  lemma Override(a: map<string, string>, b: map<string, string>, key: string, value: string)
    ensures a + b[key := value] == (a + b)[key := value]
  {
  }

  lemma OverrideAll(a: map<string, string>, key: string, value: string, b: map<string, string>)
    ensures a[key := value] + b == a + (map[key := value] + b)
  {
  }

  /** The policy's variables override the template's as one map overrides another: every name keeps its
      place, new names come after, and of several settings of a name the last wins. */
  lemma {:induction false} UpsertAllOverrides(env: seq<EnvVar>, updates: seq<EnvVar>)
    requires UniqueNames(env)
    ensures var r := UpsertAll(env, updates);
      && UniqueNames(r)
      && AsMap(r) == AsMap(env) + AsMap(updates)
      && |env| <= |r| && (forall k :: 0 <= k < |env| ==> r[k].name == env[k].name)
    decreases |updates|
  {
    if updates != [] {
      var u, rest := updates[0], updates[1..];
      UpsertNames(env, u.name, u.value);
      UpsertMap(env, u.name, u.value);
      UpsertAllOverrides(Upsert(env, u.name, u.value), rest);
      OverrideAll(AsMap(env), u.name, u.value, AsMap(rest));
    }
  }
}
