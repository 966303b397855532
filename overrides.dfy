/** Environment overrides turned into compile-time substitutions for a
    production build: each entry `k` becomes the define key
    `import.meta.env.k`, mapped to the JSON text of its value. */
module Overrides {
  import opened Wrappers
  import opened Config

  /** The `env` argument of a command: key to JSON value. */
  type Env = map<string, Json>

  const DefinePrefix: string := "import.meta.env."

  function DefineKey(k: string): string {
    DefinePrefix + k
  }

  predicate IsDefineKey(d: string) {
    |DefinePrefix| <= |d| && d[..|DefinePrefix|] == DefinePrefix
  }

  /** The env key a define key was made from. */
  function EnvKeyOf(d: string): string
    requires IsDefineKey(d)
  {
    d[|DefinePrefix|..]
  }

  /** Two env keys never produce the same define key, and the env key can be read back. */
  lemma DefineKeyInverse(k: string)
    ensures IsDefineKey(DefineKey(k)) && EnvKeyOf(DefineKey(k)) == k
  {
    assert DefineKey(k)[..|DefinePrefix|] == DefinePrefix;
  }

  /** The substitutions an env contributes, given the JSON serialiser. */
  function EnvDefines(env: Env, stringify: Json -> string): (d: map<string, string>)
    ensures forall k :: k in env ==> DefineKey(k) in d && d[DefineKey(k)] == stringify(env[k])
    ensures forall key :: key in d ==> IsDefineKey(key) && EnvKeyOf(key) in env
  {
    forall k ensures IsDefineKey(DefineKey(k)) && EnvKeyOf(DefineKey(k)) == k {
      DefineKeyInverse(k);
    }
    map k | k in env :: DefineKey(k) := stringify(env[k])
  }

  /** Fills the substitution dictionary one env entry at a time. */
  method ImportReplacements(env: Env, stringify: Json -> string) returns (replacements: map<string, string>)
    ensures replacements == EnvDefines(env, stringify)
  {
    replacements := map[];
    var pending := env.Keys;
    while pending != {}
      invariant pending <= env.Keys
      invariant forall k :: k in env && k !in pending ==>
                  DefineKey(k) in replacements && replacements[DefineKey(k)] == stringify(env[k])
      invariant forall key :: key in replacements ==>
                  IsDefineKey(key) && EnvKeyOf(key) in env && EnvKeyOf(key) !in pending
      decreases pending
    {
      var k :| k in pending;
      DefineKeyInverse(k);
      replacements := replacements[DefineKey(k) := stringify(env[k])];
      pending := pending - {k};
    }
    var spec := EnvDefines(env, stringify);
    forall key | key in spec
      ensures key in replacements
    {
      DefineKeyInverse(EnvKeyOf(key));
      assert key == DefineKey(EnvKeyOf(key));
    }
    forall key | key in replacements
      ensures key in spec && replacements[key] == spec[key]
    {
      DefineKeyInverse(EnvKeyOf(key));
      assert key == DefineKey(EnvKeyOf(key));
    }
  }

  /** `{...config, define: {...config.define, ...replacements}}` */
  function WithDefines(config: InlineConfig, replacements: map<string, string>): (r: InlineConfig)
    ensures r.define.Some?
    ensures r.define.value.Keys == config.define.GetOr(map[]).Keys + replacements.Keys
    ensures forall d :: d in replacements ==> r.define.value[d] == JString(replacements[d])
    ensures forall d :: d in config.define.GetOr(map[]) && d !in replacements ==>
              r.define.value[d] == config.define.value[d]
    ensures r.(define := config.define) == config
  {
    config.(define := Some(config.define.GetOr(map[]) + map d | d in replacements :: JString(replacements[d])))
  }

  /** The configuration a production build runs with. */
  function BuildConfig(config: InlineConfig, env: Env, stringify: Json -> string): InlineConfig {
    WithDefines(config, EnvDefines(env, stringify))
  }

  /** Every env entry is substituted with its JSON text and wins over a define
      of the same key; every other define is kept; nothing else changes. */
  lemma BuildConfigDefines(config: InlineConfig, env: Env, stringify: Json -> string)
    ensures BuildConfig(config, env, stringify).define.Some?
    ensures forall k :: k in env ==>
              BuildConfig(config, env, stringify).define.value[DefineKey(k)] == JString(stringify(env[k]))
    ensures forall d :: d in config.define.GetOr(map[]) && !(IsDefineKey(d) && EnvKeyOf(d) in env) ==>
              d in BuildConfig(config, env, stringify).define.value &&
              BuildConfig(config, env, stringify).define.value[d] == config.define.value[d]
    ensures BuildConfig(config, env, stringify).(define := config.define) == config
  {
  }

  /** With no overrides the build sees the configured defines unchanged (an
      absent `define` becomes `{}`). */
  lemma BuildConfigWithoutEnv(config: InlineConfig, stringify: Json -> string)
    ensures BuildConfig(config, map[], stringify) == config.(define := Some(config.define.GetOr(map[])))
  {
    var none := EnvDefines(map[], stringify);
    assert none.Keys == {};
    var r := BuildConfig(config, map[], stringify);
    assert r.define.value.Keys == config.define.GetOr(map[]).Keys;
    assert r.define.value == config.define.GetOr(map[]);
  }
}
