/**
 * The build plugin itself (packages/vite/src/index.ts): it computes the
 * registration code once, when it is created, and prepends it to the entry
 * module whenever the bundler transforms that module.
 */
module VitePlugin {
  import opened Wrappers
  import opened Strings
  import ViteCode

  const DEFAULT_ENTRY: string := "src/main.tsx"
  const PLUGIN_NAME: string := "vite-plugin-zille"

  datatype PluginOptions = PluginOptions(
    directory: Option<string>,
    suffix: Option<string>,
    eager: Option<bool>,
    entry: Option<string>)

  datatype Plugin = Plugin(name: string, entry: string, syscode: ViteCode.Injection)

  /** The transformed module: `syscode + "\n" + code`. */
  datatype Transformed = Prepended(syscode: ViteCode.Injection, code: string)

  /** `createZilleVitePlugin`: `entry` is split off and every other option goes to the generator. */
  function CreatePlugin(options: PluginOptions): (p: Plugin)
    ensures p.name == PLUGIN_NAME
    ensures p.entry == (if options.entry.Some? then options.entry.value else DEFAULT_ENTRY)
    ensures p.syscode == ViteCode.MakeInjectionCode(
      ViteCode.InjectionOptions(options.eager, options.directory, options.suffix))
  {
    var rest := ViteCode.InjectionOptions(options.eager, options.directory, options.suffix);
    Plugin(PLUGIN_NAME, options.entry.GetOr(DEFAULT_ENTRY), ViteCode.MakeInjectionCode(rest))
  }

  /**
   * `id.replace(/\\\\/g, '/')`: the regular expression matches two
   * consecutive backslashes, so each such pair (left to right, without
   * overlap) becomes one `/` and a lone backslash stays.
   */
  function NormalizeId(id: string): string
    decreases |id|
  {
    if |id| >= 2 && id[0] == '\\' && id[1] == '\\' then "/" + NormalizeId(id[2..])
    else if id == [] then []
    else [id[0]] + NormalizeId(id[1..])
  }

  /** `transform(code, id)`: `None` stands for returning `undefined` (the module is left as it is). */
  function Transform(plugin: Plugin, code: string, id: string): (r: Option<Transformed>)
    ensures r.Some? <==> EndsWith(NormalizeId(id), plugin.entry)
    ensures r.Some? ==> r.value == Prepended(plugin.syscode, code)
  {
    if EndsWith(NormalizeId(id), plugin.entry) then Some(Prepended(plugin.syscode, code)) else None
  }

  predicate NoBackslash(s: string) {
    forall k :: 0 <= k < |s| ==> s[k] != '\\'
  }

  /** An id without backslashes is compared as it is. */
  lemma {:induction false} NormalizeIdentity(id: string)
    requires NoBackslash(id)
    ensures NormalizeId(id) == id
    decreases |id|
  {
    if id != [] {
      NormalizeIdentity(id[1..]);
      assert id == [id[0]] + id[1..];
    }
  }

  /** Normalising never leaves two backslashes side by side. */
  lemma {:induction false} NormalizedHasNoPair(id: string)
    ensures forall k :: 0 <= k < |NormalizeId(id)| - 1 ==> !(NormalizeId(id)[k] == '\\' && NormalizeId(id)[k + 1] == '\\')
    ensures NormalizeId(id) != [] && NormalizeId(id)[0] == '\\' ==> id[0] == '\\' && (|id| == 1 || id[1] != '\\')
    decreases |id|
  {
    if |id| >= 2 && id[0] == '\\' && id[1] == '\\' {
      NormalizedHasNoPair(id[2..]);
    } else if id != [] {
      NormalizedHasNoPair(id[1..]);
      var r := NormalizeId(id);
      assert r == [id[0]] + NormalizeId(id[1..]);
    }
  }

  /** Spells every `/` of a path as two backslashes. */
  function DoubleSeparators(s: string): (r: string)
    ensures |r| >= |s|
  {
    if s == [] then []
    else (if s[0] == '/' then "\\\\" else [s[0]]) + DoubleSeparators(s[1..])
  }

  /** A path whose separators were doubled normalises back to the path. */
  lemma {:induction false} DoubledSeparatorsNormalize(s: string)
    requires NoBackslash(s)
    ensures NormalizeId(DoubleSeparators(s)) == s
    decreases |s|
  {
    if s != [] {
      DoubledSeparatorsNormalize(s[1..]);
      var t := DoubleSeparators(s[1..]);
      if s[0] == '/' {
        var d := "\\\\" + t;
        assert d[2..] == t;
      } else {
        var d := [s[0]] + t;
        assert d[1..] == t;
      }
      assert s == [s[0]] + s[1..];
    }
  }

  /** The plugin recognises the entry whether the bundler reports its id with `/` or with doubled backslashes. */
  lemma TransformIgnoresDoubledSeparators(plugin: Plugin, code: string, id: string)
    requires NoBackslash(id)
    ensures Transform(plugin, code, DoubleSeparators(id)) == Transform(plugin, code, id)
  {
    DoubledSeparatorsNormalize(id);
    NormalizeIdentity(id);
  }
}
