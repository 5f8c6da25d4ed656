/** `AfterEffectsAddon`: the launch environment defaults, the workfile extension and the
    folder of launch hooks the addon offers to the application launcher. */
module Addon {
  import opened PosixPath

  const HostName := "aftereffects"

  /** The defaults, in the order the dictionary literal lists them. */
  function Defaults(): (d: seq<(string, string)>)
    ensures |d| == 2 && d[0].0 != d[1].0
    ensures forall k :: 0 <= k < |d| ==> d[k].1 != ""
  {
    [("AYON_LOG_NO_COLORS", "1"), ("WEBSOCKET_URL", "ws://localhost:8097/ws/")]
  }

  /** `not env.get(key)`: the key is absent or holds the empty string. */
  predicate Unset(vars: map<string, string>, key: string) {
    key !in vars || vars[key] == ""
  }

  /** The environment after the loop has visited `defaults`. */
  function WithDefaults(vars: map<string, string>, defaults: seq<(string, string)>): map<string, string> {
    if defaults == [] then vars
    else
      var prev := WithDefaults(vars, defaults[..|defaults| - 1]);
      var (key, value) := defaults[|defaults| - 1];
      if Unset(prev, key) then prev[key := value] else prev
  }

  /** The environment dictionary handed to the addon; it is changed in place. */
  class LaunchEnv {
    var vars: map<string, string>

    constructor (vars: map<string, string>)
      ensures this.vars == vars
    {
      this.vars := vars;
    }
  }

  /** `add_implementation_envs`. */
  method AddImplementationEnvs(env: LaunchEnv)
    modifies env
    ensures env.vars == WithDefaults(old(env.vars), Defaults())
  {
    var defaults := Defaults();
    var i := 0;
    while i < |defaults|
      invariant 0 <= i <= |defaults|
      invariant env.vars == WithDefaults(old(env.vars), defaults[..i])
    {
      assert defaults[..i + 1][..i] == defaults[..i];
      var (key, value) := defaults[i];
      if key !in env.vars || env.vars[key] == "" {
        env.vars := env.vars[key := value];
      }
      i := i + 1;
    }
    assert defaults[..i] == defaults;
  }

  /** What happens to one key: a key no default names is untouched; a default's key keeps
      a non-empty value and takes the default otherwise. */
  lemma {:induction false} WithDefaultsAt(vars: map<string, string>, defaults: seq<(string, string)>, key: string)
    requires forall a, b :: 0 <= a < b < |defaults| ==> defaults[a].0 != defaults[b].0
    ensures (forall k :: 0 <= k < |defaults| ==> defaults[k].0 != key) ==>
              (key in WithDefaults(vars, defaults) <==> key in vars) &&
              (key in vars ==> WithDefaults(vars, defaults)[key] == vars[key])
    ensures forall k :: 0 <= k < |defaults| && defaults[k].0 == key ==>
              key in WithDefaults(vars, defaults) &&
              WithDefaults(vars, defaults)[key] == (if Unset(vars, key) then defaults[k].1 else vars[key])
    decreases |defaults|
  {
    if defaults != [] {
      var init := defaults[..|defaults| - 1];
      assert forall a, b :: 0 <= a < b < |init| ==> init[a].0 != init[b].0 by {
        forall a, b | 0 <= a < b < |init| ensures init[a].0 != init[b].0 {
          assert init[a] == defaults[a] && init[b] == defaults[b];
        }
      }
      WithDefaultsAt(vars, init, key);
      forall k | 0 <= k < |init| ensures init[k] == defaults[k] { }
    }
  }

  /** Afterwards both variables hold a non-empty value: the one they had, or the default
      (`ws://localhost:8097/ws/` for `WEBSOCKET_URL`); every other key is untouched. */
  lemma DefaultsApplied(vars: map<string, string>)
    ensures var r := WithDefaults(vars, Defaults());
            && "AYON_LOG_NO_COLORS" in r && r["AYON_LOG_NO_COLORS"] != ""
            && "WEBSOCKET_URL" in r && r["WEBSOCKET_URL"] != ""
            && r["AYON_LOG_NO_COLORS"] == (if Unset(vars, "AYON_LOG_NO_COLORS") then "1" else vars["AYON_LOG_NO_COLORS"])
            && r["WEBSOCKET_URL"] == (if Unset(vars, "WEBSOCKET_URL") then "ws://localhost:8097/ws/" else vars["WEBSOCKET_URL"])
    ensures forall key :: key != "AYON_LOG_NO_COLORS" && key != "WEBSOCKET_URL" ==>
              (key in WithDefaults(vars, Defaults()) <==> key in vars) &&
              (key in vars ==> WithDefaults(vars, Defaults())[key] == vars[key])
  {
    var d := Defaults();
    WithDefaultsAt(vars, d, "AYON_LOG_NO_COLORS");
    WithDefaultsAt(vars, d, "WEBSOCKET_URL");
    forall key | key != "AYON_LOG_NO_COLORS" && key != "WEBSOCKET_URL"
      ensures (key in WithDefaults(vars, d) <==> key in vars) &&
              (key in vars ==> WithDefaults(vars, d)[key] == vars[key])
    {
      WithDefaultsAt(vars, d, key);
    }
  }

  /** Calling `add_implementation_envs` twice is the same as calling it once. */
  lemma DefaultsIdempotent(vars: map<string, string>)
    ensures WithDefaults(WithDefaults(vars, Defaults()), Defaults()) == WithDefaults(vars, Defaults())
  {
    var once := WithDefaults(vars, Defaults());
    var twice := WithDefaults(once, Defaults());
    DefaultsApplied(vars);
    DefaultsApplied(once);
    assert twice.Keys == once.Keys;
    forall key | key in once ensures twice[key] == once[key] { }
  }

  /** `get_workfile_extensions`. */
  function WorkfileExtensions(): (r: seq<string>)
    ensures r == [".aep"]
  {
    [".aep"]
  }

  /** `get_launch_hook_paths`: nothing for another host, else the `hooks` folder next to
      the addon (`addonRoot` is the folder of `addon.py`). */
  function LaunchHookPaths(appHostName: string, addonRoot: string): (r: seq<string>)
    ensures appHostName != HostName <==> r == []
    ensures r != [] ==> |r| == 1 && Basename(r[0]) == "hooks"
    ensures r != [] && DirShape(addonRoot) ==> Dirname(r[0]) == addonRoot
  {
    if appHostName != HostName then []
    else
      BasenameOfJoin(addonRoot, "hooks");
      if DirShape(addonRoot) then DirnameOfJoin(addonRoot, "hooks"); [Join(addonRoot, "hooks")]
      else [Join(addonRoot, "hooks")]
  }
}
