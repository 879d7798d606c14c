/**
 One installed plugin as both plugins' descriptor classes
 (SmartPluginActivate_Plugin and PluginLinks_Plugin, which are the same code
 under two names) see it: built once from host queries, then read-only.
 */
module Descriptor {
  import opened Wrappers
  import opened Strings
  import opened Host
  import opened Flavours

  datatype Status = Active | Inactive

  /** The two values `$network_status` can take once set. */
  datatype NetworkStatus = NetworkActivated | NetworkOnly

  datatype Plugin = Plugin(name: string, file: string, status: Status, network: Option<NetworkStatus>)

  /** `$data['Name']`; a missing header reads as PHP's null, which prints as "". */
  function NameOf(data: map<string, string>): string {
    if "Name" in data then data["Name"] else ""
  }

  predicate IsActive(p: Plugin) {
    p.status == Active
  }

  /** `set_status()`: the host's active flag, read once at construction. */
  function StatusOf(file: string, env: Env): (s: Status)
    ensures s == Active <==> env.isActive(file)
  {
    if env.isActive(file) then Active else Inactive
  }

  /** `set_network_status()`: left unset on a single site; on a network,
      network activation wins over network-only, and neither leaves it unset. */
  function NetworkStatusOf(file: string, env: Env): (ns: Option<NetworkStatus>)
    ensures !env.multisite ==> ns == None
    ensures ns == Some(NetworkActivated) <==> env.multisite && env.isActiveForNetwork(file)
    ensures ns == Some(NetworkOnly) <==> env.multisite && !env.isActiveForNetwork(file) && env.isNetworkOnly(file)
    ensures ns.Some? <==> env.multisite && (env.isActiveForNetwork(file) || env.isNetworkOnly(file))
  {
    if !env.multisite then None
    else if env.isActiveForNetwork(file) then Some(NetworkActivated)
    else if env.isNetworkOnly(file) then Some(NetworkOnly)
    else None
  }

  /** The constructor: metadata is read from disk only when none was passed in. */
  function Construct(file: string, data: map<string, string>, env: Env): (p: Plugin)
    ensures p.file == file
    ensures |data| > 0 ==> p.name == NameOf(data)
    ensures |data| == 0 ==> p.name == NameOf(env.pluginData(file))
    ensures IsActive(p) <==> env.isActive(file)
    ensures p.network.Some? ==> env.multisite
  {
    var meta := if |data| == 0 then env.pluginData(file) else data;
    Plugin(NameOf(meta), file, StatusOf(file, env), NetworkStatusOf(file, env))
  }

  /** Passing metadata in makes the descriptor independent of the host's
      metadata reader: two hosts that differ only there build the same plugin. */
  lemma MetadataReadOnlyWhenMissing(file: string, data: map<string, string>, env1: Env, env2: Env)
    requires |data| > 0
    requires env1.multisite == env2.multisite
    requires env1.isActive(file) == env2.isActive(file)
    requires env1.isActiveForNetwork(file) == env2.isActiveForNetwork(file)
    requires env1.isNetworkOnly(file) == env2.isNetworkOnly(file)
    ensures Construct(file, data, env1) == Construct(file, data, env2)
  {
  }

  /** `is_network_related()`: the plugin is hidden from site-level toggles. */
  predicate IsNetworkRelated(p: Plugin, v: View) {
    v.multisite && (!v.admin || !v.networkScreen) && p.network.Some?
  }

  /** What the host must say for a freshly built descriptor to be hidden:
      never on a single site, never on a network admin screen, and otherwise
      exactly when it is active network-wide or network-only. */
  lemma NetworkRelatedFromHost(file: string, data: map<string, string>, env: Env, v: View)
    ensures IsNetworkRelated(Construct(file, data, env), v)
        <==> v.multisite && (!v.admin || !v.networkScreen)
             && env.multisite && (env.isActiveForNetwork(file) || env.isNetworkOnly(file))
  {
  }

  /** The action a toggle link asks for: the opposite of the current state. */
  function ToggleAction(p: Plugin): (a: string)
    ensures a == "deactivate" <==> IsActive(p)
    ensures a == "activate" <==> !IsActive(p)
  {
    if IsActive(p) then "deactivate" else "activate"
  }

  /** The nonce action a toggle link is signed for: `$action . '-plugin_' . $file`. */
  function NonceAction(action: string, file: string): (s: string)
    ensures StartsWith(s, action)
    ensures s[|action|..] == "-plugin_" + file
  {
    action + "-plugin_" + file
  }

  /** A toggle's nonce action names its action and file unambiguously, so a
      nonce for one plugin or direction never stands in for another. */
  lemma NonceActionInjective(a1: string, f1: string, a2: string, f2: string)
    requires a1 in {"activate", "deactivate"} && a2 in {"activate", "deactivate"}
    requires NonceAction(a1, f1) == NonceAction(a2, f2)
    ensures a1 == a2 && f1 == f2
  {
    var s := NonceAction(a1, f1);
    assert s[0] == a1[0] && s[0] == a2[0];
    assert a1 == a2;
    assert s[|a1| + 8..] == f1 && s[|a2| + 8..] == f2;
  }

  /** A toggle URL before the host renders it: the admin page, its query
      arguments in order, and the nonce action it is signed for. */
  datatype Link = Link(page: string, args: seq<(string, string)>, nonceAction: string)

  /** `get_toggle_url()` / `get_links_url()`; `encode` is `rawurlencode`. */
  function ToggleLink(f: Flavour, p: Plugin, redirect: string, encode: string -> string): (l: Link)
    ensures l.page == "plugins.php"
    ensures |l.args| >= 2 && l.args[0] == ("action", ToggleAction(p)) && l.args[1] == ("plugin", p.file)
    ensures |l.args| == 3 <==> !PhpEmpty(redirect)
    ensures |l.args| <= 3
    ensures |l.args| == 3 ==> l.args[2] == (f.RedirectParam(), encode(redirect))
    ensures l.nonceAction == NonceAction(ToggleAction(p), p.file)
  {
    var action := ToggleAction(p);
    var args := [("action", action), ("plugin", p.file)];
    var args := if PhpEmpty(redirect) then args else args + [(f.RedirectParam(), encode(redirect))];
    Link("plugins.php", args, NonceAction(action, p.file))
  }

  /** Smart Plugin Activate's `get_toggle_url()`. */
  function ToggleUrl(p: Plugin, redirect: string, encode: string -> string): (l: Link)
    ensures (exists i :: 0 <= i < |l.args| && l.args[i].0 == "smartpluginactivate_redirect_to") <==> !PhpEmpty(redirect)
    ensures |l.args| >= 2 && l.args[0] == ("action", ToggleAction(p)) && l.args[1] == ("plugin", p.file)
    ensures l.nonceAction == NonceAction(ToggleAction(p), p.file)
  {
    ToggleLink(SmartPluginActivate, p, redirect, encode)
  }

  /** Plugin Links' `get_links_url()`. */
  function LinksUrl(p: Plugin, redirect: string, encode: string -> string): (l: Link)
    ensures (exists i :: 0 <= i < |l.args| && l.args[i].0 == "pluginlinks_redirect_to") <==> !PhpEmpty(redirect)
    ensures |l.args| >= 2 && l.args[0] == ("action", ToggleAction(p)) && l.args[1] == ("plugin", p.file)
    ensures l.nonceAction == NonceAction(ToggleAction(p), p.file)
  {
    ToggleLink(PluginLinks, p, redirect, encode)
  }

  /** Following a toggle link flips it: once the host has performed the
      link's action, the rebuilt descriptor offers the opposite action. */
  lemma ToggleFlipsAction(f: Flavour, file: string, data: map<string, string>, env: Env, env': Env,
                          redirect: string, encode: string -> string)
    requires env'.isActive(file) == (ToggleLink(f, Construct(file, data, env), redirect, encode).args[0].1 == "activate")
    ensures IsActive(Construct(file, data, env')) == !IsActive(Construct(file, data, env))
    ensures ToggleAction(Construct(file, data, env')) != ToggleAction(Construct(file, data, env))
  {
  }
}
