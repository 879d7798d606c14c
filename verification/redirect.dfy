/**
 The `wp_redirect` filters that send the admin back to the page a toggle
 link was clicked on, and the `admin_page_access_denied` handlers that
 rescue an admin whose current screen belonged to the plugin just
 deactivated. The two plugins guard the rewrite differently: Plugin Links
 checks a nonce, Smart Plugin Activate does not but decodes the target.
 */
module Redirect {
  import opened Strings
  import opened Host
  import opened Flavours
  import opened Descriptor

  /** The request parameters that are set (`isset`), with their values. */
  type Params = map<string, string>

  /** `wp_validate_redirect( wp_sanitize_redirect( $redirect ), $location )`. */
  function Validated(redirect: string, location: string, u: UrlFns): string {
    u.validateRedirect(u.sanitizeRedirect(redirect), location)
  }

  /** Appends `<param>=wp_create_nonce( 'revive' )` to a location. */
  function WithRevive(param: string, location: string, u: UrlFns, n: Nonces): string {
    u.addQueryArg(param, n.create("revive"), location)
  }

  // ---------------------------------------------------------------------
  // Plugin Links

  /** The guard of Plugin Links' `redirect()`. */
  predicate PluginLinksGuard(location: string, req: Params, u: UrlFns, n: Nonces) {
    && Contains(location, "plugins.php")
    && "pluginlinks_redirect_to" in req && "_wpnonce" in req
    && n.verify(u.clean(req["_wpnonce"]), "pluginlinks_action")
    && !Contains(location, "error=true")
  }

  /** Plugin Links compares the raw `action` parameter. */
  predicate PluginLinksDeactivates(req: Params) {
    "action" in req && req["action"] == "deactivate"
  }

  function PluginLinksTarget(location: string, req: Params, u: UrlFns): string
    requires "pluginlinks_redirect_to" in req
  {
    Validated(u.clean(req["pluginlinks_redirect_to"]), location, u)
  }

  /** Plugin Links' `redirect( $location )`, as written. */
  function PluginLinksRedirect(location: string, req: Params, u: UrlFns, n: Nonces): (r: string)
    ensures !Contains(location, "plugins.php") || Contains(location, "error=true") ==> r == location
    ensures !("_wpnonce" in req && n.verify(u.clean(req["_wpnonce"]), "pluginlinks_action")) ==> r == location
    ensures "pluginlinks_redirect_to" !in req ==> r == location
    ensures PluginLinksGuard(location, req, u, n) && !PluginLinksDeactivates(req) ==> r == PluginLinksTarget(location, req, u)
    ensures PluginLinksGuard(location, req, u, n) && PluginLinksDeactivates(req) ==>
              r == WithRevive("pluginlinks_revive", PluginLinksTarget(location, req, u), u, n)
  {
    if PluginLinksGuard(location, req, u, n) then
      var target := PluginLinksTarget(location, req, u);
      if PluginLinksDeactivates(req) then WithRevive("pluginlinks_revive", target, u, n) else target
    else location
  }

  /** An argument no later argument overrides: its value is the one the
      request ends up with. */
  predicate LastOfItsName(args: seq<(string, string)>, k: nat)
    requires k < |args|
  {
    forall j :: k < j < |args| ==> args[j].0 != args[k].0
  }

  /** The request the host receives when a toggle link is followed: the
      link's arguments, as PHP decodes them from the query string, and the
      `_wpnonce` that `wp_nonce_url()` signed it with. */
  function LinkRequest(l: Link, n: Nonces, decode: string -> string): (req: Params)
    ensures "_wpnonce" in req && req["_wpnonce"] == n.create(l.nonceAction)
    ensures forall k :: 0 <= k < |l.args| && l.args[k].0 != "_wpnonce" ==> l.args[k].0 in req
    ensures forall k :: 0 <= k < |l.args| && l.args[k].0 != "_wpnonce" && LastOfItsName(l.args, k) ==>
              req[l.args[k].0] == decode(l.args[k].1)
  {
    ArgsToParams(l.args, decode)["_wpnonce" := n.create(l.nonceAction)]
  }

  /** Following a link sends its argument names and `_wpnonce`, and no
      other parameter. */
  lemma LinkRequestKeys(l: Link, n: Nonces, decode: string -> string)
    ensures LinkRequest(l, n, decode).Keys == (set k | 0 <= k < |l.args| :: l.args[k].0) + {"_wpnonce"}
  {
  }

  /** Query arguments as request parameters; a later argument wins. */
  function ArgsToParams(args: seq<(string, string)>, decode: string -> string): (req: Params)
    ensures req.Keys == set k | 0 <= k < |args| :: args[k].0
    ensures forall k :: 0 <= k < |args| && LastOfItsName(args, k) ==> req[args[k].0] == decode(args[k].1)
    decreases |args|
  {
    if args == [] then map[]
    else
      var last := args[|args| - 1];
      var init := args[..|args| - 1];
      var req := ArgsToParams(init, decode)[last.0 := decode(last.1)];
      ArgsToParamsStep(args, decode, ArgsToParams(init, decode), req);
      req
  }

  /** The step of `ArgsToParams`: setting the last argument on the request of
      the others. */
  lemma ArgsToParamsStep(args: seq<(string, string)>, decode: string -> string, prev: Params, req: Params)
    requires |args| > 0
    requires prev.Keys == set k | 0 <= k < |args| - 1 :: args[k].0
    requires forall k :: 0 <= k < |args| - 1 && LastOfItsName(args[..|args| - 1], k) ==>
               prev[args[k].0] == decode(args[k].1)
    requires req == prev[args[|args| - 1].0 := decode(args[|args| - 1].1)]
    ensures req.Keys == set k | 0 <= k < |args| :: args[k].0
    ensures forall k :: 0 <= k < |args| && LastOfItsName(args, k) ==> req[args[k].0] == decode(args[k].1)
  {
    var init := args[..|args| - 1];
    var keys := set k | 0 <= k < |args| :: args[k].0;
    forall x | x in keys
      ensures x in req.Keys
    {
      var k :| 0 <= k < |args| && args[k].0 == x;
      if k < |args| - 1 {
        assert x in prev.Keys;
      }
    }
    forall x | x in req.Keys
      ensures x in keys
    {
      if x != args[|args| - 1].0 {
        var k :| 0 <= k < |args| - 1 && args[k].0 == x;
      }
    }
    forall k | 0 <= k < |args| && LastOfItsName(args, k)
      ensures req[args[k].0] == decode(args[k].1)
    {
      if k < |args| - 1 {
        assert args[|args| - 1].0 != args[k].0;
        assert LastOfItsName(init, k);
      }
    }
  }

  /** No toggle nonce action is the action Plugin Links verifies against. */
  lemma ToggleNonceIsNotPluginLinksAction(p: Plugin)
    ensures NonceAction(ToggleAction(p), p.file) != "pluginlinks_action"
  {
    var a := ToggleAction(p);
    var s := NonceAction(a, p.file);
    assert s[|a|] == '-';
    assert "pluginlinks_action"[|a|] != '-';
  }

  /** As written, Plugin Links' redirect never fires for its own toolbar
      links: they are signed for `<action>-plugin_<file>`, while the filter
      checks the nonce against `pluginlinks_action`. */
  lemma PluginLinksIgnoresOwnLinks(p: Plugin, redirect: string, encode: string -> string, decode: string -> string,
                                   location: string, u: UrlFns, n: Nonces)
    requires Ideal(n)
    requires var token := n.create(LinksUrl(p, redirect, encode).nonceAction); u.clean(token) == token
    ensures PluginLinksRedirect(location, LinkRequest(LinksUrl(p, redirect, encode), n, decode), u, n) == location
  {
    var l := LinksUrl(p, redirect, encode);
    ToggleNonceIsNotPluginLinksAction(p);
    IdealRejectsOtherAction(n, l.nonceAction, "pluginlinks_action");
    var req := LinkRequest(l, n, decode);
    UnverifiedNonceKeepsLocation(location, req, u, n);
  }

  /** An ideal nonce made for one action does not verify for another. */
  lemma IdealRejectsOtherAction(n: Nonces, made: string, checked: string)
    requires Ideal(n) && made != checked
    ensures !n.verify(n.create(made), checked)
  {
  }

  /** Without a nonce valid for `pluginlinks_action`, Plugin Links' filter
      leaves the location alone. */
  lemma UnverifiedNonceKeepsLocation(location: string, req: Params, u: UrlFns, n: Nonces)
    requires "_wpnonce" in req && !n.verify(u.clean(req["_wpnonce"]), "pluginlinks_action")
    ensures PluginLinksRedirect(location, req, u, n) == location
  {
  }

  /** The guard with the nonce checked against the action the toolbar link
      was signed for: `<action>-plugin_<plugin>` from the request itself. */
  predicate PluginLinksFixedGuard(location: string, req: Params, u: UrlFns, n: Nonces) {
    && Contains(location, "plugins.php")
    && "pluginlinks_redirect_to" in req && "_wpnonce" in req && "action" in req && "plugin" in req
    && n.verify(u.clean(req["_wpnonce"]), NonceAction(req["action"], req["plugin"]))
    && !Contains(location, "error=true")
  }

  /** Plugin Links' `redirect( $location )`, corrected to verify the nonce
      the toggle link carries. */
  function PluginLinksRedirectFixed(location: string, req: Params, u: UrlFns, n: Nonces): (r: string)
    ensures !Contains(location, "plugins.php") || Contains(location, "error=true") ==> r == location
    ensures !PluginLinksFixedGuard(location, req, u, n) ==> r == location
    ensures PluginLinksFixedGuard(location, req, u, n) && !PluginLinksDeactivates(req) ==> r == PluginLinksTarget(location, req, u)
    ensures PluginLinksFixedGuard(location, req, u, n) && PluginLinksDeactivates(req) ==>
              r == WithRevive("pluginlinks_revive", PluginLinksTarget(location, req, u), u, n)
  {
    if PluginLinksFixedGuard(location, req, u, n) then
      var target := PluginLinksTarget(location, req, u);
      if PluginLinksDeactivates(req) then WithRevive("pluginlinks_revive", target, u, n) else target
    else location
  }

  /** The corrected filter honours Plugin Links' own toolbar links: following
      one back to the Plugins screen is rewritten to the page it came from,
      with the revive nonce exactly when the link deactivates. */
  lemma PluginLinksFixedHonoursOwnLinks(p: Plugin, redirect: string, encode: string -> string, decode: string -> string,
                                        location: string, u: UrlFns, n: Nonces)
    requires Ideal(n)
    requires var token := n.create(LinksUrl(p, redirect, encode).nonceAction); u.clean(token) == token
    requires decode(ToggleAction(p)) == ToggleAction(p) && decode(p.file) == p.file
    requires !PhpEmpty(redirect)
    requires Contains(location, "plugins.php") && !Contains(location, "error=true")
    ensures var req := LinkRequest(LinksUrl(p, redirect, encode), n, decode);
            var target := Validated(u.clean(decode(encode(redirect))), location, u);
            PluginLinksRedirectFixed(location, req, u, n)
              == if IsActive(p) then WithRevive("pluginlinks_revive", target, u, n) else target
  {
    var l := LinksUrl(p, redirect, encode);
    assert l == ToggleLink(PluginLinks, p, redirect, encode);
    var args := l.args;
    assert |args| == 3;
    assert args[2] == ("pluginlinks_redirect_to", encode(redirect));
    assert LastOfItsName(args, 0) && LastOfItsName(args, 1) && LastOfItsName(args, 2);
    var req := LinkRequest(l, n, decode);
    assert req["action"] == ToggleAction(p);
    assert req["plugin"] == p.file;
    assert req["pluginlinks_redirect_to"] == decode(encode(redirect));
    assert PluginLinksFixedGuard(location, req, u, n);
  }

  // ---------------------------------------------------------------------
  // Smart Plugin Activate

  /** The guard of Smart Plugin Activate's `redirect()`: no nonce, and the
      target must be non-empty in PHP's sense. */
  predicate SmartGuard(location: string, req: Params) {
    && Contains(location, "plugins.php")
    && "smartpluginactivate_redirect_to" in req && !PhpEmpty(req["smartpluginactivate_redirect_to"])
    && !Contains(location, "error=true")
  }

  /** Smart Plugin Activate compares the sanitised `action` parameter. */
  predicate SmartDeactivates(req: Params, u: UrlFns) {
    "action" in req && u.clean(req["action"]) == "deactivate"
  }

  function SmartTarget(location: string, req: Params, u: UrlFns): string
    requires "smartpluginactivate_redirect_to" in req
  {
    Validated(u.rawDecode(u.clean(req["smartpluginactivate_redirect_to"])), location, u)
  }

  /** Smart Plugin Activate's `redirect( $location )`. */
  function SmartRedirect(location: string, req: Params, u: UrlFns, n: Nonces): (r: string)
    ensures !Contains(location, "plugins.php") || Contains(location, "error=true") ==> r == location
    ensures "smartpluginactivate_redirect_to" !in req || PhpEmpty(req["smartpluginactivate_redirect_to"]) ==> r == location
    ensures SmartGuard(location, req) && !SmartDeactivates(req, u) ==> r == SmartTarget(location, req, u)
    ensures SmartGuard(location, req) && SmartDeactivates(req, u) ==>
              r == WithRevive("smartpluginactivate_revive", SmartTarget(location, req, u), u, n)
  {
    if SmartGuard(location, req) then
      var target := SmartTarget(location, req, u);
      if SmartDeactivates(req, u) then WithRevive("smartpluginactivate_revive", target, u, n) else target
    else location
  }

  /** Smart Plugin Activate's filter honours its own toolbar links: following
      one with a non-empty return page back to the Plugins screen is
      rewritten to that page, decoded and validated, with the revive nonce
      exactly when the link deactivates. This is the behaviour the Plugin
      Links filter misses. */
  lemma SmartHonoursOwnLinks(p: Plugin, redirect: string, encode: string -> string, decode: string -> string,
                             location: string, u: UrlFns, n: Nonces)
    requires decode(ToggleAction(p)) == ToggleAction(p) && decode(p.file) == p.file
    requires u.clean(ToggleAction(p)) == ToggleAction(p)
    requires decode(encode(redirect)) == redirect && !PhpEmpty(redirect)
    requires Contains(location, "plugins.php") && !Contains(location, "error=true")
    ensures var req := LinkRequest(ToggleUrl(p, redirect, encode), n, decode);
            var target := Validated(u.rawDecode(u.clean(redirect)), location, u);
            SmartRedirect(location, req, u, n)
              == if IsActive(p) then WithRevive("smartpluginactivate_revive", target, u, n) else target
  {
    var l := ToggleUrl(p, redirect, encode);
    assert l == ToggleLink(SmartPluginActivate, p, redirect, encode);
    var args := l.args;
    assert |args| == 3;
    assert args[2] == ("smartpluginactivate_redirect_to", encode(redirect));
    assert LastOfItsName(args, 0) && LastOfItsName(args, 1) && LastOfItsName(args, 2);
    var req := LinkRequest(l, n, decode);
    assert req["action"] == ToggleAction(p);
    assert req["smartpluginactivate_redirect_to"] == redirect;
    assert SmartGuard(location, req);
  }

  /** A Smart Plugin Activate link built with an empty return page carries
      no redirect parameter, so following it leaves the location alone. */
  lemma SmartKeepsLocationWithoutReturnPage(p: Plugin, redirect: string, encode: string -> string,
                                            decode: string -> string, location: string, u: UrlFns, n: Nonces)
    requires PhpEmpty(redirect)
    ensures SmartRedirect(location, LinkRequest(ToggleUrl(p, redirect, encode), n, decode), u, n) == location
  {
    var l := ToggleUrl(p, redirect, encode);
    LinkRequestKeys(l, n, decode);
    assert "smartpluginactivate_redirect_to" !in LinkRequest(l, n, decode);
  }

  /** Smart Plugin Activate's filter does not look at `_wpnonce` at all:
      setting, changing or dropping it changes nothing. */
  lemma SmartRedirectIgnoresNonce(location: string, req: Params, token: string, u: UrlFns, n: Nonces)
    ensures SmartRedirect(location, req["_wpnonce" := token], u, n) == SmartRedirect(location, req, u, n)
    ensures SmartRedirect(location, req - {"_wpnonce"}, u, n) == SmartRedirect(location, req, u, n)
  {
  }

  /** In both plugins the revive argument is added only for a deactivation:
      any other request leaves the location or sends it to the target. */
  lemma ReviveOnlyOnDeactivate(location: string, req: Params, u: UrlFns, n: Nonces)
    ensures !PluginLinksDeactivates(req) ==>
              var r := PluginLinksRedirect(location, req, u, n);
              r == location || ("pluginlinks_redirect_to" in req && r == PluginLinksTarget(location, req, u))
    ensures !SmartDeactivates(req, u) ==>
              var r := SmartRedirect(location, req, u, n);
              r == location || ("smartpluginactivate_redirect_to" in req && r == SmartTarget(location, req, u))
  {
  }

  // ---------------------------------------------------------------------
  // The access-denied handlers

  /** `wp_safe_redirect( self_admin_url( 'plugins.php' ) ); exit;`, or nothing. */
  datatype Outcome = Stay | ToPluginsScreen

  /** Plugin Links' `redirect_disabled_screen()`: `isset` and a valid nonce. */
  function PluginLinksReviveScreen(get: Params, u: UrlFns, n: Nonces): (o: Outcome)
    ensures o == ToPluginsScreen <==> "pluginlinks_revive" in get && n.verify(u.clean(get["pluginlinks_revive"]), "revive")
  {
    if "pluginlinks_revive" in get && n.verify(u.clean(get["pluginlinks_revive"]), "revive") then ToPluginsScreen else Stay
  }

  /** Smart Plugin Activate's `redirect_disabled_screen()`: it returns early
      when the parameter is empty (including "0") or its nonce fails. */
  function SmartReviveScreen(get: Params, u: UrlFns, n: Nonces): (o: Outcome)
    ensures o == Stay <==> "smartpluginactivate_revive" !in get || PhpEmpty(get["smartpluginactivate_revive"])
                           || !n.verify(u.clean(get["smartpluginactivate_revive"]), "revive")
  {
    if "smartpluginactivate_revive" !in get || PhpEmpty(get["smartpluginactivate_revive"])
       || !n.verify(u.clean(get["smartpluginactivate_revive"]), "revive")
    then Stay
    else ToPluginsScreen
  }

  /** The revive nonce added on deactivation is honoured by the handler of
      the same plugin, and a nonce made for any other action is not. */
  lemma ReviveTokenRoundTrip(token: string, action: string, u: UrlFns, n: Nonces)
    requires Ideal(n)
    requires token == n.create(action) && u.clean(token) == token && !PhpEmpty(token)
    ensures PluginLinksReviveScreen(map["pluginlinks_revive" := token], u, n) == ToPluginsScreen <==> action == "revive"
    ensures SmartReviveScreen(map["smartpluginactivate_revive" := token], u, n) == ToPluginsScreen <==> action == "revive"
  {
  }
}
