/**
 The toolbar presenters. Each emits the sequence of `add_node` / `remove_node`
 calls it makes on the host's toolbar; the host's handling of those calls is
 not part of the model. Smart Plugin Activate removes its top node when no
 plugin is visible; Plugin Links leaves it in place.
 */
module Toolbar {
  import opened Wrappers
  import opened Host
  import opened Flavours
  import opened Descriptor
  import opened CurrentUrl
  import opened PluginCache

  datatype Href = NoHref | AdminPage(page: string) | ToggleHref(link: Link)

  /** The `$node_args` passed to `add_node()`; an empty `cls` is no class. */
  datatype Node = Node(id: string, title: string, href: Href, parent: string, group: bool, cls: string)

  datatype Op = AddNode(node: Node) | RemoveNode(id: string)

  /** Host text functions the presenters use. */
  datatype Render = Render(
    slug: string -> string,    // sanitize_title()
    encode: string -> string,  // rawurlencode()
    url: Url -> string,        // the URL as text
    escape: string -> string   // esc_url()
  )

  /** `add_top_level_node( $plugin_count )`. */
  function TopNode(f: Flavour, count: int): (n: Node)
    ensures n.id == f.MenuId() && n.href == AdminPage("plugins.php") && !n.group
    ensures n.cls == "has-many" <==> count > 20
    ensures n.cls == "" <==> count <= 20
  {
    Node(f.MenuId(), "Plugins", AdminPage("plugins.php"), "", false, if count > 20 then "has-many" else "")
  }

  /** `add_group_to_node()`. */
  function GroupNode(f: Flavour): (n: Node)
    ensures n.id == f.GroupId() && n.parent == f.MenuId() && n.group
  {
    Node(f.GroupId(), "", NoHref, f.MenuId(), true, "")
  }

  /** `add_plugin_to_group( $plugin )`, given the current URL. */
  function ChildNode(f: Flavour, p: Plugin, redirect: string, r: Render): (n: Node)
    ensures n.parent == f.GroupId() && !n.group
    ensures n.cls == "is-active" <==> IsActive(p)
  {
    Node(f.ChildIdPrefix() + r.slug(p.name), p.name, ToggleHref(ToggleLink(f, p, redirect, r.encode)),
         f.GroupId(), false, if IsActive(p) then "is-active" else "")
  }

  /** The plugins that get a node: those not network related, in order. */
  function Visible(plugins: seq<Plugin>, v: View): (vis: seq<Plugin>)
    ensures |vis| <= |plugins|
  {
    if plugins == [] then []
    else
      var last := plugins[|plugins| - 1];
      Visible(plugins[..|plugins| - 1], v) + (if IsNetworkRelated(last, v) then [] else [last])
  }

  /** A plugin is visible exactly when it is listed and not network related. */
  lemma {:induction false} VisibleIsFilter(plugins: seq<Plugin>, v: View)
    ensures forall k :: 0 <= k < |Visible(plugins, v)| ==>
              Visible(plugins, v)[k] in plugins && !IsNetworkRelated(Visible(plugins, v)[k], v)
    ensures forall i :: 0 <= i < |plugins| && !IsNetworkRelated(plugins[i], v) ==> plugins[i] in Visible(plugins, v)
    decreases |plugins|
  {
    if plugins != [] {
      var init := plugins[..|plugins| - 1];
      VisibleIsFilter(init, v);
      assert forall i :: 0 <= i < |init| ==> init[i] == plugins[i];
      assert plugins == init + [plugins[|plugins| - 1]];
    }
  }

  /** Filtering keeps order: the visible part of a concatenation is the
      concatenation of the visible parts. */
  lemma {:induction false} VisibleKeepsOrder(a: seq<Plugin>, b: seq<Plugin>, v: View)
    ensures Visible(a + b, v) == Visible(a, v) + Visible(b, v)
    decreases |b|
  {
    if b == [] {
      assert a + b == a;
    } else {
      var b' := b[..|b| - 1];
      assert (a + b)[..|a + b| - 1] == a + b';
      assert (a + b)[|a + b| - 1] == b[|b| - 1];
      VisibleKeepsOrder(a, b', v);
    }
  }

  /** Nothing is hidden on a single site, or on a network admin screen. */
  lemma {:induction false} AllVisibleOutsideSiteScreens(plugins: seq<Plugin>, v: View)
    requires !v.multisite || (v.admin && v.networkScreen)
    ensures Visible(plugins, v) == plugins
    decreases |plugins|
  {
    if plugins != [] {
      AllVisibleOutsideSiteScreens(plugins[..|plugins| - 1], v);
    }
  }

  /** No plugin is visible exactly when every plugin is network related. */
  lemma NoneVisibleIffAllNetworkRelated(plugins: seq<Plugin>, v: View)
    ensures |Visible(plugins, v)| == 0 <==> forall i :: 0 <= i < |plugins| ==> IsNetworkRelated(plugins[i], v)
  {
    VisibleIsFilter(plugins, v);
    if |Visible(plugins, v)| > 0 {
      var p := Visible(plugins, v)[0];
      assert p in plugins;
    }
  }

  /** The value `get_current_url()` hands to the toggle link as its return
      page: Smart Plugin Activate passes the remembered URL through
      `esc_url()`, so an `&` in it reaches the link as `&#038;`; Plugin Links
      returns it as it is. */
  function ReturnUrl(f: Flavour, r: Render, url: string): (s: string)
    ensures f == PluginLinks ==> s == url
    ensures f == SmartPluginActivate ==> s == r.escape(url)
  {
    match f
    case PluginLinks => url
    case SmartPluginActivate => r.escape(url)
  }

  /** How a presenter turns a visible plugin and the current URL into its
      `add_node()` call. */
  function ChildMaker(f: Flavour, r: Render): (Plugin, string) -> Op {
    (p: Plugin, url: string) => AddNode(ChildNode(f, p, ReturnUrl(f, r, url), r))
  }

  /** One `add_node()` per visible plugin, all with the same current URL. */
  function Children(mk: (Plugin, string) -> Op, vis: seq<Plugin>, url: string): (ops: seq<Op>)
    ensures |ops| == |vis|
  {
    if vis == [] then []
    else Children(mk, vis[..|vis| - 1], url) + [mk(vis[|vis| - 1], url)]
  }

  /** The k-th child is the node of the k-th visible plugin. */
  lemma {:induction false} ChildrenAreNodes(mk: (Plugin, string) -> Op, vis: seq<Plugin>, url: string)
    ensures forall k :: 0 <= k < |vis| ==> Children(mk, vis, url)[k] == mk(vis[k], url)
    decreases |vis|
  {
    if vis != [] {
      var init := vis[..|vis| - 1];
      ChildrenAreNodes(mk, init, url);
      var ops := Children(mk, vis, url);
      assert ops == Children(mk, init, url) + [mk(vis[|vis| - 1], url)];
      forall k | 0 <= k < |vis|
        ensures ops[k] == mk(vis[k], url)
      {
        if k < |init| {
          assert init[k] == vis[k];
        }
      }
    }
  }

  /** The loop over the plugins shared by both presenters: one child per
      plugin that is not network related, the current URL computed on first
      use and reused; `visible` counts the children added. */
  method AddVisibleChildren(mk: (Plugin, string) -> Op, plugins: seq<Plugin>, v: View, req: Request, render: Url -> string)
    returns (ops: seq<Op>, visible: nat)
    ensures ops == Children(mk, Visible(plugins, v), FreshUrl(req, render))
    ensures visible == |Visible(plugins, v)| && |ops| == visible
  {
    var url := FreshUrl(req, render);
    var memo := "";
    ghost var vis: seq<Plugin> := [];
    ops := [];
    visible := 0;
    var i := 0;
    while i < |plugins|
      invariant 0 <= i <= |plugins|
      invariant memo == "" || memo == url
      invariant vis == Visible(plugins[..i], v)
      invariant ops == Children(mk, vis, url)
      invariant visible == |vis|
    {
      var p := plugins[i];
      VisibleStep(plugins, i, v);
      if !IsNetworkRelated(p, v) {
        SameUrlThroughout(memo, req, render);
        var m := GetCurrentUrl(memo, req, render);
        memo := m.memo;
        ChildrenStep(mk, vis, p, url);
        ops := ops + [mk(p, m.url)];
        vis := vis + [p];
        visible := visible + 1;
      }
      i := i + 1;
    }
    assert plugins[..i] == plugins;
  }

  /** One more plugin extends the visible list by it or by nothing. */
  lemma VisibleStep(plugins: seq<Plugin>, i: nat, v: View)
    requires i < |plugins|
    ensures Visible(plugins[..i + 1], v)
         == Visible(plugins[..i], v) + (if IsNetworkRelated(plugins[i], v) then [] else [plugins[i]])
  {
    assert plugins[..i + 1][..i] == plugins[..i];
  }

  /** One more visible plugin appends one child. */
  lemma ChildrenStep(mk: (Plugin, string) -> Op, vis: seq<Plugin>, p: Plugin, url: string)
    ensures Children(mk, vis + [p], url) == Children(mk, vis, url) + [mk(p, url)]
  {
    assert (vis + [p])[..|vis|] == vis;
  }

  /** Each child node stands for the visible plugin at the same position: it
      hangs off the group node, is marked `is-active` exactly when the plugin
      is active, and links to the plugin's toggle with the current URL, as
      `get_current_url()` returns it, for the page to return to. */
  lemma ChildrenDescribeVisible(f: Flavour, plugins: seq<Plugin>, v: View, url: string, r: Render)
    ensures var vis := Visible(plugins, v);
            var ops := Children(ChildMaker(f, r), vis, url);
            forall k :: 0 <= k < |ops| ==>
              && ops[k].AddNode?
              && ops[k].node.parent == f.GroupId()
              && (ops[k].node.cls == "is-active" <==> IsActive(vis[k]))
              && ops[k].node.href == ToggleHref(ToggleLink(f, vis[k], ReturnUrl(f, r, url), r.encode))
  {
    ChildrenAreNodes(ChildMaker(f, r), Visible(plugins, v), url);
  }

  /** What the Smart Plugin Activate toolbar constructor emits. */
  function SmartToolbarOps(plugins: seq<Plugin>, v: View, req: Request, r: Render): seq<Op> {
    var f := SmartPluginActivate;
    var vis := Visible(plugins, v);
    [AddNode(TopNode(f, |plugins|)), AddNode(GroupNode(f))]
      + Children(ChildMaker(f, r), vis, FreshUrl(req, r.url))
      + (if |vis| == 0 then [RemoveNode(f.MenuId())] else [])
  }

  /** The `SmartPluginActivate_Toolbar` constructor. */
  method SmartToolbar(plugins: seq<Plugin>, v: View, req: Request, r: Render) returns (ops: seq<Op>)
    ensures ops == SmartToolbarOps(plugins, v, req, r)
    ensures |ops| == 2 + |Visible(plugins, v)| + (if |Visible(plugins, v)| == 0 then 1 else 0)
  {
    var f := SmartPluginActivate;
    ops := [AddNode(TopNode(f, |plugins|)), AddNode(GroupNode(f))];
    var children, visible := AddVisibleChildren(ChildMaker(f, r), plugins, v, req, r.url);
    ops := ops + children;
    if visible == 0 {
      ops := ops + [RemoveNode(f.MenuId())];
    }
  }

  /** Every call a child maker produces adds a node. */
  lemma {:induction false} ChildrenOnlyAdd(mk: (Plugin, string) -> Op, vis: seq<Plugin>, url: string)
    requires forall p: Plugin, u: string :: mk(p, u).AddNode?
    ensures forall k :: 0 <= k < |Children(mk, vis, url)| ==> Children(mk, vis, url)[k].AddNode?
    decreases |vis|
  {
    if vis != [] {
      ChildrenOnlyAdd(mk, vis[..|vis| - 1], url);
    }
  }

  /** A log of additions followed by at most one removal of `id` removes
      `id` exactly when the removal is appended, and removes nothing else. */
  lemma RemovalOnlyAtEnd(adds: seq<Op>, id: string, remove: bool)
    requires forall k :: 0 <= k < |adds| ==> adds[k].AddNode?
    ensures var ops := adds + (if remove then [RemoveNode(id)] else []);
            && (RemoveNode(id) in ops <==> remove)
            && (forall k :: 0 <= k < |ops| && ops[k].RemoveNode? ==> ops[k].id == id)
  {
    if !remove {
      assert adds + [] == adds;
    }
  }

  /** The Smart Plugin Activate toolbar: the top node's class reflects the
      total count, hidden plugins included; the top node is removed exactly
      when every plugin is network related; otherwise nothing is removed. */
  lemma SmartToolbarShape(plugins: seq<Plugin>, v: View, req: Request, r: Render)
    ensures var ops := SmartToolbarOps(plugins, v, req, r);
            && ops[0] == AddNode(TopNode(SmartPluginActivate, |plugins|))
            && ((RemoveNode("smart-plugin-activate") in ops)
                  <==> forall i :: 0 <= i < |plugins| ==> IsNetworkRelated(plugins[i], v))
            && (forall k :: 0 <= k < |ops| && ops[k].RemoveNode? ==> ops[k].id == "smart-plugin-activate")
  {
    var f := SmartPluginActivate;
    var mk := ChildMaker(f, r);
    var vis := Visible(plugins, v);
    var kids := Children(mk, vis, FreshUrl(req, r.url));
    var head := [AddNode(TopNode(f, |plugins|)), AddNode(GroupNode(f))];
    assert forall p: Plugin, u: string :: mk(p, u).AddNode?;
    ChildrenOnlyAdd(mk, vis, FreshUrl(req, r.url));
    var adds := head + kids;
    assert forall k :: 0 <= k < |adds| ==> adds[k].AddNode?;
    RemovalOnlyAtEnd(adds, f.MenuId(), |vis| == 0);
    NoneVisibleIffAllNetworkRelated(plugins, v);
    assert SmartToolbarOps(plugins, v, req, r) == adds + (if |vis| == 0 then [RemoveNode(f.MenuId())] else []);
  }

  /** What Plugin Links' `setup_toolbar()` emits for a non-empty plugin list. */
  function PluginLinksToolbarOps(plugins: seq<Plugin>, v: View, req: Request, r: Render): seq<Op> {
    var f := PluginLinks;
    [AddNode(TopNode(f, |plugins|)), AddNode(GroupNode(f))]
      + Children(ChildMaker(f, r), Visible(plugins, v), FreshUrl(req, r.url))
  }

  /** Plugin Links never removes its top node, even when every plugin is hidden. */
  lemma PluginLinksKeepsTopNode(plugins: seq<Plugin>, v: View, req: Request, r: Render)
    ensures var ops := PluginLinksToolbarOps(plugins, v, req, r);
            && ops[0] == AddNode(TopNode(PluginLinks, |plugins|))
            && (forall k :: 0 <= k < |ops| ==> ops[k].AddNode?)
            && |ops| == 2 + |Visible(plugins, v)|
  {
    ChildrenAreNodes(ChildMaker(PluginLinks, r), Visible(plugins, v), FreshUrl(req, r.url));
  }

  /** The plugin descriptors of a cached array, or None when an element is
      not a descriptor: calling `is_network_related()` on it is a fatal error. */
  function Descriptors(items: seq<Item>): (ps: Option<seq<Plugin>>)
    ensures ps.Some? <==> forall i :: 0 <= i < |items| ==> items[i].Own?
    ensures ps.Some? ==> |ps.value| == |items| && forall i :: 0 <= i < |items| ==> ps.value[i] == items[i].plugin
  {
    if items == [] then Some([])
    else if items[0].Foreign? then None
    else match Descriptors(items[1..])
      case None => None
      case Some(rest) => Some([items[0].plugin] + rest)
  }

  /** Smart Plugin Activate's `setup_toolbar()`: no toolbar at all for an
      empty list; None is the fatal error of a non-descriptor element. */
  method SmartSetupToolbar(items: seq<Item>, v: View, req: Request, r: Render) returns (ops: Option<seq<Op>>)
    ensures |items| == 0 ==> ops == Some([])
    ensures |items| > 0 && Descriptors(items).Some? ==> ops == Some(SmartToolbarOps(Descriptors(items).value, v, req, r))
    ensures Descriptors(items).None? ==> ops == None
  {
    if |items| == 0 {
      return Some([]);
    }
    match Descriptors(items)
    case None =>
      ops := None;
    case Some(plugins) =>
      var built := SmartToolbar(plugins, v, req, r);
      ops := Some(built);
  }

  /** Plugin Links' `setup_toolbar()`. */
  method PluginLinksSetupToolbar(items: seq<Item>, v: View, req: Request, r: Render) returns (ops: Option<seq<Op>>)
    ensures |items| == 0 ==> ops == Some([])
    ensures |items| > 0 && Descriptors(items).Some? ==> ops == Some(PluginLinksToolbarOps(Descriptors(items).value, v, req, r))
    ensures Descriptors(items).None? ==> ops == None
  {
    if |items| == 0 {
      return Some([]);
    }
    match Descriptors(items)
    case None =>
      ops := None;
    case Some(plugins) =>
      var f := PluginLinks;
      var children, _ := AddVisibleChildren(ChildMaker(f, r), plugins, v, req, r.url);
      ops := Some([AddNode(TopNode(f, |plugins|)), AddNode(GroupNode(f))] + children);
  }
}
