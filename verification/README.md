# Smart Plugin Activate / Plugin Links — a Dafny model

Smart Plugin Activate and its older sibling Plugin Links are WordPress
plugins. They add a "Plugins" menu to the admin toolbar with one entry per
installed plugin. Clicking an entry activates or deactivates that plugin and
then returns the admin to the page they were on. Both plugins share one
design:

- a per-request **plugin descriptor** built from host queries;
- a **plugin-list cache**, kept in a transient, with a **change detector**
  that keeps md5 hashes of the plugin directory listing and of the sorted
  active-plugins list in two options;
- a **toolbar presenter**;
- a **`wp_redirect` filter** that rewrites the post-toggle redirect;
- an **access-denied handler** that rescues an admin whose screen belonged to
  the plugin just deactivated.

Smart Plugin Activate also points the Plugins menu at the active-plugins view.

The two plugins differ only in names and in a few guards, so most of the
model is parameterised by `Flavours.Flavour` (`PluginLinks` or
`SmartPluginActivate`). Where they differ, both variants are modelled.

Every WordPress call is a parameter, never a reimplementation:

- `Host.Env`: `is_multisite`, `is_plugin_active`,
  `is_plugin_active_for_network`, `is_network_only_plugin`,
  `get_plugin_data`.
- `Host.View`: the screen.
- `Host.Nonces`: `wp_create_nonce` and `wp_verify_nonce`. Lemmas about
  nonces assume the ideal behaviour `Host.Ideal`.
- `Host.UrlFns`: the sanitisers, `wp_validate_redirect`, `add_query_arg` and
  `rawurldecode`.
- `Toolbar.Render`: `sanitize_title`, `rawurlencode`, URL rendering and
  `esc_url`.
- `ChangeDetector.Hasher`: `md5( maybe_serialize() )`.

The state is split in two:

- The options table is a `map<string,string>`. An absent option reads as "".
- The transients are a map from name to the cached array. An absent name is
  PHP's `false`.

The toolbar is modelled as the sequence of `add_node` / `remove_node` calls
it makes.

Modules:

- `Strings`: PHP `empty()` on strings, `strpos` as `Contains`, and
  byte-wise order.
- `Sorting`: PHP `sort()` on strings.
- `Host` and `Flavours`: see above.
- `Descriptor`: the plugin descriptor.
- `ChangeDetector`: the hashes.
- `PluginCache`: `get_plugins` and the flush.
- `CurrentUrl`: the current URL.
- `Toolbar`: the toolbar presenters.
- `Redirect`: the redirect filters and the access-denied handlers.
- `AdminMenu`: the menu link rewrite.

Two behaviours of the code worth knowing before reading the contracts:

- `get_plugins()` guards the rebuild with `||`, which short-circuits. When
  the cached value is missing or unusable, the refresh filters do not run,
  and neither do their hash updates. So the call after such a rebuild can
  rebuild once more. `PluginCache.SettlesWithinTwoCalls` states the bound.
- Only Smart Plugin Activate removes its top node when every plugin is
  hidden. Plugin Links keeps it (`Toolbar.PluginLinksKeepsTopNode`).

## Model

| member | source | states |
|---|---|---|
| Sorting.Sort | includes/class-smartpluginactivate.php:177-178 | `sort( $data )` yields a sorted permutation (same multiset) of the active-plugin list. |
| Sorting.SortedUnique | includes/class-pluginlinks.php:163-164 | Two sorted lists with the same elements are equal, so the sorted list is canonical. |
| Sorting.SortIgnoresOrder | includes/class-smartpluginactivate.php:176-180 | Two orderings of the same active plugins sort to the same list, so they hash the same. |
| ChangeDetector.HasChanged | includes/class-pluginlinks.php:175-185 | It reports a change iff the stored hash differs from the fresh one. Afterwards the option holds the fresh hash. Nothing is written when nothing changed. No option other than `<prefix>hash-<key>` is touched. |
| ChangeDetector.HasChangedSettles | includes/class-smartpluginactivate.php:191-201 | A second check of the same data right after the first reports no change and leaves the store as it was. |
| ChangeDetector.DetectorsCommute | includes/class-smartpluginactivate.php:192-197 | The two detectors write disjoint options, so running them in either order gives the same store and the same answers. |
| ChangeDetector.PluginsChanged | includes/class-pluginlinks.php:151-154 | The filter returns true when the hash of the directory listing changed, and otherwise passes `$refresh` through. The store is exactly the detector's. |
| ChangeDetector.ActivePluginsChanged | includes/class-smartpluginactivate.php:176-180 | The same as above for the hash of the sorted active-plugins list. |
| ChangeDetector.ActiveOrderIrrelevant | includes/class-pluginlinks.php:162-166 | Reordering the active-plugins option does not count as a change. |
| ChangeDetector.WatchedNamesDiffer | includes/class-smartpluginactivate.php:192 | The two hash options of one plugin have different names. |
| ChangeDetector.ForceRefreshSpec | includes/class-smartpluginactivate.php:38-39 | The refresh filter chain, seeded with `false`, reports a change iff either stored hash is stale. It leaves both hashes current. |
| ChangeDetector.ForceRefreshSettles | includes/class-pluginlinks.php:151-166 | Running the filter chain again on unchanged data reports nothing and leaves the store unchanged. |
| PluginCache.RebuildSpec | includes/class-pluginlinks.php:133-137 | The rebuilt array holds, at each position, the descriptor of the plugin the host enumerated there. |
| PluginCache.RebuildKeys | includes/class-smartpluginactivate.php:143-147 | Each rebuilt entry is keyed by its plugin file, and distinct files give distinct keys. |
| PluginCache.GetPlugins | includes/class-smartpluginactivate.php:131-153 | An unusable cache (missing, empty, or with a foreign first element) is rebuilt without touching the hashes. A usable one is rebuilt iff the filter chain reports a change, and the options then hold the chain's store. A rebuild returns and stores the fresh array. Otherwise the cached array is returned and the transients are untouched. |
| PluginCache.Flush | includes/class-pluginlinks.php:116-118 | Only this plugin's transient is deleted. Other transients and the options are untouched. |
| PluginCache.FlushForcesRebuild | includes/class-smartpluginactivate.php:120-122 | After a flush, the next `get_plugins()` rebuilds from the host and leaves the options as they were. |
| PluginCache.CacheHitWhenNothingChanged | includes/class-pluginlinks.php:125-143 | A usable cache whose two stored hashes match the sources is returned as-is, and the state is unchanged. |
| PluginCache.NothingInstalledAlwaysRebuilds | includes/class-smartpluginactivate.php:134-149 | With no plugins installed, an unusable cache is rebuilt empty and stays unusable, so every call rebuilds. |
| PluginCache.SettlesWithinTwoCalls | includes/class-pluginlinks.php:126-140 | With fixed sources and at least one plugin, the third call is a pure cache hit from any starting state. |
| Descriptor.IsActive | includes/class-smartpluginactivate-plugin.php:72-74 | `is_active()` reads the status stored at construction. It has no contract of its own: `Descriptor.Construct` proves a built descriptor satisfies it iff `is_plugin_active( $file )` held, and `Descriptor.ToggleAction` proves it picks the link's action. |
| Descriptor.StatusOf | includes/class-pluginlinks-plugin.php:136-138 | The status is active iff the host reports the file active. |
| Descriptor.NetworkStatusOf | includes/class-smartpluginactivate-plugin.php:142-152 | Unset on a single site. On a network, "network activated" iff active network-wide; otherwise "network only" iff the host says so; otherwise unset. |
| Descriptor.Construct | includes/class-smartpluginactivate-plugin.php:55-65 | The file is kept. The name comes from the passed data, or from the host's metadata reader when no data was passed. Active iff the host says so. A network status is only ever set on a multisite. |
| Descriptor.MetadataReadOnlyWhenMissing | includes/class-pluginlinks-plugin.php:56-66 | With data passed in, the descriptor does not depend on the host's metadata reader. |
| Descriptor.NetworkRelatedFromHost | includes/class-pluginlinks-plugin.php:100-104 | A built descriptor is network related iff the site is a multisite, the screen is not a network admin screen, and the plugin is active network-wide or network-only. |
| Descriptor.ToggleAction | includes/class-smartpluginactivate-plugin.php:112 | The action is "deactivate" iff the plugin is active, and "activate" iff it is not. |
| Descriptor.NonceAction | includes/class-pluginlinks-plugin.php:129 | The nonce action starts with the toggle action, followed by `-plugin_` and the file. |
| Descriptor.NonceActionInjective | includes/class-smartpluginactivate-plugin.php:123-129 | Equal toggle nonce actions mean the same action and the same file. |
| Descriptor.ToggleLink | includes/class-smartpluginactivate-plugin.php:111-130 | The link goes to `plugins.php` with `action` then `plugin`. The redirect argument (rawurlencoded) is present iff the redirect is non-empty in PHP's sense. It is signed for `<action>-plugin_<file>`. |
| Descriptor.ToggleUrl | includes/class-smartpluginactivate-plugin.php:114-121 | `smartpluginactivate_redirect_to` appears among the arguments iff the redirect is non-empty. |
| Descriptor.LinksUrl | includes/class-pluginlinks-plugin.php:112-131 | `pluginlinks_redirect_to` appears among the arguments iff the redirect is non-empty. The link is signed as above. |
| Descriptor.ToggleFlipsAction | includes/class-smartpluginactivate-plugin.php:135-137 | Once the host has performed a link's action, the rebuilt descriptor's status and action are the opposite ones. |
| CurrentUrl.KeepArgs | includes/class-smartpluginactivate-toolbar.php:117 | `remove_query_arg` keeps exactly the arguments other than `_wpnonce` and `redirect_to`. It is the identity when there are none to remove. |
| CurrentUrl.KeepArgsAppend | includes/class-pluginlinks.php:248 | The kept arguments stay in their original order, because filtering a concatenation concatenates the filtered parts. |
| CurrentUrl.StripIdempotent | includes/class-pluginlinks.php:248 | Removing the one-shot arguments a second time changes nothing. |
| CurrentUrl.GetCurrentUrl | includes/class-pluginlinks.php:243-253 | A non-empty memo is returned unchanged. An empty one is computed afresh and remembered. Smart Plugin Activate's copy additionally escapes what it returns; see `Toolbar.ReturnUrl`. |
| CurrentUrl.MemoStable | includes/class-pluginlinks.php:243-253 | A second call returns the same URL and memo as the first. |
| CurrentUrl.SameUrlThroughout | includes/class-smartpluginactivate-toolbar.php:115-119 | Whatever the memo holds after a call, the URL returned is the one a fresh computation gives, provided the memo was empty or already that URL. |
| Toolbar.TopNode | includes/class-smartpluginactivate-toolbar.php:65-75 | The top node links to `plugins.php`. Its class is `has-many` iff more than 20 plugins are listed. |
| Toolbar.GroupNode | includes/class-smartpluginactivate-toolbar.php:80-87 | The group node is a group, has the group id, and hangs off the top node's id. |
| Toolbar.ReturnUrl | includes/class-smartpluginactivate-toolbar.php:121 | The return page handed to a toggle link is the current URL through `esc_url()` for Smart Plugin Activate, and the current URL itself for Plugin Links (includes/class-pluginlinks.php:252). |
| Toolbar.ChildNode | includes/class-smartpluginactivate-toolbar.php:94-105 | A plugin's node hangs off the group and is not a group. Its class is `is-active` iff the plugin is active. |
| Toolbar.VisibleIsFilter | includes/class-pluginlinks.php:63-67 | The plugins that get a node are exactly the listed ones that are not network related. |
| Toolbar.VisibleKeepsOrder | includes/class-smartpluginactivate-toolbar.php:48-53 | The nodes keep the order of the list, since filtering distributes over concatenation. |
| Toolbar.AllVisibleOutsideSiteScreens | includes/class-smartpluginactivate-plugin.php:99-103 | On a single site, or on a network admin screen, every plugin gets a node. |
| Toolbar.NoneVisibleIffAllNetworkRelated | includes/class-smartpluginactivate-toolbar.php:55 | No plugin is visible iff every plugin is network related. |
| Toolbar.ChildrenAreNodes | includes/class-pluginlinks.php:63-67 | The k-th child call is the node of the k-th visible plugin. |
| Toolbar.AddVisibleChildren | includes/class-smartpluginactivate-toolbar.php:47-53 | The loop emits one node per visible plugin, in order, all with the URL the memoised `get_current_url()` yields. The counter equals the number of nodes. |
| Toolbar.ChildrenDescribeVisible | includes/class-pluginlinks.php:225-236 | Each child node hangs off the group. It is `is-active` iff its plugin is active. It links to that plugin's toggle, with the URL `get_current_url()` returns (escaped for Smart Plugin Activate) as the return page. |
| Toolbar.SmartToolbar | includes/class-smartpluginactivate-toolbar.php:41-58 | The constructor emits the top node, the group, the children and, when nothing is visible, one removal. |
| Toolbar.SmartToolbarShape | includes/class-smartpluginactivate-toolbar.php:44-57 | The first call adds the top node, whose class counts hidden plugins too. The top node is removed iff every plugin is network related. Nothing else is ever removed. |
| Toolbar.PluginLinksKeepsTopNode | includes/class-pluginlinks.php:53-68 | Plugin Links only adds nodes (top node first, one per visible plugin) and never removes its menu. |
| Toolbar.Descriptors | includes/class-pluginlinks.php:63-64 | A cached array yields its descriptors iff every element is one. Otherwise calling `is_network_related()` on the foreign element is a fatal error. |
| Toolbar.SmartSetupToolbar | includes/class-smartpluginactivate.php:52-60 | `items` is the array `get_plugins()` returned; that call's effect on the options and the transient is `PluginCache.GetPlugins`'s. An empty array adds nothing. Otherwise the result is the toolbar constructor's output, or the fatal error when an element is not a descriptor. |
| Toolbar.PluginLinksSetupToolbar | includes/class-pluginlinks.php:53-68 | `items` is the array `get_plugins()` returned; its state change is `PluginCache.GetPlugins`'s. An empty array adds nothing. Otherwise: the top node, the group and one node per visible plugin, or the fatal error when an element is not a descriptor. |
| Redirect.PluginLinksRedirect | includes/class-pluginlinks.php:84-101 | The location is kept unless it mentions `plugins.php`, carries no `error=true`, and both parameters are set with the nonce verifying for `pluginlinks_action`. When it is rewritten, it goes to the validated target, plus the revive nonce iff `action` is `deactivate`. |
| Redirect.LinkRequest | includes/class-pluginlinks-plugin.php:124-130 | Following a toggle link sends its argument names and `_wpnonce`. Each argument that no later one overrides arrives with its decoded value, and `_wpnonce` is a nonce made for the link's nonce action. |
| Redirect.LinkRequestKeys | includes/class-smartpluginactivate-plugin.php:113-128 | The request holds exactly the link's argument names plus `_wpnonce`, and no other parameter. |
| Redirect.ArgsToParams | includes/class-smartpluginactivate-plugin.php:123-127 | The request holds exactly the arguments' names, and each name carries the decoded value of its last occurrence. |
| Redirect.ToggleNonceIsNotPluginLinksAction | includes/class-pluginlinks.php:88 | No toggle link's nonce action is `pluginlinks_action`. |
| Redirect.PluginLinksIgnoresOwnLinks | includes/class-pluginlinks.php:85-90 | With ideal nonces, the filter as written never rewrites the redirect of its own toolbar links. |
| Redirect.PluginLinksRedirectFixed | includes/class-pluginlinks.php:84-101 | The same filter with the nonce checked against `<action>-plugin_<plugin>` from the request. |
| Redirect.PluginLinksFixedHonoursOwnLinks | includes/class-pluginlinks-plugin.php:112-131 | With the correction, following an own link with a redirect sends the admin to the validated page it came from, plus the revive nonce iff the link deactivates. |
| Redirect.SmartRedirect | includes/class-smartpluginactivate.php:80-96 | The location is kept unless it mentions `plugins.php`, carries no `error=true`, and the redirect parameter is non-empty in PHP's sense. The target is rawurldecoded before validation. The revive nonce is added iff the sanitised `action` is `deactivate`. |
| Redirect.SmartHonoursOwnLinks | includes/class-smartpluginactivate.php:80-96 | Following one of Smart Plugin Activate's own toggle links with a non-empty return page sends the admin to that page, decoded and validated. The revive nonce is added iff the link deactivates. |
| Redirect.SmartKeepsLocationWithoutReturnPage | includes/class-smartpluginactivate.php:81-85 | A link built with an empty return page carries no redirect parameter, so following it leaves the location as WordPress chose it. |
| Redirect.SmartRedirectIgnoresNonce | includes/class-smartpluginactivate.php:81-85 | `_wpnonce` has no influence on the result. |
| Redirect.ReviveOnlyOnDeactivate | includes/class-smartpluginactivate.php:90-92 | In both plugins, a request that is not a deactivation yields the location or the target, never the revive argument. |
| Redirect.PluginLinksReviveScreen | includes/class-pluginlinks.php:106-111 | It redirects to the Plugins screen iff the revive parameter is set and verifies for `revive`. |
| Redirect.SmartReviveScreen | includes/class-smartpluginactivate.php:103-113 | It stays iff the revive parameter is missing, empty (including "0") or fails verification. |
| Redirect.ReviveTokenRoundTrip | includes/class-smartpluginactivate.php:91-106 | A token made for `revive` is honoured by both handlers, and a token made for any other action is not. |
| AdminMenu.ModifyPluginsMenuLink | includes/class-smartpluginactivate.php:225-231 | When the Plugins submenu is an array, exactly `[plugins.php][0][2]` becomes the active-plugins slug, and entry 0 is created if missing. Otherwise nothing changes. |
| AdminMenu.ModifyIdempotent | includes/class-smartpluginactivate.php:228-229 | Applying the rewrite twice is applying it once. |

## Left out

- Hook registration and bootstrap are not modelled. This includes
  instantiating the plugin class twice on `plugins_loaded`. The model treats
  each hook callback as an operation the caller invokes.
- `enqueue_assets`, `add_active_plugins_submenu` and the toolbar JavaScript
  are not modelled. They are registrations and presentation with no logic
  to prove.
- Transient expiry (`DAY_IN_SECONDS`) is not modelled, because it needs a
  clock. An expired transient reads as absent, which the model covers as an
  absent name.
- Concurrent requests racing on the options and the transient are not
  modelled. Each call is atomic.
- Escaping and markup of the node arguments are not modelled: `esc_html` on
  titles, `esc_url` on the finished href, `__()` and the title HTML. They
  only change how the host prints a node. The one escape whose output
  becomes data, `esc_url()` on Smart Plugin Activate's current URL, is
  modelled as a host parameter (`Toolbar.ReturnUrl`).
- Sorting.Sort: orders strings by code point, while PHP's `sort()` compares
  two numeric strings numerically. Plugin basenames are paths with `/` or
  `.php`, so they are never numeric.
- ChangeDetector.HasChanged: the option name uses the two literal keys, on
  which `sanitize_key()` is the identity. Only string option values are
  modelled; a non-string value in the option is out of scope.
- PluginCache.GetPlugins: a cached value that is a truthy non-array (where
  `reset()` fails) is not modelled. The cache holds arrays only.
- PluginCache.GetPlugins: `scandir( WP_PLUGIN_DIR )` returning `false` on failure is not modelled. The listing is a list of names. A failing scandir is still a fixed input to an arbitrary hasher, so no stated property depends on this.
- PluginCache.GetPlugins: `(array) get_option( 'active_plugins' )` on a
  non-array is not modelled. The option is given as a list.
- Descriptor.Construct: a missing `Name` header reads as "" (PHP's null).
  Descriptors are immutable after construction, so the getters are field
  reads.
- A missing current screen (`get_current_screen()`
  returning null on a multisite) is not modelled. The screen is a `View`
  value.
- Toolbar.ChildNode: node ids come from `sanitize_title` on the name. When
  two plugins share a name, the host keeps one node; the model records the
  calls and not the host's merge.
- Descriptor.IsNetworkRelated: a predicate whose meaning is stated by
  `Descriptor.NetworkRelatedFromHost` and `Toolbar.VisibleIsFilter` rather
  than by a contract of its own.
- Redirect.SmartRedirect: `rawurldecode` is a host parameter. The model does
  not settle whether the target, already decoded once by PHP's request
  parsing, can be decoded a second time into something different.
- Redirect.PluginLinksRedirect: `sanitize_text_field( wp_unslash() )` is one
  host function, `clean`. Its exact character handling is not modelled.

## Findings

| source | as written | input that shows it | evidently intended | confidence | as-written member | corrected member |
|---|---|---|---|---|---|---|
| includes/class-pluginlinks.php:88 | `redirect()` verifies `_wpnonce` against `pluginlinks_action`, a nonce action nothing creates. The toolbar links are signed by `wp_nonce_url` for `<action>-plugin_<file>` (includes/class-pluginlinks-plugin.php:129). | Following any Plugin Links toolbar link with a redirect, e.g. `action=activate&plugin=hello.php&pluginlinks_redirect_to=%2Fwp-admin%2Findex.php&_wpnonce=<nonce for activate-plugin_hello.php>`. WordPress then redirects to `plugins.php?activate=true`, and the filter leaves that location unchanged. | The filter returns the admin to the page the link was clicked on, as Smart Plugin Activate's does (`Redirect.SmartHonoursOwnLinks`). | medium, not executed | Redirect.PluginLinksIgnoresOwnLinks | Redirect.PluginLinksFixedHonoursOwnLinks |
