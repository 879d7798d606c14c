/**
 The two plugins share one design and differ in the names they use for
 options, transients, request parameters and toolbar nodes. Where their
 behaviour differs (toolbar clean-up, redirect guards) the model keeps two
 separate operations; these names are the only thing they share by parameter.
 */
module Flavours {

  datatype Flavour = PluginLinks | SmartPluginActivate {

    /** Prefix of the option that stores a watched source's hash. */
    function HashPrefix(): string {
      if PluginLinks? then "pluginlinks_hash-" else "smartpluginactivate_hash-"
    }

    /** Name of the transient that caches the plugin list. */
    function CacheName(): string {
      if PluginLinks? then "pluginlinks_plugins" else "smartpluginactivate_plugins"
    }

    /** Query parameter carrying the page to return to after a toggle. */
    function RedirectParam(): string {
      if PluginLinks? then "pluginlinks_redirect_to" else "smartpluginactivate_redirect_to"
    }

    /** Query parameter carrying the nonce that revives a disabled screen. */
    function ReviveParam(): string {
      if PluginLinks? then "pluginlinks_revive" else "smartpluginactivate_revive"
    }

    /** Id of the top-level toolbar node. */
    function MenuId(): string {
      if PluginLinks? then "plugin-links" else "smart-plugin-activate"
    }

    /** Id of the group node holding one child per visible plugin. */
    function GroupId(): string {
      MenuId() + "-group"
    }

    /** Prefix of a child node's id; the plugin's slug follows it. */
    function ChildIdPrefix(): string {
      MenuId() + "_"
    }
  }
}
