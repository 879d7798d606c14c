/**
 The plugin-list cache behind `get_plugins()`: a transient holding the
 plugins keyed by file in the host's enumeration order, rebuilt when it is
 missing or unusable or when the refresh filter chain asks for it, and
 deleted when the Plugins screen loads.
 */
module PluginCache {
  import opened Host
  import opened Flavours
  import opened Descriptor
  import opened ChangeDetector
  import opened Sorting

  /** One element of a cached plugin array: a descriptor of this plugin's
      own class, or anything else (e.g. an object whose class was not loaded
      when the transient was unserialised). `Key` is its array key. */
  datatype Item = Own(plugin: Plugin) | Foreign(key: string) {
    function Key(): string {
      if Own? then plugin.file else key
    }
  }

  /** Transients present in the host, by name; an absent name reads as `false`. */
  type Transients = map<string, seq<Item>>

  datatype State = State(options: OptionStore, transients: Transients)

  /** Everything `get_plugins()` asks the host for on one request. */
  datatype Sources = Sources(
    listing: seq<string>,                            // scandir( WP_PLUGIN_DIR )
    active: seq<string>,                             // (array) get_option( 'active_plugins', array() )
    installed: seq<(string, map<string, string>)>,   // get_plugins(), file => header data
    env: Env,
    hash: Hasher
  )

  /** The cached value passes the guard: it is truthy (present and non-empty)
      and its first element is a descriptor of this plugin's class. */
  predicate Usable(f: Flavour, t: Transients) {
    f.CacheName() in t && |t[f.CacheName()]| > 0 && t[f.CacheName()][0].Own?
  }

  predicate DistinctFiles(installed: seq<(string, map<string, string>)>) {
    forall i, j :: 0 <= i < j < |installed| ==> installed[i].0 != installed[j].0
  }

  predicate DistinctKeys(items: seq<Item>) {
    forall i, j :: 0 <= i < j < |items| ==> items[i].Key() != items[j].Key()
  }

  /** The rebuild loop: one descriptor per installed plugin, keyed by its
      file, in the host's enumeration order. */
  function Rebuild(installed: seq<(string, map<string, string>)>, env: Env): (items: seq<Item>)
    ensures |items| == |installed|
  {
    if installed == [] then []
    else [Own(Construct(installed[0].0, installed[0].1, env))] + Rebuild(installed[1..], env)
  }

  /** The rebuilt array holds, at each position, the descriptor of the plugin
      the host enumerated there, keyed by its file. */
  lemma {:induction false} RebuildSpec(installed: seq<(string, map<string, string>)>, env: Env)
    ensures forall i :: 0 <= i < |installed| ==>
              Rebuild(installed, env)[i] == Own(Construct(installed[i].0, installed[i].1, env))
    decreases |installed|
  {
    if installed != [] {
      var rest := installed[1..];
      RebuildSpec(rest, env);
      var items := Rebuild(installed, env);
      assert items == [Own(Construct(installed[0].0, installed[0].1, env))] + Rebuild(rest, env);
      forall i | 1 <= i < |installed|
        ensures items[i] == Own(Construct(installed[i].0, installed[i].1, env))
      {
        assert items[i] == Rebuild(rest, env)[i - 1];
        assert rest[i - 1] == installed[i];
      }
    }
  }

  /** Keys follow the host's enumeration, so distinct files stay distinct. */
  lemma RebuildKeys(installed: seq<(string, map<string, string>)>, env: Env)
    ensures forall i :: 0 <= i < |installed| ==> Rebuild(installed, env)[i].Key() == installed[i].0
    ensures DistinctFiles(installed) ==> DistinctKeys(Rebuild(installed, env))
  {
    RebuildSpec(installed, env);
    var items := Rebuild(installed, env);
    forall i | 0 <= i < |installed|
      ensures items[i].Key() == installed[i].0
    {
      assert items[i] == Own(Construct(installed[i].0, installed[i].1, env));
    }
  }

  /** The result of one `get_plugins()` call. */
  datatype Fetch = Fetch(plugins: seq<Item>, state: State, rebuilt: bool)

  /** `get_plugins()`. PHP's `||` short-circuits, so the refresh filters (and
      with them the hash updates) run only when the cached value is usable. */
  function GetPlugins(f: Flavour, s: State, src: Sources): (r: Fetch)
    ensures !Usable(f, s.transients) ==> r.rebuilt && r.state.options == s.options
    ensures Usable(f, s.transients) ==>
              r.state.options == ForceRefresh(f.HashPrefix(), src.listing, src.active, src.hash, s.options).store
              && (r.rebuilt <==> ForceRefresh(f.HashPrefix(), src.listing, src.active, src.hash, s.options).changed)
    ensures r.rebuilt ==> r.plugins == Rebuild(src.installed, src.env)
                          && r.state.transients == s.transients[f.CacheName() := r.plugins]
    ensures !r.rebuilt ==> f.CacheName() in s.transients && r.plugins == s.transients[f.CacheName()]
                           && r.state.transients == s.transients
  {
    if !Usable(f, s.transients) then
      var items := Rebuild(src.installed, src.env);
      Fetch(items, State(s.options, s.transients[f.CacheName() := items]), true)
    else
      var refresh := ForceRefresh(f.HashPrefix(), src.listing, src.active, src.hash, s.options);
      if refresh.changed then
        var items := Rebuild(src.installed, src.env);
        Fetch(items, State(refresh.store, s.transients[f.CacheName() := items]), true)
      else
        Fetch(s.transients[f.CacheName()], State(refresh.store, s.transients), false)
  }

  /** `flush_plugins_cache()`: deletes this plugin's transient and nothing else. */
  function Flush(f: Flavour, s: State): (s': State)
    ensures f.CacheName() !in s'.transients
    ensures s'.options == s.options
    ensures forall n :: n in s.transients && n != f.CacheName() ==> n in s'.transients && s'.transients[n] == s.transients[n]
    ensures s'.transients.Keys <= s.transients.Keys
  {
    State(s.options, s.transients - {f.CacheName()})
  }

  /** After a flush the next call always rebuilds, without consulting or
      refreshing the stored hashes. */
  lemma FlushForcesRebuild(f: Flavour, s: State, src: Sources)
    ensures var r := GetPlugins(f, Flush(f, s), src);
            r.rebuilt && r.plugins == Rebuild(src.installed, src.env) && r.state.options == s.options
  {
  }

  /** A usable cache whose stored hashes match both sources is returned as it
      is, and the call changes nothing. */
  lemma CacheHitWhenNothingChanged(f: Flavour, s: State, src: Sources)
    requires Usable(f, s.transients)
    requires StoredHash(s.options, OptionName(f.HashPrefix(), PluginsKey)) == src.hash(src.listing)
    requires StoredHash(s.options, OptionName(f.HashPrefix(), ActivePluginsKey)) == src.hash(Sort(src.active))
    ensures GetPlugins(f, s, src) == Fetch(s.transients[f.CacheName()], s, false)
  {
    ForceRefreshSpec(f.HashPrefix(), src.listing, src.active, src.hash, s.options);
  }

  /** With no plugin installed the rebuilt array is empty, hence falsy: once
      the cache is unusable, every further call rebuilds it again. */
  lemma NothingInstalledAlwaysRebuilds(f: Flavour, s: State, src: Sources)
    requires src.installed == []
    requires !Usable(f, s.transients)
    ensures GetPlugins(f, s, src).rebuilt
    ensures !Usable(f, GetPlugins(f, s, src).state.transients)
  {
  }

  /** With the sources fixed and at least one plugin installed, the cache
      settles within two calls: the third call is a pure hit. The second call
      may still rebuild, because a rebuild forced by an unusable cache skips
      the hash refresh. */
  lemma {:induction false} SettlesWithinTwoCalls(f: Flavour, s: State, src: Sources)
    requires |src.installed| > 0
    ensures var s2 := GetPlugins(f, GetPlugins(f, s, src).state, src).state;
            Usable(f, s2.transients) && GetPlugins(f, s2, src) == Fetch(s2.transients[f.CacheName()], s2, false)
  {
    var prefix := f.HashPrefix();
    var r1 := GetPlugins(f, s, src);
    var r2 := GetPlugins(f, r1.state, src);
    assert Usable(f, r1.state.transients);
    ForceRefreshSpec(prefix, src.listing, src.active, src.hash, r1.state.options);
    CacheHitWhenNothingChanged(f, r2.state, src);
  }
}
