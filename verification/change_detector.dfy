/**
 The change detector: a hash of a watched data source is kept in the option
 store under `<prefix><key>`, and a check reports whether the fresh hash
 differs from the stored one, writing the fresh hash only when it does.
 Two refresh filters wrap it, one for the plugin directory listing and one
 for the sorted list of active plugins.
 */
module ChangeDetector {
  import opened Sorting

  /** The option store (get_option / update_option), restricted to string values. */
  type OptionStore = map<string, string>

  /** `md5( maybe_serialize( $data ) )`, an arbitrary function: collisions are allowed. */
  type Hasher = seq<string> -> string

  /** `get_option( $name, '' )`. */
  function StoredHash(store: OptionStore, name: string): string {
    if name in store then store[name] else ""
  }

  /** The two watched data sources, with the keys the plugins pass to
      `has_changed()`. `sanitize_key()` leaves both keys as they are. */
  datatype Source = PluginsKey | ActivePluginsKey {
    function Key(): string {
      if PluginsKey? then "plugins" else "active_plugins"
    }
  }

  /** `sprintf( '<prefix>%s', sanitize_key( $key ) )`. */
  function OptionName(prefix: string, key: Source): string {
    prefix + key.Key()
  }

  /** The verdict of a check and the option store after it. */
  datatype Detection = Detection(changed: bool, store: OptionStore)

  /** `has_changed( $key, $data )`. */
  function HasChanged(prefix: string, key: Source, data: seq<string>, hash: Hasher, store: OptionStore): (d: Detection)
    ensures d.changed <==> StoredHash(store, OptionName(prefix, key)) != hash(data)
    ensures StoredHash(d.store, OptionName(prefix, key)) == hash(data)
    ensures !d.changed ==> d.store == store
    ensures d.store.Keys <= store.Keys + {OptionName(prefix, key)}
    ensures forall n :: n in store && n != OptionName(prefix, key) ==> n in d.store && d.store[n] == store[n]
  {
    var name := OptionName(prefix, key);
    var digest := hash(data);
    var changed := StoredHash(store, name) != digest;
    Detection(changed, if changed then store[name := digest] else store)
  }

  /** Checking again with the same data reports no change and writes nothing. */
  lemma HasChangedSettles(prefix: string, key: Source, data: seq<string>, hash: Hasher, store: OptionStore)
    ensures HasChanged(prefix, key, data, hash, HasChanged(prefix, key, data, hash, store).store)
         == Detection(false, HasChanged(prefix, key, data, hash, store).store)
  {
  }

  /** Checks of two different keys do not interfere: run in either order they
      give the same verdicts and leave the same store. */
  lemma {:induction false} DetectorsCommute(prefix: string, k1: Source, d1: seq<string>, k2: Source, d2: seq<string>,
                                            hash: Hasher, store: OptionStore)
    requires k1 != k2
    ensures var a1 := HasChanged(prefix, k1, d1, hash, store);
            var a2 := HasChanged(prefix, k2, d2, hash, a1.store);
            var b2 := HasChanged(prefix, k2, d2, hash, store);
            var b1 := HasChanged(prefix, k1, d1, hash, b2.store);
            a1.changed == b1.changed && a2.changed == b2.changed && a2.store == b1.store
  {
    var n1 := OptionName(prefix, k1);
    var n2 := OptionName(prefix, k2);
    assert n1[|prefix|..] == k1.Key() && n2[|prefix|..] == k2.Key();
    assert StoredHash(HasChanged(prefix, k1, d1, hash, store).store, n2) == StoredHash(store, n2);
    assert StoredHash(HasChanged(prefix, k2, d2, hash, store).store, n1) == StoredHash(store, n1);
  }

  /** `plugins_changed( $refresh )`, given the result of `scandir( WP_PLUGIN_DIR )`.
      The detector runs whatever `$refresh` is, so its hash is always refreshed. */
  function PluginsChanged(prefix: string, refresh: bool, listing: seq<string>, hash: Hasher, store: OptionStore): (d: Detection)
    ensures d.changed <==> refresh || StoredHash(store, OptionName(prefix, PluginsKey)) != hash(listing)
    ensures d.store == HasChanged(prefix, PluginsKey, listing, hash, store).store
  {
    var check := HasChanged(prefix, PluginsKey, listing, hash, store);
    Detection(if check.changed then true else refresh, check.store)
  }

  /** `active_plugins_changed( $refresh )`, given `get_option( 'active_plugins' )`,
      which is sorted before it is hashed. */
  function ActivePluginsChanged(prefix: string, refresh: bool, active: seq<string>, hash: Hasher, store: OptionStore): (d: Detection)
    ensures d.changed <==> refresh || StoredHash(store, OptionName(prefix, ActivePluginsKey)) != hash(Sort(active))
    ensures d.store == HasChanged(prefix, ActivePluginsKey, Sort(active), hash, store).store
  {
    var check := HasChanged(prefix, ActivePluginsKey, Sort(active), hash, store);
    Detection(if check.changed then true else refresh, check.store)
  }

  /** Reordering the active-plugin option cannot trigger a refresh. */
  lemma ActiveOrderIrrelevant(prefix: string, refresh: bool, a: seq<string>, b: seq<string>, hash: Hasher, store: OptionStore)
    requires multiset(a) == multiset(b)
    ensures ActivePluginsChanged(prefix, refresh, a, hash, store) == ActivePluginsChanged(prefix, refresh, b, hash, store)
  {
    SortIgnoresOrder(a, b);
  }

  /** `apply_filters( '<prefix>force_plugins_refresh', false )` with the two
      callbacks in the order they are registered. */
  function ForceRefresh(prefix: string, listing: seq<string>, active: seq<string>, hash: Hasher, store: OptionStore): (d: Detection)
  {
    var first := PluginsChanged(prefix, false, listing, hash, store);
    ActivePluginsChanged(prefix, first.changed, active, hash, first.store)
  }

  /** The two watched sources live under different option names. */
  lemma WatchedNamesDiffer(prefix: string)
    ensures OptionName(prefix, PluginsKey) != OptionName(prefix, ActivePluginsKey)
  {
    assert |OptionName(prefix, PluginsKey)| != |OptionName(prefix, ActivePluginsKey)|;
  }

  /** The filter chain reports a change exactly when either source's hash is
      stale, refreshes both hashes, and touches no other option. */
  lemma ForceRefreshSpec(prefix: string, listing: seq<string>, active: seq<string>, hash: Hasher, store: OptionStore)
    ensures var d := ForceRefresh(prefix, listing, active, hash, store);
            && (d.changed <==> (StoredHash(store, OptionName(prefix, PluginsKey)) != hash(listing)
                                || StoredHash(store, OptionName(prefix, ActivePluginsKey)) != hash(Sort(active))))
            && StoredHash(d.store, OptionName(prefix, PluginsKey)) == hash(listing)
            && StoredHash(d.store, OptionName(prefix, ActivePluginsKey)) == hash(Sort(active))
            && d.store.Keys <= store.Keys + {OptionName(prefix, PluginsKey), OptionName(prefix, ActivePluginsKey)}
            && (forall n :: n in store && n != OptionName(prefix, PluginsKey) && n != OptionName(prefix, ActivePluginsKey)
                  ==> n in d.store && d.store[n] == store[n])
  {
    WatchedNamesDiffer(prefix);
    var first := PluginsChanged(prefix, false, listing, hash, store);
    assert StoredHash(first.store, OptionName(prefix, ActivePluginsKey)) == StoredHash(store, OptionName(prefix, ActivePluginsKey));
  }

  /** Once the filter chain has run, running it again on the same sources
      reports no change and leaves the store as it is. */
  lemma ForceRefreshSettles(prefix: string, listing: seq<string>, active: seq<string>, hash: Hasher, store: OptionStore)
    ensures var s1 := ForceRefresh(prefix, listing, active, hash, store).store;
            ForceRefresh(prefix, listing, active, hash, s1) == Detection(false, s1)
  {
    ForceRefreshSpec(prefix, listing, active, hash, store);
    var s1 := ForceRefresh(prefix, listing, active, hash, store).store;
    ForceRefreshSpec(prefix, listing, active, hash, s1);
  }
}
