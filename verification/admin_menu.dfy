/**
 Smart Plugin Activate's `modify_plugins_menu_link()`: the first entry of the
 Plugins submenu is pointed at the list of active plugins.
 */
module AdminMenu {

  /** One submenu entry: its fields by index (0 title, 1 capability, 2 slug, ...). */
  type Entry = map<int, string>

  /** A value of the global `$submenu` array: an array of entries, or any
      other non-null value. An unset or null value is an absent key. */
  datatype Slot = Entries(items: map<int, Entry>) | Scalar(value: string)

  type Submenu = map<string, Slot>

  const ActivePluginsSlug := "plugins.php?plugin_status=active"

  /** `$submenu['plugins.php'][0][2] = 'plugins.php?plugin_status=active'`
      when `$submenu['plugins.php']` is set and is an array. PHP creates
      entry 0 if it is missing. */
  function ModifyPluginsMenuLink(sub: Submenu): (r: Submenu)
    ensures !("plugins.php" in sub && sub["plugins.php"].Entries?) ==> r == sub
    ensures r.Keys == sub.Keys
    ensures forall k :: k in sub && k != "plugins.php" ==> r[k] == sub[k]
    ensures "plugins.php" in sub && sub["plugins.php"].Entries? ==>
              var before := sub["plugins.php"].items;
              var after := r["plugins.php"];
              && after.Entries?
              && after.items.Keys == before.Keys + {0}
              && (forall i :: i in before && i != 0 ==> after.items[i] == before[i])
              && after.items[0].Keys == (if 0 in before then before[0].Keys else {}) + {2}
              && after.items[0][2] == ActivePluginsSlug
              && (forall j :: 0 in before && j in before[0] && j != 2 ==> after.items[0][j] == before[0][j])
  {
    if "plugins.php" in sub && sub["plugins.php"].Entries? then
      var items := sub["plugins.php"].items;
      var first := if 0 in items then items[0] else map[];
      sub["plugins.php" := Entries(items[0 := first[2 := ActivePluginsSlug]])]
    else sub
  }

  /** Running the change again leaves the submenu as the first run left it. */
  lemma ModifyIdempotent(sub: Submenu)
    ensures ModifyPluginsMenuLink(ModifyPluginsMenuLink(sub)) == ModifyPluginsMenuLink(sub)
  {
    if "plugins.php" in sub && sub["plugins.php"].Entries? {
      var once := ModifyPluginsMenuLink(sub);
      var items := once["plugins.php"].items;
      assert items[0][2 := ActivePluginsSlug] == items[0];
      assert items[0 := items[0]] == items;
      assert once["plugins.php" := Entries(items)] == once;
    }
  }
}
