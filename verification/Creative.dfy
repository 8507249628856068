/**
 * `CivCreativeManager`: a registry of custom items for the creative menu.
 * Unlike `ItemManager`, an invalid item or a null key leaves the registry
 * untouched, and an existing key is replaced only when overwriting is asked for.
 */
module Creative {
  import opened Wrappers
  import opened Items
  import Utilities

  /** `registerItem(key, item, overwrite)` on the registry's contents. */
  function Register(m: Registry, key: Option<NamespacedKey>, item: Option<ItemStack>, overwrite: bool): (r: Registry)
    ensures key.None? || !IsValidItemIgnoringAmount(item) ==> r == m
    ensures key.Some? && key.value in m && !overwrite ==> r == m
    ensures key.Some? && IsValidItemIgnoringAmount(item) && (key.value !in m || overwrite) ==>
              key.value in r && r[key.value] == SingleCopy(item.value)
    ensures forall k :: k in m && Some(k) != key ==> k in r && r[k] == m[k]
    ensures forall k :: k in r ==> k in m || Some(k) == key
    ensures HoldsSingleValidItems(m) ==> HoldsSingleValidItems(r)
  {
    if key.None? then m
    else if !IsValidItemIgnoringAmount(item) then m
    else if key.value in m && !overwrite then m
    else m[key.value := SingleCopy(item.value)]
  }

  /** Without overwriting, the first valid registration under a key is the one that stays. */
  lemma FirstRegistrationWins(m: Registry, key: NamespacedKey, first: Option<ItemStack>, second: Option<ItemStack>)
    requires key !in m && IsValidItemIgnoringAmount(first)
    ensures var r := Register(Register(m, Some(key), first, false), Some(key), second, false);
            key in r && r[key] == SingleCopy(first.value)
  {
  }

  /**
   * Where the two registries differ: registering an invalid item under a key
   * that is already taken erases the entry in `ItemManager` and keeps it here.
   */
  lemma InvalidItemKeepsEntry(m: Registry, key: NamespacedKey, item: Option<ItemStack>, overwrite: bool)
    requires key in m && !IsValidItemIgnoringAmount(item)
    ensures key in Register(m, Some(key), item, overwrite) && Register(m, Some(key), item, overwrite)[key] == m[key]
    ensures key !in Utilities.Register(m, Some(key), item)
  {
  }

  /** Where they agree: with overwriting on and a valid item, both registries end in the same state. */
  lemma OverwritingAgreesWithItemManager(m: Registry, key: Option<NamespacedKey>, item: Option<ItemStack>)
    requires IsValidItemIgnoringAmount(item)
    ensures Register(m, key, item, true) == Utilities.Register(m, key, item)
  {
  }

  class CivCreativeManager {
    var customItems: Registry

    ghost predicate Valid()
      reads this
    {
      HoldsSingleValidItems(customItems)
    }

    constructor ()
      ensures Valid()
      ensures customItems == map[]
    {
      customItems := map[];
    }

    /** `getItems`: one (key, item) pair per registered entry. */
    method GetItems() returns (items: seq<(NamespacedKey, ItemStack)>)
      ensures ListsEntries(items, customItems)
    {
      items := ListEntries(customItems);
    }

    /** `getItemsByNamespace(Plugin)`: empty for a null plugin, else the plugin's namespace, ignoring case. */
    method GetItemsByPluginNamespace(plugin: Option<Plugin>) returns (items: seq<(NamespacedKey, ItemStack)>)
      ensures plugin.None? ==> items == []
      ensures plugin.Some? ==>
                ListsEntries(items, if plugin.value.name == "" then map[] else InNamespace(customItems, plugin.value.name))
    {
      if plugin.None? {
        return [];
      }
      var pluginName := ToLowerCase(plugin.value.name);
      items := GetItemsByNamespace(Some(pluginName));
      if pluginName == "" {
        ListsNothing(items);
      } else {
        InNamespaceOfLowered(customItems, plugin.value.name);
      }
    }

    /** `getItemsByNamespace(String)`: empty for a null or empty namespace, else the entries of that namespace, ignoring case. */
    method GetItemsByNamespace(namespace: Option<string>) returns (items: seq<(NamespacedKey, ItemStack)>)
      ensures namespace.None? || namespace.value == "" ==> items == []
      ensures namespace.Some? && namespace.value != "" ==> ListsEntries(items, InNamespace(customItems, namespace.value))
    {
      if namespace.None? || |namespace.value| == 0 {
        return [];
      }
      items := ListEntries(InNamespace(customItems, namespace.value));
    }

    /** `registerItem(key, item)`: never overwrites. */
    method RegisterItemKeepingExisting(key: Option<NamespacedKey>, item: Option<ItemStack>)
      requires Valid()
      modifies this
      ensures Valid()
      ensures customItems == Register(old(customItems), key, item, false)
    {
      RegisterItem(key, item, false);
    }

    /** `registerItem(key, item, overwrite)`. */
    method RegisterItem(key: Option<NamespacedKey>, item: Option<ItemStack>, overwrite: bool)
      requires Valid()
      modifies this
      ensures Valid()
      ensures customItems == Register(old(customItems), key, item, overwrite)
    {
      if key.None? {
        return;
      }
      if !IsValidItemIgnoringAmount(item) {
        return;
      }
      if key.value in customItems && !overwrite {
        return;
      }
      var clonedItem := SingleCopy(item.value);
      customItems := customItems[key.value := clonedItem];
    }

    /** `unregisterItem`. */
    method UnregisterItem(key: Option<NamespacedKey>)
      requires Valid()
      modifies this
      ensures Valid()
      ensures customItems == Unregister(old(customItems), key)
    {
      if key.None? {
        return;
      }
      customItems := customItems - {key.value};
    }
  }
}
