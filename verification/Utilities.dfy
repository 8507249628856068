/**
 * `ItemManager`: the registry of custom items, seeded with one entry per item
 * material. Registering always unregisters the key first, so an invalid item
 * erases whatever was registered under that key.
 */
module Utilities {
  import opened Wrappers
  import opened Items

  /** `registerItem` on the registry's contents. */
  function Register(m: Registry, key: Option<NamespacedKey>, item: Option<ItemStack>): (r: Registry)
    ensures key.None? ==> r == m
    ensures key.Some? && !IsValidItemIgnoringAmount(item) ==> key.value !in r
    ensures key.Some? && IsValidItemIgnoringAmount(item) ==> key.value in r && r[key.value] == SingleCopy(item.value)
    ensures forall k :: k in m && Some(k) != key ==> k in r && r[k] == m[k]
    ensures forall k :: k in r ==> k in m || Some(k) == key
    ensures HoldsSingleValidItems(m) ==> HoldsSingleValidItems(r)
  {
    if key.None? then m
    else
      var cleared := Unregister(m, key);
      if !IsValidItemIgnoringAmount(item) then cleared
      else cleared[key.value := SingleCopy(item.value)]
  }

  /** Registering then unregistering a key leaves the registry as unregistering alone would. */
  lemma RegisterThenUnregister(m: Registry, key: Option<NamespacedKey>, item: Option<ItemStack>)
    ensures Unregister(Register(m, key, item), key) == Unregister(m, key)
  {
  }

  /** Registering the same item twice under the same key is the same as registering it once. */
  lemma RegisterIdempotent(m: Registry, key: Option<NamespacedKey>, item: Option<ItemStack>)
    ensures Register(Register(m, key, item), key, item) == Register(m, key, item)
  {
  }

  /** Material keys are unique, as they are for the host's material enumeration. */
  predicate DistinctKeys(materials: set<Material>) {
    forall a, b | a in materials && b in materials && a.key == b.key :: a == b
  }

  /** What the constructor registers: a single stack of every valid item material. */
  function MaterialItems(materials: set<Material>): (r: Registry)
    requires DistinctKeys(materials)
    ensures forall mat :: mat in materials && IsValidItemIgnoringAmount(Some(ItemStack(mat, 1))) ==>
              mat.key in r && r[mat.key] == ItemStack(mat, 1)
    ensures forall k | k in r :: r[k].material in materials && r[k].material.key == k
    ensures HoldsSingleValidItems(r)
  {
    map mat | mat in materials && mat.isItem && !mat.isAir :: mat.key := ItemStack(mat, 1)
  }

  /** No key registered for `done` is the key of a material outside it. */
  lemma KeyNotYetRegistered(materials: set<Material>, done: set<Material>, mat: Material)
    requires DistinctKeys(materials) && done <= materials && mat in materials && mat !in done
    ensures mat.key !in MaterialItems(done)
  {
  }

  /** One more material registered by the constructor's loop. */
  lemma RegisterMaterial(materials: set<Material>, done: set<Material>, mat: Material)
    requires DistinctKeys(materials) && done <= materials && mat in materials && mat !in done
    ensures Register(MaterialItems(done), Some(mat.key), Some(ItemStack(mat, 1))) == MaterialItems(done + {mat})
  {
    KeyNotYetRegistered(materials, done, mat);
    var before := MaterialItems(done);
    var after := MaterialItems(done + {mat});
    assert Unregister(before, Some(mat.key)) == before;
    var expected := if mat.isItem && !mat.isAir then before[mat.key := ItemStack(mat, 1)] else before;
    forall k | k in after
      ensures k in expected && expected[k] == after[k]
    {
      var m' := after[k].material;
      if m' != mat {
        assert m' in done;
      }
    }
    forall k | k in expected
      ensures k in after
    {
      if k != mat.key {
        assert before[k].material in done + {mat};
      }
    }
    assert after == expected;
  }

  class ItemManager {
    var customItems: Registry

    ghost predicate Valid()
      reads this
    {
      HoldsSingleValidItems(customItems)
    }

    /** Registers a single stack of every material that has an item form. */
    constructor (materials: set<Material>)
      requires DistinctKeys(materials)
      ensures Valid()
      ensures customItems == MaterialItems(materials)
    {
      customItems := map[];
      new;
      var items := set mat | mat in materials && mat.isItem;
      var done: set<Material> := {};
      while items != {}
        invariant items <= materials && done <= materials && items !! done
        invariant forall mat :: mat in materials && mat.isItem ==> mat in items || mat in done
        invariant customItems == MaterialItems(done)
        invariant Valid()
        decreases items
      {
        var mat :| mat in items;
        RegisterMaterial(materials, done, mat);
        RegisterItem(Some(mat.key), Some(ItemStack(mat, 1)));
        items := items - {mat};
        done := done + {mat};
      }
      assert MaterialItems(done) == MaterialItems(materials);
    }

    /** `getItems`: one (key, item) pair per registered entry. */
    method GetItems() returns (items: seq<(NamespacedKey, ItemStack)>)
      ensures ListsEntries(items, customItems)
    {
      items := ListEntries(customItems);
    }

    /** `getItemsByNamespace`: empty for a null or empty namespace, else the entries of that namespace, ignoring case. */
    method GetItemsByNamespace(namespace: Option<string>) returns (items: seq<(NamespacedKey, ItemStack)>)
      ensures namespace.None? || namespace.value == "" ==> items == []
      ensures namespace.Some? && namespace.value != "" ==> ListsEntries(items, InNamespace(customItems, namespace.value))
    {
      if namespace.None? || |namespace.value| == 0 {
        return [];
      }
      items := ListEntries(InNamespace(customItems, namespace.value));
    }

    /**
     * `getItemsByPlugin`: empty for a null plugin, else the entries of the
     * namespace named after the plugin (lower-cased, which changes nothing
     * since the comparison ignores case).
     */
    method GetItemsByPlugin(plugin: Option<Plugin>) returns (items: seq<(NamespacedKey, ItemStack)>)
      ensures plugin.None? ==> items == []
      ensures plugin.Some? ==>
                ListsEntries(items, if plugin.value.name == "" then map[] else InNamespace(customItems, plugin.value.name))
    {
      if plugin.None? {
        return [];
      }
      var pluginName := ToLowerCase(plugin.value.name);
      items := GetItemsByNamespace(Some(pluginName));
      if pluginName == "" {
        ListsNothing(items);
      } else {
        InNamespaceOfLowered(customItems, plugin.value.name);
      }
    }

    /** `registerItem`. */
    method RegisterItem(key: Option<NamespacedKey>, item: Option<ItemStack>)
      requires Valid()
      modifies this
      ensures Valid()
      ensures customItems == Register(old(customItems), key, item)
    {
      if key.None? {
        return;
      }
      UnregisterItem(key);
      if !IsValidItemIgnoringAmount(item) {
        return;
      }
      var clonedItem := SingleCopy(item.value);
      customItems := customItems[key.value := clonedItem];
    }

    /** `unregisterItem`. */
    method UnregisterItem(key: Option<NamespacedKey>)
      requires Valid()
      modifies this
      ensures Valid()
      ensures customItems == Unregister(old(customItems), key)
    {
      if key.None? {
        return;
      }
      customItems := customItems - {key.value};
    }
  }
}
