/**
 * The host types the item registries work with: namespaced keys, materials,
 * item stacks and plugins, the item validity rule, case-insensitive namespace
 * matching, and listing a registry's entries.
 */
module Items {
  import opened Wrappers

  /** A `namespace:key` identifier. */
  datatype NamespacedKey = NamespacedKey(namespace: string, key: string)

  /** An item material: its key, and whether it is air and whether it has an item form. */
  datatype Material = Material(key: NamespacedKey, isAir: bool, isItem: bool)

  /** An item stack, up to its amount and material; everything else it carries is copied as a value. */
  datatype ItemStack = ItemStack(material: Material, amount: int)

  /** A plugin, known here only by its name. */
  datatype Plugin = Plugin(name: string)

  /** A registry's contents: key to registered item. */
  type Registry = map<NamespacedKey, ItemStack>

  /** `ItemUtils.isValidItemIgnoringAmount`: a non-null stack of a material that has an item form and is not air. */
  predicate IsValidItemIgnoringAmount(item: Option<ItemStack>) {
    item.Some? && !item.value.material.isAir && item.value.material.isItem
  }

  /** `item.clone()` followed by `setAmount(1)`. */
  function SingleCopy(item: ItemStack): (r: ItemStack)
    ensures r.amount == 1 && r.material == item.material
    ensures IsValidItemIgnoringAmount(Some(item)) <==> IsValidItemIgnoringAmount(Some(r))
  {
    item.(amount := 1)
  }

  /** What both registries keep true of their contents: every entry is a valid single item. */
  ghost predicate HoldsSingleValidItems(m: Registry) {
    forall k | k in m :: IsValidItemIgnoringAmount(Some(m[k])) && m[k].amount == 1
  }

  /** `unregisterItem`: a no-op for a null key, else the key is removed. */
  function Unregister(m: Registry, key: Option<NamespacedKey>): (r: Registry)
    ensures key.None? ==> r == m
    ensures key.Some? ==> key.value !in r
    ensures forall k :: k in m && Some(k) != key ==> k in r && r[k] == m[k]
    ensures r.Keys <= m.Keys
    ensures HoldsSingleValidItems(m) ==> HoldsSingleValidItems(r)
  {
    if key.None? then m else m - {key.value}
  }

  /** Unregistering is idempotent. */
  lemma UnregisterIdempotent(m: Registry, key: Option<NamespacedKey>)
    ensures Unregister(Unregister(m, key), key) == Unregister(m, key)
  {
  }

  // ---------------------------------------------------------------------------
  // Case handling, for the ASCII letters that namespaces and plugin names use.
  // ---------------------------------------------------------------------------

  function LowerChar(c: char): (r: char)
    ensures 'A' <= c <= 'Z' ==> r as int == c as int + 32
    ensures !('A' <= c <= 'Z') ==> r == c
  {
    if 'A' <= c <= 'Z' then (c as int + 32) as char else c
  }

  /** `String.toLowerCase(Locale.ROOT)`. */
  function ToLowerCase(s: string): (r: string)
    ensures |r| == |s|
    ensures forall i | 0 <= i < |s| :: r[i] == LowerChar(s[i])
    ensures forall i | 0 <= i < |s| :: !('A' <= r[i] <= 'Z')
  {
    seq(|s|, i requires 0 <= i < |s| => LowerChar(s[i]))
  }

  /** `String.equalsIgnoreCase`. */
  predicate EqualsIgnoreCase(a: string, b: string) {
    |a| == |b| && forall i | 0 <= i < |a| :: LowerChar(a[i]) == LowerChar(b[i])
  }

  /** Lower-casing one side never changes whether two strings match ignoring case. */
  lemma EqualsIgnoreCaseOfLowered(a: string, b: string)
    ensures EqualsIgnoreCase(a, ToLowerCase(b)) <==> EqualsIgnoreCase(a, b)
  {
    var lb := ToLowerCase(b);
    forall i | 0 <= i < |b|
      ensures LowerChar(lb[i]) == LowerChar(b[i])
    {
    }
  }

  /** The entries whose key namespace equals `namespace`, ignoring case. */
  function InNamespace(m: Registry, namespace: string): (r: Registry)
    ensures r.Keys <= m.Keys
    ensures forall k :: k in r ==> r[k] == m[k]
    ensures forall k :: k in m ==> (k in r <==> EqualsIgnoreCase(k.namespace, namespace))
  {
    map k | k in m && EqualsIgnoreCase(k.namespace, namespace) :: m[k]
  }

  /** Filtering by a lower-cased namespace selects the same entries as filtering by the namespace itself. */
  lemma InNamespaceOfLowered(m: Registry, namespace: string)
    ensures InNamespace(m, ToLowerCase(namespace)) == InNamespace(m, namespace)
  {
    forall k | k in m
      ensures EqualsIgnoreCase(k.namespace, ToLowerCase(namespace)) <==> EqualsIgnoreCase(k.namespace, namespace)
    {
      EqualsIgnoreCaseOfLowered(k.namespace, namespace);
    }
  }

  /** `items` lists the entries of `m`: each (key, item) pair exactly once. */
  ghost predicate ListsEntries<K, V>(items: seq<(K, V)>, m: map<K, V>) {
    && (forall e | e in items :: e.0 in m && m[e.0] == e.1)
    && (forall k | k in m :: (k, m[k]) in items)
    && (forall i, j | 0 <= i < j < |items| :: items[i].0 != items[j].0)
  }

  /** An empty map is listed only by the empty list. */
  lemma ListsNothing<K, V>(items: seq<(K, V)>)
    ensures ListsEntries(items, map[]) <==> items == []
  {
    if items != [] {
      assert items[0] in items;
    }
  }

  /**
   * The stream over `entrySet()` that maps each entry to a pair: one pair per
   * entry, in the map's (unspecified) iteration order.
   */
  method ListEntries<K, V>(m: map<K, V>) returns (items: seq<(K, V)>)
    ensures ListsEntries(items, m)
    ensures |items| == |m|
  {
    items := [];
    var rest := m.Keys;
    while rest != {}
      invariant rest <= m.Keys
      invariant forall e | e in items :: e.0 in m && e.0 !in rest && m[e.0] == e.1
      invariant forall k | k in m && k !in rest :: (k, m[k]) in items
      invariant forall i, j | 0 <= i < j < |items| :: items[i].0 != items[j].0
      invariant |items| + |rest| == |m|
      decreases rest
    {
      var k :| k in rest;
      items := items + [(k, m[k])];
      rest := rest - {k};
    }
  }
}
