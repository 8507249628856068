# CivModCore block metadata view, item registries and collection helpers, in Dafny

This project models three pieces of CivModCore, a library for Minecraft server plugins.

1. `BlockBasedChunkMetaView` is one plugin's view of block-level metadata. A record attached to a block lives in one of three stores:
   - the chunk metadata that is resident for the plugin, a map from block position to record per chunk;
   - the single-block tracker, which takes writes aimed at chunks that are not resident;
   - the storage engine, used for point lookups and persistence.

   `get`, `put` and the three `remove`s resolve through those stores in a fixed order. Each checks the vertical coordinate against 0..255 and throws `IllegalArgumentException` or `IllegalStateException` where the Java does. `postLoad` moves tracker entries into a chunk that has just loaded. `disable` persists the tracker.
   - `BlockViewState` gives each operation as a function on a `Stores` value, returning the new stores and the return value or exception. The properties are proved about these functions.
   - `ChunkMetaApi.BlockBasedChunkMetaView` is a class whose fields are those maps. Each method is proved to produce exactly the state and result of its function.
2. `ItemManager` (module `Utilities`) and `CivCreativeManager` (module `Creative`) are keyed item registries. Each has register, unregister and namespace-filtered listing.
   - `ItemManager` unregisters the key before checking the item, so an invalid item erases the old entry.
   - `CivCreativeManager` leaves the map untouched on invalid input, and it keeps an existing entry unless asked to overwrite.

   Both preserve one invariant: every registered item is valid and has amount 1.
3. `MoreCollectionUtils` holds `anyMatch` and `allMatch` (early-exit loops, proved against their documented meaning, null cases included), `removeLastElement` and `collect`.

Modelling choices:
- A Java `null` is `None`. An exception is `Failure(...)` with the Java message.
- Records are objects of class `BlockDataObject`, so `remove(D)` compares them by reference, as the Java does.
- Chunk coordinates are `x / 16` and `z / 16`. Dafny's division by a positive divisor is floor division, which equals Bukkit's `x >> 4`.
- The collaborators of the view are not part of this model. These are `GlobalChunkMetaManager`, `SingleBlockTracker`, `BlockBasedChunkMeta` and the storage engine. They get the map semantics their call sites imply:
  - `getChunkMeta` returns the resident chunk or null.
  - `chunk.get`, `put` and `remove` act on that chunk's map. A `put` without the bulk flag marks the chunk dirty, and so does a `remove` that removed something. A bulk `put` does not mark it.
  - The tracker is a map keyed by (world id, block position). `getAllForChunkAndRemove` takes out the entries of one chunk.
  - `getForLocation` and `persist` are a lookup in, and an update of, a map keyed by (plugin id, world id, block position).
- `ItemUtils` is not part of this model. `IsValidItemIgnoringAmount` takes its rule to be: not null, a material that has an item form, and not air.
- Three behaviours of the Java worth knowing, all followed by the model:
  - `disable()` does not clear the tracker (BlockBasedChunkMetaView.java:166-172). `BlockViewState.Disable` leaves it as it is.
  - `remove(D)` removes whatever occupies the location before its identity check throws (BlockBasedChunkMetaView.java:125-130). The occupant is therefore gone after the `IllegalStateException`, as `RemoveDataEvictsOtherOccupant` shows.
  - `get(Block)` checks the height only when the chunk is resident (BlockBasedChunkMetaView.java:54-61). For a non-resident chunk it returns null for any height.

## Model

| member | source | states |
|---|---|---|
| `BlockViewState.ValidateY` | src/main/java/vg/civcraft/mc/civmodcore/locations/chunkmeta/api/BlockBasedChunkMetaView.java:147-154 | fails exactly when y < 0 or y > 255, and then always with IllegalArgument |
| `BlockViewState.ChunkOf` | src/main/java/vg/civcraft/mc/civmodcore/locations/chunkmeta/api/BlockBasedChunkMetaView.java:101 | the chunk is in the location's world and its 16x16 column contains the location |
| `BlockViewState.ChunkOfUnique` | src/main/java/vg/civcraft/mc/civmodcore/locations/chunkmeta/api/BlockBasedChunkMetaView.java:101 | every chunk whose column contains a location is the chunk `ChunkOf` gives |
| `BlockViewState.Get` | src/main/java/vg/civcraft/mc/civmodcore/locations/chunkmeta/api/BlockBasedChunkMetaView.java:69-83 | throws IllegalArgument exactly for y outside 0..255, whatever the residency; on well-formed stores any record returned sits at the requested location |
| `BlockViewState.GetBlock` | src/main/java/vg/civcraft/mc/civmodcore/locations/chunkmeta/api/BlockBasedChunkMetaView.java:54-61 | null for a non-resident chunk without any height check; for a resident chunk, the same answer as get(Location) |
| `BlockViewState.Put` | src/main/java/vg/civcraft/mc/civmodcore/locations/chunkmeta/api/BlockBasedChunkMetaView.java:95-108 | null data or a bad height throws IllegalArgument and changes nothing; otherwise a following get at the record's location returns it and get elsewhere is unchanged; the record lands in the resident chunk (marked dirty) or else in the tracker; storage is untouched; well-formedness is kept |
| `BlockViewState.Remove` | src/main/java/vg/civcraft/mc/civmodcore/locations/chunkmeta/api/BlockBasedChunkMetaView.java:138-145 | a bad height throws IllegalArgument and changes nothing; otherwise it returns what get returned when the chunk is resident or the tracker has an entry, else null; afterwards get returns null for a resident chunk but still reaches storage otherwise; other locations and storage are unchanged |
| `BlockViewState.RemoveBlock` | src/main/java/vg/civcraft/mc/civmodcore/locations/chunkmeta/api/BlockBasedChunkMetaView.java:116-118 | the same stores and result as remove at the block's location |
| `BlockViewState.RemoveData` | src/main/java/vg/civcraft/mc/civmodcore/locations/chunkmeta/api/BlockBasedChunkMetaView.java:125-130 | leaves the stores exactly as remove(location) does; succeeds exactly when the removed record is the given object by reference; otherwise IllegalArgument for a bad height and IllegalState for anything else |
| `BlockViewState.PostLoad` | src/main/java/vg/civcraft/mc/civmodcore/locations/chunkmeta/api/BlockBasedChunkMetaView.java:156-164 | tracker entries of the loaded chunk leave the tracker, and get then returns each of them; entries of other chunks and other chunks' data are untouched; dirty chunks are unchanged (bulk insert); storage untouched; well-formedness kept |
| `BlockViewState.Disable` | src/main/java/vg/civcraft/mc/civmodcore/locations/chunkmeta/api/BlockBasedChunkMetaView.java:166-172 | every tracker entry is in storage under (plugin, world, position); other stored records are kept; nothing else changes, the tracker included |
| `BlockViewState.OutOfRangeChangesNothing` | src/main/java/vg/civcraft/mc/civmodcore/locations/chunkmeta/api/BlockBasedChunkMetaView.java:69-70 | a height outside 0..255 makes get, put, remove(Location), remove(D) and get(Block) on a resident chunk throw IllegalArgument, with the stores unchanged |
| `BlockViewState.ResidentShadowsFallback` | src/main/java/vg/civcraft/mc/civmodcore/locations/chunkmeta/api/BlockBasedChunkMetaView.java:71-81 | for a resident chunk, get does not depend on the tracker or on storage |
| `BlockViewState.TrackerShadowsStorage` | src/main/java/vg/civcraft/mc/civmodcore/locations/chunkmeta/api/BlockBasedChunkMetaView.java:72-79 | for a non-resident chunk with a tracker entry, get does not depend on storage |
| `BlockViewState.FallbackToStorage` | src/main/java/vg/civcraft/mc/civmodcore/locations/chunkmeta/api/BlockBasedChunkMetaView.java:75-78 | with no resident chunk and no tracker entry, get is the storage point lookup for this plugin |
| `BlockViewState.GetBlockIgnoresFallback` | src/main/java/vg/civcraft/mc/civmodcore/locations/chunkmeta/api/BlockBasedChunkMetaView.java:54-61 | get(Block) does not depend on the tracker or on storage |
| `BlockViewState.PutSurvivesChunkLoad` | src/main/java/vg/civcraft/mc/civmodcore/locations/chunkmeta/api/BlockBasedChunkMetaView.java:95-108 | a record put while its chunk is not resident is returned by get once the chunk is registered, whatever storage hydrated into it, and postLoad has run |
| `BlockViewState.PutSurvivesDisable` | src/main/java/vg/civcraft/mc/civmodcore/locations/chunkmeta/api/BlockBasedChunkMetaView.java:166-172 | a record put while its chunk is not resident is found through the storage fallback after disable, even with the tracker emptied |
| `BlockViewState.RemoveDataEvictsOtherOccupant` | src/main/java/vg/civcraft/mc/civmodcore/locations/chunkmeta/api/BlockBasedChunkMetaView.java:125-130 | when another record occupies the location, remove(D) throws IllegalState and the occupant is no longer returned from the chunk or tracker |
| `BlockViewState.PutThenRemove` | src/main/java/vg/civcraft/mc/civmodcore/locations/chunkmeta/api/BlockBasedChunkMetaView.java:138-145 | after put(d), remove at d's location returns d, and remove(d) succeeds |
| `ChunkMetaApi.BlockBasedChunkMetaView.constructor` | src/main/java/vg/civcraft/mc/civmodcore/locations/chunkmeta/api/BlockBasedChunkMetaView.java:32-40 | a new view has an empty tracker and no dirty chunks |
| `ChunkMetaApi.BlockBasedChunkMetaView.GetBlock` | src/main/java/vg/civcraft/mc/civmodcore/locations/chunkmeta/api/BlockBasedChunkMetaView.java:54-61 | returns exactly `BlockViewState.GetBlock` of the view's stores and changes nothing |
| `ChunkMetaApi.BlockBasedChunkMetaView.Get` | src/main/java/vg/civcraft/mc/civmodcore/locations/chunkmeta/api/BlockBasedChunkMetaView.java:69-83 | returns exactly `BlockViewState.Get` of the view's stores and changes nothing, so the chunk never becomes resident |
| `ChunkMetaApi.BlockBasedChunkMetaView.Put` | src/main/java/vg/civcraft/mc/civmodcore/locations/chunkmeta/api/BlockBasedChunkMetaView.java:95-108 | new stores and result are those of `BlockViewState.Put`; well-formedness kept |
| `ChunkMetaApi.BlockBasedChunkMetaView.Remove` | src/main/java/vg/civcraft/mc/civmodcore/locations/chunkmeta/api/BlockBasedChunkMetaView.java:138-145 | new stores and result are those of `BlockViewState.Remove` |
| `ChunkMetaApi.BlockBasedChunkMetaView.RemoveBlock` | src/main/java/vg/civcraft/mc/civmodcore/locations/chunkmeta/api/BlockBasedChunkMetaView.java:116-118 | new stores and result are those of `BlockViewState.RemoveBlock` |
| `ChunkMetaApi.BlockBasedChunkMetaView.RemoveData` | src/main/java/vg/civcraft/mc/civmodcore/locations/chunkmeta/api/BlockBasedChunkMetaView.java:125-130 | new stores and result are those of `BlockViewState.RemoveData` |
| `ChunkMetaApi.BlockBasedChunkMetaView.PostLoad` | src/main/java/vg/civcraft/mc/civmodcore/locations/chunkmeta/api/BlockBasedChunkMetaView.java:156-164 | new stores are those of `BlockViewState.PostLoad` |
| `ChunkMetaApi.BlockBasedChunkMetaView.Disable` | src/main/java/vg/civcraft/mc/civmodcore/locations/chunkmeta/api/BlockBasedChunkMetaView.java:166-172 | new stores are those of `BlockViewState.Disable` |
| `ChunkMetaApi.BulkInsert` | src/main/java/vg/civcraft/mc/civmodcore/locations/chunkmeta/api/BlockBasedChunkMetaView.java:160-163 | after the loop, the chunk holds each moved record at its own position, over what it held before |
| `ChunkMetaApi.PersistAll` | src/main/java/vg/civcraft/mc/civmodcore/locations/chunkmeta/api/BlockBasedChunkMetaView.java:168-170 | after the loop, storage holds each tracker record under its own location for the plugin, over what it held before |
| `MoreCollectionUtils.AnyMatch` | src/main/java/vg/civcraft/mc/civmodcore/util/MoreCollectionUtils.java:49-62 | false for a null or empty collection; true for a null predicate; otherwise true exactly when some element passes |
| `MoreCollectionUtils.AllMatch` | src/main/java/vg/civcraft/mc/civmodcore/util/MoreCollectionUtils.java:75-88 | true for a null or empty collection or a null predicate; otherwise true exactly when every element passes |
| `MoreCollectionUtils.SomeMatchIsNotEveryMismatch` | src/main/java/vg/civcraft/mc/civmodcore/util/MoreCollectionUtils.java:49-88 | on a non-empty collection, anyMatch(c, p) equals the negation of allMatch(c, not p) |
| `MoreCollectionUtils.NullAndEmptyCases` | src/main/java/vg/civcraft/mc/civmodcore/util/MoreCollectionUtils.java:50-55 | the null and empty cases of both helpers: anyMatch false, allMatch true; a null predicate makes both true on a non-empty collection |
| `MoreCollectionUtils.RemoveLastElement` | src/main/java/vg/civcraft/mc/civmodcore/util/MoreCollectionUtils.java:97-102 | null for a null or empty list, which stays empty; otherwise returns the old last element and the list plus that element is the old list |
| `MoreCollectionUtils.Collect` | src/main/java/vg/civcraft/mc/civmodcore/util/MoreCollectionUtils.java:28-35 | null when no collection was produced; otherwise the produced list, with the elements appended in order |
| `Items.SingleCopy` | paper/src/main/java/vg/civcraft/mc/civmodcore/utilities/ItemManager.java:83-84 | the copy has amount 1, the same material, and is valid exactly when the original is |
| `Items.Unregister` | paper/src/main/java/vg/civcraft/mc/civmodcore/utilities/ItemManager.java:91-98 | no-op for a null key; otherwise the key is absent and every other entry is unchanged; the registry invariant is kept |
| `Items.UnregisterIdempotent` | paper/src/main/java/vg/civcraft/mc/civmodcore/utilities/ItemManager.java:91-98 | unregistering twice is unregistering once |
| `Items.ToLowerCase` | paper/src/main/java/vg/civcraft/mc/civmodcore/utilities/ItemManager.java:54 | same length, each letter lower-cased, no upper-case letter left |
| `Items.EqualsIgnoreCaseOfLowered` | paper/src/main/java/vg/civcraft/mc/civmodcore/utilities/ItemManager.java:54-65 | lower-casing one side never changes a case-insensitive comparison |
| `Items.InNamespace` | paper/src/main/java/vg/civcraft/mc/civmodcore/utilities/ItemManager.java:64-67 | exactly the entries whose key namespace equals the argument ignoring case, with their items |
| `Items.InNamespaceOfLowered` | paper/src/main/java/vg/civcraft/mc/civmodcore/utilities/ItemManager.java:49-56 | filtering by the lower-cased plugin name selects the same entries as filtering by the name itself |
| `Items.ListEntries` | paper/src/main/java/vg/civcraft/mc/civmodcore/utilities/ItemManager.java:43-47 | one (key, item) pair per map entry, no key twice, as many pairs as entries |
| `Utilities.Register` | paper/src/main/java/vg/civcraft/mc/civmodcore/utilities/ItemManager.java:70-89 | null key: unchanged; invalid item: the key is absent afterwards (old entry erased); valid item: the key maps to a copy with amount 1; every other key unchanged; the registry invariant is kept |
| `Utilities.RegisterThenUnregister` | paper/src/main/java/vg/civcraft/mc/civmodcore/utilities/ItemManager.java:70-98 | register then unregister of a key is unregister alone |
| `Utilities.RegisterIdempotent` | paper/src/main/java/vg/civcraft/mc/civmodcore/utilities/ItemManager.java:70-89 | registering the same item twice is registering it once |
| `Utilities.MaterialItems` | paper/src/main/java/vg/civcraft/mc/civmodcore/utilities/ItemManager.java:35-41 | one single-item entry per valid item material, keyed by the material's key; every entry is such a stack of one of the given materials under its own key |
| `Utilities.ItemManager.constructor` | paper/src/main/java/vg/civcraft/mc/civmodcore/utilities/ItemManager.java:35-41 | the loop over item materials leaves exactly `MaterialItems`, with the registry invariant |
| `Utilities.ItemManager.GetItems` | paper/src/main/java/vg/civcraft/mc/civmodcore/utilities/ItemManager.java:43-47 | lists every entry exactly once |
| `Utilities.ItemManager.GetItemsByNamespace` | paper/src/main/java/vg/civcraft/mc/civmodcore/utilities/ItemManager.java:58-68 | empty for a null or empty namespace; otherwise lists exactly the entries of that namespace, ignoring case |
| `Utilities.ItemManager.GetItemsByPlugin` | paper/src/main/java/vg/civcraft/mc/civmodcore/utilities/ItemManager.java:49-56 | empty for a null plugin or an empty name; otherwise lists exactly the entries whose namespace matches the plugin name ignoring case |
| `Utilities.ItemManager.RegisterItem` | paper/src/main/java/vg/civcraft/mc/civmodcore/utilities/ItemManager.java:70-89 | the registry becomes `Utilities.Register` of the old one; invariant kept |
| `Utilities.ItemManager.UnregisterItem` | paper/src/main/java/vg/civcraft/mc/civmodcore/utilities/ItemManager.java:91-98 | the registry becomes `Items.Unregister` of the old one; invariant kept |
| `Creative.Register` | paper/src/main/java/vg/civcraft/mc/civmodcore/utilities/creative/CivCreativeManager.java:54-74 | null key or invalid item: unchanged; a present key without overwrite: unchanged; otherwise the key maps to a copy with amount 1; every other key unchanged; the registry invariant is kept |
| `Creative.FirstRegistrationWins` | paper/src/main/java/vg/civcraft/mc/civmodcore/utilities/creative/CivCreativeManager.java:65-68 | without overwrite, a second registration under a key keeps the first item |
| `Creative.InvalidItemKeepsEntry` | paper/src/main/java/vg/civcraft/mc/civmodcore/utilities/creative/CivCreativeManager.java:60-63 | an invalid item leaves an existing entry in place here, while ItemManager's registerItem erases it |
| `Creative.OverwritingAgreesWithItemManager` | paper/src/main/java/vg/civcraft/mc/civmodcore/utilities/creative/CivCreativeManager.java:54-74 | for a valid item, registering with overwrite gives the same registry as ItemManager's registerItem |
| `Creative.CivCreativeManager.constructor` | paper/src/main/java/vg/civcraft/mc/civmodcore/utilities/creative/CivCreativeManager.java:19-21 | starts with no items |
| `Creative.CivCreativeManager.GetItems` | paper/src/main/java/vg/civcraft/mc/civmodcore/utilities/creative/CivCreativeManager.java:23-27 | lists every entry exactly once |
| `Creative.CivCreativeManager.GetItemsByPluginNamespace` | paper/src/main/java/vg/civcraft/mc/civmodcore/utilities/creative/CivCreativeManager.java:29-36 | empty for a null plugin or an empty name; otherwise lists exactly the entries whose namespace matches the plugin name ignoring case |
| `Creative.CivCreativeManager.GetItemsByNamespace` | paper/src/main/java/vg/civcraft/mc/civmodcore/utilities/creative/CivCreativeManager.java:38-48 | empty for a null or empty namespace; otherwise lists exactly the entries of that namespace, ignoring case |
| `Creative.CivCreativeManager.RegisterItemKeepingExisting` | paper/src/main/java/vg/civcraft/mc/civmodcore/utilities/creative/CivCreativeManager.java:50-52 | behaves as registerItem with overwrite false |
| `Creative.CivCreativeManager.RegisterItem` | paper/src/main/java/vg/civcraft/mc/civmodcore/utilities/creative/CivCreativeManager.java:54-74 | the registry becomes `Creative.Register` of the old one; invariant kept |
| `Creative.CivCreativeManager.UnregisterItem` | paper/src/main/java/vg/civcraft/mc/civmodcore/utilities/creative/CivCreativeManager.java:76-83 | the registry becomes `Items.Unregister` of the old one: a null key is a no-op, otherwise the key is gone and other entries are unchanged |

## Left out

- `loadAll` and the constructor's call to it (BlockBasedChunkMetaView.java:36-46). They depend on storage enumeration and on the global manager's world lookup, and `storageEngine` is never assigned in that file. The model's constructor starts from given resident chunks and storage and an empty tracker.
- `GlobalChunkMetaManager`, `ChunkMetaView`, `SingleBlockTracker`, `BlockBasedChunkMeta` and the storage engine are not part of this model. They have the map semantics listed above. Chunk registration and eviction, and `super.disable()`, are therefore not modelled. `PutSurvivesChunkLoad` writes the registration out as a map update.
- `getInternalWorldId`: a location carries its world's compact id directly.
- `put` finds its chunk through `loc.getChunk()` (BlockBasedChunkMetaView.java:101). In Bukkit, that loads or generates the host chunk synchronously and fires its load event before `getChunkMeta` runs. `BlockViewState.ChunkOf` is the pure coordinate computation with no effect. The model does not capture any chunk-meta registration that this load may trigger before the lookup. If the load registers the chunk, the Java writes into it where the model sends the record to the tracker.
- `BlockViewState.PostLoad` requires the chunk to be resident. The global manager calls `postLoad` only for a chunk it has just registered.
- The loops of `postLoad` and `disable` work on a local copy of the chunk map and the storage map (`BulkInsert`, `PersistAll`). The field is assigned once at the end, so the model does not capture interleaving with other writers.
- Null `Block`, `Location` or `D` arguments to `get`, `remove` and `remove(D)`, which throw `NullPointerException` in Java, are not modelled. Their parameters are non-null.
- Concurrency (chunk loading threads, async hydration): every operation is atomic on one thread.
- `randomElement`: it uses `ThreadLocalRandom`.
- `Collect` is modelled for list collections only. A set would drop duplicates. The `Chainer` and `CollectionUtils` internals are not part of this model.
- `AnyMatch` and `AllMatch` take a total, side-effect-free predicate. Exceptions thrown by a Java predicate are not modelled.
- `RemoveLastElement`: a null last element, which Java cannot tell apart from "empty", is not modelled, because elements are non-null.
- `IsValidItemIgnoringAmount` approximates the unseen `ItemUtils` rule.
- `ToLowerCase` and `EqualsIgnoreCase` fold only ASCII letters, whereas Java's `equalsIgnoreCase` also matches characters whose upper-case forms agree. A registered key's namespace is lower-case ASCII. A non-ASCII argument can still match in Java and not in the model, whether it is the namespace given to `getItemsByNamespace(String)` or a plugin name. Examples are the dotless `ı` against `i`, the Kelvin sign against `k`, and the long `ſ` against `s`. For example, `InNamespace(m, "ıtems")` is empty, while Java's `getItemsByNamespace("ıtems")` lists the `items:` entries.
- Item stacks are values with a material and an amount. Cloning copies the value; other item meta is not modelled.
- `ItemManager.getInstance`, `register` and `unregister` (static singleton access), and all logging.
