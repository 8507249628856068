/**
 * The block-based chunk metadata view as a value: the three stores it resolves
 * through (resident chunk metadata, the single-block tracker, the storage
 * engine) and one function per operation giving the new stores and what the
 * call returns or throws. The class in ChunkMetaApi is proved against these.
 */
module BlockViewState {
  import opened Wrappers

  /** Compact per-world id (a Java `short`). */
  type WorldId = nat
  /** Per-plugin id scoping all storage keys (a Java `short`). */
  type PluginId = nat

  /** Legacy valid height range, inclusive on both ends. */
  const MinY: int := 0
  const MaxY: int := 255

  datatype BlockPos = BlockPos(x: int, y: int, z: int)

  /** A block location; the world is identified by its compact id. */
  datatype Location = Location(world: WorldId, pos: BlockPos)

  /** A host block, known to the view only through its location. */
  datatype Block = Block(location: Location)

  /** A 16x16 column of the world: (world, chunk x, chunk z). */
  datatype ChunkCoord = ChunkCoord(world: WorldId, x: int, z: int)

  /** Key of one record in the storage engine. */
  datatype StorageKey = StorageKey(plugin: PluginId, world: WorldId, pos: BlockPos)

  /** A block data record. Records are objects: `remove(D)` compares them by reference. */
  class BlockDataObject {
    const location: Location

    constructor (location: Location)
      ensures this.location == location
    {
      this.location := location;
    }
  }

  /** The two exceptions the view throws. */
  datatype Failure = IllegalArgument(message: string) | IllegalState(message: string)

  const NullDataMessage := "Data to insert can not be null"
  const BelowMinYMessage := "Y-level of data may not be less than 0"
  const AboveMaxYMessage := "Y-level of data may not be more than 255"
  const NotIdenticalMessage := "Removed data non-identical to the one supposed to be removed"

  /**
   * Everything one plugin's view can observe:
   * - resident: the chunk metadata the global manager holds for this plugin,
   *   per chunk a map from block position to record;
   * - dirty: the resident chunks with unsaved (non-bulk) changes;
   * - tracker: the single-block tracker, keyed by (world id, block position);
   * - storage: the storage engine's records, for every plugin.
   */
  datatype Stores = Stores(
    plugin: PluginId,
    resident: map<ChunkCoord, map<BlockPos, BlockDataObject>>,
    dirty: set<ChunkCoord>,
    tracker: map<Location, BlockDataObject>,
    storage: map<StorageKey, BlockDataObject>)

  /** The stores after a call, and what the call returned or threw. */
  datatype Step<T> = Step(after: Stores, result: Result<T, Failure>)

  predicate InHeightRange(y: int) {
    MinY <= y <= MaxY
  }

  /** `validateY`: throws IllegalArgumentException exactly outside 0..255. */
  function ValidateY(y: int): (r: Result<(), Failure>)
    ensures r.Success? <==> InHeightRange(y)
    ensures r.Failure? ==> r.error.IllegalArgument?
  {
    if y < 0 then Failure(IllegalArgument(BelowMinYMessage))
    else if y > 255 then Failure(IllegalArgument(AboveMaxYMessage))
    else Success(())
  }

  /** The chunk holding a location: Bukkit's `x >> 4`, which is floor division by 16. */
  function ChunkOf(loc: Location): (c: ChunkCoord)
    ensures c.world == loc.world
    ensures c.x * 16 <= loc.pos.x < c.x * 16 + 16
    ensures c.z * 16 <= loc.pos.z < c.z * 16 + 16
  {
    ChunkCoord(loc.world, loc.pos.x / 16, loc.pos.z / 16)
  }

  function StorageKeyOf(plugin: PluginId, loc: Location): StorageKey {
    StorageKey(plugin, loc.world, loc.pos)
  }

  /**
   * Every record is filed under its own location: in the chunk that holds it,
   * in the tracker, and in storage; only resident chunks are dirty.
   */
  ghost predicate WellFormed(s: Stores) {
    && (forall c, p | c in s.resident && p in s.resident[c] ::
          s.resident[c][p].location == Location(c.world, p) && ChunkOf(Location(c.world, p)) == c)
    && (forall l | l in s.tracker :: s.tracker[l].location == l)
    && (forall k | k in s.storage :: s.storage[k].location == Location(k.world, k.pos))
    && s.dirty <= s.resident.Keys
  }

  /** `get(Location)`: resident chunk, else tracker, else storage point lookup. */
  function Get(s: Stores, loc: Location): (r: Result<Option<BlockDataObject>, Failure>)
    ensures r.Failure? <==> !InHeightRange(loc.pos.y)
    ensures r.Failure? ==> r.error.IllegalArgument?
    ensures WellFormed(s) && r.Success? && r.value.Some? ==> r.value.value.location == loc
  {
    var v := ValidateY(loc.pos.y);
    if v.Failure? then Failure(v.error)
    else
      var c := ChunkOf(loc);
      if c in s.resident then Success(Lookup(s.resident[c], loc.pos))
      else if loc in s.tracker then Success(Some(s.tracker[loc]))
      else Success(Lookup(s.storage, StorageKeyOf(s.plugin, loc)))
  }

  /** `get(Block)`: null for a non-resident chunk; validates y only for a resident one. */
  function GetBlock(s: Stores, block: Block): (r: Result<Option<BlockDataObject>, Failure>)
    ensures ChunkOf(block.location) !in s.resident ==> r == Success(None)
    ensures ChunkOf(block.location) in s.resident ==> r == Get(s, block.location)
  {
    var loc := block.location;
    var c := ChunkOf(loc);
    if c !in s.resident then Success(None)
    else
      var v := ValidateY(loc.pos.y);
      if v.Failure? then Failure(v.error)
      else Success(Lookup(s.resident[c], loc.pos))
  }

  /** `put(D)`: into the resident chunk if there is one, else into the tracker. */
  function Put(s: Stores, data: BlockDataObject?): (r: Step<()>)
    ensures r.result.Failure? <==> data == null || !InHeightRange(data.location.pos.y)
    ensures r.result.Failure? ==> r.after == s && r.result.error.IllegalArgument?
    ensures r.result.Success? ==> Get(r.after, data.location) == Success(Some(data))
    ensures r.result.Success? ==> forall l :: l != data.location ==> Get(r.after, l) == Get(s, l)
    ensures r.result.Success? && ChunkOf(data.location) in s.resident ==>
              r.after.tracker == s.tracker && r.after.dirty == s.dirty + {ChunkOf(data.location)}
    ensures r.result.Success? && ChunkOf(data.location) !in s.resident ==>
              r.after.resident == s.resident && r.after.dirty == s.dirty
    ensures r.after.plugin == s.plugin && r.after.storage == s.storage
    ensures r.after.resident.Keys == s.resident.Keys
    ensures WellFormed(s) ==> WellFormed(r.after)
  {
    if data == null then Step(s, Failure(IllegalArgument(NullDataMessage)))
    else
      var loc := data.location;
      var v := ValidateY(loc.pos.y);
      if v.Failure? then Step(s, Failure(v.error))
      else
        var c := ChunkOf(loc);
        if c in s.resident then
          Step(s.(resident := s.resident[c := s.resident[c][loc.pos := data]], dirty := s.dirty + {c}),
               Success(()))
        else
          Step(s.(tracker := s.tracker[loc := data]), Success(()))
  }

  /**
   * `remove(Location)`: from the resident chunk, else from the tracker only;
   * storage is never consulted. A chunk that loses a record becomes dirty.
   */
  function Remove(s: Stores, loc: Location): (r: Step<Option<BlockDataObject>>)
    ensures r.result.Failure? <==> !InHeightRange(loc.pos.y)
    ensures r.result.Failure? ==> r.after == s && r.result.error.IllegalArgument?
    ensures r.result.Success? && (ChunkOf(loc) in s.resident || loc in s.tracker) ==>
              Success(r.result.value) == Get(s, loc)
    ensures r.result.Success? && ChunkOf(loc) !in s.resident && loc !in s.tracker ==>
              r.result.value == None
    ensures r.result.Success? ==>
              Get(r.after, loc) ==
              Success(if ChunkOf(loc) in s.resident then None else Lookup(s.storage, StorageKeyOf(s.plugin, loc)))
    ensures r.result.Success? ==> forall l :: l != loc ==> Get(r.after, l) == Get(s, l)
    ensures r.after.plugin == s.plugin && r.after.storage == s.storage
    ensures r.after.resident.Keys == s.resident.Keys
    ensures WellFormed(s) ==> WellFormed(r.after)
  {
    var v := ValidateY(loc.pos.y);
    if v.Failure? then Step(s, Failure(v.error))
    else
      var c := ChunkOf(loc);
      if c !in s.resident then
        Step(s.(tracker := s.tracker - {loc}), Success(Lookup(s.tracker, loc)))
      else
        var removed := Lookup(s.resident[c], loc.pos);
        Step(s.(resident := s.resident[c := s.resident[c] - {loc.pos}],
                dirty := if removed.Some? then s.dirty + {c} else s.dirty),
             Success(removed))
  }

  /** `remove(Block)`: the same as removing at the block's location. */
  function RemoveBlock(s: Stores, block: Block): (r: Step<Option<BlockDataObject>>)
    ensures r == Remove(s, block.location)
  {
    Remove(s, block.location)
  }

  /**
   * `remove(D)`: removes whatever is at `data`'s location, then throws
   * IllegalStateException unless that was `data` itself (by reference).
   */
  function RemoveData(s: Stores, data: BlockDataObject): (r: Step<()>)
    ensures r.after == Remove(s, data.location).after
    ensures r.result.Success? <==> Remove(s, data.location).result == Success(Some(data))
    ensures r.result.Failure? && !InHeightRange(data.location.pos.y) ==> r.result.error.IllegalArgument?
    ensures r.result.Failure? && InHeightRange(data.location.pos.y) ==> r.result.error.IllegalState?
  {
    var rm := Remove(s, data.location);
    if rm.result.Failure? then Step(rm.after, Failure(rm.result.error))
    else if rm.result.value != Some(data) then Step(rm.after, Failure(IllegalState(NotIdenticalMessage)))
    else Step(rm.after, Success(()))
  }

  /** The tracker entries of chunk `c`, keyed by block position. */
  function TrackedIn(t: map<Location, BlockDataObject>, c: ChunkCoord): (m: map<BlockPos, BlockDataObject>)
    ensures forall l :: l in t && ChunkOf(l) == c ==> l.pos in m && m[l.pos] == t[l]
    ensures forall p :: p in m ==> Location(c.world, p) in t && ChunkOf(Location(c.world, p)) == c
  {
    map l | l in t && ChunkOf(l) == c :: l.pos := t[l]
  }

  /** The tracker entries of every chunk but `c`. */
  function TrackedOutside(t: map<Location, BlockDataObject>, c: ChunkCoord): (m: map<Location, BlockDataObject>)
    ensures forall l :: l in m <==> l in t && ChunkOf(l) != c
    ensures forall l :: l in m ==> m[l] == t[l]
  {
    map l | l in t && ChunkOf(l) != c :: t[l]
  }

  /**
   * `postLoad(chunk)`: every tracker entry of the freshly loaded chunk `c`
   * leaves the tracker and is put into the chunk with the bulk flag set, so
   * the chunk is not marked dirty.
   */
  function PostLoad(s: Stores, c: ChunkCoord): (r: Stores)
    requires c in s.resident
    ensures r.plugin == s.plugin && r.storage == s.storage && r.dirty == s.dirty
    ensures r.resident.Keys == s.resident.Keys
    ensures forall c' :: c' in s.resident && c' != c ==> r.resident[c'] == s.resident[c']
    ensures forall l :: l in r.tracker <==> l in s.tracker && ChunkOf(l) != c
    ensures forall l :: l in r.tracker ==> r.tracker[l] == s.tracker[l]
    ensures forall l :: l in s.tracker && ChunkOf(l) == c && InHeightRange(l.pos.y) ==>
              Get(r, l) == Success(Some(s.tracker[l]))
    ensures forall l :: l !in s.tracker ==> Get(r, l) == Get(s, l)
    ensures WellFormed(s) ==> WellFormed(r)
  {
    s.(resident := s.resident[c := s.resident[c] + TrackedIn(s.tracker, c)],
       tracker := TrackedOutside(s.tracker, c))
  }

  /** What `disable()` writes to storage: each tracker entry under its location. */
  function Persisted(plugin: PluginId, t: map<Location, BlockDataObject>): (m: map<StorageKey, BlockDataObject>)
    ensures forall l :: l in t ==> StorageKeyOf(plugin, l) in m && m[StorageKeyOf(plugin, l)] == t[l]
    ensures forall k :: k in m ==> k.plugin == plugin && Location(k.world, k.pos) in t
  {
    map l | l in t :: StorageKeyOf(plugin, l) := t[l]
  }

  /**
   * `disable()`: every tracker entry is persisted through the storage engine.
   * The tracker itself is left as it is.
   */
  function Disable(s: Stores): (r: Stores)
    ensures r.plugin == s.plugin && r.resident == s.resident && r.dirty == s.dirty && r.tracker == s.tracker
    ensures forall l :: l in s.tracker ==> Lookup(r.storage, StorageKeyOf(s.plugin, l)) == Some(s.tracker[l])
    ensures forall k :: k in s.storage && !(k.plugin == s.plugin && Location(k.world, k.pos) in s.tracker) ==>
              k in r.storage && r.storage[k] == s.storage[k]
    ensures forall k :: k in r.storage ==> k in s.storage || (k.plugin == s.plugin && Location(k.world, k.pos) in s.tracker)
    ensures WellFormed(s) ==> WellFormed(r)
  {
    s.(storage := s.storage + Persisted(s.plugin, s.tracker))
  }

  // ---------------------------------------------------------------------------
  // Properties relating several operations.
  // ---------------------------------------------------------------------------

  /** The chunk of a location is the only chunk of its world whose column contains it. */
  lemma ChunkOfUnique(loc: Location, c: ChunkCoord)
    requires c.world == loc.world
    requires c.x * 16 <= loc.pos.x < c.x * 16 + 16
    requires c.z * 16 <= loc.pos.z < c.z * 16 + 16
    ensures c == ChunkOf(loc)
  {
  }

  /** A vertical coordinate outside 0..255 is rejected by every location operation, and nothing changes. */
  lemma OutOfRangeChangesNothing(s: Stores, loc: Location, data: BlockDataObject)
    requires !InHeightRange(loc.pos.y)
    requires data.location == loc
    ensures Get(s, loc).Failure? && Get(s, loc).error.IllegalArgument?
    ensures Put(s, data) == Step(s, Failure(IllegalArgument(if loc.pos.y < 0 then BelowMinYMessage else AboveMaxYMessage)))
    ensures Remove(s, loc).after == s && Remove(s, loc).result.Failure?
    ensures RemoveData(s, data).after == s && RemoveData(s, data).result.error.IllegalArgument?
    ensures ChunkOf(loc) in s.resident ==> GetBlock(s, Block(loc)).Failure?
  {
  }

  /** A resident chunk hides the tracker and storage from `get(Location)`. */
  lemma ResidentShadowsFallback(s: Stores, loc: Location,
                                tracker: map<Location, BlockDataObject>, storage: map<StorageKey, BlockDataObject>)
    requires ChunkOf(loc) in s.resident
    ensures Get(s, loc) == Get(s.(tracker := tracker, storage := storage), loc)
  {
  }

  /** For a non-resident chunk a tracker entry hides storage from `get(Location)`. */
  lemma TrackerShadowsStorage(s: Stores, loc: Location, storage: map<StorageKey, BlockDataObject>)
    requires ChunkOf(loc) !in s.resident && loc in s.tracker
    ensures Get(s, loc) == Get(s.(storage := storage), loc)
  {
  }

  /** With neither a resident chunk nor a tracker entry, `get(Location)` is a storage point lookup for this plugin. */
  lemma FallbackToStorage(s: Stores, loc: Location)
    requires InHeightRange(loc.pos.y)
    requires ChunkOf(loc) !in s.resident && loc !in s.tracker
    ensures Get(s, loc) == Success(Lookup(s.storage, StorageKey(s.plugin, loc.world, loc.pos)))
  {
  }

  /** `get(Block)` never looks at the tracker or at storage. */
  lemma GetBlockIgnoresFallback(s: Stores, block: Block,
                                tracker: map<Location, BlockDataObject>, storage: map<StorageKey, BlockDataObject>)
    ensures GetBlock(s, block) == GetBlock(s.(tracker := tracker, storage := storage), block)
  {
  }

  /**
   * No lost write across a chunk load: a record put while its chunk is not
   * resident is returned by `get` once the chunk has been registered (with
   * whatever storage hydrated into it) and `postLoad` has run.
   */
  lemma PutSurvivesChunkLoad(s: Stores, data: BlockDataObject, hydrated: map<BlockPos, BlockDataObject>)
    requires InHeightRange(data.location.pos.y)
    requires ChunkOf(data.location) !in s.resident
    ensures var c := ChunkOf(data.location);
            var put := Put(s, data).after;
            var loaded := put.(resident := put.resident[c := hydrated]);
            Get(PostLoad(loaded, c), data.location) == Success(Some(data))
  {
    var c := ChunkOf(data.location);
    var put := Put(s, data).after;
    assert data.location in put.tracker && put.tracker[data.location] == data;
    var loaded := put.(resident := put.resident[c := hydrated]);
    assert data.location in loaded.tracker;
  }

  /**
   * Durability on disable: a record put while its chunk is not resident can be
   * read back through the storage fallback after `disable`, even once the
   * tracker is gone.
   */
  lemma PutSurvivesDisable(s: Stores, data: BlockDataObject)
    requires InHeightRange(data.location.pos.y)
    requires ChunkOf(data.location) !in s.resident
    ensures var flushed := Disable(Put(s, data).after);
            Get(flushed.(tracker := map[]), data.location) == Success(Some(data))
  {
    var put := Put(s, data).after;
    assert data.location in put.tracker && put.tracker[data.location] == data;
  }

  /**
   * The identity check of `remove(D)`: when another record occupies `data`'s
   * location, the call throws IllegalStateException, and the occupant has
   * already been removed.
   */
  lemma RemoveDataEvictsOtherOccupant(s: Stores, data: BlockDataObject, occupant: BlockDataObject)
    requires InHeightRange(data.location.pos.y)
    requires occupant != data
    requires Get(s, data.location) == Success(Some(occupant))
    requires ChunkOf(data.location) in s.resident || data.location in s.tracker
    ensures RemoveData(s, data).result.Failure? && RemoveData(s, data).result.error.IllegalState?
    ensures Get(RemoveData(s, data).after, data.location) != Success(Some(occupant)) ||
            (ChunkOf(data.location) !in s.resident &&
             Lookup(s.storage, StorageKeyOf(s.plugin, data.location)) == Some(occupant))
  {
  }

  /** Put followed by remove at the same location hands back the record just put. */
  lemma PutThenRemove(s: Stores, data: BlockDataObject)
    requires InHeightRange(data.location.pos.y)
    ensures var put := Put(s, data).after;
            Remove(put, data.location).result == Success(Some(data))
    ensures RemoveData(Put(s, data).after, data).result == Success(())
  {
    var put := Put(s, data).after;
    assert Get(put, data.location) == Success(Some(data));
  }
}
