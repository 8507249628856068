/**
 * `BlockBasedChunkMetaView` as a class over three maps: the chunk metadata
 * resident for its plugin, the single-block tracker and the storage engine.
 * Each method does what the Java method does, step by step, and is proved to
 * leave the stores exactly as the matching function of BlockViewState says.
 */
module ChunkMetaApi {
  import opened Wrappers
  import opened BlockViewState

  class BlockBasedChunkMetaView {
    const pluginId: PluginId
    var resident: map<ChunkCoord, map<BlockPos, BlockDataObject>>
    var dirty: set<ChunkCoord>
    var tracker: map<Location, BlockDataObject>
    var storage: map<StorageKey, BlockDataObject>

    /** The view's stores as one value. */
    function State(): Stores
      reads this
    {
      Stores(pluginId, resident, dirty, tracker, storage)
    }

    ghost predicate Valid()
      reads this
    {
      WellFormed(State())
    }

    /** A new view starts with an empty single-block tracker. */
    constructor (pluginId: PluginId, resident: map<ChunkCoord, map<BlockPos, BlockDataObject>>,
                 storage: map<StorageKey, BlockDataObject>)
      requires WellFormed(Stores(pluginId, resident, {}, map[], storage))
      ensures Valid()
      ensures State() == Stores(pluginId, resident, {}, map[], storage)
    {
      this.pluginId := pluginId;
      this.resident := resident;
      this.dirty := {};
      this.tracker := map[];
      this.storage := storage;
    }

    /** `get(Block)`. */
    method GetBlock(block: Block) returns (r: Result<Option<BlockDataObject>, Failure>)
      ensures r == BlockViewState.GetBlock(State(), block)
    {
      var c := ChunkOf(block.location);
      if c !in resident {
        return Success(None);
      }
      var v := ValidateY(block.location.pos.y);
      if v.Failure? {
        return Failure(v.error);
      }
      r := Success(Lookup(resident[c], block.location.pos));
    }

    /** `get(Location)`: never makes the chunk resident and changes nothing. */
    method Get(loc: Location) returns (r: Result<Option<BlockDataObject>, Failure>)
      ensures r == BlockViewState.Get(State(), loc)
    {
      var v := ValidateY(loc.pos.y);
      if v.Failure? {
        return Failure(v.error);
      }
      var c := ChunkOf(loc);
      if c !in resident {
        var data := Lookup(tracker, loc);
        if data.None? {
          return Success(Lookup(storage, StorageKeyOf(pluginId, loc)));
        }
        return Success(data);
      }
      r := Success(Lookup(resident[c], loc.pos));
    }

    /** `put(D)`. */
    method Put(data: BlockDataObject?) returns (r: Result<(), Failure>)
      requires Valid()
      modifies this
      ensures Valid()
      ensures BlockViewState.Put(old(State()), data) == Step(State(), r)
    {
      if data == null {
        return Failure(IllegalArgument(NullDataMessage));
      }
      var loc := data.location;
      var v := ValidateY(loc.pos.y);
      if v.Failure? {
        return Failure(v.error);
      }
      var c := ChunkOf(loc);
      if c in resident {
        resident := resident[c := resident[c][loc.pos := data]];
        dirty := dirty + {c};
        return Success(());
      }
      tracker := tracker[loc := data];
      r := Success(());
    }

    /** `remove(Location)`. */
    method Remove(loc: Location) returns (r: Result<Option<BlockDataObject>, Failure>)
      requires Valid()
      modifies this
      ensures Valid()
      ensures BlockViewState.Remove(old(State()), loc) == Step(State(), r)
    {
      var v := ValidateY(loc.pos.y);
      if v.Failure? {
        return Failure(v.error);
      }
      var c := ChunkOf(loc);
      if c !in resident {
        r := Success(Lookup(tracker, loc));
        tracker := tracker - {loc};
        return;
      }
      var removed := Lookup(resident[c], loc.pos);
      resident := resident[c := resident[c] - {loc.pos}];
      if removed.Some? {
        dirty := dirty + {c};
      }
      r := Success(removed);
    }

    /** `remove(Block)`. */
    method RemoveBlock(block: Block) returns (r: Result<Option<BlockDataObject>, Failure>)
      requires Valid()
      modifies this
      ensures Valid()
      ensures BlockViewState.RemoveBlock(old(State()), block) == Step(State(), r)
    {
      r := Remove(block.location);
    }

    /** `remove(D)`: the removal stands even when the identity check throws. */
    method RemoveData(data: BlockDataObject) returns (r: Result<(), Failure>)
      requires Valid()
      modifies this
      ensures Valid()
      ensures BlockViewState.RemoveData(old(State()), data) == Step(State(), r)
    {
      var removed := Remove(data.location);
      if removed.Failure? {
        return Failure(removed.error);
      }
      if removed.value != Some(data) {
        return Failure(IllegalState(NotIdenticalMessage));
      }
      r := Success(());
    }

    /**
     * `postLoad(chunk)`: takes the tracker entries of chunk `c` out of the
     * tracker, then puts each into the chunk as a bulk insert.
     */
    method PostLoad(c: ChunkCoord)
      requires Valid()
      requires c in resident
      modifies this
      ensures Valid()
      ensures State() == BlockViewState.PostLoad(old(State()), c)
    {
      ghost var before := State();
      var moving := map l | l in tracker && ChunkOf(l) == c :: tracker[l];
      assert TrackedIn(moving, c) == TrackedIn(tracker, c);
      tracker := TrackedOutside(tracker, c);
      var chunk := BulkInsert(resident[c], moving, c);
      resident := resident[c := chunk];
      assert State() == BlockViewState.PostLoad(before, c);
    }

    /** `disable()`: persists every tracker entry through the storage engine. */
    method Disable()
      requires Valid()
      modifies this
      ensures Valid()
      ensures State() == BlockViewState.Disable(old(State()))
    {
      ghost var before := State();
      storage := PersistAll(storage, pluginId, tracker);
      assert State() == BlockViewState.Disable(before);
    }
  }

  /**
   * The loop of `postLoad`: each record taken from the tracker is put into the
   * chunk at its own location.
   */
  method BulkInsert(chunk: map<BlockPos, BlockDataObject>, moving: map<Location, BlockDataObject>, c: ChunkCoord)
    returns (filled: map<BlockPos, BlockDataObject>)
    requires forall l :: l in moving ==> moving[l].location == l && ChunkOf(l) == c
    ensures filled == chunk + TrackedIn(moving, c)
  {
    filled := chunk;
    var todo := moving.Keys;
    while todo != {}
      invariant todo <= moving.Keys
      invariant filled == chunk + TrackedIn(moving - todo, c)
      decreases todo
    {
      var l :| l in todo;
      var data := moving[l];
      MovedOneMore(moving, todo, l, c);
      UnionUpdate(chunk, TrackedIn(moving - todo, c), data.location.pos, data);
      filled := filled[data.location.pos := data];
      todo := todo - {l};
    }
    assert moving - {} == moving;
  }

  /**
   * The loop of `disable`: each tracker record is persisted under its own
   * location for `plugin`.
   */
  method PersistAll(storage: map<StorageKey, BlockDataObject>, plugin: PluginId, entries: map<Location, BlockDataObject>)
    returns (persisted: map<StorageKey, BlockDataObject>)
    requires forall l :: l in entries ==> entries[l].location == l
    ensures persisted == storage + Persisted(plugin, entries)
  {
    persisted := storage;
    var todo := entries.Keys;
    while todo != {}
      invariant todo <= entries.Keys
      invariant persisted == storage + Persisted(plugin, entries - todo)
      decreases todo
    {
      var l :| l in todo;
      var data := entries[l];
      PersistedOneMore(plugin, entries, todo, l);
      UnionUpdate(storage, Persisted(plugin, entries - todo), StorageKeyOf(plugin, l), data);
      persisted := persisted[StorageKey(plugin, data.location.world, data.location.pos) := data];
      todo := todo - {l};
    }
    assert entries - {} == entries;
  }

  /** Updating a union is updating its right operand. */
  lemma UnionUpdate<K, V>(a: map<K, V>, b: map<K, V>, k: K, v: V)
    ensures (a + b)[k := v] == a + b[k := v]
  {
  }

  /** One more tracker entry of chunk `c` has been put into the chunk. */
  lemma MovedOneMore(moving: map<Location, BlockDataObject>, todo: set<Location>, l: Location, c: ChunkCoord)
    requires l in todo && todo <= moving.Keys
    requires forall l' :: l' in moving ==> ChunkOf(l') == c
    ensures TrackedIn(moving - (todo - {l}), c) == TrackedIn(moving - todo, c)[l.pos := moving[l]]
  {
    var after := TrackedIn(moving - (todo - {l}), c);
    var before := TrackedIn(moving - todo, c)[l.pos := moving[l]];
    forall p | p in after
      ensures p in before && after[p] == before[p]
    {
      if p != l.pos {
        assert Location(c.world, p) in moving - todo;
      }
    }
    forall p | p in before
      ensures p in after
    {
    }
  }

  /** One more tracker entry has been persisted. */
  lemma PersistedOneMore(plugin: PluginId, t: map<Location, BlockDataObject>, todo: set<Location>, l: Location)
    requires l in todo && todo <= t.Keys
    ensures Persisted(plugin, t - (todo - {l})) == Persisted(plugin, t - todo)[StorageKeyOf(plugin, l) := t[l]]
  {
    var after := Persisted(plugin, t - (todo - {l}));
    var before := Persisted(plugin, t - todo)[StorageKeyOf(plugin, l) := t[l]];
    forall k | k in after
      ensures k in before && after[k] == before[k]
    {
      if k != StorageKeyOf(plugin, l) {
        assert Location(k.world, k.pos) in t - todo;
      }
    }
  }
}
