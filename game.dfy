/** The game's global state (`objects`, `animals` and the player) and the
    code that acts on it outside the frame loop: placing, breaking and
    selecting blocks, saving and exporting the world, the two loaders, and
    filling the world with generated terrain. */
module Game {
  import opened Grid
  import opened Materials
  import opened Persistence
  import opened Entities
  import opened Animals
  import opened Terrain

  predicate Distinct<T(==)>(s: seq<T>) {
    forall i, j :: 0 <= i < j < |s| ==> s[i] != s[j]
  }

  // ---------------------------------------------------------------------
  // Clicks

  /** The click handler's point test; the edges count. */
  predicate PointOn(r: Rect, mx: real, my: real) {
    mx >= r.x && mx <= r.x + r.width && my >= r.y && my <= r.y + r.height
  }

  function BoxOf(r: BlockRecord): Rect {
    Rect(r.x, r.y, r.width, r.height)
  }

  /** A click breaks a live block under the pointer whose type is an
      inventory key. */
  predicate Breakable(r: BlockRecord, inv: Inventory, mx: real, my: real) {
    PointOn(BoxOf(r), mx, my) && !r.destroyed && r.kind in inv.counts
  }

  /** The first breakable block from `from` on, or the length if none. */
  function FirstBreakable(rs: seq<BlockRecord>, inv: Inventory, mx: real, my: real, from: nat): (i: nat)
    requires from <= |rs|
    ensures from <= i <= |rs|
    ensures i < |rs| ==> Breakable(rs[i], inv, mx, my)
    ensures forall k :: from <= k < i ==> !Breakable(rs[k], inv, mx, my)
    decreases |rs| - from
  {
    if from == |rs| then from
    else if Breakable(rs[from], inv, mx, my) then from
    else FirstBreakable(rs, inv, mx, my, from + 1)
  }

  /** The first box under the pointer from `from` on, or the length if none. */
  function FirstUnder(bs: seq<Rect>, mx: real, my: real, from: nat): (j: nat)
    requires from <= |bs|
    ensures from <= j <= |bs|
    ensures j < |bs| ==> PointOn(bs[j], mx, my)
    ensures forall k :: from <= k < j ==> !PointOn(bs[k], mx, my)
    decreases |bs| - from
  {
    if from == |bs| then from
    else if PointOn(bs[from], mx, my) then from
    else FirstUnder(bs, mx, my, from + 1)
  }

  /** The block a right click at (`clientX`, `clientY`) places: one tile at
      the grid cell of the pointer's x and of half a tile above its y. */
  function PlacedRecord(clientX: real, clientY: real, t: BlockType): (r: BlockRecord)
    ensures OnGrid(r.x) && OnGrid(r.y) && !r.destroyed && r.kind == t
    ensures r.x <= clientX <= r.x + TileSize
    ensures r.y + TileSize / 2.0 <= clientY < r.y + TileSize * 1.5
  {
    SnapIdempotent(clientX);
    SnapIdempotent(clientY - TileSize / 2.0);
    Constructed(SnapToGrid(clientX), SnapToGrid(clientY - TileSize / 2.0), TileSize, TileSize, t, false)
  }

  /** A right click in the lower half of the pointer's cell places the tile
      in that cell; in the upper half, in the cell above it. */
  lemma PlacedCell(clientX: real, clientY: real, t: BlockType)
    ensures var cell := SnapToGrid(clientY);
      && (clientY >= cell + TileSize / 2.0 ==> PlacedRecord(clientX, clientY, t).y == cell)
      && (clientY < cell + TileSize / 2.0 ==> PlacedRecord(clientX, clientY, t).y == cell - TileSize)
  {
    var cell := SnapToGrid(clientY);
    if clientY >= cell + TileSize / 2.0 {
      SnapUnique(clientY - TileSize / 2.0, cell);
    } else {
      OnGridShift(cell, -1);
      SnapUnique(clientY - TileSize / 2.0, cell - TileSize);
    }
  }

  /** Appending a record never changes which earlier block a click breaks;
      the new record is broken only when none of the others is breakable. */
  lemma {:induction false} FirstBreakableAppend(rs: seq<BlockRecord>, r: BlockRecord, inv: Inventory,
                                                mx: real, my: real, from: nat)
    requires from <= |rs|
    ensures FirstBreakable(rs + [r], inv, mx, my, from) ==
      if FirstBreakable(rs, inv, mx, my, from) < |rs| then FirstBreakable(rs, inv, mx, my, from)
      else if Breakable(r, inv, mx, my) then |rs| else |rs| + 1
    decreases |rs| - from
  {
    if from < |rs| {
      assert (rs + [r])[from] == rs[from];
      FirstBreakableAppend(rs, r, inv, mx, my, from + 1);
    } else {
      assert (rs + [r])[from] == r;
    }
  }

  /** A click at the point of a right click that placed a block (`Place`
      appends its record to the list and takes one from the inventory, then
      `Break` breaks the first breakable record): with the pointer inside
      the placed tile and no earlier breakable block under it, the click
      breaks the placed block and the inventory comes back to what it was;
      otherwise the earlier block is broken instead. */
  lemma PlaceThenBreak(rs: seq<BlockRecord>, clientX: real, clientY: real, t: BlockType, inv: Inventory)
    requires t in inv.counts && inv.counts[t] > 0
    requires clientY <= PlacedRecord(clientX, clientY, t).y + TileSize
    ensures var placed := rs + [PlacedRecord(clientX, clientY, t)];
      var before := FirstBreakable(rs, inv.Take(t), clientX, clientY, 0);
      var i := FirstBreakable(placed, inv.Take(t), clientX, clientY, 0);
      && (before == |rs| ==> i == |rs| && placed[i].destroyed == false && inv.Take(t).Give(placed[i].kind) == inv)
      && (before < |rs| ==> i == before)
  {
    var p := PlacedRecord(clientX, clientY, t);
    PlacedUnderPointer(clientX, clientY, t, inv.Take(t));
    FirstBreakableAppend(rs, p, inv.Take(t), clientX, clientY, 0);
    GiveUndoesTake(inv, t);
  }

  /** A tile placed at a pointer whose y is not below the tile's bottom edge
      is breakable at that pointer while its type is in the inventory. */
  lemma PlacedUnderPointer(clientX: real, clientY: real, t: BlockType, inv: Inventory)
    requires t in inv.counts
    requires clientY <= PlacedRecord(clientX, clientY, t).y + TileSize
    ensures Breakable(PlacedRecord(clientX, clientY, t), inv, clientX, clientY)
  {
  }

  /** Placing next to a block and clicking on the shared edge breaks the
      neighbour, not the new block: a stone tile at (0, 64), a dirt tile
      placed with the pointer at (32, 90) lands at (32, 64), and the click at
      (32, 90) breaks the stone. */
  lemma BreakHitsNeighbourOnSharedEdge()
    ensures var stone := Constructed(0.0, 64.0, TileSize, TileSize, Stone, false);
      var inv := StartingInventory().Take(Dirt);
      && PlacedRecord(32.0, 90.0, Dirt).x == 32.0 && PlacedRecord(32.0, 90.0, Dirt).y == 64.0
      && FirstBreakable([stone, PlacedRecord(32.0, 90.0, Dirt)], inv, 32.0, 90.0, 0) == 0
  {
    SnapFixesGridPoints(0.0);
    SnapFixesGridPoints(32.0);
    SnapFixesGridPoints(64.0);
    assert SnapToGrid(74.0) == 64.0 by {
      assert (74.0 / TileSize).Floor == 2;
    }
    AllTypesComplete(Stone);
  }

  /** The half-tile offset means the placed tile can lie entirely above the
      pointer: a block placed at y = 100 spans 64 to 96. */
  lemma PlaceCanMissPointer()
    ensures !PointOn(BoxOf(PlacedRecord(0.0, 100.0, Dirt)), 0.0, 100.0)
  {
    var r := PlacedRecord(0.0, 100.0, Dirt);
    assert SnapToGrid(84.0) == 64.0 by {
      assert (84.0 / TileSize).Floor == 2;
    }
    SnapFixesGridPoints(64.0);
    assert r.y == 64.0;
  }

  // ---------------------------------------------------------------------
  // Loading

  /** How a load ended: nothing done, an exception before anything changed,
      an exception after the player and the blocks were replaced and the
      sheep cleared, or a full load. */
  datatype LoadOutcome = Skipped | Failed | FailedAfterLoad | Loaded

  /** `loadWorldData`'s path: no data, no confirmation or no `blocks` return
      early; a missing `player` throws at `data.player.pos`; a missing
      `animals` throws in the last loop. */
  function WorldFileOutcome(data: Option<WorldFile>, confirmed: bool): (r: LoadOutcome)
    ensures r == Loaded <==>
      data.Some? && confirmed && data.value.blocks.Some? && data.value.player.Some? && data.value.animals.Some?
    ensures r == Skipped <==> data.None? || !confirmed || data.value.blocks.None?
    ensures r == FailedAfterLoad ==> data.value.player.Some? && data.value.animals.None?
  {
    if data.None? || !confirmed || data.value.blocks.None? then Skipped
    else if data.value.player.None? then Failed
    else if data.value.animals.None? then FailedAfterLoad
    else Loaded
  }

  /** `loadData`'s path: no `objects` returns early; a missing `animals`
      throws in the last loop; every other entry has a default. */
  function StorageOutcome(store: Storage): (r: LoadOutcome)
    ensures r == Loaded <==> store.objects.Some? && store.animals.Some?
    ensures r == Skipped <==> store.objects.None?
    // every other entry has a default, so nothing fails before the blocks load
    ensures r != Failed
  {
    if store.objects.None? then Skipped
    else if store.animals.None? then FailedAfterLoad
    else Loaded
  }

  /** The inventory `{}` a loader falls back to. */
  const EmptyInventory: Inventory := Inventory([], map[])

  /** What the persistence code reads and writes of the player. */
  datatype PlayerState = PlayerState(x: real, y: real, score: int, gems: int, inventory: Inventory)

  /** The player after `loadData` from `current`: the saved position or
      (100, 100); the saved score only when it is not 0; the saved inventory
      or `{}`; the saved gems or 0. */
  function StoredPlayer(store: Storage, current: PlayerState): (p: PlayerState)
    ensures store.player.None? ==> p.x == 100.0 && p.y == 100.0 && p.score == current.score
    ensures store.gems.None? ==> p.gems == 0
    ensures store.inventory.None? ==> p.inventory == EmptyInventory
  {
    var rec := if store.player.Some? then store.player.value else PlayerRecord(100.0, 100.0, 0);
    PlayerState(rec.x, rec.y,
                if rec.score != 0 then rec.score else current.score,
                if store.gems.Some? then store.gems.value else 0,
                if store.inventory.Some? then store.inventory.value else EmptyInventory)
  }

  /** The player after `loadWorldData` from `current`: the file's position
      or (100, 100) and its inventory or `{}`; score and gems stay. */
  function FilePlayer(pf: PlayerFile, current: PlayerState): (p: PlayerState)
    ensures p.score == current.score && p.gems == current.gems
    ensures pf.pos.None? ==> p.x == 100.0 && p.y == 100.0
    ensures pf.inventory.None? ==> p.inventory == EmptyInventory
  {
    var pos := if pf.pos.Some? then pf.pos.value else Pos(100.0, 100.0);
    PlayerState(pos.x, pos.y, current.score, current.gems,
                if pf.inventory.Some? then pf.inventory.value else EmptyInventory)
  }

  /** The autosave entries `saveData` writes for a player. */
  function SavedPlayerEntries(p: PlayerState, objects: seq<BlockRecord>, animals: seq<SheepRecord>): Storage {
    Storage(Some(objects), Some(animals), Some(PlayerRecord(p.x, p.y, p.score)), Some(p.inventory), Some(p.gems))
  }

  /** The `player` entry `copyData` writes: position and inventory only. */
  function ExportedPlayer(p: PlayerState): PlayerFile {
    PlayerFile(Some(Pos(p.x, p.y)), Some(p.inventory))
  }

  /** Saving then loading restores the player, except that a saved score
      of 0 leaves the current score in place. */
  lemma SaveThenLoadPlayer(p: PlayerState, current: PlayerState, objects: seq<BlockRecord>, animals: seq<SheepRecord>)
    ensures StoredPlayer(SavedPlayerEntries(p, objects, animals), current)
         == p.(score := if p.score != 0 then p.score else current.score)
    ensures p.score == 0 && current.score != 0 ==>
      StoredPlayer(SavedPlayerEntries(p, objects, animals), current) != p
  {
  }

  /** Exporting then loading restores position and inventory; the score and
      gems are not in the file and stay what they were. */
  lemma ExportThenLoadPlayer(p: PlayerState, current: PlayerState)
    ensures FilePlayer(ExportedPlayer(p), current) == current.(x := p.x, y := p.y, inventory := p.inventory)
    ensures (p.score != current.score || p.gems != current.gems) ==> FilePlayer(ExportedPlayer(p), current) != p
  {
  }

  /** A full save and load of a world whose live blocks lie on grid lines
      gives back every live block and every live sheep, in order. */
  lemma SaveThenLoadWorld(rs: seq<BlockRecord>, sheep: seq<SheepRecord>, killed: seq<bool>, p: PlayerState, current: PlayerState)
    requires |sheep| == |killed|
    requires forall r :: r in rs && !r.destroyed ==> OnGrid(r.x) && OnGrid(r.y) && r.color == ColorOf(r.kind)
    ensures var store := SavedPlayerEntries(p, LiveRecords(rs), Kept(sheep, killed));
      && StorageOutcome(store) == Loaded
      && ReloadAll(store.objects.value) == LiveRecords(rs)
      && store.animals.value == Kept(sheep, killed)
  {
    SaveReloadRoundTrip(rs);
  }

  /** The records of the blocks built from terrain placements. */
  function Built(ps: seq<Placement>): (rs: seq<BlockRecord>)
    ensures |rs| == |ps|
    ensures forall i :: 0 <= i < |ps| ==>
      rs[i] == Constructed(ps[i].x, ps[i].y, TileSize, TileSize, ps[i].kind, false)
  {
    seq(|ps|, i requires 0 <= i < |ps| => Constructed(ps[i].x, ps[i].y, TileSize, TileSize, ps[i].kind, false))
  }

  /** Every generated block is a live tile of its placement's type, in the
      grid cell holding the placement, coloured by the type table. */
  lemma BuiltTiles(ps: seq<Placement>)
    ensures forall i :: 0 <= i < |ps| ==>
      var r := Built(ps)[i];
      && !r.destroyed && r.kind == ps[i].kind && r.color == ColorOf(ps[i].kind)
      && r.width == TileSize && r.height == TileSize
      && OnGrid(r.x) && OnGrid(r.y)
      && r.x <= ps[i].x < r.x + TileSize && r.y <= ps[i].y < r.y + TileSize
  {
  }

  lemma BuiltAppend(ps: seq<Placement>, p: Placement)
    ensures Built(ps + [p]) == Built(ps) + Built([p])
  {
    var a, b := Built(ps + [p]), Built(ps) + Built([p]);
    forall i | 0 <= i < |a| ensures a[i] == b[i] {
      if i < |ps| {
        assert (ps + [p])[i] == ps[i];
      }
    }
  }

  /** Generated terrain is saved and reloaded unchanged. */
  lemma TerrainSurvivesReload(ps: seq<Placement>)
    ensures ReloadAll(LiveRecords(Built(ps))) == Built(ps)
  {
    var bs := Built(ps);
    KeptAllLive(bs, DestroyedFlags(bs));
    forall i | 0 <= i < |bs| ensures ReloadAll(bs)[i] == bs[i] {
      ReloadRoundTrip(bs[i]);
    }
  }

  // ---------------------------------------------------------------------
  // The world

  /** The globals `objects` and `animals`, and the player. */
  class World {
    var objects: seq<Block>
    var animals: seq<Sheep>
    const player: Player

    /** No block or sheep is listed twice, and every block's color,
        rigidity and collisions come from the type table. */
    predicate Valid()
      reads this
    {
      Distinct(objects) && Distinct(animals) && forall b :: b in objects ==> b.Valid()
    }

    function Snapshot(): PlayerState
      reads player
    {
      PlayerState(player.x, player.y, player.score, player.gems, player.inventory)
    }

    constructor (player: Player)
      ensures Valid()
      ensures objects == [] && animals == [] && this.player == player
    {
      objects := [];
      animals := [];
      this.player := player;
    }

    /** The context-menu handler: with a positive count of the selected
        type, a new block of that type is appended at the pointer's cell and
        the count goes down by one; otherwise nothing happens. */
    method Place(clientX: real, clientY: real)
      requires Valid()
      modifies this`objects, player`inventory
      ensures Valid()
      ensures old(player.inventory.Count(player.selectedBlock)) > 0 ==>
        && Records(objects) == old(Records(objects)) + [PlacedRecord(clientX, clientY, player.selectedBlock)]
        && objects[..|objects| - 1] == old(objects) && fresh(objects[|objects| - 1])
        && player.inventory == old(player.inventory).Take(player.selectedBlock)
      ensures old(player.inventory.Count(player.selectedBlock)) <= 0 ==>
        objects == old(objects) && player.inventory == old(player.inventory)
    {
      var x := SnapToGrid(clientX);
      var y := SnapToGrid(clientY - TileSize / 2.0);
      if player.inventory.Count(player.selectedBlock) > 0 {
        var block := new Block(x, y, TileSize, TileSize, "saddlebrown", player.selectedBlock, false, false);
        objects := objects + [block];
        player.inventory := player.inventory.Take(player.selectedBlock);
        assert Records(objects) == old(Records(objects)) + [block.ReturnData()];
      }
    }

    /** The click handler: the first breakable block under the pointer is
        destroyed and its type's count goes up by one; then the first sheep
        under the pointer takes one point of damage. */
    method Break(mx: real, my: real)
      requires Valid()
      modifies objects`destroyed, player`inventory, animals`health, animals`killed
      ensures Valid()
      ensures var i := FirstBreakable(old(Records(objects)), old(player.inventory), mx, my, 0);
        && Records(objects) == (if i < |objects| then old(Records(objects))[i := old(Records(objects))[i].(destroyed := true)]
                                else old(Records(objects)))
        && player.inventory == (if i < |objects| then old(player.inventory).Give(objects[i].kind) else old(player.inventory))
      ensures var j := FirstUnder(old(Boxes(animals)), mx, my, 0);
        forall k :: 0 <= k < |animals| ==>
          && animals[k].health == old(animals[k].health) - (if k == j then 1 else 0)
          && animals[k].killed == (old(animals[k].killed) || (k == j && animals[k].health <= 0))
    {
      var i := BreakBlock(mx, my);
      var j := HitSheep(mx, my);
    }

    /** The block loop of the click handler. */
    method BreakBlock(mx: real, my: real) returns (i: nat)
      requires Distinct(objects)
      modifies objects`destroyed, player`inventory
      ensures Boxes(animals) == old(Boxes(animals))
      ensures i == FirstBreakable(old(Records(objects)), old(player.inventory), mx, my, 0)
      ensures Records(objects) == (if i < |objects| then old(Records(objects))[i := old(Records(objects))[i].(destroyed := true)]
                                   else old(Records(objects)))
      ensures player.inventory == (if i < |objects| then old(player.inventory).Give(objects[i].kind) else old(player.inventory))
    {
      ghost var rs := Records(objects);
      ghost var inv := player.inventory;
      ghost var target := FirstBreakable(rs, inv, mx, my, 0);
      i := 0;
      while i < |objects|
        invariant 0 <= i <= |objects|
        invariant FirstBreakable(rs, inv, mx, my, i) == target
        invariant Records(objects) == rs && player.inventory == inv
      {
        var obj := objects[i];
        if mx >= obj.x && mx <= obj.x + obj.width && my >= obj.y && my <= obj.y + obj.height
           && !obj.destroyed && obj.kind in player.inventory.counts
        {
          assert Breakable(rs[i], inv, mx, my);
          obj.Destroy();
          player.inventory := player.inventory.Give(obj.kind);
          forall k | 0 <= k < |objects| ensures Records(objects)[k] == rs[i := rs[i].(destroyed := true)][k] {
            if k != i {
              assert objects[k] != obj;
            }
          }
          return;
        }
        i := i + 1;
      }
    }

    /** The sheep loop of the click handler. */
    method HitSheep(mx: real, my: real) returns (j: nat)
      requires Distinct(animals)
      modifies animals`health, animals`killed
      ensures Records(objects) == old(Records(objects))
      ensures j == FirstUnder(old(Boxes(animals)), mx, my, 0)
      ensures forall k :: 0 <= k < |animals| ==>
        && animals[k].health == old(animals[k].health) - (if k == j then 1 else 0)
        && animals[k].killed == (old(animals[k].killed) || (k == j && animals[k].health <= 0))
    {
      ghost var bs := Boxes(animals);
      ghost var target := FirstUnder(bs, mx, my, 0);
      j := 0;
      while j < |animals|
        invariant 0 <= j <= |animals|
        invariant FirstUnder(bs, mx, my, j) == target
        invariant Boxes(animals) == bs
      {
        var anim := animals[j];
        if mx >= anim.x && mx <= anim.x + anim.width && my >= anim.y && my <= anim.y + anim.height {
          assert PointOn(bs[j], mx, my);
          anim.Damage(1);
          return;
        }
        j := j + 1;
      }
    }

    /** The number keys: key `digit` selects the inventory's key at
        `digit - 1` when there is one. */
    method SelectSlot(digit: int)
      requires 1 <= digit <= 9
      modifies player`selectedBlock
      ensures player.inventory.SlotFor(digit).Some? ==> player.selectedBlock == player.inventory.SlotFor(digit).value
      ensures player.inventory.SlotFor(digit).None? ==> player.selectedBlock == old(player.selectedBlock)
    {
      var index := digit - 1;
      var keys := player.inventory.keys;
      if index < |keys| {
        player.selectedBlock := keys[index];
      }
    }

    /** The first loop of `saveData` and `copyData`: the records of the
        blocks not destroyed, in order. */
    method LiveObjectData() returns (objData: seq<BlockRecord>)
      ensures objData == LiveRecords(Records(objects))
    {
      ghost var rs := Records(objects);
      ghost var flags := DestroyedFlags(rs);
      objData := [];
      var i := 0;
      while i < |objects|
        invariant 0 <= i <= |objects|
        invariant objData == Kept(rs[..i], flags[..i])
      {
        KeptPrefix(rs, flags, i);
        var obj := objects[i];
        if !obj.destroyed {
          objData := objData + [obj.ReturnData()];
        }
        i := i + 1;
      }
      assert rs[..i] == rs && flags[..i] == flags;
    }

    /** The second loop of `saveData` and `copyData`: the records of the
        sheep not killed, in order. */
    method LiveAnimalData() returns (animData: seq<SheepRecord>)
      ensures animData == Kept(SheepRecords(animals), KilledFlags(animals))
    {
      ghost var rs := SheepRecords(animals);
      ghost var flags := KilledFlags(animals);
      animData := [];
      var i := 0;
      while i < |animals|
        invariant 0 <= i <= |animals|
        invariant animData == Kept(rs[..i], flags[..i])
      {
        KeptPrefix(rs, flags, i);
        var anim := animals[i];
        if !anim.killed {
          animData := animData + [anim.ReturnData()];
        }
        i := i + 1;
      }
      assert rs[..i] == rs && flags[..i] == flags;
    }

    /** `saveData`: the five autosave entries. */
    method SaveData() returns (store: Storage)
      ensures store == SavedPlayerEntries(Snapshot(), LiveRecords(Records(objects)),
                                          Kept(SheepRecords(animals), KilledFlags(animals)))
    {
      var objData := LiveObjectData();
      var animData := LiveAnimalData();
      store := Storage(Some(objData), Some(animData), Some(PlayerRecord(player.x, player.y, player.score)),
                       Some(player.inventory), Some(player.gems));
    }

    /** `copyData`: the exported world file, which carries neither the score
        nor the gems. */
    method CopyData() returns (data: WorldFile)
      ensures data == WorldFile(Some(LiveRecords(Records(objects))),
                                Some(Kept(SheepRecords(animals), KilledFlags(animals))),
                                Some(ExportedPlayer(Snapshot())))
    {
      var objData := LiveObjectData();
      var animData := LiveAnimalData();
      data := WorldFile(Some(objData), Some(animData),
                        Some(PlayerFile(Some(Pos(player.x, player.y)), Some(player.inventory))));
    }

    /** The block loop of both loaders: `objects` becomes one new block per
        record. The record's `destroyed` lands in the constructor's `image`
        slot, so no rebuilt block is destroyed. */
    method RebuildObjects(objData: seq<BlockRecord>)
      requires Valid()
      modifies this`objects
      ensures Valid()
      ensures Records(objects) == ReloadAll(objData)
      ensures forall k :: 0 <= k < |objects| ==> fresh(objects[k])
    {
      objects := [];
      var i := 0;
      while i < |objData|
        invariant 0 <= i <= |objData| && |objects| == i
        invariant Valid()
        invariant Records(objects) == ReloadAll(objData[..i])
        invariant forall k :: 0 <= k < |objects| ==> fresh(objects[k])
      {
        var newObj := RebuildBlock(objData, i);
        i := i + 1;
      }
      assert objData[..i] == objData;
    }

    /** One pass of that loop: a fresh block for the i-th record, which
        extends the rebuilt records by that record reloaded. */
    method RebuildBlock(objData: seq<BlockRecord>, i: nat) returns (newObj: Block)
      requires Valid() && i < |objData|
      requires Records(objects) == ReloadAll(objData[..i])
      modifies this`objects
      ensures Valid()
      ensures objects == old(objects) + [newObj] && fresh(newObj)
      ensures Records(objects) == ReloadAll(objData[..i + 1])
    {
      var r := objData[i];
      newObj := new Block(r.x, r.y, r.width, r.height, r.color, r.kind, r.destroyed, false);
      objects := objects + [newObj];
      assert Records(objects) == Records(old(objects)) + [Reloaded(r)];
      assert objData[..i + 1] == objData[..i] + [r];
    }

    /** The sheep loop of both loaders: `animals` becomes one new sheep per
        record. */
    method RebuildAnimals(animData: seq<SheepRecord>)
      requires Valid()
      modifies this`animals
      ensures Valid()
      ensures SheepRecords(animals) == animData
      ensures forall k :: 0 <= k < |animals| ==> fresh(animals[k]) && animals[k].health == 3 && !animals[k].killed
    {
      animals := [];
      var i := 0;
      while i < |animData|
        invariant 0 <= i <= |animData| && |animals| == i
        invariant Valid()
        invariant SheepRecords(animals) == animData[..i]
        invariant forall k :: 0 <= k < |animals| ==> fresh(animals[k]) && animals[k].health == 3 && !animals[k].killed
      {
        var r := animData[i];
        var newAnim := new Sheep(r.x, r.y);
        animals := animals + [newAnim];
        assert SheepRecords(animals) == animData[..i + 1];
        i := i + 1;
      }
      assert animData[..i] == animData;
    }

    /** `loadWorldData` with the user's answer to the confirmation prompt. */
    method LoadWorldData(data: Option<WorldFile>, confirmed: bool) returns (outcome: LoadOutcome)
      requires Valid()
      modifies this`objects, this`animals, player`x, player`y, player`inventory
      ensures Valid()
      ensures outcome == WorldFileOutcome(data, confirmed)
      ensures outcome == Skipped || outcome == Failed ==>
        objects == old(objects) && animals == old(animals) && Snapshot() == old(Snapshot())
      ensures outcome == Loaded || outcome == FailedAfterLoad ==>
        && Snapshot() == FilePlayer(data.value.player.value, old(Snapshot()))
        && Records(objects) == ReloadAll(data.value.blocks.value)
        && (forall k :: 0 <= k < |objects| ==> fresh(objects[k]))
      ensures outcome == FailedAfterLoad ==> animals == []
      ensures outcome == Loaded ==>
        SheepRecords(animals) == data.value.animals.value && forall k :: 0 <= k < |animals| ==> fresh(animals[k])
    {
      outcome := WorldFileOutcome(data, confirmed);
      if data.None? || !confirmed {
        return;
      }
      if data.value.blocks.None? {
        return;
      }
      var objData := data.value.blocks.value;
      if data.value.player.None? {
        return;
      }
      var pf := data.value.player.value;
      var playerData := if pf.pos.Some? then pf.pos.value else Pos(100.0, 100.0);
      var playerInventory := if pf.inventory.Some? then pf.inventory.value else EmptyInventory;
      player.x := playerData.x;
      player.y := playerData.y;
      player.inventory := playerInventory;
      animals := [];
      RebuildObjects(objData);
      if data.value.animals.None? {
        return;
      }
      RebuildAnimals(data.value.animals.value);
    }

    /** `loadData` from the autosave entries. */
    method LoadData(store: Storage) returns (outcome: LoadOutcome)
      requires Valid()
      modifies this`objects, this`animals, player`x, player`y, player`inventory, player`score, player`gems
      ensures Valid()
      ensures outcome == StorageOutcome(store)
      ensures outcome == Skipped ==>
        objects == old(objects) && animals == old(animals) && Snapshot() == old(Snapshot())
      ensures outcome != Skipped ==>
        && Snapshot() == StoredPlayer(store, old(Snapshot()))
        && Records(objects) == ReloadAll(store.objects.value)
        && (forall k :: 0 <= k < |objects| ==> fresh(objects[k]))
      ensures outcome == FailedAfterLoad ==> animals == []
      ensures outcome == Loaded ==>
        SheepRecords(animals) == store.animals.value && forall k :: 0 <= k < |animals| ==> fresh(animals[k])
    {
      outcome := StorageOutcome(store);
      if store.objects.None? {
        return;
      }
      var objData := store.objects.value;
      RestorePlayer(store);
      animals := [];
      RebuildObjects(objData);
      if store.animals.None? {
        return;
      }
      RebuildAnimals(store.animals.value);
    }

    /** The player part of `loadData`: the saved entries or their
        defaults. */
    method RestorePlayer(store: Storage)
      modifies player`x, player`y, player`inventory, player`score, player`gems
      ensures Snapshot() == StoredPlayer(store, old(Snapshot()))
    {
      var playerData := if store.player.Some? then store.player.value else PlayerRecord(100.0, 100.0, 0);
      var playerInventory := if store.inventory.Some? then store.inventory.value else EmptyInventory;
      var gems := if store.gems.Some? then store.gems.value else 0;
      player.x := playerData.x;
      player.y := playerData.y;
      if playerData.score != 0 {
        player.score := playerData.score;
      }
      player.inventory := playerInventory;
      player.gems := gems;
    }

    /** `generateHillyTerrain` with the options the game passes: one new
        block per placement, appended in order. */
    method GenerateHillyTerrain(canvasHeight: real, startDraw: real, walkDraws: seq<real>, biomeDraw: real,
                                switches: seq<real>, picks: seq<real>, chanceDraws: seq<real>, heightDraws: seq<real>)
      requires Valid()
      requires TerrainDraws(startDraw, walkDraws, biomeDraw, switches, picks, chanceDraws, heightDraws)
      modifies this`objects
      ensures Valid()
      ensures Records(objects) == old(Records(objects))
        + Built(HillyTerrain(canvasHeight, startDraw, walkDraws, biomeDraw, switches, picks, chanceDraws, heightDraws))
      ensures objects[..old(|objects|)] == old(objects)
      ensures forall k :: old(|objects|) <= k < |objects| ==> fresh(objects[k])
    {
      var placements := Terrain.GenerateHillyTerrain(canvasHeight, startDraw, walkDraws, biomeDraw,
                                                     switches, picks, chanceDraws, heightDraws);
      AddBlocks(placements);
    }

    /** The loop that turns placements into blocks. */
    method AddBlocks(placements: seq<Placement>)
      requires Valid()
      modifies this`objects
      ensures Valid()
      ensures Records(objects) == old(Records(objects)) + Built(placements)
      ensures objects[..old(|objects|)] == old(objects)
      ensures forall k :: old(|objects|) <= k < |objects| ==> fresh(objects[k])
    {
      ghost var rs0 := Records(objects);
      ghost var added: seq<Block> := [];
      var i := 0;
      while i < |placements|
        invariant 0 <= i <= |placements| && |added| == i
        invariant objects == old(objects) + added
        invariant Valid()
        invariant Records(objects) == rs0 + Built(placements[..i])
        invariant forall k :: 0 <= k < |added| ==> fresh(added[k])
      {
        var block := AppendBlock(placements, i, rs0);
        added := added + [block];
        i := i + 1;
      }
      assert placements[..i] == placements;
      assert objects[..old(|objects|)] == old(objects);
    }

    /** One pass of that loop: a fresh tile-sized block for the i-th
        placement, which extends the saved records by its built tile. */
    method AppendBlock(placements: seq<Placement>, i: nat, ghost rs0: seq<BlockRecord>) returns (block: Block)
      requires Valid() && i < |placements|
      requires Records(objects) == rs0 + Built(placements[..i])
      modifies this`objects
      ensures Valid()
      ensures objects == old(objects) + [block] && fresh(block)
      ensures Records(objects) == rs0 + Built(placements[..i + 1])
    {
      var p := placements[i];
      block := new Block(p.x, p.y, TileSize, TileSize, ColorOf(p.kind), p.kind, false, false);
      objects := objects + [block];
      assert Records(objects) == old(Records(objects)) + Built([p]);
      assert placements[..i + 1] == placements[..i] + [p];
      BuiltAppend(placements[..i], p);
    }
  }
}
