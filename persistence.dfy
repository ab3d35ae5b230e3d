/** The data that `returnData`, `saveData`, `copyData`, `loadWorldData` and
    `loadData` exchange, and the pure transforms behind them: keeping the live
    entries of a list, and the block the loader's constructor call rebuilds
    from a saved record. */
module Persistence {
  import opened Grid
  import opened Materials

  /** `InteractableObject.returnData()`. */
  datatype BlockRecord = BlockRecord(x: real, y: real, width: real, height: real,
                                     color: string, kind: BlockType, destroyed: bool)

  /** `Sheep.returnData()`: position only. */
  datatype SheepRecord = SheepRecord(x: real, y: real)

  /** The autosave's `player` entry. */
  datatype PlayerRecord = PlayerRecord(x: real, y: real, score: int)

  /** The five autosave entries; a missing entry is `None`. */
  datatype Storage = Storage(objects: Option<seq<BlockRecord>>, animals: Option<seq<SheepRecord>>,
                             player: Option<PlayerRecord>, inventory: Option<Inventory>, gems: Option<int>)

  datatype Pos = Pos(x: real, y: real)

  datatype PlayerFile = PlayerFile(pos: Option<Pos>, inventory: Option<Inventory>)

  /** An exported or imported world file; a missing field is `None`. */
  datatype WorldFile = WorldFile(blocks: Option<seq<BlockRecord>>, animals: Option<seq<SheepRecord>>,
                                 player: Option<PlayerFile>)

  /** The record of the block that `new InteractableObject(x, y, width,
      height, color, kind, image, destroyed)` builds: position snapped to the
      grid, color taken from the type table whatever color was passed. */
  function Constructed(x: real, y: real, width: real, height: real, kind: BlockType, destroyed: bool): (r: BlockRecord)
    ensures OnGrid(r.x) && OnGrid(r.y)
    ensures r.x <= x < r.x + TileSize && r.y <= y < r.y + TileSize
    ensures r.width == width && r.height == height && r.kind == kind && r.destroyed == destroyed
    ensures r.color == ColorOf(kind)
  {
    BlockRecord(SnapToGrid(x), SnapToGrid(y), width, height, ColorOf(kind), kind, destroyed)
  }

  /** The block both loaders rebuild from a saved record. The saved
      `destroyed` is passed in the constructor's `image` position, so the
      rebuilt block is never destroyed. */
  function Reloaded(r: BlockRecord): (b: BlockRecord)
    ensures !b.destroyed
    ensures b.kind == r.kind && b.width == r.width && b.height == r.height
  {
    Constructed(r.x, r.y, r.width, r.height, r.kind, false)
  }

  /** A record saved from a live, grid-aligned block whose color is its
      type's comes back unchanged. */
  lemma ReloadRoundTrip(r: BlockRecord)
    requires OnGrid(r.x) && OnGrid(r.y) && r.color == ColorOf(r.kind) && !r.destroyed
    ensures Reloaded(r) == r
  {
    SnapFixesGridPoints(r.x);
    SnapFixesGridPoints(r.y);
  }

  /** Reloading twice is reloading once. */
  lemma ReloadIdempotent(r: BlockRecord)
    ensures Reloaded(Reloaded(r)) == Reloaded(r)
  {
    SnapIdempotent(r.x);
    SnapIdempotent(r.y);
  }

  // ---------------------------------------------------------------------
  // Keeping the live entries

  /** The entries of `xs` whose `dropped` flag is false, in order: what the
      `if (obj.destroyed) continue` and `if (anim.killed) continue` loops
      collect. */
  function Kept<T>(xs: seq<T>, dropped: seq<bool>): (r: seq<T>)
    requires |xs| == |dropped|
    ensures |r| <= |xs|
    ensures forall x :: x in r ==> x in xs
    decreases |xs|
  {
    if |xs| == 0 then []
    else (if dropped[0] then [] else [xs[0]]) + Kept(xs[1..], dropped[1..])
  }

  /** Number of entries not dropped. */
  function LiveCount(dropped: seq<bool>): nat {
    if |dropped| == 0 then 0 else (if dropped[0] then 0 else 1) + LiveCount(dropped[1..])
  }

  lemma {:induction false} KeptLength<T>(xs: seq<T>, dropped: seq<bool>)
    requires |xs| == |dropped|
    ensures |Kept(xs, dropped)| == LiveCount(dropped)
    decreases |xs|
  {
    if |xs| > 0 {
      KeptLength(xs[1..], dropped[1..]);
    }
  }

  /** Every entry not dropped is kept. */
  lemma {:induction false} KeptContainsLive<T>(xs: seq<T>, dropped: seq<bool>, i: nat)
    requires |xs| == |dropped| && i < |xs| && !dropped[i]
    ensures xs[i] in Kept(xs, dropped)
    decreases i
  {
    if i > 0 {
      KeptContainsLive(xs[1..], dropped[1..], i - 1);
    }
  }

  /** Keeping distributes over concatenation: the kept entries stay in their
      original order. */
  lemma {:induction false} KeptAppend<T>(xs: seq<T>, dx: seq<bool>, ys: seq<T>, dy: seq<bool>)
    requires |xs| == |dx| && |ys| == |dy|
    ensures Kept(xs + ys, dx + dy) == Kept(xs, dx) + Kept(ys, dy)
    decreases |xs|
  {
    if |xs| > 0 {
      assert (xs + ys)[1..] == xs[1..] + ys;
      assert (dx + dy)[1..] == dx[1..] + dy;
      KeptAppend(xs[1..], dx[1..], ys, dy);
    } else {
      assert xs + ys == ys && dx + dy == dy;
    }
  }

  /** With nothing dropped, everything is kept. */
  lemma {:induction false} KeptAllLive<T>(xs: seq<T>, dropped: seq<bool>)
    requires |xs| == |dropped| && forall i :: 0 <= i < |dropped| ==> !dropped[i]
    ensures Kept(xs, dropped) == xs
    decreases |xs|
  {
    if |xs| > 0 {
      KeptAllLive(xs[1..], dropped[1..]);
    }
  }

  /** Block records with their own `destroyed` flag as the drop flag. */
  function DestroyedFlags(rs: seq<BlockRecord>): (d: seq<bool>)
    ensures |d| == |rs| && forall i :: 0 <= i < |rs| ==> d[i] == rs[i].destroyed
  {
    seq(|rs|, i requires 0 <= i < |rs| => rs[i].destroyed)
  }

  /** What both save loops keep of a list of block records. */
  function LiveRecords(rs: seq<BlockRecord>): (r: seq<BlockRecord>)
    ensures forall x :: x in r ==> x in rs && !x.destroyed
  {
    LiveRecordsAreLive(rs);
    Kept(rs, DestroyedFlags(rs))
  }

  lemma {:induction false} LiveRecordsAreLive(rs: seq<BlockRecord>)
    ensures forall x :: x in Kept(rs, DestroyedFlags(rs)) ==> !x.destroyed
    decreases |rs|
  {
    if |rs| > 0 {
      assert DestroyedFlags(rs)[1..] == DestroyedFlags(rs[1..]);
      LiveRecordsAreLive(rs[1..]);
    }
  }

  /** Saving an already compacted list changes nothing. */
  lemma LiveRecordsIdempotent(rs: seq<BlockRecord>)
    ensures LiveRecords(LiveRecords(rs)) == LiveRecords(rs)
  {
    var r := LiveRecords(rs);
    KeptAllLive(r, DestroyedFlags(r));
  }

  /** The blocks a loader rebuilds from a list of records, in order. */
  function ReloadAll(rs: seq<BlockRecord>): (bs: seq<BlockRecord>)
    ensures |bs| == |rs|
    ensures forall i :: 0 <= i < |rs| ==> bs[i] == Reloaded(rs[i])
  {
    seq(|rs|, i requires 0 <= i < |rs| => Reloaded(rs[i]))
  }

  /** Whatever was saved, every rebuilt block is live, on the grid,
      coloured by the type table, and keeps its record's type and size. */
  lemma ReloadAllWellFormed(rs: seq<BlockRecord>)
    ensures forall i :: 0 <= i < |rs| ==>
      var b := ReloadAll(rs)[i];
      && !b.destroyed && OnGrid(b.x) && OnGrid(b.y) && b.color == ColorOf(b.kind)
      && b.kind == rs[i].kind && b.width == rs[i].width && b.height == rs[i].height
  {
  }

  /** Saving and reloading a world whose live blocks all rest on grid lines
      gives back exactly the live blocks, in order. */
  lemma SaveReloadRoundTrip(rs: seq<BlockRecord>)
    requires forall r :: r in rs && !r.destroyed ==> OnGrid(r.x) && OnGrid(r.y) && r.color == ColorOf(r.kind)
    ensures ReloadAll(LiveRecords(rs)) == LiveRecords(rs)
  {
    var live := LiveRecords(rs);
    forall i | 0 <= i < |live| ensures ReloadAll(live)[i] == live[i] {
      ReloadRoundTrip(live[i]);
    }
  }

  /** Reloading never yields a destroyed block, whatever was saved. */
  lemma ReloadAllLive(rs: seq<BlockRecord>)
    ensures LiveRecords(ReloadAll(rs)) == ReloadAll(rs)
  {
    var bs := ReloadAll(rs);
    KeptAllLive(bs, DestroyedFlags(bs));
  }

  /** The kept entries of a one-longer prefix. */
  lemma KeptPrefix<T>(xs: seq<T>, dropped: seq<bool>, i: nat)
    requires |xs| == |dropped| && i < |xs|
    ensures Kept(xs[..i + 1], dropped[..i + 1])
         == Kept(xs[..i], dropped[..i]) + (if dropped[i] then [] else [xs[i]])
  {
    assert xs[..i + 1] == xs[..i] + [xs[i]];
    assert dropped[..i + 1] == dropped[..i] + [dropped[i]];
    KeptAppend(xs[..i], dropped[..i], [xs[i]], [dropped[i]]);
    assert Kept([xs[i]], [dropped[i]]) == (if dropped[i] then [] else [xs[i]]) + Kept([xs[i]][1..], [dropped[i]][1..]);
  }
}
