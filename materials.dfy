/** The block-type table (`blocks`, `no_collisions`, `interactables`) and the
    player's inventory, an ordered map from block type to count. */
module Materials {

  /** The keys of `blocks`, in the table's order. */
  datatype BlockType = Sand | Dirt | Stone | Grass | Wood | Coin | Gem | Leaf | Snow | Ice | Sandstone

  const AllTypes: seq<BlockType> := [Sand, Dirt, Stone, Grass, Wood, Coin, Gem, Leaf, Snow, Ice, Sandstone]

  function ColorOf(t: BlockType): string {
    match t
    case Sand => "#d49e15"
    case Dirt => "#330c06"
    case Stone => "#525252"
    case Grass => "#548a2d"
    case Wood => "#5c2d22"
    case Coin => "#f7c340"
    case Gem => "#4df0ff"
    case Leaf => "#548a2d"
    case Snow => "#ffffff"
    case Ice => "lightblue"
    case Sandstone => "lightbrown"
  }

  /** Rigid blocks are exempt from gravity: all but sand, dirt and coin. */
  predicate RigidOf(t: BlockType) {
    t != Sand && t != Dirt && t != Coin
  }

  /** `no_collisions`: wood, leaf, coin and gem never obstruct movement. */
  predicate Collides(t: BlockType) {
    t !in {Wood, Leaf, Coin, Gem}
  }

  /** `interactables`: the types picked up on touch. */
  predicate Interactable(t: BlockType) {
    t == Coin || t == Gem
  }

  /** Every type is listed exactly once in the table order. */
  lemma AllTypesComplete(t: BlockType)
    ensures t in AllTypes
    ensures forall i, j :: 0 <= i < j < |AllTypes| ==> AllTypes[i] != AllTypes[j]
  {
  }

  /** A JavaScript object from block type to count: the key order (which
      `Object.keys` reports and the number keys select from) and the counts. */
  datatype Inventory = Inventory(keys: seq<BlockType>, counts: map<BlockType, int>) {

    /** Keys are distinct and exactly the keys of the counts. */
    predicate WellFormed() {
      && (forall i, j :: 0 <= i < j < |keys| ==> keys[i] != keys[j])
      && (forall t :: t in counts <==> t in keys)
    }

    predicate NonNegative() {
      forall t :: t in counts ==> counts[t] >= 0
    }

    /** The count the hotbar shows for `t`; a missing key reads as 0 here,
        which every caller guards with a key test first. */
    function Count(t: BlockType): int {
      if t in counts then counts[t] else 0
    }

    /** `inventory[t]--`, used only when the count is positive. */
    function Take(t: BlockType): (r: Inventory)
      requires t in counts && counts[t] > 0
      ensures r.keys == keys
      ensures r.Count(t) == Count(t) - 1 && r.Count(t) >= 0
      ensures forall u :: u != t ==> r.Count(u) == Count(u)
      ensures WellFormed() ==> r.WellFormed()
      ensures NonNegative() ==> r.NonNegative()
    {
      Inventory(keys, counts[t := counts[t] - 1])
    }

    /** `inventory[t] = (inventory[t] || 0) + 1` for a key already present. */
    function Give(t: BlockType): (r: Inventory)
      requires t in counts
      ensures r.keys == keys
      ensures r.Count(t) == Count(t) + 1
      ensures forall u :: u != t ==> r.Count(u) == Count(u)
      ensures WellFormed() ==> r.WellFormed()
      ensures NonNegative() ==> r.NonNegative()
    {
      Inventory(keys, counts[t := counts[t] + 1])
    }

    /** The number key `digit` (1 to 9) selects the key at `digit - 1`, if
        there is one. */
    function SlotFor(digit: int): (r: Option<BlockType>)
      requires 1 <= digit <= 9
      ensures r.Some? <==> digit <= |keys|
      ensures r.Some? ==> r.value == keys[digit - 1]
      ensures WellFormed() && r.Some? ==> r.value in counts
    {
      if digit - 1 < |keys| then Some(keys[digit - 1]) else None
    }
  }

  /** Giving back a block just taken restores the inventory exactly. */
  lemma GiveUndoesTake(inv: Inventory, t: BlockType)
    requires t in inv.counts && inv.counts[t] > 0
    ensures inv.Take(t).Give(t) == inv
  {
    assert inv.Take(t).Give(t).counts == inv.counts;
  }

  datatype Option<T> = None | Some(value: T)

  /** The inventory a new player starts with: every type at 0, ten dirt. */
  function StartingInventory(): (inv: Inventory)
    ensures inv.WellFormed() && inv.NonNegative()
    ensures inv.keys == AllTypes
    ensures forall t :: inv.Count(t) == (if t == Dirt then 10 else 0)
  {
    var counts := map t | t in AllTypes :: if t == Dirt then 10 else 0;
    forall t ensures t in counts { AllTypesComplete(t); }
    Inventory(AllTypes, counts)
  }
}
