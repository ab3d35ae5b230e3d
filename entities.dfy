/** The two classes whose fields the game updates in place and that refer to
    each other: blocks (`InteractableObject`) and the player
    (`PhysicsObject`). */
module Entities {
  import opened Grid
  import opened Materials
  import opened Sweeps
  import opened Persistence

  /** What the sweeps see of each block of a list, in list order. */
  function Views(objs: seq<Block>): (vs: seq<BlockView>)
    reads set o | o in objs
    ensures |vs| == |objs|
    ensures forall i :: 0 <= i < |objs| ==> vs[i] == objs[i].View()
  {
    seq(|objs|, i reads objs requires 0 <= i < |objs| => objs[i].View())
  }

  /** The `returnData()` of each block of a list, in list order. */
  function Records(objs: seq<Block>): (rs: seq<BlockRecord>)
    reads set o | o in objs
    ensures |rs| == |objs|
    ensures forall i :: 0 <= i < |objs| ==> rs[i] == objs[i].ReturnData()
  {
    seq(|objs|, i reads objs requires 0 <= i < |objs| => objs[i].ReturnData())
  }

  /** Blocks that keep the type table's invariant save grid-aligned records
      in their type's colour. */
  lemma RecordsOfValid(objs: seq<Block>)
    requires forall b :: b in objs ==> b.Valid()
    ensures forall i :: 0 <= i < |objs| ==>
      Records(objs)[i].color == ColorOf(Records(objs)[i].kind) && OnGrid(Records(objs)[i].x)
  {
  }

  /** Which entries of `objs` are `b` itself (`other === this`). */
  function Selves(b: Block, objs: seq<Block>): (s: seq<bool>)
    ensures |s| == |objs|
    ensures forall i :: 0 <= i < |objs| ==> (s[i] <==> objs[i] == b)
  {
    seq(|objs|, i requires 0 <= i < |objs| => objs[i] == b)
  }

  /** `InteractableObject`: a block. The fields that the modelled code never
      reassigns after construction are constants. */
  class Block {
    const x: real
    var y: real
    const width: real
    const height: real
    const color: string
    const kind: BlockType
    const collisions: bool
    const rigid: bool
    var velocityY: real
    var destroyed: bool

    /** The type table decides color, rigidity and collisions. */
    predicate Valid() {
      color == ColorOf(kind) && collisions == Collides(kind) && rigid == RigidOf(kind) && OnGrid(x)
    }

    /** The constructor snaps the position to the grid and derives color,
        `rigid` and `collisions` from the type; the `color` and `image`
        arguments are not used, and a true `destroyed` argument is kept. */
    constructor (x: real, y: real, width: real, height: real, color: string, kind: BlockType,
                 image: bool, destroyed: bool)
      ensures Valid()
      ensures ReturnData() == Constructed(x, y, width, height, kind, destroyed)
      ensures velocityY == 0.0
    {
      this.x := SnapToGrid(x);
      this.y := SnapToGrid(y);
      this.width := width;
      this.height := height;
      this.kind := kind;
      this.collisions := Collides(kind);
      this.velocityY := 0.0;
      this.destroyed := destroyed;
      this.color := ColorOf(kind);
      this.rigid := RigidOf(kind);
    }

    /** `returnData()`: a block built from the type table saves a record in
        its type's colour, at a grid column. */
    function ReturnData(): (r: BlockRecord)
      reads this
      ensures Valid() ==> r.color == ColorOf(r.kind) && OnGrid(r.x)
    {
      BlockRecord(x, y, width, height, color, kind, destroyed)
    }

    function View(): BlockView
      reads this
    {
      BlockView(x, y, width, height, collisions, destroyed)
    }

    /** `destroy()`: a soft delete; the block stays in the list. */
    method Destroy()
      modifies this`destroyed
      ensures destroyed
    {
      destroyed := true;
    }

    /** `onInteract`: a coin or a gem is destroyed and credited to the
        player's score or gems; other types are left alone. */
    method OnInteract(player: Player)
      modifies this`destroyed, player`score, player`gems
      ensures destroyed == (old(destroyed) || Interactable(kind))
      ensures player.score == old(player.score) + (if kind == Coin then 1 else 0)
      ensures player.gems == old(player.gems) + (if kind == Gem then 1 else 0)
    {
      if !Interactable(kind) {
        return;
      }
      destroyed := true;
      if kind == Coin {
        player.score := player.score + 1;
        return;
      }
      if kind == Gem {
        player.gems := player.gems + 1;
      }
    }

    /** The player's box, shifted by `scrollX`, overlaps this block drawn at
        `drawX`. */
    predicate TouchedBy(player: Player, drawX: real, scrollX: real)
      reads this, player
    {
      && player.x + scrollX < drawX + width
      && player.x + scrollX + player.width > drawX
      && player.y < y + height
      && player.y + player.height > y
    }

    /** `checkCollision`: a live block touched by the player interacts once;
        an already destroyed coin or gem is never collected again. */
    method CheckCollision(player: Player, drawX: real, scrollX: real)
      modifies this`destroyed, player`score, player`gems
      ensures var collected := old(TouchedBy(player, drawX, scrollX)) && !old(destroyed) && Interactable(kind);
        && destroyed == (old(destroyed) || collected)
        && (collected && kind == Coin ==> player.score == old(player.score) + 1 && player.gems == old(player.gems))
        && (collected && kind == Gem ==> player.gems == old(player.gems) + 1 && player.score == old(player.score))
        && (!collected ==> player.score == old(player.score) && player.gems == old(player.gems))
    {
      if TouchedBy(player, drawX, scrollX) && !destroyed {
        OnInteract(player);
      }
    }

    /** The gravity and stacking step of `update` (the part that moves the
        block down): the new vertical position and velocity are those of
        `StackStep` on the list as it was, so the block never ends below the
        floor. */
    method Fall(allObjects: seq<Block>, canvasHeight: real)
      modifies this`y, this`velocityY
      ensures Settled(y, velocityY) ==
        StackStep(old(Views(allObjects)), Selves(this, allObjects), x, old(y), width, height,
                  old(velocityY), rigid, canvasHeight)
      ensures y + height <= canvasHeight
    {
      ghost var vs := Views(allObjects);
      ghost var y0, vy0 := y, velocityY;
      if !rigid {
        velocityY := velocityY + Gravity;
      }
      var nextY := y + velocityY;
      StackOnto(allObjects, vs, nextY);
      ghost var stacked := Settled(y, velocityY);
      assert StackStep(vs, Selves(this, allObjects), x, y0, width, height, vy0, rigid, canvasHeight)
          == OntoFloor(stacked, height, canvasHeight);
      GroundOrFall(canvasHeight);
    }

    /** The ground collision after the stacking loop: a block that would pass
        the floor rests on it, any other block falls by its velocity. */
    method GroundOrFall(canvasHeight: real)
      modifies this`y, this`velocityY
      ensures Settled(y, velocityY) == OntoFloor(old(Settled(y, velocityY)), height, canvasHeight)
    {
      var landed := false;
      if !landed && y + height + velocityY > canvasHeight {
        y := canvasHeight - height;
        velocityY := 0.0;
        landed := true;
      }
      if !landed {
        y := y + velocityY;
      }
    }

    /** The stacking loop: the block comes to rest on top of the first other
        live block it would overlap at `nextY`, if it is falling and was no
        more than 5 below that block's top. */
    method StackOnto(allObjects: seq<Block>, ghost vs: seq<BlockView>, nextY: real)
      requires vs == Views(allObjects)
      modifies this`y, this`velocityY
      ensures Settled(y, velocityY) == Stacked(vs, Selves(this, allObjects), x, old(y), width, height, old(velocityY), nextY)
    {
      ghost var selves := Selves(this, allObjects);
      ghost var y0, v1 := y, velocityY;
      ghost var k := FirstSupport(vs, selves, 0, x, y0, width, height, v1, nextY);
      var i := 0;
      while i < |allObjects|
        invariant 0 <= i <= |allObjects|
        invariant y == y0 && velocityY == v1
        invariant FirstSupport(vs, selves, i, x, y0, width, height, v1, nextY) == k
      {
        var other := allObjects[i];
        if other == this || other.destroyed {
          i := i + 1;
          continue;
        }
        if IsColliding(Rect(x, nextY, width, height), Rect(other.x, other.y, other.width, other.height))
           && velocityY >= 0.0 && y + height <= other.y + 5.0
        {
          assert StacksOn(vs[i], selves[i], x, y0, width, height, v1, nextY);
          y := other.y - height;
          velocityY := 0.0;
          break;
        }
        i := i + 1;
      }
    }
  }

  /** The block rests on `other`: a different live block whose top is
      exactly at this block's bottom, overlapping it horizontally. */
  predicate RestsOn(b: Block, other: Block)
    reads b, other
  {
    && other != b && !other.destroyed
    && b.x < other.x + other.width && b.x + b.width > other.x
    && b.y + b.height == other.y
  }

  function IsSupportedFrom(b: Block, others: seq<Block>, from: nat, canvasHeight: real): bool
    requires from <= |others|
    reads b, set o | o in others
    decreases |others| - from
  {
    if from == |others| then b.y + b.height == canvasHeight
    else if RestsOn(b, others[from]) then true
    else IsSupportedFrom(b, others, from + 1, canvasHeight)
  }

  /** `isSupported`: the block rests on some other live block of the list
      or stands on the floor. */
  function IsSupported(b: Block, others: seq<Block>, canvasHeight: real): (r: bool)
    reads b, set o | o in others
    ensures r <==> (exists i :: 0 <= i < |others| && RestsOn(b, others[i])) || b.y + b.height == canvasHeight
  {
    IsSupportedFromMeaning(b, others, 0, canvasHeight);
    IsSupportedFrom(b, others, 0, canvasHeight)
  }

  lemma {:induction false} IsSupportedFromMeaning(b: Block, others: seq<Block>, from: nat, canvasHeight: real)
    requires from <= |others|
    ensures IsSupportedFrom(b, others, from, canvasHeight) <==>
      (exists i :: from <= i < |others| && RestsOn(b, others[i])) || b.y + b.height == canvasHeight
    decreases |others| - from
  {
    if from < |others| {
      IsSupportedFromMeaning(b, others, from + 1, canvasHeight);
    }
  }

  /** The key flags that `handleInput` reads (and clears after a jump). */
  datatype Keys = Keys(left: bool, right: bool, up: bool, space: bool, shift: bool)

  /** The horizontal velocity the held keys ask for: left wins over right,
      shift sprints at 1.5 times `moveSpeed`. */
  function InputVelocity(keys: Keys): (v: real)
    ensures keys.left ==> v < 0.0
    ensures !keys.left && keys.right ==> v > 0.0
    ensures !keys.left && !keys.right ==> v == 0.0
    ensures v != 0.0 ==> (if keys.shift then v == 9.6 || v == -9.6 else v == 6.4 || v == -6.4)
  {
    var speed := if keys.shift then MoveSpeed * 1.5 else MoveSpeed;
    if keys.left then -speed else if keys.right then speed else 0.0
  }

  /** `PhysicsObject`: the player. */
  class Player {
    var x: real
    var y: real
    const width: real
    const height: real
    var velocityX: real
    var velocityY: real
    var jumpCount: int
    const maxJumps: int
    var score: int
    var gems: int
    var inventory: Inventory
    var selectedBlock: BlockType

    /** The jump counter stays within its cap. */
    predicate Valid()
      reads this
    {
      0 <= jumpCount <= maxJumps
    }

    constructor (x: real, y: real, width: real, height: real)
      ensures Valid()
      ensures this.x == x && this.y == y && this.width == width && this.height == height
      ensures velocityX == 0.0 && velocityY == 0.0 && jumpCount == 0 && maxJumps == 1
      ensures score == 0 && gems == 0
      ensures inventory == StartingInventory() && selectedBlock == Dirt
    {
      this.x := x;
      this.y := y;
      this.width := width;
      this.height := height;
      velocityX := 0.0;
      velocityY := 0.0;
      jumpCount := 0;
      maxJumps := 1;
      score := 0;
      gems := 0;
      inventory := StartingInventory();
      selectedBlock := Dirt;
    }

    function Body(): Body
      reads this
    {
      Sweeps.Body(x, y, velocityX, velocityY, jumpCount)
    }

    /** `handleInput`: the held keys set the horizontal velocity; a jump key
        is honoured only below the jump cap, and then sets the upward
        velocity, counts the jump and clears both jump keys. */
    method HandleInput(keys: Keys) returns (after: Keys)
      requires Valid()
      modifies this`velocityX, this`velocityY, this`jumpCount
      ensures Valid()
      ensures velocityX == InputVelocity(keys)
      ensures var jumped := (keys.up || keys.space) && old(jumpCount) < maxJumps;
        && (jumped ==> velocityY == -JumpStrength && jumpCount == old(jumpCount) + 1
                       && after == keys.(up := false, space := false))
        && (!jumped ==> velocityY == old(velocityY) && jumpCount == old(jumpCount) && after == keys)
    {
      var currentSpeed := if keys.shift then MoveSpeed * 1.5 else MoveSpeed;
      velocityX := 0.0;
      if keys.right {
        velocityX := currentSpeed;
      }
      if keys.left {
        velocityX := -currentSpeed;
      }
      after := keys;
      if (keys.up || keys.space) && jumpCount < maxJumps {
        velocityY := -JumpStrength;
        jumpCount := jumpCount + 1;
        after := after.(up := false, space := false);
      }
    }

    /** The physics of `update`: the new position, velocities, jump counter
        and scroll offset are those of `PlayerStep`. */
    method Update(objects: seq<Block>, scrollX: real, canvasWidth: real, canvasHeight: real)
      returns (newScrollX: real)
      requires Valid()
      modifies this`x, this`y, this`velocityX, this`velocityY, this`jumpCount
      ensures Valid()
      ensures PlayerFrame(Body(), newScrollX) ==
        PlayerStep(Views(objects), old(Body()), width, height, scrollX, canvasWidth, canvasHeight)
    {
      ghost var vs := Views(objects);
      ghost var b0 := Body();
      var nextY := y + velocityY + Gravity;
      MoveX(objects, vs, scrollX);
      Settle(objects, vs, nextY, canvasHeight);
      ghost var settled := Body();
      newScrollX := KeepOnScreen(scrollX, canvasWidth);
      assert PlayerStep(vs, b0, width, height, scrollX, canvasWidth, canvasHeight)
          == ClampToScreen(settled, width, canvasWidth, scrollX);
      assert Views(objects) == vs;
    }

    /** Gravity and the side-collision loop. */
    method MoveX(objects: seq<Block>, ghost vs: seq<BlockView>, scrollX: real)
      requires vs == Views(objects)
      modifies this`x, this`velocityX, this`velocityY
      ensures Body() == PlayerAfterX(vs, old(Body()), width, height, scrollX)
    {
      velocityY := velocityY + Gravity;
      ResolveX(objects, vs, scrollX);
    }

    /** The landing loop and the fall. */
    method Settle(objects: seq<Block>, ghost vs: seq<BlockView>, nextY: real, canvasHeight: real)
      requires vs == Views(objects) && Valid()
      modifies this`x, this`y, this`velocityY, this`jumpCount
      ensures Valid()
      ensures Body() == PlayerSettle(vs, old(Body()), width, height, nextY, canvasHeight)
    {
      var grounded := ResolveY(objects, vs, nextY);
      if !grounded {
        FallOrRespawn(canvasHeight);
      }
    }

    /** Falling by the vertical velocity, and the respawn at (100, 100) once
        more than 10 below the canvas. */
    method FallOrRespawn(canvasHeight: real)
      modifies this`x, this`y, this`velocityY, this`jumpCount
      ensures Body() == PlayerFall(old(Body()), canvasHeight)
    {
      y := y + velocityY;
      if y > canvasHeight + 10.0 {
        y := 100.0;
        x := 100.0;
        velocityY := 0.0;
        jumpCount := 0;
      }
    }

    /** Keeping the player inside the canvas horizontally; the scroll offset
        takes the motion. */
    method KeepOnScreen(scrollX: real, canvasWidth: real) returns (newScrollX: real)
      modifies this`x
      ensures PlayerFrame(Body(), newScrollX) == ClampToScreen(old(Body()), width, canvasWidth, scrollX)
    {
      newScrollX := scrollX;
      var screenLeftX := 0.0;
      var screenRightX := canvasWidth - width;
      if x <= screenLeftX && velocityX < 0.0 {
        newScrollX := newScrollX + velocityX;
        x := screenLeftX;
      } else if x >= screenRightX && velocityX > 0.0 {
        newScrollX := newScrollX + velocityX;
        x := screenRightX;
      }
    }

    /** The side-collision loop of `update`, against blocks drawn at
        `x - scrollX`. */
    method ResolveX(objects: seq<Block>, ghost vs: seq<BlockView>, scrollX: real)
      requires vs == Views(objects)
      modifies this`x, this`velocityX
      ensures Body() == SweepX(vs, old(Body()), width, height, scrollX)
    {
      ghost var g := Body();
      var nextX := x + velocityX;
      var collidedX := false;
      ghost var k := FirstStopX(vs, 0, g, width, height, scrollX);
      var i := 0;
      while i < |objects|
        invariant 0 <= i <= |objects|
        invariant Body() == g
        invariant FirstStopX(vs, i, g, width, height, scrollX) == k
      {
        var obj := objects[i];
        if obj.destroyed {
          i := i + 1;
          continue;
        }
        var drawX := obj.x - scrollX;
        var verticalOverlap := y + height > obj.y && y < obj.y + obj.height;
        if velocityX > 0.0 && x + width <= drawX && nextX + width > drawX && verticalOverlap && obj.collisions {
          assert StopsHorizontally(vs[i], g, width, height, scrollX);
          x := drawX - width;
          velocityX := 0.0;
          collidedX := true;
          break;
        }
        if velocityX < 0.0 && x >= drawX + obj.width && nextX < drawX + obj.width && verticalOverlap && obj.collisions {
          assert StopsHorizontally(vs[i], g, width, height, scrollX);
          x := drawX + obj.width;
          velocityX := 0.0;
          collidedX := true;
          break;
        }
        i := i + 1;
      }
      if !collidedX {
        x := x + velocityX;
      }
    }

    /** The landing loop of `update`, against blocks at `x` (not shifted by
        the scroll offset). */
    method ResolveY(objects: seq<Block>, ghost vs: seq<BlockView>, nextY: real) returns (grounded: bool)
      requires vs == Views(objects)
      modifies this`y, this`velocityY, this`jumpCount
      ensures Landing(Body(), grounded) == SweepY(vs, old(Body()), width, height, nextY, false)
      ensures grounded ==> jumpCount == 0
      ensures !grounded ==> jumpCount == old(jumpCount)
    {
      ghost var m := Body();
      grounded := false;
      ghost var j := FirstLanding(vs, 0, m, width, height, nextY, false);
      var i := 0;
      while i < |objects|
        invariant 0 <= i <= |objects|
        invariant Body() == m && !grounded
        invariant FirstLanding(vs, i, m, width, height, nextY, false) == j
      {
        var obj := objects[i];
        if obj.destroyed || !obj.collisions {
          i := i + 1;
          continue;
        }
        var isFalling := velocityY >= 0.0;
        var isAbove := y + height <= obj.y;
        var horizontalOverlap := x + width > obj.x && x < obj.x + obj.width;
        var willLand := y + height <= obj.y && nextY + height > obj.y;
        if isFalling && isAbove && horizontalOverlap && willLand && obj.collisions {
          assert LandsOn(vs[i], m, width, height, nextY, false);
          velocityY := 0.0;
          jumpCount := 0;
          grounded := true;
          y := obj.y - height;
          break;
        }
        i := i + 1;
      }
    }
  }
}
