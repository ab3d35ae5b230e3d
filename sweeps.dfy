/** The collision resolver as pure functions over a snapshot of the block
    list: the first-match horizontal sweep, the first-match landing sweep, the
    block-on-block stacking step, and the whole per-frame step of the player
    (`PhysicsObject.update`) and of a sheep (`Sheep.update`). The methods of
    the classes that own this state are proved to compute exactly these. */
module Sweeps {
  import opened Grid

  const Gravity: real := 0.5
  const MoveSpeed: real := TileSize / 5.0
  const JumpStrength: real := TileSize / 3.0

  /** What the sweeps read of a block. */
  datatype BlockView = BlockView(x: real, y: real, width: real, height: real, collisions: bool, destroyed: bool)

  /** Position, velocity and jump counter of a moving body. */
  datatype Body = Body(x: real, y: real, vx: real, vy: real, jumps: int)

  // ---------------------------------------------------------------------
  // Horizontal sweep

  /** The block stops a body of size w x h moving by `b.vx`: it is live and
      collidable, overlaps the body's current vertical span, the body is clear
      of it now and would cross its near edge. The block's screen x is its
      x minus `offset` (the player uses `scrollX`, a sheep 0). */
  predicate StopsHorizontally(v: BlockView, b: Body, w: real, h: real, offset: real) {
    var left := v.x - offset;
    var nextX := b.x + b.vx;
    && !v.destroyed && v.collisions
    && b.y + h > v.y && b.y < v.y + v.height
    && ((b.vx > 0.0 && b.x + w <= left && nextX + w > left) ||
        (b.vx < 0.0 && b.x >= left + v.width && nextX < left + v.width))
  }

  /** Index of the first block from `from` on that stops the body, or |vs|. */
  function FirstStopX(vs: seq<BlockView>, from: nat, b: Body, w: real, h: real, offset: real): (k: nat)
    requires from <= |vs|
    ensures from <= k <= |vs|
    ensures k < |vs| ==> StopsHorizontally(vs[k], b, w, h, offset)
    ensures forall j :: from <= j < k ==> !StopsHorizontally(vs[j], b, w, h, offset)
    decreases |vs| - from
  {
    if from == |vs| then |vs|
    else if StopsHorizontally(vs[from], b, w, h, offset) then from
    else FirstStopX(vs, from + 1, b, w, h, offset)
  }

  /** The horizontal sweep: flush against the first stopping block with the
      horizontal velocity zeroed, or the full tentative move. */
  function SweepX(vs: seq<BlockView>, b: Body, w: real, h: real, offset: real): (r: Body)
    ensures r.y == b.y && r.vy == b.vy && r.jumps == b.jumps
    ensures var k := FirstStopX(vs, 0, b, w, h, offset);
      if k < |vs| then
        && r.vx == 0.0
        && (b.vx > 0.0 ==> r.x + w == vs[k].x - offset)
        && (b.vx < 0.0 ==> r.x == vs[k].x - offset + vs[k].width)
      else r.x == b.x + b.vx && r.vx == b.vx
    // the sweep never moves the body backwards nor past its tentative position
    ensures b.vx >= 0.0 ==> b.x <= r.x <= b.x + b.vx
    ensures b.vx <= 0.0 ==> b.x + b.vx <= r.x <= b.x
  {
    var k := FirstStopX(vs, 0, b, w, h, offset);
    if k < |vs| then
      var v := vs[k];
      b.(x := if b.vx > 0.0 then v.x - offset - w else v.x - offset + v.width, vx := 0.0)
    else
      b.(x := b.x + b.vx)
  }

  /** The stopped body touches the block that stopped it without overlapping
      it: containment against the block that wins the scan. */
  lemma SweepXStopsFlush(vs: seq<BlockView>, b: Body, w: real, h: real, offset: real)
    requires w > 0.0 && h > 0.0
    requires FirstStopX(vs, 0, b, w, h, offset) < |vs|
    ensures var v := vs[FirstStopX(vs, 0, b, w, h, offset)];
      var r := SweepX(vs, b, w, h, offset);
      !IsColliding(Rect(r.x, r.y, w, h), Rect(v.x - offset, v.y, v.width, v.height))
  {
  }

  /** The first qualifying block wins even when a later one is nearer: the
      body then ends inside the nearer block. */
  lemma FirstMatchIsNotNearest()
    ensures var vs := [BlockView(14.0, 0.0, 32.0, 32.0, true, false), BlockView(12.0, 0.0, 32.0, 32.0, true, false)];
      var r := SweepX(vs, Body(0.0, 0.0, 5.0, 0.0, 0), 10.0, 10.0, 0.0);
      r.x == 4.0 && IsColliding(Rect(r.x, r.y, 10.0, 10.0), Rect(12.0, 0.0, 32.0, 32.0))
  {
    var vs := [BlockView(14.0, 0.0, 32.0, 32.0, true, false), BlockView(12.0, 0.0, 32.0, 32.0, true, false)];
    assert StopsHorizontally(vs[0], Body(0.0, 0.0, 5.0, 0.0, 0), 10.0, 10.0, 0.0);
  }

  // ---------------------------------------------------------------------
  // Landing sweep

  /** The body lands on the block: it is falling, fully above the block,
      overlaps it horizontally, and its tentative bottom `nextY + h` would
      reach the block's top (strictly past it for the player, `touch` false;
      at or past it for a sheep, `touch` true). */
  predicate LandsOn(v: BlockView, b: Body, w: real, h: real, nextY: real, touch: bool) {
    && !v.destroyed && v.collisions
    && b.vy >= 0.0
    && b.y + h <= v.y
    && b.x + w > v.x && b.x < v.x + v.width
    && (if touch then nextY + h >= v.y else nextY + h > v.y)
  }

  function FirstLanding(vs: seq<BlockView>, from: nat, b: Body, w: real, h: real, nextY: real, touch: bool): (k: nat)
    requires from <= |vs|
    ensures from <= k <= |vs|
    ensures k < |vs| ==> LandsOn(vs[k], b, w, h, nextY, touch)
    ensures forall j :: from <= j < k ==> !LandsOn(vs[j], b, w, h, nextY, touch)
    decreases |vs| - from
  {
    if from == |vs| then |vs|
    else if LandsOn(vs[from], b, w, h, nextY, touch) then from
    else FirstLanding(vs, from + 1, b, w, h, nextY, touch)
  }

  datatype Landing = Landing(body: Body, grounded: bool)

  /** The landing sweep: resting on the first block landed on, grounded, with
      vertical velocity and jump counter reset; otherwise unchanged. */
  function SweepY(vs: seq<BlockView>, b: Body, w: real, h: real, nextY: real, touch: bool): (r: Landing)
    ensures r.body.x == b.x && r.body.vx == b.vx
    ensures r.grounded <==> FirstLanding(vs, 0, b, w, h, nextY, touch) < |vs|
    ensures r.grounded ==>
      var v := vs[FirstLanding(vs, 0, b, w, h, nextY, touch)];
      r.body.y + h == v.y && r.body.vy == 0.0 && r.body.jumps == 0
    // landing never lifts the body, nor carries it further than its velocity would
    ensures r.grounded ==> b.y <= r.body.y && (if touch then r.body.y <= nextY else r.body.y < nextY)
    ensures !r.grounded ==> r.body == b
  {
    var k := FirstLanding(vs, 0, b, w, h, nextY, touch);
    if k < |vs| then Landing(b.(y := vs[k].y - h, vy := 0.0, jumps := 0), true)
    else Landing(b, false)
  }

  // ---------------------------------------------------------------------
  // The player's frame

  datatype PlayerFrame = PlayerFrame(body: Body, scrollX: real)

  /** Falling freely, and respawning at (100, 100) at rest once below the
      bottom of the canvas by more than 10. */
  function PlayerFall(b: Body, canvasHeight: real): (r: Body)
    ensures r.vx == b.vx
    ensures b.y + b.vy > canvasHeight + 10.0 ==> r == b.(x := 100.0, y := 100.0, vy := 0.0, jumps := 0)
    ensures b.y + b.vy <= canvasHeight + 10.0 ==> r == b.(y := b.y + b.vy)
  {
    var fallen := b.(y := b.y + b.vy);
    if fallen.y > canvasHeight + 10.0 then fallen.(y := 100.0, x := 100.0, vy := 0.0, jumps := 0)
    else fallen
  }

  /** At a screen edge, a player still moving outward is held at the edge and
      the scroll offset takes the motion instead. */
  function ClampToScreen(b: Body, w: real, canvasWidth: real, scrollX: real): (r: PlayerFrame)
    ensures r.body.y == b.y && r.body.vx == b.vx && r.body.vy == b.vy && r.body.jumps == b.jumps
    ensures r.scrollX == scrollX || r.scrollX == scrollX + b.vx
    ensures r.scrollX != scrollX ==> r.body.x == 0.0 || r.body.x == canvasWidth - w
    ensures b.x <= 0.0 && b.vx < 0.0 ==> r.body.x == 0.0 && r.scrollX == scrollX + b.vx
    ensures !(b.x <= 0.0 && b.vx < 0.0) && b.x >= canvasWidth - w && b.vx > 0.0 ==>
      r.body.x == canvasWidth - w && r.scrollX == scrollX + b.vx
    ensures !(b.x <= 0.0 && b.vx < 0.0) && !(b.x >= canvasWidth - w && b.vx > 0.0) ==> r == PlayerFrame(b, scrollX)
  {
    if b.x <= 0.0 && b.vx < 0.0 then PlayerFrame(b.(x := 0.0), scrollX + b.vx)
    else if b.x >= canvasWidth - w && b.vx > 0.0 then PlayerFrame(b.(x := canvasWidth - w), scrollX + b.vx)
    else PlayerFrame(b, scrollX)
  }

  /** The physics part of `PhysicsObject.update`: gravity, the horizontal
      sweep against blocks drawn at `x - scrollX`, the landing sweep against
      blocks at `x`, the fall with respawn, and the screen-edge clamp. */
  function PlayerStep(vs: seq<BlockView>, b: Body, w: real, h: real, scrollX: real,
                      canvasWidth: real, canvasHeight: real): (r: PlayerFrame)
    // the world scrolls by the player's final horizontal velocity or not at all
    ensures r.scrollX == scrollX || r.scrollX == scrollX + r.body.vx
    // a frame keeps the jump counter or resets it
    ensures r.body.jumps == b.jumps || r.body.jumps == 0
  {
    var nextY := b.y + b.vy + Gravity;
    ClampToScreen(PlayerSettle(vs, PlayerAfterX(vs, b, w, h, scrollX), w, h, nextY, canvasHeight),
                  w, canvasWidth, scrollX)
  }

  /** The landing sweep towards `nextY`, then the fall when nothing was
      landed on. */
  function PlayerSettle(vs: seq<BlockView>, moved: Body, w: real, h: real, nextY: real, canvasHeight: real): Body {
    var landing := SweepY(vs, moved, w, h, nextY, false);
    if landing.grounded then landing.body else PlayerFall(landing.body, canvasHeight)
  }

  /** The velocity and position after gravity and the horizontal sweep. */
  function PlayerAfterX(vs: seq<BlockView>, b: Body, w: real, h: real, scrollX: real): Body {
    SweepX(vs, b.(vy := b.vy + Gravity), w, h, scrollX)
  }

  /** Landing: vertical velocity and jump counter are zero and the player's
      bottom rests on the top of the first block landed on. */
  lemma PlayerLandingGrounds(vs: seq<BlockView>, b: Body, w: real, h: real, scrollX: real,
                             canvasWidth: real, canvasHeight: real)
    requires FirstLanding(vs, 0, PlayerAfterX(vs, b, w, h, scrollX), w, h, b.y + b.vy + Gravity, false) < |vs|
    ensures var r := PlayerStep(vs, b, w, h, scrollX, canvasWidth, canvasHeight).body;
      var v := vs[FirstLanding(vs, 0, PlayerAfterX(vs, b, w, h, scrollX), w, h, b.y + b.vy + Gravity, false)];
      r.vy == 0.0 && r.jumps == 0 && r.y + h == v.y
  {
  }

  /** Without a landing the player moves by its velocity, or respawns at
      (100, 100) at rest (x then held on screen by the edge clamp). */
  lemma PlayerFallsOrRespawns(vs: seq<BlockView>, b: Body, w: real, h: real, scrollX: real,
                              canvasWidth: real, canvasHeight: real)
    requires FirstLanding(vs, 0, PlayerAfterX(vs, b, w, h, scrollX), w, h, b.y + b.vy + Gravity, false) == |vs|
    ensures var r := PlayerStep(vs, b, w, h, scrollX, canvasWidth, canvasHeight).body;
      var vy := b.vy + Gravity;
      if b.y + vy > canvasHeight + 10.0 then
        r.y == 100.0 && r.vy == 0.0 && r.jumps == 0 && (0.0 < 100.0 < canvasWidth - w ==> r.x == 100.0)
      else
        r.y == b.y + vy && r.vy == vy && r.jumps == b.jumps
  {
  }

  /** A frame never raises the jump counter: it is kept or reset to 0. */
  lemma PlayerStepKeepsJumpBound(vs: seq<BlockView>, b: Body, w: real, h: real, scrollX: real,
                                 canvasWidth: real, canvasHeight: real, maxJumps: int)
    requires 0 <= b.jumps <= maxJumps
    ensures var r := PlayerStep(vs, b, w, h, scrollX, canvasWidth, canvasHeight).body;
      r.jumps == b.jumps || r.jumps == 0
  {
  }

  /** Without a blocking block the player advances by exactly its velocity;
      only the edge clamp can move it back onto the screen. */
  lemma PlayerMovesFreely(vs: seq<BlockView>, b: Body, w: real, h: real, scrollX: real,
                          canvasWidth: real, canvasHeight: real)
    requires FirstStopX(vs, 0, b.(vy := b.vy + Gravity), w, h, scrollX) == |vs|
    requires b.y + b.vy + Gravity <= canvasHeight + 10.0
    requires 0.0 < b.x + b.vx < canvasWidth - w
    ensures PlayerStep(vs, b, w, h, scrollX, canvasWidth, canvasHeight).body.x == b.x + b.vx
  {
  }

  /** The horizontal sweep example: right edge at 100, a block whose left
      edge is at 103 and a velocity of 5 leave the right edge at 103 with the
      horizontal velocity zeroed. */
  lemma SweepExample()
    ensures var r := SweepX([BlockView(103.0, 0.0, TileSize, TileSize, true, false)],
                            Body(60.0, 0.0, 5.0, 0.0, 0), 40.0, 88.0, 0.0);
      r.x + 40.0 == 103.0 && r.vx == 0.0
  {
    assert StopsHorizontally(BlockView(103.0, 0.0, TileSize, TileSize, true, false),
                             Body(60.0, 0.0, 5.0, 0.0, 0), 40.0, 88.0, 0.0);
  }

  // ---------------------------------------------------------------------
  // Block-on-block stacking (the gravity part of `InteractableObject.update`)

  /** The block at x (size w x h, now at y) lands on `v` when moved to
      `nextY`: `v` is another live block, the moved box overlaps it, the block
      is falling and its bottom was at most 5 below the other's top. */
  predicate StacksOn(v: BlockView, isSelf: bool, x: real, y: real, w: real, h: real, vy: real, nextY: real) {
    && !isSelf && !v.destroyed
    && IsColliding(Rect(x, nextY, w, h), Rect(v.x, v.y, v.width, v.height))
    && vy >= 0.0
    && y + h <= v.y + 5.0
  }

  function FirstSupport(vs: seq<BlockView>, selves: seq<bool>, from: nat,
                        x: real, y: real, w: real, h: real, vy: real, nextY: real): (k: nat)
    requires |selves| == |vs| && from <= |vs|
    ensures from <= k <= |vs|
    ensures k < |vs| ==> StacksOn(vs[k], selves[k], x, y, w, h, vy, nextY)
    ensures forall j :: from <= j < k ==> !StacksOn(vs[j], selves[j], x, y, w, h, vy, nextY)
    decreases |vs| - from
  {
    if from == |vs| then |vs|
    else if StacksOn(vs[from], selves[from], x, y, w, h, vy, nextY) then from
    else FirstSupport(vs, selves, from + 1, x, y, w, h, vy, nextY)
  }

  /** Vertical position and velocity of a block after a frame. */
  datatype Settled = Settled(y: real, vy: real)

  /** One frame of block gravity: a non-rigid block gains `Gravity`; it rests
      on the first block it lands on, is stopped at the floor, or falls by its
      velocity. `selves` marks the entries of the list that are the block
      itself. */
  function StackStep(vs: seq<BlockView>, selves: seq<bool>, x: real, y: real, w: real, h: real,
                     vy: real, rigid: bool, canvasHeight: real): (r: Settled)
    requires |selves| == |vs|
    // a block never ends below the floor
    ensures r.y + h <= canvasHeight
    ensures var v1 := if rigid then vy else vy + Gravity;
      var k := FirstSupport(vs, selves, 0, x, y, w, h, v1, y + v1);
      && (k < |vs| && vs[k].y <= canvasHeight ==> r == Settled(vs[k].y - h, 0.0))
      && (k == |vs| && y + h + v1 <= canvasHeight ==> r == Settled(y + v1, v1))
      && ((k < |vs| && vs[k].y > canvasHeight) || (k == |vs| && y + h + v1 > canvasHeight) ==>
            r == Settled(canvasHeight - h, 0.0))
  {
    var v1 := if rigid then vy else vy + Gravity;
    OntoFloor(Stacked(vs, selves, x, y, w, h, v1, y + v1), h, canvasHeight)
  }

  /** The stacking loop: on top of the first block stacked on, at rest, or
      where it was with velocity `vy`. */
  function Stacked(vs: seq<BlockView>, selves: seq<bool>, x: real, y: real, w: real, h: real,
                   vy: real, nextY: real): Settled
    requires |selves| == |vs|
  {
    var k := FirstSupport(vs, selves, 0, x, y, w, h, vy, nextY);
    if k < |vs| then Settled(vs[k].y - h, 0.0) else Settled(y, vy)
  }

  /** The floor check, then the move by the remaining velocity. */
  function OntoFloor(s: Settled, h: real, canvasHeight: real): Settled {
    if s.y + h + s.vy > canvasHeight then Settled(canvasHeight - h, 0.0)
    else Settled(s.y + s.vy, s.vy)
  }
}
