/** Sheep: the wander state machine, the two sweeps with the automatic hop,
    the forced turn at the screen edges, and damage with a soft delete. */
module Animals {
  import opened Grid
  import opened Sweeps
  import opened Entities
  import opened Persistence

  /** `moving.prev`: 'left', 'right' or 'not'. */
  datatype Direction = Left | Right | Still

  /** The `moving` record: three flags, the countdown and the current state. */
  datatype Moving = Moving(left: bool, right: bool, idle: bool, framecount: int, prev: Direction)

  const SheepSpeed: real := 2.0

  /** The velocity each state asks for. */
  function Speed(d: Direction): (v: real)
    ensures d == Still <==> v == 0.0
    ensures d == Left ==> v == -SheepSpeed
    ensures d == Right ==> v == SheepSpeed
  {
    match d
    case Still => 0.0
    case Left => -SheepSpeed
    case Right => SheepSpeed
  }

  /** The countdown at the start of `update`: once it has run out, an idle
      sheep starts walking in the direction `pick` draws (0 left, 1 right) and
      a walking sheep stops, for a fresh `duration`; the counter then goes
      down by one. */
  function Countdown(m: Moving, pick: int, duration: int): (r: Moving)
    requires 0 <= pick < 2 && 0 <= duration < 480
    ensures m.framecount > 0 ==> r == m.(framecount := m.framecount - 1)
    ensures m.framecount <= 0 ==>
      && (m.prev == Still ==> r.prev == (if pick == 0 then Left else Right))
      && (m.prev != Still ==> r.prev == Still)
      && r.left == (r.prev == Left) && r.right == (r.prev == Right) && r.idle == (r.prev == Still)
      && r.framecount == duration - 1 && -1 <= r.framecount < 479
  {
    var m1 :=
      if m.framecount <= 0 then
        var cur := if m.prev == Still then (if pick == 0 then Left else Right) else Still;
        Moving(cur == Left, cur == Right, cur == Still, duration, cur)
      else m;
    m1.(framecount := m1.framecount - 1)
  }

  datatype SheepState = SheepState(body: Body, moving: Moving)

  /** Falling freely; more than 10 below the canvas the sheep reappears just
      above the top at x = 100, keeping its velocity. */
  function SheepFall(b: Body, h: real, canvasHeight: real): (r: Body)
    ensures r.vx == b.vx && r.vy == b.vy && r.jumps == b.jumps
    ensures b.y + b.vy > canvasHeight + 10.0 ==> r.x == 100.0 && r.y == -h
    ensures b.y + b.vy <= canvasHeight + 10.0 ==> r == b.(y := b.y + b.vy)
  {
    var fallen := b.(y := b.y + b.vy);
    if fallen.y > canvasHeight + 10.0 then fallen.(y := -h, x := 100.0) else fallen
  }

  /** The hop: a sheep stopped by a block while on the ground jumps. */
  function Hop(b: Body, blocked: bool): Body {
    if blocked && b.jumps == 0 then b.(vy := -JumpStrength, jumps := b.jumps + 1) else b
  }

  /** Gravity, the countdown, the velocity of the new state and the side
      sweep with the hop. */
  function SheepMoveX(vs: seq<BlockView>, s: SheepState, w: real, h: real, pick: int, duration: int): SheepState
    requires 0 <= pick < 2 && 0 <= duration < 480
  {
    var m := Countdown(s.moving, pick, duration);
    var b := s.body.(vy := s.body.vy + Gravity, vx := Speed(m.prev));
    var blocked := FirstStopX(vs, 0, b, w, h, 0.0) < |vs|;
    SheepState(Hop(SweepX(vs, b, w, h, 0.0), blocked), m)
  }

  /** The landing sweep towards `nextY`, then the fall when nothing was
      landed on. */
  function SheepMoveY(vs: seq<BlockView>, s: SheepState, w: real, h: real, canvasHeight: real, nextY: real)
    : SheepState
  {
    var landing := SweepY(vs, s.body, w, h, nextY, true);
    SheepState(if landing.grounded then landing.body else SheepFall(landing.body, h, canvasHeight), s.moving)
  }

  /** Everything in `Sheep.update` before the screen-edge checks; the landing
      test uses the position the vertical velocity gave before the hop. */
  function SheepMove(vs: seq<BlockView>, s: SheepState, w: real, h: real, canvasHeight: real,
                     pick: int, duration: int): SheepState
    requires 0 <= pick < 2 && 0 <= duration < 480
  {
    SheepMoveY(vs, SheepMoveX(vs, s, w, h, pick, duration), w, h, canvasHeight, s.body.y + s.body.vy + Gravity)
  }

  /** The screen-edge checks: past the left edge the sheep is put at 0 and
      turned right for 100 frames; past the right edge it is put against the
      edge and turned left. The `idle` flag is left as it was. */
  function EdgeTurn(s: SheepState, w: real, canvasWidth: real): (r: SheepState)
    ensures w <= canvasWidth ==> 0.0 <= r.body.x && r.body.x + w <= canvasWidth
    ensures s.body.x < 0.0 && w <= canvasWidth ==>
      r.body.x == 0.0 && r.body.vx == 0.0 && r.moving.prev == Right && r.moving.right && !r.moving.left
      && r.moving.framecount == 100
    ensures 0.0 <= s.body.x && s.body.x + w > canvasWidth ==>
      r.body.x == canvasWidth - w && r.body.vx == 0.0 && r.moving.prev == Left && r.moving.left && !r.moving.right
      && r.moving.framecount == 100
    ensures 0.0 <= s.body.x && s.body.x + w <= canvasWidth ==> r == s
    ensures r.body.y == s.body.y && r.body.vy == s.body.vy && r.body.jumps == s.body.jumps
    ensures r.moving.idle == s.moving.idle
  {
    var s1 :=
      if s.body.x < 0.0 then
        SheepState(s.body.(x := 0.0, vx := 0.0),
                   s.moving.(framecount := 100, left := false, prev := Right, right := true))
      else s;
    if s1.body.x + w > canvasWidth then
      SheepState(s1.body.(x := canvasWidth - w, vx := 0.0),
                 s1.moving.(framecount := 100, left := true, prev := Left, right := false))
    else s1
  }

  /** `Sheep.update`, without the leg animation. */
  function SheepStep(vs: seq<BlockView>, s: SheepState, w: real, h: real, canvasWidth: real, canvasHeight: real,
                     pick: int, duration: int): (r: SheepState)
    requires 0 <= pick < 2 && 0 <= duration < 480
    // the frame never raises the jump counter by more than the one hop
    ensures r.body.jumps == 0 || r.body.jumps == s.body.jumps || r.body.jumps == s.body.jumps + 1
    // the idle flag always follows the countdown
    ensures r.moving.idle == Countdown(s.moving, pick, duration).idle
  {
    EdgeTurn(SheepMove(vs, s, w, h, canvasHeight, pick, duration), w, canvasWidth)
  }

  /** Walking velocity follows the state; a sheep stopped by a block stands
      still horizontally and, if it was on the ground, hops. */
  lemma SheepMoveVelocity(vs: seq<BlockView>, s: SheepState, w: real, h: real, canvasHeight: real,
                          pick: int, duration: int)
    requires 0 <= pick < 2 && 0 <= duration < 480
    ensures var r := SheepMove(vs, s, w, h, canvasHeight, pick, duration);
      var b := s.body.(vy := s.body.vy + Gravity, vx := Speed(r.moving.prev));
      var blocked := FirstStopX(vs, 0, b, w, h, 0.0) < |vs|;
      && r.moving == Countdown(s.moving, pick, duration)
      && r.body.vx == (if blocked then 0.0 else Speed(r.moving.prev))
      && (blocked && s.body.jumps == 0 ==>
            r.body.jumps == 1 && r.body.vy == -JumpStrength
            && (r.body.y == s.body.y - JumpStrength || r.body.y == -h))
  {
    var r := SheepMove(vs, s, w, h, canvasHeight, pick, duration);
    var b := s.body.(vy := s.body.vy + Gravity, vx := Speed(r.moving.prev));
    var blocked := FirstStopX(vs, 0, b, w, h, 0.0) < |vs|;
    if blocked && s.body.jumps == 0 {
      var moved := Hop(SweepX(vs, b, w, h, 0.0), blocked);
      var j := FirstLanding(vs, 0, moved, w, h, b.y + b.vy, true);
      if j < |vs| {
        assert false;
      }
    }
  }

  /** On a canvas at least as wide as the sheep, a frame always leaves it on
      screen, and a sheep that walked off the left edge faces right. */
  lemma SheepStaysOnScreen(vs: seq<BlockView>, s: SheepState, w: real, h: real, canvasWidth: real, canvasHeight: real,
                           pick: int, duration: int)
    requires 0 <= pick < 2 && 0 <= duration < 480
    requires w <= canvasWidth
    ensures var r := SheepStep(vs, s, w, h, canvasWidth, canvasHeight, pick, duration);
      && 0.0 <= r.body.x && r.body.x + w <= canvasWidth
      && (SheepMove(vs, s, w, h, canvasHeight, pick, duration).body.x < 0.0 ==>
            r.moving.prev == Right && r.moving.framecount == 100)
  {
  }

  /** The `returnData()` of each sheep of a list, in list order: a sheep is
      saved as its position alone. */
  function SheepRecords(animals: seq<Sheep>): (rs: seq<SheepRecord>)
    reads set a | a in animals
    ensures |rs| == |animals|
    ensures forall i :: 0 <= i < |animals| ==> rs[i].x == animals[i].x && rs[i].y == animals[i].y
  {
    seq(|animals|, i reads animals requires 0 <= i < |animals| => animals[i].ReturnData())
  }

  /** The `killed` flag of each sheep of a list. */
  function KilledFlags(animals: seq<Sheep>): (ks: seq<bool>)
    reads set a | a in animals
    ensures |ks| == |animals|
    ensures forall i :: 0 <= i < |animals| ==> ks[i] == animals[i].killed
  {
    seq(|animals|, i reads animals requires 0 <= i < |animals| => animals[i].killed)
  }

  /** The box of each sheep of a list. */
  function Boxes(animals: seq<Sheep>): (bs: seq<Rect>)
    reads set a | a in animals
    ensures |bs| == |animals|
    ensures forall i :: 0 <= i < |animals| ==> bs[i] == animals[i].Box()
  {
    seq(|animals|, i reads animals requires 0 <= i < |animals| => animals[i].Box())
  }

  /** `Sheep`. */
  class Sheep {
    var x: real
    var y: real
    const width: real
    const height: real
    var velocityX: real
    var velocityY: real
    var jumpCount: int
    var health: int
    var killed: bool
    var moving: Moving

    /** A new sheep: 80 by 60, health 3, idle with an expired countdown. */
    constructor (x: real, y: real)
      ensures ReturnData() == SheepRecord(x, y)
      ensures width == 80.0 && height == 60.0
      ensures velocityX == 0.0 && velocityY == 0.0 && jumpCount == 0
      ensures health == 3 && !killed
      ensures moving == Moving(false, false, true, 0, Still)
    {
      this.x := x;
      this.y := y;
      width := 80.0;
      height := 60.0;
      velocityY := 0.0;
      velocityX := 0.0;
      jumpCount := 0;
      health := 3;
      killed := false;
      moving := Moving(false, false, true, 0, Still);
    }

    function State(): SheepState
      reads this
    {
      SheepState(Body(x, y, velocityX, velocityY, jumpCount), moving)
    }

    function Box(): Rect
      reads this
    {
      Rect(x, y, width, height)
    }

    /** `returnData()`: the position only. */
    function ReturnData(): SheepRecord
      reads this
    {
      SheepRecord(x, y)
    }

    /** `kill()`: the sheep is marked killed and stays in the list. */
    method Kill()
      modifies this`killed
      ensures killed
    {
      killed := true;
    }

    /** `damage()`: health goes down by `damage`; at or below zero the sheep
        is killed. A killed sheep stays killed. */
    method Damage(damage: int)
      modifies this`health, this`killed
      ensures health == old(health) - damage
      ensures killed == (old(killed) || health <= 0)
    {
      health := health - damage;
      if health <= 0 {
        Kill();
      }
    }

    /** `update()`: the new position, velocities, jump counter and `moving`
        record are those of `SheepStep`; `pick` and `duration` are the two
        random draws (`Math.floor(Math.random() * 2)` and
        `Math.floor(Math.random() * 480)`). */
    method Update(objects: seq<Block>, canvasWidth: real, canvasHeight: real, pick: int, duration: int)
      requires 0 <= pick < 2 && 0 <= duration < 480
      modifies this`x, this`y, this`velocityX, this`velocityY, this`jumpCount, this`moving
      ensures State() == SheepStep(Views(objects), old(State()), width, height, canvasWidth, canvasHeight, pick, duration)
    {
      Move(objects, canvasHeight, pick, duration);
      TurnAtEdges(canvasWidth);
    }

    /** Everything before the screen-edge checks. */
    method Move(objects: seq<Block>, canvasHeight: real, pick: int, duration: int)
      requires 0 <= pick < 2 && 0 <= duration < 480
      modifies this`x, this`y, this`velocityX, this`velocityY, this`jumpCount, this`moving
      ensures State() == SheepMove(Views(objects), old(State()), width, height, canvasHeight, pick, duration)
    {
      ghost var vs := Views(objects);
      var nextY := y + velocityY + Gravity;
      MoveX(objects, vs, pick, duration);
      MoveY(objects, vs, canvasHeight, nextY);
    }

    /** The countdown and the side-collision loop. */
    method MoveX(objects: seq<Block>, ghost vs: seq<BlockView>, pick: int, duration: int)
      requires 0 <= pick < 2 && 0 <= duration < 480
      requires vs == Views(objects)
      modifies this`x, this`velocityX, this`velocityY, this`jumpCount, this`moving
      ensures State() == SheepMoveX(vs, old(State()), width, height, pick, duration)
    {
      StartFrame(pick, duration);
      ResolveX(objects, vs);
    }

    /** The landing loop and the fall. */
    method MoveY(objects: seq<Block>, ghost vs: seq<BlockView>, canvasHeight: real, nextY: real)
      requires vs == Views(objects)
      modifies this`x, this`y, this`velocityY, this`jumpCount
      ensures State() == SheepMoveY(vs, old(State()), width, height, canvasHeight, nextY)
    {
      var grounded := ResolveY(objects, vs, nextY);
      if !grounded {
        FallOrRespawn(canvasHeight);
      }
    }

    /** Gravity, the countdown and the velocity the new state asks for. */
    method StartFrame(pick: int, duration: int)
      requires 0 <= pick < 2 && 0 <= duration < 480
      modifies this`velocityX, this`velocityY, this`moving
      ensures moving == Countdown(old(moving), pick, duration)
      ensures State().body == old(State().body).(vy := old(velocityY) + Gravity, vx := Speed(moving.prev))
    {
      velocityY := velocityY + Gravity;
      if moving.framecount <= 0 {
        var cur := if moving.prev == Still then (if pick == 0 then Left else Right) else Still;
        moving := Moving(cur == Left, cur == Right, cur == Still, duration, cur);
      }
      moving := moving.(framecount := moving.framecount - 1);
      if moving.prev == Still {
        velocityX := 0.0;
      } else if moving.prev == Left {
        velocityX := -2.0;
      } else if moving.prev == Right {
        velocityX := 2.0;
      }
    }

    /** Falling by the vertical velocity, and the respawn above the canvas. */
    method FallOrRespawn(canvasHeight: real)
      modifies this`x, this`y
      ensures State().body == SheepFall(old(State().body), height, canvasHeight)
    {
      y := y + velocityY;
      if y > canvasHeight + 10.0 {
        y := -height;
        x := 100.0;
      }
    }

    /** The side-collision loop, with the hop. */
    method ResolveX(objects: seq<Block>, ghost vs: seq<BlockView>)
      requires vs == Views(objects)
      modifies this`x, this`velocityX, this`velocityY, this`jumpCount
      ensures var b := old(State().body);
        State().body == Hop(SweepX(vs, b, width, height, 0.0), FirstStopX(vs, 0, b, width, height, 0.0) < |vs|)
      ensures moving == old(moving)
    {
      ghost var g := State().body;
      var nextX := x + velocityX;
      var collidedX := false;
      ghost var k := FirstStopX(vs, 0, g, width, height, 0.0);
      var i := 0;
      while i < |objects|
        invariant 0 <= i <= |objects|
        invariant State().body == g && !collidedX
        invariant FirstStopX(vs, i, g, width, height, 0.0) == k
      {
        var obj := objects[i];
        if obj.destroyed || !obj.collisions {
          i := i + 1;
          continue;
        }
        var verticalOverlap := y + height > obj.y && y < obj.y + obj.height;
        if velocityX > 0.0 && x + width <= obj.x && nextX + width > obj.x && verticalOverlap {
          assert StopsHorizontally(vs[i], g, width, height, 0.0);
          if jumpCount == 0 {
            velocityY := -JumpStrength;
            jumpCount := jumpCount + 1;
          }
          x := obj.x - width;
          velocityX := 0.0;
          collidedX := true;
          break;
        }
        if velocityX < 0.0 && x >= obj.x + obj.width && nextX < obj.x + obj.width && verticalOverlap {
          assert StopsHorizontally(vs[i], g, width, height, 0.0);
          if jumpCount == 0 {
            velocityY := -JumpStrength;
            jumpCount := jumpCount + 1;
          }
          x := obj.x + obj.width;
          velocityX := 0.0;
          collidedX := true;
          break;
        }
        i := i + 1;
      }
      if !collidedX {
        x := x + velocityX;
      }
    }

    /** The landing loop; a sheep lands when its tentative bottom reaches the
        block's top exactly, too. */
    method ResolveY(objects: seq<Block>, ghost vs: seq<BlockView>, nextY: real) returns (grounded: bool)
      requires vs == Views(objects)
      modifies this`y, this`velocityY, this`jumpCount
      ensures Landing(State().body, grounded) == SweepY(vs, old(State().body), width, height, nextY, true)
      ensures moving == old(moving)
    {
      ghost var m := State().body;
      grounded := false;
      ghost var j := FirstLanding(vs, 0, m, width, height, nextY, true);
      var i := 0;
      while i < |objects|
        invariant 0 <= i <= |objects|
        invariant State().body == m && !grounded
        invariant FirstLanding(vs, i, m, width, height, nextY, true) == j
      {
        var obj := objects[i];
        if obj.destroyed || !obj.collisions {
          i := i + 1;
          continue;
        }
        var isFalling := velocityY >= 0.0;
        var isAbove := y + height <= obj.y;
        var horizontalOverlap := x + width > obj.x && x < obj.x + obj.width;
        var willLand := nextY + height >= obj.y && y + height <= obj.y;
        if isFalling && isAbove && horizontalOverlap && willLand {
          assert LandsOn(vs[i], m, width, height, nextY, true);
          y := obj.y - height;
          velocityY := 0.0;
          jumpCount := 0;
          grounded := true;
          break;
        }
        i := i + 1;
      }
    }

    /** The two screen-edge checks. */
    method TurnAtEdges(canvasWidth: real)
      modifies this`x, this`velocityX, this`moving
      ensures State() == EdgeTurn(old(State()), width, canvasWidth)
    {
      if x < 0.0 {
        x := 0.0;
        velocityX := 0.0;
        moving := moving.(framecount := 100, left := false, prev := Right, right := true);
      }
      if x + width > canvasWidth {
        x := canvasWidth - width;
        velocityX := 0.0;
        moving := moving.(framecount := 100, left := true, prev := Left, right := false);
      }
    }
  }
}
