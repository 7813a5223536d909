/** The two-player fighting game: player physics against the scenario's blocks,
    bullets, shot cooldowns and the end-of-round rule (Teste_flap/Game.py). */
module Fight {
  import opened Geometry

  const WIDTH := 1000
  const HEIGHT := 700
  const GRAVITY: real := 0.5
  const JUMP_STRENGTH: real := -10.0
  const PLAYER_SPEED := 5
  const BULLET_SPEED := 10
  const SUPER_BULLET_SPEED := 15
  const PLAYER_WIDTH := 40
  const PLAYER_HEIGHT := 60
  const START_HEALTH := 100
  const SHOT_COOLDOWN := 200
  const SUPER_SHOT_COOLDOWN := 1500

  /** An RGB colour; only BLUE matters to the rules (it fixes the firing direction). */
  datatype Color = Color(r: int, g: int, b: int)

  const BLUE := Color(0, 0, 255)
  const RED := Color(255, 0, 0)
  const BLACK := Color(0, 0, 0)

  /** A bullet: its rectangle, +1 (rightwards) or -1, pixels per tick, and the
      health it takes from the player it hits. */
  datatype Bullet = Bullet(rect: Rect, direction: int, speed: int, damage: int, color: Color)

  datatype ShotKind = Plain | Super

  /** The keys of one player held down in this frame. */
  datatype Intent = Intent(left: bool, right: bool, jump: bool)

  /** The part of a player that the physics steps update. */
  datatype Body = Body(rect: Rect, velocityY: real, onGround: bool)

  /** The keys the event loop reacts to: each player's shot and super shot. */
  datatype Key = P1Shoot | P1SuperShoot | P2Shoot | P2SuperShoot | OtherKey

  datatype Event = Quit | KeyDown(key: Key) | OtherEvent

  /** What the result screen announces. */
  datatype Outcome = Draw | RedWins | BlueWins

  /** The scenario: the floor block first, then the platforms, in the order
      every collision scan visits them. */
  function Scenario(): (r: seq<Rect>)
    ensures |r| == 7
    ensures r[0].Left() == 0 && r[0].Right() == WIDTH && r[0].Bottom() == HEIGHT
    ensures forall i :: 0 <= i < |r| ==>
      0 <= r[i].Left() && r[i].Right() <= WIDTH && 0 <= r[i].Top() && r[i].Bottom() <= HEIGHT && r[i].w > 0 && r[i].h > 0
  {
    [ Rect(0, HEIGHT - 40, WIDTH, 40),
      Rect(150, HEIGHT - 120, 150, 20),
      Rect(350, HEIGHT - 180, 200, 20),
      Rect(600, HEIGHT - 240, 150, 20),
      Rect(100, HEIGHT - 300, 100, 20),
      Rect(450, HEIGHT - 350, 120, 20),
      Rect(800, HEIGHT - 200, 100, 20) ]
  }

  // ---------------------------------------------------------------------------
  // Horizontal movement

  /** x after the left and right presses of a move, before the screen clamp.
      Each press is a tentative step; when the moved rectangle overlaps a block
      the step is undone back to the x held on entry to the move. */
  function StepX(r: Rect, intent: Intent, blocks: seq<Rect>): (x: int)
    ensures x == r.x - PLAYER_SPEED || x == r.x || x == r.x + PLAYER_SPEED
    ensures x != r.x ==> !OverlapsAny(r.(x := x), blocks)
    ensures intent.left && !intent.right && OverlapsAny(r.(x := r.x - PLAYER_SPEED), blocks) ==> x == r.x
    ensures intent.right && !intent.left && OverlapsAny(r.(x := r.x + PLAYER_SPEED), blocks) ==> x == r.x
    ensures !intent.left && !intent.right ==> x == r.x
    ensures intent.left && !intent.right && !OverlapsAny(r.(x := r.x - PLAYER_SPEED), blocks) ==> x == r.x - PLAYER_SPEED
    ensures intent.right && !intent.left && !OverlapsAny(r.(x := r.x + PLAYER_SPEED), blocks) ==> x == r.x + PLAYER_SPEED
    ensures intent.left && intent.right && !OverlapsAny(r.(x := r.x - PLAYER_SPEED), blocks) ==> x == r.x
    ensures intent.left && intent.right && OverlapsAny(r.(x := r.x - PLAYER_SPEED), blocks) ==>
      x == (if OverlapsAny(r.(x := r.x + PLAYER_SPEED), blocks) then r.x else r.x + PLAYER_SPEED)
  {
    var afterLeft :=
      if !intent.left then r.x
      else if OverlapsAny(r.(x := r.x - PLAYER_SPEED), blocks) then r.x
      else r.x - PLAYER_SPEED;
    if !intent.right then afterLeft
    else if OverlapsAny(r.(x := afterLeft + PLAYER_SPEED), blocks) then r.x
    else afterLeft + PLAYER_SPEED
  }

  /** The screen clamp of a move: the left edge is raised to 0, then the right
      edge is lowered to WIDTH. */
  function ClampX(x: int, w: int): (cx: int)
    ensures 0 <= w <= WIDTH ==> 0 <= cx && cx + w <= WIDTH
    ensures 0 <= x && x + w <= WIDTH ==> cx == x
    ensures 0 <= w <= WIDTH && x < 0 ==> cx == 0
    ensures 0 <= w <= WIDTH && x + w > WIDTH ==> cx == WIDTH - w
  {
    var raised := if x < 0 then 0 else x;
    if raised + w > WIDTH then WIDTH - w else raised
  }

  /** The body after a move: the horizontal step, the clamp, and a jump that
      fires only from the ground. */
  function AfterMove(b: Body, intent: Intent, blocks: seq<Rect>): (nb: Body)
    ensures nb.rect == b.rect.(x := nb.rect.x)
    ensures 0 <= b.rect.w <= WIDTH ==> 0 <= nb.rect.Left() && nb.rect.Right() <= WIDTH
    ensures intent.jump && b.onGround ==> nb.velocityY == JUMP_STRENGTH && !nb.onGround
    ensures !(intent.jump && b.onGround) ==> nb.velocityY == b.velocityY && nb.onGround == b.onGround
  {
    var r := b.rect.(x := ClampX(StepX(b.rect, intent, blocks), b.rect.w));
    if intent.jump && b.onGround then Body(r, JUMP_STRENGTH, false) else b.(rect := r)
  }

  // ---------------------------------------------------------------------------
  // Vertical movement

  /** The index of the first block, in list order, that r overlaps, or |blocks|
      when there is none. */
  function FirstOverlap(r: Rect, blocks: seq<Rect>): (k: nat)
    ensures k <= |blocks|
    ensures forall j :: 0 <= j < k ==> !Overlaps(r, blocks[j])
    ensures k < |blocks| ==> Overlaps(r, blocks[k])
    ensures k == |blocks| <==> !OverlapsAny(r, blocks)
  {
    if blocks == [] then 0
    else if Overlaps(r, blocks[0]) then 0
    else 1 + FirstOverlap(r, blocks[1..])
  }

  /** The vertical collision check. A body that overlaps a block while moving is
      resolved against the first such block only: falling, it lands on top;
      rising, it bumps its head on the underside. A body at rest is never
      resolved. With no resolution, a body that is not rising and is above the
      screen floor leaves the ground. */
  function ResolveVertical(b: Body, blocks: seq<Rect>): (nb: Body)
    ensures nb.rect == b.rect.(y := nb.rect.y)
    ensures var k := FirstOverlap(b.rect, blocks);
      k < |blocks| && b.velocityY > 0.0 ==>
        nb.rect.Bottom() == blocks[k].Top() && nb.velocityY == 0.0 && nb.onGround
    ensures var k := FirstOverlap(b.rect, blocks);
      k < |blocks| && b.velocityY < 0.0 ==>
        nb.rect.Top() == blocks[k].Bottom() && nb.velocityY == 0.0 && nb.onGround == b.onGround
    ensures var k := FirstOverlap(b.rect, blocks);
      k < |blocks| && b.velocityY != 0.0 ==> !Overlaps(nb.rect, blocks[k])
    ensures b.velocityY == 0.0 || !OverlapsAny(b.rect, blocks) ==>
      nb.rect == b.rect && nb.velocityY == b.velocityY
    ensures b.onGround && !nb.onGround ==>
      (b.velocityY == 0.0 || !OverlapsAny(b.rect, blocks)) && b.velocityY >= 0.0 && b.rect.Bottom() < HEIGHT
    ensures !b.onGround && nb.onGround ==> b.velocityY > 0.0 && OverlapsAny(b.rect, blocks)
    ensures (b.velocityY == 0.0 || !OverlapsAny(b.rect, blocks)) && b.velocityY >= 0.0 && b.rect.Bottom() < HEIGHT ==>
      !nb.onGround
    ensures (b.velocityY == 0.0 || !OverlapsAny(b.rect, blocks)) && !(b.velocityY >= 0.0 && b.rect.Bottom() < HEIGHT) ==>
      nb.onGround == b.onGround
  {
    var k := FirstOverlap(b.rect, blocks);
    if k < |blocks| && b.velocityY > 0.0 then
      Body(b.rect.(y := blocks[k].Top() - b.rect.h), 0.0, true)
    else if k < |blocks| && b.velocityY < 0.0 then
      Body(b.rect.(y := blocks[k].Bottom()), 0.0, b.onGround)
    else if b.velocityY >= 0.0 && b.rect.Bottom() < HEIGHT then
      b.(onGround := false)
    else
      b
  }

  /** Blocks listed after the first one a moving body overlaps play no part in
      its vertical resolution. */
  lemma ResolveIgnoresLaterBlocks(b: Body, blocks: seq<Rect>, later: seq<Rect>)
    requires b.velocityY != 0.0 && OverlapsAny(b.rect, blocks)
    ensures ResolveVertical(b, blocks + later) == ResolveVertical(b, blocks)
  {
    var k := FirstOverlap(b.rect, blocks);
    var k' := FirstOverlap(b.rect, blocks + later);
    assert (blocks + later)[k] == blocks[k];
    assert forall j :: 0 <= j < k ==> (blocks + later)[j] == blocks[j];
  }

  /** The integration step of apply_gravity: velocity first, then position,
      the new y being pygame's conversion of the real-valued sum. */
  function Fall(b: Body, toPixel: real -> int): (nb: Body)
    ensures nb.velocityY == b.velocityY + GRAVITY
    ensures nb.rect == b.rect.(y := toPixel(b.rect.y as real + nb.velocityY))
    ensures nb.onGround == b.onGround
  {
    var v := b.velocityY + GRAVITY;
    b.(rect := b.rect.(y := toPixel(b.rect.y as real + v)), velocityY := v)
  }

  /** The screen floor: a body whose bottom edge reaches HEIGHT stands on it. */
  function FloorClamp(b: Body): (nb: Body)
    ensures nb.rect == b.rect.(y := nb.rect.y)
    ensures nb.rect.Bottom() <= HEIGHT
    ensures b.rect.Bottom() >= HEIGHT ==> nb.rect.Bottom() == HEIGHT && nb.velocityY == 0.0 && nb.onGround
    ensures b.rect.Bottom() < HEIGHT ==> nb == b
  {
    if b.rect.Bottom() >= HEIGHT then Body(b.rect.(y := HEIGHT - b.rect.h), 0.0, true) else b
  }

  /** apply_gravity: integrate, resolve against the blocks, then clamp to the
      screen floor whatever the resolution did. */
  function AfterGravity(b: Body, blocks: seq<Rect>, toPixel: real -> int): (nb: Body)
    ensures nb.rect == b.rect.(y := nb.rect.y)
    ensures nb.rect.Bottom() <= HEIGHT
    ensures ResolveVertical(Fall(b, toPixel), blocks).rect.Bottom() >= HEIGHT ==>
      nb.rect.Bottom() == HEIGHT && nb.velocityY == 0.0 && nb.onGround
    ensures nb.velocityY == 0.0 || nb.velocityY == b.velocityY + GRAVITY
    ensures var f := Fall(b, toPixel);
      (f.velocityY == 0.0 || !OverlapsAny(f.rect, blocks)) && f.rect.Bottom() < HEIGHT ==>
        nb.rect == f.rect && nb.velocityY == f.velocityY && nb.onGround == (b.onGround && f.velocityY < 0.0)
  {
    FloorClamp(ResolveVertical(Fall(b, toPixel), blocks))
  }

  // ---------------------------------------------------------------------------
  // Bullets

  /** The bullet a shot adds: at the shooter's centre, heading right exactly
      when the shooter is blue; a super shot is larger, faster and stronger. */
  function Projectile(shooter: Rect, color: Color, kind: ShotKind): (b: Bullet)
    ensures b.rect.x == shooter.CenterX() && b.rect.y == shooter.CenterY()
    ensures b.direction == 1 || b.direction == -1
    ensures b.direction == 1 <==> color == BLUE
    ensures kind == Plain ==> b.rect.w == 10 && b.rect.h == 5 && b.speed == BULLET_SPEED && b.damage == 10
    ensures kind == Super ==> b.rect.w == 50 && b.rect.h == 25 && b.speed == SUPER_BULLET_SPEED && b.damage == 45
  {
    var direction := if color == BLUE then 1 else -1;
    match kind
    case Plain => Bullet(Rect(shooter.CenterX(), shooter.CenterY(), 10, 5), direction, BULLET_SPEED, 10, BLACK)
    case Super => Bullet(Rect(shooter.CenterX(), shooter.CenterY(), 50, 25), direction, SUPER_BULLET_SPEED, 45, RED)
  }

  /** A bullet after this tick's flight. */
  function Advanced(b: Bullet): (m: Bullet)
    ensures m.rect.x - b.rect.x == b.speed * b.direction
    ensures m.rect.(x := b.rect.x) == b.rect && m.(rect := b.rect) == b
  {
    b.(rect := b.rect.(x := b.rect.x + b.speed * b.direction))
  }

  /** The bullet, once advanced, hits the target. */
  predicate Strikes(b: Bullet, target: Rect) {
    Overlaps(Advanced(b).rect, target)
  }

  /** The bullet, once advanced, missed the target and every block and is
      still within the horizontal play bounds. */
  predicate Kept(b: Bullet, target: Rect, blocks: seq<Rect>) {
    var m := Advanced(b).rect;
    !Overlaps(m, target) && !OverlapsAny(m, blocks) && 0 <= m.x <= WIDTH
  }

  /** The bullet list after update_bullets: the advanced kept bullets, in order. */
  function Survivors(bs: seq<Bullet>, target: Rect, blocks: seq<Rect>): (r: seq<Bullet>)
    ensures |r| <= |bs|
    ensures forall m :: m in r ==>
      0 <= m.rect.x <= WIDTH && !Overlaps(m.rect, target) && !OverlapsAny(m.rect, blocks)
  {
    if bs == [] then []
    else
      var last := bs[|bs| - 1];
      Survivors(bs[..|bs| - 1], target, blocks) + (if Kept(last, target, blocks) then [Advanced(last)] else [])
  }

  /** The health update_bullets takes from the target: the damage of every
      bullet that strikes it, one event per bullet. */
  function DamageDealt(bs: seq<Bullet>, target: Rect): (d: int)
    ensures (forall i :: 0 <= i < |bs| ==> bs[i].damage >= 0) ==> d >= 0
  {
    if bs == [] then 0
    else
      var last := bs[|bs| - 1];
      DamageDealt(bs[..|bs| - 1], target) + (if Strikes(last, target) then last.damage else 0)
  }

  /** Survivors treats each bullet on its own and keeps their order. */
  lemma {:induction false} SurvivorsAppend(a: seq<Bullet>, b: seq<Bullet>, target: Rect, blocks: seq<Rect>)
    ensures Survivors(a + b, target, blocks) == Survivors(a, target, blocks) + Survivors(b, target, blocks)
  {
    if b == [] {
      assert a + b == a;
    } else {
      var last := b[|b| - 1];
      assert (a + b)[..|a + b| - 1] == a + b[..|b| - 1];
      SurvivorsAppend(a, b[..|b| - 1], target, blocks);
    }
  }

  /** The filter and the damage over one more bullet of a list. */
  lemma SurvivorsStep(bs: seq<Bullet>, i: int, target: Rect, blocks: seq<Rect>)
    requires 0 <= i < |bs|
    ensures Survivors(bs[..i + 1], target, blocks) ==
      Survivors(bs[..i], target, blocks) + (if Kept(bs[i], target, blocks) then [Advanced(bs[i])] else [])
    ensures DamageDealt(bs[..i + 1], target) ==
      DamageDealt(bs[..i], target) + (if Strikes(bs[i], target) then bs[i].damage else 0)
  {
    assert bs[..i + 1][..i] == bs[..i];
  }

  /** The damage of a list is the sum of the damage of its parts. */
  lemma {:induction false} DamageAppend(a: seq<Bullet>, b: seq<Bullet>, target: Rect)
    ensures DamageDealt(a + b, target) == DamageDealt(a, target) + DamageDealt(b, target)
  {
    if b == [] {
      assert a + b == a;
    } else {
      assert (a + b)[..|a + b| - 1] == a + b[..|b| - 1];
      DamageAppend(a, b[..|b| - 1], target);
    }
  }

  /** A bullet of a list survives, or strikes and is counted in the damage, or is
      dropped by a block or the play bounds: exactly one of these, and a striking
      bullet never reaches the block test. */
  lemma {:induction false} BulletFate(bs: seq<Bullet>, i: int, target: Rect, blocks: seq<Rect>)
    requires 0 <= i < |bs|
    ensures Survivors(bs, target, blocks) ==
      Survivors(bs[..i], target, blocks)
      + (if Kept(bs[i], target, blocks) then [Advanced(bs[i])] else [])
      + Survivors(bs[i + 1..], target, blocks)
    ensures DamageDealt(bs, target) ==
      DamageDealt(bs[..i], target)
      + (if Strikes(bs[i], target) then bs[i].damage else 0)
      + DamageDealt(bs[i + 1..], target)
    ensures Strikes(bs[i], target) ==> !Kept(bs[i], target, blocks)
  {
    assert bs == bs[..i] + [bs[i]] + bs[i + 1..];
    SurvivorsAppend(bs[..i] + [bs[i]], bs[i + 1..], target, blocks);
    SurvivorsAppend(bs[..i], [bs[i]], target, blocks);
    DamageAppend(bs[..i] + [bs[i]], bs[i + 1..], target);
    DamageAppend(bs[..i], [bs[i]], target);
    assert [bs[i]][..0] == [];
  }

  // ---------------------------------------------------------------------------
  // End of round

  /** The result screen: a draw when both players are out of health, otherwise
      the red player wins when the blue one is out, and the blue player wins in
      every other case, including a round closed from the window. */
  function RoundOutcome(health1: int, health2: int): (o: Outcome)
    ensures o == Draw <==> health1 <= 0 && health2 <= 0
    ensures o == RedWins <==> health1 <= 0 && health2 > 0
    ensures o == BlueWins <==> health1 > 0
  {
    if health1 <= 0 && health2 <= 0 then Draw
    else if health1 <= 0 then RedWins
    else BlueWins
  }

  /** When the round ends on health, the outcome names the player still
      standing, or a draw when neither is. */
  lemma OutcomeNamesSurvivor(health1: int, health2: int)
    requires health1 <= 0 || health2 <= 0
    ensures RoundOutcome(health1, health2) == BlueWins <==> health1 > 0
    ensures RoundOutcome(health1, health2) == RedWins <==> health2 > 0
    ensures RoundOutcome(health1, health2) == Draw <==> health1 <= 0 && health2 <= 0
  {
  }

  // ---------------------------------------------------------------------------
  // The player

  class Player {
    var rect: Rect
    const color: Color
    var velocityY: real
    var onGround: bool
    var health: int
    var bullets: seq<Bullet>

    /** A player keeps the 40 x 60 rectangle it is created with. */
    ghost predicate Valid()
      reads this
    {
      rect.w == PLAYER_WIDTH && rect.h == PLAYER_HEIGHT
    }

    function Physics(): Body
      reads this
    {
      Body(rect, velocityY, onGround)
    }

    constructor (x: int, y: int, color: Color)
      ensures Valid() && rect == Rect(x, y, PLAYER_WIDTH, PLAYER_HEIGHT) && this.color == color
      ensures velocityY == 0.0 && !onGround && health == START_HEALTH && bullets == []
    {
      rect := Rect(x, y, PLAYER_WIDTH, PLAYER_HEIGHT);
      this.color := color;
      velocityY := 0.0;
      onGround := false;
      health := START_HEALTH;
      bullets := [];
    }

    /** Whether the player's rectangle overlaps some block. */
    method CheckCollisionHorizontal(blocks: seq<Rect>) returns (hit: bool)
      ensures hit == OverlapsAny(rect, blocks)
    {
      for i := 0 to |blocks|
        invariant forall j :: 0 <= j < i ==> !Overlaps(rect, blocks[j])
      {
        if Overlaps(rect, blocks[i]) {
          return true;
        }
      }
      return false;
    }

    method Move(intent: Intent, blocks: seq<Rect>)
      requires Valid()
      modifies this`rect, this`velocityY, this`onGround
      ensures Valid()
      ensures Physics() == AfterMove(old(Physics()), intent, blocks)
    {
      var oldX := rect.x;
      if intent.left {
        rect := rect.(x := rect.x - PLAYER_SPEED);
        var hit := CheckCollisionHorizontal(blocks);
        if hit {
          rect := rect.(x := oldX);
        }
      }
      if intent.right {
        rect := rect.(x := rect.x + PLAYER_SPEED);
        var hit := CheckCollisionHorizontal(blocks);
        if hit {
          rect := rect.(x := oldX);
        }
      }
      if rect.Left() < 0 {
        rect := rect.(x := 0);
      }
      if rect.Right() > WIDTH {
        rect := rect.(x := WIDTH - rect.w);
      }
      if intent.jump && onGround {
        velocityY := JUMP_STRENGTH;
        onGround := false;
      }
    }

    method CheckCollisionVertical(blocks: seq<Rect>)
      modifies this`rect, this`velocityY, this`onGround
      ensures Physics() == ResolveVertical(old(Physics()), blocks)
    {
      for i := 0 to |blocks|
        invariant Physics() == old(Physics())
        invariant velocityY == 0.0 || forall j :: 0 <= j < i ==> !Overlaps(rect, blocks[j])
      {
        if Overlaps(rect, blocks[i]) {
          if velocityY > 0.0 {
            rect := rect.(y := blocks[i].Top() - rect.h);
            velocityY := 0.0;
            onGround := true;
            return;
          } else if velocityY < 0.0 {
            rect := rect.(y := blocks[i].Bottom());
            velocityY := 0.0;
            return;
          }
        }
      }
      if velocityY >= 0.0 && rect.Bottom() < HEIGHT {
        onGround := false;
      }
    }

    method ApplyGravity(blocks: seq<Rect>, toPixel: real -> int)
      requires Valid()
      modifies this`rect, this`velocityY, this`onGround
      ensures Valid()
      ensures Physics() == AfterGravity(old(Physics()), blocks, toPixel)
    {
      velocityY := velocityY + GRAVITY;
      rect := rect.(y := toPixel(rect.y as real + velocityY));
      CheckCollisionVertical(blocks);
      if rect.Bottom() >= HEIGHT {
        rect := rect.(y := HEIGHT - rect.h);
        velocityY := 0.0;
        onGround := true;
      }
    }

    method Shoot()
      modifies this`bullets
      ensures bullets == old(bullets) + [Projectile(rect, color, Plain)]
    {
      bullets := bullets + [Projectile(rect, color, Plain)];
    }

    method SuperShoot()
      modifies this`bullets
      ensures bullets == old(bullets) + [Projectile(rect, color, Super)]
    {
      bullets := bullets + [Projectile(rect, color, Super)];
    }

    /** Advances every bullet, debits the other player's health for each one
        that hits it, and keeps the bullets that hit nothing and stay on screen. */
    method UpdateBullets(other: Player, blocks: seq<Rect>)
      modifies this`bullets, other`health
      ensures bullets == Survivors(old(bullets), other.rect, blocks)
      ensures other.health == old(other.health) - DamageDealt(old(bullets), other.rect)
    {
      var bs, target := bullets, other.rect;
      var kept: seq<Bullet> := [];
      for i := 0 to |bs|
        invariant kept == Survivors(bs[..i], target, blocks)
        invariant other.health == old(other.health) - DamageDealt(bs[..i], target)
      {
        SurvivorsStep(bs, i, target, blocks);
        var b := bs[i];
        b := b.(rect := b.rect.(x := b.rect.x + b.speed * b.direction));
        assert b == Advanced(bs[i]);
        if Overlaps(b.rect, target) {
          other.health := other.health - b.damage;
        } else {
          var hitBlock := ScanBlocks(b.rect, blocks);
          if !hitBlock && 0 <= b.rect.x <= WIDTH {
            kept := kept + [b];
          }
        }
      }
      assert bs[..|bs|] == bs;
      bullets := kept;
    }
  }

  /** The block scan of update_bullets: whether the rectangle overlaps some
      block, stopping at the first one that it does. */
  method ScanBlocks(r: Rect, blocks: seq<Rect>) returns (hit: bool)
    ensures hit == OverlapsAny(r, blocks)
  {
    hit := false;
    for j := 0 to |blocks|
      invariant !hit
      invariant forall k :: 0 <= k < j ==> !Overlaps(r, blocks[k])
    {
      if Overlaps(r, blocks[j]) {
        hit := true;
        break;
      }
    }
  }

  /** Fires one shot of the given kind when the cooldown since the last such
      shot has elapsed, and returns the time of the last shot afterwards. */
  method Fire(p: Player, kind: ShotKind, now: int, last: int, cooldown: int) returns (newLast: int)
    modifies p`bullets
    ensures newLast == (if now - last > cooldown then now else last)
    ensures p.bullets == old(p.bullets) + (if now - last > cooldown then [Projectile(p.rect, p.color, kind)] else [])
  {
    newLast := last;
    if now - last > cooldown {
      if kind == Plain {
        p.Shoot();
      } else {
        p.SuperShoot();
      }
      newLast := now;
    }
  }

  // ---------------------------------------------------------------------------
  // The round: the state main's loop keeps between frames

  class Session {
    const player1: Player
    const player2: Player
    const blocks: seq<Rect>
    var lastShot1: int
    var lastShot2: int
    var lastSuper1: int
    var lastSuper2: int
    var running: bool

    ghost predicate Valid()
      reads this, player1, player2
    {
      player1 != player2 && player1.Valid() && player2.Valid()
    }

    constructor ()
      ensures Valid() && fresh(player1) && fresh(player2) && running && blocks == Scenario()
      ensures player1.rect == Rect(50, HEIGHT - 100, PLAYER_WIDTH, PLAYER_HEIGHT) && player1.color == BLUE
      ensures player2.rect == Rect(WIDTH - 90, HEIGHT - 100, PLAYER_WIDTH, PLAYER_HEIGHT) && player2.color == RED
      ensures player1.health == START_HEALTH && player2.health == START_HEALTH
      ensures player1.bullets == [] && player2.bullets == []
      ensures player1.velocityY == 0.0 && !player1.onGround && player2.velocityY == 0.0 && !player2.onGround
      ensures lastShot1 == 0 && lastShot2 == 0 && lastSuper1 == 0 && lastSuper2 == 0
    {
      player1 := new Player(50, HEIGHT - 100, BLUE);
      player2 := new Player(WIDTH - 90, HEIGHT - 100, RED);
      blocks := Scenario();
      lastShot1, lastShot2, lastSuper1, lastSuper2 := 0, 0, 0, 0;
      running := true;
    }

    /** One event of the frame at time `now`: closing the window ends the round;
        a shot key fires when that player's cooldown for it has elapsed. */
    method HandleEvent(e: Event, now: int)
      requires Valid()
      modifies this`running, this`lastShot1, this`lastShot2, this`lastSuper1, this`lastSuper2
      modifies player1`bullets, player2`bullets
      ensures Valid()
      ensures running == (old(running) && !e.Quit?)
      ensures lastShot1 == (if e == KeyDown(P1Shoot) && now - old(lastShot1) > SHOT_COOLDOWN then now else old(lastShot1))
      ensures lastSuper1 == (if e == KeyDown(P1SuperShoot) && now - old(lastSuper1) > SUPER_SHOT_COOLDOWN then now else old(lastSuper1))
      ensures lastShot2 == (if e == KeyDown(P2Shoot) && now - old(lastShot2) > SHOT_COOLDOWN then now else old(lastShot2))
      ensures lastSuper2 == (if e == KeyDown(P2SuperShoot) && now - old(lastSuper2) > SUPER_SHOT_COOLDOWN then now else old(lastSuper2))
      ensures player1.bullets == old(player1.bullets)
        + (if e == KeyDown(P1Shoot) && now - old(lastShot1) > SHOT_COOLDOWN
           then [Projectile(player1.rect, player1.color, Plain)] else [])
        + (if e == KeyDown(P1SuperShoot) && now - old(lastSuper1) > SUPER_SHOT_COOLDOWN
           then [Projectile(player1.rect, player1.color, Super)] else [])
      ensures player2.bullets == old(player2.bullets)
        + (if e == KeyDown(P2Shoot) && now - old(lastShot2) > SHOT_COOLDOWN
           then [Projectile(player2.rect, player2.color, Plain)] else [])
        + (if e == KeyDown(P2SuperShoot) && now - old(lastSuper2) > SUPER_SHOT_COOLDOWN
           then [Projectile(player2.rect, player2.color, Super)] else [])
    {
      match e
      case Quit =>
        running := false;
      case OtherEvent =>
      case KeyDown(key) =>
        match key
        case P1Shoot =>
          lastShot1 := Fire(player1, Plain, now, lastShot1, SHOT_COOLDOWN);
        case P1SuperShoot =>
          lastSuper1 := Fire(player1, Super, now, lastSuper1, SUPER_SHOT_COOLDOWN);
        case P2Shoot =>
          lastShot2 := Fire(player2, Plain, now, lastShot2, SHOT_COOLDOWN);
        case P2SuperShoot =>
          lastSuper2 := Fire(player2, Super, now, lastSuper2, SUPER_SHOT_COOLDOWN);
        case OtherKey =>
    }

    /** The rest of a frame, in the loop's order: both moves, both gravity steps,
        player 1's bullets against player 2, player 2's against player 1, then
        the end-of-round test on health. */
    method Tick(intent1: Intent, intent2: Intent, toPixel: real -> int)
      requires Valid()
      modifies this`running, player1, player2
      ensures Valid()
      ensures player1.Physics() == AfterGravity(AfterMove(old(player1.Physics()), intent1, blocks), blocks, toPixel)
      ensures player2.Physics() == AfterGravity(AfterMove(old(player2.Physics()), intent2, blocks), blocks, toPixel)
      ensures player1.bullets == Survivors(old(player1.bullets), player2.rect, blocks)
      ensures player2.bullets == Survivors(old(player2.bullets), player1.rect, blocks)
      ensures player2.health == old(player2.health) - DamageDealt(old(player1.bullets), player2.rect)
      ensures player1.health == old(player1.health) - DamageDealt(old(player2.bullets), player1.rect)
      ensures running == (old(running) && player1.health > 0 && player2.health > 0)
      ensures 0 <= player1.rect.Left() && player1.rect.Right() <= WIDTH && player1.rect.Bottom() <= HEIGHT
      ensures 0 <= player2.rect.Left() && player2.rect.Right() <= WIDTH && player2.rect.Bottom() <= HEIGHT
    {
      StepPlayers(intent1, intent2, toPixel);
      ExchangeFire();
      if player1.health <= 0 || player2.health <= 0 {
        running := false;
      }
    }

    /** The physics part of a frame: both players move, then both fall. */
    method StepPlayers(intent1: Intent, intent2: Intent, toPixel: real -> int)
      requires Valid()
      modifies player1`rect, player1`velocityY, player1`onGround, player2`rect, player2`velocityY, player2`onGround
      ensures Valid()
      ensures player1.Physics() == AfterGravity(AfterMove(old(player1.Physics()), intent1, blocks), blocks, toPixel)
      ensures player2.Physics() == AfterGravity(AfterMove(old(player2.Physics()), intent2, blocks), blocks, toPixel)
      ensures 0 <= player1.rect.Left() && player1.rect.Right() <= WIDTH && player1.rect.Bottom() <= HEIGHT
      ensures 0 <= player2.rect.Left() && player2.rect.Right() <= WIDTH && player2.rect.Bottom() <= HEIGHT
    {
      player1.Move(intent1, blocks);
      player2.Move(intent2, blocks);
      player1.ApplyGravity(blocks, toPixel);
      player2.ApplyGravity(blocks, toPixel);
    }

    /** The bullet part of a frame: each player's bullets fly against the other. */
    method ExchangeFire()
      requires Valid()
      modifies player1`bullets, player1`health, player2`bullets, player2`health
      ensures player1.bullets == Survivors(old(player1.bullets), player2.rect, blocks)
      ensures player2.bullets == Survivors(old(player2.bullets), player1.rect, blocks)
      ensures player2.health == old(player2.health) - DamageDealt(old(player1.bullets), player2.rect)
      ensures player1.health == old(player1.health) - DamageDealt(old(player2.bullets), player1.rect)
    {
      player1.UpdateBullets(player2, blocks);
      player2.UpdateBullets(player1, blocks);
    }
  }
}
