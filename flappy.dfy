/** The one-player flappy game: a bird, a stream of pipes, one score, and a
    game that ends at the first collision (Teste_flap/flappy.py). */
module Flappy {
  import opened Geometry
  import opened Tally

  const WIDTH := 400
  const HEIGHT := 600
  const GRAVITY: real := 0.3
  const JUMP_STRENGTH: real := -6.0
  const PIPE_WIDTH := 70
  const PIPE_GAP := 150
  const PIPE_SPEED := 3
  const BIRD_X := 50
  const BIRD_SIZE := 30
  /** The range random.randint draws a pipe's height from. */
  const MIN_PIPE_HEIGHT := 50
  const MAX_PIPE_HEIGHT := HEIGHT - PIPE_GAP - 50

  /** The keys the event loop looks at; only space does anything. */
  datatype Key = Space | OtherKey

  /** A bird's vertical position (downwards) and speed. */
  datatype Motion = Motion(y: real, velocity: real)

  /** Bird.move: the speed gains GRAVITY, then the position gains the new
      speed; nothing stops the bird at the top of the screen. */
  function Drift(m: Motion): (n: Motion)
    ensures n.velocity - m.velocity == GRAVITY
    ensures n.y - m.y == n.velocity
  {
    Motion(m.y + m.velocity + GRAVITY, m.velocity + GRAVITY)
  }

  /** Left alone for k frames, the bird falls by the sum of its speeds: each
      frame adds GRAVITY to the speed, so after k frames y has gained k times
      the starting speed plus GRAVITY times 1 + 2 + ... + k. */
  lemma {:induction false} DriftFrames(m: Motion, k: nat)
    ensures DriftN(m, k).velocity == m.velocity + k as real * GRAVITY
    ensures DriftN(m, k).y == m.y + k as real * m.velocity + (k * (k + 1) / 2) as real * GRAVITY
  {
    if k > 0 {
      DriftFrames(m, k - 1);
      assert (k * (k + 1) / 2) == ((k - 1) * k / 2) + k;
    }
  }

  /** The motion after k frames without a jump. */
  function DriftN(m: Motion, k: nat): Motion {
    if k == 0 then m else Drift(DriftN(m, k - 1))
  }

  // ---------------------------------------------------------------------------
  // The bird

  class Bird {
    const x: int
    var y: real
    var velocity: real
    const width: int
    const height: int

    constructor ()
      ensures x == BIRD_X && y == (HEIGHT / 2) as real && velocity == 0.0
      ensures width == BIRD_SIZE && height == BIRD_SIZE
    {
      x := BIRD_X;
      y := (HEIGHT / 2) as real;
      velocity := 0.0;
      width := BIRD_SIZE;
      height := BIRD_SIZE;
    }

    function Flight(): Motion
      reads this`y, this`velocity
    {
      Motion(y, velocity)
    }

    /** get_rect, with pygame's conversion of the real y to a pixel row. */
    function Hitbox(toPixel: real -> int): (r: Rect)
      reads this`y
      ensures r.Left() == x && r.Right() == x + width && r.Top() == toPixel(y) && r.Bottom() == toPixel(y) + height
    {
      Rect(x, toPixel(y), width, height)
    }

    method Jump()
      modifies this`velocity
      ensures velocity == JUMP_STRENGTH
    {
      velocity := JUMP_STRENGTH;
    }

    method Move()
      modifies this`y, this`velocity
      ensures Flight() == Drift(old(Flight()))
    {
      velocity := velocity + GRAVITY;
      y := y + velocity;
    }

    /** The bird is outside the screen vertically: below the floor line or
        above the top edge. */
    predicate OutOfBounds(): (o: bool)
      reads this`y
      ensures !o <==> 0.0 <= y && y + height as real <= HEIGHT as real
    {
      y > (HEIGHT - height) as real || y < 0.0
    }
  }

  // ---------------------------------------------------------------------------
  // Pipes

  /** A pipe: its left edge, the height of its top part, its width, and
      whether the bird has been credited for it. */
  datatype Pipe = Pipe(x: int, height: int, width: int, passed: bool) {
    /** get_top_rect: from the top of the screen down to the pipe's height. */
    function TopRect(): (r: Rect)
      ensures r.Left() == x && r.Right() == x + width && r.Top() == 0 && r.Bottom() == height
    {
      Rect(x, 0, width, height)
    }

    /** get_bottom_rect: from PIPE_GAP below the top rectangle down to the
        bottom of the screen. */
    function BottomRect(): (r: Rect)
      ensures r.Left() == x && r.Right() == x + width && r.Top() == height + PIPE_GAP && r.Bottom() == HEIGHT
    {
      var bottomY := height + PIPE_GAP;
      Rect(x, bottomY, width, HEIGHT - bottomY)
    }

    /** Pipe.move: PIPE_SPEED pixels to the left, nothing else changes. */
    function Moved(): (p: Pipe)
      ensures p.x == x - PIPE_SPEED && p.height == height && p.width == width && p.passed == passed
    {
      this.(x := x - PIPE_SPEED)
    }
  }

  /** A new pipe at the right edge, not yet passed; its height is the random draw. */
  function NewPipe(height: int): (p: Pipe)
    requires MIN_PIPE_HEIGHT <= height <= MAX_PIPE_HEIGHT
    ensures p.x == WIDTH && p.height == height && p.width == PIPE_WIDTH && !p.passed
  {
    Pipe(WIDTH, height, PIPE_WIDTH, false)
  }

  lemma PipeShape(p: Pipe)
    requires MIN_PIPE_HEIGHT <= p.height <= MAX_PIPE_HEIGHT
    ensures p.TopRect().x == p.BottomRect().x == p.x && p.TopRect().w == p.BottomRect().w == p.width
    ensures p.TopRect().Top() == 0 && p.TopRect().Bottom() == p.height
    ensures p.BottomRect().Top() - p.TopRect().Bottom() == PIPE_GAP && p.BottomRect().Bottom() == HEIGHT
    ensures p.TopRect().h >= 50 && p.BottomRect().h >= 50
  {
  }

  /** The box hits the pipe's top or bottom rectangle. */
  predicate Hits(box: Rect, p: Pipe) {
    Overlaps(box, p.TopRect()) || Overlaps(box, p.BottomRect())
  }

  predicate HitsAny(box: Rect, ps: seq<Pipe>) {
    exists j :: 0 <= j < |ps| && Hits(box, ps[j])
  }

  /** A box that lies within the gap, vertically, touches neither rectangle. */
  lemma GapIsClear(box: Rect, p: Pipe)
    requires p.height <= box.Top() && box.Bottom() <= p.height + PIPE_GAP
    ensures !Hits(box, p)
  {
  }

  lemma HitsAnySnoc(box: Rect, ps: seq<Pipe>, p: Pipe)
    ensures HitsAny(box, ps + [p]) == (HitsAny(box, ps) || Hits(box, p))
  {
    var qs := ps + [p];
    assert qs[|ps|] == p;
    if HitsAny(box, ps) {
      var j :| 0 <= j < |ps| && Hits(box, ps[j]);
      assert qs[j] == ps[j];
    }
  }

  /** Every pipe after one move each. */
  function Shifted(ps: seq<Pipe>): (r: seq<Pipe>)
    ensures |r| == |ps|
    ensures forall i :: 0 <= i < |ps| ==> r[i] == ps[i].Moved()
  {
    seq(|ps|, i requires 0 <= i < |ps| => ps[i].Moved())
  }

  /** The passed flags of the pipes. */
  function Flags(ps: seq<Pipe>): (f: seq<bool>)
    ensures |f| == |ps|
  {
    seq(|ps|, i requires 0 <= i < |ps| => ps[i].passed)
  }

  /** The pipes the bird scores at in one pass: not yet passed, and with the
      moved pipe's right edge left of the bird. */
  function Scored(ps: seq<Pipe>, birdX: int): (c: seq<bool>)
    ensures |c| == |ps|
    ensures forall i :: 0 <= i < |c| ==> (c[i] <==> !ps[i].passed && ps[i].x - PIPE_SPEED + ps[i].width < birdX)
  {
    seq(|ps|, i requires 0 <= i < |ps| => !ps[i].passed && ps[i].Moved().x + ps[i].width < birdX)
  }

  /** The pipes after one pass: each has moved, and its flag is set when it
      was set before or the bird scores at it now. */
  function Advanced(ps: seq<Pipe>, birdX: int): (r: seq<Pipe>)
    ensures |r| == |ps|
    ensures forall i :: 0 <= i < |ps| ==>
      r[i].x == ps[i].x - PIPE_SPEED && r[i].height == ps[i].height && r[i].width == ps[i].width
    ensures forall i :: 0 <= i < |ps| ==> (r[i].passed <==> ps[i].passed || Scored(ps, birdX)[i])
  {
    seq(|ps|, i requires 0 <= i < |ps| => ps[i].Moved().(passed := ps[i].passed || Scored(ps, birdX)[i]))
  }

  /** A flag only goes from unset to set, and the pass sets exactly the flags
      of the pipes it scores at: the score it adds is the number of flags it
      sets. */
  lemma AdvancedFlags(ps: seq<Pipe>, birdX: int)
    ensures forall i :: 0 <= i < |ps| ==> ps[i].passed ==> Advanced(ps, birdX)[i].passed
    ensures CountTrue(Flags(Advanced(ps, birdX))) == CountTrue(Flags(ps)) + CountTrue(Scored(ps, birdX))
  {
    CountTrueMerge(Flags(ps), Scored(ps, birdX), Flags(Advanced(ps, birdX)));
  }

  /** Each pipe is credited at most once over any number of passes: once its
      flag is set, no later pass scores at it. */
  lemma NoSecondCredit(ps: seq<Pipe>, birdX: int, nextX: int, i: int)
    requires 0 <= i < |ps| && Scored(ps, birdX)[i]
    ensures !Scored(Advanced(ps, birdX), nextX)[i]
  {
  }

  // ---------------------------------------------------------------------------
  // Culling

  /** The pipes still on screen, in their order: those whose right edge is
      right of the screen's left edge. */
  function Cull(ps: seq<Pipe>): (r: seq<Pipe>)
    ensures |r| <= |ps|
  {
    if ps == [] then []
    else
      var last := ps[|ps| - 1];
      Cull(ps[..|ps| - 1]) + (if last.x + last.width > 0 then [last] else [])
  }

  /** Culling treats each pipe on its own and keeps their order. */
  lemma {:induction false} CullAppend(a: seq<Pipe>, b: seq<Pipe>)
    ensures Cull(a + b) == Cull(a) + Cull(b)
  {
    if b == [] {
      assert a + b == a;
    } else {
      assert (a + b)[..|a + b| - 1] == a + b[..|b| - 1];
      CullAppend(a, b[..|b| - 1]);
    }
  }

  /** Culling only drops pipes, so it never raises the number of set flags. */
  lemma {:induction false} CullFlagsAtMost(ps: seq<Pipe>)
    ensures CountTrue(Flags(Cull(ps))) <= CountTrue(Flags(ps))
  {
    if ps != [] {
      var init, last := ps[..|ps| - 1], ps[|ps| - 1];
      assert ps == init + [last];
      var kept := Cull(init);
      CullFlagsAtMost(init);
      assert Cull(ps) == kept + (if last.x + last.width > 0 then [last] else []) by {
        CullSnoc(init, last);
      }
      assert Flags(ps) == Flags(init) + [last.passed] by {
        FlagsSnoc(init, last);
      }
      CountTrueAppendOne(Flags(init), last.passed);
      if last.x + last.width > 0 {
        FlagsSnoc(kept, last);
        CountTrueAppendOne(Flags(kept), last.passed);
      } else {
        assert kept + [] == kept;
      }
    }
  }

  lemma FlagsSnoc(ps: seq<Pipe>, p: Pipe)
    ensures Flags(ps + [p]) == Flags(ps) + [p.passed]
  {
  }

  /** Culling keeps exactly the pipes still on screen: every kept pipe is a
      pipe of the list whose right edge is right of the screen's left edge,
      and every such pipe is kept. */
  lemma {:induction false} CullKeepsOnScreen(ps: seq<Pipe>)
    ensures forall i :: 0 <= i < |Cull(ps)| ==> Cull(ps)[i] in ps && Cull(ps)[i].x + Cull(ps)[i].width > 0
    ensures forall i :: 0 <= i < |ps| && ps[i].x + ps[i].width > 0 ==> ps[i] in Cull(ps)
  {
    if ps != [] {
      var init, last := ps[..|ps| - 1], ps[|ps| - 1];
      assert ps == init + [last];
      CullKeepsOnScreen(init);
      CullSnoc(init, last);
      forall i | 0 <= i < |ps| && ps[i].x + ps[i].width > 0
        ensures ps[i] in Cull(ps)
      {
        if i < |init| {
          assert ps[i] == init[i];
        }
      }
    }
  }

  /** Culling one more pipe: it is kept iff it is still on screen. */
  lemma CullSnoc(ps: seq<Pipe>, p: Pipe)
    ensures Cull(ps + [p]) == Cull(ps) + (if p.x + p.width > 0 then [p] else [])
  {
    assert (ps + [p])[..|ps|] == ps;
  }

  // ---------------------------------------------------------------------------
  // The game: the state main's loop keeps between frames

  class Session {
    const bird: Bird
    var pipes: seq<Pipe>
    var score: int
    var running: bool
    /** Points earned at pipes that have since been culled. */
    ghost var banked: nat

    /** The score is the number of pipes, on screen or already culled, whose
        flag has been set. */
    ghost predicate Valid()
      reads this`pipes, this`score, this`banked
    {
      score == banked + CountTrue(Flags(pipes))
    }

    constructor ()
      ensures Valid() && running && pipes == [] && score == 0
      ensures bird.x == BIRD_X && bird.y == (HEIGHT / 2) as real && bird.velocity == 0.0
      ensures bird.width == BIRD_SIZE && bird.height == BIRD_SIZE
    {
      bird := new Bird();
      pipes := [];
      score := 0;
      running := true;
      banked := 0;
    }

    /** A key press: space makes the bird jump. */
    method OnKeyDown(key: Key)
      modifies bird`velocity
      ensures bird.velocity == (if key == Space then JUMP_STRENGTH else old(bird.velocity))
    {
      if key == Space {
        bird.Jump();
      }
    }

    /** The spawn timer: a new pipe of the drawn height joins the end of the list. */
    method SpawnPipe(height: int)
      requires Valid() && MIN_PIPE_HEIGHT <= height <= MAX_PIPE_HEIGHT
      modifies this`pipes
      ensures Valid()
      ensures pipes == old(pipes) + [NewPipe(height)]
    {
      assert Flags(pipes + [NewPipe(height)]) == Flags(pipes) + [false];
      CountTrueAppendOne(Flags(pipes), false);
      pipes := pipes + [NewPipe(height)];
    }

    /** The pipe loop of a frame: each pipe moves; a hit ends the game; a pipe
        not yet passed whose right edge is left of the bird is flagged and
        scores. A hit does not stop the loop or the scoring. */
    method PassPipes(toPixel: real -> int)
      modifies this`pipes, this`score, this`running
      ensures pipes == Advanced(old(pipes), bird.x)
      ensures running == (old(running) && !HitsAny(bird.Hitbox(toPixel), Shifted(old(pipes))))
      ensures score == old(score) + CountTrue(Scored(old(pipes), bird.x))
    {
      ghost var ps := pipes;
      ghost var running0, score0 := running, score;
      var box, birdX := bird.Hitbox(toPixel), bird.x;
      ghost var vs, scored, advanced := Shifted(ps), Scored(ps, birdX), Advanced(ps, birdX);
      for i := 0 to |pipes|
        invariant |pipes| == |ps|
        invariant forall j :: i <= j < |ps| ==> pipes[j] == ps[j]
        invariant forall j :: 0 <= j < i ==> pipes[j] == advanced[j]
        invariant running == (running0 && !HitsAny(box, vs[..i]))
        invariant score == score0 + CountTrue(scored[..i])
      {
        var pipe := pipes[i].Moved();
        if Overlaps(box, pipe.TopRect()) || Overlaps(box, pipe.BottomRect()) {
          running := false;
        }
        if !pipe.passed && pipe.x + pipe.width < birdX {
          pipe := pipe.(passed := true);
          score := score + 1;
        }
        pipes := pipes[i := pipe];
        assert vs[..i + 1] == vs[..i] + [vs[i]];
        HitsAnySnoc(box, vs[..i], vs[i]);
        CountTrueSnoc(scored, i);
      }
      assert vs[..|ps|] == vs && scored[..|ps|] == scored;
    }

    /** Remove the pipes that have left the screen; the points they gave are kept. */
    method CullPipes()
      requires Valid()
      modifies this`pipes, this`banked
      ensures Valid()
      ensures pipes == Cull(old(pipes))
    {
      CullFlagsAtMost(pipes);
      var kept := Cull(pipes);
      banked := banked + (CountTrue(Flags(pipes)) - CountTrue(Flags(kept)));
      pipes := kept;
    }

    /** One frame after its events: the bird moves, the pipe loop runs, the
        pipes off screen are dropped, and the game ends when the bird hit a
        pipe or left the screen vertically. */
    method Tick(toPixel: real -> int)
      requires Valid()
      modifies bird`y, bird`velocity, this`pipes, this`score, this`running, this`banked
      ensures Valid()
      ensures bird.Flight() == Drift(old(bird.Flight()))
      ensures pipes == Cull(Advanced(old(pipes), bird.x))
      ensures score == old(score) + CountTrue(Scored(old(pipes), bird.x))
      ensures running == (old(running) && !HitsAny(bird.Hitbox(toPixel), Shifted(old(pipes))) && !bird.OutOfBounds())
    {
      bird.Move();
      AdvancedFlags(pipes, bird.x);
      PassPipes(toPixel);
      CullPipes();
      if bird.y > (HEIGHT - bird.height) as real || bird.y < 0.0 {
        running := false;
      }
    }
  }
}
