/** The two-player flappy game: two birds, a shared stream of pipes, per-bird
    scoring and permanent death (Teste_flap/flappy2.py). */
module FlappyDuo {
  import opened Geometry
  import opened Tally

  const WIDTH := 400
  const HEIGHT := 600
  const GRAVITY: real := 0.3
  const JUMP_STRENGTH: real := -7.0
  const PIPE_WIDTH := 70
  const PIPE_GAP := 150
  const PIPE_SPEED := 3
  const BIRD_SIZE := 30
  /** The range random.randint draws a pipe's height from. */
  const MIN_PIPE_HEIGHT := 50
  const MAX_PIPE_HEIGHT := HEIGHT - PIPE_GAP - 50

  /** A bird's vertical position (downwards) and speed. */
  datatype Motion = Motion(y: real, velocity: real)

  /** The keys the event loop reacts to: space for the first bird, W for the second. */
  datatype Key = Space | KeyW | OtherKey

  datatype Winner = Player1 | Player2 | Tie

  /** Bird.move: velocity first, then position; a bird carried above the top
      edge is put back on it and stopped. */
  function Fall(m: Motion): (n: Motion)
    ensures n.y >= 0.0
    ensures m.y + m.velocity + GRAVITY >= 0.0 ==> n == Motion(m.y + m.velocity + GRAVITY, m.velocity + GRAVITY)
    ensures m.y + m.velocity + GRAVITY < 0.0 ==> n == Motion(0.0, 0.0)
  {
    var v := m.velocity + GRAVITY;
    var y := m.y + v;
    if y < 0.0 then Motion(0.0, 0.0) else Motion(y, v)
  }

  // ---------------------------------------------------------------------------
  // Birds

  class Bird {
    const x: int
    var y: real
    var velocity: real
    const width: int
    const height: int
    var alive: bool
    var score: int

    constructor (x: int)
      ensures this.x == x && y == (HEIGHT / 2) as real && velocity == 0.0
      ensures width == BIRD_SIZE && height == BIRD_SIZE && alive && score == 0
    {
      this.x := x;
      y := (HEIGHT / 2) as real;
      velocity := 0.0;
      width := BIRD_SIZE;
      height := BIRD_SIZE;
      alive := true;
      score := 0;
    }

    function Flight(): Motion
      reads this`y, this`velocity
    {
      Motion(y, velocity)
    }

    /** get_rect, with pygame's conversion of the real y to a pixel row. */
    function Hitbox(toPixel: real -> int): (r: Rect)
      reads this`y
      ensures r.Left() == x && r.Right() == x + width && r.Top() == toPixel(y) && r.Bottom() == toPixel(y) + height
    {
      Rect(x, toPixel(y), width, height)
    }

    method Jump()
      modifies this`velocity
      ensures velocity == JUMP_STRENGTH
    {
      velocity := JUMP_STRENGTH;
    }

    method Move()
      modifies this`y, this`velocity
      ensures Flight() == Fall(old(Flight()))
      ensures y >= 0.0
    {
      velocity := velocity + GRAVITY;
      y := y + velocity;
      if y < 0.0 {
        y := 0.0;
        velocity := 0.0;
      }
    }
  }

  // ---------------------------------------------------------------------------
  // Pipes

  /** A pipe: its left edge, the height of its top part, its width, and the
      birds it has already credited (passed). */
  datatype Pipe = Pipe(x: int, height: int, width: int, passed: seq<Bird>) {
    /** get_top_rect: from the top of the screen down to the pipe's height. */
    function TopRect(): (r: Rect)
      ensures r.Left() == x && r.Right() == x + width && r.Top() == 0 && r.Bottom() == height
    {
      Rect(x, 0, width, height)
    }

    /** get_bottom_rect: from PIPE_GAP below the top rectangle down to the
        bottom of the screen. */
    function BottomRect(): (r: Rect)
      ensures r.Left() == x && r.Right() == x + width && r.Top() == height + PIPE_GAP && r.Bottom() == HEIGHT
    {
      var bottomY := height + PIPE_GAP;
      Rect(x, bottomY, width, HEIGHT - bottomY)
    }

    /** Pipe.move: PIPE_SPEED pixels to the left, nothing else changes. */
    function Moved(): (p: Pipe)
      ensures p.x == x - PIPE_SPEED && p.height == height && p.width == width && p.passed == passed
    {
      this.(x := x - PIPE_SPEED)
    }
  }

  /** A new pipe at the right edge; its height is the random draw. */
  function NewPipe(height: int): (p: Pipe)
    requires MIN_PIPE_HEIGHT <= height <= MAX_PIPE_HEIGHT
    ensures p.x == WIDTH && p.height == height && p.width == PIPE_WIDTH && p.passed == []
  {
    Pipe(WIDTH, height, PIPE_WIDTH, [])
  }

  lemma PipeShape(p: Pipe)
    requires MIN_PIPE_HEIGHT <= p.height <= MAX_PIPE_HEIGHT
    ensures p.TopRect().x == p.BottomRect().x == p.x && p.TopRect().w == p.BottomRect().w == p.width
    ensures p.TopRect().Top() == 0 && p.TopRect().Bottom() == p.height
    ensures p.BottomRect().Top() - p.TopRect().Bottom() == PIPE_GAP && p.BottomRect().Bottom() == HEIGHT
    ensures p.TopRect().h >= 50 && p.BottomRect().h >= 50
  {
  }

  /** The box hits the pipe's top or bottom rectangle. */
  predicate Hits(box: Rect, p: Pipe) {
    Overlaps(box, p.TopRect()) || Overlaps(box, p.BottomRect())
  }

  predicate HitsAny(box: Rect, ps: seq<Pipe>) {
    exists j :: 0 <= j < |ps| && Hits(box, ps[j])
  }

  /** A box that lies within the gap, vertically, touches neither rectangle. */
  lemma GapIsClear(box: Rect, p: Pipe)
    requires p.height <= box.Top() && box.Bottom() <= p.height + PIPE_GAP
    ensures !Hits(box, p)
  {
  }

  /** A box level with the pipe horizontally and reaching above the gap or
      below it hits the pipe. */
  lemma OutsideGapHits(box: Rect, p: Pipe)
    requires MIN_PIPE_HEIGHT <= p.height <= MAX_PIPE_HEIGHT && p.width > 0
    requires box.w > 0 && box.h > 0 && box.Left() < p.x + p.width && p.x < box.Right()
    requires 0 < box.Bottom() && box.Top() < HEIGHT
    requires box.Top() < p.height || p.height + PIPE_GAP < box.Bottom()
    ensures Hits(box, p)
  {
  }

  lemma HitsAnySnoc(box: Rect, ps: seq<Pipe>, p: Pipe)
    ensures HitsAny(box, ps + [p]) == (HitsAny(box, ps) || Hits(box, p))
  {
    var qs := ps + [p];
    assert qs[|ps|] == p;
    if HitsAny(box, ps) {
      var j :| 0 <= j < |ps| && Hits(box, ps[j]);
      assert qs[j] == ps[j];
    }
  }

  /** Every pipe after one move each. */
  function Shifted(ps: seq<Pipe>): (r: seq<Pipe>)
    ensures |r| == |ps|
    ensures forall i :: 0 <= i < |ps| ==> r[i] == ps[i].Moved()
  {
    seq(|ps|, i requires 0 <= i < |ps| => ps[i].Moved())
  }

  /** For each pipe, whether it has credited bird b. */
  function Seen(b: Bird, ps: seq<Pipe>): (s: seq<bool>)
    ensures |s| == |ps|
  {
    seq(|ps|, i requires 0 <= i < |ps| => b in ps[i].passed)
  }

  /** Every entry of the list is one of the two birds. */
  predicate ListsOnly(l: seq<Bird>, b1: Bird, b2: Bird) {
    forall k :: 0 <= k < |l| ==> l[k] == b1 || l[k] == b2
  }

  /** A pipe as the game builds it: the drawn height, the standard width, and a
      list naming each of the two birds at most once. */
  predicate WellFormed(p: Pipe, b1: Bird, b2: Bird) {
    p.width == PIPE_WIDTH && MIN_PIPE_HEIGHT <= p.height <= MAX_PIPE_HEIGHT
    && Distinct(p.passed) && ListsOnly(p.passed, b1, b2)
  }

  // ---------------------------------------------------------------------------
  // One pass of the pipe loop, as the loop computes it

  /** What the pipe loop tracks for one bird: whether it lives and its score. */
  datatype Standing = Standing(alive: bool, score: int)

  /** The loop's state after some pipes: the pipes visited so far, as they now
      are, and each bird's standing. */
  datatype Pass = Pass(pipes: seq<Pipe>, first: Standing, second: Standing)

  /** One turn of the pipe loop: the pipe moves; a living bird whose box hits
      it dies; then a living bird whose x is past the pipe's right edge and
      that the pipe has not listed is listed and scores, the first bird before
      the second. */
  function Visit(p: Pipe, b1: Bird, b2: Bird, box1: Rect, box2: Rect, s1: Standing, s2: Standing): Pass {
    var q := p.Moved();
    var alive1 := s1.alive && !Hits(box1, q);
    var alive2 := s2.alive && !Hits(box2, q);
    var scored1 := alive1 && q.x + q.width < b1.x && b1 !in q.passed;
    var q1 := if scored1 then q.(passed := q.passed + [b1]) else q;
    var scored2 := alive2 && q1.x + q1.width < b2.x && b2 !in q1.passed;
    var q2 := if scored2 then q1.(passed := q1.passed + [b2]) else q1;
    Pass([q2], Standing(alive1, s1.score + (if scored1 then 1 else 0)),
               Standing(alive2, s2.score + (if scored2 then 1 else 0)))
  }

  /** The pipe loop over ps, pipe by pipe in list order, with the birds' boxes
      fixed (no bird moves during the loop). */
  function PassSpec(ps: seq<Pipe>, b1: Bird, b2: Bird, box1: Rect, box2: Rect, s1: Standing, s2: Standing): (r: Pass)
    ensures |r.pipes| == |ps|
  {
    if ps == [] then Pass([], s1, s2)
    else
      var before := PassSpec(ps[..|ps| - 1], b1, b2, box1, box2, s1, s2);
      var v := Visit(ps[|ps| - 1], b1, b2, box1, box2, before.first, before.second);
      Pass(before.pipes + v.pipes, v.first, v.second)
  }

  // ---------------------------------------------------------------------------
  // What one pass means

  /** The pipes a bird scores at during one pass over the moved pipes vs: the
      bird was alive when the pass began and has hit none of the pipes so far,
      this pipe's right edge is left of the bird, and the pipe had not listed
      the bird before (seen). */
  function Credits(alive: bool, box: Rect, birdX: int, vs: seq<Pipe>, seen: seq<bool>): (c: seq<bool>)
    requires |seen| == |vs|
    ensures |c| == |vs|
    ensures forall i :: 0 <= i < |c| && c[i] ==> alive && !seen[i] && vs[i].x + vs[i].width < birdX
  {
    seq(|vs|, i requires 0 <= i < |vs| =>
      alive && !HitsAny(box, vs[..i + 1]) && vs[i].x + vs[i].width < birdX && !seen[i])
  }

  lemma CreditsPrefix(alive: bool, box: Rect, birdX: int, vs: seq<Pipe>, seen: seq<bool>, k: int)
    requires |seen| == |vs| && 0 <= k <= |vs|
    ensures Credits(alive, box, birdX, vs, seen)[..k] == Credits(alive, box, birdX, vs[..k], seen[..k])
  {
    var c, d := Credits(alive, box, birdX, vs, seen), Credits(alive, box, birdX, vs[..k], seen[..k]);
    forall i | 0 <= i < k
      ensures c[i] == d[i]
    {
      assert vs[..k][..i + 1] == vs[..i + 1];
    }
  }

  /** Once a bird hits a pipe, no later pipe of the pass credits it: a bird
      that dies scores no more. */
  lemma {:induction false} NoCreditAfterHit(alive: bool, box: Rect, birdX: int, vs: seq<Pipe>, seen: seq<bool>, j: int, i: int)
    requires |seen| == |vs| && 0 <= j <= i < |vs| && Hits(box, vs[j])
    ensures !Credits(alive, box, birdX, vs, seen)[i]
  {
    assert vs[..i + 1][j] == vs[j];
  }

  /** A pipe's entry in the list it gains for one bird during a pass. */
  function Credit(b: Bird, c: seq<bool>, i: int): seq<Bird>
    requires 0 <= i < |c|
  {
    if c[i] then [b] else []
  }

  /** The pipes of ps that credit a bird during a pass, given whether it was
      alive when the pass began and its box. */
  function Credited(alive: bool, box: Rect, b: Bird, ps: seq<Pipe>): (c: seq<bool>)
    ensures |c| == |ps|
  {
    Credits(alive, box, b.x, Shifted(ps), Seen(b, ps))
  }

  /** A bird's standing after a pass in closed form: it lives iff it lived and
      hits no moved pipe, and it gains one point per pipe that credits it. */
  function Outcome(s: Standing, box: Rect, b: Bird, ps: seq<Pipe>): Standing {
    Standing(s.alive && !HitsAny(box, Shifted(ps)), s.score + CountTrue(Credited(s.alive, box, b, ps)))
  }

  /** The pipes after a pass in closed form: each has moved and lists, after
      its old entries, the birds that scored at it (c1, c2). */
  function Relisted(ps: seq<Pipe>, b1: Bird, b2: Bird, c1: seq<bool>, c2: seq<bool>): (r: seq<Pipe>)
    requires |c1| == |c2| == |ps|
    ensures |r| == |ps|
  {
    seq(|ps|, i requires 0 <= i < |ps| => ps[i].Moved().(passed := ps[i].passed + Credit(b1, c1, i) + Credit(b2, c2, i)))
  }

  lemma RelistedSnoc(ps: seq<Pipe>, p: Pipe, b1: Bird, b2: Bird, c1: seq<bool>, c2: seq<bool>, k1: bool, k2: bool)
    requires |c1| == |c2| == |ps|
    ensures Relisted(ps + [p], b1, b2, c1 + [k1], c2 + [k2]) ==
      Relisted(ps, b1, b2, c1, c2) + [p.Moved().(passed := p.passed + (if k1 then [b1] else []) + (if k2 then [b2] else []))]
  {
    var l, r := Relisted(ps + [p], b1, b2, c1 + [k1], c2 + [k2]), Relisted(ps, b1, b2, c1, c2);
    forall i | 0 <= i < |ps|
      ensures l[i] == r[i]
    {
      assert (ps + [p])[i] == ps[i] && (c1 + [k1])[i] == c1[i] && (c2 + [k2])[i] == c2[i];
    }
  }

  /** The pass in closed form: each bird's standing is its Outcome, and the
      pipes are Relisted by the credits of both birds. */
  ghost predicate PassMeans(ps: seq<Pipe>, b1: Bird, b2: Bird, box1: Rect, box2: Rect, s1: Standing, s2: Standing, r: Pass) {
    r.first == Outcome(s1, box1, b1, ps)
    && r.second == Outcome(s2, box2, b2, ps)
    && r.pipes == Relisted(ps, b1, b2, Credited(s1.alive, box1, b1, ps), Credited(s2.alive, box2, b2, ps))
  }

  /** One more pipe in the pass adds one entry to a bird's credits. */
  lemma CreditedSnoc(alive: bool, box: Rect, b: Bird, ps: seq<Pipe>, p: Pipe)
    ensures var q := p.Moved();
      Credited(alive, box, b, ps + [p]) ==
        Credited(alive, box, b, ps) + [alive && !HitsAny(box, Shifted(ps)) && !Hits(box, q) && q.x + q.width < b.x && b !in p.passed]
  {
    var q := p.Moved();
    assert Shifted(ps + [p]) == Shifted(ps) + [q];
    SeenSnoc(b, ps, p);
    CreditsSnoc(alive, box, b.x, Shifted(ps), Seen(b, ps), q, b in p.passed);
  }

  /** One more pipe in the pass moves a bird's Outcome by the turn at that pipe. */
  lemma OutcomeSnoc(s: Standing, box: Rect, b: Bird, ps: seq<Pipe>, p: Pipe)
    ensures var o, q := Outcome(s, box, b, ps), p.Moved();
      var k := o.alive && !Hits(box, q) && q.x + q.width < b.x && b !in p.passed;
      Credited(s.alive, box, b, ps + [p]) == Credited(s.alive, box, b, ps) + [k]
      && Outcome(s, box, b, ps + [p]) == Standing(o.alive && !Hits(box, q), o.score + (if k then 1 else 0))
  {
    var q := p.Moved();
    CreditedSnoc(s.alive, box, b, ps, p);
    assert Shifted(ps + [p]) == Shifted(ps) + [q];
    HitsAnySnoc(box, Shifted(ps), q);
    var k := s.alive && !HitsAny(box, Shifted(ps)) && !Hits(box, q) && q.x + q.width < b.x && b !in p.passed;
    CountTrueAppendOne(Credited(s.alive, box, b, ps), k);
  }

  /** One turn of the loop in closed form: the pipe moves, each bird lives iff
      it lived and misses the moved pipe, and it scores and is listed iff it
      still lives, is past the pipe and was not listed before the turn. */
  lemma VisitMeans(p: Pipe, b1: Bird, b2: Bird, box1: Rect, box2: Rect, s1: Standing, s2: Standing)
    requires b1 != b2
    ensures var q := p.Moved();
      var k1 := s1.alive && !Hits(box1, q) && q.x + q.width < b1.x && b1 !in p.passed;
      var k2 := s2.alive && !Hits(box2, q) && q.x + q.width < b2.x && b2 !in p.passed;
      Visit(p, b1, b2, box1, box2, s1, s2) ==
        Pass([q.(passed := p.passed + (if k1 then [b1] else []) + (if k2 then [b2] else []))],
             Standing(s1.alive && !Hits(box1, q), s1.score + (if k1 then 1 else 0)),
             Standing(s2.alive && !Hits(box2, q), s2.score + (if k2 then 1 else 0)))
  {
    var q := p.Moved();
    var k1 := s1.alive && !Hits(box1, q) && q.x + q.width < b1.x && b1 !in p.passed;
    var k2 := s2.alive && !Hits(box2, q) && q.x + q.width < b2.x && b2 !in p.passed;
    var l1: seq<Bird> := if k1 then [b1] else [];
    var l2: seq<Bird> := if k2 then [b2] else [];
    assert b2 in p.passed + l1 <==> b2 in p.passed;
    assert q == q.(passed := p.passed + []);
    assert p.passed + l1 + [] == p.passed + l1;
  }

  /** Adding one pipe to a pass adds one entry to each bird's credits. */
  lemma CreditsSnoc(alive: bool, box: Rect, birdX: int, vs: seq<Pipe>, seen: seq<bool>, v: Pipe, s: bool)
    requires |seen| == |vs|
    ensures Credits(alive, box, birdX, vs + [v], seen + [s]) ==
      Credits(alive, box, birdX, vs, seen) + [alive && !HitsAny(box, vs) && !Hits(box, v) && v.x + v.width < birdX && !s]
  {
    var c, d := Credits(alive, box, birdX, vs + [v], seen + [s]), Credits(alive, box, birdX, vs, seen);
    forall i | 0 <= i < |vs|
      ensures c[i] == d[i]
    {
      assert (vs + [v])[..i + 1] == vs[..i + 1];
    }
    assert (vs + [v])[..|vs| + 1] == vs + [v];
    HitsAnySnoc(box, vs, v);
  }

  /** The pass over one more pipe is the pass so far followed by one turn. */
  lemma PassSpecStep(ps: seq<Pipe>, i: int, b1: Bird, b2: Bird, box1: Rect, box2: Rect, s1: Standing, s2: Standing)
    requires 0 <= i < |ps|
    ensures var before := PassSpec(ps[..i], b1, b2, box1, box2, s1, s2);
      var v := Visit(ps[i], b1, b2, box1, box2, before.first, before.second);
      PassSpec(ps[..i + 1], b1, b2, box1, box2, s1, s2) == Pass(before.pipes + v.pipes, v.first, v.second)
  {
    assert ps[..i + 1][..i] == ps[..i];
  }

  /** The loop computes the closed form, for every list of pipes. */
  lemma {:induction false} PassSpecMeans(ps: seq<Pipe>, b1: Bird, b2: Bird, box1: Rect, box2: Rect, s1: Standing, s2: Standing)
    requires b1 != b2
    ensures PassMeans(ps, b1, b2, box1, box2, s1, s2, PassSpec(ps, b1, b2, box1, box2, s1, s2))
  {
    if ps != [] {
      var n := |ps| - 1;
      var init, last := ps[..n], ps[n];
      assert ps == init + [last];
      var before := PassSpec(init, b1, b2, box1, box2, s1, s2);
      PassSpecMeans(init, b1, b2, box1, box2, s1, s2);
      VisitMeans(last, b1, b2, box1, box2, before.first, before.second);
      OutcomeSnoc(s1, box1, b1, init, last);
      OutcomeSnoc(s2, box2, b2, init, last);
      var q := last.Moved();
      RelistedSnoc(init, last, b1, b2, Credited(s1.alive, box1, b1, init), Credited(s2.alive, box2, b2, init),
        before.first.alive && !Hits(box1, q) && q.x + q.width < b1.x && b1 !in last.passed,
        before.second.alive && !Hits(box2, q) && q.x + q.width < b2.x && b2 !in last.passed);
    }
  }

  /** Death is permanent over a pass: a bird ends it alive iff it began it
      alive and hit none of the moved pipes, and a bird that began it dead
      scores nothing. */
  lemma DeathIsPermanent(ps: seq<Pipe>, b1: Bird, b2: Bird, box1: Rect, box2: Rect, s1: Standing, s2: Standing)
    requires b1 != b2
    ensures var r := PassSpec(ps, b1, b2, box1, box2, s1, s2);
      (r.first.alive <==> s1.alive && !HitsAny(box1, Shifted(ps)))
      && (r.second.alive <==> s2.alive && !HitsAny(box2, Shifted(ps)))
      && (!s1.alive ==> r.first.score == s1.score)
      && (!s2.alive ==> r.second.score == s2.score)
  {
    PassSpecMeans(ps, b1, b2, box1, box2, s1, s2);
    if !s1.alive {
      CountTrueNone(Credited(s1.alive, box1, b1, ps));
    }
    if !s2.alive {
      CountTrueNone(Credited(s2.alive, box2, b2, ps));
    }
  }

  /** The pass keeps every pipe well formed: a pipe lists a bird only when it
      did not list it before. */
  lemma PassKeepsWellFormed(ps: seq<Pipe>, b1: Bird, b2: Bird, box1: Rect, box2: Rect, s1: Standing, s2: Standing)
    requires b1 != b2 && forall i :: 0 <= i < |ps| ==> WellFormed(ps[i], b1, b2)
    ensures var r := PassSpec(ps, b1, b2, box1, box2, s1, s2);
      forall i :: 0 <= i < |r.pipes| ==> WellFormed(r.pipes[i], b1, b2)
  {
    var r := PassSpec(ps, b1, b2, box1, box2, s1, s2);
    PassSpecMeans(ps, b1, b2, box1, box2, s1, s2);
    var vs := Shifted(ps);
    var c1 := Credits(s1.alive, box1, b1.x, vs, Seen(b1, ps));
    var c2 := Credits(s2.alive, box2, b2.x, vs, Seen(b2, ps));
    forall i | 0 <= i < |r.pipes|
      ensures WellFormed(r.pipes[i], b1, b2)
    {
      AddCredits(ps[i].passed, b1, b2, c1, c2, i);
    }
  }

  /** The points a pass gives a bird are the new entries it makes in the
      pipes' lists: each score still counts the pipes listing its bird. */
  lemma PassCountsListings(ps: seq<Pipe>, b1: Bird, b2: Bird, box1: Rect, box2: Rect, s1: Standing, s2: Standing)
    requires b1 != b2 && forall i :: 0 <= i < |ps| ==> WellFormed(ps[i], b1, b2)
    ensures var r := PassSpec(ps, b1, b2, box1, box2, s1, s2);
      CountTrue(Seen(b1, r.pipes)) - r.first.score == CountTrue(Seen(b1, ps)) - s1.score
      && CountTrue(Seen(b2, r.pipes)) - r.second.score == CountTrue(Seen(b2, ps)) - s2.score
  {
    var r := PassSpec(ps, b1, b2, box1, box2, s1, s2);
    PassSpecMeans(ps, b1, b2, box1, box2, s1, s2);
    var vs := Shifted(ps);
    var c1 := Credits(s1.alive, box1, b1.x, vs, Seen(b1, ps));
    var c2 := Credits(s2.alive, box2, b2.x, vs, Seen(b2, ps));
    forall i | 0 <= i < |ps|
      ensures Seen(b1, r.pipes)[i] == (Seen(b1, ps)[i] || c1[i])
      ensures Seen(b2, r.pipes)[i] == (Seen(b2, ps)[i] || c2[i])
    {
      AddCredits(ps[i].passed, b1, b2, c1, c2, i);
    }
    CountTrueMerge(Seen(b1, ps), c1, Seen(b1, r.pipes));
    CountTrueMerge(Seen(b2, ps), c2, Seen(b2, r.pipes));
  }

  /** Appending to a pipe's list only birds it does not list keeps it free of
      repeats, and each bird is then listed iff it was or has just been added. */
  lemma AddCredits(l: seq<Bird>, b1: Bird, b2: Bird, c1: seq<bool>, c2: seq<bool>, i: int)
    requires 0 <= i < |c1| && i < |c2|
    requires b1 != b2 && Distinct(l) && ListsOnly(l, b1, b2)
    requires c1[i] ==> b1 !in l
    requires c2[i] ==> b2 !in l
    ensures var l' := l + Credit(b1, c1, i) + Credit(b2, c2, i);
      Distinct(l') && ListsOnly(l', b1, b2) && (b1 in l' <==> b1 in l || c1[i]) && (b2 in l' <==> b2 in l || c2[i])
  {
    var m := l + Credit(b1, c1, i);
    var l' := m + Credit(b2, c2, i);
    if c1[i] { assert m[|l|] == b1; }
    if c2[i] { assert l'[|m|] == b2; }
  }

  // ---------------------------------------------------------------------------
  // Culling

  /** The pipes still on screen, in their order: those whose right edge is
      right of the screen's left edge. */
  function Cull(ps: seq<Pipe>): (r: seq<Pipe>)
    ensures |r| <= |ps|
  {
    if ps == [] then []
    else
      var last := ps[|ps| - 1];
      Cull(ps[..|ps| - 1]) + (if last.x + last.width > 0 then [last] else [])
  }

  /** Culling treats each pipe on its own and keeps their order. */
  lemma {:induction false} CullAppend(a: seq<Pipe>, b: seq<Pipe>)
    ensures Cull(a + b) == Cull(a) + Cull(b)
  {
    if b == [] {
      assert a + b == a;
    } else {
      assert (a + b)[..|a + b| - 1] == a + b[..|b| - 1];
      CullAppend(a, b[..|b| - 1]);
    }
  }

  lemma SeenSnoc(b: Bird, ps: seq<Pipe>, p: Pipe)
    ensures Seen(b, ps + [p]) == Seen(b, ps) + [b in p.passed]
  {
  }

  /** Culling only drops pipes, so it never raises the number of pipes that
      have credited a bird. */
  lemma {:induction false} CullSeenAtMost(b: Bird, ps: seq<Pipe>)
    ensures CountTrue(Seen(b, Cull(ps))) <= CountTrue(Seen(b, ps))
  {
    if ps != [] {
      var init, last := ps[..|ps| - 1], ps[|ps| - 1];
      assert ps == init + [last];
      var kept := Cull(init);
      CullSeenAtMost(b, init);
      assert Cull(ps) == kept + (if last.x + last.width > 0 then [last] else []) by {
        CullSnoc(init, last);
      }
      assert Seen(b, ps) == Seen(b, init) + [b in last.passed] by {
        SeenSnoc(b, init, last);
      }
      CountTrueAppendOne(Seen(b, init), b in last.passed);
      if last.x + last.width > 0 {
        SeenSnoc(b, kept, last);
        CountTrueAppendOne(Seen(b, kept), b in last.passed);
      } else {
        assert kept + [] == kept;
      }
    }
  }

  /** Culling keeps exactly the pipes still on screen: every kept pipe is a
      pipe of the list whose right edge is right of the screen's left edge,
      and every such pipe is kept. */
  lemma {:induction false} CullKeepsOnScreen(ps: seq<Pipe>)
    ensures forall i :: 0 <= i < |Cull(ps)| ==> Cull(ps)[i] in ps && Cull(ps)[i].x + Cull(ps)[i].width > 0
    ensures forall i :: 0 <= i < |ps| && ps[i].x + ps[i].width > 0 ==> ps[i] in Cull(ps)
  {
    if ps != [] {
      var init, last := ps[..|ps| - 1], ps[|ps| - 1];
      assert ps == init + [last];
      CullKeepsOnScreen(init);
      CullSnoc(init, last);
      forall i | 0 <= i < |ps| && ps[i].x + ps[i].width > 0
        ensures ps[i] in Cull(ps)
      {
        if i < |init| {
          assert ps[i] == init[i];
        }
      }
    }
  }

  /** Culling one more pipe: it is kept iff it is still on screen. */
  lemma CullSnoc(ps: seq<Pipe>, p: Pipe)
    ensures Cull(ps + [p]) == Cull(ps) + (if p.x + p.width > 0 then [p] else [])
  {
    assert (ps + [p])[..|ps|] == ps;
  }

  // ---------------------------------------------------------------------------
  // The end of the game

  /** The winner screen: the strictly higher score wins; equal scores tie. */
  function WinnerOf(score1: int, score2: int): (w: Winner)
    ensures w == Player1 <==> score1 > score2
    ensures w == Player2 <==> score2 > score1
    ensures w == Tie <==> score1 == score2
  {
    if score1 > score2 then Player1
    else if score2 > score1 then Player2
    else Tie
  }

  /** Swapping the players swaps the verdict. */
  lemma WinnerSymmetric(score1: int, score2: int)
    ensures WinnerOf(score2, score1) ==
      match WinnerOf(score1, score2)
      case Player1 => Player2
      case Player2 => Player1
      case Tie => Tie
  {
  }

  // ---------------------------------------------------------------------------
  // The game: the state main's loop keeps between frames

  class Session {
    const bird1: Bird
    const bird2: Bird
    var pipes: seq<Pipe>
    var running: bool
    /** Points earned at pipes that have since been culled. */
    ghost var banked1: nat
    ghost var banked2: nat

    /** Each bird's score is the number of pipes, on screen or already culled,
        that have credited it; a pipe lists each bird at most once. */
    ghost predicate Valid()
      reads this`pipes, this`banked1, this`banked2, bird1`score, bird2`score
    {
      bird1 != bird2
      && (forall i :: 0 <= i < |pipes| ==> WellFormed(pipes[i], bird1, bird2))
      && bird1.score == banked1 + CountTrue(Seen(bird1, pipes))
      && bird2.score == banked2 + CountTrue(Seen(bird2, pipes))
    }

    constructor ()
      ensures Valid() && running && pipes == []
      ensures bird1.x == 50 && bird2.x == 100 && bird1.alive && bird2.alive
      ensures bird1.score == 0 && bird2.score == 0
      ensures bird1.y == (HEIGHT / 2) as real && bird1.velocity == 0.0 && bird1.width == BIRD_SIZE && bird1.height == BIRD_SIZE
      ensures bird2.y == (HEIGHT / 2) as real && bird2.velocity == 0.0 && bird2.width == BIRD_SIZE && bird2.height == BIRD_SIZE
    {
      bird1 := new Bird(50);
      bird2 := new Bird(100);
      pipes := [];
      running := true;
      banked1, banked2 := 0, 0;
    }

    /** A key press: only a living bird jumps. */
    method OnKeyDown(key: Key)
      requires bird1 != bird2
      modifies bird1`velocity, bird2`velocity
      ensures bird1.velocity == (if bird1.alive && key == Space then JUMP_STRENGTH else old(bird1.velocity))
      ensures bird2.velocity == (if bird2.alive && key == KeyW then JUMP_STRENGTH else old(bird2.velocity))
    {
      if bird1.alive && key == Space {
        bird1.Jump();
      }
      if bird2.alive && key == KeyW {
        bird2.Jump();
      }
    }

    /** The spawn timer: a new pipe of the drawn height joins the end of the list. */
    method SpawnPipe(height: int)
      requires Valid() && MIN_PIPE_HEIGHT <= height <= MAX_PIPE_HEIGHT
      modifies this`pipes
      ensures Valid()
      ensures pipes == old(pipes) + [NewPipe(height)]
    {
      SeenSnoc(bird1, pipes, NewPipe(height));
      SeenSnoc(bird2, pipes, NewPipe(height));
      CountTrueAppendOne(Seen(bird1, pipes), false);
      CountTrueAppendOne(Seen(bird2, pipes), false);
      pipes := pipes + [NewPipe(height)];
    }

    /** One turn of the pipe loop, on the i-th pipe of the list. */
    method VisitPipe(i: int, toPixel: real -> int)
      requires bird1 != bird2 && 0 <= i < |pipes|
      modifies this`pipes, bird1`alive, bird1`score, bird2`alive, bird2`score
      ensures var v := Visit(old(pipes[i]), bird1, bird2, bird1.Hitbox(toPixel), bird2.Hitbox(toPixel),
                             Standing(old(bird1.alive), old(bird1.score)), Standing(old(bird2.alive), old(bird2.score)));
        pipes == old(pipes)[i := v.pipes[0]] && Standing(bird1.alive, bird1.score) == v.first && Standing(bird2.alive, bird2.score) == v.second
    {
      var pipe := pipes[i].Moved();
      if bird1.alive && (Overlaps(bird1.Hitbox(toPixel), pipe.TopRect()) || Overlaps(bird1.Hitbox(toPixel), pipe.BottomRect())) {
        bird1.alive := false;
      }
      if bird2.alive && (Overlaps(bird2.Hitbox(toPixel), pipe.TopRect()) || Overlaps(bird2.Hitbox(toPixel), pipe.BottomRect())) {
        bird2.alive := false;
      }
      if bird1.alive && pipe.x + pipe.width < bird1.x && bird1 !in pipe.passed {
        pipe := pipe.(passed := pipe.passed + [bird1]);
        bird1.score := bird1.score + 1;
      }
      if bird2.alive && pipe.x + pipe.width < bird2.x && bird2 !in pipe.passed {
        pipe := pipe.(passed := pipe.passed + [bird2]);
        bird2.score := bird2.score + 1;
      }
      pipes := pipes[i := pipe];
    }

    /** The pipe loop of a frame: each pipe in turn moves, a living bird that
        hits it dies, and a living bird past it that it has not yet credited
        is listed and scores. */
    method PassPipes(toPixel: real -> int)
      requires bird1 != bird2
      modifies this`pipes, bird1`alive, bird1`score, bird2`alive, bird2`score
      ensures var r := PassSpec(old(pipes), bird1, bird2, bird1.Hitbox(toPixel), bird2.Hitbox(toPixel),
                                Standing(old(bird1.alive), old(bird1.score)), Standing(old(bird2.alive), old(bird2.score)));
        pipes == r.pipes && Standing(bird1.alive, bird1.score) == r.first && Standing(bird2.alive, bird2.score) == r.second
    {
      ghost var ps := pipes;
      ghost var box1, box2 := bird1.Hitbox(toPixel), bird2.Hitbox(toPixel);
      ghost var s1, s2 := Standing(bird1.alive, bird1.score), Standing(bird2.alive, bird2.score);
      ghost var r := Pass([], s1, s2);
      for i := 0 to |pipes|
        invariant |pipes| == |ps| && forall j :: i <= j < |ps| ==> pipes[j] == ps[j]
        invariant r == PassSpec(ps[..i], bird1, bird2, box1, box2, s1, s2)
        invariant pipes[..i] == r.pipes && Standing(bird1.alive, bird1.score) == r.first && Standing(bird2.alive, bird2.score) == r.second
      {
        ghost var v := Visit(ps[i], bird1, bird2, box1, box2, r.first, r.second);
        PassSpecStep(ps, i, bird1, bird2, box1, box2, s1, s2);
        VisitPipe(i, toPixel);
        assert pipes[..i + 1] == r.pipes + v.pipes;
        r := Pass(r.pipes + v.pipes, v.first, v.second);
      }
      assert ps[..|ps|] == ps && pipes[..|pipes|] == pipes;
    }

    /** Remove tubes off screen: the pipes whose right edge has gone past the
        left edge of the screen are dropped; the points they gave are kept. */
    method CullPipes()
      requires Valid()
      modifies this`pipes, this`banked1, this`banked2
      ensures Valid()
      ensures pipes == Cull(old(pipes))
    {
      CullKeepsOnScreen(pipes);
      CullSeenAtMost(bird1, pipes);
      CullSeenAtMost(bird2, pipes);
      var kept := Cull(pipes);
      banked1 := banked1 + (CountTrue(Seen(bird1, pipes)) - CountTrue(Seen(bird1, kept)));
      banked2 := banked2 + (CountTrue(Seen(bird2, pipes)) - CountTrue(Seen(bird2, kept)));
      pipes := kept;
    }

    /** The pipe part of a frame: the pipe loop, then the culling of the
        pipes that have left the screen. */
    method UpdatePipes(toPixel: real -> int)
      requires Valid()
      modifies this`pipes, this`banked1, this`banked2, bird1`alive, bird1`score, bird2`alive, bird2`score
      ensures Valid()
      ensures var r := PassSpec(old(pipes), bird1, bird2, bird1.Hitbox(toPixel), bird2.Hitbox(toPixel),
                                Standing(old(bird1.alive), old(bird1.score)), Standing(old(bird2.alive), old(bird2.score)));
        pipes == Cull(r.pipes) && Standing(bird1.alive, bird1.score) == r.first && Standing(bird2.alive, bird2.score) == r.second
    {
      ghost var box1, box2 := bird1.Hitbox(toPixel), bird2.Hitbox(toPixel);
      ghost var s1, s2 := Standing(bird1.alive, bird1.score), Standing(bird2.alive, bird2.score);
      PassKeepsWellFormed(pipes, bird1, bird2, box1, box2, s1, s2);
      PassCountsListings(pipes, bird1, bird2, box1, box2, s1, s2);
      PassPipes(toPixel);
      CullPipes();
    }

    /** The living birds fall; a dead bird stays where it is. */
    method MoveBirds()
      requires bird1 != bird2
      modifies bird1`y, bird1`velocity, bird2`y, bird2`velocity
      ensures bird1.Flight() == (if bird1.alive then Fall(old(bird1.Flight())) else old(bird1.Flight()))
      ensures bird2.Flight() == (if bird2.alive then Fall(old(bird2.Flight())) else old(bird2.Flight()))
    {
      if bird1.alive {
        bird1.Move();
      }
      if bird2.alive {
        bird2.Move();
      }
    }

    /** The end of a frame: birds below the floor die, and the game stops
        once both birds are dead. */
    method EndOfFrame()
      requires bird1 != bird2
      modifies bird1`alive, bird2`alive, this`running
      ensures bird1.alive == (old(bird1.alive) && bird1.y <= (HEIGHT - bird1.height) as real)
      ensures bird2.alive == (old(bird2.alive) && bird2.y <= (HEIGHT - bird2.height) as real)
      ensures running == (old(running) && (bird1.alive || bird2.alive))
    {
      HitGround();
      running := running && (bird1.alive || bird2.alive);
    }

    /** A living bird below the floor line dies. */
    method HitGround()
      requires bird1 != bird2
      modifies bird1`alive, bird2`alive
      ensures bird1.alive == (old(bird1.alive) && bird1.y <= (HEIGHT - bird1.height) as real)
      ensures bird2.alive == (old(bird2.alive) && bird2.y <= (HEIGHT - bird2.height) as real)
    {
      if bird1.alive && bird1.y > (HEIGHT - bird1.height) as real {
        bird1.alive := false;
      }
      if bird2.alive && bird2.y > (HEIGHT - bird2.height) as real {
        bird2.alive := false;
      }
    }

    /** The rest of one frame after its events: the living birds fall, the
        pipe loop runs, the pipes off screen are dropped, birds below the floor
        die, and the game ends once both birds are dead. */
    method Tick(toPixel: real -> int)
      requires Valid()
      modifies bird1`y, bird1`velocity, bird1`alive, bird1`score
      modifies bird2`y, bird2`velocity, bird2`alive, bird2`score
      modifies this`pipes, this`running, this`banked1, this`banked2
      ensures Valid()
      ensures bird1.Flight() == (if old(bird1.alive) then Fall(old(bird1.Flight())) else old(bird1.Flight()))
      ensures bird2.Flight() == (if old(bird2.alive) then Fall(old(bird2.Flight())) else old(bird2.Flight()))
      ensures var r := PassSpec(old(pipes), bird1, bird2, bird1.Hitbox(toPixel), bird2.Hitbox(toPixel),
                                Standing(old(bird1.alive), old(bird1.score)), Standing(old(bird2.alive), old(bird2.score)));
        pipes == Cull(r.pipes)
        && bird1.score == r.first.score && bird2.score == r.second.score
        && bird1.alive == (r.first.alive && bird1.y <= (HEIGHT - bird1.height) as real)
        && bird2.alive == (r.second.alive && bird2.y <= (HEIGHT - bird2.height) as real)
      ensures running == (old(running) && (bird1.alive || bird2.alive))
    {
      MoveBirds();
      UpdatePipes(toPixel);
      EndOfFrame();
    }
  }
}
