# Teste_jogos game rules in Dafny

This project models the game rules of three small pygame prototypes from the
`Teste_flap` directory of the Teste_jogos repository.

- **Fight** (`fight.dfy`, from `Game.py`) is a two-player platform shooter.
  - A `Player` is a class. It holds a 40 x 60 rectangle, a vertical velocity,
    an on-ground flag, its health and its list of bullets.
  - `Move` takes one horizontal step per held arrow. A step that would
    overlap a block is rejected whole: x goes back to where it was. Then the
    player is clamped to the screen, and the player jumps only when on the
    ground.
  - `ApplyGravity` adds gravity to the velocity and then moves the player.
    It resolves the result against the first block, in list order, that the
    player overlaps, and finally clamps the player to the screen floor.
  - `UpdateBullets` moves every bullet. A bullet that strikes the other
    player is removed and its damage is taken from that player's health.
    The other bullets are kept in order, unless they hit a block or leave
    the screen.
  - `Session` is the state kept by the main loop: the two players, the
    scenario's blocks and the four last-shot times. Its shots are gated by a
    cooldown. The result screen's rule is `RoundOutcome`.
- **FlappyDuo** (`flappy_duo.dfy`, from `flappy2.py`) is a two-bird flappy game.
  - Birds are class objects that fall, with a clamp at the top of the screen.
    They die for good on hitting a pipe or going below the floor line.
  - Each pipe keeps the list of birds it has credited, so a bird scores at
    most once per pipe.
  - The game stops once both birds are dead. The winner is the bird with the
    strictly higher score.
  - `Records` (`records.dfy`) models the two-integer record text format:
    what `save_records` writes and what `load_records` reads back.
- **Flappy** (`flappy.py`, modelled in `flappy.dfy`) is the one-bird game.
  - There is no clamp, and a `passed` flag sets itself once per pipe.
  - The game ends at the first pipe hit, or when the bird leaves the screen
    vertically.

Shared pieces:

- `Geometry` (`geometry.dfy`) holds pygame's integer rectangle and
  `colliderect`, taken as strict overlap: touching edges do not collide.
- `Tally` (`tally.dfy`) counts set flags.

`flappy.py` and `flappy2.py` each define their own bird, pipe and culling
code, so `Flappy` and `FlappyDuo` each have their own copy too. Members such as
`Cull` and `CullAppend` look alike in both modules because the two source
files do.

Modelling choices:

- Velocities and the birds' y are `real`. Gravity values 0.5 and 0.3 are
  exact as reals.
- pygame's conversion of a real coordinate to a pixel is a parameter
  `toPixel`. No property depends on how it rounds.
- The random pipe height is a parameter. It is required to lie in the range
  `random.randint` draws from.
- The clock is a parameter `now`. Key presses are values: `Key`, `Event`,
  and `Intent` for the keys held in a frame.

How the main proofs are built:

- Each pipe loop is proved against a specification function.
- For the two-bird game, the loop's function `PassSpec` is shown equal to a
  closed form (`PassSpecMeans`). From that follow:
  - birds listed at most once per pipe;
  - scores equal to the credited pipes, on screen or culled (the `Valid`
    invariant);
  - no points after a hit;
  - permanent death.
- For the fighting game's bullets, the method is proved against
  `Survivors`/`DamageDealt`. `BulletFate` then pins each bullet's fate.

## Model

| member | source | states |
|---|---|---|
| Geometry.Overlaps | Teste_flap/Game.py:84 | two boxes of positive size collide iff the top-left pixel of the region where their extents meet lies in both |
| Geometry.SharedPixel | Teste_flap/Game.py:84 | boxes that share a pixel collide, and two boxes of positive size collide only if they share a pixel |
| Geometry.OverlapsSymmetric | Teste_flap/Game.py:84 | colliderect does not depend on the order of the two rectangles |
| Geometry.OverlapsItself | Teste_flap/Game.py:84 | a rectangle collides with itself iff it has positive width and height |
| Geometry.SeparatedDoNotOverlap | Teste_flap/Game.py:84 | rectangles that only touch along an edge, or are apart, do not collide |
| Fight.StepX | Teste_flap/Game.py:44-54 | the step moves x by at most PLAYER_SPEED and a new x never overlaps a block; left alone moves PLAYER_SPEED left and right alone PLAYER_SPEED right unless that overlaps a block, in which case x returns to its value on entry, not to the block's edge; with both arrows x stays unless the left step was blocked, and then the right step is taken or reverted; with no arrow x stays |
| Fight.Scenario | Teste_flap/Game.py:175-183 | seven blocks, the first a floor strip spanning the full width at the bottom; every block has positive size and lies on screen |
| Fight.ClampX | Teste_flap/Game.py:57-60 | after the clamp the rectangle lies inside [0, WIDTH]; one already inside is not moved; one past the left edge goes to x = 0 and one past the right edge to x = WIDTH - w |
| Fight.AfterMove | Teste_flap/Game.py:42-64 | a move changes only x and keeps the player on screen; a jump happens iff jump is held and the player is on the ground, setting JUMP_STRENGTH and clearing on_ground; otherwise velocity and on_ground are unchanged |
| Fight.FirstOverlap | Teste_flap/Game.py:89-90 | the index of the first block in list order that overlaps, with no overlap before it; it is the list's length iff no block overlaps |
| Fight.Fall | Teste_flap/Game.py:66-71 | velocity gains GRAVITY, then the rectangle's y becomes the pixel of y plus the new velocity; nothing else changes |
| Fight.ResolveVertical | Teste_flap/Game.py:88-108 | only y changes; falling onto the first overlapping block puts the bottom on its top, zeroes velocity and sets on_ground; rising into it puts the top on its bottom and zeroes velocity; with zero velocity the scan goes on; on_ground is set only on a landing; when no block resolved it is cleared iff velocity >= 0 and bottom < HEIGHT, and otherwise left as it was |
| Fight.ResolveIgnoresLaterBlocks | Teste_flap/Game.py:89-104 | blocks after the first one a moving player overlaps do not affect the resolution |
| Fight.FloorClamp | Teste_flap/Game.py:77-80 | afterwards bottom <= HEIGHT; a player that reached the floor stands on it with zero velocity; one above the floor is untouched |
| Fight.AfterGravity | Teste_flap/Game.py:66-80 | only y changes and bottom <= HEIGHT afterwards; reaching the floor sets on_ground with zero velocity; the new velocity is the old one plus GRAVITY or zero; a fall that meets no block and stays above the floor is exactly Fall, with on_ground kept only while rising |
| Fight.Projectile | Teste_flap/Game.py:110-118 | the bullet starts at the shooter's centre; its direction is +1 iff the shooter is BLUE, else -1; a plain shot is 10x5 at speed 10 with damage 10, a super shot 50x25 at speed 15 with damage 45 |
| Fight.Advanced | Teste_flap/Game.py:128 | a bullet moves speed x direction pixels along x; nothing else about it changes |
| Fight.Survivors | Teste_flap/Game.py:125-146 | no more bullets are kept than given, and every kept bullet lies within [0, WIDTH] and overlaps neither the target nor any block |
| Fight.DamageDealt | Teste_flap/Game.py:131-132 | the damage taken is never negative when the bullets' damages are not |
| Fight.SurvivorsAppend | Teste_flap/Game.py:126-146 | filtering keeps the list's order: the survivors of a concatenation are the survivors of its parts, in order |
| Fight.DamageAppend | Teste_flap/Game.py:127-133 | the damage of a list is the sum of the damages of its parts |
| Fight.BulletFate | Teste_flap/Game.py:127-144 | each bullet, on its own, either is kept or strikes and adds exactly its damage; a striking bullet is never kept |
| Fight.RoundOutcome | Teste_flap/Game.py:261-266 | a draw iff both healths are <= 0; red wins iff only player 1's health is <= 0; blue wins iff player 1's health is positive |
| Fight.OutcomeNamesSurvivor | Teste_flap/Game.py:254-266 | when the round ended on health, the announced winner is exactly the player with health left |
| Fight.Player.constructor | Teste_flap/Game.py:33-40 | a new player has a 40x60 rectangle at the given point, zero velocity, not on ground, 100 health and no bullets |
| Fight.Player.CheckCollisionHorizontal | Teste_flap/Game.py:82-86 | the scan returns true iff some block overlaps the player |
| Fight.Player.Move | Teste_flap/Game.py:42-64 | the player's new physics state is AfterMove of the old one |
| Fight.Player.CheckCollisionVertical | Teste_flap/Game.py:88-108 | the scan's new physics state is ResolveVertical of the old one |
| Fight.Player.ApplyGravity | Teste_flap/Game.py:66-80 | the new physics state is AfterGravity of the old one |
| Fight.Player.Shoot | Teste_flap/Game.py:110-113 | exactly one plain Projectile is appended; earlier bullets are unchanged |
| Fight.Player.SuperShoot | Teste_flap/Game.py:115-118 | exactly one super Projectile is appended; earlier bullets are unchanged |
| Fight.Player.UpdateBullets | Teste_flap/Game.py:125-146 | the bullet list becomes Survivors of the old list and the other player's health drops by exactly DamageDealt |
| Fight.ScanBlocks | Teste_flap/Game.py:136-140 | the block scan of a bullet returns true iff the bullet overlaps some block |
| Fight.Fire | Teste_flap/Game.py:197-213 | a shot is added and the last-shot time set to now iff now - last > cooldown; otherwise nothing changes |
| Fight.Session.constructor | Teste_flap/Game.py:164-183 | the players start at (50, HEIGHT-100) blue and (WIDTH-90, HEIGHT-100) red, still and not on ground, with full health and no bullets; the blocks are the scenario; the last-shot times are 0; running |
| Fight.Session.HandleEvent | Teste_flap/Game.py:192-213 | quitting clears running; each shot key fires through its own cooldown and updates only its own last-shot time |
| Fight.Session.StepPlayers | Teste_flap/Game.py:215-220 | both players move then fall: each player's physics becomes AfterGravity of AfterMove, and each stays inside the screen and above the floor |
| Fight.Session.ExchangeFire | Teste_flap/Game.py:222-223 | each player's bullets become Survivors against the other, and each health drops by exactly the other's DamageDealt |
| Fight.Session.Tick | Teste_flap/Game.py:215-255 | both players move then fall, each player's bullets are updated against the other, healths drop by the damage dealt, both stay on screen, and running stays true iff both healths are positive |
| FlappyDuo.Fall | Teste_flap/flappy2.py:41-47 | velocity gains GRAVITY, then y gains the velocity; a bird carried above the top is put at y = 0 with zero velocity, so y >= 0 always |
| FlappyDuo.Bird.constructor | Teste_flap/flappy2.py:28-36 | a bird starts at the given x, mid-height, still, 30x30, alive with score 0 |
| FlappyDuo.Bird.Jump | Teste_flap/flappy2.py:38-39 | the velocity becomes JUMP_STRENGTH |
| FlappyDuo.Bird.Move | Teste_flap/flappy2.py:41-47 | the bird's motion becomes Fall of the old motion, so y >= 0 |
| FlappyDuo.Bird.Hitbox | Teste_flap/flappy2.py:52-53 | the hitbox is the bird's width and height, at its x, with its top at the pixel row of y |
| FlappyDuo.Pipe.Moved | Teste_flap/flappy2.py:62-63 | x drops by exactly PIPE_SPEED and nothing else changes |
| FlappyDuo.NewPipe | Teste_flap/flappy2.py:56-60 | a new pipe is at x = WIDTH with the drawn height, PIPE_WIDTH wide, with no bird listed |
| FlappyDuo.Pipe.TopRect | Teste_flap/flappy2.py:71-72 | the top rect spans the pipe's columns from the top of the screen down to its height |
| FlappyDuo.Pipe.BottomRect | Teste_flap/flappy2.py:74-77 | the bottom rect spans the pipe's columns from PIPE_GAP below the top rect down to the bottom of the screen |
| FlappyDuo.PipeShape | Teste_flap/flappy2.py:71-77 | top and bottom rects share x and width; the top spans [0, height), the bottom starts PIPE_GAP below it and ends at HEIGHT; both are at least 50 tall |
| FlappyDuo.GapIsClear | Teste_flap/flappy2.py:71-77 | a box vertically inside the gap hits neither rect |
| FlappyDuo.OutsideGapHits | Teste_flap/flappy2.py:71-77 | an on-screen box level with the pipe that reaches above or below the gap hits it |
| FlappyDuo.Credits | Teste_flap/flappy2.py:127-135 | a pipe credits a bird only when the bird is alive, the pipe's right edge is left of the bird and the pipe has not listed it |
| FlappyDuo.NoCreditAfterHit | Teste_flap/flappy2.py:120-135 | once a bird hits a pipe, no later pipe of the same loop credits it |
| FlappyDuo.VisitMeans | Teste_flap/flappy2.py:116-135 | one loop turn: the pipe moves; each bird lives iff it lived and misses it; it scores and is appended iff it still lives, is past the pipe and was not listed |
| FlappyDuo.PassSpecMeans | Teste_flap/flappy2.py:116-135 | the whole loop: each bird lives iff it lived and hit no moved pipe, gains one point per crediting pipe, and each pipe lists, after its old entries, the birds it credited |
| FlappyDuo.DeathIsPermanent | Teste_flap/flappy2.py:121-135 | a bird ends the loop alive iff it began alive and hit nothing; a dead bird scores nothing |
| FlappyDuo.PassKeepsWellFormed | Teste_flap/flappy2.py:127-135 | after the loop each pipe still lists only the two birds, each at most once, and keeps its shape |
| FlappyDuo.PassCountsListings | Teste_flap/flappy2.py:127-135 | the points a bird gains in the loop equal the number of pipes that newly list it |
| FlappyDuo.AddCredits | Teste_flap/flappy2.py:129-134 | appending a bird a pipe does not list keeps the list free of repeats and lists the bird afterwards |
| FlappyDuo.CullKeepsOnScreen | Teste_flap/flappy2.py:138 | exactly the pipes with x + width > 0 are kept: every kept pipe is one of the list and on screen, and every pipe on screen is kept |
| FlappyDuo.Cull | Teste_flap/flappy2.py:138 | culling never adds pipes |
| FlappyDuo.CullAppend | Teste_flap/flappy2.py:138 | culling keeps the pipes' order |
| FlappyDuo.CullSeenAtMost | Teste_flap/flappy2.py:138 | culling never raises the number of on-screen pipes that list a bird |
| FlappyDuo.WinnerOf | Teste_flap/flappy2.py:164-169 | player 1 wins iff its score is strictly higher, player 2 iff its is, a tie iff they are equal |
| FlappyDuo.WinnerSymmetric | Teste_flap/flappy2.py:164-169 | swapping the scores swaps the winner |
| FlappyDuo.Session.constructor | Teste_flap/flappy2.py:80-83 | birds at x 50 and 100, both mid-height, still, 30x30, alive, scores 0; no pipes; running |
| FlappyDuo.Session.OnKeyDown | Teste_flap/flappy2.py:98-102 | space makes bird 1 jump and W makes bird 2 jump, each only when alive |
| FlappyDuo.Session.SpawnPipe | Teste_flap/flappy2.py:104-105 | a NewPipe is appended and the score invariant holds |
| FlappyDuo.Session.VisitPipe | Teste_flap/flappy2.py:117-135 | the i-th pipe and the birds' standings become one Visit turn |
| FlappyDuo.Session.PassPipes | Teste_flap/flappy2.py:116-135 | the pipes and both birds' alive flags and scores become PassSpec of the old state |
| FlappyDuo.Session.CullPipes | Teste_flap/flappy2.py:138 | pipes become Cull of the old pipes; each score still counts every pipe that credited the bird |
| FlappyDuo.Session.UpdatePipes | Teste_flap/flappy2.py:116-138 | the loop then the cull; the scores invariant and the listing invariant are kept |
| FlappyDuo.Session.MoveBirds | Teste_flap/flappy2.py:108-113 | a living bird falls by Fall; a dead one does not move |
| FlappyDuo.Session.HitGround | Teste_flap/flappy2.py:141-144 | a bird is alive afterwards iff it was alive and y <= HEIGHT - height |
| FlappyDuo.Session.EndOfFrame | Teste_flap/flappy2.py:141-156 | floor deaths, then running stays true iff a bird is still alive |
| FlappyDuo.Session.Tick | Teste_flap/flappy2.py:107-156 | one frame: living birds fall, the pipe loop and cull as PassSpec/Cull, floor deaths, running iff a bird lives, scores equal to credited pipes |
| Records.NatToString | Teste_flap/flappy2.py:194 | str of a natural number is a nonempty string of decimal digits |
| Records.IntToString | Teste_flap/flappy2.py:194 | str of an integer starts with '-' iff it is negative, and is digits after that |
| Records.ReadLinesJoin | Teste_flap/flappy2.py:184 | the lines readlines returns, joined back together, are exactly the text |
| Records.ReadLinesShape | Teste_flap/flappy2.py:184 | every line is nonempty and holds a newline only at its end, and every line but the last ends with one |
| Records.Strip | Teste_flap/flappy2.py:185-186 | the result neither starts nor ends with whitespace; a string with none at its ends is unchanged; an all-whitespace string becomes empty |
| Records.ParseIntMeans | Teste_flap/flappy2.py:185-186 | a string int() accepts is an optional sign followed by digits only; a negative value comes from a leading minus; a digit string and a minus followed by digits read as their decimal value |
| Records.SaveRecords | Teste_flap/flappy2.py:192-194 | the saved text ends with a newline and holds exactly two newlines |
| Records.LoadRecords | Teste_flap/flappy2.py:181-190 | no file, fewer than two lines, or a first line that is not an integer load as (0, 0) |
| Records.ParseIntToString | Teste_flap/flappy2.py:185-186 | int() reads back what str() wrote, for every integer |
| Records.StripLine | Teste_flap/flappy2.py:185-186 | strip() removes just the newline from a written line |
| Records.ReadLinesCons | Teste_flap/flappy2.py:184 | readlines cuts the text right after its first newline |
| Records.SavedLines | Teste_flap/flappy2.py:184-194 | the saved text reads back as exactly two lines, one per record |
| Records.TwoLines | Teste_flap/flappy2.py:184 | two newline-free strings, each followed by a newline, read back as exactly those two lines |
| Records.LoadSaved | Teste_flap/flappy2.py:181-194 | loading what was saved gives back the same pair of records |
| Records.LoadIgnoresRest | Teste_flap/flappy2.py:184-187 | text after the first two lines does not change what is loaded |
| Records.ShortFileLoadsZero | Teste_flap/flappy2.py:184-190 | a text without a newline is one line and loads as (0, 0) |
| Flappy.Drift | Teste_flap/flappy.py:42-44 | velocity gains GRAVITY, then y gains the new velocity, with no clamp |
| Flappy.DriftFrames | Teste_flap/flappy.py:42-44 | after k frames without a jump the velocity has gained k times GRAVITY and y has gained k times the starting velocity plus GRAVITY times 1 + 2 + ... + k |
| Flappy.Bird.constructor | Teste_flap/flappy.py:32-37 | the bird starts at x 50, mid-height, still, 30x30 |
| Flappy.Bird.Jump | Teste_flap/flappy.py:39-40 | the velocity becomes JUMP_STRENGTH and nothing else changes |
| Flappy.Bird.Move | Teste_flap/flappy.py:42-44 | the bird's motion becomes Drift of the old motion |
| Flappy.Bird.Hitbox | Teste_flap/flappy.py:49-50 | the hitbox is the bird's width and height, at its x, with its top at the pixel row of y |
| Flappy.Bird.OutOfBounds | Teste_flap/flappy.py:126 | the bird is in bounds iff it lies wholly between the top of the screen and the bottom edge |
| Flappy.Pipe.Moved | Teste_flap/flappy.py:60-61 | x drops by exactly PIPE_SPEED and nothing else changes |
| Flappy.NewPipe | Teste_flap/flappy.py:54-58 | a new pipe is at x = WIDTH with the drawn height, PIPE_WIDTH wide, not passed |
| Flappy.Pipe.TopRect | Teste_flap/flappy.py:71-72 | the top rect spans the pipe's columns from the top of the screen down to its height |
| Flappy.Pipe.BottomRect | Teste_flap/flappy.py:74-77 | the bottom rect spans the pipe's columns from PIPE_GAP below the top rect down to the bottom of the screen |
| Flappy.PipeShape | Teste_flap/flappy.py:71-77 | top and bottom rects share x and width; the gap is exactly PIPE_GAP; the bottom rect ends at HEIGHT; both are at least 50 tall |
| Flappy.GapIsClear | Teste_flap/flappy.py:71-77 | a box vertically inside the gap hits neither rect |
| Flappy.Scored | Teste_flap/flappy.py:118 | a pipe scores in a loop iff it was not passed and its moved right edge is left of the bird |
| Flappy.Advanced | Teste_flap/flappy.py:109-120 | every pipe moves PIPE_SPEED left keeping its height and width; its flag is set afterwards iff it was set before or the bird scores at it |
| Flappy.AdvancedFlags | Teste_flap/flappy.py:118-120 | a set flag stays set, and the loop raises the number of set flags by exactly the number of pipes that score |
| Flappy.NoSecondCredit | Teste_flap/flappy.py:118-120 | a pipe that scores in one loop cannot score in the next |
| Flappy.CullKeepsOnScreen | Teste_flap/flappy.py:123 | exactly the pipes with x + width > 0 are kept: every kept pipe is one of the list and on screen, and every pipe on screen is kept |
| Flappy.Cull | Teste_flap/flappy.py:123 | culling never adds pipes |
| Flappy.CullAppend | Teste_flap/flappy.py:123 | culling keeps the pipes' order |
| Flappy.CullFlagsAtMost | Teste_flap/flappy.py:123 | culling never raises the number of set flags on screen |
| Flappy.Session.constructor | Teste_flap/flappy.py:80-88 | a fresh bird at x 50, mid-height, still, 30x30; no pipes; score 0; running |
| Flappy.Session.OnKeyDown | Teste_flap/flappy.py:98-101 | space makes the bird jump; other keys change nothing |
| Flappy.Session.SpawnPipe | Teste_flap/flappy.py:102-103 | a NewPipe is appended and the score invariant holds |
| Flappy.Session.PassPipes | Teste_flap/flappy.py:109-120 | the pipes become Advanced; running is cleared iff the bird hits a moved pipe; the score rises by the number of pipes that score |
| Flappy.Session.CullPipes | Teste_flap/flappy.py:123 | pipes become Cull of the old pipes; the score still counts every flagged pipe |
| Flappy.Session.Tick | Teste_flap/flappy.py:105-127 | one frame: the bird drifts, the pipes advance and are culled, the score rises by the pipes that score, and running stays true iff the bird hit no pipe and is within [0, HEIGHT - height] |

## Left out

- Drawing, fonts, text, window setup and display updates are not modelled. They are output only.
- Event polling, key-code maps, `clock.tick`, `set_timer` and `time.wait` are not modelled. Events, held keys and the current time are parameters instead.
- The quit event of the two flappy games is not modelled. It calls `pygame.quit()` and `sys.exit()`, which end the process.
- The "press any key" wait after the fighting game's result screen is not modelled.
- The random pipe height is a parameter. The model requires it to lie in randint's range.
- The pixel coordinate pygame derives from a real y, or from a real velocity added to a Rect, is an abstract `toPixel`. No claim is made about its rounding or about exact float trajectories.
- File access in `load_records` and `save_records` is left out. A missing or unreadable file is `None`.
- `load_records` and `save_records` are defined after the main guard and never called, so only their text format is modelled.
- Records.ParseInt accepts only an optional sign and ASCII digits. It does not accept Python int()'s underscores or non-ASCII digits.
- Records.Strip removes only ASCII whitespace, including U+001C to U+001F. It does not remove non-ASCII whitespace such as U+0085 or U+00A0.
- Records.ReadLines does not model universal-newline translation. A "\r\n" ending loads the same either way, because strip removes the "\r". A lone "\r" does not: "5\r7\r" loads as (5, 7) in Python and as (0, 0) in the model.
- Records.LoadRecords: its contract names the failure cases, and `LoadSaved` and `LoadIgnoresRest` give the success case. A failure on the second line alone is in its body but not stated in its ensures.
- The cooldown display (`Game.py` lines 240-248) is not modelled. It is text formatting.
- Bird and block colours are not modelled. Player and bullet colours are carried, BLACK for a plain shot and RED for a super shot, but only the BLUE test that fixes a bullet's direction affects a rule.
- The single-player game's console message on a jump is not modelled.
- Pipes are values in a sequence that the session reassigns. In-place mutation of shared pipe objects and aliasing between them are not modelled. No pipe is reachable from two places in these games.
- The fighting game's global `blocks` list is an explicit sequence fixed by the session.
- The order in which drawing and logic interleave within a frame is not modelled. Drawing changes no state.
