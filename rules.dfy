/** One frame of the game, `update()`, as a function of the game's state:
    movement, landing, coin pickup, enemy patrol, enemy contact, falling off
    the screen and the win condition, in that order. */
module Rules {
  import opened Geometry
  import opened Physics
  import opened Items
  import opened Level

  /** Where the player reappears after losing a life. */
  const RespawnX: real := 100.0
  const RespawnY: real := 400.0

  /** Stomping an enemy: its score, the bounce it gives the player, and how
      far the player's bottom may reach into the enemy and still count. */
  const StompValue: int := 200
  const StompBounce: real := -8.0
  const StompTolerance: real := 10.0

  /** Bonus for clearing a round (all coins and all enemies). */
  const WinBonus: int := 1000

  const StartLives: int := 3

  /** Everything one frame reads and writes. */
  datatype World = World(
    player: PlayerState,
    coins: seq<Coin>,
    enemies: seq<Enemy>,
    score: int,
    lives: int,
    gameOver: bool)

  /** The state a game starts in, and the state a reset goes back to. */
  const InitialWorld: World := World(InitialPlayer, InitialCoins, InitialEnemies, 0, StartLives, false)

  /** The held-key test for moving left (ArrowLeft or `a`). */
  predicate LeftHeld(keys: set<string>)
  {
    "ArrowLeft" in keys || "a" in keys
  }

  /** The held-key test for moving right (ArrowRight or `d`). */
  predicate RightHeld(keys: set<string>)
  {
    "ArrowRight" in keys || "d" in keys
  }

  /** Horizontal movement, gravity and the platform pass. */
  function Movement(w: World, keys: set<string>): World
  {
    var p := MoveHorizontal(w.player, LeftHeld(keys), RightHeld(keys));
    w.(player := Land(ApplyGravity(p), Platforms))
  }

  /** Coin collection: coins the player touches are collected, 100 points each. */
  function CoinCollection(w: World): World
  {
    var box := w.player.Box();
    w.(coins := CollectAll(w.coins, box), score := w.score + CoinValue * Pickups(w.coins, box))
  }

  /** Enemy movement: every enemy takes one patrol step. */
  function EnemyMovement(w: World): World
  {
    w.(enemies := PatrolAll(w.enemies))
  }

  /** The player lost a life: it reappears at the respawn point at rest
      vertically, and the game is over once no life is left. */
  function LoseLife(w: World): World
  {
    var lives := w.lives - 1;
    w.(lives := lives,
       player := w.player.(x := RespawnX, y := RespawnY, velocityY := 0.0),
       gameOver := if lives <= 0 then true else w.gameOver)
  }

  /** The stomp test: the player is falling and its bottom, less the
      tolerance, is above the enemy's top. */
  predicate Stomps(p: PlayerState, e: Enemy)
  {
    p.velocityY > 0.0 && p.y + PlayerHeight - StompTolerance < e.box.y
  }

  /** One call of the enemy-collision `filter` callback, with the enemies
      kept so far in w.enemies. Exactly one outcome: no contact keeps the
      enemy and changes nothing else; a stomp drops the enemy, scores 200 and
      bounces the player, without costing a life; any other contact keeps the
      enemy and costs exactly one life. */
  function Contact(w: World, e: Enemy): (r: World)
    ensures r.coins == w.coins
    ensures r.enemies == w.enemies <==> Overlaps(w.player.Box(), e.box) && Stomps(w.player, e)
    ensures r.enemies != w.enemies ==> r.enemies == w.enemies + [e]
    ensures !Overlaps(w.player.Box(), e.box) ==> r == w.(enemies := w.enemies + [e])
    ensures r.enemies == w.enemies ==>
              r.score == w.score + StompValue && r.lives == w.lives &&
              r.gameOver == w.gameOver &&
              r.player == w.player.(velocityY := StompBounce)
    ensures r.lives < w.lives <==> Overlaps(w.player.Box(), e.box) && !Stomps(w.player, e)
    ensures r.lives < w.lives ==>
              r.lives == w.lives - 1 && r.score == w.score &&
              r.player == w.player.(x := RespawnX, y := RespawnY, velocityY := 0.0) &&
              (r.gameOver <==> w.gameOver || r.lives <= 0)
  {
    if Overlaps(w.player.Box(), e.box) then
      if Stomps(w.player, e) then
        w.(score := w.score + StompValue, player := w.player.(velocityY := StompBounce))
      else
        LoseLife(w).(enemies := w.enemies + [e])
    else
      w.(enemies := w.enemies + [e])
  }

  /** The `filter` over es, in order, appending the kept enemies to w.enemies. */
  function ContactAll(w: World, es: seq<Enemy>): World
    decreases |es|
  {
    if es == [] then w else Contact(ContactAll(w, es[..|es| - 1]), es[|es| - 1])
  }

  /** Enemy collision: the enemy list becomes the enemies the filter keeps. */
  function EnemyCollision(w: World): World
  {
    ContactAll(w.(enemies := []), w.enemies)
  }

  /** Fall off screen: below the world's bottom costs exactly one life and
      respawns the player, as a hit does; otherwise nothing changes. */
  function FallOffScreen(w: World): (r: World)
    ensures w.player.y > WorldHeight ==>
              r.lives == w.lives - 1 &&
              r.player == w.player.(x := RespawnX, y := RespawnY, velocityY := 0.0) &&
              r.score == w.score && r.coins == w.coins && r.enemies == w.enemies &&
              (r.gameOver <==> w.gameOver || r.lives <= 0)
    ensures w.player.y <= WorldHeight ==> r == w
  {
    if w.player.y > WorldHeight then LoseLife(w) else w
  }

  /** Win condition: with every coin collected and no enemy left, the round
      restarts with a bonus. */
  function WinCondition(w: World): (r: World)
    ensures AllCollected(w.coins) && w.enemies == [] ==>
              r == w.(score := w.score + WinBonus, coins := Respawn(w.coins), enemies := InitialEnemies)
    ensures !(AllCollected(w.coins) && w.enemies == []) ==> r == w
  {
    if AllCollected(w.coins) && w.enemies == [] then
      w.(score := w.score + WinBonus, coins := Respawn(w.coins), enemies := InitialEnemies)
    else
      w
  }

  /** Everything in `update()` before the win condition. */
  function BeforeWin(w: World, keys: set<string>): World
  {
    FallOffScreen(EnemyCollision(EnemyMovement(CoinCollection(Movement(w, keys)))))
  }

  /** One frame: `update()` with the keys held at its start. */
  function Step(w: World, keys: set<string>): World
  {
    WinCondition(BeforeWin(w, keys))
  }

  /** xs is an order-preserving subsequence of ys. */
  ghost predicate IsSubsequence<T>(xs: seq<T>, ys: seq<T>)
    decreases |ys|
  {
    xs == [] ||
    (ys != [] &&
     (IsSubsequence(xs, ys[..|ys| - 1]) ||
      (xs[|xs| - 1] == ys[|ys| - 1] && IsSubsequence(xs[..|xs| - 1], ys[..|ys| - 1]))))
  }

  /** The filter pass: the enemies it keeps are an order-preserving
      subsequence of those it was given, each removed enemy was worth 200
      points, at most one life is lost per enemy, the player stays in the
      world, and the game is over exactly when no life is left. */
  lemma {:induction false} ContactAllFacts(w: World, es: seq<Enemy>)
    ensures var r := ContactAll(w, es);
      r.coins == w.coins &&
      |w.enemies| <= |r.enemies| <= |w.enemies| + |es| &&
      r.enemies[..|w.enemies|] == w.enemies &&
      IsSubsequence(r.enemies[|w.enemies|..], es) &&
      (forall e :: e in r.enemies ==> e in w.enemies || e in es) &&
      r.score == w.score + StompValue * (|w.enemies| + |es| - |r.enemies|) &&
      w.lives - |es| <= r.lives <= w.lives &&
      ((w.gameOver <==> w.lives <= 0) ==> (r.gameOver <==> r.lives <= 0)) &&
      (InWorld(w.player) ==> InWorld(r.player)) &&
      r.player.velocityX == w.player.velocityX &&
      r.player.jumping == w.player.jumping &&
      r.player.grounded == w.player.grounded
    decreases |es|
  {
    if es != [] {
      var n := |es| - 1;
      var e := es[n];
      var prev := ContactAll(w, es[..n]);
      ContactAllFacts(w, es[..n]);
      var m := |w.enemies|;
      assert es[..n] + [e] == es;
      var r := Contact(prev, e);
      if r.enemies == prev.enemies {
        assert IsSubsequence(r.enemies[m..], es) by {
          assert es[..|es| - 1] == es[..n];
        }
      } else {
        assert r.enemies[m..] == prev.enemies[m..] + [e];
        assert r.enemies[..m] == prev.enemies[..m];
        assert IsSubsequence(r.enemies[m..], es) by {
          var xs := r.enemies[m..];
          assert xs[..|xs| - 1] == prev.enemies[m..];
          assert es[..|es| - 1] == es[..n];
        }
      }
    }
  }

  /** The game's invariant: the player stays within the world's width, the
      coins keep their number and places, every enemy stays inside its patrol
      range, the score is not negative and the game is over exactly when no
      life is left. */
  ghost predicate Invariant(w: World)
  {
    InWorld(w.player) &&
    |w.coins| == |InitialCoins| &&
    (forall i :: 0 <= i < |w.coins| ==> w.coins[i].box == InitialCoins[i].box) &&
    (forall e :: e in w.enemies ==> InRange(e)) &&
    w.score >= 0 &&
    (w.gameOver <==> w.lives <= 0)
  }

  lemma InitialWorldInvariant()
    ensures Invariant(InitialWorld) && !InitialWorld.gameOver
  {
    assert OnGrid(InitialEnemies[0], 50, 50);
    assert OnGrid(InitialEnemies[1], 0, 100);
    assert forall e :: e in InitialEnemies ==> e == InitialEnemies[0] || e == InitialEnemies[1];
  }

  /** Every frame keeps the invariant. */
  lemma StepKeepsInvariant(w: World, keys: set<string>)
    requires Invariant(w)
    ensures Invariant(Step(w, keys))
  {
    LandOutcome(ApplyGravity(MoveHorizontal(w.player, LeftHeld(keys), RightHeld(keys))), Platforms);
    var w2 := CoinCollection(Movement(w, keys));
    assert Invariant(w2);
    var w3 := EnemyMovement(w2);
    PatrolAllStaysInRange(w2.enemies);
    assert Invariant(w3);
    ContactAllFacts(w3.(enemies := []), w3.enemies);
    var w5 := FallOffScreen(EnemyCollision(w3));
    assert Invariant(w5);
    InitialWorldInvariant();
  }

  /** The patrol pass keeps every enemy inside its range. */
  lemma PatrolAllStaysInRange(es: seq<Enemy>)
    requires forall e :: e in es ==> InRange(e)
    ensures forall e :: e in PatrolAll(es) ==> InRange(e)
  {
    forall e | e in PatrolAll(es)
      ensures InRange(e)
    {
      var i :| 0 <= i < |es| && PatrolAll(es)[i] == e;
      PatrolStaysInRange(es[i]);
    }
  }

  /** Across one frame the score never decreases, lives never increase, and
      at most one life is lost per enemy plus one for falling off. */
  lemma StepScoreAndLives(w: World, keys: set<string>)
    ensures Step(w, keys).score >= w.score
    ensures w.lives - |w.enemies| - 1 <= Step(w, keys).lives <= w.lives
  {
    var w3 := EnemyMovement(CoinCollection(Movement(w, keys)));
    ContactAllFacts(w3.(enemies := []), w3.enemies);
  }

  /** The player ends every frame within the world's width, whatever state it
      started in. */
  lemma StepKeepsPlayerInWorld(w: World, keys: set<string>)
    ensures InWorld(Step(w, keys).player)
  {
    LandOutcome(ApplyGravity(MoveHorizontal(w.player, LeftHeld(keys), RightHeld(keys))), Platforms);
    var w3 := EnemyMovement(CoinCollection(Movement(w, keys)));
    ContactAllFacts(w3.(enemies := []), w3.enemies);
  }

  /** A frame never ends in a cleared round: if all coins are collected and
      no enemy is left when the win condition runs, the round restarts with
      the bonus, every coin available and the two initial enemies. */
  lemma StepNeverEndsCleared(w: World, keys: set<string>)
    requires Invariant(w)
    ensures var m := BeforeWin(w, keys); var r := Step(w, keys);
      !(AllCollected(r.coins) && r.enemies == []) &&
      (AllCollected(m.coins) && m.enemies == [] ==>
         r.score == m.score + WinBonus && CountCollected(r.coins) == 0 &&
         r.enemies == InitialEnemies)
  {
    var w1 := Movement(w, keys);
    var w2 := CoinCollection(w1);
    var w3 := EnemyMovement(w2);
    ContactAllFacts(w3.(enemies := []), w3.enemies);
    var m := BeforeWin(w, keys);
    assert |m.coins| == 7;
    if AllCollected(m.coins) && m.enemies == [] {
      assert !Step(w, keys).coins[0].collected;
    }
  }

  /** The first frame of a game with no key held: the player falls by one
      gravity step from the respawn point, touches no platform, coin or enemy,
      and nothing else changes but the enemies' patrol. */
  lemma FirstFrameAtRest()
    ensures var r := Step(InitialWorld, {});
      r.player == InitialPlayer.(y := 400.5, velocityY := 0.5) &&
      r.coins == InitialCoins && r.score == 0 && r.lives == StartLives && !r.gameOver &&
      r.enemies == PatrolAll(InitialEnemies)
  {
    var p := ApplyGravity(MoveHorizontal(InitialPlayer, false, false));
    assert p == InitialPlayer.(y := 400.5, velocityY := 0.5);
    LandOutcome(p, Platforms);
    assert forall i :: 0 <= i < |Platforms| ==> !Overlaps(p.Box(), Platforms[i]);
    var w1 := Movement(InitialWorld, {});
    assert w1.player == p;
    var box := p.Box();
    assert forall i :: 0 <= i < |InitialCoins| ==> !Overlaps(box, InitialCoins[i].box);
    assert CollectAll(InitialCoins, box) == InitialCoins;
    PickupsAreNewlyCollected(InitialCoins, box);
    var w2 := CoinCollection(w1);
    assert w2 == w1;
    var es := PatrolAll(InitialEnemies);
    assert !Overlaps(box, es[0].box) && !Overlaps(box, es[1].box);
    var start := w2.(enemies := []);
    assert es[..1][..0] == [];
    assert ContactAll(start, es[..1]) == start.(enemies := [es[0]]);
    assert es[..2] == es;
    assert ContactAll(start, es) == start.(enemies := es);
    assert !AllCollected(InitialCoins);
  }

  /** `grounded` is recomputed every frame: at the end of a frame it holds
      exactly when the player, after moving and falling, landed on some
      platform in this frame's pass. A stomp, a hit or a fall-off later in the
      frame does not clear it. */
  lemma StepGroundedIffLanded(w: World, keys: set<string>)
    ensures var p := ApplyGravity(MoveHorizontal(w.player, LeftHeld(keys), RightHeld(keys)));
      Step(w, keys).player.grounded <==> exists i :: 0 <= i < |Platforms| && LandsOn(p, Platforms[i])
  {
    var p := ApplyGravity(MoveHorizontal(w.player, LeftHeld(keys), RightHeld(keys)));
    LandOutcome(p, Platforms);
    var w3 := EnemyMovement(CoinCollection(Movement(w, keys)));
    ContactAllFacts(w3.(enemies := []), w3.enemies);
  }
}
