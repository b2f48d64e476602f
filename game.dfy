/** The game as the page runs it: a player object and the entity lists,
    updated in place once per frame, and the keyboard handlers. */
module Platformer {
  import opened Geometry
  import opened Physics
  import opened Items
  import opened Level
  import opened Rules

  /** The player record; its fixed fields (size, speed, jump power, gravity)
      are the constants of module Physics. */
  class Player {
    var x: real
    var y: real
    var velocityX: real
    var velocityY: real
    var jumping: bool
    var grounded: bool

    function State(): PlayerState
      reads this
    {
      PlayerState(x, y, velocityX, velocityY, jumping, grounded)
    }

    constructor ()
      ensures State() == InitialPlayer
    {
      x, y := 100.0, 400.0;
      velocityX, velocityY := 0.0, 0.0;
      jumping, grounded := false, false;
    }
  }

  class Game {
    const player: Player
    const platforms: seq<Rect> := Platforms
    const coins: array<Coin>
    var enemies: seq<Enemy>
    var score: int
    var lives: int
    var gameOver: bool
    /** The keys currently held down. */
    var keys: set<string>

    /** The state one frame works on. */
    function Snapshot(): World
      reads this, player, coins
    {
      World(player.State(), coins[..], enemies, score, lives, gameOver)
    }

    ghost predicate Valid()
      reads this, player, coins
    {
      Invariant(Snapshot())
    }

    /** A new game; the page's reset starts one afresh in the same way. */
    constructor ()
      ensures Valid() && Snapshot() == InitialWorld && keys == {}
      ensures fresh(player) && fresh(coins)
    {
      player := new Player();
      coins := new Coin[|InitialCoins|](i requires 0 <= i < |InitialCoins| => InitialCoins[i]);
      enemies := InitialEnemies;
      score, lives, gameOver := 0, StartLives, false;
      keys := {};
      new;
      assert coins[..] == InitialCoins;
      InitialWorldInvariant();
    }

    /** The keydown handler: the key is held from now on, and a space press
        while grounded makes the player jump. */
    method KeyDown(key: string)
      requires Valid()
      modifies this`keys, player
      ensures Valid()
      ensures keys == old(keys) + {key}
      ensures Snapshot() == old(Snapshot()).(player := Jump(old(player.State()), key == " "))
    {
      keys := keys + {key};
      if key == " " && player.grounded {
        player.velocityY := -JumpPower;
        player.jumping := true;
        player.grounded := false;
      }
    }

    /** The keyup handler: the key is no longer held. */
    method KeyUp(key: string)
      modifies this`keys
      ensures keys == old(keys) - {key}
      ensures Snapshot() == old(Snapshot())
    {
      keys := keys - {key};
    }

    /** `update()`: one frame of the game, with the keys held now. */
    method Update()
      requires Valid() && !gameOver
      modifies this, player, coins
      ensures Valid()
      ensures keys == old(keys)
      ensures Snapshot() == Step(old(Snapshot()), old(keys))
    {
      ghost var w := Snapshot();
      MoveAndLand();
      assert Snapshot() == Movement(w, keys);
      CollectCoins();
      MoveEnemies();
      ResolveEnemyContacts();
      CheckFallOff();
      CheckWin();
      StepKeepsInvariant(w, keys);
    }

    /** Horizontal movement with clamping, gravity, and the platform pass. */
    method MoveAndLand()
      modifies player
      ensures Snapshot() == Movement(old(Snapshot()), keys)
    {
      ghost var p0 := player.State();
      var left := LeftHeld(keys);
      var right := RightHeld(keys);
      if left {
        player.velocityX := -Speed;
      } else if right {
        player.velocityX := Speed;
      } else {
        player.velocityX := 0.0;
      }
      player.x := player.x + player.velocityX;
      if player.x < 0.0 {
        player.x := 0.0;
      }
      if player.x + PlayerWidth > WorldWidth {
        player.x := WorldWidth - PlayerWidth;
      }
      player.velocityY := player.velocityY + Gravity;
      player.y := player.y + player.velocityY;

      assert player.State() == ApplyGravity(MoveHorizontal(p0, left, right));
      LandOnPlatforms();
    }

    /** The platform pass: `grounded` is cleared, then every platform is tried
        in order. */
    method LandOnPlatforms()
      modifies player
      ensures player.State() == Land(old(player.State()), platforms)
    {
      player.grounded := false;
      ghost var start := player.State();
      var i := 0;
      while i < |platforms|
        invariant 0 <= i <= |platforms|
        invariant player.State() == LandAll(start, platforms[..i])
      {
        var platform := platforms[i];
        if Overlaps(player.State().Box(), platform) {
          if player.velocityY > 0.0 && player.y + PlayerHeight - player.velocityY <= platform.y {
            player.y := platform.y - PlayerHeight;
            player.velocityY := 0.0;
            player.grounded := true;
            player.jumping := false;
          }
        }
        assert platforms[..i + 1][..i] == platforms[..i];
        i := i + 1;
      }
      assert platforms[..i] == platforms;
    }

    /** The coin pass: in place over the coin array. */
    method CollectCoins()
      modifies this`score, coins
      ensures Snapshot() == CoinCollection(old(Snapshot()))
    {
      ghost var before := coins[..];
      var box := player.State().Box();
      var i := 0;
      while i < coins.Length
        invariant 0 <= i <= coins.Length
        invariant forall k :: 0 <= k < i ==> coins[k] == CollectOne(before[k], box)
        invariant forall k :: i <= k < coins.Length ==> coins[k] == before[k]
        invariant score == old(score) + CoinValue * Pickups(before[..i], box)
      {
        if !coins[i].collected && Overlaps(box, coins[i].box) {
          coins[i] := coins[i].(collected := true);
          score := score + CoinValue;
        }
        assert before[..i + 1][..i] == before[..i];
        i := i + 1;
      }
      assert before[..i] == before;
      assert coins[..] == CollectAll(before, box);
    }

    /** The enemy patrol pass. */
    method MoveEnemies()
      modifies this`enemies
      ensures Snapshot() == EnemyMovement(old(Snapshot()))
    {
      var i := 0;
      while i < |enemies|
        invariant 0 <= i <= |enemies| == |old(enemies)|
        invariant forall k :: 0 <= k < i ==> enemies[k] == Patrol(old(enemies)[k])
        invariant forall k :: i <= k < |enemies| ==> enemies[k] == old(enemies)[k]
      {
        var enemy := enemies[i];
        var x := enemy.box.x + enemy.velocityX;
        var v := enemy.velocityX;
        if x <= enemy.minX || x >= enemy.maxX {
          v := v * -1.0;
        }
        enemies := enemies[i := enemy.(box := enemy.box.(x := x), velocityX := v)];
        i := i + 1;
      }
      assert enemies == PatrolAll(old(enemies));
    }

    /** The enemy-collision `filter`: stomped enemies are dropped; any other
        contact costs a life and respawns the player. */
    method ResolveEnemyContacts()
      modifies this`enemies, this`score, this`lives, this`gameOver, player
      ensures Snapshot() == EnemyCollision(old(Snapshot()))
    {
      ghost var start := Snapshot().(enemies := []);
      var patrolled := enemies;
      var kept: seq<Enemy> := [];
      var i := 0;
      while i < |patrolled|
        invariant 0 <= i <= |patrolled|
        invariant Snapshot().(enemies := kept) == ContactAll(start, patrolled[..i])
      {
        kept := ContactOne(patrolled[i], kept);
        assert patrolled[..i + 1][..i] == patrolled[..i];
        i := i + 1;
      }
      assert patrolled[..i] == patrolled;
      enemies := kept;
    }

    /** One call of the `filter` callback: a stomp scores and bounces the
        player and drops the enemy; any other contact costs a life and
        respawns the player; the enemy is kept unless stomped. */
    method ContactOne(enemy: Enemy, kept: seq<Enemy>) returns (kept': seq<Enemy>)
      modifies this`score, this`lives, this`gameOver, player
      ensures Snapshot().(enemies := kept') == Contact(old(Snapshot()).(enemies := kept), enemy)
    {
      kept' := kept;
      if Overlaps(player.State().Box(), enemy.box) {
        if player.velocityY > 0.0 && player.y + PlayerHeight - StompTolerance < enemy.box.y {
          score := score + StompValue;
          player.velocityY := StompBounce;
        } else {
          lives := lives - 1;
          player.x := RespawnX;
          player.y := RespawnY;
          player.velocityY := 0.0;
          if lives <= 0 {
            gameOver := true;
          }
          kept' := kept + [enemy];
        }
      } else {
        kept' := kept + [enemy];
      }
    }

    /** Falling below the bottom of the world costs a life. */
    method CheckFallOff()
      modifies this`lives, this`gameOver, player
      ensures Snapshot() == FallOffScreen(old(Snapshot()))
    {
      if player.y > WorldHeight {
        lives := lives - 1;
        player.x := RespawnX;
        player.y := RespawnY;
        player.velocityY := 0.0;
        if lives <= 0 {
          gameOver := true;
        }
      }
    }

    /** The win condition: a cleared round earns the bonus and restarts with
        every coin available and the initial enemies. */
    method CheckWin()
      modifies this`score, this`enemies, coins
      ensures Snapshot() == WinCondition(old(Snapshot()))
    {
      var allCollected := forall k :: 0 <= k < coins.Length ==> coins[k].collected;
      assert allCollected == AllCollected(coins[..]);
      if allCollected && |enemies| == 0 {
        score := score + WinBonus;
        ghost var before := coins[..];
        var i := 0;
        while i < coins.Length
          invariant 0 <= i <= coins.Length
          invariant forall k :: 0 <= k < i ==> coins[k] == before[k].(collected := false)
          invariant forall k :: i <= k < coins.Length ==> coins[k] == before[k]
          invariant score == old(score) + WinBonus && enemies == []
        {
          coins[i] := coins[i].(collected := false);
          i := i + 1;
        }
        assert coins[..] == Respawn(before);
        enemies := InitialEnemies;
      }
    }
  }
}
