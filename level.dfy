/** The fixed level: platforms, and the player, coins and enemies as they
    are at the start of a game. */
module Level {
  import opened Geometry
  import opened Physics
  import opened Items

  /** The player at the start of a game. */
  const InitialPlayer: PlayerState :=
    PlayerState(100.0, 400.0, 0.0, 0.0, false, false)

  /** The platforms, the ground first. They never change. */
  const Platforms: seq<Rect> := [
    Rect(0.0, 550.0, 800.0, 50.0),
    Rect(200.0, 450.0, 150.0, 20.0),
    Rect(400.0, 350.0, 150.0, 20.0),
    Rect(600.0, 250.0, 150.0, 20.0),
    Rect(100.0, 200.0, 100.0, 20.0),
    Rect(500.0, 150.0, 100.0, 20.0)
  ]

  /** The seven coins, none collected. */
  const InitialCoins: seq<Coin> := [
    Coin(Rect(250.0, 400.0, 20.0, 20.0), false),
    Coin(Rect(450.0, 300.0, 20.0, 20.0), false),
    Coin(Rect(650.0, 200.0, 20.0, 20.0), false),
    Coin(Rect(150.0, 150.0, 20.0, 20.0), false),
    Coin(Rect(550.0, 100.0, 20.0, 20.0), false),
    Coin(Rect(300.0, 500.0, 20.0, 20.0), false),
    Coin(Rect(700.0, 500.0, 20.0, 20.0), false)
  ]

  /** The two enemies, as created at the start and on every win. */
  const InitialEnemies: seq<Enemy> := [
    Enemy(Rect(400.0, 518.0, 30.0, 30.0), 2.0, 300.0, 500.0),
    Enemy(Rect(600.0, 220.0, 30.0, 30.0), 1.5, 600.0, 750.0)
  ]
}
