/** Coins and enemies: coin pickup and the enemies' patrol. */
module Items {
  import opened Geometry

  /** Score awarded for each coin picked up. */
  const CoinValue: int := 100

  /** A coin: where it is, and whether it has been picked up this round. */
  datatype Coin = Coin(box: Rect, collected: bool)

  /** An enemy patrolling horizontally between minX and maxX. */
  datatype Enemy = Enemy(box: Rect, velocityX: real, minX: real, maxX: real)

  /** One iteration of the coin `forEach`: a coin not yet collected that the
      player touches becomes collected. */
  function CollectOne(c: Coin, player: Rect): Coin
  {
    if !c.collected && Overlaps(player, c.box) then c.(collected := true) else c
  }

  /** The coin pass: the coin list keeps its length and positions; a coin
      already collected is never touched; a coin ends collected exactly when it
      was collected or the player touches it. */
  function CollectAll(cs: seq<Coin>, player: Rect): (r: seq<Coin>)
    ensures |r| == |cs|
    ensures forall i :: 0 <= i < |cs| ==> r[i].box == cs[i].box
    ensures forall i :: 0 <= i < |cs| && cs[i].collected ==> r[i] == cs[i]
    ensures forall i :: 0 <= i < |cs| ==>
              (r[i].collected <==> cs[i].collected || Overlaps(player, cs[i].box))
  {
    seq(|cs|, i requires 0 <= i < |cs| => CollectOne(cs[i], player))
  }

  /** How many coins of cs the player picks up in this pass. */
  function Pickups(cs: seq<Coin>, player: Rect): nat
    decreases |cs|
  {
    if cs == [] then 0
    else
      var last := cs[|cs| - 1];
      Pickups(cs[..|cs| - 1], player) +
      (if !last.collected && Overlaps(player, last.box) then 1 else 0)
  }

  /** How many coins of cs are collected. */
  function CountCollected(cs: seq<Coin>): nat
    decreases |cs|
  {
    if cs == [] then 0
    else CountCollected(cs[..|cs| - 1]) + (if cs[|cs| - 1].collected then 1 else 0)
  }

  /** Every pickup is a coin that turns from uncollected to collected, so the
      100 points awarded per pickup are exactly 100 per newly collected coin. */
  lemma {:induction false} PickupsAreNewlyCollected(cs: seq<Coin>, player: Rect)
    ensures CountCollected(CollectAll(cs, player)) == CountCollected(cs) + Pickups(cs, player)
    decreases |cs|
  {
    if cs != [] {
      var n := |cs| - 1;
      PickupsAreNewlyCollected(cs[..n], player);
      assert CollectAll(cs, player)[..n] == CollectAll(cs[..n], player);
    }
  }

  /** All coins are collected. */
  predicate AllCollected(cs: seq<Coin>)
  {
    forall i :: 0 <= i < |cs| ==> cs[i].collected
  }

  /** The win condition's coin respawn: every coin is available again, in
      its place. */
  function Respawn(cs: seq<Coin>): (r: seq<Coin>)
    ensures |r| == |cs|
    ensures forall i :: 0 <= i < |cs| ==> r[i] == cs[i].(collected := false)
    ensures CountCollected(r) == 0
  {
    if cs == [] then []
    else
      var n := |cs| - 1;
      var r := Respawn(cs[..n]) + [cs[n].(collected := false)];
      assert r[..n] == Respawn(cs[..n]);
      r
  }

  function Abs(v: real): real { if v < 0.0 then -v else v }

  /** One iteration of the enemy-movement `forEach`: the enemy moves by its
      velocity and turns round once it is at or past either bound. */
  function Patrol(e: Enemy): (r: Enemy)
    ensures r.box == e.box.(x := e.box.x + e.velocityX)
    ensures r.minX == e.minX && r.maxX == e.maxX
    ensures Abs(r.velocityX) == Abs(e.velocityX)
    ensures r.box.x <= e.minX || r.box.x >= e.maxX ==> r.velocityX == -e.velocityX
    ensures e.minX < r.box.x < e.maxX ==> r.velocityX == e.velocityX
  {
    var x := e.box.x + e.velocityX;
    var v := if x <= e.minX || x >= e.maxX then -e.velocityX else e.velocityX;
    e.(box := e.box.(x := x), velocityX := v)
  }

  /** For a moving enemy the direction flips exactly when the new position is
      at or past a bound. */
  lemma PatrolTurnsIffAtBound(e: Enemy)
    requires e.velocityX != 0.0
    ensures Patrol(e).velocityX != e.velocityX <==>
              (Patrol(e).box.x <= e.minX || Patrol(e).box.x >= e.maxX)
  {
  }

  /** The patrol invariant: the enemy is moving, its range is not empty, it
      is at most one step outside its range, and when it is at or past a bound
      it is heading back. */
  predicate Patrolling(e: Enemy)
  {
    e.minX < e.maxX && e.velocityX != 0.0 &&
    e.minX - Abs(e.velocityX) < e.box.x < e.maxX + Abs(e.velocityX) &&
    (e.box.x <= e.minX ==> e.velocityX > 0.0) &&
    (e.box.x >= e.maxX ==> e.velocityX < 0.0)
  }

  /** Patrolling is kept by every step: an enemy overshoots its range by less
      than one step and never runs away. */
  lemma PatrolKeepsPatrolling(e: Enemy)
    requires Patrolling(e)
    ensures Patrolling(Patrol(e))
  {
  }

  /** The enemy is a whole number of steps from each bound of its range:
      k steps right of minX and m steps left of maxX. */
  predicate OnGrid(e: Enemy, k: int, m: int)
  {
    k >= 0 && m >= 0 &&
    e.box.x == e.minX + k as real * Abs(e.velocityX) &&
    e.box.x == e.maxX - m as real * Abs(e.velocityX)
  }

  /** The patrol invariant for an enemy whose range is a whole number of
      steps long and whose position is a whole number of steps into it: the
      enemy is inside [minX, maxX], lands exactly on each bound and turns
      there. The code does not clamp; this holds only because of the grid. */
  ghost predicate InRange(e: Enemy)
  {
    Patrolling(e) && e.minX <= e.box.x <= e.maxX &&
    exists k: int, m: int :: OnGrid(e, k, m)
  }

  lemma MulNonNegative(k: int, a: real)
    requires k >= 0 && a >= 0.0
    ensures k as real * a >= 0.0
  {
  }

  /** An enemy on the grid stays on it: it never leaves [minX, maxX]. */
  lemma PatrolStaysInRange(e: Enemy)
    requires InRange(e)
    ensures InRange(Patrol(e))
  {
    PatrolKeepsPatrolling(e);
    var k, m :| OnGrid(e, k, m);
    var a := Abs(e.velocityX);
    var r := Patrol(e);
    if e.velocityX > 0.0 {
      assert m != 0;
      assert (k + 1) as real * a == k as real * a + a;
      assert (m - 1) as real * a == m as real * a - a;
      MulNonNegative(m - 1, a);
      assert OnGrid(r, k + 1, m - 1);
    } else {
      assert k != 0;
      assert (k - 1) as real * a == k as real * a - a;
      assert (m + 1) as real * a == m as real * a + a;
      MulNonNegative(k - 1, a);
      assert OnGrid(r, k - 1, m + 1);
    }
  }

  /** The enemy-movement pass: every enemy takes one patrol step. */
  function PatrolAll(es: seq<Enemy>): (r: seq<Enemy>)
    ensures |r| == |es|
    ensures forall i :: 0 <= i < |es| ==> r[i] == Patrol(es[i])
  {
    seq(|es|, i requires 0 <= i < |es| => Patrol(es[i]))
  }
}
