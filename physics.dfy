/** The player's movement: horizontal input and clamping, gravity, the
    jump rule and the landing pass over the platforms. */
module Physics {
  import opened Geometry

  /** The canvas is the world. */
  const WorldWidth: real := 800.0
  const WorldHeight: real := 600.0

  /** The fixed fields of the player record. */
  const PlayerWidth: real := 32.0
  const PlayerHeight: real := 32.0
  const Speed: real := 5.0
  const JumpPower: real := 12.0
  const Gravity: real := 0.5

  /** The fields of the player record that change while playing. */
  datatype PlayerState = PlayerState(
    x: real, y: real,
    velocityX: real, velocityY: real,
    jumping: bool, grounded: bool)
  {
    /** The rectangle the player occupies. */
    function Box(): Rect
    {
      Rect(x, y, PlayerWidth, PlayerHeight)
    }
  }

  /** The player stays inside the world horizontally. */
  predicate InWorld(p: PlayerState)
  {
    0.0 <= p.x <= WorldWidth - PlayerWidth
  }

  /** Horizontal movement: the velocity follows the held keys, left taking
      priority over right; the player moves by it and is then clamped to the
      world's width. */
  function MoveHorizontal(p: PlayerState, left: bool, right: bool): (r: PlayerState)
    ensures left ==> r.velocityX == -Speed
    ensures !left && right ==> r.velocityX == Speed
    ensures !left && !right ==> r.velocityX == 0.0
    ensures InWorld(r)
    ensures 0.0 <= p.x + r.velocityX <= WorldWidth - PlayerWidth ==> r.x == p.x + r.velocityX
    ensures p.x + r.velocityX < 0.0 ==> r.x == 0.0
    ensures p.x + r.velocityX > WorldWidth - PlayerWidth ==> r.x == WorldWidth - PlayerWidth
    ensures r.y == p.y && r.velocityY == p.velocityY
    ensures r.jumping == p.jumping && r.grounded == p.grounded
  {
    var vx := if left then -Speed else if right then Speed else 0.0;
    var moved := p.x + vx;
    var x := if moved < 0.0 then 0.0 else moved;
    var x' := if x + PlayerWidth > WorldWidth then WorldWidth - PlayerWidth else x;
    p.(x := x', velocityX := vx)
  }

  /** Gravity: the vertical velocity grows by one gravity step and the
      player falls by the new velocity, so `y - velocityY` afterwards is
      where the player stood before the move. */
  function ApplyGravity(p: PlayerState): (r: PlayerState)
    ensures r.velocityY == p.velocityY + Gravity
    ensures r.y - r.velocityY == p.y
    ensures r.x == p.x && r.velocityX == p.velocityX
    ensures r.jumping == p.jumping && r.grounded == p.grounded
  {
    var vy := p.velocityY + Gravity;
    p.(y := p.y + vy, velocityY := vy)
  }

  /** The keydown handler's jump rule: a space press while grounded launches
      the player; any other key, or a press in the air, changes nothing. */
  function Jump(p: PlayerState, space: bool): (r: PlayerState)
    ensures space && p.grounded ==>
              r.velocityY == -JumpPower && r.jumping && !r.grounded &&
              r.x == p.x && r.y == p.y && r.velocityX == p.velocityX
    ensures !(space && p.grounded) ==> r == p
  {
    if space && p.grounded then
      p.(velocityY := -JumpPower, jumping := true, grounded := false)
    else
      p
  }

  /** There is no double jump: a second press before landing does nothing. */
  lemma NoDoubleJump(p: PlayerState, space: bool)
    ensures Jump(Jump(p, space), space) == Jump(p, space)
  {
  }

  /** The landing test of one platform: the player overlaps it, is falling,
      and its bottom edge before this frame's fall was at or above the
      platform's top. */
  predicate LandsOn(p: PlayerState, platform: Rect)
  {
    Overlaps(p.Box(), platform) &&
    p.velocityY > 0.0 &&
    p.y + PlayerHeight - p.velocityY <= platform.y
  }

  /** The player standing on top of the platform. */
  function StandOn(p: PlayerState, platform: Rect): (r: PlayerState)
    ensures r.y + PlayerHeight == platform.y
    ensures r.velocityY == 0.0 && r.grounded && !r.jumping
    ensures r.x == p.x && r.velocityX == p.velocityX
  {
    p.(y := platform.y - PlayerHeight, velocityY := 0.0, grounded := true, jumping := false)
  }

  /** One iteration of the platform `forEach`. */
  function LandStep(p: PlayerState, platform: Rect): PlayerState
  {
    if LandsOn(p, platform) then StandOn(p, platform) else p
  }

  /** The platform `forEach` over `ps`, in order. */
  function LandAll(p: PlayerState, ps: seq<Rect>): PlayerState
    decreases |ps|
  {
    if ps == [] then p else LandStep(LandAll(p, ps[..|ps| - 1]), ps[|ps| - 1])
  }

  /** The platform pass: `grounded` is cleared, then every platform is tried. */
  function Land(p: PlayerState, ps: seq<Rect>): PlayerState
  {
    LandAll(p.(grounded := false), ps)
  }

  /** Platform k is the first one, in list order, that the player lands on. */
  predicate FirstLanding(p: PlayerState, ps: seq<Rect>, k: int)
  {
    0 <= k < |ps| && LandsOn(p, ps[k]) &&
    forall j :: 0 <= j < k ==> !LandsOn(p, ps[j])
  }

  /** The pass lands the player on the FIRST qualifying platform: landing
      zeroes the vertical velocity, so no later platform can qualify. If none
      qualifies, the player is left as it was. */
  lemma {:induction false} LandAllFirstWins(p: PlayerState, ps: seq<Rect>)
    ensures (forall i :: 0 <= i < |ps| ==> !LandsOn(p, ps[i])) ==> LandAll(p, ps) == p
    ensures forall k :: FirstLanding(p, ps, k) ==> LandAll(p, ps) == StandOn(p, ps[k])
    decreases |ps|
  {
    if ps != [] {
      var n := |ps| - 1;
      var prefix := ps[..n];
      LandAllFirstWins(p, prefix);
      assert forall i :: 0 <= i < n ==> prefix[i] == ps[i];
      if exists k :: 0 <= k < n && LandsOn(p, ps[k]) {
        var k := FirstIndex(p, ps, n);
        assert FirstLanding(p, prefix, k);
        assert LandAll(p, prefix) == StandOn(p, ps[k]);
        forall k' | FirstLanding(p, ps, k')
          ensures k' == k
        {
        }
      }
    }
  }

  /** The first index below n whose platform the player lands on. */
  function FirstIndex(p: PlayerState, ps: seq<Rect>, n: nat): (k: nat)
    requires n <= |ps|
    requires exists k :: 0 <= k < n && LandsOn(p, ps[k])
    ensures k < n && LandsOn(p, ps[k])
    ensures forall j :: 0 <= j < k ==> !LandsOn(p, ps[j])
    decreases n
  {
    if exists k :: 0 <= k < n - 1 && LandsOn(p, ps[k]) then FirstIndex(p, ps, n - 1) else n - 1
  }

  /** The platform pass, as the rest of the frame sees it: the player ends
      grounded exactly when it lands on some platform; then its bottom is that
      platform's top (the first qualifying one), it stops falling and is no
      longer jumping; otherwise only `grounded` has been cleared. */
  lemma LandOutcome(p: PlayerState, ps: seq<Rect>)
    ensures Land(p, ps).grounded <==> exists i :: 0 <= i < |ps| && LandsOn(p, ps[i])
    ensures !Land(p, ps).grounded ==> Land(p, ps) == p.(grounded := false)
    ensures forall k :: FirstLanding(p, ps, k) ==>
              Land(p, ps) == StandOn(p, ps[k]) &&
              Land(p, ps).y + PlayerHeight == ps[k].y &&
              Land(p, ps).velocityY == 0.0 && !Land(p, ps).jumping
  {
    var q := p.(grounded := false);
    LandAllFirstWins(q, ps);
    assert forall i :: 0 <= i < |ps| ==> (LandsOn(q, ps[i]) <==> LandsOn(p, ps[i]));
    assert forall k :: FirstLanding(p, ps, k) ==> FirstLanding(q, ps, k);
    if exists i :: 0 <= i < |ps| && LandsOn(p, ps[i]) {
      var k := FirstIndex(q, ps, |ps|);
      assert FirstLanding(q, ps, k);
    }
  }
}
