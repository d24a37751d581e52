/**
 * Movement on the flat development arena over the reals: players are pushed out of the obstacles,
 * by the shortest way, and the arena treats its two sides alike except where two exits tie.
 */
module Devmap {
  import opened Protocol

  const MOVE_CLAMP := 460.0
  const PLAYER_HALF_XZ := 16.0

  datatype Vec3 = Vec3(x: real, y: real, z: real)

  /** A position on the floor plane. */
  datatype Spot = Spot(x: real, z: real)

  /** The footprint of an obstacle. */
  datatype Obstacle = Obstacle(x0: real, z0: real, x1: real, z1: real) {
    function MinX(): real { x0 - PLAYER_HALF_XZ }

    function MaxX(): real { x1 + PLAYER_HALF_XZ }

    function MinZ(): real { z0 - PLAYER_HALF_XZ }

    function MaxZ(): real { z1 + PLAYER_HALF_XZ }
  }

  const OBSTACLES := [
    Obstacle(-84.0, -40.0, -18.0, 40.0),
    Obstacle(18.0, -40.0, 84.0, 40.0),
    Obstacle(168.0, -24.0, 252.0, 60.0),
    Obstacle(-252.0, -60.0, -168.0, 24.0),
    Obstacle(-330.0, 150.0, -246.0, 234.0),
    Obstacle(246.0, -234.0, 330.0, -150.0),
    Obstacle(336.0, 110.0, 396.0, 170.0),
    Obstacle(-396.0, -170.0, -336.0, -110.0)]

  /** Strictly inside the obstacle widened by the player's radius. */
  predicate Inside(p: Spot, o: Obstacle) {
    o.MinX() < p.x < o.MaxX() && o.MinZ() < p.z < o.MaxZ()
  }

  ghost predicate Clear(p: Spot, os: seq<Obstacle>) {
    forall o :: o in os ==> !Inside(p, o)
  }

  function Least(a: real, b: real): real {
    if a <= b then a else b
  }

  /** How deep the spot is: the distance to the nearest of the four sides. */
  function Depth(p: Spot, o: Obstacle): real {
    Least(Least(Least(p.x - o.MinX(), o.MaxX() - p.x), p.z - o.MinZ()), o.MaxZ() - p.z)
  }

  function PushOut(p: Spot, o: Obstacle): Spot {
    if !Inside(p, o) then p
    else if Depth(p, o) == p.x - o.MinX() then p.(x := o.MinX())
    else if Depth(p, o) == o.MaxX() - p.x then p.(x := o.MaxX())
    else if Depth(p, o) == p.z - o.MinZ() then p.(z := o.MinZ())
    else p.(z := o.MaxZ())
  }

  function Resolve(p: Spot, os: seq<Obstacle>): Spot
    decreases |os|
  {
    if os == [] then p else Resolve(PushOut(p, os[0]), os[1..])
  }

  function Clamped(p: Spot): Spot {
    Spot(Clamp(p.x, -MOVE_CLAMP, MOVE_CLAMP), Clamp(p.z, -MOVE_CLAMP, MOVE_CLAMP))
  }

  /** Where a player who moved to `p` ends up. */
  function RestingPlace(p: Spot): Spot {
    Clamped(Resolve(p, OBSTACLES))
  }

  // ---- one obstacle -------------------------------------------------------------------------

  function Far(a: real, b: real): real {
    if a <= b then b - a else a - b
  }

  /** The push moves by exactly the depth along one axis, and no spot outside is nearer on both axes. */
  lemma PushIsShortest(p: Spot, o: Obstacle, q: Spot)
    requires Inside(p, o)
    ensures var r := PushOut(p, o);
      && !Inside(r, o)
      && ((r.z == p.z && Far(r.x, p.x) == Depth(p, o)) || (r.x == p.x && Far(r.z, p.z) == Depth(p, o)))
    ensures !Inside(q, o) ==> Far(q.x, p.x) >= Depth(p, o) || Far(q.z, p.z) >= Depth(p, o)
  {
  }

  // ---- all obstacles ------------------------------------------------------------------------

  /** Two widened obstacles that do not even touch. */
  predicate Apart(o: Obstacle, o': Obstacle) {
    o.MaxX() < o'.MinX() || o'.MaxX() < o.MinX() || o.MaxZ() < o'.MinZ() || o'.MaxZ() < o.MinZ()
  }

  ghost predicate PairwiseApart(os: seq<Obstacle>) {
    forall i, j :: 0 <= i < j < |os| ==> Apart(os[i], os[j])
  }

  lemma PushedIntoNoOther(p: Spot, o: Obstacle, o': Obstacle)
    requires Inside(p, o) && Apart(o, o')
    ensures !Inside(p, o') && !Inside(PushOut(p, o), o')
  {
  }

  /** Where nothing is in the way nothing moves, and otherwise exactly one obstacle pushes. */
  lemma {:induction false} OnePushAtMost(p: Spot, os: seq<Obstacle>)
    requires PairwiseApart(os)
    ensures Clear(p, os) ==> Resolve(p, os) == p
    ensures forall o :: o in os && Inside(p, o) ==> Resolve(p, os) == PushOut(p, o)
    ensures Clear(Resolve(p, os), os)
    decreases |os|, 0
  {
    assert os != [] && !Inside(p, os[0]) ==> PushOut(p, os[0]) == p;
    hide Inside, PushOut, Apart;
    if os != [] {
      var o, rest := os[0], os[1..];
      var q := PushOut(p, o);
      assert os == [o] + rest;
      OnePushAtMost(q, rest);
      if Inside(p, o) {
        forall o' | o' in rest
          ensures !Inside(p, o') && !Inside(q, o')
        {
          var j :| 0 <= j < |rest| && rest[j] == o';
          assert os[j + 1] == o' && Apart(os[0], os[j + 1]);
          PushedIntoNoOther(p, o, o');
        }
        PushIsShortest(p, o, q);
      } else {
        PushKeepsClear(p, o, rest);
      }
    }
  }

  /** A spot outside an obstacle stays outside while the others push. */
  lemma {:induction false} PushKeepsClear(p: Spot, o: Obstacle, rest: seq<Obstacle>)
    requires !Inside(p, o) && PairwiseApart([o] + rest)
    ensures !Inside(Resolve(p, rest), o)
    decreases |rest|, 1
  {
    hide Inside, PushOut, Apart;
    var all := [o] + rest;
    forall i, j | 0 <= i < j < |rest|
      ensures Apart(rest[i], rest[j])
    {
      assert Apart(all[i + 1], all[j + 1]);
    }
    OnePushAtMost(p, rest);
    if !Clear(p, rest) {
      var o' :| o' in rest && Inside(p, o');
      var j :| 0 <= j < |rest| && rest[j] == o';
      assert Apart(all[0], all[j + 1]);
      ApartIsSymmetric(o, o');
      PushedIntoNoOther(p, o', o);
    }
  }

  lemma ApartIsSymmetric(o: Obstacle, o': Obstacle)
    ensures Apart(o, o') == Apart(o', o)
  {
  }

  lemma ObstaclesAreApart()
    ensures PairwiseApart(OBSTACLES)
  {
  }

  predicate InBounds(p: Spot) {
    -MOVE_CLAMP <= p.x <= MOVE_CLAMP && -MOVE_CLAMP <= p.z <= MOVE_CLAMP
  }

  predicate WellWithin(o: Obstacle) {
    -MOVE_CLAMP < o.MinX() && o.MaxX() < MOVE_CLAMP && -MOVE_CLAMP < o.MinZ() && o.MaxZ() < MOVE_CLAMP
  }

  lemma ObstaclesAreWithin()
    ensures forall o :: o in OBSTACLES ==> WellWithin(o)
  {
  }

  lemma ClampNeverEnters(p: Spot, o: Obstacle)
    requires WellWithin(o) && !Inside(p, o)
    ensures !Inside(Clamped(p), o)
  {
  }

  lemma ClampedIsInBounds(p: Spot)
    ensures InBounds(Clamped(p))
  {
  }

  lemma BoundsNeedNoClamp(p: Spot)
    requires InBounds(p)
    ensures Clamped(p) == p
  {
  }

  lemma PushStaysInBounds(p: Spot, o: Obstacle)
    requires WellWithin(o) && Inside(p, o)
    ensures InBounds(PushOut(p, o))
  {
  }

  /** From anywhere, a player ends outside every widened obstacle and within the arena, and settling
      again moves nothing. */
  lemma RestingPlaceIsClear(p: Spot)
    ensures Clear(RestingPlace(p), OBSTACLES) && InBounds(RestingPlace(p))
    ensures RestingPlace(RestingPlace(p)) == RestingPlace(p)
  {
    hide Inside, PushOut, Resolve, OBSTACLES, Clamped, WellWithin;
    ObstaclesAreApart();
    ObstaclesAreWithin();
    var q := Resolve(p, OBSTACLES);
    OnePushAtMost(p, OBSTACLES);
    forall o | o in OBSTACLES
      ensures !Inside(Clamped(q), o)
    {
      ClampNeverEnters(q, o);
    }
    OnePushAtMost(Clamped(q), OBSTACLES);
    ClampedIsInBounds(q);
    BoundsNeedNoClamp(Clamped(q));
  }

  // ---- the half turn ------------------------------------------------------------------------

  function Turned(p: Spot): Spot {
    Spot(-p.x, -p.z)
  }

  function Partner(o: Obstacle): Obstacle {
    Obstacle(-o.x1, -o.z1, -o.x0, -o.z0)
  }

  /** The two opposite exits of the chosen axis are equally near. */
  predicate Tie(p: Spot, o: Obstacle) {
    var byX0, byX1 := Depth(p, o) == p.x - o.MinX(), Depth(p, o) == o.MaxX() - p.x;
    var byZ0, byZ1 := Depth(p, o) == p.z - o.MinZ(), Depth(p, o) == o.MaxZ() - p.z;
    (byX0 && byX1) || (!byX0 && !byX1 && byZ0 && byZ1)
  }

  lemma PairAt(k: nat)
    requires k < |OBSTACLES|
    ensures var j := if k % 2 == 0 then k + 1 else k - 1;
      j < |OBSTACLES| && Partner(OBSTACLES[k]) == OBSTACLES[j]
  {
  }

  lemma ObstaclesArePaired()
    ensures forall o :: o in OBSTACLES ==> Partner(o) in OBSTACLES
  {
    hide OBSTACLES, Partner;
    forall o | o in OBSTACLES
      ensures Partner(o) in OBSTACLES
    {
      var k :| 0 <= k < |OBSTACLES| && OBSTACLES[k] == o;
      PairAt(k);
    }
  }

  lemma TurnedPush(p: Spot, o: Obstacle)
    ensures Inside(Turned(p), Partner(o)) <==> Inside(p, o)
    ensures Inside(p, o) ==> (PushOut(Turned(p), Partner(o)) == Turned(PushOut(p, o)) <==> !Tie(p, o))
  {
  }

  lemma PartnersAreMutual(o: Obstacle)
    ensures Partner(Partner(o)) == o
  {
  }

  lemma TurnedClamp(p: Spot)
    ensures Clamped(Turned(p)) == Turned(Clamped(p))
  {
  }

  ghost predicate Untied(p: Spot) {
    forall o :: o in OBSTACLES && Inside(p, o) ==> !Tie(p, o)
  }

  /** Pushing out commutes with the half turn of the arena exactly where no two opposite exits tie. */
  lemma HalfTurn(p: Spot)
    ensures Resolve(Turned(p), OBSTACLES) == Turned(Resolve(p, OBSTACLES)) <==> Untied(p)
    ensures RestingPlace(Turned(p)) == Turned(RestingPlace(p)) <==> Untied(p)
  {
    hide Inside, PushOut, Resolve, OBSTACLES, Partner, Tie, Clamped, Turned, WellWithin;
    ObstaclesAreApart();
    ObstaclesArePaired();
    ObstaclesAreWithin();
    OnePushAtMost(p, OBSTACLES);
    OnePushAtMost(Turned(p), OBSTACLES);
    if Clear(p, OBSTACLES) {
      forall o | o in OBSTACLES
        ensures !Inside(Turned(p), o)
      {
        TurnedPush(p, Partner(o));
        PartnersAreMutual(o);
      }
      TurnedClamp(p);
    } else {
      var o :| o in OBSTACLES && Inside(p, o);
      TurnedPush(p, o);
      OnlyThisOne(p, o);
      PushStaysInBounds(p, o);
      PushStaysInBounds(Turned(p), Partner(o));
      BoundsNeedNoClamp(PushOut(p, o));
      BoundsNeedNoClamp(PushOut(Turned(p), Partner(o)));
    }
  }

  lemma OnlyThisOne(p: Spot, o: Obstacle)
    requires o in OBSTACLES && Inside(p, o)
    ensures forall o' :: o' in OBSTACLES && Inside(p, o') ==> o' == o
  {
    hide Inside, OBSTACLES, Apart;
    ObstaclesAreApart();
    var i :| 0 <= i < |OBSTACLES| && OBSTACLES[i] == o;
    forall j | 0 <= j < |OBSTACLES| && j != i
      ensures !Inside(p, OBSTACLES[j])
    {
      ApartIsSymmetric(o, OBSTACLES[j]);
      PushedIntoNoOther(p, o, OBSTACLES[j]);
    }
  }

  /** Half the least width of a widened obstacle: only a longer step can end in the middle of one. */
  const LEAST_HALF_WIDTH := 46.0

  lemma ObstaclesAreDeep()
    ensures forall o :: o in OBSTACLES ==>
              && o.MaxX() - o.MinX() >= 2.0 * LEAST_HALF_WIDTH
              && o.MaxZ() - o.MinZ() >= 2.0 * LEAST_HALF_WIDTH
  {
  }

  lemma TiesAreDeep(p: Spot, o: Obstacle)
    requires Inside(p, o) && Tie(p, o)
    requires o.MaxX() - o.MinX() >= 2.0 * LEAST_HALF_WIDTH && o.MaxZ() - o.MinZ() >= 2.0 * LEAST_HALF_WIDTH
    ensures Depth(p, o) >= LEAST_HALF_WIDTH
  {
  }

  /** A player who was clear and steps less than 46 along each axis is pushed alike in both halves of the arena. */
  lemma ShortStepsAreSymmetric(from: Spot, target: Spot)
    requires Clear(from, OBSTACLES)
    requires Far(target.x, from.x) < LEAST_HALF_WIDTH && Far(target.z, from.z) < LEAST_HALF_WIDTH
    ensures RestingPlace(Turned(target)) == Turned(RestingPlace(target))
  {
    hide OBSTACLES, Inside, Depth, Tie, Turned, RestingPlace;
    ObstaclesAreDeep();
    forall o | o in OBSTACLES && Inside(target, o)
      ensures !Tie(target, o)
    {
      PushIsShortest(target, o, from);
      FarIsSymmetric(target, from);
      if Tie(target, o) {
        TiesAreDeep(target, o);
        assert false;
      }
    }
    HalfTurn(target);
  }

  lemma FarIsSymmetric(p: Spot, q: Spot)
    ensures Far(p.x, q.x) == Far(q.x, p.x) && Far(p.z, q.z) == Far(q.z, p.z)
  {
  }

  /** In the middle of a gate pillar both sides are pushed the same way, so the halves are not treated alike. */
  lemma PillarCentreIsTied()
    ensures !Untied(Spot(-51.0, 0.0))
    ensures RestingPlace(Turned(Spot(-51.0, 0.0))) != Turned(RestingPlace(Spot(-51.0, 0.0)))
  {
    var p := Spot(-51.0, 0.0);
    assert OBSTACLES[0] in OBSTACLES;
    assert Inside(p, OBSTACLES[0]) && Tie(p, OBSTACLES[0]);
    HalfTurn(p);
  }

  // ---- the step in place --------------------------------------------------------------------

  /** Planar, whatever the direction. */
  function Velocity(direction: Vec3, maxSpeed: real, speedScale: real): Vec3 {
    Vec3(direction.x * maxSpeed * speedScale, 0.0, direction.z * maxSpeed * speedScale)
  }

  /** The spot a velocity leads to, obstacles aside. */
  function Reached(from: Vec3, vel: Vec3, dt: real): Spot {
    Spot(from.x + vel.x * dt, from.z + vel.z * dt)
  }

  class Mover {
    var pos: Vec3
    var vel: Vec3
    var onGround: bool
    const maxSpeed: real

    constructor (pos: Vec3, maxSpeed: real)
      ensures this.pos == pos && this.maxSpeed == maxSpeed && !onGround
    {
      this.pos := pos;
      this.maxSpeed := maxSpeed;
      vel := Vec3(0.0, 0.0, 0.0);
      onGround := false;
    }

    function Footing(): Spot
      reads this
    {
      Spot(pos.x, pos.z)
    }

    method ResolveCollisions()
      modifies this`pos
      ensures Footing() == Resolve(old(Footing()), OBSTACLES) && pos.y == old(pos.y)
      ensures Clear(Footing(), OBSTACLES)
    {
      hide OBSTACLES;
      for i := 0 to |OBSTACLES|
        invariant Resolve(Footing(), OBSTACLES[i..]) == Resolve(old(Footing()), OBSTACLES)
        invariant pos.y == old(pos.y)
      {
        ghost var before, o, rest := Footing(), OBSTACLES[i], OBSTACLES[i + 1..];
        assert OBSTACLES[i..][1..] == rest;
        PushOne(OBSTACLES[i]);
        assert Resolve(before, OBSTACLES[i..]) == Resolve(PushOut(before, o), rest);
      }
      ObstaclesAreApart();
      OnePushAtMost(old(Footing()), OBSTACLES);
    }

    method PushOne(o: Obstacle)
      modifies this`pos
      ensures Footing() == PushOut(old(Footing()), o) && pos.y == old(pos.y)
    {
      if pos.x <= o.MinX() || pos.x >= o.MaxX() || pos.z <= o.MinZ() || pos.z >= o.MaxZ() {
        return;
      }
      var exitLowX, exitHighX := pos.x - o.MinX(), o.MaxX() - pos.x;
      var exitLowZ, exitHighZ := pos.z - o.MinZ(), o.MaxZ() - pos.z;
      var minExit := Least(Least(Least(exitLowX, exitHighX), exitLowZ), exitHighZ);
      if minExit == exitLowX {
        pos := pos.(x := o.MinX());
      } else if minExit == exitHighX {
        pos := pos.(x := o.MaxX());
      } else if minExit == exitLowZ {
        pos := pos.(z := o.MinZ());
      } else {
        pos := pos.(z := o.MaxZ());
      }
    }

    /** `direction` is the normalised wish, or zero. */
    method FlatStep(direction: Vec3, speedScale: real, dt: real)
      modifies this
      ensures vel == Velocity(direction, maxSpeed, speedScale)
      ensures Footing() == RestingPlace(Reached(old(pos), vel, dt))
      ensures pos.y == 0.0 && onGround
      ensures Clear(Footing(), OBSTACLES) && InBounds(Footing())
    {
      hide Resolve, OBSTACLES, Inside;
      vel := Vec3(direction.x * maxSpeed * speedScale, 0.0, direction.z * maxSpeed * speedScale);
      pos := Vec3(pos.x + vel.x * dt, pos.y + vel.y * dt, pos.z + vel.z * dt);
      ghost var moved := Footing();
      assert moved == Reached(old(pos), vel, dt);
      ResolveCollisions();
      pos := pos.(x := Clamp(pos.x, -MOVE_CLAMP, MOVE_CLAMP));
      pos := pos.(z := Clamp(pos.z, -MOVE_CLAMP, MOVE_CLAMP));
      pos := pos.(y := 0.0);
      onGround := true;
      assert Footing() == RestingPlace(moved);
      RestingPlaceIsClear(moved);
    }
  }
}
