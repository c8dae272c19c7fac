/** The input decisions of Assets/Scripts/PlayerBehaviour.cs: binary
    left/right steering from a pointer position, the two-phase swipe
    gesture that teleports the ball sideways, and the per-frame update that
    does nothing while the game is paused.

    Engine services are inputs: the viewport x of a screen position (what
    Camera.ScreenToViewportPoint computes) is given as a number, and
    Rigidbody.SweepTest is a function from a direction and a distance to
    "something is in the way". The physics body is reduced to its position. */
module PlayerControl {
  import opened Geometry
  import opened PauseMenu

  datatype MobileHorizMovement = Accelerometer | ScreenTouch

  datatype TouchPhase = Began | Moved | Stationary | Ended | Canceled

  /** The first touch of a frame: its pixel position and phase. */
  datatype Touch = Touch(position: Vec2, phase: TouchPhase)

  /** The sweep test of the physics body: does moving `distance` along
      `direction` hit something? */
  type SweepTest = (Vec3, real) -> bool

  /** Horizontal speed from a held pointer: full dodge speed to the right of
      the screen's centre, full dodge speed to the left otherwise (the centre
      itself counts as left); never anything in between. */
  function CalculateMovement(viewportX: real, dodgeSpeed: real): (speed: real)
    ensures viewportX > 0.5 ==> speed == dodgeSpeed
    ensures viewportX <= 0.5 ==> speed == -dodgeSpeed
    ensures speed == dodgeSpeed || speed == -dodgeSpeed
    ensures dodgeSpeed != 0.0 ==> (speed == dodgeSpeed <==> viewportX > 0.5)
  {
    var xMove := if viewportX > 0.5 then 1.0 else -1.0;
    xMove * dodgeSpeed
  }

  /** The direction a finished swipe of horizontal extent `dx` asks for:
      none below the threshold, left for a negative extent, right otherwise. */
  function SwipeDirection(dx: real, minSwipeDistance: real): (d: Option<Vec3>)
    ensures d.None? <==> Abs(dx) < minSwipeDistance
    ensures d.Some? ==> (d.value == LEFT <==> dx < 0.0) && (d.value == RIGHT <==> dx >= 0.0)
  {
    if Abs(dx) < minSwipeDistance then None
    else if dx < 0.0 then Some(LEFT)
    else Some(RIGHT)
  }

  /** Where the body is after a swipe of extent `dx` ends at `position`:
      moved by swipeMove along the swipe's direction if the swipe passed the
      threshold and the sweep found nothing in the way, unmoved otherwise. */
  function SwipeTarget(position: Vec3, dx: real, minSwipeDistance: real, swipeMove: real,
                       sweepTest: SweepTest): (r: Vec3)
    ensures r.y == position.y && r.z == position.z
    ensures var dir := if dx < 0.0 then LEFT else RIGHT;
      var moves := Abs(dx) >= minSwipeDistance && !sweepTest(dir, swipeMove);
      r.x == position.x + (if !moves then 0.0 else if dx < 0.0 then -swipeMove else swipeMove)
  {
    match SwipeDirection(dx, minSwipeDistance)
    case None => position
    case Some(moveDirection) =>
      if !sweepTest(moveDirection, swipeMove) then Add(position, Scale(moveDirection, swipeMove))
      else position
  }

  /** The ball. `touchStart` is the start of the current swipe and
      `position` the position of its rigid body. */
  class PlayerBehaviour {
    const dodgeSpeed: real
    const horizMovement: MobileHorizMovement
    const swipeMove: real
    const minSwipeDistance: real

    var touchStart: Vec2
    var position: Vec3

    constructor (dodgeSpeed: real, horizMovement: MobileHorizMovement,
                 swipeMove: real, minSwipeDistance: real, position: Vec3)
      ensures this.dodgeSpeed == dodgeSpeed
      ensures this.horizMovement == horizMovement
      ensures this.swipeMove == swipeMove && this.minSwipeDistance == minSwipeDistance
      ensures touchStart == Vec2(0.0, 0.0) && this.position == position
    {
      this.dodgeSpeed := dodgeSpeed;
      this.horizMovement := horizMovement;
      this.swipeMove := swipeMove;
      this.minSwipeDistance := minSwipeDistance;
      touchStart := Vec2(0.0, 0.0);
      this.position := position;
    }

    /** A touch that begins records where it began and moves nothing; a
        touch that ends teleports the body as SwipeTarget says and keeps the
        recorded start; any other phase changes nothing. */
    method SwipeTeleport(touch: Touch, sweepTest: SweepTest)
      modifies this
      ensures touch.phase == Began ==> touchStart == touch.position && position == old(position)
      ensures touch.phase == Ended ==>
        touchStart == old(touchStart) &&
        position == SwipeTarget(old(position), touch.position.x - old(touchStart).x,
                                minSwipeDistance, swipeMove, sweepTest)
      ensures touch.phase != Began && touch.phase != Ended ==>
        touchStart == old(touchStart) && position == old(position)
    {
      if touch.phase == Began {
        touchStart := touch.position;
      } else if touch.phase == Ended {
        var touchEnd := touch.position;
        var dx := touchEnd.x - touchStart.x;
        if Abs(dx) < minSwipeDistance {
          return;
        }
        var moveDirection := if dx < 0.0 then LEFT else RIGHT;
        if !sweepTest(moveDirection, swipeMove) {
          position := Add(position, Scale(moveDirection, swipeMove));
        }
      }
    }

    /** One frame of the standalone (editor or desktop) build. The result
        is the horizontal component of the force applied this frame, or
        None when the frame returned early because the game is paused. A
        held mouse button replaces the axis input with binary steering. */
    method UpdateStandalone(pause: PauseScreenBehaviour, axis: real, mouseHeld: bool, mouseViewportX: real)
      returns (horizontalSpeed: Option<real>)
      ensures pause.paused <==> horizontalSpeed.None?
      ensures !pause.paused && mouseHeld ==> horizontalSpeed == Some(CalculateMovement(mouseViewportX, dodgeSpeed))
      ensures !pause.paused && !mouseHeld ==> horizontalSpeed == Some(axis * dodgeSpeed)
    {
      if pause.paused {
        return None;
      }
      var speed := axis * dodgeSpeed;
      if mouseHeld {
        speed := CalculateMovement(mouseViewportX, dodgeSpeed);
      }
      horizontalSpeed := Some(speed);
    }

    /** One frame of the mobile build: tilt steering or, in ScreenTouch
        mode, binary steering from the first touch, which also drives the
        swipe gesture. While paused nothing happens at all. */
    method UpdateMobile(pause: PauseScreenBehaviour, accelerationX: real, touches: seq<Touch>,
                        touchViewportX: real, sweepTest: SweepTest)
      returns (horizontalSpeed: Option<real>)
      modifies this
      ensures pause.paused ==> horizontalSpeed == None && touchStart == old(touchStart) && position == old(position)
      ensures !pause.paused ==> horizontalSpeed == Some(
        if |touches| > 0 && horizMovement == ScreenTouch then CalculateMovement(touchViewportX, dodgeSpeed)
        else if horizMovement == Accelerometer then accelerationX * dodgeSpeed
        else 0.0)
      ensures !pause.paused && |touches| == 0 ==> touchStart == old(touchStart) && position == old(position)
      ensures !pause.paused && |touches| > 0 && touches[0].phase == Began ==>
        touchStart == touches[0].position && position == old(position)
      ensures !pause.paused && |touches| > 0 && touches[0].phase == Ended ==>
        touchStart == old(touchStart) &&
        position == SwipeTarget(old(position), touches[0].position.x - old(touchStart).x,
                                minSwipeDistance, swipeMove, sweepTest)
      ensures !pause.paused && |touches| > 0 && touches[0].phase != Began && touches[0].phase != Ended ==>
        touchStart == old(touchStart) && position == old(position)
    {
      if pause.paused {
        return None;
      }
      var speed := 0.0;
      if horizMovement == Accelerometer {
        speed := accelerationX * dodgeSpeed;
      }
      if |touches| > 0 {
        var touch := touches[0];
        if horizMovement == ScreenTouch {
          speed := CalculateMovement(touchViewportX, dodgeSpeed);
        }
        SwipeTeleport(touch, sweepTest);
      }
      horizontalSpeed := Some(speed);
    }
  }
}
