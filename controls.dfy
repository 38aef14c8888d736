/** Directions, the input-unification rule, the movement decision table and the
    touch-button transitions of the Game scene, stated as functions over values.
    The scene class in GameScene is proved against these definitions. */
module Controls {

  datatype Option<T> = None | Some(value: T)

  /** The four cursor keys and the four on-screen buttons share these directions. */
  datatype Direction = Left | Right | Up | Down

  datatype Axis = Horizontal | Vertical

  function AxisOf(d: Direction): Axis {
    if d == Left || d == Right then Horizontal else Vertical
  }

  /** Speed of the player along each axis (the local `velocity` of movePlayer). */
  const Speed := 240

  /** One boolean per direction: the cursor keys' `isDown`, the buttons' `active`
      flags, or the merged intent handed to movePlayer. Opposite directions may
      both be set. */
  datatype Directions = Directions(left: bool, right: bool, up: bool, down: bool) {

    predicate Has(d: Direction) {
      match d
      case Left => left
      case Right => right
      case Up => up
      case Down => down
    }

    predicate Any() {
      left || right || up || down
    }

    /** These directions with `d` switched on. */
    function With(d: Direction): (r: Directions)
      ensures forall e :: r.Has(e) == (e == d || Has(e))
    {
      match d
      case Left => this.(left := true)
      case Right => this.(right := true)
      case Up => this.(up := true)
      case Down => this.(down := true)
    }
  }

  const NoDirections := Directions(false, false, false, false)

  /** Exactly one direction set. */
  function Only(d: Direction): (r: Directions)
    ensures forall e :: r.Has(e) == (e == d)
  {
    NoDirections.With(d)
  }

  // ---------------------------------------------------------------------------
  // Input unification (update)

  /** Each direction of the intent is the keyboard key OR the touch button. */
  function Unify(keys: Directions, touch: Directions): (intent: Directions)
    ensures forall d :: intent.Has(d) == (keys.Has(d) || touch.Has(d))
  {
    Directions(keys.left || touch.left, keys.right || touch.right,
               keys.up || touch.up, keys.down || touch.down)
  }

  // ---------------------------------------------------------------------------
  // Movement decision table (movePlayer), stated per axis

  /** The direction that wins on an axis: the negative one (left, up) beats
      the positive one (right, down) when both are set. */
  function Winner(i: Directions, a: Axis): (w: Option<Direction>)
    ensures w.Some? ==> AxisOf(w.value) == a && i.Has(w.value)
    ensures w.None? <==> (forall d :: AxisOf(d) == a ==> !i.Has(d))
    ensures a == Horizontal && i.left ==> w == Some(Left)
    ensures a == Vertical && i.up ==> w == Some(Up)
  {
    match a
    case Horizontal => if i.left then Some(Left) else if i.right then Some(Right) else None
    case Vertical => if i.up then Some(Up) else if i.down then Some(Down) else None
  }

  /** Signed speed of moving towards `d`: left and up are negative screen directions. */
  function Towards(d: Direction): int {
    if d == Left || d == Up then -Speed else Speed
  }

  /** Velocity along an axis: towards the winner, or 0 when no direction of the axis is set. */
  function AxisVelocity(i: Directions, a: Axis): int {
    match Winner(i, a)
    case Some(d) => Towards(d)
    case None => 0
  }

  /** Animation key names; the scene plays "capy_" followed by one of these. */
  const IdleName := "idle"
  const WalkName := "side_walk"
  const RunName := "side_run"

  function AnimationKey(name: string): string {
    "capy_" + name
  }

  /** The animation movePlayer plays: walking as soon as any direction is set. */
  function PlayedAnimation(i: Directions): string {
    AnimationKey(if i.Any() then WalkName else IdleName)
  }

  /** The facing (`flipX`) after a tick: decided by the horizontal winner only;
      with no horizontal input the previous facing is kept. */
  function FacingAfter(i: Directions, prev: bool): bool {
    match Winner(i, Horizontal)
    case Some(d) => d == Right
    case None => prev
  }

  /** The frame of button `d` after a tick: 1 when `d` wins its axis, 0 when no
      direction of its axis is set, and otherwise (the other direction of the
      axis wins) whatever frame it showed before. */
  function FrameAfter(d: Direction, i: Directions, prev: nat): nat {
    match Winner(i, AxisOf(d))
    case Some(w) => if w == d then 1 else prev
    case None => 0
  }

  /** The frame each of the four buttons shows. */
  datatype Frames = Frames(up: nat, down: nat, left: nat, right: nat)

  /** What movePlayer leaves behind: the sprite's facing, velocity and
      animation, and the buttons' frames. */
  datatype Motion = Motion(flipX: bool, velocityX: int, velocityY: int, animation: string, frames: Frames)

  /** The motion after one movePlayer call with intent `i`, from motion `m`. */
  function MoveStep(m: Motion, i: Directions): Motion {
    Motion(FacingAfter(i, m.flipX),
           AxisVelocity(i, Horizontal),
           AxisVelocity(i, Vertical),
           PlayedAnimation(i),
           Frames(FrameAfter(Up, i, m.frames.up), FrameAfter(Down, i, m.frames.down),
                  FrameAfter(Left, i, m.frames.left), FrameAfter(Right, i, m.frames.right)))
  }

  /** Frames are 0 or 1, and the animation is one movePlayer can play ("" before the first tick). */
  predicate MotionOk(m: Motion) {
    m.frames.up <= 1 && m.frames.down <= 1 && m.frames.left <= 1 && m.frames.right <= 1 &&
    m.animation in {"", AnimationKey(IdleName), AnimationKey(WalkName)}
  }

  lemma MoveStepOk(m: Motion, i: Directions)
    requires MotionOk(m)
    ensures MotionOk(MoveStep(m, i))
    ensures MoveStep(m, i).animation != ""
  {
  }

  /** Each velocity component is one of -Speed, 0, Speed. */
  lemma VelocityRange(m: Motion, i: Directions)
    ensures MoveStep(m, i).velocityX in {-Speed, 0, Speed}
    ensures MoveStep(m, i).velocityY in {-Speed, 0, Speed}
  {
  }

  lemma HorizontalVelocityRule(i: Directions)
    ensures AxisVelocity(i, Horizontal) ==
      if i.left then -Speed else if i.right then Speed else 0
  {
  }

  lemma VerticalVelocityRule(i: Directions)
    ensures AxisVelocity(i, Vertical) ==
      if i.up then -Speed else if i.down then Speed else 0
  {
  }

  lemma AnimationRule(i: Directions)
    ensures PlayedAnimation(i) == "capy_idle" <==> !i.Any()
    ensures PlayedAnimation(i) == "capy_side_walk" <==> i.Any()
    ensures PlayedAnimation(i) != AnimationKey(RunName)
  {
  }

  lemma FacingRule(i: Directions, prev: bool)
    ensures FacingAfter(i, prev) ==
      if i.left then false else if i.right then true else prev
  {
  }

  lemma FrameRule(d: Direction, i: Directions, prev: nat)
    ensures Winner(i, AxisOf(d)) == Some(d) ==> FrameAfter(d, i, prev) == 1
    ensures (forall e :: AxisOf(e) == AxisOf(d) ==> !i.Has(e)) ==> FrameAfter(d, i, prev) == 0
    ensures Winner(i, AxisOf(d)).Some? && Winner(i, AxisOf(d)) != Some(d) ==> FrameAfter(d, i, prev) == prev
    ensures prev <= 1 ==> FrameAfter(d, i, prev) <= 1
    ensures d == Right && i.left ==> FrameAfter(d, i, prev) == prev
    ensures d == Down && i.up ==> FrameAfter(d, i, prev) == prev
  {
  }

  /** A right button lit on an earlier tick stays lit while left is held:
      the losing button of an axis is never reset. */
  lemma StaleHighlight()
    ensures FrameAfter(Right, Only(Right), 0) == 1
    ensures FrameAfter(Right, Only(Left), FrameAfter(Right, Only(Right), 0)) == 1
  {
  }

  lemma NoInputIsIdle(prev: bool, frame: nat)
    ensures AxisVelocity(NoDirections, Horizontal) == 0 && AxisVelocity(NoDirections, Vertical) == 0
    ensures PlayedAnimation(NoDirections) == "capy_idle"
    ensures FacingAfter(NoDirections, prev) == prev
    ensures forall d :: FrameAfter(d, NoDirections, frame) == 0
  {
  }

  /** Whatever else is held, pressing a touch button gives the same intent as
      pressing the matching key. */
  lemma TouchActsLikeKeyAnyState(keys: Directions, touch: Directions, d: Direction)
    ensures Unify(keys, touch.With(d)) == Unify(keys.With(d), touch)
  {
  }

  /** With nothing else held, a pressed touch button moves the player exactly
      as the matching key does. */
  lemma TouchActsLikeKey(d: Direction, prev: bool, frame: nat)
    ensures var byKey := Unify(Only(d), NoDirections);
            var byTouch := Unify(NoDirections, Only(d));
            byKey == byTouch &&
            AxisVelocity(byTouch, AxisOf(d)) == Towards(d) &&
            PlayedAnimation(byTouch) == "capy_side_walk" &&
            FrameAfter(d, byTouch, frame) == 1
  {
  }

  // ---------------------------------------------------------------------------
  // Facing over several ticks

  /** The facing after the ticks `ticks`, one movePlayer call each, in order. */
  function FacingAfterTicks(prev: bool, ticks: seq<Directions>): bool
    decreases |ticks|
  {
    if ticks == [] then prev else FacingAfterTicks(FacingAfter(ticks[0], prev), ticks[1..])
  }

  lemma {:induction false} FacingAfterTicksAppend(prev: bool, a: seq<Directions>, b: seq<Directions>)
    ensures FacingAfterTicks(prev, a + b) == FacingAfterTicks(FacingAfterTicks(prev, a), b)
    decreases |a|
  {
    if a != [] {
      assert (a + b)[1..] == a[1..] + b;
      FacingAfterTicksAppend(FacingAfter(a[0], prev), a[1..], b);
    } else {
      assert a + b == b;
    }
  }

  /** Ticks without horizontal input never change the facing. */
  lemma {:induction false} FacingKeptWithoutHorizontal(prev: bool, ticks: seq<Directions>)
    requires forall k :: 0 <= k < |ticks| ==> !ticks[k].left && !ticks[k].right
    ensures FacingAfterTicks(prev, ticks) == prev
    decreases |ticks|
  {
    if ticks != [] {
      assert !ticks[0].left && !ticks[0].right;
      FacingKeptWithoutHorizontal(prev, ticks[1..]);
    }
  }

  /** The facing is decided by the last tick with horizontal input, whatever came before it. */
  lemma FacingFollowsLastHorizontal(prev: bool, before: seq<Directions>, t: Directions, after: seq<Directions>)
    requires t.left || t.right
    requires forall k :: 0 <= k < |after| ==> !after[k].left && !after[k].right
    ensures FacingAfterTicks(prev, before + [t] + after) == (!t.left && t.right)
  {
    FacingAfterTicksAppend(prev, before + [t], after);
    FacingAfterTicksAppend(prev, before, [t]);
    var p := FacingAfterTicks(prev, before);
    assert FacingAfterTicks(p, [t]) == FacingAfterTicks(FacingAfter(t, p), []);
    FacingKeptWithoutHorizontal(FacingAfter(t, p), after);
  }

  // ---------------------------------------------------------------------------
  // Touch buttons (movePlayerTouch and the handlers wired to the buttons)

  /** The string each button's pointer-down handler passes to movePlayerTouch. */
  function DirectionName(d: Direction): string {
    match d
    case Up => "up"
    case Down => "down"
    case Right => "right"
    case Left => "left"
  }

  /** The case of movePlayerTouch's switch that a direction string selects;
      None for the default case. */
  function ParseDirection(name: string): (d: Option<Direction>)
    ensures d.Some? ==> DirectionName(d.value) == name
    ensures d.None? ==> forall e :: DirectionName(e) != name
  {
    if name == "up" then Some(Up)
    else if name == "down" then Some(Down)
    else if name == "right" then Some(Right)
    else if name == "left" then Some(Left)
    else None
  }

  /** The `active` flags after movePlayerTouch(direction): a known direction sets
      its own flag; no argument (or any other string) clears all four. */
  function TouchAfter(flags: Directions, direction: Option<string>): Directions {
    match (if direction.Some? then ParseDirection(direction.value) else None)
    case Some(d) => flags.With(d)
    case None => NoDirections
  }

  lemma PointerDownSetsOnlyItsFlag(flags: Directions, d: Direction)
    ensures var r := TouchAfter(flags, Some(DirectionName(d)));
            r.Has(d) && forall e :: e != d ==> r.Has(e) == flags.Has(e)
  {
  }

  lemma PointerUpClearsAll(flags: Directions)
    ensures forall d :: !TouchAfter(flags, None).Has(d)
    ensures !TouchAfter(flags, None).Any()
  {
  }

  lemma TouchIdempotent(flags: Directions, direction: Option<string>)
    ensures TouchAfter(TouchAfter(flags, direction), direction) == TouchAfter(flags, direction)
  {
  }
}
