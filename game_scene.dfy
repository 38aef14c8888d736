/** The Game scene's own state and per-frame logic: the touch buttons' flags,
    the player's motion and facing, the buttons' highlight frames, the live
    items and the score. The host (rendering, physics, input devices) is left
    out: keyboard state and the items the player overlaps are parameters. */
module GameScene {
  import opened Controls
  import opened Scoring

  class Scene {
    // The player sprite: what movePlayer sets on it each tick.
    var flipX: bool
    var velocityX: int
    var velocityY: int
    /** Key of the animation last played; "" before the first tick. */
    var animation: string

    // The four touch buttons: the `active` data flag and the displayed frame.
    var upActive: bool
    var downActive: bool
    var leftActive: bool
    var rightActive: bool
    var upFrame: nat
    var downFrame: nat
    var leftFrame: nat
    var rightFrame: nat

    // Scoring.
    var scoreValue: int
    var scoreDisplay: string
    /** The live items of the group, each with its `points`. */
    var items: map<ItemId, int>

    /** The buttons' `active` flags as directions. */
    function Touch(): Directions
      reads this`upActive, this`downActive, this`leftActive, this`rightActive
    {
      Directions(leftActive, rightActive, upActive, downActive)
    }

    /** The player's and the buttons' display state, as one value. */
    function CurrentMotion(): Motion
      reads this`flipX, this`velocityX, this`velocityY, this`animation,
            this`upFrame, this`downFrame, this`leftFrame, this`rightFrame
    {
      Motion(flipX, velocityX, velocityY, animation, Frames(upFrame, downFrame, leftFrame, rightFrame))
    }

    ghost predicate ScoreValid()
      reads this`items, this`scoreValue, this`scoreDisplay
    {
      ScoreOk(scoreValue, scoreDisplay, items)
    }

    ghost predicate Valid()
      reads this`flipX, this`velocityX, this`velocityY, this`animation,
            this`upFrame, this`downFrame, this`leftFrame, this`rightFrame,
            this`items, this`scoreValue, this`scoreDisplay
    {
      MotionOk(CurrentMotion()) && ScoreValid()
    }

    /** The scene as the constructor, the field initialisers and create() leave it. */
    constructor ()
      ensures Valid()
      ensures scoreValue == 0 && scoreDisplay == "Score: 0"
      ensures |items| == ItemCount
      ensures forall id: ItemId :: id in items <==> id < ItemCount
      ensures Touch() == NoDirections
      ensures CurrentMotion() == Motion(false, 0, 0, "", Frames(0, 0, 0, 0))
    {
      flipX, velocityX, velocityY, animation := false, 0, 0, "";
      upActive, downActive, leftActive, rightActive := false, false, false, false;
      upFrame, downFrame, leftFrame, rightFrame := 0, 0, 0, 0;
      scoreValue := 0;
      scoreDisplay := "";
      items := map[];
      new;
      CreateItems(ItemCount);
      scoreDisplay := "Score: 0";
    }

    /** createItems: a fresh group of `num` items, each worth PointsPerItem. */
    method CreateItems(num: nat)
      modifies this`items
      ensures |items| == num
      ensures forall id: ItemId :: id in items <==> id < num
      ensures forall id :: id in items ==> items[id] == PointsPerItem
    {
      items := map[];
      for i := 0 to num
        invariant |items| == i
        invariant forall id: ItemId :: id in items <==> id < i
        invariant forall id :: id in items ==> items[id] == PointsPerItem
      {
        items := items[i := PointsPerItem];
      }
    }

    /** collectItem: add the item's points to the score, show the new score and
        destroy the item. The host only reports live items. */
    method CollectItem(item: ItemId)
      requires ScoreValid() && item in items
      modifies this`scoreValue, this`scoreDisplay, this`items
      ensures ScoreValid()
      ensures scoreValue == old(scoreValue) + old(items[item]) && scoreValue > old(scoreValue)
      ensures scoreDisplay == "Score: " + NatToString(scoreValue)
      ensures items.Keys == old(items).Keys - {item}
    {
      scoreValue := scoreValue + items[item];
      scoreDisplay := "Score: " + NatToString(scoreValue);
      items := items - {item};
      assert old(items).Keys == items.Keys + {item};
    }

    /** The physics overlap query of one tick: collectItem for every live item
        the player overlaps, in whatever order the host reports them. */
    method CollectOverlapping(overlapping: set<ItemId>)
      requires ScoreValid() && overlapping <= items.Keys
      modifies this`scoreValue, this`scoreDisplay, this`items
      ensures ScoreValid()
      ensures items.Keys == old(items).Keys - overlapping
      ensures scoreValue == old(scoreValue) + |overlapping|
    {
      var pending := overlapping;
      while pending != {}
        invariant ScoreValid()
        invariant pending <= overlapping && pending <= items.Keys
        invariant items.Keys == (old(items).Keys - overlapping) + pending
        invariant scoreValue + |pending| == old(scoreValue) + |overlapping|
        decreases pending
      {
        var item :| item in pending;
        CollectItem(item);
        pending := pending - {item};
      }
    }

    /** movePlayerTouch: a known direction sets that button's flag; no argument
        (or any other string) clears all four flags. */
    method MovePlayerTouch(direction: Option<string>)
      modifies this`upActive, this`downActive, this`leftActive, this`rightActive
      ensures Touch() == TouchAfter(old(Touch()), direction)
    {
      if direction == Some("up") {
        upActive := true;
      } else if direction == Some("down") {
        downActive := true;
      } else if direction == Some("right") {
        rightActive := true;
      } else if direction == Some("left") {
        leftActive := true;
      } else {
        upActive := false;
        downActive := false;
        rightActive := false;
        leftActive := false;
      }
    }

    /** The pointer-down handler of the button for `button`. */
    method OnPointerDown(button: Direction)
      modifies this`upActive, this`downActive, this`leftActive, this`rightActive
      ensures Touch() == old(Touch()).With(button)
    {
      MovePlayerTouch(Some(DirectionName(button)));
    }

    /** The pointer-up handler of the button for `button`: it passes no
        direction, so releasing any button clears every button's flag. */
    method OnPointerUp(button: Direction)
      modifies this`upActive, this`downActive, this`leftActive, this`rightActive
      ensures Touch() == NoDirections
    {
      MovePlayerTouch(None);
    }

    /** The horizontal pass of movePlayer: left beats right; with neither set
        both horizontal buttons are reset. Returns the new animation name and
        facing, which movePlayer keeps in locals. */
    method HorizontalPass(i: Directions, animationName: string, flip: bool)
      returns (animationName': string, flip': bool)
      modifies this`velocityX, this`leftFrame, this`rightFrame
      ensures velocityX == AxisVelocity(i, Horizontal)
      ensures leftFrame == FrameAfter(Left, i, old(leftFrame))
      ensures rightFrame == FrameAfter(Right, i, old(rightFrame))
      ensures flip' == FacingAfter(i, flip)
      ensures animationName' == if i.left || i.right then WalkName else animationName
    {
      var run := false;
      animationName', flip' := animationName, flip;
      if i.left {
        velocityX := -Speed;
        animationName' := if run then RunName else WalkName;
        flip' := false;
        leftFrame := 1;
      } else if i.right {
        velocityX := Speed;
        animationName' := if run then RunName else WalkName;
        flip' := true;
        rightFrame := 1;
      } else {
        velocityX := 0;
        rightFrame := 0;
        leftFrame := 0;
      }
    }

    /** The vertical pass of movePlayer: up beats down; with neither set both
        vertical buttons are reset. It sets the facing and the horizontal
        buttons again, to what the horizontal pass already chose, so it never
        changes them. */
    method VerticalPass(i: Directions, animationName: string, flip: bool)
      returns (animationName': string, flip': bool)
      requires i.left ==> leftFrame == 1 && !flip
      requires !i.left && i.right ==> rightFrame == 1 && flip
      modifies this`velocityY, this`upFrame, this`downFrame, this`leftFrame, this`rightFrame
      ensures velocityY == AxisVelocity(i, Vertical)
      ensures upFrame == FrameAfter(Up, i, old(upFrame))
      ensures downFrame == FrameAfter(Down, i, old(downFrame))
      ensures leftFrame == old(leftFrame) && rightFrame == old(rightFrame) && flip' == flip
      ensures animationName' == if i.up || i.down then WalkName else animationName
    {
      var run := false;
      animationName', flip' := animationName, flip;
      if i.up {
        velocityY := -Speed;
        animationName' := if run then RunName else WalkName;
        upFrame := 1;
        if i.left {
          flip' := false;
          leftFrame := 1;
        } else if i.right {
          flip' := true;
          rightFrame := 1;
        }
      } else if i.down {
        velocityY := Speed;
        animationName' := if run then RunName else WalkName;
        downFrame := 1;
        if i.left {
          flip' := false;
          leftFrame := 1;
        } else if i.right {
          flip' := true;
          rightFrame := 1;
        }
      } else {
        velocityY := 0;
        upFrame := 0;
        downFrame := 0;
      }
    }

    /** movePlayer: the horizontal pass, then the vertical pass, then the
        animation and the facing are applied to the sprite. */
    method MovePlayer(left: bool, right: bool, up: bool, down: bool)
      requires MotionOk(CurrentMotion())
      modifies this`flipX, this`velocityX, this`velocityY, this`animation,
               this`upFrame, this`downFrame, this`leftFrame, this`rightFrame
      ensures CurrentMotion() == MoveStep(old(CurrentMotion()), Directions(left, right, up, down))
      ensures MotionOk(CurrentMotion())
    {
      var i := Directions(left, right, up, down);
      var animationName := IdleName;
      var flip := flipX;
      animationName, flip := HorizontalPass(i, animationName, flip);
      animationName, flip := VerticalPass(i, animationName, flip);
      animation := AnimationKey(animationName);
      flipX := flip;
    }

    /** update: one tick. Each direction is the cursor key OR the touch flag;
        then the player moves and the overlapping items are collected. */
    method Update(keys: Directions, overlapping: set<ItemId>)
      requires Valid() && overlapping <= items.Keys
      modifies this`flipX, this`velocityX, this`velocityY, this`animation,
               this`upFrame, this`downFrame, this`leftFrame, this`rightFrame,
               this`scoreValue, this`scoreDisplay, this`items
      ensures Valid()
      ensures CurrentMotion() == MoveStep(old(CurrentMotion()), Unify(keys, old(Touch())))
      ensures items.Keys == old(items).Keys - overlapping
      ensures scoreValue == old(scoreValue) + |overlapping|
    {
      var i := Unify(keys, Touch());
      MovePlayer(i.left, i.right, i.up, i.down);
      CollectOverlapping(overlapping);
    }
  }

  /** A client of the scene: three items overlapped in the first tick. */
  method ThreeItemsInOneTick() {
    var scene := new Scene();
    scene.Update(NoDirections, {0, 1, 2});
    assert |{0, 1, 2}| == 3;
    assert scene.scoreValue == 3;
    assert scene.scoreDisplay == "Score: 3";
    assert |scene.items| == ItemCount - 3;
  }

  /** A client of the scene: the up button pressed for one tick, then
      released through the down button's handler. */
  method UpButtonPressAndRelease() {
    var scene := new Scene();
    scene.OnPointerDown(Up);
    assert scene.Touch() == Directions(false, false, true, false);
    scene.Update(NoDirections, {});
    assert scene.velocityY == -Speed && scene.velocityX == 0;
    assert scene.upFrame == 1 && scene.animation == "capy_side_walk";
    assert !scene.flipX;
    scene.OnPointerUp(Down);
    assert !scene.Touch().Any();
  }
}
