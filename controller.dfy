/** The tunable scalars that the menu and the keyboard change: particle
    count, gravity, mean emission speed, render style and sizes, texture and
    the run flag. This module gives their transitions as functions on a
    record; the class in module Simulation applies them to its fields. */
module Controller {

  /** Capacity of the particle store. */
  const MAX: int := 1000000

  /** The count the program starts with and that menu item 17 restores. */
  const INITIAL_COUNT: int := 100

  datatype Controls = Controls(
    numberParticles: int,
    gravity: real,
    meanVelocity: real,
    point: bool, square: bool, sphere: bool,
    pointSize: int,
    squareSize: real,
    slicesStacks: real,
    textureEnable: int,
    start: int)

  /** The values the program starts with. */
  const Initial: Controls :=
    Controls(INITIAL_COUNT, 2.0, 3.0, true, false, false, 2, 0.02, 2.0, 0, 1)

  /** Exactly one of the three render-style flags is set. */
  predicate ExactlyOneStyle(c: Controls) {
    (if c.point then 1 else 0) + (if c.square then 1 else 0) + (if c.sphere then 1 else 0) == 1
  }

  /** `x` is a whole number. */
  predicate Whole(x: real) {
    x.Floor as real == x
  }

  /** What every reachable control state satisfies: the count within the
      store, gravity and mean speed whole and at or above their starting values, one
      render style, each size on the ladder its steps climb, and the two
      toggles at 0 or 1. */
  predicate Inv(c: Controls) {
    && 1 <= c.numberParticles <= MAX
    && c.gravity >= 2.0 && Whole(c.gravity)
    && c.meanVelocity >= 3.0 && Whole(c.meanVelocity)
    && ExactlyOneStyle(c)
    && (c.pointSize == 2 || c.pointSize == 4 || c.pointSize == 8 || c.pointSize == 16 || c.pointSize == 32)
    && (c.squareSize == 0.02 || c.squareSize == 0.05 || c.squareSize == 0.08)
    && (c.slicesStacks == 2.0 || c.slicesStacks == 6.0 || c.slicesStacks == 10.0
        || c.slicesStacks == 14.0 || c.slicesStacks == 18.0)
    && (c.textureEnable == 0 || c.textureEnable == 1)
    && (c.start == 0 || c.start == 1)
  }

  /** Menu item 18 takes effect: the count grows tenfold within capacity. */
  predicate Grows(c: Controls, option: int) {
    option == 18 && c.numberParticles * 10 <= MAX
  }

  /** The scalar effect of one menu item (items 4 to 20). Items for the view
      (2, 3), quitting (666) and any other value leave the controls as they are. */
  function Menu(c: Controls, option: int): (r: Controls)
    ensures r.start == c.start
    // gravity and mean speed move by one; they go down only from above 3
    ensures r.gravity > c.gravity ==> option == 4 && r.gravity == c.gravity + 1.0
    ensures r.gravity < c.gravity ==> option == 5 && c.gravity > 3.0 && r.gravity == c.gravity - 1.0
    ensures r.meanVelocity > c.meanVelocity ==> option == 6 && r.meanVelocity == c.meanVelocity + 1.0
    ensures r.meanVelocity < c.meanVelocity ==>
      option == 7 && c.meanVelocity > 3.0 && r.meanVelocity == c.meanVelocity - 1.0
    // and each of those items takes effect when its guard holds
    ensures option == 4 ==> r.gravity == c.gravity + 1.0
    ensures option == 5 && c.gravity > 3.0 ==> r.gravity == c.gravity - 1.0
    ensures option == 6 ==> r.meanVelocity == c.meanVelocity + 1.0
    ensures option == 7 && c.meanVelocity > 3.0 ==> r.meanVelocity == c.meanVelocity - 1.0
    // items 8 to 10 select exactly the named style; nothing else touches the style
    ensures 8 <= option <= 10 ==>
      ExactlyOneStyle(r) && r.point == (option == 8) && r.square == (option == 9) && r.sphere == (option == 10)
    ensures !(8 <= option <= 10) ==> r.point == c.point && r.square == c.square && r.sphere == c.sphere
    // a size or the texture changes only while its style is active
    ensures r.pointSize != c.pointSize ==> c.point && (option == 11 || option == 12)
    ensures r.squareSize != c.squareSize ==> c.square && (option == 13 || option == 14)
    ensures r.slicesStacks != c.slicesStacks ==> c.sphere && (option == 15 || option == 16)
    ensures r.textureEnable != c.textureEnable ==> c.sphere && option == 20
    // while its style is active, a size moves one rung when the rung exists
    // and stays put otherwise; the texture always flips
    ensures option == 11 && c.point ==>
      r.pointSize == if c.pointSize * 2 < 64 then 2 * c.pointSize else c.pointSize
    ensures option == 12 && c.point ==>
      r.pointSize == if c.pointSize / 2 > 1 then c.pointSize / 2 else c.pointSize
    ensures option == 13 && c.square ==>
      r.squareSize == if c.squareSize + 0.03 < 0.10 then c.squareSize + 0.03 else c.squareSize
    ensures option == 14 && c.square ==>
      r.squareSize == if c.squareSize - 0.03 > 0.0 then c.squareSize - 0.03 else c.squareSize
    ensures option == 15 && c.sphere ==>
      r.slicesStacks == if c.slicesStacks + 4.0 <= 20.0 then c.slicesStacks + 4.0 else c.slicesStacks
    ensures option == 16 && c.sphere ==>
      r.slicesStacks == if c.slicesStacks - 4.0 > 0.0 then c.slicesStacks - 4.0 else c.slicesStacks
    ensures option == 20 && c.sphere ==> r.textureEnable == 1 - c.textureEnable
    // the count changes only through items 17 to 19
    ensures Grows(c, option) ==> r.numberParticles == 10 * c.numberParticles
    ensures option == 18 && !Grows(c, option) ==> r.numberParticles == c.numberParticles
    ensures option == 19 ==>
      r.numberParticles == if c.numberParticles / 10 >= 1 then c.numberParticles / 10 else c.numberParticles
    ensures option == 17 ==> r.numberParticles == INITIAL_COUNT
    ensures !(17 <= option <= 19) ==> r.numberParticles == c.numberParticles
  {
    if option == 4 then c.(gravity := c.gravity + 1.0)
    else if option == 5 then
      if c.gravity > 3.0 then c.(gravity := c.gravity - 1.0) else c
    else if option == 6 then c.(meanVelocity := c.meanVelocity + 1.0)
    else if option == 7 then
      if c.meanVelocity > 3.0 then c.(meanVelocity := c.meanVelocity - 1.0) else c
    else if option == 8 then c.(point := true, square := false, sphere := false)
    else if option == 9 then c.(square := true, point := false, sphere := false)
    else if option == 10 then c.(sphere := true, point := false, square := false)
    else if option == 11 then
      if c.point && c.pointSize * 2 < 64 then c.(pointSize := c.pointSize * 2) else c
    else if option == 12 then
      if c.point && c.pointSize / 2 > 1 then c.(pointSize := c.pointSize / 2) else c
    else if option == 13 then
      if c.square && c.squareSize + 0.03 < 0.10 then c.(squareSize := c.squareSize + 0.03) else c
    else if option == 14 then
      if c.square && c.squareSize - 0.03 > 0.0 then c.(squareSize := c.squareSize - 0.03) else c
    else if option == 15 then
      if c.sphere && c.slicesStacks + 4.0 <= 20.0 then c.(slicesStacks := c.slicesStacks + 4.0) else c
    else if option == 16 then
      if c.sphere && c.slicesStacks - 4.0 > 0.0 then c.(slicesStacks := c.slicesStacks - 4.0) else c
    else if option == 17 then c.(numberParticles := INITIAL_COUNT)
    else if option == 18 then
      if c.numberParticles * 10 <= MAX then c.(numberParticles := c.numberParticles * 10) else c
    else if option == 19 then
      if c.numberParticles / 10 >= 1 then c.(numberParticles := c.numberParticles / 10) else c
    else if option == 20 then
      if c.sphere then c.(textureEnable := 1 - c.textureEnable) else c
    else c
  }

  /** One step up from a whole number is whole. */
  lemma WholeUp(x: real)
    requires Whole(x)
    ensures Whole(x + 1.0)
  {
    assert (x + 1.0).Floor == x.Floor + 1;
  }

  /** One step down from a whole number above 3 is whole and at least 3. */
  lemma WholeDown(x: real)
    requires Whole(x) && x > 3.0
    ensures Whole(x - 1.0) && x - 1.0 >= 3.0
  {
    assert (x - 1.0).Floor == x.Floor - 1;
  }

  /** Every menu item keeps the invariant. */
  lemma MenuKeepsInv(c: Controls, option: int)
    requires Inv(c)
    ensures Inv(Menu(c, option))
  {
    if option == 4 || option == 5 {
      GravityKeepsInv(c, option);
    } else if option == 6 || option == 7 {
      SpeedKeepsInv(c, option);
    } else if 8 <= option <= 10 {
      StyleKeepsInv(c, option);
    } else if 11 <= option <= 16 || option == 20 {
      SizesKeepInv(c, option);
    } else if 17 <= option <= 19 {
      CountKeepsInv(c, option);
    } else {
      OtherItemsKeepInv(c, option);
    }
  }

  lemma OtherItemsKeepInv(c: Controls, option: int)
    requires Inv(c) && !(4 <= option <= 20)
    ensures Menu(c, option) == c
  {
  }

  lemma SizesKeepInv(c: Controls, option: int)
    requires Inv(c) && (11 <= option <= 16 || option == 20)
    ensures Inv(Menu(c, option))
  {
    if option == 11 || option == 12 {
      PointSizeKeepsInv(c, option);
    } else if option == 13 || option == 14 {
      SquareSizeKeepsInv(c, option);
    } else if option == 15 || option == 16 {
      SlicesKeepInv(c, option);
    }
  }

  lemma PointSizeKeepsInv(c: Controls, option: int)
    requires Inv(c) && (option == 11 || option == 12)
    ensures Inv(Menu(c, option))
  {
  }

  lemma SquareSizeKeepsInv(c: Controls, option: int)
    requires Inv(c) && (option == 13 || option == 14)
    ensures Inv(Menu(c, option))
  {
  }

  lemma SlicesKeepInv(c: Controls, option: int)
    requires Inv(c) && (option == 15 || option == 16)
    ensures Inv(Menu(c, option))
  {
  }

  lemma StyleKeepsInv(c: Controls, option: int)
    requires Inv(c) && 8 <= option <= 10
    ensures Inv(Menu(c, option))
  {
  }

  lemma CountKeepsInv(c: Controls, option: int)
    requires Inv(c) && 17 <= option <= 19
    ensures Inv(Menu(c, option))
  {
  }

  lemma GravityKeepsInv(c: Controls, option: int)
    requires Inv(c) && (option == 4 || option == 5)
    ensures Inv(Menu(c, option))
  {
    var r := Menu(c, option);
    if option == 4 {
      WholeUp(c.gravity);
      assert r == c.(gravity := c.gravity + 1.0);
    } else if c.gravity > 3.0 {
      WholeDown(c.gravity);
      assert r == c.(gravity := c.gravity - 1.0);
    } else {
      assert r == c;
    }
  }

  lemma SpeedKeepsInv(c: Controls, option: int)
    requires Inv(c) && (option == 6 || option == 7)
    ensures Inv(Menu(c, option))
  {
    var r := Menu(c, option);
    if option == 6 {
      WholeUp(c.meanVelocity);
      assert r == c.(meanVelocity := c.meanVelocity + 1.0);
    } else if c.meanVelocity > 3.0 {
      WholeDown(c.meanVelocity);
      assert r == c.(meanVelocity := c.meanVelocity - 1.0);
    } else {
      assert r == c;
    }
  }

  /** Enter (13) flips the run flag; Space sets it. The camera keys and Escape
      change nothing modelled here. */
  function Keyboard(c: Controls, key: char): (r: Controls)
    ensures Inv(c) ==> Inv(r)
    ensures r == c.(start := r.start)
    ensures key == '\r' ==> r.start + c.start == 1
    ensures key == ' ' ==> r.start == 1
    ensures key != '\r' && key != ' ' ==> r == c
  {
    if key == '\r' then c.(start := 1 - c.start)
    else if key == ' ' then c.(start := 1)
    else c
  }

  /** An input event: a menu selection or a key press. */
  datatype Event = MenuItem(option: int) | Key(key: char)

  function Apply(c: Controls, e: Event): Controls {
    match e
    case MenuItem(option) => Menu(c, option)
    case Key(key) => Keyboard(c, key)
  }

  /** The controls after a sequence of events, in order. */
  function Run(c: Controls, events: seq<Event>): Controls
    decreases |events|
  {
    if events == [] then c else Run(Apply(c, events[0]), events[1..])
  }

  lemma InitialInv()
    ensures Inv(Initial)
  {
  }

  /** Every event sequence keeps the invariant. */
  lemma {:induction false} RunKeepsInv(c: Controls, events: seq<Event>)
    requires Inv(c)
    ensures Inv(Run(c, events))
    decreases |events|
  {
    if events != [] {
      match events[0] {
        case MenuItem(option) => MenuKeepsInv(c, option);
        case Key(_) =>
      }
      RunKeepsInv(Apply(c, events[0]), events[1..]);
    }
  }

  /** From the starting values, whatever the user selects: the count stays in
      [1, MAX], gravity at least 2, mean speed at least 3, exactly one style,
      the point size in [2, 32], the sprite half-size in (0, 0.10), the sphere
      tessellation in (0, 20]. */
  lemma ReachableBounds(events: seq<Event>)
    ensures var c := Run(Initial, events);
      && 1 <= c.numberParticles <= MAX
      && c.gravity >= 2.0 && c.meanVelocity >= 3.0
      && ExactlyOneStyle(c)
      && 2 <= c.pointSize <= 32
      && 0.0 < c.squareSize < 0.10
      && 0.0 < c.slicesStacks <= 20.0
  {
    InitialInv();
    RunKeepsInv(Initial, events);
  }

  /** Toggling the texture twice restores it. */
  lemma TextureToggleTwice(c: Controls)
    ensures Menu(Menu(c, 20), 20) == c
  {
  }

  /** Pressing Enter twice restores the run flag. */
  lemma EnterTwice(c: Controls)
    ensures Keyboard(Keyboard(c, '\r'), '\r') == c
  {
  }
}
