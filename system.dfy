/** The particle store and the program state that the idle, menu and
    keyboard callbacks update in place. */
module Simulation {
  import opened Physics
  import opened Controller

  /** The program's global state: a fixed-capacity array of particle slots,
      of which `[0, numberParticles)` are live, and the tunable scalars. */
  class ParticleSystem {
    const slots: array<Particle>
    var numberParticles: int
    var gravity: real
    var meanVelocity: real
    var point: bool
    var square: bool
    var sphere: bool
    var pointSize: int
    var squareSize: real
    var slicesStacks: real
    var textureEnable: int
    var start: int

    /** The scalar fields as one value. */
    function Current(): Controls
      reads this
    {
      Controls(numberParticles, gravity, meanVelocity, point, square, sphere,
               pointSize, squareSize, slicesStacks, textureEnable, start)
    }

    /** Slots below this bound have all been emitted: the live ones, and the
        first INITIAL_COUNT, which menu item 17 can expose again. */
    function Emitted(): int
      reads this
    {
      if numberParticles < INITIAL_COUNT then INITIAL_COUNT else numberParticles
    }

    /** The store has its full capacity and the scalars are in range. */
    ghost predicate Ready()
      reads this
    {
      slots.Length == MAX && Inv(Current())
    }

    /** Every slot below `n` holds a well-formed particle. */
    ghost predicate WellFormedBelow(n: int)
      reads slots
    {
      forall k :: 0 <= k < n && k < slots.Length ==> WellFormed(slots[k])
    }

    /** Ready, and no slot that is or can become live holds a particle that
        was never emitted. */
    ghost predicate Valid()
      reads this, slots
    {
      Ready() && WellFormedBelow(Emitted())
    }

    /** Program start: the static initial values, then `makeParticleArray`. */
    constructor (draws: seq<Draw>)
      requires |draws| >= INITIAL_COUNT && DrawsInRange(draws)
      ensures Valid() && fresh(slots)
      ensures Current() == Initial
      ensures forall k :: 0 <= k < INITIAL_COUNT ==> slots[k] == Emit(draws[k], Initial.meanVelocity)
    {
      slots := new Particle[MAX];
      numberParticles := INITIAL_COUNT;
      gravity := 2.0;
      meanVelocity := 3.0;
      point, square, sphere := true, false, false;
      pointSize := 2;
      squareSize := 0.02;
      slicesStacks := 2.0;
      textureEnable := 0;
      start := 1;
      new;
      InitialInv();
      MakeParticleArray(draws);
    }

    /** `pointInt(i)`: slot i becomes a freshly emitted particle; no other slot changes. */
    method PointInt(i: int, d: Draw)
      requires 0 <= i < slots.Length && DrawInRange(d)
      modifies slots
      ensures slots[i] == Emit(d, meanVelocity)
      ensures forall k :: 0 <= k < slots.Length && k != i ==> slots[k] == old(slots[k])
    {
      slots[i] := slots[i].(x := 0.0, y := d.height, z := 0.0);
      slots[i] := slots[i].(age := 0.0);
      slots[i] := slots[i].(dirX := d.cosHeading, dirZ := d.sinHeading);
      var velocity := meanVelocity + d.jitter;
      slots[i] := slots[i].(vPlanar := velocity * d.cosElevation, vVertical := velocity * d.sinElevation);
      slots[i] := slots[i].(red := d.red, green := d.green, blue := d.blue, alpha := d.alpha);
      slots[i] := slots[i].(down := true);
    }

    /** `makeParticleArray`: every live slot is emitted afresh with its own draw. */
    method MakeParticleArray(draws: seq<Draw>)
      requires Ready() && |draws| >= numberParticles && DrawsInRange(draws)
      requires forall k :: numberParticles <= k < Emitted() ==> WellFormed(slots[k])
      modifies slots
      ensures Valid()
      ensures forall k :: 0 <= k < numberParticles ==> slots[k] == Emit(draws[k], meanVelocity)
      ensures forall k :: numberParticles <= k < MAX ==> slots[k] == old(slots[k])
    {
      for i := 0 to numberParticles
        invariant forall k :: 0 <= k < i ==> slots[k] == Emit(draws[k], meanVelocity)
        invariant forall k :: i <= k < MAX ==> slots[k] == old(slots[k])
      {
        PointInt(i, draws[i]);
      }
      forall k | 0 <= k < numberParticles
        ensures WellFormed(slots[k])
      {
        EmitWellFormed(draws[k], meanVelocity);
      }
    }

    /** The body of the loop in `updateParticleArray` for slot i: one `Step`,
        re-emitting with `d` if the slot lands beyond EDGE (the early return
        stands for the loop's `continue`). No other slot changes. */
    method UpdateSlot(i: int, d: Draw)
      requires 0 <= i < slots.Length && DrawInRange(d)
      modifies slots
      ensures slots[i] == Step(old(slots[i]), gravity, meanVelocity, d)
      ensures forall k :: 0 <= k < slots.Length && k != i ==> slots[k] == old(slots[k])
    {
      ghost var p := slots[i];
      var distance := slots[i].vPlanar * slots[i].age;
      slots[i] := slots[i].(x := slots[i].dirX * distance, z := slots[i].dirZ * distance);
      if slots[i].down {
        slots[i] := slots[i].(y := slots[i].y - (slots[i].vVertical + 0.5 * gravity * TIME_DELTA) * TIME_DELTA);
        slots[i] := slots[i].(vVertical := slots[i].vVertical + gravity * TIME_DELTA);
      } else {
        if slots[i].vVertical > 0.0 {
          slots[i] := slots[i].(y := slots[i].y + slots[i].vVertical * TIME_DELTA - 0.5 * gravity * TIME_DELTA * TIME_DELTA);
          slots[i] := slots[i].(vVertical := slots[i].vVertical - gravity * TIME_DELTA);
        } else {
          slots[i] := slots[i].(down := true);
        }
      }
      ghost var v := Vertical(p, gravity);
      assert slots[i] == p.(x := p.dirX * distance, z := p.dirZ * distance, y := v.y, vVertical := v.v, down := v.down);
      if (slots[i].y <= 5.0 && distance < 3.0) || (slots[i].y <= 0.0 && distance > 3.0) {
        if distance > EDGE {
          PointInt(i, d);
          return;
        }
        slots[i] := slots[i].(down := false);
        slots[i] := slots[i].(vVertical := slots[i].vVertical * 0.8);
      }
      slots[i] := slots[i].(age := slots[i].age + TIME_DELTA);
    }

    /** `updateParticleArray`: every live slot takes one `Step`, re-emitting
        with its own draw if it lands beyond EDGE; slots at or beyond the
        count are left alone. */
    method UpdateParticleArray(draws: seq<Draw>)
      requires Valid() && |draws| >= numberParticles && DrawsInRange(draws)
      modifies slots
      ensures Valid()
      ensures forall k :: 0 <= k < numberParticles ==>
        slots[k] == Step(old(slots[k]), gravity, meanVelocity, draws[k])
      ensures forall k :: numberParticles <= k < MAX ==> slots[k] == old(slots[k])
    {
      for i := 0 to numberParticles
        invariant forall k :: 0 <= k < i ==> slots[k] == Step(old(slots[k]), gravity, meanVelocity, draws[k])
        invariant forall k :: i <= k < MAX ==> slots[k] == old(slots[k])
      {
        UpdateSlot(i, draws[i]);
      }
      forall k | 0 <= k < Emitted()
        ensures WellFormed(slots[k])
      {
        if k < numberParticles {
          StepWellFormed(old(slots[k]), gravity, meanVelocity, draws[k]);
        }
      }
    }

    /** `idle`: the event loop calls it only while it is installed, which is
        exactly while `start` is 1. */
    method Idle(draws: seq<Draw>)
      requires Valid() && start == 1 && |draws| >= numberParticles && DrawsInRange(draws)
      modifies slots
      ensures Valid()
      ensures forall k :: 0 <= k < numberParticles ==>
        slots[k] == Step(old(slots[k]), gravity, meanVelocity, draws[k])
      ensures forall k :: numberParticles <= k < MAX ==> slots[k] == old(slots[k])
    {
      UpdateParticleArray(draws);
    }

    /** `menu`, items 4 to 20. Item 18 emits each newly exposed slot with its
        own draw; no other item touches a slot. */
    method Menu(option: int, draws: seq<Draw>)
      requires Valid()
      requires Grows(Current(), option) ==> |draws| >= 10 * numberParticles && DrawsInRange(draws)
      modifies this, slots
      ensures Valid()
      ensures Current() == Controller.Menu(old(Current()), option)
      ensures Grows(old(Current()), option) ==>
        forall k :: old(numberParticles) <= k < numberParticles ==> slots[k] == Emit(draws[k], meanVelocity)
      ensures forall k :: 0 <= k < MAX && !(Grows(old(Current()), option) && old(numberParticles) <= k < numberParticles) ==>
        slots[k] == old(slots[k])
    {
      if 4 <= option <= 7 {
        AdjustForces(option);
      } else if 8 <= option <= 10 {
        SelectStyle(option);
      } else if 11 <= option <= 16 || option == 20 {
        AdjustStyle(option);
      } else if option == 17 || option == 19 {
        SetCount(option);
      } else if option == 18 {
        IncreaseCount(draws);
      }
    }

    /** Menu item 18: if ten times the count fits in the store, the count
        grows tenfold and each newly exposed slot is emitted with its own
        draw; the slots that were live keep their state. */
    method IncreaseCount(draws: seq<Draw>)
      requires Valid()
      requires Grows(Current(), 18) ==> |draws| >= 10 * numberParticles && DrawsInRange(draws)
      modifies this`numberParticles, slots
      ensures Valid()
      ensures Current() == Controller.Menu(old(Current()), 18)
      ensures Grows(old(Current()), 18) ==>
        forall k :: old(numberParticles) <= k < numberParticles ==> slots[k] == Emit(draws[k], meanVelocity)
      ensures forall k :: 0 <= k < MAX && !(Grows(old(Current()), 18) && old(numberParticles) <= k < numberParticles) ==>
        slots[k] == old(slots[k])
    {
      ghost var before := Current();
      MenuKeepsInv(before, 18);
      if numberParticles * 10 <= MAX {
        var curNoPoint := numberParticles;
        numberParticles := curNoPoint * 10;
        assert Current() == Controller.Menu(before, 18);
        for i := curNoPoint to numberParticles
          invariant numberParticles == curNoPoint * 10
          invariant forall k :: curNoPoint <= k < i ==> slots[k] == Emit(draws[k], meanVelocity)
          invariant forall k :: 0 <= k < MAX && !(curNoPoint <= k < i) ==> slots[k] == old(slots[k])
        {
          PointInt(i, draws[i]);
        }
        forall k | 0 <= k < Emitted()
          ensures WellFormed(slots[k])
        {
          if curNoPoint <= k < numberParticles {
            EmitWellFormed(draws[k], meanVelocity);
          } else {
            assert slots[k] == old(slots[k]);
          }
        }
      }
    }

    /** Menu items 4 to 7: gravity and the mean emission speed go up by one,
        or down by one from above 3. */
    method AdjustForces(option: int)
      requires Valid() && 4 <= option <= 7
      modifies this`gravity, this`meanVelocity
      ensures Valid()
      ensures Current() == Controller.Menu(old(Current()), option)
    {
      ghost var before := Current();
      if option == 4 {
        gravity := gravity + 1.0;
      } else if option == 5 {
        if gravity > 3.0 { gravity := gravity - 1.0; }
      } else if option == 6 {
        meanVelocity := meanVelocity + 1.0;
      } else {
        if meanVelocity > 3.0 { meanVelocity := meanVelocity - 1.0; }
      }
      assert Current() == Controller.Menu(before, option);
      MenuKeepsInv(before, option);
    }

    /** Menu items 8 to 10: select points, sprites or spheres. */
    method SelectStyle(option: int)
      requires Valid() && 8 <= option <= 10
      modifies this`point, this`square, this`sphere
      ensures Valid()
      ensures Current() == Controller.Menu(old(Current()), option)
    {
      ghost var before := Current();
      if option == 8 {
        point, square, sphere := true, false, false;
      } else if option == 9 {
        square, point, sphere := true, false, false;
      } else {
        sphere, point, square := true, false, false;
      }
      assert Current() == Controller.Menu(before, option);
      MenuKeepsInv(before, option);
    }

    /** Menu items 11 to 16 and 20: the size of the active style, or the
        texture while spheres are drawn. */
    method AdjustStyle(option: int)
      requires Valid() && (11 <= option <= 16 || option == 20)
      modifies this`pointSize, this`squareSize, this`slicesStacks, this`textureEnable
      ensures Valid()
      ensures Current() == Controller.Menu(old(Current()), option)
    {
      ghost var before := Current();
      if option == 11 {
        if point && pointSize * 2 < 64 { pointSize := pointSize * 2; }
      } else if option == 12 {
        if point && pointSize / 2 > 1 { pointSize := pointSize / 2; }
      } else if option == 13 {
        if square && squareSize + 0.03 < 0.10 { squareSize := squareSize + 0.03; }
      } else if option == 14 {
        if square && squareSize - 0.03 > 0.0 { squareSize := squareSize - 0.03; }
      } else if option == 15 {
        if sphere && slicesStacks + 4.0 <= 20.0 { slicesStacks := slicesStacks + 4.0; }
      } else if option == 16 {
        if sphere && slicesStacks - 4.0 > 0.0 { slicesStacks := slicesStacks - 4.0; }
      } else {
        if sphere { textureEnable := 1 - textureEnable; }
      }
      assert Current() == Controller.Menu(before, option);
      MenuKeepsInv(before, option);
    }

    /** Menu items 17 and 19: back to 100 particles, or a tenth as many if
        that leaves at least one. No slot is touched. */
    method SetCount(option: int)
      requires Valid() && (option == 17 || option == 19)
      modifies this`numberParticles
      ensures Valid()
      ensures Current() == Controller.Menu(old(Current()), option)
    {
      MenuKeepsInv(Current(), option);
      ghost var bound := Emitted();
      assert WellFormedBelow(bound);
      if option == 17 {
        numberParticles := INITIAL_COUNT;
      } else {
        if numberParticles / 10 >= 1 { numberParticles := numberParticles / 10; }
      }
      assert Emitted() <= bound;
    }

    /** `keyboard`: Enter flips `start`; Space sets it and emits every live
        slot afresh. */
    method Keyboard(key: char, draws: seq<Draw>)
      requires Valid()
      requires key == ' ' ==> |draws| >= numberParticles && DrawsInRange(draws)
      modifies this, slots
      ensures Valid()
      ensures Current() == Controller.Keyboard(old(Current()), key)
      ensures key == ' ' ==> forall k :: 0 <= k < numberParticles ==> slots[k] == Emit(draws[k], meanVelocity)
      ensures forall k :: 0 <= k < MAX && (key != ' ' || numberParticles <= k) ==> slots[k] == old(slots[k])
    {
      if key == '\r' {
        start := 1 - start;
      } else if key == ' ' {
        start := 1;
        MakeParticleArray(draws);
      }
    }
  }
}
