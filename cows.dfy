/** A single cow: its state as a value, the per-frame transitions that state goes
    through (walking, falling, being lifted by the beam), and the mutable `Cow`
    object that the herd manager updates in place. */
module Cows {

  /** Width of the world, in pixels. */
  const Width: int := 1280
  /** Height of the ground line; a cow at this height walks. */
  const Ground: real := 100.0
  /** How far past either edge a walking cow may go before it wraps to the other side. */
  const Margin: real := 100.0
  /** How far a cow above the ground drops in one frame. */
  const FallRate: real := 8.0
  /** How far the beam lifts a cow in one frame. */
  const LiftRate: real := 4.0
  /** Number of leg poses a walking cow cycles through. */
  const StepCycle: int := 6

  /** The right-hand end of the strip a walking cow stays in. */
  const RightBound: real := Width as real + Margin

  /** Everything about a cow that the simulation reads or writes. */
  datatype CowState = CowState(
    x: real,
    y: real,
    direction: int,
    step: int,
    flagForDeletion: bool,
    isFrozen: bool)

  /** The two random draws a new cow makes: a speed in 2..4 and whether it faces left. */
  datatype Heading = Heading(magnitude: int, reversed: bool)

  predicate ValidHeading(h: Heading) {
    2 <= h.magnitude <= 4
  }

  /** A walking speed a cow can be given: 2 to 4 pixels per frame, either way. */
  predicate ValidDirection(d: int) {
    2 <= d <= 4 || -4 <= d <= -2
  }

  /** The invariant every live cow keeps. */
  predicate WellFormed(c: CowState) {
    ValidDirection(c.direction) && 0 <= c.step < StepCycle
  }

  /** The signed direction a heading gives: its magnitude, negated when reversed. */
  function Direction(h: Heading): (d: int)
    requires ValidHeading(h)
    ensures ValidDirection(d)
    ensures d < 0 <==> h.reversed
    ensures (if d < 0 then -d else d) == h.magnitude
  {
    if h.reversed then -h.magnitude else h.magnitude
  }

  /** A newly created cow at (x, y). */
  function Born(x: real, y: real, h: Heading): (c: CowState)
    requires ValidHeading(h)
    ensures WellFormed(c)
    ensures c.x == x && c.y == y && c.step == 0 && c.direction == Direction(h)
    ensures !c.flagForDeletion && !c.isFrozen
  {
    CowState(x, y, Direction(h), 0, false, false)
  }

  /** One walking step: move by the cow's own direction and advance the leg pose. */
  function Walked(c: CowState): (r: CowState)
    ensures r.x - c.x == c.direction as real && r.y == c.y
    ensures r.direction == c.direction && r.flagForDeletion == c.flagForDeletion && r.isFrozen == c.isFrozen
    ensures c.step >= 0 ==> 0 <= r.step < StepCycle
    ensures 0 <= c.step < StepCycle ==> r.step == if c.step == StepCycle - 1 then 0 else c.step + 1
  {
    c.(x := c.x + c.direction as real, step := (c.step + 1) % StepCycle)
  }

  /** Horizontal wrap-around of a walking cow; positions inside the strip are kept. */
  function Wrapped(x: real): (r: real)
    ensures -Margin <= r <= RightBound
    ensures -Margin <= x <= RightBound ==> r == x
    ensures x > RightBound ==> r == -Margin
    ensures x < -Margin ==> r == RightBound
  {
    if x > RightBound then -Margin
    else if x < -Margin then RightBound
    else x
  }

  /** What one herd update does to one cow. */
  function Stepped(c: CowState): (r: CowState)
    ensures r.direction == c.direction && r.flagForDeletion == c.flagForDeletion
    ensures !r.isFrozen
    ensures c.isFrozen ==> r == c.(isFrozen := false)
    ensures !c.isFrozen && c.y > Ground ==> r == c.(y := c.y - FallRate)
    ensures !c.isFrozen && c.y <= Ground ==>
      r.y == Ground && -Margin <= r.x <= RightBound && r.step == (c.step + 1) % StepCycle
    ensures !c.isFrozen && c.y <= Ground ==> r.x == Wrapped(c.x + c.direction as real)
  {
    if c.isFrozen then
      c.(isFrozen := false)
    else if c.y > Ground then
      c.(y := c.y - FallRate)
    else
      var w := Walked(c.(y := Ground));
      w.(x := Wrapped(w.x))
  }

  /** Whether a cow stands inside the horizontal span [lower, upper], ends included. */
  predicate InSpan(c: CowState, lower: real, upper: real) {
    lower <= c.x && c.x <= upper
  }

  /** What the beam does to a cow it holds: snap to the anchor, lift, freeze, and
      mark for removal once above the cutoff. */
  function Levitated(c: CowState, anchor: real, cutoff: real): (r: CowState)
    ensures r.x == anchor && r.y == c.y + LiftRate && r.isFrozen
    ensures r.direction == c.direction && r.step == c.step
    ensures r.flagForDeletion <==> c.flagForDeletion || r.y > cutoff
  {
    var lifted := c.(x := anchor, y := c.y + LiftRate, isFrozen := true);
    if lifted.y > cutoff then lifted.(flagForDeletion := true) else lifted
  }

  /** Walking keeps a cow well formed. */
  lemma WalkAdvances(c: CowState)
    requires WellFormed(c)
    ensures WellFormed(Walked(c))
  {
  }

  /** Six walking steps bring the leg pose back to where it started. */
  lemma {:induction false} WalkCycle(c: CowState)
    requires WellFormed(c)
    ensures Walked(Walked(Walked(Walked(Walked(Walked(c)))))).step == c.step
    ensures Walked(Walked(Walked(Walked(Walked(Walked(c)))))).x == c.x + 6.0 * c.direction as real
  {
    var w3 := Walked(Walked(Walked(c)));
    assert w3.x == c.x + 3.0 * c.direction as real;
    assert w3.step == if c.step < 3 then c.step + 3 else c.step - 3;
  }

  /** A cow at or below the ground line is put on it and takes exactly one walking
      step in a herd update; a cow walking off either end reappears at the other. */
  lemma GroundedStepIsWalk(c: CowState)
    requires !c.isFrozen && c.y <= Ground
    ensures var w := Walked(c.(y := Ground));
      -Margin <= w.x <= RightBound ==> Stepped(c) == w
    ensures var w := Walked(c.(y := Ground));
      w.x > RightBound ==> Stepped(c) == w.(x := -Margin)
    ensures var w := Walked(c.(y := Ground));
      w.x < -Margin ==> Stepped(c) == w.(x := RightBound)
  {
  }

  /** A herd update keeps a cow well formed. */
  lemma SteppedWellFormed(c: CowState)
    requires WellFormed(c)
    ensures WellFormed(Stepped(c))
  {
  }

  /** A cow that has fallen lands no lower than one fall step below the ground, and
      the next update puts it back on the ground. */
  lemma FallLandsNearGround(c: CowState)
    requires !c.isFrozen && c.y > Ground
    ensures Stepped(c).y > Ground - FallRate
    ensures Stepped(c).y <= Ground ==> Stepped(Stepped(c)).y == Ground
  {
  }

  /** The beam keeps a cow's leg pose and direction, so it keeps it well formed. */
  lemma LevitatedWellFormed(c: CowState, anchor: real, cutoff: real)
    requires WellFormed(c)
    ensures WellFormed(Levitated(c, anchor, cutoff))
  {
  }

  /** The mutable cow of the simulation. */
  class Cow {
    var x: real
    var y: real
    /** Fixed when the cow is made; nothing ever changes it. */
    const direction: int
    var step: int
    var flagForDeletion: bool
    var isFrozen: bool

    ghost predicate Valid()
      reads this
    {
      WellFormed(State())
    }

    /** The cow's fields as a value. */
    function State(): CowState
      reads this
    {
      CowState(x, y, direction, step, flagForDeletion, isFrozen)
    }

    constructor (x: real, y: real, h: Heading)
      requires ValidHeading(h)
      ensures Valid() && State() == Born(x, y, h)
    {
      this.x := x;
      this.y := y;
      var d := h.magnitude;
      if h.reversed {
        d := d * -1;
      }
      direction := d;
      flagForDeletion := false;
      isFrozen := false;
      step := 0;
    }

    method Walk()
      requires Valid()
      modifies this
      ensures Valid() && State() == Walked(old(State()))
    {
      x := x + direction as real;
      step := (step + 1) % StepCycle;
    }
  }
}
