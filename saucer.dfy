/** The flying saucer: where it is, how it drifts, the beam's footprint, and how
    key presses set its velocity and beam. */
module Saucer {

  /** Horizontal span of the beam's footprint on the ground. */
  const BeamWidth: real := 140.0
  /** Largest hover jitter along either axis in one frame. */
  const MaxJitter: real := 2.0
  /** Speed a direction key gives the saucer along its axis. */
  const Speed: real := 5.0

  datatype SaucerState = SaucerState(x: real, y: real, vx: real, vy: real, beamOn: bool)

  /** A jitter value the hover draw can produce. */
  predicate ValidJitter(j: real) {
    -MaxJitter <= j <= MaxJitter
  }

  /** The saucer right after construction: at rest with the beam off. */
  function Launched(x: real, y: real): (s: SaucerState)
    ensures s.x == x && s.y == y && !s.beamOn
    ensures s.vx == 0.0 && s.vy == 0.0 && StillWhileBeaming(s)
  {
    SaucerState(x, y, 0.0, 0.0, false)
  }

  /** One frame of straight-line drift. */
  function Moved(s: SaucerState): (r: SaucerState)
    ensures r == s.(x := r.x, y := r.y)
    ensures r.x - s.x == s.vx && r.y - s.y == s.vy
    ensures s.vx == 0.0 && s.vy == 0.0 ==> r == s
  {
    s.(x := s.x + s.vx, y := s.y + s.vy)
  }

  /** The hover wobble, with the two random draws given. */
  function Hovered(s: SaucerState, jx: real, jy: real): (r: SaucerState)
    ensures r.vx == s.vx && r.vy == s.vy && r.beamOn == s.beamOn
    ensures r.x - s.x == jx && r.y - s.y == jy
    ensures ValidJitter(jx) && ValidJitter(jy) ==>
      -MaxJitter <= r.x - s.x <= MaxJitter && -MaxJitter <= r.y - s.y <= MaxJitter
  {
    s.(x := s.x + jx, y := s.y + jy)
  }

  /** The beam's footprint: BeamWidth wide, centred on the saucer. */
  function BeamBounds(s: SaucerState): (b: (real, real))
    ensures b.0 < b.1 && b.1 - b.0 == BeamWidth
    ensures b.0 < s.x < b.1 && s.x - b.0 == b.1 - s.x
  {
    (s.x - BeamWidth / 2.0, s.x + BeamWidth / 2.0)
  }

  /** The state change a key press makes. The four arrow keys turn the beam off and
      move along one axis; the space bar stops the saucer and toggles the beam. */
  function Pressed(s: SaucerState, key: string): (r: SaucerState)
    ensures r.x == s.x && r.y == s.y
    ensures key == "left" ==> !r.beamOn && r.vx == -Speed && r.vy == 0.0
    ensures key == "right" ==> !r.beamOn && r.vx == Speed && r.vy == 0.0
    ensures key == "up" ==> !r.beamOn && r.vx == 0.0 && r.vy == Speed
    ensures key == "down" ==> !r.beamOn && r.vx == 0.0 && r.vy == -Speed
    ensures key == " " ==> r.beamOn == !s.beamOn && r.vx == 0.0 && r.vy == 0.0
    ensures key !in {"left", "right", "up", "down", " "} ==> r == s
  {
    if key == "left" then s.(beamOn := false, vx := -Speed, vy := 0.0)
    else if key == "right" then s.(beamOn := false, vx := Speed, vy := 0.0)
    else if key == "up" then s.(beamOn := false, vx := 0.0, vy := Speed)
    else if key == "down" then s.(beamOn := false, vx := 0.0, vy := -Speed)
    else if key == " " then s.(vx := 0.0, vy := 0.0, beamOn := !s.beamOn)
    else s
  }

  /** The saucer never beams while it moves under command: a beam that is on
      implies zero velocity. */
  predicate StillWhileBeaming(s: SaucerState) {
    s.beamOn ==> s.vx == 0.0 && s.vy == 0.0
  }

  /** Launch, drift, hover and every key press keep the saucer still while it beams. */
  lemma StillWhileBeamingKept(s: SaucerState, key: string, jx: real, jy: real, x: real, y: real)
    ensures StillWhileBeaming(Launched(x, y))
    ensures StillWhileBeaming(s) ==> StillWhileBeaming(Pressed(s, key))
    ensures StillWhileBeaming(s) ==> StillWhileBeaming(Hovered(Moved(s), jx, jy))
  {
  }

  /** While the beam is on, one frame of drift and hover moves the saucer by at
      most the jitter bound along each axis. */
  lemma BeamingDriftIsJitter(s: SaucerState, jx: real, jy: real)
    requires StillWhileBeaming(s) && s.beamOn && ValidJitter(jx) && ValidJitter(jy)
    ensures var t := Hovered(Moved(s), jx, jy);
      -MaxJitter <= t.x - s.x <= MaxJitter && -MaxJitter <= t.y - s.y <= MaxJitter && t.beamOn
  {
  }

  /** Pressing the space bar twice restores the beam and leaves the saucer at rest. */
  lemma SpaceTwice(s: SaucerState)
    ensures Pressed(Pressed(s, " "), " ") == s.(vx := 0.0, vy := 0.0)
  {
  }

  /** The saucer object. */
  class FlyingSaucer {
    var x: real
    var y: real
    var vx: real
    var vy: real
    var beamOn: bool
    const beamWidth: real := BeamWidth

    function State(): SaucerState
      reads this
    {
      SaucerState(x, y, vx, vy, beamOn)
    }

    constructor (x: real, y: real)
      ensures State() == Launched(x, y)
    {
      this.x := x;
      this.y := y;
      vx := 0.0;
      vy := 0.0;
      beamOn := false;
    }

    /** Random wobble, with the draws of random.uniform(-2, 2) passed in. */
    method Hover(jx: real, jy: real)
      requires ValidJitter(jx) && ValidJitter(jy)
      modifies this
      ensures State() == Hovered(old(State()), jx, jy)
    {
      x := x + jx;
      y := y + jy;
    }

    method Update()
      modifies this
      ensures State() == Moved(old(State()))
    {
      x := x + vx;
      y := y + vy;
    }

    method SetVelocityX(vx: real)
      modifies this
      ensures State() == old(State()).(vx := vx)
    {
      this.vx := vx;
    }

    method SetVelocityY(vy: real)
      modifies this
      ensures State() == old(State()).(vy := vy)
    {
      this.vy := vy;
    }

    method TurnOnBeam()
      modifies this
      ensures State() == old(State()).(beamOn := true)
    {
      beamOn := true;
    }

    method TurnOffBeam()
      modifies this
      ensures State() == old(State()).(beamOn := false)
    {
      beamOn := false;
    }

    /** The beam's footprint as the two-element list [lower, upper]. */
    function GetBeamBoundaries(): (b: seq<real>)
      reads this
      ensures |b| == 2 && b[0] == BeamBounds(State()).0 && b[1] == BeamBounds(State()).1
      ensures b[0] < x < b[1] && b[1] - b[0] == beamWidth
    {
      [x - beamWidth / 2.0, x + beamWidth / 2.0]
    }
  }

  /** The key handler: the setter calls each key makes, in order. */
  method Press(fs: FlyingSaucer, key: string)
    modifies fs
    ensures fs.State() == Pressed(old(fs.State()), key)
  {
    if key == "left" {
      fs.TurnOffBeam();
      fs.SetVelocityX(-Speed);
      fs.SetVelocityY(0.0);
    }
    if key == "right" {
      fs.TurnOffBeam();
      fs.SetVelocityX(Speed);
      fs.SetVelocityY(0.0);
    }
    if key == "up" {
      fs.TurnOffBeam();
      fs.SetVelocityX(0.0);
      fs.SetVelocityY(Speed);
    }
    if key == "down" {
      fs.TurnOffBeam();
      fs.SetVelocityX(0.0);
      fs.SetVelocityY(-Speed);
    }
    if key == " " && fs.beamOn {
      fs.SetVelocityX(0.0);
      fs.SetVelocityY(0.0);
      fs.TurnOffBeam();
    } else if key == " " && !fs.beamOn {
      fs.SetVelocityX(0.0);
      fs.SetVelocityY(0.0);
      fs.TurnOnBeam();
    }
  }
}
