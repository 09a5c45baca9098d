/** One animation frame of the whole world, in the fixed order of the frame
    callback: herd update, saucer drift, hover, then the abduction rule if the
    beam is on, using the saucer's position after the hover. */
module Simulation {
  import opened Cows
  import opened Herd
  import opened Saucer

  /** Everything the simulation keeps between frames. */
  datatype World = World(herd: seq<CowState>, cowsNum: int, saucer: SaucerState)

  /** The random draws one frame consumes: the heading of a cow spawned this
      frame and the two hover jitters. */
  datatype FrameDraws = FrameDraws(heading: Heading, jx: real, jy: real)

  predicate ValidDraws(d: FrameDraws) {
    ValidHeading(d.heading) && ValidJitter(d.jx) && ValidJitter(d.jy)
  }

  /** The herd's target size the program starts with. */
  const HerdSize: nat := 10
  /** Where the saucer starts. */
  const StartX: real := 200.0
  const StartY: real := 600.0

  /** The world when the program starts. */
  function Start(seeds: seq<Seed>): (w: World)
    requires |seeds| == HerdSize && ValidSeeds(seeds)
    ensures |w.herd| == w.cowsNum == HerdSize
    ensures forall i :: 0 <= i < |w.herd| ==> w.herd[i] == Born(seeds[i].x as real, Ground, seeds[i].heading)
    ensures w.saucer.x == StartX && w.saucer.y == StartY
    ensures w.saucer.vx == 0.0 && w.saucer.vy == 0.0 && !w.saucer.beamOn
  {
    World(InitialHerd(seeds), HerdSize, Launched(StartX, StartY))
  }

  /** One frame. */
  function Ticked(w: World, d: FrameDraws): (r: World)
    requires ValidDraws(d)
    ensures r.cowsNum == w.cowsNum && r.saucer == Hovered(Moved(w.saucer), d.jx, d.jy)
    ensures |r.herd| == |Updated(w.herd, w.cowsNum, d.heading)|
    ensures !r.saucer.beamOn ==> r.herd == Updated(w.herd, w.cowsNum, d.heading)
    ensures r.saucer.beamOn ==> forall i :: 0 <= i < |r.herd| ==>
      var u := Updated(w.herd, w.cowsNum, d.heading)[i];
      r.herd[i] == if InSpan(u, r.saucer.x - BeamWidth / 2.0, r.saucer.x + BeamWidth / 2.0)
        then Levitated(u, r.saucer.x, r.saucer.y) else u
  {
    var herd := Updated(w.herd, w.cowsNum, d.heading);
    var saucer := Hovered(Moved(w.saucer), d.jx, d.jy);
    if saucer.beamOn then
      var bounds := BeamBounds(saucer);
      World(LevitatedHerd(herd, bounds.0, bounds.1, saucer.x, saucer.y), w.cowsNum, saucer)
    else
      World(herd, w.cowsNum, saucer)
  }

  /** A key press between frames. */
  function KeyPressed(w: World, key: string): (r: World)
    ensures r.herd == w.herd && r.cowsNum == w.cowsNum
    ensures r.saucer == Pressed(w.saucer, key)
  {
    w.(saucer := Pressed(w.saucer, key))
  }

  /** What holds of the world between any two frames: the herd is within its
      target size and well formed, the saucer is still whenever it beams, and a
      frozen cow (one the beam held last frame) sits right under the saucer. */
  predicate Consistent(w: World) {
    && |w.herd| <= w.cowsNum
    && AllWellFormed(w.herd)
    && StillWhileBeaming(w.saucer)
    && forall i :: 0 <= i < |w.herd| && w.herd[i].isFrozen ==> w.herd[i].x == w.saucer.x
  }

  lemma StartConsistent(seeds: seq<Seed>)
    requires |seeds| == HerdSize && ValidSeeds(seeds)
    ensures Consistent(Start(seeds))
  {
    var herd := InitialHerd(seeds);
    assert forall i :: 0 <= i < |herd| ==> !herd[i].isFrozen;
  }

  lemma KeyPressKeepsConsistent(w: World, key: string)
    requires Consistent(w)
    ensures Consistent(KeyPressed(w, key))
  {
  }

  /** Every frame keeps the world consistent. */
  lemma {:induction false} TickKeepsConsistent(w: World, d: FrameDraws)
    requires Consistent(w) && ValidDraws(d)
    ensures Consistent(Ticked(w, d))
  {
    var herd := Updated(w.herd, w.cowsNum, d.heading);
    UpdateRespectsTarget(w.herd, w.cowsNum, d.heading);
    UpdatedCowsSettled(w.herd, w.cowsNum, d.heading);
    var saucer := Hovered(Moved(w.saucer), d.jx, d.jy);
    StillWhileBeamingKept(w.saucer, "", d.jx, d.jy, 0.0, 0.0);
    if saucer.beamOn {
      var bounds := BeamBounds(saucer);
      LevitatedHerdWellFormed(herd, bounds.0, bounds.1, saucer.x, saucer.y);
    }
  }

  /** The one-frame lag of the freeze flag, and why a held cow stays held: a cow
      the beam froze last frame is only thawed by this frame's herd update, the
      saucer moves by at most the jitter, so the cow is still inside the beam and
      is lifted again. Its lift outpaces the cutoff's drift, so the gap to the
      cutoff shrinks by at least LiftRate - MaxJitter every frame. */
  lemma {:induction false} HeldCowIsLiftedAgain(w: World, d: FrameDraws, i: nat)
    requires Consistent(w) && ValidDraws(d) && w.saucer.beamOn
    requires i < |w.herd| && w.herd[i].isFrozen && !w.herd[i].flagForDeletion
    ensures var r := Ticked(w, d);
      Levitated(w.herd[i].(isFrozen := false), r.saucer.x, r.saucer.y) in r.herd
    ensures var r := Ticked(w, d);
      r.saucer.y - (w.herd[i].y + LiftRate) <= w.saucer.y - w.herd[i].y - (LiftRate - MaxJitter)
  {
    var cow := w.herd[i];
    var spawned := Spawned(w.herd, w.cowsNum, d.heading);
    assert spawned[i] == spawned[..|w.herd|][i];
    var stepped := StepAll(spawned);
    var thawed := cow.(isFrozen := false);
    assert stepped[i] == thawed;
    var herd := Purged(stepped);
    PurgedContents(stepped);
    assert thawed in multiset(stepped);
    assert thawed in multiset(herd);
    var j :| 0 <= j < |herd| && herd[j] == thawed;
    var saucer := Hovered(Moved(w.saucer), d.jx, d.jy);
    BeamingDriftIsJitter(w.saucer, d.jx, d.jy);
    var bounds := BeamBounds(saucer);
    assert InSpan(thawed, bounds.0, bounds.1);
    assert LevitatedHerd(herd, bounds.0, bounds.1, saucer.x, saucer.y)[j]
      == Levitated(thawed, saucer.x, saucer.y);
  }

  /** A worked case with a target of one cow and no jitter: a cow at x = 500
      heading right at speed 3 walks to 503 in a frame with the beam off; once
      the space bar turns the beam on over x = 500, the next frame walks it to
      506 and the beam snaps it back to 500 and lifts it to 104, frozen but
      not yet marked, since 104 is below the saucer's height of 150. */
  lemma ScenarioFirstFrames()
    ensures var still := FrameDraws(Heading(2, false), 0.0, 0.0);
      var w0 := World([CowState(500.0, Ground, 3, 0, false, false)], 1, SaucerState(500.0, 150.0, 0.0, 0.0, false));
      var w1 := Ticked(w0, still);
      var w2 := Ticked(KeyPressed(w1, " "), still);
      && w1.herd == [CowState(503.0, Ground, 3, 1, false, false)]
      && w2.saucer.beamOn
      && w2.herd == [CowState(500.0, Ground + LiftRate, 3, 2, false, true)]
  {
    var still := FrameDraws(Heading(2, false), 0.0, 0.0);
    var cow0 := CowState(500.0, Ground, 3, 0, false, false);
    var cow1 := CowState(503.0, Ground, 3, 1, false, false);
    var cow2 := CowState(506.0, Ground, 3, 2, false, false);
    var s0 := SaucerState(500.0, 150.0, 0.0, 0.0, false);
    var w0 := World([cow0], 1, s0);
    assert Stepped(cow0) == cow1;
    assert Updated([cow0], 1, still.heading) == [cow1] by {
      assert StepAll([cow0]) == [cow1];
    }
    assert Hovered(Moved(s0), 0.0, 0.0) == s0;
    var w1 := Ticked(w0, still);
    assert w1 == World([cow1], 1, s0);
    var s1 := s0.(beamOn := true);
    assert Pressed(s0, " ") == s1 by {
      assert " " != "left" && " " != "right" && " " != "up" && " " != "down";
    }
    assert KeyPressed(w1, " ") == World([cow1], 1, s1);
    assert Stepped(cow1) == cow2;
    assert Updated([cow1], 1, still.heading) == [cow2] by {
      assert StepAll([cow1]) == [cow2];
    }
    assert Hovered(Moved(s1), 0.0, 0.0) == s1;
    assert LevitatedHerd([cow2], BeamBounds(s1).0, BeamBounds(s1).1, 500.0, 150.0)
      == [CowState(500.0, Ground + LiftRate, 3, 2, false, true)];
  }

  /** The saucer's part of a frame: drift by its velocity, then hover. */
  method MoveSaucer(fs: FlyingSaucer, jx: real, jy: real)
    requires ValidJitter(jx) && ValidJitter(jy)
    modifies fs
    ensures fs.State() == Hovered(Moved(old(fs.State())), jx, jy)
  {
    fs.Update();
    fs.Hover(jx, jy);
  }

  /** One frame of the animation callback, drawing left out. */
  method Tick(cowManager: CowManager, fs: FlyingSaucer, h: Heading, jx: real, jy: real)
    requires cowManager.Valid() && ValidHeading(h) && ValidJitter(jx) && ValidJitter(jy)
    modifies cowManager, cowManager.cows, fs
    ensures cowManager.Valid()
    ensures World(cowManager.Herd(), cowManager.cowsNum, fs.State())
      == Ticked(World(old(cowManager.Herd()), cowManager.cowsNum, old(fs.State())), FrameDraws(h, jx, jy))
  {
    ghost var saucer := Hovered(Moved(fs.State()), jx, jy);
    cowManager.Update(h);
    ghost var herd := cowManager.Herd();
    assert forall k :: 0 <= k < |cowManager.cows| ==>
      cowManager.cows[k] in old(cowManager.cows) || fresh(cowManager.cows[k]);
    MoveSaucer(fs, jx, jy);
    assert cowManager.Valid() && cowManager.Herd() == herd && fs.State() == saucer;
    ghost var w := World(old(cowManager.Herd()), cowManager.cowsNum, old(fs.State()));
    ghost var d := FrameDraws(h, jx, jy);
    if fs.beamOn {
      var bounds := fs.GetBeamBoundaries();
      cowManager.LevitateCows(bounds, fs.x, fs.y);
      assert cowManager.Herd() == LevitatedHerd(herd, bounds[0], bounds[1], saucer.x, saucer.y);
      assert Ticked(w, d) == World(cowManager.Herd(), cowManager.cowsNum, saucer);
    } else {
      assert Ticked(w, d) == World(herd, cowManager.cowsNum, saucer);
    }
  }
}
