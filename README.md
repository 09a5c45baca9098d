# project-cows, modelled in Dafny

project-cows is a small animation. A flying saucer hovers over a strip of
ground, and cows walk along it. The player steers the saucer with the arrow
keys and toggles a tractor beam with the space bar. Any cow inside the beam's
footprint is pulled up under the saucer. Once it rises above the saucer it is
removed, and a fresh cow is placed just inside the right wrap boundary to replace
it. A left-facing replacement walks in from there. A right-facing one wraps round
to the left edge in its first frame.

Four modules model the simulation logic. Drawing is not modelled.

- `Cows` (`cows.dfy`) covers one cow:
  - its state as a value (`CowState`);
  - the per-frame transitions `Stepped` (herd update) and `Levitated` (beam);
  - the walking step;
  - the mutable `Cow` object, whose `direction` is a `const` because nothing
    changes it after construction.
- `Herd` (`herd.dfy`) covers the herd manager:
  - the herd update as value functions: spawn one cow if short of the target,
    step every cow, then purge the cows marked for deletion;
  - the beam's selection and lift as value functions;
  - the `CowManager` class, which does the same in place over a sequence of
    `Cow` objects. Each of its methods is proved to leave the herd equal to the
    value function applied to the old herd.
- `Saucer` (`saucer.dfy`) covers the saucer:
  - its state as a value;
  - drift, hover and the beam footprint;
  - the key handler as a map from key to state change;
  - the `FlyingSaucer` class with its setters, and the key handler as a method
    that calls them in the source's order.
- `Simulation` (`simulation.dfy`) covers one animation frame, in its fixed
  order:
  1. herd update;
  2. saucer drift;
  3. hover;
  4. if the beam is on, levitation, using the saucer's position after the hover.

  It defines a world invariant, proves that every frame and every key press keep
  it, and provides a `Tick` method that runs a frame on the objects.

The random draws are parameters. A new cow's speed and facing are a `Heading`,
with a magnitude in 2..4 and a reversal flag. An initial cow's x position is a
`Seed`, an integer in `0..Width`. The hover jitter is a pair of reals in
[-2, 2]. All positions and velocities are `real`s. The source's integer
positions and float jitter are both exact in that type.

## Model

| member | source | states |
|---|---|---|
| Cows.Direction | project-cows.py:180-188 | the signed speed is 2..4 in magnitude and negative exactly when the facing draw reversed it |
| Cows.Born | project-cows.py:178-188 | a new cow is at the given position, at leg pose 0, neither frozen nor marked, and well formed |
| Cows.Cow.constructor | project-cows.py:174-188 | constructing a cow yields exactly the `Born` state and a valid cow |
| Cows.Walked | project-cows.py:266-268 | a walking step moves x by exactly the direction, advances the leg pose cyclically (5 goes back to 0), and leaves y, direction and both flags alone |
| Cows.WalkAdvances | project-cows.py:266-268 | a walking step keeps a well-formed cow well formed: its direction stays valid and its leg pose stays in 0..5 |
| Cows.WalkCycle | project-cows.py:268 | after six steps the leg pose is back where it started and x has moved by six times the direction |
| Cows.Cow.Walk | project-cows.py:266-268 | the walk method changes the cow exactly as the `Walked` transition does and keeps it valid |
| Cows.Wrapped | project-cows.py:296-300 | after wrap-around x lies in [-100, Width+100]; x already inside that strip is unchanged; x past the right end goes to -100 and x past the left end goes to Width+100 |
| Cows.Stepped | project-cows.py:286-303 | a frozen cow is only thawed; a cow above ground drops 8; a grounded cow sits at y=100 with x equal to its walked position wrapped into the strip and its leg pose advanced; direction and mark are kept and no cow stays frozen |
| Cows.GroundedStepIsWalk | project-cows.py:291-300 | a cow at or below the ground line is put on it and takes exactly one walking step, followed by a jump to the opposite end when the step leaves the strip |
| Cows.SteppedWellFormed | project-cows.py:286-303 | a herd update keeps a cow's direction valid and its leg pose in range |
| Cows.FallLandsNearGround | project-cows.py:288-294 | a falling cow ends at most one fall step below the ground, and the next update puts it on the ground |
| Cows.Levitated | project-cows.py:327-333 | a held cow moves to the anchor x, rises by 4, is frozen, keeps direction and pose, and is marked exactly when it was marked or is now above the cutoff |
| Cows.LevitatedWellFormed | project-cows.py:327-333 | the beam keeps a cow well formed |
| Herd.InitialHerd | project-cows.py:277-279 | the starting herd has one cow per seed, each born at the seed's x on the ground |
| Herd.CowManager.constructor | project-cows.py:272-279 | a new manager holds `cowsNum` distinct valid fresh cows whose states are `InitialHerd` of the seeds |
| Herd.Spawned | project-cows.py:282-284 | the herd gains one cow born at x = Width+99 on the ground exactly when it is below target, and the old herd is kept as a prefix |
| Herd.CowManager.SpawnIfShort | project-cows.py:283-284 | the in-place spawn leaves the herd equal to `Spawned` of the old herd, with only a fresh cow added |
| Herd.StepAll | project-cows.py:286-303 | the stepped herd has the same length and each cow is `Stepped` of the one at its index |
| Herd.CowManager.StepCows | project-cows.py:286-303 | the in-place loop leaves the herd equal to `StepAll` of the old herd |
| Herd.Purged | project-cows.py:305-310 | purging never lengthens the herd and leaves no cow marked for deletion |
| Herd.PurgedContents | project-cows.py:305-310 | the purged herd is exactly the old herd's multiset minus the marked cows |
| Herd.PurgedInOrder | project-cows.py:305-310 | the purged herd is a subsequence of the old herd, so the survivors keep their order |
| Herd.Unflagged | project-cows.py:305-310 | every surviving cow object is an unmarked member of the manager's list, and distinct input stays distinct |
| Herd.UnflaggedStates | project-cows.py:305-310 | the states of the surviving objects are `Purged` of the herd's states |
| Herd.RemoveFlagged | project-cows.py:306-310 | the backwards pop loop returns exactly the unmarked cows, in order |
| Herd.CowManager.Purge | project-cows.py:305-310 | the in-place purge leaves the herd equal to `Purged` of the old herd, with every cow still valid |
| Herd.Updated | project-cows.py:281-310 | one herd update, purge(step(spawn(herd))): it grows the herd by at most one cow and leaves no cow marked for deletion |
| Herd.CowManager.Update | project-cows.py:281-310 | one update leaves the herd equal to purge(step(spawn(old herd))), keeps the manager valid, and holds only old or fresh cows |
| Herd.UpdateRespectsTarget | project-cows.py:283-310 | a herd within its target stays within it after an update |
| Herd.UpdateAddsNoneAtTarget | project-cows.py:283-284 | an update of a herd already at or above its target adds no cow |
| Herd.UpdatedCowsSettled | project-cows.py:281-310 | after an update every cow is well formed, neither frozen nor marked |
| Herd.SpawnedCowStepsAtOnce | project-cows.py:283-300 | a cow spawned this frame is stepped in the same frame: pose 1, and either wrapped to -100 or moved left by its speed |
| Herd.Select | project-cows.py:316-322 | a cow is selected exactly when it is in the herd and within [x1, x2], ends included |
| Herd.SelectContents | project-cows.py:316-322 | the selection holds every in-span cow as often as it occurs in the herd, and no other cow |
| Herd.SelectInOrder | project-cows.py:316-322 | the selection is a subsequence of the herd, so it keeps the herd's order |
| Herd.CowsInSpan | project-cows.py:316-322 | the selected objects are exactly the manager's cows with x in [x1, x2], and they are distinct when the manager's list is |
| Herd.CowsInSpanStates | project-cows.py:316-322 | the states of the selected objects are `Select` of the herd's states |
| Herd.CowManager.CheckForCows | project-cows.py:316-322 | the returned list holds exactly the manager's cows in span, distinct when the herd is, with states equal to `Select` of the herd |
| Herd.LevitatedHerd | project-cows.py:324-333 | each cow in span is `Levitated` and every other cow is unchanged |
| Herd.LiftEach | project-cows.py:327-333 | the lifting loop applies `Levitated` to every selected cow object |
| Herd.CowManager.LevitateCows | project-cows.py:324-333 | the in-place levitation leaves the herd equal to `LevitatedHerd` of the old herd and keeps the manager valid |
| Herd.LevitateOnlySelected | project-cows.py:324-333 | the beam changes only cows in span; each of them ends frozen at the anchor |
| Herd.LevitatedHerdWellFormed | project-cows.py:324-333 | levitation keeps a well-formed herd well formed |
| Herd.ThreeCowsOneSelected | project-cows.py:316-333 | with the footprint [100, 140] and cows at 90, 110 and 150, only the cow at 110 is lifted |
| Saucer.Launched | project-cows.py:47-51 | the saucer after construction: at the given position, at rest, with the beam off |
| Saucer.Moved | project-cows.py:70-72 | one frame of drift moves the position by the velocity and changes nothing else; a saucer at rest stays put |
| Saucer.Hovered | project-cows.py:66-68 | the hover adds the two jitter draws to x and y and keeps velocity and beam, so draws in [-2, 2] move the saucer at most 2 along each axis |
| Saucer.FlyingSaucer.constructor | project-cows.py:47-51 | a new saucer is at the given position, at rest, with the beam off |
| Saucer.FlyingSaucer.Hover | project-cows.py:66-68 | hover adds the two jitter draws from [-2, 2] to x and y and changes nothing else |
| Saucer.FlyingSaucer.Update | project-cows.py:70-72 | the drift adds the velocity to the position and changes nothing else |
| Saucer.FlyingSaucer.SetVelocityX | project-cows.py:74-75 | only vx changes |
| Saucer.FlyingSaucer.SetVelocityY | project-cows.py:77-78 | only vy changes |
| Saucer.FlyingSaucer.TurnOnBeam | project-cows.py:80-81 | only the beam changes, to on |
| Saucer.FlyingSaucer.TurnOffBeam | project-cows.py:83-84 | only the beam changes, to off |
| Saucer.BeamBounds | project-cows.py:166-170 | the footprint is 140 wide, centred on the saucer, with the saucer strictly inside |
| Saucer.FlyingSaucer.GetBeamBoundaries | project-cows.py:166-170 | the list has two elements, [x-70, x+70], lower below x and upper above it |
| Saucer.Pressed | project-cows.py:352-376 | each arrow key turns the beam off and sets speed 5 on its axis and 0 on the other; space stops the saucer and toggles the beam; any other key changes nothing; position is never changed |
| Saucer.Press | project-cows.py:352-376 | the handler's setter calls leave the saucer in the `Pressed` state |
| Saucer.StillWhileBeamingKept | project-cows.py:352-376 | the saucer starts still, and key presses, drift and hover keep it still whenever the beam is on |
| Saucer.BeamingDriftIsJitter | project-cows.py:66-72 | while beaming, one frame moves the saucer at most 2 along each axis and the beam stays on |
| Saucer.SpaceTwice | project-cows.py:369-376 | two space presses restore the beam and leave the saucer at rest |
| Simulation.Start | project-cows.py:342-350 | the starting world: ten cows, each born at its seed's x on the ground, and the saucer at (200, 600), at rest with the beam off |
| Simulation.KeyPressed | project-cows.py:352-376 | a key press changes only the saucer, to its `Pressed` state |
| Simulation.Ticked | project-cows.py:388-397 | one frame: the saucer drifts and hovers; the herd is the updated herd when the beam is off; when it is on, each updated cow inside the post-hover footprint [x-70, x+70] is `Levitated` to the post-hover saucer's x and height, and every other cow is kept |
| Simulation.StartConsistent | project-cows.py:342-350 | the starting world (saucer at (200, 600), ten cows) satisfies the world invariant |
| Simulation.KeyPressKeepsConsistent | project-cows.py:352-376 | any key press keeps the world invariant |
| Simulation.TickKeepsConsistent | project-cows.py:388-397 | every frame keeps the world invariant: herd within target, well formed, saucer still while beaming, frozen cows under the saucer |
| Simulation.HeldCowIsLiftedAgain | project-cows.py:388-397 | a cow the beam held last frame and has not yet marked for deletion is lifted again this frame, and its gap below the saucer shrinks by at least 2 per frame |
| Simulation.ScenarioFirstFrames | project-cows.py:388-397 | with one cow at x=500, a frame walks it to 503; after a space press the next frame walks it and the beam snaps it back to 500 and lifts it to 104 |
| Simulation.MoveSaucer | project-cows.py:391-392 | the saucer's drift followed by its hover leaves it in the `Moved`-then-`Hovered` state |
| Simulation.Tick | project-cows.py:388-397 | one frame on the objects leaves the herd and saucer equal to the `Ticked` world of the old state, in the order update, drift, hover, levitate |

## Left out

- Drawing is not modelled: every `draw` method, the `Scene` ground and sky, the saucer's shape and beam polygon, the lights' brightness cycle and the colours. None of it affects the simulation state.
- The animation driver, the figure, axis clearing and the event wiring are not modelled. A frame is a call to `Tick`, and a key press is a call to `Press` with the key's name.
- Randomness becomes parameters:
  - `random.randint(2, 4)` and the 0.5 coin of a new cow are a `Heading`;
  - `random.randint(0, width)` of an initial cow is a `Seed`;
  - the two `random.uniform(-2, 2)` draws of the hover are jitter reals.

  Their distributions are not modelled, only their ranges.
- The `canvas` argument of every constructor and the cow's `flyingSaucerRef` field are not modelled. Neither takes part in the logic.
- The saucer's drawing sizes (`fs_width`, `fs_height`, the window and base ratios, `num_lights`, `light_inc`, `brightnesses`) are not modelled. Only `beamWidth` is kept.
- `height` = 720 is not modelled, because only drawing uses it.
- Herd.CowManager.constructor: `cowsNum` is a `nat`, because a negative target builds no cows in the source and the herd logic then treats it as zero. The pure functions take any `int`.
- Herd.CowManager.Update: the source's single method is split into `SpawnIfShort`, `StepCows` and `Purge`. `Update` calls them in the source's order.
- Herd.CowManager.LevitateCows: the list must have at least two boundaries, and only the first two are read; `getBeamBoundaries` always returns two.
- Floating-point rounding is not modelled. Reals are exact.

Four behaviours of the code are easy to miss:

- A falling cow drops 8 per frame with no floor, so it can land up to 8 below
  the ground. The next update puts it back on the ground line
  (`Cows.FallLandsNearGround`).
- A cow spawned to refill the herd starts on the ground (y = 100) at
  x = Width+99. It is stepped in the same frame, so a left-facing cow starts
  walking at once, and a right-facing one wraps to -100 at once.
- At most one cow is spawned per frame.
- The beam's footprint is symmetric, from x-70 to x+70, and includes both ends.
