/** The herd: the list of live cows, what one frame's update does to it (spawn,
    step every cow, purge the abducted ones), the beam's range query and the
    abduction rule, first as functions on values and then as the `CowManager`
    class that performs them in place. */
module Herd {
  import opened Cows

  /** Where a replacement cow appears: just inside the right-hand wrap margin, on the ground. */
  const SpawnX: real := Width as real + 99.0

  /** The random draws that place one of the initial cows. */
  datatype Seed = Seed(x: int, heading: Heading)

  /** Every initial x is drawn from 0..Width and every heading is valid. */
  predicate ValidSeeds(seeds: seq<Seed>) {
    forall i :: 0 <= i < |seeds| ==> 0 <= seeds[i].x <= Width && ValidHeading(seeds[i].heading)
  }

  predicate AllWellFormed(herd: seq<CowState>) {
    forall i :: 0 <= i < |herd| ==> WellFormed(herd[i])
  }

  /** `a` is `b` with some elements left out and the rest in their original order. */
  ghost predicate IsSubsequence<T>(a: seq<T>, b: seq<T>)
    decreases |b|
  {
    if a == [] then true
    else if b == [] then false
    else if a[0] == b[0] then IsSubsequence(a[1..], b[1..])
    else IsSubsequence(a, b[1..])
  }

  /** The initial herd: one cow per seed, on the ground, in seed order. */
  function InitialHerd(seeds: seq<Seed>): (r: seq<CowState>)
    requires ValidSeeds(seeds)
    ensures |r| == |seeds| && AllWellFormed(r)
    ensures forall i :: 0 <= i < |seeds| ==>
      r[i] == Born(seeds[i].x as real, Ground, seeds[i].heading)
  {
    if seeds == [] then []
    else [Born(seeds[0].x as real, Ground, seeds[0].heading)] + InitialHerd(seeds[1..])
  }

  /** First part of an update: one new cow at the spawn point when the herd is short. */
  function Spawned(herd: seq<CowState>, cowsNum: int, h: Heading): (r: seq<CowState>)
    requires ValidHeading(h)
    ensures |herd| <= |r| <= |herd| + 1 && r[..|herd|] == herd
    ensures |r| == |herd| + 1 <==> |herd| < cowsNum
    ensures |r| == |herd| + 1 ==> r[|herd|] == Born(SpawnX, Ground, h)
  {
    if |herd| < cowsNum then herd + [Born(SpawnX, Ground, h)] else herd
  }

  /** Second part of an update: every cow takes its step, in place in the list. */
  function StepAll(herd: seq<CowState>): (r: seq<CowState>)
    ensures |r| == |herd|
    ensures forall i :: 0 <= i < |herd| ==> r[i] == Stepped(herd[i])
  {
    if herd == [] then [] else [Stepped(herd[0])] + StepAll(herd[1..])
  }

  /** Third part of an update: drop every cow marked for deletion, keeping the
      others, each as often as it occurs and in their original order. */
  function Purged(herd: seq<CowState>): (r: seq<CowState>)
    ensures |r| <= |herd|
    ensures forall i :: 0 <= i < |r| ==> !r[i].flagForDeletion
  {
    if herd == [] then []
    else if herd[0].flagForDeletion then Purged(herd[1..])
      else [herd[0]] + Purged(herd[1..])
  }

  /** One whole herd update. */
  function Updated(herd: seq<CowState>, cowsNum: int, h: Heading): (r: seq<CowState>)
    requires ValidHeading(h)
    ensures |r| <= |herd| + 1
    ensures forall i :: 0 <= i < |r| ==> !r[i].flagForDeletion
  {
    Purged(StepAll(Spawned(herd, cowsNum, h)))
  }

  /** Purging keeps every unflagged cow, as often as it occurs, and nothing else. */
  lemma {:induction false} PurgedContents(herd: seq<CowState>)
    ensures forall c :: multiset(Purged(herd))[c] == if c.flagForDeletion then 0 else multiset(herd)[c]
  {
    if herd != [] {
      assert herd == [herd[0]] + herd[1..];
      PurgedContents(herd[1..]);
    }
  }

  /** Purging keeps the surviving cows in their original relative order. */
  lemma {:induction false} PurgedInOrder(herd: seq<CowState>)
    ensures IsSubsequence(Purged(herd), herd)
  {
    if herd != [] {
      PurgedInOrder(herd[1..]);
      var rest := Purged(herd[1..]);
      if herd[0].flagForDeletion {
        assert rest != [] ==> rest[0] != herd[0];
      } else {
        assert ([herd[0]] + rest)[1..] == rest;
      }
    }
  }

  /** The cows a range query returns: those with lower <= x <= upper, in herd order. */
  function Select(herd: seq<CowState>, lower: real, upper: real): (r: seq<CowState>)
    ensures forall c :: c in r <==> c in herd && InSpan(c, lower, upper)
  {
    if herd == [] then []
    else if InSpan(herd[0], lower, upper) then [herd[0]] + Select(herd[1..], lower, upper)
    else Select(herd[1..], lower, upper)
  }

  /** A range query keeps every cow in the span, as often as it occurs, and
      nothing else. */
  lemma {:induction false} SelectContents(herd: seq<CowState>, lower: real, upper: real)
    ensures forall c ::
      multiset(Select(herd, lower, upper))[c] == if InSpan(c, lower, upper) then multiset(herd)[c] else 0
  {
    if herd != [] {
      assert herd == [herd[0]] + herd[1..];
      SelectContents(herd[1..], lower, upper);
    }
  }

  /** A range query lists the selected cows in herd order. */
  lemma {:induction false} SelectInOrder(herd: seq<CowState>, lower: real, upper: real)
    ensures IsSubsequence(Select(herd, lower, upper), herd)
  {
    if herd != [] {
      SelectInOrder(herd[1..], lower, upper);
      var rest := Select(herd[1..], lower, upper);
      if InSpan(herd[0], lower, upper) {
        assert ([herd[0]] + rest)[1..] == rest;
      } else {
        assert rest != [] ==> rest[0] in herd[1..] && InSpan(rest[0], lower, upper);
      }
    }
  }

  /** The herd after the beam's pass: the cows in the span are lifted, the rest stay. */
  function LevitatedHerd(herd: seq<CowState>, lower: real, upper: real, anchor: real, cutoff: real)
    : (r: seq<CowState>)
    ensures |r| == |herd|
    ensures forall i :: 0 <= i < |herd| ==>
      r[i] == if InSpan(herd[i], lower, upper) then Levitated(herd[i], anchor, cutoff) else herd[i]
  {
    if herd == [] then []
    else
      var c := herd[0];
      [if InSpan(c, lower, upper) then Levitated(c, anchor, cutoff) else c]
        + LevitatedHerd(herd[1..], lower, upper, anchor, cutoff)
  }

  /** Removing an unflagged cow from the end of the list commutes with purging. */
  lemma {:induction false} PurgedAppend(herd: seq<CowState>, c: CowState)
    requires !c.flagForDeletion
    ensures Purged(herd + [c]) == Purged(herd) + [c]
  {
    if herd == [] {
      assert [] + [c] == [c];
    } else {
      assert (herd + [c])[0] == herd[0];
      assert (herd + [c])[1..] == herd[1..] + [c];
      PurgedAppend(herd[1..], c);
    }
  }

  /** Stepping a list with one more cow at the end steps that cow too. */
  lemma StepAllAppend(herd: seq<CowState>, c: CowState)
    ensures StepAll(herd + [c]) == StepAll(herd) + [Stepped(c)]
  {
    assert forall i :: 0 <= i < |herd| ==> (herd + [c])[i] == herd[i];
  }

  /** An update never lets the herd grow past its target size. */
  lemma UpdateRespectsTarget(herd: seq<CowState>, cowsNum: int, h: Heading)
    requires ValidHeading(h) && |herd| <= cowsNum
    ensures |Updated(herd, cowsNum, h)| <= cowsNum
  {
  }

  /** A herd already at or above its target gains no cow in an update. */
  lemma UpdateAddsNoneAtTarget(herd: seq<CowState>, cowsNum: int, h: Heading)
    requires ValidHeading(h)
    ensures |herd| >= cowsNum ==> |Updated(herd, cowsNum, h)| <= |herd|
  {
  }

  /** After an update no live cow is frozen or marked for deletion, and every cow
      is still well formed. */
  lemma {:induction false} UpdatedCowsSettled(herd: seq<CowState>, cowsNum: int, h: Heading)
    requires ValidHeading(h) && AllWellFormed(herd)
    ensures AllWellFormed(Updated(herd, cowsNum, h))
    ensures forall i :: 0 <= i < |Updated(herd, cowsNum, h)| ==>
      !Updated(herd, cowsNum, h)[i].isFrozen && !Updated(herd, cowsNum, h)[i].flagForDeletion
  {
    var spawned := Spawned(herd, cowsNum, h);
    var stepped := StepAll(spawned);
    assert forall i :: 0 <= i < |spawned| ==> WellFormed(spawned[i]) by {
      forall i | 0 <= i < |spawned|
        ensures WellFormed(spawned[i])
      {
        if i < |herd| {
          assert spawned[i] == spawned[..|herd|][i];
        }
      }
    }
    var r := Purged(stepped);
    PurgedContents(stepped);
    forall i | 0 <= i < |r|
      ensures WellFormed(r[i]) && !r[i].isFrozen
    {
      assert multiset(r)[r[i]] > 0;
      assert r[i] in multiset(stepped);
      var j :| 0 <= j < |stepped| && stepped[j] == r[i];
      SteppedWellFormed(spawned[j]);
    }
  }

  /** A cow spawned by an update is stepped by that same update: it survives the
      purge at the end of the list, having taken one step from the spawn point,
      so one heading right has already wrapped around to the left edge. */
  lemma SpawnedCowStepsAtOnce(herd: seq<CowState>, cowsNum: int, h: Heading)
    requires ValidHeading(h) && |herd| < cowsNum
    ensures var r := Updated(herd, cowsNum, h);
      |r| > 0 && r[|r| - 1] == Stepped(Born(SpawnX, Ground, h))
    ensures var last := Updated(herd, cowsNum, h)[|Updated(herd, cowsNum, h)| - 1];
      last.y == Ground && last.step == 1 &&
      last.x == (if h.reversed then SpawnX - h.magnitude as real else -Margin)
  {
    var born := Born(SpawnX, Ground, h);
    assert Spawned(herd, cowsNum, h) == herd + [born];
    StepAllAppend(herd, born);
    PurgedAppend(StepAll(herd), Stepped(born));
  }

  /** The beam changes only the cows the range query selects, and for each of those
      it freezes it and never clears its deletion mark. */
  lemma LevitateOnlySelected(herd: seq<CowState>, lower: real, upper: real, anchor: real, cutoff: real)
    ensures var r := LevitatedHerd(herd, lower, upper, anchor, cutoff);
      forall i :: 0 <= i < |herd| ==>
        (herd[i] in Select(herd, lower, upper) ==> r[i].isFrozen && r[i].x == anchor) &&
        (herd[i] !in Select(herd, lower, upper) ==> r[i] == herd[i]) &&
        (herd[i].flagForDeletion ==> r[i].flagForDeletion)
  {
  }

  /** The beam keeps every cow well formed. */
  lemma LevitatedHerdWellFormed(herd: seq<CowState>, lower: real, upper: real, anchor: real, cutoff: real)
    requires AllWellFormed(herd)
    ensures AllWellFormed(LevitatedHerd(herd, lower, upper, anchor, cutoff))
  {
  }

  /** A worked case: with the footprint [100, 140], of three grounded cows at
      x = 90, 110 and 150 only the one at 110 is selected, and only it is snapped
      to the anchor and lifted. */
  lemma ThreeCowsOneSelected(anchor: real, cutoff: real)
    requires cutoff >= Ground + LiftRate
    ensures var herd := [CowState(90.0, Ground, 2, 0, false, false),
                         CowState(110.0, Ground, 3, 0, false, false),
                         CowState(150.0, Ground, -4, 0, false, false)];
      Select(herd, 100.0, 140.0) == [herd[1]] &&
      LevitatedHerd(herd, 100.0, 140.0, anchor, cutoff)
        == [herd[0], CowState(anchor, Ground + LiftRate, 3, 0, false, true), herd[2]]
  {
    var herd := [CowState(90.0, Ground, 2, 0, false, false),
                 CowState(110.0, Ground, 3, 0, false, false),
                 CowState(150.0, Ground, -4, 0, false, false)];
    assert herd[1..][1..] == [herd[2]] && [herd[2]][1..] == [];
    assert Select([herd[2]], 100.0, 140.0) == [];
    assert Select(herd[1..], 100.0, 140.0) == [herd[1]];
    var r := LevitatedHerd(herd, 100.0, 140.0, anchor, cutoff);
    assert r[0] == herd[0] && r[2] == herd[2];
    assert r[1] == CowState(anchor, Ground + LiftRate, 3, 0, false, true);
  }

  /** The herd's cows are distinct objects. */
  ghost predicate Distinct(cs: seq<Cow>) {
    forall i, j :: 0 <= i < j < |cs| ==> cs[i] != cs[j]
  }

  /** The states of a list of cow objects, in list order. */
  function States(cs: seq<Cow>): (r: seq<CowState>)
    reads cs
    ensures |r| == |cs|
    ensures forall i :: 0 <= i < |cs| ==> r[i] == cs[i].State()
  {
    if cs == [] then [] else [cs[0].State()] + States(cs[1..])
  }

  /** The cow objects whose x lies in [x1, x2], in list order. */
  function CowsInSpan(cs: seq<Cow>, x1: real, x2: real): (r: seq<Cow>)
    reads cs
    ensures forall k :: 0 <= k < |r| ==> r[k] in cs && InSpan(r[k].State(), x1, x2)
    ensures forall k :: 0 <= k < |cs| && InSpan(cs[k].State(), x1, x2) ==> cs[k] in r
    ensures Distinct(cs) ==> Distinct(r)
  {
    if cs == [] then []
    else if InSpan(cs[0].State(), x1, x2) then [cs[0]] + CowsInSpan(cs[1..], x1, x2)
      else CowsInSpan(cs[1..], x1, x2)
  }

  /** The object range query and the value range query agree. */
  lemma {:induction false} CowsInSpanStates(cs: seq<Cow>, x1: real, x2: real)
    ensures States(CowsInSpan(cs, x1, x2)) == Select(States(cs), x1, x2)
  {
    if cs != [] {
      assert States(cs)[1..] == States(cs[1..]);
      CowsInSpanStates(cs[1..], x1, x2);
    }
  }

  /** The cow objects not marked for deletion, in list order. */
  function Unflagged(cs: seq<Cow>): (r: seq<Cow>)
    reads cs
    ensures forall k :: 0 <= k < |r| ==> r[k] in cs && !r[k].flagForDeletion
    ensures Distinct(cs) ==> Distinct(r)
  {
    if cs == [] then []
    else if cs[0].flagForDeletion then Unflagged(cs[1..])
    else [cs[0]] + Unflagged(cs[1..])
  }

  /** The object purge and the value purge agree. */
  lemma {:induction false} UnflaggedStates(cs: seq<Cow>)
    ensures States(Unflagged(cs)) == Purged(States(cs))
  {
    if cs != [] {
      assert States(cs)[1..] == States(cs[1..]);
      UnflaggedStates(cs[1..]);
    }
  }

  /** One unfolding of the object purge at position i. */
  lemma UnflaggedUnfold(cs: seq<Cow>, i: int)
    requires 0 <= i < |cs|
    ensures Unflagged(cs[i..]) ==
      (if cs[i].flagForDeletion then [] else [cs[i]]) + Unflagged(cs[i + 1..])
  {
    assert cs[i..][1..] == cs[i + 1..];
  }

  /** One iteration of the backwards purge: examining position i, popping it when
      it is marked, extends the purged suffix by one position. */
  lemma PopStep(cs: seq<Cow>, kept: seq<Cow>, i: int)
    requires 0 <= i < |cs| && kept == cs[..i + 1] + Unflagged(cs[i + 1..])
    ensures i < |kept| && kept[i] == cs[i]
    ensures cs[i].flagForDeletion ==> kept[..i] + kept[i + 1..] == cs[..i] + Unflagged(cs[i..])
    ensures !cs[i].flagForDeletion ==> kept == cs[..i] + Unflagged(cs[i..])
  {
    UnflaggedUnfold(cs, i);
    if cs[i].flagForDeletion {
      assert kept[..i] == cs[..i];
      assert kept[i + 1..] == Unflagged(cs[i + 1..]);
    } else {
      assert cs[..i + 1] == cs[..i] + [cs[i]];
    }
  }

  /** The purge at the end of a herd update: walk the list from the back and pop
      every cow marked for deletion. */
  method RemoveFlagged(cs: seq<Cow>) returns (kept: seq<Cow>)
    ensures kept == Unflagged(cs)
  {
    kept := cs;
    var i := |kept| - 1;
    while i >= 0
      invariant -1 <= i < |cs|
      invariant kept == cs[..i + 1] + Unflagged(cs[i + 1..])
    {
      PopStep(cs, kept, i);
      if kept[i].flagForDeletion {
        kept := kept[..i] + kept[i + 1..];
      }
      i := i - 1;
    }
    assert cs[0..] == cs;
  }

  /** A cow object is picked by the range query exactly when its state is in the span. */
  lemma SelectedByIndex(cs: seq<Cow>, x1: real, x2: real)
    ensures forall i :: 0 <= i < |cs| ==>
      (cs[i] in CowsInSpan(cs, x1, x2) <==> InSpan(States(cs)[i], x1, x2))
  {
    var r := CowsInSpan(cs, x1, x2);
    forall i | 0 <= i < |cs| && cs[i] in r
      ensures InSpan(States(cs)[i], x1, x2)
    {
      var k :| 0 <= k < |r| && r[k] == cs[i];
    }
  }

  /** The loop of the abduction rule: lift every cow of the list once. */
  method LiftEach(selected: seq<Cow>, anchor: real, cutoff: real)
    requires Distinct(selected)
    modifies selected
    ensures forall k :: 0 <= k < |selected| ==>
      selected[k].State() == Levitated(old(selected[k].State()), anchor, cutoff)
    ensures forall c :: c in selected ==> c.State() == Levitated(old(c.State()), anchor, cutoff)
  {
    for k := 0 to |selected|
      invariant forall j :: 0 <= j < k ==>
        selected[j].State() == Levitated(old(selected[j].State()), anchor, cutoff)
      invariant forall j :: k <= j < |selected| ==> selected[j].State() == old(selected[j].State())
    {
      var cow := selected[k];
      cow.x := anchor;
      cow.y := cow.y + LiftRate;
      cow.isFrozen := true;
      if cow.y > cutoff {
        cow.flagForDeletion := true;
      }
    }
    forall c | c in selected
      ensures c.State() == Levitated(old(c.State()), anchor, cutoff)
    {
      var k :| 0 <= k < |selected| && selected[k] == c;
    }
  }

  /** Owner of the live cows. */
  class CowManager {
    var cows: seq<Cow>
    /** The target size of the herd. */
    const cowsNum: nat

    ghost predicate Valid()
      reads this, cows
    {
      Distinct(cows) && forall i :: 0 <= i < |cows| ==> cows[i].Valid()
    }

    /** The herd as a list of values. */
    ghost function Herd(): seq<CowState>
      reads this, cows
    {
      States(cows)
    }

    constructor (cowsNum: nat, seeds: seq<Seed>)
      requires |seeds| == cowsNum
      requires ValidSeeds(seeds)
      ensures Valid() && this.cowsNum == cowsNum
      ensures Herd() == InitialHerd(seeds)
      ensures forall c :: c in cows ==> fresh(c)
    {
      var cs: seq<Cow> := [];
      for i := 0 to cowsNum
        invariant |cs| == i && Distinct(cs)
        invariant forall k :: 0 <= k < i ==>
          fresh(cs[k]) && cs[k].Valid() &&
          cs[k].State() == Born(seeds[k].x as real, Ground, seeds[k].heading)
      {
        var cow := new Cow(seeds[i].x as real, Ground, seeds[i].heading);
        cs := cs + [cow];
      }
      this.cowsNum := cowsNum;
      cows := cs;
    }

    /** The cows whose x lies in [x1, x2], ends included, in list order. */
    function CheckForCows(x1: real, x2: real): (r: seq<Cow>)
      reads this, cows
      ensures forall k :: 0 <= k < |r| ==> r[k] in cows && InSpan(r[k].State(), x1, x2)
      ensures forall k :: 0 <= k < |cows| && InSpan(cows[k].State(), x1, x2) ==> cows[k] in r
      ensures Distinct(cows) ==> Distinct(r)
      ensures States(r) == Select(Herd(), x1, x2)
    {
      CowsInSpanStates(cows, x1, x2);
      CowsInSpan(cows, x1, x2)
    }

    /** One frame of the herd: spawn, step every cow, purge the marked ones. */
    method Update(h: Heading)
      requires Valid() && ValidHeading(h)
      modifies this, cows
      ensures Valid()
      ensures Herd() == Updated(old(Herd()), cowsNum, h)
      ensures forall c :: c in cows ==> c in old(cows) || fresh(c)
    {
      SpawnIfShort(h);
      assert forall k :: 0 <= k < |cows| ==> cows[k] in old(cows) || fresh(cows[k]);
      StepCows();
      Purge();
    }

    /** Add one new cow at the spawn point if the herd is below its target size. */
    method SpawnIfShort(h: Heading)
      requires Valid() && ValidHeading(h)
      modifies this`cows
      ensures Valid()
      ensures Herd() == Spawned(old(Herd()), cowsNum, h)
      ensures forall c :: c in cows ==> c in old(cows) || fresh(c)
    {
      if |cows| < cowsNum {
        var cow := new Cow(SpawnX, Ground, h);
        cows := cows + [cow];
      }
    }

    /** Every cow takes its step: a frozen cow only thaws, a cow above the ground
        falls, any other cow is put on the ground, walks and wraps at the margins. */
    method StepCows()
      requires Valid()
      modifies cows
      ensures Valid()
      ensures Herd() == StepAll(old(Herd()))
    {
      ghost var before := Herd();
      assert AllWellFormed(before);
      for i := 0 to |cows|
        invariant forall k :: 0 <= k < i ==> cows[k].State() == Stepped(before[k])
        invariant forall k :: i <= k < |cows| ==> cows[k].State() == before[k]
      {
        var cow := cows[i];
        label Stepping:
        if !cow.isFrozen {
          if cow.y > Ground {
            cow.y := cow.y - FallRate;
          } else {
            cow.y := Ground;
            cow.Walk();
            if cow.x > RightBound {
              cow.x := -Margin;
            } else if cow.x < -Margin {
              cow.x := RightBound;
            }
          }
        } else {
          // the beam held it last frame; it may fall or walk again next frame
          cow.isFrozen := false;
        }
        assert cow.State() == Stepped(before[i]);
        forall k | 0 <= k < |cows| && k != i
          ensures cows[k].State() == old@Stepping(cows[k].State())
        {
          assert cows[k] != cow;
        }
      }
      forall k | 0 <= k < |cows|
        ensures cows[k].Valid()
      {
        SteppedWellFormed(before[k]);
      }
    }

    /** Drop every cow marked for deletion. */
    method Purge()
      requires Valid()
      modifies this`cows
      ensures Valid()
      ensures Herd() == Purged(old(Herd()))
      ensures forall c :: c in cows ==> c in old(cows)
    {
      var kept := RemoveFlagged(cows);
      UnflaggedStates(cows);
      forall k | 0 <= k < |kept|
        ensures kept[k].Valid()
      {
        var j :| 0 <= j < |cows| && cows[j] == kept[k];
      }
      cows := kept;
    }

    /** The abduction rule for one frame: every cow inside the beam's boundaries is
        snapped to the anchor, lifted, frozen and, once above the cutoff, marked
        for deletion. */
    method LevitateCows(boundaries: seq<real>, anchor: real, cutoff: real)
      requires Valid() && |boundaries| >= 2
      modifies cows
      ensures Valid()
      ensures Herd() == LevitatedHerd(old(Herd()), boundaries[0], boundaries[1], anchor, cutoff)
    {
      ghost var before := Herd();
      var selected := CheckForCows(boundaries[0], boundaries[1]);
      SelectedByIndex(cows, boundaries[0], boundaries[1]);
      label Lifting:
      LiftEach(selected, anchor, cutoff);
      ghost var after := LevitatedHerd(before, boundaries[0], boundaries[1], anchor, cutoff);
      forall i | 0 <= i < |cows| && cows[i] !in selected
        ensures cows[i].State() == before[i]
      {
        assert old@Lifting(cows[i].State()) == before[i];
      }
      forall i | 0 <= i < |cows| && cows[i] in selected
        ensures cows[i].State() == Levitated(before[i], anchor, cutoff)
      {
        assert old@Lifting(cows[i].State()) == before[i];
      }
      forall i | 0 <= i < |cows|
        ensures cows[i].State() == after[i]
      {
      }
      forall i | 0 <= i < |cows|
        ensures cows[i].Valid()
      {
        LevitatedWellFormed(before[i], anchor, cutoff);
      }
    }
  }
}
