/** Two calls of `train` for one checkpoint whose inputs differ in the order of their steps: the first in
    an invocation which a crash ends before the record is written, the second in the next one. */
module StepOrderChanges {
  import opened Wrappers
  import opened JsonValues
  import opened PlanSet
  import opened DurableTraining
  import opened StepOrder
  import opened ExperimentRun

  /** Every session succeeds with one step; of the first two in flight the second finishes first; the
      learner answers, but the invocation ends before the answer is recorded. */
  function Crossing(): World {
    World(0, (point: Point) => point == AtRecord(1),
          (point: Point) => if point == AtSession(Training, 1, 0) then 1 else 0,
          (id: PlanId) => Ending(true, [(0, "")]), (k: nat) => Some("next"))
  }

  function Begun(spec: Spec): Disk { Disk(Some(Manifest(0, spec)), map[], map[]) }

  /** More than one session may be in flight, and the first epoch has at least two and ends in an update. */
  ghost predicate CanReorder(spec: Spec) {
    && ValidSpec(spec) && Trains(spec) && spec.sessions.None? && Cadence(spec) == 1
    && spec.concurrency >= 2 && !spec.failFast
    && Plannable(spec) && |PlansFor(spec, Begun(spec), Training, 1)| >= 2
  }

  lemma CrossingIsSmooth()
    ensures SmoothSessions(Crossing()) && !Crossing().stops(AtManifest) && !Crossing().stops(AtTraining(1))
    ensures Crossing().stops(AtRecord(1))
  {
  }

  lemma {:induction false} NothingSkipped(d: Disk, plans: seq<PlanId>)
    requires forall i :: 0 <= i < |plans| ==> plans[i] !in d.results
    ensures Skipped(d, plans) == [] && Remaining(d, plans) == plans
  {
    if plans != [] {
      var front, p := plans[..|plans| - 1], plans[|plans| - 1];
      assert plans == front + [p];
      NothingSkipped(d, front);
      SplitSnoc(d, front, p);
      hide Skipped, Remaining;
    }
  }

  lemma {:induction false} AllNonEmpty(d: Disk, plans: seq<PlanId>)
    requires AllHaveSteps(d, plans)
    ensures NonEmpty(d, plans) == plans
  {
    if plans != [] {
      assert HasSteps(d, plans[|plans| - 1]);
      AllNonEmpty(d, plans[..|plans| - 1]);
      assert plans == plans[..|plans| - 1] + [plans[|plans| - 1]];
    }
  }

  lemma {:induction false} FinishOrderSubset(pending: seq<PlanId>, concurrency: nat, picks: nat -> nat, n: nat)
    ensures forall p :: p in FinishOrder(pending, concurrency, picks, n) ==> p in pending
    decreases |pending|
  {
    if pending != [] {
      var j := Chosen(pending, concurrency, picks(n));
      FinishOrderSubset(Without(pending, j), concurrency, picks, n + 1);
    }
  }

  /** In the crossing world the collection order of the first epoch starts with its second plan. */
  lemma SecondFirst(spec: Spec, d: Disk, plans: seq<PlanId>)
    requires |plans| >= 2 && d.results == map[] && spec.concurrency >= 2 && !spec.failFast
    ensures var order := CollectOrder(spec, Crossing(), d, Training, 1, plans);
      order != [] && order[0] == plans[1] && forall p :: p in order ==> p in plans
  {
    NothingSkipped(d, plans);
    FinishOrderSubset(plans, Concurrency(spec), Picks(Crossing(), Training, 1), 0);
    assert Picks(Crossing(), Training, 1)(0) == 1;
  }

  lemma CrossedStepsDiffer(spec: Spec, start: Disk, d: Disk, calls: seq<TrainCall>, plans: seq<PlanId>, steps: seq<TrajectoryStep>)
    requires Inv(spec, d, calls) && start.results == map[] && NewFrom(Crossing(), start, d)
    requires |plans| >= 2 && plans[0] != plans[1] && spec.concurrency >= 2 && !spec.failFast && Finalized(d, plans)
    requires Collected(spec, Crossing(), start, d, Training, 1, plans, steps)
    ensures steps != StepsOf(d, plans)
  {
    SecondFirst(spec, start, plans);
    hide Inv, CollectOrder, StepsOf, NonEmpty;
    var order := CollectOrder(spec, Crossing(), start, Training, 1, plans);
    forall p | p in plans ensures HasSteps(d, p) {
    }
    AllNonEmpty(d, order);
    AllNonEmpty(d, plans);
  }

  lemma PlansOfFirstEpoch(spec: Spec, d: Disk)
    requires d.records == map[]
    ensures PlansFor(spec, d, Training, 1) == PlansFor(spec, Begun(spec), Training, 1)
  {
  }

  /** Before its first record the directory holds only results of the crossing world. */
  ghost predicate Early(spec: Spec, d: Disk) {
    d == EMPTY_DISK || (d.manifest == Some(Manifest(0, spec)) && d.records == map[] && NewFrom(Crossing(), Begun(spec), d))
  }

  lemma EarlyIsUnhindered(spec: Spec, d: Disk)
    requires Early(spec, d) && Plannable(spec)
    ensures Unhindered(spec, Crossing(), d)
  {
    CrossingIsSmooth();
    hide Plannable;
  }

  lemma MoreFromCrossing(spec: Spec, d: Disk, d': Disk)
    requires d.manifest == Some(Manifest(0, spec)) && Early(spec, d) && NewFrom(Crossing(), d, d') && Grows(d, d')
    requires d'.manifest == d.manifest && d'.records == d.records
    ensures Early(spec, d')
  {
    hide Crossing;
    forall id | id in d'.results
      ensures d'.results[id].succeeded == Crossing().endings(id).succeeded
      ensures d'.results[id].trajectory == TrajectoryOf(id, Crossing().endings(id))
    {
      if id in d.results { assert d'.results[id] == d.results[id]; }
    }
  }

  lemma FirstEpochPassed(spec: Spec, d: Disk, base: CheckpointId, steps: seq<TrajectoryStep>)
    requires Trains(spec) && Cadence(spec) == 1 && EpochPassed(spec, d, 0, 0, base, steps)
    ensures Boundary(spec, 1) == 1 && HasBase(d, 0) && base == Base(spec, d, 0) && EpochsDone(spec, d, Boundary(spec, 1))
    ensures StepsMatch(spec, steps, BlockSteps(spec, d, 1))
    ensures Finalized(d, PlansFor(spec, d, Training, 1))
  {
    assert Boundary(spec, 1) == Boundary(spec, 0) + Cadence(spec);
    assert EpochDone(spec, d, 1);
    hide PlansFor, EpochSteps;
  }

  /** The first epoch of an invocation which nothing hinders during sessions. */
  method PlayFirstEpoch(e: Experiment, spec: Spec, world: World, base: CheckpointId, ghost plans: seq<PlanId>)
      returns (steps: seq<TrajectoryStep>)
    requires e.Valid() && e.disk.manifest.Some? && e.disk.manifest.value.spec == spec
    requires Trains(spec) && spec.training.value.epochs > 0 && EpochState(spec, e.disk, 0, 0, base, [])
    requires Unhindered(spec, world, e.disk) && plans == PlansFor(spec, e.disk, Training, 1)
    modifies e
    ensures e.Valid() && Grows(old(e.disk), e.disk) && e.disk.manifest == old(e.disk).manifest
    ensures e.disk.records == old(e.disk).records && e.calls == old(e.calls) && NewFrom(world, old(e.disk), e.disk)
    ensures EpochPassed(spec, e.disk, 0, 0, base, steps)
    ensures Collected(spec, world, old(e.disk), e.disk, Training, 1, plans, steps)
  {
    hide *;
    ghost var start := e.disk;
    var none: seq<TrajectoryStep> := [];
    var ok, sum;
    NothingBalanced();
    ok, steps, sum := e.RunEpoch(spec, world, 0, 0, base, none, Batch(0, 0, 0, 0, [], false), false);
    assert ok && steps[|none|..] == steps;
    AdvancedGrows(start, e.disk, old(e.executed), e.executed, old(e.calls), e.calls);
  }

  /** What `run` does in the crossing world up to its end: it opens the manifest, plays the first epoch and
      calls `train`, and is cut off before the record. */
  method CutOff(e: Experiment, spec: Spec, ghost plans: seq<PlanId>)
    requires e.Valid() && CanReorder(spec) && Early(spec, e.disk) && plans == PlansFor(spec, Begun(spec), Training, 1)
    modifies e
    ensures e.Valid() && e.disk.manifest == Some(Manifest(0, spec)) && Early(spec, e.disk) && Finalized(e.disk, plans)
    ensures old(e.disk) != EMPTY_DISK ==> Grows(old(e.disk), e.disk)
    ensures |e.calls| == |old(e.calls)| + 1 && old(e.calls) <= e.calls && e.calls[|old(e.calls)|].number == 1
    ensures var start := if old(e.disk) == EMPTY_DISK then Begun(spec) else old(e.disk);
      Collected(spec, Crossing(), start, e.disk, Training, 1, plans, e.calls[|old(e.calls)|].steps)
  {
    CrossingIsSmooth();
    var accepted := e.OpenManifest(spec, Crossing());
    var base := spec.agents[spec.training.value.learner].checkpoint.value;
    ghost var start := e.disk;
    EarlyIsUnhindered(spec, start);
    PlansOfFirstEpoch(spec, start);
    StartEpochs(spec, start);
    hide PlansFor, Inv, Collected, Crossing, Plannable, NewFrom, EpochPassed, EpochState, Unhindered, Grows, Boundary;
    var steps := PlayFirstEpoch(e, spec, Crossing(), base, plans);
    MoreFromCrossing(spec, start, e.disk);
    FirstEpochPassed(spec, e.disk, base, steps);
    PlansOfFirstEpoch(spec, e.disk);
    hide StepsMatch, EpochsDone, BlockSteps, Boundary, Finalized, Early;
    var reached := e.ReachCheckpoint(spec, Crossing(), 1, base, steps);
  }

  lemma FirstPlansDiffer(spec: Spec, d: Disk)
    requires Trains(spec) && Plannable(spec) && |PlansFor(spec, d, Training, 1)| >= 2
    ensures PlansFor(spec, d, Training, 1)[0] != PlansFor(spec, d, Training, 1)[1]
  {
    var req := RequestFor(spec, Training, 1, spec.training.value.set_, SeatedCheckpoint(spec, d, Training, 1));
    assert PlansWell(req);
    hide Expand, AllResolvable;
  }

  /** The first invocation: the steps reach the learner in another order than the plans'. */
  method FirstInvocation(e: Experiment, spec: Spec, ghost plans: seq<PlanId>)
    requires e.Valid() && CanReorder(spec) && e.disk == EMPTY_DISK && e.calls == []
    requires plans == PlansFor(spec, Begun(spec), Training, 1) && |plans| >= 2 && plans[0] != plans[1]
    modifies e
    ensures e.Valid() && e.disk != EMPTY_DISK && Early(spec, e.disk) && Finalized(e.disk, plans)
    ensures |e.calls| == 1 && e.calls[0].number == 1 && e.calls[0].steps != StepsOf(e.disk, plans)
  {
    hide PlansFor, Inv, Collected, Crossing, NewFrom, Grows, CanReorder, Finalized, StepsOf;
    CutOff(e, spec, plans);
    Differs(spec, e.disk, e.calls, plans);
  }

  /** The next one: all sessions are skipped, and the steps are reloaded in plan order. */
  method NextInvocation(e: Experiment, spec: Spec, ghost plans: seq<PlanId>)
    requires e.Valid() && CanReorder(spec) && e.disk != EMPTY_DISK && Early(spec, e.disk) && Finalized(e.disk, plans)
    requires plans == PlansFor(spec, Begun(spec), Training, 1) && |e.calls| == 1 && e.calls[0].number == 1
    modifies e
    ensures e.Valid() && |e.calls| == 2 && old(e.calls) <= e.calls && e.calls[1].number == 1
    ensures e.calls[1].steps == StepsOf(old(e.disk), plans)
    ensures multiset(e.calls[0].steps) == multiset(e.calls[1].steps)
  {
    hide PlansFor, Inv, Collected, Crossing, NewFrom, Grows, CanReorder, Finalized, StepsOf;
    ghost var before := e.disk;
    CutOff(e, spec, plans);
    Reloaded(spec, before, e.disk, e.calls, plans);
    SameBag(spec, e.disk, e.calls);
  }

  /** Two invocations of any such specification can call `train` for checkpoint 1 with the same steps in
      another order: the first as the sessions finished, the second in plan order. */
  method ReorderedInput(spec: Spec) returns (e: Experiment)
    requires CanReorder(spec)
    ensures fresh(e) && e.Valid() && |e.calls| == 2 && e.calls[0].number == e.calls[1].number == 1
    ensures e.calls[0].steps != e.calls[1].steps && multiset(e.calls[0].steps) == multiset(e.calls[1].steps)
  {
    ghost var plans := PlansFor(spec, Begun(spec), Training, 1);
    FirstPlansDiffer(spec, Begun(spec));
    e := new Experiment();
    assert |plans| >= 2;
    hide *;
    FirstInvocation(e, spec, plans);
    NextInvocation(e, spec, plans);
  }

  lemma Differs(spec: Spec, d: Disk, calls: seq<TrainCall>, plans: seq<PlanId>)
    requires CanReorder(spec) && Inv(spec, d, calls) && calls != [] && Early(spec, d) && Finalized(d, plans)
    requires |plans| >= 2 && plans[0] != plans[1]
    requires Collected(spec, Crossing(), Begun(spec), d, Training, 1, plans, calls[0].steps)
    ensures calls[0].steps != StepsOf(d, plans)
  {
    hide Inv, Collected, Crossing, StepsOf, Plannable;
    CrossedStepsDiffer(spec, Begun(spec), d, calls, plans, calls[0].steps);
  }

  lemma Reloaded(spec: Spec, d: Disk, d': Disk, calls: seq<TrainCall>, plans: seq<PlanId>)
    requires Finalized(d, plans) && Grows(d, d') && |calls| == 2
    requires Collected(spec, Crossing(), d, d', Training, 1, plans, calls[1].steps)
    ensures calls[1].steps == StepsOf(d, plans)
  {
    AllSkipped(d, plans);
    StepsOfGrows(d, d', plans);
    hide Skipped, Remaining, StepsOf, Picks, NonEmpty;
    assert CollectOrder(spec, Crossing(), d, Training, 1, plans) == plans + [];
    assert plans + [] == plans;
  }

  lemma SameBag(spec: Spec, d: Disk, calls: seq<TrainCall>)
    requires Inv(spec, d, calls) && |calls| == 2 && calls[0].number == calls[1].number
    ensures multiset(calls[0].steps) == multiset(calls[1].steps)
  {
    TrainingInputStable(spec, d, calls, 0, 1);
    hide Inv;
  }

  // ----- Such specifications exist -----

  /** One learner against itself, one scenario played twice, one epoch, two sessions in flight. */
  function Smallest(): Spec {
    var game := SessionSet([Scenario("", Null, [0], 2)], Seats("learner", "learner"), false);
    Spec(Header("", "", "", Null), map["learner" := ConfiguredAgent("", "", true, Some("start"))], None,
         Some(TrainingSpec(game, "learner", 1, 1)), None, 2, false)
  }

  lemma SmallestPlans(req: Request)
    requires req.scenarios == [Scenario("", Null, [0], 2)] && req.seats == Seats("learner", "learner")
    ensures |Expand(req)| == 2 && !HasDuplicateId(Expand(req))
  {
    var s := req.scenarios[0];
    ExpansionShape(req);
    assert PlanCount(req, 1) == PlanCount(req, 0) + 1 * 2 * 1;
    assert ScenarioPlans(req, 1) == ScenarioPlans(req, 0) + SeedPlans(req, s, 1);
    assert SeedPlans(req, s, 1) == SeedPlans(req, s, 0) + RepetitionPlans(req, s, 0, 2);
    assert RepetitionPlans(req, s, 0, 2) == RepetitionPlans(req, s, 0, 1) + LegPlans(req, s, 0, 1, |Assignments(req)|);
    assert RepetitionPlans(req, s, 0, 1) == RepetitionPlans(req, s, 0, 0) + LegPlans(req, s, 0, 0, |Assignments(req)|);
    RepetitionOfLegs(req, s, 0, 0, |Assignments(req)|);
    RepetitionOfLegs(req, s, 0, 1, |Assignments(req)|);
    hide LegPlans, RepetitionPlans, SeedPlans, ScenarioPlans, PlanCount;
    assert Expand(req)[0].id.repetition == 0 && Expand(req)[1].id.repetition == 1;
  }

  lemma {:induction false} RepetitionOfLegs(req: Request, s: Scenario, seed: nat, rep: nat, n: nat)
    requires n <= |Assignments(req)|
    ensures forall i :: 0 <= i < n ==> LegPlans(req, s, seed, rep, n)[i].id.repetition == rep
  {
    if n > 0 { RepetitionOfLegs(req, s, seed, rep, n - 1); }
  }

  lemma SmallestCanReorder()
    ensures CanReorder(Smallest())
  {
    var spec := Smallest();
    assert Trains(spec) && Cadence(spec) == 1;
    forall phase, index, checkpoint | SetFor(spec, phase).Some?
      ensures PlansWell(RequestFor(spec, phase, index, SetFor(spec, phase).value, checkpoint))
    {
      var req := RequestFor(spec, phase, index, SetFor(spec, phase).value, checkpoint);
      assert phase == Training;
      assert req.overrides == map["learner" := checkpoint] && Resolvable(req, "learner");
      SmallestPlans(req);
      hide Expand, HasDuplicateId;
    }
    var checkpoint := SeatedCheckpoint(spec, Begun(spec), Training, 1);
    SmallestPlans(RequestFor(spec, Training, 1, spec.training.value.set_, checkpoint));
    hide Expand, HasDuplicateId;
  }
}
