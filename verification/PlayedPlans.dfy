/** What a reader of the output directory finds in the plans of its results: the scenarios of the phase's
    own section, and the checkpoint which the learner was seated with. */
module PlayedPlans {
  import opened Wrappers
  import opened PlanSet
  import opened PlanPlaces
  import opened DurableTraining
  import opened ExperimentRun

  /** The section of the specification which a phase plays. */
  ghost predicate SectionOf(spec: Spec, phase: Phase, section: SessionSet) {
    match phase
    case Evaluation => spec.sessions == Some(section)
    case Training => spec.training.Some? && spec.training.value.set_ == section
    case Validation => spec.validation.Some? && spec.validation.value.set_ == section
  }

  predicate HasScenario(section: SessionSet, i: nat, j: nat, r: nat, l: nat) {
    && i < |section.scenarios| && j < |section.scenarios[i].seeds| && r < section.scenarios[i].repetitions
    && l < (if section.mirrorRoles && section.seats.playerA != section.seats.playerB then 2 else 1)
  }

  /** The plan of this scenario, seed, repetition and leg of a section. */
  predicate IdIs(spec: Spec, section: SessionSet, phase: Phase, index: nat, id: PlanId, i: nat, j: nat, r: nat, l: nat)
    requires HasScenario(section, i, j, r, l)
  {
    && id.phase == phase && id.phaseIndex == index && id.header == spec.header
    && id.scenario == section.scenarios[i].name && id.gameSeed == section.scenarios[i].seeds[j]
    && id.repetition == r && id.leg == (if l == 0 then Original else Mirrored)
    && id.seatA.role == A && id.seatA.name == (if l == 0 then section.seats.playerA else section.seats.playerB)
    && id.seatB.role == B && id.seatB.name == (if l == 0 then section.seats.playerB else section.seats.playerA)
  }

  /** The learner plays with checkpoint `c`, every other agent with its configured one. */
  predicate SeatedWith(spec: Spec, seat: SeatIdentity, c: CheckpointId)
    requires spec.training.Some?
  {
    && (seat.name == spec.training.value.learner ==> seat.checkpoint == Some(c))
    && (seat.name != spec.training.value.learner && seat.name in spec.agents ==>
          seat.checkpoint == spec.agents[seat.name].checkpoint)
  }

  predicate SeatedAsConfigured(spec: Spec, seat: SeatIdentity) {
    seat.name in spec.agents ==> seat.checkpoint == spec.agents[seat.name].checkpoint
  }

  ghost predicate HasPlan(spec: Spec, section: SessionSet, phase: Phase, index: nat, plans: seq<PlanId>, i: nat, j: nat, r: nat, l: nat)
    requires HasScenario(section, i, j, r, l)
  {
    exists k :: 0 <= k < |plans| && IdIs(spec, section, phase, index, plans[k], i, j, r, l)
  }

  ghost predicate IsOfSection(spec: Spec, section: SessionSet, phase: Phase, index: nat, id: PlanId) {
    exists i, j, r, l :: HasScenario(section, i, j, r, l) && IdIs(spec, section, phase, index, id, i, j, r, l)
  }

  /** The plans of a phase are those of its own section: one for each scenario, seed, repetition and leg,
      and no others. */
  lemma PhasePlansAre(spec: Spec, d: Disk, phase: Phase, index: nat, section: SessionSet)
    requires SectionOf(spec, phase, section)
    ensures var plans := PlansFor(spec, d, phase, index);
      && (forall i, j, r, l :: HasScenario(section, i, j, r, l) ==> HasPlan(spec, section, phase, index, plans, i, j, r, l))
      && (forall k :: 0 <= k < |plans| ==> IsOfSection(spec, section, phase, index, plans[k]))
  {
    var req := RequestFor(spec, phase, index, section, SeatedCheckpoint(spec, d, phase, index));
    var plans := PlansFor(spec, d, phase, index);
    assert plans == IdsOf(Expand(req));
    hide PlansFor, Expand, SeatedCheckpoint;
    forall i, j, r, l | HasScenario(section, i, j, r, l) ensures HasPlan(spec, section, phase, index, plans, i, j, r, l) {
      PlanAt(req, i, j, r, l);
      assert IdIs(spec, section, phase, index, plans[Place(req, i, j, r, l)], i, j, r, l);
    }
    forall k | 0 <= k < |plans| ensures IsOfSection(spec, section, phase, index, plans[k]) {
      var i, j, r, l := EveryPlanHasItsPlace(req, k);
      assert HasScenario(section, i, j, r, l);
    }
  }

  lemma PlanSeats(req: Request, p: SessionPlan)
    requires p in Expand(req)
    ensures SeatIs(req, p.id.seatA, p.id.seatA.name, A) && SeatIs(req, p.id.seatB, p.id.seatB.name, B)
  {
    var k :| 0 <= k < |Expand(req)| && Expand(req)[k] == p;
    var i, j, r, l := EveryPlanHasItsPlace(req, k);
    hide Expand;
  }

  lemma PlayersOf(spec: Spec, d: Disk, phase: Phase, index: nat, id: PlanId)
    requires id in PlansFor(spec, d, phase, index)
    ensures phase != Evaluation && Trains(spec) ==>
              && SeatedWith(spec, id.seatA, SeatedCheckpoint(spec, d, phase, index))
              && SeatedWith(spec, id.seatB, SeatedCheckpoint(spec, d, phase, index))
    ensures phase == Evaluation ==> SeatedAsConfigured(spec, id.seatA) && SeatedAsConfigured(spec, id.seatB)
  {
    var section := SetFor(spec, phase).value;
    var req := RequestFor(spec, phase, index, section, SeatedCheckpoint(spec, d, phase, index));
    var plans := PlansFor(spec, d, phase, index);
    assert plans == IdsOf(Expand(req));
    hide PlansFor, Expand, SeatedCheckpoint;
    var k :| 0 <= k < |plans| && plans[k] == id;
    PlanSeats(req, Expand(req)[k]);
  }

  // ----- On disk -----

  function Configured(spec: Spec): CheckpointId
    requires Trains(spec)
  {
    spec.agents[spec.training.value.learner].checkpoint.value
  }

  /** The base of a call is the checkpoint of the record before it, the configured one at first. */
  lemma CallBase(spec: Spec, d: Disk, calls: seq<TrainCall>, i: nat)
    requires Inv(spec, d, calls) && i < |calls|
    ensures Trains(spec) && calls[i].number >= 1
    ensures calls[i].number == 1 ==> calls[i].base == Configured(spec)
    ensures calls[i].number > 1 ==>
              calls[i].number - 1 in d.records && calls[i].base == d.records[calls[i].number - 1].checkpoint
  {
    assert CallSound(spec, d, calls[i]);
    NoRecordZero(spec, d, calls);
    hide Inv, EpochsDone, BlockSteps;
  }

  /** The sessions behind a call: finalized, successful, and played by the call's base checkpoint. */
  lemma UpdatePlayers(spec: Spec, d: Disk, calls: seq<TrainCall>, i: nat, e: nat, id: PlanId)
    requires Inv(spec, d, calls) && i < |calls|
    requires calls[i].completedEpochs - Cadence(spec) < e <= calls[i].completedEpochs
    requires id in PlansFor(spec, d, Training, e)
    ensures spec.training.Some? && id in d.results && d.results[id].succeeded
    ensures SeatedWith(spec, id.seatA, calls[i].base) && SeatedWith(spec, id.seatB, calls[i].base)
  {
    CallBase(spec, d, calls, i);
    UpdateHasNoFailedSession(spec, d, calls, i, e);
    PlayersOf(spec, d, Training, e, id);
    hide PlansFor, Inv;
    var plans := PlansFor(spec, d, Training, e);
    var k :| 0 <= k < |plans| && plans[k] == id;
  }

  /** Who played a finalized session: the learner with the checkpoint recorded last before a training
      epoch, or with the validated one; nobody but the learner with anything but its configured one. */
  lemma ResultPlayers(spec: Spec, d: Disk, calls: seq<TrainCall>, id: PlanId)
    requires Inv(spec, d, calls) && id in d.results
    ensures id.phase == Evaluation ==> SeatedAsConfigured(spec, id.seatA) && SeatedAsConfigured(spec, id.seatB)
    ensures id.phase == Validation ==>
              && Trains(spec) && id.phaseIndex in d.records
              && SeatedWith(spec, id.seatA, d.records[id.phaseIndex].checkpoint)
              && SeatedWith(spec, id.seatB, d.records[id.phaseIndex].checkpoint)
    ensures id.phase == Training ==>
              && Trains(spec) && id.phaseIndex >= 1
              && var k := (id.phaseIndex - 1) / spec.training.value.cadence;
                 && (k > 0 ==> k in d.records)
                 && var c := if k == 0 then Configured(spec) else d.records[k].checkpoint;
                    SeatedWith(spec, id.seatA, c) && SeatedWith(spec, id.seatB, c)
  {
    assert ResultSound(spec, d, id);
    NoRecordZero(spec, d, calls);
    PlayersOf(spec, d, id.phase, id.phaseIndex, id);
    hide PlansFor, Inv, EpochsDone, SeatedWith, SeatedAsConfigured;
  }

  /** A result belongs to a scenario, seed, repetition and leg of its phase's own section. */
  lemma ResultScenario(spec: Spec, d: Disk, calls: seq<TrainCall>, id: PlanId, section: SessionSet)
    requires Inv(spec, d, calls) && id in d.results && SectionOf(spec, id.phase, section)
    ensures IsOfSection(spec, section, id.phase, id.phaseIndex, id)
  {
    assert ResultSound(spec, d, id);
    PhasePlansAre(spec, d, id.phase, id.phaseIndex, section);
    hide PlansFor, Inv, IsOfSection;
    var plans := PlansFor(spec, d, id.phase, id.phaseIndex);
    var k :| 0 <= k < |plans| && plans[k] == id;
  }

  // ----- Which steps an update sees -----

  /** The steps of a list of plans are those of its finalized results, plan after plan. */
  lemma {:induction false} StepsPlanByPlan(d: Disk, a: seq<PlanId>, p: PlanId, b: seq<PlanId>)
    requires p in d.results
    ensures StepsOf(d, a + [p] + b) == StepsOf(d, a) + d.results[p].trajectory + StepsOf(d, b)
  {
    if b == [] {
      assert a + [p] + b == a + [p];
      assert (a + [p])[..|a|] == a;
    } else {
      var all := a + [p] + b;
      assert all[..|all| - 1] == a + [p] + b[..|b| - 1];
      StepsPlanByPlan(d, a, p, b[..|b| - 1]);
    }
  }

  /** The steps of consecutive epochs are those of the plans of each, epoch after epoch. */
  lemma {:induction false} StepsEpochByEpoch(spec: Spec, d: Disk, before: nat, m: nat, n: nat)
    ensures EpochSteps(spec, d, before, 0) == [] && StepsOf(d, []) == []
    ensures EpochSteps(spec, d, before, m + 1 + n) ==
            EpochSteps(spec, d, before, m) + StepsOf(d, PlansFor(spec, d, Training, before + m + 1))
            + EpochSteps(spec, d, before + m + 1, n)
  {
    hide PlansFor;
    if n > 0 {
      StepsEpochByEpoch(spec, d, before, m, n - 1);
      assert before + (m + 1 + n) == before + m + 1 + n;
    } else {
      assert before + (m + 1) == before + m + 1;
    }
  }

  // ----- How many sessions a run plans -----

  lemma DueOneMore(k: nat, every: nat)
    requires every > 0 && k > 0
    ensures k / every == (k - 1) / every + if k % every == 0 then 1 else 0
  {
    var q, r := (k - 1) / every, (k - 1) % every;
    assert k - 1 == q * every + r;
    if r == every - 1 {
      assert k == (q + 1) * every;
      DivideUnique(k, every, q + 1, 0);
    } else {
      DivideUnique(k, every, q, r + 1);
    }
  }

  function Quotient(n: nat, c: nat): nat
    requires c > 0
  {
    n / c
  }

  /** The number of due checkpoints in the first `n` epochs. */
  function DueIn(spec: Spec, n: nat): nat
    requires Trains(spec) && (spec.validation.Some? ==> spec.validation.value.every > 0)
  {
    if spec.validation.Some?
    then Quotient(Quotient(n, spec.training.value.cadence), spec.validation.value.every) else 0
  }

  lemma DueStep(spec: Spec, n: nat)
    requires Trains(spec) && (spec.validation.Some? ==> spec.validation.value.every > 0) && n > 0
    ensures DueIn(spec, n) == DueIn(spec, n - 1)
              + if n % Cadence(spec) == 0 && Due(spec, n / Cadence(spec)) then 1 else 0
  {
    DueOneMore(n, spec.training.value.cadence);
    if spec.validation.Some? && n % spec.training.value.cadence == 0 {
      NoZeroQuotient(n, spec.training.value.cadence);
      DueOneMore(n / spec.training.value.cadence, spec.validation.value.every);
    }
  }

  lemma NoZeroQuotient(n: nat, c: nat)
    requires n > 0 && c > 0 && n % c == 0
    ensures n / c > 0
  {
  }

  /** A finished run plans every epoch, and one validation for every due checkpoint. */
  lemma {:induction false} PlannedTotal(spec: Spec, n: nat)
    requires Trains(spec) && (spec.validation.Some? ==> spec.validation.value.every > 0)
    ensures PlannedIn(spec, n) == n * Size(spec, Training) + DueIn(spec, n) * Size(spec, Validation)
  {
    if n > 0 {
      PlannedTotal(spec, n - 1);
      DueStep(spec, n);
      hide Size, Due, DueIn;
      OneMoreTime(n, Size(spec, Training));
      OneMoreTime(DueIn(spec, n), Size(spec, Validation));
    } else {
      hide Size, Due;
    }
  }

  lemma OneMoreTime(n: nat, size: nat)
    ensures n > 0 ==> n * size == (n - 1) * size + size
  {
  }
}
