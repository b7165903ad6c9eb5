/** Model of the durable experiment protocol in rust-server/src/agent_experiment.rs: `run`,
    `execute_plans`, the run manifest, immutable result files and checkpoint records.

    The output directory is a value of type `Disk`; every file appears by one atomic rename. A
    crash, an I/O error or a failed callback may end an invocation between any two durable
    steps, and then only the disk survives. Where an invocation stops, in which order sessions
    finish, how they end and what the learner answers are arguments of the invocation. */
module DurableTraining {
  import opened Wrappers
  import opened PlanSet

  datatype SessionSet = SessionSet(scenarios: seq<Scenario>, seats: Seats, mirrorRoles: bool)

  datatype TrainingSpec = TrainingSpec(set_: SessionSet, learner: string, epochs: nat, cadence: nat)

  datatype ValidationSpec = ValidationSpec(set_: SessionSet, every: nat)

  datatype Spec = Spec(
    header: Header, agents: map<string, ConfiguredAgent>, sessions: Option<SessionSet>,
    training: Option<TrainingSpec>, validation: Option<ValidationSpec>,
    concurrency: nat, failFast: bool)

  datatype TrajectoryStep = TrajectoryStep(plan: PlanId, decision: nat, body: string)

  datatype SessionResult = SessionResult(
    runId: nat, planId: PlanId, succeeded: bool, trajectory: seq<TrajectoryStep>)

  datatype CheckpointRecord = CheckpointRecord(
    runId: nat, number: nat, updateId: (nat, nat), base: CheckpointId, checkpoint: CheckpointId)

  /** A collision-free specification hash stands for the specification itself. */
  datatype Manifest = Manifest(runId: nat, spec: Spec)

  datatype Disk = Disk(
    manifest: Option<Manifest>,
    results: map<PlanId, SessionResult>,
    records: map<nat, CheckpointRecord>)

  /** One call of the learner's `train`, with the checkpoint it answered, if it answered. */
  datatype TrainCall = TrainCall(
    number: nat, updateId: (nat, nat), completedEpochs: nat, base: CheckpointId,
    steps: seq<TrajectoryStep>, answer: Option<CheckpointId>)

  datatype Batch = Batch(
    planned: nat, completed: nat, failed: nat, skipped: nat, steps: seq<TrajectoryStep>, hasFailure: bool)

  datatype Summary = Summary(
    runId: nat, planned: nat, completed: nat, failed: nat, skipped: nat, checkpoints: nat)

  datatype Outcome = Finished(summary: Summary) | Interrupted

  /** How a session ends, with the number and the body of each learner step. */
  datatype Ending = Ending(succeeded: bool, steps: seq<(nat, string)>)

  /** Where an invocation may stop: before the manifest is written, before a session finishes, before the
      learner is called, and before its answer is recorded. */
  datatype Point =
    | AtManifest
    | AtSession(phase: Phase, index: nat, finished: nat)
    | AtTraining(number: nat)
    | AtRecord(number: nat)

  /** Everything one invocation does not decide itself. */
  datatype World = World(
    runId: nat, stops: Point -> bool, picks: Point -> nat, endings: PlanId -> Ending, answers: nat -> Option<CheckpointId>)

  /** Every step carries the plan of its session. */
  predicate Labelled(steps: seq<TrajectoryStep>, id: PlanId) {
    forall i :: 0 <= i < |steps| ==> steps[i].plan == id
  }

  function TrajectoryOf(id: PlanId, ending: Ending): (r: seq<TrajectoryStep>)
    ensures Labelled(r, id) && |r| == |ending.steps|
  {
    seq(|ending.steps|, i requires 0 <= i < |ending.steps| => TrajectoryStep(id, ending.steps[i].0, ending.steps[i].1))
  }

  const EMPTY_DISK := Disk(None, map[], map[])

  // ----- The specification -----

  predicate Trains(spec: Spec) {
    && spec.training.Some?
    && var t := spec.training.value;
       && t.epochs > 0 && t.cadence > 0 && t.epochs % t.cadence == 0
       && t.learner in spec.agents && spec.agents[t.learner].trainable && spec.agents[t.learner].checkpoint.Some?
  }

  /** The checks of `validate_spec` the protocol relies on. */
  predicate ValidSpec(spec: Spec) {
    && spec.concurrency > 0
    && (spec.sessions.Some? || spec.training.Some?)
    && (spec.training.Some? ==> Trains(spec))
    && (spec.validation.Some? ==> spec.training.Some? && spec.validation.value.every > 0)
  }

  /** At most one session is in flight. */
  predicate Serial(spec: Spec) { spec.failFast || spec.concurrency == 1 }

  function Cadence(spec: Spec): nat { if Trains(spec) then spec.training.value.cadence else 1 }

  /** The last epoch before the k-th update. */
  function Boundary(spec: Spec, k: nat): nat { if k == 0 then 0 else Boundary(spec, k - 1) + Cadence(spec) }

  lemma {:induction false} BoundaryIsProduct(spec: Spec, k: nat)
    ensures Boundary(spec, k) == k * Cadence(spec)
  {
    if k > 0 { BoundaryIsProduct(spec, k - 1); }
  }

  lemma {:induction false} BoundaryMonotone(spec: Spec, j: nat, k: nat)
    requires j <= k
    ensures Boundary(spec, j) <= Boundary(spec, k)
  {
    if j < k { BoundaryMonotone(spec, j, k - 1); }
  }

  /** The number of checkpoints recorded before epoch `e` starts. */
  function Block(spec: Spec, e: nat): nat { if e == 0 || !Trains(spec) then 0 else (e - 1) / Cadence(spec) }

  // ----- What a disk determines -----

  function Base(spec: Spec, d: Disk, k: nat): CheckpointId {
    if k in d.records then d.records[k].checkpoint
    else if Trains(spec) then spec.agents[spec.training.value.learner].checkpoint.value else ""
  }

  predicate HasBase(d: Disk, k: nat) { k == 0 || k in d.records }

  function SetFor(spec: Spec, phase: Phase): Option<SessionSet> {
    match phase
    case Evaluation => spec.sessions
    case Training => if spec.training.Some? then Some(spec.training.value.set_) else None
    case Validation => if spec.validation.Some? then Some(spec.validation.value.set_) else None
  }

  function RequestFor(spec: Spec, phase: Phase, index: nat, set_: SessionSet, checkpoint: CheckpointId): Request {
    Request(spec.header, spec.agents, phase, index, set_.scenarios, set_.seats, set_.mirrorRoles,
            if phase == Evaluation || !Trains(spec) then map[] else map[spec.training.value.learner := checkpoint])
  }

  function IdsOf(plans: seq<SessionPlan>): seq<PlanId> {
    seq(|plans|, i requires 0 <= i < |plans| => plans[i].id)
  }

  /** The checkpoint seated in the sessions of one phase. */
  function SeatedCheckpoint(spec: Spec, d: Disk, phase: Phase, index: nat): CheckpointId {
    Base(spec, d, if phase == Training then Block(spec, index) else if phase == Validation then index else 0)
  }

  function PlansFor(spec: Spec, d: Disk, phase: Phase, index: nat): seq<PlanId> {
    var set_ := SetFor(spec, phase);
    if set_.None? then [] else
      IdsOf(Expand(RequestFor(spec, phase, index, set_.value, SeatedCheckpoint(spec, d, phase, index))))
  }

  ghost predicate Finalized(d: Disk, plans: seq<PlanId>) {
    forall i :: 0 <= i < |plans| ==> plans[i] in d.results
  }

  ghost predicate Succeeded(d: Disk, plans: seq<PlanId>) {
    forall i :: 0 <= i < |plans| ==> plans[i] in d.results && d.results[plans[i]].succeeded
  }

  /** Finalized results form a prefix of the plan order. */
  ghost predicate PrefixFinalized(d: Disk, plans: seq<PlanId>) {
    forall i, j :: 0 <= i < j < |plans| && plans[j] in d.results ==> plans[i] in d.results
  }

  ghost predicate EpochDone(spec: Spec, d: Disk, e: nat) {
    HasBase(d, Block(spec, e)) && Succeeded(d, PlansFor(spec, d, Training, e))
  }

  ghost predicate EpochsDone(spec: Spec, d: Disk, n: nat) {
    forall e :: 1 <= e <= n ==> EpochDone(spec, d, e)
  }

  function StepsOf(d: Disk, plans: seq<PlanId>): seq<TrajectoryStep> {
    if plans == [] then [] else
      var p := plans[|plans| - 1];
      StepsOf(d, plans[..|plans| - 1]) + if p in d.results then d.results[p].trajectory else []
  }

  /** The steps of `n` consecutive epochs after the first `before`, each epoch in plan order. */
  function EpochSteps(spec: Spec, d: Disk, before: nat, n: nat): seq<TrajectoryStep> {
    if n == 0 then [] else
      EpochSteps(spec, d, before, n - 1) + StepsOf(d, PlansFor(spec, d, Training, before + n))
  }

  /** The steps the k-th update is meant to see: epochs (k-1)c+1 to kc. */
  function BlockSteps(spec: Spec, d: Disk, k: nat): seq<TrajectoryStep>
    requires k > 0
  {
    EpochSteps(spec, d, Boundary(spec, k - 1), Cadence(spec))
  }

  // ----- The invariant of the output directory -----

  /** Sessions of this phase and index may run now. */
  ghost predicate PhaseReady(spec: Spec, d: Disk, phase: Phase, index: nat) {
    match phase
    case Evaluation => index == 0 && spec.sessions.Some?
    case Training =>
      && Trains(spec) && 1 <= index <= spec.training.value.epochs
      && HasBase(d, Block(spec, index)) && EpochsDone(spec, d, index - 1)
    case Validation =>
      && Trains(spec) && spec.validation.Some? && spec.validation.value.every > 0
      && index in d.records && index % spec.validation.value.every == 0
  }

  ghost predicate ResultSound(spec: Spec, d: Disk, id: PlanId)
    requires id in d.results && d.manifest.Some?
  {
    && d.results[id].runId == d.manifest.value.runId && d.results[id].planId == id
    && Labelled(d.results[id].trajectory, id)
    && PhaseReady(spec, d, id.phase, id.phaseIndex)
    && id in PlansFor(spec, d, id.phase, id.phaseIndex)
  }

  ghost predicate CallSound(spec: Spec, d: Disk, c: TrainCall)
    requires d.manifest.Some?
  {
    && Trains(spec) && c.number >= 1 && HasBase(d, c.number - 1)
    && c.updateId == (d.manifest.value.runId, c.number)
    && c.base == Base(spec, d, c.number - 1)
    && c.completedEpochs == Boundary(spec, c.number) <= spec.training.value.epochs
    && EpochsDone(spec, d, Boundary(spec, c.number))
    && multiset(c.steps) == multiset(BlockSteps(spec, d, c.number))
    && (Serial(spec) ==> c.steps == BlockSteps(spec, d, c.number))
  }

  /** Call `i` produced the recorded checkpoint `k`, and no later call trains for `k` again. */
  ghost predicate Produced(calls: seq<TrainCall>, i: nat, k: nat, checkpoint: CheckpointId) {
    && i < |calls| && calls[i].number == k && calls[i].answer == Some(checkpoint)
    && forall j :: i < j < |calls| ==> calls[j].number > k
  }

  ghost predicate RecordSound(spec: Spec, d: Disk, calls: seq<TrainCall>, k: nat)
    requires k in d.records && d.manifest.Some?
  {
    && Trains(spec) && k >= 1 && HasBase(d, k - 1)
    && d.records[k] == CheckpointRecord(d.manifest.value.runId, k, (d.manifest.value.runId, k),
                                        Base(spec, d, k - 1), d.records[k].checkpoint)
    && Boundary(spec, k) <= spec.training.value.epochs
    && EpochsDone(spec, d, Boundary(spec, k))
    && exists i :: Produced(calls, i, k, d.records[k].checkpoint)
  }

  ghost predicate Ordered(spec: Spec, d: Disk) {
    forall phase, index {:trigger PrefixFinalized(d, PlansFor(spec, d, phase, index))} ::
      PhaseReady(spec, d, phase, index) ==> PrefixFinalized(d, PlansFor(spec, d, phase, index))
  }

  ghost predicate Inv(spec: Spec, d: Disk, calls: seq<TrainCall>) {
    && ValidSpec(spec)
    && d.manifest.Some? && d.manifest.value.spec == spec
    && (forall id {:trigger ResultSound(spec, d, id)} :: id in d.results ==> ResultSound(spec, d, id))
    && (forall k {:trigger RecordSound(spec, d, calls, k)} :: k in d.records ==> RecordSound(spec, d, calls, k))
    && (forall i {:trigger CallSound(spec, d, calls[i])} :: 0 <= i < |calls| ==> CallSound(spec, d, calls[i]))
    && (Serial(spec) ==> Ordered(spec, d))
  }

  /** Files are only ever added. */
  ghost predicate Grows(d: Disk, d': Disk) {
    && (d.manifest.Some? ==> d'.manifest == d.manifest)
    && (forall id :: id in d.results ==> id in d'.results && d'.results[id] == d.results[id])
    && (forall k :: k in d.records ==> k in d'.records && d'.records[k] == d.records[k])
  }

  /** Everything the specification asks for is on disk. */
  ghost predicate Complete(spec: Spec, d: Disk) {
    && (spec.sessions.Some? ==> Finalized(d, PlansFor(spec, d, Evaluation, 0)))
    && (Trains(spec) ==>
          && EpochsDone(spec, d, spec.training.value.epochs)
          && forall k :: 1 <= k && Boundary(spec, k) <= spec.training.value.epochs ==> k in d.records)
    && (forall k :: PhaseReady(spec, d, Validation, k) ==> Finalized(d, PlansFor(spec, d, Validation, k)))
  }

  // ----- Frame lemmas: what is finished stays as it is -----

  lemma PlanCoordinates(spec: Spec, d: Disk, phase: Phase, index: nat)
    ensures forall id :: id in PlansFor(spec, d, phase, index) ==> id.phase == phase && id.phaseIndex == index
  {
    var set_ := SetFor(spec, phase);
    if set_.Some? {
      var req := RequestFor(spec, phase, index, set_.value, SeatedCheckpoint(spec, d, phase, index));
      ExpansionShape(req);
      var plans := Expand(req);
      forall id | id in IdsOf(plans) ensures id.phase == phase && id.phaseIndex == index {
        var i :| 0 <= i < |plans| && IdsOf(plans)[i] == id;
        assert plans[i] in plans;
      }
    }
  }

  /** Records are contiguous from 1, so a known base k means every earlier base is known. */
  lemma {:induction false} EarlierBase(spec: Spec, d: Disk, calls: seq<TrainCall>, k: nat, j: nat)
    requires Inv(spec, d, calls) && HasBase(d, k) && j <= k
    ensures HasBase(d, j)
    decreases k
  {
    if j < k {
      assert RecordSound(spec, d, calls, k);
      EarlierBase(spec, d, calls, k - 1, j);
    }
  }

  /** With the same base known, growth changes no plan list. */
  lemma SamePlans(spec: Spec, d: Disk, d': Disk, phase: Phase, index: nat)
    requires Grows(d, d') && 0 !in d'.records
    requires phase == Training ==> HasBase(d, Block(spec, index))
    requires phase == Validation ==> index in d.records
    ensures PlansFor(spec, d', phase, index) == PlansFor(spec, d, phase, index)
  {
  }

  lemma EpochDoneGrows(spec: Spec, d: Disk, d': Disk, e: nat)
    requires Grows(d, d') && 0 !in d'.records && EpochDone(spec, d, e)
    ensures EpochDone(spec, d', e)
    ensures PlansFor(spec, d', Training, e) == PlansFor(spec, d, Training, e)
  {
    SamePlans(spec, d, d', Training, e);
  }

  lemma EpochsDoneGrow(spec: Spec, d: Disk, d': Disk, n: nat)
    requires Grows(d, d') && 0 !in d'.records && EpochsDone(spec, d, n)
    ensures EpochsDone(spec, d', n)
  {
    forall e | 1 <= e <= n ensures EpochDone(spec, d', e) { EpochDoneGrows(spec, d, d', e); }
  }

  lemma PhaseReadyGrows(spec: Spec, d: Disk, d': Disk, phase: Phase, index: nat)
    requires Grows(d, d') && 0 !in d'.records && PhaseReady(spec, d, phase, index)
    ensures PhaseReady(spec, d', phase, index)
    ensures PlansFor(spec, d', phase, index) == PlansFor(spec, d, phase, index)
  {
    if phase == Training { EpochsDoneGrow(spec, d, d', index - 1); }
    SamePlans(spec, d, d', phase, index);
  }

  lemma {:induction false} StepsOfGrows(d: Disk, d': Disk, plans: seq<PlanId>)
    requires Grows(d, d') && Finalized(d, plans)
    ensures StepsOf(d', plans) == StepsOf(d, plans)
  {
    if plans != [] {
      assert plans[|plans| - 1] in d.results;
      StepsOfGrows(d, d', plans[..|plans| - 1]);
    }
  }

  lemma {:induction false} EpochStepsGrow(spec: Spec, d: Disk, d': Disk, before: nat, n: nat)
    requires Grows(d, d') && 0 !in d'.records && EpochsDone(spec, d, before + n)
    ensures EpochSteps(spec, d', before, n) == EpochSteps(spec, d, before, n)
  {
    if n > 0 {
      EpochStepsGrow(spec, d, d', before, n - 1);
      assert EpochDone(spec, d, before + n);
      EpochDoneGrows(spec, d, d', before + n);
      StepsOfGrows(d, d', PlansFor(spec, d, Training, before + n));
    }
  }

  lemma CallSoundGrows(spec: Spec, d: Disk, d': Disk, c: TrainCall)
    requires d.manifest.Some? && Grows(d, d') && 0 !in d'.records && CallSound(spec, d, c)
    ensures CallSound(spec, d', c)
  {
    hide PlansFor, StepsOf, EpochSteps, EpochsDone, Cadence, Trains;
    assert Boundary(spec, c.number) == Boundary(spec, c.number - 1) + Cadence(spec);
    hide Boundary;
    EpochsDoneGrow(spec, d, d', Boundary(spec, c.number));
    EpochStepsGrow(spec, d, d', Boundary(spec, c.number - 1), Cadence(spec));
  }

  /** What every durable write keeps; the write itself must then justify only its own file. */
  lemma InvGrows(spec: Spec, d: Disk, d': Disk, calls: seq<TrainCall>)
    requires Inv(spec, d, calls) && Grows(d, d') && 0 !in d'.records
    ensures forall id {:trigger ResultSound(spec, d', id)} :: id in d.results ==> ResultSound(spec, d', id)
    ensures forall k {:trigger RecordSound(spec, d', calls, k)} :: k in d.records ==> RecordSound(spec, d', calls, k)
    ensures forall i {:trigger CallSound(spec, d', calls[i])} :: 0 <= i < |calls| ==> CallSound(spec, d', calls[i])
  {
    forall id | id in d.results ensures ResultSound(spec, d', id) {
      assert ResultSound(spec, d, id);
      PhaseReadyGrows(spec, d, d', id.phase, id.phaseIndex);
    }
    forall k | k in d.records ensures RecordSound(spec, d', calls, k) {
      assert RecordSound(spec, d, calls, k);
      EpochsDoneGrow(spec, d, d', Boundary(spec, k));
    }
    forall i | 0 <= i < |calls| ensures CallSound(spec, d', calls[i]) {
      CallSoundGrows(spec, d, d', calls[i]);
    }
  }

  lemma NoRecordZero(spec: Spec, d: Disk, calls: seq<TrainCall>)
    requires Inv(spec, d, calls)
    ensures 0 !in d.records
  {
    assert 0 in d.records ==> RecordSound(spec, d, calls, 0);
  }

  /** A newly ready phase has no result yet. */
  lemma OrderedGrows(spec: Spec, d: Disk, d': Disk, calls: seq<TrainCall>, phase: Phase, index: nat)
    requires Inv(spec, d, calls) && Serial(spec) && Grows(d, d') && 0 !in d'.records
    requires PhaseReady(spec, d', phase, index)
    requires forall id :: id in d'.results && id !in d.results ==>
               id.phase != phase || id.phaseIndex != index
    ensures PrefixFinalized(d', PlansFor(spec, d', phase, index))
  {
    PlanCoordinates(spec, d', phase, index);
    var plans := PlansFor(spec, d', phase, index);
    if PhaseReady(spec, d, phase, index) {
      PhaseReadyGrows(spec, d, d', phase, index);
      assert PrefixFinalized(d, plans);
      forall j | 0 <= j < |plans| && plans[j] in d'.results ensures plans[j] in d.results {
        assert plans[j] in plans;
      }
    } else {
      assert forall id :: id in d.results ==> id.phase != phase || id.phaseIndex != index by {
        forall id | id in d.results ensures id.phase != phase || id.phaseIndex != index {
          assert ResultSound(spec, d, id);
        }
      }
      forall j | 0 <= j < |plans| ensures plans[j] !in d'.results { assert plans[j] in plans; }
    }
  }

  // ----- The three durable writes keep the invariant -----

  lemma WriteResult(spec: Spec, d: Disk, calls: seq<TrainCall>, plans: seq<PlanId>, i: nat, r: SessionResult)
    requires Inv(spec, d, calls) && i < |plans| && plans[i] !in d.results
    requires PhaseReady(spec, d, plans[i].phase, plans[i].phaseIndex)
    requires plans == PlansFor(spec, d, plans[i].phase, plans[i].phaseIndex)
    requires forall x, y :: 0 <= x < y < |plans| ==> plans[x] != plans[y]
    requires r.runId == d.manifest.value.runId && r.planId == plans[i] && Labelled(r.trajectory, r.planId)
    requires Serial(spec) ==> forall j :: 0 <= j < |plans| ==> (plans[j] in d.results <==> j < i)
    ensures Inv(spec, d.(results := d.results[plans[i] := r]), calls)
  {
    var id := plans[i];
    var d' := d.(results := d.results[id := r]);
    NoRecordZero(spec, d, calls);
    InvGrows(spec, d, d', calls);
    PhaseReadyGrows(spec, d, d', id.phase, id.phaseIndex);
    assert id in PlansFor(spec, d', id.phase, id.phaseIndex);
    if Serial(spec) {
      forall phase, index | PhaseReady(spec, d', phase, index)
        ensures PrefixFinalized(d', PlansFor(spec, d', phase, index))
      {
        if phase != id.phase || index != id.phaseIndex { OrderedGrows(spec, d, d', calls, phase, index); }
      }
    }
  }

  lemma CallTrain(spec: Spec, d: Disk, calls: seq<TrainCall>, c: TrainCall)
    requires Inv(spec, d, calls) && CallSound(spec, d, c) && c.number !in d.records
    ensures Inv(spec, d, calls + [c])
  {
    var calls' := calls + [c];
    assert c.number >= 1;
    hide CallSound, Ordered, ValidSpec, EpochsDone, Boundary, PlansFor, Trains;
    forall k | k in d.records ensures RecordSound(spec, d, calls', k) {
      assert RecordSound(spec, d, calls, k);
      var i :| Produced(calls, i, k, d.records[k].checkpoint);
      if c.number <= k { EarlierBase(spec, d, calls, k, c.number); }
      assert Produced(calls', i, k, d.records[k].checkpoint);
    }
  }

  lemma WriteRecord(spec: Spec, d: Disk, calls: seq<TrainCall>, next: CheckpointId)
    requires Inv(spec, d, calls) && calls != []
    requires calls[|calls| - 1].number !in d.records && calls[|calls| - 1].answer == Some(next)
    ensures var c := calls[|calls| - 1];
            Inv(spec, d.(records := d.records[c.number := CheckpointRecord(c.updateId.0, c.number, c.updateId, c.base, next)]), calls)
  {
    var c := calls[|calls| - 1];
    var k := c.number;
    var d' := d.(records := d.records[k := CheckpointRecord(c.updateId.0, k, c.updateId, c.base, next)]);
    hide PlansFor, EpochsDone, Boundary, StepsOf, EpochSteps, Cadence, ValidSpec, PrefixFinalized;
    NoRecordZero(spec, d, calls);
    assert CallSound(spec, d, c);
    InvGrows(spec, d, d', calls);
    assert Produced(calls, |calls| - 1, k, next);
    EpochsDoneGrow(spec, d, d', Boundary(spec, k));
    hide Produced, PhaseReady, ResultSound, BlockSteps;
    assert RecordSound(spec, d', calls, k);
    if Serial(spec) {
      forall phase, index | PhaseReady(spec, d', phase, index)
        ensures PrefixFinalized(d', PlansFor(spec, d', phase, index))
      {
        OrderedGrows(spec, d, d', calls, phase, index);
      }
    }
  }

  // ----- Reordering and arithmetic -----

  lemma {:induction false} StepsOfAppend(d: Disk, a: seq<PlanId>, b: seq<PlanId>)
    ensures StepsOf(d, a + b) == StepsOf(d, a) + StepsOf(d, b)
  {
    if b == [] {
      assert a + b == a;
    } else {
      assert (a + b)[..|a + b| - 1] == a + b[..|b| - 1];
      StepsOfAppend(d, a, b[..|b| - 1]);
    }
  }

  lemma StepsOfRemove(d: Disk, b: seq<PlanId>, i: nat)
    requires i < |b|
    ensures multiset(StepsOf(d, b))
         == multiset(StepsOf(d, b[..i] + b[i + 1..])) + multiset(StepsOf(d, [b[i]]))
  {
    assert b == (b[..i] + [b[i]]) + b[i + 1..];
    StepsOfAppend(d, b[..i] + [b[i]], b[i + 1..]);
    StepsOfAppend(d, b[..i], [b[i]]);
    StepsOfAppend(d, b[..i], b[i + 1..]);
  }

  lemma BagWithout<T>(b: seq<T>, i: nat)
    requires i < |b|
    ensures multiset(b[..i] + b[i + 1..]) == multiset(b) - multiset{b[i]}
  {
    assert b == b[..i] + [b[i]] + b[i + 1..];
  }

  lemma DropMatching<T>(a: seq<T>, b: seq<T>) returns (i: nat)
    requires multiset(a) == multiset(b) && a != []
    ensures i < |b| && b[i] == a[0] && multiset(a[..0] + a[1..]) == multiset(b[..i] + b[i + 1..])
  {
    assert a[0] in multiset(b);
    i :| i < |b| && b[i] == a[0];
    BagWithout(a, 0);
    BagWithout(b, i);
  }

  lemma SameBagAround(d: Disk, a: seq<PlanId>, b: seq<PlanId>, i: nat)
    requires a != [] && i < |b| && b[i] == a[0]
    requires multiset(StepsOf(d, a[..0] + a[1..])) == multiset(StepsOf(d, b[..i] + b[i + 1..]))
    ensures multiset(StepsOf(d, a)) == multiset(StepsOf(d, b))
  {
    hide StepsOf;
    var rest := multiset(StepsOf(d, a[..0] + a[1..]));
    var first := multiset(StepsOf(d, [a[0]]));
    assert multiset(StepsOf(d, a)) == rest + first by { StepsOfRemove(d, a, 0); }
    assert multiset(StepsOf(d, b)) == rest + first by { StepsOfRemove(d, b, i); }
  }

  lemma EmptyBag<T>(b: seq<T>)
    requires multiset(b) == multiset{}
    ensures b == []
  {
    assert |multiset(b)| == |b|;
  }

  /** The steps of a set of plans, as a bag, do not depend on completion order. */
  lemma {:induction false} StepsOfPermutation(d: Disk, a: seq<PlanId>, b: seq<PlanId>)
    requires multiset(a) == multiset(b)
    ensures multiset(StepsOf(d, a)) == multiset(StepsOf(d, b))
    decreases |a|
  {
    if a == [] {
      EmptyBag(b);
    } else {
      var i := DropMatching(a, b);
      StepsOfPermutation(d, a[..0] + a[1..], b[..i] + b[i + 1..]);
      SameBagAround(d, a, b, i);
    }
  }

  lemma BlockOfEpoch(spec: Spec, e: nat, k: nat, r: nat)
    requires Trains(spec) && e >= 1 && e - 1 == Boundary(spec, k) + r && r < Cadence(spec)
    ensures Block(spec, e) == k && (e % Cadence(spec) == 0 <==> r + 1 == Cadence(spec))
  {
    var c := Cadence(spec);
    BoundaryIsProduct(spec, k);
    BoundaryIsProduct(spec, k + 1);
    DivideUnique(e - 1, c, k, r);
    if r + 1 == c { DivideUnique(e, c, k + 1, 0); } else { DivideUnique(e, c, k, r + 1); }
  }

  lemma DivideUnique(n: nat, c: nat, q: nat, r: nat)
    requires c > 0 && n == q * c + r && r < c
    ensures n / c == q && n % c == r
  {
    var p := n / c;
    assert n == p * c + n % c;
    if p < q { MultiplyMonotone(p + 1, q, c); } else if q < p { MultiplyMonotone(q + 1, p, c); }
  }

  lemma {:induction false} MultiplyMonotone(a: nat, b: nat, c: nat)
    requires a <= b
    ensures a * c <= b * c
  {
    assert b * c == a * c + (b - a) * c;
  }
}
