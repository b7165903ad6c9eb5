/** The invocations themselves: `run` and `execute_plans` as loops over mutable locals, against
    the durable state and invariant of DurableTraining. */
module ExperimentRun {
  import opened Wrappers
  import opened PlanSet
  import opened DurableTraining
  import opened StepOrder

  /** What the two loops of `execute_plans` keep about the plans handled so far. */
  ghost predicate Bookkeeping(d: Disk, batch: Batch, done: seq<PlanId>, pending: seq<PlanId>, handled: seq<PlanId>) {
    && multiset(done) + multiset(pending) == multiset(handled)
    && (forall x, y :: 0 <= x < y < |pending| ==> pending[x] != pending[y])
    && (forall x :: 0 <= x < |pending| ==> pending[x] in handled && pending[x] !in d.results)
    && Finalized(d, done)
    && batch.steps == StepsOf(d, done)
    && (batch.hasFailure <==> !Succeeded(d, done))
    && batch.skipped + batch.completed + batch.failed == |done|
  }

  /** What a completed `execute_plans` reports: every plan is finalized, the counts add up, and the
      steps are exactly those of the finalized results, in plan order when the run is serial. */
  ghost predicate BatchCorrect(spec: Spec, d: Disk, plans: seq<PlanId>, batch: Batch) {
    && Finalized(d, plans)
    && batch.planned == |plans| == batch.completed + batch.failed + batch.skipped
    && (batch.hasFailure <==> !Succeeded(d, plans))
    && multiset(batch.steps) == multiset(StepsOf(d, plans))
    && (Serial(spec) ==> batch.steps == StepsOf(d, plans))
  }

  /** Only sessions without a finalized result were started since. */
  ghost predicate Fresh(before: seq<PlanId>, after: seq<PlanId>, d: Disk) {
    before <= after && forall i :: |before| <= i < |after| ==> after[i] !in d.results
  }

  /** The identity check of `finalized_result_matches` never fails. */
  lemma FinalizedResultsMatch(spec: Spec, d: Disk, calls: seq<TrainCall>)
    requires Inv(spec, d, calls)
    ensures forall id :: id in d.results ==> d.results[id].planId == id && d.results[id].runId == d.manifest.value.runId
  {
    forall id | id in d.results
      ensures d.results[id].planId == id && d.results[id].runId == d.manifest.value.runId
    {
      assert ResultSound(spec, d, id);
    }
  }

  /** Only updates without a record were trained for since. */
  ghost predicate CallsFresh(before: seq<TrainCall>, after: seq<TrainCall>, d: Disk) {
    before <= after && forall i :: |before| <= i < |after| ==> after[i].number !in d.records
  }

  lemma StartBookkeeping(d: Disk, plans: seq<PlanId>)
    ensures Bookkeeping(d, Batch(|plans|, 0, 0, 0, [], false), [], [], plans[..0])
    ensures SplitInOrder([], [], plans, 0)
  {
  }

  /** The handled plans are, in order, the done ones and then the pending ones. */
  ghost predicate SplitInOrder(done: seq<PlanId>, pending: seq<PlanId>, plans: seq<PlanId>, handled: nat) {
    |done| <= handled <= |plans| && done == plans[..|done|] && pending == plans[|done|..handled]
  }

  lemma HandledOneMore(done: seq<PlanId>, pending: seq<PlanId>, plans: seq<PlanId>, i: nat)
    requires i < |plans| && SplitInOrder(done, pending, plans, i)
    ensures SplitInOrder(done, pending + [plans[i]], plans, i + 1)
    ensures pending == [] ==> SplitInOrder(done + [plans[i]], pending, plans, i + 1)
  {
  }

  lemma AdvanceInOrder(done: seq<PlanId>, pending: seq<PlanId>, plans: seq<PlanId>)
    requires SplitInOrder(done, pending, plans, |plans|) && pending != []
    ensures SplitInOrder(done + [pending[0]], pending[..0] + pending[1..], plans, |plans|)
  {
  }

  lemma OneMoreDone(d: Disk, done: seq<PlanId>, p: PlanId)
    requires Finalized(d, done) && p in d.results
    ensures Finalized(d, done + [p])
    ensures StepsOf(d, done + [p]) == StepsOf(d, done) + d.results[p].trajectory
    ensures Succeeded(d, done + [p]) <==> Succeeded(d, done) && d.results[p].succeeded
  {
    var all := done + [p];
    assert all[..|all| - 1] == done;
    assert forall x :: 0 <= x < |done| ==> all[x] == done[x];
    assert all[|done|] == p;
  }

  /** In a serial run no finalized plan is behind a pending one. */
  lemma PendingBlocks(d: Disk, batch: Batch, done: seq<PlanId>, pending: seq<PlanId>, plans: seq<PlanId>, i: nat)
    requires i < |plans| && pending != [] && PrefixFinalized(d, plans)
    requires Bookkeeping(d, batch, done, pending, plans[..i])
    ensures plans[i] !in d.results
  {
    assert pending[0] in plans[..i];
    var x :| 0 <= x < i && plans[..i][x] == pending[0];
    assert plans[x] !in d.results;
  }

  /** In a serial run either list grows in plan order. */
  lemma KeepsOrder(d: Disk, batch: Batch, done: seq<PlanId>, pending: seq<PlanId>, plans: seq<PlanId>, i: nat)
    requires i < |plans| && PrefixFinalized(d, plans) && SplitInOrder(done, pending, plans, i)
    requires Bookkeeping(d, batch, done, pending, plans[..i])
    ensures if plans[i] in d.results then SplitInOrder(done + [plans[i]], pending, plans, i + 1)
            else SplitInOrder(done, pending + [plans[i]], plans, i + 1)
  {
    if pending != [] { PendingBlocks(d, batch, done, pending, plans, i); }
    HandledOneMore(done, pending, plans, i);
    hide SplitInOrder, Bookkeeping, PrefixFinalized;
  }

  lemma OneMorePending(d: Disk, batch: Batch, done: seq<PlanId>, pending: seq<PlanId>, plans: seq<PlanId>, i: nat)
    requires i < |plans| && plans[i] !in d.results
    requires forall x, y :: 0 <= x < y < |plans| ==> plans[x] != plans[y]
    requires Bookkeeping(d, batch, done, pending, plans[..i])
    ensures Bookkeeping(d, batch, done, pending + [plans[i]], plans[..i + 1])
  {
    assert plans[..i + 1] == plans[..i] + [plans[i]];
    assert plans[i] !in plans[..i];
  }

  lemma OneMoreSkipped(d: Disk, batch: Batch, batch': Batch, done: seq<PlanId>, pending: seq<PlanId>, plans: seq<PlanId>, i: nat)
    requires i < |plans| && plans[i] in d.results
    requires Bookkeeping(d, batch, done, pending, plans[..i])
    requires batch'.steps == batch.steps + d.results[plans[i]].trajectory
    requires batch'.skipped + batch'.completed + batch'.failed == |done| + 1
    requires batch'.hasFailure == (batch.hasFailure || !d.results[plans[i]].succeeded)
    ensures Bookkeeping(d, batch', done + [plans[i]], pending, plans[..i + 1])
  {
    assert plans[..i + 1] == plans[..i] + [plans[i]];
    OneMoreDone(d, done, plans[i]);
  }

  /** In a serial run the next session is the first unfinalized plan. */
  lemma InOrder(d: Disk, batch: Batch, done: seq<PlanId>, pending: seq<PlanId>, plans: seq<PlanId>, i: nat)
    requires Bookkeeping(d, batch, done, pending, plans) && SplitInOrder(done, pending, plans, |plans|)
    requires pending != [] && i < |plans| && plans[i] == pending[0]
    requires forall x, y :: 0 <= x < y < |plans| ==> plans[x] != plans[y]
    ensures i == |done| && forall x :: 0 <= x < |plans| ==> (plans[x] in d.results <==> x < i)
  {
    assert plans[|done|] == pending[0];
    forall x | 0 <= x < |plans| ensures plans[x] in d.results <==> x < |done| {
      if x < |done| { assert plans[x] == done[x]; } else { assert plans[x] == pending[x - |done|]; }
    }
  }

  lemma RemovePending(d: Disk, pending: seq<PlanId>, plans: seq<PlanId>, j: nat, rest: seq<PlanId>)
    requires j < |pending| && rest == pending[..j] + pending[j + 1..]
    requires forall x, y :: 0 <= x < y < |pending| ==> pending[x] != pending[y]
    requires forall x :: 0 <= x < |pending| ==> pending[x] in plans && pending[x] !in d.results
    ensures forall x, y :: 0 <= x < y < |rest| ==> rest[x] != rest[y]
    ensures forall x :: 0 <= x < |rest| ==> rest[x] in plans && rest[x] !in d.results && rest[x] != pending[j]
  {
    assert forall x :: 0 <= x < |rest| ==> rest[x] == pending[if x < j then x else x + 1];
  }

  lemma MoveToDone(done: seq<PlanId>, pending: seq<PlanId>, plans: seq<PlanId>, j: nat)
    requires j < |pending| && multiset(done) + multiset(pending) == multiset(plans)
    ensures multiset(done + [pending[j]]) + multiset(pending[..j] + pending[j + 1..]) == multiset(plans)
  {
    BagWithout(pending, j);
  }

  lemma DoneGrows(d: Disk, d': Disk, done: seq<PlanId>)
    requires Grows(d, d') && Finalized(d, done)
    ensures Finalized(d', done) && StepsOf(d', done) == StepsOf(d, done)
    ensures Succeeded(d', done) <==> Succeeded(d, done)
  {
    StepsOfGrows(d, d', done);
    assert forall x :: 0 <= x < |done| ==> done[x] in d.results && d'.results[done[x]] == d.results[done[x]];
  }

  lemma FinishOne(d: Disk, d': Disk, batch: Batch, batch': Batch, done: seq<PlanId>, pending: seq<PlanId>,
                  plans: seq<PlanId>, j: nat, r: SessionResult)
    requires Bookkeeping(d, batch, done, pending, plans) && j < |pending|
    requires d' == d.(results := d.results[pending[j] := r])
    requires batch'.steps == batch.steps + r.trajectory
    requires batch'.skipped + batch'.completed + batch'.failed == |done| + 1
    requires batch'.hasFailure == (batch.hasFailure || !r.succeeded)
    ensures Bookkeeping(d', batch', done + [pending[j]], pending[..j] + pending[j + 1..], plans)
  {
    RemovePending(d, pending, plans, j, pending[..j] + pending[j + 1..]);
    MoveToDone(done, pending, plans, j);
    DoneGrows(d, d', done);
    OneMoreDone(d', done, pending[j]);
  }

  lemma AllDone(d: Disk, batch: Batch, done: seq<PlanId>, plans: seq<PlanId>)
    requires Bookkeeping(d, batch, done, [], plans)
    ensures Finalized(d, plans) && (Succeeded(d, plans) <==> Succeeded(d, done))
    ensures |done| == |plans| && multiset(StepsOf(d, done)) == multiset(StepsOf(d, plans))
  {
    assert multiset(done) == multiset(plans);
    assert |done| == |multiset(done)| == |plans|;
    StepsOfPermutation(d, done, plans);
    assert forall p :: p in plans <==> p in multiset(plans);
    assert forall p :: p in done <==> p in multiset(done);
    forall x | 0 <= x < |plans| ensures plans[x] in d.results {
      assert plans[x] in plans;
      assert plans[x] in done;
    }
    if Succeeded(d, done) {
      forall x | 0 <= x < |plans| ensures d.results[plans[x]].succeeded {
        assert plans[x] in plans;
        assert plans[x] in done;
      }
    }
    if Succeeded(d, plans) {
      forall x | 0 <= x < |done| ensures d.results[done[x]].succeeded {
        assert done[x] in done;
        assert done[x] in plans;
      }
    }
  }

  /** `d` differs from `start` only by finalized results; the plan set is still the same and ready. */
  ghost predicate ResultsAdded(spec: Spec, phase: Phase, index: nat, plans: seq<PlanId>, start: Disk, d: Disk) {
    && Grows(start, d) && d.records == start.records && d.manifest == start.manifest
    && PhaseReady(spec, d, phase, index) && plans == PlansFor(spec, d, phase, index)
  }

  /** The state of the second loop of `execute_plans`, entered with disk `start`. */
  ghost predicate Progress(spec: Spec, phase: Phase, index: nat, plans: seq<PlanId>, start: Disk, d: Disk,
                           batch: Batch, done: seq<PlanId>, pending: seq<PlanId>) {
    && d.manifest.Some? && d.manifest.value.spec == spec
    && ResultsAdded(spec, phase, index, plans, start, d)
    && (forall x, y :: 0 <= x < y < |plans| ==> plans[x] != plans[y])
    && Bookkeeping(d, batch, done, pending, plans)
    && batch.planned == |plans|
    && (Serial(spec) ==> SplitInOrder(done, pending, plans, |plans|))
    && (Finalized(start, plans) ==> pending == [] && d == start && batch.completed == batch.failed == 0)
  }

  lemma StartProgress(spec: Spec, phase: Phase, index: nat, plans: seq<PlanId>, d: Disk,
                      batch: Batch, done: seq<PlanId>, pending: seq<PlanId>)
    requires d.manifest.Some? && d.manifest.value.spec == spec
    requires PhaseReady(spec, d, phase, index) && plans == PlansFor(spec, d, phase, index)
    requires forall x, y :: 0 <= x < y < |plans| ==> plans[x] != plans[y]
    requires Bookkeeping(d, batch, done, pending, plans)
    requires batch.planned == |plans| && batch.completed == batch.failed == 0
    requires Serial(spec) ==> SplitInOrder(done, pending, plans, |plans|)
    ensures Progress(spec, phase, index, plans, d, d, batch, done, pending)
  {
    assert pending == [] || pending[0] in plans;
  }

  /** The first loop of `execute_plans` after `i` plans. */
  ghost predicate Skipping(spec: Spec, d: Disk, batch: Batch, done: seq<PlanId>, pending: seq<PlanId>, plans: seq<PlanId>, i: nat) {
    && i <= |plans| && Bookkeeping(d, batch, done, pending, plans[..i])
    && (forall x, y :: 0 <= x < y < |plans| ==> plans[x] != plans[y])
    && batch.skipped == |done| && batch.planned == |plans| && batch.completed == batch.failed == 0
    && (Serial(spec) ==> PrefixFinalized(d, plans) && SplitInOrder(done, pending, plans, i))
    && done == Skipped(d, plans[..i]) && pending == Remaining(d, plans[..i])
  }

  lemma SplitOneMore(d: Disk, plans: seq<PlanId>, i: nat)
    requires i < |plans|
    ensures Skipped(d, plans[..i + 1]) == if plans[i] in d.results then Skipped(d, plans[..i]) + [plans[i]] else Skipped(d, plans[..i])
    ensures Remaining(d, plans[..i + 1]) ==
            if plans[i] in d.results then Remaining(d, plans[..i]) else Remaining(d, plans[..i]) + [plans[i]]
  {
    assert plans[..i + 1][..i] == plans[..i];
  }

  lemma StartSkipping(spec: Spec, d: Disk, plans: seq<PlanId>)
    requires forall x, y :: 0 <= x < y < |plans| ==> plans[x] != plans[y]
    requires Serial(spec) ==> PrefixFinalized(d, plans)
    ensures Skipping(spec, d, Batch(|plans|, 0, 0, 0, [], false), [], [], plans, 0)
  {
    StartBookkeeping(d, plans);
  }

  lemma SkipOne(spec: Spec, d: Disk, batch: Batch, done: seq<PlanId>, pending: seq<PlanId>, plans: seq<PlanId>, i: nat)
    requires i < |plans| && Skipping(spec, d, batch, done, pending, plans, i) && plans[i] in d.results
    ensures var r := d.results[plans[i]];
      var batch' := batch.(skipped := batch.skipped + 1, steps := batch.steps + r.trajectory,
                           hasFailure := batch.hasFailure || !r.succeeded);
      Skipping(spec, d, batch', done + [plans[i]], pending, plans, i + 1)
  {
    hide Bookkeeping, PrefixFinalized, SplitInOrder, Skipped, Remaining;
    SplitOneMore(d, plans, i);
    var r := d.results[plans[i]];
    OneMoreSkipped(d, batch, batch.(skipped := batch.skipped + 1, steps := batch.steps + r.trajectory,
                                    hasFailure := batch.hasFailure || !r.succeeded), done, pending, plans, i);
    if Serial(spec) { KeepsOrder(d, batch, done, pending, plans, i); }
  }

  lemma LeaveOne(spec: Spec, d: Disk, batch: Batch, done: seq<PlanId>, pending: seq<PlanId>, plans: seq<PlanId>, i: nat)
    requires i < |plans| && Skipping(spec, d, batch, done, pending, plans, i) && plans[i] !in d.results
    ensures Skipping(spec, d, batch, done, pending + [plans[i]], plans, i + 1)
  {
    hide Bookkeeping, PrefixFinalized, SplitInOrder, Skipped, Remaining;
    SplitOneMore(d, plans, i);
    OneMorePending(d, batch, done, pending, plans, i);
    if Serial(spec) { KeepsOrder(d, batch, done, pending, plans, i); }
  }

  lemma SkippedAll(spec: Spec, phase: Phase, index: nat, plans: seq<PlanId>, d: Disk,
                   batch: Batch, done: seq<PlanId>, pending: seq<PlanId>)
    requires d.manifest.Some? && d.manifest.value.spec == spec
    requires PhaseReady(spec, d, phase, index) && plans == PlansFor(spec, d, phase, index)
    requires Skipping(spec, d, batch, done, pending, plans, |plans|)
    ensures Progress(spec, phase, index, plans, d, d, batch, done, pending)
    ensures done == Skipped(d, plans) && pending == Remaining(d, plans) && batch.completed == batch.failed == 0
  {
    hide Bookkeeping, PlansFor, PhaseReady, Progress, Skipped, Remaining;
    assert plans[..|plans|] == plans;
    StartProgress(spec, phase, index, plans, d, batch, done, pending);
  }

  lemma ProgressFacts(spec: Spec, phase: Phase, index: nat, plans: seq<PlanId>, start: Disk, d: Disk,
                      batch: Batch, done: seq<PlanId>, pending: seq<PlanId>)
    requires Progress(spec, phase, index, plans, start, d, batch, done, pending)
    ensures ResultsAdded(spec, phase, index, plans, start, d)
    ensures Finalized(start, plans) ==> pending == [] && d == start && batch.completed == batch.failed == 0
    ensures forall x :: 0 <= x < |pending| ==> pending[x] !in start.results
    ensures pending == [] ==> BatchCorrect(spec, d, plans, batch)
  {
    if pending == [] {
      AllDone(d, batch, done, plans);
      assert Serial(spec) ==> done == plans;
    }
  }

  lemma GrowsByOne(d: Disk, d': Disk, p: PlanId)
    requires p !in d.results && p in d'.results && d' == d.(results := d.results[p := d'.results[p]])
    ensures Grows(d, d') && d'.results.Keys == d.results.Keys + {p}
  {
  }

  /** The plan whose session finishes next, at its place in the plan order. */
  lemma NextPlan(spec: Spec, phase: Phase, index: nat, plans: seq<PlanId>, start: Disk, d: Disk,
                 batch: Batch, done: seq<PlanId>, pending: seq<PlanId>, j: nat) returns (i: nat)
    requires Progress(spec, phase, index, plans, start, d, batch, done, pending)
    requires j < |pending| && (Serial(spec) ==> j == 0)
    ensures i < |plans| && plans[i] == pending[j] && pending[j] !in d.results && pending[j] !in start.results
    ensures pending[j].phase == phase && pending[j].phaseIndex == index
    ensures PhaseReady(spec, d, phase, index) && plans == PlansFor(spec, d, phase, index)
    ensures d.manifest.Some? && d.manifest.value.spec == spec && batch.planned == |plans|
    ensures forall x, y :: 0 <= x < y < |plans| ==> plans[x] != plans[y]
    ensures Serial(spec) ==> forall x :: 0 <= x < |plans| ==> (plans[x] in d.results <==> x < i)
    ensures batch.skipped + batch.completed + batch.failed == |done|
  {
    PlanCoordinates(spec, d, phase, index);
    assert pending[j] in plans;
    i :| 0 <= i < |plans| && plans[i] == pending[j];
    hide PlansFor, PhaseReady;
    if Serial(spec) { InOrder(d, batch, done, pending, plans, i); }
  }

  lemma ProgressStep(spec: Spec, phase: Phase, index: nat, plans: seq<PlanId>, start: Disk, d: Disk, d': Disk,
                     batch: Batch, batch': Batch, done: seq<PlanId>, pending: seq<PlanId>, j: nat, r: SessionResult)
    requires Progress(spec, phase, index, plans, start, d, batch, done, pending)
    requires j < |pending| && (Serial(spec) ==> j == 0)
    requires d' == d.(results := d.results[pending[j] := r])
    requires PhaseReady(spec, d', phase, index) && plans == PlansFor(spec, d', phase, index)
    requires batch'.steps == batch.steps + r.trajectory && batch'.planned == batch.planned
    requires batch'.skipped + batch'.completed + batch'.failed == |done| + 1
    requires batch'.hasFailure == (batch.hasFailure || !r.succeeded)
    ensures Progress(spec, phase, index, plans, start, d', batch', done + [pending[j]], pending[..j] + pending[j + 1..])
  {
    FinishOne(d, d', batch, batch', done, pending, plans, j, r);
    if Serial(spec) { AdvanceInOrder(done, pending, plans); }
  }

  // ----- The order of collected steps -----

  /** What is done and what the pending sessions will add is the collection order of this call. */
  ghost predicate OnOrder(spec: Spec, world: World, start: Disk, phase: Phase, index: nat, plans: seq<PlanId>,
                          done: seq<PlanId>, pending: seq<PlanId>, n: nat) {
    done + FinishOrder(pending, Concurrency(spec), Picks(world, phase, index), n)
      == CollectOrder(spec, world, start, phase, index, plans)
  }

  lemma NextOnOrder(spec: Spec, world: World, start: Disk, phase: Phase, index: nat, plans: seq<PlanId>,
                    done: seq<PlanId>, pending: seq<PlanId>, n: nat, j: nat)
    requires OnOrder(spec, world, start, phase, index, plans, done, pending, n) && pending != []
    requires j == Chosen(pending, Concurrency(spec), Picks(world, phase, index)(n))
    ensures OnOrder(spec, world, start, phase, index, plans, done + [pending[j]], Without(pending, j), n + 1)
  {
    var rest := FinishOrder(Without(pending, j), Concurrency(spec), Picks(world, phase, index), n + 1);
    assert done + ([pending[j]] + rest) == done + [pending[j]] + rest;
    hide CollectOrder, Picks;
  }

  /** A completed call: the steps are those of the collection order, and they are in plan order exactly
      when that order puts the plans which left steps in plan order. */
  ghost predicate Collected(spec: Spec, world: World, start: Disk, d: Disk, phase: Phase, index: nat,
                            plans: seq<PlanId>, steps: seq<TrajectoryStep>) {
    var order := CollectOrder(spec, world, start, phase, index, plans);
    && steps == StepsOf(d, order)
    && (steps == StepsOf(d, plans) <==> NonEmpty(d, order) == NonEmpty(d, plans))
  }

  lemma InvLabels(spec: Spec, d: Disk, calls: seq<TrainCall>)
    requires Inv(spec, d, calls)
    ensures LabelledResults(d)
  {
    forall p | p in d.results ensures Labelled(d.results[p].trajectory, p) { assert ResultSound(spec, d, p); }
  }

  lemma CollectedAll(spec: Spec, world: World, start: Disk, d: Disk, calls: seq<TrainCall>, phase: Phase, index: nat,
                     plans: seq<PlanId>, batch: Batch, done: seq<PlanId>, n: nat)
    requires Inv(spec, d, calls) && Bookkeeping(d, batch, done, [], plans)
    requires OnOrder(spec, world, start, phase, index, plans, done, [], n)
    ensures Collected(spec, world, start, d, phase, index, plans, batch.steps)
  {
    InvLabels(spec, d, calls);
    hide Inv;
    var order := CollectOrder(spec, world, start, phase, index, plans);
    assert done + [] == done;
    SameStepsIff(d, order, plans);
    hide StepsOf, NonEmpty, CollectOrder;
  }

  lemma StartOnOrder(spec: Spec, world: World, start: Disk, phase: Phase, index: nat, plans: seq<PlanId>)
    ensures OnOrder(spec, world, start, phase, index, plans, Skipped(start, plans), Remaining(start, plans), 0)
  {
  }

  // ----- Totals -----

  /** The results added, by outcome. */
  ghost function Added(d: Disk, d': Disk, succeeded: bool): set<PlanId> {
    set id | id in d'.results && id !in d.results && d'.results[id].succeeded == succeeded
  }

  /** From `t` to `u` the totals grew by `n` planned sessions and by the results added. */
  ghost predicate Tallied(t: Batch, u: Batch, d: Disk, d': Disk, n: nat) {
    && u.planned == t.planned + n
    && u.completed == t.completed + |Added(d, d', true)|
    && u.failed == t.failed + |Added(d, d', false)|
  }

  ghost predicate Tally(b: Batch, d: Disk, d': Disk) {
    b.completed == |Added(d, d', true)| && b.failed == |Added(d, d', false)|
  }

  lemma TallyNothing(t: Batch, d: Disk, d': Disk)
    requires d'.results == d.results
    ensures Tallied(t, t, d, d', 0)
  {
    assert Added(d, d', true) == {} && Added(d, d', false) == {};
  }

  lemma AddedSince(d: Disk, d': Disk, d'': Disk)
    requires d'.results == d.results
    ensures forall ok: bool :: Added(d, d'', ok) == Added(d', d'', ok)
  {
  }

  lemma TallyMerge(t: Batch, b: Batch, d: Disk, d': Disk)
    requires Tally(b, d, d')
    ensures Tallied(t, Merge(t, b), d, d', b.planned)
  {
    hide Added;
  }

  lemma AddedThen(d: Disk, d': Disk, d'': Disk, ok: bool)
    requires Grows(d, d') && Grows(d', d'')
    ensures |Added(d, d'', ok)| == |Added(d, d', ok)| + |Added(d', d'', ok)|
  {
    assert Added(d, d'', ok) == Added(d, d', ok) + Added(d', d'', ok);
  }

  lemma TallyThen(t: Batch, u: Batch, v: Batch, d: Disk, d': Disk, d'': Disk, m: nat, n: nat)
    requires Tallied(t, u, d, d', m) && Tallied(u, v, d', d'', n) && Grows(d, d') && Grows(d', d'')
    ensures Tallied(t, v, d, d'', m + n)
  {
    hide Added, Grows;
    AddedThen(d, d', d'', true);
    AddedThen(d, d', d'', false);
  }

  lemma AddedOne(start: Disk, d: Disk, d': Disk, p: PlanId, r: SessionResult, ok: bool)
    requires p !in d.results && p !in start.results && d'.results == d.results[p := r]
    ensures p !in Added(start, d, ok)
    ensures Added(start, d', ok) == if r.succeeded == ok then Added(start, d, ok) + {p} else Added(start, d, ok)
  {
  }

  lemma TallyOne(b: Batch, b': Batch, start: Disk, d: Disk, d': Disk, p: PlanId)
    requires Tally(b, start, d) && p !in d.results && p !in start.results && p in d'.results
    requires d' == d.(results := d.results[p := d'.results[p]])
    requires b'.completed == b.completed + if d'.results[p].succeeded then 1 else 0
    requires b'.failed == b.failed + if d'.results[p].succeeded then 0 else 1
    ensures Tally(b', start, d')
  {
    hide Added;
    AddedOne(start, d, d', p, d'.results[p], true);
    AddedOne(start, d, d', p, d'.results[p], false);
  }

  /** The number of plans of one call for this phase. */
  function Size(spec: Spec, phase: Phase): nat {
    var section := SetFor(spec, phase);
    if section.None? then 0
    else PlanCount(RequestFor(spec, phase, 0, section.value, ""), |section.value.scenarios|)
  }

  lemma {:induction false} SameCount(a: Request, b: Request, n: nat)
    requires a.scenarios == b.scenarios && a.seats == b.seats && a.mirrorRoles == b.mirrorRoles && n <= |a.scenarios|
    ensures PlanCount(a, n) == PlanCount(b, n)
  {
    if n > 0 { SameCount(a, b, n - 1); }
  }

  lemma SizeOfPlans(spec: Spec, d: Disk, phase: Phase, index: nat)
    ensures |PlansFor(spec, d, phase, index)| == Size(spec, phase)
  {
    var section := SetFor(spec, phase);
    if section.Some? {
      var req := RequestFor(spec, phase, index, section.value, SeatedCheckpoint(spec, d, phase, index));
      ExpansionShape(req);
      SameCount(req, RequestFor(spec, phase, 0, section.value, ""), |section.value.scenarios|);
      hide Expand, PlanCount, SeatedCheckpoint;
    }
  }

  lemma PlannedSize(spec: Spec, d: Disk, d': Disk, phase: Phase, index: nat, batch: Batch)
    requires BatchCorrect(spec, d', PlansFor(spec, d, phase, index), batch)
    ensures batch.planned == Size(spec, phase)
  {
    SizeOfPlans(spec, d, phase, index);
    hide PlansFor, Size, StepsOf;
  }

  lemma NothingPlanned(spec: Spec)
    ensures PlannedIn(spec, 0) == 0
  {
  }

  /** After the sessions of epoch `done + 1`; complete when no checkpoint is due. */
  lemma EpochTallied(spec: Spec, t: Batch, u: Batch, v: Batch, d: Disk, d': Disk, d'': Disk, done: nat)
    requires Tallied(t, u, d, d', PlannedIn(spec, done)) && Tallied(u, v, d', d'', Size(spec, Training))
    requires Grows(d, d') && Grows(d', d'') && Trains(spec)
    ensures Tallied(t, v, d, d'', PlannedIn(spec, done) + Size(spec, Training))
    ensures (done + 1) % Cadence(spec) != 0 ==> Tallied(t, v, d, d'', PlannedIn(spec, done + 1))
  {
    hide Tallied, Size, Grows;
    TallyThen(t, u, v, d, d', d'', PlannedIn(spec, done), Size(spec, Training));
  }

  lemma BoundaryTallied(spec: Spec, t: Batch, u: Batch, v: Batch, d: Disk, d': Disk, d'': Disk, epoch: nat, k: nat)
    requires epoch >= 1 && Trains(spec) && epoch == Boundary(spec, k)
    requires Tallied(t, u, d, d', PlannedIn(spec, epoch - 1) + Size(spec, Training))
    requires Tallied(u, v, d', d'', if Due(spec, k) then Size(spec, Validation) else 0)
    requires Grows(d, d') && Grows(d', d'')
    ensures Tallied(t, v, d, d'', PlannedIn(spec, epoch))
  {
    BoundaryIsProduct(spec, k);
    DivideUnique(epoch, Cadence(spec), k, 0);
    hide Tallied, Size, Grows, Due, Cadence, Trains, Boundary;
    TallyThen(t, u, v, d, d', d'', PlannedIn(spec, epoch - 1) + Size(spec, Training),
              if Due(spec, k) then Size(spec, Validation) else 0);
  }

  const NO_TOTALS := Batch(0, 0, 0, 0, [], false)

  lemma NoEvaluation(spec: Spec)
    ensures spec.sessions.None? ==> Size(spec, Evaluation) == 0
  {
  }

  /** Every session which a finished run plans. */
  function PlannedByRun(spec: Spec): nat {
    Size(spec, Evaluation) + if Trains(spec) then PlannedIn(spec, spec.training.value.epochs) else 0
  }

  /** Is checkpoint `k` validated? */
  predicate Due(spec: Spec, k: nat) {
    spec.validation.Some? && spec.validation.value.every > 0 && k % spec.validation.value.every == 0
  }

  /** The sessions planned in the first `n` epochs, validations included. */
  function PlannedIn(spec: Spec, n: nat): nat {
    if n == 0 then 0 else
      PlannedIn(spec, n - 1) + Size(spec, Training)
      + if Cadence(spec) > 0 && n % Cadence(spec) == 0 && Due(spec, n / Cadence(spec)) then Size(spec, Validation) else 0
  }

  // ----- Invocations which nothing hinders -----

  /** The invocation is not stopped during sessions, and every session it starts succeeds. */
  ghost predicate SmoothSessions(world: World) {
    && (forall phase, index, n :: !world.stops(AtSession(phase, index, n)))
    && (forall id :: world.endings(id).succeeded)
  }

  /** The learner answers every call, and the invocation is not stopped around one. */
  ghost predicate SmoothTraining(world: World) {
    forall k :: !world.stops(AtTraining(k)) && world.answers(k).Some? && !world.stops(AtRecord(k))
  }

  ghost predicate PlansWell(req: Request) {
    !HasDuplicateId(Expand(req)) && (AllResolvable(req) || Expand(req) == [])
  }

  /** Every plan set of the specification can be planned. */
  ghost predicate Plannable(spec: Spec) {
    forall phase, index, checkpoint :: SetFor(spec, phase).Some? ==>
      PlansWell(RequestFor(spec, phase, index, SetFor(spec, phase).value, checkpoint))
  }

  ghost predicate NoFailedTraining(d: Disk) {
    forall id :: id in d.results && id.phase == Training ==> d.results[id].succeeded
  }

  ghost predicate Unhindered(spec: Spec, world: World, d: Disk) {
    SmoothSessions(world) && Plannable(spec) && NoFailedTraining(d)
  }

  /** The results added are those of sessions which ended as the world says. */
  ghost predicate NewFrom(world: World, d: Disk, d': Disk) {
    forall id :: id in d'.results && id !in d.results ==>
      && d'.results[id].succeeded == world.endings(id).succeeded
      && d'.results[id].trajectory == TrajectoryOf(id, world.endings(id))
  }

  lemma NotSmooth(world: World, phase: Phase, index: nat, n: nat)
    requires world.stops(AtSession(phase, index, n))
    ensures !SmoothSessions(world)
  {
  }

  lemma NothingNew(world: World, d: Disk)
    ensures NewFrom(world, d, d)
  {
  }

  /** Why a call gives up: it was stopped, or one of its sessions failed and failures are not tolerated. */
  ghost predicate CutShort(spec: Spec, world: World, phase: Phase, index: nat, d: Disk, d': Disk) {
    || (exists n :: world.stops(AtSession(phase, index, n)))
    || (spec.failFast && exists id :: id in d'.results && id !in d.results && !d'.results[id].succeeded)
  }

  lemma StoppedShort(spec: Spec, world: World, phase: Phase, index: nat, d: Disk, d': Disk, n: nat)
    requires world.stops(AtSession(phase, index, n))
    ensures CutShort(spec, world, phase, index, d, d')
  {
  }

  lemma FailedShort(spec: Spec, world: World, phase: Phase, index: nat, d: Disk, d': Disk, p: PlanId)
    requires p in d'.results && p !in d.results
    ensures spec.failFast && !d'.results[p].succeeded ==> CutShort(spec, world, phase, index, d, d')
  {
  }

  lemma NoneTallied(b: Batch, d: Disk)
    requires b.completed == b.failed == 0
    ensures Tally(b, d, d)
  {
    assert Added(d, d, true) == {} && Added(d, d, false) == {};
  }

  lemma NewOneMore(world: World, start: Disk, d: Disk, d': Disk, p: PlanId)
    requires Grows(d, d') && d'.results.Keys == d.results.Keys + {p} && NewFrom(world, start, d)
    requires d'.results[p].succeeded == world.endings(p).succeeded
    requires d'.results[p].trajectory == TrajectoryOf(p, world.endings(p))
    ensures SmoothSessions(world) ==> world.endings(p).succeeded
    ensures NewFrom(world, start, d')
  {
    forall id | id in d'.results && id !in start.results
      ensures d'.results[id].succeeded == world.endings(id).succeeded
      ensures d'.results[id].trajectory == TrajectoryOf(id, world.endings(id))
    {
      if id != p { assert id in d.results; }
    }
  }

  lemma PlansWellWhenUnhindered(spec: Spec, world: World, d: Disk, phase: Phase, index: nat, checkpoint: CheckpointId)
    ensures Unhindered(spec, world, d) ==> SmoothSessions(world)
    ensures Unhindered(spec, world, d) && SetFor(spec, phase).Some? ==>
              PlansWell(RequestFor(spec, phase, index, SetFor(spec, phase).value, checkpoint))
  {
    hide SmoothSessions, PlansWell;
  }

  lemma StaysUnhindered(spec: Spec, world: World, d: Disk, d': Disk)
    requires Unhindered(spec, world, d) && Grows(d, d') && NewFrom(world, d, d')
    ensures Unhindered(spec, world, d')
  {
    hide Plannable;
  }

  lemma RecordKeepsUnhindered(spec: Spec, world: World, d: Disk, d': Disk, k: nat)
    requires d'.results == d.results
    ensures Unhindered(spec, world, d) ==> Unhindered(spec, world, d')
    ensures SmoothTraining(world) ==>
              !world.stops(AtTraining(k)) && world.answers(k).Some? && !world.stops(AtRecord(k))
  {
    hide Plannable, SmoothSessions;
  }

  lemma ManifestKeepsUnhindered(spec: Spec, world: World, d: Disk, d': Disk)
    requires d'.results == d.results
    ensures Unhindered(spec, world, d) ==> Unhindered(spec, world, d')
  {
    hide Plannable, SmoothSessions;
  }

  lemma NoFailureWhenUnhindered(spec: Spec, world: World, d: Disk, d': Disk, index: nat, batch: Batch)
    requires BatchCorrect(spec, d', PlansFor(spec, d, Training, index), batch)
    requires PlansFor(spec, d', Training, index) == PlansFor(spec, d, Training, index)
    ensures Unhindered(spec, world, d') ==> !batch.hasFailure
  {
    hide PlansFor, SmoothSessions, Plannable;
    if Unhindered(spec, world, d') { TrainingSucceeded(spec, d', index); }
  }

  lemma TrainingSucceeded(spec: Spec, d: Disk, index: nat)
    requires NoFailedTraining(d) && Finalized(d, PlansFor(spec, d, Training, index))
    ensures Succeeded(d, PlansFor(spec, d, Training, index))
  {
    PlanCoordinates(spec, d, Training, index);
    hide PlansFor;
    var plans := PlansFor(spec, d, Training, index);
    forall i | 0 <= i < |plans| ensures d.results[plans[i]].succeeded { assert plans[i] in plans; }
  }

  // ----- The epoch loop of `run` -----

  /** The locals of the epoch loop after `done` epochs: the seated checkpoint is the last record's,
      and the pending steps are those of the finalized results since that record. */
  ghost predicate EpochState(spec: Spec, d: Disk, done: nat, checkpoints: nat, checkpoint: CheckpointId,
                             pending: seq<TrajectoryStep>) {
    && Trains(spec)
    && Boundary(spec, checkpoints) <= done < Boundary(spec, checkpoints) + Cadence(spec)
    && HasBase(d, checkpoints) && checkpoint == Base(spec, d, checkpoints)
    && EpochsDone(spec, d, done)
    && StepsMatch(spec, pending, EpochSteps(spec, d, Boundary(spec, checkpoints), done - Boundary(spec, checkpoints)))
    && ValidationsDone(spec, d, checkpoints)
  }

  /** The same bag of steps, and the same sequence when the run is serial. */
  ghost predicate StepsMatch(spec: Spec, actual: seq<TrajectoryStep>, expected: seq<TrajectoryStep>) {
    multiset(actual) == multiset(expected) && (Serial(spec) ==> actual == expected)
  }

  ghost predicate ValidationsDone(spec: Spec, d: Disk, checkpoints: nat) {
    forall k: nat :: k <= checkpoints && PhaseReady(spec, d, Validation, k) ==> Finalized(d, PlansFor(spec, d, Validation, k))
  }

  lemma ValidationsStayDone(spec: Spec, d: Disk, d': Disk, calls: seq<TrainCall>, checkpoints: nat)
    requires Inv(spec, d, calls) && HasBase(d, checkpoints) && Grows(d, d') && 0 !in d'.records
    requires ValidationsDone(spec, d, checkpoints)
    ensures ValidationsDone(spec, d', checkpoints)
  {
    forall k: nat | k <= checkpoints && PhaseReady(spec, d', Validation, k)
      ensures Finalized(d', PlansFor(spec, d', Validation, k))
    {
      EarlierBase(spec, d, calls, checkpoints, k);
      PhaseReadyGrows(spec, d, d', Validation, k);
    }
  }

  lemma StartEpochs(spec: Spec, d: Disk)
    requires Trains(spec) && 0 !in d.records
    ensures EpochState(spec, d, 0, 0, Base(spec, d, 0), [])
  {
  }

  /** The next epoch may run with the seated checkpoint. */
  lemma EpochReady(spec: Spec, d: Disk, done: nat, checkpoints: nat, checkpoint: CheckpointId, pending: seq<TrajectoryStep>)
    requires EpochState(spec, d, done, checkpoints, checkpoint, pending) && done < spec.training.value.epochs
    ensures Block(spec, done + 1) == checkpoints && PhaseReady(spec, d, Training, done + 1)
    ensures checkpoint == SeatedCheckpoint(spec, d, Training, done + 1)
    ensures (done + 1) % Cadence(spec) == 0 <==> done + 1 == Boundary(spec, checkpoints + 1)
  {
    BlockOfEpoch(spec, done + 1, checkpoints, done - Boundary(spec, checkpoints));
  }

  /** After a successful epoch the pending steps are those of one more epoch. */
  lemma EpochFinished(spec: Spec, d: Disk, d': Disk, calls: seq<TrainCall>, done: nat, checkpoints: nat,
                      checkpoint: CheckpointId, pending: seq<TrajectoryStep>, plans: seq<PlanId>, batch: Batch)
    requires Inv(spec, d, calls) && EpochState(spec, d, done, checkpoints, checkpoint, pending)
    requires done < spec.training.value.epochs && 0 !in d'.records
    requires ResultsAdded(spec, Training, done + 1, plans, d, d')
    requires BatchCorrect(spec, d', plans, batch) && !batch.hasFailure
    ensures EpochPassed(spec, d', done, checkpoints, checkpoint, pending + batch.steps)
  {
    hide PlansFor, StepsOf, PhaseReady, Inv, ValidationsDone, EpochSteps, Boundary, Succeeded, Finalized, BatchCorrect,
         StepsMatch, EpochsDone;
    EpochReady(spec, d, done, checkpoints, checkpoint, pending);
    var before := Boundary(spec, checkpoints);
    EpochsDoneGrow(spec, d, d', done);
    ValidationsStayDone(spec, d, d', calls, checkpoints);
    EpochStepsGrow(spec, d, d', before, done - before);
    OneMoreEpoch(spec, d', done, plans, batch);
    MoreStepsMatch(spec, d', before, done - before, pending, batch);
  }

  lemma OneMoreEpoch(spec: Spec, d: Disk, done: nat, plans: seq<PlanId>, batch: Batch)
    requires EpochsDone(spec, d, done) && HasBase(d, Block(spec, done + 1))
    requires plans == PlansFor(spec, d, Training, done + 1) && BatchCorrect(spec, d, plans, batch) && !batch.hasFailure
    ensures EpochsDone(spec, d, done + 1)
  {
    assert EpochDone(spec, d, done + 1);
    hide EpochDone;
  }

  lemma MoreStepsMatch(spec: Spec, d: Disk, before: nat, n: nat, pending: seq<TrajectoryStep>, batch: Batch)
    requires StepsMatch(spec, pending, EpochSteps(spec, d, before, n))
    requires BatchCorrect(spec, d, PlansFor(spec, d, Training, before + n + 1), batch)
    ensures StepsMatch(spec, pending + batch.steps, EpochSteps(spec, d, before, n + 1))
  {
    hide PlansFor, StepsOf, Succeeded, Finalized;
    assert EpochSteps(spec, d, before, n + 1)
        == EpochSteps(spec, d, before, n) + StepsOf(d, PlansFor(spec, d, Training, before + n + 1));
    hide EpochSteps;
  }

  /** The state after the sessions of epoch `done + 1` succeeded, before any update. */
  ghost predicate EpochPassed(spec: Spec, d: Disk, done: nat, checkpoints: nat, checkpoint: CheckpointId,
                              steps: seq<TrajectoryStep>) {
    && Trains(spec)
    && Boundary(spec, checkpoints) <= done < Boundary(spec, checkpoints) + Cadence(spec)
    && HasBase(d, checkpoints) && checkpoint == Base(spec, d, checkpoints)
    && EpochsDone(spec, d, done + 1) && ValidationsDone(spec, d, checkpoints)
    && StepsMatch(spec, steps, EpochSteps(spec, d, Boundary(spec, checkpoints), done + 1 - Boundary(spec, checkpoints)))
  }

  lemma WithinBlock(spec: Spec, d: Disk, done: nat, checkpoints: nat, checkpoint: CheckpointId, steps: seq<TrajectoryStep>)
    requires EpochPassed(spec, d, done, checkpoints, checkpoint, steps)
    requires done + 1 != Boundary(spec, checkpoints + 1)
    ensures EpochState(spec, d, done + 1, checkpoints, checkpoint, steps)
  {
  }

  lemma BoundaryPassed(spec: Spec, d: Disk, d': Disk, calls: seq<TrainCall>, calls': seq<TrainCall>, epoch: nat, k: nat,
                       base: CheckpointId, steps: seq<TrajectoryStep>)
    requires Inv(spec, d, calls) && Inv(spec, d', calls') && Grows(d, d')
    requires k >= 1 && epoch == Boundary(spec, k) && EpochPassed(spec, d, epoch - 1, k - 1, base, steps)
    requires k in d'.records
    ensures EpochsDone(spec, d', epoch) && ValidationsDone(spec, d', k - 1)
    ensures spec.validation.Some? && k % spec.validation.value.every == 0 ==> PhaseReady(spec, d', Validation, k)
    ensures (spec.validation.Some? ==> k % spec.validation.value.every != 0) ==>
              EpochState(spec, d', epoch, k, Base(spec, d', k), [])
  {
    hide PlansFor, StepsOf;
    NoRecordZero(spec, d', calls');
    hide Inv;
    EpochsDoneGrow(spec, d, d', epoch);
    ValidationsStayDone(spec, d, d', calls, k - 1);
  }

  lemma ValidationPassed(spec: Spec, d: Disk, d': Disk, calls: seq<TrainCall>, epoch: nat, k: nat)
    requires Inv(spec, d, calls) && Inv(spec, d', calls) && k >= 1 && k in d.records
    requires Trains(spec) && epoch == Boundary(spec, k) && EpochsDone(spec, d, epoch)
    requires ValidationsDone(spec, d, k - 1) && PhaseReady(spec, d, Validation, k)
    requires ResultsAdded(spec, Validation, k, PlansFor(spec, d, Validation, k), d, d')
    requires Finalized(d', PlansFor(spec, d, Validation, k))
    ensures EpochState(spec, d', epoch, k, Base(spec, d, k), [])
  {
    NoRecordZero(spec, d', calls);
    EpochsDoneGrow(spec, d, d', epoch);
    EarlierBase(spec, d, calls, k, k - 1);
    ValidationsStayDone(spec, d, d', calls, k - 1);
  }

  lemma EvaluationStays(spec: Spec, d: Disk, d': Disk)
    requires Grows(d, d')
    ensures Finalized(d, PlansFor(spec, d, Evaluation, 0)) && 0 !in d'.records && 0 !in d.records ==>
              Finalized(d', PlansFor(spec, d', Evaluation, 0))
  {
  }

  lemma CompleteWithoutTraining(spec: Spec, d: Disk)
    requires ValidSpec(spec) && spec.training.None?
    requires spec.sessions.Some? ==> Finalized(d, PlansFor(spec, d, Evaluation, 0))
    ensures Complete(spec, d)
  {
  }

  /** Everything complete is finalized in each of its phases. */
  lemma CompleteCovers(spec: Spec, d: Disk, phase: Phase, index: nat)
    requires Complete(spec, d) && PhaseReady(spec, d, phase, index)
    ensures Finalized(d, PlansFor(spec, d, phase, index))
  {
    if phase == Training { assert EpochDone(spec, d, index); }
  }

  /** What any stretch of an invocation may do: add files, start unfinalized sessions, and train
      for unrecorded updates. */
  ghost predicate Advanced(d: Disk, d': Disk, e: seq<PlanId>, e': seq<PlanId>, c: seq<TrainCall>, c': seq<TrainCall>) {
    Grows(d, d') && d'.manifest == d.manifest && Fresh(e, e', d) && CallsFresh(c, c', d)
  }

  lemma AdvancedTransitive(d: Disk, d': Disk, d'': Disk, e: seq<PlanId>, e': seq<PlanId>, e'': seq<PlanId>,
                           c: seq<TrainCall>, c': seq<TrainCall>, c'': seq<TrainCall>)
    requires Advanced(d, d', e, e', c, c') && Advanced(d', d'', e', e'', c', c'')
    ensures Advanced(d, d'', e, e'', c, c'')
  {
    forall i | |e| <= i < |e''| ensures e''[i] !in d.results { if i < |e'| { assert e''[i] == e'[i]; } }
    forall i | |c| <= i < |c''| ensures c''[i].number !in d.records { if i < |c'| { assert c''[i] == c'[i]; } }
  }

  lemma EvaluationReady(spec: Spec, d: Disk)
    requires spec.sessions.Some?
    ensures PhaseReady(spec, d, Evaluation, 0) && Base(spec, d, 0) == SeatedCheckpoint(spec, d, Evaluation, 0)
  {
  }

  lemma NothingTotalled()
    ensures Balanced(NO_TOTALS) && NO_TOTALS.completed == NO_TOTALS.failed == 0
  {
  }

  lemma EvaluationAdded(spec: Spec, d: Disk, d': Disk, e: seq<PlanId>, e': seq<PlanId>, c: seq<TrainCall>)
    requires ResultsAdded(spec, Evaluation, 0, PlansFor(spec, d, Evaluation, 0), d, d') && Fresh(e, e', d)
    ensures Advanced(d, d', e, e', c, c) && PlansFor(spec, d', Evaluation, 0) == PlansFor(spec, d, Evaluation, 0)
  {
    hide PlansFor, PhaseReady;
  }

  /** Merging a batch keeps its counts. */
  lemma NoSteps(b: Batch)
    ensures Merge(NO_TOTALS, b).completed == b.completed && Merge(NO_TOTALS, b).failed == b.failed
  {
  }

  lemma AdvancedNowhere(d: Disk, e: seq<PlanId>, c: seq<TrainCall>)
    ensures Advanced(d, d, e, e, c, c)
  {
  }

  lemma NothingBalanced()
    ensures Balanced(Batch(0, 0, 0, 0, [], false))
  {
  }

  function Merge(t: Batch, b: Batch): Batch {
    t.(planned := t.planned + b.planned, completed := t.completed + b.completed,
       failed := t.failed + b.failed, skipped := t.skipped + b.skipped)
  }

  predicate Balanced(t: Batch) { t.planned == t.completed + t.failed + t.skipped }

  lemma CompleteHasRecord(spec: Spec, d: Disk, k: nat)
    requires Complete(spec, d) && Trains(spec) && k >= 1 && Boundary(spec, k) <= spec.training.value.epochs
    ensures k in d.records
  {
    hide EpochsDone, Finalized, PhaseReady, Boundary;
  }

  lemma BoundaryFacts(spec: Spec, d: Disk, epoch: nat, k: nat, base: CheckpointId, steps: seq<TrajectoryStep>)
    requires Trains(spec) && k >= 1 && epoch == Boundary(spec, k) && EpochPassed(spec, d, epoch - 1, k - 1, base, steps)
    ensures HasBase(d, k - 1) && base == Base(spec, d, k - 1) && EpochsDone(spec, d, Boundary(spec, k))
    ensures StepsMatch(spec, steps, BlockSteps(spec, d, k))
  {
    hide EpochsDone, EpochSteps, BlockSteps, ValidationsDone;
    BoundaryReached(spec, d, k, steps);
  }

  lemma ReachedAdvances(d: Disk, d': Disk, e: seq<PlanId>, c: seq<TrainCall>, c': seq<TrainCall>)
    requires Grows(d, d') && d'.manifest == d.manifest && CallsFresh(c, c', d)
    ensures Advanced(d, d', e, e, c, c')
  {
  }

  lemma ValidationAdvances(spec: Spec, k: nat, d: Disk, d': Disk, e: seq<PlanId>, e': seq<PlanId>, c: seq<TrainCall>)
    requires ResultsAdded(spec, Validation, k, PlansFor(spec, d, Validation, k), d, d') && Fresh(e, e', d)
    ensures Advanced(d, d', e, e', c, c)
  {
    hide PlansFor, PhaseReady;
  }

  lemma AdvancedGrows(d: Disk, d': Disk, e: seq<PlanId>, e': seq<PlanId>, c: seq<TrainCall>, c': seq<TrainCall>)
    requires Advanced(d, d', e, e', c, c')
    ensures Grows(d, d') && d'.manifest == d.manifest
  {
  }

  lemma DueIs(spec: Spec, k: nat)
    requires spec.validation.Some? ==> spec.validation.value.every > 0
    ensures Due(spec, k) <==> spec.validation.Some? && k % spec.validation.value.every == 0
  {
  }

  lemma ValidatedIs(spec: Spec, d: Disk, k: nat)
    ensures SeatedCheckpoint(spec, d, Validation, k) == Base(spec, d, k)
    ensures spec.validation.Some? ==> SetFor(spec, Validation).Some?
  {
  }

  lemma MergedCounts(t: Batch, b: Batch)
    ensures Merge(t, b).completed == t.completed + b.completed && Merge(t, b).failed == t.failed + b.failed
  {
  }

  lemma InvSpec(spec: Spec, d: Disk, calls: seq<TrainCall>)
    requires Inv(spec, d, calls)
    ensures ValidSpec(spec) && (spec.validation.Some? ==> spec.validation.value.every > 0)
  {
  }

  lemma BatchFinalizes(spec: Spec, d: Disk, plans: seq<PlanId>, totals: Batch, batch: Batch)
    requires Balanced(totals) && BatchCorrect(spec, d, plans, batch)
    ensures Balanced(Merge(totals, batch)) && Finalized(d, plans)
  {
  }

  /** The call of `train` for checkpoint `k`, with the learner's answer. */
  function CallFor(spec: Spec, world: World, d: Disk, k: nat, base: CheckpointId, steps: seq<TrajectoryStep>): TrainCall
    requires d.manifest.Some?
  {
    TrainCall(k, (d.manifest.value.runId, k), Boundary(spec, k), base, steps, world.answers(k))
  }

  lemma BoundaryReached(spec: Spec, d: Disk, k: nat, steps: seq<TrajectoryStep>)
    requires Trains(spec) && k >= 1
    requires StepsMatch(spec, steps, EpochSteps(spec, d, Boundary(spec, k - 1), Boundary(spec, k) - Boundary(spec, k - 1)))
    ensures StepsMatch(spec, steps, BlockSteps(spec, d, k))
  {
    hide EpochSteps, StepsMatch, Cadence;
    assert Boundary(spec, k) - Boundary(spec, k - 1) == Cadence(spec);
  }

  /** Every update the finished run asks for is recorded, and its validation is finalized. */
  lemma AllEpochsDone(spec: Spec, d: Disk, calls: seq<TrainCall>, checkpoints: nat, checkpoint: CheckpointId,
                      pending: seq<TrajectoryStep>)
    requires Inv(spec, d, calls)
    requires Trains(spec) && EpochState(spec, d, spec.training.value.epochs, checkpoints, checkpoint, pending)
    requires spec.sessions.Some? ==> Finalized(d, PlansFor(spec, d, Evaluation, 0))
    ensures Complete(spec, d) && checkpoints == spec.training.value.epochs / Cadence(spec)
  {
    var epochs, c := spec.training.value.epochs, Cadence(spec);
    BoundaryIsProduct(spec, checkpoints);
    DivideUnique(epochs, c, checkpoints, epochs - Boundary(spec, checkpoints));
    forall k: nat | 1 <= k && Boundary(spec, k) <= epochs ensures k in d.records {
      if k > checkpoints { BoundaryMonotone(spec, checkpoints + 1, k); }
      EarlierBase(spec, d, calls, checkpoints, k);
    }
    forall k: nat | PhaseReady(spec, d, Validation, k) ensures Finalized(d, PlansFor(spec, d, Validation, k)) {
      assert RecordSound(spec, d, calls, k);
      if k > checkpoints { BoundaryMonotone(spec, checkpoints + 1, k); }
    }
  }

  /** One output directory across any number of invocations. `calls` and `executed` record,
      across all of them, every call of `train` and every session that was started. */
  class Experiment {
    var disk: Disk
    ghost var calls: seq<TrainCall>
    ghost var executed: seq<PlanId>

    ghost predicate Valid()
      reads this
    {
      if disk.manifest.None? then disk == EMPTY_DISK && calls == []
      else Inv(disk.manifest.value.spec, disk, calls)
    }

    constructor ()
      ensures Valid() && disk == EMPTY_DISK && calls == [] && executed == []
    {
      disk, calls, executed := EMPTY_DISK, [], [];
    }

    /** The first loop of `execute_plans`: finalized plans are counted and their steps loaded. */
    method SkipFinalized(spec: Spec, phase: Phase, index: nat, plans: seq<PlanId>)
      returns (batch: Batch, pending: seq<PlanId>, ghost done: seq<PlanId>)
      requires Valid() && disk.manifest.Some? && disk.manifest.value.spec == spec
      requires PhaseReady(spec, disk, phase, index) && plans == PlansFor(spec, disk, phase, index)
      requires forall x, y :: 0 <= x < y < |plans| ==> plans[x] != plans[y]
      ensures Progress(spec, phase, index, plans, disk, disk, batch, done, pending)
      ensures done == Skipped(disk, plans) && pending == Remaining(disk, plans) && batch.completed == batch.failed == 0
    {
      FinalizedResultsMatch(spec, disk, calls);
      StartSkipping(spec, disk, plans);
      hide PlansFor, PhaseReady, Inv, Skipping, Progress, Serial, ValidSpec;
      batch, pending, done := Batch(|plans|, 0, 0, 0, [], false), [], [];
      for i := 0 to |plans|
        invariant Skipping(spec, disk, batch, done, pending, plans, i)
      {
        var p := plans[i];
        if p in disk.results {
          assert disk.results[p].planId == p && disk.results[p].runId == disk.manifest.value.runId;
          SkipOne(spec, disk, batch, done, pending, plans, i);
          batch := batch.(skipped := batch.skipped + 1,
                          steps := batch.steps + disk.results[p].trajectory,
                          hasFailure := batch.hasFailure || !disk.results[p].succeeded);
          done := done + [p];
        } else {
          LeaveOne(spec, disk, batch, done, pending, plans, i);
          pending := pending + [p];
        }
      }
      SkippedAll(spec, phase, index, plans, disk, batch, done, pending);
    }

    /** One finished session becomes one immutable result file. */
    method Finalize(spec: Spec, plans: seq<PlanId>, ghost i: nat, r: SessionResult)
      requires Valid() && disk.manifest.Some? && disk.manifest.value.spec == spec
      requires i < |plans| && plans[i] == r.planId && r.planId !in disk.results
      requires r.runId == disk.manifest.value.runId && Labelled(r.trajectory, r.planId)
      requires PhaseReady(spec, disk, r.planId.phase, r.planId.phaseIndex)
      requires plans == PlansFor(spec, disk, r.planId.phase, r.planId.phaseIndex)
      requires forall x, y :: 0 <= x < y < |plans| ==> plans[x] != plans[y]
      requires Serial(spec) ==> forall x :: 0 <= x < |plans| ==> (plans[x] in disk.results <==> x < i)
      modifies this`disk
      ensures Valid() && disk == old(disk).(results := old(disk).results[r.planId := r])
      ensures PhaseReady(spec, disk, r.planId.phase, r.planId.phaseIndex)
      ensures plans == PlansFor(spec, disk, r.planId.phase, r.planId.phaseIndex)
    {
      WriteResult(spec, disk, calls, plans, i, r);
      NoRecordZero(spec, disk, calls);
      ghost var before := disk;
      disk := disk.(results := disk.results[r.planId := r]);
      PhaseReadyGrows(spec, before, disk, r.planId.phase, r.planId.phaseIndex);
    }

    /** One step of the second loop: an in-flight session ends and its result is finalized. */
    method RunNext(spec: Spec, world: World, phase: Phase, index: nat, plans: seq<PlanId>, ghost start: Disk,
                   batch: Batch, ghost done: seq<PlanId>, pending: seq<PlanId>, j: nat)
      returns (next: Batch, succeeded: bool)
      requires Valid() && Progress(spec, phase, index, plans, start, disk, batch, done, pending)
      requires j < |pending| && (Serial(spec) ==> j == 0)
      modifies this`disk, this`executed
      ensures Valid() && executed == old(executed) + [pending[j]] && pending[j] !in start.results
      ensures Progress(spec, phase, index, plans, start, disk, next, done + [pending[j]], Without(pending, j))
      ensures succeeded == world.endings(pending[j]).succeeded
      ensures next.completed == batch.completed + (if succeeded then 1 else 0)
      ensures next.failed == batch.failed + (if succeeded then 0 else 1)
      ensures disk.results.Keys == old(disk).results.Keys + {pending[j]}
      ensures pending[j] !in old(disk).results && pending[j] in disk.results
      ensures disk == old(disk).(results := old(disk).results[pending[j] := disk.results[pending[j]]])
      ensures disk.results[pending[j]] == SessionResult(
                disk.manifest.value.runId, pending[j], succeeded, TrajectoryOf(pending[j], world.endings(pending[j])))
      ensures Grows(old(disk), disk)
    {
      var p := pending[j];
      executed := executed + [p];
      var ending := world.endings(p);
      succeeded := ending.succeeded;
      var trajectory := TrajectoryOf(p, ending);
      ghost var i := NextPlan(spec, phase, index, plans, start, disk, batch, done, pending, j);
      hide PlansFor, PhaseReady, Inv, Progress, Serial, Grows, TrajectoryOf, Labelled;
      ghost var before := disk;
      Finalize(spec, plans, i, SessionResult(disk.manifest.value.runId, p, succeeded, trajectory));
      next := batch.(steps := batch.steps + trajectory,
                     completed := batch.completed + if succeeded then 1 else 0,
                     failed := batch.failed + if succeeded then 0 else 1,
                     hasFailure := batch.hasFailure || !succeeded);
      ProgressStep(spec, phase, index, plans, start, before, disk, batch, next, done, pending, j, disk.results[p]);
      GrowsByOne(before, disk, p);
    }

    /** `execute_plans`: skip finalized plans, run the others with at most `concurrency` in
        flight, and finalize each result by one atomic write. */
    method ExecutePlans(spec: Spec, world: World, phase: Phase, index: nat, plans: seq<PlanId>) returns (r: Option<Batch>)
      requires Valid() && disk.manifest.Some? && disk.manifest.value.spec == spec
      requires PhaseReady(spec, disk, phase, index) && plans == PlansFor(spec, disk, phase, index)
      requires forall x, y :: 0 <= x < y < |plans| ==> plans[x] != plans[y]
      modifies this`disk, this`executed
      ensures Valid() && ResultsAdded(spec, phase, index, plans, old(disk), disk)
      ensures Fresh(old(executed), executed, old(disk))
      ensures Finalized(old(disk), plans) ==> disk == old(disk) && executed == old(executed)
      ensures r.Some? ==> BatchCorrect(spec, disk, plans, r.value)
      ensures r.Some? ==> Collected(spec, world, old(disk), disk, phase, index, plans, r.value.steps)
      ensures r.Some? && Finalized(old(disk), plans) ==> r.value.completed == r.value.failed == 0
      ensures NewFrom(world, old(disk), disk) && (SmoothSessions(world) ==> r.Some?)
      ensures r.Some? ==> Tally(r.value, old(disk), disk) && (spec.failFast ==> r.value.failed == 0)
      ensures r.None? ==> CutShort(spec, world, phase, index, old(disk), disk)
    {
      hide PlansFor, StepsOf, Inv, Progress, PhaseReady, Finalized, BatchCorrect, OnOrder, Collected, FinishOrder,
           CollectOrder, SmoothSessions, NewFrom, Skipped, Remaining, Tally, CutShort;
      ghost var start := disk;
      var batch, pending, done := SkipFinalized(spec, phase, index, plans);
      StartOnOrder(spec, world, start, phase, index, plans);
      NothingNew(world, start);
      NoneTallied(batch, start);
      var concurrency := Concurrency(spec);
      var finished := 0;
      while pending != []
        invariant Valid() && Progress(spec, phase, index, plans, start, disk, batch, done, pending)
        invariant OnOrder(spec, world, start, phase, index, plans, done, pending, finished)
        invariant Fresh(old(executed), executed, start)
        invariant Finalized(start, plans) ==> executed == old(executed)
        invariant NewFrom(world, start, disk) && Tally(batch, start, disk) && (spec.failFast ==> batch.failed == 0)
        decreases |pending|
      {
        ProgressFacts(spec, phase, index, plans, start, disk, batch, done, pending);
        if world.stops(AtSession(phase, index, finished)) {
          executed := executed + pending[..if concurrency < |pending| then concurrency else |pending|];
          NotSmooth(world, phase, index, finished);
          StoppedShort(spec, world, phase, index, start, disk, finished);
          return None;
        }
        var j := Chosen(pending, concurrency, world.picks(AtSession(phase, index, finished)));
        NextOnOrder(spec, world, start, phase, index, plans, done, pending, finished, j);
        ghost var before := disk;
        var next, succeeded := RunNext(spec, world, phase, index, plans, start, batch, done, pending, j);
        NewOneMore(world, start, before, disk, pending[j]);
        TallyOne(batch, next, start, before, disk, pending[j]);
        FailedShort(spec, world, phase, index, start, disk, pending[j]);
        batch, done, pending := next, done + [pending[j]], Without(pending, j);
        finished := finished + 1;
        if !succeeded && spec.failFast {
          ProgressFacts(spec, phase, index, plans, start, disk, batch, done, pending);
          return None;
        }
      }
      ProgressFacts(spec, phase, index, plans, start, disk, batch, done, pending);
      AllCollected(spec, world, start, phase, index, plans, batch, done, pending, finished);
      r := Some(batch);
    }

    lemma AllCollected(spec: Spec, world: World, start: Disk, phase: Phase, index: nat, plans: seq<PlanId>,
                       batch: Batch, done: seq<PlanId>, pending: seq<PlanId>, n: nat)
      requires Valid() && Progress(spec, phase, index, plans, start, disk, batch, done, pending) && pending == []
      requires OnOrder(spec, world, start, phase, index, plans, done, pending, n)
      ensures Collected(spec, world, start, disk, phase, index, plans, batch.steps)
    {
      hide Inv, Bookkeeping, OnOrder, Collected;
      CollectedAll(spec, world, start, disk, calls, phase, index, plans, batch, done, n);
    }

    /** `plan_set` followed by `execute_plans` for one phase. */
    method RunPhase(spec: Spec, world: World, phase: Phase, index: nat, checkpoint: CheckpointId) returns (r: Option<Batch>)
      requires Valid() && disk.manifest.Some? && disk.manifest.value.spec == spec
      requires PhaseReady(spec, disk, phase, index) && checkpoint == SeatedCheckpoint(spec, disk, phase, index)
      modifies this`disk, this`executed
      ensures Valid() && ResultsAdded(spec, phase, index, PlansFor(spec, old(disk), phase, index), old(disk), disk)
      ensures Fresh(old(executed), executed, old(disk))
      ensures Finalized(old(disk), PlansFor(spec, old(disk), phase, index)) ==>
                disk == old(disk) && executed == old(executed) && (r.Some? ==> r.value.completed == r.value.failed == 0)
      ensures r.Some? ==> BatchCorrect(spec, disk, PlansFor(spec, old(disk), phase, index), r.value)
      ensures r.Some? ==>
        Collected(spec, world, old(disk), disk, phase, index, PlansFor(spec, old(disk), phase, index), r.value.steps)
      ensures NewFrom(world, old(disk), disk)
      ensures r.Some? ==> Tally(r.value, old(disk), disk) && r.value.planned == Size(spec, phase)
      ensures Unhindered(spec, world, old(disk)) ==> r.Some? && Unhindered(spec, world, disk)
    {
      hide Tally, Size, CutShort, Collected, SmoothSessions, BatchCorrect, NewFrom, Plannable, Unhindered, AllResolvable, Expand;
      ghost var before := disk;
      PlansWellWhenUnhindered(spec, world, disk, phase, index, checkpoint);
      NothingNew(world, disk);
      var planned := ComputePlanSet(RequestFor(spec, phase, index, SetFor(spec, phase).value, checkpoint));
      if planned.Err? { return None; }
      var plans := IdsOf(planned.value);
      hide Inv, PhaseReady;
      r := ExecutePlans(spec, world, phase, index, plans);
      if Unhindered(spec, world, before) { StaysUnhindered(spec, world, before, disk); }
      if r.Some? { PlannedSize(spec, before, disk, phase, index, r.value); }
    }

    /** One checkpoint boundary: reuse the record, or train and write it. */
    method ReachCheckpoint(spec: Spec, world: World, k: nat, base: CheckpointId, steps: seq<TrajectoryStep>)
      returns (r: Option<CheckpointId>)
      requires Valid() && disk.manifest.Some? && disk.manifest.value.spec == spec
      requires Trains(spec) && k >= 1 && Boundary(spec, k) <= spec.training.value.epochs
      requires HasBase(disk, k - 1) && base == Base(spec, disk, k - 1) && EpochsDone(spec, disk, Boundary(spec, k))
      requires StepsMatch(spec, steps, BlockSteps(spec, disk, k))
      modifies this`disk, this`calls
      ensures Valid() && Grows(old(disk), disk) && disk.manifest == old(disk).manifest && disk.results == old(disk).results
      ensures CallsFresh(old(calls), calls, old(disk))
      ensures k in old(disk).records ==> disk == old(disk) && calls == old(calls)
      ensures k !in old(disk).records && world.stops(AtTraining(k)) ==> calls == old(calls)
      ensures k !in old(disk).records && !world.stops(AtTraining(k)) ==>
                calls == old(calls) + [CallFor(spec, world, disk, k, base, steps)]
      ensures r.Some? ==> k in disk.records && r.value == Base(spec, disk, k)
      ensures r.None? ==> disk == old(disk)
      ensures r.Some? <==>
                (k in old(disk).records
                 || (!world.stops(AtTraining(k)) && world.answers(k).Some? && !world.stops(AtRecord(k))))
    {
      if k in disk.records {
        assert RecordSound(spec, disk, calls, k);
        return Some(disk.records[k].checkpoint);
      }
      if world.stops(AtTraining(k)) { return None; }
      var call := CallFor(spec, world, disk, k, base, steps);
      CallTrain(spec, disk, calls, call);
      calls := calls + [call];
      if call.answer.None? || world.stops(AtRecord(k)) { return None; }
      WriteRecord(spec, disk, calls, call.answer.value);
      NoRecordZero(spec, disk, calls);
      disk := disk.(records := disk.records[k := CheckpointRecord(call.updateId.0, k, call.updateId, base, call.answer.value)]);
      r := call.answer;
    }

    /** The sessions of one epoch; fails when any of them did not succeed. */
    method RunEpoch(spec: Spec, world: World, done: nat, checkpoints: nat, checkpoint: CheckpointId,
                    pending: seq<TrajectoryStep>, totals: Batch, ghost complete: bool)
      returns (ok: bool, steps: seq<TrajectoryStep>, sum: Batch)
      requires Valid() && disk.manifest.Some? && disk.manifest.value.spec == spec
      requires Trains(spec) && done < spec.training.value.epochs
      requires EpochState(spec, disk, done, checkpoints, checkpoint, pending)
      requires complete ==> Complete(spec, disk) && totals.completed == totals.failed == 0
      requires Balanced(totals)
      modifies this`disk, this`executed
      ensures Valid() && Advanced(old(disk), disk, old(executed), executed, old(calls), calls)
      ensures complete ==> disk == old(disk) && executed == old(executed) && sum.completed == sum.failed == 0
      ensures Balanced(sum)
      ensures ok ==> EpochPassed(spec, disk, done, checkpoints, checkpoint, steps)
      ensures ok ==> pending <= steps
      ensures ok ==>
                var plans := PlansFor(spec, old(disk), Training, done + 1);
                Collected(spec, world, old(disk), disk, Training, done + 1, plans, steps[|pending|..])
      ensures NewFrom(world, old(disk), disk) && disk.records == old(disk).records && calls == old(calls)
      ensures ok ==> Tallied(totals, sum, old(disk), disk, Size(spec, Training))
      ensures Unhindered(spec, world, old(disk)) ==> ok && Unhindered(spec, world, disk)
    {
      hide Tally, Tallied, Size, NewFrom, PlansFor, StepsOf, PhaseReady, Inv, EpochState, EpochPassed, Complete, BatchCorrect, EpochSteps, Finalized,
           Unhindered, Collected;
      EpochReady(spec, disk, done, checkpoints, checkpoint, pending);
      if complete { CompleteCovers(spec, disk, Training, done + 1); }
      ghost var before := disk;
      var batch := RunPhase(spec, world, Training, done + 1, checkpoint);
      if batch.None? { return false, pending, totals; }
      sum := Merge(totals, batch.value);
      BatchFinalizes(spec, disk, PlansFor(spec, before, Training, done + 1), totals, batch.value);
      TallyMerge(totals, batch.value, before, disk);
      NoFailureWhenUnhindered(spec, world, before, disk, done + 1, batch.value);
      if batch.value.hasFailure { return false, pending, sum; }
      NoRecordZero(spec, disk, calls);
      EpochFinished(spec, before, disk, calls, done, checkpoints, checkpoint, pending,
                    PlansFor(spec, before, Training, done + 1), batch.value);
      ok, steps := true, pending + batch.value.steps;
      assert steps[|pending|..] == batch.value.steps;
    }

    /** One checkpoint boundary with its validation. */
    method PassBoundary(spec: Spec, world: World, epoch: nat, k: nat, base: CheckpointId,
                        pending: seq<TrajectoryStep>, totals: Batch, ghost complete: bool)
      returns (ok: bool, next: CheckpointId, sum: Batch)
      requires Valid() && disk.manifest.Some? && disk.manifest.value.spec == spec
      requires Trains(spec) && k >= 1 && epoch == Boundary(spec, k) <= spec.training.value.epochs
      requires EpochPassed(spec, disk, epoch - 1, k - 1, base, pending)
      requires complete ==> Complete(spec, disk) && totals.completed == totals.failed == 0
      requires Balanced(totals)
      modifies this
      ensures Valid() && Advanced(old(disk), disk, old(executed), executed, old(calls), calls)
      ensures complete ==> disk == old(disk) && calls == old(calls) && executed == old(executed)
      ensures complete ==> sum.completed == sum.failed == 0
      ensures Balanced(sum)
      ensures ok ==> EpochState(spec, disk, epoch, k, next, [])
      ensures Unhindered(spec, world, old(disk)) && SmoothTraining(world) ==> ok && Unhindered(spec, world, disk)
      ensures ok ==> Tallied(totals, sum, old(disk), disk, if Due(spec, k) then Size(spec, Validation) else 0)
    {
      hide *;
      ghost var before, earlier := disk, calls;
      InvOf(spec);
      InvSpec(spec, disk, calls);
      BoundaryFacts(spec, disk, epoch, k, base, pending);
      if complete { CompleteHasRecord(spec, disk, k); }
      var reached := ReachCheckpoint(spec, world, k, base, pending);
      RecordKeepsUnhindered(spec, world, before, disk, k);
      ReachedAdvances(before, disk, executed, old(calls), calls);
      if reached.None? { return false, base, totals; }
      next, sum := reached.value, totals;
      TallyNothing(totals, before, disk);
      InvOf(spec);
      BoundaryPassed(spec, before, disk, earlier, calls, epoch, k, base, pending);
      DueIs(spec, k);
      if spec.validation.Some? && k % spec.validation.value.every == 0 {
        if complete { CompleteCovers(spec, disk, Validation, k); }
        ghost var trained := disk;
        ValidatedIs(spec, disk, k);
        var validated := RunPhase(spec, world, Validation, k, next);
        ValidationAdvances(spec, k, trained, disk, old(executed), executed, calls);
        AdvancedTransitive(before, trained, disk, old(executed), old(executed), executed, old(calls), calls, calls);
        if validated.None? { return false, next, sum; }
        BatchFinalizes(spec, disk, PlansFor(spec, trained, Validation, k), sum, validated.value);
        TallyMerge(sum, validated.value, trained, disk);
        AdvancedGrows(before, trained, old(executed), old(executed), old(calls), calls);
        AdvancedGrows(trained, disk, old(executed), executed, calls, calls);
        TallyThen(totals, sum, Merge(sum, validated.value), before, trained, disk, 0, validated.value.planned);
        MergedCounts(sum, validated.value);
        sum := Merge(sum, validated.value);
        InvOf(spec);
        NoRecordZero(spec, disk, calls);
        ValidationPassed(spec, trained, disk, calls, epoch, k);
      }
      ok := true;
    }

    lemma InvOf(spec: Spec)
      requires Valid() && disk.manifest.Some? && disk.manifest.value.spec == spec
      ensures Inv(spec, disk, calls)
    {
    }

    /** The epoch loop of `run`. */
    method Train(spec: Spec, world: World, start: Batch, ghost complete: bool) returns (totals: Batch, finished: bool, checkpoints: nat)
      requires Valid() && disk.manifest.Some? && disk.manifest.value.spec == spec && Trains(spec)
      requires complete ==> Complete(spec, disk) && start.completed == start.failed == 0
      requires Balanced(start)
      modifies this
      ensures Valid() && Advanced(old(disk), disk, old(executed), executed, old(calls), calls)
      ensures complete ==> disk == old(disk) && calls == old(calls) && executed == old(executed)
      ensures complete ==> totals.completed == totals.failed == 0
      ensures Balanced(totals)
      ensures finished && (spec.sessions.Some? ==> Finalized(old(disk), PlansFor(spec, old(disk), Evaluation, 0))) ==>
                Complete(spec, disk) && checkpoints == spec.training.value.epochs / Cadence(spec)
      ensures Unhindered(spec, world, old(disk)) && SmoothTraining(world) ==> finished
      ensures finished ==> Tallied(start, totals, old(disk), disk, PlannedIn(spec, spec.training.value.epochs))
    {
      hide Tallied, Size, Due, PlannedIn, SmoothTraining, NewFrom, PlansFor, EpochState, EpochPassed, Complete, Unhindered, Collected;
      totals, finished, checkpoints := start, false, 0;
      ghost var start' := disk;
      NoRecordZero(spec, disk, calls);
      var checkpoint := spec.agents[spec.training.value.learner].checkpoint.value;
      var pending: seq<TrajectoryStep> := [];
      StartEpochs(spec, disk);
      TallyNothing(start, disk, disk);
      NothingPlanned(spec);
      hide Inv;
      for done := 0 to spec.training.value.epochs
        invariant Valid() && Advanced(start', disk, old(executed), executed, old(calls), calls)
        invariant complete ==> disk == start' && calls == old(calls) && executed == old(executed)
        invariant complete ==> totals.completed == totals.failed == 0
        invariant Balanced(totals) && EpochState(spec, disk, done, checkpoints, checkpoint, pending)
        invariant Unhindered(spec, world, start') && SmoothTraining(world) ==> Unhindered(spec, world, disk)
        invariant Tallied(start, totals, start', disk, PlannedIn(spec, done))
      {
        var epoch := done + 1;
        EpochReady(spec, disk, done, checkpoints, checkpoint, pending);
        ghost var disk0, executed0, calls0 := disk, executed, calls;
        var ok, steps, sum := RunEpoch(spec, world, done, checkpoints, checkpoint, pending, totals, complete);
        AdvancedTransitive(start', disk0, disk, old(executed), executed0, executed, old(calls), calls0, calls);
        ghost var earlier := totals;
        totals := sum;
        if !ok { return; }
        EpochTallied(spec, start, earlier, totals, start', disk0, disk, done);
        pending := steps;
        if epoch % Cadence(spec) != 0 {
          WithinBlock(spec, disk, done, checkpoints, checkpoint, pending);
          continue;
        }
        checkpoints := checkpoints + 1;
        ghost var disk1, executed1, calls1 := disk, executed, calls;
        ok, checkpoint, totals := PassBoundary(spec, world, epoch, checkpoints, checkpoint, pending, totals, complete);
        AdvancedTransitive(start', disk1, disk, old(executed), executed1, executed, old(calls), calls1, calls);
        if !ok { return; }
        BoundaryTallied(spec, start, sum, totals, start', disk1, disk, epoch, checkpoints);
        pending := [];
      }
      hide Advanced, Balanced;
      if spec.sessions.Some? ==> Finalized(start', PlansFor(spec, start', Evaluation, 0)) {
        NoRecordZero(spec, disk, calls);
        EvaluationStays(spec, start', disk);
        AllEpochsDone(spec, disk, calls, checkpoints, checkpoint, pending);
      }
      finished := true;
    }

    /** The run manifest: load it, reject another specification, or create it. */
    method OpenManifest(spec: Spec, world: World) returns (ok: bool)
      requires Valid() && ValidSpec(spec)
      modifies this`disk
      ensures Valid() && Grows(old(disk), disk)
      ensures disk.results == old(disk).results && disk.records == old(disk).records
      ensures old(disk).manifest.Some? ==> disk == old(disk) && ok == (old(disk).manifest.value.spec == spec)
      ensures ok ==> disk.manifest.Some? && disk.manifest.value.spec == spec
      ensures old(disk).manifest.None? ==>
                ok == !world.stops(AtManifest) && (ok ==> disk.manifest == Some(Manifest(world.runId, spec)))
    {
      if disk.manifest.Some? { return disk.manifest.value.spec == spec; }
      if world.stops(AtManifest) { return false; }
      disk := disk.(manifest := Some(Manifest(world.runId, spec)));
      ok := true;
    }

    /** The evaluation sessions of `run`, when the specification has any. */
    method RunEvaluation(spec: Spec, world: World, ghost complete: bool) returns (totals: Batch, finished: bool)
      requires Valid() && ValidSpec(spec) && disk.manifest.Some? && disk.manifest.value.spec == spec
      requires complete ==> Complete(spec, disk)
      modifies this`disk, this`executed
      ensures Valid() && Advanced(old(disk), disk, old(executed), executed, calls, calls)
      ensures complete ==> disk == old(disk) && executed == old(executed) && totals.completed == totals.failed == 0
      ensures Balanced(totals)
      ensures finished && spec.sessions.Some? ==> Finalized(disk, PlansFor(spec, disk, Evaluation, 0))
      ensures finished ==> Tallied(NO_TOTALS, totals, old(disk), disk, Size(spec, Evaluation))
      ensures Unhindered(spec, world, old(disk)) ==> finished && Unhindered(spec, world, disk)
    {
      hide *;
      NoEvaluation(spec);
      TallyNothing(NO_TOTALS, disk, disk);
      NothingTotalled();
      AdvancedNowhere(disk, executed, calls);
      totals, finished := NO_TOTALS, true;
      if spec.sessions.Some? {
        EvaluationReady(spec, disk);
        if complete { CompleteCovers(spec, disk, Evaluation, 0); }
        ghost var before := disk;
        var batch := RunPhase(spec, world, Evaluation, 0, Base(spec, disk, 0));
        EvaluationAdded(spec, before, disk, old(executed), executed, calls);
        if batch.None? { return totals, false; }
        BatchFinalizes(spec, disk, PlansFor(spec, before, Evaluation, 0), totals, batch.value);
        TallyMerge(totals, batch.value, before, disk);
        NoSteps(batch.value);
        totals := Merge(totals, batch.value);
      }
    }

    /** The phases of `run` after the manifest was accepted. */
    method RunPhases(spec: Spec, world: World, ghost complete: bool) returns (totals: Batch, finished: bool, checkpoints: nat)
      requires Valid() && ValidSpec(spec) && disk.manifest.Some? && disk.manifest.value.spec == spec
      requires complete ==> Complete(spec, disk)
      modifies this
      ensures Valid() && Advanced(old(disk), disk, old(executed), executed, old(calls), calls)
      ensures complete ==> disk == old(disk) && calls == old(calls) && executed == old(executed)
      ensures complete ==> totals.completed == totals.failed == 0
      ensures Balanced(totals)
      ensures finished ==> Complete(spec, disk)
      ensures finished ==> checkpoints == if Trains(spec) then spec.training.value.epochs / Cadence(spec) else 0
      ensures Unhindered(spec, world, old(disk)) && SmoothTraining(world) ==> finished
      ensures finished ==> Tallied(NO_TOTALS, totals, old(disk), disk, PlannedByRun(spec))
    {
      hide Tallied, Size, PlannedIn, PlansFor, Inv, Complete, Finalized, PhaseReady, Unhindered, SmoothTraining;
      ghost var disk0, executed0, calls0 := disk, executed, calls;
      checkpoints := 0;
      totals, finished := RunEvaluation(spec, world, complete);
      if !finished { return; }
      if spec.training.Some? {
        ghost var disk1, executed1 := disk, executed;
        ghost var evaluated := totals;
        totals, finished, checkpoints := Train(spec, world, totals, complete);
        if finished {
          TallyThen(NO_TOTALS, evaluated, totals, disk0, disk1, disk, Size(spec, Evaluation),
                    PlannedIn(spec, spec.training.value.epochs));
        }
        AdvancedTransitive(disk0, disk1, disk, executed0, executed1, executed, calls0, calls0, calls);
      } else {
        CompleteWithoutTraining(spec, disk);
      }
    }

    /** `run`: one invocation, which may end anywhere. It finishes when nothing hinders it. */
    method Run(spec: Spec, world: World) returns (outcome: Outcome)
      requires Valid()
      modifies this
      ensures Valid() && Grows(old(disk), disk)
      ensures Fresh(old(executed), executed, old(disk)) && CallsFresh(old(calls), calls, old(disk))
      ensures old(disk).manifest.Some? && old(disk).manifest.value.spec != spec ==>
                outcome == Interrupted && disk == old(disk) && calls == old(calls) && executed == old(executed)
      ensures old(disk).manifest.Some? && old(disk).manifest.value.spec == spec && Complete(spec, old(disk)) ==>
                && disk == old(disk) && calls == old(calls) && executed == old(executed)
                && (outcome.Finished? ==> outcome.summary.completed == outcome.summary.failed == 0)
      ensures (ValidSpec(spec) && (old(disk).manifest.Some? ==> old(disk).manifest.value.spec == spec)
               && !world.stops(AtManifest) && SmoothTraining(world) && Unhindered(spec, world, old(disk))) ==> outcome.Finished?
      ensures outcome.Finished? ==>
                && disk.manifest == Some(Manifest(outcome.summary.runId, spec)) && Complete(spec, disk)
                && outcome.summary.planned
                     == outcome.summary.completed + outcome.summary.failed + outcome.summary.skipped
                && outcome.summary.planned == PlannedByRun(spec)
                && outcome.summary.completed == |Added(old(disk), disk, true)|
                && outcome.summary.failed == |Added(old(disk), disk, false)|
                && outcome.summary.checkpoints
                     == if Trains(spec) then spec.training.value.epochs / Cadence(spec) else 0
    {
      if !ValidSpec(spec) { return Interrupted; }
      ghost var complete := disk.manifest.Some? && Complete(spec, disk);
      hide Complete, Inv;
      ghost var before := disk;
      var accepted := OpenManifest(spec, world);
      ManifestKeepsUnhindered(spec, world, before, disk);
      hide Unhindered, SmoothTraining, PlannedByRun;
      ghost var begun := disk;
      if !accepted { return Interrupted; }
      var totals, finished, checkpoints := RunPhases(spec, world, complete);
      if !finished { return Interrupted; }
      AddedSince(before, begun, disk);
      outcome := Finished(Summary(disk.manifest.value.runId, totals.planned, totals.completed, totals.failed,
                                  totals.skipped, checkpoints));
    }

    /** Any number of invocations, each ending anywhere, with whatever specifications. */
    method Lifetime(invocations: seq<(Spec, World)>)
      requires Valid()
      modifies this
      ensures Valid() && Grows(old(disk), disk)
      ensures forall i, j :: 0 <= i < j < |calls| && calls[i].number == calls[j].number ==>
                && calls[i].base == calls[j].base && calls[i].updateId == calls[j].updateId
                && calls[i].completedEpochs == calls[j].completedEpochs
                && multiset(calls[i].steps) == multiset(calls[j].steps)
                && (disk.manifest.Some? && Serial(disk.manifest.value.spec) ==> calls[i].steps == calls[j].steps)
    {
      for n := 0 to |invocations|
        invariant Valid() && Grows(old(disk), disk)
      {
        var outcome := Run(invocations[n].0, invocations[n].1);
      }
      if disk.manifest.Some? {
        var spec := disk.manifest.value.spec;
        forall i, j | 0 <= i < j < |calls| && calls[i].number == calls[j].number
          ensures SameInput(spec, calls[i], calls[j])
        {
          TrainingInputStable(spec, disk, calls, i, j);
        }
      }
    }
  }

  ghost predicate SameInput(spec: Spec, c: TrainCall, c': TrainCall) {
    && c.base == c'.base && c.updateId == c'.updateId && c.completedEpochs == c'.completedEpochs
    && multiset(c.steps) == multiset(c'.steps)
    && (Serial(spec) ==> c.steps == c'.steps)
  }

  // ----- What the invariant means for a reader of the output directory -----

  /** Every call for one checkpoint, before or after any crash, trains on the same input. */
  lemma TrainingInputStable(spec: Spec, d: Disk, calls: seq<TrainCall>, i: nat, j: nat)
    requires Inv(spec, d, calls) && i < |calls| && j < |calls| && calls[i].number == calls[j].number
    ensures SameInput(spec, calls[i], calls[j])
  {
    assert CallSound(spec, d, calls[i]) && CallSound(spec, d, calls[j]);
  }

  /** The k-th update trains on exactly the finalized results of epochs (k-1)c+1 to kc, as a bag,
      and in epoch and plan order when serial. */
  lemma UpdateSeesItsBlock(spec: Spec, d: Disk, calls: seq<TrainCall>, i: nat)
    requires Inv(spec, d, calls) && i < |calls|
    ensures calls[i].number >= 1 && calls[i].completedEpochs == calls[i].number * Cadence(spec)
    ensures multiset(calls[i].steps)
         == multiset(EpochSteps(spec, d, calls[i].completedEpochs - Cadence(spec), Cadence(spec)))
    ensures Serial(spec) ==>
              calls[i].steps == EpochSteps(spec, d, calls[i].completedEpochs - Cadence(spec), Cadence(spec))
  {
    hide PlansFor, StepsOf, EpochSteps, EpochsDone;
    assert CallSound(spec, d, calls[i]);
    hide Inv;
    assert calls[i].completedEpochs - Cadence(spec) == Boundary(spec, calls[i].number - 1);
    BoundaryIsProduct(spec, calls[i].number);
  }

  /** Each of those epochs was played by the checkpoint the update starts from, and no session of
      it failed. */
  lemma UpdateHasNoFailedSession(spec: Spec, d: Disk, calls: seq<TrainCall>, i: nat, e: nat)
    requires Inv(spec, d, calls) && i < |calls|
    requires calls[i].completedEpochs - Cadence(spec) < e <= calls[i].completedEpochs
    ensures calls[i].base == SeatedCheckpoint(spec, d, Training, e)
    ensures Succeeded(d, PlansFor(spec, d, Training, e))
  {
    var c := calls[i];
    assert CallSound(spec, d, c);
    BlockOfEpoch(spec, e, c.number - 1, e - 1 - Boundary(spec, c.number - 1));
    assert EpochDone(spec, d, e);
  }

  /** Records form an unbroken chain: each starts from the checkpoint of the one before. */
  lemma DurableChain(spec: Spec, d: Disk, calls: seq<TrainCall>, k: nat)
    requires Inv(spec, d, calls) && k in d.records
    ensures 1 <= k && d.records[k].number == k && Trains(spec)
    ensures k > 1 ==> k - 1 in d.records && d.records[k].base == d.records[k - 1].checkpoint
    ensures k == 1 ==> d.records[k].base == spec.agents[spec.training.value.learner].checkpoint.value
  {
    assert RecordSound(spec, d, calls, k);
    NoRecordZero(spec, d, calls);
  }

  /** No training result past epoch kc, and no validation result of checkpoint k, exists before
      record k does. */
  lemma NothingAheadOfItsRecord(spec: Spec, d: Disk, calls: seq<TrainCall>, id: PlanId, k: nat)
    requires Inv(spec, d, calls) && id in d.results && k >= 1 && k !in d.records
    ensures id.phase == Training ==> id.phaseIndex <= k * Cadence(spec)
    ensures id.phase == Validation ==> id.phaseIndex < k
  {
    hide PlansFor, EpochsDone;
    assert ResultSound(spec, d, id);
    if id.phase == Training && id.phaseIndex > k * Cadence(spec) {
      var c, b := Cadence(spec), Block(spec, id.phaseIndex);
      DivideUnique(id.phaseIndex - 1, c, b, (id.phaseIndex - 1) % c);
      if b < k { MultiplyMonotone(b + 1, k, c); }
      EarlierBase(spec, d, calls, b, k);
    }
    if id.phase == Validation && id.phaseIndex >= k { EarlierBase(spec, d, calls, id.phaseIndex, k); }
  }

  /** A recorded checkpoint is the learner's answer to the last call for its number: once the
      record exists, that update is never trained for again. */
  lemma RecordedAnswerIsFinal(spec: Spec, d: Disk, calls: seq<TrainCall>, k: nat)
    requires Inv(spec, d, calls) && k in d.records
    ensures exists i :: && 0 <= i < |calls| && calls[i].number == k
                        && calls[i].answer == Some(d.records[k].checkpoint)
                        && forall j :: i < j < |calls| ==> calls[j].number > k
  {
    assert RecordSound(spec, d, calls, k);
    var i: nat :| Produced(calls, i, k, d.records[k].checkpoint);
    assert calls[i].number == k;
  }
}
