/** The order in which one call of `execute_plans` collects learner steps: those of finalized plans as it
    skips them, then those of the other sessions as they finish. */
module StepOrder {
  import opened PlanSet
  import opened DurableTraining

  /** The finalized plans, and the others, each in plan order. */
  function Skipped(d: Disk, plans: seq<PlanId>): seq<PlanId> {
    if plans == [] then [] else
      var p := plans[|plans| - 1];
      Skipped(d, plans[..|plans| - 1]) + if p in d.results then [p] else []
  }

  function Remaining(d: Disk, plans: seq<PlanId>): seq<PlanId> {
    if plans == [] then [] else
      var p := plans[|plans| - 1];
      Remaining(d, plans[..|plans| - 1]) + if p in d.results then [] else [p]
  }

  /** The next session to finish is one of the first `concurrency` pending ones. */
  function Chosen(pending: seq<PlanId>, concurrency: nat, pick: nat): (j: nat)
    requires pending != []
    ensures j < |pending| && (concurrency <= 1 ==> j == 0)
  {
    if pick < |pending| && pick < concurrency then pick else 0
  }

  function Without(pending: seq<PlanId>, j: nat): seq<PlanId>
    requires j < |pending|
  {
    pending[..j] + pending[j + 1..]
  }

  /** The order in which the pending sessions finish, after `n` others did. */
  function FinishOrder(pending: seq<PlanId>, concurrency: nat, picks: nat -> nat, n: nat): seq<PlanId>
    decreases |pending|
  {
    if pending == [] then [] else
      var j := Chosen(pending, concurrency, picks(n));
      [pending[j]] + FinishOrder(Without(pending, j), concurrency, picks, n + 1)
  }

  function Concurrency(spec: Spec): nat { if spec.failFast then 1 else spec.concurrency }

  function Picks(world: World, phase: Phase, index: nat): nat -> nat {
    (n: nat) => world.picks(AtSession(phase, index, n))
  }

  /** The plans in the order in which their steps are collected. */
  function CollectOrder(spec: Spec, world: World, d: Disk, phase: Phase, index: nat, plans: seq<PlanId>): seq<PlanId> {
    Skipped(d, plans) + FinishOrder(Remaining(d, plans), Concurrency(spec), Picks(world, phase, index), 0)
  }

  lemma SplitSnoc(d: Disk, plans: seq<PlanId>, p: PlanId)
    ensures Skipped(d, plans + [p]) == if p in d.results then Skipped(d, plans) + [p] else Skipped(d, plans)
    ensures Remaining(d, plans + [p]) == if p in d.results then Remaining(d, plans) else Remaining(d, plans) + [p]
  {
    assert (plans + [p])[..|plans|] == plans;
  }

  lemma {:induction false} AllSkipped(d: Disk, plans: seq<PlanId>)
    requires Finalized(d, plans)
    ensures Skipped(d, plans) == plans && Remaining(d, plans) == []
  {
    if plans != [] {
      var front, p := plans[..|plans| - 1], plans[|plans| - 1];
      assert plans == front + [p] && p in d.results;
      AllSkipped(d, front);
      SplitSnoc(d, front, p);
      hide Skipped, Remaining;
    }
  }

  // ----- When two orders collect the same steps -----

  /** The plans which left at least one step. */
  function NonEmpty(d: Disk, plans: seq<PlanId>): seq<PlanId> {
    if plans == [] then [] else
      var p := plans[|plans| - 1];
      NonEmpty(d, plans[..|plans| - 1]) + if p in d.results && d.results[p].trajectory != [] then [p] else []
  }

  ghost predicate LabelledResults(d: Disk) {
    forall p :: p in d.results ==> Labelled(d.results[p].trajectory, p)
  }

  lemma StepsOfSnoc(d: Disk, plans: seq<PlanId>, p: PlanId)
    ensures StepsOf(d, plans + [p]) == StepsOf(d, plans) + if p in d.results then d.results[p].trajectory else []
    ensures NonEmpty(d, plans + [p]) ==
            NonEmpty(d, plans) + if p in d.results && d.results[p].trajectory != [] then [p] else []
  {
    assert (plans + [p])[..|plans|] == plans;
  }

  predicate HasSteps(d: Disk, p: PlanId) { p in d.results && d.results[p].trajectory != [] }

  predicate AllHaveSteps(d: Disk, plans: seq<PlanId>) {
    forall i :: 0 <= i < |plans| ==> HasSteps(d, plans[i])
  }

  lemma {:induction false} StepsOfNonEmpty(d: Disk, plans: seq<PlanId>)
    ensures StepsOf(d, NonEmpty(d, plans)) == StepsOf(d, plans) && AllHaveSteps(d, NonEmpty(d, plans))
  {
    if plans != [] {
      var front, p := plans[..|plans| - 1], plans[|plans| - 1];
      assert plans == front + [p];
      StepsOfNonEmpty(d, front);
      StepsOfSnoc(d, front, p);
      StepsOfSnoc(d, NonEmpty(d, front), p);
      hide StepsOf, NonEmpty;
      if HasSteps(d, p) {
        assert NonEmpty(d, plans) == NonEmpty(d, front) + [p];
      } else {
        assert StepsOf(d, plans) == StepsOf(d, front) && NonEmpty(d, plans) == NonEmpty(d, front);
      }
    }
  }

  /** Plans which all have steps can be read off the collected steps. */
  lemma {:induction false} StepsDetermineOrder(d: Disk, a: seq<PlanId>, b: seq<PlanId>)
    requires LabelledResults(d) && StepsOf(d, a) == StepsOf(d, b)
    requires AllHaveSteps(d, a) && AllHaveSteps(d, b)
    ensures a == b
  {
    if a != [] {
      LastStep(d, a);
      if b != [] {
        LastStep(d, b);
        var p := a[|a| - 1];
        assert b[|b| - 1] == p;
        var n := |StepsOf(d, a)| - |d.results[p].trajectory|;
        assert StepsOf(d, a)[..n] == StepsOf(d, a[..|a| - 1]) && StepsOf(d, b)[..n] == StepsOf(d, b[..|b| - 1]);
        StepsDetermineOrder(d, a[..|a| - 1], b[..|b| - 1]);
        assert a == a[..|a| - 1] + [p] && b == b[..|b| - 1] + [p];
      }
    } else if b != [] {
      LastStep(d, b);
    }
  }

  lemma LastStep(d: Disk, a: seq<PlanId>)
    requires LabelledResults(d) && a != [] && HasSteps(d, a[|a| - 1])
    ensures StepsOf(d, a) == StepsOf(d, a[..|a| - 1]) + d.results[a[|a| - 1]].trajectory
    ensures StepsOf(d, a) != [] && StepsOf(d, a)[|StepsOf(d, a)| - 1].plan == a[|a| - 1]
  {
    assert Labelled(d.results[a[|a| - 1]].trajectory, a[|a| - 1]);
  }

  /** Two orders collect the same sequence of steps exactly when they put the plans which left steps in
      the same order. */
  lemma SameStepsIff(d: Disk, a: seq<PlanId>, b: seq<PlanId>)
    requires LabelledResults(d)
    ensures StepsOf(d, a) == StepsOf(d, b) <==> NonEmpty(d, a) == NonEmpty(d, b)
  {
    StepsOfNonEmpty(d, a);
    StepsOfNonEmpty(d, b);
    hide StepsOf, NonEmpty;
    if StepsOf(d, a) == StepsOf(d, b) { StepsDetermineOrder(d, NonEmpty(d, a), NonEmpty(d, b)); }
  }
}
