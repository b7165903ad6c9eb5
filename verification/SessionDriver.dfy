/** Model of the headless session driver in rust-server/src/agent_experiment.rs:
    `SessionRunner::run`, `drive_session`, `apply_action`, `record_trajectory` and the callback
    helpers. Agents answer arbitrarily; any callback, any serialization and the deadline may fail
    a session at any point. */
module SessionDriver {
  import opened Wrappers
  import opened JsonValues
  import opened Schedules
  import opened SessionScript

  datatype Limits = Limits(decisions: nat, acceptedActions: nat, messages: nat, rejectedActions: nat) {
    /** `SessionLimits::validate`. */
    predicate Valid() { decisions > 0 && acceptedActions > 0 && messages > 0 && rejectedActions > 0 }
  }

  /** `capture.learners` is empty outside training. */
  datatype Plan = Plan(limits: Limits, kind: Kind, first: Role, capture: Capture)

  datatype Status =
    | Completed | Quiescent | DecisionLimit | ActionLimit | MessageLimit | RejectionLimit | Deadline | Failed

  datatype ActionAttempt = AcceptedAction(completion: Option<Json>) | RejectedAction | Broken

  const ROLES := [A, B]

  /** The mutable session result, the state of the decision loop, and a log of every callback. */
  class SessionRun {
    const game: Game
    const plan: Plan
    var status: Status
    var completion: Option<Json>
    var decisions: nat
    var acceptedActions: nat
    var rejectedActions: nat
    var messages: nat
    var trajectory: seq<Step>
    var state: Json
    ghost var log: seq<Call>

    constructor (game: Game, plan: Plan)
      ensures this.game == game && this.plan == plan && Untouched(Null) && log == []
    {
      this.game, this.plan := game, plan;
      status, completion, state := Failed, None, Null;
      decisions, acceptedActions, rejectedActions, messages := 0, 0, 0, 0;
      trajectory, log := [], [];
    }

    ghost predicate Untouched(s: Json)
      reads this
    {
      && status == Failed && completion == None && state == s && trajectory == []
      && decisions == acceptedActions == rejectedActions == messages == 0
    }

    /** Every counter and the trajectory are those of the decisions made so far. */
    ghost predicate CountersMatch(s: Json, ds: seq<Decision>)
      reads this
    {
      && decisions == |ds|
      && acceptedActions == Count(Turns(game, s, ds), Accepted)
      && rejectedActions == Count(Turns(game, s, ds), Rejected)
      && messages == Messages(game, s, ds)
      && trajectory == Trajectory(game, plan.capture, s, ds)
    }

    ghost predicate WithinLimits()
      reads this
    {
      && decisions <= plan.limits.decisions && acceptedActions <= plan.limits.acceptedActions
      && messages <= plan.limits.messages && rejectedActions <= plan.limits.rejectedActions
      && acceptedActions + rejectedActions <= decisions && messages + rejectedActions <= decisions
    }

    /** One bounded callback; it may fail or time out. */
    method Notify(to: Role, callback: Callback) returns (ok: bool)
      modifies this`log
      ensures log == old(log) + [Call(to, callback)]
    {
      log := log + [Call(to, callback)];
      ok := *;
    }

    /** `finish_agents`, `observe_transition` for both roles, and the initial `start` calls. */
    method NotifyBoth(first: Callback, second: Callback) returns (ok: bool)
      modifies this`log
      ensures ok ==> log == old(log) + [Call(A, first), Call(B, second)]
      ensures old(log) <= log <= old(log) + [Call(A, first), Call(B, second)]
    {
      ok := Notify(A, first);
      if ok { ok := Notify(B, second); }
    }

    /** `record_trajectory`; serialization may fail. */
    method RecordTrajectory(step: Step) returns (ok: bool)
      modifies this`trajectory
      ensures trajectory == if ok then old(trajectory) + [step] else old(trajectory)
    {
      ok := *;
      if ok { trajectory := trajectory + [step]; }
    }

    /** `DecisionExecution::apply_action`: `learner` says whether a transition is recorded. */
    method ApplyAction(d: Decision, learner: bool) returns (r: ActionAttempt)
      requires Acts(d)
      modifies this`acceptedActions, this`rejectedActions, this`messages, this`trajectory, this`state, this`log
      ensures old(log) <= log <= old(log) + Transitions(game, old(state), d) + Message(game, old(state), d)
      ensures var turn := TurnOf(game, old(state), d);
        && acceptedActions == old(acceptedActions) + (if turn == Accepted then 1 else 0)
        && rejectedActions == old(rejectedActions) + (if turn == Rejected then 1 else 0)
        && old(messages) <= messages <= old(messages) + (if turn == Accepted then 1 else 0)
        && (r.RejectedAction? ==> turn == Rejected)
        && (r.AcceptedAction? ==> turn == Accepted && r.completion == game.completion(state))
      ensures trajectory == old(trajectory)
           || (learner && trajectory == old(trajectory) + [StepOf(game, plan.capture, old(state), d, decisions)])
      ensures r.Broken? || (
        && log == old(log) + Transitions(game, old(state), d) + Message(game, old(state), d)
        && state == Next(game, old(state), d)
        && messages == old(messages) + (if Delivers(game, old(state), d) then 1 else 0)
        && trajectory == old(trajectory) +
             if learner then [StepOf(game, plan.capture, old(state), d, decisions)] else [])
    {
      ghost var before := log;
      var result := game.apply(state, d.response.action, d.role);
      if result.Err? {
        rejectedActions := rejectedActions + 1;
        if learner {
          var recorded := RecordTrajectory(Step(decisions, d.role, game.observation(state, d.role), d.response.action,
                                                false, Some(result.error), None, game.observation(state, d.role), false));
          if !recorded { return Broken; }
        }
        return RejectedAction;
      }
      var next := result.value;
      acceptedActions := acceptedActions + 1;
      var ok := NotifyBoth(ObserveTransition(d.role, d.response.action, game.observation(next, A)),
                           ObserveTransition(d.role, d.response.action, game.observation(next, B)));
      if !ok {
        assert log <= before + Transitions(game, old(state), d) + Message(game, old(state), d);
        return Broken;
      }
      var completed := game.completion(next);
      if learner {
        var rewards := plan.capture.reward(state, next, d.role, d.response.action, completed);
        ok := RecordTrajectory(Step(decisions, d.role, game.observation(state, d.role), d.response.action, true, None,
                                    Some(rewards), game.observation(next, d.role), completed.Some?));
        if !ok { return Broken; }
      }
      state := next;
      if completed.None? && d.response.ActAndSay? {
        ok := Notify(d.role.Other(), ObserveMessage(d.role, d.response.text));
        if !ok { return Broken; }
        messages := messages + 1;
      }
      r := AcceptedAction(completed);
    }

    /** Carries out one answered decision: nothing, a delivered message, or an action. */
    method Perform(d: Decision) returns (ok: bool, turn: Turn, completed: Option<Json>)
      requires d.role in plan.capture.learners ==> d.response.Act?
      modifies this`acceptedActions, this`rejectedActions, this`messages, this`trajectory, this`state, this`log
      ensures old(log) <= log <= old(log) + Transitions(game, old(state), d) + Message(game, old(state), d)
      ensures var t := TurnOf(game, old(state), d);
        && acceptedActions == old(acceptedActions) + (if t == Accepted then 1 else 0)
        && rejectedActions == old(rejectedActions) + (if t == Rejected then 1 else 0)
        && old(messages) <= messages <= old(messages) + (if t == Rejected || t == Yielded then 0 else 1)
      ensures trajectory == old(trajectory)
           || (d.role in plan.capture.learners
               && trajectory == old(trajectory) + [StepOf(game, plan.capture, old(state), d, decisions)])
      ensures ok ==>
        && turn == TurnOf(game, old(state), d) && state == Next(game, old(state), d)
        && log == old(log) + Transitions(game, old(state), d) + Message(game, old(state), d)
        && messages == old(messages) + (if Delivers(game, old(state), d) then 1 else 0)
        && completed == (if turn == Accepted then game.completion(state) else None)
        && trajectory == old(trajectory) + if d.role in plan.capture.learners
             then [StepOf(game, plan.capture, old(state), d, decisions)] else []
    {
      hide StepOf;
      ok, turn, completed := false, Yielded, None;
      match d.response {
        case Yield =>
        case Say(text) =>
          turn := Spoke;
          var delivered := Notify(d.role.Other(), ObserveMessage(d.role, text));
          if !delivered { return; }
          messages := messages + 1;
        case _ =>
          var attempt := ApplyAction(d, d.role in plan.capture.learners);
          if attempt.Broken? { return; }
          if attempt.AcceptedAction? { turn, completed := Accepted, attempt.completion; } else { turn := Rejected; }
      }
      ok := true;
    }

    /** One pass of the decision loop up to the limit checks: `decision` is what was asked and
        answered; a failed or refused response counts as no response. */
    method Decide(role: Role) returns (ok: bool, decision: Decision, turn: Turn, completed: Option<Json>)
      modifies this`decisions, this`acceptedActions, this`rejectedActions, this`messages, this`trajectory,
               this`state, this`log
      ensures decision.role == role && decisions == old(decisions) + 1
      ensures old(log) <= log <= old(log) + CallsOf(game, old(state), decision)
      ensures var turn := TurnOf(game, old(state), decision);
        && acceptedActions == old(acceptedActions) + (if turn == Accepted then 1 else 0)
        && rejectedActions == old(rejectedActions) + (if turn == Rejected then 1 else 0)
        && old(messages) <= messages <= old(messages) + (if turn == Rejected || turn == Yielded then 0 else 1)
      ensures trajectory == old(trajectory)
           || (role in plan.capture.learners && decision.response.Act?
               && trajectory == old(trajectory) + [StepOf(game, plan.capture, old(state), decision, decisions)])
      ensures ok ==>
        && turn == TurnOf(game, old(state), decision) && state == Next(game, old(state), decision)
        && log == old(log) + CallsOf(game, old(state), decision)
        && messages == old(messages) + (if Delivers(game, old(state), decision) then 1 else 0)
        && completed == (if turn == Accepted then game.completion(state) else None)
        && (role in plan.capture.learners ==> decision.response.Act?)
        && trajectory == old(trajectory) + if role in plan.capture.learners
             then [StepOf(game, plan.capture, old(state), decision, decisions)] else []
    {
      hide StepOf, Transitions, Message;
      decisions := decisions + 1;
      ok, decision, turn, completed := false, Decision(role, Yield), Yielded, None;
      var serialized := *;
      if !serialized { return; }
      var responded := Notify(role, Respond);
      if !responded { return; }
      var response: Response := *;
      if role in plan.capture.learners && !response.Act? { return; }
      decision := Decision(role, response);
      ghost var before, asked := state, log;
      ok, turn, completed := Perform(decision);
      AskedThenApplied(game, before, decision, old(log), asked);
    }

    /** The seats of all decisions are those of a built-in schedule. */
    ghost predicate SeatsFollow(s: Json, ds: seq<Decision>) {
      plan.kind != Registered ==>
        forall i :: 0 <= i < |ds| ==> After(plan.kind, plan.first, Turns(game, s, ds)[..i]).role == Some(ds[i].role)
    }

    /** The state at the top of the decision loop. */
    ghost predicate Playing(s: Json, ds: seq<Decision>, role: Role, previousYield: Option<Role>)
      reads this
    {
      && log == Log(game, s, ds) && state == StateAfter(game, s, ds) && CountersMatch(s, ds)
      && OpenUntilLast(game, s, ds) && game.completion(StateAfter(game, s, ds)).None?
      && LearnersOnlyAct(plan.capture, ds) && SeatsFollow(s, ds)
      && decisions <= plan.limits.decisions && acceptedActions < plan.limits.acceptedActions
      && messages < plan.limits.messages && rejectedActions < plan.limits.rejectedActions
      && (plan.kind != Registered ==>
            After(plan.kind, plan.first, Turns(game, s, ds)) == Position(Some(role), previousYield))
    }

    /** A session which did not fail: everything in its result is determined by the decisions made,
        and its status names the reason it stopped. */
    ghost predicate Faithful(s: Json, ds: seq<Decision>, calls: seq<Call>)
      reads this
    {
      && calls == Log(game, s, ds) + Closing(game, StateAfter(game, s, ds)) && CountersMatch(s, ds)
      && OpenUntilLast(game, s, ds) && LearnersOnlyAct(plan.capture, ds) && SeatsFollow(s, ds)
      && completion == game.completion(StateAfter(game, s, ds))
      && (status == Completed <==> completion.Some?)
      && (plan.kind != Registered ==> (status == Quiescent <==> TwoYields(Turns(game, s, ds))))
      && (status == DecisionLimit ==> decisions == plan.limits.decisions)
      && (status == ActionLimit <==> completion.None? && acceptedActions == plan.limits.acceptedActions)
      && (status == MessageLimit <==>
            completion.None? && acceptedActions < plan.limits.acceptedActions && messages == plan.limits.messages)
      && (status == RejectionLimit <==> completion.None? && rejectedActions == plan.limits.rejectedActions)
    }

    ghost predicate Ended(s: Json, ds: seq<Decision>)
      reads this
    {
      && WithinLimits()
      && (status != Failed ==> Faithful(s, ds, log))
      && (status == Failed ==>
            && completion == None && log <= Log(game, s, ds) + Closing(game, StateAfter(game, s, ds))
            && trajectory <= Trajectory(game, plan.capture, s, ds))
    }

    /** `finish_agents` and the completed outcome. */
    method Complete(c: Json)
      requires status == Failed && completion == None
      modifies this`status, this`completion, this`log
      ensures old(log) <= log <= old(log) + [Call(A, Finish(c)), Call(B, Finish(c))]
      ensures (status, completion) == (Failed, None)
           || (status, completion, log) == (Completed, Some(c), old(log) + [Call(A, Finish(c)), Call(B, Finish(c))])
    {
      var ok := NotifyBoth(Finish(c), Finish(c));
      if ok { status, completion := Completed, Some(c); }
    }

    /** The state right after a decision, before the limits are checked. */
    ghost predicate Judging(s: Json, ds: seq<Decision>, turn: Turn, position: Position)
      reads this
    {
      && status == Failed && completion == None && WithinLimits()
      && log == Log(game, s, ds) && state == StateAfter(game, s, ds) && CountersMatch(s, ds)
      && OpenUntilLast(game, s, ds) && LearnersOnlyAct(plan.capture, ds) && SeatsFollow(s, ds)
      && (game.completion(state).Some? || acceptedActions >= plan.limits.acceptedActions ==> turn == Accepted)
      && (messages >= plan.limits.messages ==> turn == Spoke || turn == Accepted)
      && (rejectedActions >= plan.limits.rejectedActions ==> turn == Rejected)
      && (plan.kind != Registered ==>
            && After(plan.kind, plan.first, Turns(game, s, ds)) == position
            && (TwoYields(Turns(game, s, ds)) <==> position.role.None?))
    }

    /** The checks at the end of the loop body, in order, and the choice of the next role. */
    method Judge(s: Json, ghost ds: seq<Decision>, role: Role, turn: Turn, completed: Option<Json>, schedule: Schedule)
      returns (next: Option<Role>)
      requires schedule.kind == plan.kind && completed == game.completion(state)
      requires Judging(s, ds, turn, Advance(plan.kind, role, schedule.previousYield, turn))
      modifies this`status, this`completion, this`log, schedule
      ensures next.None? ==> Ended(s, ds)
      ensures next.Some? ==> status == Failed && completion == None && WithinLimits()
      ensures next.Some? ==> Playing(s, ds, next.value, schedule.previousYield)
    {
      hide StateAfter, Log, Messages, Trajectory, Count, After, Turns, OpenUntilLast, LearnersOnlyAct, SeatsFollow, TwoYields;
      next := None;
      if completed.Some? {
        Complete(completed.value);
      } else if acceptedActions >= plan.limits.acceptedActions {
        status := ActionLimit;
      } else if messages >= plan.limits.messages {
        status := MessageLimit;
      } else if rejectedActions >= plan.limits.rejectedActions {
        status := RejectionLimit;
      } else {
        next := schedule.Next(role, turn);
        if next.None? { status := Quiescent; }
      }
    }

    /** One round of the decision loop. */
    method Round(s: Json, ghost ds: seq<Decision>, role: Role, schedule: Schedule)
      returns (next: Option<Role>, ghost d: Decision)
      requires status == Failed && completion == None && decisions < plan.limits.decisions
      requires schedule.kind == plan.kind && Playing(s, ds, role, schedule.previousYield)
      modifies this, schedule
      ensures decisions == old(decisions) + 1
      ensures next.None? ==> Ended(s, ds + [d])
      ensures next.Some? ==> status == Failed && completion == None && WithinLimits()
      ensures next.Some? ==> Playing(s, ds + [d], next.value, schedule.previousYield)
    {
      hide StateAfter, Log, Messages, Trajectory, Count, StepOf, After, Turns, OpenUntilLast, LearnersOnlyAct,
           SeatsFollow, TwoYields, CallsOf;
      var ok, decision, turn, completed := Decide(role);
      d := decision;
      CountsBounded(game, s, ds);
      SnocDecision(game, plan.capture, s, ds, d);
      if !ok { return None, d; }
      SnocTurn(Turns(game, s, ds), turn, Accepted);
      SnocTurn(Turns(game, s, ds), turn, Rejected);
      OpenOneMore(game, s, ds, d);
      LearnersStillAct(plan.capture, ds, d);
      SeatsOneMore(s, ds, d, role, schedule.previousYield, turn);
      next := Judge(s, ds + [d], role, turn, completed, schedule);
    }

    lemma SeatsOneMore(s: Json, ds: seq<Decision>, d: Decision, role: Role, previousYield: Option<Role>, turn: Turn)
      requires SeatsFollow(s, ds) && d.role == role
      requires Turns(game, s, ds + [d]) == Turns(game, s, ds) + [turn]
      requires plan.kind != Registered ==> After(plan.kind, plan.first, Turns(game, s, ds)) == Position(Some(role), previousYield)
      ensures SeatsFollow(s, ds + [d])
      ensures plan.kind != Registered ==>
                && After(plan.kind, plan.first, Turns(game, s, ds + [d])) == Advance(plan.kind, role, previousYield, turn)
                && (TwoYields(Turns(game, s, ds + [d])) <==> Advance(plan.kind, role, previousYield, turn).role.None?)
    {
      var turns, all := Turns(game, s, ds), Turns(game, s, ds + [d]);
      if plan.kind != Registered {
        assert all[..|all| - 1] == turns;
        SchedulePosition(plan.kind, plan.first, all);
        forall i | 0 <= i < |ds + [d]| ensures After(plan.kind, plan.first, all[..i]).role == Some((ds + [d])[i].role) {
          assert all[..i] == turns[..i];
          if i == |ds| { assert turns[..i] == turns; }
        }
      }
    }

    /** The decision loop of `drive_session`. */
    method Rounds(s: Json) returns (ghost ds: seq<Decision>)
      requires Untouched(s) && log == Opening(game, s) && game.completion(s).None? && plan.limits.Valid()
      modifies this
      ensures Ended(s, ds)
    {
      ds := [];
      var schedule := new Schedule(plan.kind, plan.first);
      var role := plan.first;
      StartPlaying(s);
      hide Playing, Ended;
      while true
        invariant status == Failed && completion == None && schedule.kind == plan.kind && fresh(schedule)
        invariant Playing(s, ds, role, schedule.previousYield) && WithinLimits()
        decreases plan.limits.decisions - decisions
      {
        var late := *;
        if late || decisions >= plan.limits.decisions {
          Stop(s, ds, role, schedule.previousYield, if late then Deadline else DecisionLimit);
          return;
        }
        var next, d := Round(s, ds, role, schedule);
        ds := ds + [d];
        if next.None? { return; }
        role := next.value;
      }
    }

    lemma StartPlaying(s: Json)
      requires Untouched(s) && log == Opening(game, s) && game.completion(s).None? && plan.limits.Valid()
      ensures Playing(s, [], plan.first, None)
    {
    }

    /** The two exits at the top of the loop. */
    method Stop(s: Json, ghost ds: seq<Decision>, role: Role, ghost previousYield: Option<Role>, reason: Status)
      requires completion == None && WithinLimits() && Playing(s, ds, role, previousYield)
      requires reason == Deadline || (reason == DecisionLimit && decisions == plan.limits.decisions)
      modifies this`status
      ensures Ended(s, ds)
    {
      hide StateAfter, Log, Messages, Trajectory, Count, After, Turns, OpenUntilLast, LearnersOnlyAct, SeatsFollow,
           TwoYields, Flip, Handovers;
      if plan.kind != Registered { SchedulePosition(plan.kind, plan.first, Turns(game, s, ds)); }
      status := reason;
    }

    /** `drive_session`. `ds` is the session played; when it fails, the callbacks made are a prefix of
        those of `ds`. */
    method Drive(s: Json) returns (ghost ds: seq<Decision>)
      requires Untouched(s) && log == [] && plan.limits.Valid()
      modifies this
      ensures Ended(s, ds)
    {
      ds := [];
      var ok := NotifyBoth(Start(game.observation(s, A)), Start(game.observation(s, B)));
      if !ok { return; }
      var completed := game.completion(s);
      if completed.Some? {
        Complete(completed.value);
        return;
      }
      var scheduled := *;
      if !scheduled { return; }
      ds := Rounds(s);
    }

    /** `shutdown_agents`: best effort, in role order; a failing shutdown is only a diagnostic. */
    method ShutdownAll(roles: seq<Role>)
      modifies this`log
      ensures log == old(log) + Shutdowns(roles)
    {
      for i := 0 to |roles|
        invariant log == old(log) + Shutdowns(roles[..i])
      {
        var ok := Notify(roles[i], Shutdown);
        assert roles[..i + 1][..i] == roles[..i];
      }
      assert roles[..|roles|] == roles;
    }

    /** `SessionRunner::run`. `constructed` lists the agents which were built; `s` is the initial
        state and `ds` the session played from it. */
    method Run() returns (ghost constructed: seq<Role>, ghost s: Json, ghost ds: seq<Decision>)
      requires Untouched(Null) && log == [] && plan.limits.Valid()
      modifies this
      ensures constructed <= ROLES && WithinLimits()
      ensures status == Completed <==> completion.Some?
      ensures status != Failed ==> constructed == ROLES
      ensures exists main :: log == main + Shutdowns(constructed) && SessionLog(main, game, s, ds, constructed)
      ensures status != Failed ==> |log| >= 2 && Faithful(s, ds, log[..|log| - 2])
      ensures status == Failed ==> completion == None && trajectory <= Trajectory(game, plan.capture, s, ds)
    {
      s, ds, constructed := Null, [], [];
      assert log == [] + Shutdowns([]);
      assert SessionLog([], game, s, ds, constructed);
      var created := *;
      if !created { return; }
      created := *;
      if !created { return; }
      constructed := [A];
      created := *;
      if !created {
        ShutdownAll([A]);
        assert log == [] + Shutdowns([A]);
        return;
      }
      constructed := ROLES;
      var initial: Option<Json> := *;
      if !initial.Some? {
        ShutdownAll(ROLES);
        assert log == [] + Shutdowns(ROLES);
        return;
      }
      s, state := initial.value, initial.value;
      ds := Drive(initial.value);
      ghost var main := log;
      ShutdownAll(ROLES);
      assert log == main + Shutdowns(ROLES);
    }
  }

  function Shutdowns(roles: seq<Role>): (r: seq<Call>)
    ensures |r| == |roles|
  {
    if roles == [] then [] else Shutdowns(roles[..|roles| - 1]) + [Call(roles[|roles| - 1], Shutdown)]
  }

  /** The callbacks of a session before shutdown: none unless both agents exist, and then a prefix
      of what the played session calls for. */
  ghost predicate SessionLog(main: seq<Call>, g: Game, s: Json, ds: seq<Decision>, constructed: seq<Role>) {
    main == [] || (constructed == ROLES && main <= Log(g, s, ds) + Closing(g, StateAfter(g, s, ds)))
  }

  lemma LearnersStillAct(capture: Capture, ds: seq<Decision>, d: Decision)
    requires LearnersOnlyAct(capture, ds) && (d.role in capture.learners ==> d.response.Act?)
    ensures LearnersOnlyAct(capture, ds + [d])
  {
    forall n: nat | LearnerDecision(capture, ds + [d], n) ensures (ds + [d])[n - 1].response.Act? {
      assert n <= |ds| ==> LearnerDecision(capture, ds, n);
    }
  }

  lemma AskedThenApplied(g: Game, s: Json, d: Decision, log: seq<Call>, asked: seq<Call>)
    requires asked == log + [Call(d.role, Respond)]
    ensures asked + Transitions(g, s, d) + Message(g, s, d) == log + CallsOf(g, s, d)
  {
  }

  // ----- What the callback log of any session satisfies -----

  function ShutdownsOf(log: seq<Call>, role: Role): nat {
    if log == [] then 0 else
      ShutdownsOf(log[..|log| - 1], role) + if log[|log| - 1] == Call(role, Shutdown) then 1 else 0
  }

  function FinishesOf(log: seq<Call>, role: Role): nat {
    if log == [] then 0 else
      FinishesOf(log[..|log| - 1], role)
      + if log[|log| - 1].to == role && log[|log| - 1].callback.Finish? then 1 else 0
  }

  lemma {:induction false} ShutdownsOfAppend(a: seq<Call>, b: seq<Call>, role: Role)
    ensures ShutdownsOf(a + b, role) == ShutdownsOf(a, role) + ShutdownsOf(b, role)
    ensures FinishesOf(a + b, role) == FinishesOf(a, role) + FinishesOf(b, role)
  {
    if b == [] {
      assert a + b == a;
    } else {
      assert (a + b)[..|a + b| - 1] == a + b[..|b| - 1];
      ShutdownsOfAppend(a, b[..|b| - 1], role);
    }
  }

  lemma {:induction false} PlayHasNoShutdown(g: Game, s: Json, ds: seq<Decision>)
    ensures forall c :: c in Log(g, s, ds) ==> !c.callback.Shutdown? && !c.callback.Finish?
  {
    if ds != [] { PlayHasNoShutdown(g, s, Front(ds)); }
  }

  lemma {:induction false} NoneOf(log: seq<Call>, role: Role)
    ensures (forall c :: c in log ==> !c.callback.Shutdown?) ==> ShutdownsOf(log, role) == 0
    ensures (forall c :: c in log ==> !c.callback.Finish?) ==> FinishesOf(log, role) == 0
  {
    if log != [] { NoneOf(log[..|log| - 1], role); }
  }

  /** On every path, exactly the agents which were built are shut down, once each and last. */
  lemma BuiltAgentsShutDownOnce(main: seq<Call>, g: Game, s: Json, ds: seq<Decision>, constructed: seq<Role>, role: Role)
    requires constructed <= ROLES && SessionLog(main, g, s, ds, constructed)
    ensures ShutdownsOf(main + Shutdowns(constructed), role) == if role in constructed then 1 else 0
    ensures ShutdownsOf(main, role) == 0
  {
    PlayHasNoShutdown(g, s, ds);
    assert forall c :: c in main ==> c in Log(g, s, ds) + Closing(g, StateAfter(g, s, ds));
    NoneOf(main, role);
    ShutdownsOfAppend(main, Shutdowns(constructed), role);
    ShutdownsOfRoles(constructed, role);
  }

  lemma ShutdownsOfOne(r: Role, role: Role)
    ensures Shutdowns([r]) == [Call(r, Shutdown)]
    ensures ShutdownsOf([Call(r, Shutdown)], role) == if r == role then 1 else 0
  {
    assert [r][..0] == [] && [Call(r, Shutdown)][..0] == [];
  }

  lemma ShutdownsOfRoles(constructed: seq<Role>, role: Role)
    requires constructed <= ROLES
    ensures ShutdownsOf(Shutdowns(constructed), role) == if role in constructed then 1 else 0
  {
    if constructed == [] {
    } else {
      ShutdownsOfOne(A, role);
      ShutdownsOfOne(B, role);
      assert [A, B][..1] == [A];
      assert Shutdowns([A, B]) == [Call(A, Shutdown)] + [Call(B, Shutdown)];
      ShutdownsOfAppend([Call(A, Shutdown)], [Call(B, Shutdown)], role);
      hide Shutdowns, ShutdownsOf;
      assert constructed == [A] || constructed == [A, B];
    }
  }

  /** A session which did not fail finishes each agent exactly once when the game completed, and
      never otherwise. */
  lemma FinishedOnceOnCompletion(g: Game, s: Json, ds: seq<Decision>, role: Role)
    ensures FinishesOf(Log(g, s, ds) + Closing(g, StateAfter(g, s, ds)), role)
         == if g.completion(StateAfter(g, s, ds)).Some? then 1 else 0
  {
    var closing := Closing(g, StateAfter(g, s, ds));
    PlayHasNoShutdown(g, s, ds);
    NoneOf(Log(g, s, ds), role);
    ShutdownsOfAppend(Log(g, s, ds), closing, role);
    if closing != [] {
      assert closing[..|closing| - 1] == [closing[0]];
      assert [closing[0]][..0] == [];
      assert FinishesOf([closing[0]], role) == if closing[0].to == role then 1 else 0;
    }
  }

  /** However a session ended, B was told a prefix of the transitions A was told, shorter by at most
      one, and each was told its own view of the accepted actions in order. */
  lemma TransitionsAgree(main: seq<Call>, g: Game, s: Json, ds: seq<Decision>, constructed: seq<Role>)
    requires SessionLog(main, g, s, ds, constructed)
    ensures TransitionsTo(main, A) <= OwedTransitions(g, s, ds, A)
    ensures TransitionsTo(main, B) <= OwedTransitions(g, s, ds, B)
    ensures |TransitionsTo(main, B)| <= |TransitionsTo(main, A)| <= |TransitionsTo(main, B)| + 1
  {
    var play := Log(g, s, ds);
    hide Log, OwedTransitions, StateAfter;
    if main == [] {
    } else if |main| <= |play| {
      CutShort(g, s, ds, main);
    } else {
      var tail := main[|play|..];
      assert main == play + tail && tail <= Closing(g, StateAfter(g, s, ds));
      forall role: Role ensures TransitionsTo(main, role) == OwedTransitions(g, s, ds, role) {
        TransitionsToAppend(play, tail, role);
        NoTransitions(tail, role);
        BothSeeEveryTransition(g, s, ds, role);
      }
      SameActionsOwed(g, s, ds);
    }
  }
}
