/** The reference meaning of one headless session: what a sequence of agent responses does to the
    game, what every agent is told, and which learner transitions it leaves behind. Game values
    are their JSON serializations; the game functions are deterministic. */
module SessionScript {
  import opened Wrappers
  import opened JsonValues
  import opened Schedules

  datatype Game = Game(
    apply: (Json, Json, Role) -> Result<Json, string>,
    completion: Json -> Option<Json>,
    observation: (Json, Role) -> Json)

  datatype Response = Yield | Act(action: Json) | Say(text: string) | ActAndSay(action: Json, text: string)

  datatype Decision = Decision(role: Role, response: Response)

  datatype Callback =
    | Start(observation: Json)
    | Respond
    | ObserveTransition(actor: Role, action: Json, observation: Json)
    | ObserveMessage(sender: Role, text: string)
    | Finish(completion: Json)
    | Shutdown

  /** One call of an agent callback, in call order. */
  datatype Call = Call(to: Role, callback: Callback)

  datatype Step = Step(
    decision: nat, role: Role, observation: Json, action: Json, accepted: bool, rejection: Option<string>,
    rewards: Option<(real, real)>, nextObservation: Json, terminal: bool)

  /** Roles seated by the learner, and the reward calculation. */
  datatype Capture = Capture(learners: set<Role>, reward: (Json, Json, Role, Json, Option<Json>) -> (real, real))

  predicate Acts(d: Decision) { d.response.Act? || d.response.ActAndSay? }

  function Attempt(g: Game, s: Json, d: Decision): Result<Json, string>
    requires Acts(d)
  {
    g.apply(s, d.response.action, d.role)
  }

  function TurnOf(g: Game, s: Json, d: Decision): Turn {
    if d.response.Yield? then Yielded else if d.response.Say? then Spoke
    else if Attempt(g, s, d).Ok? then Accepted else Rejected
  }

  function Next(g: Game, s: Json, d: Decision): Json {
    if TurnOf(g, s, d) == Accepted then Attempt(g, s, d).value else s
  }

  /** Does the response's message reach the other role? */
  predicate Delivers(g: Game, s: Json, d: Decision) {
    || d.response.Say?
    || (d.response.ActAndSay? && TurnOf(g, s, d) == Accepted && g.completion(Next(g, s, d)).None?)
  }

  function Transitions(g: Game, s: Json, d: Decision): seq<Call> {
    if TurnOf(g, s, d) != Accepted then [] else
      var next := Next(g, s, d);
      [Call(A, ObserveTransition(d.role, d.response.action, g.observation(next, A))),
       Call(B, ObserveTransition(d.role, d.response.action, g.observation(next, B)))]
  }

  function Message(g: Game, s: Json, d: Decision): seq<Call> {
    if Delivers(g, s, d) then [Call(d.role.Other(), ObserveMessage(d.role, d.response.text))] else []
  }

  function StepOf(g: Game, capture: Capture, s: Json, d: Decision, n: nat): Step
    requires Acts(d)
  {
    var next, turn := Next(g, s, d), TurnOf(g, s, d);
    var completion := if turn == Accepted then g.completion(next) else None;
    Step(n, d.role, g.observation(s, d.role), d.response.action, turn == Accepted,
         if turn == Accepted then None else Some(Attempt(g, s, d).error),
         if turn == Accepted then Some(capture.reward(s, next, d.role, d.response.action, completion)) else None,
         g.observation(next, d.role), completion.Some?)
  }

  // ----- A whole session: s is the initial state -----

  function Front(ds: seq<Decision>): seq<Decision>
    requires ds != []
  {
    ds[..|ds| - 1]
  }

  function Last(ds: seq<Decision>): Decision
    requires ds != []
  {
    ds[|ds| - 1]
  }

  function StateAfter(g: Game, s: Json, ds: seq<Decision>): Json {
    if ds == [] then s else Next(g, StateAfter(g, s, Front(ds)), Last(ds))
  }

  function Turns(g: Game, s: Json, ds: seq<Decision>): (r: seq<Turn>)
    ensures |r| == |ds|
  {
    if ds == [] then [] else Turns(g, s, Front(ds)) + [TurnOf(g, StateAfter(g, s, Front(ds)), Last(ds))]
  }

  function Opening(g: Game, s: Json): seq<Call> {
    [Call(A, Start(g.observation(s, A))), Call(B, Start(g.observation(s, B)))]
  }

  function CallsOf(g: Game, s: Json, d: Decision): seq<Call> {
    [Call(d.role, Respond)] + Transitions(g, s, d) + Message(g, s, d)
  }

  function Log(g: Game, s: Json, ds: seq<Decision>): seq<Call> {
    if ds == [] then Opening(g, s) else Log(g, s, Front(ds)) + CallsOf(g, StateAfter(g, s, Front(ds)), Last(ds))
  }

  /** Completion is delivered to both roles, in role order. */
  function Closing(g: Game, s: Json): seq<Call> {
    match g.completion(s)
    case None => []
    case Some(c) => [Call(A, Finish(c)), Call(B, Finish(c))]
  }

  function Trajectory(g: Game, capture: Capture, s: Json, ds: seq<Decision>): seq<Step> {
    if ds == [] then [] else
      Trajectory(g, capture, s, Front(ds)) +
      if Last(ds).role in capture.learners && Last(ds).response.Act?
      then [StepOf(g, capture, StateAfter(g, s, Front(ds)), Last(ds), |ds|)] else []
  }

  function Count(turns: seq<Turn>, t: Turn): (n: nat)
    ensures n <= |turns|
  {
    if turns == [] then 0 else Count(turns[..|turns| - 1], t) + if turns[|turns| - 1] == t then 1 else 0
  }

  function Messages(g: Game, s: Json, ds: seq<Decision>): nat {
    if ds == [] then 0 else
      Messages(g, s, Front(ds)) + if Delivers(g, StateAfter(g, s, Front(ds)), Last(ds)) then 1 else 0
  }

  /** The game is not complete before the last decision. */
  ghost predicate OpenUntilLast(g: Game, s: Json, ds: seq<Decision>) {
    forall i :: 0 <= i < |ds| ==> g.completion(StateAfter(g, s, ds[..i])).None?
  }

  lemma SnocDecision(g: Game, capture: Capture, s: Json, ds: seq<Decision>, d: Decision)
    ensures StateAfter(g, s, ds + [d]) == Next(g, StateAfter(g, s, ds), d)
    ensures Turns(g, s, ds + [d]) == Turns(g, s, ds) + [TurnOf(g, StateAfter(g, s, ds), d)]
    ensures Log(g, s, ds + [d]) == Log(g, s, ds) + CallsOf(g, StateAfter(g, s, ds), d)
    ensures Messages(g, s, ds + [d]) == Messages(g, s, ds) + if Delivers(g, StateAfter(g, s, ds), d) then 1 else 0
    ensures Trajectory(g, capture, s, ds + [d]) == Trajectory(g, capture, s, ds) +
              if d.role in capture.learners && d.response.Act?
              then [StepOf(g, capture, StateAfter(g, s, ds), d, |ds| + 1)] else []
  {
    assert Front(ds + [d]) == ds;
  }

  lemma SnocTurn(turns: seq<Turn>, turn: Turn, t: Turn)
    ensures Count(turns + [turn], t) == Count(turns, t) + if turn == t then 1 else 0
  {
    var all := turns + [turn];
    assert all[..|all| - 1] == turns;
  }

  lemma OpenOneMore(g: Game, s: Json, ds: seq<Decision>, d: Decision)
    requires OpenUntilLast(g, s, ds) && g.completion(StateAfter(g, s, ds)).None?
    ensures OpenUntilLast(g, s, ds + [d])
  {
    forall i | 0 <= i < |ds| + 1 ensures g.completion(StateAfter(g, s, (ds + [d])[..i])).None? {
      assert (ds + [d])[..i] == ds[..i];
      if i == |ds| { assert ds[..i] == ds; }
    }
  }

  // ----- Laws of the script -----

  /** The state is the game's own fold over exactly the accepted actions. */
  function AcceptedActions(g: Game, s: Json, ds: seq<Decision>): seq<(Role, Json)> {
    if ds == [] then [] else
      AcceptedActions(g, s, Front(ds)) +
      if TurnOf(g, StateAfter(g, s, Front(ds)), Last(ds)) == Accepted then [(Last(ds).role, Last(ds).response.action)] else []
  }

  /** Applies actions strictly; any rejected action is an error. */
  function Fold(g: Game, s: Json, actions: seq<(Role, Json)>): Result<Json, string> {
    if actions == [] then Ok(s) else
      var before := Fold(g, s, actions[..|actions| - 1]);
      var a := actions[|actions| - 1];
      if before.Err? then before else g.apply(before.value, a.1, a.0)
  }

  lemma {:induction false} StateIsFoldOfAccepted(g: Game, s: Json, ds: seq<Decision>)
    ensures Fold(g, s, AcceptedActions(g, s, ds)) == Ok(StateAfter(g, s, ds))
    ensures |AcceptedActions(g, s, ds)| == Count(Turns(g, s, ds), Accepted)
  {
    if ds != [] {
      StateIsFoldOfAccepted(g, s, Front(ds));
      var actions := AcceptedActions(g, s, Front(ds));
      SnocTurn(Turns(g, s, Front(ds)), TurnOf(g, StateAfter(g, s, Front(ds)), Last(ds)), Accepted);
      var all := AcceptedActions(g, s, ds);
      if TurnOf(g, StateAfter(g, s, Front(ds)), Last(ds)) == Accepted {
        assert all[..|all| - 1] == actions;
      } else {
        assert all == actions;
      }
    }
  }

  /** What one role is told about accepted transitions, in order. */
  function TransitionsTo(log: seq<Call>, role: Role): seq<Callback> {
    if log == [] then [] else
      TransitionsTo(log[..|log| - 1], role) +
      var last := log[|log| - 1];
      if last.to == role && last.callback.ObserveTransition? then [last.callback] else []
  }

  lemma {:induction false} TransitionsToAppend(a: seq<Call>, b: seq<Call>, role: Role)
    ensures TransitionsTo(a + b, role) == TransitionsTo(a, role) + TransitionsTo(b, role)
  {
    if b == [] {
      assert a + b == a;
    } else {
      assert (a + b)[..|a + b| - 1] == a + b[..|b| - 1];
      TransitionsToAppend(a, b[..|b| - 1], role);
    }
  }

  /** The transitions a role is owed: each accepted action, with that role's observation of the
      state right after it. */
  function OwedTransitions(g: Game, s: Json, ds: seq<Decision>, role: Role): seq<Callback> {
    if ds == [] then [] else
      var before := StateAfter(g, s, Front(ds));
      OwedTransitions(g, s, Front(ds), role) +
      if TurnOf(g, before, Last(ds)) == Accepted
      then [ObserveTransition(Last(ds).role, Last(ds).response.action, g.observation(Next(g, before, Last(ds)), role))]
      else []
  }

  lemma DecisionTransitions(g: Game, s: Json, d: Decision, role: Role)
    ensures TransitionsTo(CallsOf(g, s, d), role) ==
            if TurnOf(g, s, d) == Accepted
            then [ObserveTransition(d.role, d.response.action, g.observation(Next(g, s, d), role))] else []
  {
    hide TransitionsTo, TurnOf, Next, Delivers;
    var head, ts, tail := [Call(d.role, Respond)], Transitions(g, s, d), Message(g, s, d);
    TransitionsToAppend(head + ts, tail, role);
    TransitionsToAppend(head, ts, role);
    SingleTransition(head[0], role);
    if ts != [] { TwoTransitions(ts[0], ts[1], role); } else { NoTransitions(ts, role); }
    if tail != [] { SingleTransition(tail[0], role); } else { NoTransitions(tail, role); }
    assert ts == [] || ts == [ts[0], ts[1]];
  }

  lemma SingleTransition(c: Call, role: Role)
    ensures TransitionsTo([c], role) == if c.to == role && c.callback.ObserveTransition? then [c.callback] else []
  {
    assert [c][..0] == [];
  }

  /** Both roles are told exactly the accepted actions, in the same order, each with its own view. */
  lemma {:induction false} BothSeeEveryTransition(g: Game, s: Json, ds: seq<Decision>, role: Role)
    ensures TransitionsTo(Log(g, s, ds), role) == OwedTransitions(g, s, ds, role)
  {
    if ds == [] {
      var o := Opening(g, s);
      assert o == [o[0]] + [o[1]];
      TransitionsToAppend([o[0]], [o[1]], role);
      SingleTransition(o[0], role);
      SingleTransition(o[1], role);
    } else {
      BothSeeEveryTransition(g, s, Front(ds), role);
      TransitionsToAppend(Log(g, s, Front(ds)), CallsOf(g, StateAfter(g, s, Front(ds)), Last(ds)), role);
      DecisionTransitions(g, StateAfter(g, s, Front(ds)), Last(ds), role);
    }
  }

  /** Both roles are owed the same actions by the same actors. */
  lemma {:induction false} SameActionsOwed(g: Game, s: Json, ds: seq<Decision>)
    ensures var a, b := OwedTransitions(g, s, ds, A), OwedTransitions(g, s, ds, B);
      && |a| == |b| == |AcceptedActions(g, s, ds)|
      && forall i :: 0 <= i < |a| ==>
           && a[i].ObserveTransition? && b[i].ObserveTransition?
           && (a[i].actor, a[i].action) == (b[i].actor, b[i].action) == AcceptedActions(g, s, ds)[i]
  {
    if ds != [] { SameActionsOwed(g, s, Front(ds)); }
  }

  /** However a session is cut short, B has seen a prefix of what A has seen, shorter by at most one. */
  lemma {:induction false} CutShort(g: Game, s: Json, ds: seq<Decision>, log: seq<Call>)
    requires log <= Log(g, s, ds)
    ensures TransitionsTo(log, A) <= OwedTransitions(g, s, ds, A)
    ensures TransitionsTo(log, B) <= OwedTransitions(g, s, ds, B)
    ensures |TransitionsTo(log, B)| <= |TransitionsTo(log, A)| <= |TransitionsTo(log, B)| + 1
  {
    if ds == [] {
      OpeningHasNoTransitions(g, s, log);
    } else {
      var earlier, before := Log(g, s, Front(ds)), StateAfter(g, s, Front(ds));
      if |log| <= |earlier| {
        assert log == Log(g, s, ds)[..|log|] == earlier[..|log|];
        CutShort(g, s, Front(ds), log);
      } else {
        assert log == earlier + log[|earlier|..];
        CutInLast(g, s, ds, log[|earlier|..]);
      }
    }
  }

  lemma CutInLast(g: Game, s: Json, ds: seq<Decision>, tail: seq<Call>)
    requires ds != [] && tail != [] && tail <= CallsOf(g, StateAfter(g, s, Front(ds)), Last(ds))
    ensures var log := Log(g, s, Front(ds)) + tail;
      && TransitionsTo(log, A) <= OwedTransitions(g, s, ds, A)
      && TransitionsTo(log, B) <= OwedTransitions(g, s, ds, B)
      && |TransitionsTo(log, B)| <= |TransitionsTo(log, A)| <= |TransitionsTo(log, B)| + 1
  {
    hide CallsOf, TransitionsTo, StateAfter, Log, TurnOf, Next;
    var earlier, before := Log(g, s, Front(ds)), StateAfter(g, s, Front(ds));
    BothSeeEveryTransition(g, s, Front(ds), A);
    BothSeeEveryTransition(g, s, Front(ds), B);
    SameActionsOwed(g, s, Front(ds));
    TransitionsToAppend(earlier, tail, A);
    TransitionsToAppend(earlier, tail, B);
    CutDecision(g, before, Last(ds), tail);
  }

  lemma OpeningHasNoTransitions(g: Game, s: Json, log: seq<Call>)
    requires log <= Opening(g, s)
    ensures TransitionsTo(log, A) == TransitionsTo(log, B) == []
  {
    assert forall c :: c in log ==> c.callback.Start?;
    NoTransitions(log, A);
    NoTransitions(log, B);
  }

  lemma {:induction false} NoTransitions(log: seq<Call>, role: Role)
    requires forall c :: c in log ==> !c.callback.ObserveTransition?
    ensures TransitionsTo(log, role) == []
  {
    if log != [] { NoTransitions(log[..|log| - 1], role); }
  }

  lemma TwoTransitions(c: Call, d: Call, role: Role)
    ensures TransitionsTo([c, d], role) ==
            (if c.to == role && c.callback.ObserveTransition? then [c.callback] else [])
            + (if d.to == role && d.callback.ObserveTransition? then [d.callback] else [])
  {
    assert [c, d] == [c] + [d];
    TransitionsToAppend([c], [d], role);
    SingleTransition(c, role);
    SingleTransition(d, role);
    hide TransitionsTo;
  }

  lemma CutDecision(g: Game, s: Json, d: Decision, tail: seq<Call>)
    requires tail != [] && tail <= CallsOf(g, s, d)
    ensures var owed := (role: Role) => if TurnOf(g, s, d) == Accepted
              then [ObserveTransition(d.role, d.response.action, g.observation(Next(g, s, d), role))] else [];
      && TransitionsTo(tail, A) <= owed(A) && TransitionsTo(tail, B) <= owed(B)
      && |TransitionsTo(tail, B)| <= |TransitionsTo(tail, A)| <= |TransitionsTo(tail, B)| + 1
  {
    var all := CallsOf(g, s, d);
    hide TransitionsTo, TurnOf, Next, Delivers;
    if TurnOf(g, s, d) != Accepted || |tail| == 1 {
      NoTransitions(tail, A);
      NoTransitions(tail, B);
    } else if |tail| == 2 {
      assert tail == [all[0], all[1]];
      TwoTransitions(all[0], all[1], A);
      TwoTransitions(all[0], all[1], B);
    } else {
      forall r: Role ensures TransitionsTo(tail, r) == TransitionsTo(all, r) {
        assert all == tail + all[|tail|..];
        TransitionsToAppend(tail, all[|tail|..], r);
        NoTransitions(all[|tail|..], r);
      }
      DecisionTransitions(g, s, d, A);
      DecisionTransitions(g, s, d, B);
    }
  }

  /** Where a message in the log comes from: decision `i` of the session. */
  ghost predicate MessageAt(g: Game, s: Json, ds: seq<Decision>, p: nat, i: nat)
    requires i < |ds| && p < |Log(g, s, ds)|
  {
    var d, before, log := ds[i], StateAfter(g, s, ds[..i]), Log(g, s, ds);
    && log[p] == Call(d.role.Other(), ObserveMessage(d.role, if d.response.Say? || d.response.ActAndSay? then d.response.text else ""))
    && (d.response.Say? || d.response.ActAndSay?)
    && (d.response.ActAndSay? ==>
          && TurnOf(g, before, d) == Accepted && g.completion(Next(g, before, d)).None?
          && p >= 2 && log[p - 2..p] == Transitions(g, before, d))
  }

  /** A message reaches only the other role; one sent with an action comes right after both roles saw
      that action, and never with a rejected or a completing one. */
  lemma {:induction false} MessagesFollowTheirAction(g: Game, s: Json, ds: seq<Decision>, p: nat)
    requires p < |Log(g, s, ds)| && Log(g, s, ds)[p].callback.ObserveMessage?
    ensures exists i: nat :: i < |ds| && MessageAt(g, s, ds, p, i)
  {
    if ds != [] {
      var earlier, before, d := Log(g, s, Front(ds)), StateAfter(g, s, Front(ds)), Last(ds);
      if p < |earlier| {
        MessagesFollowTheirAction(g, s, Front(ds), p);
        var i: nat :| i < |Front(ds)| && MessageAt(g, s, Front(ds), p, i);
        assert Front(ds)[..i] == ds[..i];
        assert p >= 2 ==> Log(g, s, ds)[p - 2..p] == earlier[p - 2..p];
        assert MessageAt(g, s, ds, p, i);
      } else {
        assert ds[..|ds| - 1] == Front(ds);
        var q := p - |earlier|;
        assert Log(g, s, ds)[p] == CallsOf(g, before, d)[q];
        assert q == 1 + |Transitions(g, before, d)|;
        assert Log(g, s, ds)[p - |Transitions(g, before, d)|..p] == Transitions(g, before, d);
        assert MessageAt(g, s, ds, p, |ds| - 1);
      }
    }
  }

  lemma {:induction false} CountsBounded(g: Game, s: Json, ds: seq<Decision>)
    ensures Count(Turns(g, s, ds), Accepted) + Count(Turns(g, s, ds), Rejected) <= |ds|
    ensures Messages(g, s, ds) + Count(Turns(g, s, ds), Rejected) <= |ds|
  {
    if ds != [] {
      CountsBounded(g, s, Front(ds));
      var turns, turn := Turns(g, s, Front(ds)), TurnOf(g, StateAfter(g, s, Front(ds)), Last(ds));
      SnocTurn(turns, turn, Accepted);
      SnocTurn(turns, turn, Rejected);
    }
  }

  // ----- Learner trajectories -----

  ghost predicate LearnerDecision(capture: Capture, ds: seq<Decision>, n: nat) {
    1 <= n <= |ds| && ds[n - 1].role in capture.learners
  }

  /** Training sessions which did not fail: every learner response is one action. */
  ghost predicate LearnersOnlyAct(capture: Capture, ds: seq<Decision>) {
    forall n :: LearnerDecision(capture, ds, n) ==> ds[n - 1].response.Act?
  }

  /** The step records its learner decision, made in the state reached by the decisions before it. */
  ghost predicate StepMatches(g: Game, capture: Capture, s: Json, ds: seq<Decision>, step: Step) {
    && LearnerDecision(capture, ds, step.decision) && ds[step.decision - 1].response.Act?
    && step == StepOf(g, capture, StateAfter(g, s, ds[..step.decision - 1]), ds[step.decision - 1], step.decision)
  }

  lemma StepMatchesLonger(g: Game, capture: Capture, s: Json, ds: seq<Decision>, step: Step)
    requires ds != [] && StepMatches(g, capture, s, Front(ds), step)
    ensures StepMatches(g, capture, s, ds, step)
  {
    assert Front(ds)[..step.decision - 1] == ds[..step.decision - 1];
  }

  /** Step by step, in decision order, these are exactly the learner's decisions. */
  ghost predicate Records(g: Game, capture: Capture, s: Json, ds: seq<Decision>, t: seq<Step>) {
    && (forall i :: 0 <= i < |t| ==> StepMatches(g, capture, s, ds, t[i]))
    && (forall i, j :: 0 <= i < j < |t| ==> t[i].decision < t[j].decision)
    && Covers(capture, ds, t)
  }

  ghost predicate Covers(capture: Capture, ds: seq<Decision>, t: seq<Step>) {
    forall n :: LearnerDecision(capture, ds, n) ==> exists i :: 0 <= i < |t| && t[i].decision == n
  }

  lemma CoversOneMore(capture: Capture, ds: seq<Decision>, t: seq<Step>, last: seq<Step>)
    requires ds != [] && Covers(capture, Front(ds), t)
    requires LearnerDecision(capture, ds, |ds|) ==> last != [] && last[0].decision == |ds|
    ensures Covers(capture, ds, t + last)
  {
    forall n: nat | LearnerDecision(capture, ds, n) ensures exists i :: 0 <= i < |t + last| && (t + last)[i].decision == n {
      if n < |ds| {
        assert LearnerDecision(capture, Front(ds), n);
        var i :| 0 <= i < |t| && t[i].decision == n;
        assert (t + last)[i].decision == n;
      } else {
        assert (t + last)[|t|].decision == n;
      }
    }
  }

  lemma {:induction false} TrajectoryIsLearnerDecisions(g: Game, capture: Capture, s: Json, ds: seq<Decision>)
    requires LearnersOnlyAct(capture, ds)
    ensures Records(g, capture, s, ds, Trajectory(g, capture, s, ds))
  {
    if ds != [] {
      forall n: nat | LearnerDecision(capture, Front(ds), n) ensures Front(ds)[n - 1].response.Act? {
        assert LearnerDecision(capture, ds, n);
      }
      TrajectoryIsLearnerDecisions(g, capture, s, Front(ds));
      RecordsOneMore(g, capture, s, ds, Trajectory(g, capture, s, Front(ds)));
    }
  }

  lemma RecordsOneMore(g: Game, capture: Capture, s: Json, ds: seq<Decision>, u: seq<Step>)
    requires ds != [] && LearnersOnlyAct(capture, ds) && Records(g, capture, s, Front(ds), u)
    ensures Records(g, capture, s, ds, u + if Last(ds).role in capture.learners && Last(ds).response.Act?
              then [StepOf(g, capture, StateAfter(g, s, Front(ds)), Last(ds), |ds|)] else [])
  {
    var last := if Last(ds).role in capture.learners && Last(ds).response.Act?
      then [StepOf(g, capture, StateAfter(g, s, Front(ds)), Last(ds), |ds|)] else [];
    var t := u + last;
    assert LearnerDecision(capture, ds, |ds|) ==> last != [];
    assert last != [] ==> StepMatches(g, capture, s, ds, last[0]);
    forall i | 0 <= i < |t| ensures StepMatches(g, capture, s, ds, t[i]) {
      if i < |u| { StepMatchesLonger(g, capture, s, ds, u[i]); } else { assert t[i] == last[0]; }
    }
    assert forall i :: 0 <= i < |u| ==> StepMatches(g, capture, s, Front(ds), u[i]);
    CoversOneMore(capture, ds, u, last);
  }

  lemma {:induction false} QuietStretch(g: Game, s: Json, ds: seq<Decision>, m: nat, n: nat)
    requires m <= n <= |ds|
    requires forall i :: m <= i < n ==> TurnOf(g, StateAfter(g, s, ds[..i]), ds[i]) != Accepted
    ensures StateAfter(g, s, ds[..n]) == StateAfter(g, s, ds[..m])
  {
    if m < n {
      QuietStretch(g, s, ds, m, n - 1);
      assert Front(ds[..n]) == ds[..n - 1];
    }
  }

  /** What a learner sees next is what its last step promised, unless some action was accepted in
      between; only accepted steps carry rewards; a rejected step changes nothing. */
  lemma TrajectoryIsContinuous(g: Game, capture: Capture, s: Json, ds: seq<Decision>, i: nat, j: nat)
    requires LearnersOnlyAct(capture, ds)
    requires i < j < |Trajectory(g, capture, s, ds)|
    requires Trajectory(g, capture, s, ds)[i].role == Trajectory(g, capture, s, ds)[j].role
    requires forall n :: (Trajectory(g, capture, s, ds)[i].decision <= n < Trajectory(g, capture, s, ds)[j].decision - 1
                          && n < |ds|) ==> TurnOf(g, StateAfter(g, s, ds[..n]), ds[n]) != Accepted
    ensures Trajectory(g, capture, s, ds)[j].observation == Trajectory(g, capture, s, ds)[i].nextObservation
  {
    TrajectoryIsLearnerDecisions(g, capture, s, ds);
    var t := Trajectory(g, capture, s, ds);
    var m, n := t[i].decision, t[j].decision;
    assert Front(ds[..m]) == ds[..m - 1];
    QuietStretch(g, s, ds, m, n - 1);
  }

  lemma StepsAreConsistent(g: Game, capture: Capture, s: Json, ds: seq<Decision>, i: nat)
    requires LearnersOnlyAct(capture, ds) && OpenUntilLast(g, s, ds)
    requires i < |Trajectory(g, capture, s, ds)|
    ensures var t := Trajectory(g, capture, s, ds);
      && (t[i].rewards.Some? <==> t[i].accepted) && (t[i].rejection.Some? <==> !t[i].accepted)
      && (!t[i].accepted ==> t[i].nextObservation == t[i].observation)
      && (t[i].terminal ==> i == |t| - 1 && t[i].decision == |ds| && g.completion(StateAfter(g, s, ds)).Some?)
  {
    TrajectoryIsLearnerDecisions(g, capture, s, ds);
    var t := Trajectory(g, capture, s, ds);
    var n := t[i].decision;
    if t[i].terminal {
      assert Front(ds[..n]) == ds[..n - 1];
      assert ds[..n][n - 1] == ds[n - 1];
      assert g.completion(StateAfter(g, s, ds[..n])).Some?;
      assert n == |ds| && ds[..n] == ds;
      assert StepMatches(g, capture, s, ds, t[|t| - 1]);
    }
  }

  /** What each step holds, read off the game: the learner's own views of the state before and after its
      decision, its action, how the game took it, and the rewards of that transition. */
  lemma StepsHold(g: Game, capture: Capture, s: Json, ds: seq<Decision>, i: nat)
    requires LearnersOnlyAct(capture, ds) && i < |Trajectory(g, capture, s, ds)|
    ensures var t := Trajectory(g, capture, s, ds)[i];
      && 1 <= t.decision <= |ds|
      && var d, before, after := ds[t.decision - 1], StateAfter(g, s, ds[..t.decision - 1]), StateAfter(g, s, ds[..t.decision]);
         && d.role in capture.learners && d.response == Act(t.action) && t.role == d.role
         && t.observation == g.observation(before, d.role) && t.nextObservation == g.observation(after, d.role)
         && var outcome := g.apply(before, t.action, d.role);
            && (t.accepted <==> outcome.Ok?)
            && after == (if outcome.Ok? then outcome.value else before)
            && t.rejection == (if outcome.Ok? then None else Some(outcome.error))
            && t.rewards == (if outcome.Ok?
                             then Some(capture.reward(before, after, d.role, t.action, g.completion(after))) else None)
            && (t.terminal <==> outcome.Ok? && g.completion(after).Some?)
  {
    TrajectoryIsLearnerDecisions(g, capture, s, ds);
    var t := Trajectory(g, capture, s, ds)[i];
    assert StepMatches(g, capture, s, ds, t);
    var n := t.decision;
    assert Front(ds[..n]) == ds[..n - 1] && Last(ds[..n]) == ds[n - 1];
    hide Trajectory;
  }

  /** How each decision ended: a yield, a message, or an action which the game took or refused. */
  lemma {:induction false} TurnsAre(g: Game, s: Json, ds: seq<Decision>, i: nat)
    requires i < |ds|
    ensures var turn, d, before := Turns(g, s, ds)[i], ds[i], StateAfter(g, s, ds[..i]);
      && (turn == Yielded <==> d.response.Yield?) && (turn == Spoke <==> d.response.Say?)
      && (turn == Accepted <==> (d.response.Act? || d.response.ActAndSay?) && g.apply(before, d.response.action, d.role).Ok?)
      && (turn == Rejected <==> (d.response.Act? || d.response.ActAndSay?) && g.apply(before, d.response.action, d.role).Err?)
  {
    if i == |ds| - 1 {
      assert ds[..i] == Front(ds);
    } else {
      TurnsAre(g, s, Front(ds), i);
      assert Front(ds)[..i] == ds[..i];
    }
  }

  // ----- Everything one role is told -----

  function Told(log: seq<Call>, role: Role): seq<Callback> {
    if log == [] then [] else
      Told(log[..|log| - 1], role) + if log[|log| - 1].to == role then [log[|log| - 1].callback] else []
  }

  /** What one decision tells a role: to respond, when it is the role's turn; an accepted action, with the
      role's own view; and a message of the other role, spoken alone or with an action that is accepted
      and does not complete the game. */
  function ToldIn(g: Game, before: Json, d: Decision, role: Role): seq<Callback> {
    var outcome := if d.response.Act? || d.response.ActAndSay? then g.apply(before, d.response.action, d.role) else Err("");
    (if d.role == role then [Respond] else [])
    + (if outcome.Ok? then [ObserveTransition(d.role, d.response.action, g.observation(outcome.value, role))] else [])
    + (if role == d.role.Other()
          && (d.response.Say? || (d.response.ActAndSay? && outcome.Ok? && g.completion(outcome.value).None?))
       then [ObserveMessage(d.role, d.response.text)] else [])
  }

  function ToldAlong(g: Game, s: Json, ds: seq<Decision>, role: Role): seq<Callback> {
    if ds == [] then [Start(g.observation(s, role))] else
      ToldAlong(g, s, Front(ds), role) + ToldIn(g, StateAfter(g, s, Front(ds)), Last(ds), role)
  }

  lemma {:induction false} ToldAppend(a: seq<Call>, b: seq<Call>, role: Role)
    ensures Told(a + b, role) == Told(a, role) + Told(b, role)
  {
    if b == [] {
      assert a + b == a;
    } else {
      assert (a + b)[..|a + b| - 1] == a + b[..|b| - 1];
      ToldAppend(a, b[..|b| - 1], role);
    }
  }

  lemma ToldOne(c: Call, role: Role)
    ensures Told([c], role) == if c.to == role then [c.callback] else []
  {
    assert [c][..0] == [];
  }

  lemma ToldTwo(c: Call, d: Call, role: Role)
    ensures Told([c, d], role) ==
            (if c.to == role then [c.callback] else []) + (if d.to == role then [d.callback] else [])
  {
    assert [c, d] == [c] + [d];
    ToldAppend([c], [d], role);
    ToldOne(c, role);
    ToldOne(d, role);
    hide Told;
  }

  lemma ToldTransitions(g: Game, s: Json, d: Decision, role: Role)
    ensures Told(Transitions(g, s, d), role) ==
            if TurnOf(g, s, d) == Accepted
            then [ObserveTransition(d.role, d.response.action, g.observation(Next(g, s, d), role))] else []
  {
    var ts := Transitions(g, s, d);
    if TurnOf(g, s, d) == Accepted {
      assert ts == [ts[0], ts[1]];
      ToldTwo(ts[0], ts[1], role);
      hide Told;
    }
  }

  lemma ToldMessage(g: Game, s: Json, d: Decision, role: Role)
    ensures Told(Message(g, s, d), role) ==
            if Delivers(g, s, d) && role == d.role.Other() then [ObserveMessage(d.role, d.response.text)] else []
  {
    if Delivers(g, s, d) {
      ToldOne(Message(g, s, d)[0], role);
      hide Told;
    }
  }

  lemma ToldInIs(g: Game, s: Json, d: Decision, role: Role)
    ensures ToldIn(g, s, d, role) ==
            (if d.role == role then [Respond] else [])
            + (if TurnOf(g, s, d) == Accepted
               then [ObserveTransition(d.role, d.response.action, g.observation(Next(g, s, d), role))] else [])
            + (if Delivers(g, s, d) && role == d.role.Other() then [ObserveMessage(d.role, d.response.text)] else [])
  {
  }

  lemma ToldCalls(g: Game, s: Json, d: Decision, role: Role)
    ensures Told(CallsOf(g, s, d), role) == ToldIn(g, s, d, role)
  {
    hide Told, Transitions, Message, ToldIn, TurnOf, Next, Delivers;
    var head, ts, tail := [Call(d.role, Respond)], Transitions(g, s, d), Message(g, s, d);
    ToldAppend(head + ts, tail, role);
    ToldAppend(head, ts, role);
    ToldOne(head[0], role);
    ToldTransitions(g, s, d, role);
    ToldMessage(g, s, d, role);
    ToldInIs(g, s, d, role);
  }

  /** Each role is told exactly this, in this order: the start with its own view, and then, decision by
      decision, what concerns it. */
  lemma {:induction false} EachRoleIsTold(g: Game, s: Json, ds: seq<Decision>, role: Role)
    ensures Told(Log(g, s, ds), role) == ToldAlong(g, s, ds, role)
  {
    if ds == [] {
      var o := Opening(g, s);
      assert o == [o[0], o[1]];
      ToldTwo(o[0], o[1], role);
      hide Told;
    } else {
      EachRoleIsTold(g, s, Front(ds), role);
      ToldAppend(Log(g, s, Front(ds)), CallsOf(g, StateAfter(g, s, Front(ds)), Last(ds)), role);
      ToldCalls(g, StateAfter(g, s, Front(ds)), Last(ds), role);
      hide Told, CallsOf, ToldIn, StateAfter;
    }
  }

  /** A completed game is announced to both roles, and nothing else closes a session. */
  lemma ClosingIsTold(g: Game, s: Json, role: Role)
    ensures Told(Closing(g, s), role) == if g.completion(s).Some? then [Finish(g.completion(s).value)] else []
  {
    if g.completion(s).Some? {
      var c := Closing(g, s);
      assert c == [c[0], c[1]];
      ToldTwo(c[0], c[1], role);
      hide Told;
    }
  }

  function MessagesIn(told: seq<Callback>): nat {
    if told == [] then 0 else
      MessagesIn(told[..|told| - 1]) + if told[|told| - 1].ObserveMessage? then 1 else 0
  }

  lemma {:induction false} MessagesInAppend(a: seq<Callback>, b: seq<Callback>)
    ensures MessagesIn(a + b) == MessagesIn(a) + MessagesIn(b)
  {
    if b == [] {
      assert a + b == a;
    } else {
      assert (a + b)[..|a + b| - 1] == a + b[..|b| - 1];
      MessagesInAppend(a, b[..|b| - 1]);
    }
  }

  lemma {:induction false} NoMessagesIn(told: seq<Callback>)
    requires forall c :: c in told ==> !c.ObserveMessage?
    ensures MessagesIn(told) == 0
  {
    if told != [] { NoMessagesIn(told[..|told| - 1]); }
  }

  lemma MessagesInDecision(g: Game, s: Json, d: Decision, role: Role)
    ensures MessagesIn(ToldIn(g, s, d, role)) == if Delivers(g, s, d) && role == d.role.Other() then 1 else 0
  {
    var told := ToldIn(g, s, d, role);
    if Delivers(g, s, d) && role == d.role.Other() {
      assert told == told[..|told| - 1] + [told[|told| - 1]];
      NoMessagesIn(told[..|told| - 1]);
    } else {
      NoMessagesIn(told);
    }
  }

  /** The message counter is the number of messages the two roles were told. */
  lemma {:induction false} MessagesAreCounted(g: Game, s: Json, ds: seq<Decision>)
    ensures Messages(g, s, ds) == MessagesIn(ToldAlong(g, s, ds, A)) + MessagesIn(ToldAlong(g, s, ds, B))
  {
    if ds == [] {
      NoMessagesIn(ToldAlong(g, s, ds, A));
      NoMessagesIn(ToldAlong(g, s, ds, B));
    } else {
      var front, before, d := Front(ds), StateAfter(g, s, Front(ds)), Last(ds);
      MessagesAreCounted(g, s, front);
      forall role: Role ensures MessagesIn(ToldAlong(g, s, ds, role)) ==
        MessagesIn(ToldAlong(g, s, front, role)) + if Delivers(g, before, d) && role == d.role.Other() then 1 else 0
      {
        MessagesInAppend(ToldAlong(g, s, front, role), ToldIn(g, before, d, role));
        MessagesInDecision(g, before, d, role);
        hide ToldIn, MessagesIn, Delivers;
      }
      hide ToldIn, MessagesIn, Delivers, ToldAlong, StateAfter;
    }
  }
}
