/** Model of plan expansion in rust-server/src/agent_experiment.rs: `plan_set`, `resolve_seat`,
    `configured_factory` and the input hashed by `derive_seed`.
    Hashes are collision free: a plan ID is its identity document (with the scenario
    configuration canonicalized), and a derived seed is the list of labelled parts it hashes. */
module PlanSet {
  import opened Wrappers
  import opened JsonValues
  import opened BigEndian
  import CanonicalJson

  type CheckpointId = string

  datatype Phase = Evaluation | Training | Validation

  datatype Leg = Original | Mirrored

  datatype Scenario = Scenario(name: string, config: Json, seeds: seq<nat>, repetitions: nat)

  datatype Seats = Seats(playerA: string, playerB: string)

  /** One named agent: its factory, resolved provenance and, for a trainable factory, the
      checkpoint its configured reference resolves to. */
  datatype ConfiguredAgent = ConfiguredAgent(
    factory: string, fingerprint: string, trainable: bool, checkpoint: Option<CheckpointId>)

  /** Everything in the identity document which is the same for all plans of one experiment:
      schema, game, schedule, limits and trace level. */
  datatype Header = Header(schema: string, gameId: string, gameVersion: string, settings: Json)

  datatype Request = Request(
    header: Header,
    agents: map<string, ConfiguredAgent>,
    phase: Phase,
    phaseIndex: nat,
    scenarios: seq<Scenario>,
    seats: Seats,
    mirrorRoles: bool,
    overrides: map<string, CheckpointId>)

  datatype SeedPart = TextPart(text: string) | NumberPart(number: nat)

  datatype SeatIdentity = SeatIdentity(
    name: string, factory: string, fingerprint: string,
    checkpoint: Option<CheckpointId>, role: Role, seed: seq<SeedPart>)

  datatype PlanId = PlanId(
    phase: Phase, phaseIndex: nat, header: Header, scenario: string, config: Json,
    gameSeed: nat, repetition: nat, leg: Leg, seatA: SeatIdentity, seatB: SeatIdentity)

  datatype SessionPlan = SessionPlan(
    id: PlanId, scenario: string, config: Json, gameSeed: nat, repetition: nat, leg: Leg)

  datatype Assignment = Assignment(playerA: string, playerB: string, leg: Leg)

  datatype PlanError = UnresolvedSeat | DuplicatePlan

  // ----- Seats -----

  /** `configured_factory` succeeds: a static factory takes no checkpoint, a trainable one needs one. */
  predicate Resolvable(req: Request, name: string) {
    && name in req.agents
    && var agent := req.agents[name];
       if agent.trainable then name in req.overrides || agent.checkpoint.Some?
       else agent.checkpoint.None? && name !in req.overrides
  }

  function SeatFor(req: Request, name: string, role: Role, gameSeed: nat, repetition: nat, leg: Leg): SeatIdentity {
    var seed := [TextPart(req.header.schema), TextPart(req.header.gameId), TextPart(name),
                 TextPart(if role == A then "A" else "B"), NumberPart(gameSeed), NumberPart(repetition),
                 TextPart(if leg == Original then "original" else "mirrored")];
    if name !in req.agents then SeatIdentity(name, "", "", None, role, seed) else
      var agent := req.agents[name];
      SeatIdentity(name, agent.factory, agent.fingerprint,
                   if name in req.overrides then Some(req.overrides[name]) else agent.checkpoint, role, seed)
  }

  function Assignments(req: Request): (r: seq<Assignment>)
    ensures 1 <= |r| <= 2 && r[0].leg == Original && (|r| == 2 ==> r[1].leg == Mirrored)
  {
    var seats := req.seats;
    [Assignment(seats.playerA, seats.playerB, Original)] +
    if req.mirrorRoles && seats.playerA != seats.playerB
    then [Assignment(seats.playerB, seats.playerA, Mirrored)] else []
  }

  predicate AllResolvable(req: Request) {
    Resolvable(req, req.seats.playerA) && Resolvable(req, req.seats.playerB)
  }

  function MakePlan(req: Request, scenario: Scenario, gameSeed: nat, repetition: nat, a: Assignment): SessionPlan {
    var id := PlanId(req.phase, req.phaseIndex, req.header, scenario.name,
                     CanonicalJson.Canonical(scenario.config), gameSeed, repetition, a.leg,
                     SeatFor(req, a.playerA, A, gameSeed, repetition, a.leg),
                     SeatFor(req, a.playerB, B, gameSeed, repetition, a.leg));
    SessionPlan(id, scenario.name, scenario.config, gameSeed, repetition, a.leg)
  }

  // ----- Expansion: scenarios, then seeds, then repetitions, then legs -----

  function LegPlans(req: Request, s: Scenario, seed: nat, rep: nat, n: nat): (r: seq<SessionPlan>)
    requires n <= |Assignments(req)|
    ensures |r| == n
  {
    if n == 0 then [] else LegPlans(req, s, seed, rep, n - 1) + [MakePlan(req, s, seed, rep, Assignments(req)[n - 1])]
  }

  function RepetitionPlans(req: Request, s: Scenario, seed: nat, n: nat): seq<SessionPlan> {
    if n == 0 then [] else
      RepetitionPlans(req, s, seed, n - 1) + LegPlans(req, s, seed, n - 1, |Assignments(req)|)
  }

  function SeedPlans(req: Request, s: Scenario, n: nat): seq<SessionPlan>
    requires n <= |s.seeds|
  {
    if n == 0 then [] else SeedPlans(req, s, n - 1) + RepetitionPlans(req, s, s.seeds[n - 1], s.repetitions)
  }

  function ScenarioPlans(req: Request, n: nat): seq<SessionPlan>
    requires n <= |req.scenarios|
  {
    if n == 0 then [] else
      ScenarioPlans(req, n - 1) + SeedPlans(req, req.scenarios[n - 1], |req.scenarios[n - 1].seeds|)
  }

  function Expand(req: Request): seq<SessionPlan> {
    ScenarioPlans(req, |req.scenarios|)
  }

  ghost predicate HasDuplicateId(plans: seq<SessionPlan>) {
    exists i, j :: 0 <= i < j < |plans| && plans[i].id == plans[j].id
  }

  /** The innermost loop of `plan_set`: one plan per role assignment. */
  method PlanLegs(req: Request, scenario: Scenario, seed: nat, repetition: nat)
    returns (r: Result<seq<SessionPlan>, PlanError>)
    ensures r == if AllResolvable(req) then Ok(LegPlans(req, scenario, seed, repetition, |Assignments(req)|))
                 else Err(UnresolvedSeat)
  {
    var assignments := Assignments(req);
    var plans := [];
    for l := 0 to |assignments|
      invariant plans == LegPlans(req, scenario, seed, repetition, l)
      invariant l > 0 ==> AllResolvable(req)
    {
      var a := assignments[l];
      if !Resolvable(req, a.playerA) || !Resolvable(req, a.playerB) { return Err(UnresolvedSeat); }
      plans := plans + [MakePlan(req, scenario, seed, repetition, a)];
    }
    r := Ok(plans);
  }

  lemma NoDuplicateInNothing()
    ensures !HasDuplicateId([])
  {
  }

  /** `plan_set`: four nested loops, then the duplicate check over a growing ID set. */
  method ComputePlanSet(req: Request) returns (r: Result<seq<SessionPlan>, PlanError>)
    ensures AllResolvable(req) ==>
              r == if HasDuplicateId(Expand(req)) then Err(DuplicatePlan) else Ok(Expand(req))
    ensures !AllResolvable(req) ==> r == if Expand(req) == [] then Ok([]) else Err(UnresolvedSeat)
    ensures r.Ok? ==> r.value == Expand(req) && !HasDuplicateId(Expand(req))
  {
    hide LegPlans, Assignments, MakePlan, HasDuplicateId, Resolvable;
    NoDuplicateInNothing();
    var plans := [];
    for i := 0 to |req.scenarios|
      invariant plans == ScenarioPlans(req, i) && (AllResolvable(req) || plans == [])
    {
      var scenario := req.scenarios[i];
      ghost var before := plans;
      for j := 0 to |scenario.seeds|
        invariant plans == before + SeedPlans(req, scenario, j) && (AllResolvable(req) || plans == [])
      {
        ghost var earlier := plans;
        for repetition := 0 to scenario.repetitions
          invariant plans == earlier + RepetitionPlans(req, scenario, scenario.seeds[j], repetition)
          invariant AllResolvable(req) || plans == []
        {
          SomethingToPlan(req, i, |req.scenarios|);
          var legs :- PlanLegs(req, scenario, scenario.seeds[j], repetition);
          assert plans + legs == earlier + (RepetitionPlans(req, scenario, scenario.seeds[j], repetition) + legs);
          plans := plans + legs;
        }
        assert plans == before + (SeedPlans(req, scenario, j)
                                  + RepetitionPlans(req, scenario, scenario.seeds[j], scenario.repetitions));
      }
    }
    var duplicate := FindDuplicateId(plans);
    r := if duplicate then Err(DuplicatePlan) else Ok(plans);
  }

  /** A scenario with a seed and a repetition has at least one plan. */
  lemma {:induction false} SomethingToPlan(req: Request, i: nat, n: nat)
    requires i < n <= |req.scenarios| && req.scenarios[i].seeds != [] && req.scenarios[i].repetitions > 0
    ensures ScenarioPlans(req, n) != []
  {
    if i < n - 1 {
      SomethingToPlan(req, i, n - 1);
    } else {
      var s := req.scenarios[i];
      SeedPlansFrom(req, s, |s.seeds|);
      assert |s.seeds| * s.repetitions * |Assignments(req)| > 0;
    }
  }

  /** The final pass of `plan_set`, inserting every ID into one set. */
  method FindDuplicateId(plans: seq<SessionPlan>) returns (found: bool)
    ensures found <==> HasDuplicateId(plans)
  {
    var ids := {};
    for i := 0 to |plans|
      invariant forall id :: id in ids <==> exists x :: 0 <= x < i && plans[x].id == id
      invariant forall x, y :: 0 <= x < y < i ==> plans[x].id != plans[y].id
    {
      if plans[i].id in ids { return true; }
      ids := ids + {plans[i].id};
    }
    found := false;
  }

  // ----- Facts about every expanded plan -----

  ghost predicate FromRequest(req: Request, p: SessionPlan) {
    && (p.leg == Mirrored ==> |Assignments(req)| == 2)
    && p == MakePlan(req, Scenario(p.scenario, p.config, [], 0), p.gameSeed, p.repetition,
                     Assignments(req)[if p.leg == Original then 0 else 1])
  }

  lemma {:induction false} LegPlansFrom(req: Request, s: Scenario, seed: nat, rep: nat, n: nat)
    requires n <= |Assignments(req)|
    ensures forall p :: p in LegPlans(req, s, seed, rep, n) ==> FromRequest(req, p)
  {
    if n > 0 {
      LegPlansFrom(req, s, seed, rep, n - 1);
      assert FromRequest(req, MakePlan(req, s, seed, rep, Assignments(req)[n - 1]));
    }
  }

  lemma {:induction false} RepetitionPlansFrom(req: Request, s: Scenario, seed: nat, n: nat)
    ensures forall p :: p in RepetitionPlans(req, s, seed, n) ==> FromRequest(req, p)
    ensures |RepetitionPlans(req, s, seed, n)| == n * |Assignments(req)|
  {
    if n > 0 {
      RepetitionPlansFrom(req, s, seed, n - 1);
      LegPlansFrom(req, s, seed, n - 1, |Assignments(req)|);
    }
  }

  lemma OneMoreSeed(n: nat, repetitions: nat, legs: nat)
    requires n > 0
    ensures n * repetitions * legs == (n - 1) * repetitions * legs + repetitions * legs
  {
    assert n * repetitions == (n - 1) * repetitions + repetitions;
  }

  lemma {:induction false} SeedPlansFrom(req: Request, s: Scenario, n: nat)
    requires n <= |s.seeds|
    ensures forall p :: p in SeedPlans(req, s, n) ==> FromRequest(req, p)
    ensures |SeedPlans(req, s, n)| == n * s.repetitions * |Assignments(req)|
  {
    if n > 0 {
      SeedPlansFrom(req, s, n - 1);
      RepetitionPlansFrom(req, s, s.seeds[n - 1], s.repetitions);
      OneMoreSeed(n, s.repetitions, |Assignments(req)|);
      hide Assignments, FromRequest, RepetitionPlans;
    }
  }

  /** Sum over the first n scenarios of seeds x repetitions x legs. */
  function PlanCount(req: Request, n: nat): nat
    requires n <= |req.scenarios|
  {
    if n == 0 then 0 else
      PlanCount(req, n - 1)
      + |req.scenarios[n - 1].seeds| * req.scenarios[n - 1].repetitions
        * (if req.mirrorRoles && req.seats.playerA != req.seats.playerB then 2 else 1)
  }

  lemma {:induction false} ScenarioPlansFrom(req: Request, n: nat)
    requires n <= |req.scenarios|
    ensures forall p :: p in ScenarioPlans(req, n) ==> FromRequest(req, p)
    ensures |ScenarioPlans(req, n)| == PlanCount(req, n)
  {
    if n > 0 {
      ScenarioPlansFrom(req, n - 1);
      SeedPlansFrom(req, req.scenarios[n - 1], |req.scenarios[n - 1].seeds|);
    }
  }

  /** One plan per scenario, seed, repetition and leg; each carries the coordinates of its request. */
  lemma ExpansionShape(req: Request)
    ensures |Expand(req)| == PlanCount(req, |req.scenarios|)
    ensures forall p :: p in Expand(req) ==> p.id.phase == req.phase && p.id.phaseIndex == req.phaseIndex
  {
    ScenarioPlansFrom(req, |req.scenarios|);
  }

  ghost predicate SameCoordinates(p: SessionPlan, q: SessionPlan) {
    && p.scenario == q.scenario
    && MeaningOf(p.config) == MeaningOf(q.config)
    && p.gameSeed == q.gameSeed && p.repetition == q.repetition && p.leg == q.leg
  }

  /** Planning fails as a duplicate exactly when two expansion positions agree on scenario name,
      configuration up to object entry order, seed, repetition and leg. */
  lemma DuplicateIffSameCoordinates(req: Request)
    requires forall s :: s in req.scenarios ==> WellFormed(s.config)
    ensures HasDuplicateId(Expand(req)) <==>
            exists i, j :: 0 <= i < j < |Expand(req)| && SameCoordinates(Expand(req)[i], Expand(req)[j])
  {
    var plans := Expand(req);
    ScenarioPlansFrom(req, |req.scenarios|);
    ConfigsWellFormed(req, |req.scenarios|);
    forall i, j | 0 <= i < |plans| && 0 <= j < |plans|
      ensures plans[i].id == plans[j].id <==> SameCoordinates(plans[i], plans[j])
    {
      var p, q := plans[i], plans[j];
      assert p in plans && q in plans;
      assert FromRequest(req, p) && FromRequest(req, q);
      CanonicalJson.CanonicalDecidesMeaning(p.config, q.config);
    }
  }

  lemma {:induction false} ConfigsWellFormed(req: Request, n: nat)
    requires n <= |req.scenarios|
    requires forall s :: s in req.scenarios ==> WellFormed(s.config)
    ensures forall p :: p in ScenarioPlans(req, n) ==> WellFormed(p.config)
  {
    if n > 0 {
      ConfigsWellFormed(req, n - 1);
      SeedConfigs(req, req.scenarios[n - 1], |req.scenarios[n - 1].seeds|);
    }
  }

  lemma {:induction false} SeedConfigs(req: Request, s: Scenario, n: nat)
    requires n <= |s.seeds|
    ensures forall p :: p in SeedPlans(req, s, n) ==> p.config == s.config
  {
    if n > 0 {
      SeedConfigs(req, s, n - 1);
      RepetitionConfigs(req, s, s.seeds[n - 1], s.repetitions);
    }
  }

  lemma {:induction false} RepetitionConfigs(req: Request, s: Scenario, seed: nat, n: nat)
    ensures forall p :: p in RepetitionPlans(req, s, seed, n) ==> p.config == s.config
  {
    if n > 0 {
      RepetitionConfigs(req, s, seed, n - 1);
      LegConfigs(req, s, seed, n - 1, |Assignments(req)|);
    }
  }

  lemma {:induction false} LegConfigs(req: Request, s: Scenario, seed: nat, rep: nat, n: nat)
    requires n <= |Assignments(req)|
    ensures forall p :: p in LegPlans(req, s, seed, rep, n) ==> p.config == s.config
  {
    if n > 0 { LegConfigs(req, s, seed, rep, n - 1); }
  }

  // ----- Seed derivation -----

  /** The bytes `derive_seed` hashes after its constant label: each part behind its length as a u64. */
  function SeedInput(parts: seq<seq<Byte>>): seq<Byte> {
    if parts == [] then [] else Encode(|parts[0]|, 8) + parts[0] + SeedInput(parts[1..])
  }

  /** The hashed bytes determine the list of parts: no two part lists share a hash input.
      A part's length fits a u64, as every Rust length does. */
  lemma {:induction false} SeedInputInjective(p: seq<seq<Byte>>, q: seq<seq<Byte>>)
    requires forall x :: x in p ==> |x| < Pow256(8)
    requires forall x :: x in q ==> |x| < Pow256(8)
    requires SeedInput(p) == SeedInput(q)
    ensures p == q
  {
    if p != [] && q != [] {
      var x, y := SeedInput(p), SeedInput(q);
      assert x[..8] == Encode(|p[0]|, 8) && y[..8] == Encode(|q[0]|, 8);
      DecodeEncode(|p[0]|, 8);
      DecodeEncode(|q[0]|, 8);
      var n := |p[0]|;
      assert x[8..8 + n] == p[0] && y[8..8 + n] == q[0];
      assert x[8 + n..] == SeedInput(p[1..]) && y[8 + n..] == SeedInput(q[1..]);
      SeedInputInjective(p[1..], q[1..]);
      assert p == [p[0]] + p[1..] && q == [q[0]] + q[1..];
    }
  }
}
