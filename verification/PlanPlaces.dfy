/** What each plan of a plan set is and where it stands, read off the request: `plan_set` in
    rust-server/src/agent_experiment.rs. */
module PlanPlaces {
  import opened Wrappers
  import opened PlanSet

  function Legs(req: Request): nat {
    if req.mirrorRoles && req.seats.playerA != req.seats.playerB then 2 else 1
  }

  /** The request has this scenario, seed, repetition and leg. */
  predicate InRequest(req: Request, i: nat, j: nat, r: nat, l: nat) {
    i < |req.scenarios| && j < |req.scenarios[i].seeds| && r < req.scenarios[i].repetitions && l < Legs(req)
  }

  /** All plans of earlier scenarios come first, then those of earlier seeds, then earlier repetitions. */
  function Place(req: Request, i: nat, j: nat, r: nat, l: nat): nat
    requires i < |req.scenarios|
  {
    PlanCount(req, i) + InScenario(req, i, j, r, l)
  }

  function InScenario(req: Request, i: nat, j: nat, r: nat, l: nat): nat
    requires i < |req.scenarios|
  {
    (j * req.scenarios[i].repetitions + r) * Legs(req) + l
  }

  /** The named agent in this role, with the checkpoint it is overridden with or else configured with. */
  predicate SeatIs(req: Request, seat: SeatIdentity, name: string, role: Role) {
    && seat.name == name && seat.role == role
    && (name in req.agents ==>
          && seat.factory == req.agents[name].factory && seat.fingerprint == req.agents[name].fingerprint
          && (name in req.overrides ==> seat.checkpoint == Some(req.overrides[name]))
          && (name !in req.overrides ==> seat.checkpoint == req.agents[name].checkpoint))
  }

  /** The plan of this scenario, seed, repetition and leg; the mirrored leg swaps the seats. */
  predicate PlanIs(req: Request, p: SessionPlan, i: nat, j: nat, r: nat, l: nat)
    requires InRequest(req, i, j, r, l)
  {
    var s := req.scenarios[i];
    && p.scenario == p.id.scenario == s.name && p.config == s.config
    && p.gameSeed == p.id.gameSeed == s.seeds[j] && p.repetition == p.id.repetition == r
    && p.leg == p.id.leg == (if l == 0 then Original else Mirrored)
    && p.id.phase == req.phase && p.id.phaseIndex == req.phaseIndex && p.id.header == req.header
    && SeatIs(req, p.id.seatA, if l == 0 then req.seats.playerA else req.seats.playerB, A)
    && SeatIs(req, p.id.seatB, if l == 0 then req.seats.playerB else req.seats.playerA, B)
  }

  lemma LegAt(req: Request, i: nat, j: nat, r: nat, l: nat, n: nat)
    requires InRequest(req, i, j, r, l) && l < n <= |Assignments(req)|
    ensures PlanIs(req, LegPlans(req, req.scenarios[i], req.scenarios[i].seeds[j], r, n)[l], i, j, r, l)
    decreases n
  {
    if l < n - 1 { LegAt(req, i, j, r, l, n - 1); }
  }

  lemma Distribute(a: nat, b: nat, c: nat)
    ensures (a + b) * c == a * c + b * c
  {
  }

  lemma Times(a: nat, b: nat, c: nat)
    requires a < b
    ensures a * c + c <= b * c
  {
    Distribute(a, 1, c);
    Distribute(a + 1, b - a - 1, c);
  }

  lemma {:induction false} RepetitionAt(req: Request, i: nat, j: nat, r: nat, l: nat, n: nat)
    requires InRequest(req, i, j, r, l) && r < n
    ensures var plans := RepetitionPlans(req, req.scenarios[i], req.scenarios[i].seeds[j], n);
      |plans| == n * Legs(req) && r * Legs(req) + l < |plans| && PlanIs(req, plans[r * Legs(req) + l], i, j, r, l)
    decreases n
  {
    hide PlanIs, FromRequest, LegPlans;
    var s, legs := req.scenarios[i], Legs(req);
    var front := RepetitionPlans(req, s, s.seeds[j], n - 1);
    RepetitionPlansFrom(req, s, s.seeds[j], n - 1);
    assert |Assignments(req)| == legs;
    hide Legs, Assignments;
    Distribute(n - 1, 1, legs);
    Times(r, n, legs);
    if r < n - 1 {
      RepetitionAt(req, i, j, r, l, n - 1);
    } else {
      LegAt(req, i, j, r, l, legs);
      assert RepetitionPlans(req, s, s.seeds[j], n)[|front| + l] == LegPlans(req, s, s.seeds[j], r, legs)[l];
    }
  }

  lemma {:induction false} SeedAt(req: Request, i: nat, j: nat, r: nat, l: nat, n: nat)
    requires InRequest(req, i, j, r, l) && j < n <= |req.scenarios[i].seeds|
    ensures var plans, k := SeedPlans(req, req.scenarios[i], n), InScenario(req, i, j, r, l);
      k < |plans| && PlanIs(req, plans[k], i, j, r, l)
    decreases n
  {
    hide PlanIs, RepetitionPlans, FromRequest;
    var s, legs := req.scenarios[i], Legs(req);
    var front := SeedPlans(req, s, n - 1);
    SeedPlansFrom(req, s, n - 1);
    assert |Assignments(req)| == legs;
    hide Legs, Assignments;
    Distribute(j * s.repetitions, r, legs);
    if j < n - 1 {
      SeedAt(req, i, j, r, l, n - 1);
    } else {
      RepetitionAt(req, i, j, r, l, s.repetitions);
      assert SeedPlans(req, s, n)[|front| + (r * legs + l)] == RepetitionPlans(req, s, s.seeds[j], s.repetitions)[r * legs + l];
    }
  }

  lemma {:induction false} ScenarioAt(req: Request, i: nat, j: nat, r: nat, l: nat, n: nat)
    requires InRequest(req, i, j, r, l) && i < n <= |req.scenarios|
    ensures var plans, k := ScenarioPlans(req, n), Place(req, i, j, r, l);
      k < |plans| && PlanIs(req, plans[k], i, j, r, l)
    decreases n
  {
    hide PlanIs, InScenario, FromRequest, PlanCount, SeedPlans;
    var front := ScenarioPlans(req, n - 1);
    ScenarioPlansFrom(req, n - 1);
    if i < n - 1 {
      ScenarioAt(req, i, j, r, l, n - 1);
    } else {
      var s := req.scenarios[i];
      SeedAt(req, i, j, r, l, |s.seeds|);
      assert ScenarioPlans(req, n)[|front| + InScenario(req, i, j, r, l)] == SeedPlans(req, s, |s.seeds|)[InScenario(req, i, j, r, l)];
    }
  }

  /** Every scenario, seed, repetition and leg of the request has its plan, at its place. */
  lemma PlanAt(req: Request, i: nat, j: nat, r: nat, l: nat)
    requires InRequest(req, i, j, r, l)
    ensures Place(req, i, j, r, l) < |Expand(req)| && PlanIs(req, Expand(req)[Place(req, i, j, r, l)], i, j, r, l)
  {
    hide PlanIs, Place, ScenarioPlans;
    ScenarioAt(req, i, j, r, l, |req.scenarios|);
  }

  lemma Divide(k: nat, n: nat, c: nat)
    requires k < n * c
    ensures c > 0 && k / c < n && k == (k / c) * c + k % c
  {
    if k / c >= n { Times(n - 1, k / c, c); }
  }

  lemma {:induction false} PlaceInScenarios(req: Request, k: nat, n: nat) returns (i: nat, j: nat, r: nat, l: nat)
    requires n <= |req.scenarios| && k < PlanCount(req, n)
    ensures InRequest(req, i, j, r, l) && k == Place(req, i, j, r, l)
  {
    if k < PlanCount(req, n - 1) {
      i, j, r, l := PlaceInScenarios(req, k, n - 1);
    } else {
      i := n - 1;
      var s, legs, rest := req.scenarios[i], Legs(req), k - PlanCount(req, n - 1);
      Divide(rest, |s.seeds| * s.repetitions, legs);
      var q := rest / legs;
      Divide(q, |s.seeds|, s.repetitions);
      j, r, l := q / s.repetitions, q % s.repetitions, rest % legs;
    }
  }

  /** The plan set holds nothing else: every position is the place of a scenario, seed, repetition and leg. */
  lemma EveryPlanHasItsPlace(req: Request, k: nat) returns (i: nat, j: nat, r: nat, l: nat)
    requires k < |Expand(req)|
    ensures InRequest(req, i, j, r, l) && k == Place(req, i, j, r, l) && PlanIs(req, Expand(req)[k], i, j, r, l)
  {
    ExpansionShape(req);
    hide PlanIs, Place, ScenarioPlans, PlanCount;
    i, j, r, l := PlaceInScenarios(req, k, |req.scenarios|);
    PlanAt(req, i, j, r, l);
  }

  // ----- Seeds of the seats -----

  ghost predicate InSeats(p: SessionPlan, seat: SeatIdentity) { seat == p.id.seatA || seat == p.id.seatB }

  lemma SeatSeed(req: Request, p: SessionPlan, seat: SeatIdentity)
    requires p in Expand(req) && InSeats(p, seat)
    ensures seat == SeatFor(req, seat.name, seat.role, p.gameSeed, p.repetition, p.leg)
  {
    ScenarioPlansFrom(req, |req.scenarios|);
    assert FromRequest(req, p);
    hide Expand, ScenarioPlans;
  }

  /** The seeds of two seats are equal only for the same agent in the same role, game seed, repetition and
      leg. */
  lemma SeatSeedsDiffer(req: Request, p: SessionPlan, q: SessionPlan, x: SeatIdentity, y: SeatIdentity)
    requires p in Expand(req) && q in Expand(req) && InSeats(p, x) && InSeats(q, y) && x.seed == y.seed
    ensures x.name == y.name && x.role == y.role
    ensures p.gameSeed == q.gameSeed && p.repetition == q.repetition && p.leg == q.leg
  {
    SeatSeed(req, p, x);
    SeatSeed(req, q, y);
    hide Expand;
    var a, b := x.seed, y.seed;
    assert a[2] == b[2] && a[3] == b[3] && a[4] == b[4] && a[5] == b[5] && a[6] == b[6];
  }
}
