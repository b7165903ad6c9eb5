/** Model of the activation schedules in rust-server/src/agent_experiment.rs:
    `AlternateEveryResponse` and `AlternateAfterAction`. */
module Schedules {
  import opened Wrappers

  /** `Registered` stands for any schedule compiled in by the experiment's author. */
  datatype Kind = AlternateEveryResponse | AlternateAfterAction | Registered

  /** How one decision ended, as the schedule sees it. */
  datatype Turn = Yielded | Spoke | Accepted | Rejected

  /** `role` is the next role, none once the session is quiescent. */
  datatype Position = Position(role: Option<Role>, previousYield: Option<Role>)

  function Advance(kind: Kind, role: Role, previousYield: Option<Role>, turn: Turn): Position {
    if turn == Yielded then
      if previousYield == Some(role.Other()) then Position(None, previousYield)
      else Position(Some(role.Other()), Some(role))
    else if kind == AlternateAfterAction && turn != Accepted then Position(Some(role), None)
    else Position(Some(role.Other()), None)
  }

  /** One schedule object of a session. */
  class Schedule {
    const kind: Kind
    const initial: Role
    var previousYield: Option<Role>

    constructor (kind: Kind, initial: Role)
      ensures this.kind == kind && this.initial == initial && previousYield == None
    {
      this.kind, this.initial, previousYield := kind, initial, None;
    }

    method Next(previous: Role, turn: Turn) returns (next: Option<Role>)
      modifies this
      ensures kind != Registered ==> Position(next, previousYield) == Advance(kind, previous, old(previousYield), turn)
    {
      match kind {
        case Registered =>
          next, previousYield := *, *;
        case AlternateEveryResponse =>
          if turn == Yielded {
            if previousYield == Some(previous.Other()) { return None; }
            previousYield := Some(previous);
          } else {
            previousYield := None;
          }
          next := Some(previous.Other());
        case AlternateAfterAction =>
          match turn {
            case Yielded =>
              if previousYield == Some(previous.Other()) { return None; }
              previousYield := Some(previous);
              next := Some(previous.Other());
            case Spoke =>
              previousYield := None;
              next := Some(previous);
            case _ =>
              previousYield := None;
              next := if turn == Rejected then Some(previous) else Some(previous.Other());
          }
      }
    }
  }

  // ----- Whole runs -----

  function After(kind: Kind, first: Role, turns: seq<Turn>): Position {
    if turns == [] then Position(Some(first), None) else
      var before := After(kind, first, turns[..|turns| - 1]);
      if before.role.None? then before
      else Advance(kind, before.role.value, before.previousYield, turns[|turns| - 1])
  }

  function Flip(role: Role, n: nat): Role {
    if n == 0 then role else Flip(role, n - 1).Other()
  }

  /** Decisions that hand over: all of them, or only yields and accepted actions. */
  function Handovers(kind: Kind, turns: seq<Turn>): nat {
    if turns == [] then 0 else
      var last := turns[|turns| - 1];
      Handovers(kind, turns[..|turns| - 1])
      + if kind == AlternateAfterAction && (last == Spoke || last == Rejected) then 0 else 1
  }

  ghost predicate TwoYields(turns: seq<Turn>) {
    exists i :: 0 <= i < |turns| - 1 && turns[i] == Yielded == turns[i + 1]
  }

  /** A built-in schedule is quiescent exactly when two consecutive responses were yields. Until
      then decision n goes to the first role flipped once per earlier handover, and a remembered
      yielder is the other role, remembered exactly after a yield. */
  lemma {:induction false} SchedulePosition(kind: Kind, first: Role, turns: seq<Turn>)
    requires kind != Registered
    ensures After(kind, first, turns).role.None? <==> TwoYields(turns)
    ensures !TwoYields(turns) ==> After(kind, first, turns) == Position(
              Some(Flip(first, Handovers(kind, turns))),
              if turns != [] && turns[|turns| - 1] == Yielded then Some(Flip(first, Handovers(kind, turns)).Other()) else None)
  {
    if turns != [] {
      var front, last := turns[..|turns| - 1], turns[|turns| - 1];
      SchedulePosition(kind, first, front);
      assert TwoYields(front) ==> TwoYields(turns) by {
        if TwoYields(front) {
          var i :| 0 <= i < |front| - 1 && front[i] == Yielded == front[i + 1];
          assert turns[i] == front[i] && turns[i + 1] == front[i + 1];
        }
      }
      if !TwoYields(front) {
        if front != [] && front[|front| - 1] == Yielded && last == Yielded {
          assert turns[|front| - 1] == Yielded == turns[|front| - 1 + 1];
        } else {
          forall i | 0 <= i < |turns| - 1 ensures !(turns[i] == Yielded == turns[i + 1]) {
            if i < |front| - 1 { assert front[i] == turns[i] && front[i + 1] == turns[i + 1]; }
          }
        }
      }
    }
  }

  /** Strict alternation: decision n goes to the first role flipped n times. */
  lemma {:induction false} EveryResponseHandsOver(turns: seq<Turn>)
    ensures Handovers(AlternateEveryResponse, turns) == |turns|
  {
    if turns != [] { EveryResponseHandsOver(turns[..|turns| - 1]); }
  }
}
