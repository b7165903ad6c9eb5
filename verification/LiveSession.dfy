/** Model of one live session in rust-server/src/app.rs: `submit_action`, `maybe_start_game` and
    `abandon_session` under the session transition lock, and `expire_live_session`, which does not
    take it. Every await between a read, a durable commit and a memory write is a separate step,
    so the runs below are all interleavings of any number of calls by humans and agents.
    A durable transaction is all or nothing; a call refused by a check changes nothing and is no
    step. */
module LiveSession {
  import opened Wrappers
  import opened JsonValues
  import opened SessionScript

  /** One accepted action; `stored` is the game state kept with it. */
  datatype Record = Record(actor: Role, action: Json, stored: Json, completes: bool)

  /** Who holds the transition lock, and how far it has come. */
  datatype Holder =
    | Free
    | Submitting(record: Record)
    | Writing(record: Record, recorded: bool)
    | Starting
    | StartWriting
    | Leaving
    | LeaveWriting

  datatype Live = Live(
    // durable
    durable: Lifecycle,
    log: seq<Record>,
    // in memory; a removed session is not present
    present: bool,
    lifecycle: Lifecycle,
    state: Json,
    ready: bool,
    paused: bool,
    holder: Holder,
    checkedExpiries: nat,
    pendingExpiry: bool,
    expired: bool,
    // history: actions acknowledged without a durable record, and starts so far
    lost: seq<Record>,
    durableStarts: nat,
    starts: nat,
    revived: bool)

  datatype Event =
    | SubmitBegin(actor: Role, action: Json)
    | SubmitAbort
    | SubmitCommit(ok: bool)
    | SubmitWrite
    | StartBegin
    | StartCommit(ok: bool)
    | StartWrite
    | LeaveBegin
    | LeaveCommit(ok: bool)
    | LeaveWrite
    | ExpireCheck
    | ExpireCommit(ok: bool)
    | ExpireWrite
    | Presence(ready: bool, paused: bool)
    | Remove

  function Init(s0: Json): Live {
    Live(Forming, [], true, Forming, s0, false, false, Free, 0, false, false, [], 0, 0, false)
  }

  predicate Enabled(g: Game, s: Live, e: Event) {
    match e
    case SubmitBegin(actor, action) =>
      && s.holder.Free? && s.present && s.lifecycle == Running && !s.paused && s.ready
      && g.apply(s.state, action, actor).Ok?
    case SubmitAbort => s.holder.Submitting?
    case SubmitCommit(_) => s.holder.Submitting?
    case SubmitWrite => s.holder.Writing?
    case StartBegin => s.holder.Free? && s.present && s.lifecycle == Forming && s.ready
    case StartCommit(_) => s.holder.Starting?
    case StartWrite => s.holder.StartWriting?
    case LeaveBegin => s.holder.Free? && s.present && s.lifecycle != Ended
    case LeaveCommit(_) => s.holder.Leaving?
    case LeaveWrite => s.holder.LeaveWriting?
    case ExpireCheck => s.present && s.lifecycle != Ended
    case ExpireCommit(_) => s.checkedExpiries > 0
    case ExpireWrite => s.pendingExpiry
    case Presence(_, _) => s.present
    case Remove => s.present && (s.lifecycle == Ended || s.expired)
  }

  function Step(g: Game, s: Live, e: Event): Live
    requires Enabled(g, s, e)
  {
    match e
    case SubmitBegin(actor, action) =>
      var after := g.apply(s.state, action, actor).value;
      s.(holder := Submitting(Record(actor, action, after, g.completion(after).Some?)))
    case SubmitAbort => s.(holder := Free)
    case SubmitCommit(ok) =>
      var r := s.holder.record;
      if !ok then s.(holder := Free)
      else if s.durable == Ended then s.(holder := Writing(r, false))
      else s.(log := s.log + [r], durable := if r.completes then Ended else s.durable, holder := Writing(r, true))
    case SubmitWrite =>
      var r, recorded := s.holder.record, s.holder.recorded;
      if !s.present then s.(holder := Free)
      else s.(state := r.stored, lifecycle := if r.completes then Ended else s.lifecycle,
              lost := if recorded then s.lost else s.lost + [r], holder := Free)
    case StartBegin => s.(holder := Starting)
    case StartCommit(ok) =>
      if ok && s.durable == Forming then s.(durable := Running, durableStarts := s.durableStarts + 1, holder := StartWriting)
      else s.(holder := Free)
    case StartWrite =>
      if !s.present then s.(holder := Free)
      else s.(lifecycle := Running, paused := false, starts := s.starts + 1,
              revived := s.revived || s.lifecycle == Ended, holder := Free)
    case LeaveBegin => s.(holder := Leaving)
    case LeaveCommit(ok) =>
      if ok && s.durable != Ended then s.(durable := Ended, holder := LeaveWriting) else s.(holder := Free)
    case LeaveWrite =>
      if s.present then s.(lifecycle := Ended, paused := false, holder := Free) else s.(holder := Free)
    case ExpireCheck => s.(checkedExpiries := s.checkedExpiries + 1)
    case ExpireCommit(ok) =>
      if ok && s.durable != Ended
      then s.(durable := Ended, pendingExpiry := true, checkedExpiries := s.checkedExpiries - 1)
      else s.(checkedExpiries := s.checkedExpiries - 1)
    case ExpireWrite =>
      if s.present then s.(lifecycle := Ended, paused := false, pendingExpiry := false, expired := true)
      else s.(pendingExpiry := false)
    case Presence(ready, paused) => s.(ready := ready, paused := paused)
    case Remove => s.(present := false)
  }

  /** The state after a run, none when some step of it was not enabled. */
  function Run(g: Game, s0: Json, events: seq<Event>): Option<Live> {
    if events == [] then Some(Init(s0)) else
      var before := Run(g, s0, events[..|events| - 1]);
      var e := events[|events| - 1];
      if before.None? || !Enabled(g, before.value, e) then None else Some(Step(g, before.value, e))
  }

  // ----- The fold of accepted actions -----

  /** Replaying the actions from the initial state accepts each and reproduces each stored state. */
  predicate Replays(g: Game, s0: Json, log: seq<Record>) {
    log == [] || (
      var r := log[|log| - 1];
      && Replays(g, s0, log[..|log| - 1])
      && g.apply(FinalState(s0, log[..|log| - 1]), r.action, r.actor) == Ok(r.stored)
      && r.completes == g.completion(r.stored).Some?)
  }

  function FinalState(s0: Json, log: seq<Record>): Json {
    if log == [] then s0 else log[|log| - 1].stored
  }

  /** Only the last action may complete the game. */
  predicate CompletesOnlyAtEnd(log: seq<Record>) {
    forall i :: 0 <= i < |log| - 1 ==> !log[i].completes
  }

  /** All actions the callers were told were accepted, in order, up to the memory state. */
  function Applied(s: Live): seq<Record> {
    if s.holder.Writing? && s.holder.recorded && s.log != [] then s.log[..|s.log| - 1] else s.log + s.lost
  }

  predicate LastCompletes(log: seq<Record>) {
    log != [] && log[|log| - 1].completes
  }

  /** The log, the lost actions and the memory state. */
  ghost predicate StateInv(g: Game, s0: Json, s: Live) {
    var all := s.log + s.lost;
    && Replays(g, s0, all) && CompletesOnlyAtEnd(all)
    && (s.present ==> s.state == FinalState(s0, Applied(s)))
    && (s.holder.Submitting? || (s.holder.Writing? && !s.holder.recorded) ==>
          Replays(g, s0, all + [s.holder.record]) && CompletesOnlyAtEnd(all + [s.holder.record]))
    && (s.holder.Writing? && s.holder.recorded ==>
          s.lost == [] && s.log != [] && s.log[|s.log| - 1] == s.holder.record)
    && (s.present && s.holder.Free? && LastCompletes(all) ==> s.lifecycle == Ended)
    && (s.holder.Leaving? || s.holder.LeaveWriting? ==> !LastCompletes(all))
  }

  /** A session is durably started at most once, and then started in memory at most once. */
  ghost predicate StartsInv(s: Live) {
    && (s.durable == Forming ==> s.durableStarts == 0) && (s.durable == Running ==> s.durableStarts == 1)
    && s.starts <= s.durableStarts <= 1
    && (s.lifecycle == Forming ==> s.starts == 0) && (s.lifecycle == Running ==> s.starts == 1)
    && (s.log != [] || s.lost != [] || s.holder.Submitting? || s.holder.Writing? ==> s.starts == 1)
    && (s.holder.Starting? || s.holder.StartWriting? ==> s.starts == 0)
    && (s.holder.Starting? ==> s.durableStarts == 0) && (s.holder.StartWriting? ==> s.durableStarts == 1)
    && (s.present && s.lifecycle == Forming && !s.holder.StartWriting? ==> s.durableStarts == 0)
    && (s.revived ==> s.starts == 1)
  }

  /** How the durable end and the end in memory are related. */
  ghost predicate EndsInv(s: Live) {
    && (s.lifecycle == Ended || s.pendingExpiry || s.holder.LeaveWriting? || s.expired || s.lost != [] || s.revived ==>
          s.durable == Ended)
    && (s.holder.Writing? && (!s.holder.recorded || s.holder.record.completes) ==> s.durable == Ended)
    && (s.present && s.durable == Ended ==>
          || s.lifecycle == Ended || s.pendingExpiry || s.holder.LeaveWriting? || s.revived
          || (s.holder.Writing? && s.holder.recorded && s.holder.record.completes))
  }

  lemma SnocRecord(g: Game, s0: Json, all: seq<Record>, r: Record)
    ensures FinalState(s0, all + [r]) == r.stored
    ensures Replays(g, s0, all + [r]) <==>
              && Replays(g, s0, all) && g.apply(FinalState(s0, all), r.action, r.actor) == Ok(r.stored)
              && r.completes == g.completion(r.stored).Some?
    ensures CompletesOnlyAtEnd(all + [r]) <==> CompletesOnlyAtEnd(all) && !LastCompletes(all)
  {
    assert (all + [r])[..|all + [r]| - 1] == all;
    if CompletesOnlyAtEnd(all + [r]) {
      assert forall i :: 0 <= i < |all| ==> (all + [r])[i] == all[i];
    }
  }

  ghost predicate Inv(g: Game, s0: Json, s: Live) { StateInv(g, s0, s) && StartsInv(s) && EndsInv(s) }

  // ----- Every step keeps the invariant -----

  lemma SubmitBeginKeeps(g: Game, s0: Json, s: Live, actor: Role, action: Json)
    requires Inv(g, s0, s) && Enabled(g, s, SubmitBegin(actor, action))
    ensures Inv(g, s0, Step(g, s, SubmitBegin(actor, action)))
  {
    hide Replays, CompletesOnlyAtEnd, FinalState;
    SnocRecord(g, s0, s.log + s.lost, Step(g, s, SubmitBegin(actor, action)).holder.record);
  }

  lemma SubmitAbortKeeps(g: Game, s0: Json, s: Live)
    requires Inv(g, s0, s) && Enabled(g, s, SubmitAbort)
    ensures Inv(g, s0, Step(g, s, SubmitAbort))
  {
    hide Replays, CompletesOnlyAtEnd, FinalState;
    SnocRecord(g, s0, s.log + s.lost, s.holder.record);
  }

  lemma CommitRefused(g: Game, s0: Json, s: Live, ok: bool)
    requires Inv(g, s0, s) && Enabled(g, s, SubmitCommit(ok)) && (!ok || s.durable == Ended)
    ensures Inv(g, s0, Step(g, s, SubmitCommit(ok)))
  {
    hide Replays, CompletesOnlyAtEnd, FinalState, LastCompletes;
    SnocRecord(g, s0, s.log + s.lost, s.holder.record);
  }

  lemma CommitRecorded(g: Game, s0: Json, s: Live)
    requires Inv(g, s0, s) && Enabled(g, s, SubmitCommit(true)) && s.durable != Ended
    ensures Inv(g, s0, Step(g, s, SubmitCommit(true)))
  {
    hide Replays, CompletesOnlyAtEnd, FinalState;
    var all, s' := s.log + s.lost, Step(g, s, SubmitCommit(true));
    assert s'.log + s'.lost == all + [s.holder.record];
    assert s'.log[..|s'.log| - 1] == all;
  }

  lemma SubmitCommitKeeps(g: Game, s0: Json, s: Live, ok: bool)
    requires Inv(g, s0, s) && Enabled(g, s, SubmitCommit(ok))
    ensures Inv(g, s0, Step(g, s, SubmitCommit(ok)))
  {
    hide Inv, Step;
    if ok && s.durable != Ended { CommitRecorded(g, s0, s); } else { CommitRefused(g, s0, s, ok); }
  }

  lemma RecordedLast(s0: Json, log: seq<Record>)
    requires log != []
    ensures FinalState(s0, log) == log[|log| - 1].stored && (LastCompletes(log) <==> log[|log| - 1].completes)
  {
  }

  lemma WriteRecordedState(g: Game, s0: Json, s: Live)
    requires Inv(g, s0, s) && Enabled(g, s, SubmitWrite) && s.holder.recorded
    ensures StateInv(g, s0, Step(g, s, SubmitWrite))
  {
    hide Replays, CompletesOnlyAtEnd, FinalState, LastCompletes, StartsInv, EndsInv;
    assert s.log + s.lost == s.log;
    RecordedLast(s0, s.log);
  }

  lemma WriteRecorded(g: Game, s0: Json, s: Live)
    requires Inv(g, s0, s) && Enabled(g, s, SubmitWrite) && s.holder.recorded
    ensures Inv(g, s0, Step(g, s, SubmitWrite))
  {
    hide StateInv, Replays, CompletesOnlyAtEnd, FinalState, LastCompletes;
    WriteRecordedState(g, s0, s);
  }

  lemma LostOneMore(g: Game, s0: Json, s: Live, r: Record)
    ensures s.log + (s.lost + [r]) == s.log + s.lost + [r]
    ensures FinalState(s0, s.log + (s.lost + [r])) == r.stored
    ensures LastCompletes(s.log + (s.lost + [r])) <==> r.completes
  {
    assert s.log + (s.lost + [r]) == s.log + s.lost + [r];
  }

  lemma WriteLostState(g: Game, s0: Json, s: Live)
    requires Inv(g, s0, s) && Enabled(g, s, SubmitWrite) && !s.holder.recorded
    ensures StateInv(g, s0, Step(g, s, SubmitWrite))
  {
    hide Replays, CompletesOnlyAtEnd, FinalState, LastCompletes, StartsInv, EndsInv;
    LostOneMore(g, s0, s, s.holder.record);
    SnocRecord(g, s0, s.log + s.lost, s.holder.record);
  }

  lemma WriteLost(g: Game, s0: Json, s: Live)
    requires Inv(g, s0, s) && Enabled(g, s, SubmitWrite) && !s.holder.recorded
    ensures Inv(g, s0, Step(g, s, SubmitWrite))
  {
    hide StateInv, Replays, CompletesOnlyAtEnd, FinalState, LastCompletes;
    WriteLostState(g, s0, s);
  }

  lemma SubmitWriteKeeps(g: Game, s0: Json, s: Live)
    requires Inv(g, s0, s) && Enabled(g, s, SubmitWrite)
    ensures Inv(g, s0, Step(g, s, SubmitWrite))
  {
    hide Inv, Step;
    if s.holder.recorded { WriteRecorded(g, s0, s); } else { WriteLost(g, s0, s); }
  }

  lemma StartBeginKeeps(g: Game, s0: Json, s: Live)
    requires Inv(g, s0, s) && Enabled(g, s, StartBegin)
    ensures Inv(g, s0, Step(g, s, StartBegin))
  {
    hide Replays, CompletesOnlyAtEnd, FinalState;
  }

  lemma StartCommitKeeps(g: Game, s0: Json, s: Live, ok: bool)
    requires Inv(g, s0, s) && Enabled(g, s, StartCommit(ok))
    ensures Inv(g, s0, Step(g, s, StartCommit(ok)))
  {
    hide Replays, CompletesOnlyAtEnd, FinalState;
  }

  lemma StartWriteKeeps(g: Game, s0: Json, s: Live)
    requires Inv(g, s0, s) && Enabled(g, s, StartWrite)
    ensures Inv(g, s0, Step(g, s, StartWrite))
  {
    hide Replays, CompletesOnlyAtEnd, FinalState;
  }

  lemma LeaveBeginKeeps(g: Game, s0: Json, s: Live)
    requires Inv(g, s0, s) && Enabled(g, s, LeaveBegin)
    ensures Inv(g, s0, Step(g, s, LeaveBegin))
  {
    hide Replays, CompletesOnlyAtEnd, FinalState, LastCompletes;
  }

  lemma LeaveCommitKeeps(g: Game, s0: Json, s: Live, ok: bool)
    requires Inv(g, s0, s) && Enabled(g, s, LeaveCommit(ok))
    ensures Inv(g, s0, Step(g, s, LeaveCommit(ok)))
  {
    hide Replays, CompletesOnlyAtEnd, FinalState, LastCompletes;
  }

  lemma LeaveWriteKeeps(g: Game, s0: Json, s: Live)
    requires Inv(g, s0, s) && Enabled(g, s, LeaveWrite)
    ensures Inv(g, s0, Step(g, s, LeaveWrite))
  {
    hide Replays, CompletesOnlyAtEnd, FinalState, LastCompletes;
  }

  lemma ExpireCheckKeeps(g: Game, s0: Json, s: Live)
    requires Inv(g, s0, s) && Enabled(g, s, ExpireCheck)
    ensures Inv(g, s0, Step(g, s, ExpireCheck))
  {
    hide Replays, CompletesOnlyAtEnd, FinalState;
  }

  lemma ExpireCommitKeeps(g: Game, s0: Json, s: Live, ok: bool)
    requires Inv(g, s0, s) && Enabled(g, s, ExpireCommit(ok))
    ensures Inv(g, s0, Step(g, s, ExpireCommit(ok)))
  {
    hide Replays, CompletesOnlyAtEnd, FinalState;
  }

  lemma ExpireWriteKeeps(g: Game, s0: Json, s: Live)
    requires Inv(g, s0, s) && Enabled(g, s, ExpireWrite)
    ensures Inv(g, s0, Step(g, s, ExpireWrite))
  {
    hide Replays, CompletesOnlyAtEnd, FinalState, LastCompletes;
  }

  lemma PresenceKeeps(g: Game, s0: Json, s: Live, ready: bool, paused: bool)
    requires Inv(g, s0, s) && Enabled(g, s, Presence(ready, paused))
    ensures Inv(g, s0, Step(g, s, Presence(ready, paused)))
  {
    hide Replays, CompletesOnlyAtEnd, FinalState;
  }

  lemma RemoveKeeps(g: Game, s0: Json, s: Live)
    requires Inv(g, s0, s) && Enabled(g, s, Remove)
    ensures Inv(g, s0, Step(g, s, Remove))
  {
    hide Replays, CompletesOnlyAtEnd, FinalState;
  }

  lemma InvStep(g: Game, s0: Json, s: Live, e: Event)
    requires Inv(g, s0, s) && Enabled(g, s, e)
    ensures Inv(g, s0, Step(g, s, e))
  {
    hide Inv, Enabled, Step;
    match e
    case SubmitBegin(actor, action) => SubmitBeginKeeps(g, s0, s, actor, action);
    case SubmitAbort => SubmitAbortKeeps(g, s0, s);
    case SubmitCommit(ok) => SubmitCommitKeeps(g, s0, s, ok);
    case SubmitWrite => SubmitWriteKeeps(g, s0, s);
    case StartBegin => StartBeginKeeps(g, s0, s);
    case StartCommit(ok) => StartCommitKeeps(g, s0, s, ok);
    case StartWrite => StartWriteKeeps(g, s0, s);
    case LeaveBegin => LeaveBeginKeeps(g, s0, s);
    case LeaveCommit(ok) => LeaveCommitKeeps(g, s0, s, ok);
    case LeaveWrite => LeaveWriteKeeps(g, s0, s);
    case ExpireCheck => ExpireCheckKeeps(g, s0, s);
    case ExpireCommit(ok) => ExpireCommitKeeps(g, s0, s, ok);
    case ExpireWrite => ExpireWriteKeeps(g, s0, s);
    case Presence(ready, paused) => PresenceKeeps(g, s0, s, ready, paused);
    case Remove => RemoveKeeps(g, s0, s);
  }

  lemma {:induction false} InvHolds(g: Game, s0: Json, events: seq<Event>)
    requires Run(g, s0, events).Some?
    ensures Inv(g, s0, Run(g, s0, events).value)
  {
    if events != [] {
      var front := events[..|events| - 1];
      InvHolds(g, s0, front);
      InvStep(g, s0, Run(g, s0, front).value, events[|events| - 1]);
    }
  }

  // ----- Main results -----

  function Actions(log: seq<Record>): seq<(Role, Json)> {
    seq(|log|, i requires 0 <= i < |log| => (log[i].actor, log[i].action))
  }

  lemma {:induction false} LogFolds(g: Game, s0: Json, log: seq<Record>)
    requires Replays(g, s0, log)
    ensures Fold(g, s0, Actions(log)) == Ok(FinalState(s0, log))
  {
    if log != [] {
      LogFolds(g, s0, log[..|log| - 1]);
      assert Actions(log)[..|log| - 1] == Actions(log[..|log| - 1]);
    }
  }

  /** The state stored with the n-th record is the fold of the first n accepted actions. */
  lemma {:induction false} StoredIsFold(g: Game, s0: Json, log: seq<Record>, n: nat)
    requires Replays(g, s0, log) && n < |log|
    ensures Replays(g, s0, log[..n + 1]) && Fold(g, s0, Actions(log[..n + 1])) == Ok(log[n].stored)
  {
    if n == |log| - 1 {
      assert log[..n + 1] == log;
      LogFolds(g, s0, log);
    } else {
      StoredIsFold(g, s0, log[..|log| - 1], n);
      assert log[..|log| - 1][..n + 1] == log[..n + 1];
    }
  }

  /** Whenever the lock is free, the state in memory is the fold of every acknowledged action: those
      in the log, in order, and then the lost ones. No acknowledged action follows a completing one. */
  lemma MemoryIsFoldOfAcknowledged(g: Game, s0: Json, events: seq<Event>)
    requires Run(g, s0, events).Some?
    ensures var s := Run(g, s0, events).value;
      && (s.present && s.holder.Free? ==> Fold(g, s0, Actions(s.log + s.lost)) == Ok(s.state))
      && Fold(g, s0, Actions(s.log)).Ok?
      && CompletesOnlyAtEnd(s.log + s.lost)
  {
    var s := Run(g, s0, events).value;
    InvHolds(g, s0, events);
    LogFolds(g, s0, s.log + s.lost);
    if s.log != [] {
      StoredIsFold(g, s0, s.log + s.lost, |s.log| - 1);
      assert (s.log + s.lost)[..|s.log|] == s.log;
    }
  }

  /** While the lock is held, memory lags behind the log by at most the record being written. */
  lemma MemoryLagsByAtMostOne(g: Game, s0: Json, events: seq<Event>)
    requires Run(g, s0, events).Some? && Run(g, s0, events).value.present
    ensures var s := Run(g, s0, events).value;
      && s.state == FinalState(s0, Applied(s))
      && (Applied(s) == s.log + s.lost || s.log + s.lost == Applied(s) + [s.holder.record])
  {
    InvHolds(g, s0, events);
    var s := Run(g, s0, events).value;
    if s.holder.Writing? && s.holder.recorded { assert s.log + s.lost == s.log[..|s.log| - 1] + [s.holder.record]; }
  }

  /** A commit was attempted after the session had already ended durably; it answers "not recorded",
      which the caller does not look at. */
  ghost predicate Overtaken(g: Game, s0: Json, events: seq<Event>) {
    exists i :: 0 <= i < |events| && OvertakenAt(g, s0, events, i)
  }

  ghost predicate OvertakenAt(g: Game, s0: Json, events: seq<Event>, i: nat)
    requires i < |events|
  {
    && events[i] == SubmitCommit(true)
    && Run(g, s0, events[..i]).Some? && Run(g, s0, events[..i]).value.durable == Ended
  }

  lemma OvertakenOneMore(g: Game, s0: Json, events: seq<Event>)
    requires events != []
    ensures Overtaken(g, s0, events) <==>
            Overtaken(g, s0, events[..|events| - 1]) || OvertakenAt(g, s0, events, |events| - 1)
  {
    var front := events[..|events| - 1];
    forall i | 0 <= i < |front| ensures OvertakenAt(g, s0, events, i) <==> OvertakenAt(g, s0, front, i) {
      assert events[..i] == front[..i];
    }
  }

  predicate Missing(s: Live) { s.lost != [] || (s.holder.Writing? && !s.holder.recorded) }

  lemma MissingCommit(g: Game, s: Live, ok: bool)
    requires Enabled(g, s, SubmitCommit(ok))
    ensures Missing(Step(g, s, SubmitCommit(ok))) <==> Missing(s) || (ok && s.durable == Ended)
  {
  }

  lemma MissingWrite(g: Game, s: Live)
    requires Enabled(g, s, SubmitWrite) && Step(g, s, SubmitWrite).present
    ensures Missing(Step(g, s, SubmitWrite)) <==> Missing(s)
  {
  }

  predicate SameLoss(s: Live, s': Live) {
    && s'.lost == s.lost && (s'.present ==> s.present)
    && (s.holder.Writing? || s'.holder.Writing? ==> s'.holder == s.holder)
  }

  /** The other steps lose nothing and touch no write in progress. */
  lemma LockedStepKeepsLost(g: Game, s: Live, e: Event)
    requires Enabled(g, s, e) && (e.SubmitBegin? || e.SubmitAbort? || e.StartBegin? || e.StartCommit? || e.StartWrite?)
    ensures SameLoss(s, Step(g, s, e))
  {
    match e
    case SubmitBegin(_, _) =>
    case SubmitAbort =>
    case StartBegin =>
    case StartCommit(_) =>
    case StartWrite =>
  }

  lemma LeavingKeepsLost(g: Game, s: Live, e: Event)
    requires Enabled(g, s, e) && (e.LeaveBegin? || e.LeaveCommit? || e.LeaveWrite?)
    ensures SameLoss(s, Step(g, s, e))
  {
    match e
    case LeaveBegin =>
    case LeaveCommit(_) =>
    case LeaveWrite =>
  }

  lemma FreeStepKeepsLost(g: Game, s: Live, e: Event)
    requires Enabled(g, s, e)
    requires e.ExpireCheck? || e.ExpireCommit? || e.ExpireWrite? || e.Presence? || e.Remove?
    ensures SameLoss(s, Step(g, s, e))
  {
    match e
    case ExpireCheck =>
    case ExpireCommit(_) =>
    case ExpireWrite =>
    case Presence(_, _) =>
    case Remove =>
  }

  lemma MissingElsewhere(g: Game, s: Live, e: Event)
    requires Enabled(g, s, e) && !e.SubmitCommit? && Step(g, s, e).present
    ensures Missing(Step(g, s, e)) <==> Missing(s)
  {
    hide Step, Enabled;
    match e
    case SubmitWrite => MissingWrite(g, s);
    case SubmitBegin(_, _) => LockedStepKeepsLost(g, s, e);
    case SubmitAbort => LockedStepKeepsLost(g, s, e);
    case StartBegin => LockedStepKeepsLost(g, s, e);
    case StartCommit(_) => LockedStepKeepsLost(g, s, e);
    case StartWrite => LockedStepKeepsLost(g, s, e);
    case LeaveBegin => LeavingKeepsLost(g, s, e);
    case LeaveCommit(_) => LeavingKeepsLost(g, s, e);
    case LeaveWrite => LeavingKeepsLost(g, s, e);
    case _ => FreeStepKeepsLost(g, s, e);
  }

  lemma MissingStep(g: Game, s: Live, e: Event)
    requires Enabled(g, s, e) && Step(g, s, e).present
    ensures s.present && (Missing(Step(g, s, e)) <==> Missing(s) || (e == SubmitCommit(true) && s.durable == Ended))
  {
    if e.SubmitCommit? { MissingCommit(g, s, e.ok); } else { MissingElsewhere(g, s, e); }
    hide Missing;
  }

  lemma {:induction false} LostOrAboutToBe(g: Game, s0: Json, events: seq<Event>)
    requires Run(g, s0, events).Some? && Run(g, s0, events).value.present
    ensures Overtaken(g, s0, events) <==> Missing(Run(g, s0, events).value)
  {
    if events != [] {
      var front := events[..|events| - 1];
      OvertakenOneMore(g, s0, events);
      MissingStep(g, Run(g, s0, front).value, events[|events| - 1]);
      hide Step, Enabled, Missing;
      LostOrAboutToBe(g, s0, front);
    }
  }

  /** Memory equals the fold of the durable log whenever the lock is free, exactly in the runs where
      no commit came after the durable end; otherwise acknowledged actions are missing from the log. */
  lemma LogIsCompleteIffNeverOvertaken(g: Game, s0: Json, events: seq<Event>)
    requires Run(g, s0, events).Some?
    requires Run(g, s0, events).value.present && Run(g, s0, events).value.holder.Free?
    ensures var s := Run(g, s0, events).value;
      && (!Overtaken(g, s0, events) <==> s.lost == [])
      && (!Overtaken(g, s0, events) ==> Fold(g, s0, Actions(s.log)) == Ok(s.state))
  {
    LostOrAboutToBe(g, s0, events);
    MemoryIsFoldOfAcknowledged(g, s0, events);
    assert Run(g, s0, events).value.log + [] == Run(g, s0, events).value.log;
  }

  /** The session starts at most once, durably and in memory; a memory start follows a durable one. */
  lemma StartsAtMostOnce(g: Game, s0: Json, events: seq<Event>)
    requires Run(g, s0, events).Some?
    ensures var s := Run(g, s0, events).value;
      s.starts <= s.durableStarts <= 1 && (s.log != [] || s.lifecycle == Running ==> s.starts == 1)
  {
    InvHolds(g, s0, events);
  }

  ghost predicate NoExpiry(events: seq<Event>) {
    forall i :: 0 <= i < |events| ==> !events[i].ExpireCommit?
  }

  /** No expiry is in progress and nothing went wrong. */
  predicate Quiet(s: Live) {
    && s.lost == [] && !s.revived && !s.pendingExpiry && !s.expired
    && (s.holder.Submitting? || s.holder.StartWriting? ==> s.durable == Running)
    && (s.holder.StartWriting? ==> s.lifecycle == Forming)
    && (s.holder.Writing? ==> s.holder.recorded)
    && (s.present && s.holder.Free? ==> (s.lifecycle == Ended <==> s.durable == Ended))
  }

  lemma QuietSubmit(g: Game, s: Live, e: Event)
    requires StartsInv(s) && EndsInv(s) && Quiet(s) && Enabled(g, s, e)
    requires e.SubmitBegin? || e.SubmitAbort? || e.SubmitCommit? || e.SubmitWrite?
    ensures Quiet(Step(g, s, e))
  {
  }

  lemma QuietOther(g: Game, s: Live, e: Event)
    requires StartsInv(s) && EndsInv(s) && Quiet(s) && Enabled(g, s, e) && !e.ExpireCommit?
    requires !(e.SubmitBegin? || e.SubmitAbort? || e.SubmitCommit? || e.SubmitWrite?)
    ensures Quiet(Step(g, s, e))
  {
  }

  /** Without lock-free expiry nothing is lost and, when the lock is free, the session has ended in
      memory exactly when it has ended durably. */
  lemma {:induction false} WithoutExpiryNothingIsLost(g: Game, s0: Json, events: seq<Event>)
    requires Run(g, s0, events).Some? && NoExpiry(events)
    ensures Quiet(Run(g, s0, events).value)
  {
    if events != [] {
      var front, e := events[..|events| - 1], events[|events| - 1];
      InvHolds(g, s0, front);
      WithoutExpiryNothingIsLost(g, s0, front);
      var s := Run(g, s0, front).value;
      if e.SubmitBegin? || e.SubmitAbort? || e.SubmitCommit? || e.SubmitWrite? {
        QuietSubmit(g, s, e);
      } else {
        QuietOther(g, s, e);
      }
      hide Step, Enabled, Quiet, StartsInv, EndsInv, StateInv;
    }
  }

  /** An expiry reached memory between the durable start of the session and the start's memory write. */
  ghost predicate EndedWhileStarting(g: Game, s0: Json, events: seq<Event>) {
    exists i :: 0 <= i < |events| && EndsStartAt(g, s0, events, i)
  }

  ghost predicate EndsStartAt(g: Game, s0: Json, events: seq<Event>, i: nat)
    requires i < |events|
  {
    var before := Run(g, s0, events[..i]);
    events[i] == ExpireWrite && before.Some? && before.value.present && before.value.holder.StartWriting?
  }

  lemma EndedWhileStartingOneMore(g: Game, s0: Json, events: seq<Event>)
    requires events != []
    ensures EndedWhileStarting(g, s0, events) <==>
            EndedWhileStarting(g, s0, events[..|events| - 1]) || EndsStartAt(g, s0, events, |events| - 1)
  {
    var front := events[..|events| - 1];
    forall i | 0 <= i < |front| ensures EndsStartAt(g, s0, events, i) <==> EndsStartAt(g, s0, front, i) {
      assert events[..i] == front[..i];
    }
  }

  /** The session came back after its end, or the pending start write is about to bring it back. */
  predicate Returning(s: Live) { s.revived || (s.holder.StartWriting? && s.lifecycle == Ended) }

  lemma ReturningStart(g: Game, s: Live, e: Event)
    requires StartsInv(s) && EndsInv(s) && Enabled(g, s, e) && Step(g, s, e).present
    requires e.StartBegin? || e.StartCommit? || e.StartWrite? || e.ExpireCheck? || e.ExpireCommit? || e.ExpireWrite?
    ensures Returning(Step(g, s, e)) <==> Returning(s) || (e == ExpireWrite && s.present && s.holder.StartWriting?)
  {
    match e
    case StartBegin =>
    case StartCommit(_) =>
    case StartWrite =>
    case ExpireCheck =>
    case ExpireCommit(_) =>
    case ExpireWrite =>
  }

  lemma ReturningSubmit(g: Game, s: Live, e: Event)
    requires StartsInv(s) && Enabled(g, s, e)
    requires e.SubmitBegin? || e.SubmitAbort? || e.SubmitCommit? || e.SubmitWrite?
    ensures Returning(Step(g, s, e)) <==> Returning(s)
  {
    match e
    case SubmitBegin(_, _) =>
    case SubmitAbort =>
    case SubmitCommit(_) =>
    case SubmitWrite =>
  }

  lemma ReturningOther(g: Game, s: Live, e: Event)
    requires StartsInv(s) && Enabled(g, s, e)
    requires e.LeaveBegin? || e.LeaveCommit? || e.LeaveWrite? || e.Presence? || e.Remove?
    ensures Returning(Step(g, s, e)) <==> Returning(s)
  {
    match e
    case LeaveBegin =>
    case LeaveCommit(_) =>
    case LeaveWrite =>
    case Presence(_, _) =>
    case Remove =>
  }

  lemma ReturningStep(g: Game, s: Live, e: Event)
    requires StartsInv(s) && EndsInv(s) && Enabled(g, s, e) && Step(g, s, e).present
    ensures Returning(Step(g, s, e)) <==> Returning(s) || (e == ExpireWrite && s.present && s.holder.StartWriting?)
  {
    hide Step, Enabled, Returning, StartsInv, EndsInv;
    match e
    case SubmitBegin(_, _) => ReturningSubmit(g, s, e);
    case SubmitAbort => ReturningSubmit(g, s, e);
    case SubmitCommit(_) => ReturningSubmit(g, s, e);
    case SubmitWrite => ReturningSubmit(g, s, e);
    case LeaveBegin => ReturningOther(g, s, e);
    case LeaveCommit(_) => ReturningOther(g, s, e);
    case LeaveWrite => ReturningOther(g, s, e);
    case Presence(_, _) => ReturningOther(g, s, e);
    case Remove => ReturningOther(g, s, e);
    case _ => ReturningStart(g, s, e);
  }

  /** A session comes back after its end, or is about to, exactly in the runs in which an expiry reached
      memory between the durable start and its memory write. */
  lemma {:induction false} RevivedIffEndedWhileStarting(g: Game, s0: Json, events: seq<Event>)
    requires Run(g, s0, events).Some? && Run(g, s0, events).value.present
    ensures Returning(Run(g, s0, events).value) <==> EndedWhileStarting(g, s0, events)
  {
    if events != [] {
      var front, e := events[..|events| - 1], events[|events| - 1];
      var s := Run(g, s0, front).value;
      InvHolds(g, s0, front);
      EndedWhileStartingOneMore(g, s0, events);
      MissingStep(g, s, e);
      ReturningStep(g, s, e);
      hide Step, Enabled, Returning, StartsInv, EndsInv, StateInv, Missing;
      RevivedIffEndedWhileStarting(g, s0, front);
    }
  }

  /** While no call holds the lock and no expiry is on its way to memory, a session running in memory
      has durably ended exactly when such an expiry happened. */
  lemma RunsAfterItsEndIff(g: Game, s0: Json, events: seq<Event>)
    requires Run(g, s0, events).Some?
    requires var s := Run(g, s0, events).value; s.present && s.holder.Free? && !s.pendingExpiry && s.lifecycle == Running
    ensures Run(g, s0, events).value.durable == Ended <==> EndedWhileStarting(g, s0, events)
  {
    InvHolds(g, s0, events);
    RevivedIffEndedWhileStarting(g, s0, events);
    hide StateInv, StartsInv;
  }

  // ----- Which actions are accepted -----

  /** Event `i` of the run submitted this action, while the session was running, not paused and ready, and
      the game took it in the state it was then in. */
  ghost predicate SubmittedAt(g: Game, s0: Json, events: seq<Event>, i: nat, r: Record)
    requires i < |events|
  {
    && events[i] == SubmitBegin(r.actor, r.action)
    && Run(g, s0, events[..i]).Some?
    && var s := Run(g, s0, events[..i]).value;
       && s.present && s.lifecycle == Running && !s.paused && s.ready
       && g.apply(s.state, r.action, r.actor) == Ok(r.stored)
       && (r.completes <==> g.completion(r.stored).Some?)
  }

  ghost predicate WasSubmitted(g: Game, s0: Json, events: seq<Event>, r: Record) {
    exists i :: 0 <= i < |events| && SubmittedAt(g, s0, events, i, r)
  }

  lemma StillSubmitted(g: Game, s0: Json, events: seq<Event>, r: Record)
    requires events != [] && WasSubmitted(g, s0, events[..|events| - 1], r)
    ensures WasSubmitted(g, s0, events, r)
  {
    var front := events[..|events| - 1];
    var i :| 0 <= i < |front| && SubmittedAt(g, s0, front, i, r);
    assert events[..i] == front[..i];
    assert SubmittedAt(g, s0, events, i, r);
  }

  /** The records a state holds: in the log, lost, or in the hands of the lock's holder. */
  ghost predicate Holds(s: Live, r: Record) {
    r in s.log || r in s.lost || (s.holder.Submitting? && s.holder.record == r) || (s.holder.Writing? && s.holder.record == r)
  }

  /** No record is brought by this step but `brought`. */
  ghost predicate BringsOnly(s: Live, s': Live, brought: seq<Record>) {
    forall r :: Holds(s', r) ==> Holds(s, r) || r in brought
  }

  lemma CommitRecords(g: Game, s: Live, ok: bool)
    requires Enabled(g, s, SubmitCommit(ok))
    ensures var s' := Step(g, s, SubmitCommit(ok));
      && s.holder.Submitting? && s'.lost == s.lost && (s'.log == s.log || s'.log == s.log + [s.holder.record])
      && (s'.holder.Free? || (s'.holder.Writing? && s'.holder.record == s.holder.record))
  {
  }

  lemma CommitBringsNothing(g: Game, s: Live, ok: bool)
    requires Enabled(g, s, SubmitCommit(ok))
    ensures BringsOnly(s, Step(g, s, SubmitCommit(ok)), [])
  {
    hide Step, Enabled;
    CommitRecords(g, s, ok);
  }

  lemma WriteBringsNothing(g: Game, s: Live)
    requires Enabled(g, s, SubmitWrite)
    ensures BringsOnly(s, Step(g, s, SubmitWrite), [])
  {
  }

  lemma BeginBrings(g: Game, s: Live, actor: Role, action: Json)
    requires Enabled(g, s, SubmitBegin(actor, action))
    ensures Step(g, s, SubmitBegin(actor, action)).holder.Submitting?
    ensures BringsOnly(s, Step(g, s, SubmitBegin(actor, action)), [Step(g, s, SubmitBegin(actor, action)).holder.record])
  {
  }

  /** The other steps leave log and losses as they are, and hold no record which was not held. */
  predicate SameRecords(s: Live, s': Live) {
    && s'.log == s.log && s'.lost == s.lost
    && (s'.holder.Submitting? || s'.holder.Writing? ==> s'.holder == s.holder)
  }

  lemma LockedStepKeepsRecords(g: Game, s: Live, e: Event)
    requires Enabled(g, s, e) && (e.SubmitAbort? || e.StartBegin? || e.StartCommit? || e.StartWrite?)
    ensures SameRecords(s, Step(g, s, e))
  {
    match e
    case SubmitAbort =>
    case StartBegin =>
    case StartCommit(_) =>
    case StartWrite =>
  }

  lemma LeavingKeepsRecords(g: Game, s: Live, e: Event)
    requires Enabled(g, s, e) && (e.LeaveBegin? || e.LeaveCommit? || e.LeaveWrite?)
    ensures SameRecords(s, Step(g, s, e))
  {
    match e
    case LeaveBegin =>
    case LeaveCommit(_) =>
    case LeaveWrite =>
  }

  lemma FreeStepKeepsRecords(g: Game, s: Live, e: Event)
    requires Enabled(g, s, e)
    requires e.ExpireCheck? || e.ExpireCommit? || e.ExpireWrite? || e.Presence? || e.Remove?
    ensures SameRecords(s, Step(g, s, e))
  {
    match e
    case ExpireCheck =>
    case ExpireCommit(_) =>
    case ExpireWrite =>
    case Presence(_, _) =>
    case Remove =>
  }

  lemma SameRecordsBringNothing(s: Live, s': Live)
    requires SameRecords(s, s')
    ensures BringsOnly(s, s', [])
  {
  }

  lemma OthersBringNothing(g: Game, s: Live, e: Event)
    requires Enabled(g, s, e) && !(e.SubmitBegin? || e.SubmitCommit? || e.SubmitWrite?)
    ensures BringsOnly(s, Step(g, s, e), [])
  {
    hide Step, Enabled, BringsOnly, SameRecords;
    match e {
      case SubmitAbort => LockedStepKeepsRecords(g, s, e);
      case StartBegin => LockedStepKeepsRecords(g, s, e);
      case StartCommit(_) => LockedStepKeepsRecords(g, s, e);
      case StartWrite => LockedStepKeepsRecords(g, s, e);
      case LeaveBegin => LeavingKeepsRecords(g, s, e);
      case LeaveCommit(_) => LeavingKeepsRecords(g, s, e);
      case LeaveWrite => LeavingKeepsRecords(g, s, e);
      case _ => FreeStepKeepsRecords(g, s, e);
    }
    SameRecordsBringNothing(s, Step(g, s, e));
  }

  /** A record which a step brings is the one which that step begins to submit. */
  lemma OnlySubmissionsBring(g: Game, s: Live, e: Event, r: Record)
    requires Enabled(g, s, e) && Holds(Step(g, s, e), r)
    ensures Holds(s, r) || (e.SubmitBegin? && Step(g, s, e).holder.Submitting? && r == Step(g, s, e).holder.record)
  {
    hide Step, Enabled, Holds;
    match e
    case SubmitBegin(actor, action) => BeginBrings(g, s, actor, action);
    case SubmitCommit(ok) => CommitBringsNothing(g, s, ok);
    case SubmitWrite => WriteBringsNothing(g, s);
    case _ => OthersBringNothing(g, s, e);
  }

  lemma BroughtBySubmission(g: Game, s0: Json, events: seq<Event>, r: Record)
    requires events != [] && Run(g, s0, events).Some? && events[|events| - 1].SubmitBegin?
    requires Run(g, s0, events).value.holder.Submitting? && r == Run(g, s0, events).value.holder.record
    ensures SubmittedAt(g, s0, events, |events| - 1, r)
  {
  }

  /** Every action that was recorded, lost or is being written was submitted while the session was running,
      not paused and ready, and the game took it. */
  lemma {:induction false} AcceptedWhileActive(g: Game, s0: Json, events: seq<Event>, r: Record)
    requires Run(g, s0, events).Some? && Holds(Run(g, s0, events).value, r)
    ensures WasSubmitted(g, s0, events, r)
  {
    if events != [] {
      var front, e := events[..|events| - 1], events[|events| - 1];
      var s := Run(g, s0, front).value;
      if Holds(s, r) {
        AcceptedWhileActive(g, s0, front, r);
        StillSubmitted(g, s0, events, r);
      } else {
        OnlySubmissionsBring(g, s, e, r);
        BroughtBySubmission(g, s0, events, r);
      }
      hide Step, Enabled, Holds, SubmittedAt;
    }
  }

  // ----- Two runs in which expiry overtakes a call which holds the lock -----

  /** A game which counts accepted actions. */
  function CountingGame(): Game {
    Game((s: Json, a: Json, r: Role) => if s.Num? && s.n.Integer? then Ok(Num(Integer(s.n.i + 1))) else Err("state"),
         (s: Json) => None, (s: Json, r: Role) => s)
  }

  lemma RunOneMore(g: Game, s0: Json, events: seq<Event>, e: Event)
    requires Run(g, s0, events).Some? && Enabled(g, Run(g, s0, events).value, e)
    ensures Run(g, s0, events + [e]) == Some(Step(g, Run(g, s0, events).value, e))
  {
    assert (events + [e])[..|events + [e]| - 1] == events;
  }

  /** The expiry's transaction commits between the check and the commit of one submission: the caller
      is told the action was accepted, memory advances, and the log stays empty. */
  lemma ExpiryCanLoseAnAction() returns (events: seq<Event>)
    ensures var g, s0 := CountingGame(), Num(Integer(0));
      && Run(g, s0, events).Some?
      && var s := Run(g, s0, events).value;
         && s.present && s.holder.Free? && s.lost != []
         && Fold(g, s0, Actions(s.log)).Ok? && Fold(g, s0, Actions(s.log)).value != s.state
  {
    var g, s0 := CountingGame(), Num(Integer(0));
    events := StartedRun(g, s0, [StartWrite]);
    var started := Run(g, s0, events).value;
    events := Extended(g, s0, events, SubmitBegin(A, Null));
    events := Extended(g, s0, events, ExpireCheck);
    events := Extended(g, s0, events, ExpireCommit(true));
    events := Extended(g, s0, events, SubmitCommit(true));
    events := Extended(g, s0, events, SubmitWrite);
    assert Run(g, s0, events).value.log == [];
  }

  /** The expiry runs between the durable start and the memory write: the session is running in
      memory although it has ended. */
  lemma ExpiryCanBeRevived() returns (events: seq<Event>)
    ensures var g, s0 := CountingGame(), Num(Integer(0));
      && Run(g, s0, events).Some?
      && var s := Run(g, s0, events).value;
         s.present && s.holder.Free? && s.lifecycle == Running && s.durable == Ended && s.revived
  {
    var g, s0 := CountingGame(), Num(Integer(0));
    events := StartedRun(g, s0, []);
    events := Extended(g, s0, events, ExpireCheck);
    events := Extended(g, s0, events, ExpireCommit(true));
    events := Extended(g, s0, events, ExpireWrite);
    events := Extended(g, s0, events, StartWrite);
  }

  lemma Extended(g: Game, s0: Json, events: seq<Event>, e: Event) returns (all: seq<Event>)
    requires Run(g, s0, events).Some? && Enabled(g, Run(g, s0, events).value, e)
    ensures Run(g, s0, all) == Some(Step(g, Run(g, s0, events).value, e))
  {
    all := events + [e];
    RunOneMore(g, s0, events, e);
  }

  lemma StartedRun(g: Game, s0: Json, write: seq<Event>) returns (events: seq<Event>)
    requires write == [] || write == [StartWrite]
    ensures Run(g, s0, events) == Some(
              Live(Running, [], true, if write == [] then Forming else Running, s0, true, false,
                   if write == [] then StartWriting else Free, 0, false, false, [], 1, if write == [] then 0 else 1, false))
  {
    events := Extended(g, s0, [], Presence(true, false));
    events := Extended(g, s0, events, StartBegin);
    events := Extended(g, s0, events, StartCommit(true));
    if write != [] { events := Extended(g, s0, events, StartWrite); }
  }
}
