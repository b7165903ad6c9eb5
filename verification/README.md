# Parlando server: a verified model

This project models the stateful core of the Rust server in `rust-server/src` and proves what that core is
for: experiments that survive a crash anywhere, sessions whose log explains their state, and bookkeeping that
agrees with a simple definition over its whole history. `dafny verify dfyconfig.toml` checks everything.

## What is modelled

- **Durable experiments** (`PlanSet`, `PlanPlaces`, `CanonicalJson`, `DurableTraining`, `StepOrder`,
  `ExperimentRun`, `PlayedPlans`, `StepOrderChanges`). The output directory is a value; every file appears by one atomic rename. `Experiment` has
  one method per loop of `run` and `execute_plans`. Each invocation gets a `World`: where it stops, in which order
  its sessions finish, how they end, and what the learner answers; the proofs hold for all of them. After a stop
  only the directory survives. `Experiment.Lifetime` strings any number of invocations together.
- **Headless sessions** (`Schedules`, `SessionScript`, `SessionDriver`). `SessionScript` defines what a list of decisions
  means: state, callbacks, counts, learner trajectory. `SessionRun` is the driver with its mutable result; any
  callback, serialization or deadline may end it. Its methods are proved against the script, and the script's
  laws are proved by induction.
- **Live sessions** (`LiveSession`). Submission, start and abandonment each take several steps under the transition lock;
  expiry takes three without it. A run is any interleaving.
- **Matchmaking** (`Matchmaking`). Human-versus-human admission, one participant at a time, interleaved with starts,
  ends, expiries and removals.
- **History specifications** (`EventBundles`, `UpgradeTickets`, `RejectionWindows`, `RateLimits`). Each small mutable structure is
  proved equal to a definition over everything that ever happened to it.
- **Transformations** (`AgentSettings`, `CsvExport`, `AgentAudio`, `BigEndian`). Recursive settings with secret references,
  the CSV export with an RFC 4180 reader, and the framing, pacing and duration of agent speech.

`Wrappers` and `JsonValues` hold the shared outcome types and JSON values.

## Where the code does not meet the intent

- *Lost actions.* `submit_action` ignores that `commit_session_transition` can answer "not recorded". An expiry that
  commits in between makes it acknowledge an action which is in no record. Exactly the runs with such a commit lose
  actions (`LiveSession.LogIsCompleteIffNeverOvertaken`, `LiveSession.ExpiryCanLoseAnAction`).
- *Revived sessions.* An expiry that reaches memory between the durable start and its memory write is overwritten: the
  session runs in memory after its end, exactly in the runs with such an expiry
  (`LiveSession.RevivedIffEndedWhileStarting`, `LiveSession.ExpiryCanBeRevived`).
- *Stream limit.* Such a session takes up streams again without a check. The limit is exceeded exactly when its late
  start write, or the insertion of a session admitted before it, finds too little room
  (`Matchmaking.StreamLimitHoldsIff`, `Matchmaking.RevivalExceedsTheLimit`).
- *NUL in a reason code.* A flush cuts the code at its first NUL (`RejectionWindows.LabelsAreExact`).
- *Dropped counts.* The cleanups of removed sessions and of stale participants drop what their windows still count
  (`RejectionWindows.Rejections.Drop`).
- *Repeated `game.` prefix.* Acceptance strips it repeatedly and resolution once, so accepted settings fail to resolve
  exactly when a reference repeats it (`AgentSettings.FailsExactlyForRepeatedPrefix`, `AgentSettings.RepeatedPrefixFails`).
- *Step order.* The input of an update is documented as ordered. With more than one session in flight a call repeated
  after a crash can get the same steps in another order (`StepOrderChanges.ReorderedInput`); the order is kept exactly
  when the sessions which left steps finish in plan order (`StepOrder.SameStepsIff`).

The bundling rules alone would let a stored event type "action" into an action row (`EventBundles.ActionRowShape`); the
dashboard's selection holds no such event, so its rows are well shaped (`EventBundles.DashboardActionRows`).

## Assumptions

SHA-256 digests and fresh UUIDs and tokens do not collide, so a digest stands for what was hashed. File renames and
store transactions are all or nothing. Game functions, plan resolution and `resolve_checkpoint` are deterministic, and
trajectory steps survive their JSON round trip. Clocks do not go backwards. Floating-point numbers are reals.
Session and participant identifiers hold no NUL. URI, YAML, blank and trimming checks, JSON printing and
integer-to-float rounding are function parameters. Capacities, rates and windows of the rate limits are the positive
constants their callers pass.

## Model

| member | source | states |
|---|---|---|
| CanonicalJson.CanonicalDecidesMeaning | rust-server/src/canonical_json.rs:4-19 | Two values have the same canonical form if and only if they differ only in object entry order, at any depth; array order and every scalar count. |
| CanonicalJson.CanonicalIdempotent | rust-server/src/canonical_json.rs:4-19 | Canonicalizing a canonical value changes nothing. |
| CanonicalJson.CanonicalUnique | rust-server/src/canonical_json.rs:4-19 | Sorted values with the same meaning are identical, so the canonical form is the only sorted representative. |
| CanonicalJson.CanonicalMeaning | rust-server/src/canonical_json.rs:4-19 | Canonicalization changes no key, value or array position. |
| PlanSet.ComputePlanSet | rust-server/src/agent_experiment.rs:761-864 | The four nested loops return the full expansion in scenario, seed, repetition and leg order; they fail if and only if there is something to plan and a seat cannot be resolved, or else two plan identifiers coincide. |
| PlanSet.FindDuplicateId | rust-server/src/agent_experiment.rs:851-862 | The growing identifier set reports a duplicate if and only if two positions carry the same identifier. |
| PlanSet.ExpansionShape | rust-server/src/agent_experiment.rs:773-850 | The expansion has seeds x repetitions x (2 if mirrored with distinct seats, else 1) plans, summed over scenarios, and every plan carries its phase. |
| PlanSet.DuplicateIffSameCoordinates | rust-server/src/agent_experiment.rs:773-862 | Planning reports a duplicate if and only if two expansion positions agree on scenario name, configuration up to entry order, seed, repetition and leg. |
| PlanSet.SeedInputInjective | rust-server/src/agent_experiment.rs:2188-2201 | The length-prefixed bytes fed to the seed hash determine the list of parts. |
| BigEndian.EncodeAt | rust-server/src/audio.rs:62-71 | Byte i of a fixed-width integer is its i-th most significant byte. |
| BigEndian.DecodeEncode | rust-server/src/audio.rs:44-61 | Reading a fixed-width big-endian integer undoes writing it, for every value that fits. |
| PlanPlaces.PlanAt | rust-server/src/agent_experiment.rs:773-850 | Every scenario, seed, repetition and leg of the request has its plan at its place: with that scenario's name and configuration, that game seed and repetition, and the named agents in roles A and B, swapped exactly in the mirrored leg, each with its override checkpoint or else its configured one. |
| PlanPlaces.EveryPlanHasItsPlace | rust-server/src/agent_experiment.rs:773-850 | The plan set holds nothing else: every position is the place of one scenario, seed, repetition and leg. |
| PlanPlaces.SeatSeedsDiffer | rust-server/src/agent_experiment.rs:898-906 | Two seats have the same seed only for the same agent in the same role, game seed, repetition and leg. |
| PlayedPlans.PhasePlansAre | rust-server/src/agent_experiment.rs:378-392 | Each phase plans its own section of the specification: one plan for each of its scenarios, seeds, repetitions and legs, and no others. |
| DurableTraining.WriteResult | rust-server/src/agent_experiment.rs:533-590 | Writing one unfinalized result of a ready phase keeps the invariant of the output directory; in a serial run results stay a prefix of the plan order. |
| DurableTraining.CallTrain | rust-server/src/agent_experiment.rs:454-484 | Calling `train` for the next unrecorded checkpoint, with the recorded base and the steps of its block, keeps the invariant. |
| DurableTraining.WriteRecord | rust-server/src/agent_experiment.rs:485-497 | Writing the record answered by the last call keeps the invariant: the record chain grows by one and everything recorded keeps its meaning. |
| DurableTraining.StepsOfPermutation | rust-server/src/agent_experiment.rs:533-590 | Whatever order sessions finish in, the steps collected are the same bag. |
| DurableTraining.BlockOfEpoch | rust-server/src/agent_experiment.rs:450-456 | The modulus test of the epoch loop fires exactly at the multiples of the cadence, and the counter then names the block of that epoch. |
| ExperimentRun.Experiment.SkipFinalized | rust-server/src/agent_experiment.rs:533-560 | The first loop counts exactly the finalized plans as skipped, loads their steps in plan order and leaves the others pending, once each. |
| ExperimentRun.Experiment.RunNext | rust-server/src/agent_experiment.rs:560-590 | Any in-flight session may finish next; its result is written once and counted as completed or failed. |
| ExperimentRun.Experiment.ExecutePlans | rust-server/src/agent_experiment.rs:533-590 | Whenever it returns, after any interleaving: every plan is finalized, planned = completed + failed + skipped, and the steps are those of the finalized results (same bag; same sequence when serial). However it ends, it only adds results for unfinalized plans; on finalized plans it runs nothing and writes nothing. It gives up only when stopped or, with fail-fast, after a failed session, and then always. |
| ExperimentRun.Experiment.RunPhase | rust-server/src/agent_experiment.rs:436-450 | One plan set is expanded and executed; the steps collected are those of the collection order (skipped plans, then the finish order), and they are in plan order if and only if that order keeps the plans which left steps in plan order. |
| StepOrder.SameStepsIff | rust-server/src/agent_experiment.rs:541-587 | Two orders collect the same sequence of steps if and only if they put the plans which left steps in the same order. |
| StepOrderChanges.ReorderedInput | rust-server/src/agent_experiment.rs:429-497 | For every specification with more than one session in flight whose first epoch has two sessions and ends in an update, two invocations can call `train` for checkpoint 1 with the same steps in another order: as the sessions finished, and, after a crash before the record, in plan order. |
| StepOrderChanges.SmallestCanReorder | rust-server/src/agent_experiment.rs:361-530 | Such a specification exists: one learner against itself, one scenario played twice, two sessions in flight. |
| ExperimentRun.Experiment.ReachCheckpoint | rust-server/src/agent_experiment.rs:454-498 | A recorded checkpoint is reused without calling `train`; otherwise exactly one call is made, with the previous checkpoint, and its answer is recorded. A crash may fall before the call and between the call and the record. |
| ExperimentRun.Experiment.RunEpoch | rust-server/src/agent_experiment.rs:420-448 | An epoch passes only when all its sessions are finalized and succeeded; the pending steps are then those of all epochs since the last checkpoint. |
| ExperimentRun.Experiment.PassBoundary | rust-server/src/agent_experiment.rs:450-516 | A boundary ends with its record on disk, its validation finalized where one is due, and an empty step buffer. |
| ExperimentRun.Experiment.Train | rust-server/src/agent_experiment.rs:383-518 | The epoch loop, cut off anywhere, keeps the invariant; when it finishes, everything the specification asks for is on disk. |
| ExperimentRun.Experiment.OpenManifest | rust-server/src/agent_experiment.rs:2215-2250 | An existing manifest is never changed and accepted only for the same specification; results and records are untouched. |
| ExperimentRun.Experiment.Run | rust-server/src/agent_experiment.rs:361-530 | One invocation that may stop anywhere never changes or removes a file, starts only unfinalized sessions and trains only for unrecorded checkpoints. An Ok return means a complete directory and epochs / cadence checkpoints; planned is the size of all plan sets, completed and failed are the numbers of results added, and with the skipped ones they add up. On a complete directory it starts no session, calls no `train` and changes no file. Another specification changes nothing. It does finish when every plan set can be planned, no finalized training session failed, nothing stops it, its sessions succeed and the learner answers. |
| ExperimentRun.Experiment.Lifetime | rust-server/src/agent_experiment.rs:361-530 | Over any number of invocations, each ending anywhere, all `train` calls for one checkpoint get the same base, update identifier, epoch count and bag of steps, and the same sequence when the specification is serial. |
| ExperimentRun.TrainingInputStable | rust-server/src/agent_experiment.rs:426-497 | Two calls for the same checkpoint, before or after any crash, have the same input. |
| ExperimentRun.UpdateSeesItsBlock | rust-server/src/agent_experiment.rs:450-484 | The k-th call trains on exactly the finalized results of epochs (k-1)c+1 to kc, in epoch and plan order when serial. |
| ExperimentRun.UpdateHasNoFailedSession | rust-server/src/agent_experiment.rs:426-448 | Every session behind a `train` call succeeded and was played by the checkpoint the call starts from. |
| PlayedPlans.CallBase | rust-server/src/agent_experiment.rs:454-484 | A call's base is the checkpoint of the record before it, or the configured one for the first. |
| PlayedPlans.UpdatePlayers | rust-server/src/agent_experiment.rs:426-450 | In every session behind a call the learner sat with the call's base checkpoint and every other agent with its configured one. |
| PlayedPlans.ResultPlayers | rust-server/src/agent_experiment.rs:426-516 | Who played a finalized session, read off its seats: in training the learner with the checkpoint recorded last before the epoch, in validation with the validated one, in evaluation everyone as configured. |
| PlayedPlans.ResultScenario | rust-server/src/agent_experiment.rs:761-850 | A finalized session belongs to a scenario, seed, repetition and leg of its phase's own section. |
| PlayedPlans.StepsPlanByPlan | rust-server/src/agent_experiment.rs:541-587 | The collected steps of a list of plans are those of its results, plan after plan. |
| PlayedPlans.StepsEpochByEpoch | rust-server/src/agent_experiment.rs:429-456 | The steps of consecutive epochs are those of the plans of each, epoch after epoch. |
| PlayedPlans.PlannedTotal | rust-server/src/agent_experiment.rs:418-516 | The epochs of a finished run plan epochs x training plans and one validation set for every due checkpoint. |
| ExperimentRun.DurableChain | rust-server/src/agent_experiment.rs:456-497 | Record k exists only with all before it, and its base is the checkpoint of record k-1, or the configured one for k = 1. |
| ExperimentRun.NothingAheadOfItsRecord | rust-server/src/agent_experiment.rs:426-518 | Before record k exists there is no training result past epoch kc and no validation result of checkpoint k or later. |
| ExperimentRun.RecordedAnswerIsFinal | rust-server/src/agent_experiment.rs:456-497 | A recorded checkpoint is the answer to the last call for its number, and later calls are only for later checkpoints. |
| ExperimentRun.FinalizedResultsMatch | rust-server/src/agent_experiment.rs:2302-2321 | The identity check of a result file never fails on results this run wrote. |
| ExperimentRun.AllEpochsDone | rust-server/src/agent_experiment.rs:418-518 | After the last epoch every record and every due validation exists, and the checkpoint counter is epochs / cadence. |
| Schedules.Schedule.Next | rust-server/src/agent_experiment.rs:1144-1220 | Both built-in schedules compute the next position of their reference function, including the remembered yielder. |
| Schedules.SchedulePosition | rust-server/src/agent_experiment.rs:1129-1220 | Decision n goes to the first role flipped once per earlier handover; the run is quiescent if and only if two consecutive responses were yields; a remembered yielder is always the opposite of the current role. |
| Schedules.EveryResponseHandsOver | rust-server/src/agent_experiment.rs:1144-1166 | Strict alternation hands over at every decision. |
| SessionScript.StateIsFoldOfAccepted | rust-server/src/agent_experiment.rs:1536-1598 | The state is the game's own fold over exactly the accepted actions; rejections, messages and yields leave it unchanged. |
| SessionScript.BothSeeEveryTransition | rust-server/src/agent_experiment.rs:1556-1567 | Each role is told exactly the accepted actions, in order, with its own observation of the state right after each. |
| SessionScript.SameActionsOwed | rust-server/src/agent_experiment.rs:1556-1567 | Both roles are told the same actions by the same actors. |
| SessionScript.CutShort | rust-server/src/agent_experiment.rs:1347-1511 | Wherever a session is cut off, B was told a prefix of what A was told, shorter by at most one. |
| SessionScript.MessagesFollowTheirAction | rust-server/src/agent_experiment.rs:1585-1598 | A message reaches only the other role; one sent with an action comes right after both roles saw that action, and never with a rejected or completing action. |
| SessionScript.CountsBounded | rust-server/src/agent_experiment.rs:1384-1511 | accepted + rejected <= decisions and messages + rejected <= decisions. |
| SessionScript.TrajectoryIsLearnerDecisions | rust-server/src/agent_experiment.rs:1612-1671 | There is exactly one step per learner decision, in strictly increasing decision order, recording the state it was made in. |
| SessionScript.StepsHold | rust-server/src/agent_experiment.rs:1612-1671 | What each step holds, read off the game: the learner's own observations before and after its decision, its action, whether and why the game refused it, the rewards of that very transition, and whether it completed the game. |
| SessionScript.TurnsAre | rust-server/src/agent_experiment.rs:1384-1478 | A decision is a yield, a message, or an action which the game took or refused in the state reached before it. |
| SessionScript.EachRoleIsTold | rust-server/src/agent_experiment.rs:1354-1511 | Each role is told exactly this, in order: the start with its own observation, its turns to respond, every accepted action with its own view, and every message of the other role, spoken alone or with an accepted action that does not complete the game. |
| SessionScript.MessagesAreCounted | rust-server/src/agent_experiment.rs:1478-1505 | The message counter is the number of messages the two roles were told. |
| SessionScript.ClosingIsTold | rust-server/src/agent_experiment.rs:1692-1707 | Both roles are told the completion value, and only of a completed game. |
| SessionScript.TrajectoryIsContinuous | rust-server/src/agent_experiment.rs:1612-1671 | If no action is accepted between two learner steps of one role, the later observation is the earlier next observation. |
| SessionScript.StepsAreConsistent | rust-server/src/agent_experiment.rs:1612-1671 | Rewards are present if and only if the action was accepted; a rejected step has equal observations; a terminal step is the last one. |
| SessionDriver.SessionRun.ApplyAction | rust-server/src/agent_experiment.rs:1536-1598 | One action: the callbacks made are a prefix of the two transitions and the message; exactly one counter grows; on success state, message count and trajectory are those of the reference. |
| SessionDriver.SessionRun.Decide | rust-server/src/agent_experiment.rs:1384-1478 | One decision: counters and callbacks stay within the reference even when it fails; a learner which does not answer with a bare action fails the session. |
| SessionDriver.SessionRun.Judge | rust-server/src/agent_experiment.rs:1487-1510 | The end-of-round checks in order: completion first, then the three limits, then the schedule. |
| SessionDriver.SessionRun.Rounds | rust-server/src/agent_experiment.rs:1383-1511 | The decision loop terminates by the decision limit, and every exit satisfies the outcome statement. |
| SessionDriver.SessionRun.Drive | rust-server/src/agent_experiment.rs:1347-1511 | When the session did not fail, callbacks, counters, trajectory and completion are those of the decisions made and the status names its one reason; when it failed, callbacks and trajectory are prefixes of those. |
| SessionDriver.SessionRun.Run | rust-server/src/agent_experiment.rs:1229-1330 | On every exit all four counters are within their limits, the status is Completed if and only if there is a completion value, and exactly the agents that were built are shut down, last, in role order; a failed session's trajectory is a prefix of that of the decisions made. |
| SessionDriver.SessionRun.ShutdownAll | rust-server/src/agent_experiment.rs:1710-1731 | Shutdown goes to each built agent in role order, whether or not an earlier one fails. |
| SessionDriver.BuiltAgentsShutDownOnce | rust-server/src/agent_experiment.rs:1229-1330 | Each constructed agent is shut down exactly once on every path, and no other agent is. |
| SessionDriver.FinishedOnceOnCompletion | rust-server/src/agent_experiment.rs:1692-1707 | In a session which did not fail, each agent is finished exactly once if the game completed, and never otherwise. |
| SessionDriver.TransitionsAgree | rust-server/src/agent_experiment.rs:1229-1511 | However the session ended, B's transitions are a prefix of A's, shorter by at most one. |
| LiveSession.InvHolds | rust-server/src/app.rs:9497-9634 | Every interleaving of submissions, start, abandonment, expiry, presence changes and removal keeps the invariant of log, memory and lock. |
| LiveSession.MemoryIsFoldOfAcknowledged | rust-server/src/app.rs:9497-9634 | Whenever the lock is free, memory holds the fold of all acknowledged actions (the log, then the lost ones), and no acknowledged action follows a completing one. |
| LiveSession.MemoryLagsByAtMostOne | rust-server/src/app.rs:9577-9606 | While the lock is held, memory lags the log by at most the record being written. |
| LiveSession.StoredIsFold | rust-server/src/app.rs:9546-9558 | The state stored with the n-th record is the fold of the first n accepted actions. |
| LiveSession.LogIsCompleteIffNeverOvertaken | rust-server/src/app.rs:9577-9606 | Memory equals the fold of the durable log, with nothing lost, if and only if no commit came after the durable end of the session; the code does not look at the commit's "not recorded" answer. |
| LiveSession.ExpiryCanLoseAnAction | rust-server/src/app.rs:1076-1182 | A run in which an expiry commits between the check and the commit of a submission: the caller is told the action was accepted, memory advances, and the log stays empty. |
| LiveSession.AcceptedWhileActive | rust-server/src/app.rs:9512-9536 | Every action which was recorded, lost or is being written was submitted while the session was running, not paused and ready, and the game took it in the state of that moment. |
| LiveSession.StartsAtMostOnce | rust-server/src/app.rs:10487-10538 | A session goes from forming to running at most once, durably and in memory, and no action is recorded before. |
| LiveSession.RevivedIffEndedWhileStarting | rust-server/src/app.rs:10487-10538 | A session comes back after its end, or is about to, if and only if an expiry reached memory between the session's durable start and the memory write of that start. |
| LiveSession.RunsAfterItsEndIff | rust-server/src/app.rs:10487-10538 | With the lock free and no expiry on its way to memory, a session running in memory has durably ended if and only if such an expiry happened. |
| LiveSession.ExpiryCanBeRevived | rust-server/src/app.rs:1168-1180 | A run in which an expiry falls between the durable start and its memory write: the ended session is running in memory. |
| LiveSession.WithoutExpiryNothingIsLost | rust-server/src/app.rs:9497-9634 | Without the lock-free expiry nothing is lost, and when the lock is free the session has ended in memory if and only if it has ended durably. |
| Matchmaking.InvHolds | rust-server/src/app.rs:3247-3308 | Every run of admissions, starts, ends and removals keeps the seat and capacity invariants. |
| Matchmaking.ScanIsUnambiguous | rust-server/src/app.rs:3516-3535 | At most one session per purpose can be joined, so the scan over the unordered map has one possible answer. |
| Matchmaking.SessionsAreWellSeated | rust-server/src/app.rs:3538-3582 | No session has two players in one role, more than two players, or players of two purposes; a running session has two. |
| Matchmaking.WithinLimits | rust-server/src/app.rs:3462-3513 | Waiting sessions stay within their limit in every run, and so do the human transcription streams of live sessions other than revived ones when Speechmatics is required. |
| Matchmaking.PairSeatsIff | rust-server/src/app.rs:3247-3275 | Pairing seats the participant in role B exactly when fewer sessions run than allowed, a stream is free where one is needed, and the chosen session still waits for a second player of that purpose; otherwise it changes nothing. |
| Matchmaking.CreationAllowedIff | rust-server/src/app.rs:3462-3513 | A session may be created exactly when fewer sessions wait than allowed and a stream is free where one is needed. |
| Matchmaking.StreamLimitHoldsIff | rust-server/src/app.rs:3462-3513 | When Speechmatics is required, all streams stay within the limit throughout a run if and only if no step overruns it: no late start write of an ended session with more players than there is room for, and no insertion of a session when the limit is already reached. |
| Matchmaking.InsertOverrunsAfterRevival | rust-server/src/app.rs:3247-3308 | Such an insertion happens only when a session came back after its end. |
| Matchmaking.RevivalExceedsTheLimit | rust-server/src/app.rs:10487-10538 | A run with room for two streams in which a late start write revives an ended session and four streams are in use. |
| EventBundles.AdminEventBundles | rust-server/src/app.rs:6927-6971 | The loop over a mutable list and an open map returns the rows of a reference definition without state: each event belongs to the bundle of the last event with its key that opened one, if that bundle is still open and takes it, and starts its own otherwise. |
| EventBundles.EveryEventInOneRow | rust-server/src/app.rs:6927-6971 | Every shown event is in exactly one row, at one position. |
| EventBundles.RowsInOrder | rust-server/src/app.rs:6927-6971 | Events keep their order within a row, and rows are ordered by their first event. |
| EventBundles.RowsAreAlike | rust-server/src/app.rs:7031-7090 | All events of a row share its key, kind and role; an action row is about one action value, a transcript row about one normalised text. |
| EventBundles.OnlyLastCloses | rust-server/src/app.rs:7092-7116 | Only the last event of a row closes it. |
| EventBundles.OpenRowsAreUnclosed | rust-server/src/app.rs:6939-6968 | At every point of the loop the open map points only at unclosed rows of its key. |
| EventBundles.NoRepeats | rust-server/src/app.rs:7061-7086 | An action row has at most one request and a transcript row at most one chat message. |
| EventBundles.ActionRowShape | rust-server/src/app.rs:7010-7090 | An action row is one request, one result, or a request and then its result, if and only if none of its events has the stored type "action", which falls through to the same kind. |
| EventBundles.DashboardActionRows | rust-server/src/app.rs:7358-7380 | For the event types the dashboard selects, every action row has that shape. |
| EventBundles.StrayRow | rust-server/src/app.rs:7010-7029 | By the bundling rules alone, two events of the stored type "action" would share one row which is neither a request nor a result. |
| EventBundles.NeighboursShareRow | rust-server/src/app.rs:7048-7116 | Of two neighbouring events of one key, the second is in the row of the first if and only if that event left the row open and the row takes the second. |
| EventBundles.ResultJoinsItsRequest | rust-server/src/app.rs:7061-7075 | By event type: of neighbouring action events of one role, exactly a request and a result about the same action share a row. |
| EventBundles.PresenceEventsJoin | rust-server/src/app.rs:7087-7103 | By event type: neighbouring presence events of one role share a row if and only if the first is not "ready" or "participant_disconnected". |
| EventBundles.VoiceEventsJoin | rust-server/src/app.rs:7087-7112 | By text: neighbouring voice diagnostics of one role share a row if and only if the text of the first holds none of the five closing words. |
| EventBundles.SpokenEventsJoin | rust-server/src/app.rs:7076-7086 | Neighbouring transcript events of one role and text share a row unless the second and an earlier one of the row are both chat messages. |
| EventBundles.OtherEventsStandAlone | rust-server/src/app.rs:7088-7090 | Logs, session events and chat messages without a transcript have rows of their own. |
| EventBundles.SameCoordinatesSameKey | rust-server/src/app.rs:7031-7046 | Presence and voice events of one role, actions of one role and action, and spoken events of one role and text have one key. |
| EventBundles.RoleIsRead | rust-server/src/app.rs:7314-7321 | The role is the actor's; without one, the first text among player, sender_role and role in the detail. |
| EventBundles.ActionIsRead | rust-server/src/app.rs:7348-7355 | The action is that of the detail, or else that of the stored payload. |
| EventBundles.ShownInOrder | rust-server/src/app.rs:6996-7008 | The shown events are those to be shown, each once, in their order. |
| EventBundles.AfterTerminalRows | rust-server/src/app.rs:6939-6968 | Corollary of what a row is: it is marked if and only if one of its events comes strictly after a terminal event. |
| AgentSettings.NormalizeStored | rust-server/src/game.rs:294-331 | The loops of `normalize_object` compute the specification function, including which path is reported first. |
| AgentSettings.NormalizesIffConforms | rust-server/src/game.rs:294-414 | Normalization succeeds if and only if the value fits the field: its type, format, bounds or choices, and for a record only declared keys, with every required field supplied or defaulted and fitting in turn, at every depth. |
| AgentSettings.NormalizedHoldsValue | rust-server/src/game.rs:333-414 | The normal form holds the stored value: unchanged, a number as a float, and for a record exactly the declared keys, each with the normal form of its stored value, or of its default when none is stored and it has one, and absent otherwise, at every depth. |
| AgentSettings.NormalizedHoldsSettings | rust-server/src/game.rs:163-172 | The same for whole settings. |
| AgentSettings.ChoicesArePossible | rust-server/src/game.rs:268-278 | The loop over a growing set accepts exactly non-empty lists of choices with distinct non-empty values and non-blank labels. |
| AgentSettings.ValidateFields | rust-server/src/game.rs:244-292 | Validation succeeds if and only if keys are valid and distinct at every depth, bounds and choices are possible, and every non-null default normalizes. |
| AgentSettings.NormalizeIdempotent | rust-server/src/game.rs:163-172 | For an accepted definition, normalized settings are their own normalization. |
| AgentSettings.NormalizedIsNormal | rust-server/src/game.rs:294-414 | Normalized settings have only declared keys, at every depth, and miss no required field and no field with a default. |
| AgentSettings.EmptySettings | rust-server/src/game.rs:294-331 | The empty object normalizes if and only if every required top-level field has a non-null default. |
| AgentSettings.SecretSets.ResolveFieldSecrets | rust-server/src/game.rs:189-234 | The recursion over two maps passed by reference adds exactly the deliveries of the specification to each, or reports its first problem. |
| AgentSettings.ResolveSecrets | rust-server/src/game.rs:174-187 | The two returned maps are those deliveries, separated by purpose. |
| AgentSettings.FailsOnlyForMissingSecret | rust-server/src/game.rs:189-234 | On normalized settings resolution fails if and only if a present reference names no secret, and reports such a reference. |
| AgentSettings.SecretSetsAreExact | rust-server/src/game.rs:174-234 | Each consumer gets exactly the secrets of the present references meant for it, under their dotted paths; the two sets share no path. |
| AgentSettings.PathsDiffer | rust-server/src/game.rs:189-242 | No two present secret references share a dotted path. |
| AgentSettings.FailsExactlyForRepeatedPrefix | rust-server/src/game.rs:204-212 | With a store whose names are valid keys and which holds every accepted secret, accepted settings fail to resolve if and only if a present reference repeats the `game.` prefix. |
| AgentSettings.RepeatedPrefixFails | rust-server/src/game.rs:402-412 | A one-field definition whose settings `game.game.k` are accepted and do not resolve although `k` is stored. |
| CsvExport.CsvWriter.PushRow | rust-server/src/app.rs:8255-8262 | Appends exactly one printed record. |
| CsvExport.ExportCsv | rust-server/src/app.rs:8201-8273 | Reading the export back by section 2 of RFC 4180, with a line feed as record end, gives the header and exactly the exported (table, row JSON) pairs. |
| CsvExport.ExportedTables | rust-server/src/app.rs:8227-8252 | Without a schema version the rows are, table by table in the fixed order, each table's items, or its one value, and nothing else. |
| CsvExport.ExportedRelease | rust-server/src/app.rs:8203-8226 | A release has the six manifest fields, missing ones as null, then the experiment without its sessions, then its sessions in order. |
| CsvExport.WrittenAsItIs | rust-server/src/app.rs:8264-8273 | A field is written unquoted if and only if it holds no comma, quote, line feed or return. |
| CsvExport.ReadRecordsBack | rust-server/src/app.rs:8264-8273 | The reader inverts the printer on any list of non-empty records, whatever characters the fields hold. |
| UpgradeTickets.UpgradeTicketStore.Issue | rust-server/src/auth.rs:175-189 | Issuing keeps the store equal to the usable, unexpired tickets of the whole history and supersedes the ticket of the same session, participant and purpose. |
| UpgradeTickets.UpgradeTicketStore.Consume | rust-server/src/auth.rs:192-207 | A presented ticket is accepted, with its claims, if and only if it was issued less than 60 s ago, was not presented since (in any scope), was not superseded, and matches in purpose and session. |
| UpgradeTickets.UpgradeTicketStore.Cleanup | rust-server/src/auth.rs:210-216 | Cleanup removes nothing that could still be accepted. |
| UpgradeTickets.UpgradeTicketStore.AtMostOnePerScope | rust-server/src/auth.rs:175-189 | At most one ticket per session, participant and purpose is ever held. |
| UpgradeTickets.SupersededIff | rust-server/src/auth.rs:181-187 | An issue supersedes a ticket if and only if session, participant and purpose are all the same. |
| UpgradeTickets.PresentationUsesUp | rust-server/src/auth.rs:192-202 | Presenting a ticket uses up that ticket and no other; a cleanup uses up none. |
| UpgradeTickets.UsableOnceIssued | rust-server/src/auth.rs:175-189 | A ticket is usable as soon as it is issued. |
| UpgradeTickets.NeverUsableAgain | rust-server/src/auth.rs:175-216 | A ticket once unusable stays unusable in every continuation. |
| RejectionWindows.Rejections.Reject | rust-server/src/app.rs:9338-9400 | An aggregate is stored if and only if none was since the last flush or the last one is at least 60 s old; the log of events grows by exactly that. |
| RejectionWindows.Rejections.Flush | rust-server/src/app.rs:9406-9453 | A flush stores what is pending for each key of the participant, once, and nothing else, and drops the windows. |
| RejectionWindows.Rejections.Drop | rust-server/src/app.rs:1347-1351 | The cleanup of removed sessions, like that of stale participants, drops windows: exactly what these still count is lost, and nothing else changes. |
| RejectionWindows.Rejections.CountsConserved | rust-server/src/app.rs:9338-9453 | Corollary of the invariant: for every key, over any sequence of rejections, flushes and drops, sent plus pending plus dropped equals rejected. |
| RejectionWindows.Rejections.StoredCountsConserved | rust-server/src/app.rs:9338-9453 | The same under the stored labels, when no rejection had a reason code with a NUL. |
| RejectionWindows.Rejections.AggregatesAreInPlace | rust-server/src/app.rs:9354-9372 | Corollary of the invariant: every stored aggregate covers all rejections of its key not yet accounted for, of which there is at least one, begins where the previous one ended, the first one where it ends itself, and ends at the last of them. |
| RejectionWindows.Rejections.MinuteApart | rust-server/src/app.rs:9354-9372 | Unless a flush or a drop separates them, aggregates of one key are at least 60 s apart. |
| RejectionWindows.LabelsAreExact | rust-server/src/app.rs:9414-9434 | The counts stored under each label are those sent for that key if and only if no flush sent the count of a key whose reason code holds a NUL. |
| RejectionWindows.TruncationHappens | rust-server/src/app.rs:9414-9434 | For every reason code with a NUL, a run in which a count is stored under another code. |
| RejectionWindows.ParseKey | rust-server/src/app.rs:9353-9434 | Splitting a window key at NULs gives back its type, and its reason code up to the first NUL. |
| RejectionWindows.KeyTextInjective | rust-server/src/app.rs:9353 | Different keys have different window texts. |
| RateLimits.TokenBucket.Consume | rust-server/src/app.rs:2001-2012 | A request is granted if and only if every interval from an earlier request to now stays within capacity + rate x length; 0 <= tokens <= capacity always. |
| RateLimits.GrantsBounded | rust-server/src/app.rs:1981-2013 | No interval of any length T, wherever it starts, sees more than capacity + rate x T grants. |
| RateLimits.GrantedAfterWaiting | rust-server/src/app.rs:2001-2012 | After a time without grants in which the bucket gains one token, the next request is granted. |
| RateLimits.ParticipantCreationRate.Record | rust-server/src/app.rs:1968-1979 | An attempt is accepted if and only if fewer than the maximum of all attempts ever accepted lie in the window. |
| RateLimits.WindowBounded | rust-server/src/app.rs:1968-1979 | No window of the configured length, wherever it ends, ever holds more than the maximum. |
| AgentAudio.DecodeInvertsEncode | rust-server/src/audio.rs:39-71 | Decoding undoes encoding on every 960-byte frame with a 32-bit sequence number and a 64-bit time. |
| AgentAudio.EncodeInvertsDecode | rust-server/src/audio.rs:39-71 | Every accepted message is the encoding of what was decoded from it. |
| AgentAudio.SessionAgentAudioPublisher.Publish | rust-server/src/audio_publisher.rs:64-97 | Nothing is sent when a non-empty chunk is not canonical or there is no audio; otherwise the messages are the frames of the joined samples in order, each with its time and send offset. |
| AgentAudio.ReceivedIsOriginal | rust-server/src/audio_publisher.rs:64-97 | Decoding the published frames, joining them and cutting at bytes_published gives back the samples; the padding is shorter than one frame. |
| AgentAudio.Pacing | rust-server/src/audio_publisher.rs:76-104 | Corollary of what is published: frame i carries the time 20 i and is sent exactly 20 x min(i, prebuffer - 1) ms before it. |
| AgentAudio.PaddingIsSilence | rust-server/src/audio_publisher.rs:76-90 | Each message holds its samples, and zeros after the last one. |
| AgentAudio.JoinedInOrder | rust-server/src/audio_publisher.rs:69-74 | The samples of a publication are those of its chunks, one after the other. |
| AgentAudio.SmallestPrebuffer | rust-server/src/audio_publisher.rs:47-54 | The lead is the smallest whole number of frames, at least one, that covers the jitter buffer. |
| AgentAudio.MessageLayout | rust-server/src/audio.rs:62-71 | A message is the version byte, the sequence number and the time with their most significant bytes first, and the samples. |
| AgentAudio.DurationBounds | rust-server/src/app.rs:10024-10035 | The recorded duration is within half a millisecond of bytes / 48, and lies between 20 (frames - 1) and 20 frames. |

## Left out

- HTTP routing, pages, privacy text, dashboard rendering of a bundle, storage engines, transcription and speech providers,
  recruitment and the remote agent protocol: plumbing, or code that is not part of this model.
- Real cryptography, random numbers and peppered digests: see the assumptions.
- Human-versus-agent admission: it adds no pairing, only the construction of one agent.
- A limit on running sessions and a single session per participant: the code promises neither under concurrent joins,
  because a forming session with two players counts as neither waiting nor active, and because the check for an
  existing session comes before the admission lock.
- Removal of a session's transition lock by cleanup while a call still waits for it: the lock is modelled for one session
  that keeps it, until the session is removed from memory.
- Connect, disconnect and pause handling in the web socket loop: one atomic presence change each.
- Decision traces, available actions, diagnostics and elapsed times of a session result: they carry data but steer nothing.
- The messages of configuration checks, and checks of `validate_spec` on which the protocol does not rely.
- Non-finite numbers in a settings definition: numbers are reals.
- The audio connection registry and its bounded queues: frames are modelled up to the publisher.
- The participant credential store: it has no history-dependent rule beyond expiry.
- Experiment.ExecutePlans: sessions in flight at a crash are recorded as started only, and their callbacks are not modelled here.
- Schedule.Next: a schedule registered by the experiment's author may answer anything; the schedule laws cover the two built-in ones.
- The messages of a failed plan set and of a refused manifest: only that the invocation ends.
- Rejections.Flush: an aggregate counts as stored once it is handed to the store, which may still fail to write it; the
  three rejection types are a closed set, so the branch for an unknown type is not modelled.
- Rejections.Reject: error text and the digest of the rejected input are not part of the stored aggregate.
