/** Model of `admin_event_bundles` in rust-server/src/app.rs, which groups the events of a session
    into rows of the dashboard's timeline. */
module EventBundles {
  import opened Wrappers
  import opened JsonValues

  datatype Event = Event(
    eventIndex: int, eventType: string, actorRole: Option<string>, text: Option<string>, detail: Json, raw: Json)

  /** `events` are positions in the list of shown events. */
  datatype Bundle = Bundle(kind: string, role: Option<string>, key: string, events: seq<nat>, afterTerminal: bool)

  /** Standard-library text functions: compact JSON, decimal integers, and `str::trim`. */
  datatype TextFunctions = TextFunctions(compact: Json -> string, decimal: int -> string, trim: string -> string)

  // ----- What the code reads off one event -----

  function RoleOf(e: Event): Option<string> {
    OrElse(e.actorRole, OrElse(AsText(Get(e.detail, "player")),
      OrElse(AsText(Get(e.detail, "sender_role")), AsText(Get(e.detail, "role")))))
  }

  function TextOf(e: Event): string {
    var found := OrElse(e.text, AsText(Get(e.detail, "event")));
    if found.Some? then found.value else e.eventType
  }

  function Payload(e: Event, field: string): Option<Json> {
    var payload := Get(e.raw, "payload");
    if payload.Some? then Get(payload.value, field) else None
  }

  function Lower(c: char): char { if 'A' <= c <= 'Z' then c - 'A' + 'a' else c }

  function LowerAscii(s: string): string { seq(|s|, i requires 0 <= i < |s| => Lower(s[i])) }

  function TrimEndMarks(s: string): string {
    if s != [] && s[|s| - 1] in ".!?" then TrimEndMarks(s[..|s| - 1]) else s
  }

  function Transcript(f: TextFunctions, e: Event): string {
    var found := OrElse(e.text, AsText(Payload(e, "text")));
    LowerAscii(TrimEndMarks(f.trim(if found.Some? then found.value else "")))
  }

  /** The action an event is about, compared as a value: entry order does not matter. */
  function ActionOf(e: Event): Option<Meaning> {
    var found := OrElse(Get(e.detail, "action"), Payload(e, "action"));
    if found.Some? then Some(MeaningOf(found.value)) else None
  }

  predicate Contains(s: string, part: string) {
    part <= s || (s != [] && Contains(s[1..], part))
  }

  predicate IsTerminal(e: Event) {
    e.eventType in ["session_completed", "session_abandoned", "session_expired", "participant_disconnected"]
  }

  predicate IsRequest(e: Event) { e.eventType in ["agent_action", "game_action_submitted"] }

  predicate IsResult(e: Event) { e.eventType in ["game_action_accepted", "game_action_rejected"] }

  predicate IsShown(e: Event) {
    e.eventType == "voice_diagnostic" ==>
      var text := TextOf(e);
      || Contains(text, "voice_connect_requested") || Contains(text, "stt_initialized")
      || Contains(text, "transcription_stream_connecting") || Contains(text, "transcription_stream_started")
      || Contains(LowerAscii(text), "fail") || Contains(LowerAscii(text), "error")
      || Contains(LowerAscii(text), "disconnect")
  }

  function KindOf(e: Event): string {
    if IsRequest(e) || IsResult(e) then "action"
    else if e.eventType in ["participant_joined", "participant_connected", "participant_disconnected", "ready"]
      then "participant"
    else if e.eventType == "voice_diagnostic" then "voice"
    else if e.eventType == "transcript_segment" then "transcript"
    else if e.eventType == "conversation_message" then
      if AsText(Get(e.detail, "origin")) == Some("voice_transcript") then "transcript" else "conversation"
    else e.eventType
  }

  function KeyOf(f: TextFunctions, e: Event): string {
    var kind := KindOf(e);
    var role := if RoleOf(e).Some? then RoleOf(e).value else "system";
    if kind == "action" then
      var action := Get(e.detail, "action");
      "action:" + role + ":" + (if action.Some? then f.compact(action.value) else "null")
    else if kind == "participant" || kind == "voice" then kind + ":" + role
    else if kind == "transcript" then kind + ":" + role + ":" + Transcript(f, e)
    else kind + ":" + role + ":" + f.decimal(e.eventIndex)
  }

  /** The event ends its bundle. */
  predicate Closes(kind: string, e: Event) {
    if kind == "action" then IsResult(e)
    else if kind == "participant" then e.eventType in ["ready", "participant_disconnected"]
    else if kind == "voice" then
      var text := LowerAscii(TextOf(e));
      || Contains(text, "transcription_stream_started") || Contains(text, "ready") || Contains(text, "fail")
      || Contains(text, "error") || Contains(text, "disconnect")
    else false
  }

  predicate InRange(events: seq<Event>, at: seq<nat>) { forall i :: 0 <= i < |at| ==> at[i] < |events| }

  /** `admin_bundle_is_closed` for a bundle of this kind with these events. */
  predicate IsClosed(events: seq<Event>, kind: string, at: seq<nat>)
    requires InRange(events, at)
  {
    exists i :: 0 <= i < |at| && Closes(kind, events[at[i]])
  }

  /** `can_append_admin_bundle` for a bundle with this kind, role and events. */
  predicate CanAppend(f: TextFunctions, events: seq<Event>, kind: string, role: Option<string>, at: seq<nat>, e: Event)
    requires InRange(events, at) && at != []
  {
    && kind == KindOf(e) && role == RoleOf(e)
    && if kind == "action" then
         && !IsClosed(events, kind, at)
         && ActionOf(events[at[0]]) == ActionOf(e)
         && !(IsRequest(e) && exists i :: 0 <= i < |at| && IsRequest(events[at[i]]))
       else if kind == "transcript" then
         && !(e.eventType == "conversation_message"
              && exists i :: 0 <= i < |at| && events[at[i]].eventType == "conversation_message")
         && Transcript(f, events[at[0]]) == Transcript(f, e)
       else kind == "participant" || kind == "voice"
  }

  function Shown(events: seq<Event>): (r: seq<Event>) {
    if events == [] then [] else
      var rest := Shown(events[..|events| - 1]);
      var e := events[|events| - 1];
      if IsShown(e) then rest + [e] else rest
  }

  // ----- Reference definition: the event which starts the bundle of event i -----

  /** The last event before `i` which started a bundle with this key and did not close it at once. */
  function Candidate(f: TextFunctions, events: seq<Event>, i: nat, key: string): (r: Option<nat>)
    requires i <= |events|
    ensures r.Some? ==> r.value < i
    decreases i, 0
  {
    if i == 0 then None
    else if KeyOf(f, events[i - 1]) == key && Leader(f, events, i - 1) == i - 1
            && !Closes(KindOf(events[i - 1]), events[i - 1]) then Some(i - 1)
    else Candidate(f, events, i - 1, key)
  }

  /** The events before `i` in the bundle started by event `j`. */
  function Members(f: TextFunctions, events: seq<Event>, j: nat, i: nat): (r: seq<nat>)
    requires i <= |events|
    ensures forall x :: 0 <= x < |r| ==> r[x] < i
    decreases i, 0
  {
    if i == 0 then []
    else if Leader(f, events, i - 1) == j then Members(f, events, j, i - 1) + [i - 1]
    else Members(f, events, j, i - 1)
  }

  /** An event joins the candidate for its key when that bundle is still open and takes it, and starts
      a bundle otherwise. */
  function Leader(f: TextFunctions, events: seq<Event>, i: nat): (j: nat)
    requires i < |events|
    ensures j <= i
    decreases i, 1
  {
    var e := events[i];
    var c := Candidate(f, events, i, KeyOf(f, e));
    if c.None? then i else
      var first := events[c.value];
      var at := Members(f, events, c.value, i);
      if at != [] && !IsClosed(events, KindOf(first), at) && CanAppend(f, events, KindOf(first), RoleOf(first), at, e)
      then c.value else i
  }

  predicate TerminalBefore(events: seq<Event>, i: nat)
    requires i <= |events|
  {
    exists t :: 0 <= t < i && IsTerminal(events[t])
  }

  function Leaders(f: TextFunctions, events: seq<Event>, i: nat): (r: seq<nat>)
    requires i <= |events|
    ensures forall b :: 0 <= b < |r| ==> r[b] < i
  {
    if i == 0 then []
    else if Leader(f, events, i - 1) == i - 1 then Leaders(f, events, i - 1) + [i - 1]
    else Leaders(f, events, i - 1)
  }

  predicate AnyAfterTerminal(events: seq<Event>, at: seq<nat>)
    requires InRange(events, at)
  {
    exists x :: 0 <= x < |at| && TerminalBefore(events, at[x])
  }

  /** The row which the first `i` events give the bundle started by event `j`. */
  function Row(f: TextFunctions, events: seq<Event>, j: nat, i: nat): Bundle
    requires j < i <= |events|
  {
    var at := Members(f, events, j, i);
    Bundle(KindOf(events[j]), RoleOf(events[j]), KeyOf(f, events[j]), at, AnyAfterTerminal(events, at))
  }

  function Rows(f: TextFunctions, events: seq<Event>, i: nat): (r: seq<Bundle>)
    requires i <= |events|
    ensures |r| == |Leaders(f, events, i)|
  {
    var leaders := Leaders(f, events, i);
    seq(|leaders|, b requires 0 <= b < |leaders| => Row(f, events, leaders[b], i))
  }

  // ----- Facts about the reference -----

  predicate Increasing(r: seq<nat>) { forall b, d :: 0 <= b < d < |r| ==> r[b] < r[d] }

  /** All of these events are in the bundle started by event `j`. */
  predicate LedBy(f: TextFunctions, events: seq<Event>, at: seq<nat>, j: nat) {
    forall x :: 0 <= x < |at| ==> at[x] < |events| && Leader(f, events, at[x]) == j
  }

  /** Each of these events starts a bundle. */
  predicate AllLeaders(f: TextFunctions, events: seq<Event>, at: seq<nat>) {
    forall x :: 0 <= x < |at| ==> at[x] < |events| && Leader(f, events, at[x]) == at[x]
  }

  lemma {:induction false} LeadersIncrease(f: TextFunctions, events: seq<Event>, i: nat)
    requires i <= |events|
    ensures Increasing(Leaders(f, events, i)) && AllLeaders(f, events, Leaders(f, events, i))
  {
    hide Leader, Candidate;
    if i > 0 { LeadersIncrease(f, events, i - 1); }
  }

  lemma {:induction false} LeadersComplete(f: TextFunctions, events: seq<Event>, i: nat, j: nat)
    requires j < i <= |events| && Leader(f, events, j) == j
    ensures exists b :: 0 <= b < |Leaders(f, events, i)| && Leaders(f, events, i)[b] == j
  {
    hide Leader, Candidate;
    var r := Leaders(f, events, i);
    if j == i - 1 {
      assert r[|r| - 1] == j;
    } else {
      LeadersComplete(f, events, i - 1, j);
      var b :| 0 <= b < |Leaders(f, events, i - 1)| && Leaders(f, events, i - 1)[b] == j;
      assert r[b] == j;
    }
  }

  lemma {:induction false} CandidateIsLeader(f: TextFunctions, events: seq<Event>, i: nat, key: string)
    requires i <= |events| && Candidate(f, events, i, key).Some?
    ensures var j := Candidate(f, events, i, key).value;
      Leader(f, events, j) == j && KeyOf(f, events[j]) == key && !Closes(KindOf(events[j]), events[j])
  {
    hide Leader, Closes, KeyOf, KindOf;
    if Candidate(f, events, i, key) != Some(i - 1) { CandidateIsLeader(f, events, i - 1, key); }
  }

  lemma {:induction false} MembersAre(f: TextFunctions, events: seq<Event>, j: nat, i: nat)
    requires i <= |events|
    ensures Increasing(Members(f, events, j, i)) && LedBy(f, events, Members(f, events, j, i), j)
  {
    hide Leader, Candidate;
    if i > 0 { MembersAre(f, events, j, i - 1); }
  }

  lemma {:induction false} MembersComplete(f: TextFunctions, events: seq<Event>, j: nat, i: nat, k: nat)
    requires k < i <= |events| && Leader(f, events, k) == j
    ensures exists x :: 0 <= x < |Members(f, events, j, i)| && Members(f, events, j, i)[x] == k
  {
    hide Leader, Candidate;
    var at := Members(f, events, j, i);
    if k == i - 1 {
      assert at[|at| - 1] == k;
    } else {
      MembersComplete(f, events, j, i - 1, k);
      var before := Members(f, events, j, i - 1);
      var x :| 0 <= x < |before| && before[x] == k;
      assert at[x] == k;
    }
  }

  lemma {:induction false} NoMembersBefore(f: TextFunctions, events: seq<Event>, j: nat, i: nat)
    requires i <= j && i <= |events|
    ensures Members(f, events, j, i) == []
  {
    hide Leader;
    if i > 0 { NoMembersBefore(f, events, j, i - 1); }
  }

  lemma {:induction false} StartsWithLeader(f: TextFunctions, events: seq<Event>, j: nat, i: nat)
    requires j < i <= |events| && Leader(f, events, j) == j
    ensures var at := Members(f, events, j, i); at != [] && at[0] == j
  {
    hide Leader, Candidate;
    if i == j + 1 { NoMembersBefore(f, events, j, j); } else { StartsWithLeader(f, events, j, i - 1); }
  }

  // ----- The loop -----

  /** The open map holds, for each key, the candidate while it is open. */
  ghost predicate OpenAgrees(f: TextFunctions, events: seq<Event>, i: nat, open: map<string, nat>)
    requires i <= |events|
  {
    forall key {:trigger Candidate(f, events, i, key)} :: OpenEntryAgrees(f, events, i, open, key)
  }

  ghost predicate OpenEntryAgrees(f: TextFunctions, events: seq<Event>, i: nat, open: map<string, nat>, key: string)
    requires i <= |events|
  {
    var leaders, c := Leaders(f, events, i), Candidate(f, events, i, key);
    && (key in open <==> c.Some? && !IsClosed(events, KindOf(events[c.value]), Members(f, events, c.value, i)))
    && (key in open ==> open[key] < |leaders| && leaders[open[key]] == c.value)
  }

  /** Before the loop. */
  lemma NothingYet(f: TextFunctions, events: seq<Event>)
    ensures Rows(f, events, 0) == [] && OpenAgrees(f, events, 0, map[]) && !TerminalBefore(events, 0)
  {
    assert Leaders(f, events, 0) == [];
    forall key ensures OpenEntryAgrees(f, events, 0, map[], key) {
      assert Candidate(f, events, 0, key) == None;
    }
  }

  lemma OneMoreMember(f: TextFunctions, events: seq<Event>, j: nat, i: nat)
    requires j <= i < |events| && Leader(f, events, i) == j && (j < i ==> Leader(f, events, j) == j)
    ensures Members(f, events, j, i + 1) == Members(f, events, j, i) + [i]
    ensures AnyAfterTerminal(events, Members(f, events, j, i + 1)) <==>
            AnyAfterTerminal(events, Members(f, events, j, i)) || TerminalBefore(events, i)
  {
    hide Leader, Candidate, TerminalBefore;
    var before, after := Members(f, events, j, i), Members(f, events, j, i + 1);
    assert after == before + [i];
    if AnyAfterTerminal(events, before) {
      var x :| 0 <= x < |before| && TerminalBefore(events, before[x]);
      assert TerminalBefore(events, after[x]);
    }
    if TerminalBefore(events, i) { assert TerminalBefore(events, after[|before|]); }
  }

  lemma RowsAfterJoin(f: TextFunctions, events: seq<Event>, i: nat, b: nat)
    requires i < |events| && b < |Leaders(f, events, i)|
    requires Leader(f, events, i) == Leaders(f, events, i)[b]
    ensures Leaders(f, events, i + 1) == Leaders(f, events, i)
    ensures var row := Rows(f, events, i)[b];
      Rows(f, events, i + 1) ==
        Rows(f, events, i)[b := row.(events := row.events + [i],
                                     afterTerminal := row.afterTerminal || TerminalBefore(events, i))]
  {
    hide Leader, Candidate, KindOf, KeyOf, RoleOf, TerminalBefore, AnyAfterTerminal;
    var leaders := Leaders(f, events, i);
    LeadersIncrease(f, events, i);
    OneMoreMember(f, events, leaders[b], i);
    forall d | 0 <= d < |leaders| && d != b ensures Row(f, events, leaders[d], i + 1) == Row(f, events, leaders[d], i) {
      assert leaders[d] != leaders[b];
    }
  }

  lemma RowsAfterStart(f: TextFunctions, events: seq<Event>, i: nat)
    requires i < |events| && Leader(f, events, i) == i
    ensures Leaders(f, events, i + 1) == Leaders(f, events, i) + [i]
    ensures var e := events[i];
      Rows(f, events, i + 1) ==
        Rows(f, events, i) + [Bundle(KindOf(e), RoleOf(e), KeyOf(f, e), [i], TerminalBefore(events, i))]
  {
    hide Leader, Candidate, KindOf, KeyOf, RoleOf, TerminalBefore;
    var leaders := Leaders(f, events, i);
    NoMembersBefore(f, events, i, i);
    OneMoreMember(f, events, i, i);
    assert !AnyAfterTerminal(events, []);
    hide AnyAfterTerminal;
    assert Row(f, events, i, i + 1).events == [i];
    forall d | 0 <= d < |leaders| ensures Row(f, events, leaders[d], i + 1) == Row(f, events, leaders[d], i) {
      assert leaders[d] != i;
    }
  }

  lemma OneMoreCloses(events: seq<Event>, kind: string, at: seq<nat>, i: nat)
    requires InRange(events, at) && i < |events|
    ensures IsClosed(events, kind, at + [i]) <==> IsClosed(events, kind, at) || Closes(kind, events[i])
  {
    hide Closes;
    var all := at + [i];
    if IsClosed(events, kind, at) {
      var x :| 0 <= x < |at| && Closes(kind, events[at[x]]);
      assert Closes(kind, events[all[x]]);
    }
    if Closes(kind, events[i]) { assert Closes(kind, events[all[|at|]]); }
  }

  lemma JoinedEntryAgrees(f: TextFunctions, events: seq<Event>, i: nat, open: map<string, nat>, key: string)
    requires i < |events| && Leader(f, events, i) < i && OpenEntryAgrees(f, events, i, open, key)
    requires Candidate(f, events, i, key) != Some(Leader(f, events, i))
    ensures OpenEntryAgrees(f, events, i + 1, open, key)
  {
    hide KindOf, KeyOf, Leader, IsClosed;
    assert Candidate(f, events, i + 1, key) == Candidate(f, events, i, key);
    assert Leaders(f, events, i + 1) == Leaders(f, events, i);
    if Candidate(f, events, i, key).Some? {
      var c := Candidate(f, events, i, key).value;
      assert Members(f, events, c, i + 1) == Members(f, events, c, i);
    }
  }

  lemma GrownEntryAgrees(f: TextFunctions, events: seq<Event>, i: nat, open: map<string, nat>, key: string)
    requires i < |events| && Leader(f, events, i) < i && OpenEntryAgrees(f, events, i, open, key) && key in open
    requires Candidate(f, events, i, key) == Some(Leader(f, events, i))
    ensures var j := Leader(f, events, i);
      OpenEntryAgrees(f, events, i + 1,
        if IsClosed(events, KindOf(events[j]), Members(f, events, j, i + 1)) then open - {key} else open, key)
  {
    hide KindOf, KeyOf, Leader, IsClosed;
    assert Candidate(f, events, i + 1, key) == Candidate(f, events, i, key);
    assert Leaders(f, events, i + 1) == Leaders(f, events, i);
  }

  lemma CandidateKey(f: TextFunctions, events: seq<Event>, i: nat, key: string, other: string)
    requires i <= |events| && Candidate(f, events, i, key).Some? && key != other
    ensures Candidate(f, events, i, other) != Candidate(f, events, i, key)
  {
    hide KeyOf, Leader, Closes;
    CandidateIsLeader(f, events, i, key);
    if Candidate(f, events, i, other).Some? { CandidateIsLeader(f, events, i, other); }
    hide Candidate;
  }

  /** An event which joins its candidate: the entry of its key goes when the bundle closes. */
  lemma OpenAfterJoin(f: TextFunctions, events: seq<Event>, i: nat, open: map<string, nat>)
    requires i < |events| && OpenAgrees(f, events, i, open) && KeyOf(f, events[i]) in open
    requires var key := KeyOf(f, events[i]);
      Candidate(f, events, i, key) == Some(Leader(f, events, i)) && Leader(f, events, i) < i
    ensures var key, j := KeyOf(f, events[i]), Leader(f, events, i);
      OpenAgrees(f, events, i + 1,
        if IsClosed(events, KindOf(events[j]), Members(f, events, j, i + 1)) then open - {key} else open)
  {
    hide KindOf, KeyOf, Leader, IsClosed, Leaders, Candidate, Members, OpenEntryAgrees, OpenAgrees;
    var key, j, n := KeyOf(f, events[i]), Leader(f, events, i), i + 1;
    var open' := if IsClosed(events, KindOf(events[j]), Members(f, events, j, n)) then open - {key} else open;
    forall k ensures OpenEntryAgrees(f, events, n, open', k) {
      EntryOf(f, events, i, open, k);
      EntryOf(f, events, i, open, key);
      EntryAfterJoin(f, events, i, open, open', k);
    }
    AgreesFromEntries(f, events, n, open');
  }

  lemma EntryOf(f: TextFunctions, events: seq<Event>, i: nat, open: map<string, nat>, key: string)
    requires i <= |events| && OpenAgrees(f, events, i, open)
    ensures OpenEntryAgrees(f, events, i, open, key)
  {
    hide OpenEntryAgrees;
    assert OpenEntryAgrees(f, events, i, open, key) by { var c := Candidate(f, events, i, key); }
  }

  lemma AgreesFromEntries(f: TextFunctions, events: seq<Event>, i: nat, open: map<string, nat>)
    requires i <= |events| && forall key :: OpenEntryAgrees(f, events, i, open, key)
    ensures OpenAgrees(f, events, i, open)
  {
    hide OpenEntryAgrees;
  }

  lemma EntryAfterJoin(f: TextFunctions, events: seq<Event>, i: nat, open: map<string, nat>, open': map<string, nat>, k: string)
    requires i < |events| && KeyOf(f, events[i]) in open && Leader(f, events, i) < i
    requires OpenEntryAgrees(f, events, i, open, KeyOf(f, events[i])) && OpenEntryAgrees(f, events, i, open, k)
    requires Candidate(f, events, i, KeyOf(f, events[i])) == Some(Leader(f, events, i))
    requires var key, j := KeyOf(f, events[i]), Leader(f, events, i);
      open' == if IsClosed(events, KindOf(events[j]), Members(f, events, j, i + 1)) then open - {key} else open
    ensures OpenEntryAgrees(f, events, i + 1, open', k)
  {
    hide KindOf, KeyOf, Leader, IsClosed, Leaders, Candidate, Members, OpenEntryAgrees;
    var key := KeyOf(f, events[i]);
    if k == key {
      GrownEntryAgrees(f, events, i, open, key);
    } else {
      CandidateKey(f, events, i, key, k);
      JoinedEntryAgrees(f, events, i, open, k);
      SameEntry(f, events, i + 1, open, open', k);
    }
  }

  lemma NewEntryAgrees(f: TextFunctions, events: seq<Event>, i: nat, open: map<string, nat>)
    requires i < |events| && Leader(f, events, i) == i && !Closes(KindOf(events[i]), events[i])
    requires KeyOf(f, events[i]) in open && open[KeyOf(f, events[i])] == |Leaders(f, events, i)|
    ensures OpenEntryAgrees(f, events, i + 1, open, KeyOf(f, events[i]))
  {
    NoMembersBefore(f, events, i, i);
    OneMoreMember(f, events, i, i);
    OneMoreCloses(events, KindOf(events[i]), [], i);
    NothingClosed(events, KindOf(events[i]));
    hide KindOf, KeyOf, Leader, IsClosed, Closes, AnyAfterTerminal;
    assert [] + [i] == [i];
    assert Candidate(f, events, i + 1, KeyOf(f, events[i])) == Some(i);
  }

  lemma OldEntryAgrees(f: TextFunctions, events: seq<Event>, i: nat, open: map<string, nat>, key: string)
    requires i < |events| && Leader(f, events, i) == i && OpenEntryAgrees(f, events, i, open, key)
    requires Closes(KindOf(events[i]), events[i]) || key != KeyOf(f, events[i])
    ensures OpenEntryAgrees(f, events, i + 1, open, key)
  {
    hide KindOf, KeyOf, Leader, IsClosed, Closes, AnyAfterTerminal;
    assert Candidate(f, events, i + 1, key) == Candidate(f, events, i, key);
    assert Leaders(f, events, i + 1) == Leaders(f, events, i) + [i];
    if Candidate(f, events, i, key).Some? {
      var c := Candidate(f, events, i, key).value;
      assert Members(f, events, c, i + 1) == Members(f, events, c, i);
    }
  }

  /** An event which starts a bundle: the entry of its key is replaced unless the event closes it. */
  lemma OpenAfterStart(f: TextFunctions, events: seq<Event>, i: nat, open: map<string, nat>)
    requires i < |events| && OpenAgrees(f, events, i, open) && Leader(f, events, i) == i
    ensures OpenAgrees(f, events, i + 1,
        if Closes(KindOf(events[i]), events[i]) then open else open[KeyOf(f, events[i]) := |Leaders(f, events, i)|])
  {
    var key, n, closes := KeyOf(f, events[i]), i + 1, Closes(KindOf(events[i]), events[i]);
    var open' := if closes then open else open[key := |Leaders(f, events, i)|];
    hide KindOf, KeyOf, Leader, Closes, Leaders, Candidate;
    forall k ensures OpenEntryAgrees(f, events, n, open', k) {
      if k == key && !closes {
        NewEntryAgrees(f, events, i, open');
      } else {
        assert OpenEntryAgrees(f, events, i, open, k);
        OldEntryAgrees(f, events, i, open, k);
        SameEntry(f, events, n, open, open', k);
      }
    }
  }

  lemma SameEntry(f: TextFunctions, events: seq<Event>, i: nat, open: map<string, nat>, open': map<string, nat>, key: string)
    requires i <= |events| && OpenEntryAgrees(f, events, i, open, key)
    requires (key in open <==> key in open') && (key in open ==> open[key] == open'[key])
    ensures OpenEntryAgrees(f, events, i, open', key)
  {
    hide KindOf, IsClosed, Leaders, Candidate, Members;
  }

  lemma NothingClosed(events: seq<Event>, kind: string)
    ensures !IsClosed(events, kind, [])
  {
  }

  /** The branch taken by the loop is the choice made by the reference. */
  lemma Joins(f: TextFunctions, events: seq<Event>, i: nat, open: map<string, nat>)
    requires i < |events| && OpenAgrees(f, events, i, open)
    ensures var rows, key, j := Rows(f, events, i), KeyOf(f, events[i]), Leader(f, events, i);
      && (key in open ==> open[key] < |rows| && InRange(events, rows[open[key]].events) && rows[open[key]].events != [])
      && if key in open && CanAppend(f, events, rows[open[key]].kind, rows[open[key]].role, rows[open[key]].events, events[i])
         then j < i && Leaders(f, events, i)[open[key]] == j && Candidate(f, events, i, key) == Some(j)
         else j == i
  {
    var key := KeyOf(f, events[i]);
    assert OpenEntryAgrees(f, events, i, open, key);
    hide KindOf, KeyOf, RoleOf, IsClosed, CanAppend, AnyAfterTerminal;
    if Candidate(f, events, i, key).Some? {
      CandidateIsLeader(f, events, i, key);
      StartsWithLeader(f, events, Candidate(f, events, i, key).value, i);
    }
  }

  /** While the loop is under way, the open map points only at unclosed rows of the key. */
  lemma OpenRowsAreUnclosed(f: TextFunctions, events: seq<Event>, i: nat, open: map<string, nat>, key: string)
    requires i <= |events| && OpenAgrees(f, events, i, open) && key in open
    ensures var rows := Rows(f, events, i);
      && open[key] < |rows| && rows[open[key]].key == key
      && InRange(events, rows[open[key]].events) && !IsClosed(events, rows[open[key]].kind, rows[open[key]].events)
  {
    assert OpenEntryAgrees(f, events, i, open, key);
    hide KindOf, KeyOf, RoleOf, IsClosed, AnyAfterTerminal;
    CandidateIsLeader(f, events, i, key);
  }

  lemma TerminalOneMore(events: seq<Event>, i: nat)
    requires i < |events|
    ensures TerminalBefore(events, i + 1) <==> TerminalBefore(events, i) || IsTerminal(events[i])
  {
    hide IsTerminal;
  }

  lemma RowAt(f: TextFunctions, events: seq<Event>, i: nat, b: nat)
    requires i <= |events| && b < |Leaders(f, events, i)|
    ensures var j, row := Leaders(f, events, i)[b], Rows(f, events, i)[b];
      row.kind == KindOf(events[j]) && row.events == Members(f, events, j, i) && InRange(events, row.events)
  {
  }

  method AdminEventBundles(f: TextFunctions, all: seq<Event>) returns (bundles: seq<Bundle>)
    ensures var events := Shown(all); bundles == Rows(f, events, |events|)
  {
    var events := Shown(all);
    bundles := [];
    var open: map<string, nat> := map[];
    var terminalSeen := false;
    var i := 0;
    NothingYet(f, events);
    hide Rows, Row, Members, Leaders, Leader, Candidate, OpenAgrees, TerminalBefore;
    while i < |events|
      invariant 0 <= i <= |events|
      invariant bundles == Rows(f, events, i)
      invariant OpenAgrees(f, events, i, open)
      invariant terminalSeen <==> TerminalBefore(events, i)
    {
      var e := events[i];
      var kind, role, key := KindOf(e), RoleOf(e), KeyOf(f, e);
      hide KindOf, RoleOf, KeyOf, IsClosed, Closes, CanAppend, AnyAfterTerminal, IsTerminal;
      TerminalOneMore(events, i);
      Joins(f, events, i, open);
      if key in open && CanAppend(f, events, bundles[open[key]].kind, bundles[open[key]].role, bundles[open[key]].events, e) {
        var index := open[key];
        var row := bundles[index];
        RowsAfterJoin(f, events, i, index);
        OpenAfterJoin(f, events, i, open);
        RowAt(f, events, i + 1, index);
        var grown := row.(events := row.events + [i], afterTerminal := row.afterTerminal || terminalSeen);
        bundles := bundles[index := grown];
        if IsClosed(events, grown.kind, grown.events) { open := open - {key}; }
      } else {
        RowsAfterStart(f, events, i);
        OpenAfterStart(f, events, i, open);
        OneMoreCloses(events, kind, [], i);
        NothingClosed(events, kind);
        var row := Bundle(kind, role, key, [i], terminalSeen);
        bundles := bundles + [row];
        assert [] + [i] == [i];
        if !IsClosed(events, row.kind, row.events) { open := open[key := |bundles| - 1]; }
      }
      if IsTerminal(e) { terminalSeen := true; }
      i := i + 1;
    }
  }

  // ----- Main results, about the rows of any list of shown events -----

  function AllRows(f: TextFunctions, events: seq<Event>): seq<Bundle> { Rows(f, events, |events|) }

  lemma EventHasRow(f: TextFunctions, events: seq<Event>, k: nat)
    requires k < |events|
    ensures exists b :: 0 <= b < |AllRows(f, events)| && k in AllRows(f, events)[b].events
  {
    var n, rows, j := |events|, AllRows(f, events), Leader(f, events, k);
    LeaderIsLeader(f, events, k);
    hide Leader, Candidate, KindOf, RoleOf, KeyOf, AnyAfterTerminal;
    LeadersComplete(f, events, n, j);
    MembersComplete(f, events, j, n, k);
    hide Members, Leaders;
    var b :| 0 <= b < |rows| && Leaders(f, events, n)[b] == j;
    assert k in rows[b].events;
  }

  lemma EventHasOnePlace(f: TextFunctions, events: seq<Event>, b: nat, d: nat, x: nat, y: nat)
    requires b < |AllRows(f, events)| && d < |AllRows(f, events)|
    requires x < |AllRows(f, events)[b].events| && y < |AllRows(f, events)[d].events|
    requires AllRows(f, events)[b].events[x] == AllRows(f, events)[d].events[y]
    ensures b == d && x == y
  {
    var n := |events|;
    hide Leader, Candidate, KindOf, RoleOf, KeyOf, AnyAfterTerminal, Members, Leaders;
    LeadersIncrease(f, events, n);
    MembersAre(f, events, Leaders(f, events, n)[b], n);
    MembersAre(f, events, Leaders(f, events, n)[d], n);
  }

  /** Every event is in exactly one row, at one position. */
  lemma EveryEventInOneRow(f: TextFunctions, events: seq<Event>, k: nat)
    requires k < |events|
    ensures var rows := AllRows(f, events);
      && (exists b :: 0 <= b < |rows| && k in rows[b].events)
      && forall b, d, x, y ::
           (0 <= b < |rows| && 0 <= d < |rows| && 0 <= x < |rows[b].events| && 0 <= y < |rows[d].events|
            && rows[b].events[x] == k && rows[d].events[y] == k) ==> b == d && x == y
  {
    var rows := AllRows(f, events);
    EventHasRow(f, events, k);
    hide AllRows;
    forall b, d, x, y | 0 <= b < |rows| && 0 <= d < |rows| && 0 <= x < |rows[b].events| && 0 <= y < |rows[d].events|
      && rows[b].events[x] == k && rows[d].events[y] == k ensures b == d && x == y
    {
      EventHasOnePlace(f, events, b, d, x, y);
    }
  }

  lemma LeaderIsLeader(f: TextFunctions, events: seq<Event>, i: nat)
    requires i < |events|
    ensures Leader(f, events, Leader(f, events, i)) == Leader(f, events, i)
  {
    var c := Candidate(f, events, i, KeyOf(f, events[i]));
    if c.Some? { CandidateIsLeader(f, events, i, KeyOf(f, events[i])); }
    hide Candidate, CanAppend, KindOf, KeyOf, RoleOf, IsClosed;
  }

  /** Rows keep the order of the events and are ordered by their first event. */
  lemma RowsInOrder(f: TextFunctions, events: seq<Event>)
    ensures var rows := AllRows(f, events);
      && (forall b :: 0 <= b < |rows| ==> rows[b].events != [] && Increasing(rows[b].events))
      && (forall b, d :: 0 <= b < d < |rows| ==> rows[b].events[0] < rows[d].events[0])
  {
    var n, rows := |events|, AllRows(f, events);
    LeadersIncrease(f, events, n);
    hide Leader, KindOf, RoleOf, KeyOf, AnyAfterTerminal;
    forall b | 0 <= b < |rows|
      ensures rows[b].events != [] && rows[b].events[0] == Leaders(f, events, n)[b] && Increasing(rows[b].events)
    {
      StartsWithLeader(f, events, Leaders(f, events, n)[b], n);
      MembersAre(f, events, Leaders(f, events, n)[b], n);
    }
  }

  /** What holds when event `i` joins the bundle started earlier by event `j`. */
  lemma JoinFacts(f: TextFunctions, events: seq<Event>, i: nat)
    requires i < |events| && Leader(f, events, i) < i
    ensures var j := Leader(f, events, i); var at, kind := Members(f, events, j, i), KindOf(events[j]);
      && KeyOf(f, events[j]) == KeyOf(f, events[i])
      && !IsClosed(events, kind, at) && at != [] && CanAppend(f, events, kind, RoleOf(events[j]), at, events[i])
  {
    CandidateIsLeader(f, events, i, KeyOf(f, events[i]));
    hide CanAppend, KindOf, KeyOf, RoleOf, IsClosed;
  }

  /** The facts shared by all events of a row. */
  predicate Alike(f: TextFunctions, e: Event, d: Event) {
    && KeyOf(f, e) == KeyOf(f, d) && KindOf(e) == KindOf(d) && RoleOf(e) == RoleOf(d)
    && (KindOf(d) == "action" ==> ActionOf(e) == ActionOf(d))
    && (KindOf(d) == "transcript" ==> Transcript(f, e) == Transcript(f, d))
  }

  lemma AlikeLeader(f: TextFunctions, events: seq<Event>, i: nat)
    requires i < |events|
    ensures Alike(f, events[i], events[Leader(f, events, i)])
  {
    if Leader(f, events, i) < i {
      JoinFacts(f, events, i);
      StartsWithLeader2(f, events, i);
      hide KindOf, KeyOf, RoleOf, IsClosed, Leader, ActionOf, Transcript;
    }
  }

  lemma StartsWithLeader2(f: TextFunctions, events: seq<Event>, i: nat)
    requires i < |events| && Leader(f, events, i) < i
    ensures var j := Leader(f, events, i); var at := Members(f, events, j, i); at != [] && at[0] == j
  {
    LeaderIsLeader(f, events, i);
    hide Leader;
    StartsWithLeader(f, events, Leader(f, events, i), i);
  }

  /** All events of a row share its key, kind and role; those of an action row are about the same
      action, and those of a transcript row have the same normalised text. */
  lemma RowsAreAlike(f: TextFunctions, events: seq<Event>, b: nat)
    requires b < |AllRows(f, events)|
    ensures var row := AllRows(f, events)[b];
      forall x :: 0 <= x < |row.events| ==>
        var e := events[row.events[x]];
        && KeyOf(f, e) == row.key && KindOf(e) == row.kind && RoleOf(e) == row.role
        && (row.kind == "action" ==> ActionOf(e) == ActionOf(events[row.events[0]]))
        && (row.kind == "transcript" ==> Transcript(f, e) == Transcript(f, events[row.events[0]]))
  {
    var j, row := Leaders(f, events, |events|)[b], AllRows(f, events)[b];
    LeadersIncrease(f, events, |events|);
    hide KindOf, KeyOf, RoleOf, Leader, ActionOf, Transcript;
    MembersAre(f, events, j, |events|);
    StartsWithLeader(f, events, j, |events|);
    forall x | 0 <= x < |row.events| ensures Alike(f, events[row.events[x]], events[j]) {
      AlikeLeader(f, events, row.events[x]);
    }
  }

  predicate NoneBeforeLast(events: seq<Event>, kind: string, at: seq<nat>)
    requires InRange(events, at)
  {
    forall x :: 0 <= x < |at| - 1 ==> !Closes(kind, events[at[x]])
  }

  predicate AtMostOne(events: seq<Event>, at: seq<nat>, p: Event -> bool)
    requires InRange(events, at)
  {
    forall x, y :: 0 <= x < y < |at| ==> !(p(events[at[x]]) && p(events[at[y]]))
  }

  function Requests(): Event -> bool { (e: Event) => IsRequest(e) }

  function MessageEvents(): Event -> bool { (e: Event) => e.eventType == "conversation_message" }

  lemma NoneBeforeLastGrows(events: seq<Event>, kind: string, at: seq<nat>, i: nat)
    requires InRange(events, at) && i < |events| && !IsClosed(events, kind, at)
    ensures NoneBeforeLast(events, kind, at + [i])
  {
    hide Closes;
    forall x | 0 <= x < |at| ensures !Closes(kind, events[(at + [i])[x]]) {
      assert !Closes(kind, events[at[x]]);
    }
  }

  lemma AtMostOneGrows(events: seq<Event>, at: seq<nat>, p: Event -> bool, i: nat)
    requires InRange(events, at) && i < |events| && AtMostOne(events, at, p)
    requires !(p(events[i]) && exists x :: 0 <= x < |at| && p(events[at[x]]))
    ensures AtMostOne(events, at + [i], p)
  {
  }

  lemma MembersGrow(f: TextFunctions, events: seq<Event>, j: nat, i: nat)
    requires i < |events|
    ensures Members(f, events, j, i + 1) ==
            if Leader(f, events, i) == j then Members(f, events, j, i) + [i] else Members(f, events, j, i)
  {
    hide Leader;
  }

  /** Only the last event of a row closes it. */
  lemma {:induction false} OnlyLastCloses(f: TextFunctions, events: seq<Event>, j: nat, i: nat)
    requires j < i <= |events| && Leader(f, events, j) == j
    ensures NoneBeforeLast(events, KindOf(events[j]), Members(f, events, j, i))
  {
    hide NoneBeforeLast, KindOf, Leader, Members, Candidate, CanAppend, IsClosed;
    MembersGrow(f, events, j, i - 1);
    var kind, before := KindOf(events[j]), Members(f, events, j, i - 1);
    if i == j + 1 {
      NoMembersBefore(f, events, j, j);
      NothingClosed(events, kind);
      NoneBeforeLastGrows(events, kind, before, j);
    } else {
      OnlyLastCloses(f, events, j, i - 1);
      if Leader(f, events, i - 1) == j {
        JoinFacts(f, events, i - 1);
        NoneBeforeLastGrows(events, kind, before, i - 1);
      }
    }
  }

  lemma MembersInRange(f: TextFunctions, events: seq<Event>, j: nat, i: nat)
    requires i <= |events|
    ensures InRange(events, Members(f, events, j, i))
  {
    hide Members;
  }

  /** An action row has at most one request, a transcript row at most one chat message. */
  lemma {:induction false} NoRepeats(f: TextFunctions, events: seq<Event>, j: nat, i: nat, p: Event -> bool)
    requires j < i <= |events| && Leader(f, events, j) == j
    requires (KindOf(events[j]) == "action" && p == Requests()) || (KindOf(events[j]) == "transcript" && p == MessageEvents())
    ensures AtMostOne(events, Members(f, events, j, i), p)
  {
    hide AtMostOne, KindOf, KeyOf, RoleOf, Leader, Members, Candidate, CanAppend, IsClosed, Requests, MessageEvents, InRange;
    assert InRange(events, Members(f, events, j, i)) by { MembersInRange(f, events, j, i); }
    assert InRange(events, Members(f, events, j, i - 1)) by { MembersInRange(f, events, j, i - 1); }
    MembersGrow(f, events, j, i - 1);
    var before := Members(f, events, j, i - 1);
    if i == j + 1 {
      NoMembersBefore(f, events, j, j);
      AtMostOneOfOne(events, j, p);
    } else {
      NoRepeats(f, events, j, i - 1, p);
      if Leader(f, events, i - 1) == j {
        JoinFacts(f, events, i - 1);
        NoSecond(f, events, KindOf(events[j]), RoleOf(events[j]), before, i - 1, p);
        AtMostOneGrows(events, before, p, i - 1);
      }
    }
  }

  lemma AtMostOneOfOne(events: seq<Event>, j: nat, p: Event -> bool)
    requires j < |events|
    ensures AtMostOne(events, [] + [j], p)
  {
  }

  lemma NoSecond(f: TextFunctions, events: seq<Event>, kind: string, role: Option<string>, at: seq<nat>, i: nat, p: Event -> bool)
    requires i < |events| && InRange(events, at) && at != [] && CanAppend(f, events, kind, role, at, events[i])
    requires (kind == "action" && p == Requests()) || (kind == "transcript" && p == MessageEvents())
    ensures !(p(events[i]) && exists x :: 0 <= x < |at| && p(events[at[x]]))
  {
    hide KindOf, RoleOf, IsClosed, ActionOf, Transcript, IsRequest;
  }

  /** A request, a result, or a request and then its result. */
  predicate ActionShape(events: seq<Event>, at: seq<nat>)
    requires InRange(events, at)
  {
    || (|at| == 1 && (IsRequest(events[at[0]]) || IsResult(events[at[0]])))
    || (|at| == 2 && IsRequest(events[at[0]]) && IsResult(events[at[1]]))
  }

  /** The stored type of this event is itself "action", which no part of the code writes. */
  predicate Stray(e: Event) { e.eventType == "action" }

  /** An action row has this shape exactly when none of its events is of the stray type. */
  lemma ActionRowShape(f: TextFunctions, events: seq<Event>, b: nat)
    requires b < |AllRows(f, events)| && AllRows(f, events)[b].kind == "action"
    ensures var at := AllRows(f, events)[b].events;
      ActionShape(events, at) <==> forall x :: 0 <= x < |at| ==> !Stray(events[at[x]])
  {
    var j, at := Leaders(f, events, |events|)[b], AllRows(f, events)[b].events;
    LeadersIncrease(f, events, |events|);
    RowsAreAlike(f, events, b);
    hide Leader, RoleOf, KeyOf, KindOf, ActionOf, Transcript, IsRequest, IsResult;
    assert KindOf(events[j]) == "action" && Leader(f, events, j) == j;
    StartsWithLeader(f, events, j, |events|);
    OnlyLastCloses(f, events, j, |events|);
    NoRepeats(f, events, j, |events|, Requests());
    hide Members, Leaders, NoneBeforeLast, AtMostOne, Requests;
    if forall x :: 0 <= x < |at| ==> !Stray(events[at[x]]) {
      forall x | 0 <= x < |at| ensures IsRequest(events[at[x]]) || IsResult(events[at[x]]) {
        ActionKinds(events[at[x]]);
      }
      ShapeFromRules(events, at);
    } else {
      StrayBreaks(events, at);
    }
  }

  lemma StrayBreaks(events: seq<Event>, at: seq<nat>)
    requires InRange(events, at) && exists x :: 0 <= x < |at| && Stray(events[at[x]])
    ensures !ActionShape(events, at)
  {
  }

  lemma ActionKinds(e: Event)
    requires KindOf(e) == "action"
    ensures IsRequest(e) || IsResult(e) || Stray(e)
  {
  }

  lemma ShapeFromRules(events: seq<Event>, at: seq<nat>)
    requires InRange(events, at) && at != []
    requires NoneBeforeLast(events, "action", at) && AtMostOne(events, at, Requests())
    requires forall x :: 0 <= x < |at| ==> IsRequest(events[at[x]]) || IsResult(events[at[x]])
    ensures ActionShape(events, at)
  {
    if |at| >= 2 {
      assert !Closes("action", events[at[0]]) && IsRequest(events[at[0]]);
      assert Requests()(events[at[0]]) && !Requests()(events[at[1]]);
      assert Closes("action", events[at[1]]);
    }
  }

  /** The dashboard passes on only events of known types, and then every action row has the shape. */
  predicate IsImportant(e: Event) {
    e.eventType in {"agent_action", "conversation_message", "log", "game_action_accepted", "game_action_rejected",
      "game_action_submitted", "participant_connected", "participant_disconnected", "participant_joined", "ready",
      "session_abandoned", "session_completed", "session_created", "session_expired", "transcript_segment",
      "voice_diagnostic"}
  }

  lemma DashboardActionRows(f: TextFunctions, all: seq<Event>, b: nat)
    requires forall k :: 0 <= k < |all| ==> IsImportant(all[k])
    requires b < |AllRows(f, Shown(all))| && AllRows(f, Shown(all))[b].kind == "action"
    ensures ActionShape(Shown(all), AllRows(f, Shown(all))[b].events)
  {
    ShownAre(all);
    ActionRowShape(f, Shown(all), b);
  }

  lemma {:induction false} ShownAre(all: seq<Event>)
    ensures forall k :: 0 <= k < |Shown(all)| ==> Shown(all)[k] in all && IsShown(Shown(all)[k])
    ensures forall k :: 0 <= k < |all| && IsShown(all[k]) ==> all[k] in Shown(all)
  {
    hide IsShown;
    if all != [] { ShownAre(all[..|all| - 1]); }
  }

  /** Corollary of what a row is: it is marked exactly when one of its events comes strictly after a terminal event. */
  lemma AfterTerminalRows(f: TextFunctions, events: seq<Event>, b: nat)
    requires b < |AllRows(f, events)|
    ensures var row := AllRows(f, events)[b];
      row.afterTerminal <==>
        exists x, t :: 0 <= x < |row.events| && 0 <= t < row.events[x] && IsTerminal(events[t])
  {
    var row := AllRows(f, events)[b];
    if x, t :| 0 <= x < |row.events| && 0 <= t < row.events[x] && IsTerminal(events[t]) {
      assert TerminalBefore(events, row.events[x]);
    }
  }

  /** Two stray events share a row which is neither a request nor a result. */
  lemma StrayRow(f: TextFunctions) returns (events: seq<Event>)
    ensures |AllRows(f, events)| == 1 && AllRows(f, events)[0].kind == "action"
    ensures AllRows(f, events)[0].events == [0, 1] && !ActionShape(events, [0, 1])
  {
    var e := Event(0, "action", None, None, Null, Null);
    events := [e, e];
    var key := KeyOf(f, e);
    assert KindOf(e) == "action" && !Closes("action", e) && !IsRequest(e);
    hide KeyOf, KindOf, Closes, IsRequest;
    assert Candidate(f, events, 0, key) == None;
    assert Leader(f, events, 0) == 0;
    assert Candidate(f, events, 1, key) == Some(0);
    assert Members(f, events, 0, 0) == [] && Members(f, events, 0, 1) == [0];
    assert !IsClosed(events, "action", [0]);
    assert CanAppend(f, events, "action", RoleOf(e), [0], e);
    assert Leader(f, events, 1) == 0;
    assert Leaders(f, events, 0) == [] && Leaders(f, events, 1) == [0] && Leaders(f, events, 2) == [0];
    assert Members(f, events, 0, 2) == [0, 1];
  }

  // ----- When events must share a row -----

  ghost predicate ShareRow(f: TextFunctions, events: seq<Event>, i: nat, k: nat) {
    exists b :: 0 <= b < |AllRows(f, events)| && i in AllRows(f, events)[b].events && k in AllRows(f, events)[b].events
  }

  /** Event `k` is the next one after `i` with the same key. */
  ghost predicate NextOfKey(f: TextFunctions, events: seq<Event>, i: nat, k: nat) {
    && i < k < |events| && KeyOf(f, events[i]) == KeyOf(f, events[k])
    && forall m :: i < m < k ==> KeyOf(f, events[m]) != KeyOf(f, events[k])
  }

  lemma ShareRowIffLeader(f: TextFunctions, events: seq<Event>, i: nat, k: nat)
    requires i < |events| && k < |events|
    ensures ShareRow(f, events, i, k) <==> Leader(f, events, i) == Leader(f, events, k)
  {
    var n, rows := |events|, AllRows(f, events);
    hide Leader, Candidate, KindOf, RoleOf, KeyOf, AnyAfterTerminal, Members, Leaders;
    LeadersIncrease(f, events, n);
    if ShareRow(f, events, i, k) {
      var b :| 0 <= b < |rows| && i in rows[b].events && k in rows[b].events;
      MembersAre(f, events, Leaders(f, events, n)[b], n);
    }
    if Leader(f, events, i) == Leader(f, events, k) {
      var j := Leader(f, events, i);
      LeaderIsLeader(f, events, i);
      LeadersComplete(f, events, n, j);
      MembersComplete(f, events, j, n, i);
      MembersComplete(f, events, j, n, k);
      var b :| 0 <= b < |rows| && Leaders(f, events, n)[b] == j;
      assert i in rows[b].events && k in rows[b].events;
    }
  }

  lemma {:induction false} CandidateStays(f: TextFunctions, events: seq<Event>, i: nat, k: nat, key: string)
    requires i <= k <= |events| && forall m :: i <= m < k ==> KeyOf(f, events[m]) != key
    ensures Candidate(f, events, k, key) == Candidate(f, events, i, key)
    decreases k
  {
    hide KeyOf, Leader, Closes, KindOf;
    if i < k { CandidateStays(f, events, i, k - 1, key); }
  }

  lemma {:induction false} MembersStay(f: TextFunctions, events: seq<Event>, j: nat, i: nat, k: nat)
    requires i <= k <= |events| && j < i && forall m :: i <= m < k ==> KeyOf(f, events[m]) != KeyOf(f, events[j])
    ensures Members(f, events, j, k) == Members(f, events, j, i)
    decreases k
  {
    hide KeyOf, KindOf, RoleOf, ActionOf, Transcript, Leader, Candidate;
    if i < k {
      MembersStay(f, events, j, i, k - 1);
      AlikeLeader(f, events, k - 1);
    }
  }

  lemma ClosedIffLast(events: seq<Event>, kind: string, at: seq<nat>)
    requires InRange(events, at) && at != [] && NoneBeforeLast(events, kind, at)
    ensures IsClosed(events, kind, at) <==> Closes(kind, events[at[|at| - 1]])
  {
    hide Closes;
  }

  /** Up to its event `i`, the row is closed exactly when that event closes it. */
  lemma ClosedByLast(f: TextFunctions, events: seq<Event>, i: nat)
    requires i < |events|
    ensures var j := Leader(f, events, i); var at := Members(f, events, j, i + 1);
      && at != [] && at[0] == j && at[|at| - 1] == i
      && (IsClosed(events, KindOf(events[j]), at) <==> Closes(KindOf(events[i]), events[i]))
  {
    hide Leader, KeyOf, KindOf, RoleOf, Closes, Members, ActionOf, Transcript, IsClosed, NoneBeforeLast;
    var j := Leader(f, events, i);
    LeaderIsLeader(f, events, i);
    AlikeLeader(f, events, i);
    StartsWithLeader(f, events, j, i + 1);
    OnlyLastCloses(f, events, j, i + 1);
    MembersGrow(f, events, j, i);
    ClosedIffLast(events, KindOf(events[j]), Members(f, events, j, i + 1));
  }

  /** Event `i` left a row open: then that row is the candidate for the next event of its key. */
  lemma NextCandidate(f: TextFunctions, events: seq<Event>, i: nat, k: nat)
    requires NextOfKey(f, events, i, k) && !Closes(KindOf(events[i]), events[i])
    ensures Candidate(f, events, k, KeyOf(f, events[k])) == Some(Leader(f, events, i))
    ensures Members(f, events, Leader(f, events, i), k) == Members(f, events, Leader(f, events, i), i + 1)
  {
    hide Leader, KindOf, KeyOf, RoleOf, Closes, ActionOf, Transcript, Members;
    var key, j := KeyOf(f, events[k]), Leader(f, events, i);
    CandidateStays(f, events, i + 1, k, key);
    AlikeLeader(f, events, i);
    MembersStay(f, events, j, i + 1, k);
    if j < i { LeaderOfJoined(f, events, i); }
  }

  lemma LeaderOfJoined(f: TextFunctions, events: seq<Event>, i: nat)
    requires i < |events| && Leader(f, events, i) < i
    ensures Candidate(f, events, i, KeyOf(f, events[i])) == Some(Leader(f, events, i))
  {
    hide Candidate, KindOf, KeyOf, RoleOf, IsClosed, CanAppend;
  }

  /** Event `k` belongs in the row of event `i` before it: that event left its row open, and the row takes
      this one. */
  ghost predicate Belongs(f: TextFunctions, events: seq<Event>, i: nat, k: nat)
    requires i < k < |events|
  {
    var d, e := events[i], events[k];
    && KindOf(d) == KindOf(e) && RoleOf(d) == RoleOf(e) && !Closes(KindOf(d), d)
    && if KindOf(e) == "action" then
         ActionOf(d) == ActionOf(e)
         && !(IsRequest(e) && RowHasRequest(f, events, i))
       else if KindOf(e) == "transcript" then
         Transcript(f, d) == Transcript(f, e)
         && !(IsMessage(e) && RowHasMessage(f, events, i))
       else KindOf(e) == "participant" || KindOf(e) == "voice"
  }

  predicate IsMessage(e: Event) { e.eventType == "conversation_message" }

  /** Event `i` or an earlier one of its row is a request. */
  ghost predicate RowHasRequest(f: TextFunctions, events: seq<Event>, i: nat)
    requires i < |events|
  {
    exists m :: 0 <= m <= i && ShareRow(f, events, m, i) && IsRequest(events[m])
  }

  ghost predicate RowHasMessage(f: TextFunctions, events: seq<Event>, i: nat)
    requires i < |events|
  {
    exists m :: 0 <= m <= i && ShareRow(f, events, m, i) && IsMessage(events[m])
  }

  predicate AnyRequest(events: seq<Event>, at: seq<nat>)
    requires InRange(events, at)
  {
    exists x :: 0 <= x < |at| && IsRequest(events[at[x]])
  }

  predicate AnyMessage(events: seq<Event>, at: seq<nat>)
    requires InRange(events, at)
  {
    exists x :: 0 <= x < |at| && IsMessage(events[at[x]])
  }

  lemma MemberShares(f: TextFunctions, events: seq<Event>, i: nat, x: nat)
    requires i < |events| && x < |Members(f, events, Leader(f, events, i), i + 1)|
    ensures var m := Members(f, events, Leader(f, events, i), i + 1)[x]; m <= i && ShareRow(f, events, m, i)
  {
    hide Leader, ShareRow, Members, Increasing;
    MembersAre(f, events, Leader(f, events, i), i + 1);
    ShareRowIffLeader(f, events, Members(f, events, Leader(f, events, i), i + 1)[x], i);
  }

  lemma SharerIsMember(f: TextFunctions, events: seq<Event>, i: nat, m: nat)
    requires m <= i < |events| && ShareRow(f, events, m, i)
    ensures m in Members(f, events, Leader(f, events, i), i + 1)
  {
    hide Leader, ShareRow, Members;
    ShareRowIffLeader(f, events, m, i);
    MembersComplete(f, events, Leader(f, events, i), i + 1, m);
  }

  lemma RowsBefore(f: TextFunctions, events: seq<Event>, i: nat)
    requires i < |events|
    ensures var at := Members(f, events, Leader(f, events, i), i + 1);
      && (forall x :: 0 <= x < |at| ==> 0 <= at[x] <= i && ShareRow(f, events, at[x], i))
      && (forall m :: 0 <= m <= i && ShareRow(f, events, m, i) ==> m in at)
  {
    hide *;
    var at := Members(f, events, Leader(f, events, i), i + 1);
    forall x | 0 <= x < |at| ensures 0 <= at[x] <= i && ShareRow(f, events, at[x], i) { MemberShares(f, events, i, x); }
    forall m | 0 <= m <= i && ShareRow(f, events, m, i) ensures m in at { SharerIsMember(f, events, i, m); }
  }

  lemma RowHas(f: TextFunctions, events: seq<Event>, i: nat)
    requires i < |events|
    ensures var at := Members(f, events, Leader(f, events, i), i + 1);
      && (AnyRequest(events, at) <==> RowHasRequest(f, events, i))
      && (AnyMessage(events, at) <==> RowHasMessage(f, events, i))
  {
    RowsBefore(f, events, i);
    hide Leader, ShareRow, Members, IsRequest, IsMessage;
  }

  /** `CanAppend` for an open row. */
  lemma AppendableIs(f: TextFunctions, events: seq<Event>, kind: string, role: Option<string>, at: seq<nat>, e: Event)
    requires InRange(events, at) && at != [] && !IsClosed(events, kind, at)
    ensures CanAppend(f, events, kind, role, at, e) <==>
              && kind == KindOf(e) && role == RoleOf(e)
              && if kind == "action" then
                   ActionOf(events[at[0]]) == ActionOf(e) && !(IsRequest(e) && AnyRequest(events, at))
                 else if kind == "transcript" then
                   Transcript(f, events[at[0]]) == Transcript(f, e) && !(IsMessage(e) && AnyMessage(events, at))
                 else kind == "participant" || kind == "voice"
  {
    hide KindOf, RoleOf, ActionOf, Transcript, IsRequest, IsClosed;
  }

  lemma TakesIffBelongs(f: TextFunctions, events: seq<Event>, i: nat, k: nat)
    requires i < k < |events| && !Closes(KindOf(events[i]), events[i])
    ensures var j := Leader(f, events, i); var at := Members(f, events, j, i + 1);
      && at != [] && !IsClosed(events, KindOf(events[j]), at)
      && (CanAppend(f, events, KindOf(events[j]), RoleOf(events[j]), at, events[k]) <==> Belongs(f, events, i, k))
  {
    hide Leader, KindOf, RoleOf, KeyOf, ActionOf, Transcript, Members, ShareRow, Closes, IsClosed, IsRequest, IsMessage,
         AnyRequest, AnyMessage, RowHasRequest, RowHasMessage, CanAppend;
    var j := Leader(f, events, i);
    var at := Members(f, events, j, i + 1);
    ClosedByLast(f, events, i);
    AlikeLeader(f, events, i);
    RowHas(f, events, i);
    AppendableIs(f, events, KindOf(events[j]), RoleOf(events[j]), at, events[k]);
  }

  /** Of two neighbouring events of one key, the second is in the row of the first exactly when it belongs
      there. */
  lemma NeighboursShareRow(f: TextFunctions, events: seq<Event>, i: nat, k: nat)
    requires NextOfKey(f, events, i, k)
    ensures ShareRow(f, events, i, k) <==> Belongs(f, events, i, k)
  {
    ShareRowIffLeader(f, events, i, k);
    var j := Leader(f, events, i);
    if Closes(KindOf(events[i]), events[i]) {
      ClosedRowStays(f, events, i, k);
    } else {
      NextCandidate(f, events, i, k);
      TakesIffBelongs(f, events, i, k);
      hide Belongs, ShareRow, Candidate, KindOf, RoleOf, KeyOf, IsClosed, CanAppend, Members, Closes, NextOfKey;
    }
  }

  lemma ClosedRowStays(f: TextFunctions, events: seq<Event>, i: nat, k: nat)
    requires NextOfKey(f, events, i, k) && Closes(KindOf(events[i]), events[i])
    ensures Leader(f, events, k) != Leader(f, events, i)
  {
    var j := Leader(f, events, i);
    hide Leader, KindOf, KeyOf, RoleOf, Closes, ActionOf, Transcript, Members, CanAppend, IsClosed;
    AlikeLeader(f, events, i);
    MembersStay(f, events, j, i + 1, k);
    ClosedByLast(f, events, i);
    if Leader(f, events, k) == j { JoinFacts(f, events, k); }
  }

  // ----- The same, by event type -----

  const REQUESTS := ["agent_action", "game_action_submitted"]
  const RESULTS := ["game_action_accepted", "game_action_rejected"]
  const PRESENCE := ["participant_joined", "participant_connected", "participant_disconnected", "ready"]

  predicate IsSpoken(e: Event) {
    || e.eventType == "transcript_segment"
    || (e.eventType == "conversation_message" && AsText(Get(e.detail, "origin")) == Some("voice_transcript"))
  }

  /** A request and the result that follows it, of one role and about one action, share a row; no other two
      neighbouring action events do. */
  lemma ResultJoinsItsRequest(f: TextFunctions, events: seq<Event>, i: nat, k: nat)
    requires NextOfKey(f, events, i, k) && RoleOf(events[i]) == RoleOf(events[k])
    requires events[i].eventType in REQUESTS + RESULTS && events[k].eventType in REQUESTS + RESULTS
    ensures ShareRow(f, events, i, k) <==>
              && events[i].eventType in REQUESTS && events[k].eventType in RESULTS
              && ActionOf(events[i]) == ActionOf(events[k])
  {
    hide KindOf, KeyOf, RoleOf, ActionOf, Closes, ShareRow, IsRequest, IsResult;
    NeighboursShareRow(f, events, i, k);
    ActionKind(events[i]);
    ActionKind(events[k]);
    ShareRowIffLeader(f, events, i, i);
    if IsRequest(events[i]) { assert RowHasRequest(f, events, i); }
  }

  lemma ActionKind(e: Event)
    requires e.eventType in REQUESTS + RESULTS
    ensures KindOf(e) == "action" && (Closes("action", e) <==> e.eventType in RESULTS)
    ensures (IsRequest(e) <==> e.eventType in REQUESTS) && (e.eventType in REQUESTS <==> e.eventType !in RESULTS)
  {
  }

  /** Presence events of one role share a row up to and including the one which ends it. */
  lemma PresenceEventsJoin(f: TextFunctions, events: seq<Event>, i: nat, k: nat)
    requires NextOfKey(f, events, i, k) && RoleOf(events[i]) == RoleOf(events[k])
    requires events[i].eventType in PRESENCE && events[k].eventType in PRESENCE
    ensures ShareRow(f, events, i, k) <==> events[i].eventType !in ["ready", "participant_disconnected"]
  {
    NeighboursShareRow(f, events, i, k);
    var d, e := events[i], events[k];
    assert KindOf(d) == KindOf(e) == "participant";
    assert Closes("participant", d) <==> d.eventType in ["ready", "participant_disconnected"];
    hide KindOf, KeyOf, RoleOf, ActionOf, Closes, ShareRow, NextOfKey;
  }

  /** Voice diagnostics of one role share a row up to and including the one whose text ends it. */
  lemma VoiceEventsJoin(f: TextFunctions, events: seq<Event>, i: nat, k: nat)
    requires NextOfKey(f, events, i, k) && RoleOf(events[i]) == RoleOf(events[k])
    requires events[i].eventType == events[k].eventType == "voice_diagnostic"
    ensures ShareRow(f, events, i, k) <==>
              forall word :: word in ["transcription_stream_started", "ready", "fail", "error", "disconnect"] ==>
                !Contains(LowerAscii(TextOf(events[i])), word)
  {
    NeighboursShareRow(f, events, i, k);
    var d, e := events[i], events[k];
    assert KindOf(d) == KindOf(e) == "voice";
    VoiceCloses(d);
    hide KindOf, KeyOf, RoleOf, ActionOf, Closes, ShareRow, NextOfKey, Contains;
  }

  lemma VoiceCloses(e: Event)
    ensures Closes("voice", e) <==>
            exists word :: word in ["transcription_stream_started", "ready", "fail", "error", "disconnect"]
              && Contains(LowerAscii(TextOf(e)), word)
  {
    hide Contains, LowerAscii, TextOf;
    var words := ["transcription_stream_started", "ready", "fail", "error", "disconnect"];
    assert words[0] in words && words[1] in words && words[2] in words && words[3] in words && words[4] in words;
  }

  /** Spoken events of one role and one normalised text share a row, except that it takes one chat message. */
  lemma SpokenEventsJoin(f: TextFunctions, events: seq<Event>, i: nat, k: nat)
    requires NextOfKey(f, events, i, k) && RoleOf(events[i]) == RoleOf(events[k])
    requires IsSpoken(events[i]) && IsSpoken(events[k])
    ensures Transcript(f, events[i]) == Transcript(f, events[k])
    ensures ShareRow(f, events, i, k) <==>
            !(events[k].eventType == "conversation_message"
              && exists m :: 0 <= m <= i && ShareRow(f, events, m, i) && events[m].eventType == "conversation_message")
  {
    hide KindOf, KeyOf, RoleOf, ActionOf, Closes, ShareRow, Transcript, IsSpoken;
    NeighboursShareRow(f, events, i, k);
    SpokenKind(events[i]);
    SpokenKind(events[k]);
    SpokenKeys(f, events[i], events[k]);
  }

  lemma SpokenKind(e: Event)
    requires IsSpoken(e)
    ensures KindOf(e) == "transcript" && !Closes("transcript", e)
  {
  }

  lemma SpokenKeys(f: TextFunctions, d: Event, e: Event)
    requires KindOf(d) == KindOf(e) == "transcript" && RoleOf(d) == RoleOf(e) && KeyOf(f, d) == KeyOf(f, e)
    ensures Transcript(f, d) == Transcript(f, e)
  {
    hide KindOf, RoleOf, Transcript;
    var role := if RoleOf(d).Some? then RoleOf(d).value else "system";
    var head := "transcript" + ":" + role + ":";
    assert KeyOf(f, d) == head + Transcript(f, d) && KeyOf(f, e) == head + Transcript(f, e);
    assert KeyOf(f, d)[|head|..] == Transcript(f, d) && KeyOf(f, e)[|head|..] == Transcript(f, e);
  }

  predicate StandsAlone(e: Event) {
    || e.eventType in ["log", "session_created", "session_completed", "session_abandoned", "session_expired"]
    || (e.eventType == "conversation_message" && !IsSpoken(e))
  }

  lemma KindStandsAlone(e: Event)
    requires StandsAlone(e)
    ensures KindOf(e) !in ["action", "participant", "voice", "transcript"]
  {
  }

  lemma OthersLead(f: TextFunctions, events: seq<Event>, i: nat)
    requires i < |events| && KindOf(events[Leader(f, events, i)]) !in ["action", "participant", "voice", "transcript"]
    ensures Leader(f, events, i) == i
  {
    hide KindOf, RoleOf, KeyOf, Leader, IsClosed, Members;
    if Leader(f, events, i) < i { JoinFacts(f, events, i); }
  }

  /** Every other event has a row of its own. */
  lemma OtherEventsStandAlone(f: TextFunctions, events: seq<Event>, i: nat, k: nat)
    requires i < |events| && k < |events| && i != k && StandsAlone(events[i])
    ensures !ShareRow(f, events, i, k)
  {
    ShareRowIffLeader(f, events, i, k);
    KindStandsAlone(events[i]);
    AlikeLeader(f, events, i);
    hide KindOf, KeyOf, RoleOf, Leader, ShareRow, StandsAlone, ActionOf, Transcript;
    OthersLead(f, events, i);
    if Leader(f, events, k) == i { OthersLead(f, events, k); }
  }

  // ----- The shown events -----

  /** The positions of the shown events. */
  function ShownAt(all: seq<Event>): seq<nat> {
    if all == [] then [] else
      ShownAt(all[..|all| - 1]) + if IsShown(all[|all| - 1]) then [|all| - 1] else []
  }

  ghost predicate ShownAtIs(all: seq<Event>, at: seq<nat>, shown: seq<Event>) {
    && |at| == |shown| && Increasing(at)
    && (forall i :: 0 <= i < |at| ==> at[i] < |all| && IsShown(all[at[i]]) && shown[i] == all[at[i]])
    && (forall k :: 0 <= k < |all| && IsShown(all[k]) ==> k in at)
  }

  lemma OneMoreShown(front: seq<Event>, e: Event, at: seq<nat>, shown: seq<Event>)
    requires ShownAtIs(front, at, shown)
    ensures IsShown(e) ==> ShownAtIs(front + [e], at + [|front|], shown + [e])
    ensures !IsShown(e) ==> ShownAtIs(front + [e], at, shown)
  {
    hide IsShown;
    var all, more := front + [e], at + [|front|];
    assert forall k :: 0 <= k < |front| ==> all[k] == front[k];
    forall k | 0 <= k < |front| && IsShown(all[k]) ensures k in at && k in more {
      assert IsShown(front[k]);
    }
    assert more[|at|] == |front|;
  }

  /** The shown events are those which are to be shown, each once, in their order. */
  lemma {:induction false} ShownInOrder(all: seq<Event>)
    ensures ShownAtIs(all, ShownAt(all), Shown(all))
  {
    hide IsShown, ShownAtIs;
    if all != [] {
      var front, e := all[..|all| - 1], all[|all| - 1];
      ShownInOrder(front);
      OneMoreShown(front, e, ShownAt(front), Shown(front));
      assert all == front + [e];
      assert !IsShown(e) ==> ShownAt(all) == ShownAt(front) + [] == ShownAt(front);
    } else {
      NothingShown();
    }
  }

  lemma NothingShown()
    ensures ShownAtIs([], ShownAt([]), Shown([]))
  {
  }

  // ----- What is read off an event -----

  /** Events with the same coordinates have the same key: the role for presence and voice events, the role
      and the action for actions, the role and the normalised text for spoken ones. */
  lemma SameCoordinatesSameKey(f: TextFunctions, d: Event, e: Event)
    requires RoleOf(d) == RoleOf(e)
    ensures d.eventType in PRESENCE && e.eventType in PRESENCE ==> KeyOf(f, d) == KeyOf(f, e)
    ensures d.eventType == e.eventType == "voice_diagnostic" ==> KeyOf(f, d) == KeyOf(f, e)
    ensures (d.eventType in REQUESTS + RESULTS && e.eventType in REQUESTS + RESULTS
             && Get(d.detail, "action") == Get(e.detail, "action")) ==> KeyOf(f, d) == KeyOf(f, e)
    ensures IsSpoken(d) && IsSpoken(e) && Transcript(f, d) == Transcript(f, e) ==> KeyOf(f, d) == KeyOf(f, e)
  {
    PresenceKind(d);
    PresenceKind(e);
    hide KindOf, RoleOf, Transcript, Get;
  }

  lemma PresenceKind(e: Event)
    ensures e.eventType in PRESENCE ==> KindOf(e) == "participant"
    ensures e.eventType == "voice_diagnostic" ==> KindOf(e) == "voice"
    ensures e.eventType in REQUESTS + RESULTS ==> KindOf(e) == "action"
    ensures IsSpoken(e) ==> KindOf(e) == "transcript"
  {
    hide RoleOf, Get;
  }

  /** The role of an event is that of its actor; without one, the first of three text fields of its detail. */
  lemma RoleIsRead(e: Event, role: string)
    ensures e.actorRole.Some? ==> RoleOf(e) == e.actorRole
    ensures e.actorRole.None? && Get(e.detail, "player") == Some(Text(role)) ==> RoleOf(e) == Some(role)
    ensures e.actorRole.None? && AsText(Get(e.detail, "player")).None? && Get(e.detail, "sender_role") == Some(Text(role)) ==>
              RoleOf(e) == Some(role)
    ensures e.actorRole.None? && AsText(Get(e.detail, "player")).None? && AsText(Get(e.detail, "sender_role")).None? ==>
              RoleOf(e) == AsText(Get(e.detail, "role"))
  {
    hide Get;
  }

  /** The action of an event is that of its detail, or else that of its stored payload. */
  lemma ActionIsRead(e: Event)
    ensures Get(e.detail, "action").Some? ==> ActionOf(e) == Some(MeaningOf(Get(e.detail, "action").value))
    ensures Get(e.detail, "action").None? && Payload(e, "action").Some? ==>
              ActionOf(e) == Some(MeaningOf(Payload(e, "action").value))
    ensures Get(e.detail, "action").None? && Payload(e, "action").None? ==> ActionOf(e) == None
  {
    hide Get, Payload, MeaningOf;
  }
}
