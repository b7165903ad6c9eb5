/** Model of human-versus-human admission in rust-server/src/app.rs: the admission block of
    `create_session`, `ensure_session_capacity`, `open_human_session_for_pairing`,
    `add_human_participant_to_session_locked` and `create_live_session_locked`.
    One participant at a time is inside the admission block, but sessions start, end, expire and
    are removed between any two of its steps. */
module Matchmaking {
  import opened Wrappers

  /** A participant session and its purpose, fixed when it was registered. */
  datatype Participant = Participant(id: nat, purpose: string)

  /** `starting`: durably started, memory write outstanding. `revived`: that write came after the
      session had ended. */
  datatype Session = Session(
    purpose: string, lifecycle: Lifecycle, players: map<Participant, Role>, starting: bool, revived: bool)

  type SessionId = nat

  /** How far the participant inside the admission block has come. */
  datatype Admission =
    | Open
    | Pairing(p: Participant, sid: SessionId)
    | Creating(p: Participant)
    | Checked(p: Participant)
    | Completing(sid: SessionId)

  datatype Config = Config(maxWaiting: nat, maxActive: nat, maxStreams: nat, speechmatics: bool)

  datatype Memory = Memory(sessions: map<SessionId, Session>, participants: set<Participant>, admission: Admission)

  datatype Event =
    | Register(p: Participant)
    | Forget(p: Participant)
    | FindPartner(p: Participant, sid: SessionId)
    | FindNobody(p: Participant)
    | Pair
    | CheckCapacity
    | Insert(sid: SessionId)
    | Abort
    | Complete(ok: bool)
    | StartCommit(sid: SessionId)
    | StartWrite(sid: SessionId)
    | End(sid: SessionId)
    | Remove(sid: SessionId)

  /** `next_role`. */
  function NextRole(s: Session): Option<Role> {
    if A !in s.players.Values then Some(A) else if B !in s.players.Values then Some(B) else None
  }

  /** What the scan for an open session accepts. */
  predicate Joinable(s: Session, purpose: string) {
    s.lifecycle == Forming && s.purpose == purpose && NextRole(s) == Some(B)
  }

  function Waiting(sessions: map<SessionId, Session>): set<SessionId> {
    set sid | sid in sessions && sessions[sid].lifecycle == Forming && |sessions[sid].players| < 2
  }

  function Active(sessions: map<SessionId, Session>): set<SessionId> {
    set sid | sid in sessions && sessions[sid].lifecycle == Running
  }

  /** Human participants of sessions which have not ended: the reserved transcription streams. */
  function Streams(sessions: map<SessionId, Session>): set<(SessionId, Participant)> {
    set sid, p | sid in sessions && p in sessions[sid].players && sessions[sid].lifecycle != Ended :: (sid, p)
  }

  /** The same, without sessions which came back after their end. */
  function ProperStreams(sessions: map<SessionId, Session>): set<(SessionId, Participant)> {
    set sid, p | sid in sessions && p in sessions[sid].players && sessions[sid].lifecycle != Ended
                 && !sessions[sid].revived :: (sid, p)
  }

  /** `ensure_session_capacity` for one more stream. */
  predicate HasCapacity(c: Config, sessions: map<SessionId, Session>, waiting: bool) {
    && (if waiting then |Waiting(sessions)| < c.maxWaiting else |Active(sessions)| < c.maxActive)
    && (c.speechmatics ==> |Streams(sessions)| + 1 <= c.maxStreams)
  }

  predicate Enabled(m: Memory, e: Event) {
    match e
    case Register(p) => true
    case Forget(p) => true
    case FindPartner(p, sid) =>
      m.admission.Open? && p in m.participants && sid in m.sessions && Joinable(m.sessions[sid], p.purpose)
    case FindNobody(p) =>
      m.admission.Open? && p in m.participants
      && forall sid :: sid in m.sessions ==> !Joinable(m.sessions[sid], p.purpose)
    case Pair => m.admission.Pairing?
    case CheckCapacity => m.admission.Creating?
    case Insert(sid) => m.admission.Checked? && sid !in m.sessions
    case Abort => m.admission.Checked?
    case Complete(_) => m.admission.Completing?
    case StartCommit(sid) =>
      sid in m.sessions && m.sessions[sid].lifecycle == Forming && NextRole(m.sessions[sid]).None? && !m.sessions[sid].starting
    case StartWrite(sid) => sid in m.sessions && m.sessions[sid].starting
    case End(sid) => sid in m.sessions
    case Remove(sid) => sid in m.sessions && (m.sessions[sid].lifecycle == Ended || m.sessions[sid].revived)
  }

  /** `add_human_participant_to_session_locked`: the participant stays where it already is, and is
      refused when the session is gone or full, or its purpose differs. */
  function AddPlayer(m: Memory, p: Participant, sid: SessionId): map<SessionId, Session> {
    if p !in m.participants || sid !in m.sessions then m.sessions else
      var s := m.sessions[sid];
      if s.purpose != p.purpose || p in s.players || NextRole(s).None? then m.sessions
      else m.sessions[sid := s.(players := s.players[p := NextRole(s).value])]
  }

  function Step(c: Config, m: Memory, e: Event): Memory
    requires Enabled(m, e)
  {
    match e
    case Register(p) => m.(participants := m.participants + {p})
    case Forget(p) => m.(participants := m.participants - {p})
    case FindPartner(p, sid) => m.(admission := Pairing(p, sid))
    case FindNobody(p) => m.(admission := Creating(p))
    case Pair =>
      m.(sessions := if HasCapacity(c, m.sessions, false) then AddPlayer(m, m.admission.p, m.admission.sid) else m.sessions,
         admission := Open)
    case CheckCapacity =>
      m.(admission := if HasCapacity(c, m.sessions, true) then Checked(m.admission.p) else Open)
    case Insert(sid) =>
      var p := m.admission.p;
      m.(sessions := m.sessions[sid := Session(p.purpose, Forming, map[p := A], false, false)], admission := Completing(sid))
    case Abort => m.(admission := Open)
    case Complete(ok) =>
      m.(sessions := if ok then m.sessions else m.sessions - {m.admission.sid}, admission := Open)
    case StartCommit(sid) => m.(sessions := m.sessions[sid := m.sessions[sid].(starting := true)])
    case StartWrite(sid) =>
      var s := m.sessions[sid];
      m.(sessions := m.sessions[sid := s.(lifecycle := Running, starting := false, revived := s.revived || s.lifecycle == Ended)])
    case End(sid) => m.(sessions := m.sessions[sid := m.sessions[sid].(lifecycle := Ended)])
    case Remove(sid) => m.(sessions := m.sessions - {sid})
  }

  const EMPTY := Memory(map[], {}, Open)

  function Run(c: Config, events: seq<Event>): Option<Memory> {
    if events == [] then Some(EMPTY) else
      var before := Run(c, events[..|events| - 1]);
      var e := events[|events| - 1];
      if before.None? || !Enabled(before.value, e) then None else Some(Step(c, before.value, e))
  }

  // ----- Invariant -----

  /** One player in role A, or two in different roles; all with the session's purpose. */
  ghost predicate WellSeated(s: Session) {
    && 1 <= |s.players| <= 2 && A in s.players.Values
    && (forall p, q :: p in s.players && q in s.players && s.players[p] == s.players[q] ==> p == q)
    && (forall p :: p in s.players ==> p.purpose == s.purpose)
    && (s.starting || s.revived || s.lifecycle == Running ==> B in s.players.Values)
  }

  ghost predicate Lonely(s: Session) { s.lifecycle == Forming && B !in s.players.Values }

  ghost predicate BothLonely(s: Session, t: Session) { Lonely(s) && Lonely(t) && s.purpose == t.purpose }

  /** At most one session per purpose is waiting for its second player. */
  ghost predicate OneLonely(sessions: map<SessionId, Session>) {
    forall x, y :: x in sessions && y in sessions && BothLonely(sessions[x], sessions[y]) ==> x == y
  }

  ghost predicate NobodyWaits(sessions: map<SessionId, Session>, purpose: string) {
    forall sid :: sid in sessions && Lonely(sessions[sid]) ==> sessions[sid].purpose != purpose
  }

  ghost predicate AllWellSeated(sessions: map<SessionId, Session>) {
    forall sid :: sid in sessions ==> WellSeated(sessions[sid])
  }

  ghost predicate SeatsInv(m: Memory) {
    && AllWellSeated(m.sessions) && OneLonely(m.sessions)
    && (m.admission.Creating? || m.admission.Checked? ==> NobodyWaits(m.sessions, m.admission.p.purpose))
  }

  ghost predicate CapacityInv(c: Config, m: Memory) {
    && |Waiting(m.sessions)| + (if m.admission.Checked? then 1 else 0) <= c.maxWaiting
    && (c.speechmatics ==> |ProperStreams(m.sessions)| + (if m.admission.Checked? then 1 else 0) <= c.maxStreams)
  }

  // ----- Seats: who sits where, and who is alone -----

  lemma ReplaceKeepsSeats(sessions: map<SessionId, Session>, sid: SessionId, s: Session)
    requires AllWellSeated(sessions) && OneLonely(sessions)
    requires sid in sessions && WellSeated(s) && s.purpose == sessions[sid].purpose
    requires Lonely(s) ==> Lonely(sessions[sid])
    ensures AllWellSeated(sessions[sid := s]) && OneLonely(sessions[sid := s])
    ensures forall purpose :: NobodyWaits(sessions, purpose) ==> NobodyWaits(sessions[sid := s], purpose)
  {
  }

  lemma LonelyIsJoinable(s: Session)
    requires WellSeated(s) && Lonely(s)
    ensures Joinable(s, s.purpose)
  {
  }

  lemma RemoveKeepsSeats(sessions: map<SessionId, Session>, sid: SessionId)
    requires AllWellSeated(sessions) && OneLonely(sessions)
    ensures AllWellSeated(sessions - {sid}) && OneLonely(sessions - {sid})
    ensures forall purpose :: NobodyWaits(sessions, purpose) ==> NobodyWaits(sessions - {sid}, purpose)
  {
  }

  lemma NewSessionIsSeated(p: Participant)
    ensures WellSeated(Session(p.purpose, Forming, map[p := A], false, false))
  {
    var s := Session(p.purpose, Forming, map[p := A], false, false);
    assert s.players[p] in s.players.Values;
  }

  lemma InsertKeepsSeats(m: Memory, sid: SessionId)
    requires SeatsInv(m) && m.admission.Checked? && sid !in m.sessions
    ensures var p := m.admission.p;
      var sessions := m.sessions[sid := Session(p.purpose, Forming, map[p := A], false, false)];
      AllWellSeated(sessions) && OneLonely(sessions)
  {
    NewSessionIsSeated(m.admission.p);
    hide WellSeated;
  }

  lemma TwoPlayers(s: Session, p: Participant, q: Participant)
    requires WellSeated(s) && p in s.players && q in s.players && p != q
    ensures |s.players| == 2 && NextRole(s).None? && s.players.Keys == {p, q}
  {
    assert {p, q} <= s.players.Keys;
    SubsetSize({p, q}, s.players.Keys);
    assert |s.players.Keys| == |s.players|;
    SubsetEqual({p, q}, s.players.Keys);
    assert s.players[p] in s.players.Values && s.players[q] in s.players.Values;
  }

  lemma {:induction false} SubsetSize<T>(a: set<T>, b: set<T>)
    requires a <= b
    ensures |a| <= |b|
  {
    if a != {} {
      var x :| x in a;
      SubsetSize(a - {x}, b - {x});
    }
  }

  lemma SubsetEqual<T>(a: set<T>, b: set<T>)
    requires a <= b && |b| <= |a|
    ensures a == b
  {
    if x :| x in b && x !in a { SubsetSize(a, b - {x}); }
  }

  lemma SeatOneMore(s: Session, p: Participant)
    requires WellSeated(s) && p !in s.players && NextRole(s).Some? && s.purpose == p.purpose
    ensures NextRole(s) == Some(B) && WellSeated(s.(players := s.players[p := B]))
    ensures B in s.players[p := B].Values
  {
    var q :| q in s.players && s.players[q] == A;
    forall r | r in s.players ensures r == q {
      if r != q { TwoPlayers(s, q, r); }
    }
    assert s.players.Keys == {q};
    var players := s.players[p := B];
    assert players.Keys == {q, p} && players[p] == B && players[q] == A;
    assert |players| == |players.Keys| == 2;
  }

  lemma FindNobodyKeepsSeats(c: Config, m: Memory, p: Participant)
    requires SeatsInv(m) && Enabled(m, FindNobody(p))
    ensures SeatsInv(Step(c, m, FindNobody(p)))
  {
    forall sid | sid in m.sessions && Lonely(m.sessions[sid]) ensures m.sessions[sid].purpose != p.purpose {
      LonelyIsJoinable(m.sessions[sid]);
    }
  }

  lemma JoinKeepsSeats(sessions: map<SessionId, Session>, sid: SessionId, p: Participant)
    requires AllWellSeated(sessions) && OneLonely(sessions)
    requires sid in sessions && p !in sessions[sid].players && NextRole(sessions[sid]).Some?
    requires sessions[sid].purpose == p.purpose
    ensures NextRole(sessions[sid]) == Some(B)
    ensures var joined := sessions[sid].(players := sessions[sid].players[p := B]);
      AllWellSeated(sessions[sid := joined]) && OneLonely(sessions[sid := joined])
  {
    var joined := sessions[sid].(players := sessions[sid].players[p := B]);
    SeatOneMore(sessions[sid], p);
    hide NextRole, WellSeated;
    ReplaceKeepsSeats(sessions, sid, joined);
  }

  lemma AddPlayerKeepsSeats(m: Memory, p: Participant, sid: SessionId)
    requires AllWellSeated(m.sessions) && OneLonely(m.sessions)
    ensures AllWellSeated(AddPlayer(m, p, sid)) && OneLonely(AddPlayer(m, p, sid))
  {
    hide AllWellSeated, OneLonely, NextRole;
    if p in m.participants && sid in m.sessions && m.sessions[sid].purpose == p.purpose
       && p !in m.sessions[sid].players && NextRole(m.sessions[sid]).Some? {
      JoinKeepsSeats(m.sessions, sid, p);
    }
  }

  lemma PairKeepsSeats(c: Config, m: Memory)
    requires SeatsInv(m) && Enabled(m, Pair)
    ensures SeatsInv(Step(c, m, Pair))
  {
    hide AddPlayer, AllWellSeated, OneLonely, NobodyWaits, HasCapacity;
    AddPlayerKeepsSeats(m, m.admission.p, m.admission.sid);
  }

  lemma InsertStepKeepsSeats(c: Config, m: Memory, sid: SessionId)
    requires SeatsInv(m) && Enabled(m, Insert(sid))
    ensures SeatsInv(Step(c, m, Insert(sid)))
  {
    InsertKeepsSeats(m, sid);
    hide AllWellSeated, OneLonely, NobodyWaits;
  }

  lemma CompleteKeepsSeats(c: Config, m: Memory, ok: bool)
    requires SeatsInv(m) && Enabled(m, Complete(ok))
    ensures SeatsInv(Step(c, m, Complete(ok)))
  {
    hide AllWellSeated, OneLonely, NobodyWaits;
    RemoveKeepsSeats(m.sessions, m.admission.sid);
  }

  lemma RemoveStepKeepsSeats(c: Config, m: Memory, sid: SessionId)
    requires SeatsInv(m) && Enabled(m, Remove(sid))
    ensures SeatsInv(Step(c, m, Remove(sid)))
  {
    hide AllWellSeated, OneLonely, NobodyWaits;
    RemoveKeepsSeats(m.sessions, sid);
  }

  predicate Updates(e: Event) { e.StartCommit? || e.StartWrite? || e.End? }

  lemma KeepsItsSeats(s: Session, t: Session)
    requires WellSeated(s) && t.purpose == s.purpose && t.players == s.players
    requires t.starting || t.revived || t.lifecycle == Running ==>
               s.starting || s.revived || s.lifecycle == Running || NextRole(s).None?
    ensures WellSeated(t)
  {
  }

  function Updated(s: Session, e: Event): Session
    requires Updates(e)
  {
    match e
    case StartCommit(_) => s.(starting := true)
    case StartWrite(_) => s.(lifecycle := Running, starting := false, revived := s.revived || s.lifecycle == Ended)
    case _ => s.(lifecycle := Ended)
  }

  lemma UpdatedStep(c: Config, m: Memory, e: Event)
    requires Enabled(m, e) && Updates(e)
    ensures e.sid in m.sessions && Step(c, m, e) == m.(sessions := m.sessions[e.sid := Updated(m.sessions[e.sid], e)])
    ensures e.StartCommit? ==> NextRole(m.sessions[e.sid]).None?
    ensures e.StartWrite? ==> m.sessions[e.sid].starting
  {
    hide NextRole;
  }

  /** A start, its write and an end change one session, keep its seats and make nobody lonely. */
  lemma UpdatedSession(c: Config, m: Memory, e: Event)
    requires AllWellSeated(m.sessions) && Enabled(m, e) && Updates(e)
    ensures e.sid in m.sessions
    ensures var s, t := m.sessions[e.sid], Step(c, m, e).sessions[e.sid];
      && Step(c, m, e) == m.(sessions := m.sessions[e.sid := t])
      && WellSeated(t) && t.purpose == s.purpose && t.players == s.players
      && (t.lifecycle == Forming ==> s.lifecycle == Forming)
      && (t.lifecycle != Ended && !t.revived ==> s.lifecycle != Ended && !s.revived)
  {
    UpdatedStep(c, m, e);
    hide Step, Enabled;
    var s := m.sessions[e.sid];
    assert WellSeated(s);
    hide WellSeated, AllWellSeated, NextRole;
    KeepsItsSeats(s, Updated(s, e));
  }

  lemma UpdateKeepsSeats(c: Config, m: Memory, e: Event)
    requires SeatsInv(m) && Enabled(m, e) && Updates(e)
    ensures SeatsInv(Step(c, m, e))
  {
    UpdatedSession(c, m, e);
    hide Step, Enabled, Updates, WellSeated;
    ReplaceKeepsSeats(m.sessions, e.sid, Step(c, m, e).sessions[e.sid]);
    hide AllWellSeated, OneLonely, NobodyWaits;
  }

  /** The remaining steps change no session. */
  lemma BookkeepingKeepsSeats(c: Config, m: Memory, e: Event)
    requires SeatsInv(m) && Enabled(m, e)
    requires e.Register? || e.Forget? || e.FindPartner? || e.CheckCapacity? || e.Abort?
    ensures SeatsInv(Step(c, m, e))
  {
    hide AllWellSeated, OneLonely, NobodyWaits, HasCapacity, Joinable;
  }

  lemma SeatsStep(c: Config, m: Memory, e: Event)
    requires SeatsInv(m) && Enabled(m, e)
    ensures SeatsInv(Step(c, m, e))
  {
    hide SeatsInv, Enabled, Step;
    match e
    case FindNobody(p) => FindNobodyKeepsSeats(c, m, p);
    case Pair => PairKeepsSeats(c, m);
    case Insert(sid) => InsertStepKeepsSeats(c, m, sid);
    case Complete(ok) => CompleteKeepsSeats(c, m, ok);
    case Remove(sid) => RemoveStepKeepsSeats(c, m, sid);
    case StartCommit(_) => UpdateKeepsSeats(c, m, e);
    case StartWrite(_) => UpdateKeepsSeats(c, m, e);
    case End(_) => UpdateKeepsSeats(c, m, e);
    case _ => BookkeepingKeepsSeats(c, m, e);
  }

  // ----- Capacity -----

  lemma AtMostOneMore<T>(a: set<T>, b: set<T>, x: T)
    requires a <= b + {x}
    ensures |a| <= |b| + 1
  {
    SubsetSize(a, b + {x});
  }

  /** Changing one session leaves every other stream and waiting session as it was. */
  lemma ReplaceKeepsCapacity(sessions: map<SessionId, Session>, sid: SessionId, s: Session)
    requires sid in sessions
    requires s.lifecycle != Ended && !s.revived ==>
               sessions[sid].lifecycle != Ended && !sessions[sid].revived && s.players == sessions[sid].players
    requires s.lifecycle == Forming && |s.players| < 2 ==>
               sessions[sid].lifecycle == Forming && |sessions[sid].players| < 2
    ensures |ProperStreams(sessions[sid := s])| <= |ProperStreams(sessions)|
    ensures |Waiting(sessions[sid := s])| <= |Waiting(sessions)|
  {
    SubsetSize(ProperStreams(sessions[sid := s]), ProperStreams(sessions));
    SubsetSize(Waiting(sessions[sid := s]), Waiting(sessions));
  }

  lemma RemoveKeepsCapacity(sessions: map<SessionId, Session>, sid: SessionId)
    ensures |ProperStreams(sessions - {sid})| <= |ProperStreams(sessions)|
    ensures |Waiting(sessions - {sid})| <= |Waiting(sessions)|
  {
    SubsetSize(ProperStreams(sessions - {sid}), ProperStreams(sessions));
    SubsetSize(Waiting(sessions - {sid}), Waiting(sessions));
  }

  lemma JoinCapacity(sessions: map<SessionId, Session>, sid: SessionId, p: Participant)
    requires sid in sessions && WellSeated(sessions[sid]) && p !in sessions[sid].players && NextRole(sessions[sid]).Some?
    requires sessions[sid].purpose == p.purpose
    ensures var sessions' := sessions[sid := sessions[sid].(players := sessions[sid].players[p := B])];
      && |ProperStreams(sessions')| <= |ProperStreams(sessions)| + 1
      && |Waiting(sessions')| <= |Waiting(sessions)|
  {
    var sessions' := sessions[sid := sessions[sid].(players := sessions[sid].players[p := B])];
    SeatOneMore(sessions[sid], p);
    AtMostOneMore(ProperStreams(sessions'), ProperStreams(sessions), (sid, p));
    assert |sessions[sid].players| >= 1;
    SubsetSize(sessions[sid].players.Keys, sessions'[sid].players.Keys);
    SubsetSize(Waiting(sessions'), Waiting(sessions));
  }

  lemma InsertCapacity(sessions: map<SessionId, Session>, sid: SessionId, p: Participant)
    requires sid !in sessions
    ensures var sessions' := sessions[sid := Session(p.purpose, Forming, map[p := A], false, false)];
      && |ProperStreams(sessions')| <= |ProperStreams(sessions)| + 1
      && |Waiting(sessions')| <= |Waiting(sessions)| + 1
  {
    var sessions' := sessions[sid := Session(p.purpose, Forming, map[p := A], false, false)];
    AtMostOneMore(ProperStreams(sessions'), ProperStreams(sessions), (sid, p));
    AtMostOneMore(Waiting(sessions'), Waiting(sessions), sid);
  }

  lemma AddPlayerCapacity(m: Memory, p: Participant, sid: SessionId)
    requires AllWellSeated(m.sessions)
    ensures |ProperStreams(AddPlayer(m, p, sid))| <= |ProperStreams(m.sessions)| + 1
    ensures |Waiting(AddPlayer(m, p, sid))| <= |Waiting(m.sessions)|
  {
    hide ProperStreams, Waiting, WellSeated;
    if p in m.participants && sid in m.sessions && m.sessions[sid].purpose == p.purpose
       && p !in m.sessions[sid].players && NextRole(m.sessions[sid]).Some? {
      SeatOneMore(m.sessions[sid], p);
      hide NextRole;
      JoinCapacity(m.sessions, sid, p);
    }
  }

  lemma ProperStreamsAreStreams(sessions: map<SessionId, Session>)
    ensures |ProperStreams(sessions)| <= |Streams(sessions)|
  {
    SubsetSize(ProperStreams(sessions), Streams(sessions));
  }

  lemma PairKeepsCapacity(c: Config, m: Memory)
    requires AllWellSeated(m.sessions) && CapacityInv(c, m) && Enabled(m, Pair)
    ensures CapacityInv(c, Step(c, m, Pair))
  {
    hide AddPlayer, AllWellSeated, ProperStreams, Waiting, Streams;
    ProperStreamsAreStreams(m.sessions);
    AddPlayerCapacity(m, m.admission.p, m.admission.sid);
  }

  lemma CheckKeepsCapacity(c: Config, m: Memory)
    requires CapacityInv(c, m) && Enabled(m, CheckCapacity)
    ensures CapacityInv(c, Step(c, m, CheckCapacity))
  {
    hide ProperStreams, Waiting, Streams;
    ProperStreamsAreStreams(m.sessions);
  }

  lemma InsertKeepsCapacity(c: Config, m: Memory, sid: SessionId)
    requires CapacityInv(c, m) && Enabled(m, Insert(sid))
    ensures CapacityInv(c, Step(c, m, Insert(sid)))
  {
    hide ProperStreams, Waiting;
    InsertCapacity(m.sessions, sid, m.admission.p);
  }

  lemma CompleteKeepsCapacity(c: Config, m: Memory, ok: bool)
    requires CapacityInv(c, m) && Enabled(m, Complete(ok))
    ensures CapacityInv(c, Step(c, m, Complete(ok)))
  {
    hide ProperStreams, Waiting;
    RemoveKeepsCapacity(m.sessions, m.admission.sid);
  }

  lemma RemoveStepKeepsCapacity(c: Config, m: Memory, sid: SessionId)
    requires CapacityInv(c, m) && Enabled(m, Remove(sid))
    ensures CapacityInv(c, Step(c, m, Remove(sid)))
  {
    hide ProperStreams, Waiting;
    RemoveKeepsCapacity(m.sessions, sid);
  }

  lemma UpdateKeepsCapacity(c: Config, m: Memory, e: Event)
    requires AllWellSeated(m.sessions) && CapacityInv(c, m) && Enabled(m, e) && Updates(e)
    ensures CapacityInv(c, Step(c, m, e))
  {
    hide ProperStreams, Waiting;
    UpdatedSession(c, m, e);
    hide Step, Enabled, Updates, AllWellSeated;
    ReplaceKeepsCapacity(m.sessions, e.sid, Step(c, m, e).sessions[e.sid]);
  }

  lemma BookkeepingKeepsCapacity(c: Config, m: Memory, e: Event)
    requires CapacityInv(c, m) && Enabled(m, e)
    requires e.Register? || e.Forget? || e.FindPartner? || e.FindNobody? || e.Abort?
    ensures CapacityInv(c, Step(c, m, e))
  {
    hide ProperStreams, Waiting, Joinable;
  }

  lemma CapacityStep(c: Config, m: Memory, e: Event)
    requires AllWellSeated(m.sessions) && CapacityInv(c, m) && Enabled(m, e)
    ensures CapacityInv(c, Step(c, m, e))
  {
    hide AllWellSeated, CapacityInv, Enabled, Step;
    match e
    case Pair => PairKeepsCapacity(c, m);
    case CheckCapacity => CheckKeepsCapacity(c, m);
    case Insert(sid) => InsertKeepsCapacity(c, m, sid);
    case Complete(ok) => CompleteKeepsCapacity(c, m, ok);
    case Remove(sid) => RemoveStepKeepsCapacity(c, m, sid);
    case StartCommit(_) => UpdateKeepsCapacity(c, m, e);
    case StartWrite(_) => UpdateKeepsCapacity(c, m, e);
    case End(_) => UpdateKeepsCapacity(c, m, e);
    case _ => BookkeepingKeepsCapacity(c, m, e);
  }

  lemma {:induction false} InvHolds(c: Config, events: seq<Event>)
    requires Run(c, events).Some?
    ensures SeatsInv(Run(c, events).value) && CapacityInv(c, Run(c, events).value)
  {
    if events == [] {
      assert ProperStreams(map[]) == {} && Waiting(map[]) == {};
    } else {
      var front := events[..|events| - 1];
      InvHolds(c, front);
      SeatsStep(c, Run(c, front).value, events[|events| - 1]);
      CapacityStep(c, Run(c, front).value, events[|events| - 1]);
    }
  }

  // ----- Main results -----

  /** The scan over the session map, whose order is arbitrary, has at most one possible answer. */
  lemma ScanIsUnambiguous(c: Config, events: seq<Event>, purpose: string, x: SessionId, y: SessionId)
    requires Run(c, events).Some?
    requires var sessions := Run(c, events).value.sessions;
      x in sessions && y in sessions && Joinable(sessions[x], purpose) && Joinable(sessions[y], purpose)
    ensures x == y
  {
    InvHolds(c, events);
    var sessions := Run(c, events).value.sessions;
    assert BothLonely(sessions[x], sessions[y]);
  }

  /** No session has two players in one role, more than two players, or players of two purposes; only
      a session with both roles taken starts. */
  lemma SessionsAreWellSeated(c: Config, events: seq<Event>, sid: SessionId)
    requires Run(c, events).Some? && sid in Run(c, events).value.sessions
    ensures var s := Run(c, events).value.sessions[sid];
      && 1 <= |s.players| <= 2
      && (forall p, q :: p in s.players && q in s.players && s.players[p] == s.players[q] ==> p == q)
      && (forall p :: p in s.players ==> p.purpose == s.purpose)
      && (s.lifecycle == Running ==> |s.players| == 2)
  {
    InvHolds(c, events);
    var s := Run(c, events).value.sessions[sid];
    if s.lifecycle == Running {
      var p, q :| p in s.players && q in s.players && s.players[p] == A && s.players[q] == B;
      TwoPlayers(s, p, q);
    }
  }

  /** Waiting sessions stay within their limit, and so do the transcription streams of sessions which
      were not revived after their end. */
  lemma WithinLimits(c: Config, events: seq<Event>)
    requires Run(c, events).Some?
    ensures var m := Run(c, events).value;
      && |Waiting(m.sessions)| <= c.maxWaiting
      && (c.speechmatics ==> |ProperStreams(m.sessions)| <= c.maxStreams)
      && (c.speechmatics && (forall sid :: sid in m.sessions ==> !m.sessions[sid].revived) ==>
            |Streams(m.sessions)| <= c.maxStreams)
  {
    InvHolds(c, events);
    var m := Run(c, events).value;
    if forall sid :: sid in m.sessions ==> !m.sessions[sid].revived {
      assert Streams(m.sessions) == ProperStreams(m.sessions);
    }
  }

  // ----- Who is paired -----

  /** The session waits for a second player of the participant's purpose, and the participant exists. */
  predicate CanJoin(m: Memory, p: Participant, sid: SessionId) {
    && p in m.participants && sid in m.sessions && m.sessions[sid].purpose == p.purpose
    && p !in m.sessions[sid].players && B !in m.sessions[sid].players.Values
  }

  /** Fewer sessions run than allowed, and a stream is free where one is needed. */
  ghost predicate HasRoom(c: Config, m: Memory) {
    && |set x | x in m.sessions && m.sessions[x].lifecycle == Running| < c.maxActive
    && (c.speechmatics ==> |Streams(m.sessions)| < c.maxStreams)
  }

  lemma AddPlayerIs(m: Memory, p: Participant, sid: SessionId)
    requires AllWellSeated(m.sessions)
    ensures AddPlayer(m, p, sid) ==
            if CanJoin(m, p, sid)
            then m.sessions[sid := m.sessions[sid].(players := m.sessions[sid].players[p := B])] else m.sessions
  {
    if sid in m.sessions { assert WellSeated(m.sessions[sid]); }
    hide AllWellSeated;
  }

  lemma RoomIsCapacity(c: Config, m: Memory)
    ensures HasRoom(c, m) <==> HasCapacity(c, m.sessions, false)
  {
    assert Active(m.sessions) == set x | x in m.sessions && m.sessions[x].lifecycle == Running;
    hide Streams, Active;
  }

  /** Pairing seats the participant in role B of the chosen session when there is room and the session can
      be joined, and otherwise changes nothing. */
  lemma PairSeatsIff(c: Config, events: seq<Event>)
    requires Run(c, events).Some? && Run(c, events).value.admission.Pairing?
    ensures var m := Run(c, events).value;
      var p, sid := m.admission.p, m.admission.sid;
      && Enabled(m, Pair)
      && Step(c, m, Pair).sessions ==
         if HasRoom(c, m) && CanJoin(m, p, sid)
         then m.sessions[sid := m.sessions[sid].(players := m.sessions[sid].players[p := B])] else m.sessions
  {
    InvHolds(c, events);
    var m := Run(c, events).value;
    hide Run, HasRoom, CanJoin, HasCapacity, AddPlayer, AllWellSeated, CapacityInv;
    RoomIsCapacity(c, m);
    AddPlayerIs(m, m.admission.p, m.admission.sid);
  }

  /** Fewer sessions wait for a second player than allowed, and a stream is free where one is needed. */
  ghost predicate MayWait(c: Config, m: Memory) {
    && |set x | x in m.sessions && m.sessions[x].lifecycle == Forming && |m.sessions[x].players| < 2| < c.maxWaiting
    && (c.speechmatics ==> |Streams(m.sessions)| < c.maxStreams)
  }

  /** A session may be created exactly when fewer sessions wait than allowed and a stream is free where one
      is needed. */
  lemma CreationAllowedIff(c: Config, m: Memory)
    requires m.admission.Creating?
    ensures Enabled(m, CheckCapacity)
    ensures Step(c, m, CheckCapacity) == m.(admission := if MayWait(c, m) then Checked(m.admission.p) else Open)
  {
    assert Waiting(m.sessions) ==
           set x | x in m.sessions && m.sessions[x].lifecycle == Forming && |m.sessions[x].players| < 2;
    hide Streams, Waiting;
  }

  // ----- When the stream limit is first exceeded -----

  /** The two steps that reserve more streams than there is room for: the late start write of a session
      which has ended, and the insertion of a session for which the room was checked earlier. */
  predicate Overruns(c: Config, m: Memory, e: Event) {
    && Enabled(m, e)
    && (|| (e.Insert? && |Streams(m.sessions)| + 1 > c.maxStreams)
        || (e.StartWrite? && m.sessions[e.sid].lifecycle == Ended
            && |Streams(m.sessions)| + |m.sessions[e.sid].players| > c.maxStreams))
  }

  function StreamsOf(sid: SessionId, players: set<Participant>): set<(SessionId, Participant)> {
    set p | p in players :: (sid, p)
  }

  lemma {:induction false} StreamsOfSize(sid: SessionId, players: set<Participant>)
    ensures |StreamsOf(sid, players)| == |players|
  {
    if players != {} {
      var p :| p in players;
      StreamsOfSize(sid, players - {p});
      assert StreamsOf(sid, players) == StreamsOf(sid, players - {p}) + {(sid, p)};
    }
  }

  function LiveStreams(sid: SessionId, s: Session): set<(SessionId, Participant)> {
    if s.lifecycle == Ended then {} else StreamsOf(sid, s.players.Keys)
  }

  lemma StreamsApart(sessions: map<SessionId, Session>, sid: SessionId, s: Session)
    ensures Streams(sessions[sid := s]) == Streams(sessions - {sid}) + LiveStreams(sid, s)
    ensures Streams(sessions - {sid}) !! LiveStreams(sid, s)
  {
  }

  lemma StreamsCount(sessions: map<SessionId, Session>, sid: SessionId, s: Session)
    ensures |Streams(sessions[sid := s])| ==
            |Streams(sessions - {sid})| + if s.lifecycle == Ended then 0 else |s.players|
  {
    StreamsApart(sessions, sid, s);
    hide Streams;
    StreamsOfSize(sid, s.players.Keys);
    assert |s.players.Keys| == |s.players|;
  }

  lemma InsertedStreams(sessions: map<SessionId, Session>, sid: SessionId, p: Participant)
    requires sid !in sessions
    ensures |Streams(sessions[sid := Session(p.purpose, Forming, map[p := A], false, false)])| == |Streams(sessions)| + 1
  {
    hide Streams;
    StreamsCount(sessions, sid, Session(p.purpose, Forming, map[p := A], false, false));
    assert sessions - {sid} == sessions;
  }

  lemma RevivedStreams(sessions: map<SessionId, Session>, sid: SessionId, s: Session)
    requires sid in sessions && s.players == sessions[sid].players && s.lifecycle != Ended
    ensures |Streams(sessions[sid := s])| ==
            |Streams(sessions)| + if sessions[sid].lifecycle == Ended then |s.players| else 0
  {
    hide Streams;
    StreamsCount(sessions, sid, s);
    StreamsCount(sessions, sid, sessions[sid]);
    assert sessions[sid := sessions[sid]] == sessions;
  }

  lemma FewerStreams(sessions: map<SessionId, Session>, after: map<SessionId, Session>)
    requires Streams(after) <= Streams(sessions)
    ensures |Streams(after)| <= |Streams(sessions)|
  {
    SubsetSize(Streams(after), Streams(sessions));
  }

  lemma JoinedStreams(m: Memory, p: Participant, sid: SessionId)
    ensures |Streams(AddPlayer(m, p, sid))| <= |Streams(m.sessions)| + 1
  {
    AtMostOneMore(Streams(AddPlayer(m, p, sid)), Streams(m.sessions), (sid, p));
  }

  lemma PairWithinLimit(c: Config, m: Memory)
    requires c.speechmatics && Enabled(m, Pair) && |Streams(m.sessions)| <= c.maxStreams
    ensures |Streams(Step(c, m, Pair).sessions)| <= c.maxStreams
  {
    hide Streams, Active, Waiting, AddPlayer;
    JoinedStreams(m, m.admission.p, m.admission.sid);
  }

  lemma StartWriteStreams(c: Config, m: Memory, sid: SessionId)
    requires Enabled(m, StartWrite(sid))
    ensures |Streams(Step(c, m, StartWrite(sid)).sessions)| ==
            |Streams(m.sessions)| + if m.sessions[sid].lifecycle == Ended then |m.sessions[sid].players| else 0
  {
    hide Streams;
    RevivedStreams(m.sessions, sid, Updated(m.sessions[sid], StartWrite(sid)));
  }

  lemma OtherStepStreams(c: Config, m: Memory, e: Event)
    requires Enabled(m, e) && !e.Insert? && !e.StartWrite? && !e.Pair?
    ensures |Streams(Step(c, m, e).sessions)| <= |Streams(m.sessions)|
  {
    var after := Step(c, m, e).sessions;
    match e
    case Complete(ok) => FewerStreams(m.sessions, m.sessions - {m.admission.sid});
    case Remove(sid) => FewerStreams(m.sessions, m.sessions - {sid});
    case StartCommit(sid) => FewerStreams(m.sessions, m.sessions[sid := m.sessions[sid].(starting := true)]);
    case End(sid) => FewerStreams(m.sessions, m.sessions[sid := m.sessions[sid].(lifecycle := Ended)]);
    case _ => assert after == m.sessions;
  }

  /** From a state within the limit, one step leaves it exactly when it overruns it. */
  lemma OneStepStreams(c: Config, m: Memory, e: Event)
    requires c.speechmatics && Enabled(m, e) && |Streams(m.sessions)| <= c.maxStreams
    ensures |Streams(Step(c, m, e).sessions)| <= c.maxStreams <==> !Overruns(c, m, e)
  {
    hide Streams;
    match e
    case Insert(sid) => InsertedStreams(m.sessions, sid, m.admission.p);
    case StartWrite(sid) => StartWriteStreams(c, m, sid);
    case Pair => PairWithinLimit(c, m);
    case _ => OtherStepStreams(c, m, e);
  }

  ghost predicate StreamsWithin(c: Config, events: seq<Event>, n: nat)
    requires n <= |events|
  {
    Run(c, events[..n]).Some? && |Streams(Run(c, events[..n]).value.sessions)| <= c.maxStreams
  }

  ghost predicate OverrunsAt(c: Config, events: seq<Event>, i: nat)
    requires i < |events|
  {
    Run(c, events[..i]).Some? && Overruns(c, Run(c, events[..i]).value, events[i])
  }

  lemma PrefixRuns(c: Config, events: seq<Event>)
    requires events != [] && Run(c, events).Some?
    ensures var front, e := events[..|events| - 1], events[|events| - 1];
      Run(c, front).Some? && Enabled(Run(c, front).value, e) && Run(c, events).value == Step(c, Run(c, front).value, e)
  {
    hide Enabled, Step;
  }

  /** The streams stay within the limit throughout a run exactly when no step of it overruns the limit. */
  lemma {:induction false} StreamLimitHoldsIff(c: Config, events: seq<Event>)
    requires c.speechmatics && Run(c, events).Some?
    ensures (forall n :: 0 <= n <= |events| ==> StreamsWithin(c, events, n)) <==>
            (forall i :: 0 <= i < |events| ==> !OverrunsAt(c, events, i))
  {
    hide Streams, Step, Enabled, Overruns, Run;
    if events == [] {
      NothingStreams(c, events);
    } else {
      var n := |events| - 1;
      var front := events[..n];
      PrefixRuns(c, events);
      StreamLimitHoldsIff(c, front);
      assert events[..|events|] == events && front[..n] == front;
      assert forall k :: 0 <= k <= n ==> front[..k] == events[..k];
      forall k | 0 <= k <= n ensures StreamsWithin(c, events, k) <==> StreamsWithin(c, front, k) {
      }
      forall i | 0 <= i < n ensures OverrunsAt(c, events, i) <==> OverrunsAt(c, front, i) {
      }
      if StreamsWithin(c, events, n) {
        OneStepStreams(c, Run(c, front).value, events[n]);
        assert StreamsWithin(c, events, n + 1) <==> !OverrunsAt(c, events, n);
      }
      SplitAtLast(c, events);
    }
  }

  lemma NothingStreams(c: Config, events: seq<Event>)
    requires events == []
    ensures StreamsWithin(c, events, 0)
  {
    assert Streams(map[]) == {};
  }

  lemma SplitAtLast(c: Config, events: seq<Event>)
    requires events != []
    ensures (forall n :: 0 <= n <= |events| ==> StreamsWithin(c, events, n)) <==>
            StreamsWithin(c, events, |events|) && forall n :: 0 <= n <= |events| - 1 ==> StreamsWithin(c, events, n)
    ensures (forall i :: 0 <= i < |events| ==> !OverrunsAt(c, events, i)) <==>
            !OverrunsAt(c, events, |events| - 1) && forall i :: 0 <= i < |events| - 1 ==> !OverrunsAt(c, events, i)
  {
    hide StreamsWithin, OverrunsAt;
  }

  lemma InsertWithinLimit(c: Config, m: Memory, sid: SessionId)
    requires c.speechmatics && CapacityInv(c, m) && Enabled(m, Insert(sid))
    requires forall x :: x in m.sessions ==> !m.sessions[x].revived
    ensures !Overruns(c, m, Insert(sid))
  {
    assert Streams(m.sessions) == ProperStreams(m.sessions);
    hide Streams, ProperStreams, Waiting;
  }

  /** An insertion overruns the limit only when a session came back after its end. */
  lemma InsertOverrunsAfterRevival(c: Config, events: seq<Event>, sid: SessionId)
    requires c.speechmatics && Run(c, events).Some? && Enabled(Run(c, events).value, Insert(sid))
    requires Overruns(c, Run(c, events).value, Insert(sid))
    ensures exists x :: x in Run(c, events).value.sessions && Run(c, events).value.sessions[x].revived
  {
    InvHolds(c, events);
    var m := Run(c, events).value;
    hide Overruns, Run, SeatsInv, CapacityInv;
    if forall x :: x in m.sessions ==> !m.sessions[x].revived { InsertWithinLimit(c, m, sid); }
  }

  // ----- A run in which revived sessions exceed the stream limit -----

  lemma Extended(c: Config, events: seq<Event>, e: Event) returns (all: seq<Event>)
    requires Run(c, events).Some? && Enabled(Run(c, events).value, e)
    ensures Run(c, all) == Some(Step(c, Run(c, events).value, e))
  {
    all := events + [e];
    assert all[..|all| - 1] == events;
  }

  /** With room for two streams: two players start their session durably, the session ends before the
      start reaches memory, two more players are paired, and then the late write revives the first
      session, so four streams are in use. */
  lemma RevivalExceedsTheLimit() returns (c: Config, events: seq<Event>)
    ensures c.speechmatics && Run(c, events).Some?
    ensures var sessions := Run(c, events).value.sessions;
      |Streams(sessions)| > c.maxStreams && exists sid :: sid in sessions && sessions[sid].revived
  {
    c := Config(1, 1, 2, true);
    var p, q, r, t := Participant(0, ""), Participant(1, ""), Participant(2, ""), Participant(3, "");
    events := StartedAndEnded(c, p, q);
    var late := Pairs(p, q).(lifecycle := Ended, starting := true);
    assert AllEnded(Run(c, events).value);
    events := Paired(c, events, r, t, 1);
    var before := Run(c, events).value;
    assert before.sessions == map[0 := late, 1 := Pairs(r, t)];
    events := Extended(c, events, StartWrite(0));
    var sessions := Run(c, events).value.sessions;
    assert sessions == map[0 := late.(lifecycle := Running, starting := false, revived := true), 1 := Pairs(r, t)];
    hide Step, Run, Enabled;
    FourStreams(sessions, p, q, r, t);
  }

  lemma FourStreams(sessions: map<SessionId, Session>, p: Participant, q: Participant, r: Participant, t: Participant)
    requires 0 in sessions && 1 in sessions && p != q && r != t
    requires sessions[0].lifecycle != Ended && sessions[0].players.Keys == {p, q}
    requires sessions[1].lifecycle != Ended && sessions[1].players.Keys == {r, t}
    ensures |Streams(sessions)| >= 4
  {
    SubsetSize({(0, p), (0, q), (1, r), (1, t)}, Streams(sessions));
  }

  lemma StartedAndEnded(c: Config, p: Participant, q: Participant) returns (events: seq<Event>)
    requires c == Config(1, 1, 2, true) && p != q && p.purpose == q.purpose
    ensures Run(c, events) ==
            Some(Memory(map[0 := Pairs(p, q).(lifecycle := Ended, starting := true)], {p, q}, Open))
  {
    assert Run(c, []) == Some(EMPTY);
    events := Paired(c, [], p, q, 0);
    assert map[][0 := Pairs(p, q)] == map[0 := Pairs(p, q)] && {} + {p, q} == {p, q};
    assert Run(c, events) == Some(Memory(map[0 := Pairs(p, q)], {p, q}, Open));
    PairsSeats(p, q);
    events := Extended(c, events, StartCommit(0));
    var starting := Pairs(p, q).(starting := true);
    assert Run(c, events).value.sessions == map[0 := starting];
    events := Extended(c, events, End(0));
    assert Run(c, events).value.sessions == map[0 := starting.(lifecycle := Ended)];
  }

  ghost predicate AllEnded(m: Memory) { forall sid :: sid in m.sessions ==> m.sessions[sid].lifecycle == Ended }

  function Alone(p: Participant): Session { Session(p.purpose, Forming, map[p := A], false, false) }

  function Pairs(p: Participant, q: Participant): Session {
    Session(p.purpose, Forming, map[p := A, q := B], false, false)
  }

  /** The first of two participants enters. */
  lemma Entered(c: Config, events: seq<Event>, p: Participant, sid: SessionId) returns (all: seq<Event>)
    requires c == Config(1, 1, 2, true) && Run(c, events).Some?
    requires var m := Run(c, events).value; m.admission.Open? && sid !in m.sessions && AllEnded(m)
    ensures var m := Run(c, events).value;
      Run(c, all) == Some(Memory(m.sessions[sid := Alone(p)], m.participants + {p}, Open))
  {
    var m := Run(c, events).value;
    all := Extended(c, events, Register(p));
    all := Extended(c, all, FindNobody(p));
    assert Waiting(m.sessions) == {} && Streams(m.sessions) == {};
    all := Extended(c, all, CheckCapacity);
    all := Extended(c, all, Insert(sid));
    all := Extended(c, all, Complete(true));
  }

  lemma PairsSeats(p: Participant, q: Participant)
    requires p != q
    ensures NextRole(Alone(p)) == Some(B) && NextRole(Pairs(p, q)) == None
    ensures Alone(p).(players := Alone(p).players[q := B]) == Pairs(p, q)
  {
    var s, t := Alone(p), Pairs(p, q);
    assert s.players[p] == A && s.players.Values == {A};
    assert t.players[p] == A && t.players[q] == B;
    assert s.players[q := B] == t.players;
  }

  /** The second of them is paired with the first. */
  lemma Joined(c: Config, events: seq<Event>, p: Participant, q: Participant, sid: SessionId, ended: map<SessionId, Session>)
      returns (all: seq<Event>)
    requires c == Config(1, 1, 2, true) && p != q && p.purpose == q.purpose && sid !in ended
    requires forall x :: x in ended ==> ended[x].lifecycle == Ended
    requires Run(c, events).Some? && Run(c, events).value.admission.Open?
    requires Run(c, events).value.sessions == ended[sid := Alone(p)]
    ensures var m := Run(c, events).value;
      Run(c, all) == Some(Memory(ended[sid := Pairs(p, q)], m.participants + {q}, Open))
  {
    var sessions := ended[sid := Alone(p)];
    all := Extended(c, events, Register(q));
    PairsSeats(p, q);
    all := Extended(c, all, FindPartner(q, sid));
    assert Active(sessions) == {} && Streams(sessions) == {(sid, p)};
    hide NextRole;
    var m := Run(c, all).value;
    assert AddPlayer(m, q, sid) == sessions[sid := Pairs(p, q)] == ended[sid := Pairs(p, q)];
    hide AddPlayer, Streams, Active;
    all := Extended(c, all, Pair);
  }

  /** Two participants are paired while no other session is alive. */
  lemma Paired(c: Config, events: seq<Event>, p: Participant, q: Participant, sid: SessionId) returns (all: seq<Event>)
    requires c == Config(1, 1, 2, true) && Run(c, events).Some? && p != q && p.purpose == q.purpose
    requires var m := Run(c, events).value; m.admission.Open? && sid !in m.sessions && AllEnded(m)
    ensures var m := Run(c, events).value;
      Run(c, all) == Some(Memory(m.sessions[sid := Pairs(p, q)], m.participants + {p, q}, Open))
  {
    var m := Run(c, events).value;
    all := Entered(c, events, p, sid);
    all := Joined(c, all, p, q, sid, m.sessions);
    assert m.participants + {p} + {q} == m.participants + {p, q};
  }
}
