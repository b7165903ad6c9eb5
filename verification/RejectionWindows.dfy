/** Model of the coalescing of rejected inputs in rust-server/src/app.rs: `persist_rejected_input` and
    `flush_rejected_input_aggregates`. Session and participant identifiers are made by the server and
    hold no NUL; a reason code may be any text. Times are in seconds. */
module RejectionWindows {
  import opened Wrappers

  datatype EventType = ActionRejected | ChatRejected | ClientMessageRejected {
    function Name(): string {
      match this
      case ActionRejected => "game_action_rejected"
      case ChatRejected => "chat_message_rejected"
      case ClientMessageRejected => "client_message_rejected"
    }
  }

  datatype Key = Key(room: string, participant: string, eventType: EventType, reason: string)

  datatype Window = Window(firstSeen: int, lastSeen: int, lastPersisted: int, occurrences: nat)

  /** A stored event: what it is labelled with, and what it covers. */
  datatype Aggregate = Aggregate(key: Key, firstSeen: int, lastSeen: int, occurrences: nat, coalesced: bool)

  const NUL := '\0'

  predicate NulFree(s: string) { NUL !in s }

  predicate Proper(k: Key) { NulFree(k.room) && NulFree(k.participant) }

  function KeyText(k: Key): string {
    k.room + [NUL] + k.participant + [NUL] + k.eventType.Name() + [NUL] + k.reason
  }

  function Split(s: string): (r: seq<string>)
    ensures r != []
  {
    if s == "" then [""]
    else if s[0] == NUL then [""] + Split(s[1..])
    else var rest := Split(s[1..]); [[s[0]] + rest[0]] + rest[1..]
  }

  function TypeNamed(name: string): Option<EventType> {
    if name == ActionRejected.Name() then Some(ActionRejected)
    else if name == ChatRejected.Name() then Some(ChatRejected)
    else if name == ClientMessageRejected.Name() then Some(ClientMessageRejected)
    else None
  }

  /** What the flush reads out of a key: the fourth part is the reason code. */
  function Parse(text: string): Option<(EventType, string)> {
    var parts := Split(text);
    if |parts| < 4 || TypeNamed(parts[2]).None? then None else Some((TypeNamed(parts[2]).value, parts[3]))
  }

  function UpToNul(s: string): string {
    if s == "" || s[0] == NUL then "" else [s[0]] + UpToNul(s[1..])
  }

  /** The label under which the flush stores the count of a key. */
  function Label(k: Key): Key { k.(reason := UpToNul(k.reason)) }

  lemma {:induction false} SplitHead(part: string, rest: string)
    requires NulFree(part)
    ensures Split(part + [NUL] + rest) == [part] + Split(rest)
  {
    if part == "" {
      assert part + [NUL] + rest == [NUL] + rest;
    } else {
      SplitHead(part[1..], rest);
      assert (part + [NUL] + rest)[1..] == part[1..] + [NUL] + rest;
      assert [part[0]] + part[1..] == part;
    }
  }

  lemma {:induction false} SplitFirst(s: string)
    ensures Split(s)[0] == UpToNul(s)
  {
    if s != "" { SplitFirst(s[1..]); }
  }

  lemma NamesAreNulFree(t: EventType)
    ensures NulFree(t.Name()) && TypeNamed(t.Name()) == Some(t)
  {
  }

  lemma SplitKey(k: Key)
    requires Proper(k)
    ensures Split(KeyText(k)) == [k.room, k.participant, k.eventType.Name()] + Split(k.reason)
  {
    hide Split, KeyText;
    NamesAreNulFree(k.eventType);
    KeyParts(k);
    SplitHead(k.room, k.participant + [NUL] + Tail(k));
    SplitHead(k.participant, Tail(k));
    SplitHead(k.eventType.Name(), k.reason);
    hide EventType.Name;
  }

  /** The flush finds the type again, and the reason up to its first NUL. */
  lemma ParseKey(k: Key)
    requires Proper(k)
    ensures Parse(KeyText(k)) == Some((k.eventType, UpToNul(k.reason)))
  {
    SplitKey(k);
    SplitFirst(k.reason);
    NamesAreNulFree(k.eventType);
    hide Split, KeyText, TypeNamed;
  }

  lemma {:induction false} UpToNulIsAll(s: string)
    ensures UpToNul(s) == s <==> NulFree(s)
    ensures NulFree(UpToNul(s))
  {
    if s != "" {
      UpToNulIsAll(s[1..]);
      assert s == [s[0]] + s[1..];
    }
  }

  lemma {:induction false} SameHead(a: string, r: string, b: string, t: string)
    requires NulFree(a) && NulFree(b) && a + [NUL] + r == b + [NUL] + t
    ensures a == b && r == t
  {
    SplitAt(a, r);
    SplitAt(b, t);
  }

  /** The first NUL of this text is the one after `a`. */
  lemma SplitAt(a: string, r: string)
    requires NulFree(a)
    ensures var s := a + [NUL] + r;
      UpToNul(s) == a && s[|a|] == NUL && s[..|a|] == a && s[|a| + 1..] == r
    decreases |a|
  {
    if a == "" {
      assert a + [NUL] + r == [NUL] + r;
    } else {
      SplitAt(a[1..], r);
      assert (a + [NUL] + r)[1..] == a[1..] + [NUL] + r;
      assert [a[0]] + a[1..] == a;
    }
  }

  function PairText(room: string, participant: string): string { room + [NUL] + participant + [NUL] }

  function Tail(k: Key): string { k.eventType.Name() + [NUL] + k.reason }

  lemma KeyParts(k: Key)
    ensures KeyText(k) == k.room + [NUL] + (k.participant + [NUL] + Tail(k))
  {
    hide EventType.Name;
    var a, b, c, n := k.room, k.participant, k.eventType.Name(), [NUL];
    assert a + n + b + n + c + n + k.reason == a + n + (b + n + (c + n + k.reason));
  }

  lemma PairParts(room: string, participant: string, rest: string)
    ensures PairText(room, participant) + rest == room + [NUL] + (participant + [NUL] + rest)
  {
  }

  /** Keys have different texts, and the prefix of a pair selects the keys of that pair. */
  lemma KeyTextInjective(k: Key, m: Key)
    requires Proper(k) && Proper(m) && KeyText(k) == KeyText(m)
    ensures k == m
  {
    KeyParts(k);
    KeyParts(m);
    hide KeyText;
    SameHead(k.room, k.participant + [NUL] + Tail(k), m.room, m.participant + [NUL] + Tail(m));
    SameHead(k.participant, Tail(k), m.participant, Tail(m));
    TailInjective(k, m);
    hide Tail;
  }

  lemma TailInjective(k: Key, m: Key)
    requires Tail(k) == Tail(m)
    ensures k.eventType == m.eventType && k.reason == m.reason
  {
    NamesAreNulFree(k.eventType);
    NamesAreNulFree(m.eventType);
    SameHead(k.eventType.Name(), k.reason, m.eventType.Name(), m.reason);
    hide EventType.Name;
  }

  lemma PrefixSelects(k: Key, room: string, participant: string)
    requires Proper(k) && NulFree(room) && NulFree(participant)
    ensures PairText(room, participant) <= KeyText(k) <==> k.room == room && k.participant == participant
  {
    KeyParts(k);
    hide KeyText, Tail;
    if PairText(room, participant) <= KeyText(k) {
      var rest := KeyText(k)[|PairText(room, participant)|..];
      assert KeyText(k) == PairText(room, participant) + rest;
      hide PairText;
      PairParts(room, participant, rest);
      SameHead(k.room, k.participant + [NUL] + Tail(k), room, participant + [NUL] + rest);
      SameHead(k.participant, Tail(k), participant, rest);
    }
    if k.room == room && k.participant == participant {
      PairParts(room, participant, Tail(k));
      assert KeyText(k) == PairText(room, participant) + Tail(k);
    }
  }

  // ----- History -----

  /** What happened, in order; `Sent` records the key whose rejections an aggregate covers, `Dropped` how
      many rejections were forgotten with a window. */
  datatype Event =
    | Rejected(key: Key, now: int)
    | Dropped(key: Key, count: nat)
    | Sent(origin: Key, aggregate: Aggregate)
    | Flushed(room: string, participant: string)

  function CountRejected(log: seq<Event>, k: Key): nat {
    if log == [] then 0 else
      var e := log[|log| - 1];
      CountRejected(log[..|log| - 1], k) + if e.Rejected? && e.key == k then 1 else 0
  }

  function CountSent(log: seq<Event>, k: Key): nat {
    if log == [] then 0 else
      var e := log[|log| - 1];
      CountSent(log[..|log| - 1], k) + if e.Sent? && e.origin == k then e.aggregate.occurrences else 0
  }

  function CountLost(log: seq<Event>, k: Key): nat {
    if log == [] then 0 else
      var e := log[|log| - 1];
      CountLost(log[..|log| - 1], k) + if e.Dropped? && e.key == k then e.count else 0
  }

  function LastTime(log: seq<Event>, k: Key): int {
    if log == [] then 0 else
      var e := log[|log| - 1];
      if e.Rejected? && e.key == k then e.now else LastTime(log[..|log| - 1], k)
  }

  /** The last aggregate of this key, unless its window went since. */
  function LastSent(log: seq<Event>, k: Key): Option<Aggregate> {
    if log == [] then None else
      var e := log[|log| - 1];
      if e.Flushed? && e.room == k.room && e.participant == k.participant then None
      else if e.Dropped? && e.key == k then None
      else if e.Sent? && e.origin == k && !e.aggregate.coalesced then Some(e.aggregate)
      else LastSent(log[..|log| - 1], k)
  }

  /** One more aggregate is in place: it covers every rejection not yet accounted for, of which there is at
      least one, up to the last one; it begins
      where the previous one ended, and it is at least a minute later unless it comes from a flush. */
  predicate WellPlaced(before: seq<Event>, k: Key, a: Aggregate) {
    var previous := LastSent(before, k);
    && Proper(k) && a.occurrences >= 1
    && CountSent(before, k) + CountLost(before, k) + a.occurrences == CountRejected(before, k)
    && a.lastSeen == LastTime(before, k)
    && (previous.Some? ==> a.firstSeen == previous.value.lastSeen)
    && (previous.None? ==> a.firstSeen == a.lastSeen && a.occurrences == 1)
    && (previous.Some? && !a.coalesced ==> a.lastSeen >= previous.value.lastSeen + 60)
    && (a.coalesced ==> previous.Some?)
    && a.key == if a.coalesced then Label(k) else k
  }

  ghost predicate WellSpaced(log: seq<Event>) {
    forall i :: 0 <= i < |log| && log[i].Sent? ==> WellPlaced(log[..i], log[i].origin, log[i].aggregate)
  }

  /** The stored aggregates. */
  function Stored(log: seq<Event>): seq<Aggregate> {
    if log == [] then [] else
      var e := log[|log| - 1];
      Stored(log[..|log| - 1]) + if e.Sent? then [e.aggregate] else []
  }

  lemma OneMore(log: seq<Event>, e: Event)
    ensures (log + [e])[..|log + [e]| - 1] == log && (log + [e])[|log + [e]| - 1] == e
  {
  }

  lemma WellSpacedOneMore(log: seq<Event>, e: Event)
    requires WellSpaced(log) && (e.Sent? ==> WellPlaced(log, e.origin, e.aggregate))
    ensures WellSpaced(log + [e])
  {
    hide WellPlaced;
    var all := log + [e];
    forall i | 0 <= i < |all| && all[i].Sent? ensures WellPlaced(all[..i], all[i].origin, all[i].aggregate) {
      if i < |log| {
        assert all[..i] == log[..i];
      } else {
        assert all[..i] == log;
      }
    }
  }

  // ----- The windows -----

  /** The window of a key, which exists from its first aggregate to the next flush. */
  ghost predicate WindowAgrees(log: seq<Event>, windows: map<string, Window>, k: Key) {
    var text, last := KeyText(k), LastSent(log, k);
    if last.None? then text !in windows && CountSent(log, k) + CountLost(log, k) == CountRejected(log, k) else
      && text in windows
      && var w := windows[text];
         && w.firstSeen == w.lastPersisted == last.value.lastSeen && w.lastSeen == LastTime(log, k)
         && CountSent(log, k) + CountLost(log, k) + w.occurrences == CountRejected(log, k)
  }

  ghost predicate Agrees(log: seq<Event>, windows: map<string, Window>) {
    && (forall k :: Proper(k) ==> WindowAgrees(log, windows, k))
    && (forall text :: text in windows ==> exists k :: Proper(k) && KeyText(k) == text)
    && WellSpaced(log)
  }

  /** How one more event changes what the log says about one key. */
  lemma KeyOneMore(log: seq<Event>, e: Event, k: Key)
    ensures CountRejected(log + [e], k) == CountRejected(log, k) + if e.Rejected? && e.key == k then 1 else 0
    ensures CountSent(log + [e], k) == CountSent(log, k) + if e.Sent? && e.origin == k then e.aggregate.occurrences else 0
    ensures CountLost(log + [e], k) == CountLost(log, k) + if e.Dropped? && e.key == k then e.count else 0
    ensures LastTime(log + [e], k) == if e.Rejected? && e.key == k then e.now else LastTime(log, k)
    ensures LastSent(log + [e], k) ==
            if e.Flushed? && e.room == k.room && e.participant == k.participant then None
            else if e.Dropped? && e.key == k then None
            else if e.Sent? && e.origin == k && !e.aggregate.coalesced then Some(e.aggregate)
            else LastSent(log, k)
  {
    OneMore(log, e);
  }

  lemma StoredOneMore(log: seq<Event>, e: Event)
    ensures Stored(log + [e]) == Stored(log) + if e.Sent? then [e.aggregate] else []
  {
    OneMore(log, e);
  }

  predicate Concerns(e: Event, k: Key) {
    match e
    case Rejected(key, _) => key == k
    case Dropped(key, _) => key == k
    case Sent(origin, _) => origin == k
    case Flushed(room, participant) => room == k.room && participant == k.participant
  }

  lemma OtherKeyAgrees(log: seq<Event>, windows: map<string, Window>, e: Event, windows': map<string, Window>, k: Key)
    requires WindowAgrees(log, windows, k) && !Concerns(e, k)
    requires (KeyText(k) in windows <==> KeyText(k) in windows')
    requires KeyText(k) in windows ==> windows[KeyText(k)] == windows'[KeyText(k)]
    ensures WindowAgrees(log + [e], windows', k)
  {
    KeyOneMore(log, e, k);
    hide KeyText, CountSent, CountLost, CountRejected, LastTime, LastSent;
  }

  predicate Emits(log: seq<Event>, k: Key, now: int) {
    var last := LastSent(log, k);
    last.None? || last.value.lastSeen + 60 <= now
  }

  /** A rejection within the minute is only counted. */
  lemma CountedAgrees(log: seq<Event>, windows: map<string, Window>, k: Key, now: int)
    requires Proper(k) && Agrees(log, windows) && !Emits(log, k, now)
    ensures KeyText(k) in windows
    ensures var w := windows[KeyText(k)];
      && w.lastPersisted > now - 60
      && Agrees(log + [Rejected(k, now)], windows[KeyText(k) := w.(occurrences := w.occurrences + 1, lastSeen := now)])
  {
    var e, text := Rejected(k, now), KeyText(k);
    hide KeyText, CountSent, CountLost, CountRejected, LastTime, LastSent, WellSpaced, WellPlaced;
    assert WindowAgrees(log, windows, k);
    var w := windows[text];
    var windows' := windows[text := w.(occurrences := w.occurrences + 1, lastSeen := now)];
    WellSpacedOneMore(log, e);
    KeyOneMore(log, e, k);
    assert WindowAgrees(log + [e], windows', k);
    forall m | Proper(m) && m != k ensures WindowAgrees(log + [e], windows', m) {
      if KeyText(m) == text { KeyTextInjective(m, k); }
      OtherKeyAgrees(log, windows, e, windows', m);
    }
    hide WindowAgrees;
  }

  /** A rejection which is due sends an aggregate for everything counted since the last one. */
  lemma SentAgrees(log: seq<Event>, windows: map<string, Window>, k: Key, now: int, a: Aggregate)
    requires Proper(k) && Agrees(log, windows) && Emits(log, k, now)
    requires a == DueAggregate(windows, k, now)
    ensures Agrees(log + [Rejected(k, now)] + [Sent(k, a)], windows[KeyText(k) := Window(now, now, now, 0)])
  {
    var e, d, text := Rejected(k, now), Sent(k, a), KeyText(k);
    hide KeyText, CountSent, CountLost, CountRejected, LastTime, LastSent, WellSpaced;
    assert WindowAgrees(log, windows, k);
    var mid, windows' := log + [e], windows[text := Window(now, now, now, 0)];
    KeyOneMore(log, e, k);
    WellSpacedOneMore(log, e);
    WellSpacedOneMore(mid, d);
    KeyOneMore(mid, d, k);
    hide WellPlaced;
    assert WindowAgrees(mid + [d], windows', k);
    forall m | Proper(m) && m != k ensures WindowAgrees(mid + [d], windows', m) {
      if KeyText(m) == text { KeyTextInjective(m, k); }
      OtherKeyAgrees(log, windows, e, windows', m);
      OtherKeyAgrees(mid, windows', d, windows', m);
    }
    hide WindowAgrees;
  }

  function DueAggregate(windows: map<string, Window>, k: Key, now: int): Aggregate {
    var text := KeyText(k);
    if text in windows then Aggregate(k, windows[text].firstSeen, now, windows[text].occurrences + 1, false)
    else Aggregate(k, now, now, 1, false)
  }

  function Counted(w: Window, now: int): Window { w.(occurrences := w.occurrences + 1, lastSeen := now) }

  lemma EmitsIs(log: seq<Event>, k: Key, now: int)
    ensures Emits(log, k, now) <==> LastSent(log, k).None? || LastSent(log, k).value.lastSeen + 60 <= now
  {
    hide LastSent;
  }

  /** Both outcomes of a rejection. */
  lemma RejectAgrees(log: seq<Event>, windows: map<string, Window>, k: Key, now: int)
    requires Proper(k) && Agrees(log, windows)
    ensures Emits(log, k, now) <==> !(KeyText(k) in windows && windows[KeyText(k)].lastPersisted > now - 60)
    ensures !Emits(log, k, now) ==>
              && Agrees(log + [Rejected(k, now)], windows[KeyText(k) := Counted(windows[KeyText(k)], now)])
              && Stored(log + [Rejected(k, now)]) == Stored(log)
    ensures Emits(log, k, now) ==>
              var a := DueAggregate(windows, k, now);
              && Agrees(log + [Rejected(k, now)] + [Sent(k, a)], windows[KeyText(k) := Window(now, now, now, 0)])
              && Stored(log + [Rejected(k, now)] + [Sent(k, a)]) == Stored(log) + [a]
  {
    DueIff(log, windows, k, now);
    hide Agrees, KeyText, Stored, Emits, DueAggregate;
    StoredOneMore(log, Rejected(k, now));
    if Emits(log, k, now) {
      SentAgrees(log, windows, k, now, DueAggregate(windows, k, now));
      StoredOneMore(log + [Rejected(k, now)], Sent(k, DueAggregate(windows, k, now)));
    } else {
      CountedAgrees(log, windows, k, now);
    }
  }

  lemma DueIff(log: seq<Event>, windows: map<string, Window>, k: Key, now: int)
    requires Proper(k) && Agrees(log, windows)
    ensures Emits(log, k, now) <==> KeyText(k) in windows ==> windows[KeyText(k)].lastPersisted + 60 <= now
  {
    assert WindowAgrees(log, windows, k);
  }

  // ----- The flush -----

  predicate OfPair(k: Key, room: string, participant: string) { k.room == room && k.participant == participant }

  /** A flush sends what was pending for a key of the pair. */
  predicate IsFlush(before: seq<Event>, e: Event, room: string, participant: string) {
    && e.Sent? && e.aggregate.coalesced && OfPair(e.origin, room, participant)
    && CountSent(before, e.origin) + CountLost(before, e.origin) + e.aggregate.occurrences
         == CountRejected(before, e.origin)
  }

  ghost predicate FlushesSince(before: seq<Event>, log: seq<Event>, room: string, participant: string) {
    && before <= log
    && forall i :: |before| <= i < |log| ==> IsFlush(before, log[i], room, participant)
  }

  /** While a flush is under way: the windows dropped so far have nothing pending. */
  ghost predicate FlushingAgrees(
      before: seq<Event>, log: seq<Event>, windows: map<string, Window>, room: string, participant: string, k: Key) {
    && CountRejected(log, k) == CountRejected(before, k) && CountLost(log, k) == CountLost(before, k)
    && if OfPair(k, room, participant) && KeyText(k) !in windows
       then CountSent(log, k) + CountLost(log, k) == CountRejected(log, k)
       else WindowAgrees(log, windows, k) && CountSent(log, k) == CountSent(before, k)
  }

  ghost predicate FlushAgrees(before: seq<Event>, log: seq<Event>, windows: map<string, Window>, room: string, participant: string) {
    && NulFree(room) && NulFree(participant) && WellSpaced(log)
    && (forall k :: Proper(k) ==> FlushingAgrees(before, log, windows, room, participant, k))
    && (forall text :: text in windows ==> exists k :: Proper(k) && KeyText(k) == text)
  }

  // ----- Dropping windows -----

  /** Forgetting one window loses what it still counts, and nothing else. */
  lemma DropAgrees(log: seq<Event>, windows: map<string, Window>, k: Key)
    requires Agrees(log, windows) && Proper(k) && KeyText(k) in windows
    ensures Agrees(log + [Dropped(k, windows[KeyText(k)].occurrences)], windows - {KeyText(k)})
  {
    var e, windows' := Dropped(k, windows[KeyText(k)].occurrences), windows - {KeyText(k)};
    hide KeyText, CountSent, CountLost, CountRejected, LastTime, LastSent, WellSpaced;
    assert WindowAgrees(log, windows, k);
    WellSpacedOneMore(log, e);
    KeyOneMore(log, e, k);
    assert WindowAgrees(log + [e], windows', k);
    forall m | Proper(m) && m != k ensures WindowAgrees(log + [e], windows', m) {
      if KeyText(m) == KeyText(k) { KeyTextInjective(m, k); }
      OtherKeyAgrees(log, windows, e, windows', m);
    }
    hide WindowAgrees;
  }

  /** The entries since `before` are the losses of windows which held that many rejections. */
  ghost predicate DropsSince(before: seq<Event>, start: map<string, Window>, log: seq<Event>, drop: string -> bool) {
    && before <= log
    && forall i :: |before| <= i < |log| ==>
         && log[i].Dropped? && KeyText(log[i].key) in start && drop(KeyText(log[i].key))
         && log[i].count == start[KeyText(log[i].key)].occurrences
  }

  function DropTexts(windows: map<string, Window>, drop: string -> bool): set<string> {
    set text | text in windows && drop(text)
  }

  lemma StartDropping(log: seq<Event>, windows: map<string, Window>, drop: string -> bool)
    ensures DropsSince(log, windows, log, drop)
  {
  }

  lemma TextToDrop(start: map<string, Window>, drop: string -> bool, text: string, gone: set<string>)
    requires text in DropTexts(start, drop) && text !in gone
    ensures text in start - gone && (start - gone)[text] == start[text] && drop(text)
  {
  }

  lemma DropsOneMore(before: seq<Event>, start: map<string, Window>, log: seq<Event>, drop: string -> bool, k: Key)
    requires DropsSince(before, start, log, drop) && KeyText(k) in start && drop(KeyText(k))
    ensures DropsSince(before, start, log + [Dropped(k, start[KeyText(k)].occurrences)], drop)
  {
    hide KeyText;
  }

  lemma FlushStarts(log: seq<Event>, windows: map<string, Window>, room: string, participant: string)
    requires Agrees(log, windows) && NulFree(room) && NulFree(participant)
    ensures FlushAgrees(log, log, windows, room, participant)
  {
    hide KeyText, CountSent, CountLost, CountRejected, LastTime, LastSent, WellSpaced;
    forall k | Proper(k) ensures FlushingAgrees(log, log, windows, room, participant, k) {
      assert WindowAgrees(log, windows, k);
    }
  }

  lemma KeyAt(before: seq<Event>, log: seq<Event>, windows: map<string, Window>, room: string, participant: string, text: string)
      returns (k: Key)
    requires FlushAgrees(before, log, windows, room, participant)
    requires text in windows && PairText(room, participant) <= text
    ensures Proper(k) && KeyText(k) == text && OfPair(k, room, participant)
  {
    hide KeyText, WellSpaced, FlushingAgrees;
    k :| Proper(k) && KeyText(k) == text;
    PrefixSelects(k, room, participant);
  }

  lemma FlushDrops(before: seq<Event>, log: seq<Event>, windows: map<string, Window>, room: string, participant: string, k: Key)
    requires FlushAgrees(before, log, windows, room, participant) && Proper(k) && OfPair(k, room, participant)
    requires KeyText(k) in windows && windows[KeyText(k)].occurrences == 0
    ensures FlushAgrees(before, log, windows - {KeyText(k)}, room, participant)
  {
    var windows' := windows - {KeyText(k)};
    hide KeyText, CountSent, CountLost, CountRejected, LastTime, LastSent, WellSpaced;
    forall m | Proper(m) ensures FlushingAgrees(before, log, windows', room, participant, m) {
      assert FlushingAgrees(before, log, windows, room, participant, m);
      if m != k && KeyText(m) == KeyText(k) { KeyTextInjective(m, k); }
    }
    hide FlushingAgrees;
  }

  lemma FlushSends(before: seq<Event>, log: seq<Event>, windows: map<string, Window>, room: string, participant: string,
                   k: Key, a: Aggregate)
    requires FlushAgrees(before, log, windows, room, participant) && Proper(k) && OfPair(k, room, participant)
    requires FlushesSince(before, log, room, participant)
    requires KeyText(k) in windows && var w := windows[KeyText(k)];
      w.occurrences > 0 && a == Aggregate(Label(k), w.firstSeen, w.lastSeen, w.occurrences, true)
    ensures FlushAgrees(before, log + [Sent(k, a)], windows - {KeyText(k)}, room, participant)
    ensures FlushesSince(before, log + [Sent(k, a)], room, participant)
  {
    var e, windows' := Sent(k, a), windows - {KeyText(k)};
    hide KeyText, CountSent, CountLost, CountRejected, LastTime, LastSent, WellSpaced;
    assert FlushingAgrees(before, log, windows, room, participant, k);
    WellSpacedOneMore(log, e);
    hide WellPlaced;
    forall m | Proper(m) ensures FlushingAgrees(before, log + [e], windows', room, participant, m) {
      assert FlushingAgrees(before, log, windows, room, participant, m);
      KeyOneMore(log, e, m);
      if m != k && KeyText(m) == KeyText(k) { KeyTextInjective(m, k); }
    }
    hide FlushingAgrees;
  }

  lemma FlushEnds(before: seq<Event>, log: seq<Event>, windows: map<string, Window>, room: string, participant: string)
    requires FlushAgrees(before, log, windows, room, participant)
    requires forall text :: text in windows ==> !(PairText(room, participant) <= text)
    ensures Agrees(log + [Flushed(room, participant)], windows)
  {
    var e := Flushed(room, participant);
    WellSpacedOneMore(log, e);
    hide KeyText, CountSent, CountLost, CountRejected, LastTime, LastSent, WellSpaced;
    forall k | Proper(k) ensures WindowAgrees(log + [e], windows, k) {
      assert FlushingAgrees(before, log, windows, room, participant, k);
      KeyOneMore(log, e, k);
      PrefixSelects(k, room, participant);
    }
    hide WindowAgrees;
  }

  function Matching(windows: map<string, Window>, prefix: string): set<string> {
    set text | text in windows && prefix <= text
  }

  lemma OneMatchLess(windows: map<string, Window>, prefix: string, text: string)
    requires text in Matching(windows, prefix)
    ensures text in windows && prefix <= text
    ensures Matching(windows - {text}, prefix) == Matching(windows, prefix) - {text}
  {
  }

  lemma NoMatchLeft(windows: map<string, Window>, prefix: string)
    requires Matching(windows, prefix) == {}
    ensures forall text :: text in windows ==> !(prefix <= text)
  {
    forall text | text in windows && prefix <= text ensures text in Matching(windows, prefix) {
    }
  }

  lemma FlushesShape(before: seq<Event>, log: seq<Event>, room: string, participant: string)
    requires FlushesSince(before, log, room, participant)
    ensures var all := log + [Flushed(room, participant)];
      && all[..|before|] == before
      && forall i :: |before| <= i < |all| - 1 ==> IsFlush(before, all[i], room, participant)
  {
  }

  lemma KeyWithText(log: seq<Event>, windows: map<string, Window>, text: string) returns (k: Key)
    requires Agrees(log, windows) && text in windows
    ensures Proper(k) && KeyText(k) == text
  {
    hide WellSpaced, WindowAgrees, KeyText;
    k :| Proper(k) && KeyText(k) == text;
  }

  class Rejections {
    var windows: map<string, Window>
    var stored: seq<Aggregate>
    ghost var log: seq<Event>

    ghost predicate Valid()
      reads this
    {
      Agrees(log, windows) && stored == Stored(log)
    }

    constructor ()
      ensures Valid() && log == [] && windows == map[]
    {
      windows, stored, log := map[], [], [];
    }
  
    /** The part of `persist_rejected_input` which holds the lock. */
    method CountRejection(k: Key, now: int) returns (due: Option<Aggregate>)
      modifies this`windows
      ensures due.None? <==> KeyText(k) in old(windows) && old(windows)[KeyText(k)].lastPersisted > now - 60
      ensures due.None? ==>
                windows == old(windows)[KeyText(k) := Counted(old(windows)[KeyText(k)], now)]
      ensures due.Some? ==>
                due.value == DueAggregate(old(windows), k, now)
                && windows == old(windows)[KeyText(k) := Window(now, now, now, 0)]
    {
      hide KeyText;
      var text := KeyText(k);
      var window := if text in windows then windows[text] else Window(now, now, now - 61, 0);
      window := window.(occurrences := window.occurrences + 1, lastSeen := now);
      windows := windows[text := window];
      if window.lastPersisted > now - 60 { return None; }
      due := Some(Aggregate(k, window.firstSeen, window.lastSeen, window.occurrences, false));
      windows := windows[text := window.(firstSeen := now, lastPersisted := now, occurrences := 0)];
    }

    /** `persist_rejected_input`: an aggregate is sent when none was sent within the last minute. */
    method Reject(k: Key, now: int)
      requires Valid() && Proper(k)
      modifies this
      ensures Valid()
      ensures !Emits(old(log), k, now) ==> log == old(log) + [Rejected(k, now)] && stored == old(stored)
      ensures var last := LastSent(old(log), k);
        |stored| == |old(stored)| + if last.None? || last.value.lastSeen + 60 <= now then 1 else 0
      ensures Emits(old(log), k, now) ==>
                var a := DueAggregate(old(windows), k, now);
                log == old(log) + [Rejected(k, now)] + [Sent(k, a)] && stored == old(stored) + [a]
    {
      EmitsIs(log, k, now);
      hide Agrees, KeyText, Stored, Emits, DueAggregate, Counted, LastSent;
      ghost var before, entry := log, windows;
      var due := CountRejection(k, now);
      RejectAgrees(before, entry, k, now);
      log := log + [Rejected(k, now)];
      if due.Some? {
        stored := stored + [due.value];
        log := log + [Sent(k, due.value)];
      }
    }

    /** Drops one window of a flush and sends what it still counts. */
    method FlushWindow(text: string, room: string, participant: string, ghost before: seq<Event>)
      requires text in windows && PairText(room, participant) <= text && stored == Stored(log)
      requires FlushAgrees(before, log, windows, room, participant) && FlushesSince(before, log, room, participant)
      modifies this
      ensures FlushAgrees(before, log, windows, room, participant) && FlushesSince(before, log, room, participant)
      ensures windows == old(windows) - {text} && stored == Stored(log)
    {
      hide FlushAgrees, KeyText, Stored, PairText, FlushesSince, Split, Parse, UpToNul;
      ghost var k := KeyAt(before, log, windows, room, participant, text);
      var window := windows[text];
      var parsed := Parse(text);
      ParseKey(k);
      if window.occurrences > 0 {
        var named := Key(room, participant, parsed.value.0, parsed.value.1);
        var a := Aggregate(named, window.firstSeen, window.lastSeen, window.occurrences, true);
        StoredOneMore(log, Sent(k, a));
        FlushSends(before, log, windows, room, participant, k, a);
        stored := stored + [a];
        log := log + [Sent(k, a)];
      } else {
        FlushDrops(before, log, windows, room, participant, k);
      }
      windows := windows - {text};
    }

    /** Drops all windows of the participant. */
    method FlushWindows(room: string, participant: string, ghost before: seq<Event>)
      requires stored == Stored(log)
      requires FlushAgrees(before, log, windows, room, participant) && FlushesSince(before, log, room, participant)
      modifies this
      ensures FlushAgrees(before, log, windows, room, participant) && FlushesSince(before, log, room, participant)
      ensures Matching(windows, PairText(room, participant)) == {} && stored == Stored(log)
    {
      hide FlushAgrees, Stored, PairText, FlushesSince, Matching;
      var texts := Matching(windows, PairText(room, participant));
      while texts != {}
        invariant texts == Matching(windows, PairText(room, participant))
        invariant FlushAgrees(before, log, windows, room, participant)
        invariant FlushesSince(before, log, room, participant)
        invariant stored == Stored(log)
        decreases |texts|
      {
        var text :| text in texts;
        OneMatchLess(windows, PairText(room, participant), text);
        FlushWindow(text, room, participant, before);
        texts := texts - {text};
      }
    }

    /** `flush_rejected_input_aggregates`: what is still pending for this participant is sent, and its
        windows are dropped. */
    method Flush(room: string, participant: string)
      requires Valid() && NulFree(room) && NulFree(participant)
      modifies this
      ensures Valid() && |log| > |old(log)| && log[..|old(log)|] == old(log) && log[|log| - 1] == Flushed(room, participant)
      ensures forall i :: |old(log)| <= i < |log| - 1 ==> IsFlush(old(log), log[i], room, participant)
    {
      ghost var before := log;
      FlushStarts(log, windows, room, participant);
      assert FlushesSince(before, log, room, participant);
      hide FlushAgrees, Agrees, Stored, PairText, FlushesSince, IsFlush, Matching;
      FlushWindows(room, participant, before);
      NoMatchLeft(windows, PairText(room, participant));
      FlushEnds(before, log, windows, room, participant);
      StoredOneMore(log, Flushed(room, participant));
      FlushesShape(before, log, room, participant);
      log := log + [Flushed(room, participant)];
    }

    /** The cleanups of removed sessions and of participants who never joined one drop windows without a
        flush: exactly what these still count is lost. */
    method Drop(drop: string -> bool)
      requires Valid()
      modifies this
      ensures Valid() && stored == old(stored) && DropsSince(old(log), old(windows), log, drop)
      ensures windows == old(windows) - DropTexts(old(windows), drop)
    {
      ghost var before, start := log, windows;
      var texts := DropTexts(windows, drop);
      ghost var gone: set<string> := {};
      hide Agrees, KeyText, Stored, WellSpaced, DropsSince, DropTexts;
      StartDropping(log, windows, drop);
      while texts != {}
        invariant Agrees(log, windows) && stored == old(stored) == Stored(log) && DropsSince(before, start, log, drop)
        invariant windows == start - gone && DropTexts(start, drop) == texts + gone && texts !! gone
        decreases |texts|
      {
        var text :| text in texts;
        TextToDrop(start, drop, text, gone);
        ghost var k := KeyWithText(log, windows, text);
        DropAgrees(log, windows, k);
        DropsOneMore(before, start, log, drop, k);
        StoredOneMore(log, Dropped(k, windows[text].occurrences));
        log := log + [Dropped(k, windows[text].occurrences)];
        windows := windows - {text};
        gone, texts := gone + {text}, texts - {text};
      }
    }

    /** Corollary of the invariant: for every key, what was sent, what is pending and what was dropped add up
        to the rejections. */
    lemma CountsConserved(k: Key)
      requires Valid() && Proper(k)
      ensures CountSent(log, k) + CountLost(log, k)
              + (if KeyText(k) in windows then windows[KeyText(k)].occurrences else 0) == CountRejected(log, k)
    {
      assert WindowAgrees(log, windows, k);
    }

    /** Corollary of the invariant: every stored aggregate covers all rejections of its key not yet accounted
        for, of which there is at least one; it begins where the previous one ended, the first one where it
        ends; and it ends at the last of them. */
    lemma AggregatesAreInPlace(i: nat)
      requires Valid() && i < |log| && log[i].Sent?
      ensures var before, k, a := log[..i], log[i].origin, log[i].aggregate;
        && a.occurrences == CountRejected(before, k) - CountSent(before, k) - CountLost(before, k) >= 1
        && a.lastSeen == LastTime(before, k)
        && (LastSent(before, k).Some? ==> a.firstSeen == LastSent(before, k).value.lastSeen)
        && (LastSent(before, k).None? ==> a.firstSeen == a.lastSeen && a.occurrences == 1 && !a.coalesced)
    {
      assert WellPlaced(log[..i], log[i].origin, log[i].aggregate);
    }

    /** Between two aggregates of one key which no flush sent and no dropped window separates, at least a
        minute passes. */
    lemma MinuteApart(i: nat, j: nat)
      requires Valid() && i < j < |log| && log[i].Sent? && log[j].Sent? && log[i].origin == log[j].origin
      requires !log[i].aggregate.coalesced && !log[j].aggregate.coalesced
      requires WindowKept(log, i, j, log[i].origin)
      ensures log[j].aggregate.lastSeen >= log[i].aggregate.lastSeen + 60
    {
      LastSentIsLater(log, i, j);
      assert WellPlaced(log[..j], log[j].origin, log[j].aggregate);
    }

    /** Under every label, what is stored, pending and dropped add up to the rejections, as long as no
        rejection had a reason code with a NUL. */
    lemma StoredCountsConserved(k: Key)
      requires Valid() && Proper(k) && forall i :: 0 <= i < |log| && log[i].Rejected? ==> NulFree(log[i].key.reason)
      ensures CountStored(stored, k) + CountLost(log, k)
              + (if KeyText(k) in windows then windows[KeyText(k)].occurrences else 0) == CountRejected(log, k)
    {
      CountsConserved(k);
      forall i | 0 <= i < |log| && log[i].Sent? ensures NulFree(log[i].origin.reason) {
        var m := log[i].origin;
        assert WellPlaced(log[..i], m, log[i].aggregate);
        assert WindowAgrees(log, windows, m);
        SentIsCounted(log, i);
        RejectedSomewhere(log, m);
      }
      hide WellSpaced;
      LabelsAreExact(log);
    }
  }

  // ----- Counts under the stored labels -----

  function CountStored(stored: seq<Aggregate>, k: Key): nat {
    if stored == [] then 0 else
      var a := stored[|stored| - 1];
      CountStored(stored[..|stored| - 1], k) + if a.key == k then a.occurrences else 0
  }

  /** No flush sent the count of a key whose reason code holds a NUL. */
  ghost predicate NothingTruncated(log: seq<Event>) {
    forall i :: 0 <= i < |log| && log[i].Sent? && log[i].aggregate.coalesced ==> NulFree(log[i].origin.reason)
  }

  lemma {:induction false} SentIsCounted(log: seq<Event>, i: nat)
    requires i < |log| && log[i].Sent?
    ensures CountSent(log, log[i].origin) >= log[i].aggregate.occurrences
  {
    if i < |log| - 1 { SentIsCounted(log[..|log| - 1], i); }
  }

  lemma {:induction false} RejectedSomewhere(log: seq<Event>, k: Key)
    requires CountRejected(log, k) > 0
    ensures exists i :: 0 <= i < |log| && log[i].Rejected? && log[i].key == k
  {
    var front := log[..|log| - 1];
    if log[|log| - 1].Rejected? && log[|log| - 1].key == k { return; }
    RejectedSomewhere(front, k);
    var i :| 0 <= i < |front| && front[i].Rejected? && front[i].key == k;
    assert log[i] == front[i];
  }

  lemma StoredSnoc(stored: seq<Aggregate>, a: Aggregate, k: Key)
    ensures CountStored(stored + [a], k) == CountStored(stored, k) + if a.key == k then a.occurrences else 0
  {
    assert (stored + [a])[..|stored|] == stored;
  }

  lemma {:induction false} ExactWithoutTruncation(log: seq<Event>, k: Key)
    requires WellSpaced(log) && NothingTruncated(log)
    ensures CountStored(Stored(log), k) == CountSent(log, k)
  {
    if log != [] {
      var front, e := log[..|log| - 1], log[|log| - 1];
      assert forall i :: 0 <= i < |front| ==> log[..i] == front[..i];
      ExactWithoutTruncation(front, k);
      assert log == front + [e];
      StoredOneMore(front, e);
      if e.Sent? {
        assert WellPlaced(front, e.origin, e.aggregate);
        UpToNulIsAll(e.origin.reason);
        StoredSnoc(Stored(front), e.aggregate, k);
      } else {
        assert Stored(log) == Stored(front);
      }
    }
  }

  function CountTruncated(log: seq<Event>, k: Key): nat {
    if log == [] then 0 else
      var e := log[|log| - 1];
      CountTruncated(log[..|log| - 1], k)
      + if e.Sent? && e.aggregate.coalesced && e.origin == k then e.aggregate.occurrences else 0
  }

  lemma {:induction false} LostUnderItsLabel(log: seq<Event>, k: Key)
    requires WellSpaced(log) && !NulFree(k.reason)
    ensures CountStored(Stored(log), k) + CountTruncated(log, k) == CountSent(log, k)
  {
    if log != [] {
      var front, e := log[..|log| - 1], log[|log| - 1];
      assert forall i :: 0 <= i < |front| ==> log[..i] == front[..i];
      LostUnderItsLabel(front, k);
      assert log == front + [e];
      StoredOneMore(front, e);
      if e.Sent? {
        assert WellPlaced(front, e.origin, e.aggregate);
        UpToNulIsAll(e.origin.reason);
        StoredSnoc(Stored(front), e.aggregate, k);
      } else {
        assert Stored(log) == Stored(front);
      }
    }
  }

  lemma {:induction false} TruncatedIsCounted(log: seq<Event>, i: nat)
    requires i < |log| && log[i].Sent? && log[i].aggregate.coalesced
    ensures CountTruncated(log, log[i].origin) >= log[i].aggregate.occurrences
  {
    if i < |log| - 1 { TruncatedIsCounted(log[..|log| - 1], i); }
  }

  /** The counts stored under each label are the counts sent for that key, exactly when no flush sent
      the count of a key whose reason code holds a NUL. */
  lemma LabelsAreExact(log: seq<Event>)
    requires WellSpaced(log)
    ensures (forall k :: CountStored(Stored(log), k) == CountSent(log, k)) <==> NothingTruncated(log)
  {
    if NothingTruncated(log) {
      forall k ensures CountStored(Stored(log), k) == CountSent(log, k) { ExactWithoutTruncation(log, k); }
    } else {
      var i :| 0 <= i < |log| && log[i].Sent? && log[i].aggregate.coalesced && !NulFree(log[i].origin.reason);
      assert WellPlaced(log[..i], log[i].origin, log[i].aggregate);
      LostUnderItsLabel(log, log[i].origin);
      TruncatedIsCounted(log, i);
    }
  }

  lemma TruncationShows(first: seq<Event>, second: seq<Event>, last: seq<Event>, k: Key)
    requires !NulFree(k.reason) && WellSpaced(last)
    requires Emits([], k, 0) ==> first == [] + [Rejected(k, 0)] + [Sent(k, DueAggregate(map[], k, 0))]
    requires !Emits(first, k, 1) ==> second == first + [Rejected(k, 1)]
    requires |last| > |second| && last[..|second|] == second && last[|last| - 1] == Flushed(k.room, k.participant)
    requires forall i :: |second| <= i < |last| - 1 ==> IsFlush(second, last[i], k.room, k.participant)
    requires CountSent(last, k) + CountLost(last, k) == CountRejected(last, k)
    ensures CountStored(Stored(last), k) != CountRejected(last, k)
  {
    var a := DueAggregate(map[], k, 0);
    assert first == [] + [Rejected(k, 0)] + [Sent(k, a)];
    KeyOneMore([Rejected(k, 0)], Sent(k, a), k);
    KeyOneMore([], Rejected(k, 0), k);
    KeyOneMore(first, Rejected(k, 1), k);
    assert CountSent(second, k) == 1 && CountLost(second, k) == 0 && CountRejected(second, k) == 2;
    LostUnderItsLabel(last, k);
    CountGrows(second, last, k);
    TruncatedAfter(second, last, k);
  }

  lemma {:induction false} CountGrows(log: seq<Event>, longer: seq<Event>, k: Key)
    requires log <= longer
    ensures CountRejected(longer, k) >= CountRejected(log, k)
  {
    if |longer| > |log| { CountGrows(log, longer[..|longer| - 1], k); } else { assert longer == log; }
  }

  /** What a flush sends for a key is all lost under its label when the reason code holds a NUL. */
  lemma {:induction false} TruncatedAfter(log: seq<Event>, longer: seq<Event>, k: Key)
    requires log <= longer
    requires forall i :: |log| <= i < |longer| ==> !longer[i].Dropped? && (longer[i].Sent? ==> longer[i].aggregate.coalesced)
    ensures CountTruncated(longer, k) - CountTruncated(log, k) == CountSent(longer, k) - CountSent(log, k)
    ensures CountLost(longer, k) == CountLost(log, k)
  {
    if |longer| > |log| { TruncatedAfter(log, longer[..|longer| - 1], k); } else { assert longer == log; }
  }

  lemma ValidMeans(r: Rejections)
    requires r.Valid()
    ensures Agrees(r.log, r.windows) && r.stored == Stored(r.log)
  {
  }

  lemma GoneAfterFlush(log: seq<Event>, windows: map<string, Window>, k: Key)
    requires Agrees(log, windows) && Proper(k) && log != [] && log[|log| - 1] == Flushed(k.room, k.participant)
    ensures KeyText(k) !in windows && CountSent(log, k) + CountLost(log, k) == CountRejected(log, k) && WellSpaced(log)
  {
    hide WellSpaced, KeyText, CountSent, CountLost, CountRejected;
    assert WindowAgrees(log, windows, k);
  }

  method RejectTwice(k: Key) returns (r: Rejections, ghost first: seq<Event>)
    requires Proper(k)
    ensures fresh(r) && r.Valid()
    ensures Emits([], k, 0) ==> first == [] + [Rejected(k, 0)] + [Sent(k, DueAggregate(map[], k, 0))]
    ensures !Emits(first, k, 1) ==> r.log == first + [Rejected(k, 1)]
  {
    r := new Rejections();
    hide *;
    r.Reject(k, 0);
    first := r.log;
    r.Reject(k, 1);
  }

  /** For any reason code with a NUL: two rejections and a flush, and the second is stored under another
      code. */
  method TruncationHappens(k: Key) returns (r: Rejections)
    requires Proper(k) && !NulFree(k.reason)
    ensures r.Valid() && KeyText(k) !in r.windows && CountStored(r.stored, k) != CountRejected(r.log, k)
  {
    hide *;
    ghost var first;
    r, first := RejectTwice(k);
    ghost var second := r.log;
    ProperIds(k);
    r.Flush(k.room, k.participant);
    ValidMeans(r);
    GoneAfterFlush(r.log, r.windows, k);
    TruncationShows(first, second, r.log, k);
  }

  lemma ProperIds(k: Key)
    requires Proper(k)
    ensures NulFree(k.room) && NulFree(k.participant)
  {
  }

  // ----- Spacing -----

  /** The window of this key stays from event `i` to event `j`. */
  ghost predicate WindowKept(log: seq<Event>, i: nat, j: nat, k: Key) {
    forall m :: i < m < j < |log| ==>
      && !(log[m].Flushed? && OfPair(k, log[m].room, log[m].participant))
      && !(log[m].Dropped? && log[m].key == k)
  }

  lemma {:induction false} LastSentIsLater(log: seq<Event>, i: nat, j: nat)
    requires WellSpaced(log) && i < j < |log| && log[i].Sent? && !log[i].aggregate.coalesced
    requires WindowKept(log, i, j, log[i].origin)
    ensures var last := LastSent(log[..j], log[i].origin);
      last.Some? && last.value.lastSeen >= log[i].aggregate.lastSeen
  {
    var k := log[i].origin;
    KeyOneMore(log[..j - 1], log[j - 1], k);
    assert log[..j - 1] + [log[j - 1]] == log[..j];
    if i < j - 1 {
      LastSentIsLater(log, i, j - 1);
      if log[j - 1].Sent? { assert WellPlaced(log[..j - 1], log[j - 1].origin, log[j - 1].aggregate); }
    }
  }
}
