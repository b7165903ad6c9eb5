/** Model of the one-use upgrade tickets in rust-server/src/auth.rs. A ticket stands for its digest:
    digests do not collide, and no ticket is minted twice. Times are in seconds. */
module UpgradeTickets {
  import opened Wrappers

  datatype Purpose = Game | Audio

  datatype Claims = Claims(publicSession: string, participant: string, role: string, generation: nat, purpose: Purpose, expiresAt: int)

  type Ticket = nat

  const LIFETIME := 60

  /** What happened to the store, in the order in which its lock was taken. */
  datatype Event =
    | Issued(ticket: Ticket, claims: Claims)
    | Presented(ticket: Ticket)
    | CleanedUp

  predicate SameScope(c: Claims, d: Claims) {
    c.publicSession == d.publicSession && c.participant == d.participant && c.purpose == d.purpose
  }

  predicate WasIssued(history: seq<Event>, ticket: Ticket) {
    exists i :: 0 <= i < |history| && history[i].Issued? && history[i].ticket == ticket
  }

  /** Every issue minted a new ticket. */
  predicate FreshTickets(history: seq<Event>) {
    forall i, j :: 0 <= i < j < |history| && history[i].Issued? && history[j].Issued? ==> history[i].ticket != history[j].ticket
  }

  // ----- The claim by claim definition over the history -----

  /** The event takes the ticket with these claims out of use. */
  predicate Ends(e: Event, ticket: Ticket, c: Claims) {
    || (e.Presented? && e.ticket == ticket)
    || (e.Issued? && SameScope(e.claims, c))
  }

  /** Event `i` issued this ticket, and since then it was neither presented, in whatever scope, nor
      superseded by an issue for the same session, participant and purpose. */
  predicate UsableSince(history: seq<Event>, i: nat, ticket: Ticket, c: Claims) {
    && i < |history| && history[i] == Issued(ticket, c)
    && forall j :: i < j < |history| ==> !Ends(history[j], ticket, c)
  }

  predicate Usable(history: seq<Event>, ticket: Ticket, c: Claims) {
    exists i :: 0 <= i < |history| && UsableSince(history, i, ticket, c)
  }

  lemma UsableAfter(history: seq<Event>, e: Event, ticket: Ticket, c: Claims)
    ensures Usable(history + [e], ticket, c) <==>
              e == Issued(ticket, c) || (Usable(history, ticket, c) && !Ends(e, ticket, c))
  {
    var all := history + [e];
    if Usable(all, ticket, c) {
      var i :| 0 <= i < |all| && UsableSince(all, i, ticket, c);
      if i < |history| {
        assert !Ends(all[|history|], ticket, c);
        assert forall j :: i < j < |history| ==> all[j] == history[j];
        assert UsableSince(history, i, ticket, c);
      }
    }
    if e == Issued(ticket, c) { assert UsableSince(all, |history|, ticket, c); }
    if Usable(history, ticket, c) && !Ends(e, ticket, c) {
      var i :| 0 <= i < |history| && UsableSince(history, i, ticket, c);
      assert UsableSince(all, i, ticket, c);
    }
  }

  lemma LaterIssueDiffers(history: seq<Event>, i: nat, ticket: Ticket, c: Claims, j: nat)
    requires UsableSince(history, i, ticket, c) && i < j < |history| && history[j].Issued?
    ensures !SameScope(history[j].claims, c) && !SameScope(c, history[j].claims)
  {
    assert !Ends(history[j], ticket, c);
  }

  /** The ticket determines its claims, and the scope determines the ticket. */
  lemma OneUsablePerScope(history: seq<Event>, t: Ticket, c: Claims, u: Ticket, d: Claims)
    requires FreshTickets(history) && Usable(history, t, c) && Usable(history, u, d)
    ensures t == u ==> c == d
    ensures SameScope(c, d) ==> t == u
  {
    var i :| 0 <= i < |history| && UsableSince(history, i, t, c);
    var j :| 0 <= j < |history| && UsableSince(history, j, u, d);
    if i < j { LaterIssueDiffers(history, i, t, c, j); }
    if j < i { LaterIssueDiffers(history, j, u, d, i); }
  }

  // ----- The store -----

  /** The store holds only usable tickets, and every usable ticket which has not expired. */
  ghost predicate Agrees(history: seq<Event>, tickets: map<Ticket, Claims>, latest: int) {
    && (forall t :: t in tickets ==> Usable(history, t, tickets[t]))
    && (forall t, c :: Usable(history, t, c) && c.expiresAt > latest ==> t in tickets && tickets[t] == c)
  }

  function Unexpired(tickets: map<Ticket, Claims>, now: int): map<Ticket, Claims> {
    map t | t in tickets && tickets[t].expiresAt > now :: tickets[t]
  }

  function OtherScopes(tickets: map<Ticket, Claims>, c: Claims): map<Ticket, Claims> {
    map t | t in tickets && !SameScope(tickets[t], c) :: tickets[t]
  }

  function Later(a: int, b: int): int { if a > b then a else b }

  lemma PruneAgrees(history: seq<Event>, tickets: map<Ticket, Claims>, latest: int, now: int)
    requires Agrees(history, tickets, latest)
    ensures Agrees(history, Unexpired(tickets, now), Later(now, latest))
  {
    hide Usable;
  }

  lemma AgreesLater(history: seq<Event>, tickets: map<Ticket, Claims>, latest: int, now: int)
    requires Agrees(history, tickets, latest) && latest <= now
    ensures Agrees(history, tickets, now)
  {
    hide Usable;
  }

  lemma IssueAgrees(history: seq<Event>, tickets: map<Ticket, Claims>, latest: int, ticket: Ticket, c: Claims)
    requires Agrees(history, tickets, latest) && !WasIssued(history, ticket)
    ensures Agrees(history + [Issued(ticket, c)], OtherScopes(tickets, c)[ticket := c], latest)
  {
    var e, after := Issued(ticket, c), OtherScopes(tickets, c)[ticket := c];
    forall t, d ensures Usable(history + [e], t, d) <==> e == Issued(t, d) || (Usable(history, t, d) && !Ends(e, t, d)) {
      UsableAfter(history, e, t, d);
    }
    forall d ensures !Usable(history, ticket, d) {
    }
    hide Usable, WasIssued;
  }

  lemma OthersAgree(history: seq<Event>, tickets: map<Ticket, Claims>, latest: int, e: Event)
    requires Agrees(history, tickets, latest) && !e.Issued?
    ensures Agrees(history + [e], if e.Presented? then tickets - {e.ticket} else tickets, latest)
  {
    forall t, d ensures Usable(history + [e], t, d) <==> Usable(history, t, d) && !Ends(e, t, d) {
      UsableAfter(history, e, t, d);
    }
    hide Usable;
  }

  class UpgradeTicketStore {
    var tickets: map<Ticket, Claims>
    ghost var history: seq<Event>
    /** The latest time any call has read. */
    ghost var latest: int

    ghost predicate Valid()
      reads this
    {
      FreshTickets(history) && Agrees(history, tickets, latest)
    }

    constructor (now: int)
      ensures Valid() && history == [] && latest == now
    {
      tickets, history, latest := map[], [], now;
    }

    /** The lifetime is counted from `issuedAt`; `now` is read after the ticket was minted. */
    method Issue(claims: Claims, ticket: Ticket, issuedAt: int, now: int)
      requires Valid() && !WasIssued(history, ticket) && issuedAt <= now
      modifies this
      ensures Valid() && latest == Later(now, old(latest))
      ensures history == old(history) + [Issued(ticket, claims.(expiresAt := issuedAt + LIFETIME))]
    {
      var c := claims.(expiresAt := issuedAt + LIFETIME);
      PruneAgrees(history, tickets, latest, now);
      IssueAgrees(history, Unexpired(tickets, now), Later(now, latest), ticket, c);
      hide Agrees;
      tickets := Unexpired(tickets, now);
      tickets := OtherScopes(tickets, c);
      tickets := tickets[ticket := c];
      history := history + [Issued(ticket, c)];
      latest := Later(now, latest);
    }

    /** Presenting a ticket uses it up, whether or not it is accepted; it is accepted exactly when it is
        usable, issued less than a lifetime ago, and meant for this purpose and session. */
    method Consume(ticket: Ticket, purpose: Purpose, publicSession: string, now: int) returns (r: Option<Claims>)
      requires Valid() && now >= latest
      modifies this
      ensures Valid() && latest == now && history == old(history) + [Presented(ticket)]
      ensures forall c :: r == Some(c) <==>
                Usable(old(history), ticket, c) && now < c.expiresAt && c.purpose == purpose && c.publicSession == publicSession
    {
      OthersAgree(history, tickets, latest, Presented(ticket));
      AgreesLater(history + [Presented(ticket)], tickets - {ticket}, latest, now);
      assert ticket !in tickets ==> tickets - {ticket} == tickets;
      r := None;
      if ticket in tickets {
        var claims := tickets[ticket];
        forall c | Usable(history, ticket, c) ensures c == claims {
          OneUsablePerScope(history, ticket, c, ticket, claims);
        }
        tickets := tickets - {ticket};
        if claims.expiresAt > now && claims.purpose == purpose && claims.publicSession == publicSession {
          r := Some(claims);
        }
      }
      hide Usable;
      history := history + [Presented(ticket)];
      latest := now;
    }

    method Cleanup(now: int)
      requires Valid()
      modifies this
      ensures Valid() && latest == Later(now, old(latest))
      ensures history == old(history) + [CleanedUp]
    {
      PruneAgrees(history, tickets, latest, now);
      OthersAgree(history, Unexpired(tickets, now), Later(now, latest), CleanedUp);
      tickets := Unexpired(tickets, now);
      history := history + [CleanedUp];
      latest := Later(now, latest);
    }

    /** At most one ticket per session, participant and purpose is ever held. */
    lemma AtMostOnePerScope(t: Ticket, u: Ticket)
      requires Valid() && t in tickets && u in tickets && SameScope(tickets[t], tickets[u])
      ensures t == u
    {
      OneUsablePerScope(history, t, tickets[t], u, tickets[u]);
    }
  }

  /** Acceptance spelled out: in a history of fresh tickets, a usable ticket's claims expire one lifetime
      after its issue, and it stays unusable once presented or superseded. */
  lemma NeverUsableAgain(history: seq<Event>, later: seq<Event>, ticket: Ticket, c: Claims)
    requires FreshTickets(history + later) && WasIssued(history, ticket) && !Usable(history, ticket, c)
    ensures !Usable(history + later, ticket, c)
  {
    var all := history + later;
    if i :| 0 <= i < |all| && UsableSince(all, i, ticket, c) {
      var k :| 0 <= k < |history| && history[k].Issued? && history[k].ticket == ticket;
      assert all[k] == history[k];
      assert i == k;
      assert forall j :: i < j < |history| ==> all[j] == history[j];
      assert UsableSince(history, i, ticket, c);
    }
  }

  /** An issue supersedes a ticket exactly when it is for the same session, the same participant and the
      same purpose. */
  lemma SupersededIff(history: seq<Event>, ticket: Ticket, c: Claims, other: Ticket, d: Claims)
    requires Usable(history, ticket, c) && other != ticket
    ensures Usable(history + [Issued(other, d)], ticket, c) <==>
            d.publicSession != c.publicSession || d.participant != c.participant || d.purpose != c.purpose
  {
    UsableAfter(history, Issued(other, d), ticket, c);
    hide Usable;
  }

  /** Presenting another ticket and cleaning up leave a ticket usable; presenting it does not. */
  lemma PresentationUsesUp(history: seq<Event>, ticket: Ticket, c: Claims, other: Ticket)
    requires Usable(history, ticket, c)
    ensures Usable(history + [Presented(other)], ticket, c) <==> other != ticket
    ensures Usable(history + [CleanedUp], ticket, c)
  {
    UsableAfter(history, Presented(other), ticket, c);
    UsableAfter(history, CleanedUp, ticket, c);
    hide Usable;
  }

  /** A new ticket is usable as soon as it is issued. */
  lemma UsableOnceIssued(history: seq<Event>, ticket: Ticket, c: Claims)
    ensures Usable(history + [Issued(ticket, c)], ticket, c)
  {
    UsableAfter(history, Issued(ticket, c), ticket, c);
    hide Usable;
  }
}
