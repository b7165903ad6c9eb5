/** Model of the two rate limits in rust-server/src/app.rs: the token bucket, over real numbers, and the
    sliding window of participant creations. The clock does not go backwards. */
module RateLimits {

  // ----- Token bucket -----

  datatype Attempt = Attempt(time: real, granted: bool)

  function Grants(h: seq<Attempt>): nat {
    if h == [] then 0 else Grants(h[..|h| - 1]) + if h[|h| - 1].granted then 1 else 0
  }

  /** What the bucket gains in this time. */
  function Gain(rate: real, elapsed: real): real { rate * elapsed }

  lemma Gains(rate: real, a: real, b: real)
    ensures Gain(rate, a) + Gain(rate, b) == Gain(rate, a + b) && Gain(rate, 0.0) == 0.0
    ensures rate >= 0.0 && b >= 0.0 ==> Gain(rate, b) >= 0.0
  {
  }

  lemma GainGrows(rate: real, a: real, b: real)
    requires rate >= 0.0 && a <= b
    ensures Gain(rate, a) <= Gain(rate, b)
  {
    Gains(rate, a, b - a);
    hide Gain;
    assert a + (b - a) == b;
  }

  /** What the interval from attempt `k` to `time` leaves of the burst and the sustained rate. */
  function Room(capacity: real, rate: real, h: seq<Attempt>, k: nat, time: real): real
    requires k < |h|
  {
    capacity + Gain(rate, time - h[k].time) - Grants(h[k..]) as real
  }

  /** Granting one more now keeps every interval which starts at an earlier attempt, and ends now,
      within the burst and the sustained rate. */
  predicate Allows(capacity: real, rate: real, h: seq<Attempt>, now: real) {
    capacity >= 1.0 && forall k :: 0 <= k < |h| ==> Room(capacity, rate, h, k, now) >= 1.0
  }

  lemma GrantsSnoc(h: seq<Attempt>, a: Attempt)
    ensures Grants(h + [a]) == Grants(h) + if a.granted then 1 else 0
  {
    assert (h + [a])[..|h|] == h;
  }

  lemma RoomLater(capacity: real, rate: real, h: seq<Attempt>, k: nat, time: real, now: real)
    requires k < |h|
    ensures Room(capacity, rate, h, k, now) == Room(capacity, rate, h, k, time) + Gain(rate, now - time)
  {
    Gains(rate, time - h[k].time, now - time);
    hide Gain;
    assert time - h[k].time + (now - time) == now - h[k].time;
  }

  lemma RoomSnoc(capacity: real, rate: real, h: seq<Attempt>, k: nat, a: Attempt)
    requires k < |h|
    ensures Room(capacity, rate, h + [a], k, a.time) == Room(capacity, rate, h, k, a.time) - if a.granted then 1.0 else 0.0
  {
    GrantsSnoc(h[k..], a);
    hide Gain, Grants;
    assert (h + [a])[k..] == h[k..] + [a];
  }

  lemma RoomAtLast(capacity: real, rate: real, h: seq<Attempt>, a: Attempt)
    ensures Room(capacity, rate, h + [a], |h|, a.time) == capacity - if a.granted then 1.0 else 0.0
  {
    GrantsSnoc([], a);
    Gains(rate, 0.0, 0.0);
    hide Gain;
    assert (h + [a])[|h|..] == [] + [a];
    assert a.time - a.time == 0.0;
  }

  /** The level is the least room that any interval leaves, and full before the first attempt. */
  ghost predicate IsLevel(capacity: real, rate: real, h: seq<Attempt>, level: real, time: real) {
    && level <= capacity && (h == [] ==> level == capacity)
    && (forall k :: 0 <= k < |h| ==> level <= Room(capacity, rate, h, k, time))
    && (h != [] ==> exists k :: 0 <= k < |h| && level == Room(capacity, rate, h, k, time))
  }

  function Refilled(capacity: real, level: real, gain: real): real {
    if level + gain < capacity then level + gain else capacity
  }

  lemma RefillAllows(capacity: real, rate: real, h: seq<Attempt>, level: real, time: real, now: real)
    requires IsLevel(capacity, rate, h, level, time) && rate >= 0.0 && time <= now
    ensures Refilled(capacity, level, Gain(rate, now - time)) >= 1.0 <==> Allows(capacity, rate, h, now)
  {
    Gains(rate, 0.0, now - time);
    forall k | 0 <= k < |h| ensures Room(capacity, rate, h, k, now) == Room(capacity, rate, h, k, time) + Gain(rate, now - time) {
      RoomLater(capacity, rate, h, k, time, now);
    }
    hide Room, Gain;
  }

  lemma LevelAfter(capacity: real, rate: real, h: seq<Attempt>, level: real, time: real, a: Attempt)
    requires IsLevel(capacity, rate, h, level, time) && rate >= 0.0 && time <= a.time
    ensures IsLevel(capacity, rate, h + [a],
                    Refilled(capacity, level, Gain(rate, a.time - time)) - (if a.granted then 1.0 else 0.0), a.time)
  {
    var gain := Gain(rate, a.time - time);
    var cost, refilled, all := if a.granted then 1.0 else 0.0, Refilled(capacity, level, gain), h + [a];
    Gains(rate, 0.0, a.time - time);
    RoomAtLast(capacity, rate, h, a);
    hide Room, Gain, Grants;
    forall k | 0 <= k < |h|
      ensures Room(capacity, rate, all, k, a.time) == Room(capacity, rate, h, k, time) + gain - cost
    {
      RoomLater(capacity, rate, h, k, time, a.time);
      RoomSnoc(capacity, rate, h, k, a);
    }
    if refilled < capacity {
      var k :| 0 <= k < |h| && level == Room(capacity, rate, h, k, time);
      assert refilled - cost == Room(capacity, rate, all, k, a.time);
    } else {
      assert refilled - cost == Room(capacity, rate, all, |h|, a.time);
    }
  }

  /** What one attempt does. */
  lemma ConsumeKeeps(capacity: real, rate: real, h: seq<Attempt>, tokens: real, time: real, now: real, granted: bool)
    requires capacity >= 0.0 && rate >= 0.0 && 0.0 <= tokens && time <= now
    requires IsLevel(capacity, rate, h, tokens, time) && WellAdmitted(capacity, rate, h)
    requires h != [] ==> time == h[|h| - 1].time
    requires granted <==> Refilled(capacity, tokens, Gain(rate, now - time)) >= 1.0
    ensures granted <==> Allows(capacity, rate, h, now)
    ensures var after := Refilled(capacity, tokens, Gain(rate, now - time)) - if granted then 1.0 else 0.0;
      0.0 <= after && IsLevel(capacity, rate, h + [Attempt(now, granted)], after, now)
    ensures WellAdmitted(capacity, rate, h + [Attempt(now, granted)])
  {
    hide IsLevel, Allows, WellAdmitted, Gain;
    RefillAllows(capacity, rate, h, tokens, time, now);
    LevelAfter(capacity, rate, h, tokens, time, Attempt(now, granted));
    AdmittedSnoc(capacity, rate, h, now);
    Gains(rate, 0.0, now - time);
  }

  class TokenBucket {
    const capacity: real
    const rate: real
    var tokens: real
    var lastRefill: real
    ghost var attempts: seq<Attempt>

    ghost predicate Valid()
      reads this
    {
      && capacity >= 0.0 && rate >= 0.0 && 0.0 <= tokens <= capacity
      && IsLevel(capacity, rate, attempts, tokens, lastRefill)
      && WellAdmitted(capacity, rate, attempts)
      && (attempts != [] ==> lastRefill == attempts[|attempts| - 1].time)
    }

    constructor (capacity: real, rate: real, now: real)
      requires capacity >= 0.0 && rate >= 0.0
      ensures Valid() && this.capacity == capacity && this.rate == rate && attempts == [] && lastRefill == now
    {
      this.capacity, this.rate, tokens, lastRefill, attempts := capacity, rate, capacity, now, [];
    }

    method Consume(now: real) returns (granted: bool)
      requires Valid() && now >= lastRefill
      modifies this
      ensures Valid() && lastRefill == now && attempts == old(attempts) + [Attempt(now, granted)]
      ensures granted <==> Allows(capacity, rate, old(attempts), now)
    {
      ghost var level, time, before := tokens, lastRefill, attempts;
      hide IsLevel, Allows, WellAdmitted, Gain;
      tokens := Refilled(capacity, tokens, Gain(rate, now - lastRefill));
      lastRefill := now;
      granted := tokens >= 1.0;
      ConsumeKeeps(capacity, rate, before, level, time, now, granted);
      if granted { tokens := tokens - 1.0; }
      attempts := attempts + [Attempt(now, granted)];
    }
  }

  /** In time order, each attempt was granted exactly when it was allowed. */
  ghost predicate WellAdmitted(capacity: real, rate: real, h: seq<Attempt>) {
    && (forall i, j :: 0 <= i < j < |h| ==> h[i].time <= h[j].time)
    && (forall i :: 0 <= i < |h| ==> (h[i].granted <==> Allows(capacity, rate, h[..i], h[i].time)))
  }

  lemma AdmittedSnoc(capacity: real, rate: real, h: seq<Attempt>, now: real)
    requires WellAdmitted(capacity, rate, h) && (h != [] ==> h[|h| - 1].time <= now)
    ensures WellAdmitted(capacity, rate, h + [Attempt(now, Allows(capacity, rate, h, now))])
  {
    hide Allows;
    var all := h + [Attempt(now, Allows(capacity, rate, h, now))];
    forall i | 0 <= i < |all| ensures all[i].granted <==> Allows(capacity, rate, all[..i], all[i].time) {
      assert all[..i] == h[..i];
      assert h[..|h|] == h;
    }
  }

  lemma GrantedBound(capacity: real, rate: real, h: seq<Attempt>, i: nat, j: nat)
    requires i <= j < |h| && h[j].granted && Allows(capacity, rate, h[..j], h[j].time)
    ensures (Grants(h[i..j]) + 1) as real <= capacity + Gain(rate, h[j].time - h[i].time)
  {
    if i < j {
      assert Room(capacity, rate, h[..j], i, h[j].time) >= 1.0;
      assert h[..j][i..] == h[i..j] && h[..j][i] == h[i];
    } else {
      Gains(rate, 0.0, 0.0);
      assert h[i..j] == [];
    }
  }

  /** Grants in positions `i` to `j` are within the burst and the rate over that time. */
  lemma {:induction false} IntervalBound(capacity: real, rate: real, h: seq<Attempt>, i: nat, j: nat)
    requires WellAdmitted(capacity, rate, h) && i <= j < |h| && capacity >= 0.0 && rate >= 0.0
    ensures Grants(h[i..j + 1]) as real <= capacity + Gain(rate, h[j].time - h[i].time)
  {
    hide Allows, Gain;
    assert h[i..j] + [h[j]] == h[i..j + 1];
    GrantsSnoc(h[i..j], h[j]);
    hide Grants;
    if h[j].granted {
      GrantedBound(capacity, rate, h, i, j);
    } else if i < j {
      IntervalBound(capacity, rate, h, i, j - 1);
      GainGrows(rate, h[j - 1].time - h[i].time, h[j].time - h[i].time);
    } else {
      assert h[i..j] == [];
      NoGrants();
      Gains(rate, 0.0, 0.0);
    }
  }

  lemma NoGrants()
    ensures Grants([]) == 0
  {
  }

  // ----- The bucket refills -----

  lemma {:induction false} NoneGranted(h: seq<Attempt>)
    requires forall i :: 0 <= i < |h| ==> !h[i].granted
    ensures Grants(h) == 0
  {
    if h != [] { NoneGranted(h[..|h| - 1]); }
  }

  lemma GrantsUpTo(h: seq<Attempt>, k: nat, m: nat)
    requires k <= m < |h| && h[m].granted && forall i :: m < i < |h| ==> !h[i].granted
    ensures Grants(h[k..]) == Grants(h[k..m]) + 1
    decreases |h|
  {
    var front := h[..|h| - 1];
    assert h[k..] == front[k..] + [h[|h| - 1]];
    GrantsSnoc(front[k..], h[|h| - 1]);
    if m < |h| - 1 {
      GrantsUpTo(front, k, m);
      assert front[k..m] == h[k..m];
    } else {
      assert front[k..] == h[k..m];
    }
  }

  /** What the interval from attempt `k` leaves after a wait with no grant. */
  lemma RoomAfterWaiting(capacity: real, rate: real, h: seq<Attempt>, k: nat, m: nat, now: real, wait: real)
    requires WellAdmitted(capacity, rate, h) && rate >= 0.0 && capacity >= 1.0 && rate * wait >= 1.0
    requires k <= m < |h| && h[m].granted && h[m].time <= now - wait && forall i :: m < i < |h| ==> !h[i].granted
    ensures Room(capacity, rate, h, k, now) >= 1.0
  {
    GrantsUpTo(h, k, m);
    assert Gain(rate, wait) >= 1.0;
    GainGrows(rate, wait, now - h[m].time);
    Gains(rate, h[m].time - h[k].time, now - h[m].time);
    assert h[m].time - h[k].time + (now - h[m].time) == now - h[k].time;
    assert Allows(capacity, rate, h[..m], h[m].time);
    hide Gain, Grants;
    if k < m {
      assert Room(capacity, rate, h[..m], k, h[m].time) >= 1.0;
      assert h[..m][k..] == h[k..m] && h[..m][k] == h[k];
    } else {
      assert h[k..m] == [];
      NoGrants();
      assert h[m].time - h[k].time == 0.0;
      Gains(rate, 0.0, 0.0);
    }
  }

  lemma LastGrant(h: seq<Attempt>, k: nat) returns (m: nat)
    requires k <= |h|
    ensures (m == |h| && forall i :: k <= i < |h| ==> !h[i].granted)
         || (k <= m < |h| && h[m].granted && forall i :: m < i < |h| ==> !h[i].granted)
  {
    m := |h|;
    var i := |h|;
    while i > k
      invariant k <= i <= |h| && forall x :: i <= x < |h| ==> !h[x].granted
    {
      i := i - 1;
      if h[i].granted { return i; }
    }
  }

  lemma RoomWithoutGrants(capacity: real, rate: real, h: seq<Attempt>, k: nat, now: real)
    requires k < |h| && capacity >= 1.0 && rate >= 0.0 && h[k].time <= now && forall i :: k <= i < |h| ==> !h[i].granted
    ensures Room(capacity, rate, h, k, now) >= 1.0
  {
    NoneGranted(h[k..]);
    Gains(rate, 0.0, now - h[k].time);
    hide Gain, Grants;
  }

  /** Nothing was granted during this time up to now. */
  predicate Waited(h: seq<Attempt>, now: real, wait: real) {
    forall i :: 0 <= i < |h| ==> h[i].time <= now && (h[i].granted ==> h[i].time <= now - wait)
  }

  lemma RoomWhenWaited(capacity: real, rate: real, h: seq<Attempt>, k: nat, now: real, wait: real)
    requires WellAdmitted(capacity, rate, h) && rate >= 0.0 && capacity >= 1.0 && rate * wait >= 1.0
    requires Waited(h, now, wait) && k < |h|
    ensures Room(capacity, rate, h, k, now) >= 1.0
  {
    hide WellAdmitted, Room;
    var m := LastGrant(h, k);
    if m == |h| { RoomWithoutGrants(capacity, rate, h, k, now); } else { RoomAfterWaiting(capacity, rate, h, k, m, now, wait); }
  }

  /** The bucket refills at its rate: after a time without grants in which it gains one token, the next
      request is granted. */
  lemma GrantedAfterWaiting(capacity: real, rate: real, h: seq<Attempt>, now: real, wait: real)
    requires WellAdmitted(capacity, rate, h) && rate >= 0.0 && capacity >= 1.0 && rate * wait >= 1.0
    requires Waited(h, now, wait)
    ensures Allows(capacity, rate, h, now)
  {
    hide WellAdmitted, Room, Waited;
    forall k | 0 <= k < |h| ensures Room(capacity, rate, h, k, now) >= 1.0 {
      RoomWhenWaited(capacity, rate, h, k, now, wait);
    }
  }

  function GrantsIn(h: seq<Attempt>, start: real, end: real): nat {
    if h == [] then 0 else
      var a := h[|h| - 1];
      GrantsIn(h[..|h| - 1], start, end) + if a.granted && start <= a.time <= end then 1 else 0
  }

  lemma {:induction false} GrantsInSlice(h: seq<Attempt>, i: nat, start: real, end: real)
    requires i <= |h|
    requires forall k :: 0 <= k < i ==> h[k].time < start
    requires forall k :: i <= k < |h| ==> start <= h[k].time <= end
    ensures GrantsIn(h, start, end) == Grants(h[i..])
  {
    if i < |h| {
      var front, a := h[..|h| - 1], h[|h| - 1];
      GrantsInSlice(front, i, start, end);
      assert h[i..] == front[i..] + [a];
      GrantsSnoc(front[i..], a);
    } else if h != [] {
      GrantsInSlice(h[..|h| - 1], i - 1, start, end);
      assert h[..|h| - 1][i - 1..] == [] && h[i..] == [];
    }
  }

  lemma FirstAtOrAfter(h: seq<Attempt>, start: real) returns (i: nat)
    requires h != [] && h[|h| - 1].time >= start && forall i, j :: 0 <= i < j < |h| ==> h[i].time <= h[j].time
    ensures i < |h| && (forall k :: 0 <= k < i ==> h[k].time < start) && forall k :: i <= k < |h| ==> start <= h[k].time
  {
    i := |h| - 1;
    while i > 0 && h[i - 1].time >= start
      invariant 0 <= i < |h| && forall k :: i <= k < |h| ==> h[k].time >= start
    {
      i := i - 1;
    }
  }

  /** No interval of any length T ever sees more than capacity + rate * T grants. */
  lemma {:induction false} GrantsBounded(capacity: real, rate: real, h: seq<Attempt>, start: real, end: real)
    requires WellAdmitted(capacity, rate, h) && capacity >= 0.0 && rate >= 0.0 && start <= end
    ensures GrantsIn(h, start, end) as real <= capacity + rate * (end - start)
  {
    assert Gain(rate, end - start) == rate * (end - start);
    Gains(rate, 0.0, end - start);
    hide Gain, Allows;
    if h != [] {
      var last := h[|h| - 1].time;
      if last > end || last < start {
        AdmittedFront(capacity, rate, h);
        GrantsBounded(capacity, rate, h[..|h| - 1], start, end);
      } else {
        var i := FirstAtOrAfter(h, start);
        GrantsInSlice(h, i, start, end);
        IntervalBound(capacity, rate, h, i, |h| - 1);
        assert h[i..] == h[i..|h| - 1 + 1];
        GainGrows(rate, last - h[i].time, end - start);
      }
    }
    hide Grants;
  }

  lemma AdmittedFront(capacity: real, rate: real, h: seq<Attempt>)
    requires h != [] && WellAdmitted(capacity, rate, h)
    ensures WellAdmitted(capacity, rate, h[..|h| - 1])
  {
    hide Allows;
    var front := h[..|h| - 1];
    forall i | 0 <= i < |front| ensures front[i].granted <==> Allows(capacity, rate, front[..i], front[i].time) {
      assert front[..i] == h[..i];
    }
  }

  // ----- Sliding window of creations -----

  /** Entries after `bound`, in order. */
  function After(times: seq<int>, bound: int): (r: seq<int>) {
    if times == [] then [] else
      var last := times[|times| - 1];
      After(times[..|times| - 1], bound) + if last > bound then [last] else []
  }

  lemma AfterSnoc(times: seq<int>, t: int, bound: int)
    ensures After(times + [t], bound) == if t > bound then After(times, bound) + [t] else After(times, bound)
  {
    assert (times + [t])[..|times|] == times;
  }

  lemma {:induction false} AfterAfter(times: seq<int>, early: int, late: int)
    requires early <= late
    ensures After(After(times, early), late) == After(times, late)
  {
    if times != [] {
      var front, last := times[..|times| - 1], times[|times| - 1];
      AfterAfter(front, early, late);
      assert times == front + [last];
      AfterSnoc(front, last, early);
      AfterSnoc(front, last, late);
      AfterSnoc(After(front, early), last, late);
      hide After;
    }
  }

  lemma {:induction false} LaterBoundKeepsFewer(times: seq<int>, early: int, late: int)
    requires early <= late
    ensures |After(times, late)| <= |After(times, early)|
  {
    if times != [] { LaterBoundKeepsFewer(times[..|times| - 1], early, late); }
  }

  /** In time order, each attempt was accepted while fewer than the maximum of those before it lay in the
      window which ended at it. */
  ghost predicate WellLimited(accepted: seq<int>, maxAttempts: nat, windowSeconds: nat) {
    && (forall i, j :: 0 <= i < j < |accepted| ==> accepted[i] <= accepted[j])
    && (forall i :: 0 <= i < |accepted| ==> |After(accepted[..i], accepted[i] - windowSeconds)| < maxAttempts)
  }

  lemma LimitedSnoc(accepted: seq<int>, maxAttempts: nat, windowSeconds: nat, now: int)
    requires WellLimited(accepted, maxAttempts, windowSeconds) && |After(accepted, now - windowSeconds)| < maxAttempts
    requires forall i :: 0 <= i < |accepted| ==> accepted[i] <= now
    ensures WellLimited(accepted + [now], maxAttempts, windowSeconds)
  {
    hide After;
    var all := accepted + [now];
    forall i | 0 <= i < |all| ensures |After(all[..i], all[i] - windowSeconds)| < maxAttempts {
      assert all[..i] == accepted[..i];
      assert accepted[..|accepted|] == accepted;
    }
  }

  predicate NoLaterThan(times: seq<int>, bound: int) { forall i :: 0 <= i < |times| ==> times[i] <= bound }

  lemma LaterBoundHolds(times: seq<int>, latest: int, now: int)
    requires NoLaterThan(times, latest) && latest <= now
    ensures NoLaterThan(times, now) && NoLaterThan(times + [now], now)
  {
  }

  lemma RecordKeeps(accepted: seq<int>, maxAttempts: nat, windowSeconds: nat, latest: int, now: int)
    requires windowSeconds > 0 && latest <= now && WellLimited(accepted, maxAttempts, windowSeconds) && NoLaterThan(accepted, latest)
    ensures var recent := After(accepted, now - windowSeconds);
      && After(After(accepted, latest - windowSeconds), now - windowSeconds) == recent
      && NoLaterThan(accepted, now) && NoLaterThan(accepted + [now], now)
      && After(accepted + [now], now - windowSeconds) == recent + [now]
      && (|recent| < maxAttempts ==> WellLimited(accepted + [now], maxAttempts, windowSeconds))
  {
    hide After, WellLimited;
    LaterBoundHolds(accepted, latest, now);
    AfterAfter(accepted, latest - windowSeconds, now - windowSeconds);
    AfterSnoc(accepted, now, now - windowSeconds);
    if |After(accepted, now - windowSeconds)| < maxAttempts { LimitedSnoc(accepted, maxAttempts, windowSeconds, now); }
    hide NoLaterThan;
  }

  class ParticipantCreationRate {
    const maxAttempts: nat
    const windowSeconds: nat
    var recent: seq<int>
    /** Every attempt ever accepted, and the latest time seen. */
    ghost var accepted: seq<int>
    ghost var latest: int

    ghost predicate Valid()
      reads this
    {
      && windowSeconds > 0 && recent == After(accepted, latest - windowSeconds)
      && WellLimited(accepted, maxAttempts, windowSeconds)
      && NoLaterThan(accepted, latest)
    }

    constructor (maxAttempts: nat, windowSeconds: nat, now: int)
      requires windowSeconds > 0
      ensures Valid() && this.maxAttempts == maxAttempts && this.windowSeconds == windowSeconds
      ensures accepted == [] && latest == now
    {
      this.maxAttempts, this.windowSeconds := maxAttempts, windowSeconds;
      recent, accepted, latest := [], [], now;
    }

    /** Accepts exactly when fewer than the maximum of all attempts ever accepted lie in the window. */
    method Record(now: int) returns (ok: bool)
      requires Valid() && now >= latest
      modifies this
      ensures Valid() && latest == now
      ensures ok <==> |After(old(accepted), now - windowSeconds)| < maxAttempts
      ensures accepted == if ok then old(accepted) + [now] else old(accepted)
    {
      hide After, WellLimited, NoLaterThan;
      RecordKeeps(accepted, maxAttempts, windowSeconds, latest, now);
      recent := After(recent, now - windowSeconds);
      latest := now;
      if |recent| >= maxAttempts { return false; }
      recent := recent + [now];
      accepted := accepted + [now];
      ok := true;
    }
  }

  /** How many of these lie in the window which ends at `end`. */
  function InWindow(times: seq<int>, end: int, windowSeconds: nat): nat {
    if times == [] then 0 else
      var last := times[|times| - 1];
      InWindow(times[..|times| - 1], end, windowSeconds) + if end - windowSeconds < last <= end then 1 else 0
  }

  lemma {:induction false} InWindowIsAfter(times: seq<int>, end: int, windowSeconds: nat)
    requires forall i :: 0 <= i < |times| ==> times[i] <= end
    ensures InWindow(times, end, windowSeconds) == |After(times, end - windowSeconds)|
  {
    if times != [] { InWindowIsAfter(times[..|times| - 1], end, windowSeconds); }
  }

  /** No window of this length, wherever it ends, ever holds more than the maximum. */
  lemma {:induction false} WindowBounded(accepted: seq<int>, maxAttempts: nat, windowSeconds: nat, end: int)
    requires WellLimited(accepted, maxAttempts, windowSeconds)
    ensures InWindow(accepted, end, windowSeconds) <= maxAttempts
  {
    if accepted != [] {
      var front, last := accepted[..|accepted| - 1], accepted[|accepted| - 1];
      LimitedFront(accepted, maxAttempts, windowSeconds);
      if last > end || last <= end - windowSeconds {
        WindowBounded(front, maxAttempts, windowSeconds, end);
      } else {
        InWindowIsAfter(front, end, windowSeconds);
        LaterBoundKeepsFewer(front, last - windowSeconds, end - windowSeconds);
        assert accepted[..|accepted| - 1] == front;
      }
    }
  }

  lemma LimitedFront(accepted: seq<int>, maxAttempts: nat, windowSeconds: nat)
    requires accepted != [] && WellLimited(accepted, maxAttempts, windowSeconds)
    ensures WellLimited(accepted[..|accepted| - 1], maxAttempts, windowSeconds)
  {
    hide After;
    var front := accepted[..|accepted| - 1];
    forall i | 0 <= i < |front| ensures |After(front[..i], front[i] - windowSeconds)| < maxAttempts {
      assert front[..i] == accepted[..i];
    }
  }
}
