/** The guarantees of the queue over whole runs. */
module ClientEventRuns {
  import opened Numbers
  import opened Sequences
  import opened RetryPolicy
  import opened ClientEventEnvelope
  import opened ClientEventSteps
  import opened ClientEventInvariant
  import opened ClientEventQueue
  import opened ClientEventLedger
  import opened StoreModel

  // ---------------------------------------------------------------------------------------------
  // What a run preserves
  // ---------------------------------------------------------------------------------------------

  /** The claimed events of a scope come first. */
  ghost predicate Prefixed(events: seq<StoredEvent>) {
    forall i, j :: 0 <= i < j < |events| && events[j].lease.Some? ==> events[i].lease.Some?
  }

  ghost predicate SameLease(events: seq<StoredEvent>) {
    forall e, f :: e in events && f in events && e.lease.Some? && f.lease.Some? ==> e.lease == f.lease
  }

  /** What is stored under a handed-out token is what was handed out, at the time and in the scope it was. */
  ghost predicate Registered(stored: Envelope, claims: map<Ticket, ClaimState>) {
    forall t, key, e :: t in claims && e in EventsIn(stored, key) && e.lease.Some? && e.lease.value.token == t.token
      ==> key == t.key && e.lease.value.claimedAt == t.claimedAt && e.id in EntryIds(t)
  }

  ghost predicate Inv(q: Queue, used: set<Id>, clock: nat, w: World) {
    && ValidLimits(w.lim)
    && Readable(q.stored, w.lim)
    && (forall key, e :: e in EventsIn(q.stored, key) ==> Known(e, used, clock))
    && (forall t :: t in q.claims ==> t.token in used)
    && Registered(q.stored, q.claims)
    && (forall key :: Prefixed(EventsIn(q.stored, key)))
  }

  /** Ids and token were drawn before, and no time is ahead of the clock. */
  predicate Known(e: StoredEvent, used: set<Id>, clock: nat) {
    && e.id in used && e.enqueuedAt <= clock
    && (e.lease.Some? ==> e.lease.value.token in used && e.lease.value.claimedAt <= clock)
  }

  function Drawn(op: Op): set<Id> {
    if op.Enqueue? || op.Claim? then set id | id in op.candidates else {}
  }

  function ClockAfter(op: Op, clock: nat): nat {
    match op
    case Begin(_) => clock
    case Discard(_, _) => clock
    case Restart => clock
    case _ => op.now
  }

  /** The clock does not run backwards, ids never repeat, jitter stays in range, and no write is reported that was not made. */
  predicate Possible(op: Op, used: set<Id>, clock: nat) {
    && clock <= ClockAfter(op, clock) <= MAX_SAFE_INTEGER
    && Drawn(op) !! used
    && (op.Release? ==> 0.0 <= op.random < 1.0)
    && (!op.Begin? && !op.Restart? ==> op.access.write.commits || op.access.write.throws)
  }

  ghost predicate PossibleRun(ops: seq<Op>, used: set<Id>, clock: nat)
    decreases |ops|
  {
    ops == [] || (Possible(ops[0], used, clock) && PossibleRun(ops[1..], used + Drawn(ops[0]), ClockAfter(ops[0], clock)))
  }

  lemma {:induction false} FlatView(env: Envelope, key: Key, e: StoredEvent)
    requires DistinctKeys(env)
    ensures e in EventsIn(env, key) <==> Tagged(key, e) in Flat(env)
  {
    if Tagged(key, e) in Flat(env) {
      var s := FlatFrom(env, Tagged(key, e));
      var i :| 0 <= i < |env| && env[i] == s;
      ViewMember(env, i, key);
    } else if e in EventsIn(env, key) {
      FlatHolds(env, env[Find(env, key).value], e);
    }
  }

  /** An id names one event of one scope. */
  lemma {:induction false} UniqueId(env: Envelope, k: Key, e: StoredEvent, l: Key, f: StoredEvent)
    requires DistinctKeys(env) && Consistent(Flat(env))
    requires e in EventsIn(env, k) && f in EventsIn(env, l) && e.id == f.id
    ensures k == l && e == f
  {
    hide EventsIn, Flat;
    FlatView(env, k, e);
    FlatView(env, l, f);
    var flat := Flat(env);
    var i :| 0 <= i < |flat| && flat[i] == Tagged(k, e);
    var j :| 0 <= j < |flat| && flat[j] == Tagged(l, f);
    assert i < j ==> PairOk(flat[i], flat[j]);
    assert j < i ==> PairOk(flat[j], flat[i]);
  }

  lemma {:induction false} ViewSameLease(env: Envelope, key: Key, lim: Limits)
    requires Sound(env, lim)
    ensures SameLease(EventsIn(env, key))
  {
    hide EventsIn, Flat, Consistent;
    forall e, f | e in EventsIn(env, key) && f in EventsIn(env, key) && e.lease.Some? && f.lease.Some?
      ensures e.lease == f.lease
    {
      FlatView(env, key, e);
      FlatView(env, key, f);
      var s := FlatFrom(env, Tagged(key, e));
      var t := FlatFrom(env, Tagged(key, f));
      assert s == t;
      assert OneToken(s.events) by { ScopeOneToken(s, lim); }
      SameToken(Flat(env), Tagged(key, e), Tagged(key, f));
    }
  }

  // ---------------------------------------------------------------------------------------------
  // Where a stored event comes from
  // ---------------------------------------------------------------------------------------------

  ghost predicate NewEvent(q: Queue, op: Op, w: World, key: Key, y: StoredEvent) {
    && op.Enqueue? && op.key == key
    && var r := EnqueueStep(q.stored, op.now, op.key, op.event, op.candidates, w.lim).answer;
       r.Ok? && r.value.id in op.candidates && y == StoredEvent(r.value.id, op.event, op.now, None)
  }

  ghost predicate NewLease(q: Queue, op: Op, w: World, key: Key, x: StoredEvent, y: StoredEvent) {
    && op.Claim? && op.key == key
    && var r := ClaimStep(q.stored, op.now, op.key, op.candidates, w.lim).answer;
       && r.Ok? && r.value.Claimed? && y.id in EntryIds(r.value.ticket)
       && y == x.(lease := Some(Lease(r.value.ticket.token, op.now)))
  }

  /** A claim is handed out only when nothing in the scope is claimed; it carries the front of the scope. */
  lemma {:induction false} ClaimHandsOut(q: Queue, op: Op, w: World)
    requires op.Claim? && Sound(q.stored, w.lim)
    ensures var r := ClaimStep(q.stored, op.now, op.key, op.candidates, w.lim).answer;
            r.Ok? && r.value.Claimed? ==>
              var ticket := r.value.ticket;
              var cleaned := CleanEvents(EventsIn(q.stored, op.key), op.now, w.lim);
              && ticket.key == op.key && ticket.claimedAt == op.now && ticket.token in op.candidates
              && 1 <= |ticket.entries| <= |cleaned| && ticket.entries == QueuedAll(cleaned[..|ticket.entries|])
              && Leased(cleaned) == []
              && BatchBytes(cleaned[..|ticket.entries|]) <= w.lim.maxBatchBytes
              && |ticket.entries| <= w.lim.maxBatchEvents
  {
    hide Clean, CleanEvents, EventsIn, UsedIds, FreshId, CountEvents, Granted, EntryIds, EarliestExpiry, Leased, Consistent, ScopeOk, BatchBytes;
    var c := Clean(q.stored, op.now, w.lim);
    ViewClean(q.stored, op.now, w.lim, op.key);
    var f := Find(c, op.key);
    if f.Some? {
      ViewMember(c, f.value, op.key);
    }
  }

  lemma {:induction false} EnqueueDraws(q: Queue, op: Op, w: World)
    requires op.Enqueue?
    ensures var r := EnqueueStep(q.stored, op.now, op.key, op.event, op.candidates, w.lim).answer;
            r.Ok? ==> r.value.id in op.candidates && r.value == QueuedEvent(r.value.id, op.event, op.now)
  {
    hide Clean, UsedIds, CountEvents;
  }

  lemma {:induction false} CleanMember(events: seq<StoredEvent>, now: nat, lim: Limits, y: StoredEvent) returns (x: StoredEvent)
    requires y in CleanEvents(events, now, lim)
    ensures x in events && !Aged(x, now, lim) && Weaker(x, y)
    ensures y == if Lapsed(x, now, lim) then x.(lease := None) else x
  {
    x :| x in events && Kept(now, lim)(x) == Some(y);
  }

  lemma {:induction false} CleanKeeps(events: seq<StoredEvent>, now: nat, lim: Limits, x: StoredEvent)
    requires x in events && !Aged(x, now, lim)
    ensures (if Lapsed(x, now, lim) then x.(lease := None) else x) in CleanEvents(events, now, lim)
  {
    var y := if Lapsed(x, now, lim) then x.(lease := None) else x;
    assert Kept(now, lim)(x) == Some(y);
  }

  /** Everything stored after an operation was stored before it, is new, or is newly claimed. */
  lemma {:induction false} Origin(q: Queue, op: Op, w: World, key: Key, y: StoredEvent) returns (x: StoredEvent)
    requires Sound(q.stored, w.lim) && y in Effect(q, op, w, key)
    ensures (x in EventsIn(q.stored, key) && Weaker(x, y)) || NewEvent(q, op, w, key, y)
            || (x in EventsIn(q.stored, key) && NewLease(q, op, w, key, x, y))
  {
    hide CleanEvents, EventsIn, Filter, Held, NotHeld, EntryIds, Sound, EnqueueStep, ClaimStep;
    var events := EventsIn(q.stored, key);
    x := y;
    match op {
      case Enqueue(now, k, event, candidates, _) =>
        EnqueueDraws(q, op, w);
        if y in CleanEvents(events, now, w.lim) { x := CleanMember(events, now, w.lim, y); }
      case Claim(now, k, candidates, _) =>
        var cleaned := CleanEvents(events, now, w.lim);
        ClaimHandsOut(q, op, w);
        if y in cleaned {
          x := CleanMember(events, now, w.lim, y);
        } else {
          x := LeasedOrigin(cleaned, ClaimStep(q.stored, now, k, candidates, w.lim).answer.value.ticket, now, y);
          x := CleanMember(events, now, w.lim, x);
        }
      case Acknowledge(now, ticket, _) =>
        assert y in CleanEvents(events, now, w.lim);
        x := CleanMember(events, now, w.lim, y);
      case Release(now, ticket, failure, random, _) =>
        var cleaned := CleanEvents(events, now, w.lim);
        var z := y;
        if key == ticket.key {
          var i :| 0 <= i < |cleaned| && Released(ticket, cleaned)[i] == y;
          z := cleaned[i];
        }
        x := CleanMember(events, now, w.lim, z);
      case Inspect(now, k, _) => x := CleanMember(events, now, w.lim, y);
      case Discard(k, _) =>
      case Begin(_) =>
      case Restart =>
    }
  }

  lemma {:induction false} LeasedOrigin(cleaned: seq<StoredEvent>, ticket: Ticket, now: nat, y: StoredEvent) returns (x: StoredEvent)
    requires 1 <= |ticket.entries| <= |cleaned| && ticket.entries == QueuedAll(cleaned[..|ticket.entries|])
    requires y in LeaseFront(cleaned, |ticket.entries|, Lease(ticket.token, now)) && y !in cleaned
    ensures x in cleaned && y == x.(lease := Some(Lease(ticket.token, now))) && y.id in EntryIds(ticket)
  {
    var n := |ticket.entries|;
    var r := LeaseFront(cleaned, n, Lease(ticket.token, now));
    var i :| 0 <= i < |r| && r[i] == y;
    x := cleaned[i];
    assert i < n;
    assert ticket.entries[i] == Queued(cleaned[i]);
    assert ticket.entries[i] in ticket.entries;
  }

  // ---------------------------------------------------------------------------------------------
  // The invariant
  // ---------------------------------------------------------------------------------------------

  lemma {:induction false} InvSound(q: Queue, used: set<Id>, clock: nat, w: World)
    requires Inv(q, used, clock, w)
    ensures Sound(q.stored, w.lim) && ValidLimits(w.lim) && Readable(q.stored, w.lim)
    ensures forall now: nat :: clock <= now ==> NotAhead(q.stored, now)
  {
    hide EventsIn, Prefixed, Registered, Consistent, ScopeOk, CountEvents;
    ReadableSound(q.stored, w.lim);
    forall s, e | s in q.stored && e in s.events
      ensures e.enqueuedAt <= clock && (e.lease.Some? ==> e.lease.value.claimedAt <= clock)
    {
      var i :| 0 <= i < |q.stored| && q.stored[i] == s;
      ViewMember(q.stored, i, s.key);
      assert Known(e, used, clock);
    }
  }

  lemma {:induction false} RegisteredCovers(q: Queue, used: set<Id>, clock: nat, w: World, ticket: Ticket)
    requires Inv(q, used, clock, w) && ticket in q.claims
    ensures Covers(q.stored, ticket)
  {
    hide EventsIn, Prefixed, Consistent, ScopeOk, CountEvents, Flat, EntryIds;
    forall x | x in Flat(q.stored) && x.e.lease.Some? && x.e.lease.value.token == ticket.token ensures x.e.id in EntryIds(ticket) {
      FlatView(q.stored, x.key, x.e);
    }
  }

  /** A readable record stays readable. */
  lemma {:induction false} StepReadable(q: Queue, op: Op, used: set<Id>, clock: nat, w: World)
    requires Inv(q, used, clock, w) && Possible(op, used, clock)
    ensures Readable(Apply(q, op, w).stored, w.lim)
  {
    hide Inv, EnqueueStep, ClaimStep, AcknowledgeStep, ReleaseStep, InspectStep, DiscardStep, Readable, NotAhead, Sound, Finished;
    InvSound(q, used, clock, w);
    match op {
      case Enqueue(now, key, event, candidates, _) => EnqueueKeeps(q.stored, now, key, event, candidates, w.lim);
      case Claim(now, key, candidates, _) => ClaimKeeps(q.stored, now, key, candidates, w.lim);
      case Acknowledge(now, ticket, _) => AcknowledgeKeeps(q.stored, now, ticket, w.lim);
      case Release(now, ticket, failure, random, _) =>
        if Settles(q, ticket) {
          RegisteredCovers(q, used, clock, w, ticket);
          ReleaseKeeps(q.stored, now, ticket, failure, random, w.host, w.lim);
        }
      case Inspect(now, key, _) => InspectKeeps(q.stored, now, key, w.lim);
      case Discard(key, _) => DiscardKeeps(q.stored, key, w.lim);
      case Begin(_) =>
      case Restart =>
    }
  }

  lemma {:induction false} StepKnown(q: Queue, op: Op, used: set<Id>, clock: nat, w: World, key: Key, y: StoredEvent)
    requires Inv(q, used, clock, w) && Possible(op, used, clock) && y in EventsIn(Apply(q, op, w).stored, key)
    ensures Known(y, used + Drawn(op), ClockAfter(op, clock))
  {
    hide EventsIn, Effect, Succeeds, Apply, Prefixed, Registered, Readable, EnqueueStep, ClaimStep, EntryIds;
    InvSound(q, used, clock, w);
    StepView(q, op, w, key);
    if Succeeds(q, op, w) {
      var x := Origin(q, op, w, key, y);
      if x in EventsIn(q.stored, key) {
        assert Known(x, used, clock);
        if NewLease(q, op, w, key, x, y) {
          ClaimHandsOut(q, op, w);
        }
      }
    } else {
      assert Known(y, used, clock);
    }
  }

  /** The claims an operation leaves behind are old ones, or the one it handed out. */
  lemma {:induction false} StepClaims(q: Queue, op: Op, w: World, t: Ticket)
    requires t in Apply(q, op, w).claims
    ensures t in q.claims || (op.Claim? && var r := ClaimStep(q.stored, op.now, op.key, op.candidates, w.lim).answer;
              r.Ok? && r.value.Claimed? && t == r.value.ticket)
  {
    hide EnqueueStep, ClaimStep, AcknowledgeStep, ReleaseStep, InspectStep, DiscardStep;
  }

  lemma {:induction false} StepRegistered(q: Queue, op: Op, used: set<Id>, clock: nat, w: World)
    requires Inv(q, used, clock, w) && Possible(op, used, clock)
    ensures Registered(Apply(q, op, w).stored, Apply(q, op, w).claims)
    ensures forall t :: t in Apply(q, op, w).claims ==> t.token in used + Drawn(op)
  {
    hide EventsIn, Effect, Succeeds, Apply, Prefixed, Readable, EnqueueStep, ClaimStep, EntryIds;
    var r := Apply(q, op, w);
    InvSound(q, used, clock, w);
    if op.Claim? {
      ClaimHandsOut(q, op, w);
    }
    forall t | t in r.claims ensures t.token in used + Drawn(op) {
      StepClaims(q, op, w, t);
    }
    forall t, key, e | t in r.claims && e in EventsIn(r.stored, key) && e.lease.Some? && e.lease.value.token == t.token
      ensures key == t.key && e.lease.value.claimedAt == t.claimedAt && e.id in EntryIds(t)
    {
      StepClaims(q, op, w, t);
      StepView(q, op, w, key);
      if Succeeds(q, op, w) {
        var x := Origin(q, op, w, key, e);
        if x in EventsIn(q.stored, key) && Weaker(x, e) {
          assert Known(x, used, clock);
        }
      } else {
        assert Known(e, used, clock);
      }
    }
  }

  lemma {:induction false} CleanPrefixed(events: seq<StoredEvent>, now: nat, lim: Limits)
    requires Prefixed(events) && SameLease(events)
    ensures Prefixed(CleanEvents(events, now, lim))
    decreases |events|
  {
    if events != [] {
      var h, rest := events[0], events[1..];
      assert forall i :: 0 <= i < |rest| ==> rest[i] == events[i + 1];
      assert Prefixed(rest);
      CleanPrefixed(rest, now, lim);
      var r, all := CleanEvents(rest, now, lim), CleanEvents(events, now, lim);
      assert all == (match Kept(now, lim)(h) case None => [] case Some(e) => [e]) + r;
      if !Aged(h, now, lim) {
        forall j | 0 <= j < |r| && r[j].lease.Some? ensures all[0].lease.Some? {
          var x := CleanMember(rest, now, lim, r[j]);
          var k :| 0 <= k < |rest| && rest[k] == x;
          assert events[k + 1] in events && h in events;
        }
      }
    }
  }

  /** A claim's own scope is either all held by the claim where it is claimed, or not held at all. */
  lemma {:induction false} AllOrNothing(q: Queue, used: set<Id>, clock: nat, w: World, ticket: Ticket, now: nat)
    requires Inv(q, used, clock, w) && ticket in q.claims
    ensures var cleaned := CleanEvents(EventsIn(q.stored, ticket.key), now, w.lim);
            && Prefixed(cleaned) && SameLease(cleaned)
            && ((forall e :: e in cleaned && e.lease.Some? ==> Held(ticket)(e)) || (forall e :: e in cleaned ==> !Held(ticket)(e)))
  {
    hide EventsIn, Readable, EntryIds, CleanEvents;
    var events := EventsIn(q.stored, ticket.key);
    var cleaned := CleanEvents(events, now, w.lim);
    InvSound(q, used, clock, w);
    ViewSameLease(q.stored, ticket.key, w.lim);
    CleanPrefixed(events, now, w.lim);
    forall e | e in cleaned ensures e.lease.Some? ==> e in events {
      var x := CleanMember(events, now, w.lim, e);
    }
  }

  lemma {:induction false} StepPrefixed(q: Queue, op: Op, used: set<Id>, clock: nat, w: World, key: Key)
    requires Inv(q, used, clock, w) && Possible(op, used, clock)
    ensures Prefixed(EventsIn(Apply(q, op, w).stored, key))
  {
    hide EventsIn, Succeeds, Apply, Readable, EnqueueStep, ClaimStep, EntryIds, Held, NotHeld, CleanEvents, Registered, Filter, Leased;
    InvSound(q, used, clock, w);
    StepView(q, op, w, key);
    var events := EventsIn(q.stored, key);
    if Succeeds(q, op, w) && !op.Begin? && !op.Restart? && !op.Discard? {
      var cleaned := CleanEvents(events, op.now, w.lim);
      ViewSameLease(q.stored, key, w.lim);
      CleanPrefixed(events, op.now, w.lim);
      if op.Claim? {
        ClaimHandsOut(q, op, w);
        var r := ClaimStep(q.stored, op.now, op.key, op.candidates, w.lim).answer;
        if op.key == key && r.Ok? && r.value.Claimed? {
          FrontPrefixed(cleaned, |r.value.ticket.entries|, Lease(r.value.ticket.token, op.now));
        }
      } else if (op.Acknowledge? || op.Release?) && op.ticket.key == key {
        assert op.ticket in q.claims by { SettlesKnown(q, op, w); }
        AllOrNothing(q, used, clock, w, op.ticket, op.now);
        SettledPrefixed(cleaned, op.ticket);
      }
    }
  }

  lemma {:induction false} SettlesKnown(q: Queue, op: Op, w: World)
    requires Succeeds(q, op, w) && (op.Acknowledge? || op.Release?)
    ensures op.ticket in q.claims
  {
  }

  lemma {:induction false} FrontPrefixed(events: seq<StoredEvent>, n: nat, lease: Lease)
    requires Leased(events) == []
    ensures Prefixed(LeaseFront(events, n, lease))
  {
    hide Leased;
    forall i | 0 <= i < |events| ensures events[i].lease.None? {
      if events[i].lease.Some? {
        LeasedMember(events, events[i]);
      }
    }
  }

  lemma {:induction false} SettledPrefixed(cleaned: seq<StoredEvent>, ticket: Ticket)
    requires Prefixed(cleaned)
    requires (forall e :: e in cleaned && e.lease.Some? ==> Held(ticket)(e)) || (forall e :: e in cleaned ==> !Held(ticket)(e))
    ensures Prefixed(Filter(cleaned, NotHeld(ticket))) && Prefixed(Released(ticket, cleaned))
  {
    hide EntryIds;
    var kept := Filter(cleaned, NotHeld(ticket));
    if forall e :: e in cleaned ==> !Held(ticket)(e) {
      FilterAll(cleaned, NotHeld(ticket));
      forall i | 0 <= i < |cleaned| ensures Released(ticket, cleaned)[i] == cleaned[i] {
        assert cleaned[i] in cleaned;
      }
      assert Released(ticket, cleaned) == cleaned;
    } else {
      forall i | 0 <= i < |kept| ensures kept[i].lease.None? {
        assert kept[i] in kept;
      }
      forall i | 0 <= i < |cleaned| ensures Released(ticket, cleaned)[i].lease.None? {
        assert cleaned[i] in cleaned;
      }
    }
  }

  /** Every operation keeps the invariant. */
  lemma {:induction false} StepKeepsInv(q: Queue, op: Op, used: set<Id>, clock: nat, w: World)
    requires Inv(q, used, clock, w) && Possible(op, used, clock)
    ensures Inv(Apply(q, op, w), used + Drawn(op), ClockAfter(op, clock), w)
  {
    hide EventsIn, Apply, Readable, Registered, Prefixed, Known, Possible;
    var r := Apply(q, op, w);
    StepReadable(q, op, used, clock, w);
    StepRegistered(q, op, used, clock, w);
    forall key, e | e in EventsIn(r.stored, key) ensures Known(e, used + Drawn(op), ClockAfter(op, clock)) {
      StepKnown(q, op, used, clock, w, key, e);
    }
    forall key ensures Prefixed(EventsIn(r.stored, key)) {
      StepPrefixed(q, op, used, clock, w, key);
    }
  }

  /**
   Over any possible run from a new queue, every record written is one that reading accepts, and the
   claimed events of every scope are its oldest ones.
   */
  lemma {:induction false} RunKeepsInv(q: Queue, ops: seq<Op>, used: set<Id>, clock: nat, w: World)
      returns (used': set<Id>, clock': nat)
    requires Inv(q, used, clock, w) && PossibleRun(ops, used, clock)
    ensures Inv(Run(q, ops, w), used', clock', w)
    ensures WellFormed(Run(q, ops, w).stored, w.lim)
    decreases |ops|
  {
    hide Inv, Apply, Possible;
    if ops == [] {
      used', clock' := used, clock;
      InvSound(q, used, clock, w);
    } else {
      StepKeepsInv(q, ops[0], used, clock, w);
      used', clock' := RunKeepsInv(Apply(q, ops[0], w), ops[1..], used + Drawn(ops[0]), ClockAfter(ops[0], clock), w);
    }
  }

  lemma {:induction false} NewQueue(w: World)
    requires ValidLimits(w.lim) && w.lim.storedBytes([]) <= w.lim.maxStoredBytes
    ensures Inv(Queue([], map[]), {}, 0, w)
  {
    forall key ensures EventsIn([], key) == [] {
      ViewNone([], key);
    }
  }

  // ---------------------------------------------------------------------------------------------
  // The ledger
  // ---------------------------------------------------------------------------------------------

  datatype Fate = Enqueued | AgedOut | AcknowledgedBy(token: Id) | Discarded

  ghost predicate Present(env: Envelope, id: Id) {
    exists key, e :: e in EventsIn(env, key) && e.id == id
  }

  ghost predicate PresentAged(env: Envelope, id: Id, now: nat, lim: Limits) {
    exists key, e :: e in EventsIn(env, key) && e.id == id && Aged(e, now, lim)
  }

  /** Is the event still held, under a lease that has not lapsed, by this ticket? */
  ghost predicate PresentHeld(env: Envelope, id: Id, ticket: Ticket, now: nat, lim: Limits) {
    exists e :: e in CleanEvents(EventsIn(env, ticket.key), now, lim) && e.id == id && Held(ticket)(e)
  }

  function AgedFate(aged: bool): Option<Fate> {
    if aged then Some(AgedOut) else None
  }

  /** What the operation does to the event with this id, told from the record before it. */
  ghost function FateOf(q: Queue, op: Op, w: World, id: Id): Option<Fate> {
    if !Succeeds(q, op, w) then None
    else match op
      case Enqueue(now, key, event, candidates, _) =>
        var r := EnqueueStep(q.stored, now, key, event, candidates, w.lim).answer;
        if r.Ok? && r.value.id == id then Some(Enqueued) else AgedFate(PresentAged(q.stored, id, now, w.lim))
      case Claim(now, _, _, _) => AgedFate(PresentAged(q.stored, id, now, w.lim))
      case Acknowledge(now, ticket, _) =>
        if PresentHeld(q.stored, id, ticket, now, w.lim) then Some(AcknowledgedBy(ticket.token))
        else AgedFate(PresentAged(q.stored, id, now, w.lim))
      case Release(now, _, _, _, _) => AgedFate(PresentAged(q.stored, id, now, w.lim))
      case Inspect(now, _, _) => AgedFate(PresentAged(q.stored, id, now, w.lim))
      case Discard(key, _) => if exists e :: e in EventsIn(q.stored, key) && e.id == id then Some(Discarded) else None
      case Begin(_) => None
      case Restart => None
  }

  ghost function Fates(q: Queue, ops: seq<Op>, w: World, id: Id): seq<Fate>
    decreases |ops|
  {
    if ops == [] then []
    else
      (match FateOf(q, ops[0], w, id) case None => [] case Some(f) => [f]) + Fates(Apply(q, ops[0], w), ops[1..], w, id)
  }

  /** An event with no fate in an operation is stored after it. */
  lemma {:induction false} Survives(q: Queue, op: Op, w: World, key: Key, x: StoredEvent) returns (y: StoredEvent)
    requires Sound(q.stored, w.lim) && Succeeds(q, op, w) && x in EventsIn(q.stored, key)
    requires FateOf(q, op, w, x.id).None?
    ensures y in Effect(q, op, w, key) && y.id == x.id
  {
    hide CleanEvents, EventsIn, Sound, EnqueueStep, ClaimStep, EntryIds, Succeeds, LeaseFirst, Aged, Lapsed;
    var events := EventsIn(q.stored, key);
    y := x;
    if !op.Begin? && !op.Restart? && !op.Discard? {
      var cleaned := CleanEvents(events, op.now, w.lim);
      assert !Aged(x, op.now, w.lim);
      CleanKeeps(events, op.now, w.lim, x);
      y := if Lapsed(x, op.now, w.lim) then x.(lease := None) else x;
      assert y in cleaned;
      var i :| 0 <= i < |cleaned| && cleaned[i] == y;
      match op {
        case Enqueue(now, k, event, candidates, _) =>
        case Claim(now, k, candidates, _) =>
          var r := ClaimStep(q.stored, now, k, candidates, w.lim).answer;
          if k == key && r.Ok? && r.value.Claimed? {
            FrontKeepsIds(cleaned, |r.value.ticket.entries|, Lease(r.value.ticket.token, now), i);
            y := LeaseFront(cleaned, |r.value.ticket.entries|, Lease(r.value.ticket.token, now))[i];
          }
        case Acknowledge(now, ticket, _) =>
          if ticket.key == key {
            assert !Held(ticket)(y);
          }
        case Release(now, ticket, failure, random, _) =>
          if ticket.key == key {
            y := Released(ticket, cleaned)[i];
          }
        case Inspect(now, k, _) =>
      }
    }
  }

  lemma {:induction false} FrontKeepsIds(events: seq<StoredEvent>, n: nat, lease: Lease, i: nat)
    requires i < |events|
    ensures |LeaseFront(events, n, lease)| == |events| && LeaseFront(events, n, lease)[i].id == events[i].id
  {
  }

  /** An event that leaves has the fate that says so, and had it while stored. */
  lemma {:induction false} Leaves(q: Queue, op: Op, w: World, id: Id)
    requires Sound(q.stored, w.lim)
    requires FateOf(q, op, w, id).Some? && FateOf(q, op, w, id) != Some(Enqueued)
    ensures Present(q.stored, id)
    ensures forall key, y :: y in Effect(q, op, w, key) && y.id == id ==> NewEvent(q, op, w, key, y)
  {
    hide CleanEvents, EventsIn, EnqueueStep, ClaimStep, EntryIds, Succeeds, Aged, Lapsed, Consistent, ScopeOk, Effect;
    var l, f := LeavingEvent(q, op, w, id);
    forall key, y | y in Effect(q, op, w, key) && y.id == id ensures NewEvent(q, op, w, key, y) {
      StillThere(q, op, w, key, y, l, f);
    }
  }

  lemma {:induction false} LeavingEvent(q: Queue, op: Op, w: World, id: Id) returns (l: Key, f: StoredEvent)
    requires FateOf(q, op, w, id).Some? && FateOf(q, op, w, id) != Some(Enqueued)
    ensures f in EventsIn(q.stored, l) && f.id == id
    ensures Leaving(q, op, w, l, f)
  {
    hide CleanEvents, EventsIn, EnqueueStep, ClaimStep, EntryIds, Succeeds, Aged, Lapsed;
    if op.Discard? {
      l := op.key;
      f :| f in EventsIn(q.stored, l) && f.id == id;
    } else if op.Acknowledge? && PresentHeld(q.stored, id, op.ticket, op.now, w.lim) {
      l := op.ticket.key;
      var e :| e in CleanEvents(EventsIn(q.stored, l), op.now, w.lim) && e.id == id && Held(op.ticket)(e);
      f := CleanMember(EventsIn(q.stored, l), op.now, w.lim, e);
    } else {
      l, f :| f in EventsIn(q.stored, l) && f.id == id && Aged(f, op.now, w.lim);
    }
  }

  ghost predicate Leaving(q: Queue, op: Op, w: World, l: Key, f: StoredEvent) {
    match op
    case Discard(key, _) => l == key
    case Begin(_) => false
    case Restart => false
    case Acknowledge(now, ticket, _) => Aged(f, now, w.lim) || (l == ticket.key && !Lapsed(f, now, w.lim) && Held(ticket)(f))
    case _ => Aged(f, op.now, w.lim)
  }

  /** Nothing left over after the operation comes from an event that leaves. */
  lemma {:induction false} StillThere(q: Queue, op: Op, w: World, key: Key, y: StoredEvent, l: Key, f: StoredEvent)
    requires Sound(q.stored, w.lim) && y in Effect(q, op, w, key)
    requires f in EventsIn(q.stored, l) && Leaving(q, op, w, l, f)
    ensures f.id == y.id ==> NewEvent(q, op, w, key, y)
  {
    hide CleanEvents, EventsIn, EnqueueStep, ClaimStep, EntryIds, Succeeds, Aged, Lapsed, Consistent, ScopeOk, Released;
    if f.id == y.id && !NewEvent(q, op, w, key, y) {
      if op.Discard? {
        UniqueId(q.stored, key, y, l, f);
      } else {
        var z := CleanedOrigin(q, op, w, key, y);
        var x := CleanMember(EventsIn(q.stored, key), op.now, w.lim, z);
        UniqueId(q.stored, key, x, l, f);
      }
    }
  }

  lemma {:induction false} CleanedOrigin(q: Queue, op: Op, w: World, key: Key, y: StoredEvent) returns (z: StoredEvent)
    requires Sound(q.stored, w.lim) && y in Effect(q, op, w, key) && !NewEvent(q, op, w, key, y)
    requires !op.Discard? && !op.Begin? && !op.Restart?
    ensures z in CleanEvents(EventsIn(q.stored, key), op.now, w.lim) && z.id == y.id
    ensures op.Acknowledge? ==> z == y && (key == op.ticket.key ==> !Held(op.ticket)(y))
  {
    hide CleanEvents, EventsIn, EnqueueStep, ClaimStep, EntryIds, Sound;
    var cleaned := CleanEvents(EventsIn(q.stored, key), op.now, w.lim);
    z := y;
    if op.Enqueue? {
      EnqueueDraws(q, op, w);
    } else if op.Claim? && y !in cleaned {
      ClaimHandsOut(q, op, w);
      z := LeasedOrigin(cleaned, ClaimStep(q.stored, op.now, op.key, op.candidates, w.lim).answer.value.ticket, op.now, y);
    } else if op.Release? && op.ticket.key == key {
      var i :| 0 <= i < |cleaned| && Released(op.ticket, cleaned)[i] == y;
      z := cleaned[i];
    }
  }

  /** Conservation, one operation at a time: what is stored changes exactly as the fates say. */
  lemma {:induction false} Conservation(q: Queue, op: Op, w: World, id: Id)
    requires Sound(q.stored, w.lim)
    ensures var fate := FateOf(q, op, w, id);
            && (Present(Apply(q, op, w).stored, id) <==> fate == Some(Enqueued) || (Present(q.stored, id) && fate.None?))
            && (fate.Some? && fate != Some(Enqueued) ==> Present(q.stored, id))
  {
    hide CleanEvents, EventsIn, EnqueueStep, ClaimStep, EntryIds, Succeeds, Apply, Effect, FateOf, Sound;
    var r := Apply(q, op, w).stored;
    var fate := FateOf(q, op, w, id);
    if !Succeeds(q, op, w) {
      assert fate.None? by { FailedFate(q, op, w, id); }
      forall key ensures EventsIn(r, key) == EventsIn(q.stored, key) {
        StepView(q, op, w, key);
      }
    } else {
      forall key ensures EventsIn(r, key) == Effect(q, op, w, key) {
        StepView(q, op, w, key);
      }
      if fate == Some(Enqueued) {
        EnqueuedIsPresent(q, op, w, id);
      } else if fate.Some? {
        Leaves(q, op, w, id);
        NotEnqueued(q, op, w, id);
      } else {
        if Present(q.stored, id) {
          var key, x :| x in EventsIn(q.stored, key) && x.id == id;
          var y := Survives(q, op, w, key, x);
          assert y in EventsIn(r, key);
        }
        if Present(r, id) {
          var key, y :| y in EventsIn(r, key) && y.id == id;
          var x := Origin(q, op, w, key, y);
          NotEnqueued(q, op, w, id);
        }
      }
    }
  }

  lemma {:induction false} FailedFate(q: Queue, op: Op, w: World, id: Id)
    requires !Succeeds(q, op, w)
    ensures FateOf(q, op, w, id).None?
  {
    hide Succeeds, EnqueueStep, ClaimStep, EntryIds;
  }

  lemma {:induction false} NotEnqueued(q: Queue, op: Op, w: World, id: Id)
    requires Succeeds(q, op, w) && FateOf(q, op, w, id) != Some(Enqueued)
    ensures forall key, y :: NewEvent(q, op, w, key, y) ==> y.id != id
  {
    hide EnqueueStep, Succeeds;
  }

  lemma {:induction false} EnqueuedIsPresent(q: Queue, op: Op, w: World, id: Id)
    requires Succeeds(q, op, w) && FateOf(q, op, w, id) == Some(Enqueued)
    ensures op.Enqueue? && id in op.candidates
    ensures exists y :: y in Effect(q, op, w, op.key) && y.id == id
  {
    hide EnqueueStep, Succeeds, CleanEvents, EventsIn;
    EnqueueDraws(q, op, w);
    var r := Effect(q, op, w, op.key);
    assert r[|r| - 1].id == id;
  }

  /**
   The ledger. In any possible run from a new queue each id has at most two fates: it is enqueued at
   most once, and then it leaves at most once - acknowledged by the claim holding it, aged out or
   discarded. It is stored at the end exactly when it was enqueued and has not left.
   */
  lemma {:induction false} Ledger(ops: seq<Op>, w: World, id: Id)
    requires ValidLimits(w.lim) && w.lim.storedBytes([]) <= w.lim.maxStoredBytes
    requires PossibleRun(ops, {}, 0)
    ensures var fates := Fates(Queue([], map[]), ops, w, id);
            && |fates| <= 2
            && (|fates| >= 1 ==> fates[0] == Enqueued)
            && (|fates| == 2 ==> fates[1] != Enqueued)
            && (Present(Run(Queue([], map[]), ops, w).stored, id) <==> fates == [Enqueued])
  {
    NewQueue(w);
    assert !Present([], id) by {
      forall key ensures EventsIn([], key) == [] {
        ViewNone([], key);
      }
    }
    LedgerFrom(Queue([], map[]), ops, w, id, {}, 0);
  }

  lemma {:induction false} LedgerFrom(q: Queue, ops: seq<Op>, w: World, id: Id, used: set<Id>, clock: nat)
    requires Inv(q, used, clock, w) && PossibleRun(ops, used, clock)
    ensures var fates := Fates(q, ops, w, id);
            var there := Present(Run(q, ops, w).stored, id);
            if Present(q.stored, id) then
              (fates == [] && there) || (|fates| == 1 && fates[0] != Enqueued && !there)
            else if id in used then fates == [] && !there
            else
              (fates == [] && !there) || (fates == [Enqueued] && there)
              || (|fates| == 2 && fates[0] == Enqueued && fates[1] != Enqueued && !there)
    decreases |ops|
  {
    hide Inv, Apply, Possible, FateOf, Present, Drawn;
    if ops != [] {
      var op := ops[0];
      var next := Apply(q, op, w);
      InvSound(q, used, clock, w);
      Conservation(q, op, w, id);
      StepKeepsInv(q, op, used, clock, w);
      LedgerFrom(next, ops[1..], w, id, used + Drawn(op), ClockAfter(op, clock));
      if Present(q.stored, id) {
        PresentIsUsed(q, used, clock, w, id);
      }
      if FateOf(q, op, w, id) == Some(Enqueued) {
        EnqueuedIsDrawn(q, op, w, id, used, clock);
      }
    }
  }

  lemma {:induction false} PresentIsUsed(q: Queue, used: set<Id>, clock: nat, w: World, id: Id)
    requires Inv(q, used, clock, w) && Present(q.stored, id)
    ensures id in used
  {
    var key, e :| e in EventsIn(q.stored, key) && e.id == id;
    assert Known(e, used, clock);
  }

  lemma {:induction false} EnqueuedIsDrawn(q: Queue, op: Op, w: World, id: Id, used: set<Id>, clock: nat)
    requires FateOf(q, op, w, id) == Some(Enqueued) && Possible(op, used, clock)
    ensures id in Drawn(op) && id !in used
  {
    hide EnqueueStep, EntryIds;
    EnqueuedIsPresent(q, op, w, id);
  }
}
