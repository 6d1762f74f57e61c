/** What a claim is worth while its lease runs, what it is worth afterwards, and the order of delivery. */
module ClientEventDelivery {
  import opened Numbers
  import opened Sequences
  import opened RetryPolicy
  import opened ClientEventEnvelope
  import opened ClientEventSteps
  import opened ClientEventInvariant
  import opened ClientEventQueue
  import opened ClientEventLedger
  import opened ClientEventRuns

  // ---------------------------------------------------------------------------------------------
  // A lapsed claim
  // ---------------------------------------------------------------------------------------------

  lemma {:induction false} NothingHeld(events: seq<StoredEvent>, ticket: Ticket)
    requires forall e :: e in events ==> !Held(ticket)(e)
    ensures Filter(events, Held(ticket)) == [] && Filter(events, NotHeld(ticket)) == events
  {
    hide EntryIds;
    if events != [] {
      NothingHeld(events[1..], ticket);
      assert events[0] in events;
    }
  }

  /** Once its lease has lapsed a claim deletes nothing and releases nothing: only cleaning happens. */
  lemma {:induction false} LapsedClaimDoesNothing(q: Queue, used: set<Id>, clock: nat, w: World, ticket: Ticket, now: nat,
                                                  failure: SendFailure, random: real)
    requires Inv(q, used, clock, w) && ticket in q.claims
    requires now >= SafeAdd(ticket.claimedAt, w.lim.claimTtl)
    ensures AcknowledgeStep(q.stored, now, ticket, w.lim) == Write(q.stored, Clean(q.stored, now, w.lim), 0, w.lim)
    ensures ReleaseStep(q.stored, now, ticket, failure, random, w.host, w.lim)
            == Write<Option<RetryState>>(q.stored, Clean(q.stored, now, w.lim), None, w.lim)
  {
    hide Clean, CleanEvents, EventsIn, EntryIds, Readable, CountEvents, Filter, Held, NotHeld, Prefixed;
    InvSound(q, used, clock, w);
    var c := Clean(q.stored, now, w.lim);
    ViewClean(q.stored, now, w.lim, ticket.key);
    var f := Find(c, ticket.key);
    if f.Some? {
      ViewMember(c, f.value, ticket.key);
      var events := c[f.value].events;
      forall e | e in events ensures !Held(ticket)(e) {
        var x := CleanMember(EventsIn(q.stored, ticket.key), now, w.lim, e);
        LapsedIsNotHeld(q, ticket, now, w, x, e);
      }
      NothingHeld(events, ticket);
      assert c[f.value := c[f.value]] == c;
      assert c[f.value] in c;
      CleanHasNoEmptyScope(q.stored, now, w.lim);
    }
  }

  lemma {:induction false} LapsedIsNotHeld(q: Queue, ticket: Ticket, now: nat, w: World, x: StoredEvent, e: StoredEvent)
    requires Registered(q.stored, q.claims) && ticket in q.claims && x in EventsIn(q.stored, ticket.key)
    requires now >= SafeAdd(ticket.claimedAt, w.lim.claimTtl)
    requires e == if Lapsed(x, now, w.lim) then x.(lease := None) else x
    ensures !Held(ticket)(e)
  {
    hide EventsIn, EntryIds;
  }

  // ---------------------------------------------------------------------------------------------
  // A live claim
  // ---------------------------------------------------------------------------------------------

  /** An event under a live lease is untouched by any operation that is not a settlement of its claim. */
  lemma {:induction false} LiveLeaseHolds(q: Queue, op: Op, used: set<Id>, clock: nat, w: World, key: Key, x: StoredEvent)
    requires Inv(q, used, clock, w) && Possible(op, used, clock)
    requires x in EventsIn(q.stored, key) && x.lease.Some?
    requires op.Discard? ==> op.key != key
    requires op.Acknowledge? || op.Release? ==> op.ticket.token != x.lease.value.token
    requires !Aged(x, ClockAfter(op, clock), w.lim) && !Lapsed(x, ClockAfter(op, clock), w.lim)
    ensures x in EventsIn(Apply(q, op, w).stored, key)
  {
    hide CleanEvents, EventsIn, EnqueueStep, ClaimStep, EntryIds, Succeeds, Apply, Readable, Registered, Prefixed, Aged, Lapsed;
    InvSound(q, used, clock, w);
    StepView(q, op, w, key);
    if Succeeds(q, op, w) && !op.Begin? && !op.Restart? && !op.Discard? {
      var cleaned := CleanEvents(EventsIn(q.stored, key), op.now, w.lim);
      CleanKeeps(EventsIn(q.stored, key), op.now, w.lim, x);
      assert x in cleaned;
      if op.Claim? && op.key == key {
        ClaimHandsOut(q, op, w);
        LeasedMember(cleaned, x);
      } else if op.Release? && op.ticket.key == key {
        var i :| 0 <= i < |cleaned| && cleaned[i] == x;
        assert Released(op.ticket, cleaned)[i] == x;
      }
    }
  }

  /** The stored form of what a ticket carries. */
  function Carried(ticket: Ticket, entry: QueuedEvent): StoredEvent {
    StoredEvent(entry.id, entry.event, entry.enqueuedAt, Some(Lease(ticket.token, ticket.claimedAt)))
  }

  /** Every carried event that has not aged out by `now` is stored under the ticket's lease. */
  ghost predicate StillHeld(q: Queue, ticket: Ticket, now: nat, w: World) {
    forall entry :: entry in ticket.entries && !Aged(Carried(ticket, entry), now, w.lim)
      ==> Carried(ticket, entry) in EventsIn(q.stored, ticket.key)
  }

  predicate Leaves(op: Op, ticket: Ticket) {
    (op.Discard? && op.key == ticket.key) || ((op.Acknowledge? || op.Release?) && op.ticket.token == ticket.token)
  }

  function LastClock(ops: seq<Op>, clock: nat): nat
    decreases |ops|
  {
    if ops == [] then clock else LastClock(ops[1..], ClockAfter(ops[0], clock))
  }

  lemma {:induction false} ClockGrows(ops: seq<Op>, used: set<Id>, clock: nat)
    requires PossibleRun(ops, used, clock)
    ensures clock <= LastClock(ops, clock)
    decreases |ops|
  {
    if ops != [] {
      ClockGrows(ops[1..], used + Drawn(ops[0]), ClockAfter(ops[0], clock));
    }
  }

  lemma {:induction false} AgedLater(e: StoredEvent, a: nat, b: nat, lim: Limits)
    requires a <= b
    ensures Aged(e, a, lim) ==> Aged(e, b, lim)
    ensures Lapsed(e, a, lim) ==> Lapsed(e, b, lim)
  {
  }

  /** The same over any run that does not settle the claim and ends before its lease does. */
  lemma {:induction false} LeaseHolds(q: Queue, ops: seq<Op>, used: set<Id>, clock: nat, w: World, ticket: Ticket, now: nat)
      returns (used': set<Id>)
    requires Inv(q, used, clock, w) && PossibleRun(ops, used, clock)
    requires forall op :: op in ops ==> !Leaves(op, ticket)
    requires LastClock(ops, clock) <= now < SafeAdd(ticket.claimedAt, w.lim.claimTtl)
    requires StillHeld(q, ticket, now, w)
    ensures Inv(Run(q, ops, w), used', LastClock(ops, clock), w)
    ensures StillHeld(Run(q, ops, w), ticket, now, w)
    decreases |ops|
  {
    hide Inv, Apply, Possible, EventsIn, Aged;
    used' := used;
    if ops != [] {
      var op := ops[0];
      assert op in ops;
      StepKeepsInv(q, op, used, clock, w);
      ClockGrows(ops[1..], used + Drawn(op), ClockAfter(op, clock));
      var next := Apply(q, op, w);
      forall entry | entry in ticket.entries && !Aged(Carried(ticket, entry), now, w.lim)
        ensures Carried(ticket, entry) in EventsIn(next.stored, ticket.key)
      {
        var x := Carried(ticket, entry);
        AgedLater(x, ClockAfter(op, clock), now, w.lim);
        LiveLeaseHolds(q, op, used, clock, w, ticket.key, x);
      }
      forall o | o in ops[1..] ensures !Leaves(o, ticket) {
        assert o in ops;
      }
      used' := LeaseHolds(next, ops[1..], used + Drawn(op), ClockAfter(op, clock), w, ticket, now);
    }
  }

  lemma {:induction false} HandedOutIsHeld(q: Queue, op: Op, used: set<Id>, clock: nat, w: World, now: nat)
    requires Inv(q, used, clock, w) && Possible(op, used, clock) && op.Claim?
    requires var r := ClaimStep(q.stored, op.now, op.key, op.candidates, w.lim).answer; r.Ok? && r.value.Claimed?
    requires Succeeds(q, op, w)
    ensures StillHeld(Apply(q, op, w), ClaimStep(q.stored, op.now, op.key, op.candidates, w.lim).answer.value.ticket, now, w)
  {
    hide CleanEvents, EventsIn, ClaimStep, EntryIds, Apply, Readable, Registered, Prefixed, Aged, Lapsed, Succeeds;
    InvSound(q, used, clock, w);
    StepView(q, op, w, op.key);
    ClaimHandsOut(q, op, w);
    var ticket := ClaimStep(q.stored, op.now, op.key, op.candidates, w.lim).answer.value.ticket;
    var cleaned := CleanEvents(EventsIn(q.stored, op.key), op.now, w.lim);
    var n := |ticket.entries|;
    forall entry | entry in ticket.entries
      ensures Carried(ticket, entry) in LeaseFront(cleaned, n, Lease(ticket.token, op.now))
    {
      var i :| 0 <= i < n && ticket.entries[i] == entry;
      assert entry == Queued(cleaned[i]);
      assert LeaseFront(cleaned, n, Lease(ticket.token, op.now))[i] == Carried(ticket, entry);
    }
  }

  /** A claim the caller was handed is one the store holds. */
  lemma {:induction false} ReportedIsStored(q: Queue, op: Op, used: set<Id>, clock: nat, w: World)
    requires Possible(op, used, clock) && op.Claim?
    requires var r := Claiming(q, op.now, op.key, op.candidates, op.access, w).answer; r.Ok? && r.value.Claimed?
    ensures Claiming(q, op.now, op.key, op.candidates, op.access, w).answer
            == ClaimStep(q.stored, op.now, op.key, op.candidates, w.lim).answer
    ensures Succeeds(q, op, w)
  {
    hide ClaimStep;
  }

  /**
   A claim acknowledged before its lease ends delivers: whatever happened in between, short of a
   settlement of the same claim or a discard of the scope, each event it carries that has not aged
   out is still there, and the acknowledgement - and nothing else - removes it.
   */
  lemma {:induction false} AcknowledgedWithinLease(q: Queue, op: Op, ops: seq<Op>, used: set<Id>, clock: nat, w: World, now: nat, access: Access)
    requires Inv(q, used, clock, w) && Possible(op, used, clock) && op.Claim?
    requires var r := Claiming(q, op.now, op.key, op.candidates, op.access, w).answer; r.Ok? && r.value.Claimed?
    requires PossibleRun(ops, used + Drawn(op), op.now)
    requires var ticket := Claiming(q, op.now, op.key, op.candidates, op.access, w).answer.value.ticket;
             && (forall o :: o in ops ==> !Leaves(o, ticket))
             && LastClock(ops, op.now) <= now < SafeAdd(op.now, w.lim.claimTtl)
             && Succeeds(Run(Apply(q, op, w), ops, w), Acknowledge(now, ticket, access), w)
    ensures var ticket := Claiming(q, op.now, op.key, op.candidates, op.access, w).answer.value.ticket;
            forall entry :: entry in ticket.entries && !Aged(Carried(ticket, entry), now, w.lim) ==>
              FateOf(Run(Apply(q, op, w), ops, w), Acknowledge(now, ticket, access), w, entry.id) == Some(AcknowledgedBy(ticket.token))
  {
    ReportedIsStored(q, op, used, clock, w);
    hide Inv, Apply, Possible, EventsIn, Aged, ClaimStep, EntryIds, Succeeds, CleanEvents, Claiming;
    var ticket := ClaimStep(q.stored, op.now, op.key, op.candidates, w.lim).answer.value.ticket;
    InvSound(q, used, clock, w);
    ClaimHandsOut(q, op, w);
    HandedOutIsHeld(q, op, used, clock, w, now);
    StepKeepsInv(q, op, used, clock, w);
    var next := Apply(q, op, w);
    var _ := LeaseHolds(next, ops, used + Drawn(op), op.now, w, ticket, now);
    var last := Run(next, ops, w);
    forall entry | entry in ticket.entries && !Aged(Carried(ticket, entry), now, w.lim)
      ensures FateOf(last, Acknowledge(now, ticket, access), w, entry.id) == Some(AcknowledgedBy(ticket.token))
    {
      var x := Carried(ticket, entry);
      CleanKeeps(EventsIn(last.stored, ticket.key), now, w.lim, x);
      assert x.id in EntryIds(ticket) by { CarriesItsEntries(ticket, entry); }
      assert Held(ticket)(x);
      assert PresentHeld(last.stored, entry.id, ticket, now, w.lim);
    }
  }

  lemma {:induction false} CarriesItsEntries(ticket: Ticket, entry: QueuedEvent)
    requires entry in ticket.entries
    ensures entry.id in EntryIds(ticket)
  {
  }

  /** While one event of a scope is under a live lease nobody else can claim anything in that scope. */
  lemma {:induction false} LeaseExcludes(q: Queue, op: Op, w: World, x: StoredEvent)
    requires Sound(q.stored, w.lim) && op.Claim? && x in EventsIn(q.stored, op.key) && x.lease.Some?
    requires !Aged(x, op.now, w.lim) && !Lapsed(x, op.now, w.lim)
    ensures var r := ClaimStep(q.stored, op.now, op.key, op.candidates, w.lim).answer; !(r.Ok? && r.value.Claimed?)
  {
    hide CleanEvents, EventsIn, ClaimStep, EntryIds, Aged, Lapsed, Sound;
    ClaimHandsOut(q, op, w);
    CleanKeeps(EventsIn(q.stored, op.key), op.now, w.lim, x);
    LeasedMember(CleanEvents(EventsIn(q.stored, op.key), op.now, w.lim), x);
  }

  // ---------------------------------------------------------------------------------------------
  // The order of delivery
  // ---------------------------------------------------------------------------------------------

  /** `a` is what remains of `b` when some positions are left out. */
  ghost predicate Within<T>(a: seq<T>, b: seq<T>)
    decreases |b|
  {
    if a == [] then true
    else b != [] && ((a[0] == b[0] && Within(a[1..], b[1..])) || Within(a, b[1..]))
  }

  lemma {:induction false} WithinSame<T>(a: seq<T>)
    ensures Within(a, a)
    decreases |a|
  {
    if a != [] {
      WithinSame(a[1..]);
    }
  }

  lemma {:induction false} WithinConcat<T>(a: seq<T>, b: seq<T>, c: seq<T>, d: seq<T>)
    requires Within(a, b) && Within(c, d)
    ensures Within(a + c, b + d)
    decreases |b|
  {
    if b == [] {
      assert a + c == c && b + d == d;
    } else {
      assert (b + d)[1..] == b[1..] + d;
      if a == [] {
        WithinConcat(a, b[1..], c, d);
        assert a + c == c;
      } else if a[0] == b[0] && Within(a[1..], b[1..]) {
        WithinConcat(a[1..], b[1..], c, d);
        assert (a + c)[1..] == a[1..] + c;
      } else {
        WithinConcat(a, b[1..], c, d);
      }
    }
  }

  lemma {:induction false} WithinTransitive<T>(a: seq<T>, b: seq<T>, c: seq<T>)
    requires Within(a, b) && Within(b, c)
    ensures Within(a, c)
    decreases |c|
  {
    if a == [] || c == [] {
    } else if b[0] == c[0] && Within(b[1..], c[1..]) {
      if a[0] == b[0] && Within(a[1..], b[1..]) {
        WithinTransitive(a[1..], b[1..], c[1..]);
      } else {
        WithinTransitive(a, b[1..], c[1..]);
      }
    } else {
      WithinTransitive(a, b, c[1..]);
    }
  }

  function Ids(events: seq<StoredEvent>): (r: seq<Id>)
    ensures |r| == |events|
  {
    if events == [] then [] else [events[0].id] + Ids(events[1..])
  }

  lemma {:induction false} IdsConcat(a: seq<StoredEvent>, b: seq<StoredEvent>)
    ensures Ids(a + b) == Ids(a) + Ids(b)
  {
    if a == [] {
      assert a + b == b;
    } else {
      assert (a + b)[1..] == a[1..] + b;
      IdsConcat(a[1..], b);
    }
  }

  lemma {:induction false} IdsAgree(a: seq<StoredEvent>, b: seq<StoredEvent>)
    requires |a| == |b| && forall i :: 0 <= i < |a| ==> a[i].id == b[i].id
    ensures Ids(a) == Ids(b)
  {
    if a != [] {
      IdsAgree(a[1..], b[1..]);
    }
  }

  lemma {:induction false} ThinsWithin(a: seq<StoredEvent>, b: seq<StoredEvent>)
    requires Thins(a, b)
    ensures Within(Ids(b), Ids(a))
    decreases |a|
  {
    if a != [] {
      if Thins(a[1..], b) {
        ThinsWithin(a[1..], b);
      } else {
        ThinsWithin(a[1..], b[1..]);
      }
    }
  }

  /** The ids of one scope that an operation enqueues, in order. */
  function EnqueuedNow(q: Queue, op: Op, w: World, key: Key): seq<Id> {
    if op.Enqueue? && op.key == key && Succeeds(q, op, w)
    then
      var r := EnqueueStep(q.stored, op.now, op.key, op.event, op.candidates, w.lim).answer;
      if r.Ok? then [r.value.id] else []
    else []
  }

  /** The ids of one scope that an operation acknowledges, in order. */
  function AcknowledgedNow(q: Queue, op: Op, w: World, key: Key): seq<Id> {
    if op.Acknowledge? && op.ticket.key == key && Succeeds(q, op, w)
    then Ids(Filter(CleanEvents(EventsIn(q.stored, key), op.now, w.lim), Held(op.ticket)))
    else []
  }

  function EnqueuedLog(q: Queue, ops: seq<Op>, w: World, key: Key): seq<Id>
    decreases |ops|
  {
    if ops == [] then [] else EnqueuedNow(q, ops[0], w, key) + EnqueuedLog(Apply(q, ops[0], w), ops[1..], w, key)
  }

  function AcknowledgedLog(q: Queue, ops: seq<Op>, w: World, key: Key): seq<Id>
    decreases |ops|
  {
    if ops == [] then [] else AcknowledgedNow(q, ops[0], w, key) + AcknowledgedLog(Apply(q, ops[0], w), ops[1..], w, key)
  }

  lemma {:induction false} HeldFirst(events: seq<StoredEvent>, ticket: Ticket)
    requires Prefixed(events)
    requires (forall e :: e in events && e.lease.Some? ==> Held(ticket)(e)) || (forall e :: e in events ==> !Held(ticket)(e))
    ensures Filter(events, Held(ticket)) + Filter(events, NotHeld(ticket)) == events
  {
    hide EntryIds;
    if forall e :: e in events ==> !Held(ticket)(e) {
      NothingHeld(events, ticket);
    } else if events != [] {
      var e :| e in events && Held(ticket)(e);
      assert events[0] in events && events[0].lease.Some?;
      assert forall i :: 0 <= i < |events[1..]| ==> events[1..][i] == events[i + 1];
      HeldFirst(events[1..], ticket);
    }
  }

  lemma {:induction false} StepInOrder(q: Queue, op: Op, used: set<Id>, clock: nat, w: World, key: Key)
    requires Inv(q, used, clock, w) && Possible(op, used, clock)
    ensures Within(AcknowledgedNow(q, op, w, key) + Ids(EventsIn(Apply(q, op, w).stored, key)),
                   Ids(EventsIn(q.stored, key)) + EnqueuedNow(q, op, w, key))
  {
    hide CleanEvents, EventsIn, EnqueueStep, ClaimStep, EntryIds, Succeeds, Apply, Readable, Registered, Prefixed, Filter, Held, NotHeld, Thins, Ids;
    InvSound(q, used, clock, w);
    StepView(q, op, w, key);
    var events, next := EventsIn(q.stored, key), EventsIn(Apply(q, op, w).stored, key);
    assert [] + Ids(next) == Ids(next) && Ids(events) + [] == Ids(events);
    if !Succeeds(q, op, w) || op.Begin? || op.Restart? || (op.Discard? && op.key != key) {
      WithinSame(Ids(events));
    } else if op.Discard? {
      assert Ids(next) == [];
    } else {
      var cleaned := CleanEvents(events, op.now, w.lim);
      ThinsClean(events, op.now, w.lim);
      ThinsWithin(events, cleaned);
      if op.Enqueue? {
        EnqueueDraws(q, op, w);
        WithinSame(EnqueuedNow(q, op, w, key));
        AppendedIds(q, op, w, key, cleaned);
        WithinConcat(Ids(cleaned), Ids(events), EnqueuedNow(q, op, w, key), EnqueuedNow(q, op, w, key));
      } else if op.Claim? {
        ClaimedIds(q, op, w, key, cleaned);
      } else if op.Acknowledge? && op.ticket.key == key {
        assert op.ticket in q.claims by { SettlesKnown(q, op, w); }
        AllOrNothing(q, used, clock, w, op.ticket, op.now);
        HeldFirst(cleaned, op.ticket);
        IdsConcat(Filter(cleaned, Held(op.ticket)), Filter(cleaned, NotHeld(op.ticket)));
      } else if op.Release? && op.ticket.key == key {
        IdsAgree(cleaned, next);
      }
    }
  }

  lemma {:induction false} AppendedIds(q: Queue, op: Op, w: World, key: Key, cleaned: seq<StoredEvent>)
    requires op.Enqueue? && Succeeds(q, op, w) && cleaned == CleanEvents(EventsIn(q.stored, key), op.now, w.lim)
    ensures Ids(Effect(q, op, w, key)) == Ids(cleaned) + EnqueuedNow(q, op, w, key)
  {
    hide CleanEvents, EventsIn, EnqueueStep;
    var added := Effect(q, op, w, key)[|cleaned|..];
    assert Effect(q, op, w, key) == cleaned + added;
    IdsConcat(cleaned, added);
  }

  lemma {:induction false} ClaimedIds(q: Queue, op: Op, w: World, key: Key, cleaned: seq<StoredEvent>)
    requires op.Claim? && cleaned == CleanEvents(EventsIn(q.stored, key), op.now, w.lim)
    ensures Ids(Effect(q, op, w, key)) == Ids(cleaned)
  {
    hide CleanEvents, EventsIn, ClaimStep, Ids;
    IdsAgree(cleaned, Effect(q, op, w, key));
  }

  /**
   Delivery keeps the order of each scope: the ids acknowledged so far, followed by the ids still
   queued, are the ids enqueued, in the order they were enqueued, with some left out.
   */
  lemma {:induction false} DeliveredInOrder(q: Queue, ops: seq<Op>, used: set<Id>, clock: nat, w: World, key: Key)
    requires Inv(q, used, clock, w) && PossibleRun(ops, used, clock)
    ensures Within(AcknowledgedLog(q, ops, w, key) + Ids(EventsIn(Run(q, ops, w).stored, key)),
                   Ids(EventsIn(q.stored, key)) + EnqueuedLog(q, ops, w, key))
    decreases |ops|
  {
    hide Inv, Apply, Possible, EventsIn, AcknowledgedNow, EnqueuedNow, Within, Ids;
    if ops == [] {
      var ids := Ids(EventsIn(q.stored, key));
      WithinSame(ids);
      assert AcknowledgedLog(q, ops, w, key) + ids == ids && ids + EnqueuedLog(q, ops, w, key) == ids;
    } else {
      var op := ops[0];
      var next := Apply(q, op, w);
      StepInOrder(q, op, used, clock, w, key);
      StepKeepsInv(q, op, used, clock, w);
      DeliveredInOrder(next, ops[1..], used + Drawn(op), ClockAfter(op, clock), w, key);
      var a0, a1, last := AcknowledgedNow(q, op, w, key), AcknowledgedLog(next, ops[1..], w, key), Ids(EventsIn(Run(q, ops, w).stored, key));
      var e0, e1 := EnqueuedNow(q, op, w, key), EnqueuedLog(next, ops[1..], w, key);
      var before, mid := Ids(EventsIn(q.stored, key)), Ids(EventsIn(next.stored, key));
      WithinSame(a0);
      WithinSame(e1);
      WithinConcat(a0, a0, a1 + last, mid + e1);
      WithinConcat(a0 + mid, before + e0, e1, e1);
      assert a0 + (mid + e1) == (a0 + mid) + e1;
      WithinTransitive(a0 + (a1 + last), (a0 + mid) + e1, (before + e0) + e1);
      assert a0 + (a1 + last) == (a0 + a1) + last && (before + e0) + e1 == before + (e0 + e1);
    }
  }

  /** From a new queue: what has been acknowledged is an initial part, up to losses, of what was enqueued. */
  lemma {:induction false} DeliveredInOrderFromNew(ops: seq<Op>, w: World, key: Key)
    requires ValidLimits(w.lim) && w.lim.storedBytes([]) <= w.lim.maxStoredBytes && PossibleRun(ops, {}, 0)
    ensures var q := Queue([], map[]);
            Within(AcknowledgedLog(q, ops, w, key) + Ids(EventsIn(Run(q, ops, w).stored, key)), EnqueuedLog(q, ops, w, key))
  {
    hide Inv, PossibleRun, Apply;
    var q := Queue([], map[]);
    NewQueue(w);
    ViewNone([], key);
    DeliveredInOrder(q, ops, {}, 0, w, key);
    assert Ids(EventsIn(q.stored, key)) + EnqueuedLog(q, ops, w, key) == EnqueuedLog(q, ops, w, key);
  }

  // ---------------------------------------------------------------------------------------------
  // Why the clock must not run backwards
  // ---------------------------------------------------------------------------------------------

  /** Claiming at a time before an event was enqueued writes a record that reading then refuses. */
  lemma {:induction false} BackwardClockBreaksTheRecord()
    ensures var lim := Limits(32, 2048, 1048576, 50, 32768, 2592000000, 120000, (env: Envelope) => 0);
            var stored := [Scope(0, 0, 0, 50, [StoredEvent(1, ClientEvent(0, 10), 100, None)])];
            var after := ClaimStep(stored, 99, 0, [2], lim).stored;
            WellFormed(stored, lim) && !WellFormed(after, lim)
  {
    var lim := Limits(32, 2048, 1048576, 50, 32768, 2592000000, 120000, (env: Envelope) => 0);
    var e := StoredEvent(1, ClientEvent(0, 10), 100, None);
    var s := Scope(0, 0, 0, 50, [e]);
    var stored := [s];
    assert Flat(stored) == [Tagged(0, e)];
    assert Leased([e]) == [];
    assert WellFormed(stored, lim);
    assert CleanEvents([e], 99, lim) == [e];
    assert Clean(stored, 99, lim) == stored;
    ViewMember(stored, 0, 0);
    assert TotalBytes([e]) == 10;
    assert [e][..1] == [e];
    assert SelectCount([e], 50, 32768, 0) == 1;
    var ticket := Ticket(0, 2, 99, QueuedAll([e]));
    assert UsedIds(stored) == {1};
    assert FreshId([2], {1}) == Some(2);
    assert ticket.entries[0] == Queued(e);
    assert ticket.entries[0] in ticket.entries;
    var claimed := e.(lease := Some(Lease(2, 99)));
    assert Granted([e], EntryIds(ticket), Lease(2, 99)) == [claimed];
    var after := ClaimStep(stored, 99, 0, [2], lim).stored;
    assert after == [s.(events := [claimed])];
    assert !EventOk(claimed) && claimed in after[0].events && after[0] in after;
  }
}
