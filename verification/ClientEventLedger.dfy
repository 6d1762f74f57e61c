/**
 What becomes of every event over whole runs of the queue: enqueued once, then still queued,
 acknowledged by the claim that holds it, aged out or discarded - exactly one of these.
 */
module ClientEventLedger {
  import opened Numbers
  import opened Sequences
  import opened RetryPolicy
  import opened ClientEventEnvelope
  import opened ClientEventSteps
  import opened ClientEventInvariant
  import opened ClientEventQueue
  import opened StoreModel

  datatype Queue = Queue(stored: Envelope, claims: map<Ticket, ClaimState>)

  /** One operation of the lane, with what the environment supplied. A restart loses the claims in memory. */
  datatype Op =
    | Enqueue(now: nat, key: Key, event: ClientEvent, candidates: seq<Id>, access: Access)
    | Claim(now: nat, key: Key, candidates: seq<Id>, access: Access)
    | Begin(ticket: Ticket)
    | Acknowledge(now: nat, ticket: Ticket, access: Access)
    | Release(now: nat, ticket: Ticket, failure: SendFailure, random: real, access: Access)
    | Inspect(now: nat, key: Key, access: Access)
    | Discard(key: Key, access: Access)
    | Restart

  datatype World = World(lim: Limits, host: Host)

  predicate Settles(q: Queue, ticket: Ticket) {
    ticket in q.claims && q.claims[ticket] == Settling
  }

  /** The answers as the caller gets them, and what is stored afterwards. */
  function Claiming(q: Queue, now: nat, key: Key, candidates: seq<Id>, access: Access, w: World): Step<ClaimAnswer> {
    var s := ClaimStep(q.stored, now, key, candidates, w.lim);
    Through(q.stored, s, ClaimWrites(q.stored, now, s, w.lim), access)
  }

  function Acknowledging(q: Queue, now: nat, ticket: Ticket, access: Access, w: World): Step<nat> {
    var s := AcknowledgeStep(q.stored, now, ticket, w.lim);
    Through(q.stored, s, AcknowledgeWrites(q.stored, now, s, w.lim), access)
  }

  function Releasing(q: Queue, now: nat, ticket: Ticket, failure: SendFailure, random: real, access: Access, w: World)
    : Step<Option<RetryState>>
  {
    var s := ReleaseStep(q.stored, now, ticket, failure, random, w.host, w.lim);
    Through(q.stored, s, ReleaseWrites(q.stored, now, s, w.lim), access)
  }

  function Apply(q: Queue, op: Op, w: World): Queue {
    match op
    case Enqueue(now, key, event, candidates, access) =>
      q.(stored := Through(q.stored, EnqueueStep(q.stored, now, key, event, candidates, w.lim), true, access).stored)
    case Claim(now, key, candidates, access) =>
      var r := Claiming(q, now, key, candidates, access, w);
      Queue(r.stored, if r.answer.Ok? && r.answer.value.Claimed? then q.claims[r.answer.value.ticket := Active] else q.claims)
    case Begin(ticket) =>
      if MaySettle(q.claims, ticket) then q.(claims := q.claims[ticket := Settling]) else q
    case Acknowledge(now, ticket, access) =>
      if !Settles(q, ticket) then q
      else
        var r := Acknowledging(q, now, ticket, access, w);
        Queue(r.stored, Finished(q.claims, ticket, r.answer))
    case Release(now, ticket, failure, random, access) =>
      if !Settles(q, ticket) then q
      else
        var r := Releasing(q, now, ticket, failure, random, access, w);
        Queue(r.stored, Finished(q.claims, ticket, r.answer))
    case Inspect(now, key, access) =>
      q.(stored := Through(q.stored, InspectStep(q.stored, now, key, w.lim), Touched(q.stored, now, w.lim), access).stored)
    case Discard(key, access) =>
      var s := DiscardStep(q.stored, key, w.lim);
      q.(stored := Through(q.stored, s, DiscardWrites(s), access).stored)
    case Restart => q.(claims := map[])
  }

  function Run(q: Queue, ops: seq<Op>, w: World): Queue
    decreases |ops|
  {
    if ops == [] then q else Run(Apply(q, ops[0], w), ops[1..], w)
  }

  /** Did the operation take effect on the record, whatever its caller was told? */
  predicate Succeeds(q: Queue, op: Op, w: World) {
    match op
    case Enqueue(now, key, event, candidates, access) =>
      Lands(EnqueueStep(q.stored, now, key, event, candidates, w.lim), true, access)
    case Claim(now, key, candidates, access) =>
      var s := ClaimStep(q.stored, now, key, candidates, w.lim);
      Lands(s, ClaimWrites(q.stored, now, s, w.lim), access)
    case Acknowledge(now, ticket, access) =>
      var s := AcknowledgeStep(q.stored, now, ticket, w.lim);
      Settles(q, ticket) && Lands(s, AcknowledgeWrites(q.stored, now, s, w.lim), access)
    case Release(now, ticket, failure, random, access) =>
      var s := ReleaseStep(q.stored, now, ticket, failure, random, w.host, w.lim);
      Settles(q, ticket) && Lands(s, ReleaseWrites(q.stored, now, s, w.lim), access)
    case Inspect(now, key, access) =>
      Lands(InspectStep(q.stored, now, key, w.lim), Touched(q.stored, now, w.lim), access)
    case Discard(key, access) =>
      var s := DiscardStep(q.stored, key, w.lim);
      Lands(s, DiscardWrites(s), access)
    case Begin(_) => false
    case Restart => false
  }

  // ---------------------------------------------------------------------------------------------
  // The record as one list per key
  // ---------------------------------------------------------------------------------------------

  lemma {:induction false} ViewMember(env: Envelope, i: nat, key: Key)
    requires DistinctKeys(env) && i < |env| && env[i].key == key
    ensures EventsIn(env, key) == env[i].events && Find(env, key) == Some(i)
  {
    assert env[i] in env;
  }

  lemma {:induction false} ViewNone(env: Envelope, key: Key)
    requires forall s :: s in env ==> s.key != key
    ensures EventsIn(env, key) == []
  {
    if Find(env, key).Some? {
      assert false;
    }
  }

  lemma {:induction false} ViewUpdate(env: Envelope, i: nat, s: Scope, key: Key)
    requires DistinctKeys(env) && i < |env| && s.key == env[i].key
    ensures EventsIn(env[i := s], key) == if key == s.key then s.events else EventsIn(env, key)
  {
    var env' := env[i := s];
    assert DistinctKeys(env');
    var f := Find(env, key);
    if key == s.key {
      ViewMember(env', i, key);
    } else if f.Some? {
      ViewMember(env', f.value, key);
    } else {
      ViewNone(env', key);
    }
  }

  lemma {:induction false} ViewWithout(env: Envelope, i: nat, key: Key)
    requires DistinctKeys(env) && i < |env|
    ensures EventsIn(WithoutScope(env, i), key) == if key == env[i].key then [] else EventsIn(env, key)
  {
    var env' := WithoutScope(env, i);
    assert DistinctKeys(env');
    var f := Find(env, key);
    if key == env[i].key {
      ViewNone(env', key);
    } else if f.Some? {
      var j := if f.value < i then f.value else f.value - 1;
      assert env'[j] == env[f.value];
      ViewMember(env', j, key);
    } else {
      ViewNone(env', key);
    }
  }

  lemma {:induction false} ViewOpened(env: Envelope, key: Key, lim: Limits, k: Key)
    requires DistinctKeys(env)
    ensures DistinctKeys(Opened(env, key, lim)) && Find(Opened(env, key, lim), key).Some?
    ensures EventsIn(Opened(env, key, lim), k) == EventsIn(env, k)
  {
    var g := Opened(env, key, lim);
    if Find(env, key).None? {
      assert forall j :: 0 <= j < |env| ==> g[j] == env[j] && env[j] in env;
      assert g[|env|] in g && g[|env|].key == key;
      assert DistinctKeys(g);
      var f := Find(env, k);
      if k == key {
        ViewMember(g, |env|, k);
      } else if f.Some? {
        ViewMember(g, f.value, k);
      } else {
        ViewNone(g, k);
      }
    }
  }

  lemma {:induction false} ViewTail(env: Envelope, key: Key)
    requires env != [] && DistinctKeys(env)
    ensures DistinctKeys(env[1..])
    ensures EventsIn(env, key) == if key == env[0].key then env[0].events else EventsIn(env[1..], key)
  {
    var f := Find(env[1..], key);
    if key == env[0].key {
      ViewMember(env, 0, key);
    } else if f.Some? {
      ViewMember(env, f.value + 1, key);
    } else {
      forall s | s in env ensures s.key != key {
        assert s == env[0] || s in env[1..];
      }
      ViewNone(env, key);
    }
  }

  lemma {:induction false} ViewClean(env: Envelope, now: nat, lim: Limits, key: Key)
    requires DistinctKeys(env)
    ensures DistinctKeys(Clean(env, now, lim))
    ensures EventsIn(Clean(env, now, lim), key) == CleanEvents(EventsIn(env, key), now, lim)
    decreases |env|
  {
    hide CleanEvents, EventsIn;
    ThinsAllClean(env, now, lim);
    ThinsAllKeys(env, Clean(env, now, lim));
    if env == [] {
      ViewNone(env, key);
      assert CleanEvents([], now, lim) == [] by { ThinsClean([], now, lim); }
    } else {
      var kept := CleanEvents(env[0].events, now, lim);
      ViewTail(env, key);
      ViewClean(env[1..], now, lim, key);
      if kept != [] {
        ViewTail(Clean(env, now, lim), key);
      } else {
        assert Clean(env, now, lim) == Clean(env[1..], now, lim);
        if key == env[0].key {
          ViewNone(env[1..], key);
          assert CleanEvents([], now, lim) == [] by { ThinsClean([], now, lim); }
        }
      }
    }
  }

  /** What a successful operation makes of the list of one key. */
  function Effect(q: Queue, op: Op, w: World, key: Key): seq<StoredEvent> {
    var events := EventsIn(q.stored, key);
    match op
    case Enqueue(now, k, event, candidates, _) =>
      var r := EnqueueStep(q.stored, now, k, event, candidates, w.lim).answer;
      CleanEvents(events, now, w.lim)
      + if k == key && r.Ok? then [StoredEvent(r.value.id, event, now, None)] else []
    case Claim(now, k, candidates, _) =>
      var r := ClaimStep(q.stored, now, k, candidates, w.lim).answer;
      if k == key && r.Ok? && r.value.Claimed?
      then LeaseFront(CleanEvents(events, now, w.lim), |r.value.ticket.entries|, Lease(r.value.ticket.token, now))
      else CleanEvents(events, now, w.lim)
    case Acknowledge(now, ticket, _) =>
      var cleaned := CleanEvents(events, now, w.lim);
      if ticket.key == key then Filter(cleaned, NotHeld(ticket)) else cleaned
    case Release(now, ticket, failure, random, _) =>
      var cleaned := CleanEvents(events, now, w.lim);
      if ticket.key == key then Released(ticket, cleaned) else cleaned
    case Inspect(now, _, _) => CleanEvents(events, now, w.lim)
    case Discard(k, _) => if k == key then [] else events
    case Begin(_) => events
    case Restart => events
  }

  /** LeaseFirst, for any count. */
  function LeaseFront(events: seq<StoredEvent>, n: nat, lease: Lease): seq<StoredEvent> {
    LeaseFirst(events, Min(n, |events|), lease)
  }

  lemma {:induction false} NothingReleased(ticket: Ticket, events: seq<StoredEvent>)
    requires Filter(events, Held(ticket)) == []
    ensures Released(ticket, events) == events
  {
    hide EntryIds;
    forall i | 0 <= i < |events| ensures !Held(ticket)(events[i]) {
      assert events[i] in events;
    }
  }

  lemma {:induction false} EnqueueView(q: Queue, now: nat, k: Key, event: ClientEvent, candidates: seq<Id>, access: Access, w: World, key: Key)
    requires DistinctKeys(q.stored)
    ensures var op := Enqueue(now, k, event, candidates, access);
            EventsIn(Apply(q, op, w).stored, key) == if Succeeds(q, op, w) then Effect(q, op, w, key) else EventsIn(q.stored, key)
  {
    hide Clean, CleanEvents, EventsIn, UsedIds, FreshId, CountEvents;
    var c := Clean(q.stored, now, w.lim);
    ViewClean(q.stored, now, w.lim, key);
    ViewClean(q.stored, now, w.lim, k);
    ViewOpened(c, k, w.lim, key);
    ViewOpened(c, k, w.lim, k);
    var g := Opened(c, k, w.lim);
    var id := FreshId(candidates, UsedIds(g));
    if id.Some? {
      var i := Find(g, k).value;
      var e := StoredEvent(id.value, event, now, None);
      ViewMember(g, i, k);
      ViewUpdate(g, i, g[i].(events := g[i].events + [e]), key);
    }
  }

  lemma {:induction false} ClaimView(q: Queue, now: nat, k: Key, candidates: seq<Id>, access: Access, w: World, key: Key)
    requires Sound(q.stored, w.lim)
    ensures var op := Claim(now, k, candidates, access);
            EventsIn(Apply(q, op, w).stored, key) == if Succeeds(q, op, w) then Effect(q, op, w, key) else EventsIn(q.stored, key)
  {
    hide Clean, CleanEvents, EventsIn, UsedIds, FreshId, CountEvents, Granted, EntryIds, SelectCount, EarliestExpiry, Leased, Consistent, ScopeOk;
    var c := Clean(q.stored, now, w.lim);
    CleanSound(q.stored, now, w.lim);
    ViewClean(q.stored, now, w.lim, key);
    ViewClean(q.stored, now, w.lim, k);
    var f := Find(c, k);
    if f.Some? {
      var s := c[f.value];
      var n := SelectCount(s.events, Min(s.batchLimit, w.lim.maxBatchEvents), w.lim.maxBatchBytes, 0);
      var token := FreshId(candidates, UsedIds(c));
      if token.Some? {
        var ticket := Ticket(k, token.value, now, QueuedAll(s.events[..n]));
        ScopeIdsDistinct(c, f.value);
        GrantIsPrefix(s.events, n, ticket, Lease(token.value, now));
        ViewMember(c, f.value, k);
        ViewUpdate(c, f.value, s.(events := Granted(s.events, EntryIds(ticket), Lease(token.value, now))), key);
      }
    }
  }

  lemma {:induction false} AcknowledgeView(q: Queue, now: nat, ticket: Ticket, access: Access, w: World, key: Key)
    requires DistinctKeys(q.stored)
    ensures var op := Acknowledge(now, ticket, access);
            EventsIn(Apply(q, op, w).stored, key) == if Succeeds(q, op, w) then Effect(q, op, w, key) else EventsIn(q.stored, key)
  {
    hide Clean, CleanEvents, EventsIn, CountEvents, NotHeld, Filter;
    var c := Clean(q.stored, now, w.lim);
    ViewClean(q.stored, now, w.lim, key);
    var f := Find(c, ticket.key);
    if f.Some? {
      var s := Acknowledged(c[f.value], ticket);
      ViewMember(c, f.value, ticket.key);
      ViewUpdate(c, f.value, s, key);
      ViewWithout(c, f.value, key);
      FilterShorter(c[f.value].events, NotHeld(ticket));
    } else {
      ViewNone(c, ticket.key);
      assert Filter([], NotHeld(ticket)) == [] by { FilterAll([], NotHeld(ticket)); }
    }
  }

  lemma {:induction false} FilterShorter(events: seq<StoredEvent>, keep: StoredEvent -> bool)
    ensures |Filter(events, keep)| == |events| ==> Filter(events, keep) == events
  {
    if events != [] {
      FilterShorter(events[1..], keep);
    }
  }

  lemma {:induction false} ReleaseView(q: Queue, now: nat, ticket: Ticket, failure: SendFailure, random: real, access: Access, w: World, key: Key)
    requires DistinctKeys(q.stored)
    ensures var op := Release(now, ticket, failure, random, access);
            EventsIn(Apply(q, op, w).stored, key) == if Succeeds(q, op, w) then Effect(q, op, w, key) else EventsIn(q.stored, key)
  {
    hide Clean, CleanEvents, EventsIn, CountEvents, Held, Filter, Released, RetryAt, NextBatchLimit;
    var c := Clean(q.stored, now, w.lim);
    ViewClean(q.stored, now, w.lim, key);
    var f := Find(c, ticket.key);
    if f.Some? {
      ViewMember(c, f.value, ticket.key);
      ViewUpdate(c, f.value, Retried(c[f.value], ticket, now, failure, random, w.host), key);
      if |Filter(c[f.value].events, Held(ticket))| == 0 {
        NothingReleased(ticket, c[f.value].events);
      }
    } else {
      ViewNone(c, ticket.key);
      assert |Released(ticket, [])| == 0;
    }
  }

  lemma {:induction false} DiscardView(q: Queue, k: Key, access: Access, w: World, key: Key)
    requires DistinctKeys(q.stored)
    ensures var op := Discard(k, access);
            EventsIn(Apply(q, op, w).stored, key) == if Succeeds(q, op, w) then Effect(q, op, w, key) else EventsIn(q.stored, key)
  {
    hide EventsIn, CountEvents;
    var f := Find(q.stored, k);
    if f.Some? {
      ViewMember(q.stored, f.value, k);
      ViewWithout(q.stored, f.value, key);
    } else {
      ViewNone(q.stored, k);
    }
  }

  /** The stored record refines one list per key: each operation changes exactly the lists it says. */
  lemma {:induction false} StepView(q: Queue, op: Op, w: World, key: Key)
    requires Sound(q.stored, w.lim)
    ensures EventsIn(Apply(q, op, w).stored, key) ==
            if Succeeds(q, op, w) then Effect(q, op, w, key) else EventsIn(q.stored, key)
  {
    hide Clean, CleanEvents, EventsIn, Effect, Succeeds, Apply, Sound;
    assert DistinctKeys(q.stored) by { SoundKeys(q.stored, w.lim); }
    match op {
      case Enqueue(now, k, event, candidates, access) => EnqueueView(q, now, k, event, candidates, access, w, key);
      case Claim(now, k, candidates, access) => ClaimView(q, now, k, candidates, access, w, key);
      case Acknowledge(now, ticket, access) => AcknowledgeView(q, now, ticket, access, w, key);
      case Release(now, ticket, failure, random, access) => ReleaseView(q, now, ticket, failure, random, access, w, key);
      case Inspect(now, k, access) => InspectView(q, now, k, access, w, key);
      case Discard(k, access) => DiscardView(q, k, access, w, key);
      case Begin(ticket) => IdleView(q, op, w, key);
      case Restart => IdleView(q, op, w, key);
    }
  }

  lemma {:induction false} SoundKeys(env: Envelope, lim: Limits)
    requires Sound(env, lim)
    ensures DistinctKeys(env)
  {
  }

  lemma {:induction false} InspectView(q: Queue, now: nat, k: Key, access: Access, w: World, key: Key)
    requires DistinctKeys(q.stored)
    ensures var op := Inspect(now, k, access);
            EventsIn(Apply(q, op, w).stored, key) == if Succeeds(q, op, w) then Effect(q, op, w, key) else EventsIn(q.stored, key)
  {
    hide Clean, CleanEvents, EventsIn, CountEvents, Leased;
    ViewClean(q.stored, now, w.lim, key);
  }

  lemma {:induction false} IdleView(q: Queue, op: Op, w: World, key: Key)
    requires op.Begin? || op.Restart?
    ensures EventsIn(Apply(q, op, w).stored, key) ==
            if Succeeds(q, op, w) then Effect(q, op, w, key) else EventsIn(q.stored, key)
  {
  }
}
