/** How failures slow a scope down: the retry schedule a release writes, and the shrinking batch limit. */
module ClientEventBackoff {
  import opened Numbers
  import opened Sequences
  import opened RetryPolicy
  import opened ClientEventEnvelope
  import opened ClientEventSteps
  import opened ClientEventInvariant
  import opened ClientEventQueue
  import opened ClientEventLedger
  import opened ClientEventRuns

  /** A successful release schedules the next attempt in range, and a 413 shrinks the scope's batches. */
  lemma {:induction false} ReleaseSchedules(stored: Envelope, now: nat, ticket: Ticket, failure: SendFailure, random: real, host: Host, lim: Limits)
    requires Readable(stored, lim) && now <= MAX_SAFE_INTEGER && 0.0 <= random < 1.0
    requires var r := ReleaseStep(stored, now, ticket, failure, random, host, lim).answer; r.Ok? && r.value.Some?
    ensures var r := ReleaseStep(stored, now, ticket, failure, random, host, lim).answer.value.value;
            && r.released >= 1 && 1 <= r.failureCount <= MAX_FAILURE_COUNT
            && r.retryAt - now <= RETRY_AFTER_MAX_MS
            && (r.retryAt - now >= BACKOFF_BASE_MS / 2 || r.retryAt == MAX_SAFE_INTEGER)
            && exists s :: s in stored && s.key == ticket.key
                 && 1 <= r.batchLimit <= s.batchLimit
                 && (failure.Http? && failure.status == 413 && s.batchLimit > 1 ==> r.batchLimit < s.batchLimit)
  {
    hide Clean, CleanEvents, Filter, Held, Released, RetryAt, NextBatchLimit, CountEvents, Consistent;
    var c := Clean(stored, now, lim);
    var i := Find(c, ticket.key).value;
    var t := CleanScope(stored, now, lim, c[i]);
    var s := Retried(c[i], ticket, now, failure, random, host);
    RetryAtRange(now, s.failureCount, random, failure, host);
    BatchLimitShrinks(c[i].batchLimit, |ticket.entries|, failure);
  }

  /** Where a scope of the record after an operation comes from, when it is not newly opened. */
  lemma {:induction false} ScopeOrigin(q: Queue, op: Op, used: set<Id>, clock: nat, w: World, s': Scope) returns (s: Scope)
    requires Inv(q, used, clock, w) && Possible(op, used, clock) && s' in Apply(q, op, w).stored
    requires op.Enqueue? && op.key == s'.key ==> CleanEvents(EventsIn(q.stored, op.key), op.now, w.lim) != []
    ensures s in q.stored && s.key == s'.key && s'.batchLimit <= s.batchLimit
    ensures op.Release? && Succeeds(q, op, w) && op.ticket.key == s.key && op.failure.Http? && op.failure.status == 413 && s.batchLimit > 1
              && Filter(CleanEvents(EventsIn(q.stored, s.key), op.now, w.lim), Held(op.ticket)) != []
            ==> s'.batchLimit < s.batchLimit
  {
    hide CleanEvents, EventsIn, Filter, Held, Released, RetryAt, NextBatchLimit, Succeeds, Readable, Prefixed, Registered,
         EnqueueStep, ClaimStep, AcknowledgeStep, ReleaseStep, InspectStep, DiscardStep;
    InvSound(q, used, clock, w);
    s := s';
    if s' !in q.stored {
      match op {
        case Enqueue(now, key, event, candidates, _) => s := EnqueueScope(q, op, w, s');
        case Claim(now, key, candidates, _) => s := ClaimScope(q, op, w, s');
        case Acknowledge(now, ticket, _) => s := AcknowledgeScope(q, op, w, s');
        case Release(now, ticket, failure, random, _) => s := ReleaseScope(q, op, w, s');
        case Inspect(now, key, _) => s := InspectScope(q, op, w, s');
        case Discard(key, _) => DiscardScopes(q, op, w, s');
        case Begin(_) =>
        case Restart =>
      }
    } else if op.Release? {
      s := ReleaseScope(q, op, w, s');
    }
  }

  lemma {:induction false} EnqueueScope(q: Queue, op: Op, w: World, s': Scope) returns (s: Scope)
    requires op.Enqueue? && DistinctKeys(q.stored) && s' in Apply(q, op, w).stored && s' !in q.stored
    requires op.key == s'.key ==> CleanEvents(EventsIn(q.stored, op.key), op.now, w.lim) != []
    ensures s in q.stored && s.key == s'.key && s.batchLimit == s'.batchLimit
  {
    hide Clean, CleanEvents, EventsIn, UsedIds, FreshId, CountEvents;
    var c := Clean(q.stored, op.now, w.lim);
    var g := Opened(c, op.key, w.lim);
    ViewClean(q.stored, op.now, w.lim, op.key);
    ViewOpened(c, op.key, w.lim, op.key);
    var i := Find(g, op.key).value;
    if Find(c, op.key).None? {
      ViewNone(c, op.key);
    }
    var t: Scope := if s'.key == op.key && s' !in c then g[i] else s';
    assert t in c;
    s := CleanScope(q.stored, op.now, w.lim, t);
  }

  lemma {:induction false} ClaimScope(q: Queue, op: Op, w: World, s': Scope) returns (s: Scope)
    requires op.Claim? && s' in Apply(q, op, w).stored && s' !in q.stored
    ensures s in q.stored && s.key == s'.key && s.batchLimit == s'.batchLimit
  {
    hide Clean, CleanEvents, UsedIds, FreshId, CountEvents, Granted, EntryIds, EarliestExpiry, Leased, SelectCount;
    var c := Clean(q.stored, op.now, w.lim);
    var t: Scope := if s' in c then s' else c[Find(c, op.key).value];
    s := CleanScope(q.stored, op.now, w.lim, t);
  }

  lemma {:induction false} AcknowledgeScope(q: Queue, op: Op, w: World, s': Scope) returns (s: Scope)
    requires op.Acknowledge? && s' in Apply(q, op, w).stored && s' !in q.stored
    ensures s in q.stored && s.key == s'.key && s.batchLimit == s'.batchLimit
  {
    hide Clean, CleanEvents, CountEvents, Filter, NotHeld;
    var c := Clean(q.stored, op.now, w.lim);
    var t: Scope := if s' in c then s' else c[Find(c, op.ticket.key).value];
    s := CleanScope(q.stored, op.now, w.lim, t);
  }

  lemma {:induction false} ReleaseScope(q: Queue, op: Op, w: World, s': Scope) returns (s: Scope)
    requires op.Release? && Sound(q.stored, w.lim) && s' in Apply(q, op, w).stored
    ensures s in q.stored && s.key == s'.key && s'.batchLimit <= s.batchLimit
    ensures Succeeds(q, op, w) && op.ticket.key == s.key && op.failure.Http? && op.failure.status == 413 && s.batchLimit > 1
              && Filter(CleanEvents(EventsIn(q.stored, s.key), op.now, w.lim), Held(op.ticket)) != []
            ==> s'.batchLimit < s.batchLimit
  {
    hide Clean, CleanEvents, EventsIn, CountEvents, Filter, Held, Released, RetryAt, NextBatchLimit, Consistent;
    var c := Clean(q.stored, op.now, w.lim);
    ViewClean(q.stored, op.now, w.lim, op.ticket.key);
    if !Succeeds(q, op, w) {
      s := s';
    } else {
      var f := Find(c, op.ticket.key);
      if f.Some? {
        ViewMember(c, f.value, op.ticket.key);
        var t := c[f.value];
        assert t in c;
        var o := CleanScope(q.stored, op.now, w.lim, t);
        BatchLimitShrinks(t.batchLimit, |op.ticket.entries|, op.failure);
        s := if s'.key == op.ticket.key then o else s';
        if s'.key != op.ticket.key {
          s := CleanScope(q.stored, op.now, w.lim, s');
        }
      } else {
        s := CleanScope(q.stored, op.now, w.lim, s');
        ViewNone(c, op.ticket.key);
        assert Filter([], Held(op.ticket)) == [] by { FilterAll([], Held(op.ticket)); }
      }
    }
  }

  lemma {:induction false} InspectScope(q: Queue, op: Op, w: World, s': Scope) returns (s: Scope)
    requires op.Inspect? && s' in Apply(q, op, w).stored && s' !in q.stored
    ensures s in q.stored && s.key == s'.key && s.batchLimit == s'.batchLimit
  {
    hide Clean, CleanEvents, CountEvents, Leased;
    s := CleanScope(q.stored, op.now, w.lim, s');
  }

  lemma {:induction false} DiscardScopes(q: Queue, op: Op, w: World, s': Scope)
    requires op.Discard? && s' in Apply(q, op, w).stored
    ensures s' in q.stored
  {
    hide CountEvents;
  }

  function LimitIn(env: Envelope, key: Key): nat {
    match Find(env, key) case None => 0 case Some(i) => env[i].batchLimit
  }

  /** As long as a scope is not emptied and opened anew its batch limit never grows. */
  lemma {:induction false} LimitNeverGrows(q: Queue, op: Op, used: set<Id>, clock: nat, w: World, key: Key)
    requires Inv(q, used, clock, w) && Possible(op, used, clock)
    requires op.Enqueue? && op.key == key ==> CleanEvents(EventsIn(q.stored, key), op.now, w.lim) != []
    ensures LimitIn(Apply(q, op, w).stored, key) <= LimitIn(q.stored, key)
  {
    hide CleanEvents, EventsIn, Apply, Succeeds, Prefixed, Registered, Filter;
    var after := Apply(q, op, w).stored;
    var f := Find(after, key);
    if f.Some? {
      var s := ScopeOrigin(q, op, used, clock, w, after[f.value]);
      var i :| 0 <= i < |q.stored| && q.stored[i] == s;
      ViewMember(q.stored, i, key);
    }
  }
}
