/** The queue object: the stored record, and the claims this worker has handed out. */
module ClientEventQueue {
  import opened Numbers
  import opened Sequences
  import opened RetryPolicy
  import opened ClientEventEnvelope
  import opened ClientEventSteps
  import opened ClientEventInvariant
  import opened StoreModel

  /** A claim can be settled once: by an acknowledgement or by a release that succeeds. */
  datatype ClaimState = Active | Settling | Settled

  /** Everything stored under the ticket's token was handed out with the ticket. */
  ghost predicate Covers(stored: Envelope, ticket: Ticket) {
    forall x :: x in Flat(stored) && x.e.lease.Some? && x.e.lease.value.token == ticket.token ==> x.e.id in EntryIds(ticket)
  }

  /** Is this the state in which a settlement may begin? */
  predicate MaySettle(claims: map<Ticket, ClaimState>, ticket: Ticket) {
    ticket in claims && claims[ticket] == Active
  }

  function Finished<T>(claims: map<Ticket, ClaimState>, ticket: Ticket, answer: Result<T, QueueError>): map<Ticket, ClaimState> {
    claims[ticket := if answer.Ok? then Settled else Active]
  }

  /** How many events from the front fit in one batch: the source's selection loop. */
  method SelectEvents(events: seq<StoredEvent>, limit: nat, maxBytes: nat) returns (selected: seq<StoredEvent>)
    ensures selected == events[..SelectCount(events, limit, maxBytes, 0)]
  {
    selected := [];
    var i := 0;
    while i < |events|
      invariant 0 <= i <= |events| && selected == events[..i]
      invariant SelectCount(events, limit, maxBytes, i) == SelectCount(events, limit, maxBytes, 0)
    {
      if |selected| >= limit {
        break;
      }
      var candidate := selected + [events[i]];
      assert candidate == events[..i + 1];
      if BatchBytes(candidate) > maxBytes {
        break;
      }
      selected := candidate;
      i := i + 1;
    }
  }

  /** Draw ids until one is found that nothing stored carries. */
  method NewUniqueId(env: Envelope, candidates: seq<Id>) returns (id: Option<Id>)
    ensures id == FreshId(candidates, UsedIds(env))
  {
    hide UsedOf, Flat;
    var used: set<Id> := {};
    ghost var seen: seq<Tagged> := [];
    assert UsedOf([]) == {} by { UsedOfNothing(); }
    assert Flat([]) == [] by { NothingTracked(); }
    for k := 0 to |env|
      invariant seen == Flat(env[..k]) && used == UsedOf(seen)
    {
      ReadSoFar(env, k);
      ghost var own := Tag(env[k].key, env[k].events);
      assert seen + own[..0] == seen;
      for n := 0 to |env[k].events|
        invariant used == UsedOf(seen + own[..n])
      {
        var e := env[k].events[n];
        assert seen + own[..n + 1] == (seen + own[..n]) + [own[n]];
        UsedOfLast(seen + own[..n], own[n]);
        used := used + {e.id};
        if e.lease.Some? {
          used := used + {e.lease.value.token};
        }
      }
      assert own[..|own|] == own;
      seen := seen + own;
    }
    assert env[..|env|] == env;
    var attempt := 0;
    while attempt < |candidates|
      invariant 0 <= attempt <= |candidates|
      invariant FreshId(candidates, used) == FreshId(candidates[attempt..], used)
    {
      if candidates[attempt] !in used {
        return Some(candidates[attempt]);
      }
      attempt := attempt + 1;
    }
    return None;
  }

  lemma {:induction false} UsedOfNothing()
    ensures UsedOf([]) == {}
  {
  }

  lemma {:induction false} UsedOfLast(flat: seq<Tagged>, x: Tagged)
    ensures UsedOf(flat + [x]) == UsedOf(flat) + {x.e.id} + if x.e.lease.Some? then {x.e.lease.value.token} else {}
  {
  }

  /** Clear the lease of each held event in turn, counting them. */
  method ReleaseHeld(events: seq<StoredEvent>, ticket: Ticket) returns (after: seq<StoredEvent>, count: nat)
    ensures after == Released(ticket, events)
    ensures count == |Filter(events, Held(ticket))|
  {
    hide EntryIds, Filter, Held;
    after, count := events, 0;
    assert Filter(events[..0], Held(ticket)) == [] by { FilterAll(events[..0], Held(ticket)); }
    for i := 0 to |events|
      invariant |after| == |events| && count == |Filter(events[..i], Held(ticket))|
      invariant forall j :: 0 <= j < i ==> after[j] == Released(ticket, events)[j]
      invariant forall j :: i <= j < |events| ==> after[j] == events[j]
    {
      FilterLast(events, i, Held(ticket));
      var e := events[i];
      if Held(ticket)(e) {
        after := after[i := e.(lease := None)];
        count := count + 1;
      }
    }
    assert events[..|events|] == events;
  }

  /** Release what the claim holds in its scope and schedule the next attempt there. */
  method RetryScope(s: Scope, now: nat, ticket: Ticket, failure: SendFailure, random: real, host: Host)
      returns (scope: Scope, released: nat)
    ensures released == |Filter(s.events, Held(ticket))|
    ensures released > 0 ==> scope == Retried(s, ticket, now, failure, random, host)
  {
    var events;
    events, released := ReleaseHeld(s.events, ticket);
    scope := s.(events := events);
    if released > 0 {
      scope := scope.(failureCount := Min(MAX_FAILURE_COUNT, scope.failureCount + 1));
      scope := scope.(batchLimit := NextBatchLimit(scope.batchLimit, |ticket.entries|, failure));
      scope := scope.(retryAt := RetryAt(now, scope.failureCount, random, failure, host));
    }
  }

  /** Delete what the claim holds from its scope, and the scope when nothing is left of it. */
  method DeleteHeld(env: Envelope, ticket: Ticket) returns (after: Envelope, removed: nat)
    requires forall s :: s in env ==> s.events != []
    ensures match Find(env, ticket.key)
            case None => after == env && removed == 0
            case Some(i) =>
              var s := Acknowledged(env[i], ticket);
              && after == (if s.events == [] then WithoutScope(env, i) else env[i := s])
              && removed == |env[i].events| - |s.events|
    ensures removed == 0 ==> after == env
  {
    hide NotHeld;
    var found := Find(env, ticket.key);
    if found.None? {
      return env, 0;
    }
    var scope := env[found.value];
    assert scope in env;
    var kept := Filter(scope.events, NotHeld(ticket));
    removed := |scope.events| - |kept|;
    if removed > 0 {
      scope := scope.(events := kept, failureCount := 0, retryAt := 0);
    }
    after := if scope.events == [] then WithoutScope(env, found.value) else env[found.value := scope];
  }

  lemma {:induction false} ReadableFits(env: Envelope, lim: Limits)
    requires WellFormed(env, lim)
    ensures Fits(env, lim)
  {
  }

  class ClientEventQueue {
    var stored: Envelope
    var claims: map<Ticket, ClaimState>
    const lim: Limits
    const host: Host

    ghost predicate Valid()
      reads this
    {
      ValidLimits(lim) && DistinctKeys(stored)
    }

    ghost predicate Readable()
      reads this
    {
      Valid() && ClientEventInvariant.Readable(stored, lim)
    }

    constructor (lim: Limits, host: Host)
      requires ValidLimits(lim) && lim.storedBytes([]) <= lim.maxStoredBytes
      ensures Readable() && stored == [] && claims == map[] && this.lim == lim && this.host == host
    {
      stored, claims := [], map[];
      this.lim, this.host := lim, host;
    }

    /** An operation on a record that cannot be read: nothing changes. */
    predicate Unread<T>(access: Access, before: Envelope, r: Result<T, QueueError>)
      reads this
    {
      stored == before && r == Err(if access.readable then Unreadable else StoreFailed)
    }

    /** The read that starts every operation. */
    method ReadEnvelope(access: Access) returns (r: Result<Envelope, QueueError>)
      requires Valid()
      ensures r == if !access.readable then Err(StoreFailed) else if WellFormed(stored, lim) then Ok(stored) else Err(Unreadable)
    {
      if !access.readable {
        return Err(StoreFailed);
      }
      var parsed := ParseEnvelope(stored, lim);
      r := match parsed case Ok(env) => Ok(env) case Err(_) => Err(Unreadable);
    }

    /** The write that ends an operation: refused by the limits, or handed to the store, which may still fail. */
    method WriteEnvelope(env: Envelope, access: Access) returns (r: Result<(), QueueError>)
      requires access.readable
      modifies `stored
      ensures Through(old(stored), Write(old(stored), env, (), lim), true, access) == Step(stored, r)
    {
      if |env| > lim.maxScopes || CountEvents(env) > lim.maxEvents {
        return Err(CapacityReached);
      }
      if lim.storedBytes(env) > lim.maxStoredBytes {
        return Err(LimitReached);
      }
      if access.write.commits {
        stored := env;
      }
      return if access.write.throws then Err(StoreFailed) else Ok(());
    }

    /** Read and clean; `changed` says whether cleaning left something to write. */
    method Load(now: nat, access: Access) returns (r: Result<Envelope, QueueError>, changed: bool)
      requires Valid()
      ensures !access.readable ==> r == Err(StoreFailed)
      ensures access.readable && !WellFormed(stored, lim) ==> r == Err(Unreadable)
      ensures access.readable && WellFormed(stored, lim) ==>
                r == Ok(Clean(stored, now, lim)) && (changed <==> Touched(stored, now, lim))
    {
      var env := ReadEnvelope(access);
      r, changed := env, false;
      if env.Ok? {
        var cleaned;
        cleaned, changed := CleanupEnvelope(env.value, now, lim);
        r := Ok(cleaned);
      }
    }

    /** Write the cleaned record when cleaning changed it. */
    method WriteIfChanged(env: Envelope, changed: bool, access: Access) returns (r: Result<(), QueueError>)
      requires WellFormed(stored, lim) && (changed <==> env != stored) && access.readable
      modifies `stored
      ensures Through(old(stored), Write(old(stored), env, (), lim), changed, access) == Step(stored, r)
    {
      r := Ok(());
      if changed {
        r := WriteEnvelope(env, access);
      }
    }

    method Enqueue(now: nat, key: Key, event: ClientEvent, candidates: seq<Id>, access: Access)
        returns (r: Result<QueuedEvent, QueueError>)
      requires Valid() && now <= MAX_SAFE_INTEGER && |candidates| == MAX_ID_ATTEMPTS
      modifies `stored
      ensures Valid() && (old(Readable()) ==> Readable())
      ensures if old(Readable()) then Through(old(stored), EnqueueStep(old(stored), now, key, event, candidates, lim), true, access) == Step(stored, r)
              else Unread(access, old(stored), r)
    {
      hide Clean, UsedIds, WellFormed, DistinctKeys, FreshId, CountEvents, IndexOf, Touched, ValidLimits;
      if Readable() {
        EnqueueKeeps(stored, now, key, event, candidates, lim);
      }
      var loaded, _ := Load(now, access);
      if loaded.Err? {
        return Err(loaded.error);
      }
      var env := loaded.value;
      if Find(env, key).None? {
        if |env| >= lim.maxScopes {
          return Err(CapacityReached);
        }
        env := env + [Scope(key, 0, 0, lim.maxBatchEvents, [])];
      }
      if CountEvents(env) >= lim.maxEvents {
        return Err(CapacityReached);
      }
      var id := NewUniqueId(env, candidates);
      if id.None? {
        return Err(LimitReached);
      }
      var e := StoredEvent(id.value, event, now, None);
      env := Appended(env, key, e);
      var written := WriteEnvelope(env, access);
      r := match written case Ok(_) => Ok(Queued(e)) case Err(x) => Err(x);
    }

    method Claim(now: nat, key: Key, candidates: seq<Id>, access: Access) returns (r: Result<ClaimAnswer, QueueError>)
      requires Valid() && now <= MAX_SAFE_INTEGER && |candidates| == MAX_ID_ATTEMPTS
      modifies `stored, `claims
      ensures var s := ClaimStep(old(stored), now, key, candidates, lim);
              && Valid()
              && (old(Readable()) ==>
                    (Readable() <==> InTime(s, now) || !Lands(s, ClaimWrites(old(stored), now, s, lim), access)))
      ensures var s := ClaimStep(old(stored), now, key, candidates, lim);
              if old(Readable()) then Through(old(stored), s, ClaimWrites(old(stored), now, s, lim), access) == Step(stored, r)
              else Unread(access, old(stored), r)
      ensures claims == if r.Ok? && r.value.Claimed? then old(claims)[r.value.ticket := Active] else old(claims)
    {
      hide Clean, UsedIds, WellFormed, DistinctKeys, FreshId, EarliestExpiry, InTime, SelectCount, EntryIds, Granted, Leased, CountEvents, IndexOf;
      if Readable() {
        ClaimExact(stored, now, key, candidates, lim);
        ClaimDistinct(stored, now, key, candidates, lim);
      }
      var loaded, changed := Load(now, access);
      if loaded.Err? {
        return Err(loaded.error);
      }
      var env := loaded.value;
      var found := Find(env, key);
      if found.None? {
        var written := WriteIfChanged(env, changed, access);
        return match written case Ok(_) => Ok(Empty) case Err(x) => Err(x);
      }
      var scope := env[found.value];
      if scope.retryAt > now {
        var written := WriteIfChanged(env, changed, access);
        return match written case Ok(_) => Ok(Deferred(scope.retryAt)) case Err(x) => Err(x);
      }
      var claimed := Leased(scope.events);
      if |claimed| > 0 {
        var written := WriteIfChanged(env, changed, access);
        var retryAt := EarliestExpiry(claimed, now, lim.claimTtl);
        return match written case Ok(_) => Ok(Busy(retryAt)) case Err(x) => Err(x);
      }
      var selected := SelectEvents(scope.events, Min(scope.batchLimit, lim.maxBatchEvents), lim.maxBatchBytes);
      if |selected| == 0 {
        return Err(LimitReached);
      }
      var token := NewUniqueId(env, candidates);
      if token.None? {
        return Err(LimitReached);
      }
      var ticket := Ticket(key, token.value, now, QueuedAll(selected));
      env := env[found.value := scope.(events := Granted(scope.events, EntryIds(ticket), Lease(token.value, now)))];
      var written := WriteEnvelope(env, access);
      if written.Err? {
        return Err(written.error);
      }
      claims := claims[ticket := Active];
      return Ok(Claimed(ticket));
    }

    /** Refused unless this queue issued the claim and no settlement of it is running or done. */
    method BeginSettlement(ticket: Ticket) returns (r: Result<(), QueueError>)
      modifies `claims
      ensures r == if MaySettle(old(claims), ticket) then Ok(()) else Err(InvalidClaim)
      ensures claims == if r.Ok? then old(claims)[ticket := Settling] else old(claims)
    {
      if !MaySettle(claims, ticket) {
        return Err(InvalidClaim);
      }
      claims := claims[ticket := Settling];
      return Ok(());
    }

    /** The lane's part of an acknowledgement. */
    method Acknowledge(now: nat, ticket: Ticket, access: Access) returns (r: Result<nat, QueueError>)
      requires Valid() && ticket in claims && claims[ticket] == Settling
      modifies `stored, `claims
      ensures Valid() && (old(Readable()) ==> Readable())
      ensures var s := AcknowledgeStep(old(stored), now, ticket, lim);
              if old(Readable()) then Through(old(stored), s, AcknowledgeWrites(old(stored), now, s, lim), access) == Step(stored, r)
              else Unread(access, old(stored), r)
      ensures claims == Finished(old(claims), ticket, r)
    {
      hide Clean, WellFormed, DistinctKeys, Acknowledged, Filter, CountEvents, WithoutScope, IndexOf;
      if Readable() {
        AcknowledgeKeeps(stored, now, ticket, lim);
      }
      var loaded, changed := Load(now, access);
      if loaded.Err? {
        claims := claims[ticket := Active];
        return Err(loaded.error);
      }
      CleanHasNoEmptyScope(stored, now, lim);
      var env, removed := DeleteHeld(loaded.value, ticket);
      var written := Ok(());
      if changed || removed > 0 {
        written := WriteEnvelope(env, access);
      } else {
        ReadableFits(stored, lim);
      }
      r := match written case Ok(_) => Ok(removed) case Err(x) => Err(x);
      claims := claims[ticket := if r.Ok? then Settled else Active];
    }

    /** The lane's part of a release: held events become free and the next attempt is scheduled. */
    method Release(now: nat, ticket: Ticket, failure: SendFailure, random: real, access: Access)
        returns (r: Result<Option<RetryState>, QueueError>)
      requires Valid() && ticket in claims && claims[ticket] == Settling
      requires now <= MAX_SAFE_INTEGER && 0.0 <= random < 1.0
      requires Covers(stored, ticket)
      modifies `stored, `claims
      ensures Valid() && (old(Readable()) ==> Readable())
      ensures var s := ReleaseStep(old(stored), now, ticket, failure, random, host, lim);
              if old(Readable()) then Through(old(stored), s, ReleaseWrites(old(stored), now, s, lim), access) == Step(stored, r)
              else Unread(access, old(stored), r)
      ensures claims == Finished(old(claims), ticket, r)
    {
      hide Clean, WellFormed, DistinctKeys, Held, Filter, Flat, Retried, CountEvents, IndexOf;
      if Readable() {
        ReleaseKeeps(stored, now, ticket, failure, random, host, lim);
      }
      var loaded, changed := Load(now, access);
      if loaded.Err? {
        claims := claims[ticket := Active];
        return Err(loaded.error);
      }
      var env := loaded.value;
      var found := Find(env, ticket.key);
      var answer, written := None, Ok(());
      if found.None? {
        written := WriteIfChanged(env, changed, access);
      } else {
        var i := found.value;
        var scope, released := RetryScope(env[i], now, ticket, failure, random, host);
        if released == 0 {
          written := WriteIfChanged(env, changed, access);
        } else {
          env := env[i := scope];
          written := WriteEnvelope(env, access);
          answer := Some(RetryState(released, scope.failureCount, scope.retryAt, scope.batchLimit));
        }
      }
      r := match written case Ok(_) => Ok(answer) case Err(x) => Err(x);
      claims := claims[ticket := if r.Ok? then Settled else Active];
    }

    method Inspect(now: nat, key: Key, access: Access) returns (r: Result<Status, QueueError>)
      requires Valid()
      modifies `stored
      ensures Valid() && (old(Readable()) ==> Readable())
      ensures if old(Readable())
              then Through(old(stored), InspectStep(old(stored), now, key, lim), Touched(old(stored), now, lim), access) == Step(stored, r)
              else Unread(access, old(stored), r)
    {
      hide Clean, WellFormed, DistinctKeys;
      if Readable() {
        InspectKeeps(stored, now, key, lim);
      }
      var loaded, changed := Load(now, access);
      if loaded.Err? {
        return Err(loaded.error);
      }
      var env := loaded.value;
      var written := WriteIfChanged(env, changed, access);
      if written.Err? {
        return Err(written.error);
      }
      var found := Find(env, key);
      if found.None? {
        return Ok(Status(0, 0, None, lim.maxBatchEvents));
      }
      var scope := env[found.value];
      return Ok(Status(|scope.events|, |Leased(scope.events)|, if scope.retryAt > now then Some(scope.retryAt) else None, scope.batchLimit));
    }

    method DiscardScope(key: Key, access: Access) returns (r: Result<nat, QueueError>)
      requires Valid()
      modifies `stored
      ensures Valid() && (old(Readable()) ==> Readable())
      ensures var s := DiscardStep(old(stored), key, lim);
              if old(Readable()) then Through(old(stored), s, DiscardWrites(s), access) == Step(stored, r)
              else Unread(access, old(stored), r)
    {
      hide WellFormed, DistinctKeys;
      if Readable() {
        DiscardKeeps(stored, key, lim);
      }
      var loaded := ReadEnvelope(access);
      if loaded.Err? {
        return Err(loaded.error);
      }
      var found := Find(loaded.value, key);
      var removed := if found.None? then 0 else |loaded.value[found.value].events|;
      if removed > 0 {
        var written := WriteEnvelope(WithoutScope(loaded.value, found.value), access);
        if written.Err? {
          return Err(written.error);
        }
      }
      return Ok(removed);
    }
  }
}
