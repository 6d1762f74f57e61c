/** The durable at-least-once queue of client events: what each operation does to the stored record. */
module ClientEventSteps {
  import opened Numbers
  import opened Sequences
  import opened RetryPolicy
  import opened ClientEventEnvelope
  import opened StoreModel

  datatype QueueError = CapacityReached | LimitReached | InvalidClaim | Unreadable | StoreFailed

  /** What the store does during one operation: the read works or throws, and so the write, in its own way. */
  datatype Access = Access(readable: bool, write: StoreOutcome)

  datatype QueuedEvent = QueuedEvent(id: Id, event: ClientEvent, enqueuedAt: nat)

  datatype Ticket = Ticket(key: Key, token: Id, claimedAt: nat, entries: seq<QueuedEvent>)

  datatype ClaimAnswer = Empty | Deferred(retryAt: nat) | Busy(retryAt: nat) | Claimed(ticket: Ticket)

  datatype RetryState = RetryState(released: nat, failureCount: nat, retryAt: nat, batchLimit: nat)

  datatype Status = Status(queued: nat, claimed: nat, retryAt: Option<nat>, batchLimit: nat)

  /** A stored record and the answer of the operation that produced it. */
  datatype Step<T> = Step(stored: Envelope, answer: Result<T, QueueError>)

  /** A step as the store lets it happen; `writes` says whether it gets as far as writing. */
  function Through<T>(previous: Envelope, s: Step<T>, writes: bool, access: Access): Step<T> {
    if !access.readable then Step(previous, Err(StoreFailed))
    else if s.answer.Err? || !writes then s
    else Step(if access.write.commits then s.stored else previous, if access.write.throws then Err(StoreFailed) else s.answer)
  }

  /** Did the step take effect on the store, whatever was reported about it? */
  predicate Lands<T>(s: Step<T>, writes: bool, access: Access) {
    access.readable && s.answer.Ok? && (!writes || access.write.commits)
  }

  function Queued(e: StoredEvent): QueuedEvent {
    QueuedEvent(e.id, e.event, e.enqueuedAt)
  }

  function QueuedAll(events: seq<StoredEvent>): seq<QueuedEvent> {
    seq(|events|, i requires 0 <= i < |events| => Queued(events[i]))
  }

  function EntryIds(ticket: Ticket): set<Id> {
    set entry | entry in ticket.entries :: entry.id
  }

  function HasKey(key: Key): Scope -> bool {
    (s: Scope) => s.key == key
  }

  function Find(env: Envelope, key: Key): (i: Option<nat>)
    ensures i.Some? ==> i.value < |env| && env[i.value].key == key
    ensures i.None? ==> forall s :: s in env ==> s.key != key
  {
    IndexOf(env, HasKey(key))
  }

  function EventsIn(env: Envelope, key: Key): seq<StoredEvent> {
    var i := Find(env, key);
    if i.None? then [] else env[i.value].events
  }

  /** Is this event held by this claim? */
  function Held(ticket: Ticket): StoredEvent -> bool {
    (e: StoredEvent) => e.id in EntryIds(ticket) && e.lease.Some? && e.lease.value.token == ticket.token
  }

  function NotHeld(ticket: Ticket): StoredEvent -> bool {
    (e: StoredEvent) => !(e.id in EntryIds(ticket) && e.lease.Some? && e.lease.value.token == ticket.token)
  }

  function Released(ticket: Ticket, events: seq<StoredEvent>): (r: seq<StoredEvent>)
    ensures |r| == |events|
    ensures forall i :: 0 <= i < |events| ==> r[i] == if Held(ticket)(events[i]) then events[i].(lease := None) else events[i]
  {
    seq(|events|, i requires 0 <= i < |events| =>
      if Held(ticket)(events[i]) then events[i].(lease := None) else events[i])
  }

  function Granted(events: seq<StoredEvent>, ids: set<Id>, lease: Lease): (r: seq<StoredEvent>)
    ensures |r| == |events|
    ensures forall i :: 0 <= i < |events| ==> r[i] == if events[i].id in ids then events[i].(lease := Some(lease)) else events[i]
  {
    seq(|events|, i requires 0 <= i < |events| =>
      if events[i].id in ids then events[i].(lease := Some(lease)) else events[i])
  }

  /** How many events from the front fit in one batch. */
  function SelectCount(events: seq<StoredEvent>, limit: nat, maxBytes: nat, n: nat): (r: nat)
    requires n <= |events|
    ensures n <= r <= |events|
    ensures n <= limit ==> r <= limit
    ensures n < r ==> BatchBytes(events[..r]) <= maxBytes
    ensures r < |events| && r < limit ==> BatchBytes(events[..r + 1]) > maxBytes
    decreases |events| - n
  {
    if n < |events| && n < limit && BatchBytes(events[..n + 1]) <= maxBytes
    then SelectCount(events, limit, maxBytes, n + 1)
    else n
  }

  function EarliestExpiry(leased: seq<StoredEvent>, now: nat, ttl: nat): nat
    requires leased != []
  {
    var own := SafeAdd(if leased[0].lease.Some? then leased[0].lease.value.claimedAt else now, ttl);
    if |leased| == 1 then own else Min(own, EarliestExpiry(leased[1..], now, ttl))
  }

  /** Every id and every token among these events. */
  function UsedOf(flat: seq<Tagged>): set<Id> {
    (set x | x in flat :: x.e.id) + (set x | x in flat && x.e.lease.Some? :: x.e.lease.value.token)
  }

  function UsedIds(env: Envelope): set<Id> {
    UsedOf(Flat(env))
  }

  /** The first of at most 32 drawn ids that nothing stored carries. */
  function FreshId(candidates: seq<Id>, used: set<Id>): (id: Option<Id>)
    ensures id.Some? ==> id.value in candidates && id.value !in used
    ensures id.None? ==> forall c :: c in candidates ==> c in used
  {
    if candidates == [] then None
    else if candidates[0] !in used then Some(candidates[0])
    else
      assert candidates == [candidates[0]] + candidates[1..];
      FreshId(candidates[1..], used)
  }

  // ---------------------------------------------------------------------------------------------
  // The operations on the stored record
  // ---------------------------------------------------------------------------------------------

  predicate Fits(env: Envelope, lim: Limits) {
    |env| <= lim.maxScopes && CountEvents(env) <= lim.maxEvents && lim.storedBytes(env) <= lim.maxStoredBytes
  }

  /** A write either replaces the record or leaves it and fails. */
  function Write<T>(previous: Envelope, env: Envelope, value: T, lim: Limits): Step<T> {
    if Fits(env, lim) then Step(env, Ok(value))
    else Step(previous, Err(if |env| > lim.maxScopes || CountEvents(env) > lim.maxEvents then CapacityReached else LimitReached))
  }

  /** The scope of the key, created at the end when there is none. */
  function Opened(env: Envelope, key: Key, lim: Limits): (r: Envelope)
    ensures exists i :: 0 <= i < |r| && r[i].key == key
  {
    if Find(env, key).Some? then env
    else
      var r := env + [Scope(key, 0, 0, lim.maxBatchEvents, [])];
      assert r[|env|].key == key;
      r
  }

  function Appended(env: Envelope, key: Key, e: StoredEvent): Envelope {
    match Find(env, key)
    case None => env
    case Some(i) => env[i := env[i].(events := env[i].events + [e])]
  }

  function EnqueueStep(stored: Envelope, now: nat, key: Key, event: ClientEvent, candidates: seq<Id>, lim: Limits): Step<QueuedEvent> {
    var c := Clean(stored, now, lim);
    if Find(c, key).None? && |c| >= lim.maxScopes then Step(stored, Err(CapacityReached))
    else
      var grown := Opened(c, key, lim);
      if CountEvents(grown) >= lim.maxEvents then Step(stored, Err(CapacityReached))
      else match FreshId(candidates, UsedIds(grown))
        case None => Step(stored, Err(LimitReached))
        case Some(id) =>
          var e := StoredEvent(id, event, now, None);
          Write(stored, Appended(grown, key, e), Queued(e), lim)
  }

  function ClaimStep(stored: Envelope, now: nat, key: Key, candidates: seq<Id>, lim: Limits): Step<ClaimAnswer> {
    var c := Clean(stored, now, lim);
    match Find(c, key)
    case None => Write(stored, c, Empty, lim)
    case Some(i) =>
      var s := c[i];
      if s.retryAt > now then Write(stored, c, Deferred(s.retryAt), lim)
      else
        var leased := Leased(s.events);
        if leased != [] then Write(stored, c, Busy(EarliestExpiry(leased, now, lim.claimTtl)), lim)
        else
          var n := SelectCount(s.events, Min(s.batchLimit, lim.maxBatchEvents), lim.maxBatchBytes, 0);
          if n == 0 then Step(stored, Err(LimitReached))
          else match FreshId(candidates, UsedIds(c))
            case None => Step(stored, Err(LimitReached))
            case Some(token) =>
              var ticket := Ticket(key, token, now, QueuedAll(s.events[..n]));
              Write(stored, c[i := s.(events := Granted(s.events, EntryIds(ticket), Lease(token, now)))], Claimed(ticket), lim)
  }

  function WithoutScope(env: Envelope, i: nat): Envelope
    requires i < |env|
  {
    env[..i] + env[i + 1..]
  }

  /** The scope after its held events are deleted; deleting any clears the retry state. */
  function Acknowledged(s: Scope, ticket: Ticket): Scope {
    var kept := Filter(s.events, NotHeld(ticket));
    if |kept| < |s.events| then s.(events := kept, failureCount := 0, retryAt := 0) else s
  }

  function AcknowledgeStep(stored: Envelope, now: nat, ticket: Ticket, lim: Limits): Step<nat> {
    var c := Clean(stored, now, lim);
    match Find(c, ticket.key)
    case None => Write(stored, c, 0, lim)
    case Some(i) =>
      var s := Acknowledged(c[i], ticket);
      Write(stored, if s.events == [] then WithoutScope(c, i) else c[i := s], |c[i].events| - |s.events|, lim)
  }

  /** The scope after its held events are released and the next attempt is scheduled. */
  function Retried(s: Scope, ticket: Ticket, now: nat, failure: SendFailure, random: real, host: Host): Scope {
    var failures := Min(MAX_FAILURE_COUNT, s.failureCount + 1);
    Scope(s.key, failures, RetryAt(now, failures, random, failure, host),
          NextBatchLimit(s.batchLimit, |ticket.entries|, failure), Released(ticket, s.events))
  }

  function ReleaseStep(stored: Envelope, now: nat, ticket: Ticket, failure: SendFailure, random: real, host: Host, lim: Limits): Step<Option<RetryState>> {
    var c := Clean(stored, now, lim);
    match Find(c, ticket.key)
    case None => Write(stored, c, None, lim)
    case Some(i) =>
      var held := |Filter(c[i].events, Held(ticket))|;
      if held == 0 then Write(stored, c, None, lim)
      else
        var s := Retried(c[i], ticket, now, failure, random, host);
        Write(stored, c[i := s], Some(RetryState(held, s.failureCount, s.retryAt, s.batchLimit)), lim)
  }

  function InspectStep(stored: Envelope, now: nat, key: Key, lim: Limits): Step<Status> {
    var c := Clean(stored, now, lim);
    match Find(c, key)
    case None => Write(stored, c, Status(0, 0, None, lim.maxBatchEvents), lim)
    case Some(i) =>
      Write(stored, c, Status(|c[i].events|, |Leased(c[i].events)|,
                              if c[i].retryAt > now then Some(c[i].retryAt) else None, c[i].batchLimit), lim)
  }

  function DiscardStep(stored: Envelope, key: Key, lim: Limits): Step<nat> {
    match Find(stored, key)
    case None => Step(stored, Ok(0))
    case Some(i) =>
      if stored[i].events == [] then Step(stored, Ok(0))
      else Write(stored, WithoutScope(stored, i), |stored[i].events|, lim)
  }

  // ---------------------------------------------------------------------------------------------
  // Which of them write
  // ---------------------------------------------------------------------------------------------

  /** Cleaning leaves something to write. */
  predicate Touched(stored: Envelope, now: nat, lim: Limits) {
    Clean(stored, now, lim) != stored
  }

  predicate ClaimWrites(stored: Envelope, now: nat, s: Step<ClaimAnswer>, lim: Limits) {
    Touched(stored, now, lim) || (s.answer.Ok? && s.answer.value.Claimed?)
  }

  predicate AcknowledgeWrites(stored: Envelope, now: nat, s: Step<nat>, lim: Limits) {
    Touched(stored, now, lim) || (s.answer.Ok? && s.answer.value > 0)
  }

  predicate ReleaseWrites(stored: Envelope, now: nat, s: Step<Option<RetryState>>, lim: Limits) {
    Touched(stored, now, lim) || (s.answer.Ok? && s.answer.value.Some?)
  }

  predicate DiscardWrites(s: Step<nat>) {
    s.answer.Ok? && s.answer.value > 0
  }
}
