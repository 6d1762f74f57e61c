/** The uploader: claim a batch, send it, settle the claim by what the server answered. */
module ClientEventUploader {
  import opened Numbers
  import opened Sequences
  import opened RetryPolicy
  import opened ClientEventEnvelope
  import opened ClientEventSteps
  import opened ClientEventInvariant
  import opened ClientEventQueue
  import opened ClientEventLedger
  import opened ClientEventRuns
  import opened ClientEventDelivery

  /** What became of the request: an answer, or an exception before any answer. */
  datatype Transport = Accepted | Refused(status: nat, retryAfter: Option<string>) | Threw

  datatype UploadResult =
    | Idle
    | UploadBusy(retryAt: nat)
    | UploadDeferred(retryAt: nat)
    | Uploaded(count: nat)
    | RetryScheduled(count: nat, retry: RetryState, status: Option<nat>)
    | Superseded(count: nat)

  function FailureOf(transport: Transport): SendFailure
    requires !transport.Accepted?
  {
    match transport
    case Refused(status, retryAfter) => Http(status, retryAfter)
    case Threw => Network
  }

  /** The settlement of a sent batch, as a step of the queue. */
  function SettleOp(ticket: Ticket, transport: Transport, now: nat, random: real, access: Access): Op {
    if transport.Accepted? then Acknowledge(now, ticket, access) else Release(now, ticket, FailureOf(transport), random, access)
  }

  /** The queue after the batch was sent and its claim settled. */
  function SettledQueue(q: Queue, ticket: Ticket, transport: Transport, now: nat, random: real, access: Access, w: World): Queue {
    if MaySettle(q.claims, ticket)
    then Apply(Apply(q, Begin(ticket), w), SettleOp(ticket, transport, now, random, access), w)
    else q
  }

  /** What the uploader reports about the batch. */
  function Report(q: Queue, ticket: Ticket, transport: Transport, now: nat, random: real, access: Access, w: World): Result<UploadResult, QueueError> {
    if !MaySettle(q.claims, ticket) then Err(InvalidClaim)
    else if transport.Accepted? then
      match Acknowledging(q, now, ticket, access, w).answer
      case Ok(removed) => Ok(Uploaded(removed))
      case Err(e) => Err(e)
    else
      match Releasing(q, now, ticket, FailureOf(transport), random, access, w).answer
      case Err(e) => Err(e)
      case Ok(None) => Ok(Superseded(|ticket.entries|))
      case Ok(Some(retry)) =>
        Ok(RetryScheduled(|ticket.entries|, retry, if transport.Refused? then Some(transport.status) else None))
  }

  /** The uploader never loses an event by itself: a batch the server did not accept leaves every event stored or aged. */
  lemma {:induction false} RefusedBatchStays(q: Queue, used: set<Id>, clock: nat, w: World, ticket: Ticket, transport: Transport, now: nat,
                                             random: real, access: Access, id: Id)
    requires Inv(q, used, clock, w) && !transport.Accepted?
    requires Present(q.stored, id) && !PresentAged(q.stored, id, now, w.lim)
    ensures Present(SettledQueue(q, ticket, transport, now, random, access, w).stored, id)
  {
    hide ReleaseStep, EventsIn, Readable, Registered, Prefixed;
    if MaySettle(q.claims, ticket) {
      var begun := Apply(q, Begin(ticket), w);
      InvSound(q, used, clock, w);
      Conservation(begun, SettleOp(ticket, transport, now, random, access), w, id);
    }
  }

  /** `superseded` is reported, and `uploaded` counts nothing, exactly when no stored event is held by the claim any more. */
  lemma {:induction false} SupersededMeansNothingHeld(q: Queue, ticket: Ticket, transport: Transport, now: nat, random: real, access: Access, w: World)
    requires DistinctKeys(q.stored) && MaySettle(q.claims, ticket)
    ensures var r := Report(q, ticket, transport, now, random, access, w);
            var held := Filter(CleanEvents(EventsIn(q.stored, ticket.key), now, w.lim), Held(ticket));
            r.Ok? ==> (if transport.Accepted? then r.value == Uploaded(|held|)
                       else r.value.Superseded? <==> held == [])
  {
    hide Clean, CleanEvents, EventsIn, CountEvents, Filter, Held, NotHeld, RetryAt, NextBatchLimit;
    var c := Clean(q.stored, now, w.lim);
    ViewClean(q.stored, now, w.lim, ticket.key);
    var f := Find(c, ticket.key);
    if f.Some? {
      ViewMember(c, f.value, ticket.key);
      HeldOrNot(c[f.value].events, ticket);
    } else {
      ViewNone(c, ticket.key);
      assert Filter([], Held(ticket)) == [] by { FilterAll([], Held(ticket)); }
    }
  }

  lemma {:induction false} HeldOrNot(events: seq<StoredEvent>, ticket: Ticket)
    ensures |Filter(events, Held(ticket))| + |Filter(events, NotHeld(ticket))| == |events|
  {
    hide EntryIds;
    if events != [] {
      HeldOrNot(events[1..], ticket);
    }
  }

  class ClientEventUploader {
    const queue: ClientEventQueue

    constructor (queue: ClientEventQueue)
      ensures this.queue == queue
    {
      this.queue := queue;
    }

    ghost function Snapshot(): Queue
      reads this, queue
    {
      Queue(queue.stored, queue.claims)
    }

    /** The part of a flush before the request: a batch to send, or the reason there is none. */
    method Start(now: nat, key: Key, candidates: seq<Id>, access: Access)
        returns (r: Result<UploadResult, QueueError>, ticket: Option<Ticket>)
      requires queue.Valid()
      requires now <= MAX_SAFE_INTEGER && |candidates| == MAX_ID_ATTEMPTS
      modifies queue
      ensures queue.Valid()
      ensures !old(queue.Readable()) ==>
                Snapshot() == old(Snapshot()) && ticket == None && r == Err(if access.readable then Unreadable else StoreFailed)
      ensures old(queue.Readable()) && InTime(ClaimStep(old(queue.stored), now, key, candidates, queue.lim), now) ==> queue.Readable()
      ensures old(queue.Readable()) ==>
                Snapshot() == Apply(old(Snapshot()), Claim(now, key, candidates, access), World(queue.lim, queue.host))
      ensures old(queue.Readable()) ==>
              var answer := Claiming(old(Snapshot()), now, key, candidates, access, World(queue.lim, queue.host)).answer;
              && (ticket.Some? <==> answer.Ok? && answer.value.Claimed?)
              && (ticket.Some? ==> ticket == Some(answer.value.ticket) && ticket.value in queue.claims)
              && (ticket.None? ==> r == match answer
                    case Ok(Empty) => Ok(Idle)
                    case Ok(Busy(at)) => Ok(UploadBusy(at))
                    case Ok(Deferred(at)) => Ok(UploadDeferred(at))
                    case Ok(Claimed(_)) => r
                    case Err(e) => Err(e))
    {
      hide ClaimStep, WellFormed, InTime;
      r, ticket := Ok(Idle), None;
      var claim := queue.Claim(now, key, candidates, access);
      match claim {
        case Err(e) => r := Err(e);
        case Ok(Empty) =>
        case Ok(Busy(at)) => r := Ok(UploadBusy(at));
        case Ok(Deferred(at)) => r := Ok(UploadDeferred(at));
        case Ok(Claimed(issued)) => ticket := Some(issued);
      }
    }

    /** The part of a flush after the request: acknowledge what was accepted, release what was not. */
    method Settle(ticket: Ticket, transport: Transport, now: nat, random: real, access: Access)
        returns (r: Result<UploadResult, QueueError>)
      requires queue.Valid() && Covers(queue.stored, ticket)
      requires now <= MAX_SAFE_INTEGER && 0.0 <= random < 1.0
      modifies queue
      ensures queue.Valid() && (old(queue.Readable()) ==> queue.Readable())
      ensures old(queue.Readable()) ==>
                && Snapshot() == SettledQueue(old(Snapshot()), ticket, transport, now, random, access, World(queue.lim, queue.host))
                && r == Report(old(Snapshot()), ticket, transport, now, random, access, World(queue.lim, queue.host))
      ensures !old(queue.Readable()) ==>
                && Snapshot() == old(Snapshot())
                && r == Err(if !MaySettle(old(queue.claims), ticket) then InvalidClaim
                            else if access.readable then Unreadable else StoreFailed)
    {
      hide AcknowledgeStep, ReleaseStep, WellFormed, Covers, Through, AcknowledgeWrites, ReleaseWrites, CountEvents;
      var begun := queue.BeginSettlement(ticket);
      if begun.Err? {
        return Err(begun.error);
      }
      if transport.Accepted? {
        var removed := queue.Acknowledge(now, ticket, access);
        return match removed case Ok(n) => Ok(Uploaded(n)) case Err(e) => Err(e);
      }
      var retry := queue.Release(now, ticket, FailureOf(transport), random, access);
      if retry.Err? {
        return Err(retry.error);
      }
      if retry.value.None? {
        return Ok(Superseded(|ticket.entries|));
      }
      return Ok(RetryScheduled(|ticket.entries|, retry.value.value, if transport.Refused? then Some(transport.status) else None));
    }
  }
}
