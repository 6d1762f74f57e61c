/**
 Moving file bytes over a port: an upload assembled chunk by chunk in a buffer of the announced size, a
 download sent one acknowledged chunk at a time from a buffer that is wiped behind it, and the one slot
 that both share.
 */
module BinaryTransfer {
  import opened Numbers

  const MAX_CHUNK_BYTES: nat := 262144
  const MAX_TRANSFER_BYTES: nat := 134217728

  newtype byte = x: int | 0 <= x < 256

  // ---------------------------------------------------------------------------------------------
  // Chunks
  // ---------------------------------------------------------------------------------------------

  function Concat(chunks: seq<seq<byte>>): seq<byte> {
    if chunks == [] then [] else chunks[0] + Concat(chunks[1..])
  }

  /** The bytes cut into chunks of the largest size. */
  function Split(b: seq<byte>): seq<seq<byte>> {
    if b == [] then []
    else if |b| <= MAX_CHUNK_BYTES then [b]
    else [b[..MAX_CHUNK_BYTES]] + Split(b[MAX_CHUNK_BYTES..])
  }

  function CeilingOfChunks(size: nat): nat {
    (size + MAX_CHUNK_BYTES - 1) / MAX_CHUNK_BYTES
  }

  lemma {:induction false} ConcatLast(chunks: seq<seq<byte>>, c: seq<byte>)
    ensures Concat(chunks + [c]) == Concat(chunks) + c
  {
    if chunks == [] {
      assert [] + [c] == [c] && Concat([c][1..]) == [];
    } else {
      assert (chunks + [c])[1..] == chunks[1..] + [c];
      ConcatLast(chunks[1..], c);
    }
  }

  /** Cutting and joining give back the bytes, in the ceiling of size over chunk size pieces, none of them empty or too large. */
  lemma {:induction false} SplitIsExact(b: seq<byte>)
    ensures Concat(Split(b)) == b
    ensures |Split(b)| == CeilingOfChunks(|b|)
    ensures forall i :: 0 <= i < |Split(b)| ==> 0 < |Split(b)[i]| <= MAX_CHUNK_BYTES
    decreases |b|
  {
    if b != [] {
      if |b| <= MAX_CHUNK_BYTES {
        assert Concat([b]) == b + Concat([b][1..]);
      } else {
        var rest := b[MAX_CHUNK_BYTES..];
        SplitIsExact(rest);
        var r := Split(b);
        assert r == [b[..MAX_CHUNK_BYTES]] + Split(rest) && r[1..] == Split(rest);
        assert b[..MAX_CHUNK_BYTES] + rest == b;
        assert |b| + MAX_CHUNK_BYTES - 1 == (|rest| + MAX_CHUNK_BYTES - 1) + MAX_CHUNK_BYTES;
      }
    }
  }

  lemma {:induction false} NothingToSplit()
    ensures Split([]) == []
  {
  }

  /** One more chunk taken off the front of what is left. */
  lemma {:induction false} SplitStep(b: seq<byte>, offset: nat)
    requires offset < |b|
    ensures var end := Min(offset + MAX_CHUNK_BYTES, |b|);
            Split(b[offset..]) == [b[offset..end]] + Split(b[end..])
  {
    var rest := b[offset..];
    if |rest| <= MAX_CHUNK_BYTES {
      assert rest == b[offset..|b|] && b[|b|..] == [];
    } else {
      assert rest[..MAX_CHUNK_BYTES] == b[offset..offset + MAX_CHUNK_BYTES];
      assert rest[MAX_CHUNK_BYTES..] == b[offset + MAX_CHUNK_BYTES..];
    }
  }

  /** What a receiver of a transfer of this size makes of the chunks: it refuses what does not fit. */
  function Receive(size: nat, got: seq<byte>, chunks: seq<seq<byte>>): Option<seq<byte>>
    decreases |chunks|
  {
    if chunks == [] then (if |got| == size then Some(got) else None)
    else if |got| + |chunks[0]| > size then None
    else Receive(size, got + chunks[0], chunks[1..])
  }

  /** A receiver ends up with exactly the concatenation, if and only if its length is the announced size. */
  lemma {:induction false} ReceiveExact(size: nat, got: seq<byte>, chunks: seq<seq<byte>>)
    requires |got| <= size
    ensures Receive(size, got, chunks) == if |got + Concat(chunks)| == size then Some(got + Concat(chunks)) else None
    decreases |chunks|
  {
    if chunks == [] {
      assert got + [] == got;
    } else if |got| + |chunks[0]| <= size {
      ReceiveExact(size, got + chunks[0], chunks[1..]);
      assert (got + chunks[0]) + Concat(chunks[1..]) == got + Concat(chunks);
    }
  }

  /** A download fed to a receiver arrives whole. */
  lemma {:induction false} DownloadArrives(b: seq<byte>)
    ensures Receive(|b|, [], Split(b)) == Some(b)
  {
    SplitIsExact(b);
    ReceiveExact(|b|, [], Split(b));
    assert [] + b == b;
  }

  // ---------------------------------------------------------------------------------------------
  // One transfer
  // ---------------------------------------------------------------------------------------------

  datatype Request = Upload(expectedBytes: nat) | Download

  datatype Code = Failed | InvalidState | InvalidSequence | SizeMismatch | AckRequired | Cancelled | Timeout | CommittedUnsynced

  /** What the port and the authorities allow for one downloaded chunk. */
  datatype ChunkOutcome = ChunkOutcome(current: bool, posts: bool, acknowledged: bool)

  predicate AllZero(buffer: array<byte>)
    reads buffer
  {
    forall i :: 0 <= i < buffer.Length ==> buffer[i] == 0
  }

  lemma {:induction false} SliceAgrees(a: seq<byte>, b: seq<byte>, from: nat, end: nat)
    requires from <= end <= |a| == |b| && a[from..] == b[from..]
    ensures a[from..end] == b[from..end] && a[end..] == b[end..]
  {
    assert a[from..end] == a[from..][..end - from] && b[from..end] == b[from..][..end - from];
    assert a[end..] == a[from..][end - from..] && b[end..] == b[from..][end - from..];
  }

  class Transfer {
    var active: bool
    var busy: bool
    var executing: bool
    var committed: bool
    var request: Option<Request>
    var bytes: array?<byte>
    var offset: nat
    var sequence: nat
    var pendingAck: Option<nat>
    var reported: seq<Code>
    ghost var accepted: seq<seq<byte>>

    constructor ()
      ensures active && !busy && !executing && !committed && request == None && bytes == null
      ensures offset == 0 && sequence == 0 && pendingAck == None && reported == [] && accepted == []
    {
      active, busy, executing, committed := true, false, false, false;
      request, bytes, offset, sequence, pendingAck, reported, accepted := None, null, 0, 0, None, [], [];
    }

    /** The buffer holds the accepted chunks, in order, from the start. */
    ghost predicate Assembled()
      reads this, bytes
    {
      && bytes != null && sequence == |accepted|
      && offset == |Concat(accepted)| <= bytes.Length
      && bytes[..offset] == Concat(accepted)
    }

    /** Overwrite the whole buffer. */
    method Wipe(buffer: array<byte>)
      modifies buffer
      ensures AllZero(buffer)
    {
      for i := 0 to buffer.Length
        invariant forall j :: 0 <= j < i ==> buffer[j] == 0
      {
        buffer[i] := 0;
      }
    }

    /** The port is gone: wipe what was staged and forget the request. */
    method Close()
      modifies this, bytes
      ensures old(active) ==> !active && bytes == null && request == None && pendingAck == None
      ensures old(active) && old(bytes) != null ==> AllZero(old(bytes))
      ensures executing == old(executing) && committed == old(committed) && reported == old(reported) && busy == old(busy)
      ensures !old(active) ==> active == old(active) && bytes == old(bytes) && request == old(request) && pendingAck == old(pendingAck)
      ensures accepted == old(accepted) && offset == old(offset) && sequence == old(sequence)
    {
      if !active {
        return;
      }
      active := false;
      var staged := bytes;
      if staged != null {
        Wipe(staged);
      }
      bytes, request, pendingAck := null, None, None;
    }

    /** Report once, then close; after a commit the only report is that the result is unconfirmed. */
    method Fail(code: Code)
      modifies this, bytes
      ensures old(active) ==> !active && bytes == null && reported == old(reported) + [if old(committed) then CommittedUnsynced else code]
      ensures old(active) && old(bytes) != null ==> AllZero(old(bytes))
      ensures !old(active) ==> reported == old(reported) && !active
      ensures executing == old(executing) && committed == old(committed)
    {
      if !active {
        return;
      }
      reported := reported + [if committed then CommittedUnsynced else code];
      Close();
    }

    /** Announce an upload: an empty buffer of the expected size. A second announcement is refused and changes nothing. */
    method BeginUpload(expectedBytes: nat) returns (ok: bool)
      requires active && expectedBytes <= MAX_TRANSFER_BYTES
      requires request == None ==> accepted == [] && sequence == 0 && offset == 0
      modifies this
      ensures ok <==> old(request) == None
      ensures ok ==> Assembled() && bytes.Length == expectedBytes && fresh(bytes) && request == Some(Upload(expectedBytes))
      ensures ok ==> accepted == []
      ensures !ok ==> bytes == old(bytes) && request == old(request) && accepted == old(accepted)
      ensures offset == old(offset) && sequence == old(sequence) && active && reported == old(reported)
    {
      if request.Some? {
        return false;
      }
      request := Some(Upload(expectedBytes));
      bytes := new byte[expectedBytes];
      return true;
    }

    /** Take one chunk: only the next one, and only if it still fits. */
    method AcceptChunk(number: nat, data: seq<byte>) returns (ok: bool)
      requires Assembled() && 0 < |data| <= MAX_CHUNK_BYTES
      modifies this, bytes
      ensures bytes == old(bytes) && Assembled()
      ensures ok <==> number == old(sequence) && old(offset) + |data| <= bytes.Length
      ensures accepted == if ok then old(accepted) + [data] else old(accepted)
    {
      if number != sequence || offset + |data| > bytes.Length {
        return false;
      }
      ghost var before := bytes[..offset];
      for i := 0 to |data|
        invariant bytes == old(bytes) && offset == old(offset) && sequence == old(sequence) && accepted == old(accepted)
        invariant bytes[..offset] == before
        invariant bytes[offset..offset + i] == data[..i]
      {
        bytes[offset + i] := data[i];
        assert bytes[offset..offset + i + 1] == bytes[offset..offset + i] + [data[i]];
      }
      ConcatLast(accepted, data);
      assert bytes[..offset + |data|] == bytes[..offset] + bytes[offset..offset + |data|];
      offset := offset + |data|;
      sequence := sequence + 1;
      accepted := accepted + [data];
      return true;
    }

    /** Seal an upload: what the operation is given is the concatenation of the accepted chunks, all of it. */
    method Seal() returns (ok: bool)
      requires Assembled()
      ensures ok <==> |Concat(accepted)| == bytes.Length
      ensures ok ==> bytes[..] == Concat(accepted)
    {
      ok := offset == bytes.Length;
      assert ok ==> bytes[..] == bytes[..offset];
    }

    /** Send a buffer chunk by chunk, each acknowledged and wiped before the next is read; wipe the rest whatever happens. */
    method SendDownload(buffer: array<byte>, outcomes: nat -> ChunkOutcome, doneAllowed: bool)
        returns (sent: seq<seq<byte>>, acknowledged: nat, done: Option<nat>)
      modifies this`pendingAck, buffer
      ensures AllZero(buffer)
      ensures sent <= Split(old(buffer[..]))
      ensures acknowledged <= |sent| <= acknowledged + 1
      ensures done.Some? ==> sent == Split(old(buffer[..])) && Concat(sent) == old(buffer[..])
                             && done.value == CeilingOfChunks(buffer.Length) == acknowledged && pendingAck == None
      ensures doneAllowed && (forall n: nat :: outcomes(n) == ChunkOutcome(true, true, true)) ==> done.Some?
    {
      hide Split, Concat, CeilingOfChunks;
      sent, acknowledged, done := [], 0, None;
      ghost var original := buffer[..];
      SplitIsExact(original);
      pendingAck := None;
      var position, stopped := 0, false;
      assert original[position..] == original;
      while position < buffer.Length && !stopped
        invariant 0 <= position <= buffer.Length
        invariant sent <= Split(original) && acknowledged <= |sent| <= acknowledged + 1
        invariant !stopped ==> acknowledged == |sent| && pendingAck == None
        invariant !stopped ==> Split(original) == sent + Split(original[position..])
        invariant !stopped ==> buffer[position..] == original[position..]
        invariant !stopped ==> forall i :: 0 <= i < position ==> buffer[i] == 0
        invariant stopped ==> exists n: nat :: outcomes(n) != ChunkOutcome(true, true, true)
        decreases buffer.Length - position, !stopped
      {
        var outcome := outcomes(acknowledged);
        var end := Min(position + MAX_CHUNK_BYTES, buffer.Length);
        SplitStep(original, position);
        var chunk := buffer[position..end];
        assert buffer[..][position..] == buffer[position..] && chunk == buffer[..][position..end];
        SliceAgrees(buffer[..], original, position, end);
        assert sent + ([chunk] + Split(original[end..])) == (sent + [chunk]) + Split(original[end..]);
        stopped := true;
        if outcome.current {
          pendingAck := Some(acknowledged);
          if outcome.posts {
            sent := sent + [chunk];
            if outcome.acknowledged {
              pendingAck := None;
              acknowledged := acknowledged + 1;
              assert buffer[end..] == buffer[..][end..];
              WipeChunk(buffer, position, end);
              position := end;
              stopped := false;
            }
          }
        }
      }
      if !stopped && doneAllowed {
        assert original[position..] == [];
        NothingToSplit();
        assert sent + [] == sent;
        done := Some(acknowledged);
      }
      Wipe(buffer);
    }

    /** Overwrite one chunk in place. */
    method WipeChunk(buffer: array<byte>, start: nat, end: nat)
      requires start <= end <= buffer.Length
      requires forall i :: 0 <= i < start ==> buffer[i] == 0
      modifies buffer
      ensures forall i :: 0 <= i < end ==> buffer[i] == 0
      ensures buffer[end..] == old(buffer[end..])
    {
      for i := start to end
        invariant forall j :: 0 <= j < i ==> buffer[j] == 0
        invariant forall j :: end <= j < buffer.Length ==> buffer[j] == old(buffer[j])
      {
        buffer[i] := 0;
      }
    }
  }

  // ---------------------------------------------------------------------------------------------
  // The slot
  // ---------------------------------------------------------------------------------------------

  /** Every transfer that was ever admitted, and the set that occupies the memory slot. */
  datatype Flags = Flags(connected: bool, executing: bool)

  datatype Slot = Slot(transfers: map<nat, Flags>, occupied: set<nat>)

  datatype SlotEvent = Connect(id: nat) | StartExecuting(id: nat) | Disconnect(id: nat) | OperationSettled(id: nat)

  function SlotStep(s: Slot, e: SlotEvent): Slot {
    match e
    case Connect(id) =>
      if |s.occupied| >= 1 || id in s.transfers then s
      else Slot(s.transfers[id := Flags(true, false)], s.occupied + {id})
    case StartExecuting(id) =>
      if id in s.transfers && s.transfers[id].connected then s.(transfers := s.transfers[id := s.transfers[id].(executing := true)]) else s
    case Disconnect(id) =>
      if id !in s.transfers || !s.transfers[id].connected then s
      else Slot(s.transfers[id := s.transfers[id].(connected := false)], if s.transfers[id].executing then s.occupied else s.occupied - {id})
    case OperationSettled(id) =>
      if id !in s.transfers || !s.transfers[id].executing then s
      else Slot(s.transfers[id := s.transfers[id].(executing := false)], if s.transfers[id].connected then s.occupied else s.occupied - {id})
  }

  function SlotRun(s: Slot, events: seq<SlotEvent>): Slot
    decreases |events|
  {
    if events == [] then s else SlotRun(SlotStep(s, events[0]), events[1..])
  }

  /** Its port is open, or its operation is still running. */
  predicate Occupies(s: Slot, id: nat) {
    id in s.transfers && (s.transfers[id].connected || s.transfers[id].executing)
  }

  /** The slot is held exactly by the transfers whose port is open or whose operation is running, and by at most one. */
  ghost predicate SlotHeld(s: Slot) {
    && |s.occupied| <= 1
    && (forall id :: id in s.occupied <==> Occupies(s, id))
  }

  lemma {:induction false} SlotStepKeeps(s: Slot, e: SlotEvent)
    requires SlotHeld(s)
    ensures SlotHeld(SlotStep(s, e))
  {
    if e.Connect? && |s.occupied| < 1 {
      assert s.occupied == {};
    } else if (e.Disconnect? || e.OperationSettled?) && s.occupied - {e.id} != s.occupied {
      assert |s.occupied - {e.id}| <= |s.occupied|;
    }
  }

  /** Over any run: never two transfers at once, counting one whose port closed while its operation still runs. */
  lemma {:induction false} OneTransferAtATime(events: seq<SlotEvent>, s: Slot, a: nat, b: nat)
    requires SlotHeld(s)
    ensures var t := SlotRun(s, events);
            && SlotHeld(t)
            && (Occupies(t, a) && Occupies(t, b) ==> a == b)
    decreases |events|
  {
    hide SlotStep;
    if events == [] {
      if a in s.occupied && b in s.occupied && a != b {
        assert {a, b} <= s.occupied;
        SubsetSize({a, b}, s.occupied);
      }
    } else {
      SlotStepKeeps(s, events[0]);
      OneTransferAtATime(events[1..], SlotStep(s, events[0]), a, b);
    }
  }

  lemma {:induction false} SubsetSize(a: set<nat>, b: set<nat>)
    requires a <= b
    ensures |a| <= |b|
  {
    assert b == a + (b - a);
  }

  class BinaryTransferPortHandler {
    var active: set<Transfer>

    constructor ()
      ensures Valid() && active == {}
    {
      active := {};
    }

    /** At most one transfer, and each still open or still executing. */
    ghost predicate Valid()
      reads this, active
    {
      |active| <= 1 && forall t :: t in active ==> t.active || t.executing
    }

    method Handle() returns (accepted: Transfer?)
      requires Valid()
      modifies this
      ensures Valid()
      ensures accepted == null <==> old(active) != {}
      ensures accepted == null ==> active == old(active)
      ensures accepted != null ==> fresh(accepted) && active == {accepted} && accepted.active && !accepted.executing
    {
      if |active| >= 1 {
        return null;
      }
      assert active == {};
      accepted := new Transfer();
      active := {accepted};
    }

    /** A closed port gives up the slot only when no operation is running. */
    method Close(t: Transfer)
      requires Valid() && t in active
      modifies this, t, t.bytes
      ensures Valid() && !t.active && t.executing == old(t.executing)
      ensures active == if old(t.executing) || !old(t.active) then old(active) else old(active) - {t}
    {
      var wasOpen := t.active;
      t.Close();
      if wasOpen && !t.executing {
        assert |active - {t}| <= |active|;
        active := active - {t};
      }
    }

    /** The running operation has settled: a transfer whose port is gone gives up the slot now. */
    method FinishExecution(t: Transfer)
      requires Valid() && t in active && t.executing
      modifies this, t`executing
      ensures Valid() && !t.executing && t.active == old(t.active)
      ensures active == if t.active then old(active) else old(active) - {t}
    {
      t.executing := false;
      if !t.active {
        assert |active - {t}| <= |active|;
        active := active - {t};
      }
    }
  }
}
