/**
 The directory from account identities to profile ids: a write that is read back and, when it must
 not stand, rolled back; and captures that are valid only while no mutation is pending.
 */
module ScopeDirectory {
  import opened Numbers
  import opened StoreModel

  type Identity = nat
  type AccountId = nat
  type Directory = map<Identity, AccountId>

  /** What the store holds under the directory's key. */
  datatype Raw = Absent | Record(entries: Directory) | Unparseable

  datatype Code = Capacity | Corrupt | Changed | PersistenceFailed | OutcomeUnknown | RollbackFailed | Guard | WriteError

  datatype Limits = Limits(maxEntries: nat, maxStoredBytes: nat, bytes: Directory -> nat)

  function Parse(raw: Raw, lim: Limits): Result<Directory, Code> {
    match raw
    case Absent => Ok(map[])
    case Unparseable => Err(Corrupt)
    case Record(d) => if |d| <= lim.maxEntries && lim.bytes(d) <= lim.maxStoredBytes then Ok(d) else Err(Corrupt)
  }

  /** Does the stored value say the same as the expected one? */
  predicate Matches(raw: Raw, expected: Option<Directory>, lim: Limits) {
    match expected
    case None => raw == Absent
    case Some(d) => Parse(raw, lim) == Ok(d)
  }

  function AsRaw(next: Option<Directory>): Raw {
    match next case None => Absent case Some(d) => Record(d)
  }

  /**
   What the surroundings do during one verified write: the guard's three answers, the outcomes of the
   two possible writes and three possible reads, and what an outsider may store in between.
   */
  datatype Surroundings = Surroundings(
    guardBefore: bool, guardAfter: bool, guardRead: bool,
    write: StoreOutcome, intrusion: Option<Raw>, readWorks: bool,
    secondIntrusion: Option<Raw>, secondReadWorks: bool,
    rollback: StoreOutcome, thirdIntrusion: Option<Raw>, thirdReadWorks: bool)

  predicate GuardHolds(s: Surroundings) {
    s.guardBefore && s.guardAfter && s.guardRead
  }

  predicate Undisturbed(s: Surroundings) {
    s.intrusion.None? && s.secondIntrusion.None? && s.thirdIntrusion.None?
  }

  predicate ReadsWork(s: Surroundings) {
    s.readWorks && s.secondReadWorks && s.thirdReadWorks
  }

  /** A directory that reading would accept. */
  predicate Storable(next: Option<Directory>, lim: Limits) {
    next.Some? ==> |next.value| <= lim.maxEntries && lim.bytes(next.value) <= lim.maxStoredBytes
  }

  /** The entries a mutation wants stored; None when the last one goes. */
  function WithEntry(d: Directory, id: Identity, account: AccountId): Option<Directory> {
    Some(d[id := account])
  }

  function WithoutEntry(d: Directory, id: Identity): Option<Directory> {
    if d - {id} == map[] then None else Some(d - {id})
  }

  /** A capture remembers the epoch in which it was taken. */
  datatype Capture = Capture(epoch: nat, id: Identity, account: AccountId)

  class ClientEventScopeDirectory {
    var stored: Raw
    var epoch: nat
    var pendingMutations: nat
    var unavailable: bool
    const lim: Limits

    constructor (lim: Limits, stored: Raw)
      ensures this.lim == lim && this.stored == stored
      ensures epoch == 0 && pendingMutations == 0 && !unavailable
    {
      this.lim, this.stored := lim, stored;
      epoch, pendingMutations, unavailable := 0, 0, false;
    }

    /** The machine of the interleaving theorems, seen from this object. */
    predicate Shows(m: Machine)
      reads this
    {
      m.stored == stored && m.epoch == epoch && m.pending == pendingMutations && m.unavailable == unavailable
    }

    /** A store operation that may commit without saying so, and an outsider who may follow it. */
    method StoreOperation(value: Raw, outcome: StoreOutcome, intrusion: Option<Raw>) returns (threw: bool)
      modifies `stored
      ensures threw == outcome.throws
      ensures stored == if intrusion.Some? then intrusion.value else if outcome.commits then value else old(stored)
    {
      if outcome.commits {
        stored := value;
      }
      if intrusion.Some? {
        stored := intrusion.value;
      }
      threw := outcome.throws;
    }

    /** Read back what was written; a read that fails makes the directory unavailable for good. */
    method ReadBackOrFail(works: bool) returns (r: Result<Raw, Code>)
      modifies `unavailable
      ensures r == if works then Ok(stored) else Err(OutcomeUnknown)
      ensures unavailable == (old(unavailable) || !works)
    {
      if !works {
        unavailable := true;
        return Err(OutcomeUnknown);
      }
      return Ok(stored);
    }

    /** Put the previous value back, unless something else is stored by now. */
    method RestoreOwned(previousRaw: Raw, previous: Option<Directory>, written: Option<Directory>, s: Surroundings)
        returns (r: Result<(), Code>)
      requires Matches(previousRaw, previous, lim)
      modifies `stored, `unavailable
      ensures r.Err? ==> unavailable
      ensures r.Ok? ==> unavailable == old(unavailable) && Matches(stored, previous, lim)
      ensures Undisturbed(s) && ReadsWork(s) && s.rollback.commits && Matches(old(stored), written, lim) ==> r.Ok?
    {
      if s.secondIntrusion.Some? {
        stored := s.secondIntrusion.value;
      }
      var before := ReadBackOrFail(s.secondReadWorks);
      if before.Err? {
        return Err(before.error);
      }
      if Matches(before.value, previous, lim) {
        return Ok(());
      }
      if !Matches(before.value, written, lim) {
        unavailable := true;
        return Err(OutcomeUnknown);
      }
      var threw := StoreOperation(if previousRaw == Absent then Absent else previousRaw, s.rollback, s.thirdIntrusion);
      var after := ReadBackOrFail(s.thirdReadWorks);
      if after.Err? {
        return Err(after.error);
      }
      if Matches(after.value, previous, lim) {
        return Ok(());
      }
      unavailable := true;
      return Err(RollbackFailed);
    }

    /**
     The verified write. A normal return means the new directory is stored and the guard held before,
     after and once more after reading back. A failure means the old directory is stored, or the
     directory has become unavailable for good.
     */
    method ReplaceVerified(next: Option<Directory>, previousRaw: Raw, previous: Directory, s: Surroundings)
        returns (r: Result<(), Code>)
      requires stored == previousRaw && Parse(previousRaw, lim) == Ok(previous) && !unavailable
      modifies `stored, `unavailable
      ensures r.Ok? ==> Matches(stored, next, lim) && GuardHolds(s) && !unavailable
      ensures r.Err? && !unavailable ==> Parse(stored, lim) == Ok(previous)
      ensures r.Ok? && s.intrusion.None? && !s.write.commits ==> Matches(previousRaw, next, lim)
      ensures next.Some? && lim.bytes(next.value) > lim.maxStoredBytes ==> r == Err(Capacity) && stored == previousRaw && !unavailable
      ensures !s.guardBefore ==> r.Err? && stored == previousRaw && !unavailable
      ensures Storable(next, lim) && GuardHolds(s) && Undisturbed(s) && ReadsWork(s) && s.write.commits ==> r.Ok?
      ensures Storable(next, lim) && Undisturbed(s) && ReadsWork(s) && (s.rollback.commits || GuardHolds(s)) ==> !unavailable
    {
      if next.Some? && lim.bytes(next.value) > lim.maxStoredBytes {
        return Err(Capacity);
      }
      if !s.guardBefore {
        return Err(Guard);
      }
      var writeThrew := StoreOperation(AsRaw(next), s.write, s.intrusion);
      var guardFailed := !s.guardAfter;
      var observed := ReadBackOrFail(s.readWorks);
      if observed.Err? {
        return Err(observed.error);
      }
      if !guardFailed {
        guardFailed := !s.guardRead;
      }
      var matchesNext := Matches(observed.value, next, lim);
      var previousExpected := if previousRaw == Absent then None else Some(previous);
      if matchesNext && !guardFailed {
        return Ok(());
      }
      if matchesNext {
        var restored := RestoreOwned(previousRaw, previousExpected, next, s);
        return if restored.Err? then Err(restored.error) else Err(Guard);
      }
      if Matches(observed.value, previousExpected, lim) {
        return Err(if guardFailed then Guard else if writeThrew then WriteError else PersistenceFailed);
      }
      unavailable := true;
      return Err(OutcomeUnknown);
    }

    /** Read for a mutation: refused once the directory is unavailable or cannot be parsed. */
    method ReadState(works: bool) returns (r: Result<Directory, Code>)
      ensures r == if unavailable then Err(RollbackFailed) else if !works then Err(WriteError) else Parse(stored, lim)
    {
      if unavailable {
        return Err(RollbackFailed);
      }
      if !works {
        return Err(WriteError);
      }
      return Parse(stored, lim);
    }

    /** The lane's part of an upsert. */
    method Upsert(id: Identity, account: AccountId, works: bool, s: Surroundings) returns (r: Result<(), Code>)
      modifies `stored, `unavailable
      ensures r.Ok? ==> Parse(old(stored), lim).Ok? && Parse(stored, lim) == Ok(Parse(old(stored), lim).value[id := account])
                        && GuardHolds(s) && !unavailable
      ensures r.Err? && !unavailable ==> Parse(stored, lim) == Parse(old(stored), lim)
      ensures old(unavailable) ==> r.Err? && stored == old(stored)
      ensures !old(unavailable) && works && Parse(old(stored), lim).Ok? && GuardHolds(s) && Undisturbed(s) && ReadsWork(s)
              ==> (s.write.commits && Storable(WithEntry(Parse(old(stored), lim).value, id, account), lim) ==> r.Ok?)
    {
      var current := ReadState(works);
      if current.Err? {
        return Err(current.error);
      }
      var directory := current.value;
      if id !in directory && |directory| >= lim.maxEntries {
        assert |directory[id := account]| == |directory| + 1 by { InsertGrows(directory, id, account); }
        return Err(Capacity);
      }
      r := ReplaceVerified(WithEntry(directory, id, account), stored, directory, s);
    }

    /** The lane's part of a removal; nothing happens when the identity is bound to another account. */
    method Remove(id: Identity, expected: Option<AccountId>, works: bool, s: Surroundings) returns (r: Result<Option<AccountId>, Code>)
      modifies `stored, `unavailable
      ensures r.Ok? ==>
        && Parse(old(stored), lim).Ok?
        && var d := Parse(old(stored), lim).value;
           if id in d && (expected.None? || d[id] == expected.value)
           then r.value == Some(d[id]) && Parse(stored, lim) == Ok(d - {id})
           else r.value == None && stored == old(stored)
      ensures r.Err? && !unavailable ==> Parse(stored, lim) == Parse(old(stored), lim)
      ensures old(unavailable) ==> r.Err? && stored == old(stored)
    {
      var current := ReadState(works);
      if current.Err? {
        return Err(current.error);
      }
      var directory := current.value;
      if id !in directory || (expected.Some? && directory[id] != expected.value) {
        return Ok(None);
      }
      var replaced := ReplaceVerified(WithoutEntry(directory, id), stored, directory, s);
      return match replaced case Ok(_) => Ok(Some(directory[id])) case Err(e) => Err(e);
    }

    /** Called at once when a mutation is requested, before it waits for its turn. */
    method BeginMutation(ghost m: Machine)
      requires Shows(m)
      modifies `epoch, `pendingMutations
      ensures Shows(Step(m, CallMutation, lim))
      ensures forall c :: c in m.captures && c.epoch <= m.epoch ==> !Accepts(pendingMutations, epoch, c)
    {
      epoch := epoch + 1;
      pendingMutations := pendingMutations + 1;
    }

    /** Called when the mutation has settled. */
    method EndMutation(ghost m: Machine)
      requires Shows(m) && Inv(m, lim) && m.unsettled > 0
      modifies `pendingMutations
      ensures Shows(Step(m, SettleMutation, lim))
    {
      pendingMutations := pendingMutations - 1;
    }

    /** The first half of a capture: up to the read. */
    method StartCapture(ghost m: Machine) returns (r: Result<nat, Code>)
      requires Shows(m) && m.lane != [] && m.lane[0].Reading? && m.reading.None?
      ensures Shows(Step(m, BeginReading, lim))
      ensures r.Ok? <==> Step(m, BeginReading, lim).reading == Some((m.lane[0].id, epoch))
      ensures r.Ok? ==> r.value == epoch
      ensures r.Err? ==> r.error == if unavailable then RollbackFailed else Changed
    {
      if unavailable {
        return Err(RollbackFailed);
      }
      if pendingMutations != 0 {
        return Err(Changed);
      }
      return Ok(epoch);
    }

    /** The second half: the value read counts only if nothing was requested meanwhile. */
    method FinishCapture(id: Identity, started: nat, works: bool, ghost m: Machine) returns (r: Result<Option<Capture>, Code>)
      requires Shows(m) && m.reading == Some((id, started))
      ensures Shows(Step(m, EndReading(works), lim))
      ensures Step(m, EndReading(works), lim).captures
              == m.captures + if r.Ok? && r.value.Some? then {r.value.value} else {}
      ensures r.Ok? ==> pendingMutations == 0 && started == epoch && !unavailable && Parse(stored, lim).Ok?
      ensures r.Ok? ==> r.value == (if id in Parse(stored, lim).value then Some(Capture(started, id, Parse(stored, lim).value[id])) else None)
      ensures !unavailable && works && Parse(stored, lim).Ok? && pendingMutations == 0 && started == epoch ==> r.Ok?
    {
      var current := ReadState(works);
      if current.Err? {
        return Err(current.error);
      }
      if pendingMutations != 0 || epoch != started {
        return Err(Changed);
      }
      if id !in current.value {
        return Ok(None);
      }
      return Ok(Some(Capture(started, id, current.value[id])));
    }

    /** Does the directory still say what the capture says? */
    method AssertCurrent(capture: Capture) returns (ok: bool)
      ensures ok <==> Accepts(pendingMutations, epoch, capture)
    {
      ok := !(pendingMutations != 0 || capture.epoch != epoch);
    }
  }

  lemma {:induction false} InsertGrows(d: Directory, id: Identity, account: AccountId)
    requires id !in d
    ensures |d[id := account]| == |d| + 1
  {
    assert d[id := account].Keys == d.Keys + {id};
  }

  // ---------------------------------------------------------------------------------------------
  // Captures against pending mutations
  // ---------------------------------------------------------------------------------------------

  predicate Accepts(pendingMutations: nat, epoch: nat, capture: Capture) {
    pendingMutations == 0 && capture.epoch == epoch
  }

  datatype Job = Mutation | Reading(id: Identity)

  /** The shared state, the lane of waiting jobs, and the captures handed out. */
  datatype Machine = Machine(
    stored: Raw, epoch: nat, pending: nat, unavailable: bool,
    lane: seq<Job>, reading: Option<(Identity, nat)>, unsettled: nat, captures: set<Capture>)

  /**
   A mutation counts as pending from its call until after its job has run; its job may leave anything
   stored. The lane runs one job at a time and a capture's job awaits its read.
   */
  datatype Event =
    | CallMutation
    | CallCapture(id: Identity)
    | RunMutation(result: Raw, unavailable: bool)
    | SettleMutation
    | BeginReading
    | EndReading(works: bool)

  function Step(m: Machine, e: Event, lim: Limits): Machine {
    match e
    case CallMutation => m.(epoch := m.epoch + 1, pending := m.pending + 1, lane := m.lane + [Mutation])
    case CallCapture(id) => m.(lane := m.lane + [Reading(id)])
    case RunMutation(result, unavailable) =>
      if m.lane != [] && m.lane[0].Mutation? && m.reading.None?
      then m.(stored := result, unavailable := unavailable, lane := m.lane[1..], unsettled := m.unsettled + 1)
      else m
    case SettleMutation =>
      if m.unsettled > 0 && m.pending > 0 then m.(unsettled := m.unsettled - 1, pending := m.pending - 1) else m
    case BeginReading =>
      if m.lane != [] && m.lane[0].Reading? && m.reading.None? then
        if m.unavailable || m.pending != 0 then m.(lane := m.lane[1..])
        else m.(lane := m.lane[1..], reading := Some((m.lane[0].id, m.epoch)))
      else m
    case EndReading(works) =>
      if m.reading.None? then m
      else
        var (id, started) := m.reading.value;
        var d := Parse(m.stored, lim);
        if works && d.Ok? && !m.unavailable && m.pending == 0 && m.epoch == started && id in d.value
        then m.(reading := None, captures := m.captures + {Capture(started, id, d.value[id])})
        else m.(reading := None)
  }

  function Run(m: Machine, events: seq<Event>, lim: Limits): Machine
    decreases |events|
  {
    if events == [] then m else Run(Step(m, events[0], lim), events[1..], lim)
  }

  function Mutations(lane: seq<Job>): nat {
    if lane == [] then 0 else (if lane[0].Mutation? then 1 else 0) + Mutations(lane[1..])
  }

  lemma {:induction false} MutationsConcat(a: seq<Job>, b: seq<Job>)
    ensures Mutations(a + b) == Mutations(a) + Mutations(b)
  {
    if a == [] {
      assert a + b == b;
    } else {
      assert (a + b)[1..] == a[1..] + b;
      MutationsConcat(a[1..], b);
    }
  }

  ghost predicate Current(m: Machine, c: Capture, lim: Limits) {
    var d := Parse(m.stored, lim);
    d.Ok? && c.id in d.value && d.value[c.id] == c.account
  }

  ghost predicate Inv(m: Machine, lim: Limits) {
    && m.pending == Mutations(m.lane) + m.unsettled
    && (forall c :: c in m.captures ==> c.epoch <= m.epoch)
    && (forall c :: c in m.captures && c.epoch == m.epoch ==> m.pending == 0 && Current(m, c, lim))
  }

  lemma {:induction false} StepKeepsInv(m: Machine, e: Event, lim: Limits)
    requires Inv(m, lim)
    ensures Inv(Step(m, e, lim), lim)
  {
    match e {
      case CallMutation => MutationsConcat(m.lane, [Mutation]);
      case CallCapture(id) => MutationsConcat(m.lane, [Reading(id)]);
      case RunMutation(_, _) =>
      case SettleMutation =>
      case BeginReading =>
      case EndReading(_) =>
    }
  }

  /**
   However calls, jobs and settlements interleave, whatever mutations leave behind: while a capture is
   accepted, what is stored for its identity is what was captured. A capture of the present epoch
   is always accepted, so the pending count only guards against what the epoch already shows.
   */
  lemma {:induction false} AcceptedIsCurrent(m: Machine, events: seq<Event>, lim: Limits)
    requires Inv(m, lim)
    ensures var n := Run(m, events, lim);
            && Inv(n, lim)
            && (forall c :: c in n.captures && Accepts(n.pending, n.epoch, c) ==> Current(n, c, lim))
            && (forall c :: c in n.captures ==> (Accepts(n.pending, n.epoch, c) <==> c.epoch == n.epoch))
    decreases |events|
  {
    if events != [] {
      StepKeepsInv(m, events[0], lim);
      AcceptedIsCurrent(Step(m, events[0], lim), events[1..], lim);
    }
  }

  /** A request for a mutation ends every capture at once, before the mutation has run. */
  lemma {:induction false} CallEndsCaptures(m: Machine, events: seq<Event>, lim: Limits, c: Capture)
    requires Inv(m, lim) && c in m.captures
    ensures var n := Run(Step(m, CallMutation, lim), events, lim); !Accepts(n.pending, n.epoch, c)
  {
    EpochGrows(Step(m, CallMutation, lim), events, lim);
  }

  lemma {:induction false} EpochGrows(m: Machine, events: seq<Event>, lim: Limits)
    ensures Run(m, events, lim).epoch >= m.epoch
    decreases |events|
  {
    if events != [] {
      EpochGrows(Step(m, events[0], lim), events[1..], lim);
    }
  }

  lemma {:induction false} FreshMachine(stored: Raw, lim: Limits)
    ensures Inv(Machine(stored, 0, 0, false, [], None, 0, {}), lim)
  {
  }
}
