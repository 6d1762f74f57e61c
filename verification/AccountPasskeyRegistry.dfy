/** The one stored account-passkey attempt: waiting, then claimed, then cleared or of unknown outcome. */
module AccountPasskeyRegistry {
  import opened Numbers
  import opened StoreModel

  const MAX_TTL_MS: nat := 120000
  const OUTCOME_UNKNOWN_TTL_MS: nat := 300000

  datatype Attempt =
    | Waiting(generation: nat, id: nat, serverUrl: nat, connector: nat, createdAt: nat, expiresAt: nat)
    | Claimed(generation: nat, id: nat, serverUrl: nat, connector: nat, createdAt: nat, expiresAt: nat, workerId: nat, claimedAt: nat)
    | Unknown(generation: nat, id: nat, serverUrl: nat, createdAt: nat, expiresAt: nat, terminalAt: nat)

  datatype Raw = Absent | Garbage(legible: Option<nat>) | Held(attempt: Attempt)

  datatype Owner = Owner(generation: nat, id: nat, serverUrl: nat)

  datatype Config = Config(fits: Attempt -> bool)

  datatype State = State(stored: Raw, highWater: nat)

  datatype RegistryError = AlreadyActive | InvalidLifetime | Exhausted | TooLarge | StoreFailed

  datatype Outcome<T> = Outcome(state: State, answer: Result<T, RegistryError>)

  function OwnerOf(a: Attempt): Owner {
    Owner(a.generation, a.id, a.serverUrl)
  }

  predicate LifetimeOk(a: Attempt, now: nat, restoring: bool) {
    && a.createdAt <= now && a.createdAt < a.expiresAt
    && (restoring || now < a.expiresAt)
    && (!a.Unknown? ==> a.expiresAt - a.createdAt <= MAX_TTL_MS)
    && (a.Claimed? ==> a.createdAt <= a.claimedAt <= now)
    && (a.Unknown? ==> a.createdAt <= a.terminalAt <= now && a.terminalAt < a.expiresAt
                       && a.expiresAt - a.terminalAt <= OUTCOME_UNKNOWN_TTL_MS)
  }

  function Erase<T>(s: State, o: StoreOutcome, value: T): Outcome<T> {
    Outcome(if o.commits then s.(stored := Absent) else s, if o.throws then Err(StoreFailed) else Ok(value))
  }

  function Write(s: State, a: Attempt, o: StoreOutcome, cfg: Config): Outcome<Attempt> {
    if !cfg.fits(a) then Outcome(s, Err(TooLarge))
    else Outcome(if o.commits then s.(stored := Held(a)) else s, if o.throws then Err(StoreFailed) else Ok(a))
  }

  /** What is unreadable, untimely or expired is erased. */
  function Read(s0: State, now: nat, o: StoreOutcome, cfg: Config): Outcome<Option<Attempt>> {
    match s0.stored
    case Absent => Outcome(s0, Ok(None))
    case Garbage(g) => Erase(if g.Some? then s0.(highWater := Max(s0.highWater, g.value)) else s0, o, None)
    case Held(a) =>
      var s := s0.(highWater := Max(s0.highWater, a.generation));
      if !cfg.fits(a) || !LifetimeOk(a, now, true) || now >= a.expiresAt then Erase(s, o, None) else Outcome(s, Ok(Some(a)))
  }

  /** Draw a generation for a write; at the last one the store is emptied and the operation fails. */
  function WriteNext(s: State, a: Attempt, o: StoreOutcome, cfg: Config): Outcome<Option<Attempt>> {
    if s.highWater >= MAX_SAFE_INTEGER then Outcome(if o.commits then s.(stored := Absent) else s, Err(Exhausted))
    else
      var w := Write(s.(highWater := s.highWater + 1), a, o, cfg);
      Outcome(w.state, match w.answer case Ok(x) => Ok(Some(x)) case Err(e) => Err(e))
  }

  /** Two clock readings and two write outcomes. */
  datatype Surroundings = Surroundings(now: nat, later: nat, first: StoreOutcome, second: StoreOutcome)

  function CreateStep(s0: State, id: nat, serverUrl: nat, connector: nat, createdAt: nat, expiresAt: nat, r: Surroundings, cfg: Config): Outcome<Option<Attempt>> {
    var read := Read(s0, r.now, r.first, cfg);
    if read.answer.Err? then read
    else if read.answer.value.Some? then Outcome(read.state, Err(AlreadyActive))
    else
      var a := Waiting(read.state.highWater + 1, id, serverUrl, connector, createdAt, expiresAt);
      if read.state.highWater < MAX_SAFE_INTEGER && !LifetimeOk(a, r.later, false)
      then Outcome(read.state.(highWater := read.state.highWater + 1), Err(InvalidLifetime))
      else WriteNext(read.state, a, r.second, cfg)
  }

  function ClaimStep(s0: State, owner: Owner, workerId: nat, r: Surroundings, cfg: Config): Outcome<Option<Attempt>> {
    var read := Read(s0, r.now, r.first, cfg);
    if read.answer.Err? then read
    else match read.answer.value
      case None => Outcome(read.state, Ok(None))
      case Some(a) =>
        if !a.Waiting? || OwnerOf(a) != owner then Outcome(read.state, Ok(None))
        else if r.later >= a.expiresAt then Erase(read.state, r.second, None)
        else WriteNext(read.state, Claimed(read.state.highWater + 1, a.id, a.serverUrl, a.connector, a.createdAt, a.expiresAt, workerId, r.later), r.second, cfg)
  }

  function MarkUnknownStep(s0: State, owner: Owner, r: Surroundings, cfg: Config): Outcome<Option<Attempt>> {
    var read := Read(s0, r.now, r.first, cfg);
    if read.answer.Err? then read
    else match read.answer.value
      case None => Outcome(read.state, Ok(None))
      case Some(a) =>
        if !a.Claimed? || OwnerOf(a) != owner then Outcome(read.state, Ok(None))
        else if r.later + OUTCOME_UNKNOWN_TTL_MS > MAX_SAFE_INTEGER
        then Outcome(Erase(read.state, r.second, ()).state, Err(InvalidLifetime))
        else WriteNext(read.state, Unknown(read.state.highWater + 1, a.id, a.serverUrl, a.createdAt, r.later + OUTCOME_UNKNOWN_TTL_MS, r.later), r.second, cfg)
  }

  function ClearStep(s0: State, owner: Owner, r: Surroundings, cfg: Config): Outcome<bool> {
    var read := Read(s0, r.now, r.first, cfg);
    match read.answer
    case Err(e) => Outcome(read.state, Err(e))
    case Ok(found) =>
      if found.None? || OwnerOf(found.value) != owner then Outcome(read.state, Ok(false))
      else Erase(read.state, r.second, true)
  }

  // ---------------------------------------------------------------------------------------------
  // One claim per attempt
  // ---------------------------------------------------------------------------------------------

  /** A write that reports success has taken effect. */
  predicate Honest(o: StoreOutcome) {
    o.commits || o.throws
  }

  predicate WaitingFor(r: State, id: nat) {
    r.stored.Held? && r.stored.attempt.Waiting? && r.stored.attempt.id == id
  }

  /** The stored attempt is the claimed one of this owner. */
  predicate ClaimedBy(r: State, owner: Owner) {
    r.stored.Held? && r.stored.attempt.Claimed? && OwnerOf(r.stored.attempt) == owner
  }

  /** A registry operation never makes an attempt wait that was not waiting before. */
  ghost predicate NoneNewWaiting(r: State, t: State) {
    && (forall id :: WaitingFor(t, id) ==> WaitingFor(r, id))
    && (t.stored.Held? ==> r.stored.Held? && t.stored.attempt.id == r.stored.attempt.id)
  }

  ghost predicate Distinct(ids: seq<nat>) {
    forall i, j :: 0 <= i < j < |ids| ==> ids[i] != ids[j]
  }

  lemma {:induction false} RegistryMoves(r: State, owner: Owner, x: Surroundings, cfg: Config)
    ensures NoneNewWaiting(r, Read(r, x.now, x.first, cfg).state)
    ensures NoneNewWaiting(r, MarkUnknownStep(r, owner, x, cfg).state)
    ensures NoneNewWaiting(r, ClearStep(r, owner, x, cfg).state)
  {
  }

  lemma {:induction false} ClaimMoves(r: State, owner: Owner, workerId: nat, x: Surroundings, cfg: Config)
    requires Honest(x.first) && Honest(x.second)
    ensures var c := ClaimStep(r, owner, workerId, x, cfg);
            && NoneNewWaiting(r, c.state)
            && (c.answer.Ok? && c.answer.value.Some? ==>
                  && c.answer.value.value.id == owner.id && WaitingFor(r, owner.id)
                  && ClaimedBy(c.state, OwnerOf(c.answer.value.value)))
  {
  }

  lemma {:induction false} CreateMoves(r: State, id: nat, serverUrl: nat, connector: nat, createdAt: nat, expiresAt: nat, x: Surroundings, cfg: Config)
    ensures var t := CreateStep(r, id, serverUrl, connector, createdAt, expiresAt, x, cfg).state;
            && (forall k :: WaitingFor(t, k) ==> k == id || WaitingFor(r, k))
            && (t.stored.Held? ==> t.stored.attempt.id == id || (r.stored.Held? && t.stored.attempt.id == r.stored.attempt.id))
  {
  }

  /** One operation on the registry by any worker; a new worker starts without the high-water generation. */
  datatype Op =
    | Create(id: nat, serverUrl: nat, connector: nat, createdAt: nat, expiresAt: nat, x: Surroundings)
    | Claim(owner: Owner, workerId: nat, x: Surroundings)
    | MarkUnknown(owner: Owner, x: Surroundings)
    | Clear(owner: Owner, x: Surroundings)
    | Restart

  function ApplyOp(s: State, op: Op, cfg: Config): State {
    match op
    case Create(id, serverUrl, connector, createdAt, expiresAt, x) => CreateStep(s, id, serverUrl, connector, createdAt, expiresAt, x, cfg).state
    case Claim(owner, workerId, x) => ClaimStep(s, owner, workerId, x, cfg).state
    case MarkUnknown(owner, x) => MarkUnknownStep(s, owner, x, cfg).state
    case Clear(owner, x) => ClearStep(s, owner, x, cfg).state
    case Restart => s.(highWater := 0)
  }

  /** The ids claimed with success over a run, in order. */
  function ClaimedIds(s: State, ops: seq<Op>, cfg: Config): seq<nat>
    decreases |ops|
  {
    if ops == [] then []
    else (if ClaimSucceeds(s, ops[0], cfg) then [ops[0].owner.id] else []) + ClaimedIds(ApplyOp(s, ops[0], cfg), ops[1..], cfg)
  }

  predicate ClaimSucceeds(s: State, op: Op, cfg: Config) {
    op.Claim? && var answer := ClaimStep(s, op.owner, op.workerId, op.x, cfg).answer; answer.Ok? && answer.value.Some?
  }

  /** Attempt ids never repeat, and the store is honest about success. */
  ghost predicate PossibleOps(ops: seq<Op>, used: set<nat>)
    decreases |ops|
  {
    ops == [] ||
    (&& (ops[0].Create? ==> ops[0].id !in used)
     && (ops[0].Claim? ==> Honest(ops[0].x.first) && Honest(ops[0].x.second))
     && PossibleOps(ops[1..], if ops[0].Create? then used + {ops[0].id} else used))
  }

  /** Over every run of any number of workers an attempt is claimed at most once, and only while it waits. */
  lemma {:induction false} ClaimedAtMostOnce(s: State, ops: seq<Op>, cfg: Config, used: set<nat>, spent: set<nat>)
    requires PossibleOps(ops, used) && spent <= used
    requires (s.stored.Held? ==> s.stored.attempt.id in used) && forall id :: id in spent ==> !WaitingFor(s, id)
    ensures Distinct(ClaimedIds(s, ops, cfg)) && forall i :: 0 <= i < |ClaimedIds(s, ops, cfg)| ==> ClaimedIds(s, ops, cfg)[i] !in spent
    decreases |ops|
  {
    hide CreateStep, ClaimStep, MarkUnknownStep, ClearStep, Read;
    if ops != [] {
      var op, t := ops[0], ApplyOp(s, ops[0], cfg);
      match op {
        case Create(id, serverUrl, connector, createdAt, expiresAt, x) => CreateMoves(s, id, serverUrl, connector, createdAt, expiresAt, x, cfg);
        case Claim(owner, workerId, x) => ClaimMoves(s, owner, workerId, x, cfg);
        case MarkUnknown(owner, x) => RegistryMoves(s, owner, x, cfg);
        case Clear(owner, x) => RegistryMoves(s, owner, x, cfg);
        case Restart =>
      }
      var now := if op.Create? then used + {op.id} else used;
      ClaimedAtMostOnce(t, ops[1..], cfg, now, if ClaimSucceeds(s, op, cfg) then spent + {op.owner.id} else spent);
      var rest := ClaimedIds(t, ops[1..], cfg);
      assert ClaimedIds(s, ops, cfg) == (if ClaimSucceeds(s, op, cfg) then [op.owner.id] else []) + rest;
    }
  }

  class AccountPasskeyAttemptRegistry {
    var stored: Raw
    var highWaterGeneration: nat
    const workerId: nat
    const cfg: Config

    constructor (stored: Raw, workerId: nat, cfg: Config)
      ensures this.stored == stored && highWaterGeneration == 0 && this.workerId == workerId && this.cfg == cfg
    {
      this.stored, highWaterGeneration, this.workerId, this.cfg := stored, 0, workerId, cfg;
    }

    function Now(): State
      reads this
    {
      State(stored, highWaterGeneration)
    }

    method EraseAttempt(o: StoreOutcome) returns (failed: bool)
      modifies `stored
      ensures failed == o.throws
      ensures Now() == Erase(old(Now()), o, ()).state
    {
      if o.commits {
        stored := Absent;
      }
      return o.throws;
    }

    method ReadEnvelope(now: nat, o: StoreOutcome) returns (r: Result<Option<Attempt>, RegistryError>)
      modifies this
      ensures Read(old(Now()), now, o, cfg) == Outcome(Now(), r)
    {
      if stored.Absent? {
        return Ok(None);
      }
      if stored.Garbage? {
        if stored.legible.Some? {
          highWaterGeneration := Max(highWaterGeneration, stored.legible.value);
        }
        var failed := EraseAttempt(o);
        return if failed then Err(StoreFailed) else Ok(None);
      }
      var a := stored.attempt;
      highWaterGeneration := Max(highWaterGeneration, a.generation);
      if !cfg.fits(a) || !LifetimeOk(a, now, true) || now >= a.expiresAt {
        var failed := EraseAttempt(o);
        return if failed then Err(StoreFailed) else Ok(None);
      }
      return Ok(Some(a));
    }

    method WriteUnderNext(a: Attempt, o: StoreOutcome) returns (r: Result<Option<Attempt>, RegistryError>)
      modifies this
      ensures WriteNext(old(Now()), a, o, cfg) == Outcome(Now(), r)
    {
      if highWaterGeneration >= MAX_SAFE_INTEGER {
        var _ := EraseAttempt(o);
        return Err(Exhausted);
      }
      highWaterGeneration := highWaterGeneration + 1;
      if !cfg.fits(a) {
        return Err(TooLarge);
      }
      if o.commits {
        stored := Held(a);
      }
      return if o.throws then Err(StoreFailed) else Ok(Some(a));
    }

    method Create(id: nat, serverUrl: nat, connector: nat, createdAt: nat, expiresAt: nat, r: Surroundings)
        returns (result: Result<Option<Attempt>, RegistryError>)
      modifies this
      ensures CreateStep(old(Now()), id, serverUrl, connector, createdAt, expiresAt, r, cfg) == Outcome(Now(), result)
    {
      hide Read, WriteNext;
      var current := ReadEnvelope(r.now, r.first);
      if current.Err? {
        return current;
      }
      if current.value.Some? {
        return Err(AlreadyActive);
      }
      var a := Waiting(highWaterGeneration + 1, id, serverUrl, connector, createdAt, expiresAt);
      if highWaterGeneration < MAX_SAFE_INTEGER && !LifetimeOk(a, r.later, false) {
        highWaterGeneration := highWaterGeneration + 1;
        return Err(InvalidLifetime);
      }
      result := WriteUnderNext(a, r.second);
    }

    method Claim(owner: Owner, r: Surroundings) returns (result: Result<Option<Attempt>, RegistryError>)
      modifies this
      ensures ClaimStep(old(Now()), owner, workerId, r, cfg) == Outcome(Now(), result)
    {
      hide Read, WriteNext;
      var current := ReadEnvelope(r.now, r.first);
      if current.Err? {
        return current;
      }
      if current.value.None? || !current.value.value.Waiting? || OwnerOf(current.value.value) != owner {
        return Ok(None);
      }
      var a := current.value.value;
      if r.later >= a.expiresAt {
        var failed := EraseAttempt(r.second);
        return if failed then Err(StoreFailed) else Ok(None);
      }
      result := WriteUnderNext(Claimed(highWaterGeneration + 1, a.id, a.serverUrl, a.connector, a.createdAt, a.expiresAt, workerId, r.later), r.second);
    }

    method MarkOutcomeUnknown(owner: Owner, r: Surroundings) returns (result: Result<Option<Attempt>, RegistryError>)
      modifies this
      ensures MarkUnknownStep(old(Now()), owner, r, cfg) == Outcome(Now(), result)
    {
      hide Read, WriteNext;
      var current := ReadEnvelope(r.now, r.first);
      if current.Err? {
        return current;
      }
      if current.value.None? || !current.value.value.Claimed? || OwnerOf(current.value.value) != owner {
        return Ok(None);
      }
      var a := current.value.value;
      if r.later + OUTCOME_UNKNOWN_TTL_MS > MAX_SAFE_INTEGER {
        var _ := EraseAttempt(r.second);
        return Err(InvalidLifetime);
      }
      result := WriteUnderNext(Unknown(highWaterGeneration + 1, a.id, a.serverUrl, a.createdAt, r.later + OUTCOME_UNKNOWN_TTL_MS, r.later), r.second);
    }

    method Clear(owner: Owner, r: Surroundings) returns (result: Result<bool, RegistryError>)
      modifies this
      ensures ClearStep(old(Now()), owner, r, cfg) == Outcome(Now(), result)
    {
      hide Read;
      var current := ReadEnvelope(r.now, r.first);
      if current.Err? {
        return Err(current.error);
      }
      if current.value.None? || OwnerOf(current.value.value) != owner {
        return Ok(false);
      }
      var failed := EraseAttempt(r.second);
      return if failed then Err(StoreFailed) else Ok(true);
    }
  }
}
