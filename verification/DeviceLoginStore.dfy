/**
 The device-login ceremony: one stored envelope, changed by compare-and-swap on its generation. An
 owner token names a generation; every successful operation writes a later one.
 */
module DeviceLoginStore {
  import opened Numbers
  import opened StoreModel

  datatype Phase = Waiting | Bound(requestId: nat)

  /** The secret-bearing state of one ceremony; `id` stands for its keys, access code and device. */
  datatype Ceremony = Ceremony(id: nat, phase: Phase, createdAt: nat, expiresAt: nat)

  /** What a released claim carries over: a two-factor challenge, a retry mark. */
  datatype Continuation = Continuation(twoFactor: Option<nat>, retryRequired: bool)

  const NO_CONTINUATION: Continuation := Continuation(None, false)

  datatype Envelope =
    | Empty(generation: nat)
    | Active(generation: nat, serverUrl: nat, ceremony: Ceremony, continuation: Continuation)
    | Claimed(generation: nat, serverUrl: nat, ceremony: Ceremony, continuation: Continuation, workerId: nat, claimedAt: nat)
    | OutcomeUnknown(generation: nat, serverUrl: nat, createdAt: nat, expiresAt: nat, terminalAt: nat)

  datatype Raw = Absent | Garbage(legible: Option<nat>) | Held(envelope: Envelope)

  datatype Owner = Owner(generation: nat, serverUrl: nat, requestId: Option<nat>)

  /** `fits` is the byte limit of an envelope, `restores` the shape and key check of a stored ceremony. */
  datatype Config = Config(fits: Envelope -> bool, restores: (Ceremony, nat) -> bool)

  datatype State = State(stored: Raw, highWater: nat, workerId: nat)

  datatype StoreError = Busy | InvalidTransition | StorageCapacity | GenerationExhausted | StoreFailed

  datatype Answer = Nothing | Snapshot(envelope: Envelope) | Cleared

  datatype Outcome<T> = Outcome(state: State, answer: Result<T, StoreError>)

  /** Two readings of the clock and the outcomes of the two writes an operation may make. */
  datatype Surroundings = Surroundings(now: nat, later: nat, first: StoreOutcome, second: StoreOutcome)

  function OwnerOf(e: Envelope): Option<Owner> {
    match e
    case Empty(_) => None
    case Active(g, url, c, _) => Some(Owner(g, url, if c.phase.Bound? then Some(c.phase.requestId) else None))
    case Claimed(g, url, c, _, _, _) => Some(Owner(g, url, if c.phase.Bound? then Some(c.phase.requestId) else None))
    case OutcomeUnknown(g, url, _, _, _) => Some(Owner(g, url, None))
  }

  predicate SameOwner(e: Envelope, owner: Owner) {
    OwnerOf(e) == Some(owner)
  }

  /** The server may shorten the lifetime when it binds a request; nothing else changes. */
  predicate SameCeremony(waiting: Ceremony, bound: Ceremony) {
    waiting.id == bound.id && waiting.createdAt == bound.createdAt && bound.expiresAt <= waiting.expiresAt
  }

  // ---------------------------------------------------------------------------------------------
  // Reading and writing
  // ---------------------------------------------------------------------------------------------

  function WriteEnvelope(s: State, e: Envelope, o: StoreOutcome, cfg: Config): Outcome<Envelope> {
    if !cfg.fits(e) then Outcome(s, Err(StorageCapacity))
    else Outcome(if o.commits then s.(stored := Held(e)) else s, if o.throws then Err(StoreFailed) else Ok(e))
  }

  function Remove(s: State, e: Envelope, o: StoreOutcome): Outcome<Envelope> {
    Outcome(if o.commits then s.(stored := Absent) else s, if o.throws then Err(StoreFailed) else Ok(e))
  }

  /** Replace what is stored by an empty envelope; at the last generation there is nothing left to write. */
  function Erase(s: State, o: StoreOutcome, cfg: Config): Outcome<Envelope> {
    if s.highWater >= MAX_SAFE_INTEGER then Remove(s, Empty(MAX_SAFE_INTEGER), o)
    else WriteEnvelope(s.(highWater := s.highWater + 1), Empty(s.highWater + 1), o, cfg)
  }

  function Retire(s: State, serverUrl: nat, c: Ceremony, terminalAt: nat, o: StoreOutcome, cfg: Config): Outcome<Envelope> {
    if s.highWater >= MAX_SAFE_INTEGER
    then Remove(s, OutcomeUnknown(MAX_SAFE_INTEGER, serverUrl, c.createdAt, c.expiresAt, terminalAt), o)
    else WriteEnvelope(s.(highWater := s.highWater + 1), OutcomeUnknown(s.highWater + 1, serverUrl, c.createdAt, c.expiresAt, terminalAt), o, cfg)
  }

  predicate Alive(c: Ceremony, r: Surroundings, cfg: Config) {
    cfg.restores(c, r.now) && c.createdAt <= r.later < c.expiresAt
  }

  /** Read and validate. What is not valid is erased; another worker's claim is retired without its secrets. */
  function Read(s0: State, r: Surroundings, cfg: Config): Outcome<Envelope> {
    match s0.stored
    case Absent => Outcome(s0, Ok(Empty(s0.highWater)))
    case Garbage(g) => Erase(if g.Some? then s0.(highWater := Max(s0.highWater, g.value)) else s0, r.first, cfg)
    case Held(e) =>
      var s := s0.(highWater := Max(s0.highWater, e.generation));
      if !cfg.fits(e) then Erase(s, r.first, cfg)
      else match e
        case Empty(_) => Outcome(s, Ok(e))
        case OutcomeUnknown(_, _, createdAt, expiresAt, terminalAt) =>
          if expiresAt <= createdAt || terminalAt < createdAt || terminalAt > r.now || r.now >= expiresAt
          then Erase(s, r.first, cfg) else Outcome(s, Ok(e))
        case Active(_, _, c, _) =>
          if Alive(c, r, cfg) then Outcome(s, Ok(e)) else Erase(s, r.first, cfg)
        case Claimed(_, url, c, _, worker, claimedAt) =>
          if claimedAt > r.now || !c.phase.Bound? || claimedAt < c.createdAt || !Alive(c, r, cfg) then Erase(s, r.first, cfg)
          else if worker != s.workerId then Retire(s, url, c, r.now, r.first, cfg)
          else Outcome(s, Ok(e))
  }

  function NextGeneration(s: State): nat {
    s.highWater + 1
  }

  /** Write under the next generation, unless generations are exhausted. */
  function WriteNext(s: State, e: Envelope, o: StoreOutcome, cfg: Config): Outcome<Answer> {
    if s.highWater >= MAX_SAFE_INTEGER then Outcome(s, Err(GenerationExhausted))
    else
      var w := WriteEnvelope(s.(highWater := s.highWater + 1), e, o, cfg);
      Outcome(w.state, match w.answer case Ok(x) => Ok(Snapshot(x)) case Err(x) => Err(x))
  }

  /** An expired ceremony is erased and the operation answers with nothing. */
  function Expire(s: State, o: StoreOutcome, cfg: Config): Outcome<Answer> {
    var w := Erase(s, o, cfg);
    Outcome(w.state, match w.answer case Ok(_) => Ok(Nothing) case Err(x) => Err(x))
  }

  // ---------------------------------------------------------------------------------------------
  // The operations
  // ---------------------------------------------------------------------------------------------

  datatype Op =
    | ReadState
    | Begin(serverUrl: nat, ceremony: Ceremony)
    | Replace(owner: Owner, ceremony: Ceremony)
    | Claim(owner: Owner)
    | Release(owner: Owner, continuation: Continuation)
    | MarkOutcomeUnknown(owner: Owner)
    | RetireOutcomeUnknown(owner: Owner)
    | Clear(owner: Owner)

  function ReadOp(s0: State, r: Surroundings, cfg: Config): Outcome<Answer> {
    var read := Read(s0, r, cfg);
    Outcome(read.state, match read.answer case Err(x) => Err(x) case Ok(e) => Ok(if e.Empty? then Nothing else Snapshot(e)))
  }

  function BeginOp(s0: State, serverUrl: nat, c: Ceremony, r: Surroundings, cfg: Config): Outcome<Answer> {
    var read := Read(s0, r, cfg);
    if read.answer.Err? then Outcome(read.state, Err(read.answer.error))
    else if !read.answer.value.Empty? then Outcome(read.state, Err(Busy))
    else if !cfg.restores(c, r.now) || !c.phase.Waiting? || c.createdAt > r.later || r.later >= c.expiresAt
    then Outcome(read.state, Err(InvalidTransition))
    else WriteNext(read.state, Active(NextGeneration(read.state), serverUrl, c, NO_CONTINUATION), r.second, cfg)
  }

  function ReplaceOp(s0: State, owner: Owner, c: Ceremony, r: Surroundings, cfg: Config): Outcome<Answer> {
    var read := Read(s0, r, cfg);
    if read.answer.Err? then Outcome(read.state, Err(read.answer.error))
    else
      var e := read.answer.value;
      if !e.Active? || !SameOwner(e, owner) || !e.ceremony.phase.Waiting? then Outcome(read.state, Ok(Nothing))
      else if !cfg.restores(c, r.now) || !c.phase.Bound? || !SameCeremony(e.ceremony, c) then Outcome(read.state, Err(InvalidTransition))
      else if r.later >= c.expiresAt then Expire(read.state, r.second, cfg)
      else WriteNext(read.state, Active(NextGeneration(read.state), e.serverUrl, c, NO_CONTINUATION), r.second, cfg)
  }

  function ClaimOp(s0: State, owner: Owner, r: Surroundings, cfg: Config): Outcome<Answer> {
    var read := Read(s0, r, cfg);
    if read.answer.Err? then Outcome(read.state, Err(read.answer.error))
    else
      var e := read.answer.value;
      if !e.Active? || !SameOwner(e, owner) || !e.ceremony.phase.Bound? then Outcome(read.state, Ok(Nothing))
      else if r.later >= e.ceremony.expiresAt then Expire(read.state, r.second, cfg)
      else WriteNext(read.state, Claimed(NextGeneration(read.state), e.serverUrl, e.ceremony, e.continuation, read.state.workerId, r.later), r.second, cfg)
  }

  function ReleaseOp(s0: State, owner: Owner, continuation: Continuation, r: Surroundings, cfg: Config): Outcome<Answer> {
    var read := Read(s0, r, cfg);
    if read.answer.Err? then Outcome(read.state, Err(read.answer.error))
    else
      var e := read.answer.value;
      if !e.Claimed? || !SameOwner(e, owner) then Outcome(read.state, Ok(Nothing))
      else if r.later >= e.ceremony.expiresAt then Expire(read.state, r.second, cfg)
      else WriteNext(read.state, Active(NextGeneration(read.state), e.serverUrl, e.ceremony, continuation), r.second, cfg)
  }

  function RetireOp(s0: State, owner: Owner, activeToo: bool, r: Surroundings, cfg: Config): Outcome<Answer> {
    var read := Read(s0, r, cfg);
    if read.answer.Err? then Outcome(read.state, Err(read.answer.error))
    else
      var e := read.answer.value;
      if !(e.Claimed? || (activeToo && e.Active?)) || !SameOwner(e, owner) then Outcome(read.state, Ok(Nothing))
      else
        var w := Retire(read.state, e.serverUrl, e.ceremony, r.now, r.second, cfg);
        Outcome(w.state, match w.answer case Ok(x) => Ok(Snapshot(x)) case Err(x) => Err(x))
  }

  function ClearOp(s0: State, owner: Owner, r: Surroundings, cfg: Config): Outcome<Answer> {
    var read := Read(s0, r, cfg);
    if read.answer.Err? then Outcome(read.state, Err(read.answer.error))
    else if read.answer.value.Empty? || !SameOwner(read.answer.value, owner) then Outcome(read.state, Ok(Nothing))
    else
      var w := Erase(read.state, r.second, cfg);
      Outcome(w.state, match w.answer case Ok(_) => Ok(Cleared) case Err(x) => Err(x))
  }

  function Apply(s: State, op: Op, r: Surroundings, cfg: Config): Outcome<Answer> {
    match op
    case ReadState => ReadOp(s, r, cfg)
    case Begin(url, c) => BeginOp(s, url, c, r, cfg)
    case Replace(owner, c) => ReplaceOp(s, owner, c, r, cfg)
    case Claim(owner) => ClaimOp(s, owner, r, cfg)
    case Release(owner, continuation) => ReleaseOp(s, owner, continuation, r, cfg)
    case MarkOutcomeUnknown(owner) => RetireOp(s, owner, false, r, cfg)
    case RetireOutcomeUnknown(owner) => RetireOp(s, owner, true, r, cfg)
    case Clear(owner) => ClearOp(s, owner, r, cfg)
  }

  // ---------------------------------------------------------------------------------------------
  // Runs
  // ---------------------------------------------------------------------------------------------

  /** An operation, or the death of the worker: the store stays, the memory goes, the next worker has a new id. */
  datatype Step = Operate(op: Op, r: Surroundings) | Restart(workerId: nat)

  function After(s: State, step: Step, cfg: Config): State {
    match step
    case Operate(op, r) => Apply(s, op, r, cfg).state
    case Restart(w) => State(s.stored, 0, w)
  }

  function Run(s: State, steps: seq<Step>, cfg: Config): State
    decreases |steps|
  {
    if steps == [] then s else Run(After(s, steps[0], cfg), steps[1..], cfg)
  }

  function StoredGeneration(s: State): nat {
    if s.stored.Held? then s.stored.envelope.generation else 0
  }

  /** An operation that names an owner and did what it was asked. */
  predicate Succeeds(s: State, step: Step, cfg: Config) {
    step.Operate? && !step.op.ReadState? && !step.op.Begin?
    && var a := Apply(s, step.op, step.r, cfg).answer; a.Ok? && !a.value.Nothing?
  }

  predicate Honest(o: StoreOutcome) {
    o.commits || o.throws
  }

  /** No unreadable value from outside, and generations are not about to run out. */
  ghost predicate Sane(s: State) {
    !s.stored.Garbage? && s.highWater < MAX_SAFE_INTEGER - 1 && StoredGeneration(s) < MAX_SAFE_INTEGER - 1
  }

  ghost predicate PossibleRun(s: State, steps: seq<Step>, cfg: Config)
    decreases |steps|
  {
    && Sane(s)
    && (steps == [] || (PossibleRun(After(s, steps[0], cfg), steps[1..], cfg)
          && (steps[0].Operate? ==> Honest(steps[0].r.first) && Honest(steps[0].r.second))))
  }

  /** What one operation may do to the stored envelope: leave it, or put a later generation in its place. */
  ghost predicate Advances(s: State, t: State) {
    && !t.stored.Garbage?
    && (t.stored == s.stored || (t.stored.Held? && StoredGeneration(t) > StoredGeneration(s)))
    && (StoredGeneration(s) <= t.highWater)
    && (t.stored != s.stored ==> StoredGeneration(t) > s.highWater && StoredGeneration(t) <= t.highWater)
  }

  /** Room for another generation. */
  ghost predicate Ready(s: State) {
    !s.stored.Garbage? && s.highWater < MAX_SAFE_INTEGER && StoredGeneration(s) <= s.highWater
  }

  /** A write under a new generation: if it is reported, it has happened. */
  ghost predicate Moves<T>(s: State, t: Outcome<T>, o: StoreOutcome) {
    Advances(s, t.state) && (Honest(o) && t.answer.Ok? ==> StoredGeneration(t.state) > s.highWater)
  }

  lemma {:induction false} EraseMoves(s: State, o: StoreOutcome, cfg: Config)
    requires Ready(s)
    ensures Moves(s, Erase(s, o, cfg), o) && Moves(s, Expire(s, o, cfg), o)
  {
  }

  lemma {:induction false} RetireMoves(s: State, url: nat, c: Ceremony, at: nat, o: StoreOutcome, cfg: Config)
    requires Ready(s)
    ensures Moves(s, Retire(s, url, c, at, o, cfg), o)
  {
  }

  /** A read leaves the store alone and reports what is there, or it writes a later generation. */
  lemma {:induction false} ReadAdvances(s: State, r: Surroundings, cfg: Config)
    requires Sane(s)
    ensures var t := Read(s, r, cfg);
            && Advances(s, t.state) && StoredGeneration(t.state) <= t.state.highWater && t.state.workerId == s.workerId
            && t.state.highWater <= Max(s.highWater, StoredGeneration(s)) + 1 && s.highWater <= t.state.highWater
            && (Honest(r.first) && t.answer.Ok? ==>
                  if t.answer.value.Empty? && t.state.stored.Absent? then s.stored.Absent? else t.state.stored == Held(t.answer.value))
            && (t.answer.Ok? && (t.answer.value.Active? || t.answer.value.Claimed?) ==> s.stored == Held(t.answer.value))
  {
  }

  lemma {:induction false} WriteNextMoves(s: State, e: Envelope, o: StoreOutcome, cfg: Config)
    requires Ready(s) && e.generation == s.highWater + 1
    ensures Moves(s, WriteNext(s, e, o, cfg), o)
  {
  }

  function OwnerNamed(op: Op): Owner
    requires !op.ReadState? && !op.Begin?
  {
    op.owner
  }

  /** Each operation leaves the store alone or writes a later generation; a success spends the generation of its owner token. */
  lemma {:induction false} OperationAdvances(s: State, op: Op, r: Surroundings, cfg: Config)
    requires Sane(s) && Honest(r.first) && Honest(r.second)
    ensures var t := Apply(s, op, r, cfg);
            && !t.state.stored.Garbage?
            && (t.state.stored == s.stored || StoredGeneration(t.state) > StoredGeneration(s))
            && (Succeeds(s, Operate(op, r), cfg) ==> StoredGeneration(s) <= OwnerNamed(op).generation < StoredGeneration(t.state))
  {
    hide Read, WriteNext, Erase, Expire, Retire;
    ReadAdvances(s, r, cfg);
    var read := Read(s, r, cfg);
    var m := read.state;
    if read.answer.Ok? {
      var e := read.answer.value;
      var g := NextGeneration(m);
      EraseMoves(m, r.second, cfg);
      match op {
        case ReadState =>
        case Begin(url, c) => WriteNextMoves(m, Active(g, url, c, NO_CONTINUATION), r.second, cfg);
        case Replace(owner, c) =>
          if e.Active? { WriteNextMoves(m, Active(g, e.serverUrl, c, NO_CONTINUATION), r.second, cfg); }
        case Claim(owner) =>
          if e.Active? { WriteNextMoves(m, Claimed(g, e.serverUrl, e.ceremony, e.continuation, m.workerId, r.later), r.second, cfg); }
        case Release(owner, continuation) =>
          if e.Claimed? { WriteNextMoves(m, Active(g, e.serverUrl, e.ceremony, continuation), r.second, cfg); }
        case MarkOutcomeUnknown(owner) =>
          if e.Claimed? { RetireMoves(m, e.serverUrl, e.ceremony, r.now, r.second, cfg); }
        case RetireOutcomeUnknown(owner) =>
          if e.Claimed? || e.Active? { RetireMoves(m, e.serverUrl, e.ceremony, r.now, r.second, cfg); }
        case Clear(owner) =>
      }
    }
  }

  /** Stored generations never go back, also across restarts of the worker. */
  lemma {:induction false} GenerationsNeverGoBack(s: State, steps: seq<Step>, cfg: Config)
    requires PossibleRun(s, steps, cfg)
    ensures StoredGeneration(Run(s, steps, cfg)) >= StoredGeneration(s)
    decreases |steps|
  {
    hide Apply;
    if steps != [] {
      if steps[0].Operate? {
        OperationAdvances(s, steps[0].op, steps[0].r, cfg);
      }
      GenerationsNeverGoBack(After(s, steps[0], cfg), steps[1..], cfg);
    }
  }

  lemma {:induction false} PossibleSplit(s: State, steps: seq<Step>, cfg: Config, i: nat)
    requires PossibleRun(s, steps, cfg) && i < |steps|
    ensures var m := Run(s, steps[..i], cfg);
            && Sane(m) && PossibleRun(After(m, steps[i], cfg), steps[i + 1..], cfg)
            && (steps[i].Operate? ==> Honest(steps[i].r.first) && Honest(steps[i].r.second))
            && Run(s, steps[..i + 1], cfg) == After(m, steps[i], cfg)
            && PossibleRun(m, steps[i..], cfg)
    decreases i
  {
    hide After, Sane;
    if i == 0 {
      assert steps[..0] == [] && steps[0..] == steps && steps[..1] == [steps[0]] && [steps[0]][1..] == [];
    } else {
      var t := After(s, steps[0], cfg);
      PossibleSplit(t, steps[1..], cfg, i - 1);
      assert steps[..i][0] == steps[0] && steps[..i][1..] == steps[1..][..i - 1];
      assert steps[..i + 1][0] == steps[0] && steps[..i + 1][1..] == steps[1..][..i];
      assert steps[1..][i..] == steps[i + 1..] && steps[1..][i - 1..] == steps[i..];
    }
  }

  lemma {:induction false} RunConcat(s: State, a: seq<Step>, b: seq<Step>, cfg: Config)
    ensures Run(s, a + b, cfg) == Run(Run(s, a, cfg), b, cfg)
    decreases |a|
  {
    hide After;
    if a == [] {
      assert a + b == b;
    } else {
      assert (a + b)[1..] == a[1..] + b;
      RunConcat(After(s, a[0], cfg), a[1..], b, cfg);
    }
  }

  /** Of all operations of a run that use the same owner token at most one succeeds. */
  lemma {:induction false} OneSuccessPerOwner(s: State, steps: seq<Step>, cfg: Config, i: nat, j: nat)
    requires PossibleRun(s, steps, cfg) && i < j < |steps|
    requires Succeeds(Run(s, steps[..i], cfg), steps[i], cfg) && Succeeds(Run(s, steps[..j], cfg), steps[j], cfg)
    ensures OwnerNamed(steps[i].op) != OwnerNamed(steps[j].op)
    ensures OwnerNamed(steps[i].op).generation < OwnerNamed(steps[j].op).generation
  {
    hide Apply, Sane, Succeeds;
    PossibleSplit(s, steps, cfg, i);
    PossibleSplit(s, steps, cfg, j);
    var m, n := Run(s, steps[..i], cfg), Run(s, steps[..j], cfg);
    assert steps[i].Operate? && steps[j].Operate? by { SucceedsOperates(m, steps[i], cfg); SucceedsOperates(n, steps[j], cfg); }
    OperationAdvances(m, steps[i].op, steps[i].r, cfg);
    OperationAdvances(n, steps[j].op, steps[j].r, cfg);
    var t := After(m, steps[i], cfg);
    assert steps[..j] == steps[..i + 1] + steps[i + 1..j];
    RunConcat(s, steps[..i + 1], steps[i + 1..j], cfg);
    PossiblePrefix(t, steps[i + 1..], cfg, j - i - 1);
    assert steps[i + 1..][..j - i - 1] == steps[i + 1..j];
    GenerationsNeverGoBack(t, steps[i + 1..j], cfg);
  }

  lemma {:induction false} SucceedsOperates(s: State, step: Step, cfg: Config)
    requires Succeeds(s, step, cfg)
    ensures step.Operate? && !step.op.ReadState? && !step.op.Begin?
  {
    hide Apply;
  }

  lemma {:induction false} PossiblePrefix(s: State, steps: seq<Step>, cfg: Config, n: nat)
    requires PossibleRun(s, steps, cfg) && n <= |steps|
    ensures PossibleRun(s, steps[..n], cfg)
    decreases |steps|
  {
    hide After, Sane;
    if n > 0 {
      PossiblePrefix(After(s, steps[0], cfg), steps[1..], cfg, n - 1);
      assert steps[..n][1..] == steps[1..][..n - 1];
    }
  }

  // ---------------------------------------------------------------------------------------------
  // The claim of a dead worker
  // ---------------------------------------------------------------------------------------------

  predicate HoldsSecret(e: Envelope, id: nat) {
    (e.Active? || e.Claimed?) && e.ceremony.id == id
  }

  /** Whatever is stored of this ceremony is a claim of a worker that is dead. */
  ghost predicate OnlyDeadClaim(s: State, id: nat, dead: set<nat>) {
    && s.workerId !in dead
    && (s.stored.Held? && HoldsSecret(s.stored.envelope, id) ==> s.stored.envelope.Claimed? && s.stored.envelope.workerId in dead)
  }

  predicate Exposes(a: Result<Answer, StoreError>, id: nat) {
    a.Ok? && a.value.Snapshot? && HoldsSecret(a.value.envelope, id)
  }

  /** Reading never yields the secrets of a dead claim, and no operation brings them back. */
  lemma {:induction false} DeadStaysDead(s: State, op: Op, r: Surroundings, cfg: Config, id: nat, dead: set<nat>)
    requires OnlyDeadClaim(s, id, dead) && !(op.Begin? && op.ceremony.id == id)
    ensures !Exposes(Apply(s, op, r, cfg).answer, id)
    ensures OnlyDeadClaim(Apply(s, op, r, cfg).state, id, dead)
  {
    hide Read, Erase, Retire, WriteNext, Expire;
    ReadHidesDead(s, r, cfg, id, dead);
    var read := Read(s, r, cfg);
    if read.answer.Ok? {
      var e := read.answer.value;
      EraseKeepsDead(read.state, r.second, cfg, id, dead);
      var m := read.state;
      var g := NextGeneration(m);
      match op {
        case ReadState =>
        case Begin(url, c) => WriteKeepsDead(m, Active(g, url, c, NO_CONTINUATION), r.second, cfg, id, dead);
        case Replace(owner, c) =>
          if e.Active? && SameCeremony(e.ceremony, c) { WriteKeepsDead(m, Active(g, e.serverUrl, c, NO_CONTINUATION), r.second, cfg, id, dead); }
        case Claim(owner) =>
          if e.Active? { WriteKeepsDead(m, Claimed(g, e.serverUrl, e.ceremony, e.continuation, m.workerId, r.later), r.second, cfg, id, dead); }
        case Release(owner, continuation) =>
          if e.Claimed? { WriteKeepsDead(m, Active(g, e.serverUrl, e.ceremony, continuation), r.second, cfg, id, dead); }
        case MarkOutcomeUnknown(owner) =>
          if e.Claimed? { RetireKeepsDead(m, e.serverUrl, e.ceremony, r.now, r.second, cfg, id, dead); }
        case RetireOutcomeUnknown(owner) =>
          if e.Claimed? || e.Active? { RetireKeepsDead(m, e.serverUrl, e.ceremony, r.now, r.second, cfg, id, dead); }
        case Clear(owner) =>
      }
    }
  }

  lemma {:induction false} ReadHidesDead(s: State, r: Surroundings, cfg: Config, id: nat, dead: set<nat>)
    requires OnlyDeadClaim(s, id, dead)
    ensures var t := Read(s, r, cfg); OnlyDeadClaim(t.state, id, dead) && (t.answer.Ok? ==> !HoldsSecret(t.answer.value, id))
  {
  }

  lemma {:induction false} EraseKeepsDead(s: State, o: StoreOutcome, cfg: Config, id: nat, dead: set<nat>)
    requires OnlyDeadClaim(s, id, dead)
    ensures OnlyDeadClaim(Erase(s, o, cfg).state, id, dead) && OnlyDeadClaim(Expire(s, o, cfg).state, id, dead)
    ensures !Exposes(Expire(s, o, cfg).answer, id)
  {
  }

  lemma {:induction false} RetireKeepsDead(s: State, url: nat, c: Ceremony, at: nat, o: StoreOutcome, cfg: Config, id: nat, dead: set<nat>)
    requires OnlyDeadClaim(s, id, dead)
    ensures var t := Retire(s, url, c, at, o, cfg); OnlyDeadClaim(t.state, id, dead) && (t.answer.Ok? ==> !HoldsSecret(t.answer.value, id))
  {
  }

  lemma {:induction false} WriteKeepsDead(s: State, e: Envelope, o: StoreOutcome, cfg: Config, id: nat, dead: set<nat>)
    requires OnlyDeadClaim(s, id, dead) && !HoldsSecret(e, id)
    ensures var t := WriteNext(s, e, o, cfg); OnlyDeadClaim(t.state, id, dead) && !Exposes(t.answer, id)
  {
  }

  /** What a step answers. */
  function AnswerOf(s: State, step: Step, cfg: Config): Result<Answer, StoreError> {
    match step
    case Operate(op, r) => Apply(s, op, r, cfg).answer
    case Restart(_) => Ok(Nothing)
  }

  predicate Unrelated(step: Step, id: nat, dead: set<nat>) {
    match step
    case Operate(op, _) => !(op.Begin? && op.ceremony.id == id)
    case Restart(w) => w !in dead
  }

  /**
   A worker that dies while it holds a claim takes the secrets with it: over any later run, with any
   failures and restarts, no operation ever answers with them again.
   */
  lemma {:induction false} SecretsDieWithTheWorker(s: State, steps: seq<Step>, cfg: Config, id: nat, dead: set<nat>, i: nat)
    requires OnlyDeadClaim(s, id, dead) && i < |steps|
    requires forall step :: step in steps ==> Unrelated(step, id, dead)
    ensures !Exposes(AnswerOf(Run(s, steps[..i], cfg), steps[i], cfg), id)
    decreases |steps|
  {
    hide Apply, Exposes, OnlyDeadClaim, HoldsSecret;
    assert steps[0] in steps;
    if i == 0 {
      assert Run(s, steps[..0], cfg) == s;
      if steps[0].Operate? {
        DeadStaysDead(s, steps[0].op, steps[0].r, cfg, id, dead);
      } else {
        assert !Exposes(Ok(Nothing), id) by { NothingExposed(id); }
      }
    } else {
      var t := After(s, steps[0], cfg);
      if steps[0].Operate? {
        DeadStaysDead(s, steps[0].op, steps[0].r, cfg, id, dead);
      } else {
        RestartKeepsDead(s, steps[0].workerId, cfg, id, dead);
      }
      forall step | step in steps[1..] ensures Unrelated(step, id, dead) {
        assert step in steps;
      }
      SecretsDieWithTheWorker(t, steps[1..], cfg, id, dead, i - 1);
      assert steps[..i][0] == steps[0] && steps[..i][1..] == steps[1..][..i - 1];
    }
  }

  lemma {:induction false} NothingExposed(id: nat)
    ensures !Exposes(Ok(Nothing), id)
  {
  }

  lemma {:induction false} RestartKeepsDead(s: State, w: nat, cfg: Config, id: nat, dead: set<nat>)
    requires OnlyDeadClaim(s, id, dead) && w !in dead
    ensures OnlyDeadClaim(After(s, Restart(w), cfg), id, dead)
  {
  }

  // ---------------------------------------------------------------------------------------------
  // The store object
  // ---------------------------------------------------------------------------------------------

  class DeviceLoginStateStore {
    var stored: Raw
    var highWaterGeneration: nat
    const workerId: nat
    const cfg: Config

    constructor (stored: Raw, workerId: nat, cfg: Config)
      ensures this.stored == stored && highWaterGeneration == 0 && this.workerId == workerId && this.cfg == cfg
    {
      this.stored, highWaterGeneration, this.workerId, this.cfg := stored, 0, workerId, cfg;
    }

    function Now(): State
      reads this
    {
      State(stored, highWaterGeneration, workerId)
    }

    method StoreEnvelope(e: Envelope, o: StoreOutcome) returns (r: Result<Envelope, StoreError>)
      modifies `stored
      ensures WriteEnvelope(old(Now()), e, o, cfg) == Outcome(Now(), r)
    {
      if !cfg.fits(e) {
        return Err(StorageCapacity);
      }
      if o.commits {
        stored := Held(e);
      }
      return if o.throws then Err(StoreFailed) else Ok(e);
    }

    method RemoveEnvelope(e: Envelope, o: StoreOutcome) returns (r: Result<Envelope, StoreError>)
      modifies `stored
      ensures Remove(old(Now()), e, o) == Outcome(Now(), r)
    {
      if o.commits {
        stored := Absent;
      }
      return if o.throws then Err(StoreFailed) else Ok(e);
    }

    method EraseEnvelope(o: StoreOutcome) returns (r: Result<Envelope, StoreError>)
      modifies this
      ensures Erase(old(Now()), o, cfg) == Outcome(Now(), r)
    {
      if highWaterGeneration >= MAX_SAFE_INTEGER {
        r := RemoveEnvelope(Empty(MAX_SAFE_INTEGER), o);
        return;
      }
      highWaterGeneration := highWaterGeneration + 1;
      r := StoreEnvelope(Empty(highWaterGeneration), o);
    }

    method RetireEnvelope(serverUrl: nat, c: Ceremony, terminalAt: nat, o: StoreOutcome) returns (r: Result<Envelope, StoreError>)
      modifies this
      ensures Retire(old(Now()), serverUrl, c, terminalAt, o, cfg) == Outcome(Now(), r)
    {
      if highWaterGeneration >= MAX_SAFE_INTEGER {
        r := RemoveEnvelope(OutcomeUnknown(MAX_SAFE_INTEGER, serverUrl, c.createdAt, c.expiresAt, terminalAt), o);
        return;
      }
      highWaterGeneration := highWaterGeneration + 1;
      r := StoreEnvelope(OutcomeUnknown(highWaterGeneration, serverUrl, c.createdAt, c.expiresAt, terminalAt), o);
    }

    method ReadEnvelope(r: Surroundings) returns (result: Result<Envelope, StoreError>)
      modifies this
      ensures Read(old(Now()), r, cfg) == Outcome(Now(), result)
    {
      hide Erase, Retire;
      match stored {
        case Absent => return Ok(Empty(highWaterGeneration));
        case Garbage(generation) =>
          if generation.Some? {
            highWaterGeneration := Max(highWaterGeneration, generation.value);
          }
          result := EraseEnvelope(r.first);
        case Held(e) =>
          highWaterGeneration := Max(highWaterGeneration, e.generation);
          if !cfg.fits(e) {
            result := EraseEnvelope(r.first);
            return;
          }
          match e {
            case Empty(_) => return Ok(e);
            case OutcomeUnknown(_, _, createdAt, expiresAt, terminalAt) =>
              if expiresAt <= createdAt || terminalAt < createdAt || terminalAt > r.now || r.now >= expiresAt {
                result := EraseEnvelope(r.first);
                return;
              }
              return Ok(e);
            case Active(_, _, c, _) =>
              if !Alive(c, r, cfg) {
                result := EraseEnvelope(r.first);
                return;
              }
              return Ok(e);
            case Claimed(_, url, c, _, worker, claimedAt) =>
              if claimedAt > r.now || !c.phase.Bound? || claimedAt < c.createdAt || !Alive(c, r, cfg) {
                result := EraseEnvelope(r.first);
                return;
              }
              if worker != workerId {
                result := RetireEnvelope(url, c, r.now, r.first);
                return;
              }
              return Ok(e);
          }
      }
    }

    /** Draw the next generation and write under it. */
    method WriteUnderNext(e: Envelope, o: StoreOutcome) returns (r: Result<Answer, StoreError>)
      modifies this
      ensures WriteNext(old(Now()), e, o, cfg) == Outcome(Now(), r)
    {
      if highWaterGeneration >= MAX_SAFE_INTEGER {
        return Err(GenerationExhausted);
      }
      highWaterGeneration := highWaterGeneration + 1;
      var written := StoreEnvelope(e, o);
      return match written case Ok(x) => Ok(Snapshot(x)) case Err(x) => Err(x);
    }

    method ExpireEnvelope(o: StoreOutcome) returns (r: Result<Answer, StoreError>)
      modifies this
      ensures Expire(old(Now()), o, cfg) == Outcome(Now(), r)
    {
      hide Erase;
      var erased := EraseEnvelope(o);
      return match erased case Ok(_) => Ok(Nothing) case Err(x) => Err(x);
    }

    method Write(serverUrl: nat, c: Ceremony, r: Surroundings) returns (result: Result<Answer, StoreError>)
      modifies this
      ensures Apply(old(Now()), Begin(serverUrl, c), r, cfg) == Outcome(Now(), result)
    {
      hide Read, WriteNext;
      var current := ReadEnvelope(r);
      if current.Err? {
        return Err(current.error);
      }
      if !current.value.Empty? {
        return Err(Busy);
      }
      if !cfg.restores(c, r.now) || !c.phase.Waiting? || c.createdAt > r.later || r.later >= c.expiresAt {
        return Err(InvalidTransition);
      }
      result := WriteUnderNext(Active(highWaterGeneration + 1, serverUrl, c, NO_CONTINUATION), r.second);
    }

    method ReplaceState(owner: Owner, c: Ceremony, r: Surroundings) returns (result: Result<Answer, StoreError>)
      modifies this
      ensures Apply(old(Now()), Replace(owner, c), r, cfg) == Outcome(Now(), result)
    {
      hide Read, WriteNext, Expire;
      var current := ReadEnvelope(r);
      if current.Err? {
        return Err(current.error);
      }
      var e := current.value;
      if !e.Active? || !SameOwner(e, owner) || !e.ceremony.phase.Waiting? {
        return Ok(Nothing);
      }
      if !cfg.restores(c, r.now) || !c.phase.Bound? || !SameCeremony(e.ceremony, c) {
        return Err(InvalidTransition);
      }
      if r.later >= c.expiresAt {
        result := ExpireEnvelope(r.second);
        return;
      }
      result := WriteUnderNext(Active(highWaterGeneration + 1, e.serverUrl, c, NO_CONTINUATION), r.second);
    }

    method ClaimState(owner: Owner, r: Surroundings) returns (result: Result<Answer, StoreError>)
      modifies this
      ensures Apply(old(Now()), Claim(owner), r, cfg) == Outcome(Now(), result)
    {
      hide Read, WriteNext, Expire;
      var current := ReadEnvelope(r);
      if current.Err? {
        return Err(current.error);
      }
      var e := current.value;
      if !e.Active? || !SameOwner(e, owner) || !e.ceremony.phase.Bound? {
        return Ok(Nothing);
      }
      if r.later >= e.ceremony.expiresAt {
        result := ExpireEnvelope(r.second);
        return;
      }
      result := WriteUnderNext(Claimed(highWaterGeneration + 1, e.serverUrl, e.ceremony, e.continuation, workerId, r.later), r.second);
    }

    method ReleaseState(owner: Owner, continuation: Continuation, r: Surroundings) returns (result: Result<Answer, StoreError>)
      modifies this
      ensures Apply(old(Now()), Release(owner, continuation), r, cfg) == Outcome(Now(), result)
    {
      hide Read, WriteNext, Expire;
      var current := ReadEnvelope(r);
      if current.Err? {
        return Err(current.error);
      }
      var e := current.value;
      if !e.Claimed? || !SameOwner(e, owner) {
        return Ok(Nothing);
      }
      if r.later >= e.ceremony.expiresAt {
        result := ExpireEnvelope(r.second);
        return;
      }
      result := WriteUnderNext(Active(highWaterGeneration + 1, e.serverUrl, e.ceremony, continuation), r.second);
    }

    /** Retire a claim, or (for a request whose fate is unknown) an unclaimed state as well. */
    method RetireState(owner: Owner, activeToo: bool, r: Surroundings) returns (result: Result<Answer, StoreError>)
      modifies this
      ensures Apply(old(Now()), if activeToo then RetireOutcomeUnknown(owner) else MarkOutcomeUnknown(owner), r, cfg) == Outcome(Now(), result)
    {
      hide Read, Retire;
      var current := ReadEnvelope(r);
      if current.Err? {
        return Err(current.error);
      }
      var e := current.value;
      if !(e.Claimed? || (activeToo && e.Active?)) || !SameOwner(e, owner) {
        return Ok(Nothing);
      }
      var retired := RetireEnvelope(e.serverUrl, e.ceremony, r.now, r.second);
      return match retired case Ok(x) => Ok(Snapshot(x)) case Err(x) => Err(x);
    }

    method ClearState(owner: Owner, r: Surroundings) returns (result: Result<Answer, StoreError>)
      modifies this
      ensures Apply(old(Now()), Clear(owner), r, cfg) == Outcome(Now(), result)
    {
      hide Read, Erase;
      var current := ReadEnvelope(r);
      if current.Err? {
        return Err(current.error);
      }
      if current.value.Empty? || !SameOwner(current.value, owner) {
        return Ok(Nothing);
      }
      var erased := EraseEnvelope(r.second);
      return match erased case Ok(_) => Ok(Cleared) case Err(x) => Err(x);
    }
  }
}
