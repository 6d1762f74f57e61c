/**
 Account-passkey login. One operation runs at a time; it is cut here into the pieces between awaits, so
 that the worker may die between any two of them. Activation redeems a one-time token: it must be
 attempted at most once per attempt.
 */
module AccountPasskeyCoordinator {
  import opened Numbers
  import opened StoreModel
  import opened AccountPasskeyRegistry

  /** Where the running submission stands. */
  datatype Running =
    | Idle
    | Verified(owner: Owner)
    | Ready(owner: Owner)
    | Activating(owner: Owner)

  /** How an activation ended, as far as this worker can tell. */
  datatype Activation = Settled | DefiniteFailure | Unclear

  datatype Ceremony = Ceremony(registry: AccountPasskeyRegistry.State, running: Running, leases: set<nat>, activated: seq<nat>)

  datatype Event =
    | Begin(id: nat, serverUrl: nat, connector: nat, createdAt: nat, expiresAt: nat, optionsLoaded: bool, serverStable: bool)
    | Resume(connector: nat, contextHolds: bool)
    | SubmitStart(id: nat, connector: nat, contextHolds: bool, assertionOk: bool)
    | SubmitClaim(serverStable: bool)
    | CallActivate
    | ActivationEnded(result: Activation)
    | Status(contextHolds: bool)
    | Cancel(id: nat, connector: nat)
    | Restart

  datatype Step = Step(event: Event, r: Surroundings, later: Surroundings)

  datatype World = World(workerId: nat, cfg: Config)

  function ReadNow(s: Ceremony, r: Surroundings, w: World): Outcome<Option<Attempt>> {
    Read(s.registry, r.now, r.first, w.cfg)
  }

  /** A registry operation that throws leaves the lease where it is. */
  function Retired(s: Ceremony, a: Attempt, r: Surroundings, w: World): Ceremony {
    var o := MarkUnknownStep(s.registry, OwnerOf(a), r, w.cfg);
    s.(registry := o.state, leases := if o.answer.Ok? then s.leases - {a.id} else s.leases)
  }

  function Cleared(s: Ceremony, a: Attempt, r: Surroundings, w: World): Ceremony {
    var o := ClearStep(s.registry, OwnerOf(a), r, w.cfg);
    s.(registry := o.state, leases := if o.answer.Ok? then s.leases - {a.id} else s.leases)
  }

  /** Resuming or asking for the status: a claim that is found can only be left over, and is retired. */
  function Visit(s0: Ceremony, contextHolds: bool, step: Step, w: World): Ceremony {
    var read := ReadNow(s0, step.r, w);
    var s := s0.(registry := read.state);
    if read.answer.Err? || read.answer.value.None? || read.answer.value.value.Unknown? then s
    else
      var a := read.answer.value.value;
      if a.Claimed? then Retired(s, a, step.later, w)
      else if !contextHolds then Cleared(s, a, step.later, w)
      else s.(leases := s.leases + {a.id})
  }

  function OnSubmitStart(s0: Ceremony, id: nat, connector: nat, contextHolds: bool, assertionOk: bool, step: Step, w: World): Ceremony {
    var read := ReadNow(s0, step.r, w);
    var s := s0.(registry := read.state);
    if read.answer.Err? || read.answer.value.None? then s
    else
      var a := read.answer.value.value;
      if a.id != id || !a.Waiting? then s
      else if !contextHolds then Cleared(s, a, step.later, w)
      else
        var t := s.(leases := s.leases + {a.id});
        if a.connector != connector || !assertionOk then t else t.(running := Verified(OwnerOf(a)))
  }

  function OnSubmitClaim(s: Ceremony, serverStable: bool, step: Step, w: World): Ceremony {
    if !s.running.Verified? then s
    else
      var c := ClaimStep(s.registry, s.running.owner, w.workerId, step.r, w.cfg);
      var t := s.(registry := c.state);
      if c.answer.Err? || c.answer.value.None? || !serverStable then t.(running := Idle)
      else t.(running := Ready(OwnerOf(c.answer.value.value)))
  }

  /** A settled activation or a definite refusal clears the attempt; anything else leaves its outcome unknown. */
  function OnActivationEnded(s: Ceremony, result: Activation, step: Step, w: World): Ceremony {
    if !s.running.Activating? then s
    else
      var owner := s.running.owner;
      var clear := ClearStep(s.registry, owner, step.r, w.cfg);
      var unknown := (from: AccountPasskeyRegistry.State) =>
        s.(registry := MarkUnknownStep(from, owner, step.later, w.cfg).state, running := Idle, leases := s.leases - {owner.id});
      match result
      case Unclear => unknown(s.registry)
      case DefiniteFailure => s.(registry := clear.state, running := Idle, leases := s.leases - {owner.id})
      case Settled =>
        if clear.answer == Ok(true) then s.(registry := clear.state, running := Idle, leases := s.leases - {owner.id})
        else unknown(clear.state)
  }

  function OnCancel(s0: Ceremony, id: nat, connector: nat, step: Step, w: World): Ceremony {
    var read := ReadNow(s0, step.r, w);
    var s := s0.(registry := read.state);
    if read.answer.Err? || read.answer.value.None? || read.answer.value.value.id != id || read.answer.value.value.Unknown? then s
    else
      var a := read.answer.value.value;
      if a.Claimed? then Retired(s, a, step.later, w)
      else if a.connector != connector then s
      else
        var clear := ClearStep(s.registry, OwnerOf(a), step.later, w.cfg);
        s.(registry := clear.state, leases := if clear.answer == Ok(true) then s.leases - {a.id} else s.leases)
  }

  /**
   Nothing is begun while an attempt is stored. The server is asked for its options in between, and is
   checked again after the attempt was stored: when it changed, the attempt stays without a lease.
   */
  function OnBegin(s0: Ceremony, e: Event, step: Step, w: World): Ceremony
    requires e.Begin?
  {
    var read := ReadNow(s0, step.r, w);
    var s := s0.(registry := read.state);
    if read.answer.Err? || read.answer.value.Some? || !e.optionsLoaded then s
    else
      var created := CreateStep(s.registry, e.id, e.serverUrl, e.connector, e.createdAt, e.expiresAt, step.later, w.cfg);
      s.(registry := created.state,
         leases := if created.answer.Ok? && created.answer.value.Some? && e.serverStable then s.leases + {e.id} else s.leases)
  }

  /** The lane admits a new operation only while none is running. */
  function Apply(s: Ceremony, step: Step, w: World): Ceremony {
    match step.event
    case Restart => Ceremony(s.registry.(highWater := 0), Idle, {}, s.activated)
    case SubmitClaim(serverStable) => OnSubmitClaim(s, serverStable, step, w)
    case CallActivate =>
      if s.running.Ready? then s.(running := Activating(s.running.owner), activated := s.activated + [s.running.owner.id]) else s
    case ActivationEnded(result) => OnActivationEnded(s, result, step, w)
    case Begin(_, _, _, _, _, _, _) => if s.running == Idle then OnBegin(s, step.event, step, w) else s
    case Resume(connector, contextHolds) => if s.running == Idle then Visit(s, contextHolds, step, w) else s
    case Status(contextHolds) => if s.running == Idle then Visit(s, contextHolds, step, w) else s
    case SubmitStart(id, connector, contextHolds, assertionOk) =>
      if s.running == Idle then OnSubmitStart(s, id, connector, contextHolds, assertionOk, step, w) else s
    case Cancel(id, connector) => if s.running == Idle then OnCancel(s, id, connector, step, w) else s
  }

  function Run(s: Ceremony, steps: seq<Step>, w: World): Ceremony
    decreases |steps|
  {
    if steps == [] then s else Run(Apply(s, steps[0], w), steps[1..], w)
  }

  // ---------------------------------------------------------------------------------------------
  // At most once
  // ---------------------------------------------------------------------------------------------

  /** Attempt ids never repeat, and a write that reports success has taken effect. */
  predicate Possible(step: Step, used: set<nat>) {
    && (step.event.Begin? ==> step.event.id !in used)
    && Honest(step.r.first) && Honest(step.r.second) && Honest(step.later.first) && Honest(step.later.second)
  }

  function UsedAfter(step: Step, used: set<nat>): set<nat> {
    if step.event.Begin? then used + {step.event.id} else used
  }

  ghost predicate PossibleRun(steps: seq<Step>, used: set<nat>)
    decreases |steps|
  {
    steps == [] || (Possible(steps[0], used) && PossibleRun(steps[1..], UsedAfter(steps[0], used)))
  }

  ghost predicate Inv(s: Ceremony, used: set<nat>) {
    && (s.registry.stored.Held? ==> s.registry.stored.attempt.id in used)
    && (forall id :: id in s.activated ==> id in used && !WaitingFor(s.registry, id))
    && Distinct(s.activated)
    && (s.running.Ready? ==> s.running.owner.id in used && s.running.owner.id !in s.activated && ClaimedBy(s.registry, s.running.owner))
    && (s.running.Verified? ==> s.running.owner.id in used && s.running.owner.id !in s.activated)
    && (s.running.Activating? ==> s.running.owner.id in used)
  }

  lemma {:induction false} ReadFinds(r: AccountPasskeyRegistry.State, x: Surroundings, cfg: Config)
    ensures var t := Read(r, x.now, x.first, cfg);
            t.answer.Ok? && t.answer.value.Some? ==> r.stored == Held(t.answer.value.value) && t.state.stored == r.stored
  {
  }

  lemma {:induction false} VisitKeeps(s: Ceremony, contextHolds: bool, step: Step, w: World, used: set<nat>)
    requires Inv(s, used) && s.running == Idle
    ensures Inv(Visit(s, contextHolds, step, w), used)
  {
    hide Read, MarkUnknownStep, ClearStep;
    var read := ReadNow(s, step.r, w);
    RegistryMoves(s.registry, Owner(0, 0, 0), step.r, w.cfg);
    if read.answer.Ok? && read.answer.value.Some? {
      RegistryMoves(read.state, OwnerOf(read.answer.value.value), step.later, w.cfg);
    }
  }

  lemma {:induction false} SubmitStartKeeps(s: Ceremony, step: Step, w: World, used: set<nat>)
    requires Inv(s, used) && s.running == Idle && step.event.SubmitStart?
    ensures Inv(Apply(s, step, w), used)
  {
    hide Read, MarkUnknownStep, ClearStep;
    var read := ReadNow(s, step.r, w);
    RegistryMoves(s.registry, Owner(0, 0, 0), step.r, w.cfg);
    ReadFinds(s.registry, step.r, w.cfg);
    if read.answer.Ok? && read.answer.value.Some? {
      var a := read.answer.value.value;
      RegistryMoves(read.state, OwnerOf(a), step.later, w.cfg);
      assert a.Waiting? ==> WaitingFor(s.registry, a.id);
    }
  }

  lemma {:induction false} EndedKeeps(s: Ceremony, step: Step, w: World, used: set<nat>)
    requires Inv(s, used) && step.event.ActivationEnded?
    ensures Inv(Apply(s, step, w), used)
  {
    hide MarkUnknownStep, ClearStep;
    if s.running.Activating? {
      var owner := s.running.owner;
      RegistryMoves(s.registry, owner, step.r, w.cfg);
      RegistryMoves(s.registry, owner, step.later, w.cfg);
      RegistryMoves(ClearStep(s.registry, owner, step.r, w.cfg).state, owner, step.later, w.cfg);
    }
  }

  lemma {:induction false} CancelKeeps(s: Ceremony, step: Step, w: World, used: set<nat>)
    requires Inv(s, used) && s.running == Idle && step.event.Cancel?
    ensures Inv(Apply(s, step, w), used)
  {
    hide Read, MarkUnknownStep, ClearStep;
    var read := ReadNow(s, step.r, w);
    RegistryMoves(s.registry, Owner(0, 0, 0), step.r, w.cfg);
    if read.answer.Ok? && read.answer.value.Some? {
      RegistryMoves(read.state, OwnerOf(read.answer.value.value), step.later, w.cfg);
    }
  }

  lemma {:induction false} BeginKeeps(s: Ceremony, step: Step, w: World, used: set<nat>)
    requires Inv(s, used) && s.running == Idle && step.event.Begin? && Possible(step, used)
    ensures Inv(Apply(s, step, w), UsedAfter(step, used))
  {
    hide Read, CreateStep;
    var e := step.event;
    RegistryMoves(s.registry, Owner(0, 0, 0), step.r, w.cfg);
    CreateMoves(ReadNow(s, step.r, w).state, e.id, e.serverUrl, e.connector, e.createdAt, e.expiresAt, step.later, w.cfg);
  }

  /** Every piece of every operation keeps the invariant. */
  lemma {:induction false} StepKeepsInv(s: Ceremony, step: Step, w: World, used: set<nat>)
    requires Inv(s, used) && Possible(step, used)
    ensures Inv(Apply(s, step, w), UsedAfter(step, used))
  {
    hide Read, MarkUnknownStep, ClearStep, ClaimStep, CreateStep, OnActivationEnded, Visit, OnSubmitStart, OnCancel, OnBegin;
    match step.event {
      case Restart =>
      case SubmitClaim(serverStable) =>
        if s.running.Verified? {
          ClaimMoves(s.registry, s.running.owner, w.workerId, step.r, w.cfg);
        }
      case CallActivate =>
      case ActivationEnded(result) => EndedKeeps(s, step, w, used);
      case Begin(_, _, _, _, _, _, _) => if s.running == Idle { BeginKeeps(s, step, w, used); }
      case Resume(_, contextHolds) => if s.running == Idle { VisitKeeps(s, contextHolds, step, w, used); }
      case Status(contextHolds) => if s.running == Idle { VisitKeeps(s, contextHolds, step, w, used); }
      case SubmitStart(_, _, _, _) => if s.running == Idle { SubmitStartKeeps(s, step, w, used); }
      case Cancel(_, _) => if s.running == Idle { CancelKeeps(s, step, w, used); }
    }
  }

  lemma {:induction false} RunKeepsInv(s: Ceremony, steps: seq<Step>, w: World, used: set<nat>) returns (used': set<nat>)
    requires Inv(s, used) && PossibleRun(steps, used)
    ensures Inv(Run(s, steps, w), used')
    decreases |steps|
  {
    hide Inv, Apply, Possible;
    if steps == [] {
      used' := used;
    } else {
      StepKeepsInv(s, steps[0], w, used);
      used' := RunKeepsInv(Apply(s, steps[0], w), steps[1..], w, UsedAfter(steps[0], used));
    }
  }

  const FRESH: Ceremony := Ceremony(AccountPasskeyRegistry.State(Absent, 0), Idle, {}, [])

  /**
   Whatever the interleaving of begin, submit, cancel, status and resume, and however often the worker
   dies between two awaits: no attempt id is activated twice.
   */
  lemma {:induction false} ActivatedAtMostOnce(steps: seq<Step>, w: World)
    requires PossibleRun(steps, {})
    ensures Distinct(Run(FRESH, steps, w).activated)
  {
    hide Apply, Possible;
    assert Inv(FRESH, {});
    var _ := RunKeepsInv(FRESH, steps, w, {});
  }

  /** The claim is durable before the call: whenever activation is about to be called, the stored attempt is claimed. */
  lemma {:induction false} ClaimedBeforeActivation(steps: seq<Step>, w: World)
    requires PossibleRun(steps, {}) && Run(FRESH, steps, w).running.Ready?
    ensures var s := Run(FRESH, steps, w); ClaimedBy(s.registry, s.running.owner) && s.running.owner.id !in s.activated
  {
    hide Apply, Possible;
    assert Inv(FRESH, {});
    var _ := RunKeepsInv(FRESH, steps, w, {});
  }

  /** A worker that dies while activating leaves a claim that the next one can only retire: it never waits again. */
  lemma {:induction false} ActivatedNeverWaits(steps: seq<Step>, w: World, id: nat)
    requires PossibleRun(steps, {}) && id in Run(FRESH, steps, w).activated
    ensures !WaitingFor(Run(FRESH, steps, w).registry, id)
  {
    hide Apply, Possible;
    assert Inv(FRESH, {});
    var _ := RunKeepsInv(FRESH, steps, w, {});
  }

  /**
   Exactly when the next visit after such a death records an unknown outcome. When the store works and
   the record fits, the claim is gone either way: what cannot be recorded is erased.
   */
  lemma {:induction false} LeftoverClaimIsRetired(s: Ceremony, step: Step, w: World, contextHolds: bool)
    requires s.registry.stored.Held? && s.registry.stored.attempt.Claimed?
    requires ReadNow(s, step.r, w).answer == Ok(Some(s.registry.stored.attempt))
    ensures var a, x, t := s.registry.stored.attempt, step.later, Visit(s, contextHolds, step, w).registry;
            var top := Max(s.registry.highWater, a.generation);
            var unknown := Unknown(top + 1, a.id, a.serverUrl, a.createdAt, x.later + OUTCOME_UNKNOWN_TTL_MS, x.later);
            && (t.stored == Held(unknown) <==>
                  && LifetimeOk(a, x.now, false) && x.later + OUTCOME_UNKNOWN_TTL_MS <= MAX_SAFE_INTEGER
                  && top < MAX_SAFE_INTEGER && w.cfg.fits(unknown) && x.second.commits)
            && (x.first.commits && x.second.commits && w.cfg.fits(unknown) ==> t.stored == Held(unknown) || t.stored == Absent)
  {
  }

  // ---------------------------------------------------------------------------------------------
  // The coordinator object
  // ---------------------------------------------------------------------------------------------

  class AccountPasskeyCoordinator {
    const attempts: AccountPasskeyAttemptRegistry
    var running: Running
    var attemptLeases: set<nat>
    var activated: seq<nat>

    constructor (attempts: AccountPasskeyAttemptRegistry)
      ensures this.attempts == attempts && running == Idle && attemptLeases == {} && activated == []
    {
      this.attempts := attempts;
      running, attemptLeases, activated := Idle, {}, [];
    }

    function Now(): Ceremony
      reads this, attempts
    {
      Ceremony(attempts.Now(), running, attemptLeases, activated)
    }

    function Around(): World
      reads this, attempts
    {
      World(attempts.workerId, attempts.cfg)
    }

    /** Create an attempt and remember the server lease it was made under. */
    method Begin(id: nat, serverUrl: nat, connector: nat, createdAt: nat, expiresAt: nat, optionsLoaded: bool, serverStable: bool, step: Step)
      requires step.event == Event.Begin(id, serverUrl, connector, createdAt, expiresAt, optionsLoaded, serverStable) && running == Idle
      modifies this, attempts
      ensures Now() == Apply(old(Now()), step, Around())
    {
      hide Read, CreateStep;
      var current := attempts.ReadEnvelope(step.r.now, step.r.first);
      if current.Err? || current.value.Some? || !optionsLoaded {
        return;
      }
      var created := attempts.Create(id, serverUrl, connector, createdAt, expiresAt, step.later);
      if created.Ok? && created.value.Some? && serverStable {
        attemptLeases := attemptLeases + {id};
      }
    }

    /** Status, start-up and resume: retire a claim that a dead worker left behind. */
    method ReadStatus(contextHolds: bool, step: Step)
      requires running == Idle
      modifies this, attempts
      ensures Now() == Visit(old(Now()), contextHolds, step, Around())
    {
      hide Read, MarkUnknownStep, ClearStep;
      var current := attempts.ReadEnvelope(step.r.now, step.r.first);
      if current.Err? || current.value.None? || current.value.value.Unknown? {
        return;
      }
      var a := current.value.value;
      if a.Claimed? {
        var unknown := attempts.MarkOutcomeUnknown(OwnerOf(a), step.later);
        if unknown.Ok? {
          attemptLeases := attemptLeases - {a.id};
        }
        return;
      }
      if !contextHolds {
        var cleared := attempts.Clear(OwnerOf(a), step.later);
        if cleared.Ok? {
          attemptLeases := attemptLeases - {a.id};
        }
        return;
      }
      attemptLeases := attemptLeases + {a.id};
    }

    /** The part of a submission before the claim. */
    method SubmitVerify(id: nat, connector: nat, contextHolds: bool, assertionOk: bool, step: Step)
      requires step.event == SubmitStart(id, connector, contextHolds, assertionOk) && running == Idle
      modifies this, attempts
      ensures Now() == Apply(old(Now()), step, Around())
    {
      hide Read, ClearStep;
      var current := attempts.ReadEnvelope(step.r.now, step.r.first);
      if current.Err? || current.value.None? {
        return;
      }
      var a := current.value.value;
      if a.id != id || !a.Waiting? {
        return;
      }
      if !contextHolds {
        var cleared := attempts.Clear(OwnerOf(a), step.later);
        if cleared.Ok? {
          attemptLeases := attemptLeases - {a.id};
        }
        return;
      }
      attemptLeases := attemptLeases + {a.id};
      if a.connector == connector && assertionOk {
        running := Verified(OwnerOf(a));
      }
    }

    /** The claim: the submission goes on only with a claim of its own and an unchanged server. */
    method SubmitTakeClaim(serverStable: bool, step: Step)
      requires step.event == SubmitClaim(serverStable) && running.Verified?
      modifies this, attempts
      ensures Now() == Apply(old(Now()), step, Around())
    {
      hide ClaimStep;
      var claimed := attempts.Claim(running.owner, step.r);
      if claimed.Err? || claimed.value.None? || !serverStable {
        running := Idle;
        return;
      }
      running := Ready(OwnerOf(claimed.value.value));
    }

    method Activate(step: Step)
      requires step.event == CallActivate && running.Ready?
      modifies this
      ensures Now() == Apply(old(Now()), step, Around())
    {
      activated := activated + [running.owner.id];
      running := Activating(running.owner);
    }

    /** The part after the call: clear what is settled, retire what is not. */
    method SubmitFinish(result: Activation, step: Step)
      requires step.event == ActivationEnded(result) && running.Activating?
      modifies this, attempts
      ensures Now() == Apply(old(Now()), step, Around())
    {
      hide ClearStep, MarkUnknownStep;
      var owner := running.owner;
      running := Idle;
      attemptLeases := attemptLeases - {owner.id};
      if !result.Unclear? {
        var cleared := attempts.Clear(owner, step.r);
        if result.DefiniteFailure? || cleared == Ok(true) {
          return;
        }
      }
      var _ := attempts.MarkOutcomeUnknown(owner, step.later);
    }

    method CancelAttempt(id: nat, connector: nat, step: Step)
      requires step.event == Cancel(id, connector) && running == Idle
      modifies this, attempts
      ensures Now() == Apply(old(Now()), step, Around())
    {
      hide Read, MarkUnknownStep, ClearStep;
      var current := attempts.ReadEnvelope(step.r.now, step.r.first);
      if current.Err? || current.value.None? || current.value.value.id != id || current.value.value.Unknown? {
        return;
      }
      var a := current.value.value;
      if a.Claimed? {
        var unknown := attempts.MarkOutcomeUnknown(OwnerOf(a), step.later);
        if unknown.Ok? {
          attemptLeases := attemptLeases - {a.id};
        }
        return;
      }
      if a.connector != connector {
        return;
      }
      var cleared := attempts.Clear(OwnerOf(a), step.later);
      if cleared == Ok(true) {
        attemptLeases := attemptLeases - {a.id};
      }
    }
  }
}
