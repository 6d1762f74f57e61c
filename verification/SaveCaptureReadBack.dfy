/**
 When the journals of a run can be read back. A stored journal the parser refuses costs every capture,
 so this module says exactly which operations hand on a journal that parses, and lifts that to runs.
 */
module SaveCaptureReadBack {
  import opened Numbers
  import opened Sequences
  import opened SaveCaptureTypes
  import opened SaveCaptureEvaluation
  import opened SaveCaptureRequests
  import opened SaveCaptureSteps
  import opened SaveCaptureStorage
  import opened SaveCaptureCoordinator
  import opened SaveCaptureRuns

  predicate TimelyTerminal(t: Terminal) {
    t.timeStamp < t.expiresAt <= MAX_SAFE_INTEGER
  }

  /** Times lie in the exact range, events are reported after they happened, and captures keep their own limits. */
  predicate Timely(s: Step) {
    match s.operation
    case AdmissionBegins(e, _) => e.enteredAt < MAX_SAFE_INTEGER
    case AdmissionResolves(_, b) => b.timeStamp < MAX_SAFE_INTEGER
    case RequestSeen(b) => b.timeStamp < MAX_SAFE_INTEGER
    case RedirectSeen(x) => x.timeStamp < x.expiresAt <= MAX_SAFE_INTEGER && x.timeStamp <= s.around.now
    case CompletionSeen(t, _) => TimelyTerminal(t)
    case ErrorSeen(t) => TimelyTerminal(t)
    case CaptureStaged(c) => CaptureStorable(c)
    case RuntimeActivated(c, _, _) => forall r :: r in c.retired ==> r.retiredAt < MAX_SAFE_INTEGER
    case _ => true
  }

  // ---------------------------------------------------------------------------------------------
  // What an operation hands on
  // ---------------------------------------------------------------------------------------------

  /** A request stays on its document's site, unless it is known already or there is no room for it. */
  predicate StaysOnSite(config: Config, j: Journal, b: Before) {
    TrackedRequest(j, b.requestId).Some? || |j.requests| >= config.capacity || SameSite(config, b.source, b.url)
  }

  /** What the operation must not do to a journal that parses: leave the site, or overtake a continuation. */
  predicate KeepsReadable(config: Config, j: Journal, s: Step) {
    match s.operation
    case AdmissionResolves(id, b) =>
      var k := IndexOf(j.admissions, HasAdmissionId(id));
      || !WellFormed(b) || k.None? || !Describes(j.admissions[k.value], b)
      || RuntimeRetired(j, s.around.memory, s.around.now, j.admissions[k.value].runtime)
      || StaysOnSite(config, j, b)
    case RequestSeen(b) => !WellFormed(b) || RuntimeForRequest(j, b).None? || StaysOnSite(config, j, b)
    case RedirectSeen(x) => NoContinuation(j, x.requestId)
    case CompletionSeen(t, _) => NoContinuation(j, t.requestId)
    case ErrorSeen(t) =>
      var r := TrackedRequest(j, t.requestId);
      r.Some? && StepRequest(config, r.value, Failing(t)).Some? ==> r.value.continuation.None?
    case _ => true
  }

  lemma {:induction false} SubjournalStorable(config: Config, j: Journal, k: Journal)
    requires Storable(config, j)
    requires (forall c :: c in k.captures ==> c in j.captures) && (forall r :: r in k.requests ==> r in j.requests)
    requires (forall o :: o in k.outcomes ==> o in j.outcomes) && (forall r :: r in k.retired ==> r in j.retired)
    requires forall a :: a in k.admissions ==> a in j.admissions
    requires k.blockedUntil <= MAX_SAFE_INTEGER && k.runtimeFenceUntil <= MAX_SAFE_INTEGER
    ensures Storable(config, k)
  {
    hide RequestStorable, CaptureStorable, OutcomeStorable, RetiredStorable, AdmissionStorable;
  }

  lemma {:induction false} OpenedStorable(config: Config, stored: Option<Journal>, x: Surroundings)
    requires stored.Some? ==> Storable(config, stored.value)
    ensures Storable(config, Opened(config, stored, x))
    ensures forall r :: r in Opened(config, stored, x).requests ==> r.expiresAt > x.now
  {
    hide Filter, RequestStorable, CaptureStorable, OutcomeStorable, RetiredStorable, AdmissionStorable, WithinLimits;
    if stored.Some? {
      SubjournalStorable(config, stored.value, Opened(config, stored, x));
    }
  }

  lemma {:induction false} StorableOthers(config: Config, j: Journal)
    requires Storable(config, j)
    ensures Storable(config, j.(requests := []))
  {
  }

  lemma {:induction false} DeadlinesInRange(config: Config, j: Journal, highWater: nat, reported: set<string>)
    requires Storable(config, j.(requests := []))
    ensures j.blockedUntil <= MAX_SAFE_INTEGER && j.runtimeFenceUntil <= MAX_SAFE_INTEGER
    ensures var k := Announce(Stored(j, highWater), reported);
            k.blockedUntil <= MAX_SAFE_INTEGER && k.runtimeFenceUntil <= MAX_SAFE_INTEGER
  {
  }

  lemma {:induction false} BlockedStorable(config: Config, j: Journal, until: nat)
    requires Storable(config, j) && until <= MAX_SAFE_INTEGER
    ensures Storable(config, BlockAll(j, until))
  {
  }

  lemma {:induction false} SettledStorable(config: Config, j: Journal, x: Surroundings)
    requires Storable(config, j)
    ensures Storable(config, Settle(config, j, x))
  {
    hide Storable, Evaluate, AttemptsOf;
    EvaluateKeepsStorable(config, j, x.memory, x.now, x.cleaned, AttemptsOf(config, x));
  }

  /** A tombstone an activation may leave can be stored when the clock is in range. */
  lemma {:induction false} ChangeStorable(config: Config, j: Journal, c: Change)
    requires ValidConfig(config) && Storable(config, j) && ValidChange(config, j, c)
    requires forall r :: r in c.retired ==> r.retiredAt < MAX_SAFE_INTEGER
    ensures Storable(config, ApplyChange(j, c))
  {
    hide Filter, Distinct, RequestStorable, CaptureStorable, OutcomeStorable, AdmissionStorable;
    var k := ApplyChange(j, c);
    forall r | r in k.retired ensures RetiredStorable(r) {
      assert MayLeave(config, j, c.removed, r);
      if r.(cleanupPending := true) in j.retired {
        assert RetiredStorable(r.(cleanupPending := true));
      }
    }
    assert forall d :: d in k.captures ==> d in j.captures;
    assert forall r :: r in k.requests ==> r in j.requests;
    assert forall o :: o in k.outcomes ==> o in j.outcomes;
    assert forall a :: a in k.admissions ==> a in j.admissions;
  }

  lemma {:induction false} PresentedStorable(config: Config, j: Journal, first: Option<Surroundings>)
    requires Storable(config, j)
    ensures Storable(config, Presented(config, j, first))
  {
    hide Storable, Settle;
    if first.Some? {
      SettledStorable(config, j, first.value);
    }
  }

  /** Exactly which operations hand on a journal that parses. */
  lemma {:induction false} TurnStorable(config: Config, stored: Option<Journal>, s: Step)
    requires ValidConfig(config) && Honest(config, stored, s) && Timely(s)
    requires stored.Some? ==> Storable(config, stored.value)
    ensures var j := Opened(config, stored, s.around);
            var t := Turned(config, j, s.operation, s.around);
            !t.Stops? ==> (Storable(config, t.journal) <==> KeepsReadable(config, j, s))
  {
    var j := Opened(config, stored, s.around);
    OpenedStorable(config, stored, s.around);
    if s.operation.RuntimeActivated? {
      hide Storable, Settle, ApplyChange, ValidChange, Opened;
      PresentedStorable(config, j, s.operation.settledFirst);
      ChangeStorable(config, Presented(config, j, s.operation.settledFirst), s.operation.change);
    } else {
      EventStorable(config, j, s);
    }
  }

  lemma {:induction false} EventStorable(config: Config, j: Journal, s: Step)
    requires ValidConfig(config) && Timely(s) && !s.operation.RuntimeActivated?
    requires Storable(config, j) && forall r :: r in j.requests ==> r.expiresAt > s.around.now
    ensures var t := Turned(config, j, s.operation, s.around);
            !t.Stops? ==> (Storable(config, t.journal) <==> KeepsReadable(config, j, s))
  {
    hide Storable, Begin, Resolve, FailBefore, ObserveBefore, ObserveRedirect, ObserveCompleted, ObserveError, Stage, ClearTab, Navigate;
    hide BlockAll, MayStage, Describes, RuntimeRetired, RuntimeForRequest, SameSite, StepRequest, Unadmittable, CaptureStorable, WellFormed;
    var x := s.around;
    match s.operation
    case AdmissionBegins(e, id) => AdmissionStepsKeepStorable(config, j, x.memory, x.now, e, id);
    case AdmissionResolves(id, b) =>
      if WellFormed(b) {
        ResolveStorable(config, j, x.memory, x.now, id, b);
      }
    case AdmissionFails(id) => AdmissionStepsKeepStorable(config, j, x.memory, x.now, Entry("", 0, 0, None, None, 0), id);
    case RequestSeen(b) =>
      BlockedStorable(config, j, SafeAdd(x.now, config.ttl));
      if WellFormed(b) {
        BeforeStorable(config, j, b);
      }
    case RedirectSeen(r) => RedirectStorable(config, j, r);
    case CompletionSeen(t, statusCode) => CompletionStorable(config, j, t, statusCode);
    case ErrorSeen(t) => ErrorStorable(config, j, t);
    case CaptureStaged(c) => StageKeepsStorable(config, j, c);
    case TabCleared(tab) => ClearTabKeepsStorable(config, j, tab);
    case Navigated(tab, frame, document) => NavigateKeepsStorable(config, j, tab, frame, document);
    case WindowInvalidated(timeStamp) => BlockedStorable(config, j, SafeAdd(timeStamp, config.ttl));
    case Reconciled =>
    case Cleared => EmptyStorable(config, EmptyJournal(j.revision));
  }

  lemma {:induction false} EmptyStorable(config: Config, j: Journal)
    requires j.captures == [] && j.requests == [] && j.outcomes == [] && j.retired == [] && j.admissions == []
    requires j.blockedUntil <= MAX_SAFE_INTEGER && j.runtimeFenceUntil <= MAX_SAFE_INTEGER
    ensures Storable(config, j)
  {
  }

  /** Neither announcing a confirmation, nor the revision, nor an overflow makes a journal unreadable. */
  lemma {:induction false} WrittenStorable(config: Config, j: Journal, x: Surroundings, reported: set<string>)
    requires Storable(config, j)
    ensures Storable(config, Stored(j, x.highWater)) && Storable(config, Announce(Stored(j, x.highWater), reported))
  {
    hide Filter, RequestStorable, CaptureStorable, OutcomeStorable, RetiredStorable, AdmissionStorable;
    SubjournalStorable(config, j, Announce(Stored(j, x.highWater), reported));
  }

  lemma {:induction false} OverflowStorable(config: Config, j: Journal, x: Surroundings)
    requires j.blockedUntil <= MAX_SAFE_INTEGER && j.runtimeFenceUntil <= MAX_SAFE_INTEGER
    ensures Storable(config, Stored(Overflowed(config, j, x.now), x.highWater))
  {
    hide SafeAdd;
  }

  // ---------------------------------------------------------------------------------------------
  // What the evaluation still does about it
  // ---------------------------------------------------------------------------------------------

  /** Does an attempt to confirm some capture block the journal, and so drop every request? */
  ghost predicate BlocksNow(config: Config, k: Journal, x: Surroundings) {
    var q, w := Basis(config, k, x.now, x.cleaned), VolatileAfter(k, x.memory, x.cleaned);
    k.blockedUntil <= x.now && exists c :: c in q.captures && Blocks(config, q, w, x.now, AttemptsOf(config, x), c)
  }

  /** Does the evaluation drop the records of this runtime and this expiry? */
  predicate Dropped(retired: seq<RetiredRuntime>, now: nat, r: Request) {
    r.expiresAt <= now || PendingCleanup(retired, r.runtime)
  }

  /** Exactly when settling makes a journal storable whose requests may not be. */
  lemma {:induction false} SettledStorableExactly(config: Config, k: Journal, x: Surroundings)
    requires Storable(config, k.(requests := []))
    ensures Storable(config, Settle(config, k, x)) <==>
            BlocksNow(config, k, x) || forall r :: r in k.requests && !Dropped(k.retired, x.now, r) ==> RequestStorable(config, r)
  {
    hide Evaluate, RequestStorable, AttemptsOf, BlocksNow, Dropped;
    EvaluateKeepsOthers(config, k, x.memory, x.now, x.cleaned, AttemptsOf(config, x));
    SettledRequestsExactly(config, k, x);
  }

  lemma {:induction false} SettledRequestsExactly(config: Config, k: Journal, x: Surroundings)
    ensures BlocksNow(config, k, x) ==> Settle(config, k, x).requests == []
    ensures !BlocksNow(config, k, x) ==>
              forall r :: r in Settle(config, k, x).requests <==> r in k.requests && !Dropped(k.retired, x.now, r)
  {
    hide Filter, Judge, Blocks, AttemptsOf, VolatileAfter;
    var q, w := Basis(config, k, x.now, x.cleaned), VolatileAfter(k, x.memory, x.cleaned);
    JudgeBlocks(config, q, w, x.now, AttemptsOf(config, x), q.captures);
    assert forall r :: RequestSurvives(k.retired, x.now)(r) == !Dropped(k.retired, x.now, r);
  }

  /** The record that an operation makes unreadable: a new one, or the tracked one it overtakes. */
  function Offending(config: Config, j: Journal, s: Step): Request
    requires !KeepsReadable(config, j, s)
  {
    match s.operation
    case AdmissionResolves(id, b) =>
      FreshRequest(config, b, j.admissions[IndexOf(j.admissions, HasAdmissionId(id)).value].runtime.incarnation)
    case RequestSeen(b) => FreshRequest(config, b, RuntimeForRequest(j, b).value)
    case RedirectSeen(x) => TrackedRequest(j, x.requestId).value
    case CompletionSeen(t, _) => TrackedRequest(j, t.requestId).value
    case ErrorSeen(t) => TrackedRequest(j, t.requestId).value
  }

  /** The journal holds one refused record with the runtime and the expiry of this one, and no other. */
  ghost predicate RefusedFor(config: Config, k: Journal, o: Request) {
    && Storable(config, k.(requests := []))
    && (exists r :: r in k.requests && !RequestStorable(config, r) && r.runtime == o.runtime && r.expiresAt == o.expiresAt)
    && (forall r :: r in k.requests ==> RequestStorable(config, r) || (r.runtime == o.runtime && r.expiresAt == o.expiresAt))
  }

  lemma {:induction false} RefusedReplaced(config: Config, j: Journal, i: nat, r: Request)
    requires Storable(config, j) && i < |j.requests| && !RequestStorable(config, r)
    requires r.runtime == j.requests[i].runtime && r.expiresAt == j.requests[i].expiresAt
    ensures RefusedFor(config, j.(requests := j.requests[i := r]), j.requests[i])
  {
    hide RequestStorable, CaptureStorable, OutcomeStorable, RetiredStorable, AdmissionStorable;
    var k := j.(requests := j.requests[i := r]);
    assert k.requests[i] == r;
    forall x | x in k.requests ensures x == r || x in j.requests {
    }
  }

  /** An event leaves the runtime and the expiry of its record alone. */
  lemma {:induction false} StepKeepsOwner(config: Config, r: Request, e: NetEvent)
    ensures var s := StepRequest(config, r, e); s.Some? ==> s.value.runtime == r.runtime && s.value.expiresAt == r.expiresAt
  {
  }

  lemma {:induction false} OvertakenIsRefused(config: Config, j: Journal, id: string, e: NetEvent)
    requires Storable(config, j) && TrackedRequest(j, id).Some? && TrackedRequest(j, id).value.continuation.Some?
    requires StepRequest(config, TrackedRequest(j, id).value, e).Some? && !e.Again?
    requires EventBefore(e, TrackedRequest(j, id).value.expiresAt)
    ensures var i := IndexOf(j.requests, HasRequestId(id)).value;
            RefusedFor(config, j.(requests := j.requests[i := StepRequest(config, j.requests[i], e).value]), TrackedRequest(j, id).value)
  {
    hide RequestStorable, StepRequest, RefusedFor;
    var i := IndexOf(j.requests, HasRequestId(id)).value;
    assert j.requests[i] in j.requests;
    StepStorable(config, j.requests[i], e);
    StepKeepsOwner(config, j.requests[i], e);
    RefusedReplaced(config, j, i, StepRequest(config, j.requests[i], e).value);
  }

  /** A new record is appended, its phase perhaps decided by an early outcome that goes. */
  lemma {:induction false} AddedShape(config: Config, j: Journal, r: Request)
    requires TrackedRequest(j, r.id).None? && |j.requests| < config.capacity
    ensures var k := AddRequest(config, j, r);
            && |k.requests| == |j.requests| + 1
            && k == j.(requests := j.requests + [r.(phase := k.requests[|j.requests|].phase)], outcomes := k.outcomes)
            && (forall o :: o in k.outcomes ==> o in j.outcomes)
            && (k.requests[|j.requests|].phase != r.phase ==> k.requests[|j.requests|].phase in {Succeeded, Failed})
  {
    hide TerminalMatches;
  }

  lemma {:induction false} PhaseIsNoMatter(config: Config, r: Request, phase: RequestPhase)
    requires r.phase == Started && r.continuation == None && (phase == Started || phase in {Succeeded, Failed})
    ensures RequestStorable(config, r.(phase := phase)) <==> RequestStorable(config, r)
  {
    hide SameSite;
  }

  lemma {:induction false} AddedIsRefused(config: Config, j: Journal, r: Request)
    requires Storable(config, j) && r.phase == Started && r.continuation == None && !RequestStorable(config, r)
    requires TrackedRequest(j, r.id).None? && |j.requests| < config.capacity
    ensures RefusedFor(config, AddRequest(config, j, r), r) && AddRequest(config, j, r).retired == j.retired
  {
    hide AddRequest, TrackedRequest, RequestStorable, CaptureStorable, OutcomeStorable, RetiredStorable, AdmissionStorable;
    AddedShape(config, j, r);
    var k := AddRequest(config, j, r);
    var added := k.requests[|j.requests|];
    PhaseIsNoMatter(config, r, added.phase);
    assert added in k.requests;
  }

  /** An operation that keeps nothing readable leaves exactly the one refused record. */
  lemma {:induction false} OffendingIsRefused(config: Config, j: Journal, s: Step)
    requires ValidConfig(config) && Timely(s) && !KeepsReadable(config, j, s)
    requires Storable(config, j) && forall r :: r in j.requests ==> r.expiresAt > s.around.now
    ensures var t := Turned(config, j, s.operation, s.around);
            t.Settles? && RefusedFor(config, t.journal, Offending(config, j, s)) && t.journal.retired == j.retired
  {
    hide Storable, RequestStorable, StepRequest, Describes, RuntimeRetired, RuntimeForRequest, SameSite, RefusedFor, AddRequest, FreshRequest;
    match s.operation
    case AdmissionResolves(id, b) => ResolvedIsRefused(config, j, s);
    case RequestSeen(b) =>
      var r := FreshRequest(config, b, RuntimeForRequest(j, b).value);
      FreshIsNew(config, b, RuntimeForRequest(j, b).value);
      AddedIsRefused(config, j, r);
    case RedirectSeen(x) =>
      var r := TrackedRequest(j, x.requestId).value;
      assert r in j.requests;
      StepAnswers(config, r, Redirecting(x));
      OvertakenIsRefused(config, j, x.requestId, Redirecting(x));
    case CompletionSeen(t, statusCode) =>
      StepAnswers(config, TrackedRequest(j, t.requestId).value, Completing(t, statusCode));
      OvertakenIsRefused(config, j, t.requestId, Completing(t, statusCode));
    case ErrorSeen(t) => OvertakenIsRefused(config, j, t.requestId, Failing(t));
  }

  /** A request off the site of its document starts a record that cannot be stored. */
  lemma {:induction false} FreshIsNew(config: Config, b: Before, incarnation: string)
    requires ValidConfig(config) && WellFormed(b) && b.timeStamp < MAX_SAFE_INTEGER
    ensures var r := FreshRequest(config, b, incarnation);
            r.id == b.requestId && r.phase == Started && r.continuation == None
            && (RequestStorable(config, r) <==> SameSite(config, b.source, b.url))
  {
    hide SameSite, RequestStorable;
    FreshStorable(config, b, incarnation);
  }

  lemma {:induction false} ResolvedIsRefused(config: Config, j: Journal, s: Step)
    requires ValidConfig(config) && Timely(s) && !KeepsReadable(config, j, s) && s.operation.AdmissionResolves? && Storable(config, j)
    ensures var t := Turned(config, j, s.operation, s.around);
            t.Settles? && RefusedFor(config, t.journal, Offending(config, j, s)) && t.journal.retired == j.retired
  {
    hide RequestStorable, Describes, RuntimeRetired, SameSite, RefusedFor, AddRequest, FreshRequest, CaptureStorable, OutcomeStorable, RetiredStorable, AdmissionStorable;
    var b := s.operation.request;
    var k := IndexOf(j.admissions, HasAdmissionId(s.operation.admissionId)).value;
    var m := j.(admissions := RemoveAt(j.admissions, k));
    assert forall a :: a in m.admissions ==> a in j.admissions;
    FreshIsNew(config, b, j.admissions[k].runtime.incarnation);
    AddedIsRefused(config, m, FreshRequest(config, b, j.admissions[k].runtime.incarnation));
  }

  // ---------------------------------------------------------------------------------------------
  // What is stored
  // ---------------------------------------------------------------------------------------------

  /** Does this operation store the settled journal itself? */
  predicate StoresSettled(s: Step) {
    s.around.ending == FirstWritten || s.around.ending == BothWritten
  }

  /** The operation is harmless, or its refused record never reaches the store. */
  ghost predicate Harmless(config: Config, j: Journal, s: Step) {
    KeepsReadable(config, j, s) || !StoresSettled(s) || Dropped(j.retired, s.around.now, Offending(config, j, s))
    || BlocksNow(config, Turned(config, j, s.operation, s.around).journal, s.around)
  }

  lemma {:induction false} OffendingSettles(config: Config, stored: Option<Journal>, s: Step)
    requires ValidConfig(config) && Timely(s) && (stored.Some? ==> Storable(config, stored.value))
    requires !KeepsReadable(config, Opened(config, stored, s.around), s)
    ensures var j := Opened(config, stored, s.around);
            var t := Turned(config, j, s.operation, s.around);
            && t.Settles? && Storable(config, t.journal.(requests := []))
            && (Storable(config, Settle(config, t.journal, s.around)) <==>
                  BlocksNow(config, t.journal, s.around) || Dropped(j.retired, s.around.now, Offending(config, j, s)))
  {
    hide Storable, Opened, Turned, Settle, Timely, KeepsReadable, RequestStorable, BlocksNow, Offending;
    var j := Opened(config, stored, s.around);
    OpenedStorable(config, stored, s.around);
    OffendingIsRefused(config, j, s);
    SettledStorableExactly(config, Turned(config, j, s.operation, s.around).journal, s.around);
  }

  /** Exactly which operations store a journal whose records parse. */
  lemma {:induction false} StepStorableExactly(config: Config, stored: Option<Journal>, s: Step)
    requires ValidConfig(config) && Honest(config, stored, s) && Timely(s)
    requires stored.Some? ==> Storable(config, stored.value)
    ensures var t := StepStored(config, stored, s);
            (t.Some? ==> Storable(config, t.value)) <==> Harmless(config, Opened(config, stored, s.around), s)
  {
    hide Storable, Opened, Turned, Settle, Announce, Overflowed, Stored, Honest, KeepsReadable, Timely, Dropped, BlocksNow, Offending;
    var x := s.around;
    var j := Opened(config, stored, x);
    if KeepsReadable(config, j, s) {
      StepStaysStorable(config, stored, s);
    } else {
      OffendingSettles(config, stored, s);
      RefusedIsWritten(config, stored, Turned(config, j, s.operation, x).journal, s);
    }
  }

  lemma {:induction false} RefusedIsWritten(config: Config, stored: Option<Journal>, k: Journal, s: Step)
    requires (stored.Some? ==> Storable(config, stored.value)) && Storable(config, k.(requests := []))
    ensures var t := Finish(config, stored, Settles(k), s.around);
            (t.Some? ==> Storable(config, t.value)) <==> !StoresSettled(s) || Storable(config, Settle(config, k, s.around))
  {
    hide Storable, Evaluate, Announce, Overflowed, Stored, AttemptsOf;
    var x := s.around;
    EvaluateKeepsOthers(config, k, x.memory, x.now, x.cleaned, AttemptsOf(config, x));
    var e := Settle(config, k, x);
    AnnouncedStorable(config, e, x.highWater, x.reported);
    DeadlinesInRange(config, e, x.highWater, x.reported);
    OverflowStorable(config, e, x);
    OverflowStorable(config, Announce(Stored(e, x.highWater), x.reported), x);
  }

  /** Neither the revision nor an announcement makes a difference to the parser. */
  lemma {:induction false} AnnouncedStorable(config: Config, e: Journal, highWater: nat, reported: set<string>)
    requires Storable(config, e.(requests := []))
    ensures Storable(config, Stored(e, highWater)) <==> Storable(config, e)
    ensures Storable(config, Stored(Announce(Stored(e, highWater), reported), highWater)) <==> Storable(config, e)
  {
    hide Filter, RequestStorable, CaptureStorable, OutcomeStorable, RetiredStorable, AdmissionStorable;
  }

  lemma {:induction false} StepStaysStorable(config: Config, stored: Option<Journal>, s: Step)
    requires ValidConfig(config) && Honest(config, stored, s) && Timely(s)
    requires KeepsReadable(config, Opened(config, stored, s.around), s)
    requires stored.Some? ==> Storable(config, stored.value)
    ensures var t := StepStored(config, stored, s); t.Some? ==> Storable(config, t.value)
  {
    hide Storable, Opened, Turned, Settle, Announce, Overflowed, Stored, Honest, KeepsReadable, Timely;
    var x := s.around;
    var j := Opened(config, stored, x);
    TurnStorable(config, stored, s);
    match Turned(config, j, s.operation, x)
    case Stops =>
    case Writes(k) =>
      WrittenStorable(config, k, x, {});
      StorableOthers(config, k);
      DeadlinesInRange(config, k, x.highWater, {});
      OverflowStorable(config, k, x);
    case Settles(k) =>
      SettledStorable(config, k, x);
      var e := Settle(config, k, x);
      var second := Announce(Stored(e, x.highWater), x.reported);
      WrittenStorable(config, e, x, x.reported);
      WrittenStorable(config, second, x, {});
      StorableOthers(config, e);
      DeadlinesInRange(config, e, x.highWater, x.reported);
      OverflowStorable(config, e, x);
      OverflowStorable(config, second, x);
  }

  // ---------------------------------------------------------------------------------------------
  // Whole runs
  // ---------------------------------------------------------------------------------------------

  /** Whatever is stored is read back at any time, but for the expired records. */
  ghost predicate ReadsBack(config: Config, t: Option<Journal>) {
    t.Some? ==> forall now: nat :: ParseJournal(config, t.value, now) == Some(DropExpired(t.value, now))
  }

  /** Whatever the time, the parser refuses what is stored. */
  ghost predicate Unreadable(config: Config, t: Option<Journal>) {
    t.Some? && forall now: nat :: ParseJournal(config, t.value, now) == None
  }

  ghost predicate TimelyRun(log: seq<Step>) {
    forall i :: 0 <= i < |log| ==> Timely(log[i])
  }

  /** Every step of the run is harmless to the journal it finds. */
  ghost predicate HarmlessRun(config: Config, log: seq<Step>) {
    forall i :: 0 <= i < |log| ==> Harmless(config, Opened(config, RunStored(config, log[..i]), log[i].around), log[i])
  }

  lemma {:induction false} HarmlessPrefix(config: Config, log: seq<Step>, n: nat)
    requires HarmlessRun(config, log) && n <= |log|
    ensures HarmlessRun(config, log[..n])
  {
    hide Harmless, RunStored, Opened;
    forall i | 0 <= i < n ensures Harmless(config, Opened(config, RunStored(config, log[..n][..i]), log[..n][i].around), log[..n][i]) {
      assert log[..n][..i] == log[..i];
    }
  }

  /** What a run stores is read back exactly when its records parse, and is refused for ever otherwise. */
  lemma {:induction false} RunParses(config: Config, log: seq<Step>)
    requires ValidConfig(config) && HonestRun(config, log) && RunStored(config, log).Some?
    ensures var t := RunStored(config, log);
            && (Storable(config, t.value) ==> ReadsBack(config, t) && !Unreadable(config, t))
            && (!Storable(config, t.value) ==> Unreadable(config, t) && !ReadsBack(config, t))
  {
    hide Sound, Clear, Interred, Storable, HonestRun, DropExpired, RunStored;
    RunIsSound(config, log);
    var j := RunStored(config, log).value;
    SoundInv(config, j, RunHistories(config, log));
    WithinLimitsIsInv(config, j);
    var zero: nat := 0;
    assert ParseJournal(config, j, zero) == if Storable(config, j) then Some(DropExpired(j, zero)) else None;
  }

  lemma {:induction false} HarmlessRunStays(config: Config, log: seq<Step>)
    requires ValidConfig(config) && HonestRun(config, log) && TimelyRun(log) && HarmlessRun(config, log)
    ensures RunStored(config, log).Some? ==> Storable(config, RunStored(config, log).value)
  {
    hide StepStored, Honest, Timely, Harmless, Storable, Opened;
    if log != [] {
      var n := |log| - 1;
      HonestPrefix(config, log, n);
      HarmlessPrefix(config, log, n);
      HarmlessRunStays(config, log[..n]);
      assert Honest(config, RunStored(config, log[..n]), log[n]) && Timely(log[n]);
      StepStorableExactly(config, RunStored(config, log[..n]), log[n]);
    }
  }

  /**
   Over every run: everything it ever stores is read back, if and only if no step of it is harmful; that
   is, if and only if a request that leaves the site of its document, or is overtaken while its
   continuation is pending, never reaches the store.
   */
  lemma {:induction false} RunReadsBackExactly(config: Config, log: seq<Step>)
    requires ValidConfig(config) && HonestRun(config, log) && TimelyRun(log)
    ensures (forall n :: 0 <= n <= |log| ==> ReadsBack(config, RunStored(config, log[..n]))) <==> HarmlessRun(config, log)
  {
    hide StepStored, Honest, Timely, Harmless, Storable, Opened, ReadsBack, Unreadable, RunStored;
    if HarmlessRun(config, log) {
      forall n | 0 <= n <= |log| ensures ReadsBack(config, RunStored(config, log[..n])) {
        HonestPrefix(config, log, n);
        HarmlessPrefix(config, log, n);
        HarmlessRunStays(config, log[..n]);
        PrefixReadsBack(config, log, n);
      }
    }
    if forall n :: 0 <= n <= |log| ==> ReadsBack(config, RunStored(config, log[..n])) {
      forall i | 0 <= i < |log|
        ensures Harmless(config, Opened(config, RunStored(config, log[..i]), log[i].around), log[i])
      {
        PrefixReadsBack(config, log, i);
        PrefixReadsBack(config, log, i + 1);
        StepOfRun(config, log, i);
        StepStorableExactly(config, RunStored(config, log[..i]), log[i]);
      }
    }
  }

  lemma {:induction false} PrefixReadsBack(config: Config, log: seq<Step>, n: nat)
    requires ValidConfig(config) && HonestRun(config, log) && n <= |log|
    ensures var t := RunStored(config, log[..n]); ReadsBack(config, t) <==> (t.Some? ==> Storable(config, t.value))
  {
    hide HonestRun, RunStored, Storable, Unreadable;
    HonestPrefix(config, log, n);
    if RunStored(config, log[..n]).Some? {
      RunParses(config, log[..n]);
    }
  }

  lemma {:induction false} StepOfRun(config: Config, log: seq<Step>, i: nat)
    requires HonestRun(config, log) && i < |log|
    ensures RunStored(config, log[..i + 1]) == StepStored(config, RunStored(config, log[..i]), log[i])
    ensures Honest(config, RunStored(config, log[..i]), log[i])
  {
    hide Honest, StepStored;
    assert log[..i + 1][..i] == log[..i] && log[..i + 1][i] == log[i];
  }

  /** One more step of a run that has read back so far: refused exactly if the step is harmful. */
  lemma {:induction false} NextIsRefused(config: Config, log: seq<Step>, s: Step)
    requires ValidConfig(config) && HonestRun(config, log + [s]) && Timely(s) && ReadsBack(config, RunStored(config, log))
    ensures Unreadable(config, RunStored(config, log + [s])) <==> !Harmless(config, Opened(config, RunStored(config, log), s.around), s)
  {
    hide Honest, Timely, Harmless, Storable, Opened, ReadsBack, Unreadable, RunStored, StepStored, HonestRun;
    var all := log + [s];
    assert all[..|log|] == log && all[..|log| + 1] == all && all[|log|] == s;
    PrefixReadsBack(config, all, |log|);
    StepOfRun(config, all, |log|);
    StepStorableExactly(config, RunStored(config, log), s);
    if RunStored(config, all).Some? {
      RunParses(config, all);
    } else {
      assert !Unreadable(config, RunStored(config, all)) by { NothingIsNotRefused(config); }
    }
  }

  lemma {:induction false} NothingIsNotRefused(config: Config)
    ensures !Unreadable(config, None)
  {
  }

  /** What is read in place of a refused journal holds nothing and blocks every runtime. */
  lemma {:induction false} RefusedIsLost(config: Config, t: Option<Journal>, x: Surroundings)
    requires ValidConfig(config) && x.now < MAX_SAFE_INTEGER && Unreadable(config, t)
    ensures var until := SafeAdd(x.now, config.ttl);
            && Opened(config, t, x) == EmptyJournal(x.highWater).(blockedUntil := until, runtimeFenceUntil := until)
            && until > x.now
  {
    hide WithinLimits, Storable;
  }

  /**
   A reported request costs the stored journal exactly when it is a new one of a known runtime, there is
   room for it, it leaves the site of its document, and the evaluation that follows neither drops it nor
   blocks on an attempt before the journal is stored.
   */
  lemma {:induction false} CrossSiteRequestLosesJournal(config: Config, log: seq<Step>, s: Step, b: Before)
    requires ValidConfig(config) && HonestRun(config, log + [s]) && Timely(s) && ReadsBack(config, RunStored(config, log))
    requires s.operation == RequestSeen(b) && WellFormed(b)
    ensures var j, x := Opened(config, RunStored(config, log), s.around), s.around;
            Unreadable(config, RunStored(config, log + [s])) <==>
            && RuntimeForRequest(j, b).Some? && TrackedRequest(j, b.requestId).None? && |j.requests| < config.capacity
            && !SameSite(config, b.source, b.url)
            && SafeAdd(b.timeStamp, config.ttl) > x.now
            && !PendingCleanup(j.retired, Runtime(b.tab, b.frame, b.document, RuntimeForRequest(j, b).value))
            && !BlocksNow(config, ObserveBefore(config, j, b), x) && StoresSettled(s)
  {
    hide HonestRun, RunStored, Opened, ReadsBack, Unreadable, BlocksNow, RuntimeForRequest, SameSite, ObserveBefore, PendingCleanup;
    NextIsRefused(config, log, s);
  }

  /** The same for a request that was announced, which must in addition be the one its admission describes. */
  lemma {:induction false} CrossSiteResolutionLosesJournal(config: Config, log: seq<Step>, s: Step, id: string, b: Before)
    requires ValidConfig(config) && HonestRun(config, log + [s]) && Timely(s) && ReadsBack(config, RunStored(config, log))
    requires s.operation == AdmissionResolves(id, b) && WellFormed(b)
    ensures var j, x := Opened(config, RunStored(config, log), s.around), s.around;
            var k := IndexOf(j.admissions, HasAdmissionId(id));
            Unreadable(config, RunStored(config, log + [s])) <==>
            && k.Some? && Describes(j.admissions[k.value], b) && !RuntimeRetired(j, x.memory, x.now, j.admissions[k.value].runtime)
            && TrackedRequest(j, b.requestId).None? && |j.requests| < config.capacity
            && !SameSite(config, b.source, b.url)
            && SafeAdd(b.timeStamp, config.ttl) > x.now
            && !PendingCleanup(j.retired, Runtime(b.tab, b.frame, b.document, j.admissions[k.value].runtime.incarnation))
            && !BlocksNow(config, Resolve(config, j, x.memory, x.now, id, b), x) && StoresSettled(s)
  {
    hide HonestRun, RunStored, Opened, ReadsBack, Unreadable, BlocksNow, Describes, RuntimeRetired, SameSite, Resolve, PendingCleanup;
    NextIsRefused(config, log, s);
  }

  /**
   A completion costs the stored journal exactly when it overtakes the continuation of a redirected
   request whose runtime is not being cleaned up, and no attempt blocks before the journal is stored.
   */
  lemma {:induction false} OvertakenContinuationLosesJournal(config: Config, log: seq<Step>, s: Step, t: Terminal, statusCode: nat)
    requires ValidConfig(config) && HonestRun(config, log + [s]) && Timely(s) && ReadsBack(config, RunStored(config, log))
    requires s.operation == CompletionSeen(t, statusCode)
    ensures var j, x := Opened(config, RunStored(config, log), s.around), s.around;
            Unreadable(config, RunStored(config, log + [s])) <==>
            && !NoContinuation(j, t.requestId)
            && !PendingCleanup(j.retired, TrackedRequest(j, t.requestId).value.runtime)
            && !BlocksNow(config, ObserveCompleted(config, j, t, statusCode), x) && StoresSettled(s)
  {
    hide HonestRun, RunStored, ReadsBack, Unreadable, BlocksNow, ObserveCompleted, PendingCleanup;
    OpenedIsLive(config, RunStored(config, log), s.around);
    hide Opened;
    NextIsRefused(config, log, s);
  }

  /** So does a redirect, under the same condition. */
  lemma {:induction false} OvertakingRedirectLosesJournal(config: Config, log: seq<Step>, s: Step, r: Redirect)
    requires ValidConfig(config) && HonestRun(config, log + [s]) && Timely(s) && ReadsBack(config, RunStored(config, log))
    requires s.operation == RedirectSeen(r)
    ensures var j, x := Opened(config, RunStored(config, log), s.around), s.around;
            Unreadable(config, RunStored(config, log + [s])) <==>
            && !NoContinuation(j, r.requestId)
            && !PendingCleanup(j.retired, TrackedRequest(j, r.requestId).value.runtime)
            && !BlocksNow(config, ObserveRedirect(config, j, r), x) && StoresSettled(s)
  {
    hide HonestRun, RunStored, ReadsBack, Unreadable, BlocksNow, ObserveRedirect, PendingCleanup;
    OpenedIsLive(config, RunStored(config, log), s.around);
    hide Opened;
    NextIsRefused(config, log, s);
  }

  /** And so does an error that fits the redirected request; one that contradicts it blocks the journal instead. */
  lemma {:induction false} OvertakingErrorLosesJournal(config: Config, log: seq<Step>, s: Step, t: Terminal)
    requires ValidConfig(config) && HonestRun(config, log + [s]) && Timely(s) && ReadsBack(config, RunStored(config, log))
    requires s.operation == ErrorSeen(t)
    ensures var j, x := Opened(config, RunStored(config, log), s.around), s.around;
            Unreadable(config, RunStored(config, log + [s])) <==>
            && !NoContinuation(j, t.requestId)
            && TerminalIdentity(t, TrackedRequest(j, t.requestId).value) && TrackedRequest(j, t.requestId).value.startedAt <= t.timeStamp
            && !PendingCleanup(j.retired, TrackedRequest(j, t.requestId).value.runtime)
            && !BlocksNow(config, ObserveError(config, j, t), x) && StoresSettled(s)
  {
    hide HonestRun, RunStored, ReadsBack, Unreadable, BlocksNow, ObserveError, PendingCleanup;
    OpenedIsLive(config, RunStored(config, log), s.around);
    hide Opened;
    NextIsRefused(config, log, s);
  }

  lemma {:induction false} OpenedIsLive(config: Config, stored: Option<Journal>, x: Surroundings)
    ensures forall r :: r in Opened(config, stored, x).requests ==> r.expiresAt > x.now
    ensures forall id :: var r := TrackedRequest(Opened(config, stored, x), id); r.Some? ==> r.value.expiresAt > x.now
  {
    hide Filter, Storable, WithinLimits;
    forall id ensures var r := TrackedRequest(Opened(config, stored, x), id); r.Some? ==> r.value.expiresAt > x.now {
      var r := TrackedRequest(Opened(config, stored, x), id);
      assert r.Some? ==> r.value in Opened(config, stored, x).requests;
    }
  }
}
