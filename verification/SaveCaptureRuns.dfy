/**
 Whole runs of the save-capture coordinator. Every operation reads the stored journal, drops the
 captures the encrypted store no longer vouches for, changes the journal, settles it and stores it;
 the worker may stop before either of the two writes, and either write may be too large.
 */
module SaveCaptureRuns {
  import opened Numbers
  import opened Sequences
  import opened SaveCaptureTypes
  import opened SaveCaptureEvaluation
  import opened SaveCaptureConfirmation
  import opened SaveCaptureRequests
  import opened SaveCaptureSteps
  import opened SaveCaptureStorage
  import opened SaveCaptureCoordinator
  import ConfirmationFence

  datatype Operation =
    | AdmissionBegins(entry: Entry, admissionId: string)
    | AdmissionResolves(admissionId: string, request: Before)
    | AdmissionFails(admissionId: string)
    | RequestSeen(request: Before)
    | RedirectSeen(redirect: Redirect)
    | CompletionSeen(terminal: Terminal, statusCode: nat)
    | ErrorSeen(terminal: Terminal)
    | CaptureStaged(capture: Capture)
    | RuntimeActivated(change: Change, settledFirst: Option<Surroundings>, interrupted: bool)
    | TabCleared(tab: nat)
    | Navigated(tab: nat, frame: nat, document: Option<string>)
    | WindowInvalidated(timeStamp: nat)
    | Reconciled
    | Cleared

  datatype Ending = NothingWritten | FirstWritten | FirstOverflowed | BothWritten | SecondOverflowed

  /**
   What the environment decides while one operation runs. The fence of the operation is taken after the
   events `before`; an attempt to confirm a capture compares it after the events `during`.
   */
  datatype Surroundings = Surroundings(
    now: nat,
    memory: Volatile,
    cleaned: set<Runtime>,
    before: seq<ConfirmationFence.Bump>,
    during: Capture -> seq<Occurrence>,
    answers: Capture -> Run,
    vouched: set<string>,
    reported: set<string>,
    highWater: nat,
    ending: Ending)

  datatype Step = Step(operation: Operation, around: Surroundings)

  /** The fences when the operation was asked for. */
  function FencesAsked(config: Config, x: Surroundings): ConfirmationFence.Fences {
    ConfirmationFence.RunFences(ConfirmationFence.INITIAL_FENCES, x.before, config.capacity)
  }

  function AttemptsOf(config: Config, x: Surroundings): Attempts {
    (c: Capture) => AttemptOf(Fenced(x.answers(c), FencesAsked(config, x), x.during(c), config.capacity, c.runtime))
  }

  function VouchedFor(ids: set<string>): Capture -> bool {
    (c: Capture) => c.id in ids
  }

  function Unreported(ids: set<string>): Capture -> bool {
    (c: Capture) => c.phase == Confirmed ==> c.id !in ids
  }

  /** The journal an operation starts from. */
  function Opened(config: Config, stored: Option<Journal>, x: Surroundings): Journal {
    var j := Read(config, stored, x.highWater, x.now);
    j.(captures := Filter(j.captures, VouchedFor(x.vouched)))
  }

  function Settle(config: Config, j: Journal, x: Surroundings): Journal {
    Evaluate(config, j, x.memory, x.now, x.cleaned, AttemptsOf(config, x))
  }

  /** A capture is staged by the active runtime of its page while nothing blocks the journal. */
  predicate MayStage(j: Journal, x: Surroundings, c: Capture) {
    && c.phase == Unconfirmed
    && (exists a :: a in j.active && a.runtime == c.runtime && a.document == c.source)
    && !RuntimeRetired(j, x.memory, x.now, c.runtime)
    && j.blockedUntil <= x.now
    && (forall d :: d in j.captures ==> d.id != c.id)
  }

  /** How far an operation gets: it stops, stores an unsettled journal, or settles one. */
  datatype Turn = Stops | Writes(journal: Journal) | Settles(journal: Journal)

  function Admit(config: Config, j: Journal, x: Surroundings, e: Entry, id: string): Turn {
    if Unadmittable(j, x.memory, x.now, e) then Stops
    else if |j.admissions| >= config.capacity then Writes(Begin(config, j, x.memory, x.now, e, id).0)
    else if IndexOf(j.admissions, HasAdmissionId(id)).Some? then Stops
    else Settles(Begin(config, j, x.memory, x.now, e, id).0)
  }

  /** The journal an activation decides on: settled once already when a cleanup of its document was pending. */
  function Presented(config: Config, j: Journal, settledFirst: Option<Surroundings>): Journal {
    match settledFirst case None => j case Some(y) => Settle(config, j, y)
  }

  /** The change is what `AdmitRuntime` reports; a failing callback leaves it stored and unsettled. */
  function Activate(config: Config, j: Journal, c: Change, settledFirst: Option<Surroundings>, interrupted: bool): Turn {
    var k := ApplyChange(Presented(config, j, settledFirst), c);
    if interrupted then Writes(k) else Settles(k)
  }

  function Turned(config: Config, j: Journal, operation: Operation, x: Surroundings): Turn {
    match operation
    case AdmissionBegins(e, id) => Admit(config, j, x, e, id)
    case AdmissionResolves(id, b) =>
      if WellFormed(b) then Settles(Resolve(config, j, x.memory, x.now, id, b)) else Stops
    case AdmissionFails(id) => Settles(FailBefore(config, j, id))
    case RequestSeen(b) =>
      if WellFormed(b) then Settles(ObserveBefore(config, j, b))
      else Settles(BlockAll(j, SafeAdd(x.now, config.ttl)))
    case RedirectSeen(r) => Settles(ObserveRedirect(config, j, r))
    case CompletionSeen(t, statusCode) => Settles(ObserveCompleted(config, j, t, statusCode))
    case ErrorSeen(t) => Settles(ObserveError(config, j, t))
    case CaptureStaged(c) => if MayStage(j, x, c) then Settles(Stage(config, j, c)) else Stops
    case RuntimeActivated(c, settledFirst, interrupted) => Activate(config, j, c, settledFirst, interrupted)
    case TabCleared(tab) => Settles(ClearTab(j, tab))
    case Navigated(tab, frame, document) => Settles(Navigate(j, tab, frame, document))
    case WindowInvalidated(timeStamp) => Settles(BlockAll(j, SafeAdd(timeStamp, config.ttl)))
    case Reconciled => Settles(j)
    case Cleared => Writes(EmptyJournal(j.revision))
  }

  /** The confirmed captures that have been announced leave the journal with the second write. */
  function Announce(j: Journal, ids: set<string>): Journal {
    j.(captures := Filter(j.captures, Unreported(ids)))
  }

  /** A journal too large to store is replaced by an empty one that blocks everything for one network lifetime. */
  function Overflowed(config: Config, j: Journal, now: nat): Journal {
    EmptyJournal(j.revision).(blockedUntil := Max(j.blockedUntil, SafeAdd(now, config.ttl)),
                              runtimeFenceUntil := Max(j.runtimeFenceUntil, SafeAdd(now, config.ttl)))
  }

  function Finish(config: Config, stored: Option<Journal>, turn: Turn, x: Surroundings): Option<Journal> {
    match turn
    case Stops => stored
    case Writes(j) =>
      if x.ending == NothingWritten then stored
      else Some(Stored(if x.ending == FirstOverflowed then Overflowed(config, j, x.now) else j, x.highWater))
    case Settles(j) =>
      var e := Settle(config, j, x);
      var first := Stored(e, x.highWater);
      match x.ending
      case NothingWritten => stored
      case FirstWritten => Some(first)
      case FirstOverflowed => Some(Stored(Overflowed(config, e, x.now), x.highWater))
      case BothWritten => Some(Stored(Announce(first, x.reported), x.highWater))
      case SecondOverflowed => Some(Stored(Overflowed(config, Announce(first, x.reported), x.now), x.highWater))
  }

  function StepStored(config: Config, stored: Option<Journal>, s: Step): Option<Journal> {
    Finish(config, stored, Turned(config, Opened(config, stored, s.around), s.operation, s.around), s.around)
  }

  function RunStored(config: Config, log: seq<Step>): Option<Journal> {
    if log == [] then None else StepStored(config, RunStored(config, log[..|log| - 1]), log[|log| - 1])
  }

  // ---------------------------------------------------------------------------------------------
  // What really happened to the requests of a run
  // ---------------------------------------------------------------------------------------------

  /** The history of the request tracked under each id. */
  type Histories = map<string, History>

  function Added(j: Journal, hs: Histories, r: Request): Histories {
    if IndexOf(j.requests, HasRequestId(r.id)).Some? then hs else hs[r.id := FirstHistory(j, r)]
  }

  function Followed(config: Config, j: Journal, hs: Histories, id: string, e: NetEvent): Histories {
    var i := IndexOf(j.requests, HasRequestId(id));
    if i.Some? && id in hs then hs[id := StepHistory(config, j.requests[i.value], hs[id], e)] else hs
  }

  function HistoriesAfter(config: Config, j: Journal, hs: Histories, operation: Operation, x: Surroundings): Histories {
    match operation
    case AdmissionResolves(id, b) =>
      var k := IndexOf(j.admissions, HasAdmissionId(id));
      if k.Some? && Describes(j.admissions[k.value], b) && !RuntimeRetired(j, x.memory, x.now, j.admissions[k.value].runtime)
      then Added(j, hs, FreshRequest(config, b, j.admissions[k.value].runtime.incarnation)) else hs
    case RequestSeen(b) =>
      var incarnation := RuntimeForRequest(j, b);
      if incarnation.Some? then Added(j, hs, FreshRequest(config, b, incarnation.value)) else hs
    case RedirectSeen(r) => Followed(config, j, hs, r.requestId, Redirecting(r))
    case CompletionSeen(t, statusCode) => Followed(config, j, hs, t.requestId, Completing(t, statusCode))
    case ErrorSeen(t) => Followed(config, j, hs, t.requestId, Failing(t))
    case AdmissionBegins(_, _) => hs
    case AdmissionFails(_) => hs
    case CaptureStaged(_) => hs
    case RuntimeActivated(_, _, _) => hs
    case TabCleared(_) => hs
    case Navigated(_, _, _) => hs
    case WindowInvalidated(_) => hs
    case Reconciled => hs
    case Cleared => hs
  }

  /** An operation that stores nothing leaves the history of what is stored as it was. */
  function StepHistories(config: Config, stored: Option<Journal>, hs: Histories, s: Step): Histories {
    var j := Opened(config, stored, s.around);
    if Turned(config, j, s.operation, s.around).Stops? || s.around.ending == NothingWritten then hs
    else HistoriesAfter(config, j, hs, s.operation, s.around)
  }

  function RunHistories(config: Config, log: seq<Step>): Histories {
    if log == [] then map[]
    else StepHistories(config, RunStored(config, log[..|log| - 1]), RunHistories(config, log[..|log| - 1]), log[|log| - 1])
  }

  // ---------------------------------------------------------------------------------------------
  // What holds of every journal that is ever stored
  // ---------------------------------------------------------------------------------------------

  /** The record describes what happened to its request. */
  ghost predicate Explained(config: Config, r: Request, hs: Histories) {
    r.id in hs && Chain(config, r, hs[r.id])
  }

  /** Keys and limits hold, and every tracked request has its redirect chain behind it. */
  ghost predicate Sound(config: Config, j: Journal, hs: Histories) {
    Inv(config, j) && forall r :: r in j.requests ==> Explained(config, r, hs)
  }

  /** No capture that waits for its proof has contradicting or shared evidence. */
  ghost predicate Clear(config: Config, j: Journal) {
    forall c :: c in j.captures && c.phase == Unconfirmed ==> Unambiguous(config, j, c)
  }

  /** No capture that waits for its proof belongs to a runtime whose retirement is finished. */
  ghost predicate Interred(j: Journal) {
    forall r, c :: r in j.retired && !r.cleanupPending && c in j.captures && c.phase == Unconfirmed ==> c.runtime != r.runtime
  }

  ghost predicate Proper(config: Config, j: Journal, hs: Histories) {
    Sound(config, j, hs) && Clear(config, j) && Interred(j)
  }

  /** The one thing the environment owes: an activation changes the journal as `AdmitRuntime` does. */
  ghost predicate Honest(config: Config, stored: Option<Journal>, s: Step) {
    s.operation.RuntimeActivated? ==>
      ValidChange(config, Presented(config, Opened(config, stored, s.around), s.operation.settledFirst), s.operation.change)
  }

  ghost predicate HonestRun(config: Config, log: seq<Step>) {
    forall i :: 0 <= i < |log| ==> Honest(config, RunStored(config, log[..i]), log[i])
  }

  /** Dropping captures and requests cannot make anything ambiguous. */
  lemma {:induction false} ClearShrinks(config: Config, j: Journal, k: Journal, keep: Request -> bool)
    requires Clear(config, j)
    requires forall c :: c in k.captures ==> c in j.captures
    requires k.requests == Filter(j.requests, keep)
    ensures Clear(config, k)
  {
    hide RequestMatches, Filter;
    forall c | c in k.captures && c.phase == Unconfirmed ensures Unambiguous(config, k, c) {
      assert Unambiguous(config, j, c);
      var both := (r: Request) => keep(r) && RequestMatches(config, c, r);
      FilterFilter(j.requests, keep, MatchesCapture(config, c), both);
      FilterFilter(j.requests, MatchesCapture(config, c), keep, both);
      assert |Candidates(config, k, c)| <= |Candidates(config, j, c)|;
    }
  }

  lemma {:induction false} DropExpiredIsProper(config: Config, j: Journal, hs: Histories, now: nat)
    requires Proper(config, j, hs)
    ensures Proper(config, DropExpired(j, now), hs)
  {
    hide Filter, Explained, Clear, Distinct;
    FilterDistinct(j.captures, CaptureLive(now), CAPTURE_ID);
    FilterDistinct(j.requests, RequestLive(now), REQUEST_ID);
    FilterDistinct(j.outcomes, OutcomeLive(now), OUTCOME_KEY);
    FilterDistinct(j.retired, RetiredSurvives(now), RETIRED_KEY);
    ClearShrinks(config, j, DropExpired(j, now), RequestLive(now));
  }

  lemma {:induction false} FewerCapturesAreProper(config: Config, j: Journal, hs: Histories, keep: Capture -> bool)
    requires Proper(config, j, hs)
    ensures Proper(config, j.(captures := Filter(j.captures, keep)), hs)
  {
    hide Filter, Explained, Clear, Distinct;
    var k := j.(captures := Filter(j.captures, keep));
    FilterDistinct(j.captures, keep, CAPTURE_ID);
    FilterAll(j.requests, (r: Request) => true);
    ClearShrinks(config, j, k, (r: Request) => true);
  }

  lemma {:induction false} EmptyIsProper(config: Config, j: Journal, hs: Histories)
    requires j.captures == [] && j.requests == [] && Inv(config, j)
    ensures Proper(config, j, hs)
  {
  }

  lemma {:induction false} BlockedIsProper(config: Config, j: Journal, hs: Histories, until: nat)
    requires Inv(config, j)
    ensures Proper(config, BlockAll(j, until), hs)
  {
  }

  lemma {:induction false} OpenedIsProper(config: Config, stored: Option<Journal>, hs: Histories, x: Surroundings)
    requires stored.Some? ==> Proper(config, stored.value, hs)
    ensures Proper(config, Opened(config, stored, x), hs)
    ensures forall c :: c in Opened(config, stored, x).captures ==> stored.Some? && c in stored.value.captures
  {
    hide Filter, Proper, Storable, WithinLimits;
    var j := Read(config, stored, x.highWater, x.now);
    if stored.Some? && ParseJournal(config, stored.value, x.now).Some? {
      DropExpiredIsProper(config, stored.value, hs, x.now);
    } else {
      EmptyIsProper(config, j, hs);
    }
    FewerCapturesAreProper(config, j, hs, VouchedFor(x.vouched));
  }

  lemma {:induction false} FreshIsExplained(config: Config, j: Journal, hs: Histories, b: Before, incarnation: string)
    requires Sound(config, j, hs)
    ensures var r := FreshRequest(config, b, incarnation); Sound(config, AddRequest(config, j, r), Added(j, hs, r))
  {
    hide Chain, SafeAdd, StepRequest, Distinct, FirstHistory;
    var r := FreshRequest(config, b, incarnation);
    AddRequestKeepsInv(config, j, r);
    match IndexOf(j.requests, HasRequestId(r.id)) {
      case Some(i) =>
        assert j.requests[i] in j.requests;
        StepIsExplained(config, j.requests[i], hs, Again(r));
      case None =>
        if |j.requests| < config.capacity {
          AddedRequestStartsChain(config, j, r);
          assert forall x :: x in j.requests ==> !HasRequestId(r.id)(x);
        }
    }
  }

  lemma {:induction false} StepIsExplained(config: Config, r: Request, hs: Histories, e: NetEvent)
    requires Explained(config, r, hs)
    ensures var s := StepRequest(config, r, e);
            s.Some? ==> s.value.id == r.id && Explained(config, s.value, hs[r.id := StepHistory(config, r, hs[r.id], e)])
    ensures e.Again? ==> hs[r.id := StepHistory(config, r, hs[r.id], e)] == hs
  {
    hide Chain;
    if StepRequest(config, r, e).Some? {
      StepKeepsChain(config, r, hs[r.id], e);
    }
  }

  lemma {:induction false} ReplacedIsSound(config: Config, j: Journal, hs: Histories, i: nat, r: Request, e: NetEvent)
    requires Sound(config, j, hs) && i < |j.requests| && StepRequest(config, j.requests[i], e) == Some(r)
    ensures var was := j.requests[i];
            was.id in hs && Sound(config, j.(requests := j.requests[i := r]), hs[was.id := StepHistory(config, was, hs[was.id], e)])
  {
    hide Chain, StepRequest, StepHistory;
    var k := j.(requests := j.requests[i := r]);
    assert j.requests[i] in j.requests;
    StepIsExplained(config, j.requests[i], hs, e);
    DistinctReplace(j.requests, i, r, REQUEST_ID);
    var next := hs[r.id := StepHistory(config, j.requests[i], hs[r.id], e)];
    forall m | 0 <= m < |k.requests| ensures Explained(config, k.requests[m], next) {
      assert j.requests[m] in j.requests;
      if m != i {
        DistinctPair(j.requests, m, i, REQUEST_ID);
        assert k.requests[m] == j.requests[m] && Explained(config, j.requests[m], hs);
      }
    }
  }

  lemma {:induction false} DistinctPair<T, K>(s: seq<T>, i: nat, k: nat, key: T -> K)
    requires Distinct(s, key) && i < |s| && k < |s| && i != k
    ensures key(s[i]) != key(s[k])
  {
  }

  lemma {:induction false} EarlyIsSound(config: Config, j: Journal, hs: Histories, t: Terminal, succeeded: bool)
    requires Sound(config, j, hs)
    ensures Sound(config, RecordEarly(config, j, t, succeeded), hs)
  {
    hide Explained, Distinct, IndexOf, RuntimeForTerminal;
    RecordEarlyKeepsInv(config, j, t, succeeded);
  }

  lemma {:induction false} RedirectIsSound(config: Config, j: Journal, hs: Histories, x: Redirect)
    requires Sound(config, j, hs)
    ensures Sound(config, ObserveRedirect(config, j, x), Followed(config, j, hs, x.requestId, Redirecting(x)))
  {
    hide Sound, StepRequest, StepHistory, RecordEarly;
    var i := IndexOf(j.requests, HasRequestId(x.requestId));
    if i.Some? {
      StepAnswers(config, j.requests[i.value], Redirecting(x));
      ReplacedIsSound(config, j, hs, i.value, StepRequest(config, j.requests[i.value], Redirecting(x)).value, Redirecting(x));
    } else {
      EarlyIsSound(config, j, hs, Terminal(x.requestId, x.tab, x.frame, x.document, x.url, x.meth, x.kind, x.timeStamp,
                                           x.expiresAt), false);
    }
  }

  lemma {:induction false} StepAnswers(config: Config, r: Request, e: NetEvent)
    ensures e.Redirecting? || e.Completing? ==> StepRequest(config, r, e).Some?
  {
  }

  lemma {:induction false} TerminalIsSound(config: Config, j: Journal, hs: Histories, t: Terminal, statusCode: nat)
    requires Sound(config, j, hs)
    ensures Sound(config, ObserveCompleted(config, j, t, statusCode), Followed(config, j, hs, t.requestId, Completing(t, statusCode)))
    ensures Sound(config, ObserveError(config, j, t), Followed(config, j, hs, t.requestId, Failing(t)))
  {
    hide Sound, StepRequest, StepHistory, RecordEarly, BlockAll;
    var i := IndexOf(j.requests, HasRequestId(t.requestId));
    if i.Some? {
      var r := j.requests[i.value];
      StepAnswers(config, r, Completing(t, statusCode));
      ReplacedIsSound(config, j, hs, i.value, StepRequest(config, r, Completing(t, statusCode)).value, Completing(t, statusCode));
      var s := StepRequest(config, r, Failing(t));
      if s.Some? {
        ReplacedIsSound(config, j, hs, i.value, s.value, Failing(t));
      } else {
        SoundInv(config, j, hs);
        BlockedIsSound(config, j, Followed(config, j, hs, t.requestId, Failing(t)), t.expiresAt);
      }
    } else {
      EarlyIsSound(config, j, hs, t, IsSuccessStatus(statusCode));
      EarlyIsSound(config, j, hs, t, false);
    }
  }

  lemma {:induction false} BlockedIsSound(config: Config, j: Journal, hs: Histories, until: nat)
    requires Inv(config, j)
    ensures Sound(config, BlockAll(j, until), hs)
  {
  }

  lemma {:induction false} ChangeIsProper(config: Config, j: Journal, hs: Histories, c: Change)
    requires Proper(config, j, hs) && ValidChange(config, j, c)
    ensures Proper(config, ApplyChange(j, c), hs)
  {
    ChangeIsSound(config, j, hs, c);
    ChangeIsInterred(config, j, c);
  }

  lemma {:induction false} ChangeIsInterred(config: Config, j: Journal, c: Change)
    requires Interred(j) && ValidChange(config, j, c)
    ensures Interred(ApplyChange(j, c))
  {
    hide Distinct, Filter, SafeAdd;
    var k := ApplyChange(j, c);
    forall r, d | r in k.retired && !r.cleanupPending && d in k.captures && d.phase == Unconfirmed
      ensures d.runtime != r.runtime
    {
      assert r in c.retired && d in j.captures;
      assert MayLeave(config, j, c.removed, r);
      if r !in j.retired {
        assert CaptureNotOf(r.runtime)(d);
      }
    }
  }

  lemma {:induction false} ChangeIsSound(config: Config, j: Journal, hs: Histories, c: Change)
    requires Sound(config, j, hs) && Clear(config, j) && ValidChange(config, j, c)
    ensures Sound(config, ApplyChange(j, c), hs) && Clear(config, ApplyChange(j, c))
  {
    hide Filter, Explained, Clear, Distinct, MayLeave;
    if c.removed.Some? {
      var k := Without(j, c.removed.value);
      WithoutKeepsInv(config, j, c.removed.value);
      ClearShrinks(config, j, k.(active := c.active, retired := c.retired, runtimeFenceUntil := c.fenceUntil),
                   RequestNotOf(c.removed.value));
    } else {
      var k := j.(active := c.active, retired := c.retired, runtimeFenceUntil := c.fenceUntil);
      FilterAll(j.requests, (r: Request) => true);
      ClearShrinks(config, j, k, (r: Request) => true);
    }
    if c.blocked.Some? {
      BlockedIsProper(config, ApplyChange(j, c.(blocked := None)), hs, c.blocked.value);
    }
  }

  lemma {:induction false} SettledRequests(config: Config, j: Journal, x: Surroundings)
    ensures forall r :: r in Settle(config, j, x).requests ==> r in j.requests
  {
    hide Judge, Filter;
  }

  /** A settled journal holds no unconfirmed capture of any runtime whose retirement it records, finished or not. */
  lemma {:induction false} SettledIsInterred(config: Config, j: Journal, x: Surroundings)
    requires Interred(j)
    ensures var e := Settle(config, j, x);
            forall r, c :: r in e.retired && c in e.captures && c.phase == Unconfirmed ==> c.runtime != r.runtime
    ensures Interred(Settle(config, j, x))
  {
    hide Filter, Judge, VerdictOf, VolatileAfter, FailsCapture, CleanedRuntimes;
    var e := Settle(config, j, x);
    var q := Basis(config, j, x.now, x.cleaned);
    forall r, c | r in e.retired && c in e.captures && c.phase == Unconfirmed ensures c.runtime != r.runtime {
      if j.blockedUntil <= x.now {
        JudgeKeeps(config, q, VolatileAfter(j, x.memory, x.cleaned), x.now, AttemptsOf(config, x), q.captures, c);
      }
      assert c in j.captures && CaptureSurvives(config, j.retired, KeepAdmissions(j), x.now)(c);
      assert r in MarkCleaned(j.retired, x.cleaned);
      var i :| 0 <= i < |j.retired| && MarkCleaned(j.retired, x.cleaned)[i] == r;
      assert j.retired[i] in j.retired;
    }
  }

  /** Settling keeps the journal sound and leaves nothing ambiguous in it. */
  lemma {:induction false} SettledIsSound(config: Config, j: Journal, hs: Histories, x: Surroundings)
    requires ValidConfig(config) && Sound(config, j, hs)
    ensures Sound(config, Settle(config, j, x), hs) && Clear(config, Settle(config, j, x))
  {
    hide Explained, Evaluate, Unambiguous, AttemptsOf;
    var e := Settle(config, j, x);
    EvaluateKeepsInv(config, j, x.memory, x.now, x.cleaned, AttemptsOf(config, x));
    SettledRequests(config, j, x);
    forall c | c in e.captures && c.phase == Unconfirmed ensures Unambiguous(config, e, c) {
      SettledIsUnambiguous(config, j, x.memory, x.now, x.cleaned, AttemptsOf(config, x), c);
    }
  }

  lemma {:induction false} SettledIsProper(config: Config, j: Journal, hs: Histories, x: Surroundings)
    requires ValidConfig(config) && Sound(config, j, hs) && Interred(j)
    ensures Proper(config, Settle(config, j, x), hs)
  {
    hide Sound, Clear, Interred, Settle;
    SettledIsSound(config, j, hs, x);
    SettledIsInterred(config, j, x);
  }

  lemma {:induction false} AdmitIsProper(config: Config, j: Journal, hs: Histories, x: Surroundings, e: Entry, id: string)
    requires Proper(config, j, hs)
    ensures var t := Admit(config, j, x, e, id);
            match t
            case Stops => true
            case Writes(k) => Proper(config, k, hs)
            case Settles(k) => Sound(config, k, hs) && Interred(k)
  {
    hide Explained, Clear, Unadmittable, Distinct;
    if Admit(config, j, x, e, id).Writes? {
      BlockedIsProper(config, j, hs, SafeAdd(e.enteredAt, config.ttl));
    } else if Admit(config, j, x, e, id).Settles? {
      assert forall a :: a in j.admissions ==> !HasAdmissionId(id)(a);
      AdmissionStepsKeepInv(config, j, x.memory, x.now, e, id,
                            Before("", 0, 0, "", Url("", "", ""), Url("", "", ""), Post, Xhr, 0));
    }
  }

  lemma {:induction false} ResolveIsSound(config: Config, j: Journal, hs: Histories, x: Surroundings, id: string, b: Before)
    requires Sound(config, j, hs)
    ensures Sound(config, Resolve(config, j, x.memory, x.now, id, b), HistoriesAfter(config, j, hs, AdmissionResolves(id, b), x))
    ensures Sound(config, FailBefore(config, j, id), hs)
  {
    hide Explained, AddRequest, FreshRequest, Distinct, Filter, RuntimeRetired, Describes, FirstHistory;
    AdmissionStepsKeepInv(config, j, x.memory, x.now, Entry("", 0, 0, None, None, 0), id, b);
    var k := IndexOf(j.admissions, HasAdmissionId(id));
    if k.Some? {
      DistinctRemoveAt(j.admissions, k.value, ADMISSION_ID);
      var m := j.(admissions := RemoveAt(j.admissions, k.value));
      var r := FreshRequest(config, b, j.admissions[k.value].runtime.incarnation);
      FreshIsExplained(config, m, hs, b, j.admissions[k.value].runtime.incarnation);
      assert Added(m, hs, r) == Added(j, hs, r) by { SameFirstHistory(j, m, r); }
    }
  }

  lemma {:induction false} SameFirstHistory(j: Journal, k: Journal, r: Request)
    requires j.outcomes == k.outcomes
    ensures FirstHistory(j, r) == FirstHistory(k, r)
  {
  }

  /** The journal an operation hands on has no tombstones but those it had, and captures of none of them. */
  lemma {:induction false} TurnIsInterred(config: Config, j: Journal, s: Step)
    requires ValidConfig(config) && Interred(j) && !s.operation.RuntimeActivated?
    ensures var t := Turned(config, j, s.operation, s.around); !t.Stops? ==> Interred(t.journal)
  {
    hide Begin, Resolve, FailBefore, ObserveBefore, ObserveRedirect, ObserveCompleted, ObserveError, Stage, Navigate, ClearTab, MayStage, Settle;
    TurnKeepsTombstones(config, j, s);
    var t := Turned(config, j, s.operation, s.around);
    if !t.Stops? {
      forall r, c | r in t.journal.retired && !r.cleanupPending && c in t.journal.captures && c.phase == Unconfirmed
        ensures c.runtime != r.runtime
      {
        TurnOrigin(config, j, s, c);
        if c !in j.captures {
          StagedIsLive(j, s.around, c, r);
        }
      }
    }
  }

  lemma {:induction false} StagedIsLive(j: Journal, x: Surroundings, c: Capture, r: RetiredRuntime)
    requires MayStage(j, x, c) && r in j.retired
    ensures c.runtime != r.runtime
  {
  }

  lemma {:induction false} TurnKeepsTombstones(config: Config, j: Journal, s: Step)
    requires !s.operation.RuntimeActivated?
    ensures var t := Turned(config, j, s.operation, s.around); !t.Stops? ==> forall r :: r in t.journal.retired ==> r in j.retired
  {
    hide Filter, IndexOf, StepRequest, RuntimeRetired, Unadmittable, FreshRequest, RuntimeForRequest, RuntimeForTerminal, MayStage, Settle;
  }

  /** Whatever an operation hands to its last write or to settling is sound. */
  lemma {:induction false} TurnIsProper(config: Config, stored: Option<Journal>, hs: Histories, s: Step)
    requires ValidConfig(config) && Honest(config, stored, s)
    requires Proper(config, Opened(config, stored, s.around), hs)
    ensures var j := Opened(config, stored, s.around);
            var next := HistoriesAfter(config, j, hs, s.operation, s.around);
            match Turned(config, j, s.operation, s.around)
            case Stops => true
            case Writes(k) => Proper(config, k, next)
            case Settles(k) => Sound(config, k, next) && Interred(k)
  {
    hide Sound, Clear, Interred, Opened, ApplyChange, Settle, ValidChange, HistoriesAfter;
    var j := Opened(config, stored, s.around);
    if s.operation.RuntimeActivated? {
      var first := s.operation.settledFirst;
      if first.Some? {
        SettledIsProper(config, j, hs, first.value);
      }
      ChangeIsProper(config, Presented(config, j, first), hs, s.operation.change);
      assert HistoriesAfter(config, j, hs, s.operation, s.around) == hs by { ActivationIsNoEvent(config, j, hs, s); }
    } else {
      TurnIsSound(config, j, hs, s);
      TurnIsInterred(config, j, s);
      WritesAreClear(config, j, s);
    }
  }

  lemma {:induction false} ActivationIsNoEvent(config: Config, j: Journal, hs: Histories, s: Step)
    requires s.operation.RuntimeActivated?
    ensures HistoriesAfter(config, j, hs, s.operation, s.around) == hs
  {
  }

  /** What is stored unsettled holds no captures at all, unless it is an activation. */
  lemma {:induction false} WritesAreClear(config: Config, j: Journal, s: Step)
    requires !s.operation.RuntimeActivated?
    ensures var t := Turned(config, j, s.operation, s.around); t.Writes? ==> Clear(config, t.journal)
  {
  }

  lemma {:induction false} TurnIsSound(config: Config, j: Journal, hs: Histories, s: Step)
    requires ValidConfig(config) && Proper(config, j, hs) && !s.operation.RuntimeActivated?
    ensures var next := HistoriesAfter(config, j, hs, s.operation, s.around);
            match Turned(config, j, s.operation, s.around)
            case Stops => true
            case Writes(k) => Sound(config, k, next)
            case Settles(k) => Sound(config, k, next)
  {
    hide Sound, Clear, Interred, Filter, IndexOf, Begin, Resolve, FailBefore, AddRequest, Stage, Navigate, ClearTab, Settle, Added, Followed;
    hide ObserveBefore, ObserveRedirect, ObserveCompleted, ObserveError, Admit, BlockAll, ApplyChange, MayStage, FreshRequest;
    var x := s.around;
    match s.operation
    case AdmissionBegins(e, id) => AdmitIsProper(config, j, hs, x, e, id);
    case AdmissionResolves(id, b) => ResolveIsSound(config, j, hs, x, id, b);
    case AdmissionFails(id) =>
      ResolveIsSound(config, j, hs, x, id, Before("", 0, 0, "", Url("", "", ""), Url("", "", ""), Post, Xhr, 0));
    case RequestSeen(b) => RequestIsSound(config, j, hs, x, b, SafeAdd(x.now, config.ttl));
    case RedirectSeen(r) => RedirectIsSound(config, j, hs, r);
    case CompletionSeen(t, statusCode) => TerminalIsSound(config, j, hs, t, statusCode);
    case ErrorSeen(t) => TerminalIsSound(config, j, hs, t, 0);
    case CaptureStaged(c) => StageIsSound(config, j, hs, x, c);
    case TabCleared(tab) => ClearTabIsSound(config, j, hs, tab);
    case Navigated(tab, frame, document) => NavigateIsSound(config, j, hs, tab, frame, document);
    case WindowInvalidated(timeStamp) =>
      SoundInv(config, j, hs);
      BlockedIsSound(config, j, hs, SafeAdd(timeStamp, config.ttl));
    case Reconciled =>
    case Cleared => NothingIsProper(config, j.revision, hs);
  }

  lemma {:induction false} SoundInv(config: Config, j: Journal, hs: Histories)
    requires Sound(config, j, hs)
    ensures Inv(config, j)
  {
  }

  lemma {:induction false} NothingIsProper(config: Config, revision: nat, hs: Histories)
    ensures Proper(config, EmptyJournal(revision), hs)
  {
  }

  lemma {:induction false} RequestIsSound(config: Config, j: Journal, hs: Histories, x: Surroundings, b: Before, until: nat)
    requires Sound(config, j, hs)
    ensures var next := HistoriesAfter(config, j, hs, RequestSeen(b), x);
            Sound(config, ObserveBefore(config, j, b), next) && Sound(config, BlockAll(j, until), next)
  {
    hide Sound, AddRequest, Added, FreshRequest, RuntimeForRequest;
    var next := HistoriesAfter(config, j, hs, RequestSeen(b), x);
    SoundInv(config, j, hs);
    BlockedIsSound(config, j, next, until);
    BlockedIsSound(config, j, next, SafeAdd(b.timeStamp, config.ttl));
    var incarnation := RuntimeForRequest(j, b);
    if incarnation.Some? {
      FreshIsExplained(config, j, hs, b, incarnation.value);
    }
  }

  lemma {:induction false} StageIsSound(config: Config, j: Journal, hs: Histories, x: Surroundings, c: Capture)
    requires Sound(config, j, hs)
    ensures MayStage(j, x, c) ==> Sound(config, Stage(config, j, c), hs)
  {
    hide Explained, Distinct, RuntimeRetired;
    if MayStage(j, x, c) {
      CaptureStepsKeepInv(config, j, c, 0, 0, None);
    }
  }

  lemma {:induction false} ClearTabIsSound(config: Config, j: Journal, hs: Histories, tab: nat)
    requires Sound(config, j, hs)
    ensures Sound(config, ClearTab(j, tab), hs)
  {
    hide Explained, Distinct, Filter;
    CaptureStepsKeepInv(config, j, Capture("", Runtime(0, 0, "", ""), Url("", "", ""), 0, 0, Formless, Unconfirmed), tab, 0, None);
  }

  lemma {:induction false} NavigateIsSound(config: Config, j: Journal, hs: Histories, tab: nat, frame: nat, document: Option<string>)
    requires Sound(config, j, hs)
    ensures Sound(config, Navigate(j, tab, frame, document), hs)
  {
    hide Explained, Distinct, Filter;
    CaptureStepsKeepInv(config, j, Capture("", Runtime(0, 0, "", ""), Url("", "", ""), 0, 0, Formless, Unconfirmed), tab, frame,
                        document);
  }

  lemma {:induction false} StoredIsProper(config: Config, j: Journal, hs: Histories, highWater: nat)
    requires Proper(config, j, hs)
    ensures Proper(config, Stored(j, highWater), hs)
  {
    hide Explained, RequestMatches, Filter;
    FilterAll(j.requests, (r: Request) => true);
    ClearShrinks(config, j, Stored(j, highWater), (r: Request) => true);
  }

  /** A journal too large to store leaves nothing behind that could be wrong. */
  lemma {:induction false} OverflowedIsProper(config: Config, j: Journal, hs: Histories, now: nat)
    ensures Proper(config, Overflowed(config, j, now), hs)
  {
    hide SafeAdd;
  }

  lemma {:induction false} StepIsSound(config: Config, stored: Option<Journal>, hs: Histories, s: Step)
    requires ValidConfig(config) && Honest(config, stored, s)
    requires stored.Some? ==> Proper(config, stored.value, hs)
    ensures var t := StepStored(config, stored, s); t.Some? ==> Proper(config, t.value, StepHistories(config, stored, hs, s))
  {
    hide Proper, Sound, Clear, Interred, Opened, Turned, Settle, Stored, Filter, Overflowed, Honest, HistoriesAfter;
    var x := s.around;
    var j := Opened(config, stored, x);
    OpenedIsProper(config, stored, hs, x);
    TurnIsProper(config, stored, hs, s);
    var next := HistoriesAfter(config, j, hs, s.operation, x);
    match Turned(config, j, s.operation, x)
    case Stops =>
    case Writes(k) =>
      StoredIsProper(config, k, next, x.highWater);
      OverflowedIsProper(config, k, next, x.now);
      StoredIsProper(config, Overflowed(config, k, x.now), next, x.highWater);
    case Settles(k) =>
      SettledIsProper(config, k, next, x);
      FinishedIsProper(config, stored, k, next, x);
  }

  lemma {:induction false} FinishedIsProper(config: Config, stored: Option<Journal>, k: Journal, hs: Histories, x: Surroundings)
    requires Proper(config, Settle(config, k, x), hs)
    ensures var t := Finish(config, stored, Settles(k), x); x.ending != NothingWritten ==> t.Some? && Proper(config, t.value, hs)
  {
    hide Proper, Settle, Stored, Filter, Overflowed;
    var e := Settle(config, k, x);
    var first := Stored(e, x.highWater);
    StoredIsProper(config, e, hs, x.highWater);
    FewerCapturesAreProper(config, first, hs, Unreported(x.reported));
    var second := Announce(first, x.reported);
    StoredIsProper(config, second, hs, x.highWater);
    OverflowedIsProper(config, e, hs, x.now);
    StoredIsProper(config, Overflowed(config, e, x.now), hs, x.highWater);
    OverflowedIsProper(config, second, hs, x.now);
    StoredIsProper(config, Overflowed(config, second, x.now), hs, x.highWater);
  }

  /**
   Over every run, whatever the browser reports and wherever the worker stops: no stored journal holds
   an unconfirmed capture with a failed match, two matches or a match it shares, or one of a runtime
   whose retirement is finished; and every tracked request is the result of at most ten connected
   same-site hops, the very ones the run reported.
   */
  lemma {:induction false} RunIsSound(config: Config, log: seq<Step>)
    requires ValidConfig(config) && HonestRun(config, log)
    ensures var t := RunStored(config, log); t.Some? ==> Proper(config, t.value, RunHistories(config, log))
  {
    hide StepStored, StepHistories, Honest, Proper;
    if log != [] {
      var n := |log| - 1;
      HonestPrefix(config, log, n);
      assert Honest(config, RunStored(config, log[..n]), log[n]);
      RunIsSound(config, log[..n]);
      StepIsSound(config, RunStored(config, log[..n]), RunHistories(config, log[..n]), log[n]);
    }
  }

  lemma {:induction false} HonestPrefix(config: Config, log: seq<Step>, n: nat)
    requires HonestRun(config, log) && n <= |log|
    ensures HonestRun(config, log[..n])
  {
    hide Honest, RunStored;
    forall i | 0 <= i < n ensures Honest(config, RunStored(config, log[..n][..i]), log[..n][i]) {
      assert log[..n][..i] == log[..i];
    }
  }

  /**
   Over every run: when an operation settles its journal, an unconfirmed capture of a retired runtime is
   left only if the retirement is known from memory alone and an attempt for an earlier capture blocked.
   */
  lemma {:induction false} RetiredCaptureOnlyBehindBlock(config: Config, log: seq<Step>, s: Step, c: Capture)
    requires ValidConfig(config) && HonestRun(config, log + [s])
    requires var x := s.around;
             var t := Turned(config, Opened(config, RunStored(config, log), x), s.operation, x);
             && t.Settles? && c.phase == Unconfirmed && c in Settle(config, t.journal, x).captures
             && RuntimeRetired(Settle(config, t.journal, x), VolatileAfter(t.journal, x.memory, x.cleaned), x.now, c.runtime)
    ensures var x := s.around;
            var k := Turned(config, Opened(config, RunStored(config, log), x), s.operation, x).journal;
            var q, w := Basis(config, k, x.now, x.cleaned), VolatileAfter(k, x.memory, x.cleaned);
            && (w.fenceUntil > x.now || c.runtime in w.retired)
            && BehindBlock(config, q, w, x.now, AttemptsOf(config, x), q.captures, c)
  {
    hide Proper, Honest, Turned, Opened, Evaluate, VolatileAfter, BehindBlock, Unambiguous, AttemptsOf, RunStored;
    var x := s.around;
    var stored := RunStored(config, log);
    var hs := RunHistories(config, log);
    assert (log + [s])[..|log|] == log && (log + [s])[|log|] == s;
    HonestPrefix(config, log + [s], |log|);
    assert Honest(config, stored, s);
    RunIsSound(config, log);
    OpenedIsProper(config, stored, hs, x);
    TurnIsProper(config, stored, hs, s);
    var k := Turned(config, Opened(config, stored, x), s.operation, x).journal;
    SettledIsInterred(config, k, x);
    var e := Settle(config, k, x);
    SettledJournalIsUnambiguous(config, k, x.memory, x.now, x.cleaned, AttemptsOf(config, x), c);
    forall i | 0 <= i < |e.retired| ensures e.retired[i].runtime != c.runtime {
      assert e.retired[i] in e.retired;
    }
  }

  // ---------------------------------------------------------------------------------------------
  // Where the captures of a stored journal come from
  // ---------------------------------------------------------------------------------------------

  /** Settling `k` confirmed this capture, had every reason to, and nothing came in between. */
  ghost predicate Proved(config: Config, k: Journal, y: Surroundings, c: Capture) {
    && c.phase == Confirmed && c.(phase := Unconfirmed) in k.captures
    && k.blockedUntil <= y.now && AttemptsOf(config, y)(c.(phase := Unconfirmed)) == Committed
    && Undisturbed(y.during(c.(phase := Unconfirmed)), c.runtime)
    && Evidence(config, Basis(config, k, y.now, y.cleaned), VolatileAfter(k, y.memory, y.cleaned), y.now,
                c.(phase := Unconfirmed))
  }

  ghost predicate StagedBy(s: Step, c: Capture) {
    s.operation.CaptureStaged? && s.operation.capture == c.(phase := Unconfirmed)
  }

  ghost predicate ConfirmedBy(config: Config, stored: Option<Journal>, s: Step, c: Capture) {
    var j := Opened(config, stored, s.around);
    var t := Turned(config, j, s.operation, s.around);
    || (t.Settles? && Proved(config, t.journal, s.around, c))
    || (s.operation.RuntimeActivated? && s.operation.settledFirst.Some? && Proved(config, j, s.operation.settledFirst.value, c))
  }

  lemma {:induction false} SettleOrigin(config: Config, k: Journal, y: Surroundings, c: Capture)
    requires ValidConfig(config) && c in Settle(config, k, y).captures
    ensures c in k.captures || Proved(config, k, y, c)
  {
    hide Filter, Evidence, Judge, RequestMatches, VerdictOf, AttemptsOf, Undisturbed;
    var q := Basis(config, k, y.now, y.cleaned);
    if c !in k.captures {
      if k.blockedUntil <= y.now {
        JudgeKeeps(config, q, VolatileAfter(k, y.memory, y.cleaned), y.now, AttemptsOf(config, y), q.captures, c);
      }
      ConfirmationNeedsEvidence(config, k, y.memory, y.now, y.cleaned, AttemptsOf(config, y), c);
      CommittedUndisturbed(config, y, c.(phase := Unconfirmed));
    }
  }

  lemma {:induction false} CommittedUndisturbed(config: Config, y: Surroundings, c: Capture)
    requires ValidConfig(config) && AttemptsOf(config, y)(c) == Committed
    ensures Undisturbed(y.during(c), c.runtime)
  {
    hide AttemptOf, Fenced, Undisturbed;
    ConfirmationFence.RunAdvances(ConfirmationFence.INITIAL_FENCES, y.before, config.capacity, 0, 0);
    CommittedSawNoEvent(y.answers(c), FencesAsked(config, y), y.during(c), config.capacity, c.runtime);
  }

  lemma {:induction false} EventsAddNoCapture(config: Config, j: Journal, x: Redirect, t: Terminal, statusCode: nat)
    ensures forall c :: c in ObserveRedirect(config, j, x).captures ==> c in j.captures
    ensures forall c :: c in ObserveCompleted(config, j, t, statusCode).captures ==> c in j.captures
    ensures forall c :: c in ObserveError(config, j, t).captures ==> c in j.captures
  {
    hide Filter, IndexOf, StepRequest;
    if IndexOf(j.requests, HasRequestId(x.requestId)).Some? {
      assert ObserveRedirect(config, j, x).captures == j.captures;
    }
  }

  lemma {:induction false} RequestsAddNoCapture(config: Config, j: Journal, x: Surroundings, e: Entry, id: string, b: Before)
    ensures forall c :: c in Begin(config, j, x.memory, x.now, e, id).0.captures ==> c in j.captures
    ensures forall c :: c in Resolve(config, j, x.memory, x.now, id, b).captures ==> c in j.captures
    ensures forall c :: c in FailBefore(config, j, id).captures ==> c in j.captures
    ensures forall c :: c in ObserveBefore(config, j, b).captures ==> c in j.captures
  {
    hide Filter, IndexOf, StepRequest, RuntimeRetired, Unadmittable, FreshRequest, RuntimeForRequest;
  }

  lemma {:induction false} CaptureStepsAddOne(config: Config, j: Journal, c: Capture, tab: nat, frame: nat, document: Option<string>)
    ensures forall d :: d in Stage(config, j, c).captures ==> d in j.captures || d == c
    ensures forall d :: d in ClearTab(j, tab).captures ==> d in j.captures
    ensures forall d :: d in Navigate(j, tab, frame, document).captures ==> d in j.captures
  {
    hide Filter, IndexOf;
  }

  lemma {:induction false} StagedIsUnconfirmed(j: Journal, x: Surroundings, c: Capture)
    requires MayStage(j, x, c)
    ensures c.phase == Unconfirmed
  {
  }

  lemma {:induction false} ChangeAddsNone(j: Journal, change: Change)
    ensures forall d :: d in ApplyChange(j, change).captures ==> d in j.captures
  {
    hide Filter;
  }

  /** An operation adds no capture but the one it stages. */
  lemma {:induction false} TurnOrigin(config: Config, j: Journal, s: Step, c: Capture)
    requires ValidConfig(config)
    requires var t := Turned(config, j, s.operation, s.around); !t.Stops? && c in t.journal.captures
    ensures || c in j.captures
            || (StagedBy(s, c) && c.phase == Unconfirmed && MayStage(j, s.around, c))
            || (s.operation.RuntimeActivated? && s.operation.settledFirst.Some?
                && Proved(config, j, s.operation.settledFirst.value, c))
  {
    hide Filter, IndexOf, Begin, Resolve, FailBefore, AddRequest, Settle, Proved, Unadmittable, RuntimeRetired;
    hide ObserveBefore, ObserveRedirect, ObserveCompleted, ObserveError, Stage, ClearTab, Navigate, ApplyChange, MayStage;
    var x := s.around;
    var none := Before("", 0, 0, "", Url("", "", ""), Url("", "", ""), Post, Xhr, 0);
    match s.operation
    case AdmissionBegins(e, id) => RequestsAddNoCapture(config, j, x, e, id, none);
    case AdmissionResolves(id, b) => RequestsAddNoCapture(config, j, x, Entry("", 0, 0, None, None, 0), id, b);
    case AdmissionFails(id) => RequestsAddNoCapture(config, j, x, Entry("", 0, 0, None, None, 0), id, none);
    case RequestSeen(b) => RequestsAddNoCapture(config, j, x, Entry("", 0, 0, None, None, 0), "", b);
    case RedirectSeen(r) =>
      EventsAddNoCapture(config, j, r, Terminal("", 0, 0, "", r.url, Post, Xhr, 0, 0), 0);
    case CompletionSeen(t, statusCode) =>
      EventsAddNoCapture(config, j, Redirect("", 0, 0, "", t.url, t.url, Post, Xhr, 0, 0, 0), t, statusCode);
    case ErrorSeen(t) =>
      EventsAddNoCapture(config, j, Redirect("", 0, 0, "", t.url, t.url, Post, Xhr, 0, 0, 0), t, 0);
    case CaptureStaged(d) =>
      if MayStage(j, x, d) {
        StagedIsUnconfirmed(j, x, d);
      }
      CaptureStepsAddOne(config, j, d, 0, 0, None);
    case RuntimeActivated(change, settledFirst, _) =>
      if settledFirst.Some? {
        ChangeAddsNone(Settle(config, j, settledFirst.value), change);
        if c in Settle(config, j, settledFirst.value).captures {
          SettleOrigin(config, j, settledFirst.value, c);
        }
      } else {
        ChangeAddsNone(j, change);
      }
    case TabCleared(tab) => CaptureStepsAddOne(config, j, c, tab, 0, None);
    case Navigated(tab, frame, document) => CaptureStepsAddOne(config, j, c, tab, frame, document);
    case WindowInvalidated(_) =>
    case Reconciled =>
    case Cleared =>
  }

  lemma {:induction false} OpenedOrigin(config: Config, stored: Option<Journal>, x: Surroundings, c: Capture)
    requires c in Opened(config, stored, x).captures
    ensures stored.Some? && c in stored.value.captures
  {
    hide Filter, Storable, WithinLimits;
  }

  lemma {:induction false} StepOrigin(config: Config, stored: Option<Journal>, s: Step, c: Capture)
    requires ValidConfig(config)
    requires var t := StepStored(config, stored, s); t.Some? && c in t.value.captures
    ensures || (stored.Some? && c in stored.value.captures)
            || (StagedBy(s, c) && c.phase == Unconfirmed)
            || (ConfirmedBy(config, stored, s, c)
                && (StagedBy(s, c) || (stored.Some? && c.(phase := Unconfirmed) in stored.value.captures)))
  {
    hide Filter, Opened, Turned, Settle, Evidence, Basis, VolatileAfter;
    var x := s.around;
    var j := Opened(config, stored, x);
    var t := Turned(config, j, s.operation, x);
    if StepStored(config, stored, s) != stored {
      if t.Settles? && c !in t.journal.captures {
        SettleOrigin(config, t.journal, x, c);
        TurnOrigin(config, j, s, c.(phase := Unconfirmed));
      } else {
        TurnOrigin(config, j, s, c);
      }
      if c in j.captures {
        OpenedOrigin(config, stored, x, c);
      }
      if c.(phase := Unconfirmed) in j.captures {
        OpenedOrigin(config, stored, x, c.(phase := Unconfirmed));
      }
    }
  }

  /** Somebody staged this capture, and if it is confirmed, some step of the run confirmed it. */
  ghost predicate Accounted(config: Config, log: seq<Step>, c: Capture) {
    && (exists k :: 0 <= k < |log| && StagedBy(log[k], c))
    && (c.phase == Confirmed ==>
          exists i :: 0 <= i < |log| && ConfirmedBy(config, RunStored(config, log[..i]), log[i], c))
  }

  lemma {:induction false} AccountedLater(config: Config, log: seq<Step>, s: Step, c: Capture)
    requires Accounted(config, log, c)
    ensures Accounted(config, log + [s], c)
  {
    hide ConfirmedBy, StagedBy, RunStored;
    var all := log + [s];
    var k :| 0 <= k < |log| && StagedBy(log[k], c);
    assert all[k] == log[k];
    if c.phase == Confirmed {
      var i :| 0 <= i < |log| && ConfirmedBy(config, RunStored(config, log[..i]), log[i], c);
      assert all[i] == log[i] && all[..i] == log[..i];
    }
  }

  lemma {:induction false} AccountedNow(config: Config, log: seq<Step>, s: Step, c: Capture)
    requires StagedBy(s, c) || exists k :: 0 <= k < |log| && StagedBy(log[k], c)
    requires c.phase == Confirmed ==> ConfirmedBy(config, RunStored(config, log), s, c)
    ensures Accounted(config, log + [s], c)
  {
    hide ConfirmedBy, StagedBy, RunStored;
    var all := log + [s];
    assert all[|log|] == s && all[..|log|] == log;
    if !StagedBy(s, c) {
      var k :| 0 <= k < |log| && StagedBy(log[k], c);
      assert all[k] == log[k];
    }
  }

  lemma {:induction false} AccountedIsStaged(config: Config, log: seq<Step>, c: Capture)
    requires Accounted(config, log, c)
    ensures exists k :: 0 <= k < |log| && StagedBy(log[k], c)
  {
  }

  /**
   Over every run: a capture in a stored journal was staged by some step of the run, and a confirmed
   one was confirmed by a step that held the evidence for it and whose attempt was committed, undisturbed
   from the moment the step was asked for.
   */
  lemma {:induction false} CapturesAreAccounted(config: Config, log: seq<Step>, c: Capture)
    requires ValidConfig(config)
    requires RunStored(config, log).Some? && c in RunStored(config, log).value.captures
    ensures Accounted(config, log, c)
  {
    hide StepStored, ConfirmedBy, Accounted;
    var n := |log| - 1;
    var before, s := log[..n], log[n];
    var stored := RunStored(config, before);
    assert log == before + [s];
    StepOrigin(config, stored, s, c);
    if stored.Some? && c in stored.value.captures {
      CapturesAreAccounted(config, before, c);
      AccountedLater(config, before, s, c);
    } else {
      if !StagedBy(s, c) {
        CapturesAreAccounted(config, before, c.(phase := Unconfirmed));
        AccountedIsStaged(config, before, c.(phase := Unconfirmed));
        var k :| 0 <= k < |before| && StagedBy(before[k], c.(phase := Unconfirmed));
        assert StagedBy(before[k], c);
      }
      AccountedNow(config, before, s, c);
    }
  }
}
