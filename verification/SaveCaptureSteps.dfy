/**
 The public operations of the save-capture coordinator as steps on the journal, what every step
 keeps, and why a completion and the request it completes may be reported in either order.
 */
module SaveCaptureSteps {
  import opened Numbers
  import opened Sequences
  import opened SaveCaptureTypes
  import opened SaveCaptureEvaluation
  import opened SaveCaptureRequests

  function UnfailedBy(config: Config, a: Admission): Capture -> bool {
    (c: Capture) => !(c.phase == Unconfirmed && AdmissionMayMatch(config, c, a))
  }

  /** A request the coordinator could not describe discards the captures it might belong to. */
  function FailAdmission(config: Config, j: Journal, a: Admission): Journal {
    j.(captures := Filter(j.captures, UnfailedBy(config, a)))
  }

  /** What `begin` is told before the browser reports the request itself. */
  datatype Entry = Entry(
    requestId: string,
    tab: nat,
    frame: nat,
    document: Option<string>,
    source: Option<Url>,
    enteredAt: nat)

  function ActiveFor(e: Entry): ActiveRuntime -> bool {
    (a: ActiveRuntime) =>
      && a.runtime.tab == e.tab
      && a.runtime.frame == e.frame
      && (e.document == None || e.document == Some(a.runtime.document))
      && (e.source == None || e.source == Some(a.document))
  }

  /** No single runtime is active where the request comes from, or it has been retired. */
  predicate Unadmittable(j: Journal, v: Volatile, now: nat, e: Entry) {
    var candidates := Filter(j.active, ActiveFor(e));
    |candidates| != 1 || RuntimeRetired(j, v, now, candidates[0].runtime)
  }

  /** Admit a request of a known runtime; the answer says whether it was admitted. */
  function Begin(config: Config, j: Journal, v: Volatile, now: nat, e: Entry, admissionId: string): (Journal, bool) {
    var candidates := Filter(j.active, ActiveFor(e));
    var expiresAt := SafeAdd(e.enteredAt, config.ttl);
    if Unadmittable(j, v, now, e) then (j, false)
    else if |j.admissions| >= config.capacity then (BlockAll(j, expiresAt), false)
    else
      var a := Admission(admissionId, e.requestId, candidates[0].runtime, AdmissionPending, e.enteredAt, expiresAt);
      (j.(admissions := j.admissions + [a]), true)
  }

  predicate Describes(a: Admission, b: Before) {
    && a.status == AdmissionPending
    && b.requestId == a.requestId
    && b.tab == a.runtime.tab && b.frame == a.runtime.frame && b.document == a.runtime.document
    && b.timeStamp == a.enteredAt
  }

  function Resolve(config: Config, j: Journal, v: Volatile, now: nat, admissionId: string, b: Before): Journal {
    match IndexOf(j.admissions, HasAdmissionId(admissionId))
    case None => j
    case Some(k) =>
      var a := j.admissions[k];
      var rest := RemoveAt(j.admissions, k);
      if !Describes(a, b) || RuntimeRetired(j, v, now, a.runtime)
      then FailAdmission(config, j.(admissions := rest + [a.(status := AdmissionFailed)]), a)
      else AddRequest(config, j.(admissions := rest), FreshRequest(config, b, a.runtime.incarnation))
  }

  function FailBefore(config: Config, j: Journal, admissionId: string): Journal {
    match IndexOf(j.admissions, HasAdmissionId(admissionId))
    case None => j
    case Some(k) =>
      FailAdmission(config, j.(admissions := j.admissions[k := j.admissions[k].(status := AdmissionFailed)]),
                    j.admissions[k])
  }

  function ActiveForRequest(b: Before): ActiveRuntime -> bool {
    (a: ActiveRuntime) =>
      && a.runtime.tab == b.tab && a.runtime.frame == b.frame
      && a.runtime.document == b.document && a.document == b.source
  }

  function CapturedFor(b: Before): Capture -> bool {
    (c: Capture) =>
      && c.runtime.tab == b.tab && c.runtime.frame == b.frame
      && c.runtime.document == b.document && c.source == b.source
  }

  /** The runtime of an unadmitted request: the one active runtime, or the one its captures name. */
  function RuntimeForRequest(j: Journal, b: Before): Option<string> {
    var active := Filter(j.active, ActiveForRequest(b));
    if |active| == 1 then Some(active[0].runtime.incarnation)
    else
      var captured := Filter(j.captures, CapturedFor(b));
      if captured != [] && forall c :: c in captured ==> c.runtime.incarnation == captured[0].runtime.incarnation
      then Some(captured[0].runtime.incarnation) else None
  }

  function ObserveBefore(config: Config, j: Journal, b: Before): Journal {
    match RuntimeForRequest(j, b)
    case None => BlockAll(j, SafeAdd(b.timeStamp, config.ttl))
    case Some(incarnation) => AddRequest(config, j, FreshRequest(config, b, incarnation))
  }

  function InSlot(c: Capture): Capture -> bool {
    (d: Capture) => d.runtime == c.runtime && d.source == c.source
  }

  /** Record a new capture: it replaces the one in its slot and pushes out the oldest when full. */
  function Stage(config: Config, j: Journal, c: Capture): Journal {
    var kept := match IndexOf(j.captures, InSlot(c))
                case None => j.captures
                case Some(k) => RemoveAt(j.captures, k);
    var all := kept + [c];
    j.(captures := if |all| > config.capacity then all[|all| - config.capacity..] else all)
  }

  function OffTabCapture(tab: nat): Capture -> bool { (c: Capture) => c.runtime.tab != tab }
  function OffTabRequest(tab: nat): Request -> bool { (r: Request) => r.runtime.tab != tab }
  function OffTabOutcome(tab: nat): Outcome -> bool { (o: Outcome) => o.terminal.tab != tab }
  function OffTabActive(tab: nat): ActiveRuntime -> bool { (a: ActiveRuntime) => a.runtime.tab != tab }
  function OffTabRetired(tab: nat): RetiredRuntime -> bool { (r: RetiredRuntime) => r.runtime.tab != tab }
  function OffTabAdmission(tab: nat): Admission -> bool { (a: Admission) => a.runtime.tab != tab }

  function ClearTab(j: Journal, tab: nat): Journal {
    j.(captures := Filter(j.captures, OffTabCapture(tab)),
       requests := Filter(j.requests, OffTabRequest(tab)),
       outcomes := Filter(j.outcomes, OffTabOutcome(tab)),
       active := Filter(j.active, OffTabActive(tab)),
       retired := Filter(j.retired, OffTabRetired(tab)),
       admissions := Filter(j.admissions, OffTabAdmission(tab)))
  }

  /** A navigation ends every runtime of the frame, and of the whole tab when it is the top frame. */
  predicate OutlivesNavigation(runtime: Runtime, tab: nat, frame: nat, document: Option<string>) {
    || runtime.tab != tab
    || (if frame == 0 then runtime.frame == 0 && document == Some(runtime.document)
        else runtime.frame != frame || document == Some(runtime.document))
  }

  function SurvivesNavigation(tab: nat, frame: nat, document: Option<string>): ActiveRuntime -> bool {
    (a: ActiveRuntime) => OutlivesNavigation(a.runtime, tab, frame, document)
  }

  function Navigate(j: Journal, tab: nat, frame: nat, document: Option<string>): Journal {
    j.(active := Filter(j.active, SurvivesNavigation(tab, frame, document)))
  }

  // ---------------------------------------------------------------------------------------------
  // What every step keeps
  // ---------------------------------------------------------------------------------------------

  /** The cross-record conditions the stored form demands. */
  ghost predicate Inv(config: Config, j: Journal) {
    && Distinct(j.captures, CAPTURE_ID) && |j.captures| <= config.capacity
    && Distinct(j.requests, REQUEST_ID) && |j.requests| <= config.capacity
    && Distinct(j.outcomes, OUTCOME_KEY) && |j.outcomes| <= config.capacity
    && Distinct(j.active, ACTIVE_KEY) && |j.active| <= config.capacity
    && Distinct(j.retired, RETIRED_KEY) && |j.retired| <= config.capacity
    && Distinct(j.admissions, ADMISSION_ID) && |j.admissions| <= config.capacity
  }

  lemma {:induction false} DistinctRemoveAt<T, K>(s: seq<T>, k: nat, key: T -> K)
    requires k < |s| && Distinct(s, key)
    ensures Distinct(RemoveAt(s, k), key)
    ensures forall x :: x in RemoveAt(s, k) ==> x in s && key(x) != key(s[k])
  {
  }

  lemma {:induction false} DistinctAppend<T, K>(s: seq<T>, x: T, key: T -> K)
    requires Distinct(s, key) && forall y :: y in s ==> key(y) != key(x)
    ensures Distinct(s + [x], key)
  {
  }

  lemma {:induction false} DistinctReplace<T, K>(s: seq<T>, k: nat, x: T, key: T -> K)
    requires k < |s| && Distinct(s, key) && key(x) == key(s[k])
    ensures Distinct(s[k := x], key)
  {
  }

  /** The records a request or terminal event may add, replace or drop. */
  lemma {:induction false} AddRequestKeepsInv(config: Config, j: Journal, r: Request)
    requires Inv(config, j)
    ensures Inv(config, AddRequest(config, j, r))
  {
    match IndexOf(j.requests, HasRequestId(r.id)) {
      case Some(i) =>
        var s := StepRequest(config, j.requests[i], Again(r));
        if s.Some? {
          DistinctReplace(j.requests, i, s.value, REQUEST_ID);
        }
      case None =>
        if |j.requests| < config.capacity {
          assert forall x :: x in j.requests ==> !HasRequestId(r.id)(x);
          var k := IndexOf(j.outcomes, HasOutcomeKey(r.id, r.runtime.incarnation));
          if k.Some? {
            DistinctRemoveAt(j.outcomes, k.value, OUTCOME_KEY);
          }
          var rs := AddRequest(config, j, r).requests;
          assert rs == j.requests + [rs[|rs| - 1]];
          DistinctAppend(j.requests, rs[|rs| - 1], REQUEST_ID);
        }
    }
  }

  lemma {:induction false} RecordEarlyKeepsInv(config: Config, j: Journal, t: Terminal, succeeded: bool)
    requires Inv(config, j)
    ensures Inv(config, RecordEarly(config, j, t, succeeded))
  {
    var incarnation := RuntimeForTerminal(j, t.requestId, t.tab, t.frame, t.document, t.kind);
    if IsMutation(t.meth) && incarnation.Some? {
      var o := Outcome(t, incarnation.value, succeeded);
      if IndexOf(j.outcomes, HasOutcomeKey(t.requestId, o.incarnation)).None? {
        assert forall x :: x in j.outcomes ==> !HasOutcomeKey(t.requestId, o.incarnation)(x);
        DistinctAppend(j.outcomes, o, OUTCOME_KEY);
      }
    }
  }

  lemma {:induction false} ObserveKeepsInv(config: Config, j: Journal, x: Redirect, t: Terminal, statusCode: nat)
    requires Inv(config, j)
    ensures Inv(config, ObserveRedirect(config, j, x))
    ensures Inv(config, ObserveCompleted(config, j, t, statusCode))
    ensures Inv(config, ObserveError(config, j, t))
  {
    match IndexOf(j.requests, HasRequestId(x.requestId)) {
      case Some(i) =>
        DistinctReplace(j.requests, i, StepRequest(config, j.requests[i], Redirecting(x)).value, REQUEST_ID);
      case None =>
        RecordEarlyKeepsInv(config, j, Terminal(x.requestId, x.tab, x.frame, x.document, x.url, x.meth, x.kind,
                                                x.timeStamp, x.expiresAt), false);
    }
    match IndexOf(j.requests, HasRequestId(t.requestId)) {
      case Some(i) =>
        DistinctReplace(j.requests, i, StepRequest(config, j.requests[i], Completing(t, statusCode)).value, REQUEST_ID);
        var s := StepRequest(config, j.requests[i], Failing(t));
        if s.Some? {
          DistinctReplace(j.requests, i, s.value, REQUEST_ID);
        }
      case None =>
        RecordEarlyKeepsInv(config, j, t, IsSuccessStatus(statusCode));
        RecordEarlyKeepsInv(config, j, t, false);
    }
  }

  lemma {:induction false} AdmissionStepsKeepInv(config: Config, j: Journal, v: Volatile, now: nat, e: Entry, id: string, b: Before)
    requires Inv(config, j)
    ensures Inv(config, Resolve(config, j, v, now, id, b))
    ensures Inv(config, FailBefore(config, j, id))
    ensures (forall a :: a in j.admissions ==> a.id != id) ==> Inv(config, Begin(config, j, v, now, e, id).0)
  {
    hide Filter, AddRequest, FreshRequest, RuntimeRetired, Describes, SafeAdd;
    match IndexOf(j.admissions, HasAdmissionId(id)) {
      case None =>
      case Some(k) =>
        var a := j.admissions[k];
        DistinctRemoveAt(j.admissions, k, ADMISSION_ID);
        FilterDistinct(j.captures, UnfailedBy(config, a), CAPTURE_ID);
        var rest := RemoveAt(j.admissions, k);
        DistinctAppend(rest, a.(status := AdmissionFailed), ADMISSION_ID);
        DistinctReplace(j.admissions, k, a.(status := AdmissionFailed), ADMISSION_ID);
        AddRequestKeepsInv(config, j.(admissions := rest), FreshRequest(config, b, a.runtime.incarnation));
    }
    if forall a :: a in j.admissions ==> a.id != id {
      var r := Begin(config, j, v, now, e, id);
      if r.1 {
        DistinctAppend(j.admissions, r.0.admissions[|j.admissions|], ADMISSION_ID);
      }
    }
  }

  lemma {:induction false} DistinctTail<T, K>(s: seq<T>, k: nat, key: T -> K)
    requires k <= |s| && Distinct(s, key)
    ensures Distinct(s[k..], key)
  {
  }

  lemma {:induction false} CaptureStepsKeepInv(config: Config, j: Journal, c: Capture, tab: nat, frame: nat, document: Option<string>)
    requires Inv(config, j)
    ensures (forall d :: d in j.captures ==> d.id != c.id) ==> Inv(config, Stage(config, j, c))
    ensures Inv(config, ClearTab(j, tab))
    ensures Inv(config, Navigate(j, tab, frame, document))
  {
    hide Filter, IndexOf;
    if forall d :: d in j.captures ==> d.id != c.id {
      var k := IndexOf(j.captures, InSlot(c));
      if k.Some? {
        DistinctRemoveAt(j.captures, k.value, CAPTURE_ID);
      }
      var kept := if k.None? then j.captures else RemoveAt(j.captures, k.value);
      DistinctAppend(kept, c, CAPTURE_ID);
      if |kept| + 1 > config.capacity {
        DistinctTail(kept + [c], |kept| + 1 - config.capacity, CAPTURE_ID);
      }
    }
    FilterDistinct(j.captures, OffTabCapture(tab), CAPTURE_ID);
    FilterDistinct(j.requests, OffTabRequest(tab), REQUEST_ID);
    FilterDistinct(j.outcomes, OffTabOutcome(tab), OUTCOME_KEY);
    FilterDistinct(j.active, OffTabActive(tab), ACTIVE_KEY);
    FilterDistinct(j.retired, OffTabRetired(tab), RETIRED_KEY);
    FilterDistinct(j.admissions, OffTabAdmission(tab), ADMISSION_ID);
    FilterDistinct(j.active, SurvivesNavigation(tab, frame, document), ACTIVE_KEY);
  }

  lemma {:induction false} JudgeDistinct(config: Config, j: Journal, v: Volatile, now: nat, attempts: Attempts,
                                         todo: seq<Capture>)
    requires Distinct(todo, CAPTURE_ID)
    ensures Distinct(Judge(config, j, v, now, attempts, todo).0, CAPTURE_ID)
    ensures |Judge(config, j, v, now, attempts, todo).0| <= |todo|
  {
    if todo != [] && !Blocks(config, j, v, now, attempts, todo[0]) {
      DistinctTail(todo, 1, CAPTURE_ID);
      JudgeDistinct(config, j, v, now, attempts, todo[1..]);
      var rest := Judge(config, j, v, now, attempts, todo[1..]).0;
      var first := Settled(config, j, v, now, attempts, todo[0]);
      if first.Some? {
        forall c | c in rest ensures c.id != todo[0].id {
          JudgeKeeps(config, j, v, now, attempts, todo[1..], c);
        }
        DistinctPrepend(first.value, rest, CAPTURE_ID);
      }
    }
  }

  lemma {:induction false} DistinctPrepend<T, K>(x: T, s: seq<T>, key: T -> K)
    requires Distinct(s, key) && forall y :: y in s ==> key(y) != key(x)
    ensures Distinct([x] + s, key)
  {
  }

  lemma {:induction false} PruneKeepsInv(config: Config, j: Journal, now: nat, cleaned: set<Runtime>)
    requires Inv(config, j)
    ensures Inv(config, Prune(config, j, now, cleaned))
  {
    FilterDistinct(j.captures, CaptureSurvives(config, j.retired, KeepAdmissions(j), now), CAPTURE_ID);
    FilterDistinct(j.requests, RequestSurvives(j.retired, now), REQUEST_ID);
    FilterDistinct(j.outcomes, OutcomeSurvives(j.retired, now), OUTCOME_KEY);
    FilterDistinct(j.active, ActiveSurvives(j.retired), ACTIVE_KEY);
    FilterDistinct(j.admissions, AdmissionUnretired(j.retired), ADMISSION_ID);
    FilterDistinct(KeepAdmissions(j), AdmissionLive(now), ADMISSION_ID);
    FilterDistinct(MarkCleaned(j.retired, cleaned), RetiredSurvives(now), RETIRED_KEY);
  }

  lemma {:induction false} EvaluateKeepsInv(config: Config, j: Journal, v: Volatile, now: nat, cleaned: set<Runtime>, attempts: Attempts)
    requires Inv(config, j)
    ensures Inv(config, Evaluate(config, j, v, now, cleaned, attempts))
  {
    hide Filter, Judge, Prune, VolatileAfter;
    PruneKeepsInv(config, j, now, cleaned);
    var p := Prune(config, j, now, cleaned);
    FilterDistinct(p.captures, IS_CONFIRMED, CAPTURE_ID);
    JudgeDistinct(config, LiftFences(p, now), VolatileAfter(j, v, cleaned), now, attempts, p.captures);
  }

  // ---------------------------------------------------------------------------------------------
  // Completion and resolution commute
  // ---------------------------------------------------------------------------------------------

  lemma {:induction false} FindByKey<T(!new), K>(s: seq<T>, key: T -> K, test: T -> bool, x: T)
    requires Distinct(s, key) && x in s && test(x)
    requires forall y :: y in s && test(y) ==> key(y) == key(x)
    ensures IndexOf(s, test).Some? && s[IndexOf(s, test).value] == x
  {
    var i := IndexOf(s, test).value;
    assert s[i] in s;
  }

  /** One request is announced by exactly one admission and nothing else in the journal knows it. */
  ghost predicate Announced(config: Config, j: Journal, v: Volatile, now: nat, a: Admission, b: Before) {
    && Inv(config, j)
    && j.blockedUntil <= now
    && a in j.admissions && Describes(a, b) && a.expiresAt > now
    && (forall x :: x in j.admissions && x.requestId == a.requestId ==> x == a)
    && !RuntimeRetired(j, v, now, a.runtime)
    && (forall r :: r in j.requests ==> r.id != a.requestId) && |j.requests| < config.capacity
    && (forall o :: o in j.outcomes ==> o.terminal.requestId != a.requestId) && |j.outcomes| < config.capacity
    && SafeAdd(b.timeStamp, config.ttl) > now
    && IsMutation(b.meth)
  }

  /** An evaluation that blocks nothing keeps exactly the live records of runtimes without pending clean-up. */
  lemma {:induction false} EvaluateKeepsLive(config: Config, j: Journal, v: Volatile, now: nat, cleaned: set<Runtime>,
                                             attempts: Attempts, runtime: Runtime)
    requires j.blockedUntil <= now && !RuntimeRetired(j, v, now, runtime)
    requires forall c :: attempts(c) != Blocked
    ensures var e := Evaluate(config, j, v, now, cleaned, attempts);
            && e.blockedUntil == 0
            && !RuntimeRetired(e, VolatileAfter(j, v, cleaned), now, runtime)
            && |e.requests| <= |j.requests| && |e.outcomes| <= |j.outcomes|
            && (forall a :: a in e.admissions <==>
                  a in j.admissions && a.expiresAt > now && !PendingCleanup(j.retired, a.runtime))
            && (forall r :: r in e.requests <==>
                  r in j.requests && r.expiresAt > now && !PendingCleanup(j.retired, r.runtime))
            && (forall o :: o in e.outcomes <==>
                  o in j.outcomes && o.terminal.expiresAt > now && !PendingCleanup(j.retired, OutcomeRuntime(o)))
  {
    hide Judge, CleanedRuntimes;
    var q := Basis(config, j, now, cleaned);
    JudgeUnblocked(config, q, VolatileAfter(j, v, cleaned), now, attempts, q.captures);
    var e := Evaluate(config, j, v, now, cleaned, attempts);
    forall i | 0 <= i < |e.retired| ensures e.retired[i].runtime != runtime {
      assert e.retired[i] in Filter(MarkCleaned(j.retired, cleaned), RetiredSurvives(now));
      var k :| 0 <= k < |j.retired| && MarkCleaned(j.retired, cleaned)[k] == e.retired[i];
    }
  }

  /** The record of one request id, as `find` returns it. */
  function TrackedRequest(j: Journal, id: string): Option<Request> {
    match IndexOf(j.requests, HasRequestId(id))
    case None => None
    case Some(i) => Some(j.requests[i])
  }

  /** The request is reported first, an evaluation settles, then its completion is reported. */
  function ResolveThenComplete(config: Config, j: Journal, v: Volatile, now: nat, cleaned: set<Runtime>, attempts: Attempts,
                               a: Admission, b: Before, t: Terminal, statusCode: nat): Journal
  {
    ObserveCompleted(config, Evaluate(config, Resolve(config, j, v, now, a.id, b), v, now, cleaned, attempts), t, statusCode)
  }

  /** The completion is reported first, an evaluation settles, then the request is reported. */
  function CompleteThenResolve(config: Config, j: Journal, v: Volatile, now: nat, cleaned: set<Runtime>, attempts: Attempts,
                               a: Admission, b: Before, t: Terminal, statusCode: nat): Journal
  {
    var c := ObserveCompleted(config, j, t, statusCode);
    Resolve(config, Evaluate(config, c, v, now, cleaned, attempts), VolatileAfter(c, v, cleaned), now, a.id, b)
  }

  /** The guard under which an early completion is kept: a mutation that fits the admission. */
  predicate KeepsEarly(a: Admission, t: Terminal) {
    IsMutation(t.meth) && AdmissionFits(a, t.requestId, t.tab, t.frame, t.document, t.kind)
  }

  /** An early completion reaches the request when it is kept, has not expired, and its runtime is not being cleaned up. */
  predicate ReachesRequest(j: Journal, now: nat, a: Admission, t: Terminal) {
    && KeepsEarly(a, t)
    && t.expiresAt > now
    && !PendingCleanup(j.retired, Runtime(t.tab, t.frame, t.document, a.runtime.incarnation))
  }

  /** Completing the one tracked request of an id. */
  lemma {:induction false} CompleteFindsRequest(config: Config, e: Journal, r: Request, t: Terminal, statusCode: nat)
    requires Distinct(e.requests, REQUEST_ID) && r in e.requests && t.requestId == r.id && r.phase == Started
    ensures TrackedRequest(ObserveCompleted(config, e, t, statusCode), r.id)
            == Some(r.(phase := if TerminalMatches(t, r) && IsSuccessStatus(statusCode) then Succeeded else Failed))
  {
    FindByKey(e.requests, REQUEST_ID, HasRequestId(r.id), r);
    var i := IndexOf(e.requests, HasRequestId(r.id)).value;
    FindReplaced(e.requests, i, StepRequest(config, r, Completing(t, statusCode)).value, r.id);
  }

  /** Resolving the admission of an id nothing else knows starts its request. */
  lemma {:induction false} ResolveStarts(config: Config, j: Journal, v: Volatile, now: nat, a: Admission, b: Before)
    requires Announced(config, j, v, now, a, b)
    ensures var r := Resolve(config, j, v, now, a.id, b);
            && Inv(config, r)
            && r == j.(admissions := r.admissions, requests := j.requests + [FreshRequest(config, b, a.runtime.incarnation)])
  {
    var started := FreshRequest(config, b, a.runtime.incarnation);
    FindByKey(j.admissions, ADMISSION_ID, HasAdmissionId(a.id), a);
    assert IndexOf(j.requests, HasRequestId(started.id)).None?;
    assert IndexOf(j.outcomes, HasOutcomeKey(started.id, started.runtime.incarnation)).None?;
    AdmissionStepsKeepInv(config, j, v, now, Entry("", 0, 0, None, None, 0), a.id, b);
  }

  lemma {:induction false} ResolveThenCompleteRecord(config: Config, j: Journal, v: Volatile, now: nat, cleaned: set<Runtime>, attempts: Attempts,
                                  a: Admission, b: Before, t: Terminal, statusCode: nat)
    requires Announced(config, j, v, now, a, b) && t.requestId == a.requestId
    requires forall c :: attempts(c) != Blocked
    ensures var started := FreshRequest(config, b, a.runtime.incarnation);
            TrackedRequest(ResolveThenComplete(config, j, v, now, cleaned, attempts, a, b, t, statusCode), a.requestId)
            == Some(started.(phase := if TerminalMatches(t, started) && IsSuccessStatus(statusCode) then Succeeded else Failed))
  {
    var started := FreshRequest(config, b, a.runtime.incarnation);
    ResolveStarts(config, j, v, now, a, b);
    var r := Resolve(config, j, v, now, a.id, b);
    assert started in r.requests;
    EvaluateKeepsLive(config, r, v, now, cleaned, attempts, a.runtime);
    EvaluateKeepsInv(config, r, v, now, cleaned, attempts);
    CompleteFindsRequest(config, Evaluate(config, r, v, now, cleaned, attempts), started, t, statusCode);
  }

  lemma {:induction false} FindReplaced(rs: seq<Request>, i: nat, r: Request, id: string)
    requires i < |rs| && Distinct(rs, REQUEST_ID) && rs[i].id == id && r.id == id
    ensures IndexOf(rs[i := r], HasRequestId(id)) == Some(i)
  {
    DistinctReplace(rs, i, r, REQUEST_ID);
    assert rs[i := r][i] == r;
    FindByKey(rs[i := r], REQUEST_ID, HasRequestId(id), r);
  }

  lemma {:induction false} EarlyRuntime(j: Journal, a: Admission, t: Terminal)
    requires a in j.admissions && (forall x :: x in j.admissions && x.requestId == a.requestId ==> x == a)
    requires t.requestId == a.requestId
    ensures RuntimeForTerminal(j, t.requestId, t.tab, t.frame, t.document, t.kind)
            == if AdmissionFits(a, t.requestId, t.tab, t.frame, t.document, t.kind)
               then Some(a.runtime.incarnation) else None
  {
    var fits := FitsTerminal(t.requestId, t.tab, t.frame, t.document, t.kind);
    var fitting := Filter(j.admissions, fits);
    assert a in fitting <==> fits(a);
    assert forall x :: x in fitting ==> x == a;
  }

  lemma {:induction false} EarlyCompletion(config: Config, j: Journal, v: Volatile, now: nat, a: Admission, b: Before, t: Terminal,
                        statusCode: nat)
    requires Announced(config, j, v, now, a, b) && t.requestId == a.requestId
    ensures ObserveCompleted(config, j, t, statusCode)
            == if KeepsEarly(a, t)
               then j.(outcomes := j.outcomes + [Outcome(t, a.runtime.incarnation, IsSuccessStatus(statusCode))])
               else j
  {
    EarlyRuntime(j, a, t);
    assert IndexOf(j.requests, HasRequestId(t.requestId)).None?;
    assert IndexOf(j.outcomes, HasOutcomeKey(t.requestId, a.runtime.incarnation)).None?;
  }

  /** Resolving the one admission of an id that only an early outcome may already know. */
  lemma {:induction false} ResolveFindsOutcome(config: Config, e: Journal, v: Volatile, now: nat, a: Admission, b: Before, o: Outcome)
    requires Inv(config, e) && a in e.admissions && Describes(a, b) && !RuntimeRetired(e, v, now, a.runtime)
    requires (forall r :: r in e.requests ==> r.id != a.requestId) && |e.requests| < config.capacity
    requires o.terminal.requestId == a.requestId && o.incarnation == a.runtime.incarnation
    requires forall p :: p in e.outcomes && p.terminal.requestId == a.requestId ==> p == o
    ensures var started := FreshRequest(config, b, a.runtime.incarnation);
            TrackedRequest(Resolve(config, e, v, now, a.id, b), a.requestId)
            == Some(started.(phase := if o !in e.outcomes then Started
                                      else if TerminalMatches(o.terminal, started) && o.succeeded then Succeeded
                                      else Failed))
  {
    var started := FreshRequest(config, b, a.runtime.incarnation);
    FindByKey(e.admissions, ADMISSION_ID, HasAdmissionId(a.id), a);
    assert IndexOf(e.requests, HasRequestId(started.id)).None?;
    var test := HasOutcomeKey(started.id, started.runtime.incarnation);
    if o in e.outcomes {
      FindByKey(e.outcomes, OUTCOME_KEY, test, o);
    } else {
      assert IndexOf(e.outcomes, test).None?;
    }
    var r := Resolve(config, e, v, now, a.id, b);
    var added := r.requests[|r.requests| - 1];
    assert r.requests == e.requests + [added] && added.id == started.id;
    AdmissionStepsKeepInv(config, e, v, now, Entry("", 0, 0, None, None, 0), a.id, b);
    assert added in r.requests;
    FindByKey(r.requests, REQUEST_ID, HasRequestId(started.id), added);
  }

  lemma {:induction false} CompleteThenResolveRecord(config: Config, j: Journal, v: Volatile, now: nat, cleaned: set<Runtime>, attempts: Attempts,
                                  a: Admission, b: Before, t: Terminal, statusCode: nat)
    requires Announced(config, j, v, now, a, b) && t.requestId == a.requestId
    requires forall c :: attempts(c) != Blocked
    ensures var started := FreshRequest(config, b, a.runtime.incarnation);
            TrackedRequest(CompleteThenResolve(config, j, v, now, cleaned, attempts, a, b, t, statusCode), a.requestId)
            == Some(started.(phase := if !ReachesRequest(j, now, a, t) then Started
                                      else if TerminalMatches(t, started) && IsSuccessStatus(statusCode) then Succeeded
                                      else Failed))
  {
    hide Evaluate, Resolve, ObserveCompleted, TerminalMatches, FreshRequest, Filter, Distinct, SafeAdd;
    EarlyCompletion(config, j, v, now, a, b, t, statusCode);
    var x := Redirect(t.requestId, 0, 0, "", b.url, b.url, t.meth, t.kind, 0, 0, 300);
    ObserveKeepsInv(config, j, x, t, statusCode);
    var c := ObserveCompleted(config, j, t, statusCode);
    EvaluateKeepsLive(config, c, v, now, cleaned, attempts, a.runtime);
    EvaluateKeepsInv(config, c, v, now, cleaned, attempts);
    var e := Evaluate(config, c, v, now, cleaned, attempts);
    var o := Outcome(t, a.runtime.incarnation, IsSuccessStatus(statusCode));
    assert o in c.outcomes <==> KeepsEarly(a, t);
    ResolveFindsOutcome(config, e, VolatileAfter(c, v, cleaned), now, a, b, o);
  }

  /**
   A completion and the announced request it completes leave the same record in either order exactly
   when the completion is for a mutation, fits the admission, has not expired and is of no runtime
   under clean-up. Otherwise the early completion is lost: the record stays open one way only.
   */
  lemma {:induction false} CompletionCommutes(config: Config, j: Journal, v: Volatile, now: nat, cleaned: set<Runtime>, attempts: Attempts,
                           a: Admission, b: Before, t: Terminal, statusCode: nat)
    requires Announced(config, j, v, now, a, b) && t.requestId == a.requestId
    requires forall c :: attempts(c) != Blocked
    ensures var late := TrackedRequest(ResolveThenComplete(config, j, v, now, cleaned, attempts, a, b, t, statusCode), a.requestId);
            var early := TrackedRequest(CompleteThenResolve(config, j, v, now, cleaned, attempts, a, b, t, statusCode), a.requestId);
            && late.Some? && early.Some?
            && (early == late <==> ReachesRequest(j, now, a, t))
            && (!ReachesRequest(j, now, a, t) ==> early.value.phase == Started && late.value.phase != Started)
  {
    hide ResolveThenComplete, CompleteThenResolve, TerminalMatches, FreshRequest, ReachesRequest, Announced, TrackedRequest;
    ResolveThenCompleteRecord(config, j, v, now, cleaned, attempts, a, b, t, statusCode);
    CompleteThenResolveRecord(config, j, v, now, cleaned, attempts, a, b, t, statusCode);
  }
}
