/**
 The coordinator object: the journal it mutates in place, and the loops that evaluate it.
 Every method is proved against the step function that describes it.
 */
module SaveCaptureCoordinator {
  import opened Numbers
  import opened Sequences
  import opened SaveCaptureTypes
  import opened SaveCaptureEvaluation
  import opened SaveCaptureRequests
  import opened SaveCaptureSteps

  const IS_UNCONFIRMED: Capture -> bool := (c: Capture) => c.phase == Unconfirmed

  function CaptureUnretired(retired: seq<RetiredRuntime>): Capture -> bool {
    (c: Capture) => c.phase == Unconfirmed ==> !PendingCleanup(retired, c.runtime)
  }

  function RequestUnretired(retired: seq<RetiredRuntime>): Request -> bool {
    (r: Request) => !PendingCleanup(retired, r.runtime)
  }

  function OutcomeUnretired(retired: seq<RetiredRuntime>): Outcome -> bool {
    (o: Outcome) => !PendingCleanup(retired, OutcomeRuntime(o))
  }

  function CaptureNotOf(runtime: Runtime): Capture -> bool {
    (c: Capture) => c.phase == Unconfirmed ==> c.runtime != runtime
  }

  function RequestNotOf(runtime: Runtime): Request -> bool { (r: Request) => r.runtime != runtime }
  function OutcomeNotOf(runtime: Runtime): Outcome -> bool { (o: Outcome) => OutcomeRuntime(o) != runtime }
  function ActiveNotOf(runtime: Runtime): ActiveRuntime -> bool { (a: ActiveRuntime) => a.runtime != runtime }
  function AdmissionNotOf(runtime: Runtime): Admission -> bool { (a: Admission) => a.runtime != runtime }

  function AdmissionExpired(now: nat): Admission -> bool { (a: Admission) => a.expiresAt <= now }

  predicate MatchedByAny(config: Config, admissions: seq<Admission>, c: Capture) {
    exists i :: 0 <= i < |admissions| && AdmissionMayMatch(config, c, admissions[i])
  }

  function UnfailedByAll(config: Config, admissions: seq<Admission>): Capture -> bool {
    (c: Capture) =>
      c.phase == Unconfirmed ==> !MatchedByAny(config, admissions, c)
  }

  predicate PendingAt(retired: seq<RetiredRuntime>, n: nat, runtime: Runtime)
    requires n < |retired|
  {
    retired[n].cleanupPending && retired[n].runtime == runtime
  }

  lemma {:induction false} PendingPrefix(retired: seq<RetiredRuntime>, n: nat, runtime: Runtime)
    requires n < |retired|
    ensures PendingCleanup(retired[..n + 1], runtime)
            == (PendingCleanup(retired[..n], runtime) || PendingAt(retired, n, runtime))
  {
    var longer, shorter := retired[..n + 1], retired[..n];
    assert longer == shorter + [retired[n]];
    if PendingCleanup(shorter, runtime) {
      var i :| 0 <= i < |shorter| && shorter[i].cleanupPending && shorter[i].runtime == runtime;
      assert longer[i] == shorter[i];
    }
    if PendingAt(retired, n, runtime) {
      assert longer[n].cleanupPending && longer[n].runtime == runtime;
    }
  }

  /** The journal without the records of one retired runtime. */
  function Without(j: Journal, runtime: Runtime): Journal {
    j.(captures := Filter(j.captures, CaptureNotOf(runtime)),
       requests := Filter(j.requests, RequestNotOf(runtime)),
       outcomes := Filter(j.outcomes, OutcomeNotOf(runtime)),
       active := Filter(j.active, ActiveNotOf(runtime)),
       admissions := Filter(j.admissions, AdmissionNotOf(runtime)))
  }

  /** The journal without the records of any runtime whose retirement is pending in the list. */
  function WithoutAll(j: Journal, retired: seq<RetiredRuntime>): Journal {
    j.(captures := Filter(j.captures, CaptureUnretired(retired)),
       requests := Filter(j.requests, RequestUnretired(retired)),
       outcomes := Filter(j.outcomes, OutcomeUnretired(retired)),
       active := Filter(j.active, ActiveSurvives(retired)),
       admissions := Filter(j.admissions, AdmissionUnretired(retired)))
  }

  lemma {:induction false} WithoutNone(j: Journal)
    ensures WithoutAll(j, []) == j
  {
    FilterAll(j.captures, CaptureUnretired([]));
    FilterAll(j.requests, RequestUnretired([]));
    FilterAll(j.outcomes, OutcomeUnretired([]));
    FilterAll(j.active, ActiveSurvives([]));
    FilterAll(j.admissions, AdmissionUnretired([]));
  }

  /** Removing the runtimes one after the other removes exactly the runtimes of the list. */
  lemma {:induction false} WithoutOneMore(j: Journal, retired: seq<RetiredRuntime>, n: nat)
    requires n < |retired|
    ensures WithoutAll(j, retired[..n + 1])
            == if retired[n].cleanupPending then Without(WithoutAll(j, retired[..n]), retired[n].runtime)
               else WithoutAll(j, retired[..n])
  {
    var r, m, p := retired[n], retired[..n + 1], retired[..n];
    forall runtime ensures PendingCleanup(m, runtime) == (PendingCleanup(p, runtime) || PendingAt(retired, n, runtime)) {
      PendingPrefix(retired, n, runtime);
    }
    if r.cleanupPending {
      FilterFilter(j.captures, CaptureUnretired(p), CaptureNotOf(r.runtime), CaptureUnretired(m));
      FilterFilter(j.requests, RequestUnretired(p), RequestNotOf(r.runtime), RequestUnretired(m));
      FilterFilter(j.outcomes, OutcomeUnretired(p), OutcomeNotOf(r.runtime), OutcomeUnretired(m));
      FilterFilter(j.active, ActiveSurvives(p), ActiveNotOf(r.runtime), ActiveSurvives(m));
      FilterFilter(j.admissions, AdmissionUnretired(p), AdmissionNotOf(r.runtime), AdmissionUnretired(m));
    } else {
      FilterSame(j.captures, CaptureUnretired(p), CaptureUnretired(m));
      FilterSame(j.requests, RequestUnretired(p), RequestUnretired(m));
      FilterSame(j.outcomes, OutcomeUnretired(p), OutcomeUnretired(m));
      FilterSame(j.active, ActiveSurvives(p), ActiveSurvives(m));
      FilterSame(j.admissions, AdmissionUnretired(p), AdmissionUnretired(m));
    }
  }

  function MatchedBy(config: Config, r: Request): Capture -> bool {
    (c: Capture) => RequestMatches(config, c, r)
  }

  function OwnersIn(reverse: map<string, seq<Capture>>, r: Request): seq<Capture> {
    if r.id in reverse then reverse[r.id] else []
  }

  /** Build both match maps in one pass over the captures, as the loop needs them. */
  method MatchAll(config: Config, active: seq<Capture>, requests: seq<Request>)
    returns (matches: map<string, seq<Request>>, reverse: map<string, seq<Capture>>)
    requires Distinct(active, CAPTURE_ID) && Distinct(requests, REQUEST_ID)
    ensures forall c :: c in active ==> c.id in matches && matches[c.id] == Filter(requests, MatchesCapture(config, c))
    ensures forall r :: r in requests ==> OwnersIn(reverse, r) == Filter(active, MatchedBy(config, r))
  {
    hide RequestMatches, Filter;
    NoneMatchedYet(config, requests);
    matches, reverse := map[], map[];
    for i := 0 to |active|
      invariant forall k :: 0 <= k < i ==>
                  active[k].id in matches && matches[active[k].id] == Filter(requests, MatchesCapture(config, active[k]))
      invariant forall r :: r in requests ==> OwnersIn(reverse, r) == Filter(active[..i], MatchedBy(config, r))
    {
      var c := active[i];
      var candidates := Filter(requests, MatchesCapture(config, c));
      FilterDistinct(requests, MatchesCapture(config, c), REQUEST_ID);
      matches := matches[c.id := candidates];
      reverse := AddOwner(reverse, c, candidates, requests);
      forall r | r in requests ensures OwnersIn(reverse, r) == Filter(active[..i + 1], MatchedBy(config, r)) {
        assert active[..i + 1] == active[..i] + [c];
        FilterConcat(active[..i], [c], MatchedBy(config, r));
        FilterOne(c, MatchedBy(config, r));
        assert r in candidates <==> RequestMatches(config, c, r);
      }
    }
    assert active[..|active|] == active;
    forall c | c in active
      ensures c.id in matches && matches[c.id] == Filter(requests, MatchesCapture(config, c))
    {
      var k :| 0 <= k < |active| && active[k] == c;
    }
  }

  lemma {:induction false} NoneMatchedYet(config: Config, requests: seq<Request>)
    ensures forall r :: r in requests ==> Filter([], MatchedBy(config, r)) == []
  {
  }

  lemma {:induction false} FilterOne(c: Capture, keep: Capture -> bool)
    ensures Filter([c], keep) == if keep(c) then [c] else []
  {
  }

  method AddOwner(before: map<string, seq<Capture>>, c: Capture, candidates: seq<Request>, requests: seq<Request>)
    returns (reverse: map<string, seq<Capture>>)
    requires Distinct(requests, REQUEST_ID) && Distinct(candidates, REQUEST_ID)
    requires forall r :: r in candidates ==> r in requests
    ensures forall r :: r in requests ==>
              OwnersIn(reverse, r) == if r in candidates then OwnersIn(before, r) + [c] else OwnersIn(before, r)
  {
    reverse := before;
    for n := 0 to |candidates|
      invariant forall r :: r in requests ==>
                  OwnersIn(reverse, r) == if r in candidates[..n] then OwnersIn(before, r) + [c] else OwnersIn(before, r)
    {
      var r := candidates[n];
      assert r !in candidates[..n];
      reverse := reverse[r.id := OwnersIn(reverse, r) + [c]];
      assert candidates[..n + 1] == candidates[..n] + [r];
      forall s | s in requests && s.id == r.id ensures s == r {
        SameKeySame(requests, REQUEST_ID, s, r);
      }
    }
    assert candidates[..|candidates|] == candidates;
  }

  lemma {:induction false} SameKeySame<T, K>(s: seq<T>, key: T -> K, x: T, y: T)
    requires Distinct(s, key) && x in s && y in s && key(x) == key(y)
    ensures x == y
  {
  }

  // ---------------------------------------------------------------------------------------------
  // The object
  // ---------------------------------------------------------------------------------------------

  /** A content script announcing itself, possibly as the replacement of an earlier one. */
  datatype Activation = Activation(runtime: Runtime, document: Url, previous: Option<string>)

  datatype Answer = Accepted | Refused | Thrown

  function PreviousRuntime(a: Activation): Runtime
    requires a.previous.Some?
  {
    a.runtime.(incarnation := a.previous.value)
  }

  predicate SameDocument(a: Runtime, b: Runtime) {
    a.tab == b.tab && a.frame == b.frame && a.document == b.document
  }

  function IsActiveRuntime(runtime: Runtime): ActiveRuntime -> bool {
    (a: ActiveRuntime) => a.runtime == runtime
  }

  function InDocument(runtime: Runtime): ActiveRuntime -> bool {
    (a: ActiveRuntime) => SameDocument(a.runtime, runtime)
  }

  function InFrame(runtime: Runtime): ActiveRuntime -> bool {
    (a: ActiveRuntime) => a.runtime.tab == runtime.tab && a.runtime.frame == runtime.frame
  }

  /** What a new runtime leaves of the others: nothing of its frame, nothing of the tab if it is on top. */
  function OutlivesActivation(runtime: Runtime): ActiveRuntime -> bool {
    (a: ActiveRuntime) => a.runtime.tab != runtime.tab || (runtime.frame != 0 && a.runtime.frame != runtime.frame)
  }

  /** An unchanged top-frame runtime ends the runtimes of the other frames. */
  function OutlivesReport(runtime: Runtime): ActiveRuntime -> bool {
    (a: ActiveRuntime) => a.runtime.tab != runtime.tab || a.runtime.frame == 0
  }

  function RetiredIs(runtime: Runtime): RetiredRuntime -> bool {
    (r: RetiredRuntime) => r.runtime == runtime
  }

  predicate DocumentCleanupPending(retired: seq<RetiredRuntime>, runtime: Runtime) {
    exists i :: 0 <= i < |retired| && SameDocument(retired[i].runtime, runtime) && retired[i].cleanupPending
  }

  /** The frame belongs to this runtime alone, and so does the tab when it is the top frame. */
  ghost predicate Holds(active: seq<ActiveRuntime>, runtime: Runtime, document: Url) {
    && (exists i :: 0 <= i < |active| && active[i].runtime == runtime && active[i].document == document)
    && (forall a :: a in active && a.runtime.tab == runtime.tab && (runtime.frame == 0 || a.runtime.frame == runtime.frame)
                    ==> a.runtime == runtime)
  }

  /** Nothing that could still be confirmed is left of a runtime. */
  ghost predicate Gone(j: Journal, runtime: Runtime) {
    && (forall c :: c in j.captures && c.phase == Unconfirmed ==> c.runtime != runtime)
    && (forall r :: r in j.requests ==> r.runtime != runtime)
    && (forall a :: a in j.admissions ==> a.runtime != runtime)
  }

  predicate Tombstoned(retired: seq<RetiredRuntime>, runtime: Runtime) {
    exists i :: 0 <= i < |retired| && retired[i].runtime == runtime
  }

  lemma {:induction false} WithoutKeepsInv(config: Config, j: Journal, runtime: Runtime)
    requires Inv(config, j)
    ensures Inv(config, Without(j, runtime)) && Gone(Without(j, runtime), runtime)
  {
    FilterDistinct(j.captures, CaptureNotOf(runtime), CAPTURE_ID);
    FilterDistinct(j.requests, RequestNotOf(runtime), REQUEST_ID);
    FilterDistinct(j.outcomes, OutcomeNotOf(runtime), OUTCOME_KEY);
    FilterDistinct(j.active, ActiveNotOf(runtime), ACTIVE_KEY);
    FilterDistinct(j.admissions, AdmissionNotOf(runtime), ADMISSION_ID);
  }

  /** A retirement that has been cleaned up. */
  predicate Buried(retired: seq<RetiredRuntime>, runtime: Runtime) {
    exists i :: 0 <= i < |retired| && retired[i].runtime == runtime && !retired[i].cleanupPending
  }

  /** An evaluation revives nothing, and finishes off a runtime whose cleanup is pending. */
  lemma {:induction false} EvaluationRevivesNothing(config: Config, j: Journal, v: Volatile, now: nat, cleaned: set<Runtime>,
                                 attempts: Attempts, runtime: Runtime)
    ensures var e := Evaluate(config, j, v, now, cleaned, attempts);
            Gone(j, runtime) || PendingCleanup(j.retired, runtime) ==> Gone(e, runtime)
  {
    hide VerdictOf, RequestMatches, Filter, Judge, VolatileAfter;
    var e := Evaluate(config, j, v, now, cleaned, attempts);
    var q := Basis(config, j, now, cleaned);
    if Gone(j, runtime) || PendingCleanup(j.retired, runtime) {
      forall c | c in e.captures && c.phase == Unconfirmed ensures c.runtime != runtime {
        if j.blockedUntil <= now {
          JudgeKeeps(config, q, VolatileAfter(j, v, cleaned), now, attempts, q.captures, c);
        }
        assert c in j.captures && CaptureSurvives(config, j.retired, KeepAdmissions(j), now)(c);
      }
    }
  }

  lemma {:induction false} EvaluationEndsOnlyPending(config: Config, j: Journal, v: Volatile, now: nat, cleaned: set<Runtime>,
                                  attempts: Attempts)
    ensures var e := Evaluate(config, j, v, now, cleaned, attempts);
            forall a :: a in e.active <==> a in j.active && !PendingCleanup(j.retired, a.runtime)
  {
    hide Judge;
    assert forall a :: ActiveSurvives(j.retired)(a) == !PendingCleanup(j.retired, a.runtime);
  }

  lemma {:induction false} EvaluationAddsNoTombstone(config: Config, j: Journal, v: Volatile, now: nat, cleaned: set<Runtime>,
                                  attempts: Attempts, runtime: Runtime)
    requires !Tombstoned(j.retired, runtime)
    ensures !Tombstoned(Evaluate(config, j, v, now, cleaned, attempts).retired, runtime)
  {
    hide Judge;
    var e := Evaluate(config, j, v, now, cleaned, attempts);
    forall i | 0 <= i < |e.retired| ensures e.retired[i].runtime != runtime {
      assert e.retired[i] in e.retired;
      var k :| 0 <= k < |j.retired| && MarkCleaned(j.retired, cleaned)[k] == e.retired[i];
    }
  }

  lemma {:induction false} HoldsThroughEvaluation(config: Config, j: Journal, v: Volatile, now: nat, cleaned: set<Runtime>,
                               attempts: Attempts, runtime: Runtime, document: Url)
    requires Holds(j.active, runtime, document) && !Tombstoned(j.retired, runtime)
    ensures var e := Evaluate(config, j, v, now, cleaned, attempts);
            Holds(e.active, runtime, document) && !Tombstoned(e.retired, runtime)
  {
    hide Evaluate;
    EvaluationEndsOnlyPending(config, j, v, now, cleaned, attempts);
    EvaluationAddsNoTombstone(config, j, v, now, cleaned, attempts, runtime);
    var i :| 0 <= i < |j.active| && j.active[i].runtime == runtime && j.active[i].document == document;
    assert !PendingCleanup(j.retired, runtime);
    assert j.active[i] in Evaluate(config, j, v, now, cleaned, attempts).active;
  }

  /** What one activation may do to the journal before it is settled. */
  datatype Change = Change(
    active: seq<ActiveRuntime>,
    retired: seq<RetiredRuntime>,
    fenceUntil: nat,
    removed: Option<Runtime>,
    blocked: Option<nat>)

  function NoChange(j: Journal): Change {
    Change(j.active, j.retired, j.runtimeFenceUntil, None, None)
  }

  function ApplyChange(j: Journal, c: Change): Journal {
    var k := if c.removed.Some? then Without(j, c.removed.value) else j;
    var m := k.(active := c.active, retired := c.retired, runtimeFenceUntil := c.fenceUntil);
    if c.blocked.Some? then BlockAll(m, c.blocked.value) else m
  }

  /** The retired runtimes are none of the records that removing a runtime looks at. */
  lemma {:induction false} WithoutIgnoresRetired(j: Journal, retired: seq<RetiredRuntime>, runtime: Runtime)
    ensures Without(j.(retired := retired), runtime) == Without(j, runtime).(retired := retired)
  {
  }

  lemma {:induction false} GoneIgnoresActive(j: Journal, active: seq<ActiveRuntime>, runtime: Runtime)
    ensures Gone(j.(active := active), runtime) == Gone(j, runtime)
  {
  }

  /** A tombstone a change may leave: one that was there, or one it adds or finishes after removing the runtime. */
  ghost predicate MayLeave(config: Config, j: Journal, removed: Option<Runtime>, r: RetiredRuntime) {
    || r in j.retired
    || ((r.cleanupPending || removed == Some(r.runtime))
        && (r.(cleanupPending := true) in j.retired || r.expiresAt == SafeAdd(r.retiredAt, config.ttl)))
  }

  lemma {:induction false} NoneTombstoned(retired: seq<RetiredRuntime>, runtime: Runtime)
    requires IndexOf(retired, RetiredIs(runtime)).None?
    ensures !Tombstoned(retired, runtime)
  {
    forall i | 0 <= i < |retired| ensures retired[i].runtime != runtime {
      assert retired[i] in retired;
    }
  }

  lemma {:induction false} GoneIgnoresRetired(j: Journal, retired: seq<RetiredRuntime>, runtime: Runtime)
    ensures Gone(j.(retired := retired), runtime) == Gone(j, runtime)
  {
  }

  ghost predicate ValidChange(config: Config, j: Journal, c: Change) {
    && Distinct(c.active, ACTIVE_KEY) && |c.active| <= config.capacity
    && Distinct(c.retired, RETIRED_KEY) && |c.retired| <= config.capacity
    && (forall r :: r in c.retired ==> MayLeave(config, j, c.removed, r))
    && c.fenceUntil <= Max(j.runtimeFenceUntil, MAX_SAFE_INTEGER)
    && (c.blocked.Some? ==> c.blocked.value <= Max(j.runtimeFenceUntil, MAX_SAFE_INTEGER))
  }

  lemma {:induction false} VolatileShrinks(j: Journal, v: Volatile, cleaned: set<Runtime>)
    ensures VolatileAfter(j, v, cleaned).retired <= v.retired && VolatileAfter(j, v, cleaned).fenceUntil == v.fenceUntil
  {
  }

  /** Finishing the burial of one tombstone of a list that only gained a fresh one. */
  lemma {:induction false} BurialIsValid(config: Config, j: Journal, before: seq<RetiredRuntime>, after: seq<RetiredRuntime>, k: nat, done: bool)
    requires k < |before|
    requires forall r :: r in before ==> r in j.retired || (r.cleanupPending && r.expiresAt == SafeAdd(r.retiredAt, config.ttl))
    requires after == before[k := if done then before[k].(cleanupPending := false) else before[k]]
    ensures forall r :: r in after ==>
              MayLeave(config, j, if before[k].cleanupPending then Some(before[k].runtime) else None, r)
  {
    hide SafeAdd;
    var removed := if before[k].cleanupPending then Some(before[k].runtime) else None;
    forall r | r in after ensures MayLeave(config, j, removed, r) {
      var i :| 0 <= i < |after| && after[i] == r;
      assert before[i] in before;
    }
  }

  lemma {:induction false} UnchangedIsValid(config: Config, j: Journal)
    requires Inv(config, j)
    ensures ValidChange(config, j, NoChange(j))
  {
  }

  class Coordinator {
    const config: Config
    var revision: nat
    var blockedUntil: nat
    var runtimeFenceUntil: nat
    var captures: seq<Capture>
    var requests: seq<Request>
    var outcomes: seq<Outcome>
    var active: seq<ActiveRuntime>
    var retired: seq<RetiredRuntime>
    var admissions: seq<Admission>
    /** Retired in memory, with expired entries already pruned. */
    var volatileRetired: set<Runtime>
    var volatileFenceUntil: nat

    function View(): Journal
      reads this
    {
      Journal(revision, blockedUntil, runtimeFenceUntil, captures, requests, outcomes, active, retired, admissions)
    }

    function Memory(): Volatile
      reads this
    {
      Volatile(volatileRetired, volatileFenceUntil)
    }

    ghost predicate Valid()
      reads this
    {
      ValidConfig(config) && Inv(config, View())
    }

    constructor (config: Config)
      requires ValidConfig(config)
      ensures Valid() && View() == EmptyJournal(0) && this.config == config
    {
      this.config := config;
      revision, blockedUntil, runtimeFenceUntil := 0, 0, 0;
      captures, requests, outcomes, active, retired, admissions := [], [], [], [], [], [];
      volatileRetired, volatileFenceUntil := {}, 0;
    }

    /** Remove what the journal still holds of one retired runtime. */
    method RetireRuntimeState(runtime: Runtime)
      modifies `captures, `requests, `outcomes, `active, `admissions
      ensures View() == Without(old(View()), runtime)
    {
      captures, requests, outcomes := Filter(captures, CaptureNotOf(runtime)),
        Filter(requests, RequestNotOf(runtime)), Filter(outcomes, OutcomeNotOf(runtime));
      active, admissions := Filter(active, ActiveNotOf(runtime)), Filter(admissions, AdmissionNotOf(runtime));
    }

    /** Everything but the retired runtimes. */
    function Records(): Journal
      reads this
    {
      View().(retired := [])
    }

    method RetireNth(n: nat, cleaned: set<Runtime>)
      requires n < |retired|
      modifies `captures, `requests, `outcomes, `active, `admissions, `retired, `volatileRetired
      ensures var r := old(retired[n]);
              && Records() == (if r.cleanupPending then Without(old(Records()), r.runtime) else old(Records()))
              && retired == old(retired)[n := if r.runtime in cleaned then r.(cleanupPending := false) else r]
              && volatileRetired == old(volatileRetired)
                    - if r.cleanupPending && r.runtime in cleaned then {r.runtime} else {}
    {
      var r := retired[n];
      if r.cleanupPending {
        RetireRuntimeState(r.runtime);
        if r.runtime in cleaned {
          retired := retired[n := r.(cleanupPending := false)];
          volatileRetired := volatileRetired - {r.runtime};
        }
      }
    }

    /** Retry the cleanup of every retirement that is still pending. */
    method RetirePending(cleaned: set<Runtime>)
      modifies `captures, `requests, `outcomes, `active, `admissions, `retired, `volatileRetired
      ensures Records() == WithoutAll(old(Records()), old(retired))
      ensures retired == MarkCleaned(old(retired), cleaned)
      ensures volatileRetired == old(volatileRetired) - CleanedRuntimes(old(retired), cleaned)
    {
      hide Without, WithoutAll, MarkCleaned, CleanedRuntimes, Filter;
      ghost var j, list, memory := Records(), retired, volatileRetired;
      NothingCleanedYet(cleaned);
      WithoutNone(j);
      var n := 0;
      assert list[..0] == [];
      while n < |retired|
        invariant n <= |retired| == |list|
        invariant Records() == WithoutAll(j, list[..n])
        invariant forall i :: 0 <= i < n ==>
                    retired[i] == if list[i].runtime in cleaned then list[i].(cleanupPending := false) else list[i]
        invariant forall i :: n <= i < |list| ==> retired[i] == list[i]
        invariant volatileRetired == memory - CleanedRuntimes(list[..n], cleaned)
      {
        assert Records() == WithoutAll(j, list[..n]);
        RetireNth(n, cleaned);
        assert Records() == WithoutAll(j, list[..n + 1]) by { WithoutOneMore(j, list, n); }
        CleanedOneMore(list, n, cleaned);
        n := n + 1;
      }
      assert list[..n] == list;
      assert retired == MarkCleaned(list, cleaned);
    }

    /** Drop the expired admissions; each one fails the captures it might have belonged to. */
    method ExpireAdmissions(now: nat)
      modifies `captures, `admissions
      ensures View() == old(View()).(admissions := Filter(old(admissions), AdmissionLive(now)),
                                     captures := Filter(old(captures),
                                                        UnfailedByAll(config, Filter(old(admissions), AdmissionExpired(now)))))
    {
      hide Filter, UnfailedBy;
      var expired := Filter(admissions, AdmissionExpired(now));
      admissions := Filter(admissions, AdmissionLive(now));
      ghost var j := View();
      FilterAll(captures, UnfailedByAll(config, expired[..0]));
      for n := 0 to |expired|
        invariant View() == j.(captures := Filter(j.captures, UnfailedByAll(config, expired[..n])))
      {
        ghost var p, m := expired[..n], expired[..n + 1];
        assert m == p + [expired[n]];
        forall c ensures UnfailedByAll(config, m)(c) == (UnfailedByAll(config, p)(c) && UnfailedBy(config, expired[n])(c)) {
          FailedPrefix(config, expired, n, c);
        }
        FilterFilter(j.captures, UnfailedByAll(config, p), UnfailedBy(config, expired[n]), UnfailedByAll(config, m));
        FailCaptures(expired[n]);
      }
      assert expired[..|expired|] == expired;
    }

    method FailCaptures(a: Admission)
      modifies `captures
      ensures View() == FailAdmission(config, old(View()), a)
    {
      captures := Filter(captures, UnfailedBy(config, a));
    }

    /** The verdict on one capture, from the prepared match maps; `j` is the journal they describe. */
    method Decide(ghost j: Journal, c: Capture, candidates: seq<Request>, reverse: map<string, seq<Capture>>, now: nat)
      returns (verdict: Verdict)
      requires j.requests == requests && j.retired == retired && j.admissions == admissions
      requires candidates == Candidates(config, j, c)
      requires forall r :: r in requests ==> OwnersIn(reverse, r) == Owners(config, j, r)
      ensures verdict == VerdictOf(config, j, Memory(), now, c)
    {
      hide Candidates, Owners, AdmissionMayMatch;
      if RuntimeRetired(View(), Memory(), now, c.runtime) {
        return Discard;
      }
      var failed, shared := false, false;
      for i := 0 to |candidates|
        invariant failed <==> exists k :: 0 <= k < i && candidates[k].phase == Failed
        invariant shared <==> exists k :: 0 <= k < i && |OwnersIn(reverse, candidates[k])| > 1
      {
        failed := failed || candidates[i].phase == Failed;
        shared := shared || |OwnersIn(reverse, candidates[i])| > 1;
      }
      CandidatesAreRequests(config, j, c);
      assert failed <==> HasFailedMatch(config, j, c);
      assert |candidates| > 1 || shared <==> Ambiguous(config, j, c);
      if failed || |candidates| > 1 || shared {
        return Discard;
      }
      if candidates == [] || candidates[0].phase != Succeeded || now < SafeAdd(c.createdAt, config.afterWindow) {
        return Wait;
      }
      verdict := DecideAdmissions(c);
    }

    /** Admissions that may announce another request of the capture's window keep it waiting. */
    method DecideAdmissions(c: Capture) returns (verdict: Verdict)
      ensures verdict == if HasFailedAdmission(config, View(), c) then Discard
                         else if HasAdmission(config, View(), c) then Wait else Confirm
    {
      var pending, failed := false, false;
      for i := 0 to |admissions|
        invariant pending <==> exists k :: 0 <= k < i && AdmissionMayMatch(config, c, admissions[k])
        invariant failed <==> exists k :: 0 <= k < i && AdmissionMayMatch(config, c, admissions[k])
                                          && admissions[k].status == AdmissionFailed
      {
        if AdmissionMayMatch(config, c, admissions[i]) {
          pending := true;
          failed := failed || admissions[i].status == AdmissionFailed;
        }
      }
      verdict := if failed then Discard else if pending then Wait else Confirm;
    }

    /** Carry out one verdict on the capture at a position; `stays` and `stop` say what happened. */
    method CarryOut(at: nat, verdict: Verdict, attempt: Attempt, now: nat) returns (stays: bool, stop: bool)
      requires at < |captures|
      modifies `captures, `requests, `outcomes, `admissions, `blockedUntil
      ensures stop == (verdict == Confirm && attempt == Blocked)
      ensures stop ==> View() == MarkBlocked(config, old(View()), now)
      ensures !stop ==> stays == !(verdict == Discard || (verdict == Confirm && attempt == Withdrawn))
      ensures !stop ==> View() == old(View()).(captures := captures)
      ensures !stop && !stays ==> captures == RemoveAt(old(captures), at)
      ensures !stop && stays ==>
                captures == if verdict == Confirm && attempt == Committed
                            then old(captures)[at := old(captures)[at].(phase := Confirmed)] else old(captures)
    {
      stays, stop := true, false;
      if verdict == Discard || (verdict == Confirm && attempt == Withdrawn) {
        captures := RemoveAt(captures, at);
        stays := false;
      } else if verdict == Confirm && attempt == Blocked {
        blockedUntil := Max(blockedUntil, SafeAdd(now, config.ttl));
        requests, outcomes, admissions := [], [], [];
        stop := true;
      } else if verdict == Confirm && attempt == Committed {
        captures := captures[at := captures[at].(phase := Confirmed)];
      }
    }

    /** One round: the capture at `at` is judged; the ghost list `kept` is what the rounds before left. */
    method JudgeAt(ghost j: Journal, ghost all: seq<Capture>, ghost i: nat, ghost kept: seq<Capture>, at: nat,
                   matches: map<string, seq<Request>>, reverse: map<string, seq<Capture>>, now: nat, attempts: Attempts)
      returns (stays: bool, stop: bool)
      requires i < |all| && at == |kept| && captures == kept + all[i..] && View() == j.(captures := captures)
      requires JudgedSoFar(config, j, Memory(), now, attempts, all, i, kept)
      requires all[i].phase == Unconfirmed ==>
                 all[i].id in matches && matches[all[i].id] == Candidates(config, j, all[i])
      requires forall r :: r in requests ==> OwnersIn(reverse, r) == Owners(config, j, r)
      modifies `captures, `requests, `outcomes, `admissions, `blockedUntil
      ensures stop ==> && View() == MarkBlocked(config, j.(captures := kept + all[i..]), now)
                       && Judge(config, j, Memory(), now, attempts, all) == (kept + all[i..], true)
      ensures !stop ==> View() == j.(captures := captures)
      ensures !stop && stays ==> && at < |captures| && captures == (kept + [captures[at]]) + all[i + 1..]
                                 && JudgedSoFar(config, j, Memory(), now, attempts, all, i + 1, kept + [captures[at]])
      ensures !stop && !stays ==> && captures == kept + all[i + 1..]
                                  && JudgedSoFar(config, j, Memory(), now, attempts, all, i + 1, kept)
    {
      hide Judge, VerdictOf, JudgedSoFar, Candidates, Owners, MarkBlocked;
      JudgeOneMore(config, j, Memory(), now, attempts, all, i, kept);
      assert captures[at] == all[i] && all[i..][1..] == all[i + 1..];
      if captures[at].phase == Confirmed {
        return true, false;
      }
      var verdict := Decide(j, captures[at], matches[captures[at].id], reverse, now);
      stays, stop := CarryOut(at, verdict, attempts(captures[at]), now);
    }

    /** Both match maps of the journal, fixed before any capture is judged. */
    method PrepareMatches(ghost j: Journal) returns (matches: map<string, seq<Request>>, reverse: map<string, seq<Capture>>)
      requires View() == j && Distinct(captures, CAPTURE_ID) && Distinct(requests, REQUEST_ID)
      ensures forall c :: c in captures && c.phase == Unconfirmed ==> c.id in matches && matches[c.id] == Candidates(config, j, c)
      ensures forall r :: r in requests ==> OwnersIn(reverse, r) == Owners(config, j, r)
    {
      hide Candidates, Owners, Distinct, Filter, OwnersIn;
      var unconfirmed := Filter(captures, IS_UNCONFIRMED);
      FilterDistinct(captures, IS_UNCONFIRMED, CAPTURE_ID);
      matches, reverse := MatchAll(config, unconfirmed, requests);
      MapsDescribe(config, j, unconfirmed);
      assert forall c :: c in captures && c.phase == Unconfirmed ==> c in unconfirmed;
    }

    /** Judge every unconfirmed capture, removing and confirming in place. */
    method JudgeCaptures(now: nat, attempts: Attempts)
      requires Distinct(captures, CAPTURE_ID) && Distinct(requests, REQUEST_ID)
      modifies `captures, `requests, `outcomes, `admissions, `blockedUntil
      ensures var j := old(View());
              var (kept, blocked) := Judge(config, j, Memory(), now, attempts, j.captures);
              View() == if blocked then MarkBlocked(config, j.(captures := kept), now) else j.(captures := kept)
    {
      hide Judge, JudgedSoFar, Candidates, Owners, MarkBlocked, Distinct, Filter, OwnersIn, VerdictOf;
      ghost var j, v := View(), Memory();
      JudgeBegins(config, j, v, now, attempts, captures);
      var all := captures;
      var matches, reverse := PrepareMatches(j);
      ghost var kept: seq<Capture> := [];
      var at := 0;
      for i := 0 to |all|
        invariant at == |kept| && captures == kept + all[i..]
        invariant View() == j.(captures := captures)
        invariant JudgedSoFar(config, j, v, now, attempts, all, i, kept)
      {
        assert all[i] in all;
        var stays, stop := JudgeAt(j, all, i, kept, at, matches, reverse, now, attempts);
        if stop {
          return;
        }
        if stays {
          kept, at := kept + [captures[at]], at + 1;
        }
      }
      JudgeEnds(config, j, v, now, attempts, all, kept);
    }

    /** Negative evidence that fits nothing: everything recorded so far loses its meaning. */
    method BlockEverything(until: nat)
      modifies `captures, `requests, `outcomes, `admissions, `blockedUntil
      ensures View() == BlockAll(old(View()), until)
      ensures old(Valid()) ==> Valid()
    {
      blockedUntil := Max(blockedUntil, until);
      requests, outcomes, admissions, captures := [], [], [], [];
    }

    method RecordRequest(r: Request)
      modifies `captures, `requests, `outcomes, `admissions, `blockedUntil
      ensures View() == AddRequest(config, old(View()), r)
    {
      var i := IndexOf(requests, HasRequestId(r.id));
      if i.Some? {
        var existing := requests[i.value];
        if SameStarted(existing, r) {
          return;
        }
        if ContinuesAs(existing, r) {
          requests := requests[i.value := existing.(current := r.initial, phase := Started, continuation := None)];
          return;
        }
        BlockEverything(r.expiresAt);
        return;
      }
      if |requests| >= config.capacity {
        BlockEverything(r.expiresAt);
        return;
      }
      var added := r;
      var k := IndexOf(outcomes, HasOutcomeKey(r.id, r.runtime.incarnation));
      if k.Some? {
        var outcome := outcomes[k.value];
        outcomes := RemoveAt(outcomes, k.value);
        added := r.(phase := if TerminalMatches(outcome.terminal, r) && outcome.succeeded then Succeeded else Failed);
      }
      requests := requests + [added];
    }

    method RecordOutcome(o: Outcome)
      modifies `requests, `outcomes, `blockedUntil
      ensures View() == UpsertOutcome(config, old(View()), o)
    {
      var k := IndexOf(outcomes, HasOutcomeKey(o.terminal.requestId, o.incarnation));
      if k.Some? {
        var existing := outcomes[k.value];
        if existing != o.(terminal := o.terminal.(expiresAt := existing.terminal.expiresAt)) {
          blockedUntil := Max(blockedUntil, o.terminal.expiresAt);
        }
        return;
      }
      if |outcomes| >= config.capacity {
        blockedUntil := Max(blockedUntil, o.terminal.expiresAt);
        requests, outcomes := [], [];
        return;
      }
      outcomes := outcomes + [o];
    }

    method RecordEarlyTerminal(t: Terminal, succeeded: bool)
      modifies `requests, `outcomes, `blockedUntil
      ensures View() == RecordEarly(config, old(View()), t, succeeded)
    {
      var incarnation := RuntimeForTerminal(View(), t.requestId, t.tab, t.frame, t.document, t.kind);
      if IsMutation(t.meth) && incarnation.Some? {
        RecordOutcome(Outcome(t, incarnation.value, succeeded));
      }
    }

    method HandleRedirect(x: Redirect)
      modifies `requests, `outcomes, `blockedUntil
      ensures View() == ObserveRedirect(config, old(View()), x)
    {
      var i := IndexOf(requests, HasRequestId(x.requestId));
      if i.None? {
        RecordEarlyTerminal(Terminal(x.requestId, x.tab, x.frame, x.document, x.url, x.meth, x.kind, x.timeStamp,
                                     x.expiresAt), false);
        return;
      }
      var r := requests[i.value];
      if !AcceptsRedirect(config, x, r) {
        requests := requests[i.value := r.(phase := Failed)];
        return;
      }
      var next := r.(current := x.target, redirectCount := r.redirectCount + 1, phase := Redirected);
      if PreservesMethod(x.statusCode) && x.meth == r.meth {
        next := next.(continuation := Some(Continuation(x.statusCode, x.timeStamp, x.target)));
      } else {
        next := next.(allowGet := true, continuation := None);
      }
      requests := requests[i.value := next];
    }

    method HandleCompleted(t: Terminal, statusCode: nat)
      modifies `requests, `outcomes, `blockedUntil
      ensures View() == ObserveCompleted(config, old(View()), t, statusCode)
    {
      var i := IndexOf(requests, HasRequestId(t.requestId));
      var phase := if IsSuccessStatus(statusCode) then Succeeded else Failed;
      if i.None? {
        RecordEarlyTerminal(t, phase == Succeeded);
        return;
      }
      var r := requests[i.value];
      if r.phase == Failed {
        assert requests[i.value := r] == requests;
        return;
      }
      requests := requests[i.value := r.(phase := if TerminalMatches(t, r) then phase else Failed)];
    }

    method HandleError(t: Terminal)
      modifies `captures, `requests, `outcomes, `admissions, `blockedUntil
      ensures View() == ObserveError(config, old(View()), t)
    {
      var i := IndexOf(requests, HasRequestId(t.requestId));
      if i.None? {
        RecordEarlyTerminal(t, false);
        return;
      }
      var r := requests[i.value];
      if TerminalIdentity(t, r) && r.startedAt <= t.timeStamp {
        requests := requests[i.value := r.(phase := Failed)];
      } else {
        BlockEverything(t.expiresAt);
      }
    }

    method ResolveAdmission(admissionId: string, b: Before, now: nat)
      modifies `captures, `requests, `outcomes, `admissions, `blockedUntil
      ensures View() == Resolve(config, old(View()), Memory(), now, admissionId, b)
    {
      var k := IndexOf(admissions, HasAdmissionId(admissionId));
      if k.None? {
        return;
      }
      var a := admissions[k.value];
      admissions := RemoveAt(admissions, k.value);
      if !Describes(a, b) || RuntimeRetired(View(), Memory(), now, a.runtime) {
        admissions := admissions + [a.(status := AdmissionFailed)];
        FailCaptures(a);
        return;
      }
      RecordRequest(FreshRequest(config, b, a.runtime.incarnation));
    }

    method FailAdmissionById(admissionId: string)
      modifies `captures, `admissions
      ensures View() == FailBefore(config, old(View()), admissionId)
    {
      var k := IndexOf(admissions, HasAdmissionId(admissionId));
      if k.Some? {
        var a := admissions[k.value];
        admissions := admissions[k.value := a.(status := AdmissionFailed)];
        FailCaptures(a);
      }
    }

    method BeginAdmission(e: Entry, admissionId: string, now: nat) returns (admitted: bool)
      modifies `captures, `requests, `outcomes, `admissions, `blockedUntil
      ensures (View(), admitted) == Begin(config, old(View()), Memory(), now, e, admissionId)
    {
      admitted := false;
      var candidates := Filter(active, ActiveFor(e));
      if |candidates| != 1 || RuntimeRetired(View(), Memory(), now, candidates[0].runtime) {
        return;
      }
      var expiresAt := SafeAdd(e.enteredAt, config.ttl);
      if |admissions| >= config.capacity {
        BlockEverything(expiresAt);
        return;
      }
      admissions := admissions
        + [Admission(admissionId, e.requestId, candidates[0].runtime, AdmissionPending, e.enteredAt, expiresAt)];
      admitted := true;
    }

    method HandleBefore(b: Before)
      modifies `captures, `requests, `outcomes, `admissions, `blockedUntil
      ensures View() == ObserveBefore(config, old(View()), b)
    {
      var incarnation := RuntimeForRequest(View(), b);
      if incarnation.None? {
        BlockEverything(SafeAdd(b.timeStamp, config.ttl));
      } else {
        RecordRequest(FreshRequest(config, b, incarnation.value));
      }
    }

    method StageCapture(c: Capture)
      modifies `captures
      ensures View() == Stage(config, old(View()), c)
    {
      hide IndexOf, RemoveAt, InSlot;
      var k := IndexOf(captures, InSlot(c));
      if k.Some? {
        captures := RemoveAt(captures, k.value);
      }
      captures := captures + [c];
      ghost var all := captures;
      ghost var dropped := 0;
      while |captures| > config.capacity
        invariant 0 <= dropped <= |all| && captures == all[dropped..]
        invariant dropped > 0 ==> |all| - dropped >= config.capacity
      {
        assert all[dropped..][1..] == all[dropped + 1..];
        captures := captures[1..];
        dropped := dropped + 1;
      }
    }

    /** A closed tab takes its records along, and its retirements held in memory. */
    method ForgetTab(tab: nat)
      modifies `captures, `requests, `outcomes, `active, `admissions, `retired, `volatileRetired
      ensures View() == ClearTab(old(View()), tab)
      ensures forall r :: r in volatileRetired <==> r in old(volatileRetired) && r.tab != tab
    {
      hide Filter;
      volatileRetired := set r | r in volatileRetired && r.tab != tab;
      captures, requests, outcomes := Filter(captures, OffTabCapture(tab)), Filter(requests, OffTabRequest(tab)),
        Filter(outcomes, OffTabOutcome(tab));
      active, retired, admissions := Filter(active, OffTabActive(tab)), Filter(retired, OffTabRetired(tab)),
        Filter(admissions, OffTabAdmission(tab));
    }

    method NoteNavigation(tab: nat, frame: nat, document: Option<string>)
      modifies `active, `volatileRetired
      ensures View() == Navigate(old(View()), tab, frame, document)
      ensures forall r :: r in volatileRetired <==> r in old(volatileRetired) && OutlivesNavigation(r, tab, frame, document)
    {
      hide Filter;
      volatileRetired := set r | r in volatileRetired && OutlivesNavigation(r, tab, frame, document);
      active := Filter(active, SurvivesNavigation(tab, frame, document));
    }

    /** One evaluation of the journal. */
    method EvaluateJournal(now: nat, cleaned: set<Runtime>, attempts: Attempts)
      requires Valid()
      modifies this
      ensures Valid()
      ensures View() == Evaluate(config, old(View()), old(Memory()), now, cleaned, attempts)
      ensures Memory() == VolatileAfter(old(View()), old(Memory()), cleaned)
    {
      hide Prune, Judge, VolatileAfter;
      ghost var j, memory := View(), Memory();
      EvaluateKeepsInv(config, j, memory, now, cleaned, attempts);
      PruneKeepsInv(config, j, now, cleaned);
      PruneJournal(now, cleaned);
      if blockedUntil > now {
        captures := Filter(captures, IS_CONFIRMED);
        return;
      }
      blockedUntil := 0;
      if runtimeFenceUntil <= now {
        runtimeFenceUntil := 0;
      }
      assert View() == LiftFences(Prune(config, j, now, cleaned), now);
      JudgeCaptures(now, attempts);
    }

    /** Replace the tombstone-less previous runtime; false when the memory of retirements is full. */
    method RememberRetirement(runtime: Runtime, now: nat) returns (remembered: bool)
      modifies `volatileRetired, `volatileFenceUntil
      ensures remembered <==> runtime in old(volatileRetired) || |old(volatileRetired)| < config.capacity
      ensures volatileRetired == old(volatileRetired) + if remembered then {runtime} else {}
      ensures volatileFenceUntil == if remembered then old(volatileFenceUntil) else Max(old(volatileFenceUntil), SafeAdd(now, config.ttl))
    {
      if runtime in volatileRetired {
        return true;
      }
      if |volatileRetired| >= config.capacity {
        volatileFenceUntil := Max(volatileFenceUntil, SafeAdd(now, config.ttl));
        return false;
      }
      volatileRetired := volatileRetired + {runtime};
      remembered := true;
    }

    /** The runtime already holds its document: refresh its URL, and end the other frames from the top. */
    method RefreshActive(a: Activation, now: nat)
      requires Valid() && IndexOf(active, IsActiveRuntime(a.runtime)).Some?
      modifies `active
      ensures Valid() && Holds(active, a.runtime, a.document)
    {
      var k := IndexOf(active, IsActiveRuntime(a.runtime)).value;
      if active[k].document != a.document {
        DistinctReplace(active, k, ActiveRuntime(a.runtime, a.document, now), ACTIVE_KEY);
        active := active[k := ActiveRuntime(a.runtime, a.document, now)];
      }
      ghost var all := active;
      assert active[k].runtime == a.runtime && active[k].document == a.document;
      assert active[k] in all;
      if a.runtime.frame == 0 {
        FilterDistinct(active, OutlivesReport(a.runtime), ACTIVE_KEY);
        active := Filter(active, OutlivesReport(a.runtime));
      }
      assert all[k] in active;
    }

    /** Make the runtime the only one of its frame; false when the list stays full. */
    method InstallActive(a: Activation, now: nat) returns (installed: bool)
      requires Valid()
      modifies `active
      ensures Valid()
      ensures installed ==> Holds(active, a.runtime, a.document)
      ensures !installed ==> forall x :: x in active ==> x in old(active)
    {
      FilterDistinct(active, OutlivesActivation(a.runtime), ACTIVE_KEY);
      active := Filter(active, OutlivesActivation(a.runtime));
      if |active| >= config.capacity {
        return false;
      }
      ghost var others := active;
      var added := ActiveRuntime(a.runtime, a.document, now);
      DistinctAppend(active, added, ACTIVE_KEY);
      active := active + [added];
      assert active[|others|] == added;
      installed := true;
    }

    /** Note a retirement in memory and in the journal; without room for it the journal is blocked instead. */
    method NoteRetirement(previous: Runtime, now: nat) returns (remembered: bool, ghost change: Change)
      requires Valid() && !Tombstoned(retired, previous)
      modifies this
      ensures Valid()
      ensures volatileRetired == old(volatileRetired) + if remembered then {previous} else {}
      ensures remembered ==>
                && View() == old(View()).(retired := retired)
                && retired == old(retired) + [RetiredRuntime(previous, now, SafeAdd(now, config.ttl), true)]
      ensures !remembered ==>
                ValidChange(config, old(View()), change) && View() == ApplyChange(old(View()), change)
                && active == old(active) && retired == old(retired)
    {
      hide Distinct, SafeAdd, MayLeave;
      UnchangedIsValid(config, View());
      remembered, change := false, NoChange(View());
      if |retired| >= config.capacity {
        BlockEverything(SafeAdd(now, config.ttl));
        change := change.(blocked := Some(SafeAdd(now, config.ttl)));
        return;
      }
      remembered := RememberRetirement(previous, now);
      if !remembered {
        runtimeFenceUntil := Max(runtimeFenceUntil, SafeAdd(now, config.ttl));
        BlockEverything(runtimeFenceUntil);
        change := change.(fenceUntil := runtimeFenceUntil, blocked := Some(runtimeFenceUntil));
        return;
      }
      AddTombstone(previous, now);
    }

    /** Bury the runtime this one replaces before anything of the new one is recorded. */
    method RetirePrevious(previous: Runtime, ghost other: Runtime, now: nat, callbacksThrow: bool)
      returns (answer: Answer, remembered: bool, ghost change: Change)
      requires Valid() && other != previous
      modifies this
      ensures Valid() && ValidChange(config, old(View()), change) && View() == ApplyChange(old(View()), change)
      ensures volatileRetired == old(volatileRetired) + if remembered then {previous} else {}
      ensures answer != Refused && !Tombstoned(old(retired), previous) ==> remembered
      ensures answer == Accepted ==> change.blocked == None
      ensures forall x :: x in active ==> x in old(active)
      ensures answer == Accepted ==> Buried(old(retired), previous) || Gone(View(), previous)
      ensures answer == Accepted && Gone(old(View()), previous) ==> Gone(View(), previous)
      ensures !Tombstoned(old(retired), other) ==> !Tombstoned(retired, other)
    {
      hide Without, Gone, Distinct, SafeAdd, Filter, MayLeave;
      ghost var start := View();
      answer, remembered := Refused, false;
      var k := IndexOf(retired, RetiredIs(previous));
      if k.None? {
        assert !Tombstoned(retired, previous) by { NoneTombstoned(retired, previous); }
        remembered, change := NoteRetirement(previous, now);
        if !remembered {
          return;
        }
        k := Some(|retired| - 1);
      }
      ghost var removed := if retired[k.value].cleanupPending then Some(previous) else None;
      ghost var before := retired;
      WithoutIgnoresRetired(start, before, previous);
      GoneIgnoresRetired(start, before, previous);
      answer := Bury(k.value, callbacksThrow);
      change := Change(active, retired, runtimeFenceUntil, removed, None);
      BurialIsValid(config, start, before, retired, k.value, answer == Accepted);
    }

    method AddTombstone(previous: Runtime, now: nat)
      requires Valid() && |retired| < config.capacity
      requires !Tombstoned(retired, previous)
      modifies `retired
      ensures Valid()
      ensures retired == old(retired) + [RetiredRuntime(previous, now, SafeAdd(now, config.ttl), true)]
    {
      var tombstone := RetiredRuntime(previous, now, SafeAdd(now, config.ttl), true);
      DistinctAppend(retired, tombstone, RETIRED_KEY);
      retired := retired + [tombstone];
    }

    /** Remove the records of the retired runtime, then mark the retirement as done. */
    method Bury(k: nat, callbacksThrow: bool) returns (answer: Answer)
      requires Valid() && k < |retired|
      modifies `captures, `requests, `outcomes, `active, `admissions, `retired
      ensures Valid()
      ensures answer == (if old(retired[k].cleanupPending) && callbacksThrow then Thrown else Accepted)
      ensures if old(retired[k].cleanupPending)
              then View() == Without(old(View()), old(retired[k].runtime)).(retired := retired)
              else View() == old(View()).(retired := retired)
      ensures |retired| == |old(retired)| && forall i :: 0 <= i < |retired| ==> retired[i].runtime == old(retired[i].runtime)
      ensures retired == old(retired)[k := if answer == Accepted then old(retired[k]).(cleanupPending := false) else old(retired[k])]
      ensures old(retired[k].cleanupPending) || Gone(old(View()), old(retired[k].runtime))
              ==> Gone(View(), old(retired[k].runtime))
      ensures forall x :: x in active ==> x in old(active)
    {
      if retired[k].cleanupPending {
        WithoutKeepsInv(config, View(), retired[k].runtime);
        RetireRuntimeState(retired[k].runtime);
        if callbacksThrow {
          return Thrown;
        }
        var done := retired[k].(cleanupPending := false);
        DistinctReplace(retired, k, done, RETIRED_KEY);
        retired := retired[k := done];
      }
      answer := Accepted;
    }

    /** One evaluation, with what it means for a runtime being activated and the one it replaces. */
    method SettleJournal(now: nat, cleaned: set<Runtime>, attempts: Attempts, ghost a: Activation, ghost previous: Runtime)
      requires Valid()
      modifies this
      ensures Valid() && View() == Evaluate(config, old(View()), old(Memory()), now, cleaned, attempts)
      ensures volatileRetired <= old(volatileRetired)
      ensures !Tombstoned(old(retired), previous) ==> !Tombstoned(retired, previous)
      ensures forall x :: x in active ==> x in old(active)
      ensures Holds(old(active), a.runtime, a.document) && !Tombstoned(old(retired), a.runtime)
              ==> Holds(active, a.runtime, a.document) && !Tombstoned(retired, a.runtime)
      ensures Gone(old(View()), previous) || PendingCleanup(old(retired), previous) ==> Gone(View(), previous)
      ensures Buried(retired, previous) ==> Buried(old(retired), previous) || PendingCleanup(old(retired), previous)
    {
      hide Evaluate, VolatileAfter, Gone, Holds, Inv;
      ghost var j, v := View(), Memory();
      EvaluateJournal(now, cleaned, attempts);
      VolatileShrinks(j, v, cleaned);
      EvaluationRevivesNothing(config, j, v, now, cleaned, attempts, previous);
      EvaluationEndsOnlyPending(config, j, v, now, cleaned, attempts);
      if Holds(j.active, a.runtime, a.document) && !Tombstoned(j.retired, a.runtime) {
        HoldsThroughEvaluation(config, j, v, now, cleaned, attempts, a.runtime, a.document);
      }
      if !Tombstoned(j.retired, previous) {
        EvaluationAddsNoTombstone(config, j, v, now, cleaned, attempts, previous);
      }
    }

    /** The decision itself, between two evaluations. */
    method AdmitRuntime(a: Activation, now: nat, callbacksThrow: bool)
      returns (answer: Answer, remembered: bool, ghost change: Change)
      requires Valid() && a.previous != Some(a.runtime.incarnation)
      modifies this
      ensures Valid() && ValidChange(config, old(View()), change) && View() == ApplyChange(old(View()), change)
      ensures remembered || answer == Thrown ==> a.previous.Some?
      ensures volatileRetired == old(volatileRetired) + if remembered then {PreviousRuntime(a)} else {}
      ensures answer == Thrown && !Tombstoned(old(retired), PreviousRuntime(a)) ==> remembered
      ensures answer == Accepted && a.previous.Some? && IndexOf(old(active), IsActiveRuntime(a.runtime)).None?
              && !Tombstoned(old(retired), PreviousRuntime(a))
              ==> remembered
      ensures answer != Accepted ==> forall x :: x in active ==> x in old(active)
      ensures answer == Accepted ==> Holds(active, a.runtime, a.document) && !Tombstoned(retired, a.runtime)
      ensures answer == Accepted && a.previous.Some? && IndexOf(old(active), IsActiveRuntime(a.runtime)).None?
              ==> Buried(old(retired), PreviousRuntime(a)) || Gone(View(), PreviousRuntime(a))
      ensures answer == Accepted && a.previous.Some? && Gone(old(View()), PreviousRuntime(a))
              ==> Gone(View(), PreviousRuntime(a))
    {
      hide Holds, Without, Gone, MayLeave;
      ghost var start := View();
      answer, remembered, change := Refused, false, NoChange(View());
      assert ValidChange(config, start, change) by { UnchangedIsValid(config, start); }
      if Tombstoned(retired, a.runtime) {
        return;
      }
      var existing := IndexOf(active, InDocument(a.runtime));
      if existing.Some? && active[existing.value].runtime == a.runtime {
        if !RuntimeRetired(View(), Memory(), now, a.runtime) {
          assert active[existing.value] in active && IsActiveRuntime(a.runtime)(active[existing.value]);
          ghost var j := View();
          RefreshActive(a, now);
          if a.previous.Some? {
            GoneIgnoresActive(j, active, PreviousRuntime(a));
          }
          answer, change := Accepted, change.(active := active);
        }
        return;
      }
      if a.previous.None? {
        if existing.Some? || IndexOf(active, InFrame(a.runtime)).Some? {
          return;
        }
      } else {
        if existing.Some? && active[existing.value].runtime.incarnation != a.previous.value {
          return;
        }
        answer, remembered, change := RetirePrevious(PreviousRuntime(a), a.runtime, now, callbacksThrow);
        if answer != Accepted {
          return;
        }
      }
      ghost var k := View();
      var installed := InstallActive(a, now);
      if a.previous.Some? {
        GoneIgnoresActive(k, active, PreviousRuntime(a));
      }
      answer, change := if installed then Accepted else Refused, change.(active := active);
      if !installed {
        BlockEverything(SafeAdd(now, config.ttl));
        change := change.(blocked := Some(SafeAdd(now, config.ttl)));
      }
    }

    /**
     A runtime is accepted only as the sole runtime of its frame, never after it has been retired; and
     when it replaces another one, nothing of that one could still confirm a capture. The retirement is
     held in memory until it has been settled: a call that throws leaves it there or in the journal.
     */
    method ActivateRuntime(a: Activation, now: nat, cleaned: set<Runtime>, attempts: Attempts, callbacksThrow: bool)
      returns (answer: Answer, ghost change: Change, ghost settledFirst: bool, ghost memory: Volatile)
      requires Valid() && a.previous != Some(a.runtime.incarnation)
      modifies this
      ensures Valid()
      ensures answer != Thrown ==> volatileRetired <= old(volatileRetired)
      ensures answer == Accepted && a.previous.Some? && IndexOf(old(active), IsActiveRuntime(a.runtime)).None?
              && !Tombstoned(old(retired), PreviousRuntime(a))
              ==> PreviousRuntime(a) !in volatileRetired
      ensures answer == Thrown ==>
                a.previous.Some? && (PreviousRuntime(a) in volatileRetired || Tombstoned(old(retired), PreviousRuntime(a)))
      ensures var start := if settledFirst then Evaluate(config, old(View()), old(Memory()), now, cleaned, attempts)
                           else old(View());
              && ValidChange(config, start, change)
              && View() == if answer == Thrown then ApplyChange(start, change)
                        else Evaluate(config, ApplyChange(start, change), memory, now, cleaned, attempts)
      ensures answer != Accepted ==> forall x :: x in active ==> x in old(active)
      ensures answer == Accepted ==> Holds(active, a.runtime, a.document) && !Tombstoned(retired, a.runtime)
      ensures answer == Accepted && a.previous.Some? && IndexOf(old(active), IsActiveRuntime(a.runtime)).None?
              && !Buried(old(retired), PreviousRuntime(a))
              ==> Gone(View(), PreviousRuntime(a))
    {
      hide Evaluate, VolatileAfter, Gone, Holds, Without, MayLeave;
      ghost var previous := if a.previous.Some? then PreviousRuntime(a) else a.runtime;
      answer, change, settledFirst, memory := Refused, NoChange(View()), false, Memory();
      assert ValidChange(config, View(), change) by { UnchangedIsValid(config, View()); }
      if runtimeFenceUntil > now || volatileFenceUntil > now {
        SettleJournal(now, cleaned, attempts, a, previous);
        return;
      }
      if DocumentCleanupPending(retired, a.runtime) {
        SettleJournal(now, cleaned, attempts, a, previous);
        if DocumentCleanupPending(retired, a.runtime) {
          return;
        }
        settledFirst := true;
      }
      var remembered;
      answer, remembered, change := AdmitRuntime(a, now, callbacksThrow);
      memory := Memory();
      if answer != Thrown {
        SettleJournal(now, cleaned, attempts, a, previous);
        if remembered {
          volatileRetired := volatileRetired - {PreviousRuntime(a)};
        }
      }
    }

    method PruneJournal(now: nat, cleaned: set<Runtime>)
      modifies `captures, `requests, `outcomes, `active, `admissions, `retired, `volatileRetired
      ensures View() == Prune(config, old(View()), now, cleaned)
      ensures Memory() == VolatileAfter(old(View()), old(Memory()), cleaned)
    {
      hide MarkCleaned, CleanedRuntimes, Filter;
      ghost var j := View();
      RetirePending(cleaned);
      assert admissions == KeepAdmissions(j);
      ExpireAdmissions(now);
      retired, requests, outcomes, captures :=
        Filter(retired, RetiredSurvives(now)), Filter(requests, RequestLive(now)),
        Filter(outcomes, OutcomeLive(now)), Filter(captures, CaptureLive(now));
      PrunedInSteps(config, j, now);
    }
  }

  /** The part of the loop already done, and the part still to do, make up the whole judgement. */
  ghost predicate JudgedSoFar(config: Config, j: Journal, v: Volatile, now: nat, attempts: Attempts,
                              all: seq<Capture>, i: nat, kept: seq<Capture>)
    requires i <= |all|
  {
    var (rest, blocked) := Judge(config, j, v, now, attempts, all[i..]);
    Judge(config, j, v, now, attempts, all) == (kept + rest, blocked)
  }

  lemma {:induction false} JudgeBegins(config: Config, j: Journal, v: Volatile, now: nat, attempts: Attempts, all: seq<Capture>)
    ensures JudgedSoFar(config, j, v, now, attempts, all, 0, [])
    ensures Judge(config, j, v, now, attempts, []) == ([], false)
  {
    assert all[0..] == all;
    assert [] + Judge(config, j, v, now, attempts, all).0 == Judge(config, j, v, now, attempts, all).0;
  }

  lemma {:induction false} JudgeEnds(config: Config, j: Journal, v: Volatile, now: nat, attempts: Attempts, all: seq<Capture>,
                  kept: seq<Capture>)
    requires JudgedSoFar(config, j, v, now, attempts, all, |all|, kept)
    ensures Judge(config, j, v, now, attempts, all) == (kept, false)
  {
    assert all[|all|..] == [];
    assert kept + [] == kept;
  }

  /** One round of the loop: stop, or go on with what becomes of this capture. */
  lemma {:induction false} JudgeOneMore(config: Config, j: Journal, v: Volatile, now: nat, attempts: Attempts, all: seq<Capture>,
                     i: nat, kept: seq<Capture>)
    requires i < |all| && JudgedSoFar(config, j, v, now, attempts, all, i, kept)
    ensures if Blocks(config, j, v, now, attempts, all[i])
            then Judge(config, j, v, now, attempts, all) == (kept + all[i..], true)
            else match Settled(config, j, v, now, attempts, all[i])
              case None => JudgedSoFar(config, j, v, now, attempts, all, i + 1, kept)
              case Some(c) => JudgedSoFar(config, j, v, now, attempts, all, i + 1, kept + [c])
  {
    var todo := all[i..];
    assert todo[1..] == all[i + 1..];
    var rest := Judge(config, j, v, now, attempts, todo[1..]).0;
    var c := Settled(config, j, v, now, attempts, all[i]);
    if c.Some? {
      assert kept + ([c.value] + rest) == (kept + [c.value]) + rest;
    }
  }

  lemma {:induction false} CandidatesAreRequests(config: Config, j: Journal, c: Capture)
    ensures forall r :: r in Candidates(config, j, c) ==> r in j.requests
  {
  }

  /** The lists in the match maps are the ones the verdict is defined by. */
  lemma {:induction false} MapsDescribe(config: Config, j: Journal, unconfirmed: seq<Capture>)
    requires unconfirmed == Filter(j.captures, IS_UNCONFIRMED)
    ensures forall c: Capture :: Filter(j.requests, MatchesCapture(config, c)) == Candidates(config, j, c)
    ensures forall r: Request :: Filter(unconfirmed, MatchedBy(config, r)) == Owners(config, j, r)
  {
    forall r: Request ensures Filter(unconfirmed, MatchedBy(config, r)) == Owners(config, j, r) {
      FilterFilter(j.captures, IS_UNCONFIRMED, MatchedBy(config, r), OwnsRequest(config, r));
    }
  }

  /** Filtering in the order of the code keeps exactly the records that pass all tests. */
  lemma {:induction false} PrunedInSteps(config: Config, j: Journal, now: nat)
    ensures var expired := Filter(KeepAdmissions(j), AdmissionExpired(now));
            && Filter(Filter(Filter(j.captures, CaptureUnretired(j.retired)), UnfailedByAll(config, expired)), CaptureLive(now))
               == Filter(j.captures, CaptureSurvives(config, j.retired, KeepAdmissions(j), now))
            && Filter(Filter(j.requests, RequestUnretired(j.retired)), RequestLive(now))
               == Filter(j.requests, RequestSurvives(j.retired, now))
            && Filter(Filter(j.outcomes, OutcomeUnretired(j.retired)), OutcomeLive(now))
               == Filter(j.outcomes, OutcomeSurvives(j.retired, now))
  {
    var admissions := KeepAdmissions(j);
    var expired := Filter(admissions, AdmissionExpired(now));
    forall c: Capture ensures FailsCapture(config, admissions, now, c) == MatchedByAny(config, expired, c) {
      ExpiredFails(config, admissions, now, c);
    }
    var both := (c: Capture) => CaptureUnretired(j.retired)(c) && UnfailedByAll(config, expired)(c);
    FilterFilter(j.captures, CaptureUnretired(j.retired), UnfailedByAll(config, expired), both);
    FilterFilter(j.captures, both, CaptureLive(now), CaptureSurvives(config, j.retired, admissions, now));
    FilterFilter(j.requests, RequestUnretired(j.retired), RequestLive(now), RequestSurvives(j.retired, now));
    FilterFilter(j.outcomes, OutcomeUnretired(j.retired), OutcomeLive(now), OutcomeSurvives(j.retired, now));
  }

  lemma {:induction false} ExpiredFails(config: Config, admissions: seq<Admission>, now: nat, c: Capture)
    ensures FailsCapture(config, admissions, now, c) <==> MatchedByAny(config, Filter(admissions, AdmissionExpired(now)), c)
  {
    var expired := Filter(admissions, AdmissionExpired(now));
    if FailsCapture(config, admissions, now, c) {
      var i :| 0 <= i < |admissions| && admissions[i].expiresAt <= now && AdmissionMayMatch(config, c, admissions[i]);
      assert AdmissionExpired(now)(admissions[i]) && admissions[i] in admissions;
      assert admissions[i] in expired;
      var k :| 0 <= k < |expired| && expired[k] == admissions[i];
      assert AdmissionMayMatch(config, c, expired[k]);
    }
    if MatchedByAny(config, expired, c) {
      var i :| 0 <= i < |expired| && AdmissionMayMatch(config, c, expired[i]);
      assert expired[i] in expired;
      var k :| 0 <= k < |admissions| && admissions[k] == expired[i];
      assert AdmissionExpired(now)(admissions[k]);
      assert admissions[k].expiresAt <= now && AdmissionMayMatch(config, c, admissions[k]);
    }
  }

  lemma {:induction false} NothingCleanedYet(cleaned: set<Runtime>)
    ensures CleanedRuntimes([], cleaned) == {}
  {
  }

  lemma {:induction false} CleanedOneMore(list: seq<RetiredRuntime>, n: nat, cleaned: set<Runtime>)
    requires n < |list|
    ensures CleanedRuntimes(list[..n + 1], cleaned)
            == CleanedRuntimes(list[..n], cleaned)
               + if list[n].cleanupPending && list[n].runtime in cleaned then {list[n].runtime} else {}
  {
    assert list[..n + 1][..n] == list[..n];
  }

  lemma {:induction false} FailedPrefix(config: Config, admissions: seq<Admission>, n: nat, c: Capture)
    requires n < |admissions|
    ensures UnfailedByAll(config, admissions[..n + 1])(c)
            == (UnfailedByAll(config, admissions[..n])(c) && UnfailedBy(config, admissions[n])(c))
  {
    var longer, shorter := admissions[..n + 1], admissions[..n];
    assert longer == shorter + [admissions[n]];
    if i :| 0 <= i < |shorter| && AdmissionMayMatch(config, c, shorter[i]) {
      assert AdmissionMayMatch(config, c, longer[i]);
    }
    assert longer[n] == admissions[n];
  }
}
