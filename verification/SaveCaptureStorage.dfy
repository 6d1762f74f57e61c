/**
 The stored form of the save-capture journal: what the parser accepts, which steps keep a journal
 acceptable, and what happens to one that is not.
 */
module SaveCaptureStorage {
  import opened Numbers
  import opened Sequences
  import opened SaveCaptureTypes
  import opened SaveCaptureEvaluation
  import opened SaveCaptureRequests
  import opened SaveCaptureSteps

  const MAX_LIFETIME: nat := 300000
  const MAX_CAPTURE_LIFETIME: nat := 600000

  predicate ValidSpan(start: nat, end: nat, longest: nat) {
    start < end <= MAX_SAFE_INTEGER && end - start <= longest
  }

  predicate FrameFits(kind: RequestType, frame: nat) {
    (kind == MainFrame ==> frame == 0) && (kind == SubFrame ==> frame != 0)
  }

  predicate RequestStorable(config: Config, r: Request) {
    && ValidSpan(r.startedAt, r.expiresAt, MAX_LIFETIME)
    && r.redirectCount <= MAX_REDIRECTS
    && IsMutation(r.meth)
    && SameSite(config, r.document, r.initial)
    && SameSite(config, r.document, r.current)
    && FrameFits(r.kind, r.runtime.frame)
    && (r.phase == Redirected ==> r.redirectCount != 0)
    && (r.continuation.Some? ==>
          && r.phase == Redirected
          && PreservesMethod(r.continuation.value.statusCode)
          && r.startedAt <= r.continuation.value.redirectedAt < r.expiresAt)
  }

  predicate CaptureStorable(c: Capture) {
    && ValidSpan(c.createdAt, c.expiresAt, MAX_CAPTURE_LIFETIME)
    && (c.submission.Native? ==> IsMutation(c.submission.meth))
  }

  predicate OutcomeStorable(o: Outcome) {
    o.terminal.timeStamp < o.terminal.expiresAt <= MAX_SAFE_INTEGER
  }

  predicate RetiredStorable(r: RetiredRuntime) {
    ValidSpan(r.retiredAt, r.expiresAt, MAX_LIFETIME)
  }

  predicate AdmissionStorable(a: Admission) {
    ValidSpan(a.enteredAt, a.expiresAt, MAX_LIFETIME)
  }

  /** What the parser asks of single records and of the two deadlines. */
  predicate Storable(config: Config, j: Journal) {
    && j.blockedUntil <= MAX_SAFE_INTEGER && j.runtimeFenceUntil <= MAX_SAFE_INTEGER
    && (forall r :: r in j.requests ==> RequestStorable(config, r))
    && (forall c :: c in j.captures ==> CaptureStorable(c))
    && (forall o :: o in j.outcomes ==> OutcomeStorable(o))
    && (forall r :: r in j.retired ==> RetiredStorable(r))
    && (forall a :: a in j.admissions ==> AdmissionStorable(a))
  }

  function KeySet<T(!new), K(==, !new)>(s: seq<T>, key: T -> K): (keys: set<K>)
    ensures forall k :: k in keys <==> exists x :: x in s && key(x) == k
    ensures |keys| <= |s|
  {
    if s == [] then {}
    else
      assert s == [s[0]] + s[1..];
      {key(s[0])} + KeySet(s[1..], key)
  }

  /** Comparing the size of the key set with the length of the list finds every repeated key. */
  lemma {:induction false} KeySetSize<T(!new), K(!new)>(s: seq<T>, key: T -> K)
    ensures |KeySet(s, key)| == |s| <==> Distinct(s, key)
  {
    if s != [] {
      var rest := s[1..];
      KeySetSize(rest, key);
      if key(s[0]) in KeySet(rest, key) {
        RepeatedHead(s, key);
      } else {
        FreshHead(s, key);
      }
    }
  }

  lemma {:induction false} RepeatedHead<T(!new), K(!new)>(s: seq<T>, key: T -> K)
    requires s != [] && key(s[0]) in KeySet(s[1..], key)
    ensures |KeySet(s, key)| < |s| && !Distinct(s, key)
  {
    var rest := s[1..];
    assert KeySet(s, key) == KeySet(rest, key);
    var x :| x in rest && key(x) == key(s[0]);
    var i :| 0 <= i < |rest| && rest[i] == x;
    assert s[i + 1] == x;
  }

  lemma {:induction false} FreshHead<T(!new), K(!new)>(s: seq<T>, key: T -> K)
    requires s != [] && key(s[0]) !in KeySet(s[1..], key)
    ensures |KeySet(s, key)| == 1 + |KeySet(s[1..], key)| && (Distinct(s, key) <==> Distinct(s[1..], key))
  {
    var rest := s[1..];
    forall j | 0 <= j < |rest| ensures key(rest[j]) != key(s[0]) {
      assert rest[j] in rest;
    }
    DistinctFromHead(s, key);
    if Distinct(s, key) {
      DistinctTail(s, 1, key);
    }
  }

  lemma {:induction false} DistinctFromHead<T, K>(s: seq<T>, key: T -> K)
    requires s != [] && forall j :: 0 <= j < |s[1..]| ==> key(s[1..][j]) != key(s[0])
    ensures Distinct(s[1..], key) ==> Distinct(s, key)
  {
    if Distinct(s[1..], key) {
      forall i, j | 0 <= i < j < |s| ensures key(s[i]) != key(s[j]) {
        assert s[j] == s[1..][j - 1];
        if i > 0 {
          assert s[i] == s[1..][i - 1];
        }
      }
    }
  }

  predicate Unrepeated<T(!new), K(==, !new)>(s: seq<T>, key: T -> K) {
    |KeySet(s, key)| == |s|
  }

  predicate WithinLimits(config: Config, j: Journal) {
    && |j.captures| <= config.capacity && Unrepeated(j.captures, CAPTURE_ID)
    && |j.requests| <= config.capacity && Unrepeated(j.requests, REQUEST_ID)
    && |j.outcomes| <= config.capacity && Unrepeated(j.outcomes, OUTCOME_KEY)
    && |j.active| <= config.capacity && Unrepeated(j.active, ACTIVE_KEY)
    && |j.retired| <= config.capacity && Unrepeated(j.retired, RETIRED_KEY)
    && |j.admissions| <= config.capacity && Unrepeated(j.admissions, ADMISSION_ID)
  }

  lemma {:induction false} WithinLimitsIsInv(config: Config, j: Journal)
    ensures WithinLimits(config, j) <==> Inv(config, j)
  {
    KeySetSize(j.captures, CAPTURE_ID);
    KeySetSize(j.requests, REQUEST_ID);
    KeySetSize(j.outcomes, OUTCOME_KEY);
    KeySetSize(j.active, ACTIVE_KEY);
    KeySetSize(j.retired, RETIRED_KEY);
    KeySetSize(j.admissions, ADMISSION_ID);
  }

  function DropExpired(j: Journal, now: nat): Journal {
    j.(captures := Filter(j.captures, CaptureLive(now)),
       requests := Filter(j.requests, RequestLive(now)),
       outcomes := Filter(j.outcomes, OutcomeLive(now)),
       retired := Filter(j.retired, RetiredSurvives(now)))
  }

  function ParseJournal(config: Config, stored: Journal, now: nat): Option<Journal> {
    if WithinLimits(config, stored) && Storable(config, stored) then Some(DropExpired(stored, now)) else None
  }

  /** A missing journal is empty; an unreadable one blocks everything for one network lifetime. */
  function Read(config: Config, stored: Option<Journal>, highWater: nat, now: nat): Journal {
    match stored
    case None => EmptyJournal(highWater)
    case Some(s) =>
      match ParseJournal(config, s, now)
      case Some(j) => j
      case None =>
        EmptyJournal(highWater).(blockedUntil := SafeAdd(now, config.ttl), runtimeFenceUntil := SafeAdd(now, config.ttl))
  }

  /** The record `write` stores when the journal fits the byte limit. */
  function Stored(j: Journal, highWater: nat): Journal {
    j.(revision := Max(j.revision, highWater) + 1)
  }

  /** What is stored is what is read back, but for the expired records. */
  lemma {:induction false} RoundTrip(config: Config, j: Journal, highWater: nat, now: nat)
    ensures ParseJournal(config, Stored(j, highWater), now)
            == if Inv(config, j) && Storable(config, j) then Some(DropExpired(Stored(j, highWater), now)) else None
  {
    WithinLimitsIsInv(config, Stored(j, highWater));
  }

  /** A journal that has just been evaluated comes back exactly, revision aside. */
  lemma {:induction false} EvaluatedRoundTrip(config: Config, j: Journal, v: Volatile, now: nat, cleaned: set<Runtime>,
                           attempts: Attempts, highWater: nat)
    requires Inv(config, j) && Storable(config, j)
    ensures var e := Stored(Evaluate(config, j, v, now, cleaned, attempts), highWater);
            Read(config, Some(e), highWater, now) == e
  {
    var e := Evaluate(config, j, v, now, cleaned, attempts);
    EvaluateKeepsInv(config, j, v, now, cleaned, attempts);
    EvaluateKeepsStorable(config, j, v, now, cleaned, attempts);
    RoundTrip(config, e, highWater, now);
    EvaluatedIsLive(config, j, v, now, cleaned, attempts);
    FilterAll(e.captures, CaptureLive(now));
    FilterAll(e.requests, RequestLive(now));
    FilterAll(e.outcomes, OutcomeLive(now));
    FilterAll(e.retired, RetiredSurvives(now));
  }

  lemma {:induction false} EvaluatedIsLive(config: Config, j: Journal, v: Volatile, now: nat, cleaned: set<Runtime>, attempts: Attempts)
    ensures var e := Evaluate(config, j, v, now, cleaned, attempts);
            && (forall c :: c in e.captures ==> c.expiresAt > now)
            && (forall r :: r in e.requests ==> r.expiresAt > now)
            && (forall o :: o in e.outcomes ==> o.terminal.expiresAt > now)
            && (forall r :: r in e.retired ==> r.cleanupPending || r.expiresAt > now)
  {
    hide Filter, Judge, VolatileAfter;
    var e := Evaluate(config, j, v, now, cleaned, attempts);
    var q := Basis(config, j, now, cleaned);
    if j.blockedUntil <= now {
      forall c | c in e.captures ensures c.expiresAt > now {
        JudgeKeeps(config, q, VolatileAfter(j, v, cleaned), now, attempts, q.captures, c);
      }
    }
  }

  /** An evaluation adds no request, and leaves everything else as storable as it was. */
  lemma {:induction false} EvaluateKeepsOthers(config: Config, j: Journal, v: Volatile, now: nat, cleaned: set<Runtime>,
                            attempts: Attempts)
    requires Storable(config, j.(requests := []))
    ensures var e := Evaluate(config, j, v, now, cleaned, attempts);
            Storable(config, e.(requests := [])) && forall r :: r in e.requests ==> r in j.requests
  {
    hide Filter, Judge, VolatileAfter, RequestStorable;
    var e := Evaluate(config, j, v, now, cleaned, attempts);
    var q := Basis(config, j, now, cleaned);
    if j.blockedUntil <= now {
      forall c | c in e.captures ensures CaptureStorable(c) {
        JudgeKeeps(config, q, VolatileAfter(j, v, cleaned), now, attempts, q.captures, c);
        assert CaptureStorable(c.(phase := Unconfirmed)) == CaptureStorable(c);
      }
    }
    forall r | r in e.retired ensures RetiredStorable(r) {
      var i :| 0 <= i < |j.retired| && MarkCleaned(j.retired, cleaned)[i] == r;
      assert j.retired[i] in j.retired;
    }
  }

  lemma {:induction false} EvaluateKeepsStorable(config: Config, j: Journal, v: Volatile, now: nat, cleaned: set<Runtime>,
                              attempts: Attempts)
    requires Storable(config, j)
    ensures Storable(config, Evaluate(config, j, v, now, cleaned, attempts))
  {
    hide Evaluate, RequestStorable;
    EvaluateKeepsOthers(config, j, v, now, cleaned, attempts);
  }

  // ---------------------------------------------------------------------------------------------
  // Which steps keep a journal storable
  // ---------------------------------------------------------------------------------------------

  /** What the browser event itself guarantees: a request of the right shape, no later than now. */
  predicate WellFormed(b: Before) {
    IsMutation(b.meth) && FrameFits(b.kind, b.frame)
  }

  /** A new record can be stored exactly when its URL is on the document's site. */
  lemma {:induction false} FreshStorable(config: Config, b: Before, incarnation: string)
    requires ValidConfig(config) && WellFormed(b) && b.timeStamp < MAX_SAFE_INTEGER
    ensures RequestStorable(config, FreshRequest(config, b, incarnation)) <==> SameSite(config, b.source, b.url)
  {
  }

  predicate EventBefore(e: NetEvent, deadline: nat) {
    e.Redirecting? ==> e.redirect.timeStamp < deadline
  }

  /**
   An event keeps a record storable exactly when the record holds no continuation, or the event is
   the continuing request. Any redirect, completion or error that arrives while the continuation is
   pending marks the record failed and leaves the continuation in place.
   */
  lemma {:induction false} StepStorable(config: Config, r: Request, e: NetEvent)
    requires RequestStorable(config, r)
    requires EventBefore(e, r.expiresAt)
    requires StepRequest(config, r, e).Some?
    ensures RequestStorable(config, StepRequest(config, r, e).value) <==> r.continuation.None? || e.Again?
  {
  }

  /** No tracked request of this id is waiting for its redirected continuation. */
  predicate NoContinuation(j: Journal, id: string) {
    var t := TrackedRequest(j, id);
    t.Some? ==> t.value.continuation.None?
  }

  predicate EventsInTime(j: Journal, timeStamp: nat) {
    forall r :: r in j.requests ==> timeStamp < r.expiresAt
  }

  lemma {:induction false} ReplacedStorable(config: Config, j: Journal, i: nat, s: Request)
    requires Storable(config, j) && i < |j.requests|
    ensures Storable(config, j.(requests := j.requests[i := s])) <==> RequestStorable(config, s)
  {
    var k := j.(requests := j.requests[i := s]);
    assert k.requests[i] == s;
    forall r | r in k.requests ensures r == s || r in j.requests {
    }
  }

  lemma {:induction false} RecordEarlyStorable(config: Config, j: Journal, t: Terminal, succeeded: bool)
    requires Storable(config, j) && t.timeStamp < t.expiresAt <= MAX_SAFE_INTEGER
    ensures Storable(config, RecordEarly(config, j, t, succeeded))
  {
  }

  lemma {:induction false} CompletionStorable(config: Config, j: Journal, t: Terminal, statusCode: nat)
    requires Storable(config, j) && t.timeStamp < t.expiresAt <= MAX_SAFE_INTEGER
    ensures Storable(config, ObserveCompleted(config, j, t, statusCode)) <==> NoContinuation(j, t.requestId)
  {
    match IndexOf(j.requests, HasRequestId(t.requestId)) {
      case Some(i) =>
        assert j.requests[i] in j.requests;
        StepStorable(config, j.requests[i], Completing(t, statusCode));
        ReplacedStorable(config, j, i, StepRequest(config, j.requests[i], Completing(t, statusCode)).value);
      case None => RecordEarlyStorable(config, j, t, IsSuccessStatus(statusCode));
    }
  }

  lemma {:induction false} RedirectStorable(config: Config, j: Journal, x: Redirect)
    requires Storable(config, j) && x.timeStamp < x.expiresAt <= MAX_SAFE_INTEGER && EventsInTime(j, x.timeStamp)
    ensures Storable(config, ObserveRedirect(config, j, x)) <==> NoContinuation(j, x.requestId)
  {
    match IndexOf(j.requests, HasRequestId(x.requestId)) {
      case Some(i) =>
        assert j.requests[i] in j.requests;
        StepStorable(config, j.requests[i], Redirecting(x));
        ReplacedStorable(config, j, i, StepRequest(config, j.requests[i], Redirecting(x)).value);
      case None =>
        RecordEarlyStorable(config, j, Terminal(x.requestId, x.tab, x.frame, x.document, x.url, x.meth, x.kind,
                                                x.timeStamp, x.expiresAt), false);
    }
  }

  /** An error that does not fit its request blocks the journal instead, which is always storable. */
  lemma {:induction false} ErrorStorable(config: Config, j: Journal, t: Terminal)
    requires Storable(config, j) && t.timeStamp < t.expiresAt <= MAX_SAFE_INTEGER
    ensures Storable(config, ObserveError(config, j, t)) <==>
            (var r := TrackedRequest(j, t.requestId);
             r.Some? && StepRequest(config, r.value, Failing(t)).Some? ==> r.value.continuation.None?)
  {
    match IndexOf(j.requests, HasRequestId(t.requestId)) {
      case Some(i) =>
        assert j.requests[i] in j.requests;
        var s := StepRequest(config, j.requests[i], Failing(t));
        if s.Some? {
          StepStorable(config, j.requests[i], Failing(t));
          ReplacedStorable(config, j, i, s.value);
        }
      case None => RecordEarlyStorable(config, j, t, false);
    }
  }

  /** Adding a request is safe when it is known already, blocks the journal, or can itself be stored. */
  lemma {:induction false} AddStorable(config: Config, j: Journal, r: Request)
    requires Storable(config, j) && r.phase == Started && r.continuation == None && r.expiresAt <= MAX_SAFE_INTEGER
    ensures Storable(config, AddRequest(config, j, r)) <==>
            (TrackedRequest(j, r.id).Some? || |j.requests| >= config.capacity || RequestStorable(config, r))
  {
    match IndexOf(j.requests, HasRequestId(r.id)) {
      case Some(i) =>
        assert j.requests[i] in j.requests;
        var s := StepRequest(config, j.requests[i], Again(r));
        if s.Some? {
          StepStorable(config, j.requests[i], Again(r));
          ReplacedStorable(config, j, i, s.value);
        }
      case None =>
        if |j.requests| < config.capacity {
          var k := AddRequest(config, j, r);
          var added := k.requests[|j.requests|];
          assert added in k.requests;
          assert RequestStorable(config, added) == RequestStorable(config, r);
          forall o | o in k.outcomes ensures o in j.outcomes {
          }
        }
    }
  }

  /** A reported request can cost the journal only when it is new, there is room for it, and it leaves the site. */
  lemma {:induction false} BeforeStorable(config: Config, j: Journal, b: Before)
    requires ValidConfig(config) && Storable(config, j) && WellFormed(b) && b.timeStamp < MAX_SAFE_INTEGER
    ensures Storable(config, ObserveBefore(config, j, b)) <==>
            || RuntimeForRequest(j, b).None? || TrackedRequest(j, b.requestId).Some?
            || |j.requests| >= config.capacity || SameSite(config, b.source, b.url)
  {
    hide AddRequest, RuntimeForRequest, SameSite, RequestStorable;
    var incarnation := RuntimeForRequest(j, b);
    if incarnation.Some? {
      FreshStorable(config, b, incarnation.value);
      AddStorable(config, j, FreshRequest(config, b, incarnation.value));
    }
  }

  /** The same for a request that was announced: a refused one is never stored. */
  lemma {:induction false} ResolveStorable(config: Config, j: Journal, v: Volatile, now: nat, id: string, b: Before)
    requires ValidConfig(config) && Storable(config, j) && WellFormed(b) && b.timeStamp < MAX_SAFE_INTEGER
    ensures Storable(config, Resolve(config, j, v, now, id, b)) <==>
            var k := IndexOf(j.admissions, HasAdmissionId(id));
            || k.None? || !Describes(j.admissions[k.value], b) || RuntimeRetired(j, v, now, j.admissions[k.value].runtime)
            || TrackedRequest(j, b.requestId).Some? || |j.requests| >= config.capacity || SameSite(config, b.source, b.url)
  {
    hide AddRequest, SameSite, RequestStorable, Describes, Filter, CaptureStorable;
    var k := IndexOf(j.admissions, HasAdmissionId(id));
    if k.Some? {
      var a, rest := j.admissions[k.value], RemoveAt(j.admissions, k.value);
      assert a in j.admissions;
      var f := a.(status := AdmissionFailed);
      assert forall x :: x in rest + [f] ==> x == f || x in j.admissions;
      assert AdmissionStorable(f);
      var m := j.(admissions := rest);
      FreshStorable(config, b, a.runtime.incarnation);
      AddStorable(config, m, FreshRequest(config, b, a.runtime.incarnation));
    }
  }

  /** Admission steps add an admission that is storable by construction, or only drop records. */
  lemma {:induction false} AdmissionStepsKeepStorable(config: Config, j: Journal, v: Volatile, now: nat, e: Entry, id: string)
    requires ValidConfig(config) && Storable(config, j) && e.enteredAt < MAX_SAFE_INTEGER
    ensures Storable(config, Begin(config, j, v, now, e, id).0)
    ensures Storable(config, FailBefore(config, j, id))
  {
    var k := IndexOf(j.admissions, HasAdmissionId(id));
    if k.Some? {
      assert j.admissions[k.value] in j.admissions;
    }
  }

  lemma {:induction false} NavigateKeepsStorable(config: Config, j: Journal, tab: nat, frame: nat, document: Option<string>)
    requires Storable(config, j)
    ensures Storable(config, Navigate(j, tab, frame, document))
  {
  }

  lemma {:induction false} StageKeepsStorable(config: Config, j: Journal, c: Capture)
    requires Storable(config, j) && CaptureStorable(c)
    ensures Storable(config, Stage(config, j, c))
  {
    hide Filter, IndexOf, CaptureStorable;
    var s := Stage(config, j, c);
    forall d | d in s.captures ensures d == c || d in j.captures {
    }
  }

  lemma {:induction false} ClearTabKeepsStorable(config: Config, j: Journal, tab: nat)
    requires Storable(config, j)
    ensures Storable(config, ClearTab(j, tab))
  {
  }

  // ---------------------------------------------------------------------------------------------
  // What an unstorable journal costs
  // ---------------------------------------------------------------------------------------------

  /** A journal that cannot be read back is replaced by a blocked one that holds nothing. */
  lemma {:induction false} UnstorableIsLost(config: Config, j: Journal, highWater: nat, now: nat)
    requires ValidConfig(config) && now < MAX_SAFE_INTEGER
    requires !Storable(config, j)
    ensures var r := Read(config, Some(Stored(j, highWater)), highWater, now);
            r.captures == [] && r.requests == [] && r.active == [] && r.blockedUntil > now && r.runtimeFenceUntil > now
  {
    RoundTrip(config, j, highWater, now);
  }

  const SAMPLE_CONFIG: Config := Config((host: string) => host, 2000, 1500, 30000, 64)
}
