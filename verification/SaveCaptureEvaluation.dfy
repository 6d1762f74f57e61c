/**
 The evaluation step of the save-capture coordinator: prune the journal, match every unconfirmed
 capture against the tracked requests, and discard, confirm or keep each one.
 */
module SaveCaptureEvaluation {
  import opened Numbers
  import opened Sequences
  import opened SaveCaptureTypes

  /** Runtimes retired in memory before their tombstone reached the journal. */
  datatype Volatile = Volatile(retired: set<Runtime>, fenceUntil: nat)

  /** How an attempt to confirm one capture in the encrypted store ended. */
  datatype Attempt =
    | Committed
    | Untouched
    | Withdrawn
    | Blocked

  predicate RequestMatches(config: Config, c: Capture, r: Request) {
    && r.runtime == c.runtime
    && r.document == c.source
    && c.createdAt <= r.startedAt + config.beforeWindow
    && r.startedAt <= c.createdAt + config.afterWindow
    && SameSite(config, c.source, r.initial)
    && (match c.submission
        case Native(action, meth) => r.meth == meth && r.initial == action
        case Formless => r.kind == Xhr)
  }

  /** The time an admission was entered lies in the capture's window. */
  predicate AdmissionMayMatch(config: Config, c: Capture, a: Admission) {
    && a.runtime == c.runtime
    && c.createdAt <= a.enteredAt + config.beforeWindow
    && a.enteredAt <= c.createdAt + config.afterWindow
  }

  predicate RuntimeRetired(j: Journal, v: Volatile, now: nat, runtime: Runtime) {
    || v.fenceUntil > now
    || runtime in v.retired
    || exists i :: 0 <= i < |j.retired| && j.retired[i].runtime == runtime
  }

  // Tests used with Filter.
  function MatchesCapture(config: Config, c: Capture): Request -> bool {
    (r: Request) => RequestMatches(config, c, r)
  }

  function OwnsRequest(config: Config, r: Request): Capture -> bool {
    (c: Capture) => c.phase == Unconfirmed && RequestMatches(config, c, r)
  }

  function Candidates(config: Config, j: Journal, c: Capture): seq<Request> {
    Filter(j.requests, MatchesCapture(config, c))
  }

  function Owners(config: Config, j: Journal, r: Request): seq<Capture> {
    Filter(j.captures, OwnsRequest(config, r))
  }

  predicate Ambiguous(config: Config, j: Journal, c: Capture) {
    || |Candidates(config, j, c)| > 1
    || exists r :: r in Candidates(config, j, c) && |Owners(config, j, r)| > 1
  }

  predicate HasFailedMatch(config: Config, j: Journal, c: Capture) {
    exists r :: r in Candidates(config, j, c) && r.phase == Failed
  }

  predicate HasAdmission(config: Config, j: Journal, c: Capture) {
    exists a :: a in j.admissions && AdmissionMayMatch(config, c, a)
  }

  predicate HasFailedAdmission(config: Config, j: Journal, c: Capture) {
    exists a :: a in j.admissions && AdmissionMayMatch(config, c, a) && a.status == AdmissionFailed
  }

  datatype Verdict = Discard | Wait | Confirm

  /** The decision for one unconfirmed capture, from the journal as it stands before the loop. */
  function VerdictOf(config: Config, j: Journal, v: Volatile, now: nat, c: Capture): Verdict {
    var candidates := Candidates(config, j, c);
    if RuntimeRetired(j, v, now, c.runtime) then Discard
    else if HasFailedMatch(config, j, c) || Ambiguous(config, j, c) then Discard
    else if candidates == [] || candidates[0].phase != Succeeded then Wait
    else if now < SafeAdd(c.createdAt, config.afterWindow) then Wait
    else if HasFailedAdmission(config, j, c) then Discard
    else if HasAdmission(config, j, c) then Wait
    else Confirm
  }

  // ---------------------------------------------------------------------------------------------
  // Pruning
  // ---------------------------------------------------------------------------------------------

  /** A runtime whose retirement still has journal records to remove. */
  predicate PendingCleanup(retired: seq<RetiredRuntime>, runtime: Runtime) {
    exists i :: 0 <= i < |retired| && retired[i].cleanupPending && retired[i].runtime == runtime
  }

  predicate FailsCapture(config: Config, admissions: seq<Admission>, now: nat, c: Capture) {
    exists i :: 0 <= i < |admissions| && admissions[i].expiresAt <= now && AdmissionMayMatch(config, c, admissions[i])
  }

  function CaptureSurvives(config: Config, retired: seq<RetiredRuntime>, admissions: seq<Admission>, now: nat)
    : Capture -> bool
  {
    (c: Capture) =>
      && c.expiresAt > now
      && (c.phase == Unconfirmed ==>
            !PendingCleanup(retired, c.runtime) && !FailsCapture(config, admissions, now, c))
  }

  function RequestSurvives(retired: seq<RetiredRuntime>, now: nat): Request -> bool {
    (r: Request) => r.expiresAt > now && !PendingCleanup(retired, r.runtime)
  }

  function OutcomeRuntime(o: Outcome): Runtime {
    Runtime(o.terminal.tab, o.terminal.frame, o.terminal.document, o.incarnation)
  }

  function OutcomeSurvives(retired: seq<RetiredRuntime>, now: nat): Outcome -> bool {
    (o: Outcome) => o.terminal.expiresAt > now && !PendingCleanup(retired, OutcomeRuntime(o))
  }

  function ActiveSurvives(retired: seq<RetiredRuntime>): ActiveRuntime -> bool {
    (a: ActiveRuntime) => !PendingCleanup(retired, a.runtime)
  }

  function AdmissionUnretired(retired: seq<RetiredRuntime>): Admission -> bool {
    (a: Admission) => !PendingCleanup(retired, a.runtime)
  }

  /** Admissions left once the records of retired runtimes are gone. */
  function KeepAdmissions(j: Journal): seq<Admission> {
    Filter(j.admissions, AdmissionUnretired(j.retired))
  }

  function AdmissionLive(now: nat): Admission -> bool {
    (a: Admission) => a.expiresAt > now
  }

  function CaptureLive(now: nat): Capture -> bool { (c: Capture) => c.expiresAt > now }
  function RequestLive(now: nat): Request -> bool { (r: Request) => r.expiresAt > now }
  function OutcomeLive(now: nat): Outcome -> bool { (o: Outcome) => o.terminal.expiresAt > now }

  function RetiredSurvives(now: nat): RetiredRuntime -> bool {
    (r: RetiredRuntime) => r.cleanupPending || r.expiresAt > now
  }

  /** `cleaned` holds the runtimes whose cleanup callbacks did not throw this time. */
  function MarkCleaned(retired: seq<RetiredRuntime>, cleaned: set<Runtime>): (r: seq<RetiredRuntime>)
    ensures |r| == |retired|
    ensures forall i :: 0 <= i < |r| ==>
              r[i] == if retired[i].runtime in cleaned then retired[i].(cleanupPending := false) else retired[i]
  {
    if retired == [] then []
    else [if retired[0].runtime in cleaned then retired[0].(cleanupPending := false) else retired[0]]
           + MarkCleaned(retired[1..], cleaned)
  }

  /** The pending retirements whose cleanup went through. */
  function CleanedRuntimes(retired: seq<RetiredRuntime>, cleaned: set<Runtime>): set<Runtime> {
    if retired == [] then {}
    else
      var last := retired[|retired| - 1];
      CleanedRuntimes(retired[..|retired| - 1], cleaned)
        + if last.cleanupPending && last.runtime in cleaned then {last.runtime} else {}
  }

  function VolatileAfter(j: Journal, v: Volatile, cleaned: set<Runtime>): Volatile {
    v.(retired := v.retired - CleanedRuntimes(j.retired, cleaned))
  }

  /** Everything `evaluate` does before it looks at the block and the matches. */
  function Prune(config: Config, j: Journal, now: nat, cleaned: set<Runtime>): Journal {
    j.(captures := Filter(j.captures, CaptureSurvives(config, j.retired, KeepAdmissions(j), now)),
       requests := Filter(j.requests, RequestSurvives(j.retired, now)),
       outcomes := Filter(j.outcomes, OutcomeSurvives(j.retired, now)),
       active := Filter(j.active, ActiveSurvives(j.retired)),
       admissions := Filter(KeepAdmissions(j), AdmissionLive(now)),
       retired := Filter(MarkCleaned(j.retired, cleaned), RetiredSurvives(now)))
  }

  const IS_CONFIRMED: Capture -> bool := (c: Capture) => c.phase == Confirmed

  /** The two deadlines are reset once they have passed. */
  function LiftFences(j: Journal, now: nat): Journal {
    j.(blockedUntil := 0,
       runtimeFenceUntil := if j.runtimeFenceUntil <= now then 0 else j.runtimeFenceUntil)
  }

  // ---------------------------------------------------------------------------------------------
  // The loop over the captures
  // ---------------------------------------------------------------------------------------------

  /** How each confirmation attempt of one evaluation would end. */
  type Attempts = Capture -> Attempt

  /** What becomes of one capture when no attempt blocks the journal. */
  function Settled(config: Config, j: Journal, v: Volatile, now: nat, attempts: Attempts, c: Capture)
    : Option<Capture>
  {
    if c.phase == Confirmed then Some(c)
    else match VerdictOf(config, j, v, now, c)
      case Discard => None
      case Wait => Some(c)
      case Confirm =>
        match attempts(c)
        case Committed => Some(c.(phase := Confirmed))
        case Untouched => Some(c)
        case Blocked => Some(c)
        case Withdrawn => None
  }

  predicate Blocks(config: Config, j: Journal, v: Volatile, now: nat, attempts: Attempts, c: Capture) {
    c.phase == Unconfirmed && VerdictOf(config, j, v, now, c) == Confirm && attempts(c) == Blocked
  }

  /** The captures after the loop, which stops at the first attempt that blocks the journal. */
  function Judge(config: Config, j: Journal, v: Volatile, now: nat, attempts: Attempts, todo: seq<Capture>)
    : (seq<Capture>, bool)
  {
    if todo == [] then ([], false)
    else if Blocks(config, j, v, now, attempts, todo[0]) then (todo, true)
    else
      var (rest, blocked) := Judge(config, j, v, now, attempts, todo[1..]);
      match Settled(config, j, v, now, attempts, todo[0])
      case None => (rest, blocked)
      case Some(c) => ([c] + rest, blocked)
  }

  function MarkBlocked(config: Config, j: Journal, now: nat): Journal {
    j.(blockedUntil := Max(j.blockedUntil, SafeAdd(now, config.ttl)),
       requests := [], outcomes := [], admissions := [])
  }

  /** The whole evaluation of a journal. */
  function Evaluate(config: Config, j: Journal, v: Volatile, now: nat, cleaned: set<Runtime>, attempts: Attempts)
    : Journal
  {
    var p := Prune(config, j, now, cleaned);
    if p.blockedUntil > now then p.(captures := Filter(p.captures, IS_CONFIRMED))
    else
      var q := LiftFences(p, now);
      var (captures, blocked) := Judge(config, q, VolatileAfter(j, v, cleaned), now, attempts, q.captures);
      var r := q.(captures := captures);
      if blocked then MarkBlocked(config, r, now) else r
  }

  /** The pruned journal the matches are computed from. */
  function Basis(config: Config, j: Journal, now: nat, cleaned: set<Runtime>): Journal {
    LiftFences(Prune(config, j, now, cleaned), now)
  }

  // ---------------------------------------------------------------------------------------------
  // Safety
  // ---------------------------------------------------------------------------------------------

  /** Every surviving capture is one that was there, and confirmation is the only change to it. */
  lemma {:induction false} JudgeKeeps(config: Config, j: Journal, v: Volatile, now: nat, attempts: Attempts,
                                      todo: seq<Capture>, c: Capture)
    requires c in Judge(config, j, v, now, attempts, todo).0
    ensures || c in todo
            || (c.phase == Confirmed && c.(phase := Unconfirmed) in todo
                && VerdictOf(config, j, v, now, c.(phase := Unconfirmed)) == Confirm
                && attempts(c.(phase := Unconfirmed)) == Committed)
    ensures c.phase == Unconfirmed && !Judge(config, j, v, now, attempts, todo).1
            ==> VerdictOf(config, j, v, now, c) != Discard
  {
    if Blocks(config, j, v, now, attempts, todo[0]) {
    } else if c in Judge(config, j, v, now, attempts, todo[1..]).0 {
      JudgeKeeps(config, j, v, now, attempts, todo[1..], c);
    }
  }

  /** A capture in the kept prefix has been judged even when a later attempt blocks the journal. */
  lemma {:induction false} JudgeAmbiguity(config: Config, j: Journal, v: Volatile, now: nat, attempts: Attempts,
                                          todo: seq<Capture>, c: Capture)
    requires c in Judge(config, j, v, now, attempts, todo).0 && c.phase == Unconfirmed
    requires !Judge(config, j, v, now, attempts, todo).1
    ensures c in todo
    ensures !HasFailedMatch(config, j, c) && !Ambiguous(config, j, c)
    ensures !RuntimeRetired(j, v, now, c.runtime)
  {
    JudgeKeeps(config, j, v, now, attempts, todo, c);
  }

  /** What must hold of every unconfirmed capture the coordinator leaves in the journal. */
  ghost predicate Unambiguous(config: Config, j: Journal, c: Capture) {
    && (forall r :: r in j.requests && RequestMatches(config, c, r) ==> r.phase != Failed)
    && |Candidates(config, j, c)| <= 1
    && (forall r, d | r in j.requests && RequestMatches(config, c, r) && d in j.captures && d.phase == Unconfirmed
                      && RequestMatches(config, d, r) :: d == c)
  }

  lemma {:induction false} TwoMembers<T(!new)>(s: seq<T>, a: T, b: T)
    requires a in s && b in s && a != b
    ensures |s| > 1
  {
  }

  /** Does this capture stand behind one whose attempt blocks the journal? */
  predicate BehindBlock(config: Config, j: Journal, v: Volatile, now: nat, attempts: Attempts, todo: seq<Capture>, c: Capture) {
    exists i, k :: 0 <= i < k < |todo| && Blocks(config, j, v, now, attempts, todo[i]) && todo[k] == c
  }

  /** A capture the loop would discard survives it exactly when it stands behind a block. */
  lemma {:induction false} JudgeSpares(config: Config, j: Journal, v: Volatile, now: nat, attempts: Attempts,
                                       todo: seq<Capture>, c: Capture)
    requires c.phase == Unconfirmed && VerdictOf(config, j, v, now, c) == Discard
    ensures c in Judge(config, j, v, now, attempts, todo).0 <==> BehindBlock(config, j, v, now, attempts, todo, c)
  {
    hide VerdictOf, BehindBlock;
    if todo == [] {
      NothingBehind(config, j, v, now, attempts, c);
    } else {
      assert todo == [todo[0]] + todo[1..];
      BehindBlockHead(config, j, v, now, attempts, todo, c);
      JudgeSpares(config, j, v, now, attempts, todo[1..], c);
    }
  }

  /** The loop blocks the journal exactly when it holds a capture whose attempt does. */
  lemma {:induction false} JudgeBlocks(config: Config, j: Journal, v: Volatile, now: nat, attempts: Attempts, todo: seq<Capture>)
    ensures Judge(config, j, v, now, attempts, todo).1 <==> exists c :: c in todo && Blocks(config, j, v, now, attempts, c)
  {
    hide VerdictOf, Blocks;
    if todo != [] {
      assert todo == [todo[0]] + todo[1..];
      JudgeBlocks(config, j, v, now, attempts, todo[1..]);
    }
  }

  lemma {:induction false} NothingBehind(config: Config, j: Journal, v: Volatile, now: nat, attempts: Attempts, c: Capture)
    ensures !BehindBlock(config, j, v, now, attempts, [], c)
  {
  }

  lemma {:induction false} BehindBlockHead(config: Config, j: Journal, v: Volatile, now: nat, attempts: Attempts,
                                           todo: seq<Capture>, c: Capture)
    requires todo != []
    ensures var rest := todo[1..];
            BehindBlock(config, j, v, now, attempts, todo, c) <==>
            if Blocks(config, j, v, now, attempts, todo[0]) then c in rest else BehindBlock(config, j, v, now, attempts, rest, c)
  {
    hide Blocks;
    var rest := todo[1..];
    if BehindBlock(config, j, v, now, attempts, todo, c) {
      var i, k :| 0 <= i < k < |todo| && Blocks(config, j, v, now, attempts, todo[i]) && todo[k] == c;
      assert rest[k - 1] == c;
      if i > 0 {
        assert rest[i - 1] == todo[i];
      }
    }
    if BehindBlock(config, j, v, now, attempts, rest, c) {
      var i, k :| 0 <= i < k < |rest| && Blocks(config, j, v, now, attempts, rest[i]) && rest[k] == c;
      assert todo[i + 1] == rest[i] && todo[k + 1] == rest[k];
    }
  }

  /**
   Exactly when an unconfirmed capture of a retired runtime is left in the journal: nothing blocked the
   journal before, and an attempt of this evaluation blocked it for a capture standing earlier.
   */
  lemma {:induction false} RetiredCaptureExactly(config: Config, j: Journal, v: Volatile, now: nat, cleaned: set<Runtime>,
                              attempts: Attempts, c: Capture)
    requires c.phase == Unconfirmed
    requires RuntimeRetired(Evaluate(config, j, v, now, cleaned, attempts), VolatileAfter(j, v, cleaned), now, c.runtime)
    ensures var q := Basis(config, j, now, cleaned);
            c in Evaluate(config, j, v, now, cleaned, attempts).captures <==>
            && j.blockedUntil <= now
            && BehindBlock(config, q, VolatileAfter(j, v, cleaned), now, attempts, q.captures, c)
  {
    hide Filter, Judge, BehindBlock;
    var q, w := Basis(config, j, now, cleaned), VolatileAfter(j, v, cleaned);
    if j.blockedUntil <= now {
      assert RuntimeRetired(q, w, now, c.runtime);
      JudgeSpares(config, q, w, now, attempts, q.captures, c);
    }
  }

  /**
   After every evaluation no unconfirmed capture has a failed match, two matches or a match it shares
   with another unconfirmed capture; and one of a retired runtime is left only behind a block.
   */
  lemma {:induction false} SettledJournalIsUnambiguous(config: Config, j: Journal, v: Volatile, now: nat, cleaned: set<Runtime>,
                                    attempts: Attempts, c: Capture)
    requires ValidConfig(config)
    requires var e := Evaluate(config, j, v, now, cleaned, attempts);
             c in e.captures && c.phase == Unconfirmed
    ensures var e, q, w := Evaluate(config, j, v, now, cleaned, attempts), Basis(config, j, now, cleaned), VolatileAfter(j, v, cleaned);
            && Unambiguous(config, e, c)
            && (RuntimeRetired(e, w, now, c.runtime) ==> BehindBlock(config, q, w, now, attempts, q.captures, c))
  {
    SettledIsUnambiguous(config, j, v, now, cleaned, attempts, c);
    hide Filter, Judge, BehindBlock, Unambiguous;
    var e, q, w := Evaluate(config, j, v, now, cleaned, attempts), Basis(config, j, now, cleaned), VolatileAfter(j, v, cleaned);
    if RuntimeRetired(e, w, now, c.runtime) {
      RetiredCaptureExactly(config, j, v, now, cleaned, attempts, c);
    }
  }

  lemma {:induction false} SettledIsUnambiguous(config: Config, j: Journal, v: Volatile, now: nat, cleaned: set<Runtime>,
                             attempts: Attempts, c: Capture)
    requires c in Evaluate(config, j, v, now, cleaned, attempts).captures && c.phase == Unconfirmed
    ensures Unambiguous(config, Evaluate(config, j, v, now, cleaned, attempts), c)
  {
    var p := Prune(config, j, now, cleaned);
    var e := Evaluate(config, j, v, now, cleaned, attempts);
    if p.blockedUntil <= now {
      var q := LiftFences(p, now);
      var w := VolatileAfter(j, v, cleaned);
      var blocked := Judge(config, q, w, now, attempts, q.captures).1;
      if blocked {
        assert e.requests == [];
        assert Candidates(config, e, c) == [];
      } else {
        JudgeAmbiguity(config, q, w, now, attempts, q.captures, c);
        UnambiguousFrom(config, q, w, now, attempts, c);
      }
    }
  }

  lemma {:induction false} UnambiguousFrom(config: Config, q: Journal, w: Volatile, now: nat, attempts: Attempts, c: Capture)
    requires c in q.captures && c.phase == Unconfirmed
    requires !HasFailedMatch(config, q, c) && !Ambiguous(config, q, c)
    ensures Unambiguous(config, q.(captures := Judge(config, q, w, now, attempts, q.captures).0), c)
  {
    var e := q.(captures := Judge(config, q, w, now, attempts, q.captures).0);
    assert Candidates(config, e, c) == Candidates(config, q, c);
    forall r | r in q.requests && RequestMatches(config, c, r)
      ensures r.phase != Failed
      ensures forall d :: d in e.captures && d.phase == Unconfirmed && RequestMatches(config, d, r) ==> d == c
    {
      assert r in Candidates(config, q, c);
      forall d | d in e.captures && d.phase == Unconfirmed && RequestMatches(config, d, r) ensures d == c {
        JudgeKeeps(config, q, w, now, attempts, q.captures, d);
        assert OwnsRequest(config, r)(c) && OwnsRequest(config, r)(d);
        assert c in Owners(config, q, r) && d in Owners(config, q, r);
        if d != c {
          TwoMembers(Owners(config, q, r), c, d);
        }
      }
    }
  }

  /** The evidence that one confirmation rests on. */
  ghost predicate Evidence(config: Config, j: Journal, v: Volatile, now: nat, c: Capture) {
    && !RuntimeRetired(j, v, now, c.runtime)
    && SafeAdd(c.createdAt, config.afterWindow) <= now
    && |Candidates(config, j, c)| == 1
    && (var r := Candidates(config, j, c)[0];
        && r in j.requests && RequestMatches(config, c, r)
        && r.phase == Succeeded && r.expiresAt > now
        && (forall d :: d in j.captures && d.phase == Unconfirmed && RequestMatches(config, d, r) ==> d == c))
    && (forall a :: a in j.admissions ==> !AdmissionMayMatch(config, c, a))
  }

  lemma {:induction false} ConfirmVerdictHasEvidence(config: Config, j: Journal, v: Volatile, now: nat, cleaned: set<Runtime>, c: Capture)
    requires var q := Basis(config, j, now, cleaned);
             c in q.captures && c.phase == Unconfirmed
             && VerdictOf(config, q, VolatileAfter(j, v, cleaned), now, c) == Confirm
    ensures Evidence(config, Basis(config, j, now, cleaned), VolatileAfter(j, v, cleaned), now, c)
  {
    var q := Basis(config, j, now, cleaned);
    var r := Candidates(config, q, c)[0];
    assert r in Candidates(config, q, c);
    assert r in q.requests && RequestMatches(config, c, r);
    assert RequestSurvives(j.retired, now)(r);
    forall d | d in q.captures && d.phase == Unconfirmed && RequestMatches(config, d, r) ensures d == c {
      assert OwnsRequest(config, r)(c) && OwnsRequest(config, r)(d);
      assert c in Owners(config, q, r) && d in Owners(config, q, r);
      if d != c {
        TwoMembers(Owners(config, q, r), c, d);
      }
    }
  }

  /**
   A capture that an evaluation turns from unconfirmed into confirmed had exactly one live matching
   request, which succeeded and which no other capture matched; its after-window was closed, no
   admission of its runtime fell in its window, and the journal was not blocked.
   */
  lemma {:induction false} ConfirmationNeedsEvidence(config: Config, j: Journal, v: Volatile, now: nat, cleaned: set<Runtime>,
                                  attempts: Attempts, c: Capture)
    requires var e := Evaluate(config, j, v, now, cleaned, attempts);
             c in e.captures && c.phase == Confirmed && c !in j.captures
    ensures j.blockedUntil <= now
    ensures c.(phase := Unconfirmed) in j.captures && attempts(c.(phase := Unconfirmed)) == Committed
    ensures Evidence(config, Basis(config, j, now, cleaned), VolatileAfter(j, v, cleaned), now, c.(phase := Unconfirmed))
  {
    var q := Basis(config, j, now, cleaned);
    var w := VolatileAfter(j, v, cleaned);
    if j.blockedUntil <= now {
      JudgeKeeps(config, q, w, now, attempts, q.captures, c);
      ConfirmVerdictHasEvidence(config, j, v, now, cleaned, c.(phase := Unconfirmed));
    }
  }

  // ---------------------------------------------------------------------------------------------
  // The order of the captures does not matter
  // ---------------------------------------------------------------------------------------------

  function SettleOne(config: Config, j: Journal, v: Volatile, now: nat, attempts: Attempts): Capture -> Option<Capture> {
    (c: Capture) => Settled(config, j, v, now, attempts, c)
  }

  lemma {:induction false} JudgeUnblocked(config: Config, j: Journal, v: Volatile, now: nat, attempts: Attempts,
                                          todo: seq<Capture>)
    requires forall c :: attempts(c) != Blocked
    ensures Judge(config, j, v, now, attempts, todo)
            == (FilterMap(todo, SettleOne(config, j, v, now, attempts)), false)
  {
    if todo != [] {
      JudgeUnblocked(config, j, v, now, attempts, todo[1..]);
    }
  }

  /** Two journals that differ only in the order of their captures. */
  ghost predicate Rearranged(a: Journal, b: Journal) {
    && multiset(a.captures) == multiset(b.captures)
    && b == a.(captures := b.captures)
  }

  lemma {:induction false} VerdictIgnoresOrder(config: Config, a: Journal, b: Journal, v: Volatile, now: nat, c: Capture)
    requires Rearranged(a, b)
    ensures VerdictOf(config, a, v, now, c) == VerdictOf(config, b, v, now, c)
  {
    forall r ensures |Owners(config, a, r)| == |Owners(config, b, r)| {
      FilterPermutation(a.captures, b.captures, OwnsRequest(config, r));
    }
    assert Ambiguous(config, a, c) == Ambiguous(config, b, c);
  }

  /** The same captures are confirmed, discarded and kept whatever order the journal lists them in. */
  lemma {:induction false} EvaluateIgnoresOrder(config: Config, a: Journal, b: Journal, v: Volatile, now: nat, cleaned: set<Runtime>,
                             attempts: Attempts)
    requires Rearranged(a, b)
    requires forall c :: attempts(c) != Blocked
    ensures var ea := Evaluate(config, a, v, now, cleaned, attempts);
            var eb := Evaluate(config, b, v, now, cleaned, attempts);
            && eb == ea.(captures := eb.captures)
            && (forall c :: c in ea.captures <==> c in eb.captures)
  {
    var pa, pb := Prune(config, a, now, cleaned), Prune(config, b, now, cleaned);
    FilterPermutation(a.captures, b.captures, CaptureSurvives(config, a.retired, KeepAdmissions(a), now));
    if pa.blockedUntil > now {
      FilterPermutation(pa.captures, pb.captures, IS_CONFIRMED);
      MembersOfPermutation(Filter(pa.captures, IS_CONFIRMED), Filter(pb.captures, IS_CONFIRMED));
    } else {
      var qa, qb := LiftFences(pa, now), LiftFences(pb, now);
      var w := VolatileAfter(a, v, cleaned);
      MembersOfPermutation(qa.captures, qb.captures);
      JudgeUnblocked(config, qa, w, now, attempts, qa.captures);
      JudgeUnblocked(config, qb, w, now, attempts, qb.captures);
      forall c ensures Settled(config, qa, w, now, attempts, c) == Settled(config, qb, w, now, attempts, c) {
        VerdictIgnoresOrder(config, qa, qb, w, now, c);
      }
      SameMembers(qa.captures, qb.captures, SettleOne(config, qa, w, now, attempts),
                  SettleOne(config, qb, w, now, attempts));
    }
  }

  lemma {:induction false} SameMembers<T(!new), U(!new)>(s: seq<T>, t: seq<T>, f: T -> Option<U>, g: T -> Option<U>)
    requires forall x :: x in s <==> x in t
    requires forall x :: f(x) == g(x)
    ensures forall y :: y in FilterMap(s, f) <==> y in FilterMap(t, g)
  {
  }
}
