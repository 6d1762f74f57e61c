/**
 A run of the coordinator after which a settled journal still holds an unconfirmed capture of a retired
 runtime: the write of the tombstone failed, so the retirement is known from memory alone, and the
 next evaluation blocks the journal on an earlier capture before it comes to that one.
 */
module SaveCaptureBlockedRun {
  import opened Numbers
  import opened Sequences
  import opened SaveCaptureTypes
  import opened SaveCaptureEvaluation
  import opened SaveCaptureConfirmation
  import opened SaveCaptureRequests
  import opened SaveCaptureSteps
  import opened SaveCaptureStorage
  import opened SaveCaptureCoordinator
  import opened SaveCaptureRuns

  const PAGE: Url := Url("https", "a.example", "/login")
  const ONE: Runtime := Runtime(1, 0, "d", "one")
  const TWO: Runtime := Runtime(2, 0, "e", "two")
  const FIRST: Capture := Capture("first", ONE, PAGE, 1000, 300000, Formless, Unconfirmed)
  const SECOND: Capture := Capture("second", TWO, PAGE, 1100, 300000, Formless, Unconfirmed)
  const ACTIVE_ONE: ActiveRuntime := ActiveRuntime(ONE, PAGE, 100)
  const ACTIVE_TWO: ActiveRuntime := ActiveRuntime(TWO, PAGE, 200)
  const REPORT: Before := Before("r", 1, 0, "d", PAGE, PAGE, Post, Xhr, 1200)
  const COMPLETION: Terminal := Terminal("r", 1, 0, "d", PAGE, Post, Xhr, 1300, 31300)
  const STARTED: Request := Request("r", ONE, PAGE, PAGE, PAGE, Post, Xhr, 1200, 31200, Started, 0, false, None)
  const PROOF: Request := STARTED.(phase := Succeeded)
  const NEXT: Url := Url("https", "a.example", "/next")
  const REDIRECTED: Request :=
    STARTED.(current := NEXT, phase := Redirected, redirectCount := 1, continuation := Some(Continuation(307, 1250, NEXT)))
  const TOMBSTONE: RetiredRuntime := RetiredRuntime(TWO, 1400, 31400, true)

  /** The user key cannot be loaded, and neither can the state of the capture. */
  const UNREACHABLE: Run := Run(true, true, KeyThrew, true, StoreThrew, true, true, ReadThrew, ReadThrew, true)

  function Around(now: nat, memory: set<Runtime>, ending: Ending): Surroundings {
    Surroundings(now, Volatile(memory, 0), {}, [], (c: Capture) => [], (c: Capture) => UNREACHABLE, {"first", "second"}, {}, 0, ending)
  }

  function Activation(active: seq<ActiveRuntime>, now: nat): Step {
    Step(RuntimeActivated(Change(active, [], 0, None, None), None, false), Around(now, {}, BothWritten))
  }

  /** Two runtimes, a capture of each, the proof of the first, and the replacement of the second cut short. */
  function Steps(): (steps: seq<Step>)
    ensures |steps| == 8
  {
    [Activation([ACTIVE_ONE], 100),
     Activation([ACTIVE_ONE, ACTIVE_TWO], 200),
     Step(CaptureStaged(FIRST), Around(1000, {}, BothWritten)),
     Step(CaptureStaged(SECOND), Around(1100, {}, BothWritten)),
     Step(RequestSeen(REPORT), Around(1200, {}, BothWritten)),
     Step(CompletionSeen(COMPLETION, 200), Around(1300, {}, BothWritten)),
     Step(RuntimeActivated(Change([ACTIVE_ONE, ACTIVE_TWO], [TOMBSTONE], 0, None, None), None, true), Around(1400, {}, NothingWritten)),
     Step(Reconciled, Around(5000, {TWO}, BothWritten))]
  }

  /** The journal with these records; every step of the run writes twice. */
  function Sample(revision: nat, active: seq<ActiveRuntime>, captures: seq<Capture>, requests: seq<Request>): Journal {
    EmptyJournal(revision).(active := active, captures := captures, requests := requests)
  }

  /** Is this one of the journals below, with nothing expired? */
  predicate Modest(j: Journal, now: nat) {
    && j == Sample(j.revision, j.active, j.captures, j.requests)
    && now <= 5000
    && j.active in [[], [ACTIVE_ONE], [ACTIVE_ONE, ACTIVE_TWO]]
    && j.captures in [[], [FIRST], [FIRST, SECOND]]
    && j.requests in [[], [STARTED], [REDIRECTED], [PROOF]]
  }

  lemma {:induction false} ModestIsStorable(j: Journal, now: nat)
    requires Modest(j, now)
    ensures Storable(SAMPLE_CONFIG, j) && Inv(SAMPLE_CONFIG, j)
    ensures forall c :: c in j.captures ==> c == FIRST || c == SECOND
    ensures forall r :: r in j.requests ==> r == STARTED || r == REDIRECTED || r == PROOF
  {
    assert RequestStorable(SAMPLE_CONFIG, STARTED) && RequestStorable(SAMPLE_CONFIG, PROOF);
    assert RequestStorable(SAMPLE_CONFIG, REDIRECTED);
    assert CaptureStorable(FIRST) && CaptureStorable(SECOND);
  }

  lemma {:induction false} ModestIsRead(j: Journal, x: Surroundings)
    requires Modest(j, x.now) && x.vouched == {"first", "second"}
    ensures Opened(SAMPLE_CONFIG, Some(j), x) == j
  {
    hide Storable, Inv, Filter, Modest, WithinLimits, DropExpired;
    ModestIsStorable(j, x.now);
    WithinLimitsIsInv(SAMPLE_CONFIG, j);
    assert DropExpired(j, x.now) == j by { NothingDropped(j, x.now); }
    FilterAll(j.captures, VouchedFor(x.vouched));
  }

  lemma {:induction false} NothingDropped(j: Journal, now: nat)
    requires Modest(j, now)
    ensures DropExpired(j, now) == j
  {
    hide Storable, Inv, Filter, Modest;
    ModestIsStorable(j, now);
    ModestRecords(j, now);
    FilterAll(j.captures, CaptureLive(now));
    FilterAll(j.requests, RequestLive(now));
    FilterNothing(OutcomeLive(now));
    FilterNothing(RetiredSurvives(now));
  }

  lemma {:induction false} ModestRecords(j: Journal, now: nat)
    requires Modest(j, now)
    ensures now <= 5000 && j.outcomes == [] && j.retired == [] && j.admissions == [] && j.blockedUntil == 0 && j.runtimeFenceUntil == 0
  {
  }

  lemma {:induction false} NothingPruned(j: Journal, now: nat)
    requires Modest(j, now)
    ensures Prune(SAMPLE_CONFIG, j, now, {}) == j && Basis(SAMPLE_CONFIG, j, now, {}) == j
  {
    hide Storable, Inv, Filter, Modest;
    ModestIsStorable(j, now);
    ModestRecords(j, now);
    FilterNothing(AdmissionUnretired(j.retired));
    FilterAll(j.captures, CaptureSurvives(SAMPLE_CONFIG, j.retired, KeepAdmissions(j), now));
    FilterAll(j.requests, RequestSurvives(j.retired, now));
    FilterNothing(OutcomeSurvives(j.retired, now));
    FilterAll(j.active, ActiveSurvives(j.retired));
    FilterNothing(AdmissionLive(now));
    FilterNothing(RetiredSurvives(now));
  }

  /** The first capture matches the one request there is, alone; the second matches none. */
  lemma {:induction false} Matches(j: Journal, now: nat)
    requires Modest(j, now)
    ensures j.captures != [] ==> Candidates(SAMPLE_CONFIG, j, FIRST) == j.requests
    ensures Candidates(SAMPLE_CONFIG, j, SECOND) == []
    ensures forall r :: r in j.requests && j.captures != [] ==> Owners(SAMPLE_CONFIG, j, r) == [FIRST]
  {
    hide Filter, SameSite;
    assert forall r :: r == STARTED || r == REDIRECTED || r == PROOF ==> RequestMatches(SAMPLE_CONFIG, FIRST, r) && !RequestMatches(SAMPLE_CONFIG, SECOND, r) by {
      assert SameSite(SAMPLE_CONFIG, PAGE, PAGE) by { PageIsOnSite(); }
    }
    FilterAll(j.requests, MatchesCapture(SAMPLE_CONFIG, FIRST));
    FilterNone(j.requests, MatchesCapture(SAMPLE_CONFIG, SECOND));
    forall r | r in j.requests && j.captures != [] ensures Owners(SAMPLE_CONFIG, j, r) == [FIRST] {
      OneOwner(j.captures, OwnsRequest(SAMPLE_CONFIG, r));
    }
  }

  lemma {:induction false} PageIsOnSite()
    ensures SameSite(SAMPLE_CONFIG, PAGE, PAGE)
  {
  }

  lemma {:induction false} OneOwner(captures: seq<Capture>, owns: Capture -> bool)
    requires captures in [[FIRST], [FIRST, SECOND]] && owns(FIRST) && !owns(SECOND)
    ensures Filter(captures, owns) == [FIRST]
  {
    FilterHead(captures, owns);
    FilterNothing(owns);
    if captures == [FIRST, SECOND] {
      assert captures[1..] == [SECOND] && [SECOND][1..] == [];
      FilterHead([SECOND], owns);
    }
  }

  /** Before its window closes the first capture waits, and so does the second. */
  lemma {:induction false} BothWait(j: Journal, now: nat, c: Capture)
    requires Modest(j, now) && now < 2500 && c in j.captures
    ensures VerdictOf(SAMPLE_CONFIG, j, Volatile({}, 0), now, c) == Wait
  {
    hide Filter, RequestMatches, Candidates, Owners, Modest;
    ModestIsStorable(j, now);
    ModestRecords(j, now);
    Matches(j, now);
    assert |j.requests| <= 1 by { FewRequests(j, now); }
    assert SafeAdd(1000, 1500) == 2500;
  }

  lemma {:induction false} FewRequests(j: Journal, now: nat)
    requires Modest(j, now)
    ensures |j.requests| <= 1
  {
  }

  lemma {:induction false} AllWait(j: Journal, v: Volatile, now: nat, attempts: Attempts, todo: seq<Capture>)
    requires forall c :: c in todo ==> c.phase == Unconfirmed && VerdictOf(SAMPLE_CONFIG, j, v, now, c) == Wait
    ensures Judge(SAMPLE_CONFIG, j, v, now, attempts, todo) == (todo, false)
  {
    hide VerdictOf;
    if todo != [] {
      AllWait(j, v, now, attempts, todo[1..]);
      assert todo == [todo[0]] + todo[1..];
    }
  }

  lemma {:induction false} CalmSettles(j: Journal, x: Surroundings)
    requires Modest(j, x.now) && x.now < 2500 && x.memory == Volatile({}, 0) && x.cleaned == {}
    ensures Settle(SAMPLE_CONFIG, j, x) == j
  {
    hide Modest, VerdictOf, Prune, AttemptsOf, Storable, Inv;
    ModestRecords(j, x.now);
    ModestIsStorable(j, x.now);
    NothingPruned(j, x.now);
    forall c | c in j.captures ensures VerdictOf(SAMPLE_CONFIG, j, Volatile({}, 0), x.now, c) == Wait {
      BothWait(j, x.now, c);
    }
    assert VolatileAfter(j, x.memory, {}) == Volatile({}, 0);
    AllWait(j, Volatile({}, 0), x.now, AttemptsOf(SAMPLE_CONFIG, x), j.captures);
  }

  /** A step that leaves such a journal stores it as it is, two revisions on. */
  lemma {:induction false} CalmStep(stored: Option<Journal>, s: Step, k: Journal)
    requires s.around.ending == BothWritten && s.around.highWater == 0 && s.around.reported == {} && s.around.cleaned == {}
    requires s.around.memory == Volatile({}, 0) && s.around.now < 2500 && Modest(k, s.around.now)
    requires Turned(SAMPLE_CONFIG, Opened(SAMPLE_CONFIG, stored, s.around), s.operation, s.around) == Settles(k)
    ensures StepStored(SAMPLE_CONFIG, stored, s) == Some(k.(revision := k.revision + 2))
  {
    hide Modest, Turned, Opened, Settle, Filter;
    CalmSettles(k, s.around);
    FilterAll(k.captures, Unreported({}));
  }

  lemma {:induction false} RunNext(log: seq<Step>, s: Step)
    ensures RunStored(SAMPLE_CONFIG, log + [s]) == StepStored(SAMPLE_CONFIG, RunStored(SAMPLE_CONFIG, log), s)
  {
    hide StepStored;
    assert (log + [s])[..|log|] == log;
  }

  // ---------------------------------------------------------------------------------------------
  // The run, step by step
  // ---------------------------------------------------------------------------------------------

  /** The journal after the first n steps. */
  function After(n: nat): Journal
    requires 1 <= n <= 6
  {
    Sample(2 * n,
           if n == 1 then [ACTIVE_ONE] else [ACTIVE_ONE, ACTIVE_TWO],
           if n < 3 then [] else if n == 3 then [FIRST] else [FIRST, SECOND],
           if n < 5 then [] else if n == 5 then [STARTED] else [PROOF])
  }

  lemma {:induction false} AfterIsModest(n: nat, now: nat)
    requires 1 <= n <= 6 && now <= 5000
    ensures Modest(After(n), now)
  {
  }

  lemma {:induction false} ActivationTurns(j: Journal, active: seq<ActiveRuntime>, now: nat)
    requires j.retired == [] && j.runtimeFenceUntil == 0
    ensures var s := Activation(active, now);
            Turned(SAMPLE_CONFIG, j, s.operation, s.around) == Settles(j.(active := active))
  {
  }

  lemma {:induction false} FirstActivation()
    ensures StepStored(SAMPLE_CONFIG, None, Steps()[0]) == Some(After(1))
  {
    hide StepStored, Turned, Modest;
    var s := Steps()[0];
    var j := EmptyJournal(0);
    assert Opened(SAMPLE_CONFIG, None, s.around) == j by { FilterNothing(VouchedFor(s.around.vouched)); }
    ActivationTurns(j, [ACTIVE_ONE], 100);
    assert Modest(Sample(0, [ACTIVE_ONE], [], []), 100) by { AfterIsModest(1, 100); ModestAnyRevision(After(1), 0, 100); }
    hide Opened;
    CalmStep(None, s, j.(active := [ACTIVE_ONE]));
  }

  lemma {:induction false} ModestAnyRevision(j: Journal, revision: nat, now: nat)
    requires Modest(j, now)
    ensures Modest(j.(revision := revision), now)
  {
  }

  /** A step of the run from one sample journal to the next. */
  lemma {:induction false} NextSample(n: nat)
    requires 1 <= n < 6
    requires var s := Steps()[n];
             Turned(SAMPLE_CONFIG, After(n), s.operation, s.around) == Settles(After(n + 1).(revision := 2 * n))
    ensures StepStored(SAMPLE_CONFIG, Some(After(n)), Steps()[n]) == Some(After(n + 1))
  {
    hide StepStored, Turned, Modest, Opened;
    var s := Steps()[n];
    AfterIsModest(n, s.around.now);
    AfterIsModest(n + 1, s.around.now);
    ModestAnyRevision(After(n + 1), 2 * n, s.around.now);
    ModestIsRead(After(n), s.around);
    CalmStep(Some(After(n)), s, After(n + 1).(revision := 2 * n));
  }

  lemma {:induction false} SecondActivation()
    ensures StepStored(SAMPLE_CONFIG, Some(After(1)), Steps()[1]) == Some(After(2))
  {
    hide StepStored, Turned;
    ActivationTurns(After(1), [ACTIVE_ONE, ACTIVE_TWO], 200);
    NextSample(1);
  }

  lemma {:induction false} FirstStaged()
    ensures StepStored(SAMPLE_CONFIG, Some(After(2)), Steps()[2]) == Some(After(3))
  {
    hide StepStored;
    assert MayStage(After(2), Steps()[2].around, FIRST) by { assert ACTIVE_ONE in After(2).active; }
    assert Stage(SAMPLE_CONFIG, After(2), FIRST).captures == [FIRST];
    NextSample(2);
  }

  lemma {:induction false} SecondStaged()
    ensures StepStored(SAMPLE_CONFIG, Some(After(3)), Steps()[3]) == Some(After(4))
  {
    hide StepStored;
    assert MayStage(After(3), Steps()[3].around, SECOND) by { assert ACTIVE_TWO in After(3).active; }
    assert IndexOf([FIRST], InSlot(SECOND)).None?;
    assert Stage(SAMPLE_CONFIG, After(3), SECOND).captures == [FIRST, SECOND];
    NextSample(3);
  }

  lemma {:induction false} RequestReported()
    ensures StepStored(SAMPLE_CONFIG, Some(After(4)), Steps()[4]) == Some(After(5))
  {
    hide StepStored;
    var active := [ACTIVE_ONE, ACTIVE_TWO];
    assert Filter(active, ActiveForRequest(REPORT)) == [ACTIVE_ONE] by {
      FilterHead(active, ActiveForRequest(REPORT));
      assert active[1..] == [ACTIVE_TWO];
      FilterNone([ACTIVE_TWO], ActiveForRequest(REPORT));
    }
    assert FreshRequest(SAMPLE_CONFIG, REPORT, "one") == STARTED;
    assert [] + [STARTED] == [STARTED];
    NextSample(4);
  }

  lemma {:induction false} RequestCompleted()
    ensures StepStored(SAMPLE_CONFIG, Some(After(5)), Steps()[5]) == Some(After(6))
  {
    hide StepStored;
    assert IndexOf([STARTED], HasRequestId("r")) == Some(0);
    assert StepRequest(SAMPLE_CONFIG, STARTED, Completing(COMPLETION, 200)) == Some(PROOF);
    assert [STARTED][0 := PROOF] == [PROOF];
    NextSample(5);
  }

  /** The write of the tombstone fails, and nothing of the activation is stored. */
  lemma {:induction false} RetirementNotWritten(stored: Journal)
    ensures StepStored(SAMPLE_CONFIG, Some(stored), Steps()[6]) == Some(stored)
  {
    hide Opened, ApplyChange;
  }

  lemma {:induction false} FirstBlocks(x: Surroundings)
    requires x == Steps()[7].around
    ensures Blocks(SAMPLE_CONFIG, After(6), x.memory, x.now, AttemptsOf(SAMPLE_CONFIG, x), FIRST)
  {
    hide Filter, RequestMatches, Candidates, Owners;
    AfterIsModest(6, x.now);
    Matches(After(6), x.now);
    assert VerdictOf(SAMPLE_CONFIG, After(6), x.memory, x.now, FIRST) == Confirm;
    assert AttemptsOf(SAMPLE_CONFIG, x)(FIRST) == Blocked;
  }

  lemma {:induction false} BlockIsStored()
    ensures StepStored(SAMPLE_CONFIG, Some(After(6)), Steps()[7])
            == Some(After(6).(revision := 14, blockedUntil := 35000, requests := []))
  {
    hide Filter, Blocks, AttemptsOf, Prune, Opened, Modest;
    var x := Steps()[7].around;
    var j := After(6);
    AfterIsModest(6, x.now);
    ModestIsRead(j, x);
    NothingPruned(j, x.now);
    assert VolatileAfter(j, x.memory, {}) == x.memory;
    FirstBlocks(x);
    assert Judge(SAMPLE_CONFIG, j, x.memory, x.now, AttemptsOf(SAMPLE_CONFIG, x), j.captures) == (j.captures, true);
    var e := Settle(SAMPLE_CONFIG, j, x);
    assert e == MarkBlocked(SAMPLE_CONFIG, j, x.now);
    FilterAll(j.captures, Unreported({}));
  }

  lemma {:induction false} RunOfSteps()
    ensures RunStored(SAMPLE_CONFIG, Steps()) == Some(After(6).(revision := 14, blockedUntil := 35000, requests := []))
    ensures forall n :: 1 <= n <= 6 ==> RunStored(SAMPLE_CONFIG, Steps()[..n]) == Some(After(n))
  {
    hide StepStored, RunStored;
    assert RunStored(SAMPLE_CONFIG, Steps()[..0]) == None by { RunNothing(); }
    RunTo(0); FirstActivation();
    RunTo(1); SecondActivation();
    RunTo(2); FirstStaged();
    RunTo(3); SecondStaged();
    RunTo(4); RequestReported();
    RunTo(5); RequestCompleted();
    RunTo(6); RetirementNotWritten(After(6));
    RunTo(7); BlockIsStored();
    assert Steps()[..8] == Steps();
  }

  lemma {:induction false} RunNothing()
    ensures RunStored(SAMPLE_CONFIG, Steps()[..0]) == None
  {
  }

  lemma {:induction false} RunTo(n: nat)
    requires n < 8
    ensures RunStored(SAMPLE_CONFIG, Steps()[..n + 1]) == StepStored(SAMPLE_CONFIG, RunStored(SAMPLE_CONFIG, Steps()[..n]), Steps()[n])
  {
    hide StepStored, RunStored;
    assert Steps()[..n + 1] == Steps()[..n] + [Steps()[n]];
    RunNext(Steps()[..n], Steps()[n]);
  }

  /** The activations of the run change the journal as activations do. */
  lemma {:induction false} StepsAreHonest()
    ensures HonestRun(SAMPLE_CONFIG, Steps())
  {
    hide RunStored, Opened, Honest;
    forall i | 0 <= i < 8 ensures Honest(SAMPLE_CONFIG, RunStored(SAMPLE_CONFIG, Steps()[..i]), Steps()[i]) {
      StepIsHonest(i, RunStored(SAMPLE_CONFIG, Steps()[..i]));
    }
  }

  lemma {:induction false} StepIsHonest(i: nat, stored: Option<Journal>)
    requires i < 8
    ensures Honest(SAMPLE_CONFIG, stored, Steps()[i])
  {
    hide Opened;
    assert TOMBSTONE.expiresAt == SafeAdd(TOMBSTONE.retiredAt, SAMPLE_CONFIG.ttl);
  }

  /** The run ends in a settled journal that still holds the capture of the runtime retired in memory. */
  lemma {:induction false} BlockLeavesRetiredCapture()
    ensures ValidConfig(SAMPLE_CONFIG) && HonestRun(SAMPLE_CONFIG, Steps())
    ensures var j, x := RunStored(SAMPLE_CONFIG, Steps()), Steps()[7].around;
            && j.Some? && SECOND in j.value.captures && SECOND.phase == Unconfirmed
            && RuntimeRetired(j.value, x.memory, x.now, SECOND.runtime) && j.value.blockedUntil > x.now
    ensures Steps()[6].operation.RuntimeActivated? && TWO in Steps()[7].around.memory.retired
  {
    hide RunStored, HonestRun;
    StepsAreHonest();
    RunOfSteps();
  }
}
