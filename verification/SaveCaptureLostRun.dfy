/**
 Two runs of the coordinator that lose their journal: in one a completion overtakes the continuation of
 a 307 redirect, in the other a submission leaves the site of its document. Either way the journal
 that is stored cannot be read, and a capture of another tab is lost with it.
 */
module SaveCaptureLostRun {
  import opened Numbers
  import opened Sequences
  import opened SaveCaptureTypes
  import opened SaveCaptureEvaluation
  import opened SaveCaptureRequests
  import opened SaveCaptureSteps
  import opened SaveCaptureStorage
  import opened SaveCaptureCoordinator
  import opened SaveCaptureRuns
  import opened SaveCaptureReadBack
  import opened SaveCaptureBlockedRun

  const REDIRECT: Redirect := Redirect("r", 1, 0, "d", PAGE, NEXT, Post, Xhr, 1250, 31250, 307)
  const EARLY: Terminal := Terminal("r", 1, 0, "d", NEXT, Post, Xhr, 1300, 31300)

  /** Two runtimes, a capture of each, a request of the first, and its redirect with 307. */
  function RedirectedSteps(): seq<Step> {
    Steps()[..5] + [Step(RedirectSeen(REDIRECT), Around(1260, {}, BothWritten))]
  }

  function Overtaking(): Step {
    Step(CompletionSeen(EARLY, 200), Around(1310, {}, BothWritten))
  }

  const ELSEWHERE: Before := Before("q", 1, 0, "d", PAGE, Url("https", "b.example", "/login"), Post, Xhr, 1200)

  function Leaving(): Step {
    Step(RequestSeen(ELSEWHERE), Around(1210, {}, BothWritten))
  }

  /** The journal after the redirect. */
  function AfterRedirect(): Journal {
    Sample(12, [ACTIVE_ONE, ACTIVE_TWO], [FIRST, SECOND], [REDIRECTED])
  }

  lemma {:induction false} RedirectReported()
    ensures StepStored(SAMPLE_CONFIG, Some(After(5)), RedirectedSteps()[5]) == Some(AfterRedirect())
  {
    hide StepStored, Modest, Opened;
    var s := RedirectedSteps()[5];
    var k := AfterRedirect().(revision := 10);
    assert Modest(k, 1260) by { RedirectIsModest(1260); ModestAnyRevision(AfterRedirect(), 10, 1260); }
    AfterIsModest(5, 1260);
    ModestIsRead(After(5), s.around);
    assert IndexOf([STARTED], HasRequestId("r")) == Some(0);
    RedirectFollowed();
    assert [STARTED][0 := REDIRECTED] == [REDIRECTED];
    hide ObserveRedirect;
    CalmStep(Some(After(5)), s, k);
  }

  lemma {:induction false} RedirectFollowed()
    ensures StepRequest(SAMPLE_CONFIG, STARTED, Redirecting(REDIRECT)) == Some(REDIRECTED)
  {
  }

  lemma {:induction false} RedirectIsModest(now: nat)
    requires now <= 5000
    ensures Modest(AfterRedirect(), now)
  {
  }

  lemma {:induction false} HonestMore(log: seq<Step>, s: Step)
    requires HonestRun(SAMPLE_CONFIG, log) && !s.operation.RuntimeActivated?
    ensures HonestRun(SAMPLE_CONFIG, log + [s])
  {
    hide RunStored;
    var all := log + [s];
    forall i | 0 <= i < |all| ensures Honest(SAMPLE_CONFIG, RunStored(SAMPLE_CONFIG, all[..i]), all[i]) {
      if i < |log| {
        assert all[..i] == log[..i] && all[i] == log[i];
      }
    }
  }

  /** The first steps of the sample run, by their number. */
  lemma {:induction false} FirstSteps(n: nat)
    requires 1 <= n <= 6
    ensures RunStored(SAMPLE_CONFIG, Steps()[..n]) == Some(After(n)) && HonestRun(SAMPLE_CONFIG, Steps()[..n])
  {
    hide RunStored, HonestRun, Steps;
    RunOfSteps();
    StepsAreHonest();
    HonestPrefix(SAMPLE_CONFIG, Steps(), n);
  }

  lemma {:induction false} RedirectedRun()
    ensures RunStored(SAMPLE_CONFIG, RedirectedSteps()) == Some(AfterRedirect()) && HonestRun(SAMPLE_CONFIG, RedirectedSteps())
  {
    hide RunStored, HonestRun, StepStored, Steps;
    var s := Step(RedirectSeen(REDIRECT), Around(1260, {}, BothWritten));
    FirstSteps(5);
    HonestMore(Steps()[..5], s);
    RunNext(Steps()[..5], s);
    assert RedirectedSteps()[5] == s;
    RedirectReported();
  }

  /** A modest journal that a run has stored is read back. */
  lemma {:induction false} ModestReadsBack(log: seq<Step>, j: Journal)
    requires HonestRun(SAMPLE_CONFIG, log) && RunStored(SAMPLE_CONFIG, log) == Some(j) && Modest(j, 0)
    ensures ReadsBack(SAMPLE_CONFIG, RunStored(SAMPLE_CONFIG, log))
  {
    hide Modest, Storable, Inv, HonestRun, RunStored, Unreadable, ReadsBack;
    ModestIsStorable(j, 0);
    RunParses(SAMPLE_CONFIG, log);
  }

  /** Without a succeeded request no attempt is made. */
  lemma {:induction false} NothingSucceeded(config: Config, k: Journal, x: Surroundings)
    requires forall r :: r in k.requests ==> r.phase != Succeeded
    ensures !BlocksNow(config, k, x)
  {
    hide Filter, AttemptsOf, VolatileAfter, RequestMatches;
    var q, w := Basis(config, k, x.now, x.cleaned), VolatileAfter(k, x.memory, x.cleaned);
    forall c | c in q.captures ensures !Blocks(config, q, w, x.now, AttemptsOf(config, x), c) {
      var candidates := Candidates(config, q, c);
      assert candidates != [] ==> candidates[0] in q.requests;
    }
  }

  /** What the next operation reads, a minute later. */
  function Next(): Surroundings {
    Around(60000, {}, NothingWritten)
  }

  /** A journal that holds nothing and blocks every runtime. */
  function Nothing(): Journal {
    EmptyJournal(0).(blockedUntil := 90000, runtimeFenceUntil := 90000)
  }

  lemma {:induction false} NothingIsRead(t: Option<Journal>)
    requires Unreadable(SAMPLE_CONFIG, t)
    ensures Opened(SAMPLE_CONFIG, t, Next()) == Nothing()
  {
    hide Opened, Unreadable;
    OvertakingEvent();
    RefusedIsLost(SAMPLE_CONFIG, t, Next());
  }

  lemma {:induction false} OvertakingEvent()
    ensures var s := Overtaking();
            && Timely(s) && s.operation == CompletionSeen(EARLY, 200) && s.around.now == 1310 && s.around.vouched == {"first", "second"}
            && StoresSettled(s)
    ensures Next().now == 60000 && Next().highWater == 0 && SafeAdd(60000, SAMPLE_CONFIG.ttl) == 90000
  {
  }

  lemma {:induction false} LeavingEvent()
    ensures var s := Leaving();
            && Timely(s) && s.operation == RequestSeen(ELSEWHERE) && s.around.now == 1210 && s.around.vouched == {"first", "second"}
            && StoresSettled(s)
  {
  }

  lemma {:induction false} OvertakenIsHonest()
    ensures var log, s := RedirectedSteps(), Overtaking();
            && HonestRun(SAMPLE_CONFIG, log + [s]) && Timely(s)
            && RunStored(SAMPLE_CONFIG, log) == Some(AfterRedirect()) && ReadsBack(SAMPLE_CONFIG, RunStored(SAMPLE_CONFIG, log))
            && Opened(SAMPLE_CONFIG, RunStored(SAMPLE_CONFIG, log), s.around) == AfterRedirect()
  {
    var log, s := RedirectedSteps(), Overtaking();
    OvertakingEvent();
    hide RunStored, HonestRun, Steps, Opened, Modest, ReadsBack, RedirectedSteps, AfterRedirect, Around, Overtaking, Timely;
    RedirectIsModest(0);
    RedirectIsModest(1310);
    RedirectedRun();
    HonestMore(log, s);
    ModestReadsBack(log, AfterRedirect());
    ModestIsRead(AfterRedirect(), s.around);
  }

  lemma {:induction false} OvertakenIsUnreadable()
    ensures Unreadable(SAMPLE_CONFIG, RunStored(SAMPLE_CONFIG, RedirectedSteps() + [Overtaking()]))
  {
    var log, s := RedirectedSteps(), Overtaking();
    hide RunStored, HonestRun, Opened, ReadsBack, Unreadable, BlocksNow, RedirectedSteps, ObserveCompleted, NoContinuation, AfterRedirect, Timely;
    hide TrackedRequest, PendingCleanup, Around, Overtaking;
    OvertakingEvent();
    OvertakingIsSeen();
    OvertakenIsHonest();
    OvertakenContinuationLosesJournal(SAMPLE_CONFIG, log, s, EARLY, 200);
    NothingSucceeded(SAMPLE_CONFIG, ObserveCompleted(SAMPLE_CONFIG, AfterRedirect(), EARLY, 200), s.around);
  }

  /** The completion overtakes the repeated request: the capture in the other tab is gone, and every runtime is blocked. */
  lemma {:induction false} OvertakenRunLosesJournal()
    ensures var log := RedirectedSteps();
            && HonestRun(SAMPLE_CONFIG, log + [Overtaking()]) && Timely(Overtaking())
            && RunStored(SAMPLE_CONFIG, log).Some? && SECOND in RunStored(SAMPLE_CONFIG, log).value.captures
            && ReadsBack(SAMPLE_CONFIG, RunStored(SAMPLE_CONFIG, log))
            && Opened(SAMPLE_CONFIG, RunStored(SAMPLE_CONFIG, log + [Overtaking()]), Next())
               == Nothing()
  {
    assert SECOND in AfterRedirect().captures;
    hide RunStored, HonestRun, Opened, ReadsBack, Unreadable, RedirectedSteps, Timely, Around, Overtaking, Next, AfterRedirect, Nothing;
    OvertakenIsHonest();
    OvertakenIsUnreadable();
    NothingIsRead(RunStored(SAMPLE_CONFIG, RedirectedSteps() + [Overtaking()]));
  }

  lemma {:induction false} OvertakingIsSeen()
    ensures !NoContinuation(AfterRedirect(), "r") && !PendingCleanup(AfterRedirect().retired, ONE)
    ensures TrackedRequest(AfterRedirect(), "r") == Some(REDIRECTED)
    ensures forall r :: r in ObserveCompleted(SAMPLE_CONFIG, AfterRedirect(), EARLY, 200).requests ==> r.phase != Succeeded
  {
    assert IndexOf([REDIRECTED], HasRequestId("r")) == Some(0);
    assert StepRequest(SAMPLE_CONFIG, REDIRECTED, Completing(EARLY, 200)) == Some(REDIRECTED.(phase := Failed));
  }

  lemma {:induction false} LeavingIsHonest()
    ensures var log, s := Steps()[..4], Leaving();
            && HonestRun(SAMPLE_CONFIG, log + [s]) && Timely(s)
            && RunStored(SAMPLE_CONFIG, log) == Some(After(4)) && ReadsBack(SAMPLE_CONFIG, RunStored(SAMPLE_CONFIG, log))
            && Opened(SAMPLE_CONFIG, RunStored(SAMPLE_CONFIG, log), s.around) == After(4)
  {
    var log, s := Steps()[..4], Leaving();
    hide RunStored, HonestRun, Steps, Opened, Modest, ReadsBack, After, Around, Leaving, Timely;
    LeavingEvent();
    AfterIsModest(4, 0);
    AfterIsModest(4, 1210);
    FirstSteps(4);
    HonestMore(log, s);
    ModestReadsBack(log, After(4));
    ModestIsRead(After(4), s.around);
  }

  lemma {:induction false} LeavingIsUnreadable()
    ensures Unreadable(SAMPLE_CONFIG, RunStored(SAMPLE_CONFIG, Steps()[..4] + [Leaving()]))
  {
    var log, s := Steps()[..4], Leaving();
    hide RunStored, HonestRun, Steps, Opened, ReadsBack, Unreadable, BlocksNow, ObserveBefore, RuntimeForRequest, SameSite, After, Timely, TrackedRequest;
    hide PendingCleanup, Around, Leaving, WellFormed, FreshRequest, SafeAdd, StoresSettled;
    LeavingEvent();
    LeavingIsSeen();
    LeavingIsHonest();
    CrossSiteRequestLosesJournal(SAMPLE_CONFIG, log, s, ELSEWHERE);
    NothingSucceeded(SAMPLE_CONFIG, ObserveBefore(SAMPLE_CONFIG, After(4), ELSEWHERE), s.around);
  }

  /** The submission leaves the site: again both captures are gone. */
  lemma {:induction false} CrossSiteRunLosesJournal()
    ensures var log := Steps()[..4];
            && HonestRun(SAMPLE_CONFIG, log + [Leaving()]) && Timely(Leaving())
            && RunStored(SAMPLE_CONFIG, log).Some? && RunStored(SAMPLE_CONFIG, log).value.captures == [FIRST, SECOND]
            && ReadsBack(SAMPLE_CONFIG, RunStored(SAMPLE_CONFIG, log))
            && Opened(SAMPLE_CONFIG, RunStored(SAMPLE_CONFIG, log + [Leaving()]), Next())
               == Nothing()
  {
    assert After(4).captures == [FIRST, SECOND];
    hide RunStored, HonestRun, Opened, ReadsBack, Unreadable, Steps, Timely, Around, Leaving, Next, After, Nothing;
    LeavingIsHonest();
    LeavingIsUnreadable();
    NothingIsRead(RunStored(SAMPLE_CONFIG, Steps()[..4] + [Leaving()]));
  }

  lemma {:induction false} LeavingIsSeen()
    ensures RuntimeForRequest(After(4), ELSEWHERE) == Some("one") && TrackedRequest(After(4), "q").None?
    ensures |After(4).requests| < SAMPLE_CONFIG.capacity && !PendingCleanup(After(4).retired, ONE)
    ensures WellFormed(ELSEWHERE) && !SameSite(SAMPLE_CONFIG, ELSEWHERE.source, ELSEWHERE.url) && SafeAdd(1200, SAMPLE_CONFIG.ttl) == 31200
    ensures forall r :: r in ObserveBefore(SAMPLE_CONFIG, After(4), ELSEWHERE).requests ==> r.phase != Succeeded
  {
    var active := [ACTIVE_ONE, ACTIVE_TWO];
    assert Filter(active, ActiveForRequest(ELSEWHERE)) == [ACTIVE_ONE] by {
      FilterHead(active, ActiveForRequest(ELSEWHERE));
      assert active[1..] == [ACTIVE_TWO];
      FilterNone([ACTIVE_TWO], ActiveForRequest(ELSEWHERE));
    }
  }
}
