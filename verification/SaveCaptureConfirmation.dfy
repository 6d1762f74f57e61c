/**
 How one confirmation attempt ends, what the fence around it guarantees, and which network events
 the coordinator may ignore while it waits.
 */
module SaveCaptureConfirmation {
  import opened Numbers
  import opened Sequences
  import opened ConfirmationFence
  import opened SaveCaptureTypes
  import opened SaveCaptureEvaluation

  datatype KeyLoad = KeyLoaded | KeyMissing | KeyThrew

  /** What the encrypted store answered; it consults the fence before and after its write. */
  datatype StoreAnswer = AnsweredConfirmed | AnsweredMissing | StoreThrew

  datatype StateRead = ReadConfirmed | ReadOther | ReadThrew

  /** Everything the environment decides during one attempt, in the order the attempt asks. */
  datatype Run = Run(
    hasMetadata: bool,
    authorityBefore: bool,
    key: KeyLoad,
    authorityAfterKey: bool,
    store: StoreAnswer,
    fenceCurrent: bool,
    authorityAfterStore: bool,
    stateInAttempt: StateRead,
    stateInRecovery: StateRead,
    discardThrows: bool)

  /** Recovery: a capture that did become confirmed in the store is withdrawn, or the journal blocks. */
  function Recover(x: Run): Attempt {
    match x.stateInRecovery
    case ReadThrew => Blocked
    case ReadOther => Untouched
    case ReadConfirmed => if x.discardThrows then Blocked else Withdrawn
  }

  function AttemptOf(x: Run): Attempt {
    if !x.hasMetadata then Untouched
    else if !x.authorityBefore || x.key == KeyThrew || !x.authorityAfterKey then Recover(x)
    else if x.key == KeyMissing then Untouched
    else if x.store == StoreThrew || !x.fenceCurrent || !x.authorityAfterStore then Recover(x)
    else if x.store == AnsweredConfirmed then Committed
    else match x.stateInAttempt
      case ReadConfirmed => Committed
      case ReadOther => Untouched
      case ReadThrew => Recover(x)
  }

  /** A confirmed entry never stays behind as "untouched": it is withdrawn or the journal is blocked. */
  lemma {:induction false} NoConfirmedLeftBehind(x: Run)
    requires x.hasMetadata && AttemptOf(x) == Untouched
    requires x.stateInAttempt == x.stateInRecovery
    ensures x.stateInRecovery != ReadConfirmed || (x.key == KeyMissing && x.authorityBefore && x.authorityAfterKey)
  {
  }

  // ---------------------------------------------------------------------------------------------
  // Which network events matter
  // ---------------------------------------------------------------------------------------------

  datatype Window = Window(opensAt: nat, closesAt: nat)

  /** What the coordinator keeps of the journal to judge a network event before reading it. */
  datatype Scope = Scope(
    known: bool,
    windows: map<FrameKey, seq<Window>>,
    requestIds: set<(nat, nat, string)>,
    stages: multiset<FrameKey>)

  function WindowOf(config: Config, c: Capture): Window {
    Window(if c.createdAt <= config.beforeWindow then 0 else c.createdAt - config.beforeWindow,
           SafeAdd(c.createdAt, config.afterWindow))
  }

  predicate InWindow(w: Window, time: nat) {
    w.opensAt <= time <= w.closesAt
  }

  /** An event is skipped when nothing waiting in its frame could be touched by it. */
  predicate Skipped(s: Scope, tab: nat, frame: nat, time: nat, requestId: string) {
    && s.known
    && (tab, frame) !in s.stages
    && (tab, frame, requestId) !in s.requestIds
    && !((tab, frame) in s.windows && exists i :: 0 <= i < |s.windows[(tab, frame)]| && InWindow(s.windows[(tab, frame)][i], time))
  }

  function WindowsIn(windows: map<FrameKey, seq<Window>>, key: FrameKey): seq<Window> {
    if key in windows then windows[key] else []
  }

  /** The scope holds the window of every waiting capture, and every request that matches one. */
  ghost predicate Covers(config: Config, j: Journal, s: Scope) {
    && (forall c :: c in j.captures && c.phase == Unconfirmed ==>
          WindowOf(config, c) in WindowsIn(s.windows, (c.runtime.tab, c.runtime.frame)))
    && (forall r, c :: r in j.requests && c in j.captures && c.phase == Unconfirmed && RequestMatches(config, c, r) ==>
          (r.runtime.tab, r.runtime.frame, r.id) in s.requestIds)
  }

  /** Rebuild the scope from a journal that was just read or is about to be written. */
  method Refresh(config: Config, j: Journal, stages: multiset<FrameKey>) returns (s: Scope)
    ensures s.known && s.stages == stages
    ensures Covers(config, j, s)
    ensures forall key, w :: key in s.windows && w in s.windows[key] ==>
              exists c :: c in j.captures && c.phase == Unconfirmed && key == (c.runtime.tab, c.runtime.frame)
                          && w == WindowOf(config, c)
  {
    hide RequestMatches;
    var windows: map<FrameKey, seq<Window>> := map[];
    for n := 0 to |j.captures|
      invariant forall k :: 0 <= k < n && j.captures[k].phase == Unconfirmed ==>
                  WindowOf(config, j.captures[k]) in WindowsIn(windows, (j.captures[k].runtime.tab, j.captures[k].runtime.frame))
      invariant forall key, w :: key in windows && w in windows[key] ==>
                  exists c :: c in j.captures && c.phase == Unconfirmed && key == (c.runtime.tab, c.runtime.frame)
                              && w == WindowOf(config, c)
    {
      var c := j.captures[n];
      if c.phase == Unconfirmed {
        var key := (c.runtime.tab, c.runtime.frame);
        windows := windows[key := WindowsIn(windows, key) + [WindowOf(config, c)]];
      }
    }
    var ids: set<(nat, nat, string)> := {};
    for n := 0 to |j.requests|
      invariant forall k :: 0 <= k < n && AnyMatch(config, j.captures, j.requests[k]) ==>
                  (j.requests[k].runtime.tab, j.requests[k].runtime.frame, j.requests[k].id) in ids
    {
      var r := j.requests[n];
      if AnyMatch(config, j.captures, r) {
        ids := ids + {(r.runtime.tab, r.runtime.frame, r.id)};
      }
    }
    s := Scope(true, windows, ids, stages);
  }

  predicate AnyMatch(config: Config, captures: seq<Capture>, r: Request) {
    exists c :: c in captures && c.phase == Unconfirmed && RequestMatches(config, c, r)
  }

  /** A skipped event could not have been evidence for or against any capture waiting in the journal. */
  lemma {:induction false} SkippedIsIrrelevant(config: Config, j: Journal, s: Scope, tab: nat, frame: nat, time: nat, requestId: string,
                            c: Capture, r: Request)
    requires Covers(config, j, s)
    requires Skipped(s, tab, frame, time, requestId) && time < MAX_SAFE_INTEGER
    requires c in j.captures && c.phase == Unconfirmed && (c.runtime.tab, c.runtime.frame) == (tab, frame)
    ensures time + config.beforeWindow < c.createdAt || c.createdAt + config.afterWindow < time
    ensures r in j.requests && RequestMatches(config, c, r) ==> r.id != requestId
  {
    var w := WindowOf(config, c);
    assert !InWindow(w, time);
  }

  // ---------------------------------------------------------------------------------------------
  // The fence of an attempt
  // ---------------------------------------------------------------------------------------------

  /** Something that happens while an operation is under way; a network event meets the scope of its moment. */
  datatype Occurrence =
    | Bumped(bump: Bump)
    | NetworkEvent(tab: nat, frame: nat, time: nat, requestId: string, scope: Scope)

  /** The bumps the fences record: those of skipped network events are not among them. */
  function NotedOf(e: Occurrence): seq<Bump> {
    match e
    case Bumped(bump) => [bump]
    case NetworkEvent(tab, frame, time, requestId, scope) =>
      if Skipped(scope, tab, frame, time, requestId) then [] else [NetworkFrame(tab, frame)]
  }

  function Noted(events: seq<Occurrence>): seq<Bump> {
    if events == [] then [] else NotedOf(events[0]) + Noted(events[1..])
  }

  /** Record a network event in the fences unless the scope shows that it cannot matter. */
  method BumpNetworkFrame(fences: ConfirmationFences, scope: Scope, tab: nat, frame: nat, time: nat, requestId: string)
    requires fences.Valid()
    modifies fences
    ensures fences.Valid()
    ensures fences.State() == RunFences(old(fences.State()), NotedOf(NetworkEvent(tab, frame, time, requestId, scope)), fences.capacity)
  {
    if Skipped(scope, tab, frame, time, requestId) {
      return;
    }
    fences.RecordNetworkFrame(tab, frame);
    ghost var bumps := [NetworkFrame(tab, frame)];
    assert bumps[1..] == [];
  }

  /** No global event, none of the runtime's tab or frame, and no network event of its frame that the scope lets through. */
  ghost predicate Undisturbed(events: seq<Occurrence>, runtime: Runtime) {
    forall i :: 0 <= i < |events| ==> Leaves(events[i], runtime)
  }

  predicate Leaves(e: Occurrence, runtime: Runtime) {
    match e
    case Bumped(bump) => !Affects(bump, runtime.tab, runtime.frame)
    case NetworkEvent(tab, frame, time, requestId, scope) =>
      tab == runtime.tab && frame == runtime.frame ==> Skipped(scope, tab, frame, time, requestId)
  }

  lemma {:induction false} NotedDecidesOne(e: Occurrence, runtime: Runtime)
    ensures Leaves(e, runtime) <==> forall b :: b in NotedOf(e) ==> !Affects(b, runtime.tab, runtime.frame)
  {
    hide Skipped;
    assert NotedOf(e) != [] ==> NotedOf(e)[0] in NotedOf(e);
  }

  lemma {:induction false} NotedDecides(events: seq<Occurrence>, runtime: Runtime)
    ensures Undisturbed(events, runtime) <==> forall b :: b in Noted(events) ==> !Affects(b, runtime.tab, runtime.frame)
  {
    hide Leaves, NotedOf, Affects;
    if events != [] {
      var rest := events[1..];
      NotedDecidesOne(events[0], runtime);
      NotedDecides(rest, runtime);
      assert events == [events[0]] + rest;
      assert Undisturbed(events, runtime) <==> Leaves(events[0], runtime) && Undisturbed(rest, runtime) by {
        forall i | 0 <= i < |rest| ensures rest[i] == events[i + 1] {
        }
      }
    }
  }

  /** The attempt as its fence answers: taken when the operation was asked for, compared when the store is consulted. */
  function Fenced(x: Run, asked: Fences, during: seq<Occurrence>, capacity: nat, runtime: Runtime): Run {
    x.(fenceCurrent := FenceCurrent(RunFences(asked, Noted(during), capacity), CaptureFence(asked), runtime.tab, runtime.frame))
  }

  /** A confirmation the coordinator records was not disturbed since its operation was asked for. */
  lemma {:induction false} CommittedSawNoEvent(x: Run, asked: Fences, during: seq<Occurrence>, capacity: nat, runtime: Runtime)
    requires Bounded(asked, capacity) && capacity >= 1
    requires AttemptOf(Fenced(x, asked, during, capacity, runtime)) == Committed
    ensures Undisturbed(during, runtime)
  {
    hide Undisturbed, Affects, Noted;
    FenceSound(asked, Noted(during), capacity, runtime.tab, runtime.frame);
    NotedDecides(during, runtime);
  }

  /** What did not disturb a waiting capture was no evidence for or against it. */
  lemma {:induction false} UndisturbedIsIrrelevant(config: Config, j: Journal, events: seq<Occurrence>, c: Capture, i: nat)
    requires c in j.captures && c.phase == Unconfirmed && Undisturbed(events, c.runtime)
    requires i < |events| && events[i].NetworkEvent? && Covers(config, j, events[i].scope) && events[i].time < MAX_SAFE_INTEGER
    requires events[i].tab == c.runtime.tab && events[i].frame == c.runtime.frame
    ensures events[i].time + config.beforeWindow < c.createdAt || c.createdAt + config.afterWindow < events[i].time
    ensures forall r :: r in j.requests && RequestMatches(config, c, r) ==> r.id != events[i].requestId
  {
    hide RequestMatches;
    var e := events[i];
    forall r | r in j.requests && RequestMatches(config, c, r) ensures r.id != e.requestId {
      SkippedIsIrrelevant(config, j, e.scope, e.tab, e.frame, e.time, e.requestId, c, r);
    }
    var w := WindowOf(config, c);
    assert !InWindow(w, e.time);
  }
}
