/**
 The confirmation fences of the save-capture coordinator.

 A fence is a (generation, sequence) pair taken before an asynchronous confirmation starts. The
 coordinator does not keep the list of everything that happened afterwards: it keeps one global
 number and four bounded maps. This module proves that the bounded maps answer exactly the question
 an unbounded log of events would answer.
 */
module ConfirmationFence {
  import opened Numbers

  type FrameKey = (nat, nat)

  /** Everything that can invalidate a confirmation in flight. */
  datatype Bump =
    | Global
    | RuntimeTab(tab: nat)
    | RuntimeFrame(tab: nat, frame: nat)
    | NetworkTab(tab: nat)
    | NetworkFrame(tab: nat, frame: nat)

  predicate Affects(bump: Bump, tab: nat, frame: nat) {
    match bump
    case Global => true
    case RuntimeTab(t) => t == tab
    case NetworkTab(t) => t == tab
    case RuntimeFrame(t, f) => t == tab && f == frame
    case NetworkFrame(t, f) => t == tab && f == frame
  }

  datatype Fence = Fence(generation: nat, sequence: nat)

  /** The bounded state. A generation number stands for the identity of the generation object. */
  datatype Fences = Fences(
    generation: nat,
    sequence: nat,
    globalSequence: nat,
    runtimeTabs: map<nat, nat>,
    runtimeFrames: map<FrameKey, nat>,
    networkTabs: map<nat, nat>,
    networkFrames: map<FrameKey, nat>)

  const INITIAL_FENCES: Fences := Fences(0, 0, 0, map[], map[], map[], map[])

  function Get<K>(m: map<K, nat>, key: K): nat {
    if key in m then m[key] else 0
  }

  function CaptureFence(s: Fences): Fence {
    Fence(s.generation, s.sequence)
  }

  predicate FenceCurrent(s: Fences, fence: Fence, tab: nat, frame: nat) {
    && fence.generation == s.generation
    && s.globalSequence <= fence.sequence
    && Get(s.runtimeTabs, tab) <= fence.sequence
    && Get(s.runtimeFrames, (tab, frame)) <= fence.sequence
    && Get(s.networkTabs, tab) <= fence.sequence
    && Get(s.networkFrames, (tab, frame)) <= fence.sequence
  }

  /** Advance the sequence; on exhaustion a new generation starts with empty maps. */
  function Next(s: Fences): Fences {
    if s.sequence >= MAX_SAFE_INTEGER
    then Fences(s.generation + 1, 1, 0, map[], map[], map[], map[])
    else s.(sequence := s.sequence + 1)
  }

  function BumpGlobal(s: Fences): Fences {
    var n := Next(s);
    Fences(n.generation, n.sequence, n.sequence, map[], map[], map[], map[])
  }

  function WithoutTab(frames: map<FrameKey, nat>, tab: nat): map<FrameKey, nat> {
    map key | key in frames && key.0 != tab :: frames[key]
  }

  /** A map that is full and lacks the key forces one global bump before the key is recorded. */
  function MakeRoom<K>(s: Fences, m: map<K, nat>, key: K, capacity: nat): Fences {
    if key !in m && |m| >= capacity then BumpGlobal(s) else s
  }

  function BumpRuntimeTab(s: Fences, tab: nat, capacity: nat): Fences {
    var n := Next(MakeRoom(s, s.runtimeTabs, tab, capacity));
    n.(runtimeTabs := n.runtimeTabs[tab := n.sequence], runtimeFrames := WithoutTab(n.runtimeFrames, tab))
  }

  function BumpRuntimeFrame(s: Fences, tab: nat, frame: nat, capacity: nat): Fences {
    var n := Next(MakeRoom(s, s.runtimeFrames, (tab, frame), capacity));
    n.(runtimeFrames := n.runtimeFrames[(tab, frame) := n.sequence])
  }

  function BumpNetworkTab(s: Fences, tab: nat, capacity: nat): Fences {
    var n := Next(MakeRoom(s, s.networkTabs, tab, capacity));
    n.(networkTabs := n.networkTabs[tab := n.sequence], networkFrames := WithoutTab(n.networkFrames, tab))
  }

  function BumpNetworkFrame(s: Fences, tab: nat, frame: nat, capacity: nat): Fences {
    var n := Next(MakeRoom(s, s.networkFrames, (tab, frame), capacity));
    n.(networkFrames := n.networkFrames[(tab, frame) := n.sequence])
  }

  function Apply(s: Fences, bump: Bump, capacity: nat): Fences {
    match bump
    case Global => BumpGlobal(s)
    case RuntimeTab(tab) => BumpRuntimeTab(s, tab, capacity)
    case RuntimeFrame(tab, frame) => BumpRuntimeFrame(s, tab, frame, capacity)
    case NetworkTab(tab) => BumpNetworkTab(s, tab, capacity)
    case NetworkFrame(tab, frame) => BumpNetworkFrame(s, tab, frame, capacity)
  }

  // ---------------------------------------------------------------------------------------------
  // The unbounded log
  // ---------------------------------------------------------------------------------------------

  /** One recorded bump, stamped with the generation and sequence it was given. */
  datatype Entry = Entry(bump: Bump, generation: nat, sequence: nat)

  function Stamp(s: Fences, bump: Bump): Entry {
    Entry(bump, s.generation, s.sequence)
  }

  /** Does this bump first force a global one because its map is full? */
  predicate Overflows(s: Fences, bump: Bump, capacity: nat) {
    match bump
    case Global => false
    case RuntimeTab(tab) => tab !in s.runtimeTabs && |s.runtimeTabs| >= capacity
    case RuntimeFrame(tab, frame) => (tab, frame) !in s.runtimeFrames && |s.runtimeFrames| >= capacity
    case NetworkTab(tab) => tab !in s.networkTabs && |s.networkTabs| >= capacity
    case NetworkFrame(tab, frame) => (tab, frame) !in s.networkFrames && |s.networkFrames| >= capacity
  }

  function Recorded(s: Fences, bump: Bump, capacity: nat): seq<Entry> {
    (if Overflows(s, bump, capacity) then [Stamp(BumpGlobal(s), Global)] else [])
      + [Stamp(Apply(s, bump, capacity), bump)]
  }

  function RunFences(s: Fences, bumps: seq<Bump>, capacity: nat): Fences
    decreases |bumps|
  {
    if bumps == [] then s else RunFences(Apply(s, bumps[0], capacity), bumps[1..], capacity)
  }

  function RunLog(s: Fences, bumps: seq<Bump>, capacity: nat): seq<Entry>
    decreases |bumps|
  {
    if bumps == [] then []
    else Recorded(s, bumps[0], capacity) + RunLog(Apply(s, bumps[0], capacity), bumps[1..], capacity)
  }

  /** The largest of the five numbers the coordinator compares with a fence. */
  function Height(s: Fences, tab: nat, frame: nat): nat {
    Max(s.globalSequence,
        Max(Max(Get(s.runtimeTabs, tab), Get(s.runtimeFrames, (tab, frame))),
            Max(Get(s.networkTabs, tab), Get(s.networkFrames, (tab, frame)))))
  }

  /** Nothing stored is ahead of the sequence, and no map outgrows its capacity. */
  ghost predicate Bounded(s: Fences, capacity: nat) {
    && s.sequence <= MAX_SAFE_INTEGER
    && s.globalSequence <= s.sequence
    && |s.runtimeTabs| <= capacity && |s.runtimeFrames| <= capacity
    && |s.networkTabs| <= capacity && |s.networkFrames| <= capacity
    && (forall k | k in s.runtimeTabs :: s.runtimeTabs[k] <= s.sequence)
    && (forall k | k in s.runtimeFrames :: s.runtimeFrames[k] <= s.sequence)
    && (forall k | k in s.networkTabs :: s.networkTabs[k] <= s.sequence)
    && (forall k | k in s.networkFrames :: s.networkFrames[k] <= s.sequence)
  }

  /** Lexicographically later than the point (generation, sequence). */
  predicate After(e: Entry, generation: nat, sequence: nat) {
    e.generation > generation || (e.generation == generation && e.sequence > sequence)
  }

  /** A log affects a frame when one of its entries does. */
  predicate LogAffects(log: seq<Entry>, tab: nat, frame: nat) {
    exists i :: 0 <= i < |log| && Affects(log[i].bump, tab, frame)
  }

  lemma {:induction false} LogAffectsConcat(a: seq<Entry>, b: seq<Entry>, tab: nat, frame: nat)
    ensures LogAffects(a + b, tab, frame) <==> LogAffects(a, tab, frame) || LogAffects(b, tab, frame)
  {
    if i :| 0 <= i < |a| && Affects(a[i].bump, tab, frame) {
      assert (a + b)[i] == a[i];
    }
    if i :| 0 <= i < |b| && Affects(b[i].bump, tab, frame) {
      assert (a + b)[|a| + i] == b[i];
    }
  }

  /** `t` is what `s` becomes: later in time, still valid, and higher exactly when `hit`. */
  ghost predicate Advances(s: Fences, t: Fences, capacity: nat, tab: nat, frame: nat, hit: bool) {
    && Bounded(t, capacity)
    && (t.generation > s.generation || (t.generation == s.generation && t.sequence > s.sequence))
    && (t.generation == s.generation ==>
          if hit then Height(t, tab, frame) > s.sequence else Height(t, tab, frame) == Height(s, tab, frame))
  }

  lemma {:induction false} NextAdvances(s: Fences, capacity: nat, tab: nat, frame: nat)
    requires Bounded(s, capacity)
    ensures Advances(s, Next(s), capacity, tab, frame, false)
    ensures Height(Next(s), tab, frame) < Next(s).sequence
  {
  }

  lemma {:induction false} BumpGlobalAdvances(s: Fences, capacity: nat, tab: nat, frame: nat)
    requires Bounded(s, capacity)
    ensures Advances(s, BumpGlobal(s), capacity, tab, frame, true)
    ensures Height(BumpGlobal(s), tab, frame) == BumpGlobal(s).sequence
  {
  }

  lemma {:induction false} SizeAfterInsert<K>(m: map<K, nat>, key: K, v: nat)
    ensures |m[key := v]| == if key in m then |m| else |m| + 1
  {
    assert m[key := v].Keys == m.Keys + {key};
    if key in m {
      assert m[key := v].Keys == m.Keys;
    }
  }

  lemma {:induction false} SizeOfWithoutTab(frames: map<FrameKey, nat>, tab: nat)
    ensures |WithoutTab(frames, tab)| <= |frames|
  {
    var keys := WithoutTab(frames, tab).Keys;
    assert keys <= frames.Keys;
    assert frames.Keys == keys + (frames.Keys - keys);
  }

  /** The state just before the key is recorded: room has been made and the sequence advanced. */
  function Prepared(s: Fences, bump: Bump, capacity: nat): Fences {
    Next(if Overflows(s, bump, capacity) then BumpGlobal(s) else s)
  }

  lemma {:induction false} ApplyStamp(s: Fences, bump: Bump, capacity: nat)
    ensures var t := Apply(s, bump, capacity);
            t.generation == Prepared(s, bump, capacity).generation && t.sequence == Prepared(s, bump, capacity).sequence
  {
    hide WithoutTab;
  }

  /** A quiet step after another one only moves the sequence on. */
  lemma {:induction false} ThenQuietly(s: Fences, r: Fences, n: Fences, capacity: nat, tab: nat, frame: nat)
    requires Advances(s, r, capacity, tab, frame, true) && Advances(r, n, capacity, tab, frame, false)
    ensures Advances(s, n, capacity, tab, frame, true)
  {
    hide Bounded, Height;
  }

  lemma {:induction false} PreparedAdvances(s: Fences, bump: Bump, capacity: nat, tab: nat, frame: nat)
    requires Bounded(s, capacity) && capacity >= 1
    ensures var n := Prepared(s, bump, capacity);
            && Advances(s, n, capacity, tab, frame, Overflows(s, bump, capacity))
            && Height(n, tab, frame) < n.sequence
  {
    hide Height, Next, BumpGlobal;
    if Overflows(s, bump, capacity) {
      var r := BumpGlobal(s);
      BumpGlobalAdvances(s, capacity, tab, frame);
      NextAdvances(r, capacity, tab, frame);
      ThenQuietly(s, r, Next(r), capacity, tab, frame);
    } else {
      NextAdvances(s, capacity, tab, frame);
    }
  }

  lemma {:induction false} RecordedIsStamped(s: Fences, bump: Bump, capacity: nat)
    requires Bounded(s, capacity) && capacity >= 1
    ensures Stamped(s, Recorded(s, bump, capacity))
  {
    hide Height, Next, BumpGlobal, Apply, Overflows, Bounded, Prepared;
    ApplyStamp(s, bump, capacity);
    BumpGlobalAdvances(s, capacity, 0, 0);
    PreparedAdvances(s, bump, capacity, 0, 0);
  }

  /** Every entry carries a stamp later than the state it was recorded in. */
  ghost predicate Stamped(s: Fences, log: seq<Entry>) {
    forall i :: 0 <= i < |log| ==> After(log[i], s.generation, s.sequence)
  }

  /** What recording a key in one map does; `n` is a state that has room and a fresh sequence. */
  lemma {:induction false} HeightAfterRuntimeTab(n: Fences, t: nat, capacity: nat, tab: nat, frame: nat)
    requires Bounded(n, capacity) && Height(n, tab, frame) < n.sequence
    requires t in n.runtimeTabs || |n.runtimeTabs| < capacity
    ensures var u := n.(runtimeTabs := n.runtimeTabs[t := n.sequence], runtimeFrames := WithoutTab(n.runtimeFrames, t));
            Bounded(u, capacity) && Height(u, tab, frame) == if t == tab then n.sequence else Height(n, tab, frame)
  {
    SizeAfterInsert(n.runtimeTabs, t, n.sequence);
    SizeOfWithoutTab(n.runtimeFrames, t);
  }

  lemma {:induction false} HeightAfterNetworkTab(n: Fences, t: nat, capacity: nat, tab: nat, frame: nat)
    requires Bounded(n, capacity) && Height(n, tab, frame) < n.sequence
    requires t in n.networkTabs || |n.networkTabs| < capacity
    ensures var u := n.(networkTabs := n.networkTabs[t := n.sequence], networkFrames := WithoutTab(n.networkFrames, t));
            Bounded(u, capacity) && Height(u, tab, frame) == if t == tab then n.sequence else Height(n, tab, frame)
  {
    SizeAfterInsert(n.networkTabs, t, n.sequence);
    SizeOfWithoutTab(n.networkFrames, t);
  }

  lemma {:induction false} HeightAfterRuntimeFrame(n: Fences, key: FrameKey, capacity: nat, tab: nat, frame: nat)
    requires Bounded(n, capacity) && Height(n, tab, frame) < n.sequence
    requires key in n.runtimeFrames || |n.runtimeFrames| < capacity
    ensures var u := n.(runtimeFrames := n.runtimeFrames[key := n.sequence]);
            Bounded(u, capacity) && Height(u, tab, frame) == if key == (tab, frame) then n.sequence else Height(n, tab, frame)
  {
    SizeAfterInsert(n.runtimeFrames, key, n.sequence);
  }

  lemma {:induction false} HeightAfterNetworkFrame(n: Fences, key: FrameKey, capacity: nat, tab: nat, frame: nat)
    requires Bounded(n, capacity) && Height(n, tab, frame) < n.sequence
    requires key in n.networkFrames || |n.networkFrames| < capacity
    ensures var u := n.(networkFrames := n.networkFrames[key := n.sequence]);
            Bounded(u, capacity) && Height(u, tab, frame) == if key == (tab, frame) then n.sequence else Height(n, tab, frame)
  {
    SizeAfterInsert(n.networkFrames, key, n.sequence);
  }

  /** After the preparation the map of the bump holds its key or has a free place. */
  lemma {:induction false} RoomForKey(s: Fences, bump: Bump, capacity: nat)
    requires capacity >= 1
    ensures var n := Prepared(s, bump, capacity);
            match bump
            case Global => true
            case RuntimeTab(t) => t in n.runtimeTabs || |n.runtimeTabs| < capacity
            case RuntimeFrame(t, f) => (t, f) in n.runtimeFrames || |n.runtimeFrames| < capacity
            case NetworkTab(t) => t in n.networkTabs || |n.networkTabs| < capacity
            case NetworkFrame(t, f) => (t, f) in n.networkFrames || |n.networkFrames| < capacity
  {
  }

  /** Recording the key itself raises the answer for the frames it affects and for no other frame. */
  lemma {:induction false} RecordKey(s: Fences, bump: Bump, capacity: nat, tab: nat, frame: nat)
    requires Bounded(s, capacity) && capacity >= 1 && !bump.Global?
    ensures var n := Prepared(s, bump, capacity);
            var t := Apply(s, bump, capacity);
            && Bounded(t, capacity) && t.generation == n.generation && t.sequence == n.sequence
            && Height(t, tab, frame) == if Affects(bump, tab, frame) then n.sequence else Height(n, tab, frame)
  {
    hide Height, Next, BumpGlobal, Bounded, WithoutTab;
    var n := Prepared(s, bump, capacity);
    PreparedAdvances(s, bump, capacity, tab, frame);
    RoomForKey(s, bump, capacity);
    ApplyStamp(s, bump, capacity);
    match bump
    case RuntimeTab(t) => HeightAfterRuntimeTab(n, t, capacity, tab, frame);
    case NetworkTab(t) => HeightAfterNetworkTab(n, t, capacity, tab, frame);
    case RuntimeFrame(t, f) => HeightAfterRuntimeFrame(n, (t, f), capacity, tab, frame);
    case NetworkFrame(t, f) => HeightAfterNetworkFrame(n, (t, f), capacity, tab, frame);
  }

  lemma {:induction false} GlobalIsApplied(s: Fences, capacity: nat)
    ensures Apply(s, Global, capacity) == BumpGlobal(s)
  {
  }

  /** One bump raises the answer of a frame exactly when something recorded for it affects that frame. */
  lemma {:induction false} ApplyAdvances(s: Fences, bump: Bump, capacity: nat, tab: nat, frame: nat)
    requires Bounded(s, capacity) && capacity >= 1
    ensures var rec := Recorded(s, bump, capacity);
            && Advances(s, Apply(s, bump, capacity), capacity, tab, frame, LogAffects(rec, tab, frame))
            && Stamped(s, rec)
  {
    hide Height, Next, BumpGlobal, Apply, Overflows, Bounded, Prepared, Stamped;
    var rec := Recorded(s, bump, capacity);
    assert rec[|rec| - 1].bump == bump;
    RecordedIsStamped(s, bump, capacity);
    PreparedAdvances(s, bump, capacity, tab, frame);
    if bump.Global? {
      GlobalIsApplied(s, capacity);
      BumpGlobalAdvances(s, capacity, tab, frame);
      assert Affects(rec[0].bump, tab, frame);
    } else {
      RecordKey(s, bump, capacity, tab, frame);
      if Overflows(s, bump, capacity) {
        assert rec[0].bump == Global;
      }
    }
  }

  /** The same over any run of bumps. */
  lemma {:induction false} RunAdvances(s: Fences, bumps: seq<Bump>, capacity: nat, tab: nat, frame: nat)
    requires Bounded(s, capacity) && capacity >= 1
    ensures var t := RunFences(s, bumps, capacity);
            var log := RunLog(s, bumps, capacity);
            && Bounded(t, capacity)
            && t.generation >= s.generation
            && (t.generation == s.generation ==>
                  && t.sequence >= s.sequence
                  && if LogAffects(log, tab, frame) then Height(t, tab, frame) > s.sequence
                     else Height(t, tab, frame) == Height(s, tab, frame))
    decreases |bumps|
  {
    assert !LogAffects([], tab, frame);
    hide Height, Bounded, Apply, Recorded, Stamped, LogAffects;
    if bumps == [] {
      assert RunLog(s, bumps, capacity) == [];
    } else {
      var m := Apply(s, bumps[0], capacity);
      ApplyAdvances(s, bumps[0], capacity, tab, frame);
      RunAdvances(m, bumps[1..], capacity, tab, frame);
      LogAffectsConcat(Recorded(s, bumps[0], capacity), RunLog(m, bumps[1..], capacity), tab, frame);
    }
  }

  /** The coordinator's five comparisons are one comparison with the height. */
  lemma {:induction false} CurrentMeansLow(t: Fences, fence: Fence, tab: nat, frame: nat)
    ensures FenceCurrent(t, fence, tab, frame)
            <==> t.generation == fence.generation && Height(t, tab, frame) <= fence.sequence
  {
  }

  lemma {:induction false} HeightIsBounded(s: Fences, capacity: nat, tab: nat, frame: nat)
    requires Bounded(s, capacity)
    ensures Height(s, tab, frame) <= s.sequence
  {
  }

  /**
   The bounded maps are exact. A fence taken in any valid state is still accepted after any run of
   bumps if and only if no new generation has started and nothing recorded since then (the bumps
   themselves and the global bumps a full map forced) affects the frame.
   */
  lemma {:induction false} FenceExact(s: Fences, bumps: seq<Bump>, capacity: nat, tab: nat, frame: nat)
    requires Bounded(s, capacity) && capacity >= 1
    ensures var t := RunFences(s, bumps, capacity);
            FenceCurrent(t, CaptureFence(s), tab, frame)
            <==> t.generation == s.generation && !LogAffects(RunLog(s, bumps, capacity), tab, frame)
  {
    hide RunFences, RunLog, LogAffects;
    RunAdvances(s, bumps, capacity, tab, frame);
    CurrentMeansLow(RunFences(s, bumps, capacity), CaptureFence(s), tab, frame);
    HeightIsBounded(s, capacity, tab, frame);
  }

  lemma {:induction false} RunLogHoldsEveryBump(s: Fences, bumps: seq<Bump>, capacity: nat, i: nat)
      returns (j: nat)
    requires i < |bumps|
    ensures j < |RunLog(s, bumps, capacity)| && RunLog(s, bumps, capacity)[j].bump == bumps[i]
    decreases |bumps|
  {
    var first := Recorded(s, bumps[0], capacity);
    if i == 0 {
      j := |first| - 1;
    } else {
      j := RunLogHoldsEveryBump(Apply(s, bumps[0], capacity), bumps[1..], capacity, i - 1);
      j := |first| + j;
    }
  }

  /** Soundness against the events themselves: an accepted fence has seen no bump for its frame. */
  lemma {:induction false} FenceSound(s: Fences, bumps: seq<Bump>, capacity: nat, tab: nat, frame: nat)
    requires Bounded(s, capacity) && capacity >= 1
    requires FenceCurrent(RunFences(s, bumps, capacity), CaptureFence(s), tab, frame)
    ensures forall i :: 0 <= i < |bumps| ==> !Affects(bumps[i], tab, frame)
  {
    FenceExact(s, bumps, capacity, tab, frame);
    forall i | 0 <= i < |bumps| ensures !Affects(bumps[i], tab, frame) {
      var j := RunLogHoldsEveryBump(s, bumps, capacity, i);
      assert !Affects(RunLog(s, bumps, capacity)[j].bump, tab, frame);
    }
  }

  /** A full map costs precision, not safety: here a bump in tab 2 rejects a fence for tab 1. */
  lemma {:induction false} OverflowRejectsAnUnrelatedFence()
    ensures var s := BumpRuntimeFrame(INITIAL_FENCES, 3, 0, 1);
            var t := BumpRuntimeFrame(s, 2, 0, 1);
            && !Affects(RuntimeFrame(2, 0), 1, 0)
            && !FenceCurrent(t, CaptureFence(s), 1, 0)
  {
    var s := BumpRuntimeFrame(INITIAL_FENCES, 3, 0, 1);
    assert s.runtimeFrames == map[(3, 0) := 1];
    assert |s.runtimeFrames| == 1;
  }

  // ---------------------------------------------------------------------------------------------
  // The coordinator's own fields
  // ---------------------------------------------------------------------------------------------

  class ConfirmationFences {
    var generation: nat
    var sequence: nat
    var globalSequence: nat
    var runtimeTabs: map<nat, nat>
    var runtimeFrames: map<FrameKey, nat>
    var networkTabs: map<nat, nat>
    var networkFrames: map<FrameKey, nat>
    const capacity: nat

    function State(): Fences
      reads this
    {
      Fences(generation, sequence, globalSequence, runtimeTabs, runtimeFrames, networkTabs, networkFrames)
    }

    ghost predicate Valid()
      reads this
    {
      capacity >= 1 && Bounded(State(), capacity)
    }

    constructor (capacity: nat)
      requires capacity >= 1
      ensures Valid() && State() == INITIAL_FENCES && this.capacity == capacity
    {
      this.capacity := capacity;
      generation, sequence, globalSequence := 0, 0, 0;
      runtimeTabs, runtimeFrames, networkTabs, networkFrames := map[], map[], map[], map[];
    }

    method NextSequence() returns (next: nat)
      modifies this
      ensures State() == Next(old(State())) && next == sequence
    {
      if sequence >= MAX_SAFE_INTEGER {
        generation := generation + 1;
        sequence := 0;
        globalSequence := 0;
        ClearMaps();
      }
      sequence := sequence + 1;
      next := sequence;
    }

    method ClearMaps()
      modifies this
      ensures State() == old(State()).(runtimeTabs := map[], runtimeFrames := map[],
                                       networkTabs := map[], networkFrames := map[])
    {
      runtimeTabs, runtimeFrames, networkTabs, networkFrames := map[], map[], map[], map[];
    }

    method RecordGlobal()
      modifies this
      ensures State() == BumpGlobal(old(State()))
    {
      globalSequence := NextSequence();
      ClearMaps();
    }

    method RecordRuntimeTab(tab: nat)
      requires Valid()
      modifies this
      ensures Valid() && State() == BumpRuntimeTab(old(State()), tab, capacity)
    {
      ghost var s := State();
      if tab !in runtimeTabs && |runtimeTabs| >= capacity {
        RecordGlobal();
      }
      assert State() == MakeRoom(s, s.runtimeTabs, tab, capacity);
      var next := NextSequence();
      runtimeTabs := runtimeTabs[tab := next];
      runtimeFrames := DeleteFrames(runtimeFrames, tab);
      assert State() == Apply(s, RuntimeTab(tab), capacity);
      ApplyAdvances(s, RuntimeTab(tab), capacity, tab, 0);
    }

    method RecordRuntimeFrame(tab: nat, frame: nat)
      requires Valid()
      modifies this
      ensures Valid() && State() == BumpRuntimeFrame(old(State()), tab, frame, capacity)
    {
      ghost var s := State();
      if (tab, frame) !in runtimeFrames && |runtimeFrames| >= capacity {
        RecordGlobal();
      }
      assert State() == MakeRoom(s, s.runtimeFrames, (tab, frame), capacity);
      var next := NextSequence();
      runtimeFrames := runtimeFrames[(tab, frame) := next];
      assert State() == Apply(s, RuntimeFrame(tab, frame), capacity);
      ApplyAdvances(s, RuntimeFrame(tab, frame), capacity, tab, 0);
    }

    method RecordNetworkTab(tab: nat)
      requires Valid()
      modifies this
      ensures Valid() && State() == BumpNetworkTab(old(State()), tab, capacity)
    {
      ghost var s := State();
      if tab !in networkTabs && |networkTabs| >= capacity {
        RecordGlobal();
      }
      assert State() == MakeRoom(s, s.networkTabs, tab, capacity);
      var next := NextSequence();
      networkTabs := networkTabs[tab := next];
      networkFrames := DeleteFrames(networkFrames, tab);
      assert State() == Apply(s, NetworkTab(tab), capacity);
      ApplyAdvances(s, NetworkTab(tab), capacity, tab, 0);
    }

    method RecordNetworkFrame(tab: nat, frame: nat)
      requires Valid()
      modifies this
      ensures Valid() && State() == BumpNetworkFrame(old(State()), tab, frame, capacity)
    {
      ghost var s := State();
      if (tab, frame) !in networkFrames && |networkFrames| >= capacity {
        RecordGlobal();
      }
      assert State() == MakeRoom(s, s.networkFrames, (tab, frame), capacity);
      var next := NextSequence();
      networkFrames := networkFrames[(tab, frame) := next];
      assert State() == Apply(s, NetworkFrame(tab, frame), capacity);
      ApplyAdvances(s, NetworkFrame(tab, frame), capacity, tab, 0);
    }
  }

  /** Walk the keys and drop those of one tab. */
  method DeleteFrames(frames: map<FrameKey, nat>, tab: nat) returns (kept: map<FrameKey, nat>)
    ensures kept == WithoutTab(frames, tab)
    ensures forall key :: key in kept <==> key in frames && key.0 != tab
  {
    kept := frames;
    var rest := frames.Keys;
    while rest != {}
      invariant rest <= frames.Keys
      invariant kept.Keys == frames.Keys - set key | key in frames.Keys - rest && key.0 == tab
      invariant forall key | key in kept :: kept[key] == frames[key]
      decreases |rest|
    {
      var key :| key in rest;
      rest := rest - {key};
      if key.0 == tab {
        kept := kept - {key};
      }
    }
  }
}
