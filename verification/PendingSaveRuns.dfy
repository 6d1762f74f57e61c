/**
 Over any run of the pending-save store: what is taken is what was put, nothing is taken twice, nothing
 unconfirmed is ever claimed, and every envelope written can be read again.
 */
module PendingSaveRuns {
  import opened Numbers
  import opened Sequences
  import opened StoreModel
  import opened PendingSaveSteps

  /** One operation of the lane, with what the environment supplied. A restart forgets the high-water revision. */
  datatype Op =
    | Put(now: nat, input: Input, credentials: Credentials, user: nat, confirmation: Confirmation, candidates: seq<Id>, iv: nat,
          guard: bool, o: StoreOutcome)
    | Confirm(now: nat, expected: Base, user: nat, iv: nat, guardBefore: bool, guardAfter: bool, o: StoreOutcome, rollback: StoreOutcome)
    | Discard(now: nat, id: Id, o: StoreOutcome)
    | MakeClaim(now: nat, ctx: Context, user: nat, evaluate: (Credentials, nat) -> Option<Decision>, captureId: Option<Id>,
                candidates: seq<Id>, iv: nat, guard: bool, o: StoreOutcome)
    | Take(now: nat, promptId: Id, ctx: Context, user: nat, guard: bool, o: StoreOutcome)
    | Dismiss(now: nat, promptId: Id, ctx: Context, guard: bool, o: StoreOutcome)
    | ClearTab(now: nat, tab: nat, o: StoreOutcome)
    | Clear(now: nat, o: StoreOutcome)
    | Refresh(now: nat, o: StoreOutcome)
    | Restart

  function Apply(s: State, op: Op, cfg: Config): State {
    match op
    case Put(now, input, credentials, user, confirmation, candidates, iv, guard, o) =>
      PutStep(s, now, input, credentials, user, confirmation, candidates, iv, guard, o, cfg).state
    case Confirm(now, expected, user, iv, guardBefore, guardAfter, o, rollback) =>
      ConfirmStep(s, now, expected, user, iv, guardBefore, guardAfter, o, rollback, cfg).state
    case Discard(now, id, o) => DiscardStep(s, now, id, o, cfg).state
    case MakeClaim(now, ctx, user, evaluate, captureId, candidates, iv, guard, o) =>
      ClaimStep(s, now, ctx, user, evaluate, captureId, candidates, iv, guard, o, cfg).state
    case Take(now, promptId, ctx, user, guard, o) => TakeStep(s, now, promptId, ctx, user, guard, o, cfg).state
    case Dismiss(now, promptId, ctx, guard, o) => DismissStep(s, now, promptId, ctx, guard, o, cfg).state
    case ClearTab(now, tab, o) => ClearTabStep(s, now, tab, o, cfg).state
    case Clear(now, o) => ClearStep(s, now, o, cfg).state
    case Refresh(now, o) => RefreshStep(s, now, o, cfg).state
    case Restart => s.(highWater := 0)
  }

  function Run(s: State, ops: seq<Op>, cfg: Config): State
    decreases |ops|
  {
    if ops == [] then s else Run(Apply(s, ops[0], cfg), ops[1..], cfg)
  }

  function Stored(s: State): seq<Entry> {
    if s.stored.Envelope? then s.stored.entries else []
  }

  // ---------------------------------------------------------------------------------------------
  // The history of a run
  // ---------------------------------------------------------------------------------------------

  /** What was put under an entry id. */
  datatype Original = Original(user: nat, input: Input, credentials: Credentials)

  datatype History = History(originals: map<Id, Original>, confirmed: set<Id>, taken: set<Id>, used: set<Id>)

  const NO_HISTORY: History := History(map[], {}, {}, {})

  /** The id a put gives its entry, if it gets that far. */
  function PutId(s: State, op: Op, cfg: Config): Option<Id>
    requires op.Put?
  {
    FreshId(Read(s, op.now, false, cfg).1.entries, op.candidates)
  }

  /** The entries a put leaves when it gives its entry this id. */
  function PutEntries(s: State, op: Op, id: Id, cfg: Config): seq<Entry>
    requires op.Put?
  {
    var (t, p) := Read(s, op.now, false, cfg);
    var e := Sealed(Base(id, op.input, op.now, op.now + cfg.ttl, op.confirmation), op.credentials, op.user, op.iv);
    TrimToFit(t, p.revision, Last(Sorted(Filter(p.entries, OtherSlot(op.input)) + [e]), cfg.capacity), cfg)
  }

  /** Does this put end in a write that fits and takes effect? */
  predicate PutWrites(s: State, op: Op, cfg: Config)
    requires op.Put?
  {
    var (t, p) := Read(s, op.now, false, cfg);
    var id := PutId(s, op, cfg);
    && id.Some? && op.now + cfg.ttl <= MAX_SAFE_INTEGER
    && FitsNext(t, p.revision, PutEntries(s, op, id.value, cfg), cfg) && op.guard && op.o.commits
  }

  /** Has the confirmation found its entry, opened it, and got the guard's consent? */
  predicate ConfirmReaches(s: State, op: Op, cfg: Config)
    requires op.Confirm?
  {
    var p := Read(s, op.now, false, cfg).1;
    var i := FindEntry(p.entries, op.expected.entryId);
    && i.Some? && SameMetadata(p.entries[i.value].base, op.expected) && IsUnconfirmed(p.entries[i.value])
    && CredentialsOf(p.entries[i.value], op.user).Some? && op.guardBefore
  }

  function ConfirmedEntries(s: State, op: Op, cfg: Config): seq<Entry>
    requires op.Confirm? && ConfirmReaches(s, op, cfg)
  {
    var p := Read(s, op.now, false, cfg).1;
    var e := p.entries[FindEntry(p.entries, op.expected.entryId).value];
    Replaced(p.entries, e.base.entryId, ConfirmedForm(e, CredentialsOf(e, op.user).value, op.user, op.iv))
  }

  /** Does this confirmation end in a write that fits and takes effect? */
  predicate ConfirmWrites(s: State, op: Op, cfg: Config)
    requires op.Confirm?
  {
    var (t, p) := Read(s, op.now, false, cfg);
    ConfirmReaches(s, op, cfg) && FitsNext(t, p.revision, ConfirmedEntries(s, op, cfg), cfg) && op.o.commits
  }

  /** Was it taken back, because the guard withdrew its consent and the second write took effect? */
  predicate RolledBack(s: State, op: Op, cfg: Config)
    requires op.Confirm?
  {
    var (t, p) := Read(s, op.now, false, cfg);
    && ConfirmWrites(s, op, cfg) && !op.o.throws && !op.guardAfter && op.rollback.commits
    && FitsNext(Write(t, p.revision, ConfirmedEntries(s, op, cfg), op.o, cfg).state, p.revision, p.entries, cfg)
  }

  /** The entry an operation leaves confirmed that was not, or was not there. */
  function ConfirmedNow(s: State, op: Op, cfg: Config): Option<Id> {
    if op.Put? && op.confirmation == Confirmed && PutWrites(s, op, cfg) then PutId(s, op, cfg)
    else if op.Confirm? && ConfirmWrites(s, op, cfg) && !RolledBack(s, op, cfg) then Some(op.expected.entryId)
    else None
  }

  /** The entry whose credentials a take hands out. */
  function TakenNow(s: State, op: Op, cfg: Config): Option<Id> {
    if op.Take? && TakeStep(s, op.now, op.promptId, op.ctx, op.user, op.guard, op.o, cfg).answer.Ok?
       && TakeStep(s, op.now, op.promptId, op.ctx, op.user, op.guard, op.o, cfg).answer.value.Some?
    then
      var p := Read(s, op.now, false, cfg).1;
      var i := IndexOf(p.entries, HeldPrompt(op.promptId, op.ctx));
      if i.Some? then Some(p.entries[i.value].base.entryId) else None
    else None
  }

  function Drawn(op: Op): set<Id> {
    if op.Put? || op.MakeClaim? then set id | id in op.candidates else {}
  }

  function After(h: History, s: State, op: Op, cfg: Config): History {
    var t := TakenNow(s, op, cfg);
    History(
      if op.Put? && PutId(s, op, cfg).Some?
      then h.originals[PutId(s, op, cfg).value := Original(op.user, op.input, op.credentials)] else h.originals,
      var c := ConfirmedNow(s, op, cfg);
      if c.Some? then h.confirmed + {c.value}
      else if op.Confirm? && RolledBack(s, op, cfg) then h.confirmed - {op.expected.entryId}
      else h.confirmed,
      if t.Some? then h.taken + {t.value} else h.taken,
      h.used + Drawn(op))
  }

  /** Ids never repeat, and a write that reports success has taken effect. */
  predicate Possible(op: Op, used: set<Id>, clock: nat) {
    && Drawn(op) !! used
    && (op.Restart? || (clock <= op.now <= MAX_SAFE_INTEGER && (op.o.commits || op.o.throws)))
    && (op.Confirm? ==> op.rollback.commits || op.rollback.throws)
  }

  function ClockAfter(op: Op, clock: nat): nat {
    if op.Restart? then clock else op.now
  }

  // ---------------------------------------------------------------------------------------------
  // Entries and their originals
  // ---------------------------------------------------------------------------------------------

  /** The box holds what was put, under the key it was put with, bound to what the entry now says of itself; a claim is sealed under that key too. */
  ghost predicate Genuine(e: Entry, h: History) {
    && e.base.entryId in h.originals
    && Holds(e, h.originals[e.base.entryId])
    && (e.claim.Some? ==> e.claim.value.decision.key == e.box.key)
    && (e.base.confirmation == Confirmed ==> e.base.entryId in h.confirmed)
    && e.base.entryId !in h.taken && e.base.entryId in h.used
  }

  predicate Holds(e: Entry, o: Original) {
    e.box.key == EncryptionKey(o.user) && e.box.aad == e.base && e.box.plain == o.credentials && e.base.input == o.input
  }

  ghost predicate AllGenuine(entries: seq<Entry>, h: History) {
    forall e :: e in entries ==> Genuine(e, h)
  }

  /** Readable at any time from `clock` on. */
  ghost predicate Legible(s: State, clock: nat, cfg: Config) {
    s.stored.Envelope? ==>
      && 0 < s.stored.revision <= MAX_SAFE_INTEGER && |s.stored.entries| <= cfg.capacity
      && WellFormed(s.stored.entries, clock) && cfg.fits(s.stored.revision, s.stored.entries)
  }

  ghost predicate Inv(s: State, h: History, clock: nat, cfg: Config) {
    && ValidConfig(cfg)
    && !s.stored.Garbage?
    && AllGenuine(Stored(s), h) && Legible(s, clock, cfg)
    && s.highWater <= MAX_SAFE_INTEGER
    && (forall id :: id in h.originals || id in h.confirmed || id in h.taken ==> id in h.used)
  }

  // ---------------------------------------------------------------------------------------------
  // Lists that lose or rearrange entries
  // ---------------------------------------------------------------------------------------------

  lemma {:induction false} TwiceInside(s: seq<Entry>, i: nat, j: nat)
    requires i < j < |s| && s[i] == s[j]
    ensures multiset(s)[s[i]] >= 2
  {
    assert s == s[..j] + s[j..];
    assert s[i] in s[..j] && s[i] in s[j..] by { assert s[..j][i] == s[i]; assert s[j..][0] == s[j]; }
    assert multiset(s) == multiset(s[..j]) + multiset(s[j..]);
  }

  lemma {:induction false} OnceInside(s: seq<Entry>, x: Entry)
    requires DistinctIds(s)
    ensures multiset(s)[x] <= 1
  {
    if s != [] {
      assert s == [s[0]] + s[1..];
      assert forall i, j :: 0 <= i < j < |s[1..]| ==> s[1..][i].base.entryId != s[1..][j].base.entryId by {
        forall i, j | 0 <= i < j < |s[1..]| ensures s[1..][i].base.entryId != s[1..][j].base.entryId {
          assert s[1..][i] == s[i + 1] && s[1..][j] == s[j + 1];
        }
      }
      OnceInside(s[1..], x);
      forall k | 0 <= k < |s[1..]| ensures s[1..][k] != s[0] {
        assert s[1..][k] == s[k + 1];
      }
    }
  }

  lemma {:induction false} DistinctPermuted(a: seq<Entry>, b: seq<Entry>)
    requires DistinctIds(a) && multiset(a) == multiset(b)
    ensures DistinctIds(b)
  {
    MembersOfPermutation(a, b);
    forall i, j | 0 <= i < j < |b| ensures b[i].base.entryId != b[j].base.entryId {
      OnceInside(a, b[i]);
      if b[i] == b[j] {
        TwiceInside(b, i, j);
      } else {
        assert b[i] in a && b[j] in a;
        var m :| 0 <= m < |a| && a[m] == b[i];
        var n :| 0 <= n < |a| && a[n] == b[j];
        assert m != n;
      }
    }
  }

  lemma {:induction false} WellFormedPart(a: seq<Entry>, b: seq<Entry>, now: nat)
    requires WellFormed(a, now) && DistinctIds(b) && forall e :: e in b ==> e in a
    ensures WellFormed(b, now)
  {
  }

  lemma {:induction false} WellFormedFilter(a: seq<Entry>, keep: Entry -> bool, now: nat)
    requires WellFormed(a, now)
    ensures WellFormed(Filter(a, keep), now)
  {
    hide Filter;
    FilterDistinct(a, keep, IdOf());
    WellFormedPart(a, Filter(a, keep), now);
  }

  lemma {:induction false} WellFormedSorted(a: seq<Entry>, now: nat)
    requires WellFormed(a, now)
    ensures WellFormed(Sorted(a), now)
  {
    hide Sorted;
    DistinctPermuted(a, Sorted(a));
    MembersOfPermutation(a, Sorted(a));
    WellFormedPart(a, Sorted(a), now);
  }

  lemma {:induction false} WellFormedSuffix(a: seq<Entry>, n: nat, now: nat)
    requires WellFormed(a, now) && n <= |a|
    ensures WellFormed(a[n..], now)
  {
    assert DistinctIds(a[n..]);
    WellFormedPart(a, a[n..], now);
  }

  lemma {:induction false} WellFormedLater(a: seq<Entry>, now: nat, later: nat)
    requires WellFormed(a, now) && now <= later
    ensures WellFormed(a, later)
  {
    forall e | e in a ensures EntryOk(e, later) {
      assert EntryOk(e, now);
    }
  }

  /** The same entry, its claim kept or taken back. */
  predicate SameButClaim(e: Entry, f: Entry) {
    f == e || f == e.(claim := None)
  }

  lemma {:induction false} LiveMember(entries: seq<Entry>, now: nat, reclaim: bool, f: Entry) returns (e: Entry)
    requires f in Live(entries, now, reclaim)
    ensures e in entries && SameButClaim(e, f) && !Expired(e, now)
  {
    e :| e in entries && LiveForm(now, reclaim)(e) == Some(f);
  }

  lemma {:induction false} LiveDistinct(entries: seq<Entry>, now: nat, reclaim: bool)
    requires DistinctIds(entries)
    ensures DistinctIds(Live(entries, now, reclaim))
  {
    if entries != [] {
      var rest := entries[1..];
      forall i, j | 0 <= i < j < |rest| ensures rest[i].base.entryId != rest[j].base.entryId {
        assert rest[i] == entries[i + 1] && rest[j] == entries[j + 1];
      }
      LiveDistinct(rest, now, reclaim);
      var r := Live(rest, now, reclaim);
      var head := LiveForm(now, reclaim)(entries[0]);
      assert Live(entries, now, reclaim) == (match head case None => [] case Some(f) => [f]) + r;
      forall j | 0 <= j < |r| ensures r[j].base.entryId != entries[0].base.entryId {
        var e := LiveMember(rest, now, reclaim, r[j]);
        var i :| 0 <= i < |rest| && rest[i] == e;
        assert entries[i + 1] == e;
      }
    }
  }

  lemma {:induction false} WellFormedLive(entries: seq<Entry>, now: nat, reclaim: bool)
    requires WellFormed(entries, now)
    ensures WellFormed(Live(entries, now, reclaim), now)
  {
    hide Live;
    var r := Live(entries, now, reclaim);
    LiveDistinct(entries, now, reclaim);
    forall f | f in r ensures EntryOk(f, now) {
      var e := LiveMember(entries, now, reclaim, f);
      assert EntryOk(e, now);
    }
    forall f, g | f in r && g in r && f.claim.Some?
      ensures f.claim.value.lease.promptId != g.base.entryId
      ensures g.claim.Some? && f.base.entryId != g.base.entryId ==> f.claim.value.lease.promptId != g.claim.value.lease.promptId
    {
      var e := LiveMember(entries, now, reclaim, f);
      var e' := LiveMember(entries, now, reclaim, g);
    }
  }

  // ---------------------------------------------------------------------------------------------
  // Reading and writing
  // ---------------------------------------------------------------------------------------------

  /** What a read delivers: stored entries, some without their claim; the state keeps its envelope. */
  lemma {:induction false} ReadKeeps(s: State, h: History, clock: nat, now: nat, reclaim: bool, cfg: Config)
    requires Inv(s, h, clock, cfg) && clock <= now
    ensures var (t, p) := Read(s, now, reclaim, cfg);
            && Inv(t, h, clock, cfg) && t.stored == s.stored
            && AllGenuine(p.entries, h) && WellFormed(p.entries, now) && |p.entries| <= cfg.capacity
            && p.revision <= MAX_SAFE_INTEGER
            && (forall f :: f in p.entries ==> exists e :: e in Stored(s) && SameButClaim(e, f))
  {
    hide Sorted, Live, Genuine, EntryOk, WellFormed, ParsedForm;
    if s.stored.Envelope? {
      WellFormedLater(s.stored.entries, clock, now);
      ParsedKeeps(s.stored.revision, s.stored.entries, h, now, reclaim, cfg);
    }
    assert WellFormed([], now) by { NothingWellFormed(now); }
  }

  lemma {:induction false} NothingWellFormed(now: nat)
    ensures WellFormed([], now)
  {
  }

  lemma {:induction false} ParsedKeeps(revision: nat, entries: seq<Entry>, h: History, now: nat, reclaim: bool, cfg: Config)
    requires WellFormed(entries, now) && AllGenuine(entries, h)
    ensures var p := ParsedForm(revision, entries, now, reclaim, cfg);
            && AllGenuine(p.entries, h) && WellFormed(p.entries, now) && |p.entries| <= cfg.capacity && p.revision == revision
            && (forall f :: f in p.entries ==> exists e :: e in entries && SameButClaim(e, f))
  {
    hide Sorted, Live, Genuine, EntryOk, WellFormed;
    WellFormedLive(entries, now, reclaim);
    var live := Live(entries, now, reclaim);
    WellFormedSorted(live, now);
    MembersOfPermutation(live, Sorted(live));
    if |live| > cfg.capacity {
      WellFormedSuffix(Sorted(live), |live| - cfg.capacity, now);
    }
    var p := ParsedForm(revision, entries, now, reclaim, cfg);
    forall f | f in p.entries ensures Genuine(f, h) && exists e :: e in entries && SameButClaim(e, f) {
      assert f in live;
      var e := LiveMember(entries, now, reclaim, f);
      SameGenuine(e, f, h);
    }
  }

  lemma {:induction false} SameGenuine(e: Entry, f: Entry, h: History)
    requires Genuine(e, h) && SameButClaim(e, f)
    ensures Genuine(f, h)
  {
  }

  lemma {:induction false} WriteKeeps(s: State, h: History, now: nat, revision: nat, entries: seq<Entry>, o: StoreOutcome, cfg: Config)
    requires Inv(s, h, now, cfg) && AllGenuine(entries, h) && WellFormed(entries, now) && |entries| <= cfg.capacity
    requires revision <= MAX_SAFE_INTEGER
    ensures Inv(Write(s, revision, entries, o, cfg).state, h, now, cfg)
  {
    hide Genuine, WellFormed;
  }

  /** Time passing breaks nothing. */
  lemma {:induction false} InvLater(s: State, h: History, clock: nat, later: nat, cfg: Config)
    requires Inv(s, h, clock, cfg) && clock <= later
    ensures Inv(s, h, later, cfg)
  {
    hide Genuine;
    if s.stored.Envelope? {
      WellFormedLater(s.stored.entries, clock, later);
    }
  }

  // ---------------------------------------------------------------------------------------------
  // Every operation keeps the invariant
  // ---------------------------------------------------------------------------------------------

  /** A list of entries that may be written. */
  ghost predicate Good(entries: seq<Entry>, h: History, now: nat, cfg: Config) {
    AllGenuine(entries, h) && WellFormed(entries, now) && |entries| <= cfg.capacity
  }

  lemma {:induction false} GuardedKeeps<T>(s: State, h: History, now: nat, revision: nat, entries: seq<Entry>, guard: bool, o: StoreOutcome, cfg: Config, value: T)
    requires Inv(s, h, now, cfg) && Good(entries, h, now, cfg) && revision <= MAX_SAFE_INTEGER
    ensures Inv(Answering(s, revision, entries, o, cfg, value).state, h, now, cfg)
    ensures Inv(Guarded(s, revision, entries, guard, o, cfg, value).state, h, now, cfg)
  {
    hide Inv, AllGenuine, WellFormed, Write;
    WriteKeeps(s, h, now, revision, entries, o, cfg);
  }

  lemma {:induction false} ReadGood(s0: State, h: History, clock: nat, now: nat, reclaim: bool, cfg: Config)
    requires Inv(s0, h, clock, cfg) && clock <= now
    ensures var (s, p) := Read(s0, now, reclaim, cfg);
            Inv(s, h, now, cfg) && Good(p.entries, h, now, cfg) && p.revision <= MAX_SAFE_INTEGER
  {
    hide AllGenuine, WellFormed, Read, Legible;
    ReadKeeps(s0, h, clock, now, reclaim, cfg);
    InvLater(Read(s0, now, reclaim, cfg).0, h, clock, now, cfg);
  }

  lemma {:induction false} GoodFilter(entries: seq<Entry>, keep: Entry -> bool, h: History, now: nat, cfg: Config)
    requires Good(entries, h, now, cfg)
    ensures Good(Filter(entries, keep), h, now, cfg)
  {
    hide Genuine, WellFormed, Filter;
    WellFormedFilter(entries, keep, now);
  }

  /** History that grows by unused ids leaves stored entries genuine. */
  lemma {:induction false} InvGrows(s: State, h: History, k: History, clock: nat, cfg: Config)
    requires Inv(s, h, clock, cfg)
    requires h.originals.Keys <= k.originals.Keys && k.taken == h.taken && h.confirmed <= k.confirmed && h.used <= k.used
    requires forall id :: id in h.used && id in h.originals ==> k.originals[id] == h.originals[id]
    requires forall id :: id in k.originals || id in k.confirmed ==> id in k.used
    ensures Inv(s, k, clock, cfg)
  {
    hide WellFormed;
  }

  lemma {:induction false} GoodAppend(entries: seq<Entry>, e: Entry, h: History, now: nat)
    requires AllGenuine(entries, h) && WellFormed(entries, now) && Genuine(e, h) && EntryOk(e, now)
    requires e.claim.None? && !Collides(entries, e.base.entryId)
    ensures AllGenuine(entries + [e], h) && WellFormed(entries + [e], now)
  {
    hide Genuine, EntryOk;
  }

  lemma {:induction false} GoodSuffix(entries: seq<Entry>, n: nat, h: History, now: nat)
    requires AllGenuine(entries, h) && WellFormed(entries, now) && n <= |entries|
    ensures AllGenuine(entries[n..], h) && WellFormed(entries[n..], now)
  {
    hide Genuine, EntryOk, WellFormed;
    WellFormedSuffix(entries, n, now);
  }

  lemma {:induction false} PutKeeps(s0: State, op: Op, h: History, clock: nat, cfg: Config)
    requires Inv(s0, h, clock, cfg) && op.Put? && Possible(op, h.used, clock)
    ensures Inv(Apply(s0, op, cfg), After(h, s0, op, cfg), op.now, cfg)
  {
    hide Inv, Genuine, WellFormed, Read, Sorted, Filter, FitsNext, TrimToFit, Write, Collides, FreshId, AllGenuine, After, PutEntries,
         PutId, Good;
    var k := After(h, s0, op, cfg);
    assert Inv(s0, k, clock, cfg) by { PutHistory(s0, op, h, clock, cfg); }
    ReadGood(s0, k, clock, op.now, false, cfg);
    var (s, p) := Read(s0, op.now, false, cfg);
    PutShape(s0, op, cfg);
    var id := PutId(s0, op, cfg);
    if id.Some? && op.now + cfg.ttl <= MAX_SAFE_INTEGER {
      var kept := PutEntries(s0, op, id.value, cfg);
      var base := Base(id.value, op.input, op.now, op.now + cfg.ttl, op.confirmation);
      if PutWrites(s0, op, cfg) {
        PutEntriesGood(s0, op, h, clock, cfg);
        GuardedKeeps(s, k, op.now, p.revision, kept, true, op.o, cfg, base);
      } else if !op.o.commits {
        UnwrittenKeeps(s, k, op.now, p.revision, kept, op.o, cfg, base);
      }
    }
  }

  /** A put stops short, or writes the entries it leaves. */
  lemma {:induction false} PutShape(s0: State, op: Op, cfg: Config)
    requires op.Put?
    ensures var (s, p) := Read(s0, op.now, false, cfg);
            var id := PutId(s0, op, cfg);
            Apply(s0, op, cfg) ==
            if id.None? || op.now + cfg.ttl > MAX_SAFE_INTEGER then s
            else
              var kept := PutEntries(s0, op, id.value, cfg);
              if !FitsNext(s, p.revision, kept, cfg) || !op.guard then s
              else Answering(s, p.revision, kept, op.o, cfg,
                             Base(id.value, op.input, op.now, op.now + cfg.ttl, op.confirmation)).state
  {
    hide Read, Sorted, Filter, FitsNext, TrimToFit, Write, Collides, FreshId;
  }

  /** A write that does not take effect changes nothing that matters. */
  lemma {:induction false} UnwrittenKeeps<T>(s: State, h: History, now: nat, revision: nat, entries: seq<Entry>, o: StoreOutcome, cfg: Config, value: T)
    requires Inv(s, h, now, cfg) && !o.commits && revision <= MAX_SAFE_INTEGER
    ensures Inv(Answering(s, revision, entries, o, cfg, value).state, h, now, cfg)
    ensures Inv(Write(s, revision, entries, o, cfg).state, h, now, cfg)
  {
    hide Genuine, WellFormed;
  }

  lemma {:induction false} PutEntriesGood(s0: State, op: Op, h: History, clock: nat, cfg: Config)
    requires Inv(s0, h, clock, cfg) && op.Put? && Possible(op, h.used, clock) && PutWrites(s0, op, cfg)
    ensures Good(PutEntries(s0, op, PutId(s0, op, cfg).value, cfg), After(h, s0, op, cfg), op.now, cfg)
  {
    hide Inv, Genuine, WellFormed, Read, Sorted, Filter, FitsNext, TrimToFit, Write, Collides, FreshId, AllGenuine, After;
    var k := After(h, s0, op, cfg);
    assert Inv(s0, k, clock, cfg) by { PutHistory(s0, op, h, clock, cfg); }
    ReadGood(s0, k, clock, op.now, false, cfg);
    var (s, p) := Read(s0, op.now, false, cfg);
    var id := PutId(s0, op, cfg).value;
    var e := Sealed(Base(id, op.input, op.now, op.now + cfg.ttl, op.confirmation), op.credentials, op.user, op.iv);
    var others := Filter(p.entries, OtherSlot(op.input));
    GoodFilter(p.entries, OtherSlot(op.input), k, op.now, cfg);
    FilteredFree(p.entries, OtherSlot(op.input), id);
    NewEntryGood(s0, op, h, clock, cfg, e);
    GoodAppend(others, e, k, op.now);
    var all := Sorted(others + [e]);
    WellFormedSorted(others + [e], op.now);
    MembersOfPermutation(others + [e], all);
    assert AllGenuine(all, k) by { SameMembersGenuine(others + [e], all, k); }
    var last := Last(all, cfg.capacity);
    if |all| > cfg.capacity {
      GoodSuffix(all, |all| - cfg.capacity, k, op.now);
    }
    var kept := TrimToFit(s, p.revision, last, cfg);
    GoodSuffix(last, |last| - |kept|, k, op.now);
  }

  lemma {:induction false} SameMembersGenuine(a: seq<Entry>, b: seq<Entry>, h: History)
    requires AllGenuine(a, h) && forall e :: e in b ==> e in a
    ensures AllGenuine(b, h)
  {
    hide Genuine;
  }

  lemma {:induction false} FilteredFree(entries: seq<Entry>, keep: Entry -> bool, id: Id)
    requires !Collides(entries, id)
    ensures !Collides(Filter(entries, keep), id)
  {
    hide Filter;
  }

  lemma {:induction false} PutHistory(s0: State, op: Op, h: History, clock: nat, cfg: Config)
    requires Inv(s0, h, clock, cfg) && op.Put? && Possible(op, h.used, clock)
    ensures Inv(s0, After(h, s0, op, cfg), clock, cfg)
  {
    hide WellFormed, Read, TakeStep, Collides, PutEntries, FitsNext;
    var k := After(h, s0, op, cfg);
    var id := PutId(s0, op, cfg);
    assert id.Some? ==> id.value in Drawn(op) && id.value !in h.used;
    InvGrows(s0, h, k, clock, cfg);
  }

  lemma {:induction false} NewEntryGood(s0: State, op: Op, h: History, clock: nat, cfg: Config, e: Entry)
    requires Inv(s0, h, clock, cfg) && op.Put? && Possible(op, h.used, clock) && PutWrites(s0, op, cfg)
    requires e == Sealed(Base(PutId(s0, op, cfg).value, op.input, op.now, op.now + cfg.ttl, op.confirmation), op.credentials, op.user, op.iv)
    ensures Genuine(e, After(h, s0, op, cfg)) && EntryOk(e, op.now)
  {
    hide WellFormed, Read, TakeStep, Collides, Legible, AllGenuine, PutEntries, FitsNext;
    var id := PutId(s0, op, cfg).value;
    assert id in Drawn(op);
  }

  /** One entry of the list replaced by another form of it. */
  lemma {:induction false} GoodReplaced(entries: seq<Entry>, id: Id, next: Entry, h: History, now: nat, cfg: Config)
    requires Good(entries, h, now, cfg) && Genuine(next, h) && EntryOk(next, now) && next.base.entryId == id
    requires exists o :: o in entries && o.base.entryId == id
    requires next.claim.Some? ==> !Collides(entries, next.claim.value.lease.promptId)
    ensures Good(Replaced(entries, id, next), h, now, cfg)
  {
    hide Genuine, EntryOk;
    var r := Replaced(entries, id, next);
    forall e | e in r ensures (e == next || (e in entries && e.base.entryId != id)) && EntryOk(e, now) && Genuine(e, h) {
      var i :| 0 <= i < |r| && r[i] == e;
      assert entries[i] in entries;
    }
    forall e, f | e in r && f in r && e.claim.Some?
      ensures e.claim.value.lease.promptId != f.base.entryId
      ensures f.claim.Some? && e.base.entryId != f.base.entryId ==> e.claim.value.lease.promptId != f.claim.value.lease.promptId
    {
      ReplacedPair(entries, id, next, e, f);
    }
  }

  lemma {:induction false} ReplacedPair(entries: seq<Entry>, id: Id, next: Entry, e: Entry, f: Entry)
    requires DistinctPrompts(entries) && next.base.entryId == id && e.claim.Some?
    requires next.claim.Some? ==> !Collides(entries, next.claim.value.lease.promptId)
    requires e == next || (e in entries && e.base.entryId != id)
    requires f == next || (f in entries && f.base.entryId != id)
    requires exists o :: o in entries && o.base.entryId == id
    requires next.claim.Some? ==> next.claim.value.lease.promptId != id
    ensures e.claim.value.lease.promptId != f.base.entryId
    ensures f.claim.Some? && e.base.entryId != f.base.entryId ==> e.claim.value.lease.promptId != f.claim.value.lease.promptId
  {
    var o :| o in entries && o.base.entryId == id;
  }

  lemma {:induction false} TidiedKeeps<T>(s: State, h: History, now: nat, p: Parsed, o: StoreOutcome, cfg: Config, value: T)
    requires Inv(s, h, now, cfg) && Good(p.entries, h, now, cfg) && p.revision <= MAX_SAFE_INTEGER
    ensures Inv(Tidied(s, p, o, cfg, value).state, h, now, cfg)
  {
    hide Inv, Good, Answering;
    GuardedKeeps(s, h, now, p.revision, p.entries, true, o, cfg, value);
  }

  lemma {:induction false} ConfirmKeeps(s0: State, op: Op, h: History, clock: nat, cfg: Config)
    requires Inv(s0, h, clock, cfg) && op.Confirm? && Possible(op, h.used, clock)
    ensures Inv(Apply(s0, op, cfg), After(h, s0, op, cfg), op.now, cfg)
  {
    hide Inv, Good, Genuine, Read, Filter, FitsNext, Answering, Tidied, Write, After, ConfirmWrites, ConfirmReaches, RolledBack, ConfirmedEntries;
    if ConfirmReaches(s0, op, cfg) {
      ConfirmationKeeps(s0, op, h, clock, cfg);
    } else {
      var k := After(h, s0, op, cfg);
      WritingReaches(s0, op, cfg);
      assert k == h by { UnconfirmedHistory(s0, op, h, cfg); }
      ReadGood(s0, h, clock, op.now, false, cfg);
      var (s, p) := Read(s0, op.now, false, cfg);
      TidiedKeeps(s, h, op.now, p, op.o, cfg, false);
      TidiedKeeps(s, h, op.now, p, op.o, cfg, true);
      GoodFilter(p.entries, OtherThan(op.expected.entryId), h, op.now, cfg);
      GuardedKeeps(s, h, op.now, p.revision, Filter(p.entries, OtherThan(op.expected.entryId)), true, op.o, cfg, false);
      UnreachedShape(s0, op, cfg);
    }
  }

  lemma {:induction false} UnreachedShape(s0: State, op: Op, cfg: Config)
    requires op.Confirm? && !ConfirmReaches(s0, op, cfg)
    ensures var (s, p) := Read(s0, op.now, false, cfg);
            || Apply(s0, op, cfg) == s
            || Apply(s0, op, cfg) == Tidied(s, p, op.o, cfg, false).state
            || Apply(s0, op, cfg) == Tidied(s, p, op.o, cfg, true).state
            || Apply(s0, op, cfg) == Answering(s, p.revision, Filter(p.entries, OtherThan(op.expected.entryId)), op.o, cfg, false).state
  {
    hide Read, Filter, FitsNext, Answering, Tidied, Write;
  }

  lemma {:induction false} WritingReaches(s0: State, op: Op, cfg: Config)
    requires op.Confirm? && !ConfirmReaches(s0, op, cfg)
    ensures !ConfirmWrites(s0, op, cfg)
  {
    hide ConfirmReaches;
  }

  lemma {:induction false} UnconfirmedHistory(s0: State, op: Op, h: History, cfg: Config)
    requires op.Confirm? && !ConfirmWrites(s0, op, cfg)
    ensures After(h, s0, op, cfg) == h
  {
    hide ConfirmReaches, FitsNext, Read, Write;
    assert TakenNow(s0, op, cfg).None? && Drawn(op) == {};
  }

  /** The confirmation itself: not written, written, or written and rolled back. */
  lemma {:induction false} ConfirmationKeeps(s0: State, op: Op, h: History, clock: nat, cfg: Config)
    requires Inv(s0, h, clock, cfg) && op.Confirm? && Possible(op, h.used, clock) && ConfirmReaches(s0, op, cfg)
    ensures Inv(Apply(s0, op, cfg), After(h, s0, op, cfg), op.now, cfg)
  {
    hide Inv, Good, Genuine, Read, FitsNext, Write, After, ConfirmReaches, ConfirmedEntries, Replaced;
    var k := After(h, s0, op, cfg);
    ReadGood(s0, h, clock, op.now, false, cfg);
    var (s, p) := Read(s0, op.now, false, cfg);
    var entries := ConfirmedEntries(s0, op, cfg);
    var w := Write(s, p.revision, entries, op.o, cfg);
    ReachedShape(s0, op, cfg);
    if !ConfirmWrites(s0, op, cfg) {
      assert k == h by { UnconfirmedHistory(s0, op, h, cfg); }
      if !op.o.commits {
        UnwrittenKeeps(s, h, op.now, p.revision, entries, op.o, cfg, ());
        assert w.answer.Err? by { UnreportedFails(s, p.revision, entries, op.o, cfg); }
      }
    } else if RolledBack(s0, op, cfg) {
      assert w.answer.Ok? by { FittingSucceeds(s, p.revision, entries, op.o, cfg); }
      RollBackKeeps(s0, op, h, clock, cfg);
    } else {
      ConfirmationGood(s0, op, h, clock, cfg);
      GuardedWrite(s, k, op.now, p.revision, entries, op.o, cfg);
      GuardedWrite(w.state, k, op.now, p.revision, p.entries, op.rollback, cfg);
    }
  }

  lemma {:induction false} UnreportedFails(s: State, revision: nat, entries: seq<Entry>, o: StoreOutcome, cfg: Config)
    requires o.throws
    ensures Write(s, revision, entries, o, cfg).answer.Err?
  {
  }

  lemma {:induction false} FittingSucceeds(s: State, revision: nat, entries: seq<Entry>, o: StoreOutcome, cfg: Config)
    requires FitsNext(s, revision, entries, cfg) && !o.throws
    ensures Write(s, revision, entries, o, cfg).answer.Ok?
  {
  }

  lemma {:induction false} ReachedShape(s0: State, op: Op, cfg: Config)
    requires op.Confirm? && ConfirmReaches(s0, op, cfg)
    ensures var (s, p) := Read(s0, op.now, false, cfg);
            var entries := ConfirmedEntries(s0, op, cfg);
            var w := Write(s, p.revision, entries, op.o, cfg);
            Apply(s0, op, cfg) ==
            if !FitsNext(s, p.revision, entries, cfg) then s
            else if w.answer.Err? || op.guardAfter then w.state
            else Write(w.state, p.revision, p.entries, op.rollback, cfg).state
  {
    hide Read, Filter, FitsNext, Answering, Tidied, Write, Replaced;
  }

  /** What is written is good in the new history, and so is what was read. */
  lemma {:induction false} ConfirmationGood(s0: State, op: Op, h: History, clock: nat, cfg: Config)
    requires Inv(s0, h, clock, cfg) && op.Confirm? && Possible(op, h.used, clock)
    requires ConfirmWrites(s0, op, cfg) && !RolledBack(s0, op, cfg)
    ensures var k := After(h, s0, op, cfg);
            var (s, p) := Read(s0, op.now, false, cfg);
            && Inv(s, k, op.now, cfg) && Good(p.entries, k, op.now, cfg) && Good(ConfirmedEntries(s0, op, cfg), k, op.now, cfg)
            && p.revision <= MAX_SAFE_INTEGER
  {
    hide Inv, Good, Genuine, Read, FitsNext, Write, After, RolledBack;
    var k := After(h, s0, op, cfg);
    assert Inv(s0, k, clock, cfg) by { ConfirmHistory(s0, op, h, clock, cfg); }
    ReadGood(s0, k, clock, op.now, false, cfg);
    var p := Read(s0, op.now, false, cfg).1;
    var e := p.entries[FindEntry(p.entries, op.expected.entryId).value];
    ConfirmedFormGood(e, op, k, h, s0, cfg, p.entries);
    GoodReplaced(p.entries, e.base.entryId, ConfirmedForm(e, CredentialsOf(e, op.user).value, op.user, op.iv), k, op.now, cfg);
  }

  /** A confirmation taken back leaves the entries as they were read, and the history without it. */
  lemma {:induction false} RollBackKeeps(s0: State, op: Op, h: History, clock: nat, cfg: Config)
    requires Inv(s0, h, clock, cfg) && op.Confirm? && Possible(op, h.used, clock) && RolledBack(s0, op, cfg)
    ensures var (s, p) := Read(s0, op.now, false, cfg);
            var w := Write(s, p.revision, ConfirmedEntries(s0, op, cfg), op.o, cfg);
            Inv(Write(w.state, p.revision, p.entries, op.rollback, cfg).state, After(h, s0, op, cfg), op.now, cfg)
  {
    hide Inv, Good, Genuine, Read, FitsNext, Write, ConfirmedEntries, Legible;
    var id := op.expected.entryId;
    var k := h.(confirmed := h.confirmed - {id});
    assert After(h, s0, op, cfg) == k by {
      hide ConfirmReaches;
      assert TakenNow(s0, op, cfg).None? && Drawn(op) == {};
    }
    ReadGood(s0, h, clock, op.now, false, cfg);
    var (s, p) := Read(s0, op.now, false, cfg);
    var e := p.entries[FindEntry(p.entries, id).value];
    GoodWithout(p.entries, e, h, op.now, cfg);
    var w := Write(s, p.revision, ConfirmedEntries(s0, op, cfg), op.o, cfg);
    CommittedKeeps(s, h, k, op.now, p.revision, ConfirmedEntries(s0, op, cfg), op.o, p.entries, op.rollback, cfg);
  }

  lemma {:induction false} GoodWithout(entries: seq<Entry>, e: Entry, h: History, now: nat, cfg: Config)
    requires Good(entries, h, now, cfg) && e in entries && IsUnconfirmed(e)
    ensures Good(entries, h.(confirmed := h.confirmed - {e.base.entryId}), now, cfg)
  {
    hide EntryOk, DistinctPrompts;
    var k := h.(confirmed := h.confirmed - {e.base.entryId});
    forall f | f in entries ensures Genuine(f, k) {
      if f.base.entryId == e.base.entryId {
        SameIdSameEntry(entries, e, f);
      }
    }
  }

  /** A second write that takes effect decides what is stored, whatever the first one left. */
  lemma {:induction false} CommittedKeeps(s: State, h: History, k: History, now: nat, revision: nat, first: seq<Entry>, o: StoreOutcome,
                                          entries: seq<Entry>, rollback: StoreOutcome, cfg: Config)
    requires Inv(s, h, now, cfg) && k == h.(confirmed := k.confirmed) && k.confirmed <= h.confirmed
    requires Good(entries, k, now, cfg) && revision <= MAX_SAFE_INTEGER && rollback.commits
    requires FitsNext(Write(s, revision, first, o, cfg).state, revision, entries, cfg)
    ensures Inv(Write(Write(s, revision, first, o, cfg).state, revision, entries, rollback, cfg).state, k, now, cfg)
  {
    hide Genuine, WellFormed;
  }

  lemma {:induction false} GuardedWrite(s: State, h: History, now: nat, revision: nat, entries: seq<Entry>, o: StoreOutcome, cfg: Config)
    requires Inv(s, h, now, cfg) && Good(entries, h, now, cfg) && revision <= MAX_SAFE_INTEGER
    ensures Inv(Write(s, revision, entries, o, cfg).state, h, now, cfg)
  {
    hide Inv, AllGenuine, WellFormed, Write;
    WriteKeeps(s, h, now, revision, entries, o, cfg);
  }

  lemma {:induction false} ConfirmHistory(s0: State, op: Op, h: History, clock: nat, cfg: Config)
    requires Inv(s0, h, clock, cfg) && op.Confirm? && Possible(op, h.used, clock)
    requires ConfirmWrites(s0, op, cfg) && !RolledBack(s0, op, cfg)
    ensures Inv(s0, After(h, s0, op, cfg), clock, cfg)
  {
    hide WellFormed, TakeStep, Genuine, Read, Legible, AllGenuine, FitsNext, ConfirmedEntries, Write;
    var k := After(h, s0, op, cfg);
    var p := Read(s0, op.now, false, cfg).1;
    ReadGood(s0, h, clock, op.now, false, cfg);
    var e := p.entries[FindEntry(p.entries, op.expected.entryId).value];
    KnownId(p.entries, e, h, op.now, cfg);
    InvGrows(s0, h, k, clock, cfg);
  }

  lemma {:induction false} KnownId(entries: seq<Entry>, e: Entry, h: History, now: nat, cfg: Config)
    requires Good(entries, h, now, cfg) && e in entries
    ensures e.base.entryId in h.used && Genuine(e, h) && EntryOk(e, now)
  {
  }

  /** Confirming re-seals the same credentials under the same user key. */
  lemma {:induction false} ConfirmedFormGood(e: Entry, op: Op, k: History, h: History, s0: State, cfg: Config, entries: seq<Entry>)
    requires op.Confirm? && k == After(h, s0, op, cfg) && ConfirmWrites(s0, op, cfg) && !RolledBack(s0, op, cfg)
    requires Good(entries, k, op.now, cfg) && e in entries && IsUnconfirmed(e) && SameMetadata(e.base, op.expected)
    requires CredentialsOf(e, op.user).Some?
    ensures var next := ConfirmedForm(e, CredentialsOf(e, op.user).value, op.user, op.iv);
            Genuine(next, k) && EntryOk(next, op.now) && next.base.entryId == e.base.entryId
  {
    hide TakeStep, ConfirmWrites, RolledBack, Read;
    KnownId(entries, e, k, op.now, cfg);
  }

  lemma {:induction false} ClaimKeeps(s0: State, op: Op, h: History, clock: nat, cfg: Config)
    requires Inv(s0, h, clock, cfg) && op.MakeClaim? && Possible(op, h.used, clock)
    ensures Inv(Apply(s0, op, cfg), After(h, s0, op, cfg), op.now, cfg)
  {
    hide Inv, Good, Genuine, Read, FitsNext, Guarded, Write, Filter, DecisionOf, CredentialsOf, FreshId, SoonestExpiry, ClaimedBy, IsPending, After;
    var k := After(h, s0, op, cfg);
    assert Inv(s0, k, clock, cfg) by { OtherHistory(s0, op, h, clock, cfg); }
    ReadGood(s0, k, clock, op.now, true, cfg);
    var (s, p) := Read(s0, op.now, true, cfg);
    var entries := Filter(p.entries, NotStale(op.ctx));
    GoodFilter(p.entries, NotStale(op.ctx), k, op.now, cfg);
    forall id, answer: Prompt
      ensures Inv(Guarded(s, p.revision, Filter(entries, OtherThan(id)), op.guard, op.o, cfg, answer).state, k, op.now, cfg)
    {
      GoodFilter(entries, OtherThan(id), k, op.now, cfg);
      GuardedKeeps(s, k, op.now, p.revision, Filter(entries, OtherThan(id)), op.guard, op.o, cfg, answer);
    }
    forall answer: Prompt
      ensures Inv(Guarded(s, p.revision, entries, op.guard, op.o, cfg, answer).state, k, op.now, cfg)
    {
      GuardedKeeps(s, k, op.now, p.revision, entries, op.guard, op.o, cfg, answer);
    }
    var matching := Filter(entries, Matching(op.ctx, op.captureId));
    var pending := FindLast(matching, PendingTest());
    if pending.Some? {
      var e := matching[pending.value];
      assert e in matching && e in entries;
      var credentials := CredentialsOf(e, op.user);
      var decision := if credentials.None? then None else op.evaluate(credentials.value, e.base.input.sourceUrl);
      var promptId := FreshId(entries, op.candidates);
      if decision.Some? && promptId.Some? {
        var lease := Lease(promptId.value, op.ctx.document, op.ctx.runtime, op.now, Min(e.base.expiresAt, op.now + cfg.lease));
        if lease.claimExpiresAt > op.now {
          ClaimedGood(s, p, op, k, cfg, entries, e, lease, decision.value);
        }
      }
    }
  }

  /** Granting a claim to a pending entry. */
  lemma {:induction false} ClaimedGood(s: State, p: Parsed, op: Op, k: History, cfg: Config, entries: seq<Entry>, e: Entry, lease: Lease, decision: Decision)
    requires op.MakeClaim? && Inv(s, k, op.now, cfg) && Good(entries, k, op.now, cfg) && p.revision <= MAX_SAFE_INTEGER
    requires e in entries && IsPending(e) && !Collides(entries, lease.promptId) && CredentialsOf(e, op.user).Some?
    requires lease.claimedAt == op.now && lease.claimExpiresAt == Min(e.base.expiresAt, op.now + cfg.lease) > op.now
    ensures Inv(Guarded(s, p.revision, Replaced(entries, e.base.entryId, Claimed(e, lease, decision, op.user, op.iv)),
                        op.guard, op.o, cfg, Offer(lease.promptId, decision)).state, k, op.now, cfg)
  {
    hide Inv, Good, Genuine, Guarded, Write, Collides, EntryOk;
    var next := Claimed(e, lease, decision, op.user, op.iv);
    KnownId(entries, e, k, op.now, cfg);
    ClaimedOk(s, k, cfg, e, lease, decision, op);
    ClaimedGenuine(e, lease, decision, op.user, op.iv, k);
    GoodReplaced(entries, e.base.entryId, next, k, op.now, cfg);
    GuardedKeeps(s, k, op.now, p.revision, Replaced(entries, e.base.entryId, next), op.guard, op.o, cfg, Offer(lease.promptId, decision));
  }

  lemma {:induction false} ClaimedOk(s: State, k: History, cfg: Config, e: Entry, lease: Lease, decision: Decision, op: Op)
    requires op.MakeClaim? && Inv(s, k, op.now, cfg) && EntryOk(e, op.now) && IsPending(e)
    requires lease.claimedAt == op.now && lease.claimExpiresAt == Min(e.base.expiresAt, op.now + cfg.lease) > op.now
    ensures EntryOk(Claimed(e, lease, decision, op.user, op.iv), op.now)
  {
    hide WellFormed, AllGenuine, Legible;
  }

  lemma {:induction false} ClaimedGenuine(e: Entry, lease: Lease, decision: Decision, user: nat, iv: nat, h: History)
    requires Genuine(e, h) && CredentialsOf(e, user).Some?
    ensures Genuine(Claimed(e, lease, decision, user, iv), h)
  {
  }

  lemma {:induction false} OtherHistory(s0: State, op: Op, h: History, clock: nat, cfg: Config)
    requires Inv(s0, h, clock, cfg) && !op.Put? && !op.Confirm? && TakenNow(s0, op, cfg).None?
    ensures Inv(s0, After(h, s0, op, cfg), clock, cfg)
  {
    hide WellFormed, TakeStep, Genuine, Read;
    InvGrows(s0, h, After(h, s0, op, cfg), clock, cfg);
  }

  lemma {:induction false} RemovalKeeps(s0: State, op: Op, h: History, clock: nat, cfg: Config)
    requires Inv(s0, h, clock, cfg) && Possible(op, h.used, clock)
    requires op.Discard? || op.Dismiss? || op.ClearTab? || op.Clear? || op.Refresh?
    ensures Inv(Apply(s0, op, cfg), After(h, s0, op, cfg), op.now, cfg)
  {
    hide Inv, Good, Genuine, Read, Answering, Guarded, Tidied, Write, Filter, HeldPrompt, After;
    var k := After(h, s0, op, cfg);
    assert Inv(s0, k, clock, cfg) by { OtherHistory(s0, op, h, clock, cfg); }
    ReadGood(s0, k, clock, op.now, false, cfg);
    var (s, p) := Read(s0, op.now, false, cfg);
    match op {
      case Discard(now, id, o) =>
        GoodFilter(p.entries, OtherThan(id), k, now, cfg);
        var entries := Filter(p.entries, OtherThan(id));
        GuardedKeeps(s, k, now, p.revision, entries, true, o, cfg, |entries| != |p.entries|);
      case Dismiss(now, promptId, ctx, guard, o) =>
        TidiedKeeps(s, k, now, p, o, cfg, false);
        var i := IndexOf(p.entries, HeldPrompt(promptId, ctx));
        if i.Some? {
          var id := p.entries[i.value].base.entryId;
          GoodFilter(p.entries, OtherThan(id), k, now, cfg);
          GuardedKeeps(s, k, now, p.revision, Filter(p.entries, OtherThan(id)), guard, o, cfg, true);
        }
      case ClearTab(now, tab, o) =>
        GoodFilter(p.entries, OtherTab(tab), k, now, cfg);
        GuardedKeeps(s, k, now, p.revision, Filter(p.entries, OtherTab(tab)), true, o, cfg, ());
      case Clear(now, o) =>
        assert Good([], k, now, cfg) by { NothingGood(k, now, cfg); }
        GuardedKeeps(s, k, now, p.revision, [], true, o, cfg, ());
      case Refresh(now, o) => TidiedKeeps(s, k, now, p, o, cfg, p.entries);
    }
  }

  lemma {:induction false} NothingGood(h: History, now: nat, cfg: Config)
    ensures Good([], h, now, cfg)
  {
  }

  /** What a take finds under the prompt id. */
  lemma {:induction false} TakeFinds(s0: State, op: Op, cfg: Config)
    requires op.Take?
    ensures var (s, p) := Read(s0, op.now, false, cfg);
            var i := IndexOf(p.entries, HeldPrompt(op.promptId, op.ctx));
            var r := TakeStep(s0, op.now, op.promptId, op.ctx, op.user, op.guard, op.o, cfg);
            && (r.answer.Ok? && r.answer.value.Some? ==>
                  && i.Some? && op.guard && TakenNow(s0, op, cfg) == Some(p.entries[i.value].base.entryId)
                  && CredentialsOf(p.entries[i.value], op.user) == Some(r.answer.value.value.credentials)
                  && r.answer.value.value.sourceUrl == p.entries[i.value].base.input.sourceUrl
                  && DecisionOf(p.entries[i.value], op.user) == Some(r.answer.value.value.decision)
                  && r.state == Write(s, p.revision, Filter(p.entries, OtherThan(p.entries[i.value].base.entryId)), op.o, cfg).state
                  && Write(s, p.revision, Filter(p.entries, OtherThan(p.entries[i.value].base.entryId)), op.o, cfg).answer.Ok?)
            && (TakenNow(s0, op, cfg).Some? ==> r.answer.Ok? && r.answer.value.Some?)
  {
    hide Read, Filter, HeldPrompt, DecisionOf, CredentialsOf, Write;
  }

  lemma {:induction false} TakeKeeps(s0: State, op: Op, h: History, clock: nat, cfg: Config)
    requires Inv(s0, h, clock, cfg) && op.Take? && Possible(op, h.used, clock)
    ensures Inv(Apply(s0, op, cfg), After(h, s0, op, cfg), op.now, cfg)
  {
    hide Inv, Good, Genuine, Read, Guarded, Tidied, Write, Filter, HeldPrompt, DecisionOf, CredentialsOf, After, TakenNow;
    var k := After(h, s0, op, cfg);
    ReadGood(s0, h, clock, op.now, false, cfg);
    var (s, p) := Read(s0, op.now, false, cfg);
    var i := IndexOf(p.entries, HeldPrompt(op.promptId, op.ctx));
    TakeFinds(s0, op, cfg);
    if TakenNow(s0, op, cfg).Some? {
      var id := p.entries[i.value].base.entryId;
      KnownId(p.entries, p.entries[i.value], h, op.now, cfg);
      TakenLeaves(s, p, op, h, k, cfg, id);
      assert k == h.(taken := h.taken + {id}) by { TakenHistory(s0, op, h, cfg, id); }
    } else {
      assert k == h by { UntakenHistory(s0, op, h, cfg); }
      TidiedKeeps<Option<Taken>>(s, h, op.now, p, op.o, cfg, None);
      if i.Some? {
        var rest := Filter(p.entries, OtherThan(p.entries[i.value].base.entryId));
        GoodFilter(p.entries, OtherThan(p.entries[i.value].base.entryId), h, op.now, cfg);
        forall answer: Option<Taken>
          ensures Inv(Guarded(s, p.revision, rest, op.guard, op.o, cfg, answer).state, h, op.now, cfg)
        {
          GuardedKeeps(s, h, op.now, p.revision, rest, op.guard, op.o, cfg, answer);
        }
      }
    }
  }

  lemma {:induction false} TakenHistory(s0: State, op: Op, h: History, cfg: Config, id: Id)
    requires op.Take? && TakenNow(s0, op, cfg) == Some(id)
    ensures After(h, s0, op, cfg) == h.(taken := h.taken + {id})
  {
    hide TakenNow;
  }

  lemma {:induction false} UntakenHistory(s0: State, op: Op, h: History, cfg: Config)
    requires op.Take? && TakenNow(s0, op, cfg).None?
    ensures After(h, s0, op, cfg) == h
  {
    hide TakenNow;
  }

  /** A reported take has removed its entry for good. */
  lemma {:induction false} TakenLeaves(s: State, p: Parsed, op: Op, h: History, k: History, cfg: Config, id: Id)
    requires op.Take? && Inv(s, h, op.now, cfg) && Good(p.entries, h, op.now, cfg) && p.revision <= MAX_SAFE_INTEGER && id in h.used
    requires op.o.commits || op.o.throws
    requires Write(s, p.revision, Filter(p.entries, OtherThan(id)), op.o, cfg).answer.Ok?
    ensures Inv(Write(s, p.revision, Filter(p.entries, OtherThan(id)), op.o, cfg).state, h.(taken := h.taken + {id}), op.now, cfg)
  {
    hide Genuine, WellFormed, Filter;
    var k' := h.(taken := h.taken + {id});
    var rest := Filter(p.entries, OtherThan(id));
    GoodFilter(p.entries, OtherThan(id), h, op.now, cfg);
    forall e | e in rest ensures Genuine(e, k') {
      StillGenuine(e, h, id);
    }
  }

  lemma {:induction false} StillGenuine(e: Entry, h: History, id: Id)
    requires Genuine(e, h) && e.base.entryId != id
    ensures Genuine(e, h.(taken := h.taken + {id}))
  {
  }

  /** Every operation keeps the invariant. */
  lemma {:induction false} StepKeepsInv(s: State, op: Op, h: History, clock: nat, cfg: Config)
    requires Inv(s, h, clock, cfg) && Possible(op, h.used, clock)
    ensures Inv(Apply(s, op, cfg), After(h, s, op, cfg), ClockAfter(op, clock), cfg)
  {
    hide Inv, Apply, After, Possible;
    match op {
      case Put(_, _, _, _, _, _, _, _, _) => PutKeeps(s, op, h, clock, cfg);
      case Confirm(_, _, _, _, _, _, _, _) => ConfirmKeeps(s, op, h, clock, cfg);
      case MakeClaim(_, _, _, _, _, _, _, _, _) => ClaimKeeps(s, op, h, clock, cfg);
      case Take(_, _, _, _, _, _) => TakeKeeps(s, op, h, clock, cfg);
      case Discard(_, _, _) => RemovalKeeps(s, op, h, clock, cfg);
      case Dismiss(_, _, _, _, _) => RemovalKeeps(s, op, h, clock, cfg);
      case ClearTab(_, _, _) => RemovalKeeps(s, op, h, clock, cfg);
      case Clear(_, _) => RemovalKeeps(s, op, h, clock, cfg);
      case Refresh(_, _) => RemovalKeeps(s, op, h, clock, cfg);
      case Restart => RestartKeeps(s, h, clock, cfg);
    }
  }

  lemma {:induction false} RestartKeeps(s: State, h: History, clock: nat, cfg: Config)
    requires Inv(s, h, clock, cfg)
    ensures Inv(Apply(s, Restart, cfg), After(h, s, Restart, cfg), clock, cfg)
  {
    hide WellFormed, Genuine;
    assert After(h, s, Restart, cfg) == h;
  }

  // ---------------------------------------------------------------------------------------------
  // The guarantees
  // ---------------------------------------------------------------------------------------------

  function HistoryOf(h: History, s: State, ops: seq<Op>, cfg: Config): History
    decreases |ops|
  {
    if ops == [] then h else HistoryOf(After(h, s, ops[0], cfg), Apply(s, ops[0], cfg), ops[1..], cfg)
  }

  ghost predicate PossibleRun(ops: seq<Op>, used: set<Id>, clock: nat)
    decreases |ops|
  {
    ops == [] || (Possible(ops[0], used, clock) && PossibleRun(ops[1..], used + Drawn(ops[0]), ClockAfter(ops[0], clock)))
  }

  function LastClock(ops: seq<Op>, clock: nat): nat
    decreases |ops|
  {
    if ops == [] then clock else LastClock(ops[1..], ClockAfter(ops[0], clock))
  }

  /** Every envelope a run writes can be read, and every entry in it is genuine. */
  lemma {:induction false} RunKeepsInv(s: State, ops: seq<Op>, h: History, clock: nat, cfg: Config)
    requires Inv(s, h, clock, cfg) && PossibleRun(ops, h.used, clock)
    ensures Inv(Run(s, ops, cfg), HistoryOf(h, s, ops, cfg), LastClock(ops, clock), cfg)
    decreases |ops|
  {
    hide Inv, Apply, Possible, Drawn;
    if ops != [] {
      StepKeepsInv(s, ops[0], h, clock, cfg);
      assert After(h, s, ops[0], cfg).used == h.used + Drawn(ops[0]) by { UsedAfter(h, s, ops[0], cfg); }
      RunKeepsInv(Apply(s, ops[0], cfg), ops[1..], After(h, s, ops[0], cfg), ClockAfter(ops[0], clock), cfg);
    }
  }

  lemma {:induction false} UsedAfter(h: History, s: State, op: Op, cfg: Config)
    ensures After(h, s, op, cfg).used == h.used + Drawn(op)
    ensures h.taken <= After(h, s, op, cfg).taken
  {
    hide TakenNow, PutId, ConfirmedNow, RolledBack;
  }

  /**
   At the end of any run from an empty store a take that succeeds hands out exactly the credentials
   and the source that were put under the entry's id, and an id for which no take succeeded before.
   */
  lemma {:induction false} TakeReturnsWhatWasPut(ops: seq<Op>, op: Op, cfg: Config)
    requires ValidConfig(cfg) && op.Take?
    requires var s0 := State(Absent, 0);
             && PossibleRun(ops, {}, 0) && Possible(op, HistoryOf(NO_HISTORY, s0, ops, cfg).used, LastClock(ops, 0))
    ensures var s := Run(State(Absent, 0), ops, cfg);
            var h := HistoryOf(NO_HISTORY, State(Absent, 0), ops, cfg);
            var r := TakeStep(s, op.now, op.promptId, op.ctx, op.user, op.guard, op.o, cfg).answer;
            r.Ok? && r.value.Some? ==>
              && TakenNow(s, op, cfg).Some?
              && var id := TakenNow(s, op, cfg).value;
                 id in h.originals && id !in h.taken && id in h.confirmed
                 && r.value.value.credentials == h.originals[id].credentials
                 && r.value.value.sourceUrl == h.originals[id].input.sourceUrl
                 && op.user == h.originals[id].user
  {
    hide Apply, Possible, Read, Filter, DecisionOf, TakeStep, TakenNow, After, Good, PossibleRun;
    var s0 := State(Absent, 0);
    assert Inv(s0, NO_HISTORY, 0, cfg);
    RunKeepsInv(s0, ops, NO_HISTORY, 0, cfg);
    var s := Run(s0, ops, cfg);
    var h := HistoryOf(NO_HISTORY, s0, ops, cfg);
    hide Inv;
    TakeFinds(s, op, cfg);
    assert LastClock(ops, 0) <= op.now by { PossibleTime(op, h.used, LastClock(ops, 0)); }
    ReadGood(s, h, LastClock(ops, 0), op.now, false, cfg);
    var p := Read(s, op.now, false, cfg).1;
    var i := IndexOf(p.entries, HeldPrompt(op.promptId, op.ctx));
    if TakenNow(s, op, cfg).Some? {
      KnownId(p.entries, p.entries[i.value], h, op.now, cfg);
    }
  }

  lemma {:induction false} PossibleTime(op: Op, used: set<Id>, clock: nat)
    requires Possible(op, used, clock) && !op.Restart?
    ensures clock <= op.now <= MAX_SAFE_INTEGER
  {
  }

  /** The ids whose credentials a run hands out, in order. */
  function TakenLog(s: State, ops: seq<Op>, cfg: Config): seq<Id>
    decreases |ops|
  {
    if ops == [] then []
    else (match TakenNow(s, ops[0], cfg) case None => [] case Some(id) => [id]) + TakenLog(Apply(s, ops[0], cfg), ops[1..], cfg)
  }

  /** No entry is ever taken twice, over any run with any failures of the store and any restarts. */
  lemma {:induction false} NothingIsTakenTwice(s: State, ops: seq<Op>, h: History, clock: nat, cfg: Config)
    requires Inv(s, h, clock, cfg) && PossibleRun(ops, h.used, clock)
    ensures forall i :: 0 <= i < |TakenLog(s, ops, cfg)| ==> TakenLog(s, ops, cfg)[i] !in h.taken
    ensures forall i, j :: 0 <= i < j < |TakenLog(s, ops, cfg)| ==> TakenLog(s, ops, cfg)[i] != TakenLog(s, ops, cfg)[j]
    decreases |ops|
  {
    hide Inv, Apply, Possible, Drawn, TakenNow, After;
    if ops != [] {
      var op := ops[0];
      var t := TakenNow(s, op, cfg);
      StepKeepsInv(s, op, h, clock, cfg);
      UsedAfter(h, s, op, cfg);
      var rest := TakenLog(Apply(s, op, cfg), ops[1..], cfg);
      NothingIsTakenTwice(Apply(s, op, cfg), ops[1..], After(h, s, op, cfg), ClockAfter(op, clock), cfg);
      assert TakenLog(s, ops, cfg) == (match t case None => [] case Some(id) => [id]) + rest;
      if t.Some? {
        TakenIsNew(s, op, h, clock, cfg);
      }
    }
  }

  lemma {:induction false} TakenIsNew(s: State, op: Op, h: History, clock: nat, cfg: Config)
    requires Inv(s, h, clock, cfg) && Possible(op, h.used, clock) && TakenNow(s, op, cfg).Some?
    ensures TakenNow(s, op, cfg).value !in h.taken && TakenNow(s, op, cfg).value in After(h, s, op, cfg).taken
  {
    hide Inv, Read, Good, TakeStep;
    ReadGood(s, h, clock, op.now, false, cfg);
    var p := Read(s, op.now, false, cfg).1;
    var i := IndexOf(p.entries, HeldPrompt(op.promptId, op.ctx));
    KnownId(p.entries, p.entries[i.value], h, op.now, cfg);
  }

  /** An entry stored with a claim was put confirmed, or was confirmed by a write that took effect and was not rolled back. */
  lemma {:induction false} ClaimedWasConfirmed(ops: seq<Op>, cfg: Config, e: Entry)
    requires ValidConfig(cfg) && PossibleRun(ops, {}, 0)
    requires e in Stored(Run(State(Absent, 0), ops, cfg)) && e.claim.Some?
    ensures e.base.entryId in HistoryOf(NO_HISTORY, State(Absent, 0), ops, cfg).confirmed
  {
    hide Apply, Possible, After, PossibleRun;
    var s0 := State(Absent, 0);
    assert Inv(s0, NO_HISTORY, 0, cfg);
    RunKeepsInv(s0, ops, NO_HISTORY, 0, cfg);
    assert EntryOk(e, LastClock(ops, 0));
  }

  /** How an id gets into the history's confirmed ids: by a confirmed put or a confirmation whose write took effect and stood. */
  lemma {:induction false} ConfirmedHow(s: State, ops: seq<Op>, h: History, cfg: Config, id: Id)
    requires id in HistoryOf(h, s, ops, cfg).confirmed && id !in h.confirmed
    ensures exists i :: 0 <= i < |ops| && ConfirmedNow(Run(s, ops[..i], cfg), ops[i], cfg) == Some(id)
    decreases |ops|
  {
    hide Apply, TakenNow, PutId, ConfirmedNow, RolledBack;
    var next := Apply(s, ops[0], cfg);
    if id in After(h, s, ops[0], cfg).confirmed {
      assert Run(s, ops[..0], cfg) == s;
    } else {
      ConfirmedHow(next, ops[1..], After(h, s, ops[0], cfg), cfg, id);
      var i :| 0 <= i < |ops[1..]| && ConfirmedNow(Run(next, ops[1..][..i], cfg), ops[1..][i], cfg) == Some(id);
      assert ops[..i + 1][0] == ops[0] && ops[..i + 1][1..] == ops[1..][..i];
      assert Run(s, ops[..i + 1], cfg) == Run(next, ops[1..][..i], cfg);
      assert ops[i + 1] == ops[1..][i];
    }
  }

  /** Marking a quarantined entry as confirmed without re-sealing it gives its credentials to nobody. */
  lemma {:induction false} TamperedConfirmationOpensNothing(e: Entry, h: History, user: nat)
    requires Genuine(e, h) && IsUnconfirmed(e)
    ensures CredentialsOf(e.(base := e.base.(confirmation := Confirmed)), user).None?
  {
  }

  /** Neither does moving the box to another entry, document, place or session, or changing its times. */
  lemma {:induction false} MovedBoxOpensNothing(e: Entry, h: History, base: Base, user: nat)
    requires Genuine(e, h) && base != e.base
    ensures CredentialsOf(e.(base := base), user).None?
  {
  }

  /** The claim just granted can be taken: same document, same key, before the entry expires. */
  lemma {:induction false} ClaimedEntryIsTaken(e: Entry, lease: Lease, decision: Decision, credentials: Credentials, user: nat, iv: nat)
    requires CredentialsOf(e, user) == Some(credentials)
    ensures DecisionOf(Claimed(e, lease, decision, user, iv), user) == Some(decision)
    ensures CredentialsOf(Claimed(e, lease, decision, user, iv), user) == Some(credentials)
    ensures forall other :: other != user ==> DecisionOf(Claimed(e, lease, decision, user, iv), other).None?
  {
  }

  // ---------------------------------------------------------------------------------------------
  // A prompt that was offered can be taken
  // ---------------------------------------------------------------------------------------------

  lemma {:induction false} SameIdSameEntry(entries: seq<Entry>, e: Entry, f: Entry)
    requires DistinctIds(entries) && e in entries && f in entries && e.base.entryId == f.base.entryId
    ensures e == f
  {
    var i :| 0 <= i < |entries| && entries[i] == e;
    var j :| 0 <= j < |entries| && entries[j] == f;
    assert !(i < j) && !(j < i);
  }

  lemma {:induction false} LiveKeeps(entries: seq<Entry>, now: nat, e: Entry)
    requires e in entries && !Expired(e, now)
    ensures e in Live(entries, now, false)
  {
    assert LiveForm(now, false)(e) == Some(e);
  }

  /** Is this the stored claim the take names, and does it open? The end of its lease is not asked for. */
  ghost predicate Opens(s: State, op: Op, e: Entry)
    requires op.Take?
  {
    e in Stored(s) && !Expired(e, op.now) && HeldPrompt(op.promptId, op.ctx)(e) && DecisionOf(e, op.user).Some?
  }

  /** Does the write that removes the entry succeed? */
  predicate RemovalSucceeds(s: State, op: Op, id: Id, cfg: Config)
    requires op.Take?
  {
    var (t, p) := Read(s, op.now, false, cfg);
    op.guard && FitsNext(t, p.revision, Filter(p.entries, OtherThan(id)), cfg) && !op.o.throws
  }

  /** A stored claim is handed out to its document, with its own credentials and decision. */
  lemma {:induction false} HeldIsTaken(s: State, h: History, clock: nat, e: Entry, op: Op, cfg: Config)
    requires Inv(s, h, clock, cfg) && op.Take? && clock <= op.now
    requires Opens(s, op, e) && RemovalSucceeds(s, op, e.base.entryId, cfg)
    ensures CredentialsOf(e, op.user).Some?
    ensures TakeStep(s, op.now, op.promptId, op.ctx, op.user, op.guard, op.o, cfg).answer ==
            Ok(Some(Taken(CredentialsOf(e, op.user).value, e.base.input.sourceUrl, DecisionOf(e, op.user).value)))
  {
    hide DecisionOf, CredentialsOf, SameClaimScope, Read, Filter, Inv, Good, Write, FitsNext, Genuine;
    var (t, p) := Read(s, op.now, false, cfg);
    StoredIsRead(s, h, clock, op.now, cfg);
    ReadGood(s, h, clock, op.now, false, cfg);
    KnownId(p.entries, e, h, op.now, cfg);
    SealedAlike(e, h, op.user);
    var f := p.entries[IndexOf(p.entries, HeldPrompt(op.promptId, op.ctx)).value];
    assert f == e by { SamePromptSameEntry(p.entries, e, f, h, op.now, cfg); }
    FittingSucceeds(t, p.revision, Filter(p.entries, OtherThan(e.base.entryId)), op.o, cfg);
  }

  /** Whoever can open the decision can open the credentials. */
  lemma {:induction false} SealedAlike(e: Entry, h: History, user: nat)
    requires Genuine(e, h) && DecisionOf(e, user).Some?
    ensures CredentialsOf(e, user).Some?
  {
  }

  lemma {:induction false} SamePromptSameEntry(entries: seq<Entry>, e: Entry, f: Entry, h: History, now: nat, cfg: Config)
    requires Good(entries, h, now, cfg) && e in entries && f in entries && e.claim.Some? && f.claim.Some?
    requires e.claim.value.lease.promptId == f.claim.value.lease.promptId
    ensures e == f
  {
    hide Genuine, EntryOk;
    SameIdSameEntry(entries, e, f);
  }

  /** Reading delivers the stored entries that have not expired. */
  lemma {:induction false} StoredIsRead(s: State, h: History, clock: nat, now: nat, cfg: Config)
    requires Inv(s, h, clock, cfg) && clock <= now
    ensures forall e :: e in Read(s, now, false, cfg).1.entries <==> e in Stored(s) && !Expired(e, now)
  {
    hide Genuine, Sorted, Live, EntryOk, WellFormed;
    if s.stored.Envelope? {
      WellFormedLater(s.stored.entries, clock, now);
      var live := Live(s.stored.entries, now, false);
      LiveShorter(s.stored.entries, now);
      MembersOfPermutation(live, Sorted(live));
      forall e ensures e in live <==> e in s.stored.entries && !Expired(e, now) {
        LiveExactly(s.stored.entries, now, e);
      }
    }
  }

  lemma {:induction false} LiveExactly(entries: seq<Entry>, now: nat, e: Entry)
    ensures e in Live(entries, now, false) <==> e in entries && !Expired(e, now)
  {
    if e in entries && !Expired(e, now) {
      LiveKeeps(entries, now, e);
    }
    if e in Live(entries, now, false) {
      var o :| o in entries && LiveForm(now, false)(o) == Some(e);
    }
  }

  /**
   Exactly when a take hands something out: the prompt is held in the store by this document, its entry has
   not expired, its decision opens, and the write that removes it succeeds. Whether the lease has run out does not matter.
   */
  lemma {:induction false} TakeExact(s: State, h: History, clock: nat, op: Op, cfg: Config)
    requires Inv(s, h, clock, cfg) && op.Take? && clock <= op.now
    ensures var r := TakeStep(s, op.now, op.promptId, op.ctx, op.user, op.guard, op.o, cfg).answer;
            r.Ok? && r.value.Some? <==> exists e :: Opens(s, op, e) && RemovalSucceeds(s, op, e.base.entryId, cfg)
  {
    hide DecisionOf, CredentialsOf, SameClaimScope, Read, Filter, Inv, Write, FitsNext, Opens, RemovalSucceeds, HeldPrompt, TakeStep;
    var r := TakeStep(s, op.now, op.promptId, op.ctx, op.user, op.guard, op.o, cfg).answer;
    if r.Ok? && r.value.Some? {
      TakenOpens(s, h, clock, op, cfg);
    }
    forall e | Opens(s, op, e) && RemovalSucceeds(s, op, e.base.entryId, cfg) ensures r.Ok? && r.value.Some? {
      HeldIsTaken(s, h, clock, e, op, cfg);
    }
  }

  lemma {:induction false} TakenOpens(s: State, h: History, clock: nat, op: Op, cfg: Config)
    requires Inv(s, h, clock, cfg) && op.Take? && clock <= op.now
    requires var r := TakeStep(s, op.now, op.promptId, op.ctx, op.user, op.guard, op.o, cfg).answer; r.Ok? && r.value.Some?
    ensures exists e :: Opens(s, op, e) && RemovalSucceeds(s, op, e.base.entryId, cfg)
  {
    hide DecisionOf, CredentialsOf, Read, Filter, Inv, Write, FitsNext, HeldPrompt, TakeStep;
    TakeFinds(s, op, cfg);
    StoredIsRead(s, h, clock, op.now, cfg);
    var (t, p) := Read(s, op.now, false, cfg);
    var e := p.entries[IndexOf(p.entries, HeldPrompt(op.promptId, op.ctx)).value];
    assert e in p.entries;
    SucceededFits(t, p.revision, Filter(p.entries, OtherThan(e.base.entryId)), op.o, cfg);
    assert Opens(s, op, e) && RemovalSucceeds(s, op, e.base.entryId, cfg);
  }

  lemma {:induction false} SucceededFits(s: State, revision: nat, entries: seq<Entry>, o: StoreOutcome, cfg: Config)
    requires Write(s, revision, entries, o, cfg).answer.Ok?
    ensures FitsNext(s, revision, entries, cfg) && !o.throws
  {
  }

  lemma {:induction false} LiveShorter(entries: seq<Entry>, now: nat)
    ensures |Live(entries, now, false)| <= |entries|
  {
  }

  /** An offer whose write took effect leaves exactly the offered claim in the store. */
  lemma {:induction false} OfferIsStored(s0: State, op: Op, h: History, clock: nat, cfg: Config) returns (e: Entry)
    requires Inv(s0, h, clock, cfg) && op.MakeClaim? && Possible(op, h.used, clock)
    requires var r := ClaimStep(s0, op.now, op.ctx, op.user, op.evaluate, op.captureId, op.candidates, op.iv, op.guard, op.o, cfg).answer;
             r.Ok? && r.value.Offer?
    ensures var r := ClaimStep(s0, op.now, op.ctx, op.user, op.evaluate, op.captureId, op.candidates, op.iv, op.guard, op.o, cfg).answer;
            && e in Stored(Apply(s0, op, cfg)) && |Stored(Apply(s0, op, cfg))| <= cfg.capacity
            && ClaimedBy(e, op.ctx) && SameClaimScope(e, op.ctx)
            && e.claim.value.lease.promptId == r.value.promptId && DecisionOf(e, op.user) == Some(r.value.decision)
  {
    hide Inv, Genuine, SoonestExpiry, CredentialsOf, FreshId, SameClaimScope, Good, FitsNext, Read, Guarded, DecisionOf, Filter, Stored;
    var (s, p) := Read(s0, op.now, true, cfg);
    var entries := Filter(p.entries, NotStale(op.ctx));
    var matching := Filter(entries, Matching(op.ctx, op.captureId));
    var held := FindLast(matching, ClaimantTest(op.ctx));
    ReadSmall(s0, op.now, cfg);
    assert |entries| <= cfg.capacity by { FilterShorter(p.entries, NotStale(op.ctx)); }
    forall list: seq<Entry>, answer: Prompt
      ensures var r := Guarded(s, p.revision, list, op.guard, op.o, cfg, answer);
              r.answer.Ok? ==> r.answer.value == answer && Stored(r.state) == list
    {
      GuardedStores(s, p.revision, list, op.guard, op.o, cfg, answer);
    }
    if held.Some? {
      e := matching[held.value];
      assert e in matching && e in entries && e in p.entries;
      FilterUnchanged(p.entries, NotStale(op.ctx));
      CleanReadIsStored(s0, op.now, cfg);
    } else {
      var f := matching[FindLast(matching, PendingTest()).value];
      assert f in matching && f in entries;
      var k :| 0 <= k < |entries| && entries[k] == f;
      var decision := op.evaluate(CredentialsOf(f, op.user).value, f.base.input.sourceUrl).value;
      var lease := Lease(FreshId(entries, op.candidates).value, op.ctx.document, op.ctx.runtime, op.now, Min(f.base.expiresAt, op.now + cfg.lease));
      e := Claimed(f, lease, decision, op.user, op.iv);
      assert Replaced(entries, f.base.entryId, e)[k] == e;
      assert DecisionOf(e, op.user) == Some(decision) by { GrantOpens(f, lease, decision, op.user, op.iv); }
      assert SameClaimScope(e, op.ctx) by { ScopeKept(f, e, op.ctx); }
    }
  }

  lemma {:induction false} GuardedStores<T>(s: State, revision: nat, entries: seq<Entry>, guard: bool, o: StoreOutcome, cfg: Config, value: T)
    requires o.commits || o.throws
    ensures var r := Guarded(s, revision, entries, guard, o, cfg, value);
            r.answer.Ok? ==> r.answer.value == value && Stored(r.state) == entries
  {
  }

  lemma {:induction false} FilterShorter(entries: seq<Entry>, keep: Entry -> bool)
    ensures |Filter(entries, keep)| <= |entries|
  {
    hide Filter;
  }

  lemma {:induction false} GrantOpens(f: Entry, lease: Lease, decision: Decision, user: nat, iv: nat)
    ensures DecisionOf(Claimed(f, lease, decision, user, iv), user) == Some(decision)
  {
  }

  lemma {:induction false} ScopeKept(f: Entry, e: Entry, ctx: Context)
    requires SameClaimScope(f, ctx) && e.base == f.base
    ensures SameClaimScope(e, ctx)
  {
  }

  lemma {:induction false} FilterUnchanged(entries: seq<Entry>, keep: Entry -> bool)
    ensures |Filter(entries, keep)| == |entries| ==> Filter(entries, keep) == entries
  {
    if entries != [] {
      FilterUnchanged(entries[1..], keep);
    }
  }

  lemma {:induction false} ReadSmall(s0: State, now: nat, cfg: Config)
    ensures |Read(s0, now, true, cfg).1.entries| <= cfg.capacity
  {
    hide Live;
  }

  /** A read that found nothing to tidy delivers the stored entries. */
  lemma {:induction false} CleanReadIsStored(s0: State, now: nat, cfg: Config)
    ensures var p := Read(s0, now, true, cfg).1;
            && Read(s0, now, true, cfg).0.stored == s0.stored
            && (!p.dirty ==> |Stored(s0)| <= cfg.capacity && forall e :: e in p.entries ==> e in Stored(s0))
            && Stored(Read(s0, now, true, cfg).0) == Stored(s0)
  {
    hide Live;
    if s0.stored.Envelope? {
      var live := Live(s0.stored.entries, now, true);
      MembersOfPermutation(live, Sorted(live));
    }
  }

  /** End to end: an offer, then a take by the same document under the key of the claim, before the entry expires. */
  lemma {:induction false} OfferedIsTaken(s0: State, op: Op, h: History, clock: nat, take: Op, cfg: Config) returns (e: Entry)
    requires Inv(s0, h, clock, cfg) && op.MakeClaim? && Possible(op, h.used, clock)
    requires var r := ClaimStep(s0, op.now, op.ctx, op.user, op.evaluate, op.captureId, op.candidates, op.iv, op.guard, op.o, cfg).answer;
             r.Ok? && r.value.Offer? && take.Take? && take.promptId == r.value.promptId && take.ctx == op.ctx && take.user == op.user
    requires op.now <= take.now
    ensures var offer := ClaimStep(s0, op.now, op.ctx, op.user, op.evaluate, op.captureId, op.candidates, op.iv, op.guard, op.o, cfg).answer.value;
            && e in Stored(Apply(s0, op, cfg)) && ClaimedBy(e, op.ctx) && e.claim.value.lease.promptId == offer.promptId
            && CredentialsOf(e, op.user).Some?
            && (take.now < e.base.expiresAt && RemovalSucceeds(Apply(s0, op, cfg), take, e.base.entryId, cfg) ==>
                  TakeStep(Apply(s0, op, cfg), take.now, take.promptId, take.ctx, take.user, take.guard, take.o, cfg).answer ==
                  Ok(Some(Taken(CredentialsOf(e, op.user).value, e.base.input.sourceUrl, offer.decision))))
  {
    hide Inv, Genuine, ClaimStep, TakeStep, Apply, After, DecisionOf, CredentialsOf, SameClaimScope, Possible, RemovalSucceeds;
    e := OfferIsStored(s0, op, h, clock, cfg);
    StepKeepsInv(s0, op, h, clock, cfg);
    var s, k := Apply(s0, op, cfg), After(h, s0, op, cfg);
    StoredGenuine(s, k, op.now, e, cfg);
    SealedAlike(e, k, op.user);
    if take.now < e.base.expiresAt && RemovalSucceeds(s, take, e.base.entryId, cfg) {
      HeldIsTaken(s, k, op.now, e, take, cfg);
    }
  }

  lemma {:induction false} StoredGenuine(s: State, h: History, clock: nat, e: Entry, cfg: Config)
    requires Inv(s, h, clock, cfg) && e in Stored(s)
    ensures Genuine(e, h)
  {
    hide Genuine, Legible;
  }

  // ---------------------------------------------------------------------------------------------
  // A lapsed claim
  // ---------------------------------------------------------------------------------------------

  const SAMPLE_CONFIG: Config := Config(60000, 1000, 4, (revision: nat, entries: seq<Entry>) => true)
  const SAMPLE_CONTEXT: Context := Context(1, 0, 5, 6, 7, 8)
  const SAMPLE_CREDENTIALS: Credentials := Credentials(None, "secret")
  const SAMPLE_PUT: Op := Put(10, Input(1, 0, 4, 3, 9, 7, 8), SAMPLE_CREDENTIALS, 2, Confirmed, [11], 12, true, StoreOutcome(true, false))
  const SAMPLE_CLAIM: Op :=
    MakeClaim(20, SAMPLE_CONTEXT, 2, (c: Credentials, url: nat) => Some(Save("entry")), None, [13], 14, true, StoreOutcome(true, false))
  const SAMPLE_TAKE: Op := Take(50000, 13, SAMPLE_CONTEXT, 2, true, StoreOutcome(true, false))

  /** Reading a single entry that has not expired and whose claim is not taken back. */
  lemma {:induction false} OneEntryIsRead(revision: nat, e: Entry, now: nat, reclaim: bool, cfg: Config)
    requires EntryOk(e, now) && !Expired(e, now) && !Reclaims(e, now, reclaim) && 1 <= cfg.capacity
    requires 0 < revision <= MAX_SAFE_INTEGER && cfg.fits(revision, [e])
    requires e.claim.Some? ==> e.claim.value.lease.promptId != e.base.entryId
    ensures Read(State(Envelope(revision, [e]), revision), now, reclaim, cfg) ==
            (State(Envelope(revision, [e]), revision), Parsed(revision, [e], false))
  {
    hide EntryOk;
    assert WellFormed([e], now);
    assert Live([e], now, reclaim) == [e];
    OneSorted(e);
  }

  lemma {:induction false} OneSorted(e: Entry)
    ensures Sorted([e]) == [e]
  {
    hide Sorted;
    assert Sorted([e])[0] in multiset(Sorted([e]));
  }

  function SampleEntry(): Entry {
    Sealed(Base(11, SAMPLE_PUT.input, 10, 60010, Confirmed), SAMPLE_CREDENTIALS, 2, 12)
  }

  function SampleClaimed(): Entry {
    Claimed(SampleEntry(), Lease(13, 5, 6, 20, 1020), Save("entry"), 2, 14)
  }

  /** A put into the empty store, with room for one entry. */
  lemma {:induction false} OneEntryIsPut(op: Op, e: Entry, cfg: Config)
    requires op.Put? && op.candidates == [e.base.entryId] && op.guard && op.o.commits && !op.o.throws && 1 <= cfg.capacity
    requires op.now + cfg.ttl <= MAX_SAFE_INTEGER && cfg.fits(1, [e])
    requires e == Sealed(Base(e.base.entryId, op.input, op.now, op.now + cfg.ttl, op.confirmation), op.credentials, op.user, op.iv)
    ensures Apply(State(Absent, 0), op, cfg) == State(Envelope(1, [e]), 1)
  {
    hide Sorted, Sealed, OtherSlot, Apply, PutEntries, PutId;
    FirstPut(op, e, cfg);
    PutShape(State(Absent, 0), op, cfg);
  }

  lemma {:induction false} FirstPut(op: Op, e: Entry, cfg: Config)
    requires op.Put? && op.candidates == [e.base.entryId] && 1 <= cfg.capacity && cfg.fits(1, [e])
    requires e == Sealed(Base(e.base.entryId, op.input, op.now, op.now + cfg.ttl, op.confirmation), op.credentials, op.user, op.iv)
    ensures PutId(State(Absent, 0), op, cfg) == Some(e.base.entryId)
    ensures PutEntries(State(Absent, 0), op, e.base.entryId, cfg) == [e]
  {
    hide Sealed, OtherSlot, FreshId, Sorted, Filter, TrimToFit, Last;
    NothingCollides(op.candidates);
    OneSorted(e);
    OneKept(op, e, cfg);
    assert Read(State(Absent, 0), op.now, false, cfg) == (State(Absent, 0), Parsed(0, [], false));
    hide Read;
  }

  lemma {:induction false} OneKept(op: Op, e: Entry, cfg: Config)
    requires op.Put? && 1 <= cfg.capacity && cfg.fits(1, [e])
    ensures Filter([], OtherSlot(op.input)) + [e] == [e]
    ensures Last([e], cfg.capacity) == [e] && TrimToFit(State(Absent, 0), 0, [e], cfg) == [e]
  {
  }

  lemma {:induction false} NothingCollides(candidates: seq<Id>)
    requires candidates != []
    ensures FreshId([], candidates) == Some(candidates[0])
  {
  }

  lemma {:induction false} SampleIsPut()
    ensures Apply(State(Absent, 0), SAMPLE_PUT, SAMPLE_CONFIG) == State(Envelope(1, [SampleEntry()]), 1)
  {
    hide Apply;
    OneEntryIsPut(SAMPLE_PUT, SampleEntry(), SAMPLE_CONFIG);
  }

  lemma {:induction false} RunOfTwo(s: State, a: Op, b: Op, cfg: Config)
    ensures Run(s, [a, b], cfg) == Apply(Apply(s, a, cfg), b, cfg)
  {
    hide Apply;
    assert [a, b][1..] == [b] && [b][1..] == [];
    assert Run(Apply(s, a, cfg), [b], cfg) == Run(Apply(Apply(s, a, cfg), b, cfg), [], cfg);
  }

  lemma {:induction false} SampleIsClaimed()
    ensures Apply(State(Envelope(1, [SampleEntry()]), 1), SAMPLE_CLAIM, SAMPLE_CONFIG) == State(Envelope(2, [SampleClaimed()]), 2)
  {
    var e := SampleEntry();
    OneEntryIsRead(1, e, 20, true, SAMPLE_CONFIG);
    hide Read;
    assert Filter([e], NotStale(SAMPLE_CONTEXT)) == [e];
    assert Filter([e], Matching(SAMPLE_CONTEXT, None)) == [e];
    assert FreshId([e], [13]) == Some(13);
    assert Replaced([e], 11, SampleClaimed()) == [SampleClaimed()];
  }

  lemma {:induction false} SampleIsPossible()
    ensures ValidConfig(SAMPLE_CONFIG) && PossibleRun([SAMPLE_PUT, SAMPLE_CLAIM, SAMPLE_TAKE], {}, 0)
  {
    assert Drawn(SAMPLE_PUT) == {11} && Drawn(SAMPLE_CLAIM) == {13} && Drawn(SAMPLE_TAKE) == {};
    PossibleFirst(SAMPLE_TAKE, [], {11, 13}, 20);
    assert {11} + Drawn(SAMPLE_CLAIM) == {11, 13};
    PossibleFirst(SAMPLE_CLAIM, [SAMPLE_TAKE], {11}, 10);
    assert {} + Drawn(SAMPLE_PUT) == {11};
    PossibleFirst(SAMPLE_PUT, [SAMPLE_CLAIM, SAMPLE_TAKE], {}, 0);
    assert [SAMPLE_PUT] + [SAMPLE_CLAIM, SAMPLE_TAKE] == [SAMPLE_PUT, SAMPLE_CLAIM, SAMPLE_TAKE];
    assert [SAMPLE_CLAIM] + [SAMPLE_TAKE] == [SAMPLE_CLAIM, SAMPLE_TAKE];
    assert [SAMPLE_TAKE] + [] == [SAMPLE_TAKE];
  }

  lemma {:induction false} PossibleFirst(op: Op, ops: seq<Op>, used: set<Id>, clock: nat)
    ensures PossibleRun([op] + ops, used, clock) <==> Possible(op, used, clock) && PossibleRun(ops, used + Drawn(op), ClockAfter(op, clock))
  {
    hide Possible;
    assert ([op] + ops)[1..] == ops;
  }

  /** A claim of one second is taken most of a minute later. */
  lemma {:induction false} LapsedClaimIsTaken() returns (e: Entry)
    ensures ValidConfig(SAMPLE_CONFIG) && PossibleRun([SAMPLE_PUT, SAMPLE_CLAIM, SAMPLE_TAKE], {}, 0)
    ensures var s := Run(State(Absent, 0), [SAMPLE_PUT, SAMPLE_CLAIM], SAMPLE_CONFIG);
            var op := SAMPLE_TAKE;
            && Stored(s) == [e] && e.claim.Some? && e.claim.value.lease.claimExpiresAt < op.now
            && TakeStep(s, op.now, op.promptId, op.ctx, op.user, op.guard, op.o, SAMPLE_CONFIG).answer ==
               Ok(Some(Taken(SAMPLE_CREDENTIALS, 9, Save("entry"))))
  {
    hide Apply, PossibleRun, TakeStep;
    SampleIsPossible();
    SampleIsPut();
    SampleIsClaimed();
    e := SampleClaimed();
    RunOfTwo(State(Absent, 0), SAMPLE_PUT, SAMPLE_CLAIM, SAMPLE_CONFIG);
    SampleIsTaken();
  }

  lemma {:induction false} SampleIsTaken()
    ensures var op := SAMPLE_TAKE;
            TakeStep(State(Envelope(2, [SampleClaimed()]), 2), op.now, op.promptId, op.ctx, op.user, op.guard, op.o, SAMPLE_CONFIG).answer ==
            Ok(Some(Taken(SAMPLE_CREDENTIALS, 9, Save("entry"))))
  {
    var e := SampleClaimed();
    OneEntryIsRead(2, e, 50000, false, SAMPLE_CONFIG);
    assert IndexOf([e], HeldPrompt(13, SAMPLE_CONTEXT)) == Some(0);
    assert CredentialsOf(e, 2) == Some(SAMPLE_CREDENTIALS) && DecisionOf(e, 2) == Some(Save("entry"));
    hide Filter, Read;
  }
}
