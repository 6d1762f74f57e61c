/**
 The pending-save store: captured credentials held encrypted until a document claims the prompt and
 takes them. Each operation is described as a step on the stored envelope and the high-water revision.
 */
module PendingSaveSteps {
  import opened Numbers
  import opened Sequences
  import opened StoreModel

  const MAX_TTL_MS: nat := 600000
  const MAX_LEASE_MS: nat := 30000
  const MAX_CAPACITY: nat := 64
  const MAX_ID_ATTEMPTS: nat := 8

  type Id = nat

  // ---------------------------------------------------------------------------------------------
  // Ideal cryptography
  // ---------------------------------------------------------------------------------------------

  /** Two keys are derived from one user key, for two purposes. */
  datatype Key = EncryptionKey(user: nat) | DecisionKey(user: nat)

  // ---------------------------------------------------------------------------------------------
  // Entries
  // ---------------------------------------------------------------------------------------------

  /** The capture's place; `security` stands for the nine session, server, account and policy fields together. */
  datatype Input = Input(tab: nat, frame: nat, sourceDocument: nat, runtime: nat, sourceUrl: nat, origin: nat, security: nat)

  datatype Context = Context(tab: nat, frame: nat, document: nat, runtime: nat, origin: nat, security: nat)

  datatype Credentials = Credentials(username: Option<string>, password: string)

  datatype Decision = Save(suggestedName: string) | Update(cipherId: nat, name: string) | AddUri(cipherId: nat, name: string)

  datatype Confirmation = Unconfirmed | Confirmed

  /** Everything the credentials are bound to; also the metadata a capture is known by. */
  datatype Base = Base(entryId: Id, input: Input, createdAt: nat, expiresAt: nat, confirmation: Confirmation)

  /** A sealed value opens only under the key and the associated data it was sealed with. */
  datatype CredentialBox = CredentialBox(key: Key, aad: Base, plain: Credentials, iv: nat)

  datatype Lease = Lease(promptId: Id, document: nat, runtime: nat, claimedAt: nat, claimExpiresAt: nat)

  datatype DecisionAad = DecisionAad(base: Base, box: CredentialBox, lease: Lease)

  datatype DecisionBox = DecisionBox(key: Key, aad: DecisionAad, plain: Decision, iv: nat)

  datatype Tag = Tag(key: Key, entryId: Id, promptId: Id, document: nat, runtime: nat, origin: nat, sourceUrl: nat, policy: nat, decision: Decision)

  datatype Claim = Claim(lease: Lease, decision: DecisionBox, tag: Tag)

  /** Unconfirmed, pending (confirmed without a claim) or claimed. */
  datatype Entry = Entry(base: Base, box: CredentialBox, claim: Option<Claim>)

  datatype Raw = Absent | Garbage(legible: Option<nat>) | Envelope(revision: nat, entries: seq<Entry>)

  datatype Config = Config(ttl: nat, lease: nat, capacity: nat, fits: (nat, seq<Entry>) -> bool)

  predicate ValidConfig(cfg: Config) {
    1 <= cfg.ttl <= MAX_TTL_MS && 1 <= cfg.lease <= Min(MAX_LEASE_MS, cfg.ttl) && 1 <= cfg.capacity <= MAX_CAPACITY
  }

  datatype State = State(stored: Raw, highWater: nat)

  datatype StoreError = InvalidDeadline | IdGeneration | RevisionExhausted | StorageCapacity | Refused | StoreFailed

  datatype Outcome<T> = Outcome(state: State, answer: Result<T, StoreError>)

  datatype Taken = Taken(credentials: Credentials, sourceUrl: nat, decision: Decision)

  datatype Prompt = NoPrompt | Retry(after: int) | Offer(promptId: Id, decision: Decision)

  predicate IsUnconfirmed(e: Entry) {
    e.base.confirmation == Unconfirmed
  }

  predicate IsPending(e: Entry) {
    e.base.confirmation == Confirmed && e.claim.None?
  }

  function IdOf(): Entry -> Id {
    (e: Entry) => e.base.entryId
  }

  function WithId(id: Id): Entry -> bool {
    (e: Entry) => e.base.entryId == id
  }

  function OtherThan(id: Id): Entry -> bool {
    (e: Entry) => e.base.entryId != id
  }

  predicate SameOrigin(i: Input, tab: nat, frame: nat, origin: nat) {
    i.tab == tab && i.frame == frame && i.origin == origin
  }

  predicate SameClaimScope(e: Entry, ctx: Context) {
    SameOrigin(e.base.input, ctx.tab, ctx.frame, ctx.origin) && e.base.input.security == ctx.security
  }

  function OtherSlot(input: Input): Entry -> bool {
    (e: Entry) => !(e.base.input.runtime == input.runtime && SameOrigin(e.base.input, input.tab, input.frame, input.origin)
                    && e.base.input.security == input.security)
  }

  // ---------------------------------------------------------------------------------------------
  // Order and eviction
  // ---------------------------------------------------------------------------------------------

  predicate Before(a: Entry, b: Entry) {
    a.base.createdAt < b.base.createdAt || (a.base.createdAt == b.base.createdAt && a.base.entryId <= b.base.entryId)
  }

  function Insert(e: Entry, sorted: seq<Entry>): (r: seq<Entry>)
    ensures multiset(r) == multiset(sorted) + multiset{e}
    ensures |r| == |sorted| + 1
  {
    if sorted == [] then [e]
    else if Before(e, sorted[0]) then [e] + sorted
    else
      assert sorted == [sorted[0]] + sorted[1..];
      [sorted[0]] + Insert(e, sorted[1..])
  }

  /** The host's stable sort, oldest first; ids break ties. */
  function Sorted(entries: seq<Entry>): (r: seq<Entry>)
    ensures multiset(r) == multiset(entries) && |r| == |entries|
  {
    if entries == [] then []
    else
      assert entries == [entries[0]] + entries[1..];
      Insert(entries[0], Sorted(entries[1..]))
  }

  function Last(entries: seq<Entry>, n: nat): seq<Entry> {
    if |entries| <= n then entries else entries[|entries| - n..]
  }

  function FitsNext(s: State, revision: nat, entries: seq<Entry>, cfg: Config): bool {
    var next := Max(revision, s.highWater) + 1;
    next <= MAX_SAFE_INTEGER && cfg.fits(next, entries)
  }

  function TrimToFit(s: State, revision: nat, entries: seq<Entry>, cfg: Config): (r: seq<Entry>)
    ensures |r| <= |entries| && r == entries[|entries| - |r|..]
  {
    if !FitsNext(s, revision, entries, cfg) && |entries| > 1 then TrimToFit(s, revision, entries[1..], cfg) else entries
  }

  // ---------------------------------------------------------------------------------------------
  // Reading and writing
  // ---------------------------------------------------------------------------------------------

  predicate EntryOk(e: Entry, now: nat) {
    && e.base.createdAt <= now && e.base.createdAt < e.base.expiresAt <= MAX_SAFE_INTEGER
    && e.base.expiresAt - e.base.createdAt <= MAX_TTL_MS
    && (e.claim.Some? ==>
          var l := e.claim.value.lease;
          && e.base.confirmation == Confirmed
          && e.base.createdAt <= l.claimedAt <= now
          && l.claimedAt < l.claimExpiresAt <= e.base.expiresAt
          && l.claimExpiresAt - l.claimedAt <= MAX_LEASE_MS)
  }

  predicate DistinctIds(entries: seq<Entry>) {
    forall i, j :: 0 <= i < j < |entries| ==> entries[i].base.entryId != entries[j].base.entryId
  }

  /** No two entries share a prompt id, and no prompt id is an entry id. */
  predicate DistinctPrompts(entries: seq<Entry>) {
    && (forall e, f :: e in entries && f in entries && e.claim.Some? && f.claim.Some? && e.base.entryId != f.base.entryId ==>
          e.claim.value.lease.promptId != f.claim.value.lease.promptId)
    && (forall e, f :: e in entries && f in entries && e.claim.Some? ==> e.claim.value.lease.promptId != f.base.entryId)
  }

  predicate WellFormed(entries: seq<Entry>, now: nat) {
    (forall e :: e in entries ==> EntryOk(e, now)) && DistinctIds(entries) && DistinctPrompts(entries)
  }

  predicate Readable(revision: nat, entries: seq<Entry>, now: nat, cfg: Config) {
    && 0 < revision <= MAX_SAFE_INTEGER && |entries| <= MAX_CAPACITY
    && WellFormed(entries, now)
    && cfg.fits(revision, entries)
  }

  predicate Expired(e: Entry, now: nat) {
    e.base.expiresAt <= now
  }

  predicate Reclaims(e: Entry, now: nat, reclaim: bool) {
    reclaim && e.claim.Some? && e.claim.value.lease.claimExpiresAt <= now
  }

  /** An entry past its expiry goes; an expired claim is taken back, leaving the entry pending. */
  function LiveForm(now: nat, reclaim: bool): Entry -> Option<Entry> {
    (e: Entry) => if Expired(e, now) then None else if Reclaims(e, now, reclaim) then Some(e.(claim := None)) else Some(e)
  }

  function Live(entries: seq<Entry>, now: nat, reclaim: bool): seq<Entry> {
    FilterMap(entries, LiveForm(now, reclaim))
  }

  datatype Parsed = Parsed(revision: nat, entries: seq<Entry>, dirty: bool)

  function ParsedForm(revision: nat, entries: seq<Entry>, now: nat, reclaim: bool, cfg: Config): Parsed {
    var live := Live(entries, now, reclaim);
    Parsed(revision, Last(Sorted(live), cfg.capacity), live != entries || |live| > cfg.capacity)
  }

  function Read(s: State, now: nat, reclaim: bool, cfg: Config): (State, Parsed) {
    match s.stored
    case Absent => (s, Parsed(s.highWater, [], false))
    case Garbage(r) =>
      var h := if r.Some? then Max(s.highWater, r.value) else s.highWater;
      (s.(highWater := h), Parsed(h, [], true))
    case Envelope(revision, entries) =>
      var h := if 0 < revision <= MAX_SAFE_INTEGER then Max(s.highWater, revision) else s.highWater;
      if Readable(revision, entries, now, cfg)
      then (s.(highWater := h), ParsedForm(revision, entries, now, reclaim, cfg))
      else (s.(highWater := h), Parsed(h, [], true))
  }

  function Write(s: State, revision: nat, entries: seq<Entry>, o: StoreOutcome, cfg: Config): Outcome<()> {
    var base := Max(revision, s.highWater);
    if base >= MAX_SAFE_INTEGER then Outcome(s, Err(RevisionExhausted))
    else if !cfg.fits(base + 1, entries) then Outcome(s, Err(StorageCapacity))
    else Outcome(State(if o.commits then Envelope(base + 1, entries) else s.stored,
                       if o.throws then s.highWater else base + 1),
                 if o.throws then Err(StoreFailed) else Ok(()))
  }

  /** A write after which the operation answers `value`. */
  function Answering<T>(s: State, revision: nat, entries: seq<Entry>, o: StoreOutcome, cfg: Config, value: T): Outcome<T> {
    var w := Write(s, revision, entries, o, cfg);
    Outcome(w.state, match w.answer case Ok(_) => Ok(value) case Err(e) => Err(e))
  }

  /** Operations that found nothing to do write only when reading found something to tidy. */
  function Tidied<T>(s: State, p: Parsed, o: StoreOutcome, cfg: Config, value: T): Outcome<T> {
    if p.dirty then Answering(s, p.revision, p.entries, o, cfg, value) else Outcome(s, Ok(value))
  }

  predicate Collides(entries: seq<Entry>, id: Id) {
    exists e :: e in entries && (e.base.entryId == id || (e.claim.Some? && e.claim.value.lease.promptId == id))
  }

  function FreshId(entries: seq<Entry>, candidates: seq<Id>): (id: Option<Id>)
    ensures id.Some? ==> id.value in candidates && !Collides(entries, id.value)
  {
    if candidates == [] then None
    else if !Collides(entries, candidates[0]) then Some(candidates[0])
    else
      assert candidates == [candidates[0]] + candidates[1..];
      FreshId(entries, candidates[1..])
  }

  // ---------------------------------------------------------------------------------------------
  // The operations
  // ---------------------------------------------------------------------------------------------

  function Sealed(base: Base, credentials: Credentials, user: nat, iv: nat): Entry {
    Entry(base, CredentialBox(EncryptionKey(user), base, credentials, iv), None)
  }

  /** The credentials of an entry, if its box opens under this key and under what the entry says of itself. */
  function CredentialsOf(e: Entry, user: nat): Option<Credentials> {
    if e.box.key == EncryptionKey(user) && e.box.aad == e.base then Some(e.box.plain) else None
  }

  function PutStep(s0: State, now: nat, input: Input, credentials: Credentials, user: nat, confirmation: Confirmation,
                   candidates: seq<Id>, iv: nat, guard: bool, o: StoreOutcome, cfg: Config): Outcome<Base>
  {
    var (s, p) := Read(s0, now, false, cfg);
    match FreshId(p.entries, candidates)
    case None => Outcome(s, Err(IdGeneration))
    case Some(id) =>
      if now + cfg.ttl > MAX_SAFE_INTEGER then Outcome(s, Err(InvalidDeadline))
      else
        var base := Base(id, input, now, now + cfg.ttl, confirmation);
        var all := Sorted(Filter(p.entries, OtherSlot(input)) + [Sealed(base, credentials, user, iv)]);
        var kept := TrimToFit(s, p.revision, Last(all, cfg.capacity), cfg);
        if !FitsNext(s, p.revision, kept, cfg) then Outcome(s, Err(StorageCapacity))
        else if !guard then Outcome(s, Err(Refused))
        else Answering(s, p.revision, kept, o, cfg, base)
  }

  function FindEntry(entries: seq<Entry>, id: Id): Option<nat> {
    IndexOf(entries, WithId(id))
  }

  function ConfirmedForm(e: Entry, credentials: Credentials, user: nat, iv: nat): Entry {
    Sealed(e.base.(confirmation := Confirmed), credentials, user, iv)
  }

  predicate SameMetadata(base: Base, expected: Base) {
    base.(confirmation := Unconfirmed) == expected.(confirmation := Unconfirmed)
  }

  function ConfirmStep(s0: State, now: nat, expected: Base, user: nat, iv: nat, guardBefore: bool, guardAfter: bool,
                       o: StoreOutcome, rollback: StoreOutcome, cfg: Config): Outcome<bool>
  {
    var (s, p) := Read(s0, now, false, cfg);
    match FindEntry(p.entries, expected.entryId)
    case None => Tidied(s, p, o, cfg, false)
    case Some(i) =>
      var e := p.entries[i];
      if !SameMetadata(e.base, expected) then Tidied(s, p, o, cfg, false)
      else if e.base.confirmation == Confirmed then Tidied(s, p, o, cfg, true)
      else match CredentialsOf(e, user)
        case None => Answering(s, p.revision, Filter(p.entries, OtherThan(e.base.entryId)), o, cfg, false)
        case Some(credentials) =>
          var entries := Replaced(p.entries, e.base.entryId, ConfirmedForm(e, credentials, user, iv));
          if !FitsNext(s, p.revision, entries, cfg) then Outcome(s, Err(StorageCapacity))
          else if !guardBefore then Outcome(s, Err(Refused))
          else
            var w := Write(s, p.revision, entries, o, cfg);
            if w.answer.Err? then Outcome(w.state, Err(w.answer.error))
            else if guardAfter then Outcome(w.state, Ok(true))
            else
              var r := Write(w.state, p.revision, p.entries, rollback, cfg);
              Outcome(r.state, Err(if r.answer.Err? then r.answer.error else Refused))
  }

  function DiscardStep(s0: State, now: nat, id: Id, o: StoreOutcome, cfg: Config): Outcome<bool> {
    var (s, p) := Read(s0, now, false, cfg);
    var entries := Filter(p.entries, OtherThan(id));
    if p.dirty || |entries| != |p.entries|
    then Answering(s, p.revision, entries, o, cfg, |entries| != |p.entries|)
    else Outcome(s, Ok(false))
  }

  /** Entries of the same place but of another session are stale. */
  function NotStale(ctx: Context): Entry -> bool {
    (e: Entry) => !SameOrigin(e.base.input, ctx.tab, ctx.frame, ctx.origin) || e.base.input.security == ctx.security
  }

  function Matching(ctx: Context, captureId: Option<Id>): Entry -> bool {
    (e: Entry) => (captureId.None? || e.base.entryId == captureId.value) && SameClaimScope(e, ctx)
  }

  /** Is this entry's claim held by this very document? */
  predicate ClaimedBy(e: Entry, ctx: Context) {
    e.claim.Some? && e.claim.value.lease.document == ctx.document && e.claim.value.lease.runtime == ctx.runtime
  }

  function ClaimantTest(ctx: Context): Entry -> bool {
    (e: Entry) => ClaimedBy(e, ctx)
  }

  function PendingTest(): Entry -> bool {
    (e: Entry) => IsPending(e)
  }

  function FindLast(entries: seq<Entry>, test: Entry -> bool): (i: Option<nat>)
    ensures i.Some? ==> i.value < |entries| && test(entries[i.value])
    ensures i.None? ==> forall e :: e in entries ==> !test(e)
  {
    if entries == [] then None
    else if test(entries[|entries| - 1]) then Some(|entries| - 1)
    else
      assert entries == entries[..|entries| - 1] + [entries[|entries| - 1]];
      FindLast(entries[..|entries| - 1], test)
  }

  function TagFor(base: Base, lease: Lease, decision: Decision, user: nat): Tag {
    Tag(DecisionKey(user), base.entryId, lease.promptId, lease.document, lease.runtime, base.input.origin,
        base.input.sourceUrl, base.input.security, decision)
  }

  /** The decision of a claim, if it opens and its tag is the right one. */
  function DecisionOf(e: Entry, user: nat): Option<Decision> {
    if e.claim.None? then None
    else
      var c := e.claim.value;
      if c.decision.key != EncryptionKey(user) || c.decision.aad != DecisionAad(e.base, e.box, c.lease) then None
      else if c.tag == TagFor(e.base, c.lease, c.decision.plain, user) then Some(c.decision.plain)
      else None
  }

  function Claimed(e: Entry, lease: Lease, decision: Decision, user: nat, iv: nat): Entry {
    e.(claim := Some(Claim(lease, DecisionBox(EncryptionKey(user), DecisionAad(e.base, e.box, lease), decision, iv),
                           TagFor(e.base, lease, decision, user))))
  }

  function SoonestExpiry(entries: seq<Entry>): Option<nat> {
    if entries == [] then None
    else
      var rest := SoonestExpiry(entries[1..]);
      if entries[0].claim.None? then rest
      else
        var own := entries[0].claim.value.lease.claimExpiresAt;
        Some(if rest.None? then own else Min(own, rest.value))
  }

  /** A write that first asks the guard. */
  function Guarded<T>(s: State, revision: nat, entries: seq<Entry>, guard: bool, o: StoreOutcome, cfg: Config, value: T): Outcome<T> {
    if guard then Answering(s, revision, entries, o, cfg, value) else Outcome(s, Err(Refused))
  }

  function ClaimStep(s0: State, now: nat, ctx: Context, user: nat, evaluate: (Credentials, nat) -> Option<Decision>,
                     captureId: Option<Id>, candidates: seq<Id>, iv: nat, guard: bool, o: StoreOutcome, cfg: Config): Outcome<Prompt>
  {
    var (s, p) := Read(s0, now, true, cfg);
    var entries := Filter(p.entries, NotStale(ctx));
    var dirty := p.dirty || |entries| != |p.entries|;
    var matching := Filter(entries, Matching(ctx, captureId));
    match FindLast(matching, ClaimantTest(ctx))
    case Some(i) =>
      var e := matching[i];
      (match DecisionOf(e, user)
       case None => Guarded(s, p.revision, Filter(entries, OtherThan(e.base.entryId)), guard, o, cfg, NoPrompt)
       case Some(d) =>
         var offer := Offer(if e.claim.Some? then e.claim.value.lease.promptId else 0, d);
         if dirty then Guarded(s, p.revision, entries, guard, o, cfg, offer) else Outcome(s, Ok(offer)))
    case None =>
      match FindLast(matching, PendingTest())
      case None =>
        var soonest := SoonestExpiry(matching);
        var answer := if soonest.None? then NoPrompt else Retry(Max(1, soonest.value - now));
        if dirty then Guarded(s, p.revision, entries, guard, o, cfg, answer) else Outcome(s, Ok(answer))
      case Some(i) =>
        var e := matching[i];
        var credentials := CredentialsOf(e, user);
        var decision := if credentials.None? then None else evaluate(credentials.value, e.base.input.sourceUrl);
        if decision.None? then Guarded(s, p.revision, Filter(entries, OtherThan(e.base.entryId)), guard, o, cfg, NoPrompt)
        else match FreshId(entries, candidates)
          case None => Outcome(s, Err(IdGeneration))
          case Some(promptId) =>
            if now + cfg.lease > MAX_SAFE_INTEGER then Outcome(s, Err(InvalidDeadline))
            else
              var lease := Lease(promptId, ctx.document, ctx.runtime, now, Min(e.base.expiresAt, now + cfg.lease));
              if lease.claimExpiresAt <= now
              then Guarded(s, p.revision, Filter(entries, OtherThan(e.base.entryId)), guard, o, cfg, NoPrompt)
              else
                var after := Replaced(entries, e.base.entryId, Claimed(e, lease, decision.value, user, iv));
                if !FitsNext(s, p.revision, after, cfg) then Outcome(s, Err(StorageCapacity))
                else Guarded(s, p.revision, after, guard, o, cfg, Offer(promptId, decision.value))
  }

  function Replaced(entries: seq<Entry>, id: Id, next: Entry): (r: seq<Entry>)
    ensures |r| == |entries|
    ensures forall i :: 0 <= i < |entries| ==> r[i] == if entries[i].base.entryId == id then next else entries[i]
  {
    seq(|entries|, i requires 0 <= i < |entries| => if entries[i].base.entryId == id then next else entries[i])
  }

  /** The claim a document refers to by its prompt id. */
  function HeldPrompt(promptId: Id, ctx: Context): Entry -> bool {
    (e: Entry) => ClaimedBy(e, ctx) && e.claim.value.lease.promptId == promptId && SameClaimScope(e, ctx)
  }

  function TakeStep(s0: State, now: nat, promptId: Id, ctx: Context, user: nat, guard: bool, o: StoreOutcome, cfg: Config): Outcome<Option<Taken>> {
    var (s, p) := Read(s0, now, false, cfg);
    match IndexOf(p.entries, HeldPrompt(promptId, ctx))
    case None => Tidied(s, p, o, cfg, None)
    case Some(i) =>
      var e := p.entries[i];
      var decision := DecisionOf(e, user);
      var credentials := if decision.Some? then CredentialsOf(e, user) else None;
      var taken := if credentials.Some? && decision.Some?
        then Some(Taken(credentials.value, e.base.input.sourceUrl, decision.value)) else None;
      Guarded(s, p.revision, Filter(p.entries, OtherThan(e.base.entryId)), guard, o, cfg, taken)
  }

  function DismissStep(s0: State, now: nat, promptId: Id, ctx: Context, guard: bool, o: StoreOutcome, cfg: Config): Outcome<bool> {
    var (s, p) := Read(s0, now, false, cfg);
    match IndexOf(p.entries, HeldPrompt(promptId, ctx))
    case None => Tidied(s, p, o, cfg, false)
    case Some(i) => Guarded(s, p.revision, Filter(p.entries, OtherThan(p.entries[i].base.entryId)), guard, o, cfg, true)
  }

  function OtherTab(tab: nat): Entry -> bool {
    (e: Entry) => e.base.input.tab != tab
  }

  function ClearTabStep(s0: State, now: nat, tab: nat, o: StoreOutcome, cfg: Config): Outcome<()> {
    var (s, p) := Read(s0, now, false, cfg);
    var entries := Filter(p.entries, OtherTab(tab));
    if p.dirty || |entries| != |p.entries| then Answering(s, p.revision, entries, o, cfg, ()) else Outcome(s, Ok(()))
  }

  function ClearStep(s0: State, now: nat, o: StoreOutcome, cfg: Config): Outcome<()> {
    var (s, p) := Read(s0, now, false, cfg);
    Answering(s, p.revision, [], o, cfg, ())
  }

  /** Reads that only report: they write back what reading tidied. */
  function RefreshStep(s0: State, now: nat, o: StoreOutcome, cfg: Config): Outcome<seq<Entry>> {
    var (s, p) := Read(s0, now, false, cfg);
    Tidied(s, p, o, cfg, p.entries)
  }
}
