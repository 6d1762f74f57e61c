/** The pending-save store object: what is stored, and the highest revision this worker has seen. */
module PendingSaveStore {
  import opened Numbers
  import opened Sequences
  import opened StoreModel
  import opened PendingSaveSteps

  lemma {:induction false} LiveOneMore(entries: seq<Entry>, i: nat, now: nat, reclaim: bool)
    requires i < |entries|
    ensures entries[..i + 1] == entries[..i] + [entries[i]]
    ensures Live(entries[..i + 1], now, reclaim) == Live(entries[..i], now, reclaim)
            + if Expired(entries[i], now) then []
              else if Reclaims(entries[i], now, reclaim) then [entries[i].(claim := None)] else [entries[i]]
    ensures |Live(entries[..i], now, reclaim)| <= i
  {
    hide FilterMap;
    assert entries[..i + 1][..i] == entries[..i];
    FilterMapLast(entries[..i + 1], LiveForm(now, reclaim));
  }

  ghost predicate PromptsApart(entries: seq<Entry>) {
    forall e, f :: e in entries && f in entries && e.claim.Some? && f.claim.Some? && e.base.entryId != f.base.entryId ==>
      e.claim.value.lease.promptId != f.claim.value.lease.promptId
  }

  /** What the reading loop has collected: every entry id, every prompt id. */
  ghost predicate Collected(entries: seq<Entry>, ids: set<Id>, prompts: set<Id>) {
    && ids == (set e | e in entries :: e.base.entryId)
    && prompts == (set e | e in entries && e.claim.Some? :: e.claim.value.lease.promptId)
    && DistinctIds(entries) && PromptsApart(entries)
  }

  lemma {:induction false} CollectedOneMore(entries: seq<Entry>, e: Entry, ids: set<Id>, prompts: set<Id>)
    requires Collected(entries, ids, prompts)
    ensures e.base.entryId in ids ==> !DistinctIds(entries + [e])
    ensures e.base.entryId !in ids && e.claim.Some? && e.claim.value.lease.promptId in prompts ==> !PromptsApart(entries + [e])
    ensures e.base.entryId !in ids && (e.claim.Some? ==> e.claim.value.lease.promptId !in prompts) ==>
              Collected(entries + [e], ids + {e.base.entryId}, if e.claim.Some? then prompts + {e.claim.value.lease.promptId} else prompts)
  {
    var all := entries + [e];
    assert forall f :: f in all <==> f in entries || f == e;
    if e.base.entryId in ids {
      var f :| f in entries && f.base.entryId == e.base.entryId;
      var i :| 0 <= i < |entries| && entries[i] == f;
      assert all[i] == f && all[|entries|] == e;
    } else if e.claim.Some? && e.claim.value.lease.promptId in prompts {
      var f :| f in entries && f.claim.Some? && f.claim.value.lease.promptId == e.claim.value.lease.promptId;
      assert f.base.entryId in ids;
    }
  }

  lemma {:induction false} PrefixProblem(entries: seq<Entry>, i: nat)
    requires i <= |entries|
    ensures !DistinctIds(entries[..i]) ==> !DistinctIds(entries)
    ensures !PromptsApart(entries[..i]) ==> !PromptsApart(entries)
  {
    if !PromptsApart(entries[..i]) {
      var e, f :| e in entries[..i] && f in entries[..i] && e.claim.Some? && f.claim.Some? && e.base.entryId != f.base.entryId
        && e.claim.value.lease.promptId == f.claim.value.lease.promptId;
      assert e in entries && f in entries;
    }
  }

  /** Reading accepts exactly the readable envelopes; it drops the expired, takes back expired claims and sorts. */
  method ParseEnvelope(revision: nat, rawEntries: seq<Entry>, now: nat, reclaim: bool, cfg: Config) returns (r: Option<Parsed>)
    ensures r == if Readable(revision, rawEntries, now, cfg) then Some(ParsedForm(revision, rawEntries, now, reclaim, cfg)) else None
  {
    hide EntryOk, Live, Expired, Reclaims, Sorted, DistinctIds, PromptsApart;
    if !(0 < revision <= MAX_SAFE_INTEGER) || |rawEntries| > MAX_CAPACITY {
      return None;
    }
    var entries: seq<Entry>, ids: set<Id>, prompts: set<Id>, dirty := [], {}, {}, false;
    assert Live([], now, reclaim) == [] && Collected([], {}, {}) by { NothingCollected(now, reclaim); }
    assert rawEntries[..0] == [];
    for i := 0 to |rawEntries|
      invariant entries == Live(rawEntries[..i], now, reclaim) && |entries| <= i
      invariant Collected(rawEntries[..i], ids, prompts)
      invariant forall e :: e in rawEntries[..i] ==> EntryOk(e, now)
      invariant dirty <==> entries != rawEntries[..i]
    {
      var e := rawEntries[i];
      assert e in rawEntries;
      LiveOneMore(rawEntries, i, now, reclaim);
      CollectedOneMore(rawEntries[..i], e, ids, prompts);
      PrefixProblem(rawEntries, i + 1);
      if !EntryOk(e, now) || e.base.entryId in ids {
        return None;
      }
      ids := ids + {e.base.entryId};
      if e.claim.Some? {
        if e.claim.value.lease.promptId in prompts {
          assert !DistinctPrompts(rawEntries) by { ApartIsDistinct(rawEntries); }
          return None;
        }
        prompts := prompts + {e.claim.value.lease.promptId};
      }
      if Expired(e, now) {
        dirty := true;
        continue;
      }
      if Reclaims(e, now, reclaim) {
        entries := entries + [e.(claim := None)];
        dirty := true;
        assert e.(claim := None) != e by { ReclaimChanges(e, now, reclaim); }
        assert entries[|entries| - 1] != rawEntries[..i + 1][i];
        continue;
      }
      assert |entries| == i && dirty ==> (entries + [e])[..i] != rawEntries[..i];
      entries := entries + [e];
    }
    assert rawEntries[..|rawEntries|] == rawEntries;
    var rest := prompts;
    while rest != {}
      invariant rest <= prompts
      invariant forall t :: t in prompts - rest ==> t !in ids
      decreases |rest|
    {
      var t :| t in rest;
      rest := rest - {t};
      if t in ids {
        assert !DistinctPrompts(rawEntries);
        return None;
      }
    }
    forall e, f | e in rawEntries && f in rawEntries && e.claim.Some? ensures e.claim.value.lease.promptId != f.base.entryId {
      assert e.claim.value.lease.promptId in prompts && f.base.entryId in ids;
    }
    ApartIsDistinct(rawEntries);
    entries := Sorted(entries);
    if |entries| > cfg.capacity {
      entries := entries[|entries| - cfg.capacity..];
      dirty := true;
    }
    if !cfg.fits(revision, rawEntries) {
      return None;
    }
    return Some(Parsed(revision, entries, dirty));
  }

  lemma {:induction false} NothingCollected(now: nat, reclaim: bool)
    ensures Live([], now, reclaim) == [] && Collected([], {}, {})
  {
  }

  lemma {:induction false} ReclaimChanges(e: Entry, now: nat, reclaim: bool)
    requires Reclaims(e, now, reclaim)
    ensures e.(claim := None) != e
  {
  }

  ghost predicate NoPromptIsEntry(entries: seq<Entry>) {
    forall e, f :: e in entries && f in entries && e.claim.Some? ==> e.claim.value.lease.promptId != f.base.entryId
  }

  lemma {:induction false} ApartIsDistinct(entries: seq<Entry>)
    ensures DistinctPrompts(entries) ==> PromptsApart(entries)
    ensures PromptsApart(entries) && NoPromptIsEntry(entries) ==> DistinctPrompts(entries)
  {
  }

  class AutofillPendingSaveStore {
    var stored: Raw
    var highWaterRevision: nat
    const cfg: Config

    constructor (cfg: Config)
      requires ValidConfig(cfg)
      ensures this.cfg == cfg && Now() == State(Absent, 0)
    {
      this.cfg := cfg;
      stored, highWaterRevision := Absent, 0;
    }

    function Now(): State
      reads this
    {
      State(stored, highWaterRevision)
    }

    method ReadEnvelope(now: nat, reclaim: bool) returns (p: Parsed)
      modifies `highWaterRevision
      ensures (Now(), p) == Read(old(Now()), now, reclaim, cfg)
    {
      hide Readable, ParsedForm;
      match stored {
        case Absent => return Parsed(highWaterRevision, [], false);
        case Garbage(revision) =>
          if revision.Some? {
            highWaterRevision := Max(highWaterRevision, revision.value);
          }
          return Parsed(highWaterRevision, [], true);
        case Envelope(revision, entries) =>
          if 0 < revision <= MAX_SAFE_INTEGER {
            highWaterRevision := Max(highWaterRevision, revision);
          }
          var parsed := ParseEnvelope(revision, entries, now, reclaim, cfg);
          if parsed.None? {
            return Parsed(highWaterRevision, [], true);
          }
          assert 0 < revision <= MAX_SAFE_INTEGER by { ReadableRevision(revision, entries, now, cfg); }
          highWaterRevision := Max(highWaterRevision, parsed.value.revision);
          assert parsed.value.revision == revision by { ParsedRevision(revision, entries, now, reclaim, cfg); }
          return parsed.value;
      }
    }

    method WriteEnvelope(revision: nat, entries: seq<Entry>, o: StoreOutcome) returns (r: Result<(), StoreError>)
      modifies this
      ensures Write(old(Now()), revision, entries, o, cfg) == Outcome(Now(), r)
      ensures r.Ok? ==> r == Ok(())
    {
      var base := Max(revision, highWaterRevision);
      if base >= MAX_SAFE_INTEGER {
        return Err(RevisionExhausted);
      }
      if !cfg.fits(base + 1, entries) {
        return Err(StorageCapacity);
      }
      if o.commits {
        stored := Envelope(base + 1, entries);
      }
      if o.throws {
        return Err(StoreFailed);
      }
      highWaterRevision := base + 1;
      return Ok(());
    }

    /** Draw ids until one collides with no entry and no prompt. */
    method DrawId(entries: seq<Entry>, candidates: seq<Id>) returns (id: Option<Id>)
      ensures id == FreshId(entries, candidates)
    {
      var attempt := 0;
      while attempt < |candidates|
        invariant 0 <= attempt <= |candidates|
        invariant FreshId(entries, candidates) == FreshId(entries, candidates[attempt..])
      {
        if !Collides(entries, candidates[attempt]) {
          return Some(candidates[attempt]);
        }
        attempt := attempt + 1;
      }
      return None;
    }

    /** Drop the oldest entries until the rest fits the capacity and the envelope size. */
    method Evict(revision: nat, entries: seq<Entry>) returns (retained: seq<Entry>)
      requires entries != []
      ensures retained == TrimToFit(Now(), revision, Last(entries, cfg.capacity), cfg)
    {
      retained := entries;
      while |retained| > cfg.capacity
        invariant Last(retained, cfg.capacity) == Last(entries, cfg.capacity)
      {
        assert retained[1..][|retained| - 1 - cfg.capacity..] == retained[|retained| - cfg.capacity..];
        retained := retained[1..];
      }
      while !FitsNext(Now(), revision, retained, cfg) && |retained| > 1
        invariant TrimToFit(Now(), revision, retained, cfg) == TrimToFit(Now(), revision, Last(entries, cfg.capacity), cfg)
      {
        retained := retained[1..];
      }
    }

    /** Seal a capture and store it in place of an older one from the same slot. */
    method Put(now: nat, input: Input, credentials: Credentials, user: nat, confirmation: Confirmation, candidates: seq<Id>,
               iv: nat, guard: bool, o: StoreOutcome) returns (r: Result<Base, StoreError>)
      requires |candidates| == MAX_ID_ATTEMPTS
      modifies this
      ensures PutStep(old(Now()), now, input, credentials, user, confirmation, candidates, iv, guard, o, cfg) == Outcome(Now(), r)
    {
      hide Read, Sorted, Filter, TrimToFit, FitsNext, Write, Collides;
      var current := ReadEnvelope(now, false);
      var id := DrawId(current.entries, candidates);
      if id.None? {
        return Err(IdGeneration);
      }
      if now + cfg.ttl > MAX_SAFE_INTEGER {
        return Err(InvalidDeadline);
      }
      var base := Base(id.value, input, now, now + cfg.ttl, confirmation);
      var retained := Filter(current.entries, OtherSlot(input)) + [Sealed(base, credentials, user, iv)];
      retained := Sorted(retained);
      retained := Evict(current.revision, retained);
      if !FitsNext(Now(), current.revision, retained, cfg) {
        return Err(StorageCapacity);
      }
      if !guard {
        return Err(Refused);
      }
      var written := WriteEnvelope(current.revision, retained, o);
      return match written case Ok(_) => Ok(base) case Err(e) => Err(e);
    }

    /**
     Re-seal one quarantined capture as confirmed. When the guard refuses only after the write, what was
     read is written back.
     */
    method ConfirmUnconfirmed(now: nat, expected: Base, user: nat, iv: nat, guardBefore: bool, guardAfter: bool,
                              o: StoreOutcome, rollback: StoreOutcome) returns (r: Result<bool, StoreError>)
      modifies this
      ensures ConfirmStep(old(Now()), now, expected, user, iv, guardBefore, guardAfter, o, rollback, cfg) == Outcome(Now(), r)
      ensures guardBefore && !guardAfter && o == StoreOutcome(true, false) && rollback == StoreOutcome(true, false)
              && ConfirmReachesWrite(old(Now()), now, expected, user, iv, cfg)
              ==> r.Err? && (r == Err(Refused) ==>
                    stored.Envelope? && stored.entries == Read(old(Now()), now, false, cfg).1.entries)
    {
      hide Read, Filter, FitsNext, CredentialsOf;
      var current := ReadEnvelope(now, false);
      var i := FindEntry(current.entries, expected.entryId);
      if i.None? || !SameMetadata(current.entries[i.value].base, expected) {
        var tidied := Tidy(current, o);
        return match tidied case Ok(_) => Ok(false) case Err(e) => Err(e);
      }
      var entry := current.entries[i.value];
      if entry.base.confirmation == Confirmed {
        var tidied := Tidy(current, o);
        return match tidied case Ok(_) => Ok(true) case Err(e) => Err(e);
      }
      var credentials := CredentialsOf(entry, user);
      if credentials.None? {
        var removed := WriteEnvelope(current.revision, Filter(current.entries, OtherThan(entry.base.entryId)), o);
        return match removed case Ok(_) => Ok(false) case Err(e) => Err(e);
      }
      var entries := Replaced(current.entries, entry.base.entryId, ConfirmedForm(entry, credentials.value, user, iv));
      if !FitsNext(Now(), current.revision, entries, cfg) {
        return Err(StorageCapacity);
      }
      if !guardBefore {
        return Err(Refused);
      }
      var written := WriteEnvelope(current.revision, entries, o);
      if written.Err? {
        return Err(written.error);
      }
      if !guardAfter {
        var restored := WriteEnvelope(current.revision, current.entries, rollback);
        return Err(if restored.Err? then restored.error else Refused);
      }
      return Ok(true);
    }

    /** Write back what reading tidied, if anything. */
    method Tidy(p: Parsed, o: StoreOutcome) returns (r: Result<(), StoreError>)
      modifies this
      ensures Tidied(old(Now()), p, o, cfg, ()) == Outcome(Now(), r)
    {
      hide Write;
      r := Ok(());
      if p.dirty {
        r := WriteEnvelope(p.revision, p.entries, o);
      }
    }

    method DiscardCapture(now: nat, id: Id, o: StoreOutcome) returns (r: Result<bool, StoreError>)
      modifies this
      ensures DiscardStep(old(Now()), now, id, o, cfg) == Outcome(Now(), r)
    {
      hide Read, Filter, Write;
      var current := ReadEnvelope(now, false);
      var entries := Filter(current.entries, OtherThan(id));
      if current.dirty || |entries| != |current.entries| {
        var written := WriteEnvelope(current.revision, entries, o);
        if written.Err? {
          return Err(written.error);
        }
      }
      return Ok(|entries| != |current.entries|);
    }

    method WriteGuarded(revision: nat, entries: seq<Entry>, guard: bool, o: StoreOutcome, prompt: Prompt) returns (r: Result<Prompt, StoreError>)
      modifies this
      ensures Guarded(old(Now()), revision, entries, guard, o, cfg, prompt) == Outcome(Now(), r)
    {
      hide Write;
      if !guard {
        return Err(Refused);
      }
      var written := WriteEnvelope(revision, entries, o);
      return match written case Ok(_) => Ok(prompt) case Err(e) => Err(e);
    }

    /** Offer the newest matching capture to this document, or repeat the offer it already holds. */
    method Claim(now: nat, ctx: Context, user: nat, evaluate: (Credentials, nat) -> Option<Decision>, captureId: Option<Id>,
                 candidates: seq<Id>, iv: nat, guard: bool, o: StoreOutcome) returns (r: Result<Prompt, StoreError>)
      requires |candidates| == MAX_ID_ATTEMPTS
      modifies this
      ensures ClaimStep(old(Now()), now, ctx, user, evaluate, captureId, candidates, iv, guard, o, cfg) == Outcome(Now(), r)
    {
      hide Read, Filter, FitsNext, Guarded, CredentialsOf, DecisionOf, SoonestExpiry, FreshId, ClaimedBy, IsPending, Collides;
      var current := ReadEnvelope(now, true);
      var entries := Filter(current.entries, NotStale(ctx));
      var dirty := current.dirty || |entries| != |current.entries|;
      var matching := Filter(entries, Matching(ctx, captureId));
      var held := FindLast(matching, ClaimantTest(ctx));
      if held.Some? {
        var e := matching[held.value];
        var decision := DecisionOf(e, user);
        if decision.None? {
          r := WriteGuarded(current.revision, Filter(entries, OtherThan(e.base.entryId)), guard, o, NoPrompt);
          return;
        }
        var offer := Offer(if e.claim.Some? then e.claim.value.lease.promptId else 0, decision.value);
        if dirty {
          r := WriteGuarded(current.revision, entries, guard, o, offer);
          return;
        }
        return Ok(offer);
      }
      var available := FindLast(matching, PendingTest());
      if available.None? {
        var soonest := SoonestExpiry(matching);
        var answer := if soonest.None? then NoPrompt else Retry(Max(1, soonest.value - now));
        if dirty {
          r := WriteGuarded(current.revision, entries, guard, o, answer);
          return;
        }
        return Ok(answer);
      }
      var e := matching[available.value];
      var credentials := CredentialsOf(e, user);
      var evaluated := if credentials.None? then None else evaluate(credentials.value, e.base.input.sourceUrl);
      if evaluated.None? {
        r := WriteGuarded(current.revision, Filter(entries, OtherThan(e.base.entryId)), guard, o, NoPrompt);
        return;
      }
      var promptId := DrawId(entries, candidates);
      if promptId.None? {
        return Err(IdGeneration);
      }
      if now + cfg.lease > MAX_SAFE_INTEGER {
        return Err(InvalidDeadline);
      }
      var lease := Lease(promptId.value, ctx.document, ctx.runtime, now, Min(e.base.expiresAt, now + cfg.lease));
      if lease.claimExpiresAt <= now {
        r := WriteGuarded(current.revision, Filter(entries, OtherThan(e.base.entryId)), guard, o, NoPrompt);
        return;
      }
      entries := Replaced(entries, e.base.entryId, Claimed(e, lease, evaluated.value, user, iv));
      if !FitsNext(Now(), current.revision, entries, cfg) {
        return Err(StorageCapacity);
      }
      r := WriteGuarded(current.revision, entries, guard, o, Offer(promptId.value, evaluated.value));
    }

    /** Consume one claim: the entry is gone from the store before its credentials are returned. */
    method Take(now: nat, promptId: Id, ctx: Context, user: nat, guard: bool, o: StoreOutcome) returns (r: Result<Option<Taken>, StoreError>)
      modifies this
      ensures TakeStep(old(Now()), now, promptId, ctx, user, guard, o, cfg) == Outcome(Now(), r)
    {
      hide Read, Filter, CredentialsOf, DecisionOf, HeldPrompt, Write;
      var current := ReadEnvelope(now, false);
      var i := IndexOf(current.entries, HeldPrompt(promptId, ctx));
      if i.None? {
        var tidied := Tidy(current, o);
        return match tidied case Ok(_) => Ok(None) case Err(e) => Err(e);
      }
      var entry := current.entries[i.value];
      var decision := DecisionOf(entry, user);
      var credentials := if decision.Some? then CredentialsOf(entry, user) else None;
      if !guard {
        return Err(Refused);
      }
      var written := WriteEnvelope(current.revision, Filter(current.entries, OtherThan(entry.base.entryId)), o);
      if written.Err? {
        return Err(written.error);
      }
      if credentials.None? || decision.None? {
        return Ok(None);
      }
      return Ok(Some(Taken(credentials.value, entry.base.input.sourceUrl, decision.value)));
    }

    method Dismiss(now: nat, promptId: Id, ctx: Context, guard: bool, o: StoreOutcome) returns (r: Result<bool, StoreError>)
      modifies this
      ensures DismissStep(old(Now()), now, promptId, ctx, guard, o, cfg) == Outcome(Now(), r)
    {
      hide Read, Filter, HeldPrompt, Write;
      var current := ReadEnvelope(now, false);
      var i := IndexOf(current.entries, HeldPrompt(promptId, ctx));
      if i.None? {
        var tidied := Tidy(current, o);
        return match tidied case Ok(_) => Ok(false) case Err(e) => Err(e);
      }
      if !guard {
        return Err(Refused);
      }
      var written := WriteEnvelope(current.revision, Filter(current.entries, OtherThan(current.entries[i.value].base.entryId)), o);
      return match written case Ok(_) => Ok(true) case Err(e) => Err(e);
    }

    method ClearTab(now: nat, tab: nat, o: StoreOutcome) returns (r: Result<(), StoreError>)
      modifies this
      ensures ClearTabStep(old(Now()), now, tab, o, cfg) == Outcome(Now(), r)
    {
      hide Read, Filter, Write;
      var current := ReadEnvelope(now, false);
      var entries := Filter(current.entries, OtherTab(tab));
      r := Ok(());
      if current.dirty || |entries| != |current.entries| {
        r := WriteEnvelope(current.revision, entries, o);
      }
    }

    method Clear(now: nat, o: StoreOutcome) returns (r: Result<(), StoreError>)
      modifies this
      ensures ClearStep(old(Now()), now, o, cfg) == Outcome(Now(), r)
    {
      hide Read, Write;
      var current := ReadEnvelope(now, false);
      r := WriteEnvelope(current.revision, [], o);
    }
  }

  lemma {:induction false} ReadableRevision(revision: nat, entries: seq<Entry>, now: nat, cfg: Config)
    requires Readable(revision, entries, now, cfg)
    ensures 0 < revision <= MAX_SAFE_INTEGER
  {
  }

  lemma {:induction false} ParsedRevision(revision: nat, entries: seq<Entry>, now: nat, reclaim: bool, cfg: Config)
    ensures ParsedForm(revision, entries, now, reclaim, cfg).revision == revision
  {
  }

  /** The confirmation finds its entry, opens it, and the new list fits. */
  predicate ConfirmReachesWrite(s0: State, now: nat, expected: Base, user: nat, iv: nat, cfg: Config) {
    var (s, p) := Read(s0, now, false, cfg);
    var i := FindEntry(p.entries, expected.entryId);
    && i.Some? && SameMetadata(p.entries[i.value].base, expected) && IsUnconfirmed(p.entries[i.value])
    && CredentialsOf(p.entries[i.value], user).Some?
  }
}
