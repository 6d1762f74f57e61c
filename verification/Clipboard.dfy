/**
 Who may clear the clipboard. Copies, settings reads, session transitions and alarms interleave at
 every await; each event below is the code between two awaits. A generation number says which copy is
 the newest, and an alarm is known by its strictly increasing time.
 */
module Clipboard {
  import opened Numbers

  /** The digest of a copied value. */
  type Digest = nat

  datatype Ownership = Ownership(digest: Digest, scheduledTime: nat, generation: nat)

  datatype Owner = Schedule | ByTransition | Released

  datatype Setting = Pending | Enabled | Never | Failed

  /** Where the settling task of a claim stands. */
  datatype Settling = AwaitDigest | AwaitSetting | Settled

  /** A copy waiting to become an ownership; claims are known by their generation. */
  datatype Claim = Claim(owner: Owner, setting: Setting, ready: Digest, digest: Option<Digest>, at: Settling)

  datatype TransitionPoint = TransitionSettling | TransitionSetting | TransitionOffscreen

  datatype WritePoint = WriteDigest | WriteOffscreen | WriteAnswer | WriteSettling(generation: nat)

  /** What a clear was sent for. */
  datatype Cause = Alarm(scheduledTime: nat) | SessionTransition(clearGeneration: nat) | StaleWrite

  /** The one task that holds the write-and-clear lane. */
  datatype Lane =
    | Idle
    | Transition(clearGeneration: nat, pending: Option<nat>, taken: Option<Digest>, point: TransitionPoint)
    | Clearing(cause: Cause, digest: Digest)
    | Answering
    | Writing(copied: Digest, stage: WritePoint)

  datatype Sent = Sent(cause: Cause, digest: Digest, generation: nat)

  datatype State = State(
    ownership: Option<Ownership>,
    pendingClaim: Option<nat>,
    scheduleGeneration: nat,
    lastScheduledTime: nat,
    claims: map<nat, Claim>,
    lane: Lane,
    sent: seq<Sent>)

  const INITIAL: State := State(None, None, 0, 0, map[], Idle, [])

  datatype ReadSetting = Seconds(n: nat) | NeverClear | ReadFailed

  datatype Event =
    | ScheduleClear(copied: Option<Digest>, alarmThrows: bool)
    | CancelClear
    | DigestReady(generation: nat, ok: bool)
    | SettingRead(generation: nat, setting: ReadSetting, now: nat, alarmThrows: bool)
    | BeginTransition
    | PendingSettled
    | TransitionSettingRead(setting: ReadSetting)
    | OffscreenReady(ok: bool)
    | Answered
    | BeginAlarm(scheduledTime: nat)
    | BeginWrite(digest: Digest, allowed: bool)
    | WriteDigestReady(ok: bool)
    | WriteOffscreenReady(ok: bool, allowed: bool)
    | WriteAnswered(written: bool, allowed: bool, alarmThrows: bool)
    | WriteSettled

  // ---------------------------------------------------------------------------------------------
  // The segments
  // ---------------------------------------------------------------------------------------------

  /** A new generation owns nothing yet. */
  function NextGeneration(s: State): State {
    s.(scheduleGeneration := s.scheduleGeneration + 1, ownership := None)
  }

  /** Claim a copy for the generation just begun. */
  function WithClaim(s: State, digest: Digest): State {
    s.(claims := s.claims[s.scheduleGeneration := Claim(Schedule, Pending, digest, None, AwaitDigest)],
       pendingClaim := Some(s.scheduleGeneration))
  }

  /** The end of the settling task: what the schedule still owns is dropped. */
  function Finish(s: State, g: nat, c: Claim): State {
    var d := if c.owner == Schedule then c.(digest := None, owner := Released) else c;
    s.(claims := s.claims[g := d.(at := Settled)],
       pendingClaim := if d.owner == Released && s.pendingClaim == Some(g) then None else s.pendingClaim)
  }

  predicate StillScheduled(s: State, g: nat, c: Claim) {
    c.owner == Schedule && g == s.scheduleGeneration
  }

  function OnDigest(s: State, g: nat, ok: bool): State {
    if g !in s.claims || s.claims[g].at != AwaitDigest then s
    else
      var c := s.claims[g];
      if !ok then Finish(s, g, c)
      else
        var d := c.(digest := Some(c.ready));
        if StillScheduled(s, g, d) then s.(claims := s.claims[g := d.(at := AwaitSetting)]) else Finish(s, g, d)
  }

  function AlarmTime(s: State, seconds: nat, now: nat): nat {
    Max(now + Max(30, seconds) * 1000, s.lastScheduledTime + 1)
  }

  function OnSetting(s: State, g: nat, setting: ReadSetting, now: nat, alarmThrows: bool): State {
    if g !in s.claims || s.claims[g].at != AwaitSetting then s
    else
      var c := s.claims[g];
      match setting
      case ReadFailed => Finish(s, g, c.(setting := Failed))
      case NeverClear => Finish(s, g, c.(setting := Never))
      case Seconds(n) =>
        var d := c.(setting := Enabled);
        if !StillScheduled(s, g, d) || alarmThrows then Finish(s, g, d)
        else
          var t := AlarmTime(s, n, now);
          Finish(s.(lastScheduledTime := t, ownership := Some(Ownership(c.ready, t, g))), g, d.(digest := None, owner := Released))
  }

  /** A transition takes over the newest copy, whether it is owned already or still being claimed. */
  function OnTransition(s: State): State {
    if s.lane != Idle then s
    else
      var g := s.scheduleGeneration;
      var takes := s.pendingClaim == Some(g) && g in s.claims && s.claims[g].owner == Schedule;
      var held := s.ownership.Some? && s.ownership.value.generation == g;
      var t := NextGeneration(s);
      if takes then
        t.(claims := t.claims[g := t.claims[g].(owner := ByTransition)],
           lane := Transition(g + 1, Some(g), None, TransitionSettling))
      else if held then t.(lane := Transition(g + 1, None, Some(s.ownership.value.digest), TransitionSetting))
      else t
  }

  /** The transition gives up its claim and the lane. */
  function EndTransition(s: State, pending: Option<nat>): State {
    if pending.None? || pending.value !in s.claims then s.(lane := Idle)
    else
      s.(lane := Idle, claims := s.claims[pending.value := s.claims[pending.value].(digest := None, owner := Released)],
         pendingClaim := if s.pendingClaim == pending then None else s.pendingClaim)
  }

  function OnPendingSettled(s: State): State {
    if !s.lane.Transition? || s.lane.point != TransitionSettling || s.lane.pending.None? || s.lane.pending.value !in s.claims
       || s.claims[s.lane.pending.value].at != Settled then s
    else
      var c := s.claims[s.lane.pending.value];
      if c.setting == Never || s.lane.clearGeneration != s.scheduleGeneration || c.digest.None? then EndTransition(s, s.lane.pending)
      else s.(lane := s.lane.(taken := c.digest, point := TransitionSetting))
  }

  function OnTransitionSetting(s: State, setting: ReadSetting): State {
    if !s.lane.Transition? || s.lane.point != TransitionSetting then s
    else if setting == NeverClear || s.lane.clearGeneration != s.scheduleGeneration then EndTransition(s, s.lane.pending)
    else s.(lane := s.lane.(point := TransitionOffscreen))
  }

  /** The last check before a clear goes out. */
  function OnOffscreen(s: State, ok: bool): State {
    match s.lane
    case Transition(clearGeneration, pending, digest, TransitionOffscreen) =>
      var t := EndTransition(s, pending);
      if !ok || clearGeneration != s.scheduleGeneration || digest.None? then t
      else t.(lane := Answering, sent := s.sent + [Sent(SessionTransition(clearGeneration), digest.value, s.scheduleGeneration)])
    case Clearing(cause, digest) =>
      if !ok then s.(lane := Idle)
      else s.(lane := Answering, sent := s.sent + [Sent(cause, digest, s.scheduleGeneration)])
    case _ => s
  }

  function OnAlarm(s: State, scheduledTime: nat): State {
    if s.lane == Idle && s.ownership.Some? && s.ownership.value.scheduledTime == scheduledTime
    then s.(ownership := None, lane := Clearing(Alarm(scheduledTime), s.ownership.value.digest))
    else s
  }

  /** The browser has confirmed the copy: it replaces whatever was owned, or is cleared again if no longer wanted. */
  function OnWriteAnswer(s: State, written: bool, allowed: bool, alarmThrows: bool): State {
    if !s.lane.Writing? || s.lane.stage != WriteAnswer then s
    else if !written then s.(lane := Idle)
    else
      var t := NextGeneration(s);
      if !allowed then t.(lane := Clearing(StaleWrite, s.lane.copied))
      else
        var u := NextGeneration(t);
        if alarmThrows then u.(lane := Idle)
        else WithClaim(u, s.lane.copied).(lane := Writing(s.lane.copied, WriteSettling(u.scheduleGeneration)))
  }

  function Step(s: State, e: Event): State {
    match e
    case ScheduleClear(copied, alarmThrows) =>
      var t := NextGeneration(s);
      if alarmThrows || copied.None? then t else WithClaim(t, copied.value)
    case CancelClear => NextGeneration(s)
    case DigestReady(g, ok) => OnDigest(s, g, ok)
    case SettingRead(g, setting, now, alarmThrows) => OnSetting(s, g, setting, now, alarmThrows)
    case BeginTransition => OnTransition(s)
    case PendingSettled => OnPendingSettled(s)
    case TransitionSettingRead(setting) => OnTransitionSetting(s, setting)
    case OffscreenReady(ok) => OnOffscreen(s, ok)
    case Answered => if s.lane == Answering then s.(lane := Idle) else s
    case BeginAlarm(t) => OnAlarm(s, t)
    case BeginWrite(digest, allowed) => if s.lane == Idle && allowed then s.(lane := Writing(digest, WriteDigest)) else s
    case WriteDigestReady(ok) =>
      if s.lane.Writing? && s.lane.stage == WriteDigest
      then s.(lane := if ok then s.lane.(stage := WriteOffscreen) else Idle) else s
    case WriteOffscreenReady(ok, allowed) =>
      if s.lane.Writing? && s.lane.stage == WriteOffscreen
      then s.(lane := if ok && allowed then s.lane.(stage := WriteAnswer) else Idle) else s
    case WriteAnswered(written, allowed, alarmThrows) => OnWriteAnswer(s, written, allowed, alarmThrows)
    case WriteSettled =>
      if s.lane.Writing? && s.lane.stage.WriteSettling? && s.lane.stage.generation in s.claims
         && s.claims[s.lane.stage.generation].at == Settled
      then s.(lane := Idle) else s
  }

  function Run(s: State, events: seq<Event>): State
    decreases |events|
  {
    if events == [] then s else Run(Step(s, events[0]), events[1..])
  }

  // ---------------------------------------------------------------------------------------------
  // The record of copies and ownerships
  // ---------------------------------------------------------------------------------------------

  /** Which generations were copies, and of what; and every ownership ever established, in order. */
  datatype Record = Record(copies: map<nat, Digest>, owned: seq<Ownership>)

  function After(r: Record, s: State, e: Event): Record {
    var t := Step(s, e);
    Record(
      if t.pendingClaim.Some? && t.pendingClaim.value in t.claims && t.pendingClaim.value !in s.claims
      then r.copies[t.pendingClaim.value := t.claims[t.pendingClaim.value].ready] else r.copies,
      if t.ownership.Some? && t.ownership != s.ownership then r.owned + [t.ownership.value] else r.owned)
  }

  function RecordOf(r: Record, s: State, events: seq<Event>): Record
    decreases |events|
  {
    if events == [] then r else RecordOf(After(r, s, events[0]), Step(s, events[0]), events[1..])
  }

  ghost predicate Increasing(owned: seq<Ownership>) {
    forall i, j :: 0 <= i < j < |owned| ==> owned[i].scheduledTime < owned[j].scheduledTime && owned[i].generation < owned[j].generation
  }

  /** An ownership with this alarm time and digest was established at some time. */
  ghost predicate WasOwned(owned: seq<Ownership>, scheduledTime: nat, digest: Digest) {
    exists i :: 0 <= i < |owned| && owned[i].scheduledTime == scheduledTime && owned[i].digest == digest
  }

  /** A clear may be sent for the newest copy a transition took over, for the ownership an alarm belongs to, or for a write nobody wants. */
  ghost predicate Justified(r: Record, cause: Cause, digest: Digest) {
    match cause
    case Alarm(t) => WasOwned(r.owned, t, digest)
    case SessionTransition(g) => g >= 1 && g - 1 in r.copies && r.copies[g - 1] == digest
    case StaleWrite => true
  }

  /** Is the present ownership the one whose alarm has this time? */
  predicate OwnsAt(s: State, scheduledTime: nat) {
    s.ownership.Some? && s.ownership.value.scheduledTime == scheduledTime
  }

  ghost predicate LaneOk(s: State, r: Record) {
    match s.lane
    case Transition(g, pending, digest, point) =>
      && g >= 1 && (pending.Some? ==> pending.value == g - 1 && g - 1 in r.copies)
      && (digest.Some? ==> Justified(r, SessionTransition(g), digest.value))
    case Clearing(cause, digest) => Justified(r, cause, digest) && !cause.SessionTransition?
        && (cause.Alarm? ==> cause.scheduledTime <= s.lastScheduledTime && NotSent(s.sent, cause) && !OwnsAt(s, cause.scheduledTime))
    case _ => true
  }

  ghost predicate NotSent(sent: seq<Sent>, cause: Cause) {
    forall i :: 0 <= i < |sent| ==> sent[i].cause != cause
  }

  ghost predicate SentOk(s: State, r: Record) {
    && (forall i :: 0 <= i < |s.sent| ==> Justified(r, s.sent[i].cause, s.sent[i].digest))
    && (forall i :: 0 <= i < |s.sent| && s.sent[i].cause.SessionTransition? ==> s.sent[i].cause.clearGeneration == s.sent[i].generation)
    && (forall i, j :: 0 <= i < j < |s.sent| && s.sent[i].cause.Alarm? ==> s.sent[i].cause != s.sent[j].cause)
    && (forall i :: 0 <= i < |s.sent| && s.sent[i].cause.Alarm? ==>
          s.sent[i].cause.scheduledTime <= s.lastScheduledTime && !OwnsAt(s, s.sent[i].cause.scheduledTime))
  }

  ghost predicate ClaimsOk(s: State, r: Record) {
    && (forall g :: g in s.claims ==> g <= s.scheduleGeneration && g in r.copies && s.claims[g].ready == r.copies[g])
    && (forall g :: g in s.claims && s.claims[g].digest.Some? ==> s.claims[g].digest.value == r.copies[g])
    && (forall g :: g in r.copies ==> g in s.claims)
    && (s.pendingClaim.Some? ==> s.pendingClaim.value in s.claims)
  }

  ghost predicate OwnedOk(s: State, r: Record) {
    && Increasing(r.owned)
    && (forall i :: 0 <= i < |r.owned| ==>
          r.owned[i].scheduledTime <= s.lastScheduledTime && r.owned[i].generation <= s.scheduleGeneration
          && r.owned[i].generation in r.copies && r.copies[r.owned[i].generation] == r.owned[i].digest)
    && (forall i :: 0 <= i < |r.owned| ==> r.owned[i].generation in s.claims && s.claims[r.owned[i].generation].at == Settled)
    && (s.ownership.Some? ==> |r.owned| > 0 && r.owned[|r.owned| - 1] == s.ownership.value)
  }

  ghost predicate Inv(s: State, r: Record) {
    && (s.ownership.Some? ==> s.ownership.value.generation == s.scheduleGeneration && s.ownership.value.scheduledTime == s.lastScheduledTime)
    && ClaimsOk(s, r) && OwnedOk(s, r) && LaneOk(s, r) && SentOk(s, r)
  }

  // ---------------------------------------------------------------------------------------------
  // The building blocks of the segments
  // ---------------------------------------------------------------------------------------------

  lemma {:induction false} NextGenerationKeeps(s: State, r: Record)
    requires Inv(s, r)
    ensures Inv(NextGeneration(s), r) && NextGeneration(s).scheduleGeneration !in s.claims
  {
    hide Justified, Increasing;
  }

  lemma {:induction false} JustifiedMore(r: Record, k: Record, cause: Cause, digest: Digest)
    requires Justified(r, cause, digest) && r.owned <= k.owned
    requires forall g :: g in r.copies ==> g in k.copies && k.copies[g] == r.copies[g]
    ensures Justified(k, cause, digest)
  {
    if cause.Alarm? {
      var i :| 0 <= i < |r.owned| && r.owned[i].scheduledTime == cause.scheduledTime && r.owned[i].digest == digest;
      assert k.owned[i] == r.owned[i];
    }
  }

  lemma {:induction false} SentMore(s: State, r: Record, k: Record)
    requires SentOk(s, r) && LaneOk(s, r) && r.owned <= k.owned
    requires forall g :: g in r.copies ==> g in k.copies && k.copies[g] == r.copies[g]
    ensures SentOk(s, k) && LaneOk(s, k)
  {
    hide Justified, NotSent;
    forall cause, digest | Justified(r, cause, digest) ensures Justified(k, cause, digest) {
      JustifiedMore(r, k, cause, digest);
    }
  }

  /** The state of the lane and the sent clears do not depend on the claims. */
  lemma {:induction false} LaneSame(s: State, t: State, r: Record)
    requires LaneOk(s, r) && SentOk(s, r) && t.lane == s.lane && t.sent == s.sent && t.lastScheduledTime == s.lastScheduledTime
    requires t.ownership == s.ownership || t.ownership.None?
    ensures LaneOk(t, r) && SentOk(t, r)
  {
    hide Justified, NotSent;
  }

  lemma {:induction false} WithClaimKeeps(s: State, r: Record, digest: Digest)
    requires Inv(s, r) && s.ownership.None? && s.scheduleGeneration !in s.claims
    ensures Inv(WithClaim(s, digest), r.(copies := r.copies[s.scheduleGeneration := digest]))
  {
    hide LaneOk, SentOk, Increasing;
    var t, k := WithClaim(s, digest), r.(copies := r.copies[s.scheduleGeneration := digest]);
    SentMore(s, r, k);
    LaneSame(s, t, k);
    assert s.scheduleGeneration !in r.copies;
  }

  /** A claim may change owner, setting and phase, as long as a settled one stays settled. */
  lemma {:induction false} ClaimKeeps(s: State, r: Record, g: nat, c: Claim, pending: Option<nat>)
    requires Inv(s, r) && g in s.claims && c.ready == s.claims[g].ready
    requires c.digest.Some? ==> c.digest.value == c.ready
    requires s.claims[g].at == Settled ==> c.at == Settled
    requires pending == s.pendingClaim || pending.None?
    ensures Inv(s.(claims := s.claims[g := c], pendingClaim := pending), r)
  {
    hide LaneOk, SentOk, Increasing;
    LaneSame(s, s.(claims := s.claims[g := c], pendingClaim := pending), r);
  }

  lemma {:induction false} FinishKeeps(s: State, r: Record, g: nat, c: Claim)
    requires Inv(s, r) && g in s.claims && c.ready == s.claims[g].ready
    requires c.digest.Some? ==> c.digest.value == c.ready
    ensures Inv(Finish(s, g, c), r)
    ensures Finish(s, g, c).ownership == s.ownership
  {
    hide Inv;
    var d := if c.owner == Schedule then c.(digest := None, owner := Released) else c;
    ClaimKeeps(s, r, g, d.(at := Settled), Finish(s, g, c).pendingClaim);
  }

  /** Establishing an ownership for the newest claim. */
  lemma {:induction false} OwnKeeps(s: State, r: Record, g: nat, c: Claim, t: nat)
    requires Inv(s, r) && g in s.claims && g == s.scheduleGeneration && s.claims[g].at != Settled
    requires c.ready == s.claims[g].ready && c.digest.None? && c.owner == Released && t > s.lastScheduledTime
    ensures var o := Ownership(c.ready, t, g);
            Inv(Finish(s.(lastScheduledTime := t, ownership := Some(o)), g, c), r.(owned := r.owned + [o]))
    ensures s.ownership.None?
  {
    hide Justified;
    var o := Ownership(c.ready, t, g);
    var k := r.(owned := r.owned + [o]);
    SentMore(s, r, k);
  }

  lemma {:induction false} LaneKeeps(s: State, r: Record, lane: Lane)
    requires Inv(s, r) && LaneOk(s.(lane := lane), r)
    ensures Inv(s.(lane := lane), r)
  {
    hide Justified, Increasing, LaneOk;
  }

  lemma {:induction false} EndTransitionKeeps(s: State, r: Record, pending: Option<nat>)
    requires Inv(s, r)
    ensures Inv(EndTransition(s, pending), r) && EndTransition(s, pending).lane == Idle
    ensures EndTransition(s, pending).ownership == s.ownership && EndTransition(s, pending).sent == s.sent
    ensures EndTransition(s, pending).scheduleGeneration == s.scheduleGeneration
  {
    hide Inv;
    assert Inv(s.(lane := Idle), r) by { IdleKeeps(s, r); }
    if pending.Some? && pending.value in s.claims {
      var c := s.claims[pending.value];
      ClaimKeeps(s.(lane := Idle), r, pending.value, c.(digest := None, owner := Released), if s.pendingClaim == pending then None else s.pendingClaim);
    }
  }

  lemma {:induction false} IdleKeeps(s: State, r: Record)
    requires Inv(s, r)
    ensures Inv(s.(lane := Idle), r) && Inv(s.(lane := Answering), r)
    ensures forall d, stage :: Inv(s.(lane := Writing(d, stage)), r)
  {
    hide Justified, Increasing;
  }

  lemma {:induction false} StaleKeeps(s: State, r: Record, digest: Digest)
    requires Inv(s, r)
    ensures Inv(s.(lane := Clearing(StaleWrite, digest)), r)
  {
    hide Increasing, SentOk, ClaimsOk, OwnedOk;
    LaneKeeps(s, r, Clearing(StaleWrite, digest));
  }

  // ---------------------------------------------------------------------------------------------
  // The segments
  // ---------------------------------------------------------------------------------------------

  /** Events that neither copy nor own leave the record alone. */
  lemma {:induction false} SameRecord(s: State, r: Record, e: Event)
    requires Inv(s, r)
    requires Step(s, e).pendingClaim == s.pendingClaim || Step(s, e).pendingClaim.None?
    requires Step(s, e).ownership == s.ownership || Step(s, e).ownership.None?
    ensures After(r, s, e) == r
  {
    hide Step, LaneOk, SentOk, OwnedOk;
  }

  lemma {:induction false} CopyKeeps(s: State, r: Record, e: Event)
    requires Inv(s, r) && (e.ScheduleClear? || e.CancelClear?)
    ensures Inv(Step(s, e), After(r, s, e))
  {
    hide Inv;
    NextGenerationKeeps(s, r);
    var t := NextGeneration(s);
    if e.ScheduleClear? && !e.alarmThrows && e.copied.Some? {
      WithClaimKeeps(t, r, e.copied.value);
      assert After(r, s, e) == r.(copies := r.copies[t.scheduleGeneration := e.copied.value]);
    } else {
      SameRecord(s, r, e);
    }
  }

  lemma {:induction false} ClaimKnown(s: State, r: Record, g: nat)
    requires Inv(s, r) && g in s.claims
    ensures s.claims[g].digest.Some? ==> s.claims[g].digest.value == s.claims[g].ready
  {
    hide LaneOk, SentOk, OwnedOk;
  }

  lemma {:induction false} DigestKeeps(s: State, r: Record, e: Event)
    requires Inv(s, r) && e.DigestReady?
    ensures Inv(Step(s, e), After(r, s, e))
  {
    hide Inv;
    SameRecord(s, r, e);
    if e.generation in s.claims && s.claims[e.generation].at == AwaitDigest {
      var c := s.claims[e.generation];
      ClaimKnown(s, r, e.generation);
      FinishKeeps(s, r, e.generation, c);
      FinishKeeps(s, r, e.generation, c.(digest := Some(c.ready)));
      ClaimKeeps(s, r, e.generation, c.(digest := Some(c.ready), at := AwaitSetting), s.pendingClaim);
    }
  }

  lemma {:induction false} SettingKeeps(s: State, r: Record, e: Event)
    requires Inv(s, r) && e.SettingRead?
    ensures Inv(Step(s, e), After(r, s, e))
  {
    hide Inv;
    var g := e.generation;
    if g !in s.claims || s.claims[g].at != AwaitSetting {
      SameRecord(s, r, e);
    } else {
      var c := s.claims[g];
      ClaimKnown(s, r, g);
      FinishKeeps(s, r, g, c.(setting := Failed));
      FinishKeeps(s, r, g, c.(setting := Never));
      FinishKeeps(s, r, g, c.(setting := Enabled));
      if e.setting.Seconds? && StillScheduled(s, g, c) && !e.alarmThrows {
        var t := AlarmTime(s, e.setting.n, e.now);
        OwnKeeps(s, r, g, c.(setting := Enabled, digest := None, owner := Released), t);
        assert After(r, s, e) == r.(owned := r.owned + [Ownership(c.ready, t, g)]);
      } else {
        SameRecord(s, r, e);
      }
    }
  }

  lemma {:induction false} BeginTransitionKeeps(s: State, r: Record)
    requires Inv(s, r)
    ensures Inv(OnTransition(s), r)
  {
    if s.lane == Idle {
      var g := s.scheduleGeneration;
      NextGenerationKeeps(s, r);
      var t := NextGeneration(s);
      if s.pendingClaim == Some(g) && g in s.claims && s.claims[g].owner == Schedule {
        ClaimKnown(s, r, g);
        ClaimKeeps(t, r, g, t.claims[g].(owner := ByTransition), t.pendingClaim);
        hide Inv;
        var u := t.(claims := t.claims[g := t.claims[g].(owner := ByTransition)], pendingClaim := t.pendingClaim);
        assert g in r.copies by { CopiesKnown(s, r, g); }
        LaneKeeps(u, r, Transition(g + 1, Some(g), None, TransitionSettling));
      } else if s.ownership.Some? && s.ownership.value.generation == g {
        OwnershipKnown(s, r);
        hide Inv;
        LaneKeeps(t, r, Transition(g + 1, None, Some(s.ownership.value.digest), TransitionSetting));
      }
    }
  }

  lemma {:induction false} CopiesKnown(s: State, r: Record, g: nat)
    requires Inv(s, r) && g in s.claims
    ensures g in r.copies && s.claims[g].ready == r.copies[g]
  {
    hide LaneOk, SentOk, OwnedOk;
  }

  lemma {:induction false} OwnershipKnown(s: State, r: Record)
    requires Inv(s, r) && s.ownership.Some?
    ensures var o := s.ownership.value;
            && o.generation == s.scheduleGeneration && o.scheduledTime == s.lastScheduledTime
            && o.generation in r.copies && r.copies[o.generation] == o.digest
            && WasOwned(r.owned, o.scheduledTime, o.digest)
  {
    hide LaneOk, SentOk, ClaimsOk;
    assert r.owned[|r.owned| - 1] == s.ownership.value;
  }

  lemma {:induction false} LaneKnown(s: State, r: Record)
    requires Inv(s, r)
    ensures LaneOk(s, r)
  {
  }

  lemma {:induction false} TransitionKeeps(s: State, r: Record, e: Event)
    requires Inv(s, r) && (e.BeginTransition? || e.PendingSettled? || e.TransitionSettingRead?)
    ensures Inv(Step(s, e), After(r, s, e))
  {
    hide Inv;
    SameRecord(s, r, e);
    if e.BeginTransition? {
      BeginTransitionKeeps(s, r);
    } else if s.lane.Transition? {
      var pending := s.lane.pending;
      LaneKnown(s, r);
      EndTransitionKeeps(s, r, pending);
      if e.PendingSettled? {
        if pending.Some? && pending.value in s.claims && s.claims[pending.value].digest.Some? {
          var c := s.claims[pending.value];
          ClaimKnown(s, r, pending.value);
          CopiesKnown(s, r, pending.value);
          LaneKeeps(s, r, s.lane.(taken := c.digest, point := TransitionSetting));
        }
      } else {
        LaneKeeps(s, r, s.lane.(point := TransitionOffscreen));
      }
    }
  }

  lemma {:induction false} SendKeeps(s: State, r: Record, cause: Cause, digest: Digest)
    requires Inv(s, r) && Justified(r, cause, digest)
    requires cause.SessionTransition? ==> cause.clearGeneration == s.scheduleGeneration
    requires cause.Alarm? ==> cause.scheduledTime <= s.lastScheduledTime && NotSent(s.sent, cause) && !OwnsAt(s, cause.scheduledTime)
    ensures Inv(s.(lane := Answering, sent := s.sent + [Sent(cause, digest, s.scheduleGeneration)]), r)
  {
    hide Justified, Increasing, ClaimsOk, OwnedOk;
    var t := s.(lane := Answering, sent := s.sent + [Sent(cause, digest, s.scheduleGeneration)]);
    assert ClaimsOk(t, r) && OwnedOk(t, r) by { SendFrame(s, r, t); }
  }

  lemma {:induction false} SendFrame(s: State, r: Record, t: State)
    requires ClaimsOk(s, r) && OwnedOk(s, r) && t == s.(lane := t.lane, sent := t.sent)
    ensures ClaimsOk(t, r) && OwnedOk(t, r)
  {
    hide Increasing;
  }

  lemma {:induction false} OffscreenKeeps(s: State, r: Record, e: Event)
    requires Inv(s, r) && (e.OffscreenReady? || e.Answered?)
    ensures Inv(Step(s, e), After(r, s, e))
  {
    hide Inv;
    SameRecord(s, r, e);
    IdleKeeps(s, r);
    LaneKnown(s, r);
    if e.OffscreenReady? {
      match s.lane {
        case Transition(g, pending, taken, TransitionOffscreen) =>
          EndTransitionKeeps(s, r, pending);
          var t := EndTransition(s, pending);
          if g == s.scheduleGeneration && taken.Some? {
            SendKeeps(t, r, SessionTransition(g), taken.value);
          }
        case Clearing(cause, digest) => SendKeeps(s, r, cause, digest);
        case _ =>
      }
    }
  }

  lemma {:induction false} AlarmKeeps(s: State, r: Record, e: Event)
    requires Inv(s, r) && e.BeginAlarm?
    ensures Inv(Step(s, e), After(r, s, e))
  {
    SameRecord(s, r, e);
    if s.lane == Idle && s.ownership.Some? && s.ownership.value.scheduledTime == e.scheduledTime {
      OwnershipKnown(s, r);
      hide Justified, Increasing;
      assert NotSent(s.sent, Alarm(e.scheduledTime));
      assert Justified(r, Alarm(e.scheduledTime), s.ownership.value.digest) by { OwnedJustified(r, e.scheduledTime, s.ownership.value.digest); }
    }
  }

  lemma {:induction false} OwnedJustified(r: Record, t: nat, digest: Digest)
    requires WasOwned(r.owned, t, digest)
    ensures Justified(r, Alarm(t), digest)
  {
  }

  lemma {:induction false} WriteKeeps(s: State, r: Record, e: Event)
    requires Inv(s, r) && (e.BeginWrite? || e.WriteDigestReady? || e.WriteOffscreenReady? || e.WriteSettled?)
    ensures Inv(Step(s, e), After(r, s, e))
  {
    hide Inv;
    SameRecord(s, r, e);
    IdleKeeps(s, r);
  }

  lemma {:induction false} WriteAnswerKeeps(s: State, r: Record, e: Event)
    requires Inv(s, r) && e.WriteAnswered?
    ensures Inv(Step(s, e), After(r, s, e))
  {
    hide Inv;
    IdleKeeps(s, r);
    if s.lane.Writing? && s.lane.stage == WriteAnswer && e.written {
      NextGenerationKeeps(s, r);
      var t := NextGeneration(s);
      IdleKeeps(t, r);
      StaleKeeps(t, r, s.lane.copied);
      if e.allowed {
        NextGenerationKeeps(t, r);
        var u := NextGeneration(t);
        IdleKeeps(u, r);
        if e.alarmThrows {
          SameRecord(s, r, e);
        } else {
          var k := r.(copies := r.copies[u.scheduleGeneration := s.lane.copied]);
          WithClaimKeeps(u, r, s.lane.copied);
          IdleKeeps(WithClaim(u, s.lane.copied), k);
          assert After(r, s, e) == k by { assert u.scheduleGeneration !in s.claims; }
        }
      } else {
        SameRecord(s, r, e);
      }
    } else {
      SameRecord(s, r, e);
    }
  }

  /** Every segment keeps the invariant. */
  lemma {:induction false} StepKeepsInv(s: State, r: Record, e: Event)
    requires Inv(s, r)
    ensures Inv(Step(s, e), After(r, s, e))
  {
    hide Inv, Step, After;
    match e {
      case ScheduleClear(_, _) => CopyKeeps(s, r, e);
      case CancelClear => CopyKeeps(s, r, e);
      case DigestReady(_, _) => DigestKeeps(s, r, e);
      case SettingRead(_, _, _, _) => SettingKeeps(s, r, e);
      case BeginTransition => TransitionKeeps(s, r, e);
      case PendingSettled => TransitionKeeps(s, r, e);
      case TransitionSettingRead(_) => TransitionKeeps(s, r, e);
      case OffscreenReady(_) => OffscreenKeeps(s, r, e);
      case Answered => OffscreenKeeps(s, r, e);
      case BeginAlarm(_) => AlarmKeeps(s, r, e);
      case BeginWrite(_, _) => WriteKeeps(s, r, e);
      case WriteDigestReady(_) => WriteKeeps(s, r, e);
      case WriteOffscreenReady(_, _) => WriteKeeps(s, r, e);
      case WriteAnswered(_, _, _) => WriteAnswerKeeps(s, r, e);
      case WriteSettled => WriteKeeps(s, r, e);
    }
  }

  // ---------------------------------------------------------------------------------------------
  // The guarantees
  // ---------------------------------------------------------------------------------------------

  lemma {:induction false} RunKeepsInv(s: State, r: Record, events: seq<Event>)
    requires Inv(s, r)
    ensures Inv(Run(s, events), RecordOf(r, s, events))
    decreases |events|
  {
    hide Inv, Step, After;
    if events != [] {
      StepKeepsInv(s, r, events[0]);
      RunKeepsInv(Step(s, events[0]), After(r, s, events[0]), events[1..]);
    }
  }

  const NOTHING: Record := Record(map[], [])

  /** Under every interleaving: what is owned is the newest copy, and successive alarm times strictly increase. */
  lemma {:induction false} OwnershipIsNewest(events: seq<Event>)
    ensures var s := Run(INITIAL, events);
            var r := RecordOf(NOTHING, INITIAL, events);
            && Increasing(r.owned)
            && (s.ownership.Some? ==> s.ownership.value.generation == s.scheduleGeneration)
            && (s.ownership.Some? ==>
                  s.scheduleGeneration in r.copies && r.copies[s.scheduleGeneration] == s.ownership.value.digest)
  {
    hide Step, After, LaneOk, SentOk;
    assert Inv(INITIAL, NOTHING) by { InitialInv(); }
    RunKeepsInv(INITIAL, NOTHING, events);
  }

  lemma {:induction false} InitialInv()
    ensures Inv(INITIAL, NOTHING)
  {
  }

  /**
   Under every interleaving, for every clear that was sent. For an alarm, however late it arrives: the
   digest is that of the one ownership ever established with the alarm's time, and no alarm time is used
   twice. For a transition: the digest is that of the copy which was newest when the transition began,
   and at the moment of sending no later copy had been made.
   */
  lemma {:induction false} ClearsAreJustified(events: seq<Event>, i: nat)
    requires i < |Run(INITIAL, events).sent|
    ensures var sent := Run(INITIAL, events).sent;
            var r := RecordOf(NOTHING, INITIAL, events);
            match sent[i].cause
            case Alarm(t) =>
              && (exists k :: 0 <= k < |r.owned| && r.owned[k].scheduledTime == t && r.owned[k].digest == sent[i].digest
                    && forall l :: 0 <= l < |r.owned| && r.owned[l].scheduledTime == t ==> l == k)
              && (forall j :: 0 <= j < |sent| && sent[j].cause == Alarm(t) ==> j == i)
            case SessionTransition(g) =>
              && g == sent[i].generation && g >= 1
              && g - 1 in r.copies && r.copies[g - 1] == sent[i].digest
            case StaleWrite => true
  {
    hide Step, After, LaneOk, ClaimsOk;
    InitialInv();
    RunKeepsInv(INITIAL, NOTHING, events);
    var s := Run(INITIAL, events);
    var r := RecordOf(NOTHING, INITIAL, events);
    assert Justified(r, s.sent[i].cause, s.sent[i].digest);
    if s.sent[i].cause.Alarm? {
      var t := s.sent[i].cause.scheduledTime;
      var k :| 0 <= k < |r.owned| && r.owned[k].scheduledTime == t && r.owned[k].digest == s.sent[i].digest;
      forall l | 0 <= l < |r.owned| && r.owned[l].scheduledTime == t ensures l == k {
        assert !(l < k) && !(k < l);
      }
    }
  }

  /** An alarm created for an earlier ownership does nothing once a later copy is owned. */
  lemma {:induction false} LateAlarmIsIgnored(s: State, r: Record, o: Ownership, i: nat)
    requires Inv(s, r) && i < |r.owned| && r.owned[i] == o && s.ownership.Some? && s.ownership.value != o
    ensures Step(s, BeginAlarm(o.scheduledTime)) == s
  {
    hide LaneOk, SentOk, ClaimsOk;
    var last := |r.owned| - 1;
    assert r.owned[last] == s.ownership.value;
    assert i < last;
  }

  // ---------------------------------------------------------------------------------------------
  // The closure's variables
  // ---------------------------------------------------------------------------------------------

  class ClipboardWorker {
    var ownership: Option<Ownership>
    var pendingClaim: Option<nat>
    var scheduleGeneration: nat
    var lastScheduledTime: nat
    var claims: map<nat, Claim>
    var lane: Lane
    var sent: seq<Sent>

    constructor ()
      ensures Now() == INITIAL
    {
      ownership, pendingClaim := None, None;
      scheduleGeneration, lastScheduledTime := 0, 0;
      claims, lane, sent := map[], Idle, [];
    }

    function Now(): State
      reads this
    {
      State(ownership, pendingClaim, scheduleGeneration, lastScheduledTime, claims, lane, sent)
    }

    method CancelClear()
      modifies `scheduleGeneration, `ownership
      ensures Now() == Step(old(Now()), Event.CancelClear)
    {
      scheduleGeneration := scheduleGeneration + 1;
      ownership := None;
    }

    /** Up to the digest: the copy is claimed unless it is empty or its old alarm cannot be removed. */
    method ScheduleClear(copied: Option<Digest>, alarmThrows: bool)
      modifies `scheduleGeneration, `ownership, `claims, `pendingClaim
      ensures Now() == Step(old(Now()), Event.ScheduleClear(copied, alarmThrows))
    {
      scheduleGeneration := scheduleGeneration + 1;
      ownership := None;
      if alarmThrows || copied.None? {
        return;
      }
      var generation := scheduleGeneration;
      claims := claims[generation := Claim(Schedule, Pending, copied.value, None, AwaitDigest)];
      pendingClaim := Some(generation);
    }

    /** The `finally` of the settling task. */
    method FinishSettling(g: nat)
      requires g in claims
      modifies `claims, `pendingClaim
      ensures Now() == Finish(old(Now()), g, old(claims[g]))
    {
      if claims[g].owner == Schedule {
        claims := claims[g := claims[g].(digest := None, owner := Released)];
      }
      claims := claims[g := claims[g].(at := Settled)];
      if claims[g].owner == Released && pendingClaim == Some(g) {
        pendingClaim := None;
      }
    }

    method DigestArrived(g: nat, ok: bool)
      requires g in claims && claims[g].at == AwaitDigest
      modifies `claims, `pendingClaim
      ensures Now() == Step(old(Now()), DigestReady(g, ok))
    {
      hide Finish;
      ghost var s := Now();
      if !ok {
        FinishSettling(g);
        return;
      }
      claims := claims[g := claims[g].(digest := Some(claims[g].ready))];
      if claims[g].owner != Schedule || g != scheduleGeneration {
        FinishForgets(s, claims, g);
        FinishSettling(g);
        return;
      }
      claims := claims[g := claims[g].(at := AwaitSetting)];
    }

    /** The setting decides: no clear, or an alarm later than every earlier one and the ownership with it. */
    method SettingArrived(g: nat, setting: ReadSetting, now: nat, alarmThrows: bool)
      requires g in claims && claims[g].at == AwaitSetting
      modifies `claims, `pendingClaim, `ownership, `lastScheduledTime
      ensures Now() == Step(old(Now()), SettingRead(g, setting, now, alarmThrows))
    {
      hide Finish;
      ghost var s := Now();
      if setting.ReadFailed? {
        claims := claims[g := claims[g].(setting := Failed)];
        FinishForgets(s, claims, g);
        FinishSettling(g);
        return;
      }
      claims := claims[g := claims[g].(setting := if setting.NeverClear? then Never else Enabled)];
      FinishForgets(s, claims, g);
      if claims[g].owner != Schedule || g != scheduleGeneration || setting.NeverClear? || alarmThrows {
        FinishSettling(g);
        return;
      }
      var scheduledTime := Max(now + Max(30, setting.n) * 1000, lastScheduledTime + 1);
      lastScheduledTime := scheduledTime;
      ownership := Some(Ownership(claims[g].ready, scheduledTime, g));
      claims := claims[g := claims[g].(digest := None, owner := Released)];
      FinishForgets(s.(lastScheduledTime := scheduledTime, ownership := ownership), claims, g);
      FinishSettling(g);
    }

    /** Take over the newest copy and begin a new generation, before the first await. */
    method ClearOwnedOnSessionTransition()
      requires lane == Idle
      modifies `claims, `ownership, `scheduleGeneration, `lane
      ensures Now() == Step(old(Now()), BeginTransition)
    {
      var generation := scheduleGeneration;
      var pending: Option<nat> := None;
      if pendingClaim == Some(generation) && generation in claims && claims[generation].owner == Schedule {
        pending := Some(generation);
        claims := claims[generation := claims[generation].(owner := ByTransition)];
      }
      var claimed: Option<Digest> := None;
      if ownership.Some? && ownership.value.generation == generation {
        claimed := Some(ownership.value.digest);
      }
      scheduleGeneration := scheduleGeneration + 1;
      ownership := None;
      if pending.Some? {
        lane := Transition(scheduleGeneration, pending, None, TransitionSettling);
      } else if claimed.Some? {
        lane := Transition(scheduleGeneration, None, claimed, TransitionSetting);
      }
    }

    method ReleaseTransition(pending: Option<nat>)
      modifies `claims, `pendingClaim, `lane
      ensures Now() == EndTransition(old(Now()), pending)
    {
      lane := Idle;
      if pending.Some? && pending.value in claims {
        claims := claims[pending.value := claims[pending.value].(digest := None, owner := Released)];
        if pendingClaim == pending {
          pendingClaim := None;
        }
      }
    }

    method PendingHasSettled()
      requires lane.Transition? && lane.point == TransitionSettling && lane.pending.Some? && lane.pending.value in claims
      requires claims[lane.pending.value].at == Settled
      modifies `claims, `pendingClaim, `lane
      ensures Now() == Step(old(Now()), PendingSettled)
    {
      var pending := lane.pending;
      var digest := claims[pending.value].digest;
      if claims[pending.value].setting == Never || lane.clearGeneration != scheduleGeneration || digest.None? {
        ReleaseTransition(pending);
        return;
      }
      lane := Transition(lane.clearGeneration, pending, digest, TransitionSetting);
    }

    method TransitionSettingArrived(setting: ReadSetting)
      requires lane.Transition? && lane.point == TransitionSetting
      modifies `claims, `pendingClaim, `lane
      ensures Now() == Step(old(Now()), TransitionSettingRead(setting))
    {
      if setting.NeverClear? || lane.clearGeneration != scheduleGeneration {
        ReleaseTransition(lane.pending);
        return;
      }
      lane := lane.(point := TransitionOffscreen);
    }

    /** The offscreen document is there: send the clear unless it is no longer current. */
    method OffscreenArrived(ok: bool)
      requires (lane.Transition? && lane.point == TransitionOffscreen) || lane.Clearing?
      modifies `claims, `pendingClaim, `lane, `sent
      ensures Now() == Step(old(Now()), OffscreenReady(ok))
    {
      if lane.Transition? {
        var clearGeneration, taken := lane.clearGeneration, lane.taken;
        ReleaseTransition(lane.pending);
        if ok && clearGeneration == scheduleGeneration && taken.Some? {
          sent := sent + [Sent(SessionTransition(clearGeneration), taken.value, scheduleGeneration)];
          lane := Answering;
        }
      } else if ok {
        sent := sent + [Sent(lane.cause, lane.digest, scheduleGeneration)];
        lane := Answering;
      } else {
        lane := Idle;
      }
    }

    /** An alarm consumes the ownership it belongs to, and no other. */
    method HandleClipboardAlarm(scheduledTime: nat)
      requires lane == Idle
      modifies `ownership, `lane
      ensures Now() == Step(old(Now()), BeginAlarm(scheduledTime))
    {
      if ownership.None? || ownership.value.scheduledTime != scheduledTime {
        return;
      }
      lane := Clearing(Alarm(scheduledTime), ownership.value.digest);
      ownership := None;
    }

    /** The browser answered a write: cancel what was owned, then claim the copy or clear it again. */
    method WriteHasAnswered(written: bool, allowed: bool, alarmThrows: bool)
      requires lane.Writing? && lane.stage == WriteAnswer
      modifies this
      ensures Now() == Step(old(Now()), WriteAnswered(written, allowed, alarmThrows))
    {
      var digest := lane.copied;
      lane := Idle;
      if !written {
        return;
      }
      CancelClear();
      if !allowed {
        lane := Clearing(StaleWrite, digest);
        return;
      }
      ScheduleClear(Some(digest), alarmThrows);
      if !alarmThrows {
        lane := Writing(digest, WriteSettling(scheduleGeneration));
      }
    }
  }

  /** Finishing looks only at the new form of the claim. */
  lemma {:induction false} FinishForgets(s: State, claims: map<nat, Claim>, g: nat)
    requires g in claims && g in s.claims && claims == s.claims[g := claims[g]]
    ensures Finish(s.(claims := claims), g, claims[g]) == Finish(s, g, claims[g])
  {
    var d := if claims[g].owner == Schedule then claims[g].(digest := None, owner := Released) else claims[g];
    assert claims[g := d.(at := Settled)] == s.claims[g := d.(at := Settled)];
  }
}
