/**
 Clean-up after logout. The plaintext events of the account and its directory entry must go, and the
 worker may die between any two durable writes. Two sets of markers carry the intention across: a
 prepared marker while the logout is under way, a success marker once it has happened.
 */
module LogoutCleanup {
  import opened Numbers

  type AccountId = nat
  datatype Identity = Identity(server: nat, name: nat)
  datatype Binding = Binding(id: Identity, account: AccountId)
  datatype QueueScope = QueueScope(server: nat, account: AccountId)

  type Bindings = map<Identity, AccountId>

  /** Everything that survives a crash; `queue` holds the scopes with stored events. */
  datatype Durable = Durable(directory: Bindings, prepared: Bindings, succeeded: Bindings, queue: set<QueueScope>)

  function ScopeOf(b: Binding): QueueScope {
    QueueScope(b.id.server, b.account)
  }

  predicate Has(m: Bindings, b: Binding) {
    b.id in m && m[b.id] == b.account
  }

  /** Removal names the account it expects; another account's entry stays. */
  function Removed(m: Bindings, b: Binding): Bindings {
    if Has(m, b) then m - {b.id} else m
  }

  predicate Clean(d: Durable, b: Binding) {
    ScopeOf(b) !in d.queue && !Has(d.directory, b)
  }

  // ---------------------------------------------------------------------------------------------
  // Durable effects, cut short anywhere
  // ---------------------------------------------------------------------------------------------

  /** How far a discard got: each write may have become durable without being reported, or not at all. */
  datatype Progress = Progress(
    queueGone: bool, queueReported: bool, bindingGone: bool, bindingReported: bool,
    preparedGone: bool, preparedReported: bool, succeededGone: bool, succeededReported: bool)

  const WHOLE: Progress := Progress(true, true, true, true, true, true, true, true)

  /** What is reported has happened. */
  predicate Truthful(p: Progress) {
    && (p.queueReported ==> p.queueGone) && (p.bindingReported ==> p.bindingGone)
    && (p.preparedReported ==> p.preparedGone) && (p.succeededReported ==> p.succeededGone)
  }

  predicate DataReported(p: Progress) {
    p.queueReported && p.bindingReported
  }

  predicate Completed(p: Progress) {
    DataReported(p) && p.preparedReported && p.succeededReported
  }

  /** The markers are touched only after both removals of data have been reported. */
  function Discarded(d: Durable, b: Binding, p: Progress): Durable {
    Durable(
      if p.bindingGone then Removed(d.directory, b) else d.directory,
      if DataReported(p) && p.preparedGone then Removed(d.prepared, b) else d.prepared,
      if DataReported(p) && p.succeededGone then Removed(d.succeeded, b) else d.succeeded,
      if p.queueGone then d.queue - {ScopeOf(b)} else d.queue)
  }

  /** Marking a success: first the new marker, then the old one goes. `writes` counts the durable ones. */
  function MarkedSucceeded(d: Durable, b: Binding, writes: nat): Durable {
    var e := if writes >= 1 then d.(succeeded := d.succeeded[b.id := b.account]) else d;
    if writes >= 2 then e.(prepared := Removed(e.prepared, b)) else e
  }

  /** Before an identity is used again its confirmed logout is finished; the answer says whether to go on. */
  function Settled(d: Durable, id: Identity, p: Progress): Durable {
    if id in d.succeeded then Discarded(d, Binding(id, d.succeeded[id]), p) else d
  }

  predicate SettledFully(d: Durable, id: Identity, p: Progress) {
    id in d.succeeded ==> Completed(p)
  }

  /**
   One operation, up to the write after which it stopped. Removing an account or changing the server
   removes bindings and touches no marker; listing and forgetting write nothing.
   */
  datatype Step =
    | PrepareLogout(id: Identity, settle: Progress, written: bool)
    | ConfirmLogout(b: Binding, writes: nat)
    | AbortLogout(b: Binding, written: bool)
    | DiscardLoggedOut(b: Binding, progress: Progress)
    | Relogin(id: Identity, account: AccountId, settle: Progress, written: bool)
    | RemoveBinding(b: Binding, queueGone: bool, bindingGone: bool)
    | List(b: Binding)
    | Forget(b: Binding)
    | Enqueue(scope: QueueScope)
    | Restart

  function Apply(d: Durable, step: Step): Durable {
    match step
    case PrepareLogout(id, settle, written) =>
      var e := Settled(d, id, settle);
      if SettledFully(d, id, settle) && id in e.directory && written
      then e.(prepared := e.prepared[id := e.directory[id]]) else e
    case ConfirmLogout(b, writes) => MarkedSucceeded(d, b, writes)
    case AbortLogout(b, written) => if written then d.(prepared := Removed(d.prepared, b)) else d
    case DiscardLoggedOut(b, progress) => Discarded(d, b, progress)
    case Relogin(id, account, settle, written) =>
      var e := Settled(d, id, settle);
      if SettledFully(d, id, settle) && written then e.(directory := e.directory[id := account]) else e
    case RemoveBinding(b, queueGone, bindingGone) =>
      d.(queue := if queueGone then d.queue - {ScopeOf(b)} else d.queue,
         directory := if queueGone && bindingGone then Removed(d.directory, b) else d.directory)
    case List(_) => d
    case Forget(_) => d
    case Enqueue(scope) => d.(queue := d.queue + {scope})
    case Restart => d
  }

  function Run(d: Durable, steps: seq<Step>): Durable
    decreases |steps|
  {
    if steps == [] then d else Run(Apply(d, steps[0]), steps[1..])
  }

  predicate TruthfulStep(step: Step) {
    match step
    case PrepareLogout(_, settle, _) => Truthful(settle)
    case Relogin(_, _, settle, _) => Truthful(settle)
    case DiscardLoggedOut(_, progress) => Truthful(progress)
    case _ => true
  }

  /** The step does not write a success marker of the same identity for another account. */
  predicate Agrees(step: Step, b: Binding) {
    match step
    case ConfirmLogout(c, writes) => c.id == b.id && writes >= 1 ==> c.account == b.account
    case _ => true
  }

  // ---------------------------------------------------------------------------------------------
  // The success marker
  // ---------------------------------------------------------------------------------------------

  /**
   A durable success marker stays, or goes with the data it stands for already gone, exactly when the
   step does not overwrite it by the marker of another account.
   */
  lemma {:induction false} MarkerStays(d: Durable, step: Step, b: Binding)
    requires TruthfulStep(step) && Has(d.succeeded, b)
    ensures Has(Apply(d, step).succeeded, b) || CleanedWithin(d, step, b) <==> Agrees(step, b)
  {
  }

  /** The step had both removals of the data reported, and left nothing of it, before it touched a marker. */
  ghost predicate CleanedWithin(d: Durable, step: Step, b: Binding) {
    exists p :: Truthful(p) && DataReported(p) && Clean(Discarded(d, b, p), b) && CleansWith(step, b, p)
  }

  predicate CleansWith(step: Step, b: Binding, p: Progress) {
    match step
    case PrepareLogout(id, settle, _) => id == b.id && p == settle
    case Relogin(id, _, settle, _) => id == b.id && p == settle
    case DiscardLoggedOut(c, progress) => c == b && p == progress
    case _ => false
  }

  /** Over any run with crashes anywhere: the marker is still there, or some step of the run cleaned up first. */
  lemma {:induction false} MarkerStaysOverRuns(d: Durable, steps: seq<Step>, b: Binding)
    requires forall s :: s in steps ==> TruthfulStep(s) && Agrees(s, b)
    requires Has(d.succeeded, b)
    ensures Has(Run(d, steps).succeeded, b)
            || exists i :: 0 <= i < |steps| && Has(Run(d, steps[..i]).succeeded, b) && CleanedWithin(Run(d, steps[..i]), steps[i], b)
    decreases |steps|
  {
    hide Apply, CleanedWithin, Agrees;
    if steps != [] {
      assert steps[0] in steps;
      MarkerStays(d, steps[0], b);
      if Has(Apply(d, steps[0]).succeeded, b) {
        forall s | s in steps[1..] ensures TruthfulStep(s) && Agrees(s, b) {
          assert s in steps;
        }
        MarkerStaysOverRuns(Apply(d, steps[0]), steps[1..], b);
        if !Has(Run(d, steps).succeeded, b) {
          var next := Apply(d, steps[0]);
          var i :| 0 <= i < |steps[1..]| && Has(Run(next, steps[1..][..i]).succeeded, b)
            && CleanedWithin(Run(next, steps[1..][..i]), steps[1..][i], b);
          assert steps[..i + 1][0] == steps[0] && steps[..i + 1][1..] == steps[1..][..i];
          assert Run(d, steps[..i + 1]) == Run(next, steps[1..][..i]);
          assert steps[i + 1] == steps[1..][i];
        }
      } else {
        assert Run(d, steps[..0]) == d;
      }
    }
  }

  // ---------------------------------------------------------------------------------------------
  // Who may confirm a logout
  // ---------------------------------------------------------------------------------------------

  /**
   The durable part, the receipts this worker has handed out and not taken back, and the bindings that a
   reconciliation or the discard of a whole server has found in the stores and is still going through.
   */
  datatype Session = Session(durable: Durable, receipts: multiset<Binding>, listed: set<Binding>)

  /** One call; `answered` says whether a prepared logout was reported, so that its receipt was handed out. */
  datatype Call = Call(step: Step, answered: bool)

  function Prepares(d: Durable, step: Step): Option<Binding> {
    match step
    case PrepareLogout(id, settle, written) =>
      var e := Settled(d, id, settle);
      if SettledFully(d, id, settle) && id in e.directory && written then Some(Binding(id, e.directory[id])) else None
    case _ => None
  }

  function Take(s: Session, c: Call): Session {
    var d := Apply(s.durable, c.step);
    match c.step
    case PrepareLogout(_, _, _) =>
      var b := Prepares(s.durable, c.step);
      s.(durable := d, receipts := if c.answered && b.Some? then s.receipts + multiset{b.value} else s.receipts)
    case ConfirmLogout(b, _) => s.(durable := d, receipts := s.receipts - multiset{b})
    case AbortLogout(b, _) => s.(durable := d, receipts := s.receipts - multiset{b})
    case List(b) => s.(listed := s.listed + {b})
    case Forget(b) => s.(listed := s.listed - {b})
    case Restart => Session(d, multiset{}, {})
    case _ => s.(durable := d)
  }

  function TakeAll(s: Session, calls: seq<Call>): Session
    decreases |calls|
  {
    if calls == [] then s else TakeAll(Take(s, calls[0]), calls[1..])
  }

  predicate Present(d: Durable, b: Binding) {
    Has(d.directory, b) || Has(d.prepared, b) || Has(d.succeeded, b)
  }

  /**
   A logout is confirmed or aborted by its receipt, or by a clean-up that has found its binding. The
   discard of a server confirms whatever the directory lists, with no receipt and no prepared marker.
   */
  predicate Issued(s: Session, c: Call) {
    match c.step
    case ConfirmLogout(b, _) => b in s.receipts || b in s.listed
    case AbortLogout(b, _) => b in s.receipts || b in s.listed
    case List(b) => Present(s.durable, b)
    case _ => true
  }

  /** A logout of this binding is under way: its receipt is out, a clean-up is at it, or it left a prepared marker. */
  predicate UnderWay(s: Session, b: Binding) {
    b in s.receipts || b in s.listed || Has(s.durable.prepared, b)
  }

  /** A new binding takes effect only after the earlier confirmed logout of its identity has been finished. */
  predicate Binds(s: Session, c: Call) {
    c.step.Relogin? && SettledFully(s.durable, c.step.id, c.step.settle) && c.step.written
  }

  /** No identity is bound to another account while a logout of the present one is under way. */
  ghost predicate NoRebinding(s: Session, c: Call) {
    Binds(s, c) ==>
      forall b :: UnderWay(Take(s, c), b) && b.id == c.step.id ==> b.account == c.step.account
  }

  ghost predicate Orderly(s: Session, calls: seq<Call>)
    decreases |calls|
  {
    calls == [] || (TruthfulStep(calls[0].step) && Issued(s, calls[0]) && NoRebinding(s, calls[0])
                    && Orderly(Take(s, calls[0]), calls[1..]))
  }

  predicate Known(s: Session, b: Binding) {
    UnderWay(s, b) || Present(s.durable, b)
  }

  /** Receipts, listings, markers and the directory name one account for each identity. */
  ghost predicate OneAccount(s: Session) {
    forall b, c :: Known(s, b) && Known(s, c) && b.id == c.id ==> b == c
  }

  lemma {:induction false} FewerIsOneAccount(s: Session, t: Session)
    requires OneAccount(s) && forall b :: Known(t, b) ==> Known(s, b)
    ensures OneAccount(t)
  {
    hide Known;
  }

  lemma {:induction false} DiscardOnlyRemoves(d: Durable, b: Binding, p: Progress)
    ensures forall x :: Has(Discarded(d, b, p).succeeded, x) ==> Has(d.succeeded, x)
    ensures forall x :: Has(Discarded(d, b, p).prepared, x) ==> Has(d.prepared, x)
    ensures forall x :: Has(Discarded(d, b, p).directory, x) ==> Has(d.directory, x)
  {
  }

  /** Settling removes only, and in full it leaves no success marker of the identity. */
  lemma {:induction false} SettlingOnlyRemoves(d: Durable, id: Identity, p: Progress)
    requires Truthful(p)
    ensures SettledFully(d, id, p) ==> id !in Settled(d, id, p).succeeded
    ensures forall x :: Has(Settled(d, id, p).succeeded, x) ==> Has(d.succeeded, x)
    ensures forall x :: Has(Settled(d, id, p).prepared, x) ==> Has(d.prepared, x)
    ensures forall x :: Has(Settled(d, id, p).directory, x) ==> Has(d.directory, x)
  {
    if id in d.succeeded {
      DiscardOnlyRemoves(d, Binding(id, d.succeeded[id]), p);
    }
  }

  lemma {:induction false} PrepareKeepsOneAccount(s: Session, c: Call)
    requires OneAccount(s) && c.step.PrepareLogout? && TruthfulStep(c.step)
    ensures OneAccount(Take(s, c))
  {
    hide Settled, SettledFully, Truthful, OneAccount;
    var e := Settled(s.durable, c.step.id, c.step.settle);
    SettlingOnlyRemoves(s.durable, c.step.id, c.step.settle);
    forall b | Known(Take(s, c), b) ensures Known(s, b) {
    }
    FewerIsOneAccount(s, Take(s, c));
  }

  lemma {:induction false} ConfirmKeepsOneAccount(s: Session, c: Call)
    requires OneAccount(s) && c.step.ConfirmLogout? && Issued(s, c)
    ensures OneAccount(Take(s, c))
    ensures forall b :: Has(s.durable.succeeded, b) ==> Agrees(c.step, b)
  {
    forall b | Known(Take(s, c), b) ensures Known(s, b) {
    }
    hide Apply;
    FewerIsOneAccount(s, Take(s, c));
    forall b | Has(s.durable.succeeded, b) ensures Agrees(c.step, b) {
      assert Known(s, b) && Known(s, c.step.b);
    }
  }

  lemma {:induction false} ReloginKeepsOneAccount(s: Session, c: Call)
    requires OneAccount(s) && c.step.Relogin? && TruthfulStep(c.step) && NoRebinding(s, c)
    ensures OneAccount(Take(s, c))
  {
    hide Settled, SettledFully, Truthful;
    var id, t := c.step.id, Take(s, c);
    var e := Settled(s.durable, id, c.step.settle);
    SettlingOnlyRemoves(s.durable, id, c.step.settle);
    assert forall b :: Known(t, b) ==> Known(s, b) || (Binds(s, c) && b == Binding(id, c.step.account));
  }

  /** Every call allowed above keeps one account to an identity, and drops no marker of another. */
  lemma {:induction false} TakeKeepsOneAccount(s: Session, c: Call)
    requires OneAccount(s) && TruthfulStep(c.step) && Issued(s, c) && NoRebinding(s, c)
    ensures OneAccount(Take(s, c))
    ensures forall b :: Has(s.durable.succeeded, b) ==> Agrees(c.step, b)
  {
    hide OneAccount, Settled, SettledFully, Truthful, Discarded, MarkedSucceeded, NoRebinding;
    match c.step
    case PrepareLogout(_, _, _) => PrepareKeepsOneAccount(s, c);
    case ConfirmLogout(_, _) => ConfirmKeepsOneAccount(s, c);
    case Relogin(_, _, _, _) => ReloginKeepsOneAccount(s, c);
    case DiscardLoggedOut(b, p) =>
      DiscardOnlyRemoves(s.durable, b, p);
      FewerIsOneAccount(s, Take(s, c));
    case AbortLogout(_, _) => FewerIsOneAccount(s, Take(s, c));
    case RemoveBinding(_, _, _) => FewerIsOneAccount(s, Take(s, c));
    case List(_) => FewerIsOneAccount(s, Take(s, c));
    case Forget(_) => FewerIsOneAccount(s, Take(s, c));
    case Enqueue(_) => FewerIsOneAccount(s, Take(s, c));
    case Restart => FewerIsOneAccount(s, Take(s, c));
  }

  /**
   As long as no identity is rebound while a logout of it is under way, every success marker survives
   every crash: over any orderly run it is still there, or some step cleaned up first. Confirmations
   may come from receipts, from reconciliations and from discards of whole servers.
   */
  lemma {:induction false} MarkerStaysWithoutRebinding(s: Session, calls: seq<Call>, b: Binding)
    requires OneAccount(s) && Orderly(s, calls) && Has(s.durable.succeeded, b)
    ensures Has(TakeAll(s, calls).durable.succeeded, b)
            || exists i :: 0 <= i < |calls| && CleanedWithin(TakeAll(s, calls[..i]).durable, calls[i].step, b)
    decreases |calls|
  {
    hide Apply, CleanedWithin, Agrees, OneAccount, Issued, NoRebinding;
    if calls != [] {
      var c, next := calls[0], Take(s, calls[0]);
      TakeKeepsOneAccount(s, c);
      MarkerStays(s.durable, c.step, b);
      TakeApplies(s, c);
      assert TakeAll(s, calls[..0]) == s;
      if Has(next.durable.succeeded, b) {
        MarkerStaysWithoutRebinding(next, calls[1..], b);
        if !Has(TakeAll(s, calls).durable.succeeded, b) {
          var i :| 0 <= i < |calls[1..]| && CleanedWithin(TakeAll(next, calls[1..][..i]).durable, calls[1..][i].step, b);
          assert calls[..i + 1][0] == c && calls[..i + 1][1..] == calls[1..][..i];
          assert calls[i + 1] == calls[1..][i];
        }
      }
    }
  }

  lemma {:induction false} TakeApplies(s: Session, c: Call)
    ensures Take(s, c).durable == Apply(s.durable, c.step)
  {
  }

  lemma {:induction false} NewSession(d: Durable)
    requires d.prepared == map[] && d.succeeded == map[]
    ensures OneAccount(Session(d, multiset{}, {}))
  {
  }

  /** The whole promise without rebinding: from any marker on, one failure-free reconciliation finishes the logout. */
  lemma {:induction false} LogoutIsFinishedWithoutRebinding(s: Session, calls: seq<Call>, registered: set<Identity>, b: Binding)
    requires OneAccount(s) && Orderly(s, calls) && Has(s.durable.succeeded, b)
    ensures var e := Reconciled(TakeAll(s, calls).durable, registered);
            && e.succeeded == map[] && e.prepared == map[]
            && (Clean(e, b) || exists i :: 0 <= i < |calls| && CleanedWithin(TakeAll(s, calls[..i]).durable, calls[i].step, b))
  {
    hide CleanedWithin, ToDiscard;
    MarkerStaysWithoutRebinding(s, calls, b);
    if Has(TakeAll(s, calls).durable.succeeded, b) {
      ReconciledIsClean(TakeAll(s, calls).durable, registered, b);
    }
  }

  // ---------------------------------------------------------------------------------------------
  // What rebinding costs
  // ---------------------------------------------------------------------------------------------

  /** The earlier logout is confirmed, then the discard of the server finds and confirms the new binding. */
  function Losing(t: Session, b: Binding, next: Binding): seq<Call> {
    [Call(List(if Has(t.durable.prepared, b) then b else next), true), Call(ConfirmLogout(b, 2), true),
     Call(List(next), true), Call(ConfirmLogout(next, 1), true)]
  }

  lemma {:induction false} TakeFour(s: Session, a: Call, b: Call, c: Call, d: Call)
    ensures TakeAll(s, [a, b, c, d]) == Take(Take(Take(Take(s, a), b), c), d)
    ensures TakeAll(s, [a, b, c, d][..2]) == Take(Take(s, a), b)
    ensures Orderly(s, [a, b, c, d]) <==>
            && TruthfulStep(a.step) && Issued(s, a) && NoRebinding(s, a)
            && TruthfulStep(b.step) && Issued(Take(s, a), b) && NoRebinding(Take(s, a), b)
            && TruthfulStep(c.step) && Issued(Take(Take(s, a), b), c) && NoRebinding(Take(Take(s, a), b), c)
            && TruthfulStep(d.step) && Issued(Take(Take(Take(s, a), b), c), d) && NoRebinding(Take(Take(Take(s, a), b), c), d)
  {
    hide Take, TruthfulStep, Issued, NoRebinding, TakeAll, Orderly;
    TakeFirst(s, a, [b, c, d]);
    TakeFirst(Take(s, a), b, [c, d]);
    TakeFirst(Take(Take(s, a), b), c, [d]);
    TakeFirst(Take(Take(Take(s, a), b), c), d, []);
    assert [a, b, c, d] == [a] + [b, c, d] && [b, c, d] == [b] + [c, d] && [c, d] == [c] + [d] && [d] == [d] + [];
    TakeNothing(Take(Take(Take(Take(s, a), b), c), d));
    TakeFirst(s, a, [b]);
    TakeFirst(Take(s, a), b, []);
    assert [a, b, c, d][..2] == [a] + [b] && [b] == [b] + [];
    TakeNothing(Take(Take(s, a), b));
  }

  lemma {:induction false} TakeFirst(s: Session, c: Call, rest: seq<Call>)
    ensures TakeAll(s, [c] + rest) == TakeAll(Take(s, c), rest)
    ensures Orderly(s, [c] + rest) <==>
            TruthfulStep(c.step) && Issued(s, c) && NoRebinding(s, c) && Orderly(Take(s, c), rest)
  {
    hide Take, TruthfulStep, Issued, NoRebinding;
    assert ([c] + rest)[1..] == rest;
  }

  lemma {:induction false} TakeNothing(s: Session)
    ensures TakeAll(s, []) == s && Orderly(s, [])
  {
  }

  /** Some success marker goes although no step since it was there has cleaned up. */
  ghost predicate Loses(t: Session, calls: seq<Call>, b: Binding) {
    && !Has(TakeAll(t, calls).durable.succeeded, b)
    && exists i :: 0 <= i <= |calls| && Has(TakeAll(t, calls[..i]).durable.succeeded, b)
         && forall k :: i <= k < |calls| ==> !CleanedWithin(TakeAll(t, calls[..k]).durable, calls[k].step, b)
  }

  /** Confirming a logout under way, by its receipt, its listing or its prepared marker. */
  lemma {:induction false} EarlierConfirmed(t: Session, b: Binding, next: Binding)
    requires UnderWay(t, b) && Has(t.durable.directory, next)
    ensures var first, second := Losing(t, b, next)[0], Losing(t, b, next)[1];
            var u := Take(Take(t, first), second);
            && Issued(t, first) && Issued(Take(t, first), second)
            && Has(u.durable.succeeded, b) && u.durable.directory == t.durable.directory && u.durable.queue == t.durable.queue
  {
  }

  /** The discard of the server confirms the new binding. */
  lemma {:induction false} NewerConfirmed(u: Session, next: Binding)
    requires Has(u.durable.directory, next)
    ensures var third, fourth := Call(List(next), true), Call(ConfirmLogout(next, 1), true);
            var v := Take(Take(u, third), fourth);
            && Issued(u, third) && Issued(Take(u, third), fourth)
            && Has(v.durable.succeeded, next) && v.durable.queue == u.durable.queue
  {
  }

  /** After a rebinding with a logout under way a run can always end so, and the events of the earlier account stay stored. */
  lemma {:induction false} RebindingLosesMarker(t: Session, b: Binding, next: Binding)
    requires UnderWay(t, b) && Has(t.durable.directory, next) && b.id == next.id && b.account != next.account
    ensures Orderly(t, Losing(t, b, next)) && Loses(t, Losing(t, b, next), b)
    ensures TakeAll(t, Losing(t, b, next)).durable.queue == t.durable.queue
  {
    var calls := Losing(t, b, next);
    hide TakeAll, Orderly, Take, Issued, UnderWay;
    EarlierConfirmed(t, b, next);
    NewerConfirmed(Take(Take(t, calls[0]), calls[1]), next);
    TakeFour(t, calls[0], calls[1], calls[2], calls[3]);
    assert calls == [calls[0], calls[1], calls[2], calls[3]];
    forall k | 2 <= k < |calls| ensures !CleanedWithin(TakeAll(t, calls[..k]).durable, calls[k].step, b) {
    }
  }

  /** A run taken in two parts. */
  lemma {:induction false} TakeSplit(s: Session, calls: seq<Call>, i: nat)
    requires OneAccount(s) && Orderly(s, calls) && i <= |calls|
    ensures var t := TakeAll(s, calls[..i]);
            && OneAccount(t) && Orderly(t, calls[i..]) && TakeAll(t, calls[i..]) == TakeAll(s, calls)
            && forall k :: 0 <= k <= |calls| - i ==> TakeAll(t, calls[i..][..k]) == TakeAll(s, calls[..i + k])
    decreases i
  {
    hide OneAccount, Issued, NoRebinding, TruthfulStep, Take;
    if i == 0 {
      assert calls[0..] == calls && calls[..0] == [];
    } else {
      var next := Take(s, calls[0]);
      TakeKeepsOneAccount(s, calls[0]);
      TakeSplit(next, calls[1..], i - 1);
      assert calls[..i][1..] == calls[1..][..i - 1] && calls[1..][i - 1..] == calls[i..];
      forall k | 0 <= k <= |calls| - i
        ensures TakeAll(TakeAll(s, calls[..i]), calls[i..][..k]) == TakeAll(s, calls[..i + k])
      {
        assert calls[..i + k][1..] == calls[1..][..i - 1 + k];
      }
    }
  }

  lemma {:induction false} OrderlyLosesNothing(s: Session, calls: seq<Call>, b: Binding)
    requires OneAccount(s) && Orderly(s, calls)
    ensures !Loses(s, calls, b)
  {
    hide OneAccount, Orderly, CleanedWithin, TakeAll;
    if Loses(s, calls, b) {
      var i :| 0 <= i <= |calls| && Has(TakeAll(s, calls[..i]).durable.succeeded, b)
        && forall k :: i <= k < |calls| ==> !CleanedWithin(TakeAll(s, calls[..k]).durable, calls[k].step, b);
      TakeSplit(s, calls, i);
      MarkerStaysWithoutRebinding(TakeAll(s, calls[..i]), calls[i..], b);
    }
  }

  /** Exactly the rebinding of an identity while a logout of it is under way opens the way to losing a marker. */
  lemma {:induction false} RebindingExactly(s: Session, c: Call)
    requires OneAccount(s) && TruthfulStep(c.step) && c.step.Relogin?
    ensures NoRebinding(s, c) <==> forall calls, b :: Orderly(Take(s, c), calls) ==> !Loses(Take(s, c), calls, b)
  {
    hide OneAccount, Orderly, Loses, UnderWay;
    var t := Take(s, c);
    if NoRebinding(s, c) {
      TakeKeepsOneAccount(s, c);
      forall calls, b | Orderly(t, calls) ensures !Loses(t, calls, b) {
        OrderlyLosesNothing(t, calls, b);
      }
    } else {
      var b :| UnderWay(t, b) && b.id == c.step.id && b.account != c.step.account;
      RebindingLosesMarker(t, b, Binding(c.step.id, c.step.account));
    }
  }

  const SHARED: Identity := Identity(0, 0)
  const EARLIER: Binding := Binding(SHARED, 1)
  const LATER: Binding := Binding(SHARED, 2)

  /** The account of an identity changes while the receipt of its logout is out; then a second logout is prepared. */
  const OVERLAPPING_CALLS: seq<Call> :=
    [Call(PrepareLogout(SHARED, WHOLE, true), true), Call(Relogin(SHARED, 2, WHOLE, true), true),
     Call(PrepareLogout(SHARED, WHOLE, true), true), Call(ConfirmLogout(EARLIER, 2), true), Call(ConfirmLogout(LATER, 2), true)]

  /** A session of the first account with stored events, then the states after each call. */
  function Overlap(n: nat): Session {
    var queue := {QueueScope(0, 1)};
    match n
    case 0 => Session(Durable(map[SHARED := 1], map[], map[], queue), multiset{}, {})
    case 1 => Session(Durable(map[SHARED := 1], map[SHARED := 1], map[], queue), multiset{EARLIER}, {})
    case 2 => Session(Durable(map[SHARED := 2], map[SHARED := 1], map[], queue), multiset{EARLIER}, {})
    case 3 => Session(Durable(map[SHARED := 2], map[SHARED := 2], map[], queue), multiset{EARLIER, LATER}, {})
    case 4 => Session(Durable(map[SHARED := 2], map[SHARED := 2], map[SHARED := 1], queue), multiset{LATER}, {})
    case _ => Session(Durable(map[SHARED := 2], map[], map[SHARED := 2], queue), multiset{}, {})
  }

  lemma {:induction false} FirstPrepares()
    ensures Issued(Overlap(0), OVERLAPPING_CALLS[0]) && Take(Overlap(0), OVERLAPPING_CALLS[0]) == Overlap(1)
  {
  }

  lemma {:induction false} AccountChanges()
    ensures Issued(Overlap(1), OVERLAPPING_CALLS[1]) && Take(Overlap(1), OVERLAPPING_CALLS[1]) == Overlap(2)
  {
  }

  lemma {:induction false} SecondPrepares()
    ensures Issued(Overlap(2), OVERLAPPING_CALLS[2]) && Take(Overlap(2), OVERLAPPING_CALLS[2]) == Overlap(3)
  {
  }

  lemma {:induction false} FirstConfirms()
    ensures Issued(Overlap(3), OVERLAPPING_CALLS[3]) && Take(Overlap(3), OVERLAPPING_CALLS[3]) == Overlap(4)
  {
  }

  lemma {:induction false} SecondConfirms()
    ensures Issued(Overlap(4), OVERLAPPING_CALLS[4]) && Take(Overlap(4), OVERLAPPING_CALLS[4]) == Overlap(5)
  {
  }

  lemma {:induction false} OverlapMarkers()
    ensures OneAccount(Overlap(0)) && Has(Overlap(4).durable.succeeded, EARLIER)
    ensures !Has(Overlap(5).durable.succeeded, EARLIER) && !Clean(Overlap(5).durable, EARLIER)
  {
  }

  lemma {:induction false} OverlapRebinds()
    ensures !NoRebinding(Overlap(1), OVERLAPPING_CALLS[1])
  {
    assert UnderWay(Overlap(2), EARLIER) && Binds(Overlap(1), OVERLAPPING_CALLS[1]);
    hide Overlap, Take, UnderWay, Binds;
    AccountChanges();
  }

  /**
   A run with two receipts: every call holds the receipt it needs, the first confirmation leaves a
   durable marker, and the second one drops it with its data still stored.
   */
  lemma {:induction false} SecondAccountDropsMarker()
    ensures forall n :: 0 <= n < 5 ==>
              Issued(Overlap(n), OVERLAPPING_CALLS[n]) && Take(Overlap(n), OVERLAPPING_CALLS[n]) == Overlap(n + 1)
    ensures OneAccount(Overlap(0)) && Has(Overlap(4).durable.succeeded, EARLIER)
    ensures !Has(Overlap(5).durable.succeeded, EARLIER) && !Clean(Overlap(5).durable, EARLIER)
    ensures !NoRebinding(Overlap(1), OVERLAPPING_CALLS[1])
  {
    hide Overlap, Take, Issued, NoRebinding, OneAccount;
    OverlapMarkers();
    OverlapRebinds();
    FirstPrepares();
    AccountChanges();
    SecondPrepares();
    FirstConfirms();
    SecondConfirms();
  }

  /** The same with one logout only: a discard of the whole server finds the new binding in the directory. */
  const SERVER_CALLS: seq<Call> :=
    [Call(PrepareLogout(SHARED, WHOLE, true), true), Call(Relogin(SHARED, 2, WHOLE, true), true),
     Call(ConfirmLogout(EARLIER, 2), true), Call(List(LATER), true), Call(ConfirmLogout(LATER, 1), true)]

  function ServerDiscard(n: nat): Session {
    var queue := {QueueScope(0, 1)};
    match n
    case 0 => Session(Durable(map[SHARED := 1], map[], map[], queue), multiset{}, {})
    case 1 => Session(Durable(map[SHARED := 1], map[SHARED := 1], map[], queue), multiset{EARLIER}, {})
    case 2 => Session(Durable(map[SHARED := 2], map[SHARED := 1], map[], queue), multiset{EARLIER}, {})
    case 3 => Session(Durable(map[SHARED := 2], map[], map[SHARED := 1], queue), multiset{}, {})
    case 4 => Session(Durable(map[SHARED := 2], map[], map[SHARED := 1], queue), multiset{}, {LATER})
    case _ => Session(Durable(map[SHARED := 2], map[], map[SHARED := 2], queue), multiset{}, {LATER})
  }

  lemma {:induction false} ServerDiscardRuns(n: nat)
    requires n < 5
    ensures Issued(ServerDiscard(n), SERVER_CALLS[n]) && Take(ServerDiscard(n), SERVER_CALLS[n]) == ServerDiscard(n + 1)
  {
  }

  /** No two logouts overlap here, and no receipt stands behind the confirmation that drops the marker. */
  lemma {:induction false} ServerDiscardDropsMarker()
    ensures forall n :: 0 <= n < 5 ==>
              Issued(ServerDiscard(n), SERVER_CALLS[n]) && Take(ServerDiscard(n), SERVER_CALLS[n]) == ServerDiscard(n + 1)
    ensures OneAccount(ServerDiscard(0)) && Has(ServerDiscard(4).durable.succeeded, EARLIER) && ServerDiscard(4).receipts == multiset{}
    ensures !Has(ServerDiscard(5).durable.succeeded, EARLIER) && !Clean(ServerDiscard(5).durable, EARLIER)
  {
    assert OneAccount(ServerDiscard(0));
    hide ServerDiscard, Take, Issued;
    forall n | 0 <= n < 5
      ensures Issued(ServerDiscard(n), SERVER_CALLS[n]) && Take(ServerDiscard(n), SERVER_CALLS[n]) == ServerDiscard(n + 1)
    {
      ServerDiscardRuns(n);
    }
  }

  // ---------------------------------------------------------------------------------------------
  // Reconciliation
  // ---------------------------------------------------------------------------------------------

  /** A prepared marker that stands for nothing more than an interrupted logout of a live account. */
  predicate Preserves(d: Durable, registered: set<Identity>, b: Binding) {
    b.id in registered && (b.id in d.directory ==> d.directory[b.id] == b.account)
  }

  function AsSet(m: Bindings): set<Binding> {
    set id | id in m :: Binding(id, m[id])
  }

  /** The bindings a reconciliation discards. */
  function ToDiscard(d: Durable, registered: set<Identity>): set<Binding> {
    AsSet(d.succeeded) + set b | b in AsSet(d.prepared) && !Has(d.succeeded, b) && !Preserves(d, registered, b)
  }

  function Scopes(bs: set<Binding>): set<QueueScope> {
    set b | b in bs :: ScopeOf(b)
  }

  function Without(m: Bindings, bs: set<Binding>): Bindings {
    map id | id in m && Binding(id, m[id]) !in bs :: m[id]
  }

  /** What one failure-free reconciliation leaves: no marker, and none of the data the markers stood for. */
  function Reconciled(d: Durable, registered: set<Identity>): Durable {
    var gone := ToDiscard(d, registered);
    Durable(Without(d.directory, gone), map[], map[], d.queue - Scopes(gone))
  }

  lemma {:induction false} RemoveOneMore(m: Bindings, bs: set<Binding>, b: Binding)
    ensures Removed(Without(m, bs), b) == Without(m, bs + {b})
  {
  }

  /** Every confirmed logout is finished by one failure-free reconciliation. */
  lemma {:induction false} ReconciledIsClean(d: Durable, registered: set<Identity>, b: Binding)
    requires Has(d.succeeded, b)
    ensures Clean(Reconciled(d, registered), b)
    ensures Reconciled(d, registered).succeeded == map[] && Reconciled(d, registered).prepared == map[]
  {
    assert b in AsSet(d.succeeded);
    assert ScopeOf(b) in Scopes(ToDiscard(d, registered));
  }

  /** A prepared-only marker that stands for no finished logout loses the marker and nothing else. */
  lemma {:induction false} PreparedOnlyKeepsData(d: Durable, registered: set<Identity>, b: Binding)
    requires Has(d.prepared, b) && Preserves(d, registered, b) && b.id !in d.succeeded
    requires forall c :: c in ToDiscard(d, registered) ==> ScopeOf(c) != ScopeOf(b)
    ensures var e := Reconciled(d, registered);
            && b.id !in e.prepared
            && (b.id in e.directory <==> b.id in d.directory) && (b.id in e.directory ==> e.directory[b.id] == d.directory[b.id])
            && (ScopeOf(b) in e.queue <==> ScopeOf(b) in d.queue)
  {
  }

  /** A session opened after the logout survives reconciliation: opening it finished the old clean-up first. */
  lemma {:induction false} ReloginSurvives(d: Durable, registered: set<Identity>, id: Identity, account: AccountId, settle: Progress)
    requires Truthful(settle) && SettledFully(d, id, settle) && id in registered
    ensures var e := Apply(d, Relogin(id, account, settle, true));
            && id !in e.succeeded
            && Has(Reconciled(e, registered).directory, Binding(id, account))
  {
    var e := Apply(d, Relogin(id, account, settle, true));
    assert Binding(id, account) !in ToDiscard(e, registered);
  }

  /** From a durable success marker, through any run with crashes, one failure-free reconciliation finishes the logout. */
  lemma {:induction false} LogoutIsFinished(d: Durable, steps: seq<Step>, registered: set<Identity>, b: Binding)
    requires forall s :: s in steps ==> TruthfulStep(s) && Agrees(s, b)
    requires Has(d.succeeded, b)
    ensures var e := Reconciled(Run(d, steps), registered);
            && e.succeeded == map[] && e.prepared == map[]
            && (Clean(e, b) || exists i :: 0 <= i < |steps| && CleanedWithin(Run(d, steps[..i]), steps[i], b))
  {
    hide CleanedWithin, ToDiscard, Agrees;
    MarkerStaysOverRuns(d, steps, b);
    if Has(Run(d, steps).succeeded, b) {
      ReconciledIsClean(Run(d, steps), registered, b);
    }
  }

  // ---------------------------------------------------------------------------------------------
  // The production object
  // ---------------------------------------------------------------------------------------------

  /** What the surroundings allow while one marker is reconciled. */
  datatype Attempt = Attempt(removeWrites: bool, removeReports: bool, markWrites: nat, markReports: bool, discard: Progress)

  const FLAWLESS: Attempt := Attempt(true, true, 2, true, WHOLE)

  datatype Outcome = WasDiscarded | WasPreserved | HasFailed

  predicate Plausible(a: Attempt) {
    (a.removeReports ==> a.removeWrites) && (a.markReports ==> a.markWrites >= 2) && Truthful(a.discard)
  }

  /** The list a directory gives of itself: each entry once. */
  ghost predicate Lists(markers: seq<Binding>, m: Bindings) {
    && (forall i :: 0 <= i < |markers| ==> Has(m, markers[i]))
    && (forall id :: id in m ==> Binding(id, m[id]) in markers)
    && (forall i, j :: 0 <= i < j < |markers| ==> markers[i].id != markers[j].id)
  }

  function Elements(markers: seq<Binding>): set<Binding> {
    set b | b in markers
  }

  predicate Confirmed(succeeded: seq<Binding>, b: Binding) {
    b in succeeded
  }

  /** How many of the prepared markers are reconciled at all. */
  function Unconfirmed(prepared: seq<Binding>, succeeded: seq<Binding>): nat {
    if prepared == [] then 0
    else (if Confirmed(succeeded, prepared[|prepared| - 1]) then 0 else 1) + Unconfirmed(prepared[..|prepared| - 1], succeeded)
  }

  class ClientEventProduction {
    var directory: Bindings
    var prepared: Bindings
    var succeeded: Bindings
    var queue: set<QueueScope>

    constructor (d: Durable)
      ensures State() == d
    {
      directory, prepared, succeeded, queue := d.directory, d.prepared, d.succeeded, d.queue;
    }

    function State(): Durable
      reads this
    {
      Durable(directory, prepared, succeeded, queue)
    }

    /** Remove queue and directory entry side by side; only when both report success remove the markers. */
    method DiscardLoggedOutBinding(b: Binding, p: Progress) returns (done: bool)
      modifies this
      ensures State() == Discarded(old(State()), b, p)
      ensures done <==> Completed(p)
    {
      if p.queueGone {
        queue := queue - {ScopeOf(b)};
      }
      if p.bindingGone && b.id in directory && directory[b.id] == b.account {
        directory := directory - {b.id};
      }
      if !p.bindingReported || !p.queueReported {
        return false;
      }
      if p.preparedGone && b.id in prepared && prepared[b.id] == b.account {
        prepared := prepared - {b.id};
      }
      if p.succeededGone && b.id in succeeded && succeeded[b.id] == b.account {
        succeeded := succeeded - {b.id};
      }
      done := p.preparedReported && p.succeededReported;
    }

    /** Record the success before the prepared marker goes. */
    method MarkLogoutSucceeded(b: Binding, writes: nat)
      modifies this
      ensures State() == MarkedSucceeded(old(State()), b, writes)
    {
      if writes >= 1 {
        succeeded := succeeded[b.id := b.account];
      }
      if writes >= 2 && b.id in prepared && prepared[b.id] == b.account {
        prepared := prepared - {b.id};
      }
    }

    /** Finish a confirmed logout of this identity, if there is one. */
    method SettleConfirmedLogout(id: Identity, p: Progress) returns (done: bool)
      modifies this
      ensures State() == Settled(old(State()), id, p)
      ensures done <==> SettledFully(old(State()), id, p)
    {
      if id !in succeeded {
        return true;
      }
      done := DiscardLoggedOutBinding(Binding(id, succeeded[id]), p);
    }

    /** Begin a logout: finish an earlier one, then leave a prepared marker for the present binding. */
    method CaptureLogout(id: Identity, settle: Progress, written: bool) returns (captured: Option<Binding>)
      modifies this
      ensures State() == Apply(old(State()), PrepareLogout(id, settle, written))
      ensures captured.Some? ==> Has(directory, captured.value) && Has(prepared, captured.value)
    {
      captured := None;
      var done := SettleConfirmedLogout(id, settle);
      if done && id in directory && written {
        prepared := prepared[id := directory[id]];
        captured := Some(Binding(id, directory[id]));
      }
    }

    /** Bind an identity to an account after finishing its earlier logout. */
    method SynchronizeBinding(id: Identity, account: AccountId, settle: Progress, written: bool) returns (done: bool)
      modifies this
      ensures State() == Apply(old(State()), Relogin(id, account, settle, written))
      ensures done && Truthful(settle) ==> id !in succeeded && Has(directory, Binding(id, account))
    {
      var clear := SettleConfirmedLogout(id, settle);
      if clear && written {
        directory := directory[id := account];
        return true;
      }
      return false;
    }

    /** The first loop: confirmed logouts. */
    method ReconcileSucceeded(markers: seq<Binding>, attempts: Binding -> Attempt, ghost start: Durable)
        returns (discarded: nat, failed: nat, ghost steps: seq<Step>)
      requires State() == start && Lists(markers, succeeded)
      requires forall b :: Plausible(attempts(b))
      modifies this
      ensures State() == Run(start, steps) && (forall s :: s in steps ==> TruthfulStep(s))
      ensures discarded + failed == |markers|
      ensures (forall b :: b in markers ==> attempts(b) == FLAWLESS) ==>
                failed == 0 && State() == Durable(Without(start.directory, Elements(markers)), Without(start.prepared, Elements(markers)),
                                                  map[], start.queue - Scopes(Elements(markers)))
    {
      hide Run, Discarded, DiscardedAll, Scopes, Without, Truthful, Lists;
      discarded, failed, steps := 0, 0, [];
      RunNothing(start);
      DiscardNothing(start);
      assert markers[..0] == [];
      for i := 0 to |markers|
        invariant State() == Run(start, steps) && (forall s :: s in steps ==> TruthfulStep(s) && s.DiscardLoggedOut?)
        invariant discarded + failed == i
        invariant (forall b :: b in markers ==> attempts(b) == FLAWLESS) ==>
                    failed == 0 && State() == DiscardedAll(start, Elements(markers[..i]))
      {
        var b := markers[i];
        var p := attempts(b).discard;
        RunOneMore(start, steps, DiscardLoggedOut(b, p));
        steps := steps + [DiscardLoggedOut(b, p)];
        DiscardOneMore(start, markers, i);
        var done := DiscardLoggedOutBinding(b, p);
        if done {
          discarded := discarded + 1;
        } else {
          failed := failed + 1;
        }
      }
      assert markers[..|markers|] == markers;
      AllDiscarded(start, markers);
    }

    /** One prepared marker: give it up, or confirm it and discard what it stands for. */
    method ReconcileOnePrepared(b: Binding, current: Bindings, registered: set<Identity>, a: Attempt)
        returns (outcome: Outcome, ghost steps: seq<Step>)
      requires Plausible(a)
      modifies this
      ensures State() == Run(old(State()), steps) && (forall s :: s in steps ==> TruthfulStep(s))
      ensures a == FLAWLESS ==>
                if Kept(current, registered, b)
                then outcome == WasPreserved && State() == old(State()).(prepared := Removed(old(prepared), b))
                else outcome == WasDiscarded && State() == Discarded(MarkedSucceeded(old(State()), b, 2), b, WHOLE)
    {
      hide Discarded, MarkedSucceeded;
      ghost var start := State();
      if b.id in registered && (b.id !in current || current[b.id] == b.account) {
        steps := [AbortLogout(b, a.removeWrites)];
        RunOne(start, steps[0]);
        if a.removeWrites && b.id in prepared && prepared[b.id] == b.account {
          prepared := prepared - {b.id};
        }
        return if a.removeReports then WasPreserved else HasFailed, steps;
      }
      steps := [ConfirmLogout(b, a.markWrites)];
      RunOne(start, steps[0]);
      MarkLogoutSucceeded(b, a.markWrites);
      if !a.markReports {
        return HasFailed, steps;
      }
      RunOneMore(start, steps, DiscardLoggedOut(b, a.discard));
      steps := steps + [DiscardLoggedOut(b, a.discard)];
      var done := DiscardLoggedOutBinding(b, a.discard);
      return if done then WasDiscarded else HasFailed, steps;
    }

    /** The second loop: logouts that were prepared and not confirmed. */
    method ReconcilePrepared(markers: seq<Binding>, confirmed: seq<Binding>, current: Bindings, registered: set<Identity>,
                             attempts: Binding -> Attempt, ghost start: Durable)
        returns (discarded: nat, preserved: nat, failed: nat, ghost steps: seq<Step>)
      requires State() == start
      requires forall b :: Plausible(attempts(b))
      modifies this
      ensures State() == Run(start, steps) && (forall s :: s in steps ==> TruthfulStep(s))
      ensures discarded + preserved + failed == Unconfirmed(markers, confirmed)
      ensures start.succeeded == map[] && (forall b :: b in markers ==> attempts(b) == FLAWLESS) ==>
                failed == 0 && State() == PreparedAll(start, markers, confirmed, current, registered)
    {
      hide Run, PreparedAll, Plausible, Kept, Discarded, MarkedSucceeded, TruthfulStep;
      discarded, preserved, failed, steps := 0, 0, 0, [];
      assert Run(start, []) == start by { RunNothing(start); }
      PreparedNothing(start, confirmed, current, registered);
      assert markers[..0] == [];
      for i := 0 to |markers|
        invariant State() == Run(start, steps) && (forall s :: s in steps ==> TruthfulStep(s))
        invariant discarded + preserved + failed == Unconfirmed(markers[..i], confirmed)
        invariant start.succeeded == map[] && (forall b :: b in markers ==> attempts(b) == FLAWLESS) ==>
                    failed == 0 && State() == PreparedAll(start, markers[..i], confirmed, current, registered)
      {
        var b := markers[i];
        assert markers[..i + 1][..i] == markers[..i];
        PreparedOneMore(start, markers, i, confirmed, current, registered);
        if Confirmed(confirmed, b) {
          continue;
        }
        var outcome;
        ghost var more;
        outcome, more := ReconcileOnePrepared(b, current, registered, attempts(b));
        RunConcat(start, steps, more);
        steps := steps + more;
        match outcome {
          case WasDiscarded => discarded := discarded + 1;
          case WasPreserved => preserved := preserved + 1;
          case HasFailed => failed := failed + 1;
        }
      }
      assert markers[..|markers|] == markers;
    }

    /**
     Reconcile every marker. Whatever fails, the durable effect is a run of the steps above and every
     marker is counted once; when nothing fails the result is exactly Reconciled.
     */
    method ReconcileLogoutDiscards(registered: set<Identity>, preparedMarkers: seq<Binding>, succeededMarkers: seq<Binding>,
                                   attempts: Binding -> Attempt)
        returns (discarded: nat, preserved: nat, failed: nat, ghost steps: seq<Step>)
      requires Lists(preparedMarkers, prepared) && Lists(succeededMarkers, succeeded)
      requires forall b :: Plausible(attempts(b))
      modifies this
      ensures State() == Run(old(State()), steps) && (forall s :: s in steps ==> TruthfulStep(s))
      ensures discarded + preserved + failed == |succeededMarkers| + Unconfirmed(preparedMarkers, succeededMarkers)
      ensures (forall b :: b in preparedMarkers + succeededMarkers ==> attempts(b) == FLAWLESS) ==>
                failed == 0 && State() == Reconciled(old(State()), registered)
    {
      ghost var start := State();
      var current := directory;
      ghost var firstSteps;
      discarded, failed, firstSteps := ReconcileSucceeded(succeededMarkers, attempts, start);
      ghost var middle := State();
      var more, moreFailed;
      ghost var secondSteps;
      more, preserved, moreFailed, secondSteps := ReconcilePrepared(preparedMarkers, succeededMarkers, current, registered, attempts, middle);
      discarded, failed := discarded + more, failed + moreFailed;
      steps := firstSteps + secondSteps;
      RunConcat(start, firstSteps, secondSteps);
      if forall b :: b in preparedMarkers + succeededMarkers ==> attempts(b) == FLAWLESS {
        TwoLoops(start, registered, preparedMarkers, succeededMarkers);
      }
    }

    /** Remove an account or leave a server: the queue scope first, then the directory entry, and no marker. */
    method DiscardBinding(b: Binding, queueGone: bool, queueReported: bool, bindingGone: bool, bindingReported: bool) returns (done: bool)
      requires (queueReported ==> queueGone) && (bindingReported ==> bindingGone)
      modifies this
      ensures State() == Apply(old(State()), RemoveBinding(b, queueGone, queueReported && bindingGone))
      ensures done <==> queueReported && bindingReported
      ensures done ==> Clean(State(), b)
    {
      if queueGone {
        queue := queue - {ScopeOf(b)};
      }
      if !queueReported {
        return false;
      }
      if bindingGone && b.id in directory && directory[b.id] == b.account {
        directory := directory - {b.id};
      }
      return bindingReported;
    }

    /**
     Discard every binding of a server that the directory or the markers name: each is confirmed, with no
     receipt, and then discarded. Whatever fails, the durable effect is a run of the steps above.
     */
    method DiscardServerScopes(bindings: seq<Binding>, attempts: Binding -> Attempt)
        returns (discarded: nat, failed: nat, ghost steps: seq<Step>)
      requires forall b :: Plausible(attempts(b))
      modifies this
      ensures State() == Run(old(State()), steps) && (forall s :: s in steps ==> TruthfulStep(s))
      ensures discarded + failed == |bindings|
      ensures (forall b :: b in bindings ==> attempts(b) == FLAWLESS) ==>
                failed == 0 && State() == ServerDiscarded(old(State()), Elements(bindings))
    {
      hide Run, ServerDiscarded, Plausible, Discarded, MarkedSucceeded, TruthfulStep;
      ghost var start := State();
      discarded, failed, steps := 0, 0, [];
      RunNothing(start);
      ServerNothing(start);
      for i := 0 to |bindings|
        invariant State() == Run(start, steps) && (forall s :: s in steps ==> TruthfulStep(s))
        invariant discarded + failed == i
        invariant (forall b :: b in bindings ==> attempts(b) == FLAWLESS) ==>
                    failed == 0 && State() == ServerDiscarded(start, Elements(bindings[..i]))
      {
        var b := bindings[i];
        var done;
        ghost var more;
        ServerOneMore(start, Elements(bindings[..i]), b);
        assert Elements(bindings[..i + 1]) == Elements(bindings[..i]) + {b} by { assert bindings[..i + 1] == bindings[..i] + [b]; }
        done, more := DiscardOneScope(b, attempts(b));
        RunConcat(start, steps, more);
        steps := steps + more;
        if done {
          discarded := discarded + 1;
        } else {
          failed := failed + 1;
        }
      }
      assert bindings[..|bindings|] == bindings;
    }

    method DiscardOneScope(b: Binding, a: Attempt) returns (done: bool, ghost steps: seq<Step>)
      requires Plausible(a)
      modifies this
      ensures State() == Run(old(State()), steps) && (forall s :: s in steps ==> TruthfulStep(s))
      ensures a == FLAWLESS ==> done && State() == Discarded(MarkedSucceeded(old(State()), b, 2), b, WHOLE)
    {
      hide Discarded, MarkedSucceeded;
      ghost var start := State();
      steps := [ConfirmLogout(b, a.markWrites)];
      RunOne(start, steps[0]);
      MarkLogoutSucceeded(b, a.markWrites);
      if !a.markReports {
        return false, steps;
      }
      RunOneMore(start, steps, DiscardLoggedOut(b, a.discard));
      steps := steps + [DiscardLoggedOut(b, a.discard)];
      done := DiscardLoggedOutBinding(b, a.discard);
    }
  }

  function WithoutIdentities(m: Bindings, bs: set<Binding>): Bindings {
    map id | id in m && (forall b :: b in bs ==> b.id != id) :: m[id]
  }

  /** What the discard of these bindings leaves when nothing fails; a success marker goes with its identity. */
  function ServerDiscarded(d: Durable, bs: set<Binding>): Durable {
    Durable(Without(d.directory, bs), Without(d.prepared, bs), WithoutIdentities(d.succeeded, bs), d.queue - Scopes(bs))
  }

  lemma {:induction false} ServerNothing(d: Durable)
    ensures ServerDiscarded(d, Elements([])) == d
  {
    assert Elements([]) == {};
  }

  lemma {:induction false} ServerOneMore(d: Durable, bs: set<Binding>, b: Binding)
    ensures Discarded(MarkedSucceeded(ServerDiscarded(d, bs), b, 2), b, WHOLE) == ServerDiscarded(d, bs + {b})
  {
    ScopesOneMore(bs, b);
    RemoveOneMore(d.directory, bs, b);
    RemoveOneMore(d.prepared, bs, b);
    RemoveTwice(Without(d.prepared, bs), b);
    hide Scopes, Without;
    assert WithoutIdentities(d.succeeded, bs)[b.id := b.account] - {b.id} == WithoutIdentities(d.succeeded, bs + {b});
  }

  /** When the listing was complete and nothing fails, nothing of the server is left, and nothing of another is touched. */
  lemma {:induction false} ServerIsDiscarded(d: Durable, server: nat, bs: set<Binding>)
    requires forall b :: b in bs <==> b.id.server == server && Present(d, b)
    ensures var e := ServerDiscarded(d, bs);
            && (forall b :: Present(e, b) <==> Present(d, b) && b.id.server != server)
            && (forall b :: Present(d, b) && b.id.server == server ==> Clean(e, b))
            && (forall q :: q in d.queue && q.server != server ==> q in e.queue)
  {
    var e := ServerDiscarded(d, bs);
    forall b | Present(d, b) && b.id.server == server ensures ScopeOf(b) !in e.queue {
      assert ScopeOf(b) in Scopes(bs);
    }
  }

  lemma {:induction false} RunConcat(d: Durable, a: seq<Step>, b: seq<Step>)
    ensures Run(d, a + b) == Run(Run(d, a), b)
    decreases |a|
  {
    hide Apply;
    if a == [] {
      assert a + b == b;
    } else {
      assert (a + b)[1..] == a[1..] + b;
      RunConcat(Apply(d, a[0]), a[1..], b);
    }
  }

  lemma {:induction false} RunOneMore(d: Durable, steps: seq<Step>, s: Step)
    ensures Run(d, steps + [s]) == Apply(Run(d, steps), s)
  {
    hide Apply;
    RunConcat(d, steps, [s]);
    assert [s][1..] == [];
  }

  lemma {:induction false} RunOne(d: Durable, s: Step)
    ensures Run(d, [s]) == Apply(d, s)
  {
    hide Apply;
    assert [s][1..] == [];
  }

  lemma {:induction false} RunNothing(d: Durable)
    ensures Run(d, []) == d
  {
  }

  lemma {:induction false} PreparedNothing(d: Durable, confirmed: seq<Binding>, current: Bindings, registered: set<Identity>)
    ensures d.succeeded == map[] ==> PreparedAll(d, [], confirmed, current, registered) == d
  {
    assert Elements([]) - Elements(confirmed) == {};
    assert GoneOf([], confirmed, current, registered) == {};
  }

  /** The state after these bindings have been discarded without failure. */
  function DiscardedAll(d: Durable, bs: set<Binding>): Durable {
    Durable(Without(d.directory, bs), Without(d.prepared, bs), Without(d.succeeded, bs), d.queue - Scopes(bs))
  }

  lemma {:induction false} DiscardOneMore(d: Durable, markers: seq<Binding>, i: nat)
    requires i < |markers|
    ensures Discarded(DiscardedAll(d, Elements(markers[..i])), markers[i], WHOLE) == DiscardedAll(d, Elements(markers[..i + 1]))
  {
    var bs, b := Elements(markers[..i]), markers[i];
    assert markers[..i + 1] == markers[..i] + [b];
    assert Elements(markers[..i + 1]) == bs + {b};
    ScopesOneMore(bs, b);
    RemoveOneMore(d.directory, bs, b);
    RemoveOneMore(d.prepared, bs, b);
    RemoveOneMore(d.succeeded, bs, b);
  }

  lemma {:induction false} DiscardNothing(d: Durable)
    ensures DiscardedAll(d, Elements([])) == d
  {
    assert Elements([]) == {};
  }

  lemma {:induction false} ScopesOneMore(bs: set<Binding>, b: Binding)
    ensures Scopes(bs + {b}) == Scopes(bs) + {ScopeOf(b)}
  {
  }

  lemma {:induction false} AllListed(markers: seq<Binding>, m: Bindings)
    requires Lists(markers, m)
    ensures Without(m, Elements(markers)) == map[] && Elements(markers) == AsSet(m)
  {
  }

  lemma {:induction false} AllDiscarded(d: Durable, markers: seq<Binding>)
    requires Lists(markers, d.succeeded)
    ensures DiscardedAll(d, Elements(markers)) ==
            Durable(Without(d.directory, Elements(markers)), Without(d.prepared, Elements(markers)), map[], d.queue - Scopes(Elements(markers)))
  {
    AllListed(markers, d.succeeded);
  }

  predicate Kept(current: Bindings, registered: set<Identity>, b: Binding) {
    b.id in registered && (b.id in current ==> current[b.id] == b.account)
  }

  function GoneOf(markers: seq<Binding>, confirmed: seq<Binding>, current: Bindings, registered: set<Identity>): set<Binding> {
    set b | b in markers && !Confirmed(confirmed, b) && !Kept(current, registered, b)
  }

  function PreparedAll(d: Durable, markers: seq<Binding>, confirmed: seq<Binding>, current: Bindings, registered: set<Identity>): Durable {
    var gone := GoneOf(markers, confirmed, current, registered);
    Durable(Without(d.directory, gone), Without(d.prepared, Elements(markers) - Elements(confirmed)), map[], d.queue - Scopes(gone))
  }

  lemma {:induction false} PreparedOneMore(d: Durable, markers: seq<Binding>, i: nat, confirmed: seq<Binding>, current: Bindings, registered: set<Identity>)
    requires i < |markers|
    ensures var before := PreparedAll(d, markers[..i], confirmed, current, registered);
            var after := PreparedAll(d, markers[..i + 1], confirmed, current, registered);
            var b := markers[i];
            if Confirmed(confirmed, b) then after == before
            else if Kept(current, registered, b) then after == before.(prepared := Removed(before.prepared, b))
            else after == Discarded(MarkedSucceeded(before, b, 2), b, WHOLE)
  {
    var b := markers[i];
    assert markers[..i + 1] == markers[..i] + [b];
    var gone := GoneOf(markers[..i], confirmed, current, registered);
    var gone' := GoneOf(markers[..i + 1], confirmed, current, registered);
    var seen, seen' := Elements(markers[..i]) - Elements(confirmed), Elements(markers[..i + 1]) - Elements(confirmed);
    if Confirmed(confirmed, b) {
      assert gone' == gone && seen' == seen;
    } else {
      assert seen' == seen + {b};
      RemoveOneMore(d.prepared, seen, b);
      if Kept(current, registered, b) {
        assert gone' == gone;
      } else {
        assert gone' == gone + {b};
        ScopesOneMore(gone, b);
        RemoveOneMore(d.directory, gone, b);
        RemoveTwice(Without(d.prepared, seen), b);
      }
    }
  }

  lemma {:induction false} RemoveTwice(m: Bindings, b: Binding)
    ensures Removed(Removed(m, b), b) == Removed(m, b)
  {
  }

  lemma {:induction false} TwoLoops(d: Durable, registered: set<Identity>, preparedMarkers: seq<Binding>, succeededMarkers: seq<Binding>)
    requires Lists(preparedMarkers, d.prepared) && Lists(succeededMarkers, d.succeeded)
    ensures var s := Elements(succeededMarkers);
            var gone := GoneOf(preparedMarkers, succeededMarkers, d.directory, registered);
            Reconciled(d, registered) ==
            Durable(Without(Without(d.directory, s), gone),
                    Without(Without(d.prepared, s), Elements(preparedMarkers) - s), map[], (d.queue - Scopes(s)) - Scopes(gone))
  {
    var s := Elements(succeededMarkers);
    var gone := GoneOf(preparedMarkers, succeededMarkers, d.directory, registered);
    AllListed(succeededMarkers, d.succeeded);
    AllListed(preparedMarkers, d.prepared);
    assert ToDiscard(d, registered) == s + gone;
    ScopesUnion(s, gone);
    assert Without(Without(d.prepared, s), Elements(preparedMarkers) - s) == map[];
  }

  lemma {:induction false} ScopesUnion(a: set<Binding>, b: set<Binding>)
    ensures Scopes(a + b) == Scopes(a) + Scopes(b)
  {
  }
}
