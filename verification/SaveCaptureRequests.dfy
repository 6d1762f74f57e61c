/**
 How browser events change the tracked requests of the save-capture journal: admission, the request
 itself, redirects, completion and error.
 */
module SaveCaptureRequests {
  import opened Numbers
  import opened Sequences
  import opened SaveCaptureTypes

  const MAX_REDIRECTS: nat := 10

  /** A before-request event, already tied to the document that issued it. */
  datatype Before = Before(
    requestId: string,
    tab: nat,
    frame: nat,
    document: string,
    source: Url,
    url: Url,
    meth: Method,
    kind: RequestType,
    timeStamp: nat)

  function FreshRequest(config: Config, b: Before, incarnation: string): Request {
    Request(b.requestId, Runtime(b.tab, b.frame, b.document, incarnation), b.source, b.url, b.url,
            b.meth, b.kind, b.timeStamp, SafeAdd(b.timeStamp, config.ttl), Started, 0, false, None)
  }

  /** Documents are compared for XHR only: a navigation reports the document it navigates to. */
  predicate IdentityMatches(requestId: string, tab: nat, frame: nat, document: string, r: Request) {
    && requestId == r.id
    && tab == r.runtime.tab
    && frame == r.runtime.frame
    && (r.kind == Xhr ==> document == r.runtime.document)
  }

  predicate TerminalIdentity(t: Terminal, r: Request) {
    IdentityMatches(t.requestId, t.tab, t.frame, t.document, r)
  }

  predicate MethodAllowed(meth: Method, r: Request) {
    meth == r.meth || (r.allowGet && meth == Get)
  }

  predicate TerminalMatches(t: Terminal, r: Request) {
    && TerminalIdentity(t, r)
    && r.continuation == None
    && t.url == r.current
    && t.kind == r.kind
    && MethodAllowed(t.meth, r)
    && r.startedAt <= t.timeStamp
  }

  predicate AcceptsRedirect(config: Config, x: Redirect, r: Request) {
    && (r.phase == Started || (r.phase == Redirected && r.continuation == None && r.allowGet && x.meth == Get))
    && IdentityMatches(x.requestId, x.tab, x.frame, x.document, r)
    && x.kind == r.kind
    && x.url == r.current
    && MethodAllowed(x.meth, r)
    && r.startedAt <= x.timeStamp
    && r.redirectCount < MAX_REDIRECTS
    && SameSite(config, r.document, x.target)
  }

  /** 307 and 308 repeat the request with its method (sections 15.4.8 and 15.4.9 of RFC 9110). */
  predicate PreservesMethod(statusCode: nat) {
    statusCode == 307 || statusCode == 308
  }

  function FollowRedirect(x: Redirect, r: Request): Request {
    var preserves := PreservesMethod(x.statusCode) && x.meth == r.meth;
    r.(current := x.target,
       redirectCount := r.redirectCount + 1,
       phase := Redirected,
       allowGet := r.allowGet || !preserves,
       continuation := if preserves then Some(Continuation(x.statusCode, x.timeStamp, x.target)) else None)
  }

  predicate SameStarted(a: Request, b: Request) {
    && a.id == b.id && a.runtime == b.runtime && a.document == b.document && a.initial == b.initial
    && a.meth == b.meth && a.kind == b.kind && a.startedAt == b.startedAt
  }

  /** The browser reports a method-preserving redirect as a new request under the old id. */
  predicate ContinuesAs(existing: Request, next: Request) {
    && existing.continuation.Some?
    && existing.phase == Redirected
    && existing.id == next.id && existing.runtime == next.runtime && existing.document == next.document
    && existing.meth == next.meth && existing.kind == next.kind
    && next.initial == existing.continuation.value.expected
    && next.initial == existing.current
    && existing.continuation.value.redirectedAt <= next.startedAt
  }

  predicate IsSuccessStatus(statusCode: nat) {
    200 <= statusCode < 300
  }

  /** The events the browser can report about a request that is already tracked. */
  datatype NetEvent =
    | Again(next: Request)
    | Redirecting(redirect: Redirect)
    | Completing(terminal: Terminal, statusCode: nat)
    | Failing(terminal: Terminal)

  /** The tracked record after one event; None when the contradiction blocks the whole journal. */
  function StepRequest(config: Config, r: Request, e: NetEvent): Option<Request> {
    match e
    case Again(next) =>
      if SameStarted(r, next) then Some(r)
      else if ContinuesAs(r, next) then Some(r.(current := next.initial, phase := Started, continuation := None))
      else None
    case Redirecting(x) =>
      if AcceptsRedirect(config, x, r) then Some(FollowRedirect(x, r)) else Some(r.(phase := Failed))
    case Completing(t, statusCode) =>
      if r.phase == Failed then Some(r)
      else Some(r.(phase := if TerminalMatches(t, r) && IsSuccessStatus(statusCode) then Succeeded else Failed))
    case Failing(t) =>
      if TerminalIdentity(t, r) && r.startedAt <= t.timeStamp then Some(r.(phase := Failed)) else None
  }

  // ---------------------------------------------------------------------------------------------
  // The redirect chain of one request
  // ---------------------------------------------------------------------------------------------

  datatype Hop = Hop(from: Url, target: Url, meth: Method, statusCode: nat)

  /** What really happened to a request: the hops it followed and the completion that ended it. */
  datatype History = History(hops: seq<Hop>, finish: Option<Terminal>)

  predicate Keeps(h: Hop, meth: Method) {
    PreservesMethod(h.statusCode) && h.meth == meth
  }

  function StepHistory(config: Config, r: Request, h: History, e: NetEvent): History {
    match e
    case Again(_) => h
    case Failing(_) => h
    case Redirecting(x) =>
      if AcceptsRedirect(config, x, r)
      then h.(hops := h.hops + [Hop(x.url, x.target, x.meth, x.statusCode)])
      else h
    case Completing(t, statusCode) =>
      if r.phase != Failed && TerminalMatches(t, r) && IsSuccessStatus(statusCode) then h.(finish := Some(t)) else h
  }

  function CurrentUrl(initial: Url, hops: seq<Hop>): Url {
    if hops == [] then initial else hops[|hops| - 1].target
  }

  predicate SomeHopChangesMethod(meth: Method, hops: seq<Hop>) {
    exists i :: 0 <= i < |hops| && !Keeps(hops[i], meth)
  }

  /** The hops are connected, stay on the document's site, and use GET only once that is allowed. */
  ghost predicate HopsFrom(config: Config, document: Url, initial: Url, meth: Method, hops: seq<Hop>) {
    forall i :: 0 <= i < |hops| ==>
      && SameSite(config, document, hops[i].target)
      && hops[i].from == CurrentUrl(initial, hops[..i])
      && (hops[i].meth == meth || (hops[i].meth == Get && SomeHopChangesMethod(meth, hops[..i])))
  }

  /** The record describes its history. */
  ghost predicate Chain(config: Config, r: Request, h: History) {
    && r.redirectCount == |h.hops| <= MAX_REDIRECTS
    && r.current == CurrentUrl(r.initial, h.hops)
    && HopsFrom(config, r.document, r.initial, r.meth, h.hops)
    && (r.allowGet <==> SomeHopChangesMethod(r.meth, h.hops))
    && (r.continuation.Some? ==>
          && h.hops != [] && Keeps(h.hops[|h.hops| - 1], r.meth)
          && r.continuation.value.expected == r.current
          && (r.phase == Redirected || r.phase == Failed))
    && (r.phase == Redirected ==> h.hops != [])
    && (r.phase == Succeeded ==> h.finish.Some? && Finished(r, h))
  }

  /** The completion that ended a request was for the URL its redirects led to. */
  ghost predicate Finished(r: Request, h: History)
    requires h.finish.Some?
  {
    var t := h.finish.value;
    && t.url == CurrentUrl(r.initial, h.hops)
    && TerminalIdentity(t, r) && t.kind == r.kind && r.startedAt <= t.timeStamp
    && (t.meth == r.meth || (t.meth == Get && SomeHopChangesMethod(r.meth, h.hops)))
  }

  lemma {:induction false} AppendedHop(config: Config, document: Url, initial: Url, meth: Method, hops: seq<Hop>, hop: Hop)
    ensures SomeHopChangesMethod(meth, hops + [hop]) <==> SomeHopChangesMethod(meth, hops) || !Keeps(hop, meth)
    ensures && HopsFrom(config, document, initial, meth, hops)
            && SameSite(config, document, hop.target) && hop.from == CurrentUrl(initial, hops)
            && (hop.meth == meth || (hop.meth == Get && SomeHopChangesMethod(meth, hops)))
            ==> HopsFrom(config, document, initial, meth, hops + [hop])
  {
    var all := hops + [hop];
    assert all[|hops|] == hop && all[..|hops|] == hops;
    forall i | 0 <= i < |hops| ensures all[i] == hops[i] && all[..i] == hops[..i] {
    }
  }

  lemma {:induction false} RedirectKeepsChain(config: Config, r: Request, h: History, x: Redirect)
    requires Chain(config, r, h) && AcceptsRedirect(config, x, r)
    ensures Chain(config, FollowRedirect(x, r), StepHistory(config, r, h, Redirecting(x)))
  {
    AppendedHop(config, r.document, r.initial, r.meth, h.hops, Hop(x.url, x.target, x.meth, x.statusCode));
  }

  lemma {:induction false} CompletionKeepsChain(config: Config, r: Request, h: History, t: Terminal, statusCode: nat)
    requires Chain(config, r, h)
    ensures var s := StepRequest(config, r, Completing(t, statusCode));
            s.Some? ==> Chain(config, s.value, StepHistory(config, r, h, Completing(t, statusCode)))
  {
    hide SameSite, HopsFrom, SomeHopChangesMethod, CurrentUrl, Keeps;
  }

  lemma {:induction false} StepKeepsChain(config: Config, r: Request, h: History, e: NetEvent)
    requires Chain(config, r, h)
    requires StepRequest(config, r, e).Some?
    ensures Chain(config, StepRequest(config, r, e).value, StepHistory(config, r, h, e))
  {
    hide SameSite, HopsFrom;
    match e {
      case Redirecting(x) =>
        if AcceptsRedirect(config, x, r) {
          RedirectKeepsChain(config, r, h, x);
        }
      case Completing(t, statusCode) => CompletionKeepsChain(config, r, h, t, statusCode);
      case Again(_) =>
      case Failing(_) =>
    }
  }

  function RunRequest(config: Config, r: Request, h: History, events: seq<NetEvent>): Option<(Request, History)>
    decreases |events|
  {
    if events == [] then Some((r, h))
    else match StepRequest(config, r, events[0])
      case None => None
      case Some(s) => RunRequest(config, s, StepHistory(config, r, h, events[0]), events[1..])
  }

  /**
   For every run of events a tracked request survives: the redirect count is the number of hops, at
   most ten; the current URL is where the last hop led; every hop stayed on the document's site; and
   a success was the completion of exactly that URL, by GET only after a hop that changed the method.
   */
  lemma {:induction false} RunKeepsChain(config: Config, r: Request, h: History, events: seq<NetEvent>)
    requires Chain(config, r, h)
    requires RunRequest(config, r, h, events).Some?
    ensures Chain(config, RunRequest(config, r, h, events).value.0, RunRequest(config, r, h, events).value.1)
    decreases |events|
  {
    if events != [] {
      StepKeepsChain(config, r, h, events[0]);
      RunKeepsChain(config, StepRequest(config, r, events[0]).value, StepHistory(config, r, h, events[0]), events[1..]);
    }
  }

  /** A failed request stays failed whatever the browser reports later. */
  lemma {:induction false} FailedIsAbsorbing(config: Config, r: Request, h: History, events: seq<NetEvent>)
    requires r.phase == Failed
    requires RunRequest(config, r, h, events).Some?
    ensures RunRequest(config, r, h, events).value.0.phase == Failed
    decreases |events|
  {
    if events != [] {
      FailedIsAbsorbing(config, StepRequest(config, r, events[0]).value, StepHistory(config, r, h, events[0]), events[1..]);
    }
  }

  // ---------------------------------------------------------------------------------------------
  // The journal
  // ---------------------------------------------------------------------------------------------

  function HasRequestId(id: string): Request -> bool {
    (r: Request) => r.id == id
  }

  function HasOutcomeKey(requestId: string, incarnation: string): Outcome -> bool {
    (o: Outcome) => o.terminal.requestId == requestId && o.incarnation == incarnation
  }

  function HasAdmissionId(id: string): Admission -> bool {
    (a: Admission) => a.id == id
  }

  function RemoveAt<T>(s: seq<T>, i: nat): seq<T>
    requires i < |s|
  {
    s[..i] + s[i + 1..]
  }

  /** Negative evidence the journal cannot attribute: drop everything until the deadline. */
  function BlockAll(j: Journal, until: nat): Journal {
    j.(blockedUntil := Max(j.blockedUntil, until), captures := [], requests := [], outcomes := [], admissions := [])
  }

  function AddRequest(config: Config, j: Journal, r: Request): Journal {
    match IndexOf(j.requests, HasRequestId(r.id))
    case Some(i) =>
      (match StepRequest(config, j.requests[i], Again(r))
       case Some(s) => j.(requests := j.requests[i := s])
       case None => BlockAll(j, r.expiresAt))
    case None =>
      if |j.requests| >= config.capacity then BlockAll(j, r.expiresAt)
      else match IndexOf(j.outcomes, HasOutcomeKey(r.id, r.runtime.incarnation))
        case None => j.(requests := j.requests + [r])
        case Some(k) =>
          var o := j.outcomes[k];
          var phase := if TerminalMatches(o.terminal, r) && o.succeeded then Succeeded else Failed;
          j.(outcomes := RemoveAt(j.outcomes, k), requests := j.requests + [r.(phase := phase)])
  }

  function UpsertOutcome(config: Config, j: Journal, o: Outcome): Journal {
    match IndexOf(j.outcomes, HasOutcomeKey(o.terminal.requestId, o.incarnation))
    case Some(k) =>
      // Two outcomes agree when they differ in nothing but the expiry.
      if j.outcomes[k] == o.(terminal := o.terminal.(expiresAt := j.outcomes[k].terminal.expiresAt)) then j
      else j.(blockedUntil := Max(j.blockedUntil, o.terminal.expiresAt))
    case None =>
      if |j.outcomes| >= config.capacity
      then j.(blockedUntil := Max(j.blockedUntil, o.terminal.expiresAt), requests := [], outcomes := [])
      else j.(outcomes := j.outcomes + [o])
  }

  predicate AdmissionFits(a: Admission, requestId: string, tab: nat, frame: nat, document: string, kind: RequestType) {
    && a.requestId == requestId
    && a.runtime.tab == tab
    && a.runtime.frame == frame
    && (kind == Xhr ==> a.runtime.document == document)
  }

  function FitsTerminal(requestId: string, tab: nat, frame: nat, document: string, kind: RequestType)
    : Admission -> bool
  {
    (a: Admission) => AdmissionFits(a, requestId, tab, frame, document, kind)
  }

  /** The runtime of an early terminal event, when its admissions name exactly one. */
  function RuntimeForTerminal(j: Journal, requestId: string, tab: nat, frame: nat, document: string, kind: RequestType)
    : Option<string>
  {
    var fitting := Filter(j.admissions, FitsTerminal(requestId, tab, frame, document, kind));
    if fitting != [] && forall a :: a in fitting ==> a.runtime.incarnation == fitting[0].runtime.incarnation
    then Some(fitting[0].runtime.incarnation) else None
  }

  function RecordEarly(config: Config, j: Journal, t: Terminal, succeeded: bool): Journal {
    var incarnation := RuntimeForTerminal(j, t.requestId, t.tab, t.frame, t.document, t.kind);
    if IsMutation(t.meth) && incarnation.Some?
    then UpsertOutcome(config, j, Outcome(t, incarnation.value, succeeded)) else j
  }

  function ObserveRedirect(config: Config, j: Journal, x: Redirect): Journal {
    match IndexOf(j.requests, HasRequestId(x.requestId))
    case Some(i) =>
      j.(requests := j.requests[i := StepRequest(config, j.requests[i], Redirecting(x)).value])
    case None =>
      RecordEarly(config, j, Terminal(x.requestId, x.tab, x.frame, x.document, x.url, x.meth, x.kind, x.timeStamp,
                                      x.expiresAt), false)
  }

  function ObserveCompleted(config: Config, j: Journal, t: Terminal, statusCode: nat): Journal {
    match IndexOf(j.requests, HasRequestId(t.requestId))
    case Some(i) =>
      j.(requests := j.requests[i := StepRequest(config, j.requests[i], Completing(t, statusCode)).value])
    case None => RecordEarly(config, j, t, IsSuccessStatus(statusCode))
  }

  function ObserveError(config: Config, j: Journal, t: Terminal): Journal {
    match IndexOf(j.requests, HasRequestId(t.requestId))
    case Some(i) =>
      (match StepRequest(config, j.requests[i], Failing(t))
       case Some(s) => j.(requests := j.requests[i := s])
       case None => BlockAll(j, t.expiresAt))
    case None => RecordEarly(config, j, t, false)
  }

  /** The history of a new record: no hops yet, and its end if an early outcome decided it. */
  function FirstHistory(j: Journal, r: Request): History {
    var k := IndexOf(j.outcomes, HasOutcomeKey(r.id, r.runtime.incarnation));
    History([], if k.Some? then Some(j.outcomes[k.value].terminal) else None)
  }

  /** A new record starts a chain, also when an early outcome already decided its phase. */
  lemma {:induction false} AddedRequestStartsChain(config: Config, j: Journal, r: Request)
    requires IndexOf(j.requests, HasRequestId(r.id)).None? && |j.requests| < config.capacity
    requires r.phase == Started && r.redirectCount == 0 && !r.allowGet && r.continuation == None && r.current == r.initial
    ensures var rs := AddRequest(config, j, r).requests;
            rs == j.requests + [rs[|rs| - 1]] && rs[|rs| - 1].id == r.id && Chain(config, rs[|rs| - 1], FirstHistory(j, r))
  {
  }
}
