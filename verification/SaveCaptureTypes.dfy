/**
 The records of the save-capture journal.

 A URL fingerprint is a digest of the canonical URL. Digests are taken to be injective, so a record
 stores the URL itself where the journal stores origin, site and fingerprint.
 */
module SaveCaptureTypes {
  import opened Numbers

  datatype Url = Url(scheme: string, host: string, rest: string)

  datatype Method = Post | Put | Patch | Get | OtherMethod

  datatype RequestType = MainFrame | SubFrame | Xhr

  /** Settings of one coordinator. `baseDomain` is the registrable-domain table of the browser. */
  datatype Config = Config(
    baseDomain: string -> string,
    beforeWindow: nat,
    afterWindow: nat,
    ttl: nat,
    capacity: nat)

  /** The bounds the constructor enforces. */
  predicate ValidConfig(config: Config) {
    && 1 <= config.beforeWindow <= 10000
    && 1 <= config.afterWindow <= 10000
    && 1 <= config.ttl <= 300000
    && 1 <= config.capacity <= 128
  }

  /** One content-script runtime in one document of one frame. */
  datatype Runtime = Runtime(tab: nat, frame: nat, document: string, incarnation: string)

  datatype CapturePhase = Unconfirmed | Confirmed

  datatype Submission = Native(action: Url, meth: Method) | Formless

  datatype Capture = Capture(
    id: string,
    runtime: Runtime,
    source: Url,
    createdAt: nat,
    expiresAt: nat,
    submission: Submission,
    phase: CapturePhase)

  datatype RequestPhase = Started | Redirected | Succeeded | Failed

  datatype Continuation = Continuation(statusCode: nat, redirectedAt: nat, expected: Url)

  datatype Request = Request(
    id: string,
    runtime: Runtime,
    document: Url,
    initial: Url,
    current: Url,
    meth: Method,
    kind: RequestType,
    startedAt: nat,
    expiresAt: nat,
    phase: RequestPhase,
    redirectCount: nat,
    allowGet: bool,
    continuation: Option<Continuation>)

  /** What the browser reports when a request completes or fails. */
  datatype Terminal = Terminal(
    requestId: string,
    tab: nat,
    frame: nat,
    document: string,
    url: Url,
    meth: Method,
    kind: RequestType,
    timeStamp: nat,
    expiresAt: nat)

  datatype Redirect = Redirect(
    requestId: string,
    tab: nat,
    frame: nat,
    document: string,
    url: Url,
    target: Url,
    meth: Method,
    kind: RequestType,
    timeStamp: nat,
    expiresAt: nat,
    statusCode: nat)

  /** A terminal event kept for a request the journal has not seen start yet. */
  datatype Outcome = Outcome(terminal: Terminal, incarnation: string, succeeded: bool)

  datatype ActiveRuntime = ActiveRuntime(runtime: Runtime, document: Url, activatedAt: nat)

  datatype RetiredRuntime = RetiredRuntime(
    runtime: Runtime,
    retiredAt: nat,
    expiresAt: nat,
    cleanupPending: bool)

  datatype AdmissionStatus = AdmissionPending | AdmissionFailed

  datatype Admission = Admission(
    id: string,
    requestId: string,
    runtime: Runtime,
    status: AdmissionStatus,
    enteredAt: nat,
    expiresAt: nat)

  datatype Journal = Journal(
    revision: nat,
    blockedUntil: nat,
    runtimeFenceUntil: nat,
    captures: seq<Capture>,
    requests: seq<Request>,
    outcomes: seq<Outcome>,
    active: seq<ActiveRuntime>,
    retired: seq<RetiredRuntime>,
    admissions: seq<Admission>)

  function EmptyJournal(revision: nat): Journal {
    Journal(revision, 0, 0, [], [], [], [], [], [])
  }

  predicate IsMutation(meth: Method) {
    meth.Post? || meth.Put? || meth.Patch?
  }

  predicate SameOrigin(a: Url, b: Url) {
    a.scheme == b.scheme && a.host == b.host
  }

  /** Same origin, or same scheme and same registrable domain. */
  predicate SameSite(config: Config, a: Url, b: Url) {
    SameOrigin(a, b) || (a.scheme == b.scheme && config.baseDomain(a.host) == config.baseDomain(b.host))
  }

  // Keys, named so that two uses of one key are the same function.
  const CAPTURE_ID: Capture -> string := (c: Capture) => c.id
  const REQUEST_ID: Request -> string := (r: Request) => r.id
  const OUTCOME_KEY: Outcome -> (string, string) := (o: Outcome) => (o.incarnation, o.terminal.requestId)
  const ACTIVE_KEY: ActiveRuntime -> (nat, nat) := (a: ActiveRuntime) => (a.runtime.tab, a.runtime.frame)
  const RETIRED_KEY: RetiredRuntime -> Runtime := (r: RetiredRuntime) => r.runtime
  const ADMISSION_ID: Admission -> string := (a: Admission) => a.id
}
