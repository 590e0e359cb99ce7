/** Row types of the run ledger, the capture log and Silver.

Instants are whole numbers on one time line.  Names and hashes are opaque values that are only
ever compared for equality, so every result holds for any choice of them; a derivation id is a
fixed-width hexadecimal string, whose string order is the order of the number it spells.
*/
module Types {
  type Instant = int
  type DerivationId = int
  type TargetId(==, !new)
  type WorkerId(==, !new)
  type DatasetId(==, !new)
  type Transport(==, !new)
  type Dimensions(==, !new)
  type Resolution(==, !new)
  type Metric(==, !new)
  type SourceVersion(==, !new)
  type Value(==, !new)
  type Sha(==, !new)
  type Url(==, !new)
  type Validators(==, !new)

  datatype Option<+T> = None | Some(value: T)

  // ---------------------------------------------------------------- Bronze

  /** `<target>:<stamp>:<attempt>`; the same three parts make the capture-log key. */
  datatype CaptureId = CaptureId(target: TargetId, scheduledFor: Instant, attempt: nat)

  datatype CaptureEntry = CaptureEntry(
    id: CaptureId,
    fetchedAt: Instant,
    url: Url,
    status: int,
    payload: Sha,
    contentChanged: bool,
    transport: Transport,
    validators: Option<Validators>)

  /** A recorded invalidation; no derivation means every derivation. */
  datatype Decision = Decision(capture: CaptureId, derivation: Option<DerivationId>)

  /** What the runtime reads of Bronze: the capture log, the blobs and the decisions beside them. */
  datatype Bronze = Bronze(
    log: map<CaptureId, CaptureEntry>,
    blobs: set<Sha>,
    decisions: set<Decision>)

  // ---------------------------------------------------------------- ledger

  datatype RunState = Scheduled | Captured | Processed | Failed | MissingCapture | Unrecoverable
  datatype RunOrigin = ByScheduler | Reconciled | Backfilled | Replayed | Manual
  datatype AttemptKind = CaptureAttempt | ProcessAttempt | BackfillAttempt | ReplayAttempt
  datatype Outcome = Ok | FailedOutcome | LostLease | Quarantined | Noop | SourceUnavailable

  datatype Run = Run(
    target: TargetId,
    scheduledFor: Instant,
    state: RunState,
    fence: nat,
    origin: RunOrigin,
    leaseOwner: Option<WorkerId>,
    leaseUntil: Option<Instant>,
    capture: Option<CaptureId>,
    createdAt: Instant,
    updatedAt: Instant)

  datatype RunAttempt = RunAttempt(
    run: nat,
    kind: AttemptKind,
    leaseOwner: Option<WorkerId>,
    leaseUntil: Option<Instant>,
    fence: Option<nat>,
    capture: Option<CaptureId>,
    derivation: Option<DerivationId>,
    outcome: Option<Outcome>,
    startedAt: Instant,
    finishedAt: Option<Instant>)
  {
    predicate Pending() {
      outcome.None? && leaseOwner.None?
    }

    predicate Expired(now: Instant) {
      outcome.None? && leaseOwner.Some? && leaseUntil.Some? && leaseUntil.value < now
    }
  }

  datatype Claim = Claim(runId: nat, run: Run, fence: nat, attemptId: nat, attempt: RunAttempt)

  datatype CommitResult = CommitResult(inserted: nat, lostLease: bool, occurrences: nat)

  datatype EventKind = UnrecoverableGap | Invalidated | ProcessFailed | QuarantinedDocument | OtherEvent
  datatype QualityEvent = QualityEvent(kind: EventKind, subject: Option<Instant>)
  datatype StoredEvent = StoredEvent(target: TargetId, attempt: Option<nat>, event: QualityEvent, createdAt: Instant)

  // ---------------------------------------------------------------- Silver

  datatype Identity = Identity(
    dataset: DatasetId,
    dimensions: Dimensions,
    start: Instant,
    resolution: Resolution,
    metric: Metric,
    sourceVersion: Option<SourceVersion>)

  datatype Semver = Semver(major: nat, minor: nat, patch: nat)

  datatype Observation = Observation(
    identity: Identity,
    transport: Transport,
    contractVersion: Semver,
    derivation: DerivationId,
    payload: Sha,
    fetchedAt: Instant,
    publishedAt: Option<Instant>,
    processedAt: Instant,
    value: Option<Value>)

  /** The upsert key: same key, nothing is inserted. */
  datatype Version = Version(identity: Identity, payload: Sha, derivation: DerivationId)

  function VersionOf(o: Observation): Version {
    Version(o.identity, o.payload, o.derivation)
  }

  function OrderingInstant(o: Observation): Instant {
    if o.publishedAt.Some? then o.publishedAt.value else o.fetchedAt
  }

  datatype StoredObservation = StoredObservation(attempt: nat, observation: Observation)

  /** One capture that produced a version: its ordering instant and the attempt that stored it. */
  datatype Occurrence = Occurrence(instant: Instant, attempt: nat)

  // ---------------------------------------------------------------- mapping

  /** One mapped value, before the envelope of the capture is put around it. */
  datatype Measurement = Measurement(
    dimensions: Dimensions,
    start: Instant,
    resolution: Resolution,
    metric: Metric,
    sourceVersion: Option<SourceVersion>,
    publishedAt: Option<Instant>,
    contractVersion: Semver,
    value: Option<Value>)

  datatype MapOutcome = Unmappable | Mapped(measurements: seq<Measurement>)

  /** The fixed part of a target's manifest: where its rows belong. */
  datatype Feed = Feed(dataset: DatasetId, transport: Transport)

  /** What never changes while the system runs: each target's feed, and decode-parse-map as one
      deterministic function of target, derivation, payload and scheduled instant. */
  datatype Catalog = Catalog(
    feed: TargetId -> Feed,
    mapping: (TargetId, DerivationId, Sha, Instant) -> MapOutcome)

  function IdentityOf(dataset: DatasetId, m: Measurement): Identity {
    Identity(dataset, m.dimensions, m.start, m.resolution, m.metric, m.sourceVersion)
  }

  function Envelope(feed: Feed, d: DerivationId, e: CaptureEntry, now: Instant, m: Measurement): Observation {
    Observation(IdentityOf(feed.dataset, m), feed.transport, m.contractVersion, d, e.payload,
                e.fetchedAt, m.publishedAt, now, m.value)
  }

  /** The observations mapped from capture entry `e` for the run of `target` at `t`. */
  function Observe(cat: Catalog, target: TargetId, t: Instant, d: DerivationId, e: CaptureEntry, now: Instant)
    : (r: Option<seq<Observation>>)
    ensures r.Some? <==> cat.mapping(target, d, e.payload, t).Mapped?
    ensures r.Some? ==> forall o :: o in r.value ==>
      o.derivation == d && o.payload == e.payload && o.fetchedAt == e.fetchedAt && o.processedAt == now
  {
    match cat.mapping(target, d, e.payload, t)
    case Unmappable => None
    case Mapped(ms) => Some(seq(|ms|, i requires 0 <= i < |ms| => Envelope(cat.feed(target), d, e, now, ms[i])))
  }
}
