/** The entities of the durable record (src/model.rs), generic in the commit type C, the digest type D
    and the path type P, so that the lifecycle machine and the receipts share them. A capsule's label
    is called `title` here, `label` being a Dafny keyword. */
module Model {
  datatype Option<+T> = None | Some(value: T)

  datatype Result<+T> = Ok(value: T) | Err

  datatype CapsuleState =
    | Creating | Checkpointing | Active | Closed | Integrating | Integrated
    | Dropping | Orphaned | Dropped

  datatype ResultKind = NoChange | Committed | Patched

  datatype Author = Author(name: string, email: string)

  datatype Checkpoint<+C> = Checkpoint(commit: C, message: string, author: Author, createdAt: nat)

  datatype Evidence<+D> = Evidence(
    command: string,
    exitCode: int,
    executed: bool,
    outputSha256: Option<D>,
    outputBytes: Option<nat>,
    summary: Option<string>,
    patchSha256: D,
    recordedAt: nat)
  {
    /** Running a command is what produces an output digest and a byte count. */
    predicate Coherent() {
      executed == outputSha256.Some? && executed == outputBytes.Some?
    }
  }

  datatype CapsuleResult<+C, +D, +P> = CapsuleResult(
    capsuleId: string,
    title: Option<string>,
    links: map<string, string>,
    kind: ResultKind,
    baseCommit: C,
    headCommit: C,
    patchSha256: D,
    patchBytes: nat,
    changedPaths: seq<P>,
    ignoredBytes: nat,
    ignoredContentSha256: Option<D>,
    ignoredPaths: seq<P>,
    checkpoints: seq<Checkpoint<C>>,
    evidence: seq<Evidence<D>>,
    createdAt: nat,
    sealedAt: nat)

  /** The three independent evidence requirements of close and verify. */
  datatype Requirements = Requirements(successful: bool, currentSuccessful: bool, executed: bool)

  predicate Satisfies<D(==)>(req: Requirements, evidence: seq<Evidence<D>>, patch: D) {
    && (req.successful ==> evidence != [] && forall e | e in evidence :: e.exitCode == 0)
    && (req.currentSuccessful ==> exists e | e in evidence :: e.exitCode == 0 && e.patchSha256 == patch)
    && (req.executed ==> exists e | e in evidence :: e.executed && e.exitCode == 0 && e.patchSha256 == patch)
  }

  /** One logical creation request; `resolved` is what Git makes of the selector at that moment. */
  datatype Request<+T, +C> = Request(
    source: T,
    commonDir: T,
    selector: T,
    resolved: Option<C>,
    title: Option<T>,
    links: map<T, T>)

  /** A write-once reservation (idempotency.rs). */
  datatype Reservation<+T, +C> = Reservation(
    id: T,
    source: T,
    commonDir: T,
    selector: T,
    baseCommit: C,
    title: Option<T>,
    links: map<T, T>,
    reservedAt: nat)

  /** Request equivalence: what a replay may vary is only how it names the reserved commit. */
  predicate SameRequest<T(==), C(==)>(request: Request<T, C>, record: Reservation<T, C>) {
    && request.source == record.source
    && request.commonDir == record.commonDir
    && request.title == record.title
    && request.links == record.links
    && (request.selector == record.selector || request.resolved == Some(record.baseCommit))
  }
}
