/** The portable receipt: what close seals, what export writes, and what offline verification
    accepts, over bytes. The JSON codec and the hash are parameters. */
module Receipts {
  import opened Model
  import opened Ordering
  import opened Framing
  import opened GitPaths
  import World

  type Sealed = CapsuleResult<Bytes, Bytes, GitPath>

  datatype Kind = ResultManifest | ResultPatch

  datatype Descriptor = Descriptor(
    kind: Kind,
    name: Bytes,
    mediaType: Bytes,
    uri: Bytes,
    contentAddress: Bytes,
    sha256: Bytes,
    size: nat)

  datatype Bundle = Bundle(schemaVersion: nat, capsuleId: string, artifacts: seq<Descriptor>)

  /** A result document carries its schema version. */
  datatype Document = Document(schemaVersion: nat, result: Sealed)

  datatype Codec = Codec(
    encodeResult: Document -> Bytes,
    decodeResult: Bytes -> Option<Document>,
    encodeBundle: Bundle -> Bytes,
    decodeBundle: Bytes -> Option<Bundle>)

  /** The receipt directory. */
  datatype Receipt = Receipt(bundle: Option<Bytes>, result: Option<Bytes>, patch: Option<Bytes>)

  const SCHEMA_VERSION: nat := 5
  const BUNDLE_SCHEMA_VERSION: nat := 1
  const BUNDLE_JSON_CAP: nat := 1024 * 1024
  const HARD_PATCH_BYTES: nat := 64 * 1024 * 1024
  const RESULT_NAME: Bytes := "result.json"
  const PATCH_NAME: Bytes := "result.patch"
  const JSON_TYPE: Bytes := "application/json"
  const PATCH_TYPE: Bytes := "application/vnd.git.patch"
  const ADDRESS: Bytes := "sha256:"

  predicate ValidSha256(digest: Bytes) { |digest| == 64 && AllLowerHex(digest) }

  predicate ValidObjectId(id: Bytes) { (|id| == 40 || |id| == 64) && AllLowerHex(id) }

  // ---- close ----

  /** What the close transaction observed twice alike. */
  datatype Snapshot = Snapshot(
    patch: Bytes,
    changedPaths: seq<GitPath>,
    head: Bytes,
    clean: bool,
    ignoredPaths: seq<GitPath>,
    ignoredBytes: nat,
    ignoredStream: Bytes)

  /** The part of the open manifest the result repeats. */
  datatype Open = Open(
    id: string,
    title: Option<string>,
    links: map<string, string>,
    base: Bytes,
    checkpoints: seq<Checkpoint<Bytes>>,
    evidence: seq<Evidence<Bytes>>,
    createdAt: nat)

  function KindOf(s: Snapshot): ResultKind {
    if s.patch == [] then NoChange else if s.clean then Committed else Patched
  }

  /** `close`, from the snapshot on: refused when evidence is missing or the patch too large. */
  function Close(hash: Bytes -> Bytes, c: Open, s: Snapshot, required: Requirements, now: nat): Result<Sealed> {
    if !Satisfies(required, c.evidence, hash(s.patch)) || |s.patch| > HARD_PATCH_BYTES then Err
    else
      Ok(CapsuleResult(
           c.id, c.title, c.links, KindOf(s), c.base, s.head, hash(s.patch), |s.patch|, s.changedPaths,
           s.ignoredBytes, Some(hash(s.ignoredStream)), s.ignoredPaths, c.checkpoints, c.evidence, c.createdAt, now))
  }

  // ---- export ----

  function DescriptorOf(hash: Bytes -> Bytes, kind: Kind, name: Bytes, mediaType: Bytes, bytes: Bytes): Descriptor {
    Descriptor(kind, name, mediaType, name, ADDRESS + hash(bytes), hash(bytes), |bytes|)
  }

  /** `artifact_snapshot`, its paths already replaced by names. */
  function BundleOf(hash: Bytes -> Bytes, id: string, result: Bytes, patch: Bytes): Bundle {
    Bundle(BUNDLE_SCHEMA_VERSION, id,
           [DescriptorOf(hash, ResultManifest, RESULT_NAME, JSON_TYPE, result),
            DescriptorOf(hash, ResultPatch, PATCH_NAME, PATCH_TYPE, patch)])
  }

  /** `export_artifacts` of a stored result document and patch. */
  function Export(codec: Codec, hash: Bytes -> Bytes, id: string, result: Bytes, patch: Bytes): Receipt {
    Receipt(Some(codec.encodeBundle(BundleOf(hash, id, result, patch))), Some(result), Some(patch))
  }

  // ---- verify ----

  function Matching(artifacts: seq<Descriptor>, kind: Kind): seq<Descriptor> {
    if artifacts == [] then []
    else (if artifacts[0].kind == kind then [artifacts[0]] else []) + Matching(artifacts[1..], kind)
  }

  /** `single_descriptor`. */
  function SingleDescriptor(bundle: Bundle, kind: Kind): Option<Descriptor> {
    var found := Matching(bundle.artifacts, kind);
    if |found| == 1 then Some(found[0]) else None
  }

  /** `check_descriptor`. */
  predicate Describes(hash: Bytes -> Bytes, d: Descriptor, bytes: Bytes) {
    d.size == |bytes| && d.sha256 == hash(bytes) && d.contentAddress == ADDRESS + hash(bytes)
  }

  /** `verify_result_consistency`. */
  predicate Consistent(hash: Bytes -> Bytes, bundle: Bundle, d: Document, patch: Bytes) {
    var r := d.result;
    && d.schemaVersion == SCHEMA_VERSION
    && r.capsuleId == bundle.capsuleId
    && ValidObjectId(r.baseCommit) && ValidObjectId(r.headCommit)
    && ValidSha256(r.patchSha256)
    && (r.ignoredContentSha256.Some? ==> ValidSha256(r.ignoredContentSha256.value))
    && r.patchSha256 == hash(patch)
    && r.patchBytes == |patch|
    && r.createdAt <= r.sealedAt
    && r.ignoredContentSha256.Some?
    && (forall p | p in r.changedPaths :: IsValidEncoding(p))
    && (forall p | p in r.ignoredPaths :: IsValidEncoding(p))
    && (forall e | e in r.evidence :: ValidSha256(e.patchSha256) && (e.outputSha256.Some? ==> ValidSha256(e.outputSha256.value)))
    && (forall e | e in r.evidence :: e.Coherent())
    && (r.kind.NoChange? == (patch == []))
    && ((patch == []) == (r.changedPaths == []))
  }

  /** `verify_bundle`, without a repository: the decoded result of an accepted receipt. */
  function Verify(codec: Codec, hash: Bytes -> Bytes, receipt: Receipt, required: Requirements): Result<Sealed> {
    if receipt.bundle.None? || |receipt.bundle.value| > BUNDLE_JSON_CAP then Err
    else
      match codec.decodeBundle(receipt.bundle.value)
      case None => Err
      case Some(bundle) =>
        var m, p := SingleDescriptor(bundle, ResultManifest), SingleDescriptor(bundle, ResultPatch);
        if bundle.schemaVersion != BUNDLE_SCHEMA_VERSION || !World.ValidId(bundle.capsuleId) then Err
        else if m.None? || p.None? || |bundle.artifacts| != 2 then Err
        else if m.value.name != RESULT_NAME || p.value.name != PATCH_NAME then Err
        else if receipt.result.None? || |receipt.result.value| > BUNDLE_JSON_CAP then Err
        else if receipt.patch.None? || |receipt.patch.value| > HARD_PATCH_BYTES then Err
        else if !Describes(hash, m.value, receipt.result.value) || !Describes(hash, p.value, receipt.patch.value) then Err
        else
          match codec.decodeResult(receipt.result.value)
          case None => Err
          case Some(document) =>
            if !Consistent(hash, bundle, document, receipt.patch.value) then Err
            else if !Satisfies(required, document.result.evidence, document.result.patchSha256) then Err
            else Ok(document.result)
  }

  // ---- what is sealed verifies ----

  /** What holds of every open capsule and every snapshot: identifiers and recorded digests are well
      formed, evidence is coherent, and Git lists changed paths exactly when there is a patch. */
  predicate Sane(c: Open, s: Snapshot) {
    && World.ValidId(c.id)
    && ValidObjectId(c.base) && ValidObjectId(s.head)
    && (forall e | e in c.evidence ::
          e.Coherent() && ValidSha256(e.patchSha256) && (e.outputSha256.Some? ==> ValidSha256(e.outputSha256.value)))
    && (forall p | p in s.changedPaths :: IsValidEncoding(p))
    && (forall p | p in s.ignoredPaths :: IsValidEncoding(p))
    && ((s.patch == []) == (s.changedPaths == []))
  }

  predicate ReadsBack(codec: Codec, d: Document, b: Bundle) {
    codec.decodeResult(codec.encodeResult(d)) == Some(d) && codec.decodeBundle(codec.encodeBundle(b)) == Some(b)
  }

  lemma ExportedDescriptors(hash: Bytes -> Bytes, id: string, result: Bytes, patch: Bytes)
    ensures var b := BundleOf(hash, id, result, patch);
            && SingleDescriptor(b, ResultManifest) == Some(b.artifacts[0])
            && SingleDescriptor(b, ResultPatch) == Some(b.artifacts[1])
            && Describes(hash, b.artifacts[0], result)
            && Describes(hash, b.artifacts[1], patch)
  {
    var a := BundleOf(hash, id, result, patch).artifacts;
    assert a[1..] == [a[1]] && a[1..][1..] == [];
    assert Matching(a[1..], ResultManifest) == [] && Matching(a[1..], ResultPatch) == [a[1]];
  }

  /** The exported bundle refers to its artifacts by name, not by where they were. */
  lemma ExportTells(hash: Bytes -> Bytes, id: string, result: Bytes, patch: Bytes)
    ensures var b := BundleOf(hash, id, result, patch);
            && b.schemaVersion == 1 && b.capsuleId == id && |b.artifacts| == 2
            && var m, p := b.artifacts[0], b.artifacts[1];
               && (m.kind, p.kind) == (ResultManifest, ResultPatch)
               && m.name == m.uri == "result.json" && p.name == p.uri == "result.patch"
               && m.mediaType == "application/json" && p.mediaType == "application/vnd.git.patch"
               && m.sha256 == hash(result) && m.contentAddress == "sha256:" + hash(result) && m.size == |result|
               && p.sha256 == hash(patch) && p.contentAddress == "sha256:" + hash(patch) && p.size == |patch|
  {}

  /** Every capsule closed by `close` exports to a receipt that verifies, under any evidence
      requirement its records satisfy and no other; in particular under the one it was closed with. */
  lemma ClosedReceiptsVerify(codec: Codec, hash: Bytes -> Bytes, c: Open, s: Snapshot, closing: Requirements,
                             now: nat, asked: Requirements)
    requires Sane(c, s) && c.createdAt <= now
    requires ValidSha256(hash(s.patch)) && ValidSha256(hash(s.ignoredStream))
    requires Close(hash, c, s, closing, now).Ok?
    requires var r := Close(hash, c, s, closing, now).value;
             var d := Document(SCHEMA_VERSION, r);
             var b := BundleOf(hash, c.id, codec.encodeResult(d), s.patch);
             && ReadsBack(codec, d, b)
             && |codec.encodeResult(d)| <= BUNDLE_JSON_CAP && |codec.encodeBundle(b)| <= BUNDLE_JSON_CAP
    ensures var r := Close(hash, c, s, closing, now).value;
            var receipt := Export(codec, hash, c.id, codec.encodeResult(Document(SCHEMA_VERSION, r)), s.patch);
            && (Verify(codec, hash, receipt, asked) == Ok(r) <==> Satisfies(asked, c.evidence, hash(s.patch)))
            && (Verify(codec, hash, receipt, asked).Ok? <==> Satisfies(asked, c.evidence, hash(s.patch)))
            && Verify(codec, hash, receipt, closing) == Ok(r)
  {
    hide Satisfies;
    hide SingleDescriptor;
    hide Describes;
    hide ValidSha256;
    hide ValidObjectId;
    hide IsValidEncoding;
    hide World.ValidId;
    var r := Close(hash, c, s, closing, now).value;
    ExportedDescriptors(hash, c.id, codec.encodeResult(Document(SCHEMA_VERSION, r)), s.patch);
  }

  // ---- what acceptance means ----

  /** A digest: 64 lowercase hexadecimal digits. */
  predicate IsDigest(x: Bytes) {
    |x| == 64 && forall i | 0 <= i < 64 :: '0' <= x[i] <= '9' || 'a' <= x[i] <= 'f'
  }

  /** An object id: 40 or 64 of them. */
  predicate IsObjectId(x: Bytes) {
    (|x| == 40 || |x| == 64) && forall i | 0 <= i < |x| :: '0' <= x[i] <= '9' || 'a' <= x[i] <= 'f'
  }

  predicate IsCapsuleId(id: string) {
    && 8 <= |id| <= 64
    && id[..4] == "cap-"
    && forall i | 0 <= i < |id| :: 'a' <= id[i] <= 'z' || '0' <= id[i] <= '9' || id[i] == '-'
  }

  /** The artifact is the file of its kind, to the byte. */
  predicate IsFile(hash: Bytes -> Bytes, d: Descriptor, receipt: Receipt)
    requires receipt.result.Some? && receipt.patch.Some?
  {
    var file := if d.kind.ResultManifest? then receipt.result.value else receipt.patch.value;
    && d.name == (if d.kind.ResultManifest? then "result.json" else "result.patch")
    && d.size == |file|
    && d.sha256 == hash(file)
    && d.contentAddress == "sha256:" + hash(file)
  }

  /** The three files are there, within their bounds, and the bundle describes the other two. */
  predicate IsBundled(codec: Codec, hash: Bytes -> Bytes, receipt: Receipt) {
    && receipt.bundle.Some? && |receipt.bundle.value| <= 1_048_576
    && receipt.result.Some? && |receipt.result.value| <= 1_048_576
    && receipt.patch.Some? && |receipt.patch.value| <= 67_108_864
    && var decoded := codec.decodeBundle(receipt.bundle.value);
       && decoded.Some?
       && decoded.value.schemaVersion == 1
       && IsCapsuleId(decoded.value.capsuleId)
       && |decoded.value.artifacts| == 2
       && decoded.value.artifacts[0].kind != decoded.value.artifacts[1].kind
       && IsFile(hash, decoded.value.artifacts[0], receipt)
       && IsFile(hash, decoded.value.artifacts[1], receipt)
  }

  /** The record is one an execution or a claim leaves, never half of each. */
  predicate IsRecord(e: Evidence<Bytes>) {
    && IsDigest(e.patchSha256)
    && (if e.executed then e.outputSha256.Some? && IsDigest(e.outputSha256.value) && e.outputBytes.Some?
        else e.outputSha256.None? && e.outputBytes.None?)
  }

  /** The result is that of the bundled capsule and of the bundled patch. */
  predicate IsResultOf(hash: Bytes -> Bytes, r: Sealed, id: string, patch: Bytes) {
    && r.capsuleId == id
    && r.patchSha256 == hash(patch) && IsDigest(r.patchSha256)
    && r.patchBytes == |patch|
    && IsObjectId(r.baseCommit) && IsObjectId(r.headCommit)
    && r.createdAt <= r.sealedAt
    && r.ignoredContentSha256.Some? && IsDigest(r.ignoredContentSha256.value)
    && (forall i | 0 <= i < |r.changedPaths| :: IsValidEncoding(r.changedPaths[i]))
    && (forall i | 0 <= i < |r.ignoredPaths| :: IsValidEncoding(r.ignoredPaths[i]))
    && (forall i | 0 <= i < |r.evidence| :: IsRecord(r.evidence[i]))
    && (if patch == [] then r.kind.NoChange? && r.changedPaths == [] else !r.kind.NoChange? && r.changedPaths != [])
  }

  /** The evidence asked for, each kind independently, judged against the patch that is there. */
  predicate IsVouched(required: Requirements, evidence: seq<Evidence<Bytes>>, digest: Bytes) {
    && (required.successful ==> evidence != [] && forall i | 0 <= i < |evidence| :: evidence[i].exitCode == 0)
    && (required.currentSuccessful ==>
          exists i | 0 <= i < |evidence| :: evidence[i].exitCode == 0 && evidence[i].patchSha256 == digest)
    && (required.executed ==>
          exists i | 0 <= i < |evidence| ::
            evidence[i].executed && evidence[i].exitCode == 0 && evidence[i].patchSha256 == digest)
  }

  /** Offline verification accepts exactly this: three files of which the bundle describes the other
      two, a result that is of the bundle's capsule and of the patch beside it, and the evidence asked
      for, bound to that patch. */
  lemma AcceptanceMeans(codec: Codec, hash: Bytes -> Bytes, receipt: Receipt, required: Requirements, r: Sealed)
    ensures Verify(codec, hash, receipt, required) == Ok(r)
            <==> IsBundled(codec, hash, receipt)
                 && codec.decodeResult(receipt.result.value) == Some(Document(5, r))
                 && IsResultOf(hash, r, codec.decodeBundle(receipt.bundle.value).value.capsuleId, receipt.patch.value)
                 && IsVouched(required, r.evidence, hash(receipt.patch.value))
  {
    hide SingleDescriptor;
    hide Describes;
    hide IsFile;
    hide Consistent;
    hide IsResultOf;
    hide Satisfies;
    hide IsVouched;
    hide World.ValidId;
    hide IsCapsuleId;
    if receipt.bundle.Some? && receipt.result.Some? && receipt.patch.Some?
       && codec.decodeBundle(receipt.bundle.value).Some? {
      var bundle := codec.decodeBundle(receipt.bundle.value).value;
      OneOfEach(hash, bundle, receipt);
      CapsuleIdIs(bundle.capsuleId);
      if codec.decodeResult(receipt.result.value).Some? {
        var d := codec.decodeResult(receipt.result.value).value;
        ConsistentIs(hash, bundle, d, receipt.patch.value);
        VouchedIs(required, d.result.evidence, hash(receipt.patch.value));
        if Consistent(hash, bundle, d, receipt.patch.value) {
          DigestOf(hash, bundle, d, receipt.patch.value);
        }
      }
    }
  }

  lemma CapsuleIdIs(id: string)
    ensures World.ValidId(id) <==> IsCapsuleId(id)
  {
    forall i | 0 <= i < |id|
      ensures id[i] in id
    {
    }
    if IsCapsuleId(id) {
      forall c | c in id
        ensures 'a' <= c <= 'z' || '0' <= c <= '9' || c == '-'
      {
        var i :| 0 <= i < |id| && id[i] == c;
      }
    }
  }

  lemma DigestOf(hash: Bytes -> Bytes, bundle: Bundle, d: Document, patch: Bytes)
    requires Consistent(hash, bundle, d, patch)
    ensures d.schemaVersion == 5 && d.result.patchSha256 == hash(patch)
  {
    hide ValidSha256;
    hide ValidObjectId;
    hide IsValidEncoding;
  }

  lemma ConsistentIs(hash: Bytes -> Bytes, bundle: Bundle, d: Document, patch: Bytes)
    ensures Consistent(hash, bundle, d, patch)
            <==> d.schemaVersion == 5 && IsResultOf(hash, d.result, bundle.capsuleId, patch)
  {
    hide IsValidEncoding;
    var r := d.result;
    RecordsAre(r.evidence);
    assert forall p | p in r.changedPaths :: exists i | 0 <= i < |r.changedPaths| :: r.changedPaths[i] == p;
    assert forall p | p in r.ignoredPaths :: exists i | 0 <= i < |r.ignoredPaths| :: r.ignoredPaths[i] == p;
    DigestIs(r.patchSha256);
    if r.ignoredContentSha256.Some? {
      DigestIs(r.ignoredContentSha256.value);
    }
    hide ValidSha256;
    hide IsDigest;
    hide IsRecord;
  }

  lemma DigestIs(x: Bytes)
    ensures ValidSha256(x) <==> IsDigest(x)
  {}

  lemma RecordsAre(evidence: seq<Evidence<Bytes>>)
    ensures (forall i | 0 <= i < |evidence| :: IsRecord(evidence[i]))
            <==> && (forall e | e in evidence ::
                       ValidSha256(e.patchSha256) && (e.outputSha256.Some? ==> ValidSha256(e.outputSha256.value)))
                 && (forall e | e in evidence :: e.Coherent())
  {
    assert forall e | e in evidence :: exists i | 0 <= i < |evidence| :: evidence[i] == e;
    forall x: Bytes
      ensures ValidSha256(x) <==> IsDigest(x)
    {
    }
    hide ValidSha256;
    hide IsDigest;
  }

  lemma VouchedIs(required: Requirements, evidence: seq<Evidence<Bytes>>, digest: Bytes)
    ensures Satisfies(required, evidence, digest) <==> IsVouched(required, evidence, digest)
  {
    assert forall e | e in evidence :: exists i | 0 <= i < |evidence| :: evidence[i] == e;
  }

  /** Two artifacts of which one is found of each kind are one of each. */
  lemma OneOfEach(hash: Bytes -> Bytes, bundle: Bundle, receipt: Receipt)
    requires receipt.result.Some? && receipt.patch.Some?
    ensures var m, p, a := SingleDescriptor(bundle, ResultManifest), SingleDescriptor(bundle, ResultPatch), bundle.artifacts;
            && m.Some? && p.Some? && |a| == 2
            && m.value.name == RESULT_NAME && p.value.name == PATCH_NAME
            && Describes(hash, m.value, receipt.result.value) && Describes(hash, p.value, receipt.patch.value)
            <==> |a| == 2 && a[0].kind != a[1].kind && IsFile(hash, a[0], receipt) && IsFile(hash, a[1], receipt)
  {
    var a := bundle.artifacts;
    if |a| == 2 {
      assert a[1..] == [a[1]] && a[1..][1..] == [];
      assert Matching(a[1..][1..], ResultManifest) == [] && Matching(a[1..][1..], ResultPatch) == [];
      assert Matching(a[1..], ResultManifest) == if a[1].kind.ResultManifest? then [a[1]] else [];
      assert Matching(a[1..], ResultPatch) == if a[1].kind.ResultPatch? then [a[1]] else [];
    }
  }

  /** A receipt that pairs a result with a patch of another digest or length, or with the bundle of
      another capsule, is refused, whatever the descriptors say and whatever is asked for. */
  lemma MixedReceiptIsRefused(codec: Codec, hash: Bytes -> Bytes, receipt: Receipt, required: Requirements)
    requires receipt.bundle.Some? && receipt.result.Some? && receipt.patch.Some?
    requires var b, d := codec.decodeBundle(receipt.bundle.value), codec.decodeResult(receipt.result.value);
             && b.Some? && d.Some?
             && (d.value.result.patchSha256 != hash(receipt.patch.value)
                 || d.value.result.patchBytes != |receipt.patch.value|
                 || d.value.result.capsuleId != b.value.capsuleId)
    ensures Verify(codec, hash, receipt, required).Err?
  {
    hide Verify;
    hide IsBundled;
    hide IsVouched;
    hide IsDigest;
    hide IsObjectId;
    hide IsRecord;
    hide IsValidEncoding;
    if Verify(codec, hash, receipt, required).Ok? {
      AcceptanceMeans(codec, hash, receipt, required, Verify(codec, hash, receipt, required).value);
    }
  }

  /** What close puts into the result, entry by entry. */
  lemma CloseTells(hash: Bytes -> Bytes, c: Open, s: Snapshot, required: Requirements, now: nat)
    ensures var closed := Close(hash, c, s, required, now);
            if IsVouched(required, c.evidence, hash(s.patch)) && |s.patch| <= 67_108_864 then
              && closed.Ok?
              && var r := closed.value;
                 && (r.capsuleId, r.title, r.links) == (c.id, c.title, c.links)
                 && r.kind == (if s.patch == [] then NoChange else if s.clean then Committed else Patched)
                 && (r.baseCommit, r.headCommit) == (c.base, s.head)
                 && (r.patchSha256, r.patchBytes, r.changedPaths) == (hash(s.patch), |s.patch|, s.changedPaths)
                 && (r.ignoredBytes, r.ignoredPaths) == (s.ignoredBytes, s.ignoredPaths)
                 && r.ignoredContentSha256 == Some(hash(s.ignoredStream))
                 && (r.checkpoints, r.evidence) == (c.checkpoints, c.evidence)
                 && (r.createdAt, r.sealedAt) == (c.createdAt, now)
            else closed.Err?
  {
    hide Satisfies;
    hide IsVouched;
    VouchedIs(required, c.evidence, hash(s.patch));
  }

  // ---- what the bundle binds ----

  lemma AcceptedIsDescribed(codec: Codec, hash: Bytes -> Bytes, receipt: Receipt, required: Requirements)
    requires Verify(codec, hash, receipt, required).Ok?
    ensures receipt.bundle.Some? && receipt.result.Some? && receipt.patch.Some?
    ensures codec.decodeBundle(receipt.bundle.value).Some?
    ensures var b := codec.decodeBundle(receipt.bundle.value).value;
            && SingleDescriptor(b, ResultManifest).Some? && SingleDescriptor(b, ResultPatch).Some?
            && SingleDescriptor(b, ResultManifest).value.sha256 == hash(receipt.result.value)
            && SingleDescriptor(b, ResultPatch).value.sha256 == hash(receipt.patch.value)
  {
    hide Satisfies;
    hide SingleDescriptor;
    hide Consistent;
    hide World.ValidId;
  }

  /** Two accepted receipts with the same `bundle.json` are the same receipt, whatever each was
      asked for: the bundle binds the other two files. */
  lemma BundleBindsReceipt(codec: Codec, hash: Bytes -> Bytes, a: Receipt, b: Receipt, x: Requirements, y: Requirements)
    requires Verify(codec, hash, a, x).Ok? && Verify(codec, hash, b, y).Ok?
    requires a.result.Some? && b.result.Some? && NoCollision(hash, a.result.value, b.result.value)
    requires a.patch.Some? && b.patch.Some? && NoCollision(hash, a.patch.value, b.patch.value)
    ensures a.bundle == b.bundle ==> a == b && Verify(codec, hash, a, x).value == Verify(codec, hash, b, y).value
  {
    hide Verify;
    hide SingleDescriptor;
    AcceptedIsDescribed(codec, hash, a, x);
    AcceptedIsDescribed(codec, hash, b, y);
    if a.bundle == b.bundle {
      SameResult(codec, hash, a, x, y);
    }
  }

  lemma SameResult(codec: Codec, hash: Bytes -> Bytes, a: Receipt, x: Requirements, y: Requirements)
    requires Verify(codec, hash, a, x).Ok? && Verify(codec, hash, a, y).Ok?
    ensures Verify(codec, hash, a, x) == Verify(codec, hash, a, y)
  {
    hide Satisfies;
    hide SingleDescriptor;
    hide Consistent;
    hide Describes;
    hide World.ValidId;
  }

  /** An accepted receipt can only be asked for less: the three requirements are monotone in it, and
      requiring an executed run entails requiring a current successful record. */
  lemma ExecutedEntailsCurrent(codec: Codec, hash: Bytes -> Bytes, receipt: Receipt, successful: bool)
    requires Verify(codec, hash, receipt, Requirements(successful, false, true)).Ok?
    ensures Verify(codec, hash, receipt, Requirements(successful, true, true))
            == Verify(codec, hash, receipt, Requirements(successful, false, true))
    ensures Verify(codec, hash, receipt, Requirements(false, true, false)).Ok?
  {
    hide SingleDescriptor;
    hide Consistent;
    hide Describes;
    hide World.ValidId;
  }

  /** Turning a claim into an execution by its flag alone is refused, whatever else is adjusted. */
  lemma FlippedClaimIsRefused(codec: Codec, hash: Bytes -> Bytes, receipt: Receipt, required: Requirements, e: Evidence<Bytes>)
    requires receipt.result.Some? && codec.decodeResult(receipt.result.value).Some?
    requires e in codec.decodeResult(receipt.result.value).value.result.evidence
    requires e.executed && (e.outputSha256.None? || e.outputBytes.None?)
    ensures Verify(codec, hash, receipt, required).Err?
  {
    hide Satisfies;
    hide SingleDescriptor;
    hide Describes;
    hide World.ValidId;
    hide IsValidEncoding;
    hide ValidSha256;
  }
}
