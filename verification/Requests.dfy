/** The canonical bytes of a creation request and of its reservation, and what a replay must match. */
module Requests {
  import opened Model
  import opened Ordering
  import opened Framing

  const REQUEST_DOMAIN: Bytes := "change-capsule creation request v1\0"
  const RECORD_TITLE: Bytes := "change-capsule idempotency "
  const RECORD_VERSION: Bytes := "reservation v1\0"
  const RECORD_DOMAIN: Bytes := RECORD_TITLE + RECORD_VERSION
  const PATH_TAG: Bytes := "unix-bytes\0"
  const NO_TITLE: Bytes := ['\0']
  const TITLE: Bytes := [1 as char]

  /** The immutable inputs of one logical creation. */
  datatype Canonical = Canonical(
    source: Bytes,
    commonDir: Bytes,
    projectKey: Bytes,
    selector: Bytes,
    commit: Bytes,
    title: Option<Bytes>,
    links: map<Bytes, Bytes>)

  /** An idempotency record as stored, digests in their hexadecimal form. */
  datatype Record = Record(
    keyDigest: Bytes,
    requestDigest: Bytes,
    recordDigest: Bytes,
    id: Bytes,
    canonical: Canonical,
    reservedAt: nat)

  function PathBytes(path: Bytes): Bytes { PATH_TAG + Field(path) }

  function TitleBytes(title: Option<Bytes>): Bytes {
    match title
    case Some(text) => TITLE + Field(text)
    case None => NO_TITLE
  }

  /** Keys in the order a `BTreeMap` iterates them, however they were inserted. */
  function OrderedKeys(links: map<Bytes, Bytes>): (keys: seq<Bytes>)
    ensures StrictlySorted(keys)
    ensures forall x: Bytes :: x in keys <==> x in links
    ensures |keys| == |links|
  {
    var keys := SortedKeys(links.Keys);
    assert forall i | 0 <= i < |keys| :: keys[i] in keys && keys[i] in links.Keys;
    keys
  }

  function PairBytes(keys: seq<Bytes>, links: map<Bytes, Bytes>): Bytes
    requires forall k | k in keys :: k in links
  {
    if keys == [] then [] else (Field(keys[0]) + Field(links[keys[0]])) + PairBytes(keys[1..], links)
  }

  function LinkBytes(links: map<Bytes, Bytes>): Bytes {
    BigEndian(|links|, 8) + PairBytes(OrderedKeys(links), links)
  }

  /** `canonical_request_sha256`, before hashing. */
  function RequestBytes(c: Canonical): Bytes {
    REQUEST_DOMAIN + (PathBytes(c.source) + (PathBytes(c.commonDir) + (Field(c.projectKey)
    + (Field(c.selector) + (Field(c.commit) + (TitleBytes(c.title) + LinkBytes(c.links)))))))
  }

  /** `canonical_record_sha256`, before hashing; title and links enter through the request digest. */
  function RecordBytes(r: Record): Bytes {
    RECORD_DOMAIN + (Field(r.keyDigest) + (Field(r.requestDigest) + (Field(r.id) + (PathBytes(r.canonical.source)
    + (PathBytes(r.canonical.commonDir) + (Field(r.canonical.projectKey) + (Field(r.canonical.selector)
    + (Field(r.canonical.commit) + BigEndian(r.reservedAt, 8)))))))))
  }

  /** The layout in full: other readers of a record compute the same digest from these very bytes. */
  lemma LayoutIs(c: Canonical, r: Record)
    ensures RequestBytes(c)
            == "change-capsule creation request v1\0" + (("unix-bytes\0" + Field(c.source))
            + (("unix-bytes\0" + Field(c.commonDir)) + (Field(c.projectKey) + (Field(c.selector) + (Field(c.commit)
            + ((match c.title case Some(text) => [1 as char] + Field(text) case None => [0 as char])
            + LinkBytes(c.links)))))))
    ensures RECORD_DOMAIN == "change-capsule idempotency reservation v1\0"
    ensures RECORD_DOMAIN <= RecordBytes(r)
  {
    hide Field;
    hide LinkBytes;
  }

  // ---- the builders ----

  method UpdatePath(digest: RunningDigest, path: Bytes)
    modifies digest
    ensures digest.fed == old(digest.fed) + PathBytes(path)
  {
    digest.Update(PATH_TAG);
    digest.UpdateBytes(path);
  }

  method UpdateTitle(digest: RunningDigest, title: Option<Bytes>)
    modifies digest
    ensures digest.fed == old(digest.fed) + TitleBytes(title)
  {
    match title {
      case Some(text) =>
        digest.Update(TITLE);
        digest.UpdateBytes(text);
      case None => digest.Update(NO_TITLE);
    }
  }

  /** The loop over the links, in key order. */
  method UpdateLinks(digest: RunningDigest, links: map<Bytes, Bytes>)
    modifies digest
    ensures digest.fed == old(digest.fed) + LinkBytes(links)
  {
    hide Field;
    hide BigEndian;
    hide PairBytes;
    hide StrictlySorted;
    digest.Update(BigEndian(|links|, 8));
    var keys := OrderedKeys(links);
    ghost var start := digest.fed;
    var i := 0;
    while i < |keys|
      invariant 0 <= i <= |keys|
      invariant digest.fed + PairBytes(keys[i..], links) == start + PairBytes(keys, links)
    {
      OnePair(digest.fed, keys, i, links);
      digest.UpdateBytes(keys[i]);
      digest.UpdateBytes(links[keys[i]]);
      i := i + 1;
    }
    NoPairsLeft(digest.fed, keys[i..], links);
    Reassociate(old(digest.fed), BigEndian(|links|, 8), PairBytes(keys, links), [], [], [], [], []);
  }

  lemma NoPairsLeft(fed: Bytes, keys: seq<Bytes>, links: map<Bytes, Bytes>)
    requires keys == []
    ensures fed + PairBytes(keys, links) == fed
  {}

  /** Feeding one pair shortens what is left to feed. */
  lemma OnePair(fed: Bytes, keys: seq<Bytes>, i: nat, links: map<Bytes, Bytes>)
    requires i < |keys| && forall k | k in keys :: k in links
    ensures fed + PairBytes(keys[i..], links)
            == ((fed + Field(keys[i])) + Field(links[keys[i]])) + PairBytes(keys[i + 1..], links)
  {
    hide Field;
    var rest := keys[i..];
    assert rest[0] == keys[i] && rest[1..] == keys[i + 1..];
    Reassociate(fed, Field(keys[i]), Field(links[keys[i]]), PairBytes(keys[i + 1..], links), [], [], [], []);
  }

  lemma Reassociate(a: Bytes, b: Bytes, c: Bytes, d: Bytes, e: Bytes, f: Bytes, g: Bytes, h: Bytes)
    ensures ((((((a + b) + c) + d) + e) + f) + g) + h == a + (b + (c + (d + (e + (f + (g + h))))))
  {}

  /** Feeds the parts one after the other. */
  method FeedRequest(c: Canonical) returns (digest: RunningDigest)
    ensures fresh(digest) && digest.fed == RequestBytes(c)
  {
    hide PathBytes;
    hide Field;
    hide TitleBytes;
    hide LinkBytes;
    digest := new RunningDigest(REQUEST_DOMAIN);
    UpdatePath(digest, c.source);
    UpdatePath(digest, c.commonDir);
    digest.UpdateBytes(c.projectKey);
    digest.UpdateBytes(c.selector);
    digest.UpdateBytes(c.commit);
    UpdateTitle(digest, c.title);
    UpdateLinks(digest, c.links);
    Reassociate(REQUEST_DOMAIN, PathBytes(c.source), PathBytes(c.commonDir), Field(c.projectKey),
                Field(c.selector), Field(c.commit), TitleBytes(c.title), LinkBytes(c.links));
  }

  // ---- reading it back ----

  predicate LinksFit(links: map<Bytes, Bytes>) {
    |links| < U64_BOUND && forall k | k in links :: Fits(k) && Fits(links[k])
  }

  /** Lengths are those of buffers in memory. */
  predicate RequestFits(c: Canonical) {
    && Fits(c.source) && Fits(c.commonDir) && Fits(c.projectKey) && Fits(c.selector) && Fits(c.commit)
    && (c.title.Some? ==> Fits(c.title.value))
    && LinksFit(c.links)
  }

  predicate RecordFits(r: Record) {
    && Fits(r.keyDigest) && Fits(r.requestDigest) && Fits(r.id)
    && RequestFits(r.canonical)
    && r.reservedAt < U64_BOUND
  }

  lemma PathCut(a: Bytes, b: Bytes, x: Bytes, y: Bytes)
    requires PathBytes(a) + x == PathBytes(b) + y && Fits(a) && Fits(b)
    ensures a == b && x == y
  {
    assert PathBytes(a) + x == PATH_TAG + (Field(a) + x) && PathBytes(b) + y == PATH_TAG + (Field(b) + y);
    Cut(PATH_TAG, PATH_TAG, Field(a) + x, Field(b) + y);
    FieldCut(a, b, x, y);
  }

  /** The first byte tells whether a title follows. */
  lemma TitleShape(title: Option<Bytes>, rest: Bytes)
    ensures |TitleBytes(title) + rest| > 0
    ensures title.Some? ==>
          TitleBytes(title) + rest == TITLE + (Field(title.value) + rest)
          && (TitleBytes(title) + rest)[0] == TITLE[0]
    ensures title.None? ==> TitleBytes(title) + rest == NO_TITLE + rest && (TitleBytes(title) + rest)[0] == NO_TITLE[0]
  {
    hide Field;
    hide Fits;
  }

  lemma TitleCut(a: Option<Bytes>, b: Option<Bytes>, x: Bytes, y: Bytes)
    requires TitleBytes(a) + x == TitleBytes(b) + y
    requires (a.Some? ==> Fits(a.value)) && (b.Some? ==> Fits(b.value))
    ensures a == b && x == y
  {
    hide TitleBytes;
    hide Field;
    hide Fits;
    TitleShape(a, x);
    TitleShape(b, y);
    if a.Some? && b.Some? {
      Cut(TITLE, TITLE, Field(a.value) + x, Field(b.value) + y);
      FieldCut(a.value, b.value, x, y);
    } else if a.None? && b.None? {
      Cut(NO_TITLE, NO_TITLE, x, y);
    }
  }

  lemma FirstPair(keys: seq<Bytes>, links: map<Bytes, Bytes>)
    requires keys != [] && forall x | x in keys :: x in links
    ensures PairBytes(keys, links) == Field(keys[0]) + (Field(links[keys[0]]) + PairBytes(keys[1..], links))
  {
    hide Field;
    var k, v, rest := Field(keys[0]), Field(links[keys[0]]), PairBytes(keys[1..], links);
    assert (k + v) + rest == k + (v + rest);
  }

  lemma {:induction false} PairsCut(k: seq<Bytes>, l: seq<Bytes>, a: map<Bytes, Bytes>, b: map<Bytes, Bytes>)
    requires (forall x | x in k :: x in a) && (forall x | x in l :: x in b)
    requires LinksFit(a) && LinksFit(b) && |k| == |l| && PairBytes(k, a) == PairBytes(l, b)
    ensures k == l && forall i | 0 <= i < |k| :: a[k[i]] == b[k[i]]
    decreases |k|
  {
    hide PairBytes;
    hide Field;
    hide Fits;
    if k == [] {
    } else {
      var ra, rb := PairBytes(k[1..], a), PairBytes(l[1..], b);
      FirstPair(k, a);
      FirstPair(l, b);
      assert k[0] in k && l[0] in l;
      FieldCut(k[0], l[0], Field(a[k[0]]) + ra, Field(b[l[0]]) + rb);
      FieldCut(a[k[0]], b[l[0]], ra, rb);
      PairsCut(k[1..], l[1..], a, b);
      SameFirst(k, l);
      assert forall i | 0 < i < |k| :: k[i] == k[1..][i - 1];
    }
  }

  lemma SameFirst(k: seq<Bytes>, l: seq<Bytes>)
    requires k != [] && l != [] && k[0] == l[0] && k[1..] == l[1..]
    ensures k == l
  {
    assert k == [k[0]] + k[1..] && l == [l[0]] + l[1..];
  }

  lemma LinksCut(a: map<Bytes, Bytes>, b: map<Bytes, Bytes>)
    requires LinksFit(a) && LinksFit(b) && LinkBytes(a) == LinkBytes(b)
    ensures a == b
  {
    hide PairBytes;
    hide StrictlySorted;
    hide BigEndian;
    var k, l := OrderedKeys(a), OrderedKeys(b);
    NumberCut(|a|, |b|, PairBytes(k, a), PairBytes(l, b));
    PairsCut(k, l, a, b);
    forall x: Bytes
      ensures x in a <==> x in b
      ensures x in a ==> a[x] == b[x]
    {
      assert (x in a <==> x in k) && (x in b <==> x in l);
      if x in k {
        var i :| 0 <= i < |k| && k[i] == x;
      }
    }
    assert a.Keys == b.Keys;
  }

  /** The framing is injective: equal request bytes come from equal requests, whatever bytes occur
      inside the fields and in whatever order the links were inserted. */
  lemma RequestBytesInjective(a: Canonical, b: Canonical)
    requires RequestFits(a) && RequestFits(b) && RequestBytes(a) == RequestBytes(b)
    ensures a == b
  {
    hide PathBytes;
    hide TitleBytes;
    hide LinkBytes;
    hide LinksFit;
    hide Field;
    var a5, b5 := TitleBytes(a.title) + LinkBytes(a.links), TitleBytes(b.title) + LinkBytes(b.links);
    var a4, b4 := Field(a.commit) + a5, Field(b.commit) + b5;
    var a3, b3 := Field(a.selector) + a4, Field(b.selector) + b4;
    var a2, b2 := Field(a.projectKey) + a3, Field(b.projectKey) + b3;
    var a1, b1 := PathBytes(a.commonDir) + a2, PathBytes(b.commonDir) + b2;
    Cut(REQUEST_DOMAIN, REQUEST_DOMAIN, PathBytes(a.source) + a1, PathBytes(b.source) + b1);
    PathCut(a.source, b.source, a1, b1);
    PathCut(a.commonDir, b.commonDir, a2, b2);
    FieldCut(a.projectKey, b.projectKey, a3, b3);
    FieldCut(a.selector, b.selector, a4, b4);
    FieldCut(a.commit, b.commit, a5, b5);
    TitleCut(a.title, b.title, LinkBytes(a.links), LinkBytes(b.links));
    LinksCut(a.links, b.links);
  }

  lemma RecordBytesInjective(a: Record, b: Record)
    requires RecordFits(a) && RecordFits(b) && RecordBytes(a) == RecordBytes(b)
    ensures a.keyDigest == b.keyDigest && a.requestDigest == b.requestDigest && a.id == b.id
    ensures a.reservedAt == b.reservedAt
  {
    hide PathBytes;
    hide LinksFit;
    hide Field;
    var c, d := a.canonical, b.canonical;
    var a8, b8 := BigEndian(a.reservedAt, 8), BigEndian(b.reservedAt, 8);
    var a7, b7 := Field(c.commit) + a8, Field(d.commit) + b8;
    var a6, b6 := Field(c.selector) + a7, Field(d.selector) + b7;
    var a5, b5 := Field(c.projectKey) + a6, Field(d.projectKey) + b6;
    var a4, b4 := PathBytes(c.commonDir) + a5, PathBytes(d.commonDir) + b5;
    var a3, b3 := PathBytes(c.source) + a4, PathBytes(d.source) + b4;
    var a2, b2 := Field(a.id) + a3, Field(b.id) + b3;
    var a1, b1 := Field(a.requestDigest) + a2, Field(b.requestDigest) + b2;
    Cut(RECORD_DOMAIN, RECORD_DOMAIN, Field(a.keyDigest) + a1, Field(b.keyDigest) + b1);
    FieldCut(a.keyDigest, b.keyDigest, a1, b1);
    FieldCut(a.requestDigest, b.requestDigest, a2, b2);
    FieldCut(a.id, b.id, a3, b3);
    PathCut(c.source, d.source, a4, b4);
    PathCut(c.commonDir, d.commonDir, a5, b5);
    FieldCut(c.projectKey, d.projectKey, a6, b6);
    FieldCut(c.selector, d.selector, a7, b7);
    FieldCut(c.commit, d.commit, a8, b8);
    BigEndianValue(a.reservedAt, 8);
    BigEndianValue(b.reservedAt, 8);
  }

  // ---- validation ----

  /** The digests a record must carry (`sealed`, and the same conjuncts of `validate`). */
  predicate Sealed(hash: Bytes -> Bytes, keyOf: Bytes -> Bytes, r: Record) {
    && r.canonical.projectKey == keyOf(r.canonical.commonDir)
    && r.requestDigest == hash(RequestBytes(r.canonical))
    && r.recordDigest == hash(RecordBytes(r))
  }

  /** Two sealed records with one record digest are one record, title and links included. */
  lemma RecordDigestBindsEverything(hash: Bytes -> Bytes, keyOf: Bytes -> Bytes, a: Record, b: Record)
    requires Sealed(hash, keyOf, a) && Sealed(hash, keyOf, b) && RecordFits(a) && RecordFits(b)
    requires NoCollision(hash, RecordBytes(a), RecordBytes(b))
    requires NoCollision(hash, RequestBytes(a.canonical), RequestBytes(b.canonical))
    ensures a.recordDigest == b.recordDigest <==> a == b
  {
    hide RecordBytes;
    hide RequestBytes;
    if a.recordDigest == b.recordDigest {
      RecordBytesInjective(a, b);
      RequestBytesInjective(a.canonical, b.canonical);
    }
  }

  /** What the replay check compares, a request having been resolved now. */
  function Replayed(request: Request<Bytes, Bytes>, record: Record): Canonical {
    Canonical(request.source, request.commonDir, record.canonical.projectKey, record.canonical.selector,
              record.canonical.commit, request.title, request.links)
  }

  /** `validate_replayed_request`. */
  predicate ReplayAccepted(hash: Bytes -> Bytes, keyOf: Bytes -> Bytes, request: Request<Bytes, Bytes>,
      record: Record) {
    && request.source == record.canonical.source
    && request.commonDir == record.canonical.commonDir
    && keyOf(request.commonDir) == record.canonical.projectKey
    && (request.selector == record.canonical.selector || request.resolved == Some(record.canonical.commit))
    && hash(RequestBytes(Replayed(request, record))) == record.requestDigest
  }

  function ReservationOf(r: Record): Reservation<Bytes, Bytes> {
    Reservation(r.id, r.canonical.source, r.canonical.commonDir, r.canonical.selector, r.canonical.commit,
                r.canonical.title, r.canonical.links, r.reservedAt)
  }

  /** A replay is accepted exactly when it is the same request: same repository, title and links,
      and a selector that is the same or now resolves to the reserved commit. */
  lemma ReplayIsSameRequest(hash: Bytes -> Bytes, keyOf: Bytes -> Bytes, request: Request<Bytes, Bytes>, record: Record)
    requires Sealed(hash, keyOf, record)
    requires RequestFits(record.canonical) && RequestFits(Replayed(request, record))
    requires NoCollision(hash, RequestBytes(Replayed(request, record)), RequestBytes(record.canonical))
    ensures ReplayAccepted(hash, keyOf, request, record) <==> SameRequest(request, ReservationOf(record))
  {
    hide RequestBytes;
    hide RequestFits;
    if ReplayAccepted(hash, keyOf, request, record) {
      RequestBytesInjective(Replayed(request, record), record.canonical);
    }
  }
}
