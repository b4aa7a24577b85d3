/** The object store the client talks to, reduced to the contracts the client
    relies on: Amazon S3 API Reference (PutObject, GetObject, HeadObject,
    DeleteObject, CreateMultipartUpload, UploadPart, CompleteMultipartUpload,
    AbortMultipartUpload) and section 14.1.2 of RFC 9110 for byte ranges. */
module Server {
  import opened Wrappers
  import opened Split

  type Key = string

  const MIN_PART: nat := 5 * 1024 * 1024
  const MAX_PART_NUMBER: int := 10000

  /** What a failed call reports. Only `PoolTimeout`, `NoUploadId` and `NoEtag`
      are made by the client itself. */
  datatype Fault = PoolTimeout | NoUploadId | NoEtag | NotFound | Rejected | Transport(code: int)

  datatype Request =
    | PutObject(key: Key, body: Bytes)
    | DeleteObject(key: Key)
    | HeadObject(key: Key)
    | GetObject(key: Key)
    | GetRange(key: Key, first: nat, last: nat)
    | ListPage
    | CreateUpload(key: Key)
    | UploadPart(key: Key, uid: nat, part: int, body: Bytes)
    | CompleteUpload(key: Key, uid: nat, manifest: seq<(int, nat)>)
    | AbortUpload(key: Key, uid: nat)

  datatype Reply =
    | Failed(fault: Fault)
    | Done
    | Length(length: Option<nat>)
    | Body(bytes: Bytes)
    | Page(more: bool)
    | Created(uid: Option<nat>)
    | Stored(etag: Option<nat>)

  datatype Part = Part(bytes: Bytes, etag: nat)
  datatype Upload = Upload(key: Key, parts: map<int, Part>)

  /** `owners[u]` remembers which operation upload `u` was created for; upload
      ids are never reused. */
  datatype Store = Store(objects: map<Key, Bytes>, uploads: map<nat, Upload>, owners: seq<nat>)

  predicate Live(sv: Store, key: Key, uid: nat) { uid in sv.uploads && sv.uploads[uid].key == key }

  /** Listed parts ascend, are present with the listed etag, and all but the
      last reach the minimum part size. */
  predicate Acceptable(parts: map<int, Part>, manifest: seq<(int, nat)>) {
    && manifest != []
    && (forall i, j :: 0 <= i < j < |manifest| ==> manifest[i].0 < manifest[j].0)
    && (forall i :: 0 <= i < |manifest| ==> manifest[i].0 in parts && parts[manifest[i].0].etag == manifest[i].1)
    && (forall i :: 0 <= i < |manifest| - 1 ==> |parts[manifest[i].0].bytes| >= MIN_PART)
  }

  function Listed(parts: map<int, Part>, manifest: seq<(int, nat)>): seq<Bytes>
    requires forall i :: 0 <= i < |manifest| ==> manifest[i].0 in parts
  {
    seq(|manifest|, i requires 0 <= i < |manifest| => parts[manifest[i].0].bytes)
  }

  /** The store's free choice for one delivery: to refuse it, or else the etag it
      assigns, whether an optional response field is present, whether a listing
      is truncated. */
  datatype Choice = Refuse | Serve(token: Option<nat>)

  /** One delivery of `req` for operation `owner`. */
  function Execute(sv: Store, owner: nat, req: Request, choice: Choice): (Store, Reply) {
    match choice
    case Refuse => (sv, Failed(Rejected))
    case Serve(token) => Handle(sv, owner, req, token)
  }

  function Handle(sv: Store, owner: nat, req: Request, token: Option<nat>): (Store, Reply) {
    match req
    case PutObject(k, b) => (sv.(objects := sv.objects[k := b]), Done)
    case DeleteObject(k) => (sv.(objects := sv.objects - {k}), Done)
    case HeadObject(k) => (sv, if k !in sv.objects then Failed(NotFound)
                                else Length(if token.Some? then Some(|sv.objects[k]|) else None))
    case GetObject(k) => (sv, if k in sv.objects then Body(sv.objects[k]) else Failed(NotFound))
    case GetRange(k, first, last) =>
      (sv, if k !in sv.objects then Failed(NotFound)
           else match RangeOf(sv.objects[k], first, last) case Some(b) => Body(b) case None => Failed(Rejected))
    case ListPage => (sv, Page(token.Some?))
    case CreateUpload(k) =>
      var uid := |sv.owners|;
      (sv.(uploads := sv.uploads[uid := Upload(k, map[])], owners := sv.owners + [owner]),
       Created(if token.Some? then Some(uid) else None))
    case UploadPart(k, uid, pn, b) =>
      if Live(sv, k, uid) && 1 <= pn <= MAX_PART_NUMBER then
        var etag := if token.Some? then token.value else 0;
        var parts := sv.uploads[uid].parts[pn := Part(b, etag)];
        (sv.(uploads := sv.uploads[uid := Upload(k, parts)]), Stored(token))
      else (sv, Failed(Rejected))
    case CompleteUpload(k, uid, manifest) =>
      if Live(sv, k, uid) && Acceptable(sv.uploads[uid].parts, manifest) then
        var body := Concat(Listed(sv.uploads[uid].parts, manifest));
        (sv.(objects := sv.objects[k := body], uploads := sv.uploads - {uid}), Done)
      else (sv, Failed(Rejected))
    case AbortUpload(k, uid) =>
      (sv.(uploads := if Live(sv, k, uid) then sv.uploads - {uid} else sv.uploads), Done)
  }

  /** The replies a request can be given: the store's own refusals, or what the
      client decodes. */
  predicate Answers(req: Request, r: Reply) {
    (r.Failed? && (r.fault.NotFound? || r.fault.Rejected?)) ||
    match req
    case PutObject(_, _) => r.Done?
    case DeleteObject(_) => r.Done?
    case HeadObject(_) => r.Length?
    case GetObject(_) => r.Body?
    case GetRange(_, _, _) => r.Body?
    case ListPage => r.Page?
    case CreateUpload(_) => r.Created?
    case UploadPart(_, _, pn, _) => r.Stored? && 1 <= pn <= MAX_PART_NUMBER
    case CompleteUpload(_, _, _) => r.Done?
    case AbortUpload(_, _) => r.Done?
  }

  lemma ExecuteAnswers(sv: Store, owner: nat, req: Request, choice: Choice)
    ensures Answers(req, Execute(sv, owner, req, choice).1)
  {
  }

  /** A length of `n` bytes was reported; a reply without one counts as empty. */
  predicate SaidLength(replies: set<Reply>, n: nat) {
    Length(Some(n)) in replies || (n == 0 && Length(None) in replies)
  }
}
