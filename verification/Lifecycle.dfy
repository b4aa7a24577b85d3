/** The life of a multipart upload, read off the requests an operation sent. */
module Lifecycle {
  import opened Wrappers
  import opened Sequences
  import opened Config
  import opened Split
  import opened Server
  import opened Program
  import opened Client
  import opened Shapes
  import opened Transcript
  import opened Manifests
  import opened Ownership
  import opened Atomicity
  import Window

  /** The one request that settles an upload. */
  function Settlement(kind: Kind, uid: nat, results: seq<(nat, Reply)>): Request
    requires kind.Put?
  {
    if AllStored(results) then CompleteUpload(kind.key, uid, Manifest(results)) else AbortUpload(kind.key, uid)
  }

  /** An upload that got its id: every part was sent once, in order, every part
      settled, and then exactly one Complete or Abort went out. */
  ghost predicate UploadSettled(c: S3Config, op: Op, out: Outcome, uid: nat, results: seq<(nat, Reply)>)
    requires Sound(c) && op.kind.Put?
  {
    && op.last == Some(RFinish(uid, results))
    && ResultsOf(c, op.kind, op.mail, RParts(uid), results)
    && Reqs(op.mail) == [CreateUpload(op.kind.key)]
                        + Sent(c, op.kind, RParts(uid), DivCeil(|op.kind.body|, c.chunkSize))
                        + [Settlement(op.kind, uid, results)]
    && (AllStored(results) ==>
          || (out == Ok(Unit) && Done in op.mail[|op.mail| - 1].replies)
          || (out.Err? && (out.fault.Transport? || Failed(out.fault) in op.mail[|op.mail| - 1].replies)))
    && (!AllStored(results) ==> out.Err? && exists i :: FirstAt(results, out.fault, i))
  }

  /** An upload that never got an id: a lone CreateMultipartUpload. */
  ghost predicate CreateFailed(op: Op, out: Outcome)
    requires op.kind.Put?
  {
    op.last == Some(RCreate) && Reqs(op.mail) == [CreateUpload(op.kind.key)] && out.Err?
  }

  lemma SettledUpload(c: S3Config, owners: seq<nat>, i: nat, op: Op, uid: nat, results: seq<(nat, Reply)>)
    requires Sound(c) && Honest(c, owners, i, op) && op.kind.Put?
    requires op.stage.Ended? && !op.stage.out.Cancelled? && op.stage.out != Err(PoolTimeout)
    requires op.last == Some(RFinish(uid, results))
    ensures UploadSettled(c, op, op.stage.out, uid, results)
  {
    var round := RFinish(uid, results);
    assert Through(c, op.kind, RParts(uid)) <= Reqs(op.mail);
    PartsStored(c, owners, i, op, uid, results);
    FirstFaultIs(results);
    assert Sent(c, op.kind, round, 1) == [RequestOf(c, op.kind, round, 0)];
    var done: seq<(nat, Reply)> :| Concludes(c, op.kind, op.mail, round, done, op.stage.out);
    FinishResult(c, op, uid, results, done);
  }

  /** What the settling request's own result makes of the outcome. */
  lemma FinishResult(c: S3Config, op: Op, uid: nat, results: seq<(nat, Reply)>, done: seq<(nat, Reply)>)
    requires Sound(c) && op.kind.Put? && done != []
    requires ResultsOf(c, op.kind, op.mail, RFinish(uid, results), done)
    requires Reqs(op.mail) == Through(c, op.kind, RFinish(uid, results))
    requires op.mail != [] && RepliesFit(op.mail)
    ensures var out := After(RFinish(uid, results), done).out;
      FirstFault(results).None? ==>
        || (out == Ok(Unit) && Done in op.mail[|op.mail| - 1].replies)
        || (out.Err? && (out.fault.Transport? || Failed(out.fault) in op.mail[|op.mail| - 1].replies))
  {
    var round := RFinish(uid, results);
    LastLetter(c, op, round);
    LastReply(c, op, round, done);
  }

  lemma LastReply(c: S3Config, op: Op, round: Round, done: seq<(nat, Reply)>)
    requires Sound(c) && Suits(op.kind, round) && JobCount(c, op.kind, round) == 1
    requires done != [] && ResultsOf(c, op.kind, op.mail, round, done)
    requires op.mail != [] && |op.mail| - 1 == |Before(c, op.kind, round)|
    ensures var r := done[0].1; (r.Failed? && r.fault.Transport?) || r in op.mail[|op.mail| - 1].replies
  {
    LoneResult(c, op.kind, op.mail, round, done);
  }

  /** The lone request of the last round is the last letter. */
  lemma LastLetter(c: S3Config, op: Op, round: Round)
    requires Sound(c) && Suits(op.kind, round) && JobCount(c, op.kind, round) == 1
    requires Reqs(op.mail) == Through(c, op.kind, round)
    ensures op.mail != [] && |op.mail| - 1 == |Before(c, op.kind, round)|
    ensures op.mail[|op.mail| - 1].req == RequestOf(c, op.kind, round, 0)
  {
    assert |op.mail| == |Reqs(op.mail)| == |Before(c, op.kind, round)| + 1;
    LetterOfJob(c, op.kind, op.mail, round, 1, 0);
  }

  /** Every multipart put of every run that ends on its own, neither dropped nor
      turned away by the pool, either failed to get an upload id or settled its
      upload: all parts first, then Complete exactly when every part succeeded
      and Abort otherwise, reporting the first failure in completion order. */
  lemma MultipartLifecycle(clients: seq<S3Config>, initial: map<Key, Bytes>, es: seq<Event>, s: System, i: nat)
    requires Reaches(clients, initial, es, s) && i < |s.ops|
    requires s.ops[i].kind.Put? && |s.ops[i].kind.body| > ConfigOf(s, i).multipartThreshold
    requires s.ops[i].stage.Ended? && !s.ops[i].stage.out.Cancelled? && s.ops[i].stage.out != Err(PoolTimeout)
    ensures
      || CreateFailed(s.ops[i], s.ops[i].stage.out)
      || exists uid, results :: UploadSettled(ConfigOf(s, i), s.ops[i], s.ops[i].stage.out, uid, results)
  {
    RunSane(clients, initial, es, s);
    assert HonestAt(s, i);
    LifecycleOf(ConfigOf(s, i), s.store.owners, i, s.ops[i]);
  }

  lemma LifecycleOf(c: S3Config, owners: seq<nat>, i: nat, op: Op)
    requires Sound(c) && Honest(c, owners, i, op) && op.kind.Put? && |op.kind.body| > c.multipartThreshold
    requires op.stage.Ended? && !op.stage.out.Cancelled? && op.stage.out != Err(PoolTimeout)
    ensures CreateFailed(op, op.stage.out) || exists uid, results :: UploadSettled(c, op, op.stage.out, uid, results)
  {
    var round := op.last.value;
    if round.RFinish? {
      SettledUpload(c, owners, i, op, round.uid, round.results);
    } else {
      var done: seq<(nat, Reply)> :| Concludes(c, op.kind, op.mail, round, done, op.stage.out);
      assert Sent(c, op.kind, RCreate, 1) == [CreateUpload(op.kind.key)];
      assert [] + [CreateUpload(op.kind.key)] == [CreateUpload(op.kind.key)];
    }
  }

  // ---------- the manifest ----------

  /** Entry `k` is part `k + 1`, sent with slice `k`, and carries an etag that
      the store returned for that very part. */
  ghost predicate EntryValid(c: S3Config, op: Op, uid: nat, manifest: seq<(int, nat)>, k: nat)
    requires Sound(c) && op.kind.Put? && k < |manifest| && k < DivCeil(|op.kind.body|, c.chunkSize)
  {
    && manifest[k].0 == k + 1
    && k + 1 < |op.mail|
    && op.mail[k + 1].req == UploadPart(op.kind.key, uid, k + 1, Slice(op.kind.body, c.chunkSize, k))
    && Stored(Some(manifest[k].1)) in op.mail[k + 1].replies
  }

  ghost predicate ManifestSound(c: S3Config, op: Op, req: Request)
    requires Sound(c) && req.CompleteUpload?
  {
    var n := |req.manifest|;
    && op.kind.Put? && req.key == op.kind.key && n == DivCeil(|op.kind.body|, c.chunkSize)
    && 1 <= n <= 10000 && |op.kind.body| <= 10000 * c.chunkSize
    && (forall k :: 0 <= k < n ==> EntryValid(c, op, req.uid, req.manifest, k))
    && (forall k :: 0 <= k < n - 1 ==> |Slice(op.kind.body, c.chunkSize, k)| == c.chunkSize >= MIN_PART)
    && 1 <= |Slice(op.kind.body, c.chunkSize, n - 1)| <= c.chunkSize
  }

  /** Every CompleteMultipartUpload ever sent, by any operation of any run, even
      one dropped since, lists all parts of its body in ascending order, at least
      one and at most 10,000; every part but the last is a full chunk of at least
      5 MiB and the last is not empty, whatever the threshold. */
  lemma ManifestValid(clients: seq<S3Config>, initial: map<Key, Bytes>, es: seq<Event>, s: System, i: nat, l: nat)
    requires Reaches(clients, initial, es, s) && i < |s.ops|
    requires l < |s.ops[i].mail| && s.ops[i].mail[l].req.CompleteUpload?
    ensures ManifestSound(ConfigOf(s, i), s.ops[i], s.ops[i].mail[l].req)
  {
    RunSane(clients, initial, es, s);
    assert HonestAt(s, i);
    CompleteLetter(ConfigOf(s, i), s.store.owners, i, s.ops[i], l);
  }

  lemma CompleteLetter(c: S3Config, owners: seq<nat>, i: nat, op: Op, l: nat)
    requires Sound(c) && Honest(c, owners, i, op) && l < |op.mail| && op.mail[l].req.CompleteUpload?
    ensures ManifestSound(c, op, op.mail[l].req)
  {
    var req := op.mail[l].req;
    assert LetterOk(c, owners, i, op.kind, op.mail[l]);
    var n, size := DivCeil(|op.kind.body|, c.chunkSize), c.chunkSize;
    PieceCount(|op.kind.body|, size, 10000);
    forall k | 0 <= k < n
      ensures 1 <= |Slice(op.kind.body, size, k)| <= size && (k < n - 1 ==> |Slice(op.kind.body, size, k)| == size)
    {
      PieceBounds(|op.kind.body|, size, k);
    }
    CompleteIsLast(c, op, l);
    PartsStored(c, owners, i, op, op.last.value.uid, op.last.value.results);
    forall k | 0 <= k < n ensures EntryValid(c, op, req.uid, req.manifest, k) {
      CompleteEntry(c, op, op.last.value.uid, op.last.value.results, k);
    }
  }

  /** A CompleteMultipartUpload is only ever the request of the last round. */
  lemma CompleteIsLast(c: S3Config, op: Op, l: nat)
    requires Sound(c) && OnScript(c, op) && l < |op.mail| && op.mail[l].req.CompleteUpload?
    ensures op.kind.Put? && op.last.Some? && op.last.value.RFinish?
    ensures FirstFault(op.last.value.results).None?
    ensures op.mail[l].req == CompleteUpload(op.kind.key, op.last.value.uid, Manifest(op.last.value.results))
    ensures Through(c, op.kind, RParts(op.last.value.uid)) <= Reqs(op.mail)
  {
    var round := op.last.value;
    assert Reqs(op.mail)[l] == op.mail[l].req;
    ScriptBound(c, op);
    assert Through(c, op.kind, round)[l] == op.mail[l].req;
  }

  lemma PartLetter(c: S3Config, op: Op, uid: nat, k: nat)
    requires Sound(c) && op.kind.Put? && Through(c, op.kind, RParts(uid)) <= Reqs(op.mail)
    requires k < DivCeil(|op.kind.body|, c.chunkSize)
    ensures k + 1 < |op.mail|
    ensures op.mail[k + 1].req == UploadPart(op.kind.key, uid, PartNumber(k), Slice(op.kind.body, c.chunkSize, k))
  {
    LetterOfJob(c, op.kind, op.mail, RParts(uid), JobCount(c, op.kind, RParts(uid)), k);
  }

  lemma CompleteEntry(c: S3Config, op: Op, uid: nat, results: seq<(nat, Reply)>, k: nat)
    requires Sound(c) && op.kind.Put? && ResultsOf(c, op.kind, op.mail, RParts(uid), results)
    requires StoredJobs(results) && Through(c, op.kind, RParts(uid)) <= Reqs(op.mail)
    requires k < DivCeil(|op.kind.body|, c.chunkSize)
    ensures k < |Manifest(results)| && EntryValid(c, op, uid, Manifest(results), k)
  {
    JobsInRange(results);
    var m := Find(Window.Jobs(results), k);
    ManifestExact(results);
    ManifestEntry(results, m);
    assert GotReply(op.mail, 1, results[m]);
    PartLetter(c, op, uid, k);
  }

  /** The upload is live and its listed parts still have the listed etags. */
  predicate EtagsStand(sv: Store, req: Request)
    requires req.CompleteUpload?
  {
    && Live(sv, req.key, req.uid)
    && forall k :: 0 <= k < |req.manifest| ==>
         && req.manifest[k].0 in sv.uploads[req.uid].parts
         && sv.uploads[req.uid].parts[req.manifest[k].0].etag == req.manifest[k].1
  }

  /** The store accepts such a manifest, and thereby stores the whole body,
      whenever the upload is still live and no repeated delivery has changed an
      etag since. */
  lemma CompleteAccepted(clients: seq<S3Config>, initial: map<Key, Bytes>, es: seq<Event>, s: System, i: nat, l: nat,
                         choice: Choice)
    requires Reaches(clients, initial, es, s) && i < |s.ops|
    requires l < |s.ops[i].mail| && s.ops[i].mail[l].req.CompleteUpload?
    requires EtagsStand(s.store, s.ops[i].mail[l].req) && choice.Serve?
    ensures var (store, r) := Execute(s.store, i, s.ops[i].mail[l].req, choice);
      s.ops[i].kind.Put? && r == Done && store.objects == s.store.objects[s.ops[i].kind.key := s.ops[i].kind.body]
  {
    RunSane(clients, initial, es, s);
    HonestLetters(s);
    ManifestAcceptable(s, i, l);
    ManifestAssembles(ConfigOf(s, i), s.ops[i].kind.body, s.store.uploads[s.ops[i].mail[l].req.uid].parts,
        s.ops[i].mail[l].req.manifest);
    assert LetterOk(ConfigOf(s, i), s.store.owners, i, s.ops[i].kind, s.ops[i].mail[l]);
  }

  lemma ManifestAcceptable(s: System, i: nat, l: nat)
    requires Formed(s) && LettersOk(s) && UploadsOwned(s) && i < |s.ops| && l < |s.ops[i].mail|
    requires s.ops[i].mail[l].req.CompleteUpload? && EtagsStand(s.store, s.ops[i].mail[l].req)
    ensures var req := s.ops[i].mail[l].req;
      var parts := s.store.uploads[req.uid].parts;
      && s.ops[i].kind.Put? && Acceptable(parts, req.manifest)
      && Numbered(req.manifest, DivCeil(|s.ops[i].kind.body|, ConfigOf(s, i).chunkSize))
      && forall pn :: pn in parts ==>
           1 <= pn <= MAX_PART_NUMBER && IsPart(ConfigOf(s, i), s.ops[i].kind.body, pn, parts[pn].bytes)
  {
    var req, c, body := s.ops[i].mail[l].req, ConfigOf(s, i), s.ops[i].kind.body;
    assert LetterOk(c, s.store.owners, i, s.ops[i].kind, s.ops[i].mail[l]);
    assert UploadOwned(s, req.uid);
    var parts := s.store.uploads[req.uid].parts;
    forall k | 0 <= k < |req.manifest| - 1 ensures |parts[req.manifest[k].0].bytes| >= MIN_PART {
      PartIs(c, body, k, parts[req.manifest[k].0].bytes);
      PieceBounds(|body|, c.chunkSize, k);
    }
  }

  // ---------- the store's limit on parts ----------

  /** The client does not check the number of parts, but the store does: a body
      above the threshold that needs more than 10,000 chunks is never written,
      and its put never returns Ok, in any run. */
  lemma TooLargeNeverStored(clients: seq<S3Config>, initial: map<Key, Bytes>, es: seq<Event>, s: System, i: nat)
    requires Reaches(clients, initial, es, s) && i < |s.ops| && s.ops[i].kind.Put?
    requires |s.ops[i].kind.body| > ConfigOf(s, i).multipartThreshold
    requires DivCeil(|s.ops[i].kind.body|, ConfigOf(s, i).chunkSize) > 10000
    ensures !Acknowledged(s.ops[i])
    ensures !(Decided(s.ops[i].stage) && s.ops[i].stage.out.Ok?)
  {
    RunSane(clients, initial, es, s);
    assert HonestAt(s, i);
    var c, op := ConfigOf(s, i), s.ops[i];
    if Acknowledged(op) {
      var l :| 0 <= l < |op.mail| && (op.mail[l].req.PutObject? || op.mail[l].req.CompleteUpload?) &&
          Done in op.mail[l].replies;
      if op.mail[l].req.CompleteUpload? {
        CompleteLetter(c, s.store.owners, i, op, l);
      } else {
        NoPutObject(c, op, l);
      }
    }
    if Decided(op.stage) && op.stage.out.Ok? {
      OkIsUnit(c, op);
      OkAcknowledged(c, s.store.owners, i, op);
    }
  }

  lemma OkIsUnit(c: S3Config, op: Op)
    requires Sound(c) && Sourced(c, op) && op.kind.Put? && Decided(op.stage) && op.stage.out.Ok?
    ensures op.stage.out == Ok(Unit)
  {
  }

  /** Above the threshold no PutObject is sent. */
  lemma NoPutObject(c: S3Config, op: Op, l: nat)
    requires Sound(c) && Shape(c, op) && OnScript(c, op) && op.kind.Put? && |op.kind.body| > c.multipartThreshold
    requires l < |op.mail|
    ensures !op.mail[l].req.PutObject?
  {
    var round := op.last.value;
    ScriptBound(c, op);
    assert Reqs(op.mail)[l] == op.mail[l].req == Through(c, op.kind, round)[l];
  }
}
