/** Put atomicity: whatever happens, an object is somebody's whole body. */
module Atomicity {
  import opened Config
  import opened Split
  import opened Server
  import opened Program
  import opened Client
  import opened Transcript
  import opened Manifests
  import opened Ownership

  /** The store handled a PutObject or a CompleteMultipartUpload of the operation. */
  ghost predicate Acknowledged(op: Op) {
    exists l :: 0 <= l < |op.mail| && (op.mail[l].req.PutObject? || op.mail[l].req.CompleteUpload?) &&
        Done in op.mail[l].replies
  }

  /** The store handled a DeleteObject of the operation. */
  ghost predicate Removed(op: Op) {
    exists l :: 0 <= l < |op.mail| && op.mail[l].req.DeleteObject? && Done in op.mail[l].replies
  }

  /** A put whose writing request the store handled carries exactly this body under this key. */
  ghost predicate PutBy(ops: seq<Op>, k: Key, body: Bytes) {
    exists i :: 0 <= i < |ops| && ops[i].kind == Put(k, body) && Acknowledged(ops[i])
  }

  ghost predicate DeletedBy(ops: seq<Op>, k: Key) {
    exists i :: 0 <= i < |ops| && ops[i].kind == Delete(k) && Removed(ops[i])
  }

  ghost predicate ObjectsWhole(objects: map<Key, Bytes>, initial: map<Key, Bytes>, ops: seq<Op>) {
    && (forall k :: k in objects ==> (k in initial && objects[k] == initial[k]) || PutBy(ops, k, objects[k]))
    && (forall k :: k in initial ==> k in objects || DeletedBy(ops, k))
  }

  ghost predicate UploadOwned(s: System, uid: nat)
    requires Formed(s) && uid in s.store.uploads
  {
    && uid < |s.store.owners| && s.store.owners[uid] < |s.ops|
    && var i, up := s.store.owners[uid], s.store.uploads[uid];
       && s.ops[i].kind.Put? && up.key == s.ops[i].kind.key
       && forall pn :: pn in up.parts ==>
            1 <= pn <= MAX_PART_NUMBER && IsPart(ConfigOf(s, i), s.ops[i].kind.body, pn, up.parts[pn].bytes)
  }

  ghost predicate UploadsOwned(s: System)
    requires Formed(s)
  {
    forall uid :: uid in s.store.uploads ==> UploadOwned(s, uid)
  }

  ghost predicate Sane(s: System, initial: map<Key, Bytes>) {
    Formed(s) && AllHonest(s) && UploadsOwned(s) && ObjectsWhole(s.store.objects, initial, s.ops)
  }

  /** A numbered manifest over parts of one body assembles that body. */
  lemma ManifestAssembles(c: S3Config, body: Bytes, parts: map<int, Part>, manifest: seq<(int, nat)>)
    requires Sound(c) && Numbered(manifest, DivCeil(|body|, c.chunkSize)) && Acceptable(parts, manifest)
    requires forall pn :: pn in parts ==> 1 <= pn <= MAX_PART_NUMBER && IsPart(c, body, pn, parts[pn].bytes)
    ensures Concat(Listed(parts, manifest)) == body
  {
    forall k | 0 <= k < |manifest| ensures parts[manifest[k].0].bytes == Slice(body, c.chunkSize, k) {
      assert manifest[k].0 == k + 1;
      PartIs(c, body, k, parts[k + 1].bytes);
    }
    ListedAre(body, c.chunkSize, parts, manifest);
    Tiling(body, c.chunkSize);
  }

  /** Within 10,000 parts a part number determines its slice. */
  lemma PartIs(c: S3Config, body: Bytes, k: nat, bytes: Bytes)
    requires Sound(c) && k < DivCeil(|body|, c.chunkSize) <= MAX_PART_NUMBER && IsPart(c, body, k + 1, bytes)
    ensures bytes == Slice(body, c.chunkSize, k)
  {
    var j :| 0 <= j < DivCeil(|body|, c.chunkSize) && k + 1 == PartNumber(j) && bytes == Slice(body, c.chunkSize, j);
  }

  lemma ListedAre(body: Bytes, size: nat, parts: map<int, Part>, manifest: seq<(int, nat)>)
    requires size > 0 && |manifest| == DivCeil(|body|, size)
    requires forall k :: 0 <= k < |manifest| ==> manifest[k].0 in parts
    requires forall k :: 0 <= k < |manifest| ==> parts[manifest[k].0].bytes == Slice(body, size, k)
    ensures Listed(parts, manifest) == Slices(body, size)
  {
  }

  ghost predicate LettersOk(s: System)
    requires Formed(s)
  {
    forall i, l :: 0 <= i < |s.ops| && 0 <= l < |s.ops[i].mail| ==>
      LetterOk(ConfigOf(s, i), s.store.owners, i, s.ops[i].kind, s.ops[i].mail[l])
  }

  lemma HonestLetters(s: System)
    requires Formed(s) && AllHonest(s)
    ensures LettersOk(s)
  {
    forall i, l | 0 <= i < |s.ops| && 0 <= l < |s.ops[i].mail|
      ensures LetterOk(ConfigOf(s, i), s.store.owners, i, s.ops[i].kind, s.ops[i].mail[l])
    {
      assert HonestAt(s, i);
    }
  }

  /** Where a delivery changes the objects, it answers `Done` and writes the
      sender's whole body or removes the key. */
  lemma DeliveryWrites(s: System, i: nat, l: nat, choice: Choice)
    requires Formed(s) && LettersOk(s) && UploadsOwned(s) && Enabled(s, Deliver(i, l, choice))
    ensures var (store, r) := Execute(s.store, i, s.ops[i].mail[l].req, choice);
      var req, kind := s.ops[i].mail[l].req, s.ops[i].kind;
      if r.Done? && (req.PutObject? || req.CompleteUpload?) then
        kind.Put? && store.objects == s.store.objects[kind.key := kind.body]
      else if r.Done? && req.DeleteObject? then kind.Delete? && store.objects == s.store.objects - {kind.key}
      else store.objects == s.store.objects
  {
    var op := s.ops[i];
    assert LetterOk(ConfigOf(s, i), s.store.owners, i, op.kind, op.mail[l]);
    match op.mail[l].req
    case CompleteUpload(k, uid, manifest) =>
      if Live(s.store, k, uid) && Acceptable(s.store.uploads[uid].parts, manifest) {
        assert UploadOwned(s, uid);
        ManifestAssembles(ConfigOf(s, i), op.kind.body, s.store.uploads[uid].parts, manifest);
      }
    case _ =>
  }

  /** A delivery changes uploads only by parts of their own bodies. */
  lemma DeliveryKeepsUploads(s: System, i: nat, l: nat, choice: Choice)
    requires Formed(s) && LettersOk(s) && UploadsOwned(s) && Enabled(s, Deliver(i, l, choice))
    ensures UploadsOwned(Apply(s, Deliver(i, l, choice)))
  {
    var s' := Apply(s, Deliver(i, l, choice));
    forall uid | uid in s'.store.uploads ensures UploadOwned(s', uid) {
      assert uid in s.store.uploads ==> UploadOwned(s, uid);
      DeliveryKeepsUpload(s, i, l, choice, uid);
    }
  }

  lemma DeliveryKeepsUpload(s: System, i: nat, l: nat, choice: Choice, uid: nat)
    requires Formed(s) && LettersOk(s) && Enabled(s, Deliver(i, l, choice))
    requires uid in s.store.uploads ==> UploadOwned(s, uid)
    requires uid in Apply(s, Deliver(i, l, choice)).store.uploads
    ensures UploadOwned(Apply(s, Deliver(i, l, choice)), uid)
  {
    var s', op := Apply(s, Deliver(i, l, choice)), s.ops[i];
    assert LetterOk(ConfigOf(s, i), s.store.owners, i, op.kind, op.mail[l]);
    if uid in s.store.uploads && s'.store.uploads[uid] == s.store.uploads[uid] {
      assert s'.store.owners[uid] == s.store.owners[uid];
    } else if op.mail[l].req.UploadPart? {
      PartKeepsUpload(s, i, l, choice, uid);
    } else {
      assert op.mail[l].req.CreateUpload?;
    }
  }

  /** A part sent by its owner is a part of the owner's body. */
  lemma PartKeepsUpload(s: System, i: nat, l: nat, choice: Choice, uid: nat)
    requires Formed(s) && LettersOk(s) && Enabled(s, Deliver(i, l, choice)) && s.ops[i].mail[l].req.UploadPart?
    requires uid in s.store.uploads && UploadOwned(s, uid) && uid in Apply(s, Deliver(i, l, choice)).store.uploads
    ensures UploadOwned(Apply(s, Deliver(i, l, choice)), uid)
  {
    assert LetterOk(ConfigOf(s, i), s.store.owners, i, s.ops[i].kind, s.ops[i].mail[l]);
  }

  lemma QuietKeepsStore(s: System, s': System)
    requires Formed(s) && Formed(s') && UploadsOwned(s) && s'.store == s.store && s'.clients == s.clients
    requires |s.ops| <= |s'.ops|
    requires forall i :: 0 <= i < |s.ops| ==> s'.ops[i].kind == s.ops[i].kind && s'.ops[i].client == s.ops[i].client
    ensures UploadsOwned(s')
  {
    forall uid | uid in s'.store.uploads ensures UploadOwned(s', uid) {
      assert UploadOwned(s, uid);
    }
  }

  /** Operations keep their kind, and what they sent and were told. */
  ghost predicate Grown(ops: seq<Op>, ops': seq<Op>) {
    |ops| <= |ops'| && forall i :: 0 <= i < |ops| ==> ops'[i].kind == ops[i].kind && Grows(ops[i].mail, ops'[i].mail)
  }

  lemma ApplyGrows(s: System, e: Event)
    requires Formed(s) && Enabled(s, e)
    ensures Grown(s.ops, Apply(s, e).ops)
  {
    if e.Do? {
      DoMoves(s, e.op, e.act);
      OpKeeps(ConfigOf(s, e.op), s.ops[e.op], e.act, TicketFor(s, e.op), s.clock);
    }
  }

  lemma ObjectsStayWhole(objects: map<Key, Bytes>, initial: map<Key, Bytes>, ops: seq<Op>, ops': seq<Op>)
    requires ObjectsWhole(objects, initial, ops) && Grown(ops, ops')
    ensures ObjectsWhole(objects, initial, ops')
  {
    forall k | k in objects && PutBy(ops, k, objects[k]) ensures PutBy(ops', k, objects[k]) {
      var i :| 0 <= i < |ops| && ops[i].kind == Put(k, objects[k]) && Acknowledged(ops[i]);
      AcknowledgedStays(ops[i], ops'[i]);
    }
    forall k | k in initial && DeletedBy(ops, k) ensures DeletedBy(ops', k) {
      var i :| 0 <= i < |ops| && ops[i].kind == Delete(k) && Removed(ops[i]);
      RemovedStays(ops[i], ops'[i]);
    }
  }

  lemma AcknowledgedStays(op: Op, op': Op)
    requires Grows(op.mail, op'.mail) && Acknowledged(op)
    ensures Acknowledged(op')
  {
    var l :| 0 <= l < |op.mail| && (op.mail[l].req.PutObject? || op.mail[l].req.CompleteUpload?) &&
        Done in op.mail[l].replies;
    assert op.mail[l].req == op'.mail[l].req && Done in op'.mail[l].replies;
  }

  lemma RemovedStays(op: Op, op': Op)
    requires Grows(op.mail, op'.mail) && Removed(op)
    ensures Removed(op')
  {
    var l :| 0 <= l < |op.mail| && op.mail[l].req.DeleteObject? && Done in op.mail[l].replies;
    assert op.mail[l].req == op'.mail[l].req && Done in op'.mail[l].replies;
  }

  lemma DeliveryKeepsWhole(s: System, i: nat, l: nat, choice: Choice, initial: map<Key, Bytes>)
    requires Formed(s) && LettersOk(s) && UploadsOwned(s) && Enabled(s, Deliver(i, l, choice))
    requires ObjectsWhole(s.store.objects, initial, s.ops)
    ensures var s' := Apply(s, Deliver(i, l, choice)); ObjectsWhole(s'.store.objects, initial, s'.ops)
  {
    var s' := Apply(s, Deliver(i, l, choice));
    ApplyGrows(s, Deliver(i, l, choice));
    ObjectsStayWhole(s.store.objects, initial, s.ops, s'.ops);
    DeliveryWrites(s, i, l, choice);
    var op := s'.ops[i];
    if Done in op.mail[l].replies && (op.mail[l].req.PutObject? || op.mail[l].req.CompleteUpload?) {
      assert Acknowledged(op);
    } else if Done in op.mail[l].replies && op.mail[l].req.DeleteObject? {
      assert Removed(op);
    }
    WholeAfter(s.store.objects, s'.store.objects, initial, s'.ops, i);
  }

  lemma WholeAfter(objects: map<Key, Bytes>, objects': map<Key, Bytes>, initial: map<Key, Bytes>, ops: seq<Op>, i: nat)
    requires i < |ops| && ObjectsWhole(objects, initial, ops)
    requires
      || objects' == objects
      || (ops[i].kind.Put? && Acknowledged(ops[i]) && objects' == objects[ops[i].kind.key := ops[i].kind.body])
      || (ops[i].kind.Delete? && Removed(ops[i]) && objects' == objects - {ops[i].kind.key})
    ensures ObjectsWhole(objects', initial, ops)
  {
    assert ops[i].kind.Put? && Acknowledged(ops[i]) ==> PutBy(ops, ops[i].kind.key, ops[i].kind.body);
    assert ops[i].kind.Delete? && Removed(ops[i]) ==> DeletedBy(ops, ops[i].kind.key);
  }

  lemma ApplyKeepsSane(s: System, e: Event, initial: map<Key, Bytes>)
    requires Sane(s, initial) && Enabled(s, e)
    ensures Sane(Apply(s, e), initial)
  {
    var s' := Apply(s, e);
    ApplyKeepsHonest(s, e);
    if e.Deliver? {
      HonestLetters(s);
      DeliveryKeepsWhole(s, e.op, e.letter, e.choice, initial);
      DeliveryKeepsUploads(s, e.op, e.letter, e.choice);
    } else {
      ApplyGrows(s, e);
      ObjectsStayWhole(s.store.objects, initial, s.ops, s'.ops);
      QuietKeepsStore(s, s');
    }
  }

  lemma {:induction false} RunSane(clients: seq<S3Config>, initial: map<Key, Bytes>, es: seq<Event>, s: System)
    requires Reaches(clients, initial, es, s)
    ensures Sane(s, initial)
  {
    if es != [] {
      var before := Exec(Init(clients, initial), es[..|es| - 1]).value;
      RunSane(clients, initial, es[..|es| - 1], before);
      ApplyKeepsSane(before, es[|es| - 1], initial);
    }
  }

  /** In every state of every run (any clients, any mix of operations, failures,
      cancellations and repeated deliveries) each object is either the one it
      was at the start or exactly one caller's whole body for that key, and an
      initial object is missing only if somebody deletes it. */
  lemma PutAtomicity(clients: seq<S3Config>, initial: map<Key, Bytes>, es: seq<Event>, s: System)
    requires Reaches(clients, initial, es, s)
    ensures ObjectsWhole(s.store.objects, initial, s.ops)
  {
    RunSane(clients, initial, es, s);
  }

  /** A put that gave its upload up, or that the pool turned away, never writes:
      no object is ever its doing. */
  lemma AbortedNeverStores(clients: seq<S3Config>, initial: map<Key, Bytes>, es: seq<Event>, s: System, i: nat)
    requires Reaches(clients, initial, es, s) && i < |s.ops| && s.ops[i].kind.Put?
    requires (exists l :: 0 <= l < |s.ops[i].mail| && s.ops[i].mail[l].req.AbortUpload?)
      || (Decided(s.ops[i].stage) && s.ops[i].stage.out == Err(PoolTimeout))
    ensures !Acknowledged(s.ops[i])
  {
    RunSane(clients, initial, es, s);
    assert HonestAt(s, i);
    var c, op := ConfigOf(s, i), s.ops[i];
    if l :| 0 <= l < |op.mail| && op.mail[l].req.AbortUpload? {
      SettlesOnce(c, op, l);
    }
  }

  lemma AbortScript(c: S3Config, kind: Kind, round: Round, l: nat)
    requires Sound(c) && Suits(kind, round) && kind.Put? && l < |Through(c, kind, round)|
    requires Through(c, kind, round)[l].AbortUpload?
    ensures forall m :: 0 <= m < |Through(c, kind, round)| ==>
      !Through(c, kind, round)[m].PutObject? && !Through(c, kind, round)[m].CompleteUpload?
  {
  }

  /** An Abort is the last request of its script, and no write precedes it. */
  lemma SettlesOnce(c: S3Config, op: Op, l: nat)
    requires Sound(c) && OnScript(c, op) && op.kind.Put? && l < |op.mail| && op.mail[l].req.AbortUpload?
    ensures forall m :: 0 <= m < |op.mail| ==> !op.mail[m].req.PutObject? && !op.mail[m].req.CompleteUpload?
  {
    var round := op.last.value;
    ScriptBound(c, op);
    assert Reqs(op.mail)[l] == op.mail[l].req;
    AbortScript(c, op.kind, round, l);
    forall m | 0 <= m < |op.mail| ensures !op.mail[m].req.PutObject? && !op.mail[m].req.CompleteUpload? {
      assert Reqs(op.mail)[m] == op.mail[m].req;
    }
  }

  // ---------- an acknowledged put was stored ----------

  /** At some moment of the run `es` operation `i` existed and its body was the object. */
  ghost predicate StoredDuring(s0: System, es: seq<Event>, i: nat)
    requires Formed(s0)
  {
    exists m :: 0 <= m <= |es| && StoredAt(s0, es[..m], i)
  }

  ghost predicate StoredAt(s0: System, es: seq<Event>, i: nat)
    requires Formed(s0)
  {
    && Exec(s0, es).Some? && i < |Exec(s0, es).value.ops|
    && var s := Exec(s0, es).value;
       && s.ops[i].kind.Put? && !s.ops[i].stage.Ended?
       && s.ops[i].kind.key in s.store.objects && s.store.objects[s.ops[i].kind.key] == s.ops[i].kind.body
  }

  lemma StoredEarlier(s0: System, es: seq<Event>, i: nat)
    requires Formed(s0) && es != [] && StoredDuring(s0, es[..|es| - 1], i)
    ensures StoredDuring(s0, es, i)
  {
    var init := es[..|es| - 1];
    var m :| 0 <= m <= |init| && StoredAt(s0, init[..m], i);
    assert init[..m] == es[..m];
  }

  /** While an operation has not ended, an acknowledgement means the body was
      stored since it was called. */
  lemma {:induction false} AcknowledgedStored(clients: seq<S3Config>, initial: map<Key, Bytes>, es: seq<Event>,
                                              s': System, i: nat)
    requires Reaches(clients, initial, es, s')
    requires i < |s'.ops| && !s'.ops[i].stage.Ended? && Acknowledged(s'.ops[i])
    ensures StoredDuring(Init(clients, initial), es, i)
    decreases |es|
  {
    var s0 := Init(clients, initial);
    var init, e := es[..|es| - 1], es[|es| - 1];
    var s := Exec(s0, init).value;
    RunSane(clients, initial, init, s);
    if i < |s.ops| && Acknowledged(s.ops[i]) {
      assert !s.ops[i].stage.Ended?;
      AcknowledgedStored(clients, initial, init, s, i);
      StoredEarlier(s0, es, i);
    } else {
      HonestLetters(s);
      FirstAcknowledgement(s, e, i);
      assert es[..|es|] == es;
      assert StoredAt(s0, es[..|es|], i);
    }
  }

  lemma FirstAcknowledgement(s: System, e: Event, i: nat)
    requires Formed(s) && LettersOk(s) && UploadsOwned(s) && Enabled(s, e)
    requires i < |Apply(s, e).ops| && Acknowledged(Apply(s, e).ops[i])
    requires i < |s.ops| ==> !Acknowledged(s.ops[i])
    ensures var s' := Apply(s, e);
      s'.ops[i].kind.Put? && s'.ops[i].kind.key in s'.store.objects
      && s'.store.objects[s'.ops[i].kind.key] == s'.ops[i].kind.body
  {
    var s' := Apply(s, e);
    var l :| 0 <= l < |s'.ops[i].mail| && (s'.ops[i].mail[l].req.PutObject? || s'.ops[i].mail[l].req.CompleteUpload?)
             && Done in s'.ops[i].mail[l].replies;
    NewReplyIsDelivered(s, e, i, l, Done);
    DeliveryWrites(s, i, l, e.choice);
  }

  /** A reply that was not there before was delivered just now. */
  lemma NewReplyIsDelivered(s: System, e: Event, i: nat, l: nat, r: Reply)
    requires Formed(s) && Enabled(s, e) && i < |Apply(s, e).ops| && l < |Apply(s, e).ops[i].mail|
    requires r in Apply(s, e).ops[i].mail[l].replies
    requires i < |s.ops| && l < |s.ops[i].mail| && s.ops[i].mail[l].req == Apply(s, e).ops[i].mail[l].req
             ==> r !in s.ops[i].mail[l].replies
    ensures e.Deliver? && e.op == i && e.letter == l && i < |s.ops| && l < |s.ops[i].mail|
    ensures s.ops[i].kind == Apply(s, e).ops[i].kind && s.ops[i].mail[l].req == Apply(s, e).ops[i].mail[l].req
    ensures r == Execute(s.store, i, s.ops[i].mail[l].req, e.choice).1
  {
    if e.Do? {
      DoMoves(s, e.op, e.act);
      OpKeeps(ConfigOf(s, e.op), s.ops[e.op], e.act,
              TicketFor(s, e.op), s.clock);
    }
  }

  /** A put that returned `Ok` has its acknowledgement. */
  lemma OkAcknowledged(c: S3Config, owners: seq<nat>, i: nat, op: Op)
    requires Sound(c) && Honest(c, owners, i, op) && op.kind.Put?
    requires Decided(op.stage) && op.stage.out == Ok(Unit)
    ensures Acknowledged(op)
  {
    var round := op.last.value;
    var done: seq<(nat, Reply)> :| Concludes(c, op.kind, op.mail, round, done, op.stage.out);
    OkRound(round, done);
    OnlyResult(c, op.kind, op.mail, round, done);
    assert LetterOk(c, owners, i, op.kind, op.mail[|Before(c, op.kind, round)|]);
  }

  /** Only a PutObject or a CompleteMultipartUpload concludes a put with `Ok`. */
  lemma OkRound(round: Round, done: seq<(nat, Reply)>)
    requires done != [] && After(round, done) == Return(Ok(Unit))
    ensures round.RPut? || round.RDelete? || (round.RFinish? && FirstFault(round.results).None?)
    ensures !done[0].1.Failed?
  {
  }

  /** Every put that returns `Ok` had its whole body stored under its key at some
      moment between its call and its return. */
  lemma {:induction false} OkPutWasStored(clients: seq<S3Config>, initial: map<Key, Bytes>, es: seq<Event>,
                                          s': System, i: nat)
    requires Reaches(clients, initial, es, s')
    requires i < |s'.ops| && s'.ops[i].kind.Put? && s'.ops[i].stage == Ended(Ok(Unit))
    ensures StoredDuring(Init(clients, initial), es, i)
    decreases |es|
  {
    var s0 := Init(clients, initial);
    var init, e := es[..|es| - 1], es[|es| - 1];
    var s := Exec(s0, init).value;
    RunSane(clients, initial, init, s);
    LastStep(s, e, i);
    if s.ops[i].stage.Ended? {
      OkPutWasStored(clients, initial, init, s, i);
    } else {
      assert HonestAt(s, i);
      OkAcknowledged(ConfigOf(s, i), s.store.owners, i, s.ops[i]);
      AcknowledgedStored(clients, initial, init, s, i);
    }
    StoredEarlier(s0, es, i);
  }

  /** A put is `Ended(Ok)` after a step only if it was before or was leaving with it. */
  lemma LastStep(s: System, e: Event, i: nat)
    requires Formed(s) && Enabled(s, e) && AllHonest(s)
    requires i < |Apply(s, e).ops| && Apply(s, e).ops[i].kind.Put? && Apply(s, e).ops[i].stage == Ended(Ok(Unit))
    ensures i < |s.ops| && s.ops[i].kind == Apply(s, e).ops[i].kind
    ensures s.ops[i].stage == Ended(Ok(Unit)) || (s.ops[i].stage.Leaving? && s.ops[i].stage.out == Ok(Unit))
  {
  }
}
