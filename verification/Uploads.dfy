/** Exactly which puts can succeed. */
module Uploads {
  import opened Wrappers
  import opened Config
  import opened Split
  import opened Server
  import opened Program
  import opened Client
  import opened Shapes
  import opened Transcript
  import opened Manifests
  import opened Ownership
  import opened Atomicity
  import opened Lifecycle
  import opened Payments
  import opened Scenarios
  import opened Deadlocks
  import Pool
  import Window

  /** Among any other clients, some run of a client configured as `c` has a put of
      `body` that returns `Ok`. */
  ghost predicate CanPut(c: S3Config, body: Bytes) {
    exists clients, initial, es, s, i :: Reaches(clients, initial, es, s) && Succeeded(s, i, c, body)
  }

  ghost predicate Succeeded(s: System, i: nat, c: S3Config, body: Bytes) {
    && Formed(s) && i < |s.ops| && ConfigOf(s, i) == c
    && s.ops[i].kind.Put? && s.ops[i].kind.body == body && s.ops[i].stage == Ended(Ok(Unit))
  }

  /** The permits the put reserves fit the write half, and the store takes as many parts. */
  predicate Puttable(c: S3Config, body: Bytes)
    requires Sound(c)
  {
    if |body| <= c.multipartThreshold then 1 <= c.writeConnections
    else Pool.AsU32(c.writeConcurrency) <= c.writeConnections && DivCeil(|body|, c.chunkSize) <= MAX_PART_NUMBER
  }

  /** Whoever succeeds had the permits and few enough parts. */
  lemma SucceededFits(clients: seq<S3Config>, initial: Objects, es: seq<Event>, s: System, i: nat,
                      c: S3Config, body: Bytes)
    requires Reaches(clients, initial, es, s) && Succeeded(s, i, c, body)
    ensures Sound(c) && Puttable(c, body)
  {
    RunPaid(clients, initial, es, s);
    RunSane(clients, initial, es, s);
    assert HonestAt(s, i);
    if |body| > c.multipartThreshold && DivCeil(|body|, c.chunkSize) > MAX_PART_NUMBER {
      TooLargeNeverStored(clients, initial, es, s, i);
    }
    PutRounds(c, s.ops[i]);
  }

  /** A put that has ended `Ok` began a round of its own path. */
  lemma PutRounds(c: S3Config, op: Op)
    requires Sound(c) && Shape(c, op) && Sourced(c, op) && op.kind.Put? && op.stage == Ended(Ok(Unit))
    ensures op.last.Some? && (op.last.value.RPut? <==> |op.kind.body| <= c.multipartThreshold)
    ensures op.last.value.RPut? || op.last.value.RCreate? || op.last.value.RParts? || op.last.value.RFinish?
  {
  }

  // ---------- a run that succeeds ----------

  /** The lone put of `body` holds its reservation and is in `round`, with nothing sent of it yet. */
  ghost predicate Working(s: System, c: S3Config, body: Bytes, round: Round) {
    && Formed(s) && |s.ops| == 1 && ConfigOf(s, 0) == c && s.ops[0].kind == Put("", body)
    && var op := s.ops[0];
       && op.stage.Busy? && op.stage.round == round && op.stage.base == |op.mail|
       && op.stage.win == Window.Open(JobCount(c, op.kind, round), Width(c, round))
       && HalfAt(s, 0).In(op.stage.ticket, Pool.Counted)
  }

  /** The put is called and acquires. */
  lemma PutBegins(c: S3Config, body: Bytes) returns (r: Run)
    requires Sound(c) && Puttable(c, body)
    ensures Valid(r) && r.clients == [c] && r.past == {map[], map["" := body]}
    ensures Working(r.s, c, body, if |body| <= c.multipartThreshold then RPut else RCreate)
    ensures r.s.store == Store(map[], map[], []) && r.s.ops[0].mail == []
  {
    var r0 := Started([c], map[], 0, Put("", body));
    var r1 := Widen(r0, {map[], map["" := body]});
    r := Acquire(r1, 0);
  }

  /** A helper that is done comes back, and the put reports and ends. */
  lemma PutEnds(r: Run, c: S3Config, body: Bytes) returns (r': Run)
    requires Valid(r) && Formed(r.s) && |r.s.ops| == 1 && ConfigOf(r.s, 0) == c && r.s.ops[0].kind == Put("", body)
    requires var st := r.s.ops[0].stage;
      && st.Busy? && st.win.Complete() && st.win.done != [] && After(st.round, st.win.done) == Return(Ok(Unit))
      && HalfAt(r.s, 0).In(st.ticket, Pool.Counted)
    ensures Valid(r') && SameStart(r, r') && Formed(r'.s) && |r'.s.ops| == 1 && ConfigOf(r'.s, 0) == c
    ensures r'.s.ops[0].kind == Put("", body) && r'.s.ops[0].stage == Ended(Ok(Unit)) && r'.s.store == r.s.store
  {
    var r1 := GoBack(r, 0);
    var r2 := GoDo(r1, 0, Finish);
    r' := GoDo(r2, 0, Drop);
  }

  /** The simple path: one PutObject. */
  lemma SimplePut(c: S3Config, body: Bytes) returns (r: Run)
    requires Sound(c) && Puttable(c, body) && |body| <= c.multipartThreshold
    ensures Valid(r) && r.clients == [c] && Succeeded(r.s, 0, c, body) && r.s.store.objects == map["" := body]
  {
    var r1 := PutBegins(c, body);
    var r2 := Exchange(r1, 0);
    r := PutEnds(r2, c, body);
  }

  // ---------- the multipart path ----------

  /** The results of the first `j` parts, in order. */
  function PartResults(j: nat): seq<(nat, Reply)> { seq(j, k requires 0 <= k < j => (k, Stored(Some(0)))) }

  /** The store holds the first `j` parts of the upload. */
  ghost predicate Holds(sv: Store, j: nat) {
    && sv.objects == map[] && sv.uploads.Keys == {0} && sv.uploads[0].key == ""
    && forall pn: int :: 1 <= pn <= j ==> pn in sv.uploads[0].parts && sv.uploads[0].parts[pn].etag == 0
  }

  /** The put has uploaded its first `j` parts. */
  ghost predicate Uploading(s: System, c: S3Config, body: Bytes, j: nat) {
    && Formed(s) && |s.ops| == 1 && ConfigOf(s, 0) == c && s.ops[0].kind == Put("", body)
    && |body| > c.multipartThreshold && j <= DivCeil(|body|, c.chunkSize) <= MAX_PART_NUMBER
    && Holds(s.store, j)
    && var op := s.ops[0];
       && op.stage.Busy? && op.stage.round == RParts(0) && op.stage.base + j == |op.mail|
       && op.stage.win == Window.Window(DivCeil(|body|, c.chunkSize), c.writeConcurrency, j, {}, PartResults(j))
       && HalfAt(s, 0).In(op.stage.ticket, Pool.Counted)
  }

  /** CreateMultipartUpload is sent and answered, and the parts begin. */
  lemma Created(r: Run, c: S3Config, body: Bytes) returns (r': Run)
    requires Valid(r) && Working(r.s, c, body, RCreate) && |body| > c.multipartThreshold
    requires DivCeil(|body|, c.chunkSize) <= MAX_PART_NUMBER && r.s.store == Store(map[], map[], []) && map[] in r.past
    ensures Valid(r') && SameStart(r, r') && Uploading(r'.s, c, body, 0)
  {
    var r1 := Exchange(r, 0);
    CreateReply(r.s, r1.s);
    r' := PartsBegin(r1, c, body);
  }

  /** The upload has its id. */
  lemma PartsBegin(r: Run, c: S3Config, body: Bytes) returns (r': Run)
    requires Sound(c) && Valid(r) && Formed(r.s) && |r.s.ops| == 1
    requires ConfigOf(r.s, 0) == c && r.s.ops[0].kind == Put("", body)
    requires |body| > c.multipartThreshold && DivCeil(|body|, c.chunkSize) <= MAX_PART_NUMBER
    requires Holds(r.s.store, 0)
    requires var st := r.s.ops[0].stage;
      && st.Busy? && st.win.Complete() && st.win.done != [] && After(st.round, st.win.done) == Then(RParts(0))
      && HalfAt(r.s, 0).In(st.ticket, Pool.Counted)
    ensures Valid(r') && SameStart(r, r') && Uploading(r'.s, c, body, 0)
  {
    r' := Transfer(r, 0, Settle);
    assert PartResults(0) == [];
  }

  lemma CreateReply(s: System, s': System)
    requires Formed(s) && |s.ops| == 1 && CanSend(s, 0) && s.ops[0].stage.round == RCreate && s.ops[0].kind.Put?
    requires s.ops[0].kind.key == "" && s.ops[0].stage.win == Window.Open(1, 1) && s.store == Store(map[], map[], [])
    requires var (store, reply) := Execute(s.store, 0, NextRequest(s, 0), Serve(Some(0)));
      Exchanges(s, s', 0, store, reply)
    ensures s'.store == Store(map[], map[0 := Upload("", map[])], [0])
    ensures var st := s'.ops[0].stage;
      st.win.Complete() && st.win.done != [] && After(st.round, st.win.done) == Then(RParts(0))
  {
  }

  lemma PartReply(s: System, c: S3Config, body: Bytes, j: nat)
    requires Uploading(s, c, body, j) && j < DivCeil(|body|, c.chunkSize)
    ensures CanSend(s, 0)
    ensures var (store, reply) := Execute(s.store, 0, NextRequest(s, 0), Serve(Some(0)));
      Holds(store, j + 1) && reply == Stored(Some(0))
  {
    assert PartNumber(j) == j + 1;
  }

  /** One more part. */
  lemma PartSent(r: Run, c: S3Config, body: Bytes, j: nat) returns (r': Run)
    requires Valid(r) && Uploading(r.s, c, body, j) && j < DivCeil(|body|, c.chunkSize) && map[] in r.past
    ensures Valid(r') && SameStart(r, r') && Uploading(r'.s, c, body, j + 1)
  {
    PartReply(r.s, c, body, j);
    r' := Exchange(r, 0);
    PartStep(r.s, r'.s, c, body, j);
  }

  lemma PartStep(s: System, s': System, c: S3Config, body: Bytes, j: nat)
    requires Uploading(s, c, body, j) && j < DivCeil(|body|, c.chunkSize) && CanSend(s, 0) && Formed(s')
    requires Holds(s'.store, j + 1) && Exchanges(s, s', 0, s'.store, Stored(Some(0)))
    ensures Uploading(s', c, body, j + 1)
  {
    assert PartResults(j) + [(j, Stored(Some(0)))] == PartResults(j + 1);
  }

  lemma {:induction false} AllSent(r: Run, c: S3Config, body: Bytes, j: nat) returns (r': Run)
    requires Valid(r) && Uploading(r.s, c, body, j) && map[] in r.past
    ensures Valid(r') && SameStart(r, r') && Uploading(r'.s, c, body, DivCeil(|body|, c.chunkSize))
    decreases DivCeil(|body|, c.chunkSize) - j
  {
    r' := r;
    if j < DivCeil(|body|, c.chunkSize) {
      r' := PartSent(r, c, body, j);
      r' := AllSent(r', c, body, j + 1);
    }
  }

  /** The window has drained, and Complete is next. */
  ghost predicate Completing(s: System, c: S3Config, body: Bytes) {
    && Sound(c) && Working(s, c, body, RFinish(0, PartResults(DivCeil(|body|, c.chunkSize))))
    && |body| > c.multipartThreshold && 1 <= DivCeil(|body|, c.chunkSize) <= MAX_PART_NUMBER
    && Holds(s.store, DivCeil(|body|, c.chunkSize))
  }

  lemma AllSettled(r: Run, c: S3Config, body: Bytes) returns (r': Run)
    requires Sound(c) && Valid(r) && Uploading(r.s, c, body, DivCeil(|body|, c.chunkSize))
    ensures Valid(r') && SameStart(r, r') && Completing(r'.s, c, body)
  {
    PieceCount(|body|, c.chunkSize, 0);
    r' := Transfer(r, 0, Settle);
  }

  lemma PartsStoredAll(n: nat)
    requires 1 <= n <= MAX_PART_NUMBER
    ensures StoredJobs(PartResults(n))
  {
    var results, jobs := PartResults(n), Window.Jobs(PartResults(n));
    forall j | 0 <= j < n ensures j in jobs {
      assert jobs[j] == j;
    }
    forall i | 0 <= i < n ensures 1 <= PartNumber(results[i].0) <= MAX_PART_NUMBER {
      assert PartNumber(i) == i + 1;
    }
  }

  lemma PartsFaultless(n: nat)
    ensures FirstFault(PartResults(n)).None?
  {
    FirstFaultIs(PartResults(n));
  }

  lemma PartsNumbered(n: nat)
    requires 1 <= n <= MAX_PART_NUMBER
    ensures Numbered(Manifest(PartResults(n)), n)
  {
    PartsStoredAll(n);
    ManifestExact(PartResults(n));
  }

  lemma PartsEtag(n: nat, k: nat)
    requires k < n <= MAX_PART_NUMBER
    ensures k < |Manifest(PartResults(n))| && Manifest(PartResults(n))[k].1 == 0
  {
    PartsStoredAll(n);
    ManifestEntry(PartResults(n), k);
  }

  lemma PartsGood(n: nat)
    requires 1 <= n <= MAX_PART_NUMBER
    ensures FirstFault(PartResults(n)).None?
    ensures var manifest := Manifest(PartResults(n));
      Numbered(manifest, n) && forall k :: 0 <= k < n ==> manifest[k].1 == 0
  {
    PartsFaultless(n);
    PartsNumbered(n);
    forall k | 0 <= k < n ensures Manifest(PartResults(n))[k].1 == 0 {
      PartsEtag(n, k);
    }
  }

  lemma FinishRequest(c: S3Config, body: Bytes, results: seq<(nat, Reply)>)
    requires Sound(c) && FirstFault(results).None?
    ensures RequestOf(c, Put("", body), RFinish(0, results), 0) == CompleteUpload("", 0, Manifest(results))
  {
  }

  lemma CompleteNext(s: System, c: S3Config, body: Bytes)
    requires Completing(s, c, body)
    ensures CanSend(s, 0)
    ensures var st := s.ops[0].stage;
      st.win.next == 0 && st.round == RFinish(0, PartResults(DivCeil(|body|, c.chunkSize)))
  {
  }

  /** The request for Complete finds every part with its etag. */
  lemma CompleteReady(s: System, c: S3Config, body: Bytes)
    requires Completing(s, c, body)
    ensures CanSend(s, 0) && NextRequest(s, 0).CompleteUpload? && EtagsStand(s.store, NextRequest(s, 0))
  {
    var n := DivCeil(|body|, c.chunkSize);
    CompleteNext(s, c, body);
    PartsGood(n);
    FinishRequest(c, body, PartResults(n));
    EtagsThere(s.store, Manifest(PartResults(n)), n);
  }

  lemma EtagsThere(sv: Store, manifest: seq<(int, nat)>, n: nat)
    requires Holds(sv, n) && Numbered(manifest, n) && forall k :: 0 <= k < n ==> manifest[k].1 == 0
    ensures EtagsStand(sv, CompleteUpload("", 0, manifest))
  {
  }

  /** Complete is sent and stores the body. */
  lemma Completes(r: Run, c: S3Config, body: Bytes) returns (r': Run)
    requires Valid(r) && Completing(r.s, c, body) && map["" := body] in r.past
    ensures Valid(r') && SameStart(r, r') && Formed(r'.s) && |r'.s.ops| == 1 && ConfigOf(r'.s, 0) == c
    ensures r'.s.ops[0].kind == Put("", body) && r'.s.store.objects == map["" := body]
    ensures var st := r'.s.ops[0].stage;
      && st.Busy? && st.win.Complete() && st.win.done != [] && After(st.round, st.win.done) == Return(Ok(Unit))
      && HalfAt(r'.s, 0).In(st.ticket, Pool.Counted)
  {
    CompleteReady(r.s, c, body);
    var r1 := Send(r, 0);
    CompleteAccepted(r.clients, r.initial, r1.es, r1.s, 0, |r.s.ops[0].mail|, Serve(Some(0)));
    r' := Exchange(r, 0);
    CompleteReply(r.s, r'.s, c, body);
  }

  lemma CompleteReply(s: System, s': System, c: S3Config, body: Bytes)
    requires Completing(s, c, body) && CanSend(s, 0) && Exchanges(s, s', 0, s'.store, Done)
    ensures var st := s'.ops[0].stage;
      st.Busy? && st.win.Complete() && st.win.done != [] && After(st.round, st.win.done) == Return(Ok(Unit))
  {
    PartsGood(DivCeil(|body|, c.chunkSize));
  }

  lemma MultipartPut(c: S3Config, body: Bytes) returns (r: Run)
    requires Sound(c) && Puttable(c, body) && |body| > c.multipartThreshold
    ensures Valid(r) && r.clients == [c] && Succeeded(r.s, 0, c, body) && r.s.store.objects == map["" := body]
  {
    var r1 := PutBegins(c, body);
    var r2 := Created(r1, c, body);
    var r3 := AllSent(r2, c, body, 0);
    var r4 := AllSettled(r3, c, body);
    var r5 := Completes(r4, c, body);
    r := PutEnds(r5, c, body);
  }

  /** Which puts can succeed: for every configuration and every body some run has
      a put of it that returns `Ok`, exactly when the permits it reserves fit the
      write half and, above the threshold, it needs at most 10,000 chunks. */
  lemma PutsIff(c: S3Config, body: Bytes)
    requires Sound(c)
    ensures CanPut(c, body) <==> Puttable(c, body)
  {
    if CanPut(c, body) {
      var clients, initial, es, s, i :| Reaches(clients, initial, es, s) && Succeeded(s, i, c, body);
      SucceededFits(clients, initial, es, s, i, c, body);
    }
    if Puttable(c, body) {
      var r: Run;
      if |body| <= c.multipartThreshold {
        r := SimplePut(c, body);
      } else {
        r := MultipartPut(c, body);
      }
      assert Reaches(r.clients, r.initial, r.es, r.s);
    }
  }
}
