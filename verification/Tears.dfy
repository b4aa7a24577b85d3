/** Exactly when a get can return bytes that were never an object. */
module Tears {
  import opened Wrappers
  import opened Config
  import opened Split
  import opened Server
  import opened Program
  import opened Client
  import opened Manifests
  import opened Ownership
  import opened Atomicity
  import opened Reads
  import opened Versions
  import opened Payments
  import opened Scenarios
  import opened Deadlocks
  import Pool
  import Window

  // ---------- the property that fails ----------

  /** The get was planned with `total`, the length HEAD reported. */
  predicate PlannedWith(op: Op, total: nat) { op.last == Some(RGet(total)) || op.last == Some(RRanges(total)) }

  /** At no moment of the run was `v` the object under `k`. */
  ghost predicate NeverObject(s0: System, es: seq<Event>, k: Key, v: Bytes)
    requires Formed(s0)
  {
    forall q :: 0 <= q <= |es| ==> !ObjectAt(s0, es[..q], k, v)
  }

  /** In the run `es` operation `i` returned data nobody ever stored. */
  ghost predicate Torn(clients: seq<S3Config>, initial: Objects, es: seq<Event>, s: System, i: nat) {
    && Reaches(clients, initial, es, s) && i < |s.ops| && ReturnedData(s.ops[i])
    && NeverObject(Init(clients, initial), es, s.ops[i].kind.key, s.ops[i].stage.out.payload.body)
  }

  /** Among any other clients, a client configured as `c` can have a get torn
      whose HEAD reported `total` bytes. */
  ghost predicate CanTear(c: S3Config, total: nat) {
    exists clients, initial, es, s, i ::
      Torn(clients, initial, es, s, i) && PlannedBy(s, i, c, total)
  }

  ghost predicate PlannedBy(s: System, i: nat, c: S3Config, total: nat) {
    Formed(s) && i < |s.ops| && ConfigOf(s, i) == c && PlannedWith(s.ops[i], total)
  }

  /** A ranged get of this client can get its permits at all. */
  predicate CanRange(c: S3Config) {
    1 <= c.readConnections && Pool.AsU32(c.readConcurrency) <= c.readConnections
  }

  // ---------- only a ranged get is torn ----------

  lemma TrueIsObject(s0: System, es: seq<Event>, i: nat, k: Key, v: Bytes)
    requires Formed(s0) && TrueDuring(s0, es, i, GetObject(k), Body(v))
    ensures !NeverObject(s0, es, k, v)
  {
    var q :| 0 <= q <= |es| && TrueAt(s0, es[..q], i, GetObject(k), Body(v));
    assert ObjectAt(s0, es[..q], k, v);
  }

  lemma TornIsRanged(clients: seq<S3Config>, initial: Objects, es: seq<Event>, s: System, i: nat, total: nat)
    requires Torn(clients, initial, es, s, i) && PlannedWith(s.ops[i], total)
    ensures Formed(s) && total > ConfigOf(s, i).multipartThreshold && CanRange(ConfigOf(s, i))
  {
    var op, s0 := s.ops[i], Init(clients, initial);
    GetReadsVersions(clients, initial, es, s, i);
    if op.last == Some(RGet(total)) {
      TrueIsObject(s0, es, i, op.kind.key, op.stage.out.payload.body);
    }
    RunPaid(clients, initial, es, s);
    RunSane(clients, initial, es, s);
    assert HonestAt(s, i);
  }

  // ---------- and every ranged get can be ----------

  /** The results of the first `j` ranges, in order. */
  function Fetched(v: Bytes, size: nat, j: nat): seq<(nat, Reply)>
    requires size > 0 && j <= DivCeil(|v|, size)
  {
    seq(j, k requires 0 <= k < j => (k, Body(Slice(v, size, k))))
  }

  /** Operation 0 has fetched the first `j` ranges of `v`, planned with its length,
      from an object that begins with `v`. */
  ghost predicate Fetching(s: System, c: S3Config, v: Bytes, stored: Bytes, j: nat) {
    && Formed(s) && s.ops != [] && ConfigOf(s, 0) == c && s.ops[0].kind == Get("")
    && s.store.objects == map["" := stored] && v <= stored && j <= DivCeil(|v|, c.chunkSize)
    && var op := s.ops[0];
       && op.last == Some(RRanges(|v|)) && op.stage.Busy? && op.stage.ask == AskRanges(|v|)
       && op.stage.round == RRanges(|v|)
       && op.stage.win == Window.Window(DivCeil(|v|, c.chunkSize), c.readConcurrency, j, {}, Fetched(v, c.chunkSize, j))
       && |op.mail| == op.stage.base + j
       && HalfAt(s, 0).In(op.stage.ticket, Pool.Counted)
  }

  lemma FetchReply(s: System, c: S3Config, v: Bytes, stored: Bytes, j: nat)
    requires Fetching(s, c, v, stored, j) && j < DivCeil(|v|, c.chunkSize)
    ensures CanSend(s, 0)
    ensures Execute(s.store, 0, NextRequest(s, 0), Serve(Some(0))) == (s.store, Body(Slice(v, c.chunkSize, j)))
  {
    var lo, hi := Lo(j, c.chunkSize), Hi(j, c.chunkSize, |v|);
    PieceBounds(|v|, c.chunkSize, j);
    assert RangeOf(stored, lo, hi - 1) == Some(stored[lo..hi]);
    assert stored[lo..hi] == v[lo..hi];
  }

  lemma FetchNext(r: Run, c: S3Config, v: Bytes, stored: Bytes, j: nat) returns (r': Run)
    requires Valid(r) && Fetching(r.s, c, v, stored, j) && j < DivCeil(|v|, c.chunkSize)
    requires map["" := stored] in r.past
    ensures Valid(r') && SameStart(r, r') && Fetching(r'.s, c, v, stored, j + 1)
  {
    FetchReply(r.s, c, v, stored, j);
    r' := Exchange(r, 0);
    FetchStep(r.s, r'.s, c, v, stored, j);
  }

  lemma FetchStep(s: System, s': System, c: S3Config, v: Bytes, stored: Bytes, j: nat)
    requires Fetching(s, c, v, stored, j) && j < DivCeil(|v|, c.chunkSize) && CanSend(s, 0) && Formed(s')
    requires Exchanges(s, s', 0, s.store, Body(Slice(v, c.chunkSize, j)))
    ensures Fetching(s', c, v, stored, j + 1)
  {
    assert Fetched(v, c.chunkSize, j) + [(j, Body(Slice(v, c.chunkSize, j)))] == Fetched(v, c.chunkSize, j + 1);
  }

  lemma {:induction false} FetchAll(r: Run, c: S3Config, v: Bytes, stored: Bytes, j: nat) returns (r': Run)
    requires Valid(r) && Fetching(r.s, c, v, stored, j)
    requires map["" := stored] in r.past
    ensures Valid(r') && SameStart(r, r') && Fetching(r'.s, c, v, stored, DivCeil(|v|, c.chunkSize))
    decreases DivCeil(|v|, c.chunkSize) - j
  {
    r' := r;
    if j < DivCeil(|v|, c.chunkSize) {
      r' := FetchNext(r, c, v, stored, j);
      r' := FetchAll(r', c, v, stored, j + 1);
    }
  }

  /** The pieces put together are `v`. */
  lemma FetchedAssembles(v: Bytes, size: nat)
    requires size > 0 && v != []
    ensures var done := Fetched(v, size, DivCeil(|v|, size));
      done != [] && After(RRanges(|v|), done) == Return(Ok(Data(v)))
  {
    var n := DivCeil(|v|, size);
    var done := Fetched(v, size, n);
    PieceCount(|v|, size, 0);
    FirstFaultIs(done);
    assert Window.Jobs(done) == seq(n, k requires 0 <= k < n => k);
    AssembleInOrder(done, Slices(v, size));
    Tiling(v, size);
  }

  /** The get returns, reports, and ends with what it put together. */
  lemma FetchEnds(r: Run, c: S3Config, v: Bytes, stored: Bytes) returns (r': Run)
    requires Sound(c) && Valid(r) && Fetching(r.s, c, v, stored, DivCeil(|v|, c.chunkSize)) && v != []
    ensures Valid(r') && SameStart(r, r') && Formed(r'.s) && r'.s.ops != []
    ensures ConfigOf(r'.s, 0) == c && r'.s.ops[0].kind == Get("") && r'.s.ops[0].last == Some(RRanges(|v|))
    ensures r'.s.ops[0].stage == Ended(Ok(Data(v)))
  {
    FetchedAssembles(v, c.chunkSize);
    var r1 := GoBack(r, 0);
    var r2 := GoDo(r1, 0, Finish);
    r' := GoDo(r2, 0, Drop);
  }

  const WRITER: S3Config := S3Config(MIN_CHUNK, USIZE_MAX, 2, 2, 1, 1, 30, 3)

  /** Between HEAD and the first range another client puts `stored`. */
  lemma Overtaken(c: S3Config, before: Bytes, stored: Bytes) returns (r: Run)
    requires Sound(c) && CanRange(c) && |before| > c.multipartThreshold && |before| <= |stored| <= USIZE_MAX
    ensures Valid(r) && r.clients == [c, WRITER] && r.initial == map["" := before]
    ensures r.past == {map["" := before], map["" := stored]}
    ensures Formed(r.s) && |r.s.ops| == 2 && ConfigOf(r.s, 0) == c && r.s.ops[0].kind == Get("")
    ensures r.s.ops[0].stage == Fresh(AskRanges(|before|)) && r.s.store.objects == map["" := stored]
    ensures HalfAt(r.s, 0).line == [] && HalfAt(r.s, 0).available == c.readConnections
  {
    var r1 := WriterCalled(c, before, stored);
    var r2 := Acquire(r1, 1);
    r := WriterPuts(r2, stored);
  }

  /** After HEAD, with the put just called. */
  lemma WriterCalled(c: S3Config, before: Bytes, stored: Bytes) returns (r: Run)
    requires Sound(c) && CanRange(c) && |before| > c.multipartThreshold && |stored| <= USIZE_MAX
    ensures Valid(r) && r.clients == [c, WRITER] && r.initial == map["" := before]
    ensures r.past == {map["" := before], map["" := stored]}
    ensures Formed(r.s) && r.s.clients == [c, WRITER] && |r.s.ops| == 2 && r.s.store.objects == map["" := before]
    ensures r.s.ops[0].client == 0 && r.s.ops[0].kind == Get("") && r.s.ops[0].stage == Fresh(AskRanges(|before|))
    ensures r.s.ops[1].client == 1 && r.s.ops[1].kind == Put("", stored)
    ensures r.s.ops[1].stage == Fresh(AskPut) && r.s.ops[1].mail == []
    ensures HalfAt(r.s, 0).line == [] && HalfAt(r.s, 0).available == c.readConnections
    ensures HalfAt(r.s, 1).line == [] && HalfAt(r.s, 1).available == 2
  {
    var r0 := HeadTells([c, WRITER], 0, before);
    var r1 := Widen(r0, {map["" := before], map["" := stored]});
    r := Called(r1, 1, Put("", stored));
  }

  /** The put, holding its permit, is handled. */
  lemma WriterPuts(r: Run, stored: Bytes) returns (r': Run)
    requires Valid(r) && Formed(r.s) && |r.s.ops| == 2 && ConfigOf(r.s, 1) == WRITER &&
        r.s.ops[1].kind == Put("", stored)
    requires r.s.ops[1].stage.Busy? && r.s.ops[1].stage.round == RPut && r.s.ops[1].stage.win == Window.Open(1, 1)
    requires r.s.ops[1].mail == [] && r.s.ops[1].stage.base == 0
    requires r.s.store.objects.Keys == {""} && map["" := stored] in r.past
    ensures Valid(r') && SameStart(r, r') && Formed(r'.s) && r'.s.clients == r.s.clients && r'.s.halves == r.s.halves
    ensures |r'.s.ops| == 2 && r'.s.ops[0] == r.s.ops[0] && r'.s.store.objects == map["" := stored]
  {
    PutReply(r.s, stored);
    r' := Exchange(r, 1);
  }

  lemma PutReply(s: System, stored: Bytes)
    requires Formed(s) && |s.ops| == 2 && s.ops[1].kind == Put("", stored) && CanSend(s, 1) &&
        s.ops[1].stage.round == RPut
    requires s.store.objects.Keys == {""}
    ensures Execute(s.store, 1, NextRequest(s, 1), Serve(Some(0))).0.objects == map["" := stored]
  {
  }

  /** The get now acquires its bulk permit and opens its window. */
  lemma Opened(r: Run, c: S3Config, total: nat, stored: Bytes) returns (r': Run)
    requires Valid(r) && Formed(r.s) && r.s.ops != [] && ConfigOf(r.s, 0) == c && CanRange(c)
    requires r.s.ops[0].kind == Get("") && r.s.ops[0].stage == Fresh(AskRanges(total))
    requires r.s.store.objects == map["" := stored] && total <= |stored|
    requires HalfAt(r.s, 0).line == [] && HalfAt(r.s, 0).available == c.readConnections
    ensures Valid(r') && SameStart(r, r') && Fetching(r'.s, c, stored[..total], stored, 0)
  {
    r' := Acquire(r, 0);
  }

  /** A whole run: HEAD, a put in between, all ranges, and the get's return. */
  lemma TornRun(c: S3Config, before: Bytes, stored: Bytes) returns (r: Run)
    requires Sound(c) && CanRange(c) && |before| > c.multipartThreshold && |before| <= |stored| <= USIZE_MAX
    ensures Valid(r) && Formed(r.s) && r.s.ops != [] && ConfigOf(r.s, 0) == c
    ensures r.past == {map["" := before], map["" := stored]}
    ensures r.s.ops[0].kind == Get("") && r.s.ops[0].last == Some(RRanges(|before|))
    ensures r.s.ops[0].stage == Ended(Ok(Data(stored[..|before|])))
  {
    var r1 := Overtaken(c, before, stored);
    var r2 := Opened(r1, c, |before|, stored);
    var r3 := FetchAll(r2, c, stored[..|before|], stored, 0);
    r := FetchEnds(r3, c, stored[..|before|], stored);
  }

  lemma NeitherVersion(r: Run, a: Bytes, b: Bytes, v: Bytes)
    requires Valid(r) && r.past == {map["" := a], map["" := b]} && v != a && v != b
    ensures NeverObject(Init(r.clients, r.initial), r.es, "", v)
  {
    forall q | 0 <= q <= |r.es| ensures !ObjectAt(Init(r.clients, r.initial), r.es[..q], "", v) {
      assert ObjectsAt(Init(r.clients, r.initial), r.es[..q], r.past);
      assert (map["" := a])[""] == a && (map["" := b])[""] == b;
    }
  }

  /** When a get can be torn. `meta.content_length` is an `i64`; for every length
      it can hold and every configuration: some run, with some other client, has
      a get whose HEAD said `total` and which returns data that was the object at
      no moment of the run, exactly when `total` is above the multipart threshold
      (the guard that selects the ranged download), and the client can complete a
      ranged download at all. */
  lemma TearsIff(c: S3Config, total: nat)
    requires Sound(c) && total <= I64_MAX
    ensures CanTear(c, total) <==> total > c.multipartThreshold && CanRange(c)
  {
    if CanTear(c, total) {
      var clients, initial, es, s, i :| Torn(clients, initial, es, s, i) && PlannedBy(s, i, c, total);
      TornIsRanged(clients, initial, es, s, i, total);
    }
    if total > c.multipartThreshold && CanRange(c) {
      var before: Bytes, stored: Bytes := seq(total, _ => 1), seq(total + 1, _ => 2);
      var r := TornRun(c, before, stored);
      var v := stored[..total];
      assert v[0] == 2 && before[0] == 1;
      NeitherVersion(r, before, stored, v);
      assert Torn(r.clients, r.initial, r.es, r.s, 0);
      assert PlannedBy(r.s, 0, c, total);
    }
  }
}
