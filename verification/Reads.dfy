/** What a get returns: the object, if it did not change underneath. */
module Reads {
  import opened Wrappers
  import opened Sequences
  import opened Config
  import opened Split
  import opened Server
  import opened Program
  import opened Sorting
  import opened Client
  import opened Shapes
  import opened Transcript
  import opened Ownership
  import opened Manifests
  import opened Atomicity
  import Window

  // ---------- reassembly ----------

  /** Job `j` brought back `pieces[j]`. */
  ghost predicate Brought(results: seq<(nat, Reply)>, pieces: seq<Bytes>) {
    && |results| == |pieces| && NoDuplicates(Window.Jobs(results))
    && forall i :: 0 <= i < |results| ==> results[i].0 < |pieces| && results[i].1 == Body(pieces[results[i].0])
  }

  lemma {:induction false} ReceivedAll(results: seq<(nat, Reply)>)
    requires forall i :: 0 <= i < |results| ==> results[i].1.Body?
    ensures |Received(results)| == |results|
    ensures forall i :: 0 <= i < |results| ==> Received(results)[i] == (results[i].0, results[i].1.bytes)
  {
    if results != [] {
      ReceivedAll(results[..|results| - 1]);
    }
  }

  lemma ReceivedKeys(results: seq<(nat, Reply)>, pieces: seq<Bytes>)
    requires Brought(results, pieces)
    ensures |Received(results)| == |pieces| && KeysAre(Received(results), 0)
    ensures forall i :: 0 <= i < |results| ==> Received(results)[i] == (results[i].0, pieces[results[i].0])
  {
    ReceivedAll(results);
    forall i, j | 0 <= i < j < |results| ensures results[i].0 != results[j].0 {
      assert Window.Jobs(results)[i] != Window.Jobs(results)[j];
    }
  }

  /** Whatever order the ranges complete in, the result is the pieces in index order. */
  lemma AssembleInOrder(results: seq<(nat, Reply)>, pieces: seq<Bytes>)
    requires Brought(results, pieces)
    ensures Assemble(results) == Concat(pieces)
  {
    ReceivedKeys(results, pieces);
    ChunksInOrder(Received(results), pieces);
  }

  /** Pieces tagged with their index come out in index order. */
  lemma ChunksInOrder(xs: seq<(int, Bytes)>, pieces: seq<Bytes>)
    requires |xs| == |pieces| && KeysAre(xs, 0) && forall i :: 0 <= i < |xs| ==> xs[i].1 == pieces[xs[i].0]
    ensures Chunks(SortByKey(xs)) == pieces
  {
    forall k | 0 <= k < |xs| ensures SortByKey(xs)[k].1 == pieces[k] {
      PieceLands(xs, pieces, k);
    }
  }

  lemma PieceLands(xs: seq<(int, Bytes)>, pieces: seq<Bytes>, k: nat)
    requires k < |xs| == |pieces| && KeysAre(xs, 0) && forall i :: 0 <= i < |xs| ==> xs[i].1 == pieces[xs[i].0]
    ensures SortByKey(xs)[k].1 == pieces[k]
  {
    var m := PlaceOf(xs, 0, k);
  }

  /** Ranges answered from two versions of equal length splice them: without a
      version check the bytes of one object can end in those of another, and the
      result is either version only where the two agree. */
  lemma TornRead(results: seq<(nat, Reply)>, old': Bytes, new': Bytes, size: nat, m: nat)
    requires size > 0 && |old'| == |new'| && m <= DivCeil(|old'|, size)
    requires Brought(results, Slices(old', size)[..m] + Slices(new', size)[m..])
    ensures var k := Min(m * size, |old'|);
      && Assemble(results) == old'[..k] + new'[k..]
      && (Assemble(results) == old' <==> old'[k..] == new'[k..])
      && (Assemble(results) == new' <==> old'[..k] == new'[..k])
  {
    var a, b := Slices(old', size), Slices(new', size);
    AssembleInOrder(results, a[..m] + b[m..]);
    ConcatSplit(a[..m], b[m..]);
    ConcatSplit(b[..m], b[m..]);
    assert b[..m] + b[m..] == b;
    PrefixTiles(old', size, m);
    PrefixTiles(new', size, m);
    Tiling(new', size);
    var k := Min(m * size, |old'|);
    SplitsAt(old', new', k);
  }

  /** A splice is one of the two versions only where they agree. */
  lemma SplitsAt(a: Bytes, b: Bytes, k: nat)
    requires k <= |a| == |b|
    ensures a[..k] + b[k..] == a <==> a[k..] == b[k..]
    ensures a[..k] + b[k..] == b <==> a[..k] == b[..k]
  {
    var s := a[..k] + b[k..];
    assert s[..k] == a[..k] && s[k..] == b[k..];
    assert a == a[..k] + a[k..] && b == b[..k] + b[k..];
  }

  lemma {:induction false} ConcatSplit(xs: seq<Bytes>, ys: seq<Bytes>)
    ensures Concat(xs + ys) == Concat(xs) + Concat(ys)
  {
    if ys == [] {
      assert xs + ys == xs;
    } else {
      var last := |ys| - 1;
      ConcatSplit(xs, ys[..last]);
      assert (xs + ys)[..|xs| + last] == xs + ys[..last];
    }
  }

  // ---------- a get while its object stands still ----------

  /** Everything operation `op` was told about its key is true of `v`. */
  ghost predicate Saw(op: Op, v: Bytes) {
    forall l, r :: 0 <= l < |op.mail| && r in op.mail[l].replies ==> SawReply(op.mail[l].req, r, v)
  }

  predicate SawReply(req: Request, r: Reply, v: Bytes) {
    && (req.HeadObject? && r.Length? && r.length.Some? ==> r.length.value == |v|)
    && (req.GetObject? && r.Body? ==> r.bytes == v)
    && (req.GetRange? && r.Body? ==> RangeOf(v, req.first, req.last) == Some(r.bytes))
  }

  /** All requests of a get are for its own key. */
  ghost predicate AboutKey(op: Op)
    requires op.kind.Get?
  {
    forall l :: 0 <= l < |op.mail| ==>
      match op.mail[l].req
      case HeadObject(k) => k == op.kind.key
      case GetObject(k) => k == op.kind.key
      case GetRange(k, _, _) => k == op.kind.key
      case _ => false
  }

  lemma ApplyKeepsSaw(s: System, e: Event, i: nat, v: Bytes)
    requires Formed(s) && Enabled(s, e) && i < |Apply(s, e).ops| && Apply(s, e).ops[i].kind.Get?
    requires i < |s.ops| ==> Saw(s.ops[i], v) && AboutKey(s.ops[i])
    requires Apply(s, e).ops[i].kind.key in s.store.objects && s.store.objects[Apply(s, e).ops[i].kind.key] == v
    ensures Saw(Apply(s, e).ops[i], v) && AboutKey(Apply(s, e).ops[i])
  {
    if i < |s.ops| && e.Do? && e.op == i && e.act.Launch? {
      LaunchKeepsSaw(ConfigOf(s, i), s.ops[i], v);
    } else if i < |s.ops| && e.Deliver? && e.op == i {
      DeliveryKeepsSaw(s.store, i, s.ops[i], e.letter, e.choice, v);
    }
  }

  lemma LaunchKeepsSaw(c: S3Config, op: Op, v: Bytes)
    requires Sound(c) && OpEnabled(c, op, Launch) && op.kind.Get? && Saw(op, v) && AboutKey(op)
    ensures forall ticket, clock ::
      Saw(OpApply(c, op, Launch, ticket, clock), v) && AboutKey(OpApply(c, op, Launch, ticket, clock))
  {
  }

  lemma DeliveryKeepsSaw(s: Store, i: nat, op: Op, l: nat, choice: Choice, v: Bytes)
    requires op.kind.Get? && Saw(op, v) && AboutKey(op) && l < |op.mail| && op.mail[l].left > 0
    requires op.kind.key in s.objects && s.objects[op.kind.key] == v
    ensures var op' := op.(mail := op.mail[l := Answer(op.mail[l], Execute(s, i, op.mail[l].req, choice).1)]);
      Saw(op', v) && AboutKey(op')
  {
  }

  ghost predicate ObjectAt(s0: System, es: seq<Event>, k: Key, v: Bytes)
    requires Formed(s0)
  {
    Exec(s0, es).Some? && k in Exec(s0, es).value.store.objects && Exec(s0, es).value.store.objects[k] == v
  }

  /** From step `m` of the run on, the object under `k` is `v`. */
  ghost predicate Unchanged(s0: System, es: seq<Event>, m: nat, k: Key, v: Bytes)
    requires Formed(s0)
  {
    forall q :: m <= q <= |es| ==> ObjectAt(s0, es[..q], k, v)
  }

  lemma {:induction false} RunSaw(s0: System, es: seq<Event>, m: nat, i: nat, v: Bytes)
    requires Formed(s0) && m <= |es| && Exec(s0, es[..m]).Some? && Exec(s0, es).Some?
    requires |Exec(s0, es[..m]).value.ops| <= i < |Exec(s0, es).value.ops|
    requires Exec(s0, es).value.ops[i].kind.Get?
    requires Unchanged(s0, es, m, Exec(s0, es).value.ops[i].kind.key, v)
    ensures Saw(Exec(s0, es).value.ops[i], v) && AboutKey(Exec(s0, es).value.ops[i])
    decreases |es|
  {
    assert es[..|es|] == es;
    if m < |es| {
      var init, e := es[..|es| - 1], es[|es| - 1];
      var s := Exec(s0, init).value;
      assert init[..m] == es[..m];
      StandsBefore(s0, es, m, Exec(s0, es).value.ops[i].kind.key, v);
      if i < |s.ops| {
        KindKept(s, e, i);
        RunSaw(s0, init, m, i, v);
      }
      ApplyKeepsSaw(s, e, i, v);
    }
  }

  lemma KindKept(s: System, e: Event, i: nat)
    requires Formed(s) && Enabled(s, e) && i < |s.ops|
    ensures i < |Apply(s, e).ops| && Apply(s, e).ops[i].kind == s.ops[i].kind
  {
  }

  lemma StandsBefore(s0: System, es: seq<Event>, m: nat, k: Key, v: Bytes)
    requires Formed(s0) && m < |es| && Unchanged(s0, es, m, k, v)
    ensures Unchanged(s0, es[..|es| - 1], m, k, v) && ObjectAt(s0, es[..|es| - 1], k, v)
  {
    var init := es[..|es| - 1];
    forall q | m <= q <= |init| ensures ObjectAt(s0, init[..q], k, v) {
      assert init[..q] == es[..q];
    }
    assert init[..|init|] == init;
  }

  /** A finished get whose replies were all true of `v` returns `v`. */
  lemma ConcludedGet(c: S3Config, owners: seq<nat>, i: nat, op: Op, v: Bytes)
    requires Sound(c) && Honest(c, owners, i, op) && ReturnedData(op) && Saw(op, v)
    ensures op.stage.out.payload.body == v
  {
    var round := op.last.value;
    var done: seq<(nat, Reply)> :| Concludes(c, op.kind, op.mail, round, done, op.stage.out);
    if round.RGet? {
      OnlyResult(c, op.kind, op.mail, round, done);
      assert LetterOk(c, owners, i, op.kind, op.mail[1]);
      assert SawReply(op.mail[1].req, done[0].1, v);
    } else {
      HeadLength(c, op, v);
      ConcludedRanges(c, op, v, done);
    }
  }

  lemma ConcludedRanges(c: S3Config, op: Op, v: Bytes, done: seq<(nat, Reply)>)
    requires Sound(c) && op.kind.Get? && Saw(op, v) && RepliesFit(op.mail)
    requires Reqs(op.mail) == Through(c, op.kind, RRanges(|v|))
    requires ResultsOf(c, op.kind, op.mail, RRanges(|v|), done) && FirstFault(done).None?
    ensures Assemble(done) == v
  {
    FirstFaultIs(done);
    forall k | 0 <= k < |done| ensures done[k].0 < DivCeil(|v|, c.chunkSize) &&
        done[k].1 == Body(Slice(v, c.chunkSize, done[k].0)) {
      RangeResult(c, op, v, done, k);
    }
    AssembleInOrder(done, Slices(v, c.chunkSize));
    Tiling(v, c.chunkSize);
  }

  lemma HeadLength(c: S3Config, op: Op, v: Bytes)
    requires Sound(c) && Shape(c, op) && OnScript(c, op) && Sourced(c, op) && op.kind.Get? && Saw(op, v)
    requires op.stage.Ended? && !op.stage.out.Cancelled? && op.last.Some? && op.last.value.RRanges?
    ensures op.last.value.total == |v|
  {
    assert Reqs(op.mail)[0] == Through(c, op.kind, op.last.value)[0] == HeadObject(op.kind.key);
    assert SawReply(op.mail[0].req, Length(Some(op.last.value.total)), v);
  }

  lemma RangeResult(c: S3Config, op: Op, v: Bytes, done: seq<(nat, Reply)>, k: nat)
    requires Sound(c) && op.kind.Get? && Saw(op, v) && RepliesFit(op.mail)
    requires Reqs(op.mail) == Through(c, op.kind, RRanges(|v|))
    requires ResultsOf(c, op.kind, op.mail, RRanges(|v|), done) && k < |done| && FaultOf(done[k].1).None?
    ensures done[k].0 < DivCeil(|v|, c.chunkSize) && done[k].1 == Body(Slice(v, c.chunkSize, done[k].0))
  {
    var round, j := RRanges(|v|), done[k].0;
    assert j < |done| by {
      assert Window.Jobs(done)[k] == j;
      assert j in Window.Jobs(done);
    }
    assert GotReply(op.mail, 1, done[k]);
    LetterOfJob(c, op.kind, op.mail, round, JobCount(c, op.kind, round), j);
    assert SawReply(op.mail[1 + j].req, done[k].1, v);
    RangeDenotesPiece(v, c.chunkSize, j);
  }

  predicate ReturnedData(op: Op) { op.kind.Get? && op.stage.Ended? && op.stage.out.Ok? && op.stage.out.payload.Data? }

  /** After the run `es` operation `i` is still to come. */
  ghost predicate NotYetCalled(s0: System, es: seq<Event>, i: nat)
    requires Formed(s0)
  {
    Exec(s0, es).Some? && |Exec(s0, es).value.ops| <= i
  }

  /** In every run, a get that returns data returns exactly the object, whole,
      whichever path its size selected and in whatever order its ranges
      completed, provided the object did not change from before its call to its
      return. */
  lemma GetReturnsObject(clients: seq<S3Config>, initial: map<Key, Bytes>, es: seq<Event>, s: System, m: nat, i: nat,
                         v: Bytes)
    requires Reaches(clients, initial, es, s) && i < |s.ops| && ReturnedData(s.ops[i])
    requires m <= |es| && NotYetCalled(Init(clients, initial), es[..m], i)
    requires Unchanged(Init(clients, initial), es, m, s.ops[i].kind.key, v)
    ensures s.ops[i].stage.out.payload.body == v
  {
    RunSane(clients, initial, es, s);
    assert HonestAt(s, i);
    RunSaw(Init(clients, initial), es, m, i, v);
    ConcludedGet(ConfigOf(s, i), s.store.owners, i, s.ops[i], v);
  }

  /** Round trip: the writer and the reader may be different clients with
      different chunk sizes, thresholds and concurrencies. A put that returned
      `Ok` was stored at some step `q` of the run; a get of its key called after
      that, the object unchanged meanwhile, returns exactly the put's body. */
  lemma RoundTrip(clients: seq<S3Config>, initial: map<Key, Bytes>, es: seq<Event>, s: System, p: nat, i: nat)
    requires Reaches(clients, initial, es, s) && p < |s.ops| && i < |s.ops|
    requires s.ops[p].kind.Put? && s.ops[p].stage == Ended(Ok(Unit))
    requires s.ops[i].kind == Get(s.ops[p].kind.key) && ReturnedData(s.ops[i])
    ensures exists q :: 0 <= q <= |es| && StoredAt(Init(clients, initial), es[..q], p)
    ensures forall q, m ::
      (0 <= q <= m <= |es| && StoredAt(Init(clients, initial), es[..q], p)
       && NotYetCalled(Init(clients, initial), es[..m], i)
       && Unchanged(Init(clients, initial), es, q, s.ops[p].kind.key, s.ops[p].kind.body)
       ==> s.ops[i].stage.out.payload.body == s.ops[p].kind.body)
  {
    OkPutWasStored(clients, initial, es, s, p);
    var s0, v := Init(clients, initial), s.ops[p].kind.body;
    forall q, m | 0 <= q <= m <= |es| && StoredAt(s0, es[..q], p) && NotYetCalled(s0, es[..m], i)
      && Unchanged(s0, es, q, s.ops[p].kind.key, v)
      ensures s.ops[i].stage.out.payload.body == v
    {
      GetReturnsObject(clients, initial, es, s, m, i, v);
    }
  }
}
