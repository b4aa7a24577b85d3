/** What a get returns when its object is written meanwhile. */
module Versions {
  import opened Wrappers
  import opened Sequences
  import opened Config
  import opened Split
  import opened Server
  import opened Program
  import opened Sorting
  import opened Client
  import opened Transcript
  import opened Ownership
  import opened Manifests
  import opened Atomicity
  import opened Reads
  import Window

  /** `r` tells the truth about the objects. */
  predicate TrueOf(objects: map<Key, Bytes>, req: Request, r: Reply) {
    match req
    case HeadObject(k) => r.Length? ==> k in objects && (r.length.Some? ==> |objects[k]| == r.length.value)
    case GetObject(k) => r.Body? ==> k in objects && objects[k] == r.bytes
    case GetRange(k, first, last) => r.Body? ==> k in objects && RangeOf(objects[k], first, last) == Some(r.bytes)
    case _ => true
  }

  ghost predicate TrueAt(s0: System, es: seq<Event>, i: nat, req: Request, r: Reply)
    requires Formed(s0)
  {
    && Exec(s0, es).Some? && i < |Exec(s0, es).value.ops|
    && !Exec(s0, es).value.ops[i].stage.Ended?
    && TrueOf(Exec(s0, es).value.store.objects, req, r)
  }

  /** At some moment of the run, with operation `i` under way, `r` was the truth. */
  ghost predicate TrueDuring(s0: System, es: seq<Event>, i: nat, req: Request, r: Reply)
    requires Formed(s0)
  {
    exists q :: 0 <= q <= |es| && TrueAt(s0, es[..q], i, req, r)
  }

  lemma TrueEarlier(s0: System, es: seq<Event>, i: nat, req: Request, r: Reply)
    requires Formed(s0) && es != [] && TrueDuring(s0, es[..|es| - 1], i, req, r)
    ensures TrueDuring(s0, es, i, req, r)
  {
    var init := es[..|es| - 1];
    var q :| 0 <= q <= |init| && TrueAt(s0, init[..q], i, req, r);
    assert init[..q] == es[..q];
  }

  /** Every reply an unfinished operation was given was true when it was made,
      and it was made since the operation was called. */
  lemma {:induction false} RepliesWereTrue(s0: System, es: seq<Event>, i: nat, l: nat, r: Reply)
    requires Formed(s0) && s0.ops == [] && Exec(s0, es).Some? && i < |Exec(s0, es).value.ops|
    requires !Exec(s0, es).value.ops[i].stage.Ended?
    requires l < |Exec(s0, es).value.ops[i].mail| && r in Exec(s0, es).value.ops[i].mail[l].replies
    ensures TrueDuring(s0, es, i, Exec(s0, es).value.ops[i].mail[l].req, r)
  {
    var init, e := es[..|es| - 1], es[|es| - 1];
    var s, req := Exec(s0, init).value, Exec(s0, es).value.ops[i].mail[l].req;
    if i < |s.ops| && l < |s.ops[i].mail| && s.ops[i].mail[l].req == req && r in s.ops[i].mail[l].replies {
      assert !s.ops[i].stage.Ended?;
      RepliesWereTrue(s0, init, i, l, r);
      TrueEarlier(s0, es, i, req, r);
    } else {
      NewReplyIsDelivered(s, e, i, l, r);
      assert TrueAt(s0, es[..|es| - 1], i, req, r);
    }
  }

  // ---------- one version, or a splice of versions ----------

  /** The request for bytes `Lo(j)` to `Hi(j)`, the last one excluded. */
  function PieceRequest(key: Key, size: nat, total: nat, j: nat): Request
    requires size > 0 && j < DivCeil(total, size)
  {
    PieceBounds(total, size, j);
    GetRange(key, Lo(j, size), Hi(j, size, total) - 1)
  }

  /** The body is a row of pieces at the planned ranges, each read from the
      object as it was at some moment of the run. */
  ghost predicate Spliced(s0: System, es: seq<Event>, i: nat, key: Key, size: nat, total: nat, body: Bytes)
    requires Formed(s0) && size > 0
  {
    exists pieces :: Pieced(s0, es, i, key, size, total, pieces) && Concat(pieces) == body
  }

  ghost predicate Pieced(s0: System, es: seq<Event>, i: nat, key: Key, size: nat, total: nat, pieces: seq<Bytes>)
    requires Formed(s0) && size > 0
  {
    && |pieces| == DivCeil(total, size)
    && forall j :: 0 <= j < |pieces| ==>
         TrueDuring(s0, es, i, PieceRequest(key, size, total, j), Body(pieces[j]))
  }

  ghost predicate ReadFrom(s0: System, es: seq<Event>, i: nat, c: S3Config, op: Op, body: Bytes)
    requires Formed(s0) && Sound(c) && op.kind.Get?
  {
    && op.last.Some?
    && match op.last.value
       case RGet(total) =>
         && total <= c.multipartThreshold
         && TrueDuring(s0, es, i, GetObject(op.kind.key), Body(body))
       case RRanges(total) =>
         && total > c.multipartThreshold
         && TrueDuring(s0, es, i, HeadObject(op.kind.key), Length(Some(total)))
         && Spliced(s0, es, i, op.kind.key, c.chunkSize, total, body)
       case _ => false
  }

  /** The pieces a ranged download puts in order. */
  function Ordered(done: seq<(nat, Reply)>): seq<Bytes> { Chunks(SortByKey(Received(done))) }

  lemma ReceivedKeyed(done: seq<(nat, Reply)>)
    requires NoDuplicates(Window.Jobs(done)) && forall j :: 0 <= j < |done| <==> j in Window.Jobs(done)
    requires forall i :: 0 <= i < |done| ==> done[i].1.Body?
    ensures |Received(done)| == |done| && KeysAre(Received(done), 0)
    ensures forall i :: 0 <= i < |done| ==> Received(done)[i] == (done[i].0, done[i].1.bytes)
  {
    ReceivedAll(done);
    DistinctJobs(done);
  }

  lemma OrderedAt(done: seq<(nat, Reply)>, k: nat)
    requires NoDuplicates(Window.Jobs(done)) && forall j :: 0 <= j < |done| <==> j in Window.Jobs(done)
    requires k < |done| && forall i :: 0 <= i < |done| ==> done[i].1.Body?
    ensures |Ordered(done)| == |done| && done[k].0 < |done| && Ordered(done)[done[k].0] == done[k].1.bytes
  {
    ReceivedKeyed(done);
    ChunkAt(Received(done), k);
  }

  lemma ChunkAt(xs: seq<(int, Bytes)>, k: nat)
    requires KeysAre(xs, 0) && k < |xs|
    ensures 0 <= xs[k].0 < |xs| == |Chunks(SortByKey(xs))| && Chunks(SortByKey(xs))[xs[k].0] == xs[k].1
  {
    SortPlaces(xs, 0, k, xs[k].0);
  }

  /** In a ranged download that met no fault, every result is the body of its own range. */
  lemma RangeReply(c: S3Config, kind: Kind, mail: seq<Letter>, total: nat, done: seq<(nat, Reply)>, k: nat)
    requires Sound(c) && kind.Get? && ResultsOf(c, kind, mail, RRanges(total), done) && k < |done|
    requires Reqs(mail) == Through(c, kind, RRanges(total)) && RepliesFit(mail) && FaultOf(done[k].1).None?
    ensures var j := done[k].0;
      && j < |done| && 1 + j < |mail| && done[k].1.Body? && done[k].1 in mail[1 + j].replies
      && mail[1 + j].req == PieceRequest(kind.key, c.chunkSize, total, j)
  {
    var j := done[k].0;
    assert j < |done| by {
      assert Window.Jobs(done)[k] == j;
      assert j in Window.Jobs(done);
    }
    assert GotReply(mail, 1, done[k]);
    LetterOfJob(c, kind, mail, RRanges(total), |done|, j);
    PieceBounds(total, c.chunkSize, j);
  }

  /** Piece `j` of the result was a reply to the request for range `j`. */
  lemma PieceSource(c: S3Config, kind: Kind, mail: seq<Letter>, total: nat, done: seq<(nat, Reply)>, j: nat)
    requires Sound(c) && kind.Get? && ResultsOf(c, kind, mail, RRanges(total), done) && j < |done|
    requires Reqs(mail) == Through(c, kind, RRanges(total)) && RepliesFit(mail)
    requires forall k :: 0 <= k < |done| ==> FaultOf(done[k].1).None?
    ensures |Ordered(done)| == |done| && 1 + j < |mail| && Body(Ordered(done)[j]) in mail[1 + j].replies
    ensures mail[1 + j].req == PieceRequest(kind.key, c.chunkSize, total, j)
  {
    forall k | 0 <= k < |done| ensures done[k].1.Body? {
      RangeReply(c, kind, mail, total, done, k);
    }
    assert j in Window.Jobs(done);
    var k := Find(Window.Jobs(done), j);
    OrderedAt(done, k);
    RangeReply(c, kind, mail, total, done, k);
  }

  lemma RangesSplice(s0: System, es: seq<Event>, i: nat, c: S3Config, op: Op, total: nat, done: seq<(nat, Reply)>)
    requires Formed(s0) && s0.ops == [] && Exec(s0, es).Some? && i < |Exec(s0, es).value.ops|
    requires op == Exec(s0, es).value.ops[i] && !op.stage.Ended? && op.kind.Get? && Sound(c)
    requires ResultsOf(c, op.kind, op.mail, RRanges(total), done)
    requires Reqs(op.mail) == Through(c, op.kind, RRanges(total)) && RepliesFit(op.mail)
    requires done != [] && forall k :: 0 <= k < |done| ==> FaultOf(done[k].1).None?
    ensures Spliced(s0, es, i, op.kind.key, c.chunkSize, total, Assemble(done))
  {
    PieceSource(c, op.kind, op.mail, total, done, 0);
    forall j | 0 <= j < |done|
      ensures TrueDuring(s0, es, i, PieceRequest(op.kind.key, c.chunkSize, total, j), Body(Ordered(done)[j]))
    {
      PieceSource(c, op.kind, op.mail, total, done, j);
      RepliesWereTrue(s0, es, i, 1 + j, Body(Ordered(done)[j]));
    }
    assert Pieced(s0, es, i, op.kind.key, c.chunkSize, total, Ordered(done));
  }

  /** A get about to return data read what it returns. */
  lemma LeavingRead(s0: System, es: seq<Event>, owners: seq<nat>, i: nat, c: S3Config, op: Op)
    requires Formed(s0) && s0.ops == [] && Exec(s0, es).Some? && i < |Exec(s0, es).value.ops|
    requires op == Exec(s0, es).value.ops[i] && Sound(c) && Honest(c, owners, i, op)
    requires op.kind.Get? && op.stage.Leaving? && op.stage.out.Ok? && op.stage.out.payload.Data?
    ensures ReadFrom(s0, es, i, c, op, op.stage.out.payload.body)
  {
    var round := op.last.value;
    var done: seq<(nat, Reply)> :| Concludes(c, op.kind, op.mail, round, done, op.stage.out);
    if round.RGet? {
      OnlyResult(c, op.kind, op.mail, round, done);
      assert LetterOk(c, owners, i, op.kind, op.mail[1]);
      RepliesWereTrue(s0, es, i, 1, done[0].1);
    } else {
      FirstFaultIs(done);
      RangesSplice(s0, es, i, c, op, round.total, done);
      HeadRead(s0, es, i, c, op, round.total);
    }
  }

  lemma HeadRead(s0: System, es: seq<Event>, i: nat, c: S3Config, op: Op, total: nat)
    requires Formed(s0) && s0.ops == [] && Exec(s0, es).Some? && i < |Exec(s0, es).value.ops|
    requires op == Exec(s0, es).value.ops[i] && Sound(c) && OnScript(c, op) && Sourced(c, op)
    requires op.kind.Get? && op.stage.Leaving? && op.stage.out.Ok? && op.last == Some(RRanges(total)) && total > 0
    ensures TrueDuring(s0, es, i, HeadObject(op.kind.key), Length(Some(total)))
  {
    assert Reqs(op.mail)[0] == Through(c, op.kind, op.last.value)[0] == HeadObject(op.kind.key);
    RepliesWereTrue(s0, es, i, 0, Length(Some(total)));
  }

  // ---------- every get that returns data ----------

  lemma LastRead(s: System, e: Event, i: nat)
    requires Formed(s) && Enabled(s, e) && i < |Apply(s, e).ops|
    requires var op := Apply(s, e).ops[i]; op.kind.Get? && op.stage.Ended? && op.stage.out.Ok?
    ensures i < |s.ops| && s.ops[i].kind == Apply(s, e).ops[i].kind && s.ops[i].last == Apply(s, e).ops[i].last
    ensures ConfigOf(s, i) == ConfigOf(Apply(s, e), i)
    ensures (s.ops[i].stage.Ended? || s.ops[i].stage.Leaving?) && s.ops[i].stage.out == Apply(s, e).ops[i].stage.out
  {
  }

  lemma PiecedEarlier(s0: System, es: seq<Event>, i: nat, key: Key, size: nat, total: nat, pieces: seq<Bytes>)
    requires Formed(s0) && size > 0 && es != [] && Pieced(s0, es[..|es| - 1], i, key, size, total, pieces)
    ensures Pieced(s0, es, i, key, size, total, pieces)
  {
    forall j | 0 <= j < |pieces|
      ensures TrueDuring(s0, es, i, PieceRequest(key, size, total, j), Body(pieces[j]))
    {
      TrueEarlier(s0, es, i, PieceRequest(key, size, total, j), Body(pieces[j]));
    }
  }

  lemma ReadEarlier(s0: System, es: seq<Event>, i: nat, c: S3Config, op: Op, op': Op, body: Bytes)
    requires Formed(s0) && Sound(c) && op.kind.Get? && es != [] && ReadFrom(s0, es[..|es| - 1], i, c, op, body)
    requires op'.kind == op.kind && op'.last == op.last
    ensures ReadFrom(s0, es, i, c, op', body)
  {
    var init := es[..|es| - 1];
    if op.last.value.RGet? {
      TrueEarlier(s0, es, i, GetObject(op.kind.key), Body(body));
    } else {
      var size, total := c.chunkSize, op.last.value.total;
      TrueEarlier(s0, es, i, HeadObject(op.kind.key), Length(Some(total)));
      var pieces :| Pieced(s0, init, i, op.kind.key, size, total, pieces) && Concat(pieces) == body;
      PiecedEarlier(s0, es, i, op.kind.key, size, total, pieces);
    }
  }

  /** Every get that returns data, whatever is written meanwhile: on the simple
      path the data is the whole object as it was at one moment between call and
      return; on the ranged path, taken above the threshold, the total is a
      length the object had, and the data a splice of its planned ranges, in
      place, each read from the object as it was at some moment between call and
      return. */
  lemma {:induction false} GetReadsVersions(clients: seq<S3Config>, initial: map<Key, Bytes>, es: seq<Event>,
                                            s': System, i: nat)
    requires Reaches(clients, initial, es, s') && i < |s'.ops| && ReturnedData(s'.ops[i])
    ensures ReadFrom(Init(clients, initial), es, i, ConfigOf(s', i), s'.ops[i], s'.ops[i].stage.out.payload.body)
    decreases |es|
  {
    var s0 := Init(clients, initial);
    var init, e := es[..|es| - 1], es[|es| - 1];
    var s := Exec(s0, init).value;
    LastRead(s, e, i);
    if s.ops[i].stage.Ended? {
      GetReadsVersions(clients, initial, init, s, i);
    } else {
      RunSane(clients, initial, init, s);
      assert HonestAt(s, i);
      LeavingRead(s0, init, s.store.owners, i, ConfigOf(s, i), s.ops[i]);
    }
    ReadEarlier(s0, es, i, ConfigOf(s, i), s.ops[i], s'.ops[i], s'.ops[i].stage.out.payload.body);
  }
}
