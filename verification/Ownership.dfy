/** Which operation may write what: no byte of one upload ever reaches another. */
module Ownership {
  import opened Config
  import opened Split
  import opened Server
  import opened Program
  import opened Client
  import opened Shapes
  import opened Transcript
  import opened Manifests
  import Window

  predicate Owned(owners: seq<nat>, i: nat, uid: nat) { uid < |owners| && owners[uid] == i }

  ghost predicate IsPart(c: S3Config, body: Bytes, pn: int, bytes: Bytes)
    requires Sound(c)
  {
    exists j :: 0 <= j < DivCeil(|body|, c.chunkSize) && pn == PartNumber(j) && bytes == Slice(body, c.chunkSize, j)
  }

  /** What operation `i` may have sent, and what it may have been told. */
  ghost predicate LetterOk(c: S3Config, owners: seq<nat>, i: nat, kind: Kind, l: Letter)
    requires Sound(c)
  {
    && (forall r :: r in l.replies ==> Answers(l.req, r))
    && match l.req
       case PutObject(k, b) => kind == Put(k, b)
       case DeleteObject(k) => kind == Delete(k)
       case CreateUpload(k) =>
         && kind.Put? && kind.key == k
         && forall r :: r in l.replies && r.Created? && r.uid.Some? ==> Owned(owners, i, r.uid.value)
       case UploadPart(k, uid, pn, b) =>
         kind.Put? && kind.key == k && Owned(owners, i, uid) && IsPart(c, kind.body, pn, b)
       case CompleteUpload(k, uid, manifest) =>
         kind.Put? && kind.key == k && Owned(owners, i, uid) && Numbered(manifest, DivCeil(|kind.body|, c.chunkSize))
       case AbortUpload(k, uid) => kind.Put? && kind.key == k && Owned(owners, i, uid)
       case _ => true
  }

  predicate RoundOwned(owners: seq<nat>, i: nat, round: Round) {
    match round
    case RParts(uid) => Owned(owners, i, uid)
    case RFinish(uid, _) => Owned(owners, i, uid)
    case _ => true
  }

  /** Everything the data results need of one operation. */
  ghost predicate Honest(c: S3Config, owners: seq<nat>, i: nat, op: Op)
    requires Sound(c)
  {
    && Shape(c, op) && OnScript(c, op) && Sourced(c, op)
    && (forall l :: 0 <= l < |op.mail| ==> LetterOk(c, owners, i, op.kind, op.mail[l]))
    && (op.last.Some? ==> RoundOwned(owners, i, op.last.value))
  }

  lemma HonestGrows(c: S3Config, owners: seq<nat>, owners': seq<nat>, i: nat, op: Op)
    requires Sound(c) && Honest(c, owners, i, op) && owners <= owners'
    ensures Honest(c, owners', i, op)
  {
    forall l | 0 <= l < |op.mail| ensures LetterOk(c, owners', i, op.kind, op.mail[l]) {
      LetterGrows(c, owners, owners', i, op.kind, op.mail[l]);
    }
  }

  lemma LetterGrows(c: S3Config, owners: seq<nat>, owners': seq<nat>, i: nat, kind: Kind, l: Letter)
    requires Sound(c) && LetterOk(c, owners, i, kind, l) && owners <= owners'
    ensures LetterOk(c, owners', i, kind, l)
  {
  }

  /** Parts are all stored: their replies say so, part number by part number. */
  lemma PartsStored(c: S3Config, owners: seq<nat>, i: nat, op: Op, uid: nat, results: seq<(nat, Reply)>)
    requires Sound(c) && op.kind.Put? && ResultsOf(c, op.kind, op.mail, RParts(uid), results)
    requires Through(c, op.kind, RParts(uid)) <= Reqs(op.mail)
    requires forall l :: 0 <= l < |op.mail| ==> LetterOk(c, owners, i, op.kind, op.mail[l])
    ensures AllParts(results)
    ensures FirstFault(results).None? ==> StoredJobs(results)
    ensures FirstFault(results).None? <==> AllStored(results)
  {
    var n := JobCount(c, op.kind, RParts(uid));
    forall k | 0 <= k < |results|
      ensures results[k].1.Failed? || (results[k].1.Stored? && 1 <= PartNumber(results[k].0) <= MAX_PART_NUMBER)
    {
      var j := results[k].0;
      assert Window.Jobs(results)[k] == j;
      assert j in Window.Jobs(results);
      LetterOfJob(c, op.kind, op.mail, RParts(uid), n, j);
      assert GotReply(op.mail, 1, results[k]);
    }
    FirstFaultIs(results);
  }

  /** The request a settled round leads to is one the operation may send. */
  lemma LaunchedOk(c: S3Config, owners: seq<nat>, i: nat, op: Op)
    requires Sound(c) && Honest(c, owners, i, op) && OpEnabled(c, op, Launch)
    ensures LetterOk(c, owners, i, op.kind,
                     Letter(RequestOf(c, op.kind, op.stage.round, op.stage.win.next), Attempts(c), {}))
  {
    var round, j := op.stage.round, op.stage.win.next;
    if round.RParts? {
      assert IsPart(c, op.kind.body, PartNumber(j), Slice(op.kind.body, c.chunkSize, j));
    } else if round.RFinish? {
      var uid, results := round.uid, round.results;
      assert Through(c, op.kind, RParts(uid)) <= Reqs(op.mail);
      PartsStored(c, owners, i, op, uid, results);
      RoundsNotEmpty(c, op.kind, op.stage.ask, RParts(uid));
      if FirstFault(results).None? {
        ManifestExact(results);
      }
    }
  }

  /** The upload id a multipart put goes on with is one created for it. */
  lemma SettledOwned(c: S3Config, owners: seq<nat>, i: nat, op: Op)
    requires Sound(c) && Honest(c, owners, i, op) && OpEnabled(c, op, Settle)
    requires After(op.stage.round, op.stage.win.done).Then?
    ensures RoundOwned(owners, i, After(op.stage.round, op.stage.win.done).round)
  {
    var st := op.stage;
    if st.round.RCreate? {
      WindowResults(c, op);
      assert Window.Jobs(st.win.done)[0] == st.win.done[0].0;
      assert GotReply(op.mail, 0, st.win.done[0]);
      LetterOfJob(c, op.kind, op.mail, RCreate, 1, 0);
    }
  }

  lemma StepKeepsLetters(c: S3Config, owners: seq<nat>, i: nat, op: Op, act: Action, ticket: nat, clock: nat)
    requires Sound(c) && Honest(c, owners, i, op) && OpEnabled(c, op, act)
    ensures var op' := OpApply(c, op, act, ticket, clock);
      && op'.kind == op.kind
      && (forall l :: 0 <= l < |op'.mail| ==> LetterOk(c, owners, i, op'.kind, op'.mail[l]))
      && (op'.last.Some? ==> RoundOwned(owners, i, op'.last.value))
  {
    match act
    case Launch => LaunchedOk(c, owners, i, op);
    case Settle =>
      if After(op.stage.round, op.stage.win.done).Then? {
        SettledOwned(c, owners, i, op);
      }
    case _ =>
  }

  lemma StepKeepsHonest(c: S3Config, owners: seq<nat>, i: nat, op: Op, act: Action, ticket: nat, clock: nat)
    requires Sound(c) && Honest(c, owners, i, op) && OpEnabled(c, op, act)
    ensures Honest(c, owners, i, OpApply(c, op, act, ticket, clock))
  {
    StepKeepsShape(c, op, act, ticket, clock);
    StepOnScript(c, op, act, ticket, clock);
    StepSourced(c, op, act, ticket, clock);
    StepKeepsLetters(c, owners, i, op, act, ticket, clock);
  }

  lemma NewHonest(c: S3Config, owners: seq<nat>, i: nat, client: nat, kind: Kind, clock: nat)
    requires Sound(c)
    ensures Honest(c, owners, i, NewOp(c, client, kind, clock))
  {
  }

  lemma DeliveryKeepsHonest(c: S3Config, s: Store, i: nat, op: Op, l: nat, choice: Choice)
    requires Sound(c) && Honest(c, s.owners, i, op) && l < |op.mail| && op.mail[l].left > 0
    ensures var (s', r) := Execute(s, i, op.mail[l].req, choice);
      Honest(c, s'.owners, i, op.(mail := op.mail[l := Answer(op.mail[l], r)]))
  {
    var (s', r) := Execute(s, i, op.mail[l].req, choice);
    var mail' := op.mail[l := Answer(op.mail[l], r)];
    HonestGrows(c, s.owners, s'.owners, i, op);
    ExecuteAnswers(s, i, op.mail[l].req, choice);
    DeliverKeepsShape(c, op, mail');
    SourcedGrows(c, op, mail');
    ReqsKept(op.mail, mail');
    assert LetterOk(c, s'.owners, i, op.kind, op.mail[l]);
  }

  ghost predicate HonestAt(s: System, i: nat)
    requires Formed(s) && i < |s.ops|
  {
    Honest(ConfigOf(s, i), s.store.owners, i, s.ops[i])
  }

  ghost predicate AllHonest(s: System)
    requires Formed(s)
  {
    forall i :: 0 <= i < |s.ops| ==> HonestAt(s, i)
  }

  lemma DoKeepsHonest(s: System, i: nat, act: Action)
    requires Formed(s) && i < |s.ops| && DoEnabled(s, i, act) && HonestAt(s, i)
    ensures HonestAt(Apply(s, Do(i, act)), i)
  {
    DoMoves(s, i, act);
    StepKeepsHonest(ConfigOf(s, i), s.store.owners, i, s.ops[i], act,
                    TicketFor(s, i), s.clock);
  }

  /** Operations that did not move stay honest while the store grows. */
  lemma OthersKeepHonest(s: System, s': System, i: nat)
    requires Formed(s) && Formed(s') && i < |s.ops| <= |s'.ops| && HonestAt(s, i)
    requires s'.clients == s.clients && s'.ops[i] == s.ops[i] && s.store.owners <= s'.store.owners
    ensures HonestAt(s', i)
  {
    HonestGrows(ConfigOf(s, i), s.store.owners, s'.store.owners, i, s.ops[i]);
  }

  lemma StaysHonest(s: System, e: Event, i: nat)
    requires Formed(s) && Enabled(s, e) && i < |Apply(s, e).ops| && (i < |s.ops| ==> HonestAt(s, i))
    ensures HonestAt(Apply(s, e), i)
  {
    var s' := Apply(s, e);
    if i == |s.ops| {
      NewHonest(s.clients[e.client], s.store.owners, i, e.client, e.kind, s.clock);
    } else if e.Do? && e.op == i {
      DoKeepsHonest(s, i, e.act);
    } else if e.Deliver? && e.op == i {
      DeliveryKeepsHonest(ConfigOf(s, i), s.store, i, s.ops[i], e.letter, e.choice);
    } else {
      OthersKeepHonest(s, s', i);
    }
  }

  lemma ApplyKeepsHonest(s: System, e: Event)
    requires Formed(s) && Enabled(s, e) && AllHonest(s)
    ensures AllHonest(Apply(s, e))
  {
    forall i | 0 <= i < |Apply(s, e).ops| ensures HonestAt(Apply(s, e), i) {
      StaysHonest(s, e, i);
    }
  }
}
