/** What an operation has sent, and where its results come from. */
module Transcript {
  import opened Wrappers
  import opened Sequences
  import opened Config
  import opened Server
  import opened Program
  import opened Client
  import opened Shapes
  import opened Manifests
  import Window

  function Reqs(mail: seq<Letter>): seq<Request> { seq(|mail|, i requires 0 <= i < |mail| => mail[i].req) }

  /** The first `k` requests of a round. */
  function Sent(c: S3Config, kind: Kind, round: Round, k: nat): seq<Request>
    requires Sound(c) && Suits(kind, round) && k <= JobCount(c, kind, round)
  {
    seq(k, j requires 0 <= j < k => RequestOf(c, kind, round, j))
  }

  /** Everything sent before a round begins. */
  function Before(c: S3Config, kind: Kind, round: Round): seq<Request>
    requires Sound(c) && Suits(kind, round)
  {
    match round
    case RGet(_) => [HeadObject(kind.key)]
    case RRanges(_) => [HeadObject(kind.key)]
    case RPage(left) => seq(kind.pages - left, _ => ListPage)
    case RParts(_) => [CreateUpload(kind.key)]
    case RFinish(uid, _) => [CreateUpload(kind.key)] + Sent(c, kind, RParts(uid), JobCount(c, kind, RParts(uid)))
    case _ => []
  }

  /** A whole conversation up to and including a round. */
  function Through(c: S3Config, kind: Kind, round: Round): seq<Request>
    requires Sound(c) && Suits(kind, round)
  {
    Before(c, kind, round) + Sent(c, kind, round, JobCount(c, kind, round))
  }

  predicate Dropped(st: Stage) { Decided(st) && st.out.Cancelled? }

  /** The requests sent are exactly the script of the rounds begun, in order,
      each request once; a dropped operation stopped somewhere along it. */
  ghost predicate OnScript(c: S3Config, op: Op)
    requires Sound(c)
  {
    && (op.last.None? ==> op.mail == [])
    && (op.last.Some? ==> Suits(op.kind, op.last.value))
    && (op.stage.Fresh? || op.stage.Asking? ==>
          op.last == if op.stage.ask.AskGet? || op.stage.ask.AskRanges? then Some(RHead) else None)
    && (op.stage.Busy? ==>
          && op.last == Some(op.stage.round) && op.stage.win.next <= JobCount(c, op.kind, op.stage.round)
          && op.stage.base == |Before(c, op.kind, op.stage.round)|
          && Reqs(op.mail) == Before(c, op.kind, op.stage.round) + Sent(c, op.kind, op.stage.round, op.stage.win.next))
    && (!op.stage.Busy? && !Dropped(op.stage) && op.last.Some? ==> Reqs(op.mail) == Through(c, op.kind, op.last.value))
    && (Dropped(op.stage) && op.last.Some? ==>
          Before(c, op.kind, op.last.value) <= Reqs(op.mail) <= Through(c, op.kind, op.last.value))
  }

  lemma ReqsAppend(mail: seq<Letter>, l: Letter)
    ensures Reqs(mail + [l]) == Reqs(mail) + [l.req]
  {
  }

  lemma ReqsKept(mail: seq<Letter>, mail': seq<Letter>)
    requires |mail| == |mail'| && forall i :: 0 <= i < |mail| ==> mail[i].req == mail'[i].req
    ensures Reqs(mail') == Reqs(mail)
  {
  }

  lemma NextScript(c: S3Config, kind: Kind, round: Round, results: seq<(nat, Reply)>)
    requires Sound(c) && Suits(kind, round) && results != [] && After(round, results).Then?
    requires Suits(kind, After(round, results).round)
    ensures Before(c, kind, After(round, results).round) == Through(c, kind, round)
  {
  }

  lemma BeginOnScript(c: S3Config, op: Op, ask: Ask, ticket: nat, round: Round)
    requires Sound(c) && Suits(op.kind, round) && Reqs(op.mail) == Before(c, op.kind, round)
    ensures OnScript(c, Begin(c, op, ask, ticket, round))
  {
    assert Sent(c, op.kind, round, 0) == [];
    assert |Reqs(op.mail)| == |op.mail|;
    assert Reqs(op.mail) + [] == Reqs(op.mail);
  }

  lemma CountOnScript(c: S3Config, op: Op, ticket: nat, clock: nat)
    requires Sound(c) && Shape(c, op) && OnScript(c, op) && op.stage.Asking?
    ensures OnScript(c, OpApply(c, op, Count, ticket, clock))
  {
    var round := Opening(op.kind, op.stage.ask);
    OpeningFits(c, op.kind, op.stage.ask);
    var op' := OpApply(c, op, Count, ticket, clock);
    var op1 := op.(meter := op'.meter, waits := op'.waits);
    assert Reqs(op.mail) == Before(c, op.kind, round);
    BeginOnScript(c, op1, op.stage.ask, op.stage.ticket, round);
  }

  lemma LaunchOnScript(c: S3Config, op: Op, ticket: nat, clock: nat)
    requires Sound(c) && Shape(c, op) && OnScript(c, op) && OpEnabled(c, op, Launch)
    ensures OnScript(c, OpApply(c, op, Launch, ticket, clock))
  {
    var st := op.stage;
    var k := st.win.next;
    var req := RequestOf(c, op.kind, st.round, k);
    ReqsAppend(op.mail, Letter(req, Attempts(c), {}));
    assert Sent(c, op.kind, st.round, k + 1) == Sent(c, op.kind, st.round, k) + [req];
    assert (Before(c, op.kind, st.round) + Sent(c, op.kind, st.round, k)) + [req]
        == Before(c, op.kind, st.round) + (Sent(c, op.kind, st.round, k) + [req]);
  }

  lemma SettleOnScript(c: S3Config, op: Op, ticket: nat, clock: nat)
    requires Sound(c) && Shape(c, op) && OnScript(c, op) && OpEnabled(c, op, Settle)
    ensures OnScript(c, OpApply(c, op, Settle, ticket, clock))
  {
    var st := op.stage;
    NextRoundFits(op.kind, st.ask, st.round, st.win.done);
    if After(st.round, st.win.done).Then? {
      NextScript(c, op.kind, st.round, st.win.done);
      BeginOnScript(c, op, st.ask, st.ticket, After(st.round, st.win.done).round);
    }
  }

  /** An operation whose future is dropped stops where it is. */
  lemma DropOnScript(c: S3Config, op: Op, act: Action, ticket: nat, clock: nat)
    requires Sound(c) && OnScript(c, op) && OpEnabled(c, op, act) && (act.Quit? || act.Forfeit? || act.Cancel?)
    ensures OnScript(c, OpApply(c, op, act, ticket, clock))
  {
    if op.stage.Busy? {
      SentPrefix(c, op.kind, op.stage.round, op.stage.win.next);
    }
  }

  lemma SubOnScript(c: S3Config, op: Op, act: Action, ticket: nat, clock: nat)
    requires Sound(c) && Shape(c, op) && OnScript(c, op) && OpEnabled(c, op, act) && (act.Sub? || act.Release?)
    ensures OnScript(c, OpApply(c, op, act, ticket, clock))
  {
  }

  lemma StepOnScript(c: S3Config, op: Op, act: Action, ticket: nat, clock: nat)
    requires Sound(c) && Shape(c, op) && OnScript(c, op) && OpEnabled(c, op, act)
    ensures OnScript(c, OpApply(c, op, act, ticket, clock))
  {
    match act
    case Count => CountOnScript(c, op, ticket, clock);
    case Launch => LaunchOnScript(c, op, ticket, clock);
    case Settle => SettleOnScript(c, op, ticket, clock);
    case Sub => SubOnScript(c, op, act, ticket, clock);
    case Release => SubOnScript(c, op, act, ticket, clock);
    case Quit => DropOnScript(c, op, act, ticket, clock);
    case Forfeit => DropOnScript(c, op, act, ticket, clock);
    case Cancel => DropOnScript(c, op, act, ticket, clock);
    case _ =>
  }

  lemma SentPrefix(c: S3Config, kind: Kind, round: Round, k: nat)
    requires Sound(c) && Suits(kind, round) && k <= JobCount(c, kind, round)
    ensures Before(c, kind, round) <= Before(c, kind, round) + Sent(c, kind, round, k) <= Through(c, kind, round)
  {
  }

  /** What was sent is part of the script of the round begun last. */
  lemma ScriptBound(c: S3Config, op: Op)
    requires Sound(c) && OnScript(c, op) && op.last.Some?
    ensures Reqs(op.mail) <= Through(c, op.kind, op.last.value)
  {
    if op.stage.Busy? {
      SentPrefix(c, op.kind, op.last.value, op.stage.win.next);
    }
  }

  // ---------- results come from replies ----------

  /** The result of job `x.0` of the round whose letters start at `base`: a
      reply the store gave to that very request, or a network failure. */
  predicate GotReply(mail: seq<Letter>, base: nat, x: (nat, Reply)) {
    || (x.1.Failed? && x.1.fault.Transport?)
    || (base + x.0 < |mail| && x.1 in mail[base + x.0].replies)
  }

  /** `done` holds one result for each job of the round, in completion order. */
  ghost predicate ResultsOf(c: S3Config, kind: Kind, mail: seq<Letter>, round: Round, done: seq<(nat, Reply)>)
    requires Sound(c) && Suits(kind, round)
  {
    && |done| == JobCount(c, kind, round)
    && NoDuplicates(Window.Jobs(done))
    && (forall j :: 0 <= j < |done| <==> j in Window.Jobs(done))
    && (forall i :: 0 <= i < |done| ==> GotReply(mail, |Before(c, kind, round)|, done[i]))
  }

  /** The results `done` of a round make the outcome `out`. */
  ghost predicate Concludes(c: S3Config, kind: Kind, mail: seq<Letter>, round: Round, done: seq<(nat, Reply)>,
                            out: Outcome)
    requires Sound(c) && Suits(kind, round)
  {
    ResultsOf(c, kind, mail, round, done) && done != [] && After(round, done) == Return(out)
  }

  ghost predicate Concluded(c: S3Config, op: Op, out: Outcome)
    requires Sound(c) && op.last.Some? && Suits(op.kind, op.last.value)
  {
    exists done :: Concludes(c, op.kind, op.mail, op.last.value, done, out)
  }

  /** The pool turned the operation away: before it sent anything, or a get after HEAD. */
  predicate TurnedAway(op: Op) {
    && !op.stage.Settled? && !op.stage.Closing?
    && (op.last.None? || (op.kind.Get? && op.last == Some(RHead)))
  }

  /** HEAD is over and the transfer is asking for its permits. */
  predicate Planning(st: Stage) {
    (st.Fresh? || st.Asking? || st.Busy?) && (st.ask.AskGet? || st.ask.AskRanges?)
  }

  ghost predicate Sourced(c: S3Config, op: Op)
    requires Sound(c)
  {
    && (op.last.Some? ==> Suits(op.kind, op.last.value))
    && (op.stage.Busy? ==> forall i :: 0 <= i < |op.stage.win.done| ==>
        GotReply(op.mail, op.stage.base, op.stage.win.done[i]))
    && (op.last.Some? && op.last.value.RFinish? ==>
          ResultsOf(c, op.kind, op.mail, RParts(op.last.value.uid), op.last.value.results))
    && (Decided(op.stage) && !op.stage.out.Cancelled? && op.stage.out != Err(PoolTimeout) ==>
          op.last.Some? && Concluded(c, op, op.stage.out))
    && (Decided(op.stage) && op.stage.out == Err(PoolTimeout) ==> TurnedAway(op))
    && (Planning(op.stage) ==> op.mail != [] && SaidLength(op.mail[0].replies, op.stage.ask.total))
    && (op.last.Some? && (op.last.value.RGet? || op.last.value.RRanges?) ==>
          op.mail != [] && SaidLength(op.mail[0].replies, op.last.value.total))
  }

  /** Letters and replies only accumulate. */
  predicate Grows(mail: seq<Letter>, mail': seq<Letter>) {
    |mail| <= |mail'| && forall i :: 0 <= i < |mail| ==>
        mail[i].req == mail'[i].req && mail[i].replies <= mail'[i].replies
  }

  lemma ResultsGrow(c: S3Config, kind: Kind, mail: seq<Letter>, mail': seq<Letter>, round: Round, done: seq<(nat,
                    Reply)>)
    requires Sound(c) && Suits(kind, round) && ResultsOf(c, kind, mail, round, done) && Grows(mail, mail')
    ensures ResultsOf(c, kind, mail', round, done)
  {
  }

  lemma SourcedGrows(c: S3Config, op: Op, mail': seq<Letter>)
    requires Sound(c) && Sourced(c, op) && Grows(op.mail, mail')
    ensures Sourced(c, op.(mail := mail'))
  {
    var op' := op.(mail := mail');
    if op.last.Some? && op.last.value.RFinish? {
      ResultsGrow(c, op.kind, op.mail, mail', RParts(op.last.value.uid), op.last.value.results);
    }
    if Decided(op.stage) && op.last.Some? && Concluded(c, op, op.stage.out) {
      var done: seq<(nat, Reply)> :| Concludes(c, op.kind, op.mail, op.last.value, done, op.stage.out);
      ResultsGrow(c, op.kind, op.mail, mail', op.last.value, done);
      assert Concludes(c, op'.kind, op'.mail, op'.last.value, done, op'.stage.out);
    }
  }

  lemma WindowResults(c: S3Config, op: Op)
    requires Sound(c) && Shape(c, op) && OnScript(c, op) && Sourced(c, op) && op.stage.Busy? && op.stage.win.Complete()
    ensures ResultsOf(c, op.kind, op.mail, op.stage.round, op.stage.win.done)
  {
    Window.CompleteIsPermutation(op.stage.win);
  }

  ghost predicate RepliesFit(mail: seq<Letter>) {
    forall l, r :: 0 <= l < |mail| && r in mail[l].replies ==> Answers(mail[l].req, r)
  }

  lemma BeginSourced(c: S3Config, op: Op, ask: Ask, ticket: nat, round: Round)
    requires Sound(c) && Suits(op.kind, round)
    requires round.RFinish? ==> ResultsOf(c, op.kind, op.mail, RParts(round.uid), round.results)
    requires ask.AskGet? || ask.AskRanges? ==> op.mail != [] && SaidLength(op.mail[0].replies, ask.total)
    requires round.RGet? ==> ask == AskGet(round.total)
    requires round.RRanges? ==> ask == AskRanges(round.total)
    ensures Sourced(c, Begin(c, op, ask, ticket, round))
  {
  }

  /** No result carries the pool's own fault. */
  lemma ResultFault(c: S3Config, op: Op, round: Round, done: seq<(nat, Reply)>, k: nat)
    requires Sound(c) && Suits(op.kind, round) && ResultsOf(c, op.kind, op.mail, round, done)
    requires RepliesFit(op.mail) && k < |done|
    ensures FaultOf(done[k].1) != Some(PoolTimeout)
  {
    assert GotReply(op.mail, |Before(c, op.kind, round)|, done[k]);
  }

  /** What the transfer engine concludes is never the pool's own fault. */
  lemma NeverPoolTimeout(c: S3Config, op: Op, round: Round, done: seq<(nat, Reply)>)
    requires Sound(c) && Suits(op.kind, round) && ResultsOf(c, op.kind, op.mail, round, done) && done != []
    requires RepliesFit(op.mail)
    requires round.RFinish? ==> ResultsOf(c, op.kind, op.mail, RParts(round.uid), round.results)
    ensures After(round, done) != Return(Err(PoolTimeout))
  {
    ResultFault(c, op, round, done, 0);
    if round.RRanges? && FirstFault(done).Some? {
      FirstFaultIs(done);
      var k :| FirstAt(done, FirstFault(done).value, k);
      ResultFault(c, op, round, done, k);
    } else if round.RFinish? && FirstFault(round.results).Some? {
      FirstFaultIs(round.results);
      var k :| FirstAt(round.results, FirstFault(round.results).value, k);
      ResultFault(c, op, RParts(round.uid), round.results, k);
    }
  }

  lemma SettleSourced(c: S3Config, op: Op, ticket: nat, clock: nat)
    requires Sound(c) && Shape(c, op) && OnScript(c, op) && Sourced(c, op) && OpEnabled(c, op, Settle)
    requires RepliesFit(op.mail)
    ensures Sourced(c, OpApply(c, op, Settle, ticket, clock))
  {
    var st := op.stage;
    WindowResults(c, op);
    NeverPoolTimeout(c, op, st.round, st.win.done);
    NextRoundFits(op.kind, st.ask, st.round, st.win.done);
    var after := After(st.round, st.win.done);
    if after.Then? {
      BeginSourced(c, op, st.ask, st.ticket, after.round);
    } else {
      assert Concludes(c, op.kind, op.mail, st.round, st.win.done, after.out);
    }
  }

  /** The total a ranged download is planned with is the length HEAD reported. */
  lemma ReleaseSourced(c: S3Config, op: Op, ticket: nat, clock: nat)
    requires Sound(c) && Shape(c, op) && OnScript(c, op) && Sourced(c, op) && OpEnabled(c, op, Release)
    requires RepliesFit(op.mail)
    ensures Sourced(c, OpApply(c, op, Release, ticket, clock))
  {
    var st := op.stage;
    var op' := OpApply(c, op, Release, ticket, clock);
    if NextAsk(c, op.kind, st.ask, st.out).Some? {
      var done: seq<(nat, Reply)> :| Concludes(c, op.kind, op.mail, RHead, done, st.out);
      assert |done| == 1 && Window.Jobs(done)[0] == done[0].0;
      assert Reqs(op.mail) == Through(c, op.kind, RHead);
      assert Reqs(op.mail)[0] == HeadObject(op.kind.key);
    } else if !st.out.Cancelled? {
      assert Concluded(c, op', st.out);
    }
  }

  lemma CountSourced(c: S3Config, op: Op, ticket: nat, clock: nat)
    requires Sound(c) && Shape(c, op) && OnScript(c, op) && Sourced(c, op) && OpEnabled(c, op, Count)
    ensures Sourced(c, OpApply(c, op, Count, ticket, clock))
  {
    var st := op.stage;
    OpeningFits(c, op.kind, st.ask);
    var op' := OpApply(c, op, Count, ticket, clock);
    BeginSourced(c, op.(meter := op'.meter, waits := op'.waits), st.ask, st.ticket, Opening(op.kind, st.ask));
  }

  lemma ReceiveSourced(c: S3Config, op: Op, act: Action, ticket: nat, clock: nat)
    requires Sound(c) && Sourced(c, op) && act.Receive? && OpEnabled(c, op, act)
    ensures Sourced(c, OpApply(c, op, act, ticket, clock))
  {
    var done, done' := op.stage.win.done, OpApply(c, op, act, ticket, clock).stage.win.done;
    assert done' == done + [(act.job, act.reply)];
  }

  lemma SubSourced(c: S3Config, op: Op, ticket: nat, clock: nat)
    requires Sound(c) && Sourced(c, op) && OpEnabled(c, op, Sub)
    ensures Sourced(c, OpApply(c, op, Sub, ticket, clock))
  {
    assert !op.stage.out.Cancelled? ==> Concluded(c, OpApply(c, op, Sub, ticket, clock), op.stage.out);
  }

  lemma LaunchSourced(c: S3Config, op: Op, ticket: nat, clock: nat)
    requires Sound(c) && Sourced(c, op) && OpEnabled(c, op, Launch)
    ensures Sourced(c, OpApply(c, op, Launch, ticket, clock))
  {
    SourcedGrows(c, op, OpApply(c, op, Launch, ticket, clock).mail);
  }

  lemma ReportSourced(c: S3Config, op: Op, act: Action, ticket: nat, clock: nat)
    requires Sound(c) && Sourced(c, op) && OpEnabled(c, op, act) && (act.Finish? || act.Drop?)
    ensures Sourced(c, OpApply(c, op, act, ticket, clock))
  {
  }

  lemma WaitSourced(c: S3Config, op: Op, act: Action, ticket: nat, clock: nat)
    requires Sound(c) && Shape(c, op) && OnScript(c, op) && Sourced(c, op) && OpEnabled(c, op, act)
    requires op.stage.Fresh? || (op.stage.Asking? && !act.Count?) || act.Cancel?
    ensures Sourced(c, OpApply(c, op, act, ticket, clock))
  {
  }

  lemma StepSourced(c: S3Config, op: Op, act: Action, ticket: nat, clock: nat)
    requires Sound(c) && Shape(c, op) && OnScript(c, op) && Sourced(c, op) && OpEnabled(c, op, act)
    requires RepliesFit(op.mail)
    ensures Sourced(c, OpApply(c, op, act, ticket, clock))
  {
    match act
    case Count => CountSourced(c, op, ticket, clock);
    case Launch => LaunchSourced(c, op, ticket, clock);
    case Receive(_, _) => ReceiveSourced(c, op, act, ticket, clock);
    case Settle => SettleSourced(c, op, ticket, clock);
    case Sub => SubSourced(c, op, ticket, clock);
    case Release => ReleaseSourced(c, op, ticket, clock);
    case Finish => ReportSourced(c, op, act, ticket, clock);
    case Drop => ReportSourced(c, op, act, ticket, clock);
    case _ => WaitSourced(c, op, act, ticket, clock);
  }

  /** A result of job `j` came from the letter of job `j`. */
  lemma LetterOfJob(c: S3Config, kind: Kind, mail: seq<Letter>, round: Round, k: nat, j: nat)
    requires Sound(c) && Suits(kind, round) && j < k <= JobCount(c, kind, round)
    requires Before(c, kind, round) + Sent(c, kind, round, k) <= Reqs(mail)
    ensures |Before(c, kind, round)| + j < |mail|
    ensures mail[|Before(c, kind, round)| + j].req == RequestOf(c, kind, round, j)
  {
    ElementOfPrefix(Before(c, kind, round), Sent(c, kind, round, k), Reqs(mail), j);
  }

  /** The result of a lone request is a network failure or a reply to the letter
      it was sent in. */
  lemma LoneResult(c: S3Config, kind: Kind, mail: seq<Letter>, round: Round, done: seq<(nat, Reply)>)
    requires Sound(c) && Suits(kind, round) && JobCount(c, kind, round) == 1
    requires done != [] && ResultsOf(c, kind, mail, round, done)
    ensures GotReply(mail, |Before(c, kind, round)|, (0, done[0].1))
  {
    assert Window.Jobs(done)[0] == done[0].0;
    assert done[0].0 in Window.Jobs(done);
    assert GotReply(mail, |Before(c, kind, round)|, done[0]);
  }

  lemma OnlyResult(c: S3Config, kind: Kind, mail: seq<Letter>, round: Round, done: seq<(nat, Reply)>)
    requires Sound(c) && Suits(kind, round) && JobCount(c, kind, round) == 1
    requires done != [] && !done[0].1.Failed? && ResultsOf(c, kind, mail, round, done)
    requires Reqs(mail) == Through(c, kind, round)
    ensures var b := |Before(c, kind, round)|;
      b < |mail| && mail[b].req == RequestOf(c, kind, round, 0) && done[0].1 in mail[b].replies
  {
    LoneResult(c, kind, mail, round, done);
    LetterOfJob(c, kind, mail, round, 1, 0);
  }
}
