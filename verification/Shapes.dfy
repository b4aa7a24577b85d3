/** What each operation's local state always looks like, whatever the pool, the
    store and the other operations do. */
module Shapes {
  import opened Wrappers
  import opened Config
  import opened Split
  import opened Server
  import opened Program
  import opened Window
  import opened Client

  /** The reservation is one this operation makes, on the branch the sizes select. */
  predicate AskFits(c: S3Config, kind: Kind, ask: Ask) {
    && Serves(kind, ask)
    && (kind.Put? ==> (ask.AskMultipart? <==> |kind.body| > c.multipartThreshold))
    && (ask.AskRanges? ==> ask.total > c.multipartThreshold)
    && (ask.AskGet? ==> ask.total <= c.multipartThreshold)
  }

  ghost predicate BusyFits(c: S3Config, op: Op)
    requires Sound(c) && op.stage.Busy?
  {
    var st := op.stage;
    && Under(st.ask, st.round) && Suits(op.kind, st.round) && op.last == Some(st.round)
    && Inv(st.win)
    && st.win.n == JobCount(c, op.kind, st.round) && st.win.cap == Width(c, st.round)
    && st.base + st.win.next == |op.mail|
  }

  ghost predicate Shape(c: S3Config, op: Op)
    requires Sound(c)
  {
    && (!op.stage.Ended? ==> AskFits(c, op.kind, op.stage.ask))
    && (op.stage.Busy? ==> BusyFits(c, op))
    && (op.stage.Settled? || op.stage.Closing? ==> op.last.Some? && Under(op.stage.ask, op.last.value))
    && (op.stage.Settled? ==> BodyHolds(op.kind) && !op.stage.out.Cancelled?)
    // simple or split: decided by the size alone
    && (op.kind.Put? && op.last.Some? ==> (op.last.value.RPut? <==> |op.kind.body| <= c.multipartThreshold))
    && (op.last.Some? && op.last.value.RRanges? ==> op.last.value.total > c.multipartThreshold)
    && (op.last.Some? && op.last.value.RGet? ==> op.last.value.total <= c.multipartThreshold)
  }

  lemma NewShape(c: S3Config, client: nat, kind: Kind, clock: nat)
    requires Sound(c)
    ensures Shape(c, NewOp(c, client, kind, clock))
  {
  }

  /** No round is empty: multipart bodies and ranged downloads exceed the
      threshold, hence are not empty, even when the threshold is 0. */
  lemma RoundsNotEmpty(c: S3Config, kind: Kind, ask: Ask, round: Round)
    requires Sound(c) && AskFits(c, kind, ask) && Under(ask, round) && Suits(kind, round)
    ensures JobCount(c, kind, round) > 0
    ensures 1 <= Width(c, round) <= CountOf(c, ask)
  {
    if round.RParts? {
      PieceCount(|kind.body|, c.chunkSize, 0);
    } else if round.RRanges? {
      PieceCount(round.total, c.chunkSize, 0);
    }
  }

  lemma OpeningFits(c: S3Config, kind: Kind, ask: Ask)
    requires AskFits(c, kind, ask)
    ensures Under(ask, Opening(kind, ask)) && Suits(kind, Opening(kind, ask))
  {
  }

  lemma NextRoundFits(kind: Kind, ask: Ask, round: Round, results: seq<(nat, Reply)>)
    requires Under(ask, round) && Suits(kind, round) && results != []
    ensures After(round, results).Then? ==>
      Under(ask, After(round, results).round) && Suits(kind, After(round, results).round)
    ensures After(round, results).Return? ==> !After(round, results).out.Cancelled?
  {
  }

  lemma BeginShape(c: S3Config, op: Op, ask: Ask, ticket: nat, round: Round)
    requires Sound(c) && AskFits(c, op.kind, ask) && Under(ask, round) && Suits(op.kind, round)
    ensures Shape(c, Begin(c, op, ask, ticket, round))
  {
    var r := Begin(c, op, ask, ticket, round);
    assert Jobs(r.stage.win.done) == [];
  }

  lemma StepKeepsShape(c: S3Config, op: Op, act: Action, ticket: nat, clock: nat)
    requires Sound(c) && Shape(c, op) && OpEnabled(c, op, act)
    ensures Shape(c, OpApply(c, op, act, ticket, clock))
  {
    var st := op.stage;
    match act
    case Count =>
      OpeningFits(c, op.kind, st.ask);
      var op' := OpApply(c, op, act, ticket, clock);
      BeginShape(c, op.(meter := op'.meter, waits := op'.waits), st.ask, st.ticket, Opening(op.kind, st.ask));
    case Launch => LaunchKeepsInv(st.win);
    case Receive(j, r) => FinishKeepsInv(st.win, j, r);
    case Settle =>
      NextRoundFits(op.kind, st.ask, st.round, st.win.done);
      if After(st.round, st.win.done).Then? {
        BeginShape(c, op, st.ask, st.ticket, After(st.round, st.win.done).round);
      }
    case _ =>
  }

  /** Replies arriving do not touch the shape. */
  lemma DeliverKeepsShape(c: S3Config, op: Op, mail: seq<Letter>)
    requires Sound(c) && Shape(c, op) && |mail| == |op.mail|
    ensures Shape(c, op.(mail := mail))
  {
  }

  ghost predicate AllShapes(s: System)
    requires Formed(s)
  {
    forall i :: 0 <= i < |s.ops| ==> Shape(ConfigOf(s, i), s.ops[i])
  }

  lemma ApplyKeepsShapes(s: System, e: Event)
    requires Formed(s) && Enabled(s, e) && AllShapes(s)
    ensures AllShapes(Apply(s, e))
  {
    match e
    case Call(client, kind) => NewShape(s.clients[client], client, kind, s.clock);
    case Tick(_) =>
    case Deliver(i, l, _) => DeliverKeepsShape(ConfigOf(s, i), s.ops[i], Apply(s, e).ops[i].mail);
    case Do(i, act) =>
      StepKeepsShape(ConfigOf(s, i), s.ops[i], act,
                     TicketFor(s, i), s.clock);
  }

  lemma {:induction false} RunKeepsShapes(s: System, es: seq<Event>)
    requires Formed(s) && AllShapes(s) && Exec(s, es).Some?
    ensures AllShapes(Exec(s, es).value)
  {
    if es != [] {
      RunKeepsShapes(s, es[..|es| - 1]);
      ApplyKeepsShapes(Exec(s, es[..|es| - 1]).value, es[|es| - 1]);
    }
  }
}
