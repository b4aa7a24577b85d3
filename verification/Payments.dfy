/** Whoever transfers has got its permits, so its reservation fits its half. */
module Payments {
  import opened Wrappers
  import opened Config
  import opened Split
  import opened Server
  import opened Program
  import opened Client
  import opened Shapes
  import opened Permits
  import Pool
  import PoolRuns

  /** The reservation under which the round begun last runs fits its half, and so
      did the permit for the HEAD before it. */
  predicate RoundPaid(c: S3Config, last: Option<Round>) {
    last.Some? ==>
      match last.value
      case RHead => 1 <= c.readConnections
      case RGet(_) => 1 <= c.readConnections
      case RPage(_) => 1 <= c.readConnections
      case RRanges(_) => 1 <= c.readConnections && Pool.AsU32(c.readConcurrency) <= c.readConnections
      case RPut => 1 <= c.writeConnections
      case RDelete => 1 <= c.writeConnections
      case _ => Pool.AsU32(c.writeConcurrency) <= c.writeConnections
  }

  ghost predicate AllPaid(s: System)
    requires Formed(s)
  {
    forall i :: 0 <= i < |s.ops| ==> RoundPaid(ConfigOf(s, i), s.ops[i].last)
  }

  /** A ranged get asks for its permits after a HEAD. */
  predicate HeadFirst(op: Op) {
    (op.stage.Fresh? || op.stage.Asking?) && op.stage.ask.AskRanges? ==> op.last == Some(RHead)
  }

  lemma CountedFits(s: System, i: nat)
    requires Good(s) && i < |s.ops| && DoEnabled(s, i, Count)
    ensures var c, ask := ConfigOf(s, i), s.ops[i].stage.ask;
      Pool.AsU32(CountOf(c, ask)) <= if IsWrite(ask) then c.writeConnections else c.readConnections
  {
    assert OwnsTicket(s, i);
    var ask := s.ops[i].stage.ask;
    var h := HalfOf(s.ops[i].client, ask);
    PoolRuns.HeldFits(s.halves[h], s.ops[i].stage.ticket);
    assert h / 2 == s.ops[i].client && (h % 2 == 1 <==> IsWrite(ask));
  }

  lemma CountPaid(c: S3Config, op: Op, ticket: nat, clock: nat)
    requires Sound(c) && Shape(c, op) && HeadFirst(op) && OpEnabled(c, op, Count) && RoundPaid(c, op.last)
    requires Pool.AsU32(CountOf(c, op.stage.ask))
          <= if IsWrite(op.stage.ask) then c.writeConnections else c.readConnections
    ensures RoundPaid(c, OpApply(c, op, Count, ticket, clock).last)
  {
    OpeningFits(c, op.kind, op.stage.ask);
    assert OpApply(c, op, Count, ticket, clock).last == Some(Opening(op.kind, op.stage.ask));
  }

  lemma RoundsPaid(c: S3Config, op: Op, act: Action, ticket: nat, clock: nat)
    requires Sound(c) && Shape(c, op) && OpEnabled(c, op, act) && !act.Count? && RoundPaid(c, op.last)
    ensures RoundPaid(c, OpApply(c, op, act, ticket, clock).last)
  {
    if act.Settle? {
      if After(op.stage.round, op.stage.win.done).Then? {
        SettlePaid(c, op.stage.round, op.stage.win.done);
      }
    } else {
      assert OpApply(c, op, act, ticket, clock).last == op.last;
    }
  }

  lemma SettlePaid(c: S3Config, round: Round, results: seq<(nat, Reply)>)
    requires results != [] && RoundPaid(c, Some(round)) && After(round, results).Then?
    ensures RoundPaid(c, Some(After(round, results).round))
  {
  }

  lemma StepKeepsHeadFirst(c: S3Config, op: Op, act: Action, ticket: nat, clock: nat)
    requires Sound(c) && Shape(c, op) && OpEnabled(c, op, act) && HeadFirst(op)
    ensures HeadFirst(OpApply(c, op, act, ticket, clock))
  {
  }

  ghost predicate AllHeadFirst(s: System) { forall i :: 0 <= i < |s.ops| ==> HeadFirst(s.ops[i]) }

  lemma DoKeepsPaid(s: System, i: nat, act: Action)
    requires Good(s) && i < |s.ops| && DoEnabled(s, i, act) && AllHeadFirst(s) && AllPaid(s)
    ensures RoundPaid(ConfigOf(s, i), DoApply(s, i, act).ops[i].last) && HeadFirst(DoApply(s, i, act).ops[i])
  {
    DoMoves(s, i, act);
    assert Shape(ConfigOf(s, i), s.ops[i]);
    StepKeepsHeadFirst(ConfigOf(s, i), s.ops[i], act, TicketFor(s, i), s.clock);
    if act.Count? {
      CountedFits(s, i);
      CountPaid(ConfigOf(s, i), s.ops[i], TicketFor(s, i), s.clock);
    } else {
      RoundsPaid(ConfigOf(s, i), s.ops[i], act, TicketFor(s, i), s.clock);
    }
  }

  lemma ApplyKeepsPaid(s: System, e: Event)
    requires Good(s) && Enabled(s, e) && AllHeadFirst(s) && AllPaid(s)
    ensures AllHeadFirst(Apply(s, e)) && AllPaid(Apply(s, e))
  {
    if e.Do? {
      DoKeepsPaid(s, e.op, e.act);
      DoMoves(s, e.op, e.act);
      OpKeeps(ConfigOf(s, e.op), s.ops[e.op], e.act, TicketFor(s, e.op), s.clock);
    }
  }

  /** In every run each operation's transfers ran under reservations that fit. */
  lemma {:induction false} RunPaid(clients: seq<S3Config>, initial: map<Key, Bytes>, es: seq<Event>, s: System)
    requires Reaches(clients, initial, es, s)
    ensures Good(s) && AllHeadFirst(s) && AllPaid(s)
    decreases |es|
  {
    InitGood(clients, initial);
    if es != [] {
      var before := Exec(Init(clients, initial), es[..|es| - 1]).value;
      RunPaid(clients, initial, es[..|es| - 1], before);
      ApplyKeepsGood(before, es[|es| - 1]);
      ApplyKeepsPaid(before, es[|es| - 1]);
    }
  }
}
