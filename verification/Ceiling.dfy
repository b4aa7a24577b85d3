/** The connection ceiling: requests in progress never outnumber permits held,
    nor permits held the connections configured. */
module Ceiling {
  import opened Sequences
  import opened Config
  import opened Program
  import opened Client
  import opened Shapes
  import opened Permits
  import opened Payments
  import Pool
  import PoolRuns

  /** Permits operation `op` has counted as active on half `h`. */
  function Holding(clients: seq<S3Config>, h: nat, op: Op): nat {
    var st := op.stage;
    var active := st.Busy? || st.Settled? || (st.Closing? && !st.subbed);
    if op.client < |clients| && active && HalfOf(op.client, st.ask) == h then CountOf(clients[op.client], st.ask) else 0
  }

  function Holds(clients: seq<S3Config>, h: nat): Op -> int { op => Holding(clients, h, op) }

  /** Store requests operation `op` has in progress under half `h`. */
  function Requesting(h: nat, op: Op): nat {
    if op.stage.Busy? && HalfOf(op.client, op.stage.ask) == h then |op.stage.win.flying| else 0
  }

  function Requests(h: nat): Op -> int { op => Requesting(h, op) }

  ghost predicate Balanced(s: System, h: nat) {
    h < |s.halves| && Sum(Holds(s.clients, h), s.ops) == Sum(Pool.ActiveBy, s.halves[h].calls)
  }

  /** Connections and concurrency of the side that half `h` serves. */
  function Connections(clients: seq<S3Config>, h: nat): nat
    requires h < 2 * |clients|
  {
    if h % 2 == 0 then clients[h / 2].readConnections else clients[h / 2].writeConnections
  }

  function Concurrency(clients: seq<S3Config>, h: nat): nat
    requires h < 2 * |clients|
  {
    if h % 2 == 0 then clients[h / 2].readConcurrency else clients[h / 2].writeConcurrency
  }

  /** A side on which bulk reservations are granted although they count more
      permits than they take: the concurrency loses bits in the cast, what is
      left of it fits, and operations get as far as asking for it. */
  predicate CanOvershoot(clients: seq<S3Config>, h: nat)
    requires h < 2 * |clients|
  {
    && Concurrency(clients, h) >= Pool.U32
    && Pool.AsU32(Concurrency(clients, h)) <= Connections(clients, h)
    && (h % 2 == 0 ==> Connections(clients, h) >= 1)
  }

  lemma DoKeepsBalance(s: System, i: nat, act: Action, h: nat)
    requires Good(s) && i < |s.ops| && DoEnabled(s, i, act) && Balanced(s, h)
    ensures Balanced(DoApply(s, i, act), h)
  {
    SumUpdate(Holds(s.clients, h), s.ops, i, DoApply(s, i, act).ops[i]);
    HoldingMoves(s, i, act, h);
    CallsMove(s, i, act, h);
  }

  /** What a step of operation `i` adds to the active calls of half `h`. */
  lemma CallsMove(s: System, i: nat, act: Action, h: nat)
    requires Good(s) && i < |s.ops| && DoEnabled(s, i, act) && h < |s.halves|
    ensures var op := s.ops[i];
      var n: int := CountOf(ConfigOf(s, i), AskOf(op.stage));
      Sum(Pool.ActiveBy, DoApply(s, i, act).halves[h].calls) - Sum(Pool.ActiveBy, s.halves[h].calls)
      == if HalfOf(op.client, AskOf(op.stage)) != h then 0
         else if act.Count? then n else if act.Sub? then -n else 0
  {
    StepOnCalls(s, i, act);
    if HalfOf(s.ops[i].client, AskOf(s.ops[i].stage)) == h {
      OwnCallsMove(s, i, act);
    }
  }

  lemma OwnCallsMove(s: System, i: nat, act: Action)
    requires Good(s) && i < |s.ops| && DoEnabled(s, i, act)
    ensures var op := s.ops[i];
      var n: int := CountOf(ConfigOf(s, i), AskOf(op.stage));
      var h := HalfOf(op.client, AskOf(op.stage));
      Sum(Pool.ActiveBy, DoApply(s, i, act).halves[h].calls) - Sum(Pool.ActiveBy, s.halves[h].calls)
      == if act.Count? then n else if act.Sub? then -n else 0
  {
    var op := s.ops[i];
    var calls := s.halves[HalfOf(op.client, AskOf(op.stage))].calls;
    StepOnCalls(s, i, act);
    if act.Enter? {
      EnterMoves(calls, i, CountOf(ConfigOf(s, i), op.stage.ask));
    } else if !Transfers(act) {
      TicketMoves(calls, op.stage.ticket, act);
    }
  }

  lemma EnterMoves(calls: seq<Pool.Call>, i: nat, n: nat)
    ensures Sum(Pool.ActiveBy, calls + [Pool.Call(i, n, Pool.Announced)]) == Sum(Pool.ActiveBy, calls)
  {
    SumAppend(Pool.ActiveBy, calls, Pool.Call(i, n, Pool.Announced));
  }

  lemma TicketMoves(calls: seq<Pool.Call>, t: nat, act: Action)
    requires !Transfers(act) && !act.Enter? && t < |calls| && calls[t].phase == PhaseBefore(act)
    ensures Sum(Pool.ActiveBy, calls[t := calls[t].(phase := PhaseAfter(act))]) - Sum(Pool.ActiveBy, calls)
      == if act.Count? then calls[t].count else if act.Sub? then -(calls[t].count as int) else 0
  {
    SumUpdate(Pool.ActiveBy, calls, t, calls[t].(phase := PhaseAfter(act)));
  }

  lemma HoldingMoves(s: System, i: nat, act: Action, h: nat)
    requires Formed(s) && i < |s.ops| && DoEnabled(s, i, act)
    ensures var op := s.ops[i];
      var n: int := CountOf(ConfigOf(s, i), AskOf(op.stage));
      Holding(s.clients, h, DoApply(s, i, act).ops[i]) - Holding(s.clients, h, op)
      == if HalfOf(op.client, AskOf(op.stage)) != h then 0
         else if act.Count? then n else if act.Sub? then -n else 0
  {
  }

  lemma ApplyKeepsBalance(s: System, e: Event, h: nat)
    requires Good(s) && Enabled(s, e) && Balanced(s, h)
    ensures Balanced(Apply(s, e), h)
  {
    match e
    case Do(i, act) => DoKeepsBalance(s, i, act, h);
    case Call(c, kind) => SumAppend(Holds(s.clients, h), s.ops, NewOp(s.clients[c], c, kind, s.clock));
    case Tick(_) =>
    case Deliver(i, _, _) => SumUpdate(Holds(s.clients, h), s.ops, i, Apply(s, e).ops[i]);
  }

  lemma {:induction false} RunBalanced(clients: seq<S3Config>, objects: map<Server.Key, Split.Bytes>, es: seq<Event>,
                                       s: System, h: nat)
    requires Reaches(clients, objects, es, s) && h < 2 * |clients|
    ensures s.clients == clients && Good(s) && Balanced(s, h)
    decreases |es|
  {
    InitGood(clients, objects);
    if es != [] {
      var init, e := es[..|es| - 1], es[|es| - 1];
      var m := Exec(Init(clients, objects), init).value;
      RunBalanced(clients, objects, init, m, h);
      ApplyKeepsGood(m, e);
      ApplyKeepsBalance(m, e, h);
    }
  }

  /** A live permit object of a side that cannot overshoot counts what it holds. */
  lemma CountedSmall(s: System, h: nat, t: nat)
    requires Good(s) && AllPaid(s) && h < |s.halves| && !CanOvershoot(s.clients, h)
    requires t < |s.halves[h].calls| && s.halves[h].calls[t].phase.Counted?
    ensures s.halves[h].calls[t].count < Pool.U32
  {
    assert HasOwner(s, h, t);
    var i := s.halves[h].calls[t].caller;
    assert OwnsTicket(s, i) && Shape(ConfigOf(s, i), s.ops[i]);
    PoolRuns.HeldFits(s.halves[h], t);
    assert h / 2 == s.ops[i].client && (h % 2 == 1 <==> IsWrite(s.ops[i].stage.ask));
  }

  /** In every reachable state each operation has at most as many requests in
      progress as permits it holds; per half these add up to at most the permits
      held, which the `active` counter tracks modulo 2^64. On a side that cannot
      overshoot, the counter is exact and at most the connections configured. */
  lemma ConnectionCeiling(clients: seq<S3Config>, objects: map<Server.Key, Split.Bytes>, es: seq<Event>, s: System,
                          h: nat)
    requires Reaches(clients, objects, es, s) && h < 2 * |clients|
    ensures |s.halves| == 2 * |clients|
    ensures forall i :: 0 <= i < |s.ops| ==> Requesting(h, s.ops[i]) <= Holding(clients, h, s.ops[i])
    ensures Sum(Requests(h), s.ops) <= Sum(Holds(clients, h), s.ops)
    ensures s.halves[h].active == Sum(Holds(clients, h), s.ops) % Pool.U64
    ensures !CanOvershoot(clients, h) ==>
      s.halves[h].active == Sum(Holds(clients, h), s.ops) <= Connections(clients, h)
  {
    RunBalanced(clients, objects, es, s, h);
    forall i | 0 <= i < |s.ops| ensures Requesting(h, s.ops[i]) <= Holding(clients, h, s.ops[i]) {
      var op := s.ops[i];
      if op.stage.Busy? {
        assert Shape(ConfigOf(s, i), op);
        RoundsNotEmpty(ConfigOf(s, i), op.kind, op.stage.ask, op.stage.round);
      }
    }
    SumAtMost(Requests(h), Holds(clients, h), s.ops);
    if !CanOvershoot(clients, h) {
      RunPaid(clients, objects, es, s);
      forall t | 0 <= t < |s.halves[h].calls| && s.halves[h].calls[t].phase.Counted?
        ensures s.halves[h].calls[t].count < Pool.U32
      {
        CountedSmall(s, h, t);
      }
      PoolRuns.ActiveExact(s.halves[h]);
    }
  }
}
