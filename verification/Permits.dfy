/** Operations and pools together: what is held while requests are in progress,
    and that the pools are never blocked. */
module Permits {
  import opened Wrappers
  import opened Sequences
  import opened Config
  import opened Program
  import opened Client
  import opened Shapes
  import Pool
  import PoolRuns

  // ---------- every half pool runs as if it were alone ----------

  /** The pool steps a run makes on half `h`. */
  function Trace(s: System, es: seq<Event>, h: nat): seq<Pool.Event>
    requires Formed(s) && Exec(s, es).Some?
  {
    if es == [] then []
    else
      var init, e := es[..|es| - 1], es[|es| - 1];
      Trace(s, init, h) + PoolStep(Exec(s, init).value, e, h)
  }

  function PoolStep(s: System, e: Event, h: nat): seq<Pool.Event>
    requires Formed(s) && Enabled(s, e)
  {
    if e.Do? then
      var op := s.ops[e.op];
      var pe := PoolEvent(ConfigOf(s, e.op), e.op, op, e.act);
      if pe.Some? && HalfOf(op.client, AskOf(op.stage)) == h then [pe.value] else []
    else []
  }

  /** Isolation: the steps made on one half, taken alone, are a run of a lone
      half pool that ends in the same state. Whatever happens on other halves,
      clients and in the store leaves no trace. */
  lemma {:induction false} Projection(s: System, es: seq<Event>, h: nat)
    requires Formed(s) && Exec(s, es).Some? && h < |s.halves|
    ensures h < |Exec(s, es).value.halves|
    ensures Pool.Exec(s.halves[h], Trace(s, es, h)) == Some(Exec(s, es).value.halves[h])
  {
    if es != [] {
      var init, e := es[..|es| - 1], es[|es| - 1];
      Projection(s, init, h);
      var m := Exec(s, init).value;
      if PoolStep(m, e, h) != [] {
        PoolRuns.ExecAppend(s.halves[h], Trace(s, init, h), PoolStep(m, e, h)[0]);
      } else {
        assert Trace(s, es, h) == Trace(s, init, h);
      }
    }
  }

  /** Puts and deletes make steps on write halves only, all else on read halves. */
  lemma SidesSeparate(s: System, e: Event, h: nat)
    requires Formed(s) && AllShapes(s) && Enabled(s, e) && PoolStep(s, e, h) != []
    ensures e.Do? && h / 2 == s.ops[e.op].client
    ensures h % 2 == 1 <==> s.ops[e.op].kind.Put? || s.ops[e.op].kind.Delete?
  {
  }

  /** No request of a client overtakes another inside either of its halves. */
  lemma ClientFifo(s: System, es: seq<Event>, h: nat)
    requires Formed(s) && Exec(s, es).Some? && h < |s.halves| && Pool.Inv(s.halves[h])
    ensures h < |Exec(s, es).value.halves|
    ensures var t := Trace(s, es, h);
      PoolRuns.Grants(t) + Exec(s, es).value.halves[h].line
      == Without(s.halves[h].line + PoolRuns.Joined(t), PoolRuns.Withdrawn(t))
  {
    Projection(s, es, h);
    PoolRuns.Fifo(s.halves[h], Trace(s, es, h));
  }

  // ---------- which operation owns which ticket ----------

  predicate HasTicket(st: Stage) { st.Asking? || st.Busy? || st.Settled? || st.Closing? }

  predicate InPhase(st: Stage, p: Pool.Phase) {
    match st
    case Asking(_, _) => p.Announced? || p.Waiting? || p.Granted? || p.Expired? || p.Admitted?
    case Busy(_, _, _, _, _) => p.Counted?
    case Settled(_, _, _) => p.Counted?
    case Closing(_, _, _, subbed) => if subbed then p.Subtracted? else p.Counted?
    case _ => false
  }

  ghost predicate OwnsTicket(s: System, i: nat)
    requires Formed(s) && i < |s.ops|
  {
    var op := s.ops[i];
    HasTicket(op.stage) ==>
      var half := s.halves[HalfOf(op.client, AskOf(op.stage))];
      && op.stage.ticket < |half.calls|
      && half.calls[op.stage.ticket].caller == i
      && half.calls[op.stage.ticket].count == CountOf(ConfigOf(s, i), op.stage.ask)
      && InPhase(op.stage, half.calls[op.stage.ticket].phase)
  }

  ghost predicate HasOwner(s: System, h: nat, t: nat)
    requires Formed(s) && h < |s.halves| && t < |s.halves[h].calls|
  {
    var call := s.halves[h].calls[t];
    call.phase.Gone? ||
    (call.caller < |s.ops| &&
     var op := s.ops[call.caller];
     HasTicket(op.stage) && HalfOf(op.client, AskOf(op.stage)) == h && op.stage.ticket == t)
  }

  ghost predicate Linked(s: System)
    requires Formed(s)
  {
    && (forall i :: 0 <= i < |s.ops| ==> OwnsTicket(s, i))
    && (forall h, t :: 0 <= h < |s.halves| && 0 <= t < |s.halves[h].calls| ==> HasOwner(s, h, t))
  }

  ghost predicate PoolsFit(s: System)
    requires Formed(s)
  {
    forall h :: 0 <= h < |s.halves| ==>
      && Pool.Inv(s.halves[h])
      && s.halves[h].capacity == if h % 2 == 0
          then s.clients[h / 2].readConnections else s.clients[h / 2].writeConnections
  }

  ghost predicate Good(s: System) {
    Formed(s) && AllShapes(s) && Linked(s) && PoolsFit(s)
  }

  lemma InitGood(clients: seq<S3Config>, objects: map<Server.Key, Split.Bytes>)
    requires Starts(clients)
    ensures Good(Init(clients, objects))
  {
  }

  lemma DoKeepsPools(s: System, i: nat, act: Action)
    requires Good(s) && i < |s.ops| && DoEnabled(s, i, act)
    ensures PoolsFit(DoApply(s, i, act))
  {
    var op := s.ops[i];
    var h, pe := HalfOf(op.client, AskOf(op.stage)), PoolEvent(ConfigOf(s, i), i, op, act);
    if pe.Some? {
      Pool.StepKeepsInv(s.halves[h], pe.value);
      Pool.StepCalls(s.halves[h], pe.value);
    }
  }

  /** The stage and the phase of the ticket move together, with the pool ... */
  lemma PoolStepStage(c: S3Config, op: Op, act: Action, ticket: nat, clock: nat)
    requires Sound(c) && OpEnabled(c, op, act) && !Transfers(act) && !act.Enter?
    ensures var st, st' := op.stage, OpApply(c, op, act, ticket, clock).stage;
      HasTicket(st') ==> HasTicket(st) && st'.ticket == st.ticket && st'.ask == st.ask && InPhase(st', PhaseAfter(act))
  {
  }

  /** ... and without it. */
  lemma TransferStage(c: S3Config, op: Op, act: Action, ticket: nat, clock: nat, p: Pool.Phase)
    requires Sound(c) && OpEnabled(c, op, act) && Transfers(act) && (HasTicket(op.stage) ==> InPhase(op.stage, p))
    ensures var st, st' := op.stage, OpApply(c, op, act, ticket, clock).stage;
      HasTicket(st') ==> HasTicket(st) && st'.ticket == st.ticket && st'.ask == st.ask && InPhase(st', p)
  {
  }

  /** How an operation's own ticket moves with it. */
  lemma TicketFollows(s: System, i: nat, act: Action)
    requires Good(s) && i < |s.ops| && DoEnabled(s, i, act)
    ensures OwnsTicket(DoApply(s, i, act), i)
  {
    var c, op := ConfigOf(s, i), s.ops[i];
    assert OwnsTicket(s, i);
    DoMoves(s, i, act);
    OpKeeps(c, op, act, TicketFor(s, i), s.clock);
    StepOnCalls(s, i, act);
    if Transfers(act) {
      var calls := s.halves[HalfOf(op.client, AskOf(op.stage))].calls;
      TransferStage(c, op, act, TicketFor(s, i), s.clock,
                    if HasTicket(op.stage) then calls[op.stage.ticket].phase else Pool.Waiting);
    } else if !act.Enter? {
      PoolStepStage(c, op, act, TicketFor(s, i), s.clock);
    }
  }

  lemma TicketKept(s: System, i: nat, act: Action)
    requires Good(s) && i < |s.ops| && DoEnabled(s, i, act)
    ensures var op, op' := s.ops[i], DoApply(s, i, act).ops[i];
      HasTicket(op.stage) && HasTicket(op'.stage) ==>
        op'.stage.ticket == op.stage.ticket && op'.stage.ask == op.stage.ask
    ensures var op, op' := s.ops[i], DoApply(s, i, act).ops[i];
      HasTicket(op.stage) && !HasTicket(op'.stage) ==>
        DoApply(s, i, act).halves[HalfOf(op.client, AskOf(op.stage))].calls[op.stage.ticket].phase.Gone?
  {
    var c, op := ConfigOf(s, i), s.ops[i];
    assert OwnsTicket(s, i);
    DoMoves(s, i, act);
    StepOnCalls(s, i, act);
    if HasTicket(op.stage) {
      StageLeaves(c, op, act, TicketFor(s, i), s.clock);
    }
    if Transfers(act) {
      TransferStage(c, op, act, TicketFor(s, i), s.clock,
                    if HasTicket(op.stage) then HalfPhase(s, i) else Pool.Waiting);
    } else if !act.Enter? {
      PoolStepStage(c, op, act, TicketFor(s, i), s.clock);
    }
  }

  ghost function HalfPhase(s: System, i: nat): Pool.Phase
    requires Formed(s) && i < |s.ops| && HasTicket(s.ops[i].stage) && OwnsTicket(s, i)
  {
    s.halves[HalfOf(s.ops[i].client, AskOf(s.ops[i].stage))].calls[s.ops[i].stage.ticket].phase
  }

  /** A stage that gives its ticket up does so with the step that ends the call. */
  lemma StageLeaves(c: S3Config, op: Op, act: Action, ticket: nat, clock: nat)
    requires Sound(c) && OpEnabled(c, op, act) && HasTicket(op.stage)
    ensures !HasTicket(OpApply(c, op, act, ticket, clock).stage) ==> !Transfers(act) && PhaseAfter(act).Gone?
  {
  }

  /** A step on one operation moves at most the call on its own ticket. */
  lemma OtherCallsStay(s: System, i: nat, act: Action, h: nat, t: nat)
    requires Good(s) && i < |s.ops| && DoEnabled(s, i, act) && h < |s.halves| && t < |s.halves[h].calls|
    ensures t < |DoApply(s, i, act).halves[h].calls|
    ensures DoApply(s, i, act).halves[h].calls[t] == s.halves[h].calls[t]
         || (s.halves[h].calls[t].caller == i && HasTicket(s.ops[i].stage) && s.ops[i].stage.ticket == t
             && HalfOf(s.ops[i].client, AskOf(s.ops[i].stage)) == h)
  {
    var op := s.ops[i];
    assert OwnsTicket(s, i);
    var h0, pe := HalfOf(op.client, AskOf(op.stage)), PoolEvent(ConfigOf(s, i), i, op, act);
    if pe.Some? {
      Pool.StepCalls(s.halves[h0], pe.value);
    }
  }

  lemma OthersKeepTickets(s: System, i: nat, act: Action, k: nat)
    requires Good(s) && i < |s.ops| && DoEnabled(s, i, act) && k < |s.ops| && k != i
    ensures OwnsTicket(DoApply(s, i, act), k)
  {
    var op := s.ops[k];
    assert OwnsTicket(s, k);
    if HasTicket(op.stage) {
      OtherCallsStay(s, i, act, HalfOf(op.client, AskOf(op.stage)), op.stage.ticket);
    }
  }

  lemma CallsKeepOwners(s: System, i: nat, act: Action, h: nat, t: nat)
    requires Good(s) && i < |s.ops| && DoEnabled(s, i, act)
    requires h < |s.halves| && t < |DoApply(s, i, act).halves[h].calls|
    ensures HasOwner(DoApply(s, i, act), h, t)
  {
    TicketFollows(s, i, act);
    TicketKept(s, i, act);
    if t < |s.halves[h].calls| {
      assert HasOwner(s, h, t);
      OtherCallsStay(s, i, act, h, t);
    } else {
      var op := s.ops[i];
      var h0, pe := HalfOf(op.client, AskOf(op.stage)), PoolEvent(ConfigOf(s, i), i, op, act);
      Pool.StepCalls(s.halves[h0], pe.value);
    }
  }

  lemma DoKeepsLinks(s: System, i: nat, act: Action)
    requires Good(s) && i < |s.ops| && DoEnabled(s, i, act)
    ensures Linked(DoApply(s, i, act))
  {
    var s' := DoApply(s, i, act);
    forall k | 0 <= k < |s'.ops| ensures OwnsTicket(s', k) {
      if k == i { TicketFollows(s, i, act); } else { OthersKeepTickets(s, i, act, k); }
    }
    forall h, t | 0 <= h < |s'.halves| && 0 <= t < |s'.halves[h].calls| ensures HasOwner(s', h, t) {
      CallsKeepOwners(s, i, act, h, t);
    }
  }

  lemma ApplyKeepsGood(s: System, e: Event)
    requires Good(s) && Enabled(s, e)
    ensures Good(Apply(s, e))
  {
    ApplyKeepsShapes(s, e);
    match e
    case Do(i, act) =>
      DoKeepsPools(s, i, act);
      DoKeepsLinks(s, i, act);
    case Call(_, _) => OthersLinked(s, Apply(s, e));
    case Tick(_) => OthersLinked(s, Apply(s, e));
    case Deliver(_, _, _) => OthersLinked(s, Apply(s, e));
  }

  /** Steps that touch no pool and no stage. */
  lemma OthersLinked(s: System, r: System)
    requires Good(s) && Formed(r) && r.halves == s.halves && r.clients == s.clients && |s.ops| <= |r.ops|
    requires forall i :: 0 <= i < |s.ops| ==> r.ops[i].stage == s.ops[i].stage && r.ops[i].client == s.ops[i].client
    requires forall i :: |s.ops| <= i < |r.ops| ==> r.ops[i].stage.Fresh?
    ensures Linked(r) && PoolsFit(r)
  {
    forall i | 0 <= i < |r.ops| ensures OwnsTicket(r, i) {
      if i < |s.ops| {
        assert OwnsTicket(s, i);
      }
    }
    forall h, t | 0 <= h < |r.halves| && 0 <= t < |r.halves[h].calls| ensures HasOwner(r, h, t) {
      assert HasOwner(s, h, t);
    }
  }

  lemma {:induction false} RunKeepsGood(s: System, es: seq<Event>)
    requires Good(s) && Exec(s, es).Some?
    ensures Good(Exec(s, es).value)
  {
    if es != [] {
      RunKeepsGood(s, es[..|es| - 1]);
      ApplyKeepsGood(Exec(s, es[..|es| - 1]).value, es[|es| - 1]);
    }
  }

  /** The phases a pool action takes its ticket from and to. */
  function PhaseBefore(act: Action): Pool.Phase {
    match act
    case Join => Pool.Announced
    case Resume => Pool.Granted
    case Forfeit => Pool.Granted
    case Fail => Pool.Expired
    case Count => Pool.Admitted
    case Sub => Pool.Counted
    case Release => Pool.Subtracted
    case _ => Pool.Waiting
  }

  function PhaseAfter(act: Action): Pool.Phase {
    match act
    case Join => Pool.Waiting
    case Grant => Pool.Granted
    case Expire => Pool.Expired
    case Resume => Pool.Admitted
    case Count => Pool.Counted
    case Sub => Pool.Subtracted
    case Fail => Pool.Gone(false)
    case Release => Pool.Gone(false)
    case _ => Pool.Gone(true)
  }

  /** Steps that leave the pool alone. */
  predicate Transfers(act: Action) {
    act.Launch? || act.Receive? || act.Settle? || act.Cancel? || act.Finish? || act.Drop?
  }

  /** The operation's half before and after a step. */
  lemma StepOnHalf(s: System, i: nat, act: Action)
    requires Formed(s) && i < |s.ops| && DoEnabled(s, i, act)
    ensures var h := HalfOf(s.ops[i].client, AskOf(s.ops[i].stage));
      var pe, s' := PoolEvent(ConfigOf(s, i), i, s.ops[i], act), DoApply(s, i, act);
      && (pe.None? <==> Transfers(act))
      && s'.halves == if pe.None? then s.halves else s.halves[h := Pool.Apply(s.halves[h], pe.value)]
  {
  }

  /** The calls of the operation's half before and after a step. */
  lemma StepOnCalls(s: System, i: nat, act: Action)
    requires Good(s) && i < |s.ops| && DoEnabled(s, i, act)
    ensures var op := s.ops[i];
      var h := HalfOf(op.client, AskOf(op.stage));
      var calls, s' := s.halves[h].calls, DoApply(s, i, act);
      if Transfers(act) then s'.halves == s.halves
      else
        && s'.halves == s.halves[h := s'.halves[h]]
        && (if act.Enter?
            then s'.halves[h].calls == calls + [Pool.Call(i, CountOf(ConfigOf(s, i), op.stage.ask), Pool.Announced)]
            else
              && HasTicket(op.stage) && op.stage.ticket < |calls|
              && calls[op.stage.ticket].phase == PhaseBefore(act)
              && calls[op.stage.ticket].count == CountOf(ConfigOf(s, i), op.stage.ask)
              && s'.halves[h].calls == calls[op.stage.ticket := calls[op.stage.ticket].(phase := PhaseAfter(act))])
  {
    var op := s.ops[i];
    var h, pe := HalfOf(op.client, AskOf(op.stage)), PoolEvent(ConfigOf(s, i), i, op, act);
    StepOnHalf(s, i, act);
    assert OwnsTicket(s, i);
    if pe.Some? {
      Pool.StepCalls(s.halves[h], pe.value);
    }
  }
}
