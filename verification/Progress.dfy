/** No deadlock, and every operation ends. */
module Progress {
  import opened Wrappers
  import opened Sequences
  import opened Config
  import opened Program
  import opened Client
  import opened Shapes
  import opened Permits
  import Pool
  import Window
  import Split
  import opened Server

  ghost predicate AllFit(s: System) {
    forall c :: 0 <= c < |s.clients| ==> Fits(s.clients[c])
  }

  predicate Network(r: Reply) { r.Failed? && r.fault.Transport? }

  /** Events other than arrivals, clock ticks, timeouts, cancellations and
      network failures: what is left is operations going on and the store
      handling and answering requests. */
  predicate Willing(e: Event) {
    match e
    case Call(_, _) => false
    case Tick(_) => false
    case Deliver(_, _, _) => true
    case Do(_, act) =>
      !act.Expire? && !act.Quit? && !act.Forfeit? && !act.Cancel? && (act.Receive? ==> !Network(act.reply))
  }

  /** The letter has been answered or can still be handled, and its answers are the store's. */
  predicate Alive(l: Letter) { (l.left > 0 || l.replies != {}) && forall r :: r in l.replies ==> !Network(r) }

  ghost predicate AllAlive(s: System) {
    forall i, l :: 0 <= i < |s.ops| && 0 <= l < |s.ops[i].mail| ==> Alive(s.ops[i].mail[l])
  }

  /** States from which everything under way can be brought to its end. */
  ghost predicate Lively(s: System) { Good(s) && AllFit(s) && AllAlive(s) }

  lemma ApplyKeepsAlive(s: System, e: Event)
    requires Formed(s) && Enabled(s, e) && AllFit(s) && AllAlive(s)
    ensures AllAlive(Apply(s, e))
  {
    match e
    case Do(i, act) =>
      DoMoves(s, i, act);
      StepKeepsAlive(ConfigOf(s, i), s.ops[i], act, TicketFor(s, i), s.clock);
    case Deliver(i, l, choice) => ExecuteAnswers(s.store, i, s.ops[i].mail[l].req, choice);
    case _ =>
  }

  lemma StepKeepsAlive(c: S3Config, op: Op, act: Action, ticket: nat, clock: nat)
    requires Sound(c) && Fits(c) && OpEnabled(c, op, act)
    requires forall l :: 0 <= l < |op.mail| ==> Alive(op.mail[l])
    ensures var op' := OpApply(c, op, act, ticket, clock); forall l :: 0 <= l < |op'.mail| ==> Alive(op'.mail[l])
  {
  }

  lemma {:induction false} RunLively(clients: seq<S3Config>, objects: map<Key, Split.Bytes>, es: seq<Event>, s: System)
    requires Reaches(clients, objects, es, s) && forall c :: 0 <= c < |clients| ==> Fits(clients[c])
    ensures Lively(s)
    decreases |es|
  {
    InitGood(clients, objects);
    if es != [] {
      var before := Exec(Init(clients, objects), es[..|es| - 1]).value;
      RunLively(clients, objects, es[..|es| - 1], before);
      ApplyKeepsGood(before, es[|es| - 1]);
      ApplyKeepsAlive(before, es[|es| - 1]);
    }
  }

  ghost predicate AllEnded(s: System) {
    forall i :: 0 <= i < |s.ops| ==> s.ops[i].stage.Ended?
  }

  /** A call in the line: the only place an operation waits for another. */
  ghost predicate Parked(s: System, i: nat)
    requires Good(s) && i < |s.ops|
  {
    var op := s.ops[i];
    && op.stage.Asking?
    && OwnsTicket(s, i)
    && s.halves[HalfOf(op.client, op.stage.ask)].calls[op.stage.ticket].phase.Waiting?
  }

  /** An unfinished operation that is not in line can always go on, by a step of
      its own or by the store handling a request of its. */
  lemma OwnStep(s: System, i: nat) returns (e: Event)
    requires Lively(s) && i < |s.ops| && !s.ops[i].stage.Ended? && !Parked(s, i)
    ensures Willing(e) && Enabled(s, e)
  {
    var op := s.ops[i];
    assert OwnsTicket(s, i) && Shape(ConfigOf(s, i), op);
    match op.stage
    case Fresh(_) => e := Do(i, Enter);
    case Asking(ask, t) =>
      match s.halves[HalfOf(op.client, ask)].calls[t].phase {
        case Announced => e := Do(i, Join);
        case Granted => e := Do(i, Resume);
        case Expired => e := Do(i, Fail);
        case Admitted => e := Do(i, Count);
      }
    case Busy(_, _, _, _, _) => e := TransferStep(s, i);
    case Settled(_, _, _) => e := Do(i, Finish);
    case Closing(_, _, _, subbed) => e := Do(i, if subbed then Release else Sub);
    case Returned(_, _) => e := Do(i, Finish);
    case Leaving(_, _) => e := Do(i, Drop);
  }

  lemma TransferStep(s: System, i: nat) returns (e: Event)
    requires Lively(s) && i < |s.ops| && s.ops[i].stage.Busy?
    ensures Willing(e) && Enabled(s, e)
  {
    var op := s.ops[i];
    var st, win := op.stage, op.stage.win;
    assert Shape(ConfigOf(s, i), op);
    RoundsNotEmpty(ConfigOf(s, i), op.kind, st.ask, st.round);
    if win.CanLaunch() {
      e := Do(i, Launch);
    } else if win.flying != {} {
      var j :| j in win.flying;
      e := Awaited(s, i, j);
    } else {
      Window.CompleteIsPermutation(win);
      e := Do(i, Settle);
    }
  }

  /** A request in flight has an answer, or the store can still handle it. */
  lemma Awaited(s: System, i: nat, j: nat) returns (e: Event)
    requires Lively(s) && i < |s.ops| && s.ops[i].stage.Busy? && j in s.ops[i].stage.win.flying
    ensures Willing(e) && Enabled(s, e)
  {
    var op := s.ops[i];
    assert Shape(ConfigOf(s, i), op);
    var l := op.stage.base + j;
    assert Alive(op.mail[l]);
    if r :| r in op.mail[l].replies {
      e := Do(i, Receive(j, r));
    } else {
      assert op.mail[l].replies == {};
      e := Deliver(i, l, Serve(Some(0)));
    }
  }

  /** If everybody unfinished is in line, the head of any such line is served:
      nobody waits for permits while holding permits. */
  lemma HeadIsServed(s: System, i: nat) returns (k: nat)
    requires Good(s) && AllFit(s) && i < |s.ops| && !s.ops[i].stage.Ended?
    requires forall k :: 0 <= k < |s.ops| && !s.ops[k].stage.Ended? ==> Parked(s, k)
    ensures k < |s.ops| && DoEnabled(s, k, Grant)
  {
    var op := s.ops[i];
    assert Parked(s, i);
    var h := HalfOf(op.client, op.stage.ask);
    var half := s.halves[h];
    assert half.In(op.stage.ticket, Pool.Waiting);
    assert op.stage.ticket in half.line;
    forall t | 0 <= t < |half.calls| ensures Pool.HeldBy(half.calls[t]) == 0 {
      assert HasOwner(s, h, t);
      if !half.calls[t].phase.Gone? {
        assert Parked(s, half.calls[t].caller);
      }
    }
    SumZero(Pool.HeldBy, half.calls);
    var t := half.line[0];
    assert half.In(t, Pool.Waiting) by { assert t in half.line; }
    assert HasOwner(s, h, t);
    k := half.calls[t].caller;
    assert OwnsTicket(s, k) && Shape(ConfigOf(s, k), s.ops[k]);
  }

  /** Deadlock freedom: with workable clients, any reachable state with an
      unfinished operation has an event that is neither a timeout nor a
      cancellation nor a network failure. */
  lemma NeverStuck(s: System) returns (e: Event)
    requires Lively(s) && !AllEnded(s)
    ensures Willing(e) && Enabled(s, e)
  {
    if k :| 0 <= k < |s.ops| && !s.ops[k].stage.Ended? && !Parked(s, k) {
      e := OwnStep(s, k);
    } else {
      var k :| 0 <= k < |s.ops| && !s.ops[k].stage.Ended?;
      var i := HeadIsServed(s, k);
      e := Do(i, Grant);
    }
  }

  // ---------- a measure every step decreases ----------

  function RoundRank(kind: Kind, round: Round): nat {
    match round
    case RHead => if kind.Get? then 3 else 1
    case RPage(left) => left + 1
    case RCreate => 3
    case RParts(_) => 2
    case _ => 1
  }

  /** Rounds still ahead. */
  function RoundsLeft(c: S3Config, op: Op): nat {
    match op.stage
    case Fresh(ask) => RoundRank(op.kind, Opening(op.kind, ask))
    case Asking(ask, _) => RoundRank(op.kind, Opening(op.kind, ask))
    case Busy(_, _, round, _, _) => RoundRank(op.kind, round)
    case Closing(ask, _, out, _) => if NextAsk(c, op.kind, ask, out).Some? then 2 else 0
    case _ => 0
  }

  /** Requests of the current round not sent yet. */
  function Unsent(c: S3Config, op: Op): int
    requires Sound(c)
  {
    match op.stage
    case Fresh(ask) => JobCount(c, op.kind, Opening(op.kind, ask))
    case Asking(ask, _) => JobCount(c, op.kind, Opening(op.kind, ask))
    case Busy(_, _, _, _, win) => win.n - win.next
    case _ => 0
  }

  function LeftOf(l: Letter): int { l.left }

  /** Steps an operation still takes without the pool at the end of its code. */
  function Tail(st: Stage): nat {
    match st
    case Fresh(_) => 13
    case Closing(_, _, _, _) => 3
    case Returned(_, _) => 2
    case Leaving(_, _) => 1
    case Ended(_) => 0
    case _ => 4
  }

  /** Replies awaited and deliveries still possible. */
  function Pending(op: Op): int {
    Tail(op.stage) + (if op.stage.Busy? then |op.stage.win.flying| else 0) + Sum(LeftOf, op.mail)
  }

  function Rank(p: Pool.Phase): int {
    match p
    case Announced => 7
    case Waiting => 6
    case Granted => 5
    case Expired => 5
    case Admitted => 4
    case Counted => 3
    case Subtracted => 2
    case Gone(_) => 0
  }

  function PhaseRank(call: Pool.Call): int { Rank(call.phase) }

  lemma RankDrops(act: Action)
    requires !Transfers(act) && !act.Enter?
    ensures Rank(PhaseAfter(act)) < Rank(PhaseBefore(act))
  {
  }

  function HalfRank(half: Pool.Half): int { Sum(PhaseRank, half.calls) }

  // The three components of the measure, as sums over the machine.

  function RoundsFn(clients: seq<S3Config>): Op -> int {
    (op: Op) => if op.client < |clients| then RoundsLeft(clients[op.client], op) else 0
  }

  function UnsentFn(clients: seq<S3Config>): Op -> int {
    (op: Op) => if op.client < |clients| && Sound(clients[op.client]) then Unsent(clients[op.client], op) else 0
  }

  function Rounds(s: System): int { Sum(RoundsFn(s.clients), s.ops) }

  function UnsentAll(s: System): int { Sum(UnsentFn(s.clients), s.ops) }

  function Rest(s: System): int { Sum(Pending, s.ops) + Sum(HalfRank, s.halves) }

  /** `s'` is below `s` in the lexicographic order. */
  predicate Below(s': System, s: System) {
    || Rounds(s') < Rounds(s)
    || (Rounds(s') == Rounds(s) && UnsentAll(s') < UnsentAll(s))
    || (Rounds(s') == Rounds(s) && UnsentAll(s') == UnsentAll(s) && Rest(s') < Rest(s))
  }

  lemma MeasureNonNegative(s: System)
    requires Good(s)
    ensures Rounds(s) >= 0 && UnsentAll(s) >= 0 && Rest(s) >= 0
  {
    SumNonNegative(RoundsFn(s.clients), s.ops);
    forall i | 0 <= i < |s.ops| ensures UnsentFn(s.clients)(s.ops[i]) >= 0 && Pending(s.ops[i]) >= 0 {
      assert Shape(ConfigOf(s, i), s.ops[i]);
      SumNonNegative(LeftOf, s.ops[i].mail);
    }
    SumNonNegative(UnsentFn(s.clients), s.ops);
    SumNonNegative(Pending, s.ops);
    forall h | 0 <= h < |s.halves| ensures HalfRank(s.halves[h]) >= 0 {
      SumNonNegative(PhaseRank, s.halves[h].calls);
    }
    SumNonNegative(HalfRank, s.halves);
  }

  /** A step takes an operation's share down, in the lexicographic order. */
  predicate ShareFalls(c: S3Config, op: Op, op': Op, act: Action)
    requires Sound(c)
  {
    || RoundsLeft(c, op') < RoundsLeft(c, op)
    || (RoundsLeft(c, op') == RoundsLeft(c, op) && Unsent(c, op') < Unsent(c, op))
    || (RoundsLeft(c, op') == RoundsLeft(c, op) && Unsent(c, op') == Unsent(c, op)
        && Pending(op') <= Pending(op) - (if act.Enter? then 9 else if Transfers(act) then 1 else 0))
  }

  lemma TransferShrinks(c: S3Config, op: Op, act: Action, ticket: nat, clock: nat)
    requires Sound(c) && Shape(c, op) && OpEnabled(c, op, act) && Transfers(act)
    ensures ShareFalls(c, op, OpApply(c, op, act, ticket, clock), act)
  {
    match act
    case Launch => LaunchShrinks(c, op, ticket, clock);
    case Receive(j, _) => Window.SizeWithout(op.stage.win.flying, j);
    case Settle => SettleShrinks(c, op, ticket, clock);
    case _ => EndingShrinks(c, op, act, ticket, clock);
  }

  lemma LaunchShrinks(c: S3Config, op: Op, ticket: nat, clock: nat)
    requires Sound(c) && Shape(c, op) && OpEnabled(c, op, Launch)
    ensures ShareFalls(c, op, OpApply(c, op, Launch, ticket, clock), Launch)
  {
  }

  lemma EndingShrinks(c: S3Config, op: Op, act: Action, ticket: nat, clock: nat)
    requires Sound(c) && Shape(c, op) && OpEnabled(c, op, act) && (act.Cancel? || act.Finish? || act.Drop?)
    ensures ShareFalls(c, op, OpApply(c, op, act, ticket, clock), act)
  {
  }

  lemma SettleShrinks(c: S3Config, op: Op, ticket: nat, clock: nat)
    requires Sound(c) && Shape(c, op) && OpEnabled(c, op, Settle)
    ensures RoundsLeft(c, OpApply(c, op, Settle, ticket, clock)) < RoundsLeft(c, op)
  {
  }

  lemma PoolStepShrinks(c: S3Config, op: Op, act: Action, ticket: nat, clock: nat)
    requires Sound(c) && Shape(c, op) && OpEnabled(c, op, act) && !Transfers(act)
    ensures ShareFalls(c, op, OpApply(c, op, act, ticket, clock), act)
  {
  }

  /** What one step does to one operation's share. */
  lemma OpShrinks(c: S3Config, op: Op, act: Action, ticket: nat, clock: nat)
    requires Sound(c) && Shape(c, op) && OpEnabled(c, op, act)
    ensures ShareFalls(c, op, OpApply(c, op, act, ticket, clock), act)
  {
    if Transfers(act) {
      TransferShrinks(c, op, act, ticket, clock);
    } else {
      PoolStepShrinks(c, op, act, ticket, clock);
    }
  }

  lemma HalfShrinks(s: System, i: nat, act: Action)
    requires Good(s) && i < |s.ops| && DoEnabled(s, i, act)
    ensures Sum(HalfRank, DoApply(s, i, act).halves)
      <= Sum(HalfRank, s.halves) + if act.Enter? then 7 else if Transfers(act) then 0 else -1
  {
    var op := s.ops[i];
    var h := HalfOf(op.client, AskOf(op.stage));
    var calls, s' := s.halves[h].calls, DoApply(s, i, act);
    StepOnCalls(s, i, act);
    if !Transfers(act) {
      SumUpdate(HalfRank, s.halves, h, s'.halves[h]);
      if act.Enter? {
        SumAppend(PhaseRank, calls, Pool.Call(i, CountOf(ConfigOf(s, i), op.stage.ask), Pool.Announced));
      } else {
        RankDrops(act);
        SumUpdate(PhaseRank, calls, op.stage.ticket, calls[op.stage.ticket].(phase := PhaseAfter(act)));
      }
    }
  }

  /** The measure of a machine in which one operation and the pools changed. */
  lemma MeasureMoves(s: System, s': System, i: nat)
    requires Formed(s) && Formed(s') && i < |s.ops| && s'.clients == s.clients && |s'.ops| == |s.ops|
    requires s'.ops == s.ops[i := s'.ops[i]] && s'.ops[i].client == s.ops[i].client
    ensures var c := ConfigOf(s, i);
      && Rounds(s') == Rounds(s) - RoundsLeft(c, s.ops[i]) + RoundsLeft(c, s'.ops[i])
      && UnsentAll(s') == UnsentAll(s) - Unsent(c, s.ops[i]) + Unsent(c, s'.ops[i])
      && Rest(s') == Rest(s) - Pending(s.ops[i]) + Pending(s'.ops[i]) - Sum(HalfRank, s.halves) +
          Sum(HalfRank, s'.halves)
  {
    SumUpdate(RoundsFn(s.clients), s.ops, i, s'.ops[i]);
    SumUpdate(UnsentFn(s.clients), s.ops, i, s'.ops[i]);
    SumUpdate(Pending, s.ops, i, s'.ops[i]);
  }

  /** Every step of an operation, including timeouts and cancellations, and
      every delivery takes the machine down a well-founded order: without new
      arrivals no run goes on for ever. */
  lemma StepDescends(s: System, e: Event)
    requires Good(s) && Enabled(s, e) && (e.Do? || e.Deliver?)
    ensures Below(Apply(s, e), s)
  {
    match e
    case Do(i, act) => DoDescends(s, i, act);
    case Deliver(i, l, _) =>
      var op' := Apply(s, e).ops[i];
      MeasureMoves(s, Apply(s, e), i);
      SumUpdate(LeftOf, s.ops[i].mail, l, op'.mail[l]);
  }

  lemma DoDescends(s: System, i: nat, act: Action)
    requires Good(s) && i < |s.ops| && DoEnabled(s, i, act)
    ensures Below(DoApply(s, i, act), s)
  {
    var op := s.ops[i];
    assert Shape(ConfigOf(s, i), op);
    MeasureMoves(s, DoApply(s, i, act), i);
    OpShrinks(ConfigOf(s, i), op, act, TicketFor(s, i), s.clock);
    HalfShrinks(s, i, act);
  }

  lemma ExecAppend(s: System, es: seq<Event>, e: Event)
    requires Formed(s)
    ensures Exec(s, es + [e]) == if Exec(s, es).Some? && Enabled(Exec(s, es).value, e)
                                 then Some(Apply(Exec(s, es).value, e)) else None
  {
    assert (es + [e])[..|es|] == es;
  }

  lemma {:induction false} ExecAfter(s: System, e: Event, es: seq<Event>)
    requires Formed(s) && Enabled(s, e)
    ensures Exec(s, [e] + es) == Exec(Apply(s, e), es)
  {
    if es == [] {
      ExecAppend(s, [], e);
      assert [] + [e] == [e] + es;
    } else {
      var init, last := es[..|es| - 1], es[|es| - 1];
      ExecAfter(s, e, init);
      ExecAppend(s, [e] + init, last);
      assert [e] + es == ([e] + init) + [last];
    }
  }

  lemma {:induction false} ExecConcat(s: System, es: seq<Event>, rest: seq<Event>)
    requires Formed(s) && Exec(s, es).Some?
    ensures Exec(s, es + rest) == Exec(Exec(s, es).value, rest)
  {
    if rest == [] {
      assert es + rest == es;
    } else {
      var init, last := rest[..|rest| - 1], rest[|rest| - 1];
      ExecConcat(s, es, init);
      ExecAppend(s, es + init, last);
      ExecAppend(Exec(s, es).value, init, last);
      assert es + rest == (es + init) + [last] && rest == init + [last];
    }
  }

  predicate AllWilling(es: seq<Event>) { forall k :: 0 <= k < |es| ==> Willing(es[k]) }

  /** From every reachable state the operations already under way can all be
      brought to their end by answers of the store alone: no timeout, no
      cancellation, no network failure. */
  lemma {:induction false} CanAlwaysDrain(s: System) returns (es: seq<Event>)
    requires Lively(s)
    ensures AllWilling(es) && Exec(s, es).Some? && AllEnded(Exec(s, es).value)
    decreases Rounds(s), UnsentAll(s), Rest(s)
  {
    es := [];
    MeasureNonNegative(s);
    if !AllEnded(s) {
      var e := NeverStuck(s);
      DrainStep(s, e);
      var rest := CanAlwaysDrain(Apply(s, e));
      es := Prepend(s, e, rest);
    }
  }

  lemma Prepend(s: System, e: Event, rest: seq<Event>) returns (es: seq<Event>)
    requires Formed(s) && Enabled(s, e) && Willing(e) && AllWilling(rest)
    ensures AllWilling(es) && Exec(s, es) == Exec(Apply(s, e), rest)
  {
    es := [e] + rest;
    ExecAfter(s, e, rest);
  }

  lemma DrainStep(s: System, e: Event)
    requires Lively(s) && Enabled(s, e) && Willing(e)
    ensures Lively(Apply(s, e)) && Below(Apply(s, e), s)
    ensures Rounds(Apply(s, e)) >= 0 && UnsentAll(Apply(s, e)) >= 0 && Rest(Apply(s, e)) >= 0
  {
    ApplyKeepsGood(s, e);
    ApplyKeepsAlive(s, e);
    StepDescends(s, e);
    MeasureNonNegative(Apply(s, e));
  }

  /** When all operations have ended every half is back at full capacity. */
  lemma EndedPoolsFull(s: System, h: nat)
    requires Good(s) && AllEnded(s) && h < |s.halves|
    ensures s.halves[h].available == s.halves[h].capacity && s.halves[h].active == 0 && s.halves[h].line == []
  {
    var half := s.halves[h];
    forall t | 0 <= t < |half.calls| ensures half.calls[t].phase.Gone? {
      assert HasOwner(s, h, t);
    }
    SumZero(Pool.HeldBy, half.calls);
    SumZero(Pool.ActiveBy, half.calls);
    assert forall t :: t !in half.line;
    EmptyOrInhabited(half.line);
  }
}
