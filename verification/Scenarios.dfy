/** Building runs of the machine step by step, for the results that say
    something can happen. */
module Scenarios {
  import opened Wrappers
  import opened Sequences
  import opened Config
  import opened Split
  import opened Server
  import opened Program
  import opened Client
  import Pool
  import PoolRuns
  import Window

  type Objects = map<Key, Bytes>

  /** A run, where it has led, and the objects the store may hold along it. */
  datatype Run = Run(clients: seq<S3Config>, initial: Objects, es: seq<Event>, s: System, past: set<Objects>)

  ghost predicate ObjectsAt(s0: System, es: seq<Event>, past: set<Objects>)
    requires Formed(s0)
  {
    Exec(s0, es).Some? && Exec(s0, es).value.store.objects in past
  }

  ghost predicate Valid(r: Run) {
    && Reaches(r.clients, r.initial, r.es, r.s)
    && forall q :: 0 <= q <= |r.es| ==> ObjectsAt(Init(r.clients, r.initial), r.es[..q], r.past)
  }

  predicate SameStart(r: Run, r': Run) { r'.clients == r.clients && r'.initial == r.initial && r'.past == r.past }

  lemma Begun(clients: seq<S3Config>, initial: Objects, past: set<Objects>) returns (r: Run)
    requires Starts(clients) && initial in past
    ensures Valid(r) && r == Run(clients, initial, [], Init(clients, initial), past)
  {
    r := Run(clients, initial, [], Init(clients, initial), past);
  }

  /** The same run, with more objects allowed from now on. */
  lemma Widen(r: Run, past: set<Objects>) returns (r': Run)
    requires Valid(r) && r.past <= past
    ensures Valid(r') && r' == r.(past := past)
  {
    r' := r.(past := past);
    var s0 := Init(r.clients, r.initial);
    forall q | 0 <= q <= |r.es| ensures ObjectsAt(s0, r'.es[..q], past) {
      assert ObjectsAt(s0, r.es[..q], r.past);
    }
  }

  lemma Go(r: Run, e: Event) returns (r': Run)
    requires Valid(r) && Formed(r.s) && Enabled(r.s, e) && Apply(r.s, e).store.objects in r.past
    ensures Valid(r') && r' == r.(es := r.es + [e], s := Apply(r.s, e))
  {
    r' := r.(es := r.es + [e], s := Apply(r.s, e));
    var s0 := Init(r.clients, r.initial);
    assert r'.es[..|r.es|] == r.es;
    assert Exec(s0, r'.es) == Some(r'.s);
    forall q | 0 <= q <= |r'.es| ensures ObjectsAt(s0, r'.es[..q], r.past) {
      if q <= |r.es| {
        assert r'.es[..q] == r.es[..q];
      } else {
        assert r'.es[..q] == r'.es;
      }
    }
  }

  lemma GoDo(r: Run, i: nat, act: Action) returns (r': Run)
    requires Valid(r) && Formed(r.s) && i < |r.s.ops| && DoEnabled(r.s, i, act)
    ensures Valid(r') && SameStart(r, r') && r'.s == DoApply(r.s, i, act)
  {
    assert r.es[..|r.es|] == r.es;
    assert ObjectsAt(Init(r.clients, r.initial), r.es[..|r.es|], r.past);
    r' := Go(r, Do(i, act));
  }

  lemma Called(r: Run, client: nat, kind: Kind) returns (r': Run)
    requires Valid(r) && Formed(r.s) && client < |r.s.clients|
    ensures Valid(r') && SameStart(r, r') && r'.s == Apply(r.s, Call(client, kind))
  {
    assert r.es[..|r.es|] == r.es;
    assert ObjectsAt(Init(r.clients, r.initial), r.es[..|r.es|], r.past);
    r' := Go(r, Call(client, kind));
  }

  // ---------- an uncontended reservation ----------

  function HalfAt(s: System, i: nat): Pool.Half
    requires Formed(s) && i < |s.ops| && !s.ops[i].stage.Ended?
  {
    s.halves[HalfOf(s.ops[i].client, AskOf(s.ops[i].stage))]
  }

  function NeedAt(s: System, i: nat): nat
    requires Formed(s) && i < |s.ops| && !s.ops[i].stage.Ended?
  {
    Pool.AsU32(CountOf(ConfigOf(s, i), AskOf(s.ops[i].stage)))
  }

  /** `s'` differs from `s` in operation `i` and its half only. */
  predicate OnlyMoves(s: System, s': System, i: nat)
    requires Formed(s) && i < |s.ops| && !s.ops[i].stage.Ended?
  {
    var h := HalfOf(s.ops[i].client, AskOf(s.ops[i].stage));
    && |s'.ops| == |s.ops| && s'.ops == s.ops[i := s'.ops[i]]
    && s'.ops[i].client == s.ops[i].client && s'.ops[i].kind == s.ops[i].kind
    && |s'.halves| == |s.halves| && s'.halves == s.halves[h := s'.halves[h]]
    && s'.clients == s.clients && s'.store == s.store && s'.clock == s.clock
  }

  /** The pool's event for a step inside `acquire` that leaves the operation as it is. */
  function Inside(act: Action, t: nat): Pool.Event {
    match act
    case Join => Pool.Join(t)
    case Grant => Pool.Grant(t)
    case Expire => Pool.Expire(t)
    case _ => Pool.Resume(t)
  }

  lemma GoInside(r: Run, i: nat, act: Action) returns (r': Run)
    requires Valid(r) && Formed(r.s) && i < |r.s.ops| && r.s.ops[i].stage.Asking?
    requires act.Join? || act.Grant? || act.Expire? || act.Resume?
    requires Pool.Enabled(HalfAt(r.s, i), Inside(act, r.s.ops[i].stage.ticket))
    ensures Valid(r') && SameStart(r, r') && Formed(r'.s)
    ensures var h := HalfOf(r.s.ops[i].client, AskOf(r.s.ops[i].stage));
      r'.s == r.s.(halves := r.s.halves[h := Pool.Apply(r.s.halves[h], Inside(act, r.s.ops[i].stage.ticket))])
  {
    r' := GoDo(r, i, act);
    assert r'.s.ops == r.s.ops;
  }

  /** `acquire` has been entered. */
  lemma Entered(r: Run, i: nat) returns (r': Run)
    requires Valid(r) && Formed(r.s) && i < |r.s.ops| && r.s.ops[i].stage.Fresh?
    ensures Valid(r') && SameStart(r, r') && Formed(r'.s)
    ensures var op, b, h := r.s.ops[i], HalfAt(r.s, i), HalfOf(r.s.ops[i].client, AskOf(r.s.ops[i].stage));
      && r'.s == r.s.(ops := r'.s.ops, halves := r'.s.halves)
      && |r'.s.ops| == |r.s.ops| && r'.s.ops == r.s.ops[i := r'.s.ops[i]]
      && r'.s.ops[i] == op.(stage := Asking(op.stage.ask, |b.calls|), asked := r.s.clock)
      && r'.s.halves == r.s.halves[h := Pool.Apply(b, Pool.Announce(i, CountOf(ConfigOf(r.s, i), op.stage.ask)))]
  {
    r' := GoDo(r, i, Enter);
  }

  /** Into the line. */
  lemma Queued(r: Run, i: nat) returns (r': Run)
    requires Valid(r) && Formed(r.s) && i < |r.s.ops| && r.s.ops[i].stage.Fresh? && HalfAt(r.s, i).line == []
    ensures Valid(r') && SameStart(r, r') && Formed(r'.s) && OnlyMoves(r.s, r'.s, i) && r'.s.recorder == r.s.recorder
    ensures var op, b := r.s.ops[i], HalfAt(r.s, i);
      && r'.s.ops[i] == op.(stage := Asking(op.stage.ask, |b.calls|), asked := r.s.clock)
      && var b1 := Pool.Apply(b, Pool.Announce(i, CountOf(ConfigOf(r.s, i), op.stage.ask)));
         Pool.Enabled(b1, Pool.Join(|b.calls|)) && HalfAt(r'.s, i) == Pool.Apply(b1, Pool.Join(|b.calls|))
  {
    PoolRuns.TimeoutSteps(HalfAt(r.s, i), i, CountOf(ConfigOf(r.s, i), r.s.ops[i].stage.ask));
    var r1 := Entered(r, i);
    r' := GoInside(r1, i, Join);
  }

  /** Out of the line by the timer. */
  lemma TimedOut(r: Run, i: nat) returns (r': Run)
    requires Valid(r) && Formed(r.s) && i < |r.s.ops| && r.s.ops[i].stage.Fresh? && HalfAt(r.s, i).line == []
    ensures Valid(r') && SameStart(r, r') && Formed(r'.s) && OnlyMoves(r.s, r'.s, i) && r'.s.recorder == r.s.recorder
    ensures var op, t := r.s.ops[i], |HalfAt(r.s, i).calls|;
      && r'.s.ops[i] == op.(stage := Asking(op.stage.ask, t), asked := r.s.clock)
      && HalfAt(r'.s, i).In(t, Pool.Expired)
  {
    PoolRuns.TimeoutSteps(HalfAt(r.s, i), i, CountOf(ConfigOf(r.s, i), r.s.ops[i].stage.ask));
    var r1 := Queued(r, i);
    r' := GoInside(r1, i, Expire);
  }

  /** Into the line and served. */
  lemma Served(r: Run, i: nat) returns (r': Run)
    requires Valid(r) && Formed(r.s) && i < |r.s.ops| && r.s.ops[i].stage.Fresh?
    requires HalfAt(r.s, i).line == [] && NeedAt(r.s, i) <= HalfAt(r.s, i).available
    ensures Valid(r') && SameStart(r, r') && Formed(r'.s) && OnlyMoves(r.s, r'.s, i)
    ensures var op, t := r.s.ops[i], |HalfAt(r.s, i).calls|;
      var n := CountOf(ConfigOf(r.s, i), op.stage.ask);
      && r'.s.ops[i] == op.(stage := Asking(op.stage.ask, t), asked := r.s.clock)
      && var b := HalfAt(r.s, i);
         var b1 := Pool.Apply(b, Pool.Announce(i, n));
         && Pool.Enabled(b1, Pool.Join(t))
         && var b2 := Pool.Apply(b1, Pool.Join(t));
            Pool.Enabled(b2, Pool.Grant(t)) && HalfAt(r'.s, i) == Pool.Apply(b2, Pool.Grant(t))
  {
    PoolRuns.AloneSteps(HalfAt(r.s, i), i, CountOf(ConfigOf(r.s, i), r.s.ops[i].stage.ask));
    var r1 := Queued(r, i);
    r' := GoInside(r1, i, Grant);
  }

  /** `acquire` or `acquire_bulk` by a caller nobody stands before: the
      operation goes on with its first round under the permits. */
  lemma Acquire(r: Run, i: nat) returns (r': Run)
    requires Valid(r) && Formed(r.s) && i < |r.s.ops| && r.s.ops[i].stage.Fresh?
    requires HalfAt(r.s, i).line == [] && NeedAt(r.s, i) <= HalfAt(r.s, i).available
    ensures Valid(r') && SameStart(r, r') && Formed(r'.s) && OnlyMoves(r.s, r'.s, i)
    ensures var op, op', c := r.s.ops[i], r'.s.ops[i], ConfigOf(r.s, i);
      var round := Opening(op.kind, op.stage.ask);
      && op'.stage == Busy(op.stage.ask, |HalfAt(r.s, i).calls|, round, |op.mail|,
                           Window.Open(JobCount(c, op.kind, round), Width(c, round)))
      && op'.mail == op.mail && op'.last == Some(round)
    ensures var half, half' := HalfAt(r.s, i), HalfAt(r'.s, i);
      && half'.line == [] && half'.available == half.available - NeedAt(r.s, i)
      && half'.active == Pool.FetchAdd(half.active, CountOf(ConfigOf(r.s, i), r.s.ops[i].stage.ask))
      && half'.calls == half.calls + [Pool.Call(i, CountOf(ConfigOf(r.s, i), r.s.ops[i].stage.ask), Pool.Counted)]
  {
    PoolRuns.AloneSteps(HalfAt(r.s, i), i, CountOf(ConfigOf(r.s, i), r.s.ops[i].stage.ask));
    var r1 := Served(r, i);
    r' := Admitted(r1, i);
    OnlyMovesTwice(r.s, r1.s, r'.s, i);
  }

  lemma OnlyMovesTwice(s: System, s1: System, s2: System, i: nat)
    requires Formed(s) && Formed(s1) && i < |s.ops| == |s1.ops|
    requires !s.ops[i].stage.Ended? && !s1.ops[i].stage.Ended? && AskOf(s1.ops[i].stage) == AskOf(s.ops[i].stage)
    requires OnlyMoves(s, s1, i) && OnlyMoves(s1, s2, i)
    ensures OnlyMoves(s, s2, i)
  {
  }

  /** The granted caller runs again and builds its permit object. */
  lemma Admitted(r: Run, i: nat) returns (r': Run)
    requires Valid(r) && Formed(r.s) && i < |r.s.ops| && r.s.ops[i].stage.Asking?
    requires HalfAt(r.s, i).In(r.s.ops[i].stage.ticket, Pool.Granted)
    ensures Valid(r') && SameStart(r, r') && Formed(r'.s) && OnlyMoves(r.s, r'.s, i)
    ensures var op, op', c := r.s.ops[i], r'.s.ops[i], ConfigOf(r.s, i);
      var round := Opening(op.kind, op.stage.ask);
      && op'.stage == Busy(op.stage.ask, op.stage.ticket, round, |op.mail|,
                           Window.Open(JobCount(c, op.kind, round), Width(c, round)))
      && op'.mail == op.mail && op'.last == Some(round)
    ensures var b, t := HalfAt(r.s, i), r.s.ops[i].stage.ticket;
      && Pool.Enabled(b, Pool.Resume(t))
      && var b1 := Pool.Apply(b, Pool.Resume(t));
         Pool.Enabled(b1, Pool.Count(t)) && HalfAt(r'.s, i) == Pool.Apply(b1, Pool.Count(t))
  {
    var r1 := GoInside(r, i, Resume);
    r' := GoDo(r1, i, Count);
  }

  // ---------- one request and its reply ----------

  /** Operation `i` can send the next request of its round. */
  predicate CanSend(s: System, i: nat)
    requires Formed(s) && i < |s.ops|
  {
    var op, c := s.ops[i], ConfigOf(s, i);
    && op.stage.Busy? && op.stage.win.CanLaunch() && op.stage.win.next !in op.stage.win.flying
    && Suits(op.kind, op.stage.round) && op.stage.win.next < JobCount(c, op.kind, op.stage.round)
    && op.stage.base + op.stage.win.next == |op.mail|
  }

  function NextRequest(s: System, i: nat): Request
    requires Formed(s) && i < |s.ops| && CanSend(s, i)
  {
    RequestOf(ConfigOf(s, i), s.ops[i].kind, s.ops[i].stage.round, s.ops[i].stage.win.next)
  }

  // The operation with request `req` sent, handled and answered.

  function Sending(c: S3Config, op: Op, req: Request): Op
    requires op.stage.Busy?
  {
    op.(stage := op.stage.(win := op.stage.win.Launch()), mail := op.mail + [Letter(req, Attempts(c), {})])
  }

  function Halfway(c: S3Config, op: Op, req: Request, reply: Reply): Op
    requires op.stage.Busy?
  {
    op.(stage := op.stage.(win := op.stage.win.Launch()), mail := op.mail + [Letter(req, Attempts(c) - 1, {reply})])
  }

  function Exchanged(c: S3Config, op: Op, req: Request, reply: Reply): Op
    requires op.stage.Busy?
  {
    var win := op.stage.win;
    op.(mail := op.mail + [Letter(req, Attempts(c) - 1, {reply})],
        stage := op.stage.(win := win.(next := win.next + 1, done := win.done + [(win.next, reply)])))
  }

  /** The machine with operation `i` replaced. */
  function With(s: System, i: nat, op: Op): System
    requires i < |s.ops|
  {
    s.(ops := s.ops[i := op])
  }

  function ReplyTo(s: System, i: nat, req: Request): Reply { Execute(s.store, i, req, Serve(Some(0))).1 }

  function StoreAfter(s: System, i: nat, req: Request): Store { Execute(s.store, i, req, Serve(Some(0))).0 }

  lemma SendStep(s: System, i: nat)
    requires Formed(s) && i < |s.ops| && CanSend(s, i)
    ensures Enabled(s, Do(i, Launch))
    ensures Apply(s, Do(i, Launch)) == With(s, i, Sending(ConfigOf(s, i), s.ops[i], NextRequest(s, i)))
  {
  }

  lemma HandleStep(s: System, i: nat, req: Request)
    requires Formed(s) && i < |s.ops| && s.ops[i].stage.Busy?
    ensures var c, op, e := ConfigOf(s, i), s.ops[i], Deliver(i, |s.ops[i].mail|, Serve(Some(0)));
      var s1 := With(s, i, Sending(c, op, req));
      && Formed(s1) && Enabled(s1, e)
      && Apply(s1, e) == With(s, i, Halfway(c, op, req, ReplyTo(s, i, req))).(store := StoreAfter(s, i, req))
  {
    var c, op := ConfigOf(s, i), s.ops[i];
    var sent, l := Sending(c, op, req), Letter(req, Attempts(c) - 1, {ReplyTo(s, i, req)});
    assert Answer(sent.mail[|op.mail|], ReplyTo(s, i, req)) == l;
    assert sent.mail[|op.mail| := l] == op.mail + [l];
    UpdateTwice(s.ops, i, sent, Halfway(c, op, req, ReplyTo(s, i, req)));
  }

  lemma ReceiveStep(s: System, i: nat, op: Op, req: Request, reply: Reply)
    requires Formed(s) && i < |s.ops| && op.stage.Busy? && op.stage.win.next !in op.stage.win.flying
    requires op.stage.base + op.stage.win.next == |op.mail| && s.ops[i] == Halfway(ConfigOf(s, i), op, req, reply)
    ensures var e := Do(i, Receive(op.stage.win.next, reply));
      Enabled(s, e) && Apply(s, e) == With(s, i, Exchanged(ConfigOf(s, i), op, req, reply))
  {
    var j := op.stage.win.next;
    assert op.stage.win.flying + {j} - {j} == op.stage.win.flying;
  }

  lemma Send(r: Run, i: nat) returns (r': Run)
    requires Valid(r) && Formed(r.s) && i < |r.s.ops| && CanSend(r.s, i)
    ensures Valid(r') && SameStart(r, r')
    ensures r'.s == With(r.s, i, Sending(ConfigOf(r.s, i), r.s.ops[i], NextRequest(r.s, i)))
  {
    SendStep(r.s, i);
    r' := GoDo(r, i, Launch);
  }

  /** What one exchange makes of the machine. */
  predicate Exchanges(s: System, s': System, i: nat, store: Store, reply: Reply)
    requires Formed(s) && i < |s.ops| && CanSend(s, i)
  {
    s' == With(s, i, Exchanged(ConfigOf(s, i), s.ops[i], NextRequest(s, i), reply)).(store := store)
  }

  /** The three steps of an exchange. */
  lemma ExchangeSteps(s: System, i: nat)
    requires Formed(s) && i < |s.ops| && CanSend(s, i)
    ensures var req := NextRequest(s, i);
      Enabled(s, Do(i, Launch)) &&
      var s1, e := Apply(s, Do(i, Launch)), Deliver(i, |s.ops[i].mail|, Serve(Some(0)));
      Enabled(s1, e) &&
      var s2, e' := Apply(s1, e), Do(i, Receive(s.ops[i].stage.win.next, ReplyTo(s, i, req)));
      && s1.store == s.store && s2.store == StoreAfter(s, i, req)
      && Enabled(s2, e') && Exchanges(s, Apply(s2, e'), i, StoreAfter(s, i, req), ReplyTo(s, i, req))
  {
    var c, op, req, reply := ConfigOf(s, i), s.ops[i], NextRequest(s, i), ReplyTo(s, i, NextRequest(s, i));
    SendStep(s, i);
    HandleStep(s, i, req);
    var s2 := With(s, i, Halfway(c, op, req, reply)).(store := StoreAfter(s, i, req));
    ReceiveStep(s2, i, op, req, reply);
    UpdateTwice(s.ops, i, Halfway(c, op, req, reply), Exchanged(c, op, req, reply));
  }

  /** The next request is sent, handled once and answered. */
  lemma Exchange(r: Run, i: nat) returns (r': Run)
    requires Valid(r) && Formed(r.s) && i < |r.s.ops| && CanSend(r.s, i)
    requires StoreAfter(r.s, i, NextRequest(r.s, i)).objects in r.past
    ensures Valid(r') && SameStart(r, r') && Formed(r'.s)
    ensures var req := NextRequest(r.s, i); Exchanges(r.s, r'.s, i, StoreAfter(r.s, i, req), ReplyTo(r.s, i, req))
  {
    ExchangeSteps(r.s, i);
    var req := NextRequest(r.s, i);
    var r1 := GoDo(r, i, Launch);
    var r2 := Go(r1, Deliver(i, |r.s.ops[i].mail|, Serve(Some(0))));
    r' := GoDo(r2, i, Receive(r.s.ops[i].stage.win.next, ReplyTo(r.s, i, req)));
  }

  /** A step of the transfer engine alone. */
  lemma Transfer(r: Run, i: nat, act: Action) returns (r': Run)
    requires Valid(r) && Formed(r.s) && i < |r.s.ops| && OpEnabled(ConfigOf(r.s, i), r.s.ops[i], act)
    requires act.Launch? || act.Receive? || act.Settle?
    ensures Valid(r') && SameStart(r, r') && Formed(r'.s)
    ensures r'.s == r.s.(ops := r.s.ops[i := OpApply(ConfigOf(r.s, i), r.s.ops[i], act, TicketFor(r.s, i), r.s.clock)])
  {
    r' := GoDo(r, i, act);
  }

  // ---------- a helper returns ----------

  /** The window has drained and the helper of a get returns: its permit goes
      back, and the body goes on. */
  lemma GoBack(r: Run, i: nat) returns (r': Run)
    requires Valid(r) && Formed(r.s) && i < |r.s.ops|
    requires var st := r.s.ops[i].stage;
      && st.Busy? && st.win.Complete() && st.win.done != [] && !BodyHolds(r.s.ops[i].kind)
      && After(st.round, st.win.done).Return? && !After(st.round, st.win.done).out.Cancelled?
      && HalfAt(r.s, i).In(st.ticket, Pool.Counted)
    ensures Valid(r') && SameStart(r, r') && Formed(r'.s) && OnlyMoves(r.s, r'.s, i)
    ensures var op, st := r.s.ops[i], r.s.ops[i].stage;
      var out := After(st.round, st.win.done).out;
      var next := NextAsk(ConfigOf(r.s, i), op.kind, st.ask, out);
      r'.s.ops[i] == op.(stage := if next.Some? then Fresh(next.value) else Returned(st.ask, out))
    ensures var st, half := r.s.ops[i].stage, HalfAt(r.s, i);
      var half' := r'.s.halves[HalfOf(r.s.ops[i].client, st.ask)];
      && half'.line == half.line && half'.available == half.available + half.calls[st.ticket].Need()
      && half'.active == Pool.FetchSub(half.active, half.calls[st.ticket].count)
  {
    var r1 := Transfer(r, i, Settle);
    r' := Discarded(r1, i);
  }

  /** The permit object is dropped. */
  lemma Discarded(r: Run, i: nat) returns (r': Run)
    requires Valid(r) && Formed(r.s) && i < |r.s.ops|
    requires var st := r.s.ops[i].stage;
      && st.Closing? && !st.subbed && !st.out.Cancelled? && !BodyHolds(r.s.ops[i].kind)
      && HalfAt(r.s, i).In(st.ticket, Pool.Counted)
    ensures Valid(r') && SameStart(r, r') && Formed(r'.s) && OnlyMoves(r.s, r'.s, i)
    ensures var op, st := r.s.ops[i], r.s.ops[i].stage;
      var next := NextAsk(ConfigOf(r.s, i), op.kind, st.ask, st.out);
      r'.s.ops[i] == op.(stage := if next.Some? then Fresh(next.value) else Returned(st.ask, st.out))
    ensures var st, half := r.s.ops[i].stage, HalfAt(r.s, i);
      var half' := r'.s.halves[HalfOf(r.s.ops[i].client, st.ask)];
      && half'.line == half.line && half'.available == half.available + half.calls[st.ticket].Need()
      && half'.active == Pool.FetchSub(half.active, half.calls[st.ticket].count)
  {
    PoolRuns.DropSteps(HalfAt(r.s, i), r.s.ops[i].stage.ticket);
    var r1 := GoDo(r, i, Sub);
    r' := GoDo(r1, i, Release);
  }
}
