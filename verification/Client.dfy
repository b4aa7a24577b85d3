/** Any number of clients, each with its two half pools, running any number of
    operations against one store: the machine every whole-run result is about. */
module Client {
  import opened Arith
  import opened Wrappers
  import opened Config
  import opened Server
  import opened Program
  import opened Window
  import opened Meters
  import Pool

  /** A request on the network. The SDK retries, so one request may be executed
      up to `left` more times, at any time, even after its sender is gone. */
  datatype Letter = Letter(req: Request, left: nat, replies: set<Reply>)

  datatype Stage =
    | Fresh(ask: Ask)                  // about to call into the pool
    | Asking(ask: Ask, ticket: nat)    // inside `acquire` or `acquire_bulk`
    | Busy(ask: Ask, ticket: nat, round: Round, base: nat, win: Window<Reply>)
    | Settled(ask: Ask, ticket: nat, out: Outcome)  // `finish` is next, the permit still in scope
    | Closing(ask: Ask, ticket: nat, out: Outcome, subbed: bool)  // the permit object is being dropped
    | Returned(ask: Ask, out: Outcome)  // the helper has returned: `finish` or `m.err` is next
    | Leaving(ask: Ask, out: Outcome)   // the body is left: `OpMetrics` is dropped next
    | Ended(out: Outcome)

  /** `last` is the round begun last; `mail` everything ever sent; `asked` is when
      `acquire` was last entered, `waits` how often it succeeded; `meter` and
      `reports` are the operation's `OpMetrics` and what it has recorded. */
  datatype Op = Op(client: nat, kind: Kind, stage: Stage, mail: seq<Letter>, last: Option<Round>,
                   asked: nat, waits: nat, meter: Meter, reports: seq<Report>)

  datatype System = System(clients: seq<S3Config>, halves: seq<Pool.Half>, ops: seq<Op>, store: Store,
                           clock: nat, recorder: Recorder)

  datatype Action =
    | Enter | Join | Grant | Expire | Resume | Fail | Count   // inside the pool
    | Launch | Receive(job: nat, reply: Reply) | Settle       // the transfer engine
    | Sub | Release                                           // dropping the permit
    | Finish | Drop                                           // reporting, and dropping `OpMetrics`
    | Quit | Forfeit | Cancel                                 // the operation's future is dropped

  datatype Event =
    | Call(client: nat, kind: Kind)
    | Tick(elapsed: nat)
    | Deliver(op: nat, letter: nat, choice: Choice)
    | Do(op: nat, act: Action)

  function NameOf(kind: Kind): Name {
    match kind
    case Put(_, _) => PutOp
    case Get(_) => GetOp
    case Delete(_) => DeleteOp
    case Head(_) => HeadOp
    case List(_) => ListOp
  }

  /** The operation has its outcome. */
  predicate Decided(st: Stage) { st.Settled? || st.Closing? || st.Returned? || st.Leaving? || st.Ended? }

  /** Client `c` owns half `2 * c` for reads and `2 * c + 1` for writes. */
  function HalfOf(client: nat, ask: Ask): nat { 2 * client + if IsWrite(ask) then 1 else 0 }

  function HalvesFor(clients: seq<S3Config>): seq<Pool.Half> {
    seq(2 * |clients|, h requires 0 <= h < 2 * |clients| =>
      Pool.Init(if h % 2 == 0 then clients[h / 2].readConnections else clients[h / 2].writeConnections))
  }

  function Init(clients: seq<S3Config>, objects: map<Key, Split.Bytes>): System {
    System(clients, HalvesFor(clients), [], Store(objects, map[], []), 0, Recorder(multiset{}, 0, 0))
  }

  /** `max_attempts = max_retries as u32 + 1`; a request is sent at least once. */
  function Attempts(c: S3Config): (n: nat)
    ensures n >= 1
  {
    var most := (Pool.AsU32(c.maxRetries) + 1) % Pool.U32;
    if most == 0 then 1 else most
  }

  // ---------- one operation's own step ----------

  predicate OpEnabled(c: S3Config, op: Op, act: Action)
    requires Sound(c)
  {
    match act
    case Enter => op.stage.Fresh?
    case Launch =>
      && op.stage.Busy? && op.stage.win.CanLaunch()
      && Suits(op.kind, op.stage.round) && op.stage.win.next < JobCount(c, op.kind, op.stage.round)
    case Receive(j, r) =>
      && op.stage.Busy? && j in op.stage.win.flying
      && ((r.Failed? && r.fault.Transport?)
          || (op.stage.base + j < |op.mail| && r in op.mail[op.stage.base + j].replies))
    case Settle => op.stage.Busy? && op.stage.win.Complete() && op.stage.win.done != []
    case Cancel => op.stage.Busy?
    case Sub => op.stage.Closing? && !op.stage.subbed
    case Release => op.stage.Closing? && op.stage.subbed
    case Finish => op.stage.Settled? || op.stage.Returned?
    case Drop => op.stage.Leaving?
    case _ => op.stage.Asking?
  }

  function Begin(c: S3Config, op: Op, ask: Ask, ticket: nat, round: Round): Op
    requires Sound(c)
  {
    op.(stage := Busy(ask, ticket, round, |op.mail|, Open(JobCount(c, op.kind, round), Width(c, round))),
        last := Some(round))
  }

  /** What `finish` and `m.err` report, and what the drop of `OpMetrics` reports
      unless one of them ran. */
  function Reported(op: Op, act: Action): Option<Status> {
    match act
    case Finish => Some(if Decided(op.stage) && op.stage.out.Ok? then OkStatus else ErrStatus)
    case Drop => if op.meter.done then None else Some(CancelledStatus)
    case _ => None
  }

  /** `m.recv(data.len())` precedes `finish` when a get has its data. */
  function Tallied(op: Op): Meter {
    if Decided(op.stage) && op.stage.out.Ok? && op.stage.out.payload.Data?
    then AddRecv(op.meter, |op.stage.out.payload.body|) else op.meter
  }

  function OpApply(c: S3Config, op: Op, act: Action, ticket: nat, clock: nat): Op
    requires Sound(c) && OpEnabled(c, op, act)
  {
    var st := op.stage;
    match act
    case Enter => op.(stage := Asking(st.ask, ticket), asked := clock)
    case Fail => op.(stage := if BodyHolds(op.kind) then Leaving(st.ask, Err(PoolTimeout))
                              else Returned(st.ask, Err(PoolTimeout)))
    case Quit => op.(stage := Leaving(st.ask, Cancelled))
    case Forfeit => op.(stage := Leaving(st.ask, Cancelled))
    case Count =>
      Begin(c, op.(meter := AddWait(op.meter, SaturatingSub(clock, op.asked)), waits := op.waits + 1),
            st.ask, st.ticket, Opening(op.kind, st.ask))
    case Launch =>
      op.(stage := st.(win := st.win.Launch()),
          mail := op.mail + [Letter(RequestOf(c, op.kind, st.round, st.win.next), Attempts(c), {})])
    case Receive(j, r) => op.(stage := st.(win := st.win.Finish(j, r)))
    case Settle =>
      (match After(st.round, st.win.done)
       case Then(round) => Begin(c, op, st.ask, st.ticket, round)
       case Return(out) => op.(stage := if BodyHolds(op.kind) then Settled(st.ask, st.ticket, out)
                                        else Closing(st.ask, st.ticket, out, false)))
    case Cancel => op.(stage := Closing(st.ask, st.ticket, Cancelled, false))
    case Sub => op.(stage := st.(subbed := true))
    case Release =>
      (match NextAsk(c, op.kind, st.ask, st.out)
       case Some(ask) => op.(stage := Fresh(ask))
       case None => op.(stage := if BodyHolds(op.kind) || st.out.Cancelled? then Leaving(st.ask, st.out)
                                 else Returned(st.ask, st.out)))
    case Finish =>
      var m := Tallied(op);
      op.(stage := if st.Settled? then Closing(st.ask, st.ticket, st.out, false) else Leaving(st.ask, st.out),
          meter := m.(done := true), reports := op.reports + [Record(m, Reported(op, Finish).value, clock)])
    case Drop =>
      op.(stage := Ended(st.out),
          reports := if op.meter.done then op.reports else op.reports + [Record(op.meter, CancelledStatus, clock)])
    case _ => op
  }

  /** What a step asks of the operation's half pool. */
  function PoolEvent(c: S3Config, i: nat, op: Op, act: Action): Option<Pool.Event>
    requires Sound(c) && OpEnabled(c, op, act)
  {
    match act
    case Enter => Some(Pool.Announce(i, CountOf(c, op.stage.ask)))
    case Join => Some(Pool.Join(op.stage.ticket))
    case Grant => Some(Pool.Grant(op.stage.ticket))
    case Expire => Some(Pool.Expire(op.stage.ticket))
    case Resume => Some(Pool.Resume(op.stage.ticket))
    case Fail => Some(Pool.Fail(op.stage.ticket))
    case Count => Some(Pool.Count(op.stage.ticket))
    case Sub => Some(Pool.Sub(op.stage.ticket))
    case Release => Some(Pool.Release(op.stage.ticket))
    case Quit => Some(Pool.Quit(op.stage.ticket))
    case Forfeit => Some(Pool.Forfeit(op.stage.ticket))
    case _ => None
  }

  // ---------- the whole machine ----------

  predicate Formed(s: System) {
    && |s.halves| == 2 * |s.clients|
    && (forall c :: 0 <= c < |s.clients| ==> Sound(s.clients[c]))
    && (forall i :: 0 <= i < |s.ops| ==> s.ops[i].client < |s.clients|)
  }

  function ConfigOf(s: System, i: nat): S3Config
    requires Formed(s) && i < |s.ops|
  {
    s.clients[s.ops[i].client]
  }

  function AskOf(st: Stage): Ask
    requires !st.Ended?
  {
    st.ask
  }

  /** The ticket a call of operation `i` would get now. */
  function TicketFor(s: System, i: nat): nat
    requires Formed(s) && i < |s.ops|
  {
    if s.ops[i].stage.Ended? then 0
    else |s.halves[HalfOf(s.ops[i].client, AskOf(s.ops[i].stage))].calls|
  }

  predicate DoEnabled(s: System, i: nat, act: Action)
    requires Formed(s) && i < |s.ops|
  {
    var op, c := s.ops[i], ConfigOf(s, i);
    OpEnabled(c, op, act) &&
    var pe := PoolEvent(c, i, op, act);
    pe.Some? ==> Pool.Enabled(s.halves[HalfOf(op.client, AskOf(op.stage))], pe.value)
  }

  function DoApply(s: System, i: nat, act: Action): System
    requires Formed(s) && i < |s.ops| && DoEnabled(s, i, act)
  {
    var op, c := s.ops[i], ConfigOf(s, i);
    var h, pe := HalfOf(op.client, AskOf(op.stage)), PoolEvent(c, i, op, act);
    var op' := OpApply(c, op, act, TicketFor(s, i), s.clock);
    s.(ops := s.ops[i := op'],
       halves := if pe.Some? then s.halves[h := Pool.Apply(s.halves[h], pe.value)] else s.halves,
       recorder := match Reported(op, act)
                   case Some(status) => Emit(s.recorder, NameOf(op.kind), op'.meter, status)
                   case None => s.recorder)
  }

  predicate Enabled(s: System, e: Event)
    requires Formed(s)
  {
    match e
    case Call(client, _) => client < |s.clients|
    case Tick(_) => true
    case Deliver(i, l, _) => i < |s.ops| && l < |s.ops[i].mail| && s.ops[i].mail[l].left > 0
    case Do(i, act) => i < |s.ops| && DoEnabled(s, i, act)
  }

  /** `start_operation`, then the operation's code up to its first await. */
  function NewOp(c: S3Config, client: nat, kind: Kind, clock: nat): Op {
    var m := Start(clock);
    Op(client, kind, Fresh(FirstAsk(c, kind)), [], None, clock, 0,
       if kind.Put? then AddSent(m, |kind.body|) else m, [])
  }

  function Answer(l: Letter, r: Reply): Letter
    requires l.left > 0
  {
    l.(left := l.left - 1, replies := l.replies + {r})
  }

  function Apply(s: System, e: Event): (r: System)
    requires Formed(s) && Enabled(s, e)
    ensures Formed(r) && r.clients == s.clients
  {
    match e
    case Call(client, kind) =>
      s.(ops := s.ops + [NewOp(s.clients[client], client, kind, s.clock)],
         recorder := Counted(s.recorder, NameOf(kind), Total))
    case Tick(d) => s.(clock := s.clock + d)
    case Deliver(i, l, choice) =>
      var op := s.ops[i];
      var (store, reply) := Execute(s.store, i, op.mail[l].req, choice);
      s.(store := store, ops := s.ops[i := op.(mail := op.mail[l := Answer(op.mail[l], reply)])])
    case Do(i, act) => DoApply(s, i, act)
  }

  function Exec(s: System, es: seq<Event>): (r: Option<System>)
    requires Formed(s)
    ensures r.Some? ==> Formed(r.value) && r.value.clients == s.clients
  {
    if es == [] then Some(s)
    else
      var before, e := Exec(s, es[..|es| - 1]), es[|es| - 1];
      if before.Some? && Enabled(before.value, e) then Some(Apply(before.value, e)) else None
  }

  /** Starting states: every client was built from an accepted configuration. */
  predicate Starts(clients: seq<S3Config>) {
    forall c :: 0 <= c < |clients| ==> Sound(clients[c])
  }

  /** The run `es` of these clients, from these objects, leads to `s`. */
  ghost predicate Reaches(clients: seq<S3Config>, initial: map<Key, Split.Bytes>, es: seq<Event>, s: System) {
    Starts(clients) && Exec(Init(clients, initial), es) == Some(s)
  }

  /** What a step does, apart from the pools: it moves its own operation and nothing else. */
  lemma DoMoves(s: System, i: nat, act: Action)
    requires Formed(s) && i < |s.ops| && DoEnabled(s, i, act)
    ensures var op, s' := s.ops[i], DoApply(s, i, act);
      && s'.ops == s.ops[i := OpApply(ConfigOf(s, i), op, act, TicketFor(s, i), s.clock)]
      && s'.store == s.store && s'.clients == s.clients && s'.clock == s.clock
      && s'.recorder == match Reported(op, act)
                        case Some(status) => Emit(s.recorder, NameOf(op.kind), s'.ops[i].meter, status)
                        case None => s.recorder
  {
  }

  /** Operations keep their kind and client, and what they were sent and told. */
  lemma OpKeeps(c: S3Config, op: Op, act: Action, ticket: nat, clock: nat)
    requires Sound(c) && OpEnabled(c, op, act)
    ensures var op' := OpApply(c, op, act, ticket, clock);
      && op'.kind == op.kind && op'.client == op.client
      && (op'.mail == op.mail || exists l: Letter :: l.replies == {} && op'.mail == op.mail + [l])
  {
    if act.Launch? {
      var l := Letter(RequestOf(c, op.kind, op.stage.round, op.stage.win.next), Attempts(c), {});
      assert l.replies == {} && OpApply(c, op, act, ticket, clock).mail == op.mail + [l];
    }
  }
}
