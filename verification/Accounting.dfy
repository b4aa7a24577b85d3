/** Every operation reports exactly once, and its time splits exactly into
    waiting for permits and working (src/metrics.rs, src/client.rs:63-155 and
    446-451). */
module Accounting {
  import opened Wrappers
  import opened Sequences
  import opened Config
  import opened Server
  import opened Program
  import opened Client
  import opened Meters
  import opened Shapes
  import opened Transcript
  import opened Ownership
  import opened Atomicity
  import opened Scenarios
  import opened Deadlocks

  // ---------- one report each ----------

  /** How an operation that ends with `out` should have been counted. */
  function Recorded(kind: Kind, out: Outcome): Status {
    match out
    case Ok(_) => OkStatus
    case Err(f) => if f.PoolTimeout? && BodyHolds(kind) then CancelledStatus else ErrStatus
    case Cancelled => CancelledStatus
  }

  /** What has been reported at each point of an operation's code, and whether
      the drop of `OpMetrics` is still to report. */
  predicate Logged(op: Op) {
    && (op.reports != [] ==>
          Decided(op.stage) && |op.reports| == 1 && op.reports[0].status == Recorded(op.kind, op.stage.out))
    && match op.stage
       case Closing(_, _, out, _) =>
         && (op.meter.done <==> op.reports != [])
         && (op.meter.done <==> BodyHolds(op.kind) && !out.Cancelled?)
       case Leaving(_, out) =>
         && (op.meter.done <==> op.reports != [])
         && (!op.meter.done <==> out.Cancelled? || (BodyHolds(op.kind) && out == Err(PoolTimeout)))
       case Ended(_) => op.reports != []
       case Returned(_, out) => !op.meter.done && op.reports == [] && !BodyHolds(op.kind) && !out.Cancelled?
       case _ => !op.meter.done && op.reports == []
  }

  lemma StepKeepsLogged(c: S3Config, op: Op, act: Action, ticket: nat, clock: nat)
    requires Sound(c) && Shape(c, op) && Sourced(c, op) && OpEnabled(c, op, act) && Logged(op)
    ensures Logged(OpApply(c, op, act, ticket, clock))
  {
  }

  ghost predicate AllLogged(s: System) {
    forall i :: 0 <= i < |s.ops| ==> Logged(s.ops[i])
  }

  lemma ApplyKeepsLogged(s: System, e: Event)
    requires Formed(s) && AllHonest(s) && Enabled(s, e) && AllLogged(s)
    ensures AllLogged(Apply(s, e))
  {
    if e.Do? {
      DoMoves(s, e.op, e.act);
      assert HonestAt(s, e.op);
      StepKeepsLogged(ConfigOf(s, e.op), s.ops[e.op], e.act, TicketFor(s, e.op), s.clock);
    }
  }

  lemma {:induction false} RunLogged(clients: seq<S3Config>, objects: map<Key, Split.Bytes>, es: seq<Event>, s: System)
    requires Reaches(clients, objects, es, s)
    ensures AllLogged(s)
    decreases |es|
  {
    if es != [] {
      var before := Exec(Init(clients, objects), es[..|es| - 1]).value;
      RunLogged(clients, objects, es[..|es| - 1], before);
      RunSane(clients, objects, es[..|es| - 1], before);
      ApplyKeepsLogged(before, es[|es| - 1]);
    }
  }

  /** Exactly one outcome: whatever path an operation takes out of its code
      (`finish`, the early `m.err` of a get, `?`, or its future being dropped),
      it has reported nothing while it has no outcome, at most once until it
      ends, and exactly once when it has ended: ok, err or cancelled as its
      outcome says, except that a delete or a list turned away by the pool is
      reported cancelled. */
  lemma ReportedOnce(clients: seq<S3Config>, objects: map<Key, Split.Bytes>, es: seq<Event>, s: System, i: nat)
    requires Reaches(clients, objects, es, s) && i < |s.ops|
    ensures var op := s.ops[i];
      && |op.reports| <= 1
      && (op.reports != [] ==> Decided(op.stage) && op.reports[0].status == Recorded(op.kind, op.stage.out))
      && (op.stage.Ended? ==> op.reports != [])
      && (!Decided(op.stage) ==> op.reports == [])
  {
    RunLogged(clients, objects, es, s);
    assert Logged(s.ops[i]);
  }

  // ---------- counters ----------

  function Named(n: Name): Op -> int { (op: Op) => if NameOf(op.kind) == n then 1 else 0 }

  function Times(reports: seq<Report>, st: Status): nat {
    if reports == [] then 0
    else Times(reports[..|reports| - 1], st) + if reports[|reports| - 1].status == st then 1 else 0
  }

  lemma TimesOne(r: Report, st: Status)
    ensures Times([r], st) == if r.status == st then 1 else 0
  {
    assert Times([r][..0], st) == 0;
  }

  /** How often operations of one name reported one status. */
  function ToldAs(n: Name, st: Status): Op -> int {
    (op: Op) => if NameOf(op.kind) == n then Times(op.reports, st) else 0
  }

  ghost predicate CountersRight(s: System) {
    && (forall n :: s.recorder.counters[Label(n, Total)] == Sum(Named(n), s.ops))
    && (forall n, st :: st != Total ==> s.recorder.counters[Label(n, st)] == Sum(ToldAs(n, st), s.ops))
  }

  /** What one event adds to a counter is what it adds to the reports. */
  lemma CounterMoves(s: System, e: Event, n: Name, st: Status)
    requires Formed(s) && Enabled(s, e) && st != Total
    ensures Apply(s, e).recorder.counters[Label(n, st)] - s.recorder.counters[Label(n, st)]
         == Sum(ToldAs(n, st), Apply(s, e).ops) - Sum(ToldAs(n, st), s.ops)
  {
    match e
    case Call(c, kind) => SumAppend(ToldAs(n, st), s.ops, NewOp(s.clients[c], c, kind, s.clock));
    case Tick(_) =>
    case Deliver(i, _, _) => SumUpdate(ToldAs(n, st), s.ops, i, Apply(s, e).ops[i]);
    case Do(i, act) => DoCounterMoves(s, i, act, n, st);
  }

  lemma EmitCounts(rec: Recorder, name: Name, m: Meter, status: Status, l: Label)
    ensures Emit(rec, name, m, status).counters[l] == rec.counters[l] + if l == Label(name, status) then 1 else 0
  {
  }

  lemma DoCounterMoves(s: System, i: nat, act: Action, n: Name, st: Status)
    requires Formed(s) && i < |s.ops| && DoEnabled(s, i, act) && st != Total
    ensures DoApply(s, i, act).recorder.counters[Label(n, st)] - s.recorder.counters[Label(n, st)]
         == Sum(ToldAs(n, st), DoApply(s, i, act).ops) - Sum(ToldAs(n, st), s.ops)
  {
    ToldMoves(s, i, act, n, st);
    RecorderMoves(s, i, act, Label(n, st));
  }

  /** What a step adds to the reports of one name and status. */
  lemma ToldMoves(s: System, i: nat, act: Action, n: Name, st: Status)
    requires Formed(s) && i < |s.ops| && DoEnabled(s, i, act)
    ensures Sum(ToldAs(n, st), DoApply(s, i, act).ops) - Sum(ToldAs(n, st), s.ops)
         == if NameOf(s.ops[i].kind) == n && Reported(s.ops[i], act) == Some(st) then 1 else 0
  {
    DoMoves(s, i, act);
    ReportsMove(ConfigOf(s, i), s.ops[i], act, TicketFor(s, i), s.clock, st);
    SumUpdate(ToldAs(n, st), s.ops, i, DoApply(s, i, act).ops[i]);
  }

  /** A step changes one counter at most, by what it reports. */
  lemma RecorderMoves(s: System, i: nat, act: Action, l: Label)
    requires Formed(s) && i < |s.ops| && DoEnabled(s, i, act)
    ensures DoApply(s, i, act).recorder.counters[l] == s.recorder.counters[l] +
      if Reported(s.ops[i], act).Some? && l == Label(NameOf(s.ops[i].kind), Reported(s.ops[i], act).value) then 1 else 0
  {
    var op, reported := s.ops[i], Reported(s.ops[i], act);
    DoMoves(s, i, act);
    if reported.Some? {
      EmitCounts(s.recorder, NameOf(op.kind), DoApply(s, i, act).ops[i].meter, reported.value, l);
    }
  }

  /** A step of an operation adds to its reports what it tells the recorder. */
  lemma ReportsMove(c: S3Config, op: Op, act: Action, ticket: nat, clock: nat, st: Status)
    requires Sound(c) && OpEnabled(c, op, act)
    ensures var op' := OpApply(c, op, act, ticket, clock);
      && op'.kind == op.kind
      && Times(op'.reports, st) == Times(op.reports, st) + if Reported(op, act) == Some(st) then 1 else 0
  {
    var op' := OpApply(c, op, act, ticket, clock);
    if op'.reports != op.reports {
      assert op'.reports[..|op.reports|] == op.reports;
    }
  }

  lemma TotalMoves(s: System, e: Event, n: Name)
    requires Formed(s) && Enabled(s, e)
    ensures Apply(s, e).recorder.counters[Label(n, Total)] - s.recorder.counters[Label(n, Total)]
         == Sum(Named(n), Apply(s, e).ops) - Sum(Named(n), s.ops)
  {
    match e
    case Call(c, kind) => SumAppend(Named(n), s.ops, NewOp(s.clients[c], c, kind, s.clock));
    case Tick(_) =>
    case Deliver(i, _, _) => SumUpdate(Named(n), s.ops, i, Apply(s, e).ops[i]);
    case Do(i, act) => DoTotalMoves(s, i, act, n);
  }

  lemma DoTotalMoves(s: System, i: nat, act: Action, n: Name)
    requires Formed(s) && i < |s.ops| && DoEnabled(s, i, act)
    ensures DoApply(s, i, act).recorder.counters[Label(n, Total)] == s.recorder.counters[Label(n, Total)]
    ensures Sum(Named(n), DoApply(s, i, act).ops) == Sum(Named(n), s.ops)
  {
    var op, op' := s.ops[i], DoApply(s, i, act).ops[i];
    SumUpdate(Named(n), s.ops, i, op');
    DoMoves(s, i, act);
    ReportsMove(ConfigOf(s, i), op, act, TicketFor(s, i), s.clock, Total);
    RecorderMoves(s, i, act, Label(n, Total));
  }

  lemma ApplyKeepsCounters(s: System, e: Event)
    requires Formed(s) && Enabled(s, e) && CountersRight(s)
    ensures CountersRight(Apply(s, e))
  {
    var s' := Apply(s, e);
    forall n ensures s'.recorder.counters[Label(n, Total)] == Sum(Named(n), s'.ops) {
      TotalMoves(s, e, n);
    }
    forall n, st | st != Total ensures s'.recorder.counters[Label(n, st)] == Sum(ToldAs(n, st), s'.ops) {
      CounterMoves(s, e, n, st);
    }
  }

  lemma {:induction false} RunCounts(clients: seq<S3Config>, objects: map<Key, Split.Bytes>, es: seq<Event>, s: System)
    requires Reaches(clients, objects, es, s)
    ensures CountersRight(s)
    decreases |es|
  {
    if es != [] {
      var before := Exec(Init(clients, objects), es[..|es| - 1]).value;
      RunCounts(clients, objects, es[..|es| - 1], before);
      ApplyKeepsCounters(before, es[|es| - 1]);
    }
  }

  /** Operations that have not reported yet. */
  function Silent(n: Name): Op -> int { (op: Op) => if NameOf(op.kind) == n && op.reports == [] then 1 else 0 }

  /** Operations that have reported, by outcome. */
  function ReportedAs(n: Name, st: Status): Op -> int {
    (op: Op) => if NameOf(op.kind) == n && op.reports != [] && Decided(op.stage) &&
        Recorded(op.kind, op.stage.out) == st then 1 else 0
  }

  lemma {:induction false} OneOutcomeEach(n: Name, ops: seq<Op>)
    requires forall i :: 0 <= i < |ops| ==> Logged(ops[i])
    ensures Sum(Named(n), ops)
         == Sum(ReportedAs(n, OkStatus), ops) + Sum(ReportedAs(n, ErrStatus), ops)
            + Sum(ReportedAs(n, CancelledStatus), ops) + Sum(Silent(n), ops)
  {
    if ops != [] {
      assert Logged(ops[|ops| - 1]);
      OneOutcomeEach(n, ops[..|ops| - 1]);
    }
  }

  lemma ToldIsReported(n: Name, st: Status, ops: seq<Op>)
    requires st != Total && forall i :: 0 <= i < |ops| ==> Logged(ops[i])
    ensures Sum(ToldAs(n, st), ops) == Sum(ReportedAs(n, st), ops)
  {
    forall i | 0 <= i < |ops| ensures ToldAs(n, st)(ops[i]) == ReportedAs(n, st)(ops[i]) {
      assert Logged(ops[i]);
      if ops[i].reports != [] {
        assert ops[i].reports == [ops[i].reports[0]];
        TimesOne(ops[i].reports[0], st);
      }
    }
    SumSame(ToldAs(n, st), ReportedAs(n, st), ops);
  }

  /** Conservation: in every reachable state, per kind of operation, the started
      ones are those counted ok, err or cancelled plus those that have not
      reported; each counter counts exactly the reporting operations whose
      outcome is recorded so. */
  lemma OperationsConserved(clients: seq<S3Config>, objects: map<Key, Split.Bytes>, es: seq<Event>, s: System, n: Name)
    requires Reaches(clients, objects, es, s)
    ensures var counters := s.recorder.counters;
      counters[Label(n, Total)]
      == counters[Label(n, OkStatus)] + counters[Label(n, ErrStatus)] + counters[Label(n, CancelledStatus)] +
          Sum(Silent(n), s.ops)
    ensures forall st :: st != Total ==> s.recorder.counters[Label(n, st)] == Sum(ReportedAs(n, st), s.ops)
  {
    RunCounts(clients, objects, es, s);
    RunLogged(clients, objects, es, s);
    OneOutcomeEach(n, s.ops);
    forall st | st != Total ensures s.recorder.counters[Label(n, st)] == Sum(ReportedAs(n, st), s.ops) {
      ToldIsReported(n, st, s.ops);
    }
  }

  /** Operations that reported after an error: the pool's own timeout, or any other. */
  function Failures(n: Name, byPool: bool): Op -> int {
    (op: Op) => if NameOf(op.kind) == n && op.reports != [] && Decided(op.stage)
                   && op.stage.out.Err? && op.stage.out.fault.PoolTimeout? == byPool then 1 else 0
  }

  function Drops(n: Name): Op -> int {
    (op: Op) => if NameOf(op.kind) == n && op.reports != [] && Decided(op.stage) &&
        op.stage.out.Cancelled? then 1 else 0
  }

  predicate LeavesEarly(n: Name) { n.DeleteOp? || n.ListOp? }

  lemma {:induction false} OutcomesSplit(n: Name, ops: seq<Op>)
    ensures var early := Sum(Failures(n, true), ops);
      && Sum(ReportedAs(n, ErrStatus), ops) == Sum(Failures(n, false), ops) + (if LeavesEarly(n) then 0 else early)
      && Sum(ReportedAs(n, CancelledStatus), ops) == Sum(Drops(n), ops) + (if LeavesEarly(n) then early else 0)
  {
    if ops != [] {
      OutcomesSplit(n, ops[..|ops| - 1]);
    }
  }

  /** What the counters mean to a reader of the dashboard: for put, get and head
      errors are errors and drops are drops; for delete and list every pool
      timeout returned to a caller shows up as a cancellation instead. */
  lemma TimeoutsCounted(clients: seq<S3Config>, objects: map<Key, Split.Bytes>, es: seq<Event>, s: System, n: Name)
    requires Reaches(clients, objects, es, s)
    ensures var early, counters := Sum(Failures(n, true), s.ops), s.recorder.counters;
      && counters[Label(n, ErrStatus)] == Sum(Failures(n, false), s.ops) + (if LeavesEarly(n) then 0 else early)
      && counters[Label(n, CancelledStatus)] == Sum(Drops(n), s.ops) + (if LeavesEarly(n) then early else 0)
  {
    OperationsConserved(clients, objects, es, s, n);
    OutcomesSplit(n, s.ops);
  }

  // ---------- a timeout, seen from the dashboard ----------

  /** Any operation can be turned away by the pool: the run up to the point where
      `acquire` has returned its error. */
  lemma TurnedAwayRun(clients: seq<S3Config>, k: nat, kind: Kind) returns (r: Run)
    requires Starts(clients) && k < |clients|
    ensures Valid(r) && r.clients == clients && Formed(r.s) && |r.s.ops| == 1
    ensures var op := r.s.ops[0];
      && op.client == k && op.kind == kind && !op.meter.done
      && op.stage == if BodyHolds(kind) then Leaving(FirstAsk(clients[k], kind), Err(PoolTimeout))
                     else Returned(FirstAsk(clients[k], kind), Err(PoolTimeout))
    ensures r.s.recorder == Counted(Recorder(multiset{}, 0, 0), NameOf(kind), Total)
  {
    var r0 := Started(clients, map[], k, kind);
    var r1 := TimedOut(r0, 0);
    r := GoDo(r1, 0, Fail);
  }

  /** For every client and every operation some run ends with the pool's timeout
      returned to the caller, and it shows up as an error, except for a delete or
      a list, where it shows up as a cancellation and no error is counted. */
  lemma TimeoutShown(clients: seq<S3Config>, k: nat, kind: Kind) returns (r: Run)
    requires Starts(clients) && k < |clients|
    ensures Valid(r) && r.clients == clients && |r.s.ops| == 1 && r.s.ops[0].kind == kind
    ensures r.s.ops[0].stage == Ended(Err(PoolTimeout))
    ensures var shown := if BodyHolds(kind) then CancelledStatus else ErrStatus;
      r.s.recorder.counters == multiset{Label(NameOf(kind), Total), Label(NameOf(kind), shown)}
  {
    r := TurnedAwayRun(clients, k, kind);
    if !BodyHolds(kind) {
      r := GoFinish(r);
    }
    r := GoDo(r, 0, Drop);
  }

  /** The body returns the timeout, and the record counts an error. */
  lemma GoFinish(r: Run) returns (r': Run)
    requires Valid(r) && Formed(r.s) && |r.s.ops| == 1
    requires var op := r.s.ops[0]; op.stage.Returned? && op.stage.out == Err(PoolTimeout) && !op.meter.done
    ensures Valid(r') && r'.clients == r.clients && Formed(r'.s) && |r'.s.ops| == 1
    ensures var op, op' := r.s.ops[0], r'.s.ops[0];
      && op'.kind == op.kind && op'.stage == Leaving(op.stage.ask, op.stage.out) && op'.meter.done
      && r'.s.recorder.counters == r.s.recorder.counters + multiset{Label(NameOf(op.kind), ErrStatus)}
  {
    r' := GoDo(r, 0, Finish);
  }

  // ---------- bytes ----------

  /** A put has its whole body marked as sent, and nothing is received before
      the data of a get is there. */
  predicate BytesMarked(op: Op) {
    && op.meter.sent == (if op.kind.Put? then |op.kind.body| else 0)
    && (!op.meter.done ==> op.meter.recv == 0)
    && (op.meter.done ==>
          && Decided(op.stage)
          && op.meter.recv == if op.stage.out.Ok? && op.stage.out.payload.Data? then |op.stage.out.payload.body| else 0)
  }

  /** Bytes of the operations that reported success. */
  function SentBytes(op: Op): int {
    if op.meter.done && Decided(op.stage) && op.stage.out.Ok? && op.kind.Put? then |op.kind.body| else 0
  }

  function RecvBytes(op: Op): int {
    if op.meter.done && Decided(op.stage) && op.stage.out.Ok? &&
        op.stage.out.payload.Data? then |op.stage.out.payload.body| else 0
  }

  lemma StepMovesBytes(c: S3Config, op: Op, act: Action, ticket: nat, clock: nat)
    requires Sound(c) && Shape(c, op) && OpEnabled(c, op, act) && BytesMarked(op) && Logged(op)
    ensures var op' := OpApply(c, op, act, ticket, clock);
      var ok := Reported(op, act) == Some(OkStatus);
      && BytesMarked(op')
      && SentBytes(op') - SentBytes(op) == (if ok then op'.meter.sent else 0)
      && RecvBytes(op') - RecvBytes(op) == (if ok then op'.meter.recv else 0)
  {
  }

  ghost predicate BytesRight(s: System) {
    && (forall i :: 0 <= i < |s.ops| ==> BytesMarked(s.ops[i]))
    && s.recorder.sent == Sum(SentBytes, s.ops) && s.recorder.recv == Sum(RecvBytes, s.ops)
  }

  lemma ApplyKeepsBytes(s: System, e: Event)
    requires Formed(s) && AllShapes(s) && AllLogged(s) && Enabled(s, e) && BytesRight(s)
    ensures BytesRight(Apply(s, e))
  {
    match e
    case Call(c, kind) =>
      SumAppend(SentBytes, s.ops, NewOp(s.clients[c], c, kind, s.clock));
      SumAppend(RecvBytes, s.ops, NewOp(s.clients[c], c, kind, s.clock));
    case Tick(_) =>
    case Deliver(i, _, _) => DeliverKeepsBytes(s, e);
    case Do(i, act) => DoKeepsBytes(s, i, act);
  }

  lemma DeliverKeepsBytes(s: System, e: Event)
    requires Formed(s) && Enabled(s, e) && e.Deliver? && BytesRight(s)
    ensures BytesRight(Apply(s, e))
  {
    SumUpdate(SentBytes, s.ops, e.op, Apply(s, e).ops[e.op]);
    SumUpdate(RecvBytes, s.ops, e.op, Apply(s, e).ops[e.op]);
  }

  lemma DoKeepsBytes(s: System, i: nat, act: Action)
    requires Formed(s) && AllShapes(s) && AllLogged(s) && BytesRight(s) && i < |s.ops| && DoEnabled(s, i, act)
    ensures BytesRight(DoApply(s, i, act))
  {
    DoMoves(s, i, act);
    StepMovesBytes(ConfigOf(s, i), s.ops[i], act, TicketFor(s, i), s.clock);
    SumUpdate(SentBytes, s.ops, i, DoApply(s, i, act).ops[i]);
    SumUpdate(RecvBytes, s.ops, i, DoApply(s, i, act).ops[i]);
  }

  /** The byte counters are exactly the bodies of the puts and the data of the
      gets that reported success: nothing of a failed or dropped transfer. */
  lemma {:induction false} BytesCounted(clients: seq<S3Config>, objects: map<Key, Split.Bytes>, es: seq<Event>,
                                        s: System)
    requires Reaches(clients, objects, es, s)
    ensures BytesRight(s)
    decreases |es|
  {
    if es != [] {
      var before := Exec(Init(clients, objects), es[..|es| - 1]).value;
      BytesCounted(clients, objects, es[..|es| - 1], before);
      RunLogged(clients, objects, es[..|es| - 1], before);
      RunKeepsShapes(Init(clients, objects), es[..|es| - 1]);
      ApplyKeepsBytes(before, es[|es| - 1]);
    }
  }

  // ---------- time ----------

  /** Clock time that passed, before operation `i` reported, inside the pool's
      `acquire` or outside it. */
  function Spent(s0: System, es: seq<Event>, i: nat, inPool: bool): nat
    requires Formed(s0) && Exec(s0, es).Some?
  {
    if es == [] then 0
    else
      var init := es[..|es| - 1];
      Spent(s0, init, i, inPool) + Passes(Exec(s0, init).value, es[|es| - 1], i, inPool)
  }

  /** The time one event lets pass for operation `i`. */
  function Passes(s: System, e: Event, i: nat, inPool: bool): nat {
    if e.Tick? && i < |s.ops| && s.ops[i].reports == [] && s.ops[i].stage.Asking? == inPool then e.elapsed else 0
  }

  /** The time operation `i` has waited inside the pool since its last successful
      acquisition: the wait of an acquisition that is under way, or that failed
      or was dropped. */
  function Forgone(s0: System, es: seq<Event>, i: nat): nat
    requires Formed(s0) && Exec(s0, es).Some?
  {
    if es == [] then 0
    else
      var init := es[..|es| - 1];
      Onward(Exec(s0, init).value, es[|es| - 1], i, Forgone(s0, init, i))
  }

  function Onward(s: System, e: Event, i: nat, forgone: nat): nat {
    if e == Do(i, Count) then 0 else forgone + Passes(s, e, i, true)
  }

  /** The operation is not in the pool, and was neither turned away by it nor dropped. */
  predicate LeftPool(st: Stage) {
    !st.Asking? && (Decided(st) ==> !st.out.Cancelled? && st.out != Err(PoolTimeout))
  }

  ghost predicate MeterRight(op: Op, clock: nat, inside: nat, outside: nat, forgone: nat) {
    var m := op.meter;
    && m.start <= op.asked <= clock
    && (op.reports == [] ==>
          && clock == m.start + inside + outside && inside == m.queueWait + forgone
          && (op.stage.Asking? ==> forgone == clock - op.asked)
          && (LeftPool(op.stage) ==> forgone == 0))
    && (op.reports != [] ==> ReportRight(op, inside, outside, forgone))
  }

  predicate ReportRight(op: Op, inside: nat, outside: nat, forgone: nat)
    requires op.reports != []
  {
    var r := op.reports[0];
    && r.latency == inside + outside
    && r.queueWait + forgone == inside && r.duration == outside + forgone
    && (LeftPool(op.stage) ==> forgone == 0)
  }

  lemma StepKeepsMeter(c: S3Config, op: Op, act: Action, ticket: nat, clock: nat, inside: nat, outside: nat,
                       forgone: nat)
    requires Sound(c) && Shape(c, op) && Sourced(c, op) && Logged(op) && OpEnabled(c, op, act)
    requires MeterRight(op, clock, inside, outside, forgone)
    ensures MeterRight(OpApply(c, op, act, ticket, clock), clock, inside, outside, if act.Count? then 0 else forgone)
  {
  }

  lemma ApplyKeepsMeter(s: System, e: Event, i: nat, inside: nat, outside: nat, forgone: nat)
    requires Formed(s) && Enabled(s, e) && AllHonest(s) && AllLogged(s) && i < |s.ops|
    requires MeterRight(s.ops[i], s.clock, inside, outside, forgone)
    ensures MeterRight(Apply(s, e).ops[i], Apply(s, e).clock,
                       inside + Passes(s, e, i, true), outside + Passes(s, e, i, false), Onward(s, e, i, forgone))
  {
    if e.Do? && e.op == i {
      DoKeepsMeter(s, i, e.act, inside, outside, forgone);
    } else if e.Tick? {
      TickKeepsMeter(s, e, i, inside, outside, forgone);
    } else {
      MeterStands(s, e, i);
    }
  }

  /** Other operations' steps, calls and deliveries leave a meter alone. */
  lemma MeterStands(s: System, e: Event, i: nat)
    requires Formed(s) && Enabled(s, e) && i < |s.ops| && !e.Tick? && (e.Do? ==> e.op != i)
    ensures var op, op' := s.ops[i], Apply(s, e).ops[i];
      && op'.meter == op.meter && op'.stage == op.stage && op'.reports == op.reports && op'.asked == op.asked
      && Apply(s, e).clock == s.clock
  {
  }

  lemma TickKeepsMeter(s: System, e: Event, i: nat, inside: nat, outside: nat, forgone: nat)
    requires Formed(s) && e.Tick? && i < |s.ops| && MeterRight(s.ops[i], s.clock, inside, outside, forgone)
    ensures MeterRight(s.ops[i], s.clock + e.elapsed,
                       inside + Passes(s, e, i, true), outside + Passes(s, e, i, false), Onward(s, e, i, forgone))
  {
  }

  lemma DoKeepsMeter(s: System, i: nat, act: Action, inside: nat, outside: nat, forgone: nat)
    requires Formed(s) && i < |s.ops| && DoEnabled(s, i, act) && HonestAt(s, i) && Logged(s.ops[i])
    requires MeterRight(s.ops[i], s.clock, inside, outside, forgone)
    ensures MeterRight(DoApply(s, i, act).ops[i], s.clock, inside, outside, if act.Count? then 0 else forgone)
  {
    DoMoves(s, i, act);
    StepKeepsMeter(ConfigOf(s, i), s.ops[i], act, TicketFor(s, i), s.clock, inside, outside, forgone);
  }

  lemma OpsGrow(s: System, e: Event)
    requires Formed(s) && Enabled(s, e)
    ensures |s.ops| <= |Apply(s, e).ops|
  {
  }

  lemma {:induction false} NotYetSpent(s0: System, es: seq<Event>, i: nat)
    requires Formed(s0) && Exec(s0, es).Some? && |Exec(s0, es).value.ops| <= i
    ensures Spent(s0, es, i, true) == Spent(s0, es, i, false) == Forgone(s0, es, i) == 0
  {
    if es != [] {
      OpsGrow(Exec(s0, es[..|es| - 1]).value, es[|es| - 1]);
      NotYetSpent(s0, es[..|es| - 1], i);
    }
  }

  lemma NewMeter(s: System, e: Event, i: nat)
    requires Formed(s) && Enabled(s, e) && |s.ops| <= i < |Apply(s, e).ops|
    ensures MeterRight(Apply(s, e).ops[i], Apply(s, e).clock, 0, 0, 0)
    ensures Passes(s, e, i, true) == Passes(s, e, i, false) == 0 && Onward(s, e, i, 0) == 0
  {
  }

  lemma {:induction false} RunMeters(clients: seq<S3Config>, objects: map<Key, Split.Bytes>, es: seq<Event>,
                                     s': System, i: nat)
    requires Reaches(clients, objects, es, s') && i < |s'.ops|
    ensures var s0 := Init(clients, objects);
      MeterRight(s'.ops[i], s'.clock, Spent(s0, es, i, true), Spent(s0, es, i, false), Forgone(s0, es, i))
    decreases |es|
  {
    var s0, init, e := Init(clients, objects), es[..|es| - 1], es[|es| - 1];
    var s := Exec(s0, init).value;
    if i < |s.ops| {
      RunMeters(clients, objects, init, s, i);
      RunSane(clients, objects, init, s);
      RunLogged(clients, objects, init, s);
      ApplyKeepsMeter(s, e, i, Spent(s0, init, i, true), Spent(s0, init, i, false), Forgone(s0, init, i));
    } else {
      NotYetSpent(s0, init, i);
      NewMeter(s, e, i);
    }
  }

  /** The time of every report of every run, exactly: latency is the time inside
      the pool plus the time outside; the queue wait is the time inside but for
      the wait of an acquisition that failed or was dropped, which goes to the
      duration instead. So the duration excludes the waiting exactly when no such
      wait was lost, as for every operation that was neither turned away by the
      pool nor dropped inside it. Nothing saturates. */
  lemma TimeSplitsExactly(clients: seq<S3Config>, objects: map<Key, Split.Bytes>, es: seq<Event>, s: System, i: nat)
    requires Reaches(clients, objects, es, s) && i < |s.ops| && s.ops[i].reports != []
    ensures var s0, r := Init(clients, objects), s.ops[i].reports[0];
      var inside, outside, forgone := Spent(s0, es, i, true), Spent(s0, es, i, false), Forgone(s0, es, i);
      && r.latency == inside + outside == r.queueWait + r.duration
      && r.queueWait + forgone == inside
      && (r.duration == outside <==> forgone == 0)
      && (LeftPool(s.ops[i].stage) ==> forgone == 0)
  {
    RunMeters(clients, objects, es, s, i);
  }

  // ---------- how often an operation waits ----------

  /** Acquisitions that succeeded so far. */
  predicate WaitsRight(op: Op) {
    match op.stage
    case Fresh(ask) => op.waits == if ask.AskGet? || ask.AskRanges? then 1 else 0
    case Asking(ask, _) => op.waits == if ask.AskGet? || ask.AskRanges? then 1 else 0
    case Busy(ask, _, _, _, _) => op.waits == if ask.AskGet? || ask.AskRanges? then 2 else 1
    case Settled(_, _, _) => op.waits == 1
    case Closing(ask, _, _, _) => op.waits == if ask.AskGet? || ask.AskRanges? then 2 else 1
    case _ => op.waits <= if op.kind.Get? then 2 else 1
  }

  lemma StepKeepsWaits(c: S3Config, op: Op, act: Action, ticket: nat, clock: nat)
    requires Sound(c) && Shape(c, op) && OpEnabled(c, op, act) && WaitsRight(op)
    ensures WaitsRight(OpApply(c, op, act, ticket, clock))
  {
  }

  lemma ApplyKeepsWaits(s: System, e: Event, i: nat)
    requires Formed(s) && Enabled(s, e) && i < |Apply(s, e).ops|
    requires i < |s.ops| ==> WaitsRight(s.ops[i]) && Shape(ConfigOf(s, i), s.ops[i])
    ensures WaitsRight(Apply(s, e).ops[i])
  {
    if i < |s.ops| && e.Do? && e.op == i {
      DoMoves(s, i, e.act);
      StepKeepsWaits(ConfigOf(s, i), s.ops[i], e.act, TicketFor(s, i), s.clock);
    }
  }

  lemma {:induction false} RunWaits(s0: System, es: seq<Event>, i: nat)
    requires Formed(s0) && AllShapes(s0) && s0.ops == [] && Exec(s0, es).Some? && i < |Exec(s0, es).value.ops|
    ensures WaitsRight(Exec(s0, es).value.ops[i])
  {
    var init := es[..|es| - 1];
    var s := Exec(s0, init).value;
    RunKeepsShapes(s0, init);
    if i < |s.ops| {
      RunWaits(s0, init, i);
    }
    ApplyKeepsWaits(s, es[|es| - 1], i);
  }

  /** A get waits for permits at most twice, everything else at most once, and a
      multipart upload of any number of parts once. */
  lemma WaitsBounded(clients: seq<S3Config>, objects: map<Key, Split.Bytes>, es: seq<Event>, s: System, i: nat)
    requires Reaches(clients, objects, es, s) && i < |s.ops|
    ensures s.ops[i].waits <= if s.ops[i].kind.Get? then 2 else 1
  {
    RunWaits(Init(clients, objects), es, i);
    RunKeepsShapes(Init(clients, objects), es);
    WaitsCap(ConfigOf(s, i), s.ops[i]);
  }

  lemma WaitsCap(c: S3Config, op: Op)
    requires Sound(c) && Shape(c, op) && WaitsRight(op)
    ensures op.waits <= if op.kind.Get? then 2 else 1
  {
  }
}
