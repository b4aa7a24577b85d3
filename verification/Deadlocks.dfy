/** Exactly which clients can get stuck. */
module Deadlocks {
  import opened Wrappers
  import opened Config
  import opened Split
  import opened Server
  import opened Program
  import opened Client
  import opened Permits
  import opened Progress
  import opened Scenarios
  import opened Meters
  import Pool
  import PoolRuns
  import Window

  // ---------- operations that wait for ever ----------

  /** Operation `i` waits, or is about to, for more permits than its half has. */
  ghost predicate Doomed(s: System, i: nat) {
    Good(s) && i < |s.ops| && s.ops[i].stage.Asking? &&
    var half, t := HalfAt(s, i), s.ops[i].stage.ticket;
    (half.In(t, Pool.Announced) || half.In(t, Pool.Waiting)) && NeedAt(s, i) > half.capacity
  }

  lemma DoomedStays(s: System, e: Event, i: nat)
    requires Doomed(s, i) && Enabled(s, e) && Willing(e)
    ensures Doomed(Apply(s, e), i)
  {
    ApplyKeepsGood(s, e);
    assert OwnsTicket(s, i);
    if e.Do? && e.op == i {
      DoomedStep(s, i, e.act);
    } else if e.Do? {
      OthersStay(s, e.op, e.act, i);
    }
  }

  /** Only a timeout or a cancellation takes it out of the line. */
  lemma DoomedStep(s: System, i: nat, act: Action)
    requires Doomed(s, i) && DoEnabled(s, i, act) && Willing(Do(i, act))
    ensures act.Join? && Doomed(DoApply(s, i, act), i)
  {
    ApplyKeepsGood(s, Do(i, act));
    StepOnCalls(s, i, act);
    PoolRuns.HeldNonNegative(HalfAt(s, i));
  }

  lemma OthersStay(s: System, k: nat, act: Action, i: nat)
    requires Good(s) && k < |s.ops| && DoEnabled(s, k, act) && i < |s.ops| && i != k && s.ops[i].stage.Asking?
    ensures var s' := DoApply(s, k, act);
      && s'.ops[i] == s.ops[i] && HalfAt(s', i).capacity == HalfAt(s, i).capacity
      && s.ops[i].stage.ticket < |HalfAt(s, i).calls| && s.ops[i].stage.ticket < |HalfAt(s', i).calls|
      && HalfAt(s', i).calls[s.ops[i].stage.ticket] == HalfAt(s, i).calls[s.ops[i].stage.ticket]
  {
    assert OwnsTicket(s, i);
    OtherCallsStay(s, k, act, HalfOf(s.ops[i].client, AskOf(s.ops[i].stage)), s.ops[i].stage.ticket);
    DoKeepsPools(s, k, act);
  }

  ghost predicate Hopeless(s: System) { exists i :: Doomed(s, i) }

  lemma HopelessStep(s: System, e: Event)
    requires Hopeless(s) && Formed(s) && Enabled(s, e) && Willing(e)
    ensures Hopeless(Apply(s, e))
  {
    var i :| Doomed(s, i);
    DoomedStays(s, e, i);
  }

  lemma {:induction false} HopelessStays(s: System, es: seq<Event>)
    requires Hopeless(s) && Formed(s) && AllWilling(es) && Exec(s, es).Some?
    ensures Hopeless(Exec(s, es).value)
  {
    if es != [] {
      var init, e := es[..|es| - 1], es[|es| - 1];
      assert Willing(e);
      assert AllWilling(init) by { assert forall k :: 0 <= k < |init| ==> init[k] == es[k]; }
      HopelessStays(s, init);
      HopelessStep(Exec(s, init).value, e);
    }
  }

  lemma HopelessUnfinished(s: System)
    requires Hopeless(s)
    ensures !AllEnded(s)
  {
  }

  // ---------- how a client that does not fit gets there ----------

  lemma StillGood(r: Run)
    requires Valid(r)
    ensures Good(r.s) && r.s.clients == r.clients
  {
    InitGood(r.clients, r.initial);
    RunKeepsGood(Init(r.clients, r.initial), r.es);
  }

  lemma CapacityAt(r: Run, i: nat)
    requires Valid(r) && Formed(r.s) && i < |r.s.ops| && !r.s.ops[i].stage.Ended?
    ensures HalfAt(r.s, i).capacity == if IsWrite(AskOf(r.s.ops[i].stage)) then ConfigOf(r.s, i).writeConnections
                                       else ConfigOf(r.s, i).readConnections
  {
    PoolsStillFit(r);
    FitCapacity(r.s, i);
  }

  lemma PoolsStillFit(r: Run)
    requires Valid(r) && Formed(r.s)
    ensures PoolsFit(r.s)
  {
    StillGood(r);
  }

  lemma FitCapacity(s: System, i: nat)
    requires Formed(s) && PoolsFit(s) && i < |s.ops| && !s.ops[i].stage.Ended?
    ensures HalfAt(s, i).capacity == if IsWrite(AskOf(s.ops[i].stage)) then ConfigOf(s, i).writeConnections
                                     else ConfigOf(s, i).readConnections
  {
    var h := HalfOf(s.ops[i].client, AskOf(s.ops[i].stage));
    assert h / 2 == s.ops[i].client && (h % 2 == 1 <==> IsWrite(AskOf(s.ops[i].stage)));
  }

  /** A machine in which one operation has just been called. */
  lemma Started(clients: seq<S3Config>, initial: Objects, k: nat, kind: Kind) returns (r: Run)
    requires Starts(clients) && k < |clients|
    ensures Valid(r) && r.clients == clients && r.initial == initial && r.past == {initial} && Formed(r.s)
    ensures r.s.clients == clients && r.s.ops == [NewOp(clients[k], k, kind, 0)]
    ensures r.s.store == Store(initial, map[], [])
    ensures r.s.halves == HalvesFor(clients) && r.s.recorder == Counted(Recorder(multiset{}, 0, 0), NameOf(kind), Total)
    ensures var half := HalfAt(r.s, 0);
      && half.line == [] && half.calls == [] && half.available == half.capacity
      && half.capacity == if IsWrite(FirstAsk(clients[k], kind))
          then clients[k].writeConnections else clients[k].readConnections
  {
    var r0 := Begun(clients, initial, {initial});
    r := Called(r0, k, kind);
    FreshHalf(clients, k, FirstAsk(clients[k], kind));
  }

  lemma FreshHalf(clients: seq<S3Config>, k: nat, ask: Ask)
    requires k < |clients|
    ensures HalfOf(k, ask) < 2 * |clients| && HalvesFor(clients)[HalfOf(k, ask)]
      == Pool.Init(if IsWrite(ask) then clients[k].writeConnections else clients[k].readConnections)
  {
  }

  /** Asking for more than the half has. */
  lemma EnterDooms(r: Run, i: nat) returns (r': Run)
    requires Valid(r) && Formed(r.s) && i < |r.s.ops| && r.s.ops[i].stage.Fresh?
    requires NeedAt(r.s, i) > HalfAt(r.s, i).capacity
    ensures Valid(r') && SameStart(r, r') && Hopeless(r'.s)
  {
    r' := GoDo(r, i, Enter);
    StillGood(r);
    StillGood(r');
    StepOnCalls(r.s, i, Enter);
    assert Doomed(r'.s, i);
  }

  /** A first reservation that its half cannot hold. */
  lemma FirstAskDooms(clients: seq<S3Config>, k: nat, kind: Kind) returns (r: Run)
    requires Starts(clients) && k < |clients|
    requires var c, ask := clients[k], FirstAsk(clients[k], kind);
      Pool.AsU32(CountOf(c, ask)) > if IsWrite(ask) then c.writeConnections else c.readConnections
    ensures Valid(r) && r.clients == clients && Hopeless(r.s)
  {
    var r1 := Started(clients, map[], k, kind);
    r := EnterDooms(r1, 0);
  }

  /** A get that holds its permit for HEAD. */
  lemma HeadAsked(clients: seq<S3Config>, k: nat, body: Bytes) returns (r: Run)
    requires Starts(clients) && k < |clients| && clients[k].readConnections >= 1
    ensures Valid(r) && r.clients == clients && r.initial == map["" := body] && r.past == {r.initial}
    ensures Formed(r.s) && r.s.clients == clients && |r.s.ops| == 1 && r.s.store.objects == r.initial
    ensures r.s.halves == HalvesFor(clients)[2 * k := r.s.halves[2 * k]]
    ensures r.s.ops[0].client == k && r.s.ops[0].kind == Get("") && r.s.ops[0].mail == []
    ensures var st := r.s.ops[0].stage;
      st.Busy? && st.ask == AskStat && st.round == RHead && st.base == 0 && st.win == Window.Open(1, 1)
    ensures var half, t := HalfAt(r.s, 0), r.s.ops[0].stage.ticket;
      half.line == [] && half.In(t, Pool.Counted) && half.available + half.calls[t].Need() == clients[k].readConnections
  {
    var r1 := Started(clients, map["" := body], k, Get(""));
    r := Acquire(r1, 0);
  }

  /** A get whose HEAD has told of an object above the threshold. */
  lemma HeadTells(clients: seq<S3Config>, k: nat, body: Bytes) returns (r: Run)
    requires Starts(clients) && k < |clients| && |body| > clients[k].multipartThreshold
    requires clients[k].readConnections >= 1
    ensures Valid(r) && r.clients == clients && r.initial == map["" := body] && r.past == {r.initial}
    ensures Formed(r.s) && r.s.clients == clients && |r.s.ops| == 1 && r.s.store.objects == r.initial
    ensures r.s.halves == HalvesFor(clients)[2 * k := r.s.halves[2 * k]]
    ensures r.s.ops[0].client == k && r.s.ops[0].kind == Get("") && r.s.ops[0].stage == Fresh(AskRanges(|body|))
    ensures HalfAt(r.s, 0).line == []
    ensures HalfAt(r.s, 0).available == HalfAt(r.s, 0).capacity == clients[k].readConnections
  {
    var r1 := HeadAsked(clients, k, body);
    var r2 := HeadAnswered(r1, 0, body);
    r := GoBack(r2, 0);
    CapacityAt(r, 0);
  }

  /** HEAD is sent and answered. */
  lemma HeadAnswered(r: Run, i: nat, body: Bytes) returns (r': Run)
    requires Valid(r) && Formed(r.s) && i < |r.s.ops| && r.s.store.objects in r.past
    requires r.s.ops[i].kind == Get("") && r.s.ops[i].mail == []
    requires "" in r.s.store.objects && r.s.store.objects[""] == body
    requires var st := r.s.ops[i].stage; st.Busy? && st.round == RHead && st.base == 0 && st.win == Window.Open(1, 1)
    ensures Valid(r') && SameStart(r, r') && Formed(r'.s) && OnlyMoves(r.s, r'.s, i) && r'.s.halves == r.s.halves
    ensures var st, st' := r.s.ops[i].stage, r'.s.ops[i].stage;
      && st'.Busy? && st'.ask == st.ask && st'.ticket == st.ticket && st'.win.Complete() && st'.win.done != []
      && After(st'.round, st'.win.done) == Return(Ok(Meta(|body|)))
  {
    r' := Exchange(r, i);
    HeadReply(r.s, r'.s, i, body);
  }

  lemma HeadReply(s: System, s': System, i: nat, body: Bytes)
    requires Formed(s) && i < |s.ops| && s.ops[i].kind == Get("") && CanSend(s, i) && s.ops[i].stage.round == RHead
    requires "" in s.store.objects && s.store.objects[""] == body
    requires s.ops[i].stage.win == Window.Open(1, 1)
    requires var (store, reply) := Execute(s.store, i, NextRequest(s, i), Serve(Some(0)));
      Exchanges(s, s', i, store, reply)
    ensures s'.store == s.store
    ensures var st := s'.ops[i].stage;
      && st.Busy? && st.round == RHead && st.win.Complete() && st.win.done == [(0, Length(Some(|body|)))]
      && After(st.round, st.win.done) == Return(Ok(Meta(|body|)))
  {
  }

  lemma RangesDoom(clients: seq<S3Config>, k: nat) returns (r: Run)
    requires Starts(clients) && k < |clients|
    requires clients[k].readConnections >= 1
    requires Pool.AsU32(clients[k].readConcurrency) > clients[k].readConnections
    ensures Valid(r) && r.clients == clients && Hopeless(r.s)
  {
    var r1 := HeadTells(clients, k, seq(clients[k].multipartThreshold + 1, _ => 0));
    r := EnterDooms(r1, 0);
  }

  lemma UnfitIsHopeless(clients: seq<S3Config>, k: nat) returns (r: Run)
    requires Starts(clients) && k < |clients| && !Fits(clients[k])
    ensures Valid(r) && r.clients == clients && Hopeless(r.s)
  {
    var c := clients[k];
    if c.readConnections < 1 {
      r := FirstAskDooms(clients, k, Head(""));
    } else if c.writeConnections < 1 {
      r := FirstAskDooms(clients, k, Delete(""));
    } else if Pool.AsU32(c.writeConcurrency) > c.writeConnections {
      r := FirstAskDooms(clients, k, Put("", seq(c.multipartThreshold + 1, _ => 0)));
    } else {
      r := RangesDoom(clients, k);
    }
  }

  // ---------- the exact condition ----------

  ghost predicate CanDrain(s: System)
    requires Formed(s)
  {
    exists rest :: AllWilling(rest) && Exec(s, rest).Some? && AllEnded(Exec(s, rest).value)
  }

  /** Whatever has happened, the operations under way can be brought to their
      end without a timeout, a cancellation or a network failure. */
  ghost predicate AlwaysDrains(clients: seq<S3Config>) {
    forall initial, es, s :: Reaches(clients, initial, es, s) ==> Formed(s) && CanDrain(s)
  }

  /** Clients can always drain exactly when the reservations of every one of them fit. */
  lemma DrainsIff(clients: seq<S3Config>)
    requires Starts(clients)
    ensures AlwaysDrains(clients) <==> forall c :: 0 <= c < |clients| ==> Fits(clients[c])
  {
    if forall c :: 0 <= c < |clients| ==> Fits(clients[c]) {
      forall initial, es, s | Reaches(clients, initial, es, s) ensures Formed(s) && CanDrain(s) {
        RunLively(clients, initial, es, s);
        var rest := CanAlwaysDrain(s);
      }
    } else {
      var k :| 0 <= k < |clients| && !Fits(clients[k]);
      var r := UnfitIsHopeless(clients, k);
      assert Reaches(clients, r.initial, r.es, r.s);
      if AlwaysDrains(clients) {
        var rest :| AllWilling(rest) && Exec(r.s, rest).Some? && AllEnded(Exec(r.s, rest).value);
        HopelessStays(r.s, rest);
        HopelessUnfinished(Exec(r.s, rest).value);
      }
    }
  }

  /** Some run leads to a state with an unfinished operation in which nothing
      goes on until a timeout, a cancellation or a network failure comes. */
  ghost predicate CanGetStuck(clients: seq<S3Config>) {
    exists initial, es, s :: Reaches(clients, initial, es, s) && Stuck(s)
  }

  ghost predicate Stuck(s: System) {
    Formed(s) && !AllEnded(s) && forall e :: Willing(e) ==> !Enabled(s, e)
  }

  /** A run to a stuck state is a run. */
  lemma StuckAfter(r: Run, rest: seq<Event>)
    requires Valid(r) && Formed(r.s) && Exec(r.s, rest).Some? && Stuck(Exec(r.s, rest).value)
    ensures CanGetStuck(r.clients)
  {
    ExecConcat(Init(r.clients, r.initial), r.es, rest);
    assert Reaches(r.clients, r.initial, r.es + rest, Exec(r.s, rest).value);
  }

  /** From every good state the willing events run dry. */
  lemma {:induction false} RunsDry(s: System) returns (es: seq<Event>)
    requires Good(s)
    ensures AllWilling(es) && Exec(s, es).Some? && forall e :: Willing(e) ==> !Enabled(Exec(s, es).value, e)
    decreases Rounds(s), UnsentAll(s), Rest(s)
  {
    es := [];
    MeasureNonNegative(s);
    if e :| Willing(e) && Enabled(s, e) {
      ApplyKeepsGood(s, e);
      StepDescends(s, e);
      MeasureNonNegative(Apply(s, e));
      var rest := RunsDry(Apply(s, e));
      es := Prepend(s, e, rest);
    }
  }

  /** Clients can get stuck exactly when the reservations of some client do not fit. */
  lemma StuckIff(clients: seq<S3Config>)
    requires Starts(clients)
    ensures CanGetStuck(clients) <==> exists c :: 0 <= c < |clients| && !Fits(clients[c])
  {
    if k :| 0 <= k < |clients| && !Fits(clients[k]) {
      var r := UnfitIsHopeless(clients, k);
      StillGood(r);
      var rest := RunsDry(r.s);
      HopelessStays(r.s, rest);
      HopelessUnfinished(Exec(r.s, rest).value);
      StuckAfter(r, rest);
    } else if CanGetStuck(clients) {
      var initial, es, s :| Reaches(clients, initial, es, s) && Stuck(s);
      RunLively(clients, initial, es, s);
      var e := NeverStuck(s);
    }
  }

  // ---------- validated configurations ----------

  predicate Accepted(os: seq<Options>) { forall k :: 0 <= k < |os| ==> Validate(os[k]).Success? }

  function Built(os: seq<Options>): (clients: seq<S3Config>)
    requires Accepted(os)
    ensures Starts(clients)
  {
    seq(|os|, k requires 0 <= k < |os| => Validate(os[k]).value)
  }

  /** What validation leaves to the caller: a concurrency of `usize::MAX` needs
      2^32 - 1 connections. */
  predicate Careful(c: S3Config) {
    SideFits(c.readConcurrency, c.readConnections) && SideFits(c.writeConcurrency, c.writeConnections)
  }

  /** Clients built from accepted options can get stuck exactly when one of them
      is not careful. */
  lemma ValidatedStuckIff(os: seq<Options>)
    requires Accepted(os)
    ensures CanGetStuck(Built(os)) <==> exists k :: 0 <= k < |os| && !Careful(Validate(os[k]).value)
    ensures AlwaysDrains(Built(os)) <==> forall k :: 0 <= k < |os| ==> Careful(Validate(os[k]).value)
  {
    var clients := Built(os);
    forall k | 0 <= k < |os| ensures Fits(clients[k]) <==> Careful(Validate(os[k]).value) {
      ValidatedFitsIff(os[k]);
    }
    StuckIff(clients);
    DrainsIff(clients);
  }

  /** The check `connections >= concurrency + 1` is passed by options whose
      client deadlocks. */
  lemma WrappedDeadlocks()
    ensures exists o :: Validate(o).Success? && CanGetStuck([Validate(o).value]) && !AlwaysDrains([Validate(o).value])
  {
    var o := Options(None, None, Some(1), Some(1), Some(USIZE_MAX), Some(USIZE_MAX), None, None);
    assert Validate(o).Success?;
    ValidatedStuckIff([o]);
    assert Built([o]) == [Validate(o).value];
    assert !Careful(Validate([o][0]).value);
  }

  ghost predicate PoolsIdle(s: System) {
    forall h :: 0 <= h < |s.halves| ==> s.halves[h].available == s.halves[h].capacity && s.halves[h].active == 0
  }

  /** Careful clients drain from every state of every run, and all their
      connections come back. */
  lemma ValidatedRunsDrain(os: seq<Options>, objects: map<Key, Bytes>, es: seq<Event>, s: System)
    returns (rest: seq<Event>, end: System)
    requires Accepted(os) && Reaches(Built(os), objects, es, s)
    requires forall k :: 0 <= k < |os| ==> Careful(Validate(os[k]).value)
    ensures AllWilling(rest) && Formed(s) && Exec(s, rest) == Some(end) && AllEnded(end) && PoolsIdle(end)
  {
    forall k | 0 <= k < |os| ensures Fits(Built(os)[k]) {
      ValidatedFitsIff(os[k]);
    }
    RunLively(Built(os), objects, es, s);
    rest := CanAlwaysDrain(s);
    end := Exec(s, rest).value;
    RunKeepsGood(s, rest);
    forall h | 0 <= h < |end.halves|
      ensures end.halves[h].available == end.halves[h].capacity && end.halves[h].active == 0
    {
      EndedPoolsFull(end, h);
    }
  }
}
