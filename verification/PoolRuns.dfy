/** What holds of every run of one half of the pool (src/pool.rs). */
module PoolRuns {
  import opened Arith
  import opened Sequences
  import opened Wrappers
  import opened Pool

  // ---------- FIFO ----------

  /** The tickets that entered the line during a run, in order. */
  function Joined(es: seq<Event>): seq<nat> {
    if es == [] then []
    else
      var e := es[|es| - 1];
      Joined(es[..|es| - 1]) + if e.Join? then [e.t] else []
  }

  /** The tickets the semaphore served during a run, in order. */
  function Grants(es: seq<Event>): seq<nat> {
    if es == [] then []
    else
      var e := es[|es| - 1];
      Grants(es[..|es| - 1]) + if e.Grant? then [e.t] else []
  }

  /** The tickets that left the line unserved: timed out or dropped. */
  function Withdrawn(es: seq<Event>): set<nat> {
    if es == [] then {}
    else
      var e := es[|es| - 1];
      Withdrawn(es[..|es| - 1]) + if e.Expire? || e.Quit? then {e.t} else {}
  }

  ghost predicate PastLine(s: Half, t: nat) {
    t < |s.calls| && !s.calls[t].phase.Announced? && !s.calls[t].phase.Waiting?
  }

  lemma {:induction false} ServedIsPast(s: Half, es: seq<Event>)
    requires Exec(s, es).Some?
    ensures forall t :: t in Grants(es) || t in Withdrawn(es) ==> PastLine(Exec(s, es).value, t)
  {
    if es != [] {
      var init, e := es[..|es| - 1], es[|es| - 1];
      ServedIsPast(s, init);
      forall t | t in Grants(es) || t in Withdrawn(es) ensures PastLine(Exec(s, es).value, t) {
        StaysPast(Exec(s, init).value, e, t);
      }
    }
  }

  lemma StaysPast(s: Half, e: Event, t: nat)
    requires Enabled(s, e) && (PastLine(s, t) || ((e.Grant? || e.Expire? || e.Quit?) && e.t == t))
    ensures PastLine(Apply(s, e), t)
  {
    StepCalls(s, e);
  }

  /** FIFO with no overtaking: in every run from every consistent state, the
      tickets served followed by those still waiting are exactly the line at the
      start followed by the later arrivals, minus those that withdrew. */
  lemma {:induction false} Fifo(s: Half, es: seq<Event>)
    requires Inv(s) && Exec(s, es).Some?
    ensures Grants(es) + Exec(s, es).value.line == Without(s.line + Joined(es), Withdrawn(es))
  {
    if es == [] {
      assert s.line + [] == s.line;
      WithoutNothing(s.line, {});
    } else {
      var init, e := es[..|es| - 1], es[|es| - 1];
      Fifo(s, init);
      FifoStep(s, init, e);
    }
  }

  lemma FifoStep(s: Half, init: seq<Event>, e: Event)
    requires Inv(s) && Exec(s, init).Some? && Enabled(Exec(s, init).value, e)
    requires Grants(init) + Exec(s, init).value.line == Without(s.line + Joined(init), Withdrawn(init))
    ensures Grants(init) + (if e.Grant? then [e.t] else []) + Apply(Exec(s, init).value, e).line
         == Without(s.line + (Joined(init) + if e.Join? then [e.t] else []),
                    Withdrawn(init) + if e.Expire? || e.Quit? then {e.t} else {})
  {
    var line := Exec(s, init).value.line;
    ServedIsPast(s, init);
    if e.Join? {
      JoinLine(Grants(init), line, s.line, Joined(init), Withdrawn(init), e.t);
    } else if e.Expire? || e.Quit? {
      LeaveLine(Grants(init), line, s.line + Joined(init), Withdrawn(init), e.t);
      assert Joined(init) + [] == Joined(init);
      assert Grants(init) + [] == Grants(init);
    } else {
      assert Joined(init) + [] == Joined(init);
      assert Withdrawn(init) + {} == Withdrawn(init);
      if e.Grant? {
        ServeLine(Grants(init), line, e.t);
      } else {
        assert Grants(init) + [] == Grants(init);
      }
    }
  }

  lemma ServeLine(served: seq<nat>, line: seq<nat>, t: nat)
    requires line != [] && line[0] == t
    ensures served + [t] + line[1..] == served + line
  {
  }

  lemma JoinLine(served: seq<nat>, line: seq<nat>, before: seq<nat>, joined: seq<nat>, gone: set<nat>, t: nat)
    requires served + line == Without(before + joined, gone) && t !in gone
    ensures served + [] + (line + [t]) == Without(before + (joined + [t]), gone + {})
  {
    WithoutAppend(before + joined, t, gone);
    assert before + joined + [t] == before + (joined + [t]);
    assert gone + {} == gone;
    assert served + [] + (line + [t]) == served + line + [t];
  }

  lemma LeaveLine(served: seq<nat>, line: seq<nat>, asked: seq<nat>, gone: set<nat>, t: nat)
    requires served + line == Without(asked, gone) && t !in served
    ensures served + Without(line, {t}) == Without(asked, gone + {t})
  {
    WithoutTwice(asked, gone, {t});
    WithoutConcat(served, line, {t});
    WithoutNothing(served, {t});
  }

  /** A waiter at position `k` that is ever served is served after at most `k`
      others, every one of which stood ahead of it: later requests, however
      small, never delay it. */
  lemma BoundedBypass(s: Half, es: seq<Event>, k: nat)
    requires Inv(s) && Exec(s, es).Some?
    requires k < |s.line| && s.line[k] in Grants(es)
    ensures ServedAfter(Grants(es), s.line, k)
  {
    var after := Exec(s, es).value;
    Fifo(s, es);
    ServedIsPast(s, es);
    RunKeepsInv(s, es);
    assert s.line[k] !in after.line;
    Bypass(Grants(es), after.line, s.line, Joined(es), Withdrawn(es), k);
  }

  ghost predicate ServedAfter(served: seq<nat>, line: seq<nat>, k: nat)
    requires k < |line|
  {
    exists m :: 0 <= m <= k && m < |served| && served[m] == line[k] && forall j :: 0 <= j < m ==> served[j] in line[..k]
  }

  lemma Bypass(served: seq<nat>, left: seq<nat>, line: seq<nat>, joined: seq<nat>, gone: set<nat>, k: nat)
    requires served + left == Without(line + joined, gone)
    requires k < |line| && line[k] in served && line[k] !in left
    ensures ServedAfter(served, line, k)
  {
    var t, ahead, behind := line[k], Without(line[..k], gone), Without(line[k + 1..] + joined, gone);
    var all, m := served + left, |ahead|;
    assert t !in gone by {
      WithoutMembers(line + joined, gone);
      assert t in all;
    }
    assert all == ahead + [t] + behind by {
      assert line + joined == (line[..k] + [t]) + (line[k + 1..] + joined);
      WithoutConcat(line[..k] + [t], line[k + 1..] + joined, gone);
      WithoutAppend(line[..k], t, gone);
    }
    WithoutMembers(line[..k], gone);
    assert all[m] == t;
    ElementOfConcat(served, left, m);
    forall j | 0 <= j < m ensures served[j] in line[..k] {
      assert served[j] == all[j] == ahead[j];
    }
  }

  /** A request larger than the whole half is served in no run. */
  lemma {:induction false} OversizedNeverGranted(s: Half, es: seq<Event>, t: nat)
    requires Inv(s) && Exec(s, es).Some? && t in Grants(es)
    ensures t < |Exec(s, es).value.calls| && Exec(s, es).value.calls[t].Need() <= s.capacity
  {
    var init, e := es[..|es| - 1], es[|es| - 1];
    var m := Exec(s, init).value;
    RunKeepsInv(s, init);
    StepCalls(m, e);
    if t in Grants(init) {
      OversizedNeverGranted(s, init, t);
    } else {
      HeldNonNegative(m);
    }
  }

  ghost predicate CanBeGranted(capacity: nat, n: nat) {
    exists es, t :: Exec(Init(capacity), es).Some? && t in Grants(es) && IsCall(Exec(Init(capacity), es).value, t, n)
  }

  predicate IsCall(s: Half, t: nat, n: nat) { t < |s.calls| && s.calls[t].count == n }

  /** A request is served in some run exactly when the semaphore's view of it,
      `n as u32`, fits the half. */
  lemma GrantableIff(capacity: nat, n: nat)
    ensures CanBeGranted(capacity, n) <==> AsU32(n) <= capacity
  {
    InitInv(capacity);
    if CanBeGranted(capacity, n) {
      var es, t :| Exec(Init(capacity), es).Some? && t in Grants(es) && IsCall(Exec(Init(capacity), es).value, t, n);
      OversizedNeverGranted(Init(capacity), es, t);
    }
    if AsU32(n) <= capacity {
      var es := [Announce(0, n), Join(0)];
      assert [Announce(0, n)] + [Join(0)] == es;
      ExecAppend(Init(capacity), [], Announce(0, n));
      assert [] + [Announce(0, n)] == [Announce(0, n)];
      ExecAppend(Init(capacity), [Announce(0, n)], Join(0));
      ExecAppend(Init(capacity), es, Grant(0));
      var run := es + [Grant(0)];
      assert run[|run| - 1] == Grant(0);
      assert 0 in Grants(run);
      assert IsCall(Exec(Init(capacity), run).value, 0, n);
    }
  }

  lemma HeldNonNegative(s: Half)
    ensures 0 <= Sum(HeldBy, s.calls) && 0 <= Sum(ActiveBy, s.calls) && 0 <= Sum(QueuedBy, s.calls)
  {
    SumNonNegative(HeldBy, s.calls);
    SumNonNegative(ActiveBy, s.calls);
    SumNonNegative(QueuedBy, s.calls);
  }

  // ---------- counters ----------

  /** Every request of the run asks for one permit or for `n`. */
  ghost predicate Asks(es: seq<Event>, n: nat) {
    forall k :: 0 <= k < |es| && es[k].Announce? ==> es[k].count == 1 || es[k].count == n
  }

  ghost predicate Asked(s: Half, n: nat) {
    forall t :: 0 <= t < |s.calls| ==> s.calls[t].count == 1 || s.calls[t].count == n
  }

  lemma {:induction false} AskedFrom(capacity: nat, es: seq<Event>, n: nat)
    requires Asks(es, n) && Exec(Init(capacity), es).Some?
    ensures Asked(Exec(Init(capacity), es).value, n)
  {
    if es != [] {
      var init := es[..|es| - 1];
      assert forall k :: 0 <= k < |init| ==> init[k] == es[k];
      AskedFrom(capacity, init, n);
      StepCalls(Exec(Init(capacity), init).value, es[|es| - 1]);
    }
  }

  /** Whatever is granted fits the half, so a live permit object never counts
      more than the capacity unless its count lost bits in the cast. */
  lemma HeldFits(s: Half, t: nat)
    requires PermitsConserved(s) && t < |s.calls| && HeldBy(s.calls[t]) == s.calls[t].Need()
    ensures s.calls[t].Need() <= s.capacity
  {
    SumCovers(HeldBy, s.calls, t, Call(0, 0, Announced));
  }

  /** With the count of every live permit object below 2^32 the `active` counter
      is the exact number of permits behind them, and never exceeds the capacity. */
  lemma ActiveExact(s: Half)
    requires Inv(s) && s.capacity < U64
    requires forall t :: 0 <= t < |s.calls| && s.calls[t].phase.Counted? ==> s.calls[t].count < U32
    ensures s.active == Sum(ActiveBy, s.calls) <= s.capacity
  {
    SumAtMost(ActiveBy, HeldBy, s.calls);
    HeldNonNegative(s);
  }

  /** Both `debug_assert`s of the `Drop` implementations: the counter read back
      by `fetch_sub` is at least the amount subtracted, as long as the counts of
      the live permit objects add up to less than 2^64. */
  lemma DropNeverUnderflows(s: Half, t: nat)
    requires Inv(s) && s.In(t, Counted) && Sum(ActiveBy, s.calls) < U64
    ensures s.calls[t].count <= s.active
    ensures FetchSub(s.active, s.calls[t].count) == s.active - s.calls[t].count
  {
    HeldNonNegative(s);
    SumCovers(ActiveBy, s.calls, t, Call(0, 0, Announced));
  }

  ghost predicate NeverOverCapacity(capacity: nat, n: nat) {
    forall es :: Asks(es, n) && Exec(Init(capacity), es).Some? ==> Exec(Init(capacity), es).value.active <= capacity
  }

  /** `active` stays within the capacity in every run exactly when the cast
      `n as u32` loses nothing or leaves a request that is never granted.
      Otherwise the semaphore is asked for fewer permits than are counted, and
      bulk reservations overshoot, at once or when repeated. */
  lemma ActiveWithinCapacityIff(capacity: nat, n: usize)
    requires capacity <= MAX_PERMITS
    ensures NeverOverCapacity(capacity, n) <==> n < U32 || AsU32(n) > capacity
  {
    if n < U32 || AsU32(n) > capacity {
      forall es | Asks(es, n) && Exec(Init(capacity), es).Some?
        ensures Exec(Init(capacity), es).value.active <= capacity
      {
        InitInv(capacity);
        RunKeepsInv(Init(capacity), es);
        AskedFrom(capacity, es, n);
        CountedSmall(Exec(Init(capacity), es).value, n);
        ActiveExact(Exec(Init(capacity), es).value);
      }
    } else {
      OvershootFits(capacity, n);
      var k := Overshooting(capacity, n);
      BulkSums(n, k);
      OverCapacity(capacity, n, Bulk(n, k));
    }
  }

  lemma CountedSmall(s: Half, n: nat)
    requires Inv(s) && Asked(s, n) && (n < U32 || AsU32(n) > s.capacity)
    ensures forall t :: 0 <= t < |s.calls| && s.calls[t].phase.Counted? ==> s.calls[t].count < U32
  {
    forall t | 0 <= t < |s.calls| && s.calls[t].phase.Counted? ensures s.calls[t].count < U32 {
      HeldFits(s, t);
    }
  }

  /** How many bulk reservations overshoot the capacity. */
  function Overshooting(capacity: nat, n: nat): nat
    requires n > 0
  {
    capacity / n + 1
  }

  lemma OvershootFits(capacity: nat, n: nat)
    requires U32 <= n < U64 && AsU32(n) <= capacity <= MAX_PERMITS
    ensures var k := Overshooting(capacity, n); capacity < k * n < U64 && k * AsU32(n) <= capacity
  {
    var w, q := AsU32(n), capacity / n;
    assert n - w >= U32 > w by { assert n == n / U32 * U32 + w; }
    assert q * n <= capacity < (q + 1) * n == q * n + n;
    if q >= 1 {
      OvershootStays(capacity, n, w, q);
    }
  }

  lemma OvershootStays(capacity: nat, n: nat, w: nat, q: nat)
    requires 1 <= q && q * n <= capacity && w < n - w
    ensures n <= capacity && (q + 1) * w <= capacity
  {
    MulMono(1, q, n);
    MulMono(1, q, n - w);
    assert (q + 1) * w == q * w + w && q * n == q * w + q * (n - w);
  }

  lemma OverCapacity(capacity: nat, n: nat, counts: seq<nat>)
    requires forall t :: 0 <= t < |counts| ==> counts[t] == 1 || counts[t] == n
    requires Sum(NeedOf, counts) <= capacity < Sum(CountOf, counts) < U64
    ensures !NeverOverCapacity(capacity, n)
  {
    AcquireReaches(capacity, counts);
    AcquireAsks(counts, n);
    HeldActive(capacity, counts);
  }

  lemma HeldActive(capacity: nat, counts: seq<nat>)
    requires 0 <= Sum(NeedOf, counts) <= capacity && 0 <= Sum(CountOf, counts) < U64
    ensures HeldState(capacity, counts).active == Sum(CountOf, counts)
  {
  }

  // ---------- runs that only acquire ----------

  function NeedOf(n: nat): int { AsU32(n) }

  function CountOf(n: nat): int { n }

  /** Acquisitions one after another, none dropped. */
  function AcquireAll(counts: seq<nat>): seq<Event> {
    if counts == [] then []
    else
      var t := |counts| - 1;
      AcquireAll(counts[..t]) + [Announce(0, counts[t])] + [Join(t)] + [Grant(t)] + [Resume(t)] + [Count(t)]
  }

  lemma {:induction false} AcquireAsks(counts: seq<nat>, n: nat)
    requires forall t :: 0 <= t < |counts| ==> counts[t] == 1 || counts[t] == n
    ensures Asks(AcquireAll(counts), n)
  {
    if counts != [] {
      AcquireAsks(counts[..|counts| - 1], n);
    }
  }

  lemma ExecAppend(s: Half, es: seq<Event>, e: Event)
    ensures Exec(s, es + [e]) == if Exec(s, es).Some? && Enabled(Exec(s, es).value, e)
                                 then Some(Apply(Exec(s, es).value, e)) else None
  {
    assert (es + [e])[..|es|] == es;
  }

  /** All of `counts` acquired and held. */
  function HeldState(capacity: nat, counts: seq<nat>): Half
    requires 0 <= Sum(NeedOf, counts) <= capacity
  {
    Half(capacity, capacity - Sum(NeedOf, counts), Sum(CountOf, counts) % U64, 0, [],
         seq(|counts|, t requires 0 <= t < |counts| => Call(0, counts[t], Counted)))
  }

  /** Acquisitions whose requests fit together are all served. */
  lemma {:induction false} AcquireReaches(capacity: nat, counts: seq<nat>)
    requires Sum(NeedOf, counts) <= capacity
    ensures 0 <= Sum(NeedOf, counts)
    ensures Exec(Init(capacity), AcquireAll(counts)) == Some(HeldState(capacity, counts))
  {
    SumNonNegative(NeedOf, counts);
    if counts == [] {
      assert HeldState(capacity, []) == Init(capacity);
    } else {
      var t, n := |counts| - 1, counts[|counts| - 1];
      SumNonNegative(NeedOf, counts[..t]);
      AcquireReaches(capacity, counts[..t]);
      AcquireOne(capacity, counts[..t], n);
      assert counts[..t] + [n] == counts;
      ExecFive(Init(capacity), AcquireAll(counts[..t]), HeldState(capacity, counts[..t]),
               Announce(0, n), Join(t), Grant(t), Resume(t), Count(t));
    }
  }

  function Then(s: Option<Half>, e: Event): Option<Half> {
    if s.Some? && Enabled(s.value, e) then Some(Apply(s.value, e)) else None
  }

  lemma ExecFive(s0: Half, es: seq<Event>, b: Half, e1: Event, e2: Event, e3: Event, e4: Event, e5: Event)
    requires Exec(s0, es) == Some(b)
    ensures Exec(s0, es + [e1] + [e2] + [e3] + [e4] + [e5]) == Then(Then(Then(Then(Then(Some(b), e1), e2), e3), e4), e5)
  {
    ExecAppend(s0, es, e1);
    ExecAppend(s0, es + [e1], e2);
    ExecAppend(s0, es + [e1] + [e2], e3);
    ExecAppend(s0, es + [e1] + [e2] + [e3], e4);
    ExecAppend(s0, es + [e1] + [e2] + [e3] + [e4], e5);
  }

  /** The five steps of an acquisition that nothing interrupts. */
  function Acquired(b: Half, n: nat): Option<Half> {
    var t := |b.calls|;
    Then(Then(Then(Then(Then(Some(b), Announce(0, n)), Join(t)), Grant(t)), Resume(t)), Count(t))
  }

  lemma AcquireOne(capacity: nat, counts: seq<nat>, n: nat)
    requires 0 <= Sum(NeedOf, counts) && Sum(NeedOf, counts + [n]) <= capacity
    ensures Sum(NeedOf, counts + [n]) == Sum(NeedOf, counts) + AsU32(n)
    ensures Acquired(HeldState(capacity, counts), n) == Some(HeldState(capacity, counts + [n]))
  {
    SumAppend(NeedOf, counts, n);
    HeldGrows(capacity, counts, n);
    LoneAcquire(HeldState(capacity, counts), n);
  }

  lemma HeldGrows(capacity: nat, counts: seq<nat>, n: nat)
    requires 0 <= Sum(NeedOf, counts) && Sum(NeedOf, counts + [n]) == Sum(NeedOf, counts) + AsU32(n) <= capacity
    ensures var b := HeldState(capacity, counts);
      b.(available := b.available - AsU32(n), active := FetchAdd(b.active, n), calls := b.calls + [Call(0, n, Counted)])
      == HeldState(capacity, counts + [n])
  {
    SumAppend(CountOf, counts, n);
    FetchTracks(Sum(CountOf, counts), n);
    assert HeldState(capacity, counts).calls + [Call(0, n, Counted)] == HeldState(capacity, counts + [n]).calls;
  }

  /** An acquisition that finds the line empty and its permits available. */
  lemma LoneAcquire(b: Half, n: nat)
    requires b.line == [] && b.queued == 0 && AsU32(n) <= b.available
    ensures Acquired(b, n) == Some(b.(
      available := b.available - AsU32(n), active := FetchAdd(b.active, n), calls := b.calls + [Call(0, n, Counted)]))
  {
    var t := |b.calls|;
    var s1 := b.(queued := 1, calls := b.calls + [Call(0, n, Announced)]);
    assert Then(Some(b), Announce(0, n)) == Some(s1);
    var s2 := s1.(line := [t], calls := b.calls + [Call(0, n, Waiting)]);
    assert Then(Some(s1), Join(t)) == Some(s2) by {
      assert s1.Move(t, Waiting).calls == s2.calls && s1.line + [t] == [t];
    }
    var s3 := s2.(line := [], available := b.available - AsU32(n), calls := b.calls + [Call(0, n, Granted)]);
    assert Then(Some(s2), Grant(t)) == Some(s3) by {
      assert s2.Move(t, Granted).calls == s3.calls && [t][1..] == [];
    }
    LoneResume(s3, b, n);
  }

  lemma LoneResume(s3: Half, b: Half, n: nat)
    requires s3.calls == b.calls + [Call(0, n, Granted)] && s3.queued == 1 && s3.active == b.active
    ensures var t := |b.calls|;
      Then(Then(Some(s3), Resume(t)), Count(t))
      == Some(s3.(queued := 0, active := FetchAdd(b.active, n), calls := b.calls + [Call(0, n, Counted)]))
  {
    var t := |b.calls|;
    var s4 := s3.(queued := 0, calls := b.calls + [Call(0, n, Admitted)]);
    assert Then(Some(s3), Resume(t)) == Some(s4) by {
      assert s3.Move(t, Admitted).calls == s4.calls;
    }
    assert s4.Move(t, Counted).calls == b.calls + [Call(0, n, Counted)];
  }

  lemma JoinsAlone(s: Half, caller: nat, n: nat)
    requires s.line == []
    ensures var t, s1 := |s.calls|, Apply(s, Announce(caller, n));
      Enabled(s1, Join(t)) && Apply(s1, Join(t)) ==
        s.(queued := FetchAdd(s.queued, 1), line := [t], calls := s.calls + [Call(caller, n, Waiting)])
  {
    assert s.calls + [Call(caller, n, Waiting)]
      == (s.calls + [Call(caller, n, Announced)])[|s.calls| := Call(caller, n, Waiting)];
  }

  lemma GrantsAlone(s: Half, calls: seq<Call>, caller: nat, n: nat)
    requires s.calls == calls + [Call(caller, n, Waiting)] && s.line == [|calls|]
    ensures Enabled(s, Grant(|calls|)) <==> AsU32(n) <= s.available
    ensures AsU32(n) <= s.available ==>
      Apply(s, Grant(|calls|))
      == s.(line := [], available := s.available - AsU32(n), calls := calls + [Call(caller, n, Granted)])
  {
    assert s.calls[|calls| := Call(caller, n, Granted)] == calls + [Call(caller, n, Granted)];
  }

  /** An acquisition by a caller nobody stands before, one step at a time. */
  lemma AloneSteps(b: Half, caller: nat, n: nat)
    requires b.line == [] && AsU32(n) <= b.available
    ensures var t, b1 := |b.calls|, Apply(b, Announce(caller, n));
      Enabled(b1, Join(t)) &&
      var b2 := Apply(b1, Join(t));
      Enabled(b2, Grant(t)) &&
      var b3 := Apply(b2, Grant(t));
      Enabled(b3, Resume(t)) &&
      var b4 := Apply(b3, Resume(t));
      Enabled(b4, Count(t)) &&
      var b5 := Apply(b4, Count(t));
      && b5.calls == b.calls + [Call(caller, n, Counted)] && b5.line == []
      && b5.available == b.available - AsU32(n) && b5.active == FetchAdd(b.active, n)
  {
    var t, b1 := |b.calls|, Apply(b, Announce(caller, n));
    JoinsAlone(b, caller, n);
    GrantsAlone(Apply(b1, Join(t)), b.calls, caller, n);
  }

  /** A call that times out in an empty line. */
  lemma TimeoutSteps(b: Half, caller: nat, n: nat)
    requires b.line == []
    ensures var t, b1 := |b.calls|, Apply(b, Announce(caller, n));
      Enabled(b1, Join(t)) &&
      var b2 := Apply(b1, Join(t));
      Enabled(b2, Expire(t)) && Enabled(Apply(b2, Expire(t)), Fail(t))
  {
    JoinsAlone(b, caller, n);
  }

  /** The drop of a permit object. */
  lemma DropSteps(b: Half, t: nat)
    requires b.In(t, Counted)
    ensures Enabled(b, Sub(t)) &&
      var b1 := Apply(b, Sub(t));
      Enabled(b1, Release(t)) &&
      var b2 := Apply(b1, Release(t));
      && b2.line == b.line && |b2.calls| == |b.calls|
      && b2.available == b.available + b.calls[t].Need() && b2.active == FetchSub(b.active, b.calls[t].count)
  {
  }

  function Bulk(n: nat, k: nat): seq<nat> { seq(k, _ => n) }

  lemma {:induction false} BulkSums(n: nat, k: nat)
    ensures Sum(CountOf, Bulk(n, k)) == k * n && Sum(NeedOf, Bulk(n, k)) == k * AsU32(n)
  {
    if k > 0 {
      BulkSums(n, k - 1);
      assert Bulk(n, k)[..k - 1] == Bulk(n, k - 1);
      assert k * n == (k - 1) * n + n && k * AsU32(n) == (k - 1) * AsU32(n) + AsU32(n);
    }
  }

  // ---------- exactly when a drop underflows ----------

  ghost predicate NeverUnderflows(capacity: nat, n: nat) {
    forall es :: Asks(es, n) && Exec(Init(capacity), es).Some? ==> DropsSafe(Exec(Init(capacity), es).value)
  }

  /** Every live permit object's count is at most `active`. */
  ghost predicate DropsSafe(s: Half) { forall t: nat :: s.In(t, Counted) ==> s.calls[t].count <= s.active }

  /** The most that `active` can be asked to count at once stays below 2^64:
      as many bulk reservations as fit, and single ones in what is left. */
  predicate CountFits(capacity: nat, n: nat) {
    var w := AsU32(n);
    if w == 0 then n == 0 else capacity / w * (n - w) + capacity < U64
  }

  /** The `debug_assert`s hold at every drop of every run exactly when the counts
      held at once cannot reach 2^64. */
  lemma UnderflowIff(capacity: nat, n: usize)
    requires capacity <= MAX_PERMITS
    ensures NeverUnderflows(capacity, n) <==> CountFits(capacity, n)
  {
    if CountFits(capacity, n) {
      forall es | Asks(es, n) && Exec(Init(capacity), es).Some? ensures DropsSafe(Exec(Init(capacity), es).value) {
        var s := Exec(Init(capacity), es).value;
        InitInv(capacity);
        RunKeepsInv(Init(capacity), es);
        AskedFrom(capacity, es, n);
        CountsStayBelow(s, n);
        forall t: nat | s.In(t, Counted) ensures s.calls[t].count <= s.active {
          DropNeverUnderflows(s, t);
        }
      }
    } else {
      Underflow(capacity, n);
    }
  }

  function Bulky(n: nat): Call -> int { (c: Call) => if c.phase.Counted? && c.count == n then 1 else 0 }

  lemma {:induction false} ActiveBound(calls: seq<Call>, n: nat)
    requires forall t :: 0 <= t < |calls| ==> calls[t].count == 1 || calls[t].count == n
    ensures 0 <= Sum(Bulky(n), calls)
    ensures Sum(ActiveBy, calls) <= Sum(HeldBy, calls) + (n - AsU32(n)) * Sum(Bulky(n), calls)
    ensures AsU32(n) * Sum(Bulky(n), calls) <= Sum(HeldBy, calls)
  {
    if calls != [] {
      var init, c := calls[..|calls| - 1], calls[|calls| - 1];
      var k := Sum(Bulky(n), init);
      ActiveBound(init, n);
      if Bulky(n)(c) == 1 {
        assert (n - AsU32(n)) * (k + 1) == (n - AsU32(n)) * k + (n - AsU32(n));
        assert AsU32(n) * (k + 1) == AsU32(n) * k + AsU32(n);
      }
    }
  }

  lemma CountsStayBelow(s: Half, n: nat)
    requires Inv(s) && Asked(s, n) && s.capacity <= MAX_PERMITS && CountFits(s.capacity, n)
    ensures Sum(ActiveBy, s.calls) < U64
  {
    ActiveBound(s.calls, n);
    HeldNonNegative(s);
    BoundFits(Sum(ActiveBy, s.calls), Sum(HeldBy, s.calls), Sum(Bulky(n), s.calls), n, s.capacity);
  }

  lemma BoundFits(active: nat, held: nat, k: nat, n: nat, capacity: nat)
    requires CountFits(capacity, n) && held <= capacity <= MAX_PERMITS
    requires active <= held + (n - AsU32(n)) * k && AsU32(n) * k <= held
    ensures active < U64
  {
    var w := AsU32(n);
    if w > 0 {
      AtMostQuotient(k, w, capacity);
      MulMono(k, capacity / w, n - w);
    }
  }

  lemma AtMostQuotient(k: nat, w: nat, total: nat)
    requires w > 0 && w * k <= total
    ensures k <= total / w
  {
    if k > total / w {
      assert (total / w + 1) * w == total / w * w + w;
      MulMono(total / w + 1, k, w);
    }
  }

  /** A run whose last acquisition finds `active` wrapped below its count. */
  lemma Wraps(capacity: nat, n: nat, counts: seq<nat>)
    requires counts != [] && forall t :: 0 <= t < |counts| ==> counts[t] == 1 || counts[t] == n
    requires Sum(NeedOf, counts) <= capacity && Sum(CountOf, counts) % U64 < counts[|counts| - 1]
    ensures !NeverUnderflows(capacity, n)
  {
    AcquireReaches(capacity, counts);
    AcquireAsks(counts, n);
    assert HeldState(capacity, counts).In(|counts| - 1, Counted);
  }

  lemma Underflow(capacity: nat, n: usize)
    requires capacity <= MAX_PERMITS && !CountFits(capacity, n)
    ensures !NeverUnderflows(capacity, n)
  {
    var w := AsU32(n);
    var most := if w == 0 then U64 else capacity / w;
    if most * n >= U64 {
      BulkWraps(capacity, n, most);
    } else {
      SinglesFill(capacity, n, most);
    }
  }

  /** As many bulk reservations as it takes to reach 2^64. */
  lemma BulkWraps(capacity: nat, n: nat, most: nat)
    requires n > 0 && most * n >= U64 && (AsU32(n) > 0 ==> most == capacity / AsU32(n))
    ensures !NeverUnderflows(capacity, n)
  {
    var k := (U64 + n - 1) / n;
    LeastMultiple(capacity, n, most, k);
    BulkSums(n, k);
    WrapsOnce(k, n);
    Wraps(capacity, n, Bulk(n, k));
  }

  lemma WrapsOnce(k: nat, n: nat)
    requires k >= 1 && (k - 1) * n < U64 <= k * n
    ensures k * n % U64 < n
  {
    assert k * n == (k - 1) * n + n;
    ModShift(k * n - U64, 1);
    if n <= U64 {
      assert (k * n - U64) % U64 == k * n - U64;
    }
  }

  lemma LeastMultiple(capacity: nat, n: nat, most: nat, k: nat)
    requires n > 0 && most * n >= U64 && k == (U64 + n - 1) / n
    requires AsU32(n) > 0 ==> most == capacity / AsU32(n)
    ensures k >= 1 && (k - 1) * n < U64 <= k * n && k <= most && k * AsU32(n) <= capacity
  {
    var r := (U64 + n - 1) % n;
    assert U64 + n - 1 == k * n + r;
    assert k * n == (k - 1) * n + n;
    if k > most {
      MulMono(most, k - 1, n);
    }
    MulMono(k, most, AsU32(n));
    if AsU32(n) > 0 {
      assert capacity / AsU32(n) * AsU32(n) <= capacity;
    }
  }

  /** The bulk reservations that fit fall short of 2^64, and single ones make up the rest. */
  lemma SinglesFill(capacity: nat, n: nat, most: nat)
    requires AsU32(n) > 0 && most == capacity / AsU32(n) && most * n < U64 <= most * (n - AsU32(n)) + capacity
    ensures !NeverUnderflows(capacity, n)
  {
    var w := AsU32(n);
    var j := U64 - most * n;
    assert most * n == most * (n - w) + most * w;
    FilledSums(n, most, j);
    Wraps(capacity, n, Filled(n, most, j));
  }

  function Filled(n: nat, most: nat, singles: nat): seq<nat> { Bulk(n, most) + Bulk(1, singles) }

  lemma FilledSums(n: nat, most: nat, singles: nat)
    requires singles > 0
    ensures Sum(CountOf, Filled(n, most, singles)) == most * n + singles
    ensures Sum(NeedOf, Filled(n, most, singles)) == most * AsU32(n) + singles
    ensures var counts := Filled(n, most, singles);
      counts != [] && counts[|counts| - 1] == 1 && forall t :: 0 <= t < |counts| ==> counts[t] == 1 || counts[t] == n
  {
    BulkSums(n, most);
    BulkSums(1, singles);
    SumConcat(CountOf, Bulk(n, most), Bulk(1, singles));
    SumConcat(NeedOf, Bulk(n, most), Bulk(1, singles));
  }

  // ---------- quiescence ----------

  ghost predicate Quiescent(s: Half) {
    forall t :: 0 <= t < |s.calls| ==> s.calls[t].phase.Gone?
  }

  /** How many futures the run dropped between `fetch_add` and `fetch_sub` of `queued`. */
  function DroppedWhileQueued(es: seq<Event>): nat {
    if es == [] then 0
    else
      var e := es[|es| - 1];
      DroppedWhileQueued(es[..|es| - 1]) + if e.Quit? || e.Forfeit? then 1 else 0
  }

  function LeakedBy(c: Call): int { if c.phase == Gone(true) then 1 else 0 }

  lemma {:induction false} LeaksCounted(s: Half, es: seq<Event>)
    requires Exec(s, es).Some?
    ensures Sum(LeakedBy, Exec(s, es).value.calls) == Sum(LeakedBy, s.calls) + DroppedWhileQueued(es)
  {
    if es != [] {
      var init, e := es[..|es| - 1], es[|es| - 1];
      var m := Exec(s, init).value;
      LeaksCounted(s, init);
      StepCalls(m, e);
      if e.Announce? {
        SumAppend(LeakedBy, m.calls, Call(e.caller, e.count, Announced));
      } else {
        SumUpdate(LeakedBy, m.calls, e.t, m.calls[e.t].(phase := Target(e)));
      }
    }
  }

  /** Once every call of a run has finished the half is back at full capacity
      with nothing active and nobody in line, whatever mix of success, timeout
      and cancellation produced it; only `queued` remembers the futures that
      were dropped while queued, one for each. */
  lemma QuiescentPool(capacity: nat, es: seq<Event>)
    requires Exec(Init(capacity), es).Some? && Quiescent(Exec(Init(capacity), es).value)
    ensures var s := Exec(Init(capacity), es).value;
      && s.available == capacity && s.active == 0 && s.line == []
      && s.queued == DroppedWhileQueued(es) % U64
  {
    var s := Exec(Init(capacity), es).value;
    InitInv(capacity);
    RunKeepsInv(Init(capacity), es);
    LeaksCounted(Init(capacity), es);
    SumZero(HeldBy, s.calls);
    SumZero(ActiveBy, s.calls);
    SumSame(QueuedBy, LeakedBy, s.calls);
    assert forall t :: t !in s.line;
    EmptyOrInhabited(s.line);
  }

  /** `k` futures dropped while waiting, one after another. */
  function DropRun(k: nat): seq<Event> {
    if k == 0 then [] else DropRun(k - 1) + [Announce(0, 1)] + [Join(k - 1)] + [Quit(k - 1)]
  }

  function DropState(capacity: nat, k: nat): Half {
    Half(capacity, capacity, 0, k % U64, [], seq(k, _ => Call(0, 1, Gone(true))))
  }

  lemma LastQuits(s: Half, t: nat)
    requires s.In(t, Waiting) && s.line == [t]
    ensures Apply(s, Quit(t)) == s.(line := [], calls := s.calls[t := s.calls[t].(phase := Gone(true))])
  {
    WithoutAppend([], t, {t});
    assert [] + [t] == [t];
  }

  /** The residue is real: an idle half can show any number of queued callers. */
  lemma {:induction false} QueuedLeaks(capacity: nat, k: nat)
    ensures Exec(Init(capacity), DropRun(k)) == Some(DropState(capacity, k)) && Quiescent(DropState(capacity, k))
    ensures DropState(capacity, k).available == capacity && DropState(capacity, k).queued == k % U64
  {
    if k == 0 {
      assert DropState(capacity, 0) == Init(capacity);
    } else {
      var t, es, b := k - 1, DropRun(k - 1), DropState(capacity, k - 1);
      QueuedLeaks(capacity, t);
      ExecAppend(Init(capacity), es, Announce(0, 1));
      ExecAppend(Init(capacity), es + [Announce(0, 1)], Join(t));
      ExecAppend(Init(capacity), es + [Announce(0, 1)] + [Join(t)], Quit(t));
      var s1 := b.(queued := FetchAdd(b.queued, 1), calls := b.calls + [Call(0, 1, Announced)]);
      assert Apply(b, Announce(0, 1)) == s1;
      var s2 := s1.(line := [t], calls := b.calls + [Call(0, 1, Waiting)]);
      assert Apply(s1, Join(t)) == s2 by { assert s1.Move(t, Waiting).calls == s2.calls; }
      LastQuits(s2, t);
      FetchTracks(t, 1);
      assert Apply(s2, Quit(t)) == DropState(capacity, k) by {
        assert Apply(s2, Quit(t)).calls == DropState(capacity, k).calls;
      }
    }
  }

  // ---------- all-or-nothing never deadlocks ----------

  /** Steps the pool and its callers take on their own: no arrival, no timer, no cancellation. */
  predicate Spontaneous(e: Event) {
    !e.Announce? && !e.Expire? && !e.Quit? && !e.Forfeit?
  }

  ghost predicate Stuck(s: Half) {
    && !Quiescent(s)
    && forall e :: Spontaneous(e) ==> !Enabled(s, e)
  }

  ghost predicate CanGetStuck(capacity: nat, n: nat) {
    exists es :: Asks(es, n) && Exec(Init(capacity), es).Some? && Stuck(Exec(Init(capacity), es).value)
  }

  /** When every request fits the half, some call can always move. */
  lemma SomebodyMoves(s: Half, u: nat) returns (e: Event)
    requires Inv(s) && u < |s.calls| && !s.calls[u].phase.Gone?
    requires forall t :: 0 <= t < |s.calls| ==> s.calls[t].Need() <= s.capacity
    ensures Spontaneous(e) && Enabled(s, e)
  {
    if t :| 0 <= t < |s.calls| && !s.calls[t].phase.Gone? && !s.calls[t].phase.Waiting? {
      match s.calls[t].phase
      case Announced => e := Join(t);
      case Granted => e := Resume(t);
      case Expired => e := Fail(t);
      case Admitted => e := Count(t);
      case Counted => e := Sub(t);
      case Subtracted => e := Release(t);
    } else {
      SumZero(HeldBy, s.calls);
      assert u in s.line;
      assert s.In(s.line[0], Waiting);
      e := Grant(s.line[0]);
    }
  }

  /** A half can be stuck without timeouts exactly when a request exceeds it: the
      bulk one after the cast, or a single one if there is no permit at all. */
  lemma StuckIffOversized(capacity: nat, n: nat)
    ensures CanGetStuck(capacity, n) <==> AsU32(n) > capacity || capacity == 0
  {
    InitInv(capacity);
    if AsU32(n) > capacity {
      OversizedSticks(capacity, n, n);
    } else if capacity == 0 {
      OversizedSticks(capacity, n, 1);
    } else if CanGetStuck(capacity, n) {
      var es :| Asks(es, n) && Exec(Init(capacity), es).Some? && Stuck(Exec(Init(capacity), es).value);
      var s := Exec(Init(capacity), es).value;
      RunKeepsInv(Init(capacity), es);
      AskedFrom(capacity, es, n);
      var u :| 0 <= u < |s.calls| && !s.calls[u].phase.Gone?;
      var e := SomebodyMoves(s, u);
    }
  }

  lemma OversizedSticks(capacity: nat, n: nat, count: nat)
    requires AsU32(count) > capacity && (count == 1 || count == n)
    ensures CanGetStuck(capacity, n)
  {
    var es := [Announce(0, count), Join(0)];
    assert es[..1] == [Announce(0, count)] && es[..1][..0] == [];
    var s1 := Apply(Init(capacity), Announce(0, count));
    assert Exec(Init(capacity), es[..1]) == Some(s1);
    var s := Apply(s1, Join(0));
    assert Exec(Init(capacity), es) == Some(s);
    assert s.calls == [Call(0, count, Waiting)];
    assert !s.calls[0].phase.Gone?;
    assert Stuck(s);
    assert Asks(es, n);
  }
}
