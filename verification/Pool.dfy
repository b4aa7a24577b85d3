/** The read/write permit pool (src/pool.rs) at the granularity of its atomics.

    One half is a FIFO semaphore plus two 64-bit counters. A call to `acquire`
    or `acquire_bulk` is a ticket whose phase says which of its steps it has
    taken; an interleaving of any number of calls is a sequence of events. */
module Pool {
  import opened Sequences
  import opened Wrappers

  const U32: nat := 0x1_0000_0000
  const U64: nat := 0x1_0000_0000_0000_0000

  type usize = n: nat | n < U64

  /** The largest capacity `Semaphore::new` accepts. */
  const MAX_PERMITS: nat := U64 / 8 - 1

  /** The cast `n as u32`. */
  function AsU32(n: nat): (r: nat)
    ensures r < U32 && r <= n
    ensures r == n <==> n < U32
  {
    n % U32
  }

  /** `AtomicU64::fetch_add` and `fetch_sub` wrap around. */
  function FetchAdd(counter: nat, n: nat): nat { (counter + n) % U64 }

  function FetchSub(counter: nat, n: nat): nat { (counter - n) % U64 }

  /** Wrapping counters track an exact total modulo 2^64. */
  lemma FetchTracks(total: int, n: nat)
    ensures FetchAdd(total % U64, n) == (total + n) % U64
    ensures FetchSub(total % U64, n) == (total - n) % U64
  {
    var q, r := total / U64, total % U64;
    ModShift(r + n, q);
    ModShift(r - n, q);
  }

  lemma ModShift(r: int, q: int)
    ensures (r + q * U64) % U64 == r % U64
  {
  }

  datatype Phase =
    | Announced           // `queued` incremented, not yet in the semaphore's line
    | Waiting             // in the line
    | Granted             // permits assigned, the caller has not resumed
    | Expired             // the timer fired while waiting, the caller has not resumed
    | Admitted            // resumed with permits: `queued` decremented, `active` not yet incremented
    | Counted             // the permit object exists
    | Subtracted          // `Drop::drop` ran, the inner semaphore permit is not yet returned
    | Gone(leaked: bool)  // finished; `leaked` when the future was dropped while queued

  /** `count` is the caller's `n: usize`; the semaphore is asked for `n as u32`. */
  datatype Call = Call(caller: nat, count: nat, phase: Phase) {
    function Need(): nat { AsU32(count) }
  }

  datatype Half = Half(capacity: nat, available: nat, active: nat, queued: nat,
                       line: seq<nat>, calls: seq<Call>)
  {
    predicate In(t: nat, p: Phase) { t < |calls| && calls[t].phase == p }

    function Move(t: nat, p: Phase): Half
      requires t < |calls|
    {
      this.(calls := calls[t := calls[t].(phase := p)])
    }
  }

  datatype Event =
    | Announce(caller: nat, count: nat)  // a call starts
    | Join(t: nat)      // first poll: enter the line
    | Grant(t: nat)     // the semaphore serves the head of the line
    | Expire(t: nat)    // the timeout elapses
    | Resume(t: nat)    // the granted caller runs again
    | Fail(t: nat)      // the timed-out caller runs again and returns `Err`
    | Count(t: nat)     // the permit object is built
    | Sub(t: nat)       // `Drop::drop` of the permit object
    | Release(t: nat)   // the inner semaphore permit is dropped
    | Quit(t: nat)      // the future is dropped while waiting
    | Forfeit(t: nat)   // the future is dropped between grant and resume

  function Init(capacity: nat): Half { Half(capacity, capacity, 0, 0, [], []) }

  predicate Enabled(s: Half, e: Event) {
    match e
    case Announce(_, _) => true
    case Join(t) => s.In(t, Announced)
    // FIFO, and all-or-nothing: only the head of the line, only its whole request
    case Grant(t) => s.In(t, Waiting) && s.line != [] && s.line[0] == t && s.calls[t].Need() <= s.available
    case Expire(t) => s.In(t, Waiting)
    case Resume(t) => s.In(t, Granted)
    case Fail(t) => s.In(t, Expired)
    case Count(t) => s.In(t, Admitted)
    case Sub(t) => s.In(t, Counted)
    case Release(t) => s.In(t, Subtracted)
    case Quit(t) => s.In(t, Waiting)
    case Forfeit(t) => s.In(t, Granted)
  }

  function Apply(s: Half, e: Event): Half
    requires Enabled(s, e)
  {
    match e
    case Announce(caller, n) => s.(queued := FetchAdd(s.queued, 1), calls := s.calls + [Call(caller, n, Announced)])
    case Join(t) => s.Move(t, Waiting).(line := s.line + [t])
    case Grant(t) => s.Move(t, Granted).(line := s.line[1..], available := s.available - s.calls[t].Need())
    case Expire(t) => s.Move(t, Expired).(line := Without(s.line, {t}))
    case Resume(t) => s.Move(t, Admitted).(queued := FetchSub(s.queued, 1))
    case Fail(t) => s.Move(t, Gone(false)).(queued := FetchSub(s.queued, 1))
    case Count(t) => s.Move(t, Counted).(active := FetchAdd(s.active, s.calls[t].count))
    case Sub(t) => s.Move(t, Subtracted).(active := FetchSub(s.active, s.calls[t].count))
    case Release(t) => s.Move(t, Gone(false)).(available := s.available + s.calls[t].Need())
    case Quit(t) => s.Move(t, Gone(true)).(line := Without(s.line, {t}))
    case Forfeit(t) => s.Move(t, Gone(true)).(available := s.available + s.calls[t].Need())
  }

  /** The state after a run, or `None` when some event was not enabled. */
  function Exec(s: Half, es: seq<Event>): Option<Half> {
    if es == [] then Some(s)
    else
      var before := Exec(s, es[..|es| - 1]);
      var e := es[|es| - 1];
      if before.Some? && Enabled(before.value, e) then Some(Apply(before.value, e)) else None
  }

  // What each call contributes to the three totals.

  function HeldBy(c: Call): int {
    if c.phase.Granted? || c.phase.Admitted? || c.phase.Counted? || c.phase.Subtracted? then c.Need() else 0
  }

  function ActiveBy(c: Call): int { if c.phase.Counted? then c.count else 0 }

  function QueuedBy(c: Call): int {
    if c.phase.Announced? || c.phase.Waiting? || c.phase.Granted? || c.phase.Expired? || c.phase == Gone(true)
    then 1 else 0
  }

  ghost predicate PermitsConserved(s: Half) {
    s.available + Sum(HeldBy, s.calls) == s.capacity
  }

  ghost predicate CountersExact(s: Half) {
    && s.active == Sum(ActiveBy, s.calls) % U64
    && s.queued == Sum(QueuedBy, s.calls) % U64
  }

  ghost predicate LineExact(s: Half) {
    && NoDuplicates(s.line)
    && forall t :: t in s.line <==> s.In(t, Waiting)
  }

  ghost predicate Inv(s: Half) {
    PermitsConserved(s) && CountersExact(s) && LineExact(s)
  }

  lemma MoveSums(s: Half, t: nat, p: Phase)
    requires t < |s.calls|
    ensures Sum(HeldBy, s.Move(t, p).calls) == Sum(HeldBy, s.calls) - HeldBy(s.calls[t]) +
        HeldBy(s.calls[t].(phase := p))
    ensures Sum(ActiveBy, s.Move(t, p).calls) ==
        Sum(ActiveBy, s.calls) - ActiveBy(s.calls[t]) + ActiveBy(s.calls[t].(phase := p))
    ensures Sum(QueuedBy, s.Move(t, p).calls) ==
        Sum(QueuedBy, s.calls) - QueuedBy(s.calls[t]) + QueuedBy(s.calls[t].(phase := p))
  {
    SumUpdate(HeldBy, s.calls, t, s.calls[t].(phase := p));
    SumUpdate(ActiveBy, s.calls, t, s.calls[t].(phase := p));
    SumUpdate(QueuedBy, s.calls, t, s.calls[t].(phase := p));
  }

  /** The ticket an event acts on and the phase it leads to. */
  function TicketOf(e: Event): nat
    requires !e.Announce?
  { e.t }

  function Target(e: Event): Phase
    requires !e.Announce?
  {
    match e
    case Join(_) => Waiting
    case Grant(_) => Granted
    case Expire(_) => Expired
    case Resume(_) => Admitted
    case Fail(_) => Gone(false)
    case Count(_) => Counted
    case Sub(_) => Subtracted
    case Release(_) => Gone(false)
    case Quit(_) => Gone(true)
    case Forfeit(_) => Gone(true)
  }

  lemma StepCalls(s: Half, e: Event)
    requires Enabled(s, e)
    ensures e.Announce? ==> Apply(s, e).calls == s.calls + [Call(e.caller, e.count, Announced)]
    ensures !e.Announce? ==> TicketOf(e) < |s.calls| && Apply(s, e).calls == s.Move(TicketOf(e), Target(e)).calls
    ensures Apply(s, e).capacity == s.capacity
  {
  }

  // What each event adds to the three totals.

  function HeldDelta(s: Half, e: Event): int
    requires Enabled(s, e)
  {
    if e.Grant? then s.calls[e.t].Need()
    else if e.Release? || e.Forfeit? then -(s.calls[e.t].Need() as int)
    else 0
  }

  function ActiveDelta(s: Half, e: Event): int
    requires Enabled(s, e)
  {
    if e.Count? then s.calls[e.t].count else if e.Sub? then -(s.calls[e.t].count as int) else 0
  }

  function QueuedDelta(e: Event): int {
    if e.Announce? then 1 else if e.Resume? || e.Fail? then -1 else 0
  }

  lemma StepSums(s: Half, e: Event)
    requires Enabled(s, e)
    ensures Sum(HeldBy, Apply(s, e).calls) == Sum(HeldBy, s.calls) + HeldDelta(s, e)
    ensures Sum(ActiveBy, Apply(s, e).calls) == Sum(ActiveBy, s.calls) + ActiveDelta(s, e)
    ensures Sum(QueuedBy, Apply(s, e).calls) == Sum(QueuedBy, s.calls) + QueuedDelta(e)
  {
    StepCalls(s, e);
    if e.Announce? {
      var call := Call(e.caller, e.count, Announced);
      SumAppend(HeldBy, s.calls, call);
      SumAppend(ActiveBy, s.calls, call);
      SumAppend(QueuedBy, s.calls, call);
    } else {
      MoveSums(s, e.t, Target(e));
    }
  }

  lemma StepKeepsPermits(s: Half, e: Event)
    requires Enabled(s, e) && PermitsConserved(s)
    ensures PermitsConserved(Apply(s, e))
  {
    StepSums(s, e);
  }

  /** A counter moved by `delta`, wrapping. */
  function Moved(counter: nat, delta: int): nat {
    if delta >= 0 then FetchAdd(counter, delta) else FetchSub(counter, -delta)
  }

  lemma StepCounters(s: Half, e: Event)
    requires Enabled(s, e)
    ensures Apply(s, e).active == s.active || Apply(s, e).active == Moved(s.active, ActiveDelta(s, e))
    ensures Apply(s, e).active == s.active ==> ActiveDelta(s, e) == 0 || s.active == Moved(s.active, ActiveDelta(s, e))
    ensures Apply(s, e).queued == if QueuedDelta(e) == 0 then s.queued else Moved(s.queued, QueuedDelta(e))
  {
  }

  lemma StepKeepsCounters(s: Half, e: Event)
    requires Enabled(s, e) && CountersExact(s)
    ensures CountersExact(Apply(s, e))
  {
    StepSums(s, e);
    StepCounters(s, e);
    MovedTracks(Sum(ActiveBy, s.calls), ActiveDelta(s, e));
    MovedTracks(Sum(QueuedBy, s.calls), QueuedDelta(e));
  }

  lemma MovedTracks(total: int, delta: int)
    ensures Moved(total % U64, delta) == (total + delta) % U64
  {
    if delta >= 0 { FetchTracks(total, delta); } else { FetchTracks(total, -delta); }
  }

  lemma StepKeepsLine(s: Half, e: Event)
    requires Enabled(s, e) && LineExact(s)
    ensures LineExact(Apply(s, e))
  {
    if e.Expire? || e.Quit? {
      WithoutMembers(s.line, {e.t});
      WithoutKeepsDistinct(s.line, {e.t});
    } else if e.Grant? {
      assert s.line == [e.t] + s.line[1..];
      assert e.t !in s.line[1..];
      assert forall t :: t in s.line[1..] <==> t in s.line && t != e.t;
    } else if e.Join? {
      assert e.t !in s.line;
    }
  }

  lemma InitInv(capacity: nat)
    ensures Inv(Init(capacity))
  {
  }

  lemma StepKeepsInv(s: Half, e: Event)
    requires Enabled(s, e) && Inv(s)
    ensures Inv(Apply(s, e))
  {
    StepKeepsPermits(s, e);
    StepKeepsCounters(s, e);
    StepKeepsLine(s, e);
  }

  /** Permit conservation and counter accuracy in every reachable state. */
  lemma {:induction false} RunKeepsInv(s: Half, es: seq<Event>)
    requires Inv(s) && Exec(s, es).Some?
    ensures Inv(Exec(s, es).value) && Exec(s, es).value.capacity == s.capacity
  {
    if es != [] {
      var init := es[..|es| - 1];
      RunKeepsInv(s, init);
      StepKeepsInv(Exec(s, init).value, es[|es| - 1]);
      StepCalls(Exec(s, init).value, es[|es| - 1]);
    }
  }
}
