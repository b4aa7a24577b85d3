/** `HalfPool` as the source holds it: mutable counters, a semaphore and its
    line, updated step by step (src/pool.rs). Every method is one atomic step of
    `acquire`, `acquire_bulk` or a `Drop`, proved against `Pool.Apply`. */
module HalfPools {
  import opened Pool
  import opened PoolRuns
  import opened Sequences

  class HalfPool {
    const capacity: nat
    var available: nat
    var active: nat
    var queued: nat
    var line: seq<nat>
    var calls: seq<Call>

    ghost function State(): Half
      reads this
    {
      Half(capacity, available, active, queued, line, calls)
    }

    ghost predicate Valid()
      reads this
    {
      Inv(State())
    }

    constructor (capacity: nat)
      ensures Valid() && State() == Init(capacity)
    {
      this.capacity := capacity;
      available, active, queued, line, calls := capacity, 0, 0, [], [];
      new;
      InitInv(capacity);
    }

    method SetPhase(t: nat, p: Phase)
      requires t < |calls|
      modifies `calls
      ensures calls == old(calls)[t := old(calls)[t].(phase := p)]
    {
      calls := calls[t := calls[t].(phase := p)];
    }

    method BeginAcquire(caller: nat, n: nat) returns (t: nat)
      requires Valid()
      modifies this
      ensures Valid() && State() == Apply(old(State()), Announce(caller, n))
      ensures t == |old(calls)| && State().In(t, Announced)
    {
      StepKeepsInv(State(), Announce(caller, n));
      t := |calls|;
      queued := FetchAdd(queued, 1);
      calls := calls + [Call(caller, n, Announced)];
    }

    method EnterLine(t: nat)
      requires Valid() && Enabled(State(), Join(t))
      modifies this
      ensures Valid() && State() == Apply(old(State()), Join(t))
    {
      StepKeepsInv(State(), Join(t));
      line := line + [t];
      SetPhase(t, Waiting);
    }

    /** The semaphore serves its head, if the whole request fits. */
    method TryServe() returns (served: bool)
      requires Valid()
      modifies this
      ensures Valid()
      ensures served == (old(line) != [] && Enabled(old(State()), Grant(old(line)[0])))
      ensures State() == if served then Apply(old(State()), Grant(old(line)[0])) else old(State())
    {
      served := false;
      if line != [] {
        var t := line[0];
        assert t in line;
        if calls[t].Need() <= available {
          StepKeepsInv(State(), Grant(t));
          served := true;
          available := available - calls[t].Need();
          line := line[1..];
          SetPhase(t, Granted);
        }
      }
    }

    method TimeOut(t: nat)
      requires Valid() && Enabled(State(), Expire(t))
      modifies this
      ensures Valid() && State() == Apply(old(State()), Expire(t))
    {
      StepKeepsInv(State(), Expire(t));
      line := Without(line, {t});
      SetPhase(t, Expired);
    }

    /** The caller runs again after its await: `queued` is decremented on the
        success and on the timeout path alike. */
    method Wake(t: nat) returns (ok: bool)
      requires Valid() && (Enabled(State(), Resume(t)) || Enabled(State(), Fail(t)))
      modifies this
      ensures Valid() && ok == old(State()).In(t, Granted)
      ensures State() == Apply(old(State()), if ok then Resume(t) else Fail(t))
    {
      ok := calls[t].phase.Granted?;
      StepKeepsInv(State(), if ok then Resume(t) else Fail(t));
      queued := FetchSub(queued, 1);
      SetPhase(t, if ok then Admitted else Gone(false));
    }

    method BuildPermit(t: nat)
      requires Valid() && Enabled(State(), Count(t))
      modifies this
      ensures Valid() && State() == Apply(old(State()), Count(t))
    {
      StepKeepsInv(State(), Count(t));
      active := FetchAdd(active, calls[t].count);
      SetPhase(t, Counted);
    }

    /** `Drop for Permit` and `Drop for BulkPermit`, whose debug assertion is
        `previous >= count`. */
    method DropPermit(t: nat) returns (previous: nat)
      requires Valid() && Enabled(State(), Sub(t))
      modifies this
      ensures Valid() && State() == Apply(old(State()), Sub(t)) && previous == old(active)
      ensures Sum(ActiveBy, old(calls)) < U64 ==> previous >= old(calls)[t].count
    {
      assert Sum(ActiveBy, calls) < U64 ==> calls[t].count <= active by {
        if Sum(ActiveBy, calls) < U64 {
          DropNeverUnderflows(State(), t);
        }
      }
      StepKeepsInv(State(), Sub(t));
      previous := active;
      active := FetchSub(active, calls[t].count);
      SetPhase(t, Subtracted);
    }

    /** The `_inner` semaphore permit is dropped after `Drop::drop` returned. */
    method ReturnPermit(t: nat)
      requires Valid() && Enabled(State(), Release(t))
      modifies this
      ensures Valid() && State() == Apply(old(State()), Release(t))
    {
      StepKeepsInv(State(), Release(t));
      available := available + calls[t].Need();
      SetPhase(t, Gone(false));
    }

    /** The future of `acquire` is dropped at its await: nothing undoes the
        increment of `queued`. */
    method Cancel(t: nat)
      requires Valid() && (Enabled(State(), Quit(t)) || Enabled(State(), Forfeit(t)))
      modifies this
      ensures Valid() && queued == old(queued)
      ensures State() == Apply(old(State()), if old(State()).In(t, Waiting) then Quit(t) else Forfeit(t))
    {
      if calls[t].phase.Waiting? {
        StepKeepsInv(State(), Quit(t));
        line := Without(line, {t});
      } else {
        StepKeepsInv(State(), Forfeit(t));
        available := available + calls[t].Need();
      }
      SetPhase(t, Gone(true));
    }

    method Enqueue(caller: nat, n: nat) returns (t: nat)
      requires Valid() && line == []
      modifies this
      ensures Valid() && t == |old(calls)|
      ensures State() == old(State()).(
        queued := FetchAdd(old(queued), 1), line := [t], calls := old(calls) + [Call(caller, n, Waiting)])
    {
      JoinsAlone(State(), caller, n);
      t := BeginAcquire(caller, n);
      EnterLine(t);
    }

    /** A call entering an empty line: served or not, it is the only one there. */
    method Request(caller: nat, n: nat) returns (t: nat, served: bool)
      requires Valid() && line == []
      modifies this
      ensures Valid() && t == |old(calls)| && served == (AsU32(n) <= old(available))
      ensures State() == old(State()).(
        queued := FetchAdd(old(queued), 1), line := if served then [] else [t],
        available := if served then old(available) - AsU32(n) else old(available),
        calls := old(calls) + [Call(caller, n, if served then Granted else Waiting)])
    {
      ghost var before := calls;
      t := Enqueue(caller, n);
      GrantsAlone(State(), before, caller, n);
      served := TryServe();
    }

    /** The lone caller in line times out and returns its error. */
    method GiveUp(t: nat)
      requires Valid() && State().In(t, Waiting) && line == [t]
      modifies this
      ensures Valid()
      ensures State() == old(State()).(
        line := [], queued := FetchSub(old(queued), 1), calls := old(calls)[t := old(calls)[t].(phase := Gone(false))])
    {
      TimeOut(t);
      LineOfOne(t);
      assert calls == old(calls)[t := old(calls)[t].(phase := Expired)];
      var woke := Wake(t);
      assert calls == old(calls)[t := old(calls)[t].(phase := Gone(false))];
    }

    /** The caller that was served runs on and builds its permit object. */
    method Admit(t: nat)
      requires Valid() && State().In(t, Granted)
      modifies this
      ensures Valid()
      ensures State() == old(State()).(
        queued := FetchSub(old(queued), 1), active := FetchAdd(old(active), old(calls)[t].count),
        calls := old(calls)[t := old(calls)[t].(phase := Counted)])
    {
      var woke := Wake(t);
      assert calls == old(calls)[t := old(calls)[t].(phase := Admitted)];
      BuildPermit(t);
      assert calls == old(calls)[t := old(calls)[t].(phase := Counted)];
    }

    /** `acquire` or `acquire_bulk` on a half nobody else waits for: it succeeds
        exactly when the request fits what is available, and times out otherwise. */
    method AcquireAlone(caller: nat, n: nat) returns (t: nat, ok: bool)
      requires Valid() && line == []
      modifies this
      ensures Valid() && t == |old(calls)| && ok == (AsU32(n) <= old(available))
      ensures State() == old(State()).(
        available := if ok then old(available) - AsU32(n) else old(available),
        active := if ok then FetchAdd(old(active), n) else old(active),
        calls := old(calls) + [Call(caller, n, if ok then Counted else Gone(false))])
    {
      t, ok := Request(caller, n);
      if ok {
        Admit(t);
      } else {
        GiveUp(t);
      }
      FetchUndone(old(queued), 1);
      assert calls == old(calls) + [Call(caller, n, if ok then Counted else Gone(false))];
    }

    /** The whole drop of a permit object: `Drop::drop`, then its field. */
    method Discard(t: nat)
      requires Valid() && State().In(t, Counted)
      modifies this
      ensures Valid()
      ensures State() == old(State()).(
        active := FetchSub(old(active), old(calls)[t].count), available := old(available) + old(calls)[t].Need(),
        calls := old(calls)[t := old(calls)[t].(phase := Gone(false))])
    {
      var previous := DropPermit(t);
      assert calls == old(calls)[t := old(calls)[t].(phase := Subtracted)];
      ReturnPermit(t);
      assert calls == old(calls)[t := old(calls)[t].(phase := Gone(false))];
    }

    /** The same followed by the drop of what it returned: permits, both counters
        and the line are as they were, whether it succeeded or not. */
    method AcquireAndDrop(caller: nat, n: nat) returns (ok: bool)
      requires Valid() && line == []
      modifies this
      ensures Valid() && ok == (AsU32(n) <= old(available))
      ensures State() == old(State()).(calls := old(calls) + [Call(caller, n, Gone(false))])
    {
      var t;
      t, ok := AcquireAlone(caller, n);
      if ok {
        Discard(t);
        FetchUndone(old(active), n);
        assert calls == old(calls) + [Call(caller, n, Gone(false))];
      }
    }
  }

  lemma LineOfOne(t: nat)
    ensures Without([t], {t}) == []
  {
    WithoutAppend([], t, {t});
    assert [] + [t] == [t];
  }

  /** A counter that is added to and then subtracted from is back where it was. */
  lemma FetchUndone(counter: nat, n: nat)
    requires counter < U64
    ensures FetchSub(FetchAdd(counter, n), n) == counter
  {
    FetchTracks(counter, n);
    FetchTracks(counter + n, n);
  }
}
