/** Why a bulk reservation is all-or-nothing (interview/solution.rs:207-222):
    the variant in which each caller collects its permits one at a time. */
module Piecewise {
  import opened Sequences
  import opened Wrappers
  import PoolRuns

  /** `got[i]` permits are in the hands of caller `i`, which wants `want`. */
  datatype Pieces = Pieces(want: nat, free: nat, got: seq<int>, done: seq<bool>)

  datatype Event = Take(i: nat) | Finish(i: nat)

  function Init(capacity: nat, callers: nat, want: nat): Pieces {
    Pieces(want, capacity, seq(callers, _ => 0), seq(callers, _ => false))
  }

  predicate Shaped(s: Pieces) {
    |s.done| == |s.got| && forall i :: 0 <= i < |s.got| ==> 0 <= s.got[i] <= s.want && (s.done[i] ==> s.got[i] == 0)
  }

  predicate Enabled(s: Pieces, e: Event)
    requires Shaped(s)
  {
    e.i < |s.got| && !s.done[e.i] && if e.Take? then s.got[e.i] < s.want && s.free > 0 else s.got[e.i] == s.want
  }

  function Apply(s: Pieces, e: Event): (r: Pieces)
    requires Shaped(s) && Enabled(s, e)
    ensures Shaped(r) && |r.got| == |s.got| && r.want == s.want
  {
    match e
    case Take(i) => s.(free := s.free - 1, got := s.got[i := s.got[i] + 1])
    case Finish(i) => s.(free := s.free + s.want, got := s.got[i := 0], done := s.done[i := true])
  }

  function Exec(s: Pieces, es: seq<Event>): (r: Option<Pieces>)
    requires Shaped(s)
    ensures r.Some? ==> Shaped(r.value) && |r.value.got| == |s.got| && r.value.want == s.want
  {
    if es == [] then Some(s)
    else
      var before := Exec(s, es[..|es| - 1]);
      var e := es[|es| - 1];
      if before.Some? && Enabled(before.value, e) then Some(Apply(before.value, e)) else None
  }

  ghost predicate Stuck(s: Pieces)
    requires Shaped(s)
  {
    && (exists i :: 0 <= i < |s.done| && !s.done[i])
    && forall e :: !Enabled(s, e)
  }

  function Id(x: int): int { x }

  function Handed(s: Pieces): int { s.free + Sum(Id, s.got) }

  lemma StepConserves(s: Pieces, e: Event)
    requires Shaped(s) && Enabled(s, e)
    ensures Handed(Apply(s, e)) == Handed(s)
  {
    match e
    case Take(i) => SumUpdate(Id, s.got, i, s.got[i] + 1);
    case Finish(i) => SumUpdate(Id, s.got, i, 0);
  }

  lemma {:induction false} PermitsConserved(s: Pieces, es: seq<Event>)
    requires Shaped(s) && Exec(s, es).Some?
    ensures Handed(Exec(s, es).value) == Handed(s)
  {
    if es != [] {
      PermitsConserved(s, es[..|es| - 1]);
      StepConserves(Exec(s, es[..|es| - 1]).value, es[|es| - 1]);
    }
  }

  lemma {:induction false} SumBounded(xs: seq<int>, bound: nat)
    requires forall i :: 0 <= i < |xs| ==> xs[i] <= bound
    ensures Sum(Id, xs) <= |xs| * bound
    ensures (forall i :: 0 <= i < |xs| ==> xs[i] == bound) ==> Sum(Id, xs) == |xs| * bound
  {
    if xs != [] {
      SumBounded(xs[..|xs| - 1], bound);
      assert |xs| * bound == (|xs| - 1) * bound + bound;
    }
  }

  ghost predicate CanGetStuck(capacity: nat, callers: nat, want: nat) {
    exists es {:trigger Exec(Init(capacity, callers, want), es)} ::
      Exec(Init(capacity, callers, want), es).Some? && Stuck(Exec(Init(capacity, callers, want), es).value)
  }

  /** While fewer than `callers * (want - 1)` permits are handed out, the next
      can go to a caller that still lacks at least two. */
  lemma {:induction false} HandOut(capacity: nat, callers: nat, want: nat, m: nat) returns (es: seq<Event>)
    requires 1 <= want && m <= capacity && m <= callers * (want - 1)
    ensures Exec(Init(capacity, callers, want), es).Some?
    ensures var s := Exec(Init(capacity, callers, want), es).value;
      && s.free == capacity - m && Sum(Id, s.got) == m
      && s.done == seq(callers, _ => false) && |s.got| == callers
      && forall i :: 0 <= i < callers ==> s.got[i] <= want - 1
  {
    var s0 := Init(capacity, callers, want);
    if m == 0 {
      es := [];
      SumZero(Id, s0.got);
    } else {
      es := HandOut(capacity, callers, want, m - 1);
      var s := Exec(s0, es).value;
      var i := Roomy(s.got, want - 1);
      TakeOne(s, i);
      ExecAppend(s0, es, Take(i));
      es := es + [Take(i)];
    }
  }

  lemma TakeOne(s: Pieces, i: nat)
    requires Shaped(s) && i < |s.got| && s.got[i] < s.want && s.free > 0 && !s.done[i]
    ensures Enabled(s, Take(i)) && Sum(Id, Apply(s, Take(i)).got) == Sum(Id, s.got) + 1
  {
    SumUpdate(Id, s.got, i, s.got[i] + 1);
  }

  lemma ExecAppend(s: Pieces, es: seq<Event>, e: Event)
    requires Shaped(s) && Exec(s, es).Some? && Enabled(Exec(s, es).value, e)
    ensures Exec(s, es + [e]) == Some(Apply(Exec(s, es).value, e))
  {
    assert (es + [e])[..|es|] == es;
  }

  lemma Roomy(xs: seq<int>, bound: nat) returns (i: nat)
    requires Sum(Id, xs) < |xs| * bound && forall k :: 0 <= k < |xs| ==> xs[k] <= bound
    ensures i < |xs| && xs[i] < bound
  {
    SumBounded(xs, bound);
    i :| 0 <= i < |xs| && xs[i] < bound;
  }

  lemma SpreadIsStuck(capacity: nat, callers: nat, want: nat)
    requires 1 <= capacity <= callers * (want - 1) && 1 <= callers && 1 <= want
    ensures CanGetStuck(capacity, callers, want)
  {
    var es := HandOut(capacity, callers, want, capacity);
    var s := Exec(Init(capacity, callers, want), es).value;
    assert !s.done[0];
    assert Stuck(s);
  }

  lemma StuckIsSpread(capacity: nat, callers: nat, want: nat, es: seq<Event>)
    requires 1 <= want && Exec(Init(capacity, callers, want), es).Some?
    requires Stuck(Exec(Init(capacity, callers, want), es).value)
    ensures capacity <= callers * (want - 1)
  {
    var s0 := Init(capacity, callers, want);
    var s := Exec(s0, es).value;
    PermitsConserved(s0, es);
    SumZero(Id, s0.got);
    var u :| 0 <= u < |s.done| && !s.done[u];
    assert !Enabled(s, Take(u)) && !Enabled(s, Finish(u));
    forall i | 0 <= i < callers ensures s.got[i] <= want - 1 {
      assert !Enabled(s, Finish(i));
    }
    SumBounded(s.got, want - 1);
  }

  /** One permit at a time, `callers` callers that each want `want` permits can
      block each other for ever exactly when the capacity can be spread so that
      each is one short. */
  lemma StuckIff(capacity: nat, callers: nat, want: nat)
    requires 1 <= capacity && 1 <= callers && 1 <= want
    ensures CanGetStuck(capacity, callers, want) <==> capacity <= callers * (want - 1)
  {
    if capacity <= callers * (want - 1) {
      SpreadIsStuck(capacity, callers, want);
    } else if CanGetStuck(capacity, callers, want) {
      var es :| Exec(Init(capacity, callers, want), es).Some? && Stuck(Exec(Init(capacity, callers, want), es).value);
      StuckIsSpread(capacity, callers, want, es);
    }
  }

  /** The same demand that can deadlock callers collecting permits one by one
      never deadlocks the atomic reservation. */
  lemma AllOrNothingMatters(capacity: nat, callers: nat, want: nat)
    requires 1 <= want <= capacity <= callers * (want - 1)
    ensures CanGetStuck(capacity, callers, want) && !PoolRuns.CanGetStuck(capacity, want)
  {
    StuckIff(capacity, callers, want);
    PoolRuns.StuckIffOversized(capacity, want);
  }
}
