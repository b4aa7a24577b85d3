/** `buffer_unordered(cap)` over `n` futures followed by `collect`
    (src/client.rs:305-338 and 396-431), as a scheduler with a free choice of
    which future in flight finishes next. */
module Window {
  import opened Sequences
  import opened Wrappers

  /** `next` jobs were started, `flying` are unfinished, `done` lists the results
      in completion order. */
  datatype Window<R> = Window(n: nat, cap: nat, next: nat, flying: set<nat>, done: seq<(nat, R)>)
  {
    predicate CanLaunch() { next < n && |flying| < cap }

    function Launch(): Window<R> { this.(next := next + 1, flying := flying + {next}) }

    function Finish(job: nat, r: R): Window<R> { this.(flying := flying - {job}, done := done + [(job, r)]) }

    predicate Complete() { next == n && flying == {} }
  }

  function Open<R>(n: nat, cap: nat): Window<R> { Window(n, cap, 0, {}, []) }

  function Jobs<R>(done: seq<(nat, R)>): seq<nat> { seq(|done|, i requires 0 <= i < |done| => done[i].0) }

  /** At most `cap` in flight; in flight and done split the started prefix. */
  ghost predicate Inv<R>(w: Window<R>) {
    && w.next <= w.n && |w.flying| <= w.cap
    && |w.done| + |w.flying| == w.next
    && NoDuplicates(Jobs(w.done))
    && (forall j :: 0 <= j < w.next <==> j in w.flying || j in Jobs(w.done))
    && (forall j :: j in w.flying ==> j !in Jobs(w.done))
  }

  lemma JobsAppend<R>(done: seq<(nat, R)>, job: nat, r: R)
    ensures Jobs(done + [(job, r)]) == Jobs(done) + [job]
  {
  }

  lemma LaunchKeepsInv<R>(w: Window<R>)
    requires Inv(w) && w.CanLaunch()
    ensures Inv(w.Launch())
  {
    assert w.next !in w.flying;
  }

  lemma FinishKeepsInv<R>(w: Window<R>, job: nat, r: R)
    requires Inv(w) && job in w.flying
    ensures Inv(w.Finish(job, r))
  {
    JobsAppend(w.done, job, r);
    assert forall j :: j in Jobs(w.done) + [job] <==> j in Jobs(w.done) || j == job;
  }

  datatype Turn<R> = Started | Finished(job: nat, r: R)

  function Schedule<R>(w: Window<R>, es: seq<Turn<R>>): Option<Window<R>> {
    if es == [] then Some(w)
    else
      var before, e := Schedule(w, es[..|es| - 1]), es[|es| - 1];
      if before.None? then None
      else if e.Started? then (if before.value.CanLaunch() then Some(before.value.Launch()) else None)
      else if e.job in before.value.flying then Some(before.value.Finish(e.job, e.r))
      else None
  }

  /** Every run keeps the window's shape and takes one step per start and one
      per result, so no run is longer than `2 * n`. */
  lemma {:induction false} RunKeepsInv<R>(n: nat, cap: nat, es: seq<Turn<R>>)
    requires Schedule(Open<R>(n, cap), es).Some?
    ensures var w := Schedule(Open<R>(n, cap), es).value;
      Inv(w) && w.n == n && w.cap == cap && |es| == w.next + |w.done| <= 2 * n
  {
    var w0 := Open<R>(n, cap);
    if es != [] {
      var m, e := Schedule(w0, es[..|es| - 1]).value, es[|es| - 1];
      RunKeepsInv(n, cap, es[..|es| - 1]);
      if e.Started? {
        LaunchKeepsInv(m);
      } else {
        FinishKeepsInv(m, e.job, e.r);
        SizeWithout(m.flying, e.job);
      }
    }
  }

  lemma SizeWithout(s: set<nat>, x: nat)
    requires x in s
    ensures |s - {x}| == |s| - 1
  {
  }

  /** A run that cannot be continued has finished every job. */
  lemma NeverBlocks<R>(w: Window<R>)
    requires Inv(w) && w.cap > 0
    ensures w.Complete() || w.CanLaunch() || exists j :: j in w.flying
  {
    if w.flying != {} {
      var j :| j in w.flying;
    }
  }

  /** When the stream ends each of the `n` jobs has exactly one result. */
  lemma CompleteIsPermutation<R>(w: Window<R>)
    requires Inv(w) && w.Complete()
    ensures |w.done| == w.n && NoDuplicates(Jobs(w.done))
    ensures forall j :: 0 <= j < w.n <==> j in Jobs(w.done)
  {
  }
}
