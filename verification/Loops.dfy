/** The result-collecting loops of `multipart_put` and `range_get`
    (src/client.rs:339-379 and 432-442). */
module Loops {
  import opened Wrappers
  import opened Config
  import opened Split
  import opened Server
  import opened Program
  import opened Sorting

  /** One pass over the results: completed parts in completion order, and the
      first error; later errors are dropped. */
  method CollectParts(results: seq<(nat, Reply)>) returns (parts: seq<(int, nat)>, firstErr: Option<Fault>)
    ensures firstErr == FirstFault(results)
    ensures parts == Completed(results)
  {
    parts, firstErr := [], None;
    for i := 0 to |results|
      invariant firstErr == FirstFault(results[..i])
      invariant parts == Completed(results[..i])
    {
      assert results[..i + 1][..i] == results[..i];
      var (j, r) := results[i];
      match FaultOf(r)
      case None =>
        if r.Stored? {
          parts := parts + [(PartNumber(j), r.etag.value)];
        }
      case Some(f) =>
        if firstErr.None? {
          firstErr := Some(f);
        }
    }
    assert results[..|results|] == results;
  }

  /** Complete or abort: the request the settled upload leads to, and the error
      that is returned whatever the abort does. */
  method SettleUpload(c: S3Config, kind: Kind, uid: nat, results: seq<(nat, Reply)>)
    returns (req: Request, failure: Option<Fault>)
    requires Sound(c) && kind.Put?
    ensures req == RequestOf(c, kind, RFinish(uid, results), 0)
    ensures failure == FirstFault(results)
  {
    var parts;
    parts, failure := CollectParts(results);
    if failure.Some? {
      return AbortUpload(kind.key, uid), failure;
    }
    parts := SortByKey(parts);
    req := CompleteUpload(kind.key, uid, parts);
  }

  /** `parts.push(r?)`, `sort_by_key`, `extend_from_slice`. */
  method Reassemble(total: nat, results: seq<(nat, Reply)>) returns (out: Outcome)
    requires results != []
    ensures After(RRanges(total), results) == Return(out)
  {
    var parts: seq<(int, Bytes)> := [];
    for i := 0 to |results|
      invariant FirstFault(results[..i]).None?
      invariant parts == Received(results[..i])
    {
      assert results[..i + 1][..i] == results[..i];
      var (j, r) := results[i];
      if FaultOf(r).Some? {
        FaultStays(results, i + 1);
        return Err(FaultOf(r).value);
      }
      if r.Body? {
        parts := parts + [(j, r.bytes)];
      }
    }
    assert results[..|results|] == results;
    parts := SortByKey(parts);
    var buf: Bytes := [];
    for i := 0 to |parts|
      invariant buf == Concat(Chunks(parts)[..i])
    {
      assert Chunks(parts)[..i + 1][..i] == Chunks(parts)[..i];
      buf := buf + parts[i].1;
    }
    assert Chunks(parts)[..|parts|] == Chunks(parts);
    out := Ok(Data(buf));
  }

  /** The first fault of a prefix is the first fault of the whole. */
  lemma {:induction false} FaultStays(results: seq<(nat, Reply)>, k: nat)
    requires k <= |results| && FirstFault(results[..k]).Some?
    ensures FirstFault(results) == FirstFault(results[..k])
    decreases |results|
  {
    if k == |results| {
      assert results[..k] == results;
    } else {
      var init := results[..|results| - 1];
      assert init[..k] == results[..k];
      FaultStays(init, k);
    }
  }
}
