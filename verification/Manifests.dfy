/** The list of parts given to CompleteMultipartUpload. */
module Manifests {
  import opened Wrappers
  import opened Sequences
  import opened Split
  import opened Server
  import opened Program
  import opened Sorting
  import Window

  /** Every result is a stored part with an etag. */
  predicate AllStored(results: seq<(nat, Reply)>) {
    forall i :: 0 <= i < |results| ==> results[i].1.Stored? && results[i].1.etag.Some?
  }

  predicate AllParts(results: seq<(nat, Reply)>) {
    forall i :: 0 <= i < |results| ==> results[i].1.Stored? || results[i].1.Failed?
  }

  /** The first fault in completion order: the one at `i`, none before it. */
  ghost predicate FirstAt(results: seq<(nat, Reply)>, f: Fault, i: nat) {
    && i < |results| && FaultOf(results[i].1) == Some(f)
    && forall k :: 0 <= k < i ==> FaultOf(results[k].1).None?
  }

  lemma {:induction false} FirstFaultIs(results: seq<(nat, Reply)>)
    ensures FirstFault(results).None? <==> forall i :: 0 <= i < |results| ==> FaultOf(results[i].1).None?
    ensures FirstFault(results).Some? ==> exists i :: FirstAt(results, FirstFault(results).value, i)
  {
    if results != [] {
      var last := |results| - 1;
      var init := results[..last];
      FirstFaultIs(init);
      if FirstFault(init).Some? {
        var i :| FirstAt(init, FirstFault(init).value, i);
        assert FirstAt(results, FirstFault(init).value, i);
      } else {
        assert forall k :: 0 <= k < last ==> init[k] == results[k];
        if FaultOf(results[last].1).Some? {
          assert FirstAt(results, FaultOf(results[last].1).value, last);
        }
      }
    }
  }

  lemma {:induction false} CompletedAll(results: seq<(nat, Reply)>)
    requires AllStored(results)
    ensures |Completed(results)| == |results|
    ensures forall i :: 0 <= i < |results| ==>
      Completed(results)[i] == (PartNumber(results[i].0), results[i].1.etag.value)
  {
    if results != [] {
      CompletedAll(results[..|results| - 1]);
    }
  }

  /** Part numbers 1 to `n`, in order. */
  ghost predicate Numbered(manifest: seq<(int, nat)>, n: nat) {
    && |manifest| == n && 1 <= n <= MAX_PART_NUMBER
    && forall k :: 0 <= k < n ==> manifest[k].0 == k + 1
  }

  /** One stored result per job, in any completion order. */
  ghost predicate StoredJobs(results: seq<(nat, Reply)>) {
    && AllStored(results) && NoDuplicates(Window.Jobs(results))
    && (forall j :: 0 <= j < |results| <==> j in Window.Jobs(results))
    && (forall i :: 0 <= i < |results| ==> 1 <= PartNumber(results[i].0) <= MAX_PART_NUMBER)
  }

  /** The store takes no part number above 10,000, so as many jobs cannot all succeed. */
  lemma FewEnough(results: seq<(nat, Reply)>)
    requires StoredJobs(results)
    ensures |results| <= MAX_PART_NUMBER
  {
    assert PartNumber(MAX_PART_NUMBER) == MAX_PART_NUMBER + 1;
    if |results| > MAX_PART_NUMBER {
      assert MAX_PART_NUMBER in Window.Jobs(results);
      var i := Find(Window.Jobs(results), MAX_PART_NUMBER);
    }
  }

  /** One result per job: the job numbers are distinct and in range. */
  lemma DistinctJobs(done: seq<(nat, Reply)>)
    requires NoDuplicates(Window.Jobs(done)) && forall j :: 0 <= j < |done| <==> j in Window.Jobs(done)
    ensures forall i :: 0 <= i < |done| ==> done[i].0 < |done|
    ensures forall i, j :: 0 <= i < j < |done| ==> done[i].0 != done[j].0
  {
    forall i | 0 <= i < |done| ensures done[i].0 < |done| {
      assert Window.Jobs(done)[i] == done[i].0;
      assert done[i].0 in Window.Jobs(done);
    }
    forall i, j | 0 <= i < j < |done| ensures done[i].0 != done[j].0 {
      assert Window.Jobs(done)[i] != Window.Jobs(done)[j];
    }
  }

  lemma JobsInRange(results: seq<(nat, Reply)>)
    requires StoredJobs(results)
    ensures forall i :: 0 <= i < |results| ==> results[i].0 < |results| && PartNumber(results[i].0) == results[i].0 + 1
    ensures forall i, j :: 0 <= i < j < |results| ==> results[i].0 != results[j].0
  {
    FewEnough(results);
    DistinctJobs(results);
  }

  lemma CompletedKeys(results: seq<(nat, Reply)>)
    requires StoredJobs(results)
    ensures |Completed(results)| == |results| && KeysAre(Completed(results), 1)
    ensures forall i :: 0 <= i < |results| ==> Completed(results)[i] == (results[i].0 + 1, results[i].1.etag.value)
  {
    JobsInRange(results);
    CompletedAll(results);
  }

  /** Whatever the completion order, the manifest lists parts 1 to `n`, in order. */
  lemma ManifestExact(results: seq<(nat, Reply)>)
    requires StoredJobs(results) && results != []
    ensures Numbered(Manifest(results), |results|)
  {
    FewEnough(results);
    CompletedKeys(results);
    SortRestoresOrder(Completed(results), 1);
  }

  /** Each part is listed with the etag its own upload was given. */
  lemma ManifestEntry(results: seq<(nat, Reply)>, i: nat)
    requires StoredJobs(results) && i < |results|
    ensures results[i].0 < |results| == |Manifest(results)|
    ensures Manifest(results)[results[i].0].1 == results[i].1.etag.value
  {
    CompletedKeys(results);
    SortPlaces(Completed(results), 1, i, results[i].0);
  }
}
