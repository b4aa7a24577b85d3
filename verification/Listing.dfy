/** `paginated_list` (src/client.rs:225-271) against an unchanging bucket served
    in pages linked by tokens (Amazon S3 API Reference, ListObjectsV2). */
module Listing {
  import opened Wrappers
  import opened Sequences

  datatype ObjectEntry = ObjectEntry(key: string, size: nat)

  /** What the store lists: an object, or all keys sharing a prefix up to the delimiter. */
  datatype Row = Object(entry: ObjectEntry) | Common(prefix: string)

  datatype Response = Response(contents: Option<seq<ObjectEntry>>, commonPrefixes: Option<seq<string>>,
                               isTruncated: Option<bool>, nextToken: Option<nat>)

  /** The first '/' of `s` at or after `from`, or the end. */
  function Slash(s: string, from: nat): (i: nat)
    requires from <= |s|
    ensures from <= i <= |s| && (i < |s| ==> s[i] == '/')
    ensures forall k :: from <= k < i ==> s[k] != '/'
    decreases |s| - from
  {
    if from == |s| || s[from] == '/' then from else Slash(s, from + 1)
  }

  /** The row that stands for a matching object. */
  function RowOf(prefix: string, recursive: bool, o: ObjectEntry): Row
    requires prefix <= o.key
  {
    var i := Slash(o.key, |prefix|);
    if recursive || i == |o.key| then Object(o) else Common(o.key[..i + 1])
  }

  /** All rows of a listing; a common prefix is listed once. */
  function Rows(bucket: seq<ObjectEntry>, prefix: string, recursive: bool): seq<Row> {
    if bucket == [] then []
    else
      var before, o := Rows(bucket[..|bucket| - 1], prefix, recursive), bucket[|bucket| - 1];
      if !(prefix <= o.key) || RowOf(prefix, recursive, o) in before then before
      else before + [RowOf(prefix, recursive, o)]
  }

  function Objects(rows: seq<Row>): seq<ObjectEntry> {
    if rows == [] then []
    else Objects(rows[..|rows| - 1]) + if rows[|rows| - 1].Object? then [rows[|rows| - 1].entry] else []
  }

  function Prefixes(rows: seq<Row>): seq<string> {
    if rows == [] then []
    else Prefixes(rows[..|rows| - 1]) + if rows[|rows| - 1].Common? then [rows[|rows| - 1].prefix] else []
  }

  function PositionOf(token: Option<nat>): nat { if token.Some? then token.value else 0 }

  function PageEnd(rows: seq<Row>, pos: nat, size: nat): (to: nat)
    ensures pos <= |rows| ==> pos <= to <= |rows|
  {
    if pos + size < |rows| then pos + size else |rows|
  }

  /** One page: at most `size` rows from position `token`. */
  function Serve(rows: seq<Row>, token: Option<nat>, size: nat): Response {
    var from := if PositionOf(token) <= |rows| then PositionOf(token) else 0;
    var to := PageEnd(rows, from, size);
    var page := rows[from..to];
    Response(if Objects(page) == [] then None else Some(Objects(page)),
             if Prefixes(page) == [] then None else Some(Prefixes(page)),
             Some(to < |rows|), if to < |rows| then Some(to) else None)
  }

  /** How the client presents a row: a common prefix becomes an entry of size 0. */
  function EntryOf(r: Row): ObjectEntry {
    match r
    case Object(e) => e
    case Common(p) => ObjectEntry(p, 0)
  }

  function EntriesOf(rows: seq<Row>): seq<ObjectEntry> { seq(|rows|, i requires 0 <= i < |rows| => EntryOf(rows[i])) }

  function Folders(ps: seq<string>): seq<ObjectEntry> { seq(|ps|, i requires 0 <= i < |ps| => ObjectEntry(ps[i], 0)) }

  /** What the client takes from a response: contents first, then prefixes. */
  function Taken(resp: Response): seq<ObjectEntry> {
    (if resp.contents.Some? then resp.contents.value else [])
    + Folders(if resp.commonPrefixes.Some? then resp.commonPrefixes.value else [])
  }

  lemma SameTogether(a: seq<ObjectEntry>, b: seq<ObjectEntry>, a': seq<ObjectEntry>, b': seq<ObjectEntry>)
    requires multiset(a) == multiset(a') && multiset(b) == multiset(b')
    ensures multiset(a + b) == multiset(a' + b')
  {
  }

  lemma PageStep(os: seq<ObjectEntry>, fs: seq<ObjectEntry>, es: seq<ObjectEntry>, x: ObjectEntry,
                 os': seq<ObjectEntry>, fs': seq<ObjectEntry>)
    requires multiset(os + fs) == multiset(es)
    requires (os' == os + [x] && fs' == fs) || (os' == os && fs' == fs + [x])
    ensures multiset(os' + fs') == multiset(es + [x])
  {
    assert multiset(os + fs) == multiset(os) + multiset(fs);
  }

  /** A page's objects and prefixes are its rows. */
  lemma {:induction false} PageContents(rows: seq<Row>)
    ensures multiset(Objects(rows) + Folders(Prefixes(rows))) == multiset(EntriesOf(rows))
  {
    if rows != [] {
      var init, r := rows[..|rows| - 1], rows[|rows| - 1];
      PageContents(init);
      LastRow(rows);
      PageStep(Objects(init), Folders(Prefixes(init)), EntriesOf(init), EntryOf(r), Objects(rows),
          Folders(Prefixes(rows)));
    }
  }

  lemma LastRow(rows: seq<Row>)
    requires rows != []
    ensures var init, x := rows[..|rows| - 1], EntryOf(rows[|rows| - 1]);
      var os, fs := Objects(init), Folders(Prefixes(init));
      && EntriesOf(rows) == EntriesOf(init) + [x]
      && ((Objects(rows) == os + [x] && Folders(Prefixes(rows)) == fs)
          || (Objects(rows) == os && Folders(Prefixes(rows)) == fs + [x]))
  {
    var init := rows[..|rows| - 1];
    if rows[|rows| - 1].Common? {
      assert Objects(rows) == Objects(init);
    } else {
      assert Prefixes(rows) == Prefixes(init);
    }
  }

  lemma PageTaken(rows: seq<Row>, token: Option<nat>, size: nat)
    requires PositionOf(token) <= |rows|
    ensures var page := rows[PositionOf(token)..PageEnd(rows, PositionOf(token), size)];
      Taken(Serve(rows, token, size)) == Objects(page) + Folders(Prefixes(page))
  {
  }

  lemma EntriesOfPage(rows: seq<Row>, pos: nat, to: nat)
    requires pos <= to <= |rows|
    ensures EntriesOf(rows[..to]) == EntriesOf(rows[..pos]) + EntriesOf(rows[pos..to])
  {
    assert rows[..to] == rows[..pos] + rows[pos..to];
  }

  /** One more page extends the rows collected so far. */
  lemma PageExtends(rows: seq<Row>, pos: nat, to: nat, entries: seq<ObjectEntry>, taken: seq<ObjectEntry>)
    requires pos <= to <= |rows|
    requires multiset(entries) == multiset(EntriesOf(rows[..pos]))
    requires taken == Objects(rows[pos..to]) + Folders(Prefixes(rows[pos..to]))
    ensures multiset(entries + taken) == multiset(EntriesOf(rows[..to]))
  {
    PageContents(rows[pos..to]);
    EntriesOfPage(rows, pos, to);
    SameTogether(entries, taken, EntriesOf(rows[..pos]), EntriesOf(rows[pos..to]));
  }

  /** The loop of the source: it ends for every page size the store chooses, and
      collects every row of the listing exactly once. */
  method PaginatedList(bucket: seq<ObjectEntry>, prefix: string, recursive: bool, size: nat -> nat)
    returns (entries: seq<ObjectEntry>)
    requires forall t: nat :: size(t) >= 1
    ensures multiset(entries) == multiset(EntriesOf(Rows(bucket, prefix, recursive)))
    ensures recursive && DistinctKeys(bucket) ==> multiset(entries) == multiset(Matching(bucket, prefix))
    ensures !recursive ==>
      && NoDuplicates(entries)
      && forall i :: 0 <= i < |bucket| && prefix <= bucket[i].key ==> DisplayedOnce(prefix, entries, bucket[i])
  {
    var rows := Rows(bucket, prefix, recursive);
    entries := [];
    var token: Option<nat> := None;
    ghost var pos := 0;
    while true
      invariant pos == PositionOf(token) <= |rows|
      invariant multiset(entries) == multiset(EntriesOf(rows[..pos]))
      decreases |rows| - pos
    {
      var n := size(PositionOf(token));
      var resp := Serve(rows, token, n);
      PageTaken(rows, token, n);
      PageExtends(rows, pos, PageEnd(rows, pos, n), entries, Taken(resp));
      entries := AddPage(entries, resp);
      pos := PageEnd(rows, pos, n);
      if resp.isTruncated == Some(true) && resp.nextToken.Some? {
        token := resp.nextToken;
      } else {
        assert rows[..pos] == rows;
        break;
      }
    }
    if recursive && DistinctKeys(bucket) {
      RecursiveIsMatching(bucket, prefix);
    }
    if !recursive {
      EntriesShowOnce(bucket, prefix, entries);
    }
  }

  method AddPage(entries: seq<ObjectEntry>, resp: Response) returns (r: seq<ObjectEntry>)
    ensures r == entries + Taken(resp)
  {
    r := entries;
    if resp.contents.Some? {
      r := r + resp.contents.value;
    }
    if resp.commonPrefixes.Some? {
      r := r + Folders(resp.commonPrefixes.value);
    }
  }

  // ---------- what the rows are ----------

  ghost predicate DistinctKeys(bucket: seq<ObjectEntry>) {
    forall i, j :: 0 <= i < j < |bucket| ==> bucket[i].key != bucket[j].key
  }

  function Matching(bucket: seq<ObjectEntry>, prefix: string): seq<ObjectEntry> {
    if bucket == [] then []
    else Matching(bucket[..|bucket| - 1], prefix)
         + if prefix <= bucket[|bucket| - 1].key then [bucket[|bucket| - 1]] else []
  }

  /** Rows come from matching objects, and every matching object has its row, once. */
  lemma {:induction false} RowsExact(bucket: seq<ObjectEntry>, prefix: string, recursive: bool)
    ensures NoDuplicates(Rows(bucket, prefix, recursive))
    ensures forall r :: r in Rows(bucket, prefix, recursive) ==>
      exists i :: 0 <= i < |bucket| && prefix <= bucket[i].key && r == RowOf(prefix, recursive, bucket[i])
    ensures forall i :: 0 <= i < |bucket| && prefix <= bucket[i].key ==>
      RowOf(prefix, recursive, bucket[i]) in Rows(bucket, prefix, recursive)
  {
    if bucket != [] {
      var init, o := bucket[..|bucket| - 1], bucket[|bucket| - 1];
      RowsExact(init, prefix, recursive);
      var before := Rows(init, prefix, recursive);
      forall r | r in Rows(bucket, prefix, recursive)
        ensures exists i :: 0 <= i < |bucket| && prefix <= bucket[i].key && r == RowOf(prefix, recursive, bucket[i])
      {
        if r in before {
          var i :| 0 <= i < |init| && prefix <= init[i].key && r == RowOf(prefix, recursive, init[i]);
          assert bucket[i] == init[i];
        } else {
          assert bucket[|bucket| - 1] == o;
        }
      }
      forall i | 0 <= i < |bucket| && prefix <= bucket[i].key
        ensures RowOf(prefix, recursive, bucket[i]) in Rows(bucket, prefix, recursive)
      {
        if i < |init| {
          assert bucket[i] == init[i];
        }
      }
    }
  }

  /** A recursive listing is exactly the matching objects, in any page split. */
  lemma {:induction false} RecursiveIsMatching(bucket: seq<ObjectEntry>, prefix: string)
    requires DistinctKeys(bucket)
    ensures EntriesOf(Rows(bucket, prefix, true)) == Matching(bucket, prefix)
  {
    if bucket != [] {
      var init, o := bucket[..|bucket| - 1], bucket[|bucket| - 1];
      assert forall i :: 0 <= i < |init| ==> init[i] == bucket[i];
      RecursiveIsMatching(init, prefix);
      RowsExact(init, prefix, true);
      var before := Rows(init, prefix, true);
      if prefix <= o.key {
        assert Object(o) !in before;
        assert EntriesOf(before + [Object(o)]) == EntriesOf(before) + [o];
      }
    }
  }

  /** `r` shows object `o`: itself, or through a prefix of its key. */
  predicate Shows(r: Row, o: ObjectEntry) {
    match r
    case Object(e) => e == o
    case Common(p) => p <= o.key
  }

  /** A delimited prefix of a key is the one the key is rolled up into. */
  lemma CommonIsOwn(prefix: string, o: ObjectEntry, o': ObjectEntry)
    requires prefix <= o.key && prefix <= o'.key
    requires RowOf(prefix, false, o').Common? && RowOf(prefix, false, o').prefix <= o.key
    ensures RowOf(prefix, false, o) == RowOf(prefix, false, o')
  {
    var i, p := Slash(o'.key, |prefix|), RowOf(prefix, false, o').prefix;
    var j := Slash(o.key, |prefix|);
    assert o.key[..i + 1] == p;
    assert p[i] == '/';
    assert forall k :: |prefix| <= k < i ==> o.key[k] == o'.key[k];
    if i < j {
      assert false;
    }
  }

  // ---------- what the caller gets ----------

  /** An entry made from a common prefix: a longer key that ends at a delimiter. */
  predicate Folder(prefix: string, e: ObjectEntry) {
    |prefix| < |e.key| && e.key[|e.key| - 1] == '/' && e.size == 0
  }

  /** Entry `e` of a non-recursive listing shows object `o`. */
  predicate Displays(prefix: string, e: ObjectEntry, o: ObjectEntry) {
    e == o || (Folder(prefix, e) && e.key <= o.key)
  }

  /** In a non-recursive listing a row's entry is a folder exactly when the row
      is a common prefix: an object's own key has no delimiter past the prefix. */
  lemma EntryKinds(prefix: string, o: ObjectEntry)
    requires prefix <= o.key
    ensures var r := RowOf(prefix, false, o);
      (Folder(prefix, EntryOf(r)) <==> r.Common?) && (r.Common? ==> r.prefix <= o.key)
  {
    var i := Slash(o.key, |prefix|);
    if RowOf(prefix, false, o).Object? && |prefix| < |o.key| {
      assert o.key[|o.key| - 1] != '/';
    }
  }

  /** Different rows make different entries. */
  lemma {:induction false} EntriesDistinct(bucket: seq<ObjectEntry>, prefix: string)
    ensures NoDuplicates(EntriesOf(Rows(bucket, prefix, false)))
  {
    var rows := Rows(bucket, prefix, false);
    RowsExact(bucket, prefix, false);
    forall a, b | 0 <= a < b < |rows| ensures EntryOf(rows[a]) != EntryOf(rows[b]) {
      assert rows[a] in rows && rows[b] in rows;
      var i :| 0 <= i < |bucket| && prefix <= bucket[i].key && rows[a] == RowOf(prefix, false, bucket[i]);
      var j :| 0 <= j < |bucket| && prefix <= bucket[j].key && rows[b] == RowOf(prefix, false, bucket[j]);
      EntryKinds(prefix, bucket[i]);
      EntryKinds(prefix, bucket[j]);
    }
  }

  lemma {:induction false} DistinctOnce(xs: seq<ObjectEntry>)
    requires NoDuplicates(xs)
    ensures forall x :: x in xs ==> multiset(xs)[x] == 1
  {
    if xs != [] {
      var init, last := xs[..|xs| - 1], xs[|xs| - 1];
      assert xs == init + [last];
      DistinctOnce(init);
      assert last !in init;
    }
  }

  lemma {:induction false} OnceDistinct(xs: seq<ObjectEntry>)
    requires forall x :: x in xs ==> multiset(xs)[x] == 1
    ensures NoDuplicates(xs)
  {
    forall i, j | 0 <= i < j < |xs| ensures xs[i] != xs[j] {
      var init := xs[..j];
      assert xs == init + [xs[j]] + xs[j + 1..];
      assert multiset(xs) == multiset(init) + multiset{xs[j]} + multiset(xs[j + 1..]);
      assert init[i] == xs[i] && xs[i] in multiset(init);
      assert xs[j] in xs && multiset(xs)[xs[j]] >= multiset(init)[xs[j]] + 1;
    }
  }

  predicate DisplayedAt(prefix: string, entries: seq<ObjectEntry>, k: nat, o: ObjectEntry) {
    k < |entries| && Displays(prefix, entries[k], o)
  }

  /** Exactly one entry of `entries` displays `o`. */
  ghost predicate DisplayedOnce(prefix: string, entries: seq<ObjectEntry>, o: ObjectEntry) {
    exists k :: DisplayedAt(prefix, entries, k, o) && forall m :: DisplayedAt(prefix, entries, m, o) ==> m == k
  }

  /** Whatever the page sizes, what a non-recursive listing returns shows every
      matching object by exactly one entry, itself or one folder, and no entry
      comes twice; an object is never mistaken for a folder. */
  lemma EntriesShowOnce(bucket: seq<ObjectEntry>, prefix: string, entries: seq<ObjectEntry>)
    requires multiset(entries) == multiset(EntriesOf(Rows(bucket, prefix, false)))
    ensures NoDuplicates(entries)
    ensures forall i :: 0 <= i < |bucket| && prefix <= bucket[i].key ==> DisplayedOnce(prefix, entries, bucket[i])
  {
    var rows, all := Rows(bucket, prefix, false), EntriesOf(Rows(bucket, prefix, false));
    EntriesDistinct(bucket, prefix);
    DistinctOnce(all);
    forall x | x in entries ensures multiset(entries)[x] == 1 {
      assert x in multiset(entries);
    }
    OnceDistinct(entries);
    forall i | 0 <= i < |bucket| && prefix <= bucket[i].key ensures DisplayedOnce(prefix, entries, bucket[i]) {
      var o := bucket[i];
      var own := EntryOf(RowOf(prefix, false, o));
      OwnEntry(bucket, prefix, i);
      assert own in multiset(entries);
      var k := Find(entries, own);
      assert DisplayedAt(prefix, entries, k, o);
      forall m: nat | DisplayedAt(prefix, entries, m, o) ensures m == k {
        assert entries[m] in multiset(all);
        OnlyOwnDisplays(bucket, prefix, i, entries[m]);
      }
    }
  }

  lemma OwnEntry(bucket: seq<ObjectEntry>, prefix: string, i: nat)
    requires i < |bucket| && prefix <= bucket[i].key
    ensures var own := EntryOf(RowOf(prefix, false, bucket[i]));
      own in EntriesOf(Rows(bucket, prefix, false)) && Displays(prefix, own, bucket[i])
  {
    RowsExact(bucket, prefix, false);
    EntryKinds(prefix, bucket[i]);
    var rows := Rows(bucket, prefix, false);
    var k := Find(rows, RowOf(prefix, false, bucket[i]));
    assert EntriesOf(rows)[k] == EntryOf(rows[k]);
  }

  lemma OnlyOwnDisplays(bucket: seq<ObjectEntry>, prefix: string, i: nat, e: ObjectEntry)
    requires i < |bucket| && prefix <= bucket[i].key
    requires e in EntriesOf(Rows(bucket, prefix, false)) && Displays(prefix, e, bucket[i])
    ensures e == EntryOf(RowOf(prefix, false, bucket[i]))
  {
    var rows := Rows(bucket, prefix, false);
    RowsExact(bucket, prefix, false);
    var k := Find(EntriesOf(rows), e);
    assert rows[k] in rows;
    var j :| 0 <= j < |bucket| && prefix <= bucket[j].key && rows[k] == RowOf(prefix, false, bucket[j]);
    EntryKinds(prefix, bucket[j]);
    EntryKinds(prefix, bucket[i]);
    if rows[k].Common? {
      CommonIsOwn(prefix, bucket[i], bucket[j]);
    }
  }

  predicate ShownAt(rows: seq<Row>, k: nat, o: ObjectEntry) { k < |rows| && Shows(rows[k], o) }

  /** A non-recursive listing shows every matching object through exactly one
      row: itself if nothing of its key lies beyond the delimiter, and otherwise
      its one common prefix. */
  lemma ShownOnce(bucket: seq<ObjectEntry>, prefix: string, i: nat)
    requires i < |bucket| && prefix <= bucket[i].key
    ensures exists k :: (ShownAt(Rows(bucket, prefix, false), k, bucket[i])
                         && forall m :: ShownAt(Rows(bucket, prefix, false), m, bucket[i]) ==> m == k)
  {
    var rows, o := Rows(bucket, prefix, false), bucket[i];
    RowsExact(bucket, prefix, false);
    var own := RowOf(prefix, false, o);
    var k := Find(rows, own);
    assert ShownAt(rows, k, o);
    forall m: nat | ShownAt(rows, m, o) ensures m == k {
      assert rows[m] in rows;
      var i' :| 0 <= i' < |bucket| && prefix <= bucket[i'].key && rows[m] == RowOf(prefix, false, bucket[i']);
      if rows[m].Common? {
        CommonIsOwn(prefix, o, bucket[i']);
      }
    }
  }
}
