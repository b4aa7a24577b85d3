/** Exactly when `active` can exceed the connections of a side. */
module Overshoots {
  import opened Arith
  import opened Wrappers
  import opened Config
  import opened Split
  import opened Program
  import opened Client
  import opened Ceiling
  import opened Scenarios
  import opened Deadlocks
  import Pool
  import PoolRuns
  import Window

  /** Operation `i` is about to make the bulk reservation of half `h`. */
  predicate Eager(s: System, i: nat, h: nat)
    requires Formed(s) && i < |s.ops| && h < 2 * |s.clients|
  {
    var op := s.ops[i];
    && op.stage.Fresh? && HalfOf(op.client, op.stage.ask) == h
    && CountOf(ConfigOf(s, i), op.stage.ask) == Concurrency(s.clients, h)
  }

  /** `j` bulk reservations of `n` taken from a half of `capacity`. */
  predicate Taken(half: Pool.Half, capacity: nat, n: nat, j: nat) {
    half.line == [] && half.active == j * n < Pool.U64 && half.available + j * Pool.AsU32(n) == capacity
  }

  /** `k` operations of one client, of which the first `j` hold their bulk
      reservation on half `h` and the others are about to make it. */
  ghost predicate Pile(s: System, clients: seq<S3Config>, h: nat, body: Bytes, k: nat, j: nat) {
    && Formed(s) && s.clients == clients && h < 2 * |clients| && s.store.objects == map["" := body]
    && |s.ops| == k && (forall i :: j <= i < k ==> Eager(s, i, h))
    && Taken(s.halves[h], Connections(clients, h), Concurrency(clients, h), j)
  }

  ghost predicate Stacked(r: Run, clients: seq<S3Config>, h: nat, body: Bytes, k: nat, j: nat) {
    Valid(r) && r.clients == clients && r.past == {map["" := body]} && Pile(r.s, clients, h, body, k, j)
  }

  lemma NoneYet(clients: seq<S3Config>, h: nat, body: Bytes) returns (r: Run)
    requires Starts(clients) && h < 2 * |clients|
    ensures Stacked(r, clients, h, body, 0, 0)
  {
    r := Begun(clients, map["" := body], {map["" := body]});
  }

  /** Half `h` serves one kind of operation of its client. */
  lemma Halved(h: nat, ask: Ask)
    ensures HalfOf(h / 2, ask) == h <==> (IsWrite(ask) <==> h % 2 == 1)
  {
  }

  /** A new operation that starts with the bulk reservation. */
  lemma CallPiles(s: System, clients: seq<S3Config>, h: nat, body: Bytes, k: nat, kind: Kind)
    requires Pile(s, clients, h, body, k, 0) && h % 2 == 1
    requires kind.Put? && |kind.body| > clients[h / 2].multipartThreshold
    ensures Pile(Apply(s, Call(h / 2, kind)), clients, h, body, k + 1, 0)
  {
    var s' := Apply(s, Call(h / 2, kind));
    Halved(h, AskMultipart);
    forall i | 0 <= i < k + 1 ensures Eager(s', i, h) {
      if i < k {
        assert Eager(s, i, h);
      }
    }
  }

  /** One more multipart put is called. */
  lemma OnePut(r: Run, clients: seq<S3Config>, h: nat, body: Bytes, k: nat) returns (r': Run)
    requires Stacked(r, clients, h, body, k, 0) && h % 2 == 1 && |body| > clients[h / 2].multipartThreshold
    ensures Stacked(r', clients, h, body, k + 1, 0)
  {
    CallPiles(r.s, clients, h, body, k, Put("", body));
    r' := Called(r, h / 2, Put("", body));
  }

  /** An operation that has gone through HEAD and back. */
  lemma ReturnPiles(s: System, s': System, clients: seq<S3Config>, h: nat, body: Bytes, k: nat)
    requires Pile(s, clients, h, body, k, 0) && Formed(s') && s'.clients == clients
    requires s'.store.objects == map["" := body]
    requires |s'.ops| == k + 1 && s'.ops[..k] == s.ops && Eager(s', k, h)
    requires Taken(s'.halves[h], Connections(clients, h), Concurrency(clients, h), 0)
    ensures Pile(s', clients, h, body, k + 1, 0)
  {
    forall i | 0 <= i < k + 1 ensures Eager(s', i, h) {
      if i < k {
        assert Eager(s, i, h) && s'.ops[i] == s'.ops[..k][i];
      }
    }
  }

  /** A get called and holding the permit for its HEAD. */
  lemma GetAsks(r: Run, clients: seq<S3Config>, h: nat, body: Bytes, k: nat) returns (r': Run)
    requires Stacked(r, clients, h, body, k, 0) && h % 2 == 0 && Connections(clients, h) >= 1
    ensures Valid(r') && r'.clients == clients && r'.past == r.past && Formed(r'.s) && r'.s.clients == clients
    ensures r'.s.store.objects == map["" := body] && |r'.s.ops| == k + 1 && r'.s.ops[..k] == r.s.ops
    ensures var op := r'.s.ops[k];
      && op.client == h / 2 && op.kind == Get("") && op.mail == [] && op.stage.Busy? && op.stage.ask == AskStat
      && op.stage.round == RHead && op.stage.base == 0 && op.stage.win == Window.Open(1, 1)
      && var half, t := r'.s.halves[h], op.stage.ticket;
         half.In(t, Pool.Counted) && half.calls[t].count == 1 && half.line == [] && half.active == 1
         && half.available + 1 == Connections(clients, h)
  {
    var r1 := GetCalled(r, clients, h, body, k);
    r' := Acquire(r1, k);
    assert r'.s.ops[..k] == r1.s.ops[..k];
  }

  /** A get just called. */
  lemma GetCalled(r: Run, clients: seq<S3Config>, h: nat, body: Bytes, k: nat) returns (r': Run)
    requires Stacked(r, clients, h, body, k, 0) && h % 2 == 0
    ensures Valid(r') && r'.clients == clients && r'.past == r.past && Formed(r'.s) && r'.s.clients == clients
    ensures r'.s.store.objects == map["" := body] && |r'.s.ops| == k + 1 && r'.s.ops[..k] == r.s.ops
    ensures r'.s.halves == r.s.halves && HalfOf(h / 2, AskStat) == h
    ensures var op := r'.s.ops[k];
      op.client == h / 2 && op.kind == Get("") && op.mail == [] && op.stage == Fresh(AskStat)
  {
    Halved(h, AskStat);
    r' := Called(r, h / 2, Get(""));
    assert r'.s.ops[..k] == r.s.ops;
  }

  /** One more get is called and comes back from its HEAD. */
  lemma OneGet(r: Run, clients: seq<S3Config>, h: nat, body: Bytes, k: nat) returns (r': Run)
    requires Stacked(r, clients, h, body, k, 0) && h % 2 == 0 && |body| > clients[h / 2].multipartThreshold
    requires Connections(clients, h) >= 1
    ensures Stacked(r', clients, h, body, k + 1, 0)
  {
    Halved(h, AskStat);
    var r1 := GetAsks(r, clients, h, body, k);
    var r2 := HeadAnswered(r1, k, body);
    assert r2.s.ops[..k] == r1.s.ops[..k];
    r' := GetReturns(r2, clients, h, body, k);
    ReturnPiles(r.s, r'.s, clients, h, body, k);
  }

  /** The HEAD of operation `k` is over, and its permit goes back. */
  lemma GetReturns(r: Run, clients: seq<S3Config>, h: nat, body: Bytes, k: nat) returns (r': Run)
    requires Valid(r) && Formed(r.s) && r.s.clients == clients && |r.s.ops| == k + 1 && h < 2 * |clients| && h % 2 == 0
    requires |body| > clients[h / 2].multipartThreshold && r.s.ops[k].client == h / 2 && r.s.ops[k].kind == Get("")
    requires var st := r.s.ops[k].stage;
      && st.Busy? && st.ask == AskStat && st.win.Complete() && st.win.done != []
      && After(st.round, st.win.done) == Return(Ok(Meta(|body|)))
      && var half := r.s.halves[h];
         half.In(st.ticket, Pool.Counted) && half.calls[st.ticket].count == 1 && half.line == [] && half.active == 1
         && half.available + 1 == Connections(clients, h)
    ensures Valid(r') && SameStart(r, r') && Formed(r'.s) && r'.s.clients == clients && r'.s.store == r.s.store
    ensures |r'.s.ops| == k + 1 && r'.s.ops[..k] == r.s.ops[..k] && Eager(r'.s, k, h)
    ensures Taken(r'.s.halves[h], Connections(clients, h), Concurrency(clients, h), 0)
  {
    Halved(h, AskStat);
    Halved(h, AskRanges(|body|));
    r' := GoBack(r, k);
    assert r'.s.ops[..k] == r.s.ops[..k];
  }

  lemma {:induction false} AllEager(clients: seq<S3Config>, h: nat, body: Bytes, k: nat) returns (r: Run)
    requires Starts(clients) && h < 2 * |clients| && |body| > clients[h / 2].multipartThreshold
    requires h % 2 == 0 ==> Connections(clients, h) >= 1
    ensures Stacked(r, clients, h, body, k, 0)
  {
    if k == 0 {
      r := NoneYet(clients, h, body);
    } else {
      r := AllEager(clients, h, body, k - 1);
      if h % 2 == 1 {
        r := OnePut(r, clients, h, body, k - 1);
      } else {
        r := OneGet(r, clients, h, body, k - 1);
      }
    }
  }

  lemma OneTaken(half: Pool.Half, half': Pool.Half, capacity: nat, n: nat, j: nat)
    requires Taken(half, capacity, n, j) && HasRoom(capacity, n, j + 1)
    requires half'.line == [] && half'.active == Pool.FetchAdd(half.active, n)
    requires half.available >= Pool.AsU32(n) && half'.available == half.available - Pool.AsU32(n)
    ensures Taken(half', capacity, n, j + 1)
  {
    assert (j + 1) * n == j * n + n && (j + 1) * Pool.AsU32(n) == j * Pool.AsU32(n) + Pool.AsU32(n);
  }

  lemma StillTakes(half: Pool.Half, capacity: nat, n: nat, j: nat)
    requires Taken(half, capacity, n, j) && HasRoom(capacity, n, j + 1)
    ensures Pool.AsU32(n) <= half.available
  {
    assert (j + 1) * Pool.AsU32(n) == j * Pool.AsU32(n) + Pool.AsU32(n);
  }

  lemma AcquirePiles(s: System, s': System, clients: seq<S3Config>, h: nat, body: Bytes, k: nat, j: nat)
    requires Pile(s, clients, h, body, k, j) && j < k && !s.ops[j].stage.Ended?
    requires Formed(s') && OnlyMoves(s, s', j)
    requires Taken(s'.halves[h], Connections(clients, h), Concurrency(clients, h), j + 1)
    ensures Pile(s', clients, h, body, k, j + 1)
  {
    forall i | j + 1 <= i < k ensures Eager(s', i, h) {
      assert Eager(s, i, h);
    }
  }

  /** `j` bulk reservations of `n` fit, and their count does not wrap. */
  predicate HasRoom(capacity: nat, n: nat, j: nat) { j * Pool.AsU32(n) <= capacity && j * n < Pool.U64 }

  lemma RoomBelow(capacity: nat, n: nat, j: nat)
    requires HasRoom(capacity, n, j + 1)
    ensures HasRoom(capacity, n, j)
  {
    assert (j + 1) * n == j * n + n && (j + 1) * Pool.AsU32(n) == j * Pool.AsU32(n) + Pool.AsU32(n);
  }

  /** The next one acquires. */
  lemma OneAcquires(r: Run, clients: seq<S3Config>, h: nat, body: Bytes, k: nat, j: nat) returns (r': Run)
    requires Stacked(r, clients, h, body, k, j) && j < k
    requires HasRoom(Connections(clients, h), Concurrency(clients, h), j + 1)
    ensures Stacked(r', clients, h, body, k, j + 1)
  {
    assert Eager(r.s, j, h);
    StillTakes(r.s.halves[h], Connections(clients, h), Concurrency(clients, h), j);
    r' := Acquire(r, j);
    OneTaken(r.s.halves[h], r'.s.halves[h], Connections(clients, h), Concurrency(clients, h), j);
    AcquirePiles(r.s, r'.s, clients, h, body, k, j);
  }

  lemma {:induction false} FirstAcquire(clients: seq<S3Config>, h: nat, body: Bytes, k: nat, j: nat) returns (r: Run)
    requires Starts(clients) && h < 2 * |clients| && |body| > clients[h / 2].multipartThreshold && j <= k
    requires h % 2 == 0 ==> Connections(clients, h) >= 1
    requires HasRoom(Connections(clients, h), Concurrency(clients, h), j)
    ensures Stacked(r, clients, h, body, k, j)
  {
    if j == 0 {
      r := AllEager(clients, h, body, k);
    } else {
      RoomBelow(Connections(clients, h), Concurrency(clients, h), j - 1);
      r := FirstAcquire(clients, h, body, k, j - 1);
      r := OneAcquires(r, clients, h, body, k, j - 1);
    }
  }

  /** In no run does `active` exceed the connections of half `h`'s side. */
  ghost predicate StaysBelow(clients: seq<S3Config>, h: nat)
    requires h < 2 * |clients|
  {
    forall initial, es, s :: Reaches(clients, initial, es, s) ==>
      h < |s.halves| && s.halves[h].active <= Connections(clients, h)
  }

  /** `active` stays within the connections of a side in every run of the clients
      exactly when that side cannot overshoot. */
  lemma CeilingIff(clients: seq<S3Config>, h: nat)
    requires Starts(clients) && h < 2 * |clients| && Connections(clients, h) <= Pool.MAX_PERMITS
    ensures StaysBelow(clients, h) <==> !CanOvershoot(clients, h)
  {
    if CanOvershoot(clients, h) {
      var n := Concurrency(clients, h);
      PoolRuns.OvershootFits(Connections(clients, h), n);
      var k := PoolRuns.Overshooting(Connections(clients, h), n);
      var r := FirstAcquire(clients, h, seq(clients[h / 2].multipartThreshold + 1, _ => 0), k, k);
      assert Reaches(clients, r.initial, r.es, r.s);
    } else {
      forall initial, es, s | Reaches(clients, initial, es, s)
        ensures h < |s.halves| && s.halves[h].active <= Connections(clients, h)
      {
        ConnectionCeiling(clients, initial, es, s, h);
      }
    }
  }

  /** Accepted options with a concurrency of `usize::MAX`: on 15 connections the
      bulk reservation is never granted and `active` stays below; on 2^32 - 1 it
      is granted, and counts 2^64 - 1. */
  lemma WrappedCeiling()
    ensures var few := Options(None, None, Some(15), None, Some(USIZE_MAX), None, None, None);
      Validate(few).Success? && StaysBelow([Validate(few).value], 0)
    ensures var many := Options(None, None, Some(0xFFFF_FFFF), None, Some(USIZE_MAX), None, None, None);
      Validate(many).Success? && !StaysBelow([Validate(many).value], 0)
  {
    var few := Options(None, None, Some(15), None, Some(USIZE_MAX), None, None, None);
    var many := Options(None, None, Some(0xFFFF_FFFF), None, Some(USIZE_MAX), None, None, None);
    assert USIZE_MAX == (Pool.U32 - 1) * Pool.U32 + (Pool.U32 - 1);
    assert Pool.AsU32(USIZE_MAX) == Pool.U32 - 1;
    CeilingIff([Validate(few).value], 0);
    CeilingIff([Validate(many).value], 0);
  }
}
