/** What each public operation asks the pool for, which requests it sends while
    holding what it got, and what it makes of the replies (src/client.rs). */
module Program {
  import opened Arith
  import opened Wrappers
  import opened Config
  import opened Split
  import opened Server
  import opened Sorting

  /** A listing is served in at most `pages + 1` pages. */
  datatype Kind = Put(key: Key, body: Bytes) | Get(key: Key) | Delete(key: Key) | Head(key: Key) | List(pages: nat)

  /** What a reservation is for. */
  datatype Ask = AskPut | AskMultipart | AskDelete | AskStat | AskGet(total: nat) | AskRanges(total: nat) | AskList

  /** A batch of requests run through one `buffer_unordered` window; a lone
      request is a batch of one. */
  datatype Round =
    | RPut | RDelete | RHead
    | RGet(total: nat)  // `total` is what HEAD reported
    | RRanges(total: nat)
    | RPage(left: nat)
    | RCreate
    | RParts(uid: nat)
    | RFinish(uid: nat, results: seq<(nat, Reply)>)  // complete or abort

  datatype Payload = Unit | Meta(length: nat) | Data(body: Bytes) | Entries
  datatype Outcome = Ok(payload: Payload) | Err(fault: Fault) | Cancelled

  predicate IsWrite(ask: Ask) { ask.AskPut? || ask.AskMultipart? || ask.AskDelete? }

  /** How many permits are reserved. */
  function CountOf(c: S3Config, ask: Ask): nat {
    if ask.AskMultipart? then c.writeConcurrency
    else if ask.AskRanges? then c.readConcurrency
    else 1
  }

  function FirstAsk(c: S3Config, kind: Kind): Ask {
    match kind
    case Put(_, body) => if |body| > c.multipartThreshold then AskMultipart else AskPut
    case Get(_) => AskStat
    case Head(_) => AskStat
    case Delete(_) => AskDelete
    case List(_) => AskList
  }

  /** Only `get_object` asks twice: once for HEAD, then for the body. */
  function NextAsk(c: S3Config, kind: Kind, ask: Ask, out: Outcome): Option<Ask> {
    if kind.Get? && ask.AskStat? && out.Ok? && out.payload.Meta? then
      Some(if out.payload.length > c.multipartThreshold
          then AskRanges(out.payload.length) else AskGet(out.payload.length))
    else None
  }

  /** `delete_object` and `list_objects` call into the pool from their own body:
      a pool error leaves the body at once, and the permit is still in scope at
      `finish`. Everything else does so inside a helper that gives the permit
      back and returns to the body first. */
  predicate BodyHolds(kind: Kind) { kind.Delete? || kind.List? }

  predicate Serves(kind: Kind, ask: Ask) {
    match ask
    case AskPut => kind.Put?
    case AskMultipart => kind.Put?
    case AskDelete => kind.Delete?
    case AskStat => kind.Get? || kind.Head?
    case AskGet(_) => kind.Get?
    case AskRanges(_) => kind.Get?
    case AskList => kind.List?
  }

  function Opening(kind: Kind, ask: Ask): Round {
    match ask
    case AskPut => RPut
    case AskMultipart => RCreate
    case AskDelete => RDelete
    case AskStat => RHead
    case AskGet(total) => RGet(total)
    case AskRanges(total) => RRanges(total)
    case AskList => RPage(if kind.List? then kind.pages else 0)
  }

  /** The rounds that run under a reservation. */
  predicate Under(ask: Ask, round: Round) {
    match round
    case RPut => ask.AskPut?
    case RDelete => ask.AskDelete?
    case RHead => ask.AskStat?
    case RGet(total) => ask == AskGet(total)
    case RRanges(total) => ask == AskRanges(total)
    case RPage(_) => ask.AskList?
    case RCreate => ask.AskMultipart?
    case RParts(_) => ask.AskMultipart?
    case RFinish(_, _) => ask.AskMultipart?
  }

  predicate Suits(kind: Kind, round: Round) {
    match round
    case RPut => kind.Put?
    case RDelete => kind.Delete?
    case RHead => kind.Get? || kind.Head?
    case RGet(_) => kind.Get?
    case RRanges(_) => kind.Get?
    case RPage(left) => kind.List? && left <= kind.pages
    case RCreate => kind.Put?
    case RParts(_) => kind.Put?
    case RFinish(_, _) => kind.Put?
  }

  function JobCount(c: S3Config, kind: Kind, round: Round): nat
    requires Sound(c)
  {
    if round.RParts? && kind.Put? then DivCeil(|kind.body|, c.chunkSize)
    else if round.RRanges? then DivCeil(round.total, c.chunkSize)
    else 1
  }

  function Width(c: S3Config, round: Round): nat {
    if round.RParts? then c.writeConcurrency
    else if round.RRanges? then c.readConcurrency
    else 1
  }

  function RequestOf(c: S3Config, kind: Kind, round: Round, j: nat): Request
    requires Sound(c) && Suits(kind, round) && j < JobCount(c, kind, round)
  {
    match round
    case RPut => PutObject(kind.key, kind.body)
    case RDelete => DeleteObject(kind.key)
    case RHead => HeadObject(kind.key)
    case RGet(_) => GetObject(kind.key)
    case RRanges(total) =>
      GetRange(kind.key, Lo(j, c.chunkSize), SaturatingSub(Hi(j, c.chunkSize, total), 1))
    case RPage(_) => ListPage
    case RCreate => CreateUpload(kind.key)
    case RParts(uid) => UploadPart(kind.key, uid, PartNumber(j), Slice(kind.body, c.chunkSize, j))
    case RFinish(uid, results) =>
      if FirstFault(results).None? then CompleteUpload(kind.key, uid, Manifest(results))
      else AbortUpload(kind.key, uid)
  }

  // ---------- what the replies amount to ----------

  function FaultOf(r: Reply): Option<Fault> {
    match r
    case Failed(f) => Some(f)
    case Stored(None) => Some(NoEtag)
    case _ => None
  }

  /** The first failure in completion order. */
  function FirstFault(results: seq<(nat, Reply)>): Option<Fault> {
    if results == [] then None
    else
      var before := FirstFault(results[..|results| - 1]);
      if before.Some? then before else FaultOf(results[|results| - 1].1)
  }

  /** The completed parts, in completion order. */
  function Completed(results: seq<(nat, Reply)>): seq<(int, nat)> {
    if results == [] then []
    else
      var (j, r) := results[|results| - 1];
      Completed(results[..|results| - 1]) + if r.Stored? && r.etag.Some? then [(PartNumber(j), r.etag.value)] else []
  }

  function Manifest(results: seq<(nat, Reply)>): seq<(int, nat)> { SortByKey(Completed(results)) }

  /** The received ranges, in completion order. */
  function Received(results: seq<(nat, Reply)>): seq<(int, Bytes)> {
    if results == [] then []
    else
      var (j, r) := results[|results| - 1];
      Received(results[..|results| - 1]) + if r.Body? then [(j, r.bytes)] else []
  }

  function Chunks(parts: seq<(int, Bytes)>): seq<Bytes> { seq(|parts|, i requires 0 <= i < |parts| => parts[i].1) }

  function Assemble(results: seq<(nat, Reply)>): Bytes { Concat(Chunks(SortByKey(Received(results)))) }

  datatype Step = Then(round: Round) | Return(out: Outcome)

  function Verdict(r: Reply, payload: Payload): Step {
    if r.Failed? then Return(Err(r.fault)) else Return(Ok(payload))
  }

  /** What follows a round whose window has drained. */
  function After(round: Round, results: seq<(nat, Reply)>): Step
    requires results != []
  {
    var r := results[0].1;
    match round
    case RPut => Verdict(r, Unit)
    case RDelete => Verdict(r, Unit)
    case RHead => Verdict(r, Meta(if r.Length? && r.length.Some? then r.length.value else 0))
    case RGet(_) => Verdict(r, Data(if r.Body? then r.bytes else []))
    case RRanges(_) =>
      if FirstFault(results).Some? then Return(Err(FirstFault(results).value))
      else Return(Ok(Data(Assemble(results))))
    case RPage(left) =>
      if r.Page? && r.more && left > 0 then Then(RPage(left - 1)) else Verdict(r, Entries)
    case RCreate =>
      if r.Failed? then Return(Err(r.fault))
      else if r.Created? && r.uid.Some? then Then(RParts(r.uid.value))
      else Return(Err(NoUploadId))
    case RParts(uid) => Then(RFinish(uid, results))
    case RFinish(_, parts) =>
      if FirstFault(parts).Some? then Return(Err(FirstFault(parts).value)) else Verdict(r, Unit)
  }
}
