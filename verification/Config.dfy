/** Validated configuration (src/config.rs): the numeric facts the pool and the
    transfer engine rely on. */
module Config {
  import opened Wrappers
  import opened Pool

  const MIN_CHUNK: usize := 5 * 1024 * 1024
  const CHUNK: usize := 8 * 1024 * 1024
  const THRESHOLD: usize := 8 * 1024 * 1024
  const USIZE_MAX: usize := U64 - 1

  /** `timeout` is in seconds. */
  datatype Options = Options(
    chunkSize: Option<usize>, multipartThreshold: Option<usize>,
    readConnections: Option<usize>, writeConnections: Option<usize>,
    readConcurrency: Option<usize>, writeConcurrency: Option<usize>,
    timeout: Option<nat>, maxRetries: Option<usize>)

  datatype S3Config = S3Config(
    chunkSize: usize, multipartThreshold: usize,
    readConnections: usize, writeConnections: usize,
    readConcurrency: usize, writeConcurrency: usize,
    timeout: nat, maxRetries: usize)

  datatype ConfigError = ChunkTooSmall | ZeroConcurrency | ReadPoolTooSmall | WritePoolTooSmall

  function Or<T>(o: Option<T>, default: T): T {
    match o
    case Some(v) => v
    case None => default
  }

  /** `n + 1` on `usize` without overflow checks. */
  function Successor(n: usize): usize { (n + 1) % U64 }

  function Resolve(o: Options): S3Config {
    S3Config(Or(o.chunkSize, CHUNK), Or(o.multipartThreshold, THRESHOLD),
             Or(o.readConnections, 15), Or(o.writeConnections, 10),
             Or(o.readConcurrency, 4), Or(o.writeConcurrency, 4),
             Or(o.timeout, 30), Or(o.maxRetries, 3))
  }

  function Validate(o: Options): Result<S3Config, ConfigError> {
    var c := Resolve(o);
    if c.chunkSize < MIN_CHUNK then Failure(ChunkTooSmall)
    else if c.readConcurrency == 0 || c.writeConcurrency == 0 then Failure(ZeroConcurrency)
    else if c.readConnections < Successor(c.readConcurrency) then Failure(ReadPoolTooSmall)
    else if c.writeConnections < Successor(c.writeConcurrency) then Failure(WritePoolTooSmall)
    else Success(c)
  }

  /** What every accepted configuration guarantees the transfer engine. */
  predicate Sound(c: S3Config) {
    c.chunkSize >= MIN_CHUNK && c.readConcurrency >= 1 && c.writeConcurrency >= 1
  }

  /** Each side's bulk reservation, as the semaphore sees it, fits its half. */
  predicate Fits(c: S3Config) {
    && 1 <= c.readConnections && AsU32(c.readConcurrency) <= c.readConnections
    && 1 <= c.writeConnections && AsU32(c.writeConcurrency) <= c.writeConnections
  }

  /** An accepted configuration leaves a spare connection on both sides, the
      rule that is there to prevent deadlock, exactly when neither concurrency
      is `usize::MAX`: there `concurrency + 1` wraps to 0. */
  lemma ValidatedLeavesSpareIff(o: Options)
    requires Validate(o).Success?
    ensures var c := Validate(o).value;
      && Sound(c)
      && (c.readConnections > c.readConcurrency <==> c.readConcurrency < USIZE_MAX)
      && (c.writeConnections > c.writeConcurrency <==> c.writeConcurrency < USIZE_MAX)
      && (c.readConcurrency < USIZE_MAX && c.writeConcurrency < USIZE_MAX ==> Fits(c))
  {
  }

  /** When the bulk reservations of an accepted configuration fit its pools. */
  predicate SideFits(concurrency: usize, connections: usize) { concurrency < USIZE_MAX || connections >= U32 - 1 }

  lemma ValidatedFitsIff(o: Options)
    requires Validate(o).Success?
    ensures var c := Validate(o).value;
      Fits(c) <==> SideFits(c.readConcurrency, c.readConnections) && SideFits(c.writeConcurrency, c.writeConnections)
  {
    assert USIZE_MAX == (U32 - 1) * U32 + (U32 - 1);
    assert AsU32(USIZE_MAX) == U32 - 1;
  }

  /** The wrapped comparison accepts a pool no bulk reservation fits. */
  lemma WrappedConcurrencyAccepted()
    ensures exists o :: Validate(o).Success? && !Fits(Validate(o).value)
  {
    var o := Options(None, None, Some(1), Some(1), Some(USIZE_MAX), Some(USIZE_MAX), None, None);
    assert Validate(o) == Success(S3Config(CHUNK, THRESHOLD, 1, 1, USIZE_MAX, USIZE_MAX, 30, 3));
    assert USIZE_MAX == (U32 - 1) * U32 + (U32 - 1);
    assert AsU32(USIZE_MAX) == U32 - 1;
  }

  class S3ConfigBuilder {
    var chunkSize: Option<usize>
    var multipartThreshold: Option<usize>
    var readConnections: Option<usize>
    var writeConnections: Option<usize>
    var readConcurrency: Option<usize>
    var writeConcurrency: Option<usize>
    var timeout: Option<nat>
    var maxRetries: Option<usize>

    function Snapshot(): Options
      reads this
    {
      Options(chunkSize, multipartThreshold, readConnections, writeConnections,
              readConcurrency, writeConcurrency, timeout, maxRetries)
    }

    /** The preset always validates, whatever was set before, and leaves four
        connections per side beside a bulk transfer. */
    method MaxThroughput()
      modifies this
      ensures maxRetries == old(maxRetries)
      ensures Validate(Snapshot()) == Success(S3Config(0x400_0000, 0x400_0000, 20, 20, 16, 16, 300,
          Or(old(maxRetries), 3)))
    {
      chunkSize := Some(64 * 1024 * 1024);
      multipartThreshold := Some(64 * 1024 * 1024);
      readConcurrency := Some(16);
      writeConcurrency := Some(16);
      readConnections := Some(20);
      writeConnections := Some(20);
      timeout := Some(300);
    }
  }
}
