/** `OpMetrics` and the recorder it reports to (src/metrics.rs), as values. */
module Meters {
  import opened Arith

  datatype Name = PutOp | GetOp | DeleteOp | HeadOp | ListOp
  datatype Status = Total | OkStatus | ErrStatus | CancelledStatus
  datatype Label = Label(name: Name, status: Status)

  /** Instants are readings of one clock. */
  datatype Meter = Meter(start: nat, queueWait: nat, sent: nat, recv: nat, done: bool)

  /** What one call of `record` puts into the histograms. */
  datatype Report = Report(status: Status, latency: nat, duration: nat, queueWait: nat)

  /** The installed recorder: outcome counters and byte counters. */
  datatype Recorder = Recorder(counters: multiset<Label>, sent: nat, recv: nat)

  /** `start_operation`. */
  function Start(now: nat): Meter { Meter(now, 0, 0, 0, false) }

  function AddWait(m: Meter, d: nat): Meter { m.(queueWait := m.queueWait + d) }

  function AddSent(m: Meter, n: nat): Meter { m.(sent := m.sent + n) }

  function AddRecv(m: Meter, n: nat): Meter { m.(recv := m.recv + n) }

  function Record(m: Meter, status: Status, now: nat): Report {
    var latency := SaturatingSub(now, m.start);
    Report(status, latency, SaturatingSub(latency, m.queueWait), m.queueWait)
  }

  function Counted(rec: Recorder, name: Name, status: Status): Recorder {
    rec.(counters := rec.counters + multiset{Label(name, status)})
  }

  /** `ok`, `err` and the drop add one to the counter of their status; only `ok`
      adds the bytes. */
  function Emit(rec: Recorder, name: Name, m: Meter, status: Status): Recorder {
    var counted := Counted(rec, name, status);
    if status.OkStatus? then counted.(sent := rec.sent + m.sent, recv := rec.recv + m.recv) else counted
  }
}
