/** `OpMetrics` as the source holds it: a mutable record that reports once, when
    it is finished or when it is dropped (src/metrics.rs). Every method is proved
    against the function of `Meters` that the machine of `Client` uses. */
module Metrics {
  import opened Arith
  import opened Wrappers
  import opened Meters
  import Server

  /** The installed metrics recorder. */
  class MetricsRecorder {
    var counters: multiset<Label>
    var errors: multiset<(Name, Server.Fault)>
    var reports: seq<Report>
    var waits: seq<nat>
    var sent: nat
    var recv: nat

    constructor ()
      ensures State() == Recorder(multiset{}, 0, 0) && errors == multiset{} && reports == [] && waits == []
    {
      counters, errors, reports, waits, sent, recv := multiset{}, multiset{}, [], [], 0, 0;
    }

    ghost function State(): Recorder
      reads this
    {
      Recorder(counters, sent, recv)
    }

    method Count(name: Name, status: Status)
      modifies `counters
      ensures State() == Counted(old(State()), name, status)
    {
      counters := counters + multiset{Label(name, status)};
    }
  }

  class OpMetrics {
    const name: Name
    const start: nat
    var queueWait: nat
    var sent: nat
    var recv: nat
    var done: bool

    ghost function State(): Meter
      reads this
    {
      Meter(start, queueWait, sent, recv, done)
    }

    /** `start_operation`. */
    constructor (rec: MetricsRecorder, name: Name, now: nat)
      modifies rec`counters
      ensures this.name == name && State() == Start(now)
      ensures rec.State() == Counted(old(rec.State()), name, Total)
    {
      this.name, this.start := name, now;
      queueWait, sent, recv, done := 0, 0, 0, false;
      new;
      rec.Count(name, Total);
    }

    method AddQueueWait(d: nat)
      modifies `queueWait
      ensures State() == AddWait(old(State()), d)
    {
      queueWait := queueWait + d;
    }

    method Sent(n: nat)
      modifies `sent
      ensures State() == AddSent(old(State()), n)
    {
      sent := sent + n;
    }

    method Recv(n: nat)
      modifies `recv
      ensures State() == AddRecv(old(State()), n)
    {
      recv := recv + n;
    }

    method RecordAs(rec: MetricsRecorder, status: Status, now: nat)
      modifies rec`reports, rec`waits
      ensures rec.reports == old(rec.reports) + [Record(State(), status, now)]
      ensures rec.waits == if queueWait == 0 then old(rec.waits) else old(rec.waits) + [queueWait]
    {
      var latency := SaturatingSub(now, start);
      rec.reports := rec.reports + [Report(status, latency, SaturatingSub(latency, queueWait), queueWait)];
      if queueWait != 0 {
        rec.waits := rec.waits + [queueWait];
      }
    }

    method Ok(rec: MetricsRecorder, now: nat)
      modifies rec, `done
      ensures State() == old(State()).(done := true)
      ensures rec.State() == Emit(old(rec.State()), name, old(State()), OkStatus) && rec.errors == old(rec.errors)
      ensures rec.reports == old(rec.reports) + [Record(old(State()), OkStatus, now)]
    {
      done := true;
      RecordAs(rec, OkStatus, now);
      rec.Count(name, OkStatus);
      if sent > 0 {
        rec.sent := rec.sent + sent;
      }
      if recv > 0 {
        rec.recv := rec.recv + recv;
      }
    }

    /** Errors are also counted by kind. */
    method Err(rec: MetricsRecorder, fault: Server.Fault, now: nat)
      modifies rec, `done
      ensures State() == old(State()).(done := true)
      ensures rec.State() == Emit(old(rec.State()), name, old(State()), ErrStatus)
      ensures rec.errors == old(rec.errors) + multiset{(name, fault)}
      ensures rec.reports == old(rec.reports) + [Record(old(State()), ErrStatus, now)]
    {
      done := true;
      RecordAs(rec, ErrStatus, now);
      rec.Count(name, ErrStatus);
      rec.errors := rec.errors + multiset{(name, fault)};
    }

    /** `Drop for OpMetrics`. */
    method Drop(rec: MetricsRecorder, now: nat)
      modifies rec
      ensures rec.State() == if done then old(rec.State()) else Emit(old(rec.State()), name, State(), CancelledStatus)
      ensures rec.reports == old(rec.reports) + if done then [] else [Record(State(), CancelledStatus, now)]
      ensures rec.errors == old(rec.errors)
    {
      if !done {
        RecordAs(rec, CancelledStatus, now);
        rec.Count(name, CancelledStatus);
      }
    }

    /** Leaving the operation's scope: `finish` with a result, or not at all,
        then the drop. Exactly one outcome is counted and one report made, bytes
        are counted only for successes, and latency is wait plus duration. */
    method Leave(rec: MetricsRecorder, finished: Option<Result<(), Server.Fault>>, now: nat)
      requires !done && start + queueWait <= now
      modifies rec, `done
      ensures var status := if finished.None? then CancelledStatus else if finished.value.Success?
          then OkStatus else ErrStatus;
        && rec.State() == Emit(old(rec.State()), name, old(State()), status)
        && |rec.reports| == |old(rec.reports)| + 1 && rec.reports[..|old(rec.reports)|] == old(rec.reports)
        && rec.reports[|old(rec.reports)|].status == status
        && rec.reports[|old(rec.reports)|].latency == queueWait + rec.reports[|old(rec.reports)|].duration
      ensures |rec.errors| == |old(rec.errors)| + if finished.Some? && finished.value.Failure? then 1 else 0
    {
      if finished.Some? {
        match finished.value {
          case Success(_) => Ok(rec, now);
          case Failure(f) => Err(rec, f, now);
        }
      }
      Drop(rec, now);
    }
  }
}
