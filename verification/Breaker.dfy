/** The circuit breaker: a three-state machine with a clock, and the plain history it stands for. */
module Breaker {
  import opened Contracts

  datatype Mode = Closed | Open | HalfOpen

  datatype Limits = Limits(threshold: int, recovery: int)

  // The three fields of a breaker.
  datatype Memory = Memory(mode: Mode, failures: nat, openedAt: Option<Time>)

  const FRESH := Memory(Closed, 0, None)

  // ----- What each operation does to the fields -----

  predicate CanHalfOpen(lim: Limits, m: Memory, now: Time) {
    m.openedAt.Some? && now >= m.openedAt.value + lim.recovery
  }

  function AfterRead(lim: Limits, m: Memory, now: Time): Memory {
    if m.mode == Open && CanHalfOpen(lim, m, now) then m.(mode := HalfOpen) else m
  }

  predicate Admits(lim: Limits, m: Memory, now: Time) {
    m.mode == Open ==> CanHalfOpen(lim, m, now)
  }

  function AfterAllow(lim: Limits, m: Memory, now: Time): Memory {
    if m.mode == Open && CanHalfOpen(lim, m, now) then m.(mode := HalfOpen) else m
  }

  function Tripped(m: Memory, now: Time): Memory {
    m.(mode := Open, openedAt := Some(now))
  }

  function AfterFailure(lim: Limits, m: Memory, now: Time): Memory {
    if m.mode == HalfOpen then Tripped(m, now)
    else
      var m' := m.(failures := m.failures + 1);
      if m'.failures >= lim.threshold then Tripped(m', now) else m'
  }

  class CircuitBreaker {
    const limits: Limits
    var mode: Mode
    var failures: nat
    var openedAt: Option<Time>

    ghost function Fields(): Memory
      reads this
    {
      Memory(mode, failures, openedAt)
    }

    constructor (limits: Limits)
      ensures Fields() == FRESH && this.limits == limits
    {
      this.limits := limits;
      mode, failures, openedAt := Closed, 0, None;
    }

    // Reading the state moves an open breaker whose time is up to half-open.
    method State(now: Time) returns (mode': Mode)
      modifies this
      ensures Fields() == AfterRead(limits, old(Fields()), now) && mode' == mode
      ensures mode == if old(mode) == Open && openedAt.Some? && now >= openedAt.value + limits.recovery
                      then HalfOpen else old(mode)
      ensures failures == old(failures) && openedAt == old(openedAt)
    {
      if mode == Open {
        var due := IsDue(now);
        if due {
          mode := HalfOpen;
        }
      }
      return mode;
    }

    method AllowCall(now: Time) returns (allowed: bool)
      modifies this
      ensures allowed == Admits(limits, old(Fields()), now)
      ensures Fields() == AfterAllow(limits, old(Fields()), now)
    {
      if mode == Open {
        var due := IsDue(now);
        if !due {
          return false;
        }
      }
      if mode == Open {
        mode := HalfOpen;
      }
      return true;
    }

    method OnSuccess()
      modifies this
      ensures Fields() == FRESH
    {
      mode := Closed;
      failures := 0;
      openedAt := None;
    }

    method OnFailure(now: Time)
      modifies this
      ensures Fields() == AfterFailure(limits, old(Fields()), now)
    {
      if mode == HalfOpen {
        TripOpen(now);
        return;
      }
      failures := failures + 1;
      if failures >= limits.threshold {
        TripOpen(now);
      }
    }

    method TripOpen(now: Time)
      modifies this
      ensures Fields() == Tripped(old(Fields()), now)
    {
      mode := Open;
      openedAt := Some(now);
    }

    method IsDue(now: Time) returns (due: bool)
      ensures due == CanHalfOpen(limits, Fields(), now)
    {
      if openedAt.None? {
        return false;
      }
      return now >= openedAt.value + limits.recovery;
    }
  }

  // ----- The history -----

  datatype Op = Asked(at: Time) | Looked(at: Time) | Succeeded(at: Time) | Failed(at: Time)

  function Apply(lim: Limits, m: Memory, op: Op): Memory {
    match op
    case Asked(at) => AfterAllow(lim, m, at)
    case Looked(at) => AfterRead(lim, m, at)
    case Succeeded(_) => FRESH
    case Failed(at) => AfterFailure(lim, m, at)
  }

  function Replay(lim: Limits, ops: seq<Op>): Memory {
    if |ops| == 0 then FRESH else Apply(lim, Replay(lim, ops[..|ops| - 1]), ops[|ops| - 1])
  }

  // The failures since the last success.
  function FailureCount(ops: seq<Op>): nat {
    var n := |ops|;
    if n == 0 || ops[n - 1].Succeeded? then 0
    else FailureCount(ops[..n - 1]) + (if ops[n - 1].Failed? then 1 else 0)
  }

  // The time of the last failure since the last success.
  function LastFailure(ops: seq<Op>): Option<Time> {
    var n := |ops|;
    if n == 0 || ops[n - 1].Succeeded? then None
    else if ops[n - 1].Failed? then Some(ops[n - 1].at)
    else LastFailure(ops[..n - 1])
  }

  // What the breaker stands for: closed below the threshold, and open again once the last failure is old.
  predicate HistoryAdmits(lim: Limits, ops: seq<Op>, now: Time) {
    || FailureCount(ops) < lim.threshold
    || (LastFailure(ops).Some? && now >= LastFailure(ops).value + lim.recovery)
  }

  ghost predicate Timely(ops: seq<Op>, now: Time) {
    && (forall i, j | 0 <= i < j < |ops| :: ops[i].at <= ops[j].at)
    && (forall i | 0 <= i < |ops| :: ops[i].at <= now)
  }

  predicate Refines(lim: Limits, m: Memory, ops: seq<Op>, now: Time) {
    match m.mode
    case Closed => m.failures == FailureCount(ops) < lim.threshold
    case Open =>
      FailureCount(ops) >= lim.threshold && m.failures >= lim.threshold
      && m.openedAt.Some? && m.openedAt == LastFailure(ops)
    case HalfOpen =>
      FailureCount(ops) >= lim.threshold && m.failures >= lim.threshold
      && m.openedAt.Some? && m.openedAt == LastFailure(ops)
      && now >= m.openedAt.value + lim.recovery
  }

  lemma {:induction false} ReplayRefines(lim: Limits, ops: seq<Op>, now: Time)
    requires lim.threshold >= 1 && Timely(ops, now)
    ensures Refines(lim, Replay(lim, ops), ops, now)
  {
    if |ops| > 0 {
      var op := ops[|ops| - 1];
      ReplayRefines(lim, ops[..|ops| - 1], op.at);
    }
  }

  // The breaker admits a call exactly when its history says so.
  lemma AdmitsExactlyByHistory(lim: Limits, ops: seq<Op>, now: Time)
    requires lim.threshold >= 1 && Timely(ops, now)
    ensures Admits(lim, Replay(lim, ops), now) <==> HistoryAdmits(lim, ops, now)
  {
    ReplayRefines(lim, ops, now);
  }

  // ----- Reads and refused or admitted calls leave no trace -----

  function Reports(ops: seq<Op>): seq<Op> {
    var n := |ops|;
    if n == 0 then []
    else Reports(ops[..n - 1]) + (if ops[n - 1].Succeeded? || ops[n - 1].Failed? then [ops[n - 1]] else [])
  }

  lemma {:induction false} ReportsSayAll(ops: seq<Op>)
    ensures FailureCount(Reports(ops)) == FailureCount(ops) && LastFailure(Reports(ops)) == LastFailure(ops)
  {
    var n := |ops|;
    if n > 0 {
      ReportsSayAll(ops[..n - 1]);
      var r := Reports(ops[..n - 1]);
      if ops[n - 1].Succeeded? || ops[n - 1].Failed? {
        assert Reports(ops) == r + [ops[n - 1]];
        assert (r + [ops[n - 1]])[..|r|] == r;
      } else {
        assert Reports(ops) == r;
      }
    }
  }

  lemma {:induction false} ReportsAreTimely(ops: seq<Op>, now: Time)
    requires Timely(ops, now)
    ensures Timely(Reports(ops), now)
    ensures forall x | x in Reports(ops) :: x in ops
  {
    var n := |ops|;
    if n > 0 {
      ReportsAreTimely(ops[..n - 1], ops[n - 1].at);
      forall x | x in Reports(ops) ensures x in ops {
        if x in Reports(ops[..n - 1]) {
          assert x in ops[..n - 1];
        }
      }
      forall x | x in Reports(ops) ensures x.at <= now {
        var i :| 0 <= i < n && ops[i] == x;
      }
    }
  }

  // Only reported successes and failures decide a later admission: state reads, which do change the
  // fields, and questions never do.
  lemma OnlyReportsMatter(lim: Limits, ops: seq<Op>, now: Time)
    requires lim.threshold >= 1 && Timely(ops, now)
    ensures Admits(lim, Replay(lim, ops), now) <==> Admits(lim, Replay(lim, Reports(ops)), now)
  {
    AdmitsExactlyByHistory(lim, ops, now);
    ReportsAreTimely(ops, now);
    AdmitsExactlyByHistory(lim, Reports(ops), now);
    ReportsSayAll(ops);
  }
}
