/** The event-sourced circuit breaker: queries on an append-only log, the operations of one
    caller, and the same operations cut at their lock sections (dispatch/store.py). */
module Breaker {
  import opened Common
  import Catalog

  /** Stopped occurs in the audit file only; the store refuses it. */
  datatype Stage = Requested | Approved | Denied | Timeout | Executed | Failed | CircuitOpen | Stopped

  datatype Note = Note(risk: Catalog.Risk, args: Args, error: Option<string>)

  datatype Row = Row(ts: real, verb: string, stage: Stage, note: Note)

  datatype Config = Config(limit: nat, window: real, cooldown: real)

  predicate Storable(stage: Stage) { stage != Stopped }

  predicate Counts(stage: Stage) { stage == Timeout || stage == Failed }

  predicate IsFailure(r: Row, verb: string, since: real) {
    r.verb == verb && Counts(r.stage) && r.ts >= since
  }

  predicate IsOpening(r: Row, verb: string) {
    r.verb == verb && r.stage == CircuitOpen
  }

  // ---- the two queries -------------------------------------------------------------------

  function Failures(log: seq<Row>, verb: string, since: real): nat {
    if log == [] then 0
    else Failures(log[..|log| - 1], verb, since) + if IsFailure(log[|log| - 1], verb, since) then 1 else 0
  }

  /** The time of the circuit_open row with the highest id. */
  function LastOpening(log: seq<Row>, verb: string): Option<real> {
    if log == [] then None
    else if IsOpening(log[|log| - 1], verb) then Some(log[|log| - 1].ts)
    else LastOpening(log[..|log| - 1], verb)
  }

  predicate Open(cfg: Config, log: seq<Row>, verb: string, t: real) {
    var last := LastOpening(log, verb);
    last.Some? && t - last.value < cfg.cooldown
  }

  lemma QueriesAfterAppend(log: seq<Row>, r: Row, verb: string, since: real)
    ensures Failures(log + [r], verb, since) == Failures(log, verb, since) + if IsFailure(r, verb, since) then 1 else 0
    ensures LastOpening(log + [r], verb) == if IsOpening(r, verb) then Some(r.ts) else LastOpening(log, verb)
  {
    assert (log + [r])[..|log|] == log;
  }

  lemma {:induction false} FailuresAntitone(log: seq<Row>, verb: string, since: real, later: real)
    requires since <= later
    ensures Failures(log, verb, later) <= Failures(log, verb, since)
  {
    if log != [] {
      FailuresAntitone(log[..|log| - 1], verb, since, later);
    }
  }

  /** Failures is the size of the set of rows the query selects. */
  lemma {:induction false} FailuresAreRows(log: seq<Row>, verb: string, since: real)
    ensures Failures(log, verb, since) == |set i | 0 <= i < |log| && IsFailure(log[i], verb, since)|
  {
    if log != [] {
      var n := |log| - 1;
      FailuresAreRows(log[..n], verb, since);
      var before := set i | 0 <= i < |log[..n]| && IsFailure(log[..n][i], verb, since);
      var now := set i | 0 <= i < |log| && IsFailure(log[i], verb, since);
      assert now == if IsFailure(log[n], verb, since) then before + {n} else before;
    }
  }

  /** The latest opening is one of the rows. */
  lemma {:induction false} LastOpeningIsARow(log: seq<Row>, verb: string) returns (i: nat)
    requires LastOpening(log, verb).Some?
    ensures i < |log| && IsOpening(log[i], verb) && log[i].ts == LastOpening(log, verb).value
    ensures forall j :: i < j < |log| ==> !IsOpening(log[j], verb)
  {
    if IsOpening(log[|log| - 1], verb) {
      i := |log| - 1;
    } else {
      i := LastOpeningIsARow(log[..|log| - 1], verb);
    }
  }

  lemma {:induction false} NoOpeningNoRow(log: seq<Row>, verb: string)
    requires LastOpening(log, verb).None?
    ensures forall j :: 0 <= j < |log| ==> !IsOpening(log[j], verb)
  {
    if log != [] {
      NoOpeningNoRow(log[..|log| - 1], verb);
    }
  }

  /** The test by id, in terms of the rows. */
  lemma OpenByRow(cfg: Config, log: seq<Row>, verb: string, t: real)
    ensures Open(cfg, log, verb, t) <==> exists i ::
              0 <= i < |log| && IsOpening(log[i], verb) && t - log[i].ts < cfg.cooldown &&
              forall j :: i < j < |log| ==> !IsOpening(log[j], verb)
  {
    if LastOpening(log, verb).Some? {
      var i := LastOpeningIsARow(log, verb);
    } else {
      NoOpeningNoRow(log, verb);
    }
  }

  // ---- one caller, no interruption ---------------------------------------------------------

  /** The four clock readings of one record_outcome, in program order. */
  datatype Readings = Readings(insert: real, count: real, check: real, trip: real)

  function OutcomeLog(cfg: Config, log: seq<Row>, verb: string, stage: Stage, note: Note, t: Readings): seq<Row>
  {
    var logged := log + [Row(t.insert, verb, stage, note)];
    if Counts(stage) && Failures(logged, verb, t.count - cfg.window) >= cfg.limit && !Open(cfg, logged, verb, t.check)
    then logged + [Row(t.trip, verb, CircuitOpen, note)]
    else logged
  }

  function GuardLog(cfg: Config, log: seq<Row>, verb: string, note: Note, probe: real, write: real): seq<Row>
  {
    if Open(cfg, log, verb, probe) then log + [Row(write, verb, CircuitOpen, note.(error := None))] else log
  }

  class Store {
    const cfg: Config
    var log: seq<Row>

    constructor (cfg: Config)
      ensures this.cfg == cfg && log == []
    {
      this.cfg := cfg;
      log := [];
    }

    /** Ids are 1, 2, ...; an unknown stage is refused before anything is written. */
    method Append(verb: string, stage: Stage, note: Note, ts: real) returns (id: Result<nat, string>)
      modifies this`log
      ensures Storable(stage) ==> log == old(log) + [Row(ts, verb, stage, note)] && id == Ok(|log|)
      ensures !Storable(stage) ==> log == old(log) && id.Err?
    {
      if !Storable(stage) {
        return Err("unknown stage");
      }
      log := log + [Row(ts, verb, stage, note)];
      id := Ok(|log|);
    }

    /** How many rows of the verb are failures and lie in the window. */
    method FailureCount(verb: string, now: real) returns (n: nat)
      ensures n == |set i | 0 <= i < |log| && IsFailure(log[i], verb, now - cfg.window)|
    {
      n := Failures(log, verb, now - cfg.window);
      FailuresAreRows(log, verb, now - cfg.window);
    }

    /** There is an opening of the verb without a later one, and it is recent. */
    method IsOpen(verb: string, now: real) returns (open: bool)
      ensures open <==> exists i ::
                0 <= i < |log| && IsOpening(log[i], verb) && now - log[i].ts < cfg.cooldown &&
                forall j :: i < j < |log| ==> !IsOpening(log[j], verb)
    {
      OpenByRow(cfg, log, verb, now);
      var last := LastOpening(log, verb);
      if last.None? {
        return false;
      }
      open := now - last.value < cfg.cooldown;
    }

    /** blocked stands for the raised CircuitOpen. */
    method Guard(verb: string, note: Note, probe: real, write: real) returns (blocked: bool)
      modifies this`log
      ensures blocked <==> Open(cfg, old(log), verb, probe)
      ensures log == GuardLog(cfg, old(log), verb, note, probe, write)
    {
      OpenByRow(cfg, log, verb, probe);
      blocked := IsOpen(verb, probe);
      if blocked {
        var _ := Append(verb, CircuitOpen, note.(error := None), write);
      }
    }

    method RecordOutcome(verb: string, stage: Stage, note: Note, t: Readings) returns (id: Result<nat, string>)
      modifies this`log
      ensures Storable(stage) ==>
                log == OutcomeLog(cfg, old(log), verb, stage, note, t) && id == Ok(|old(log)| + 1)
      ensures !Storable(stage) ==> log == old(log) && id.Err?
    {
      id := Append(verb, stage, note, t.insert);
      if id.Err? {
        return;
      }
      if Counts(stage) {
        FailuresAreRows(log, verb, t.count - cfg.window);
        var n := FailureCount(verb, t.count);
        if n >= cfg.limit {
          OpenByRow(cfg, log, verb, t.check);
          var open := IsOpen(verb, t.check);
          if !open {
            var _ := Append(verb, CircuitOpen, note, t.trip);
          }
        }
      }
    }
  }

  // ---- the same operations, one lock section at a time --------------------------------------

  /** Insert, Count, Check, Trip are record_outcome; Probe, Reject are guard. */
  datatype Pc = Insert | Count | Check | Trip | Probe | Reject | Recorded | Passed | Blocked

  /** reading: the clock value taken before the lock of the next section;
      seen: the clock value of the decision that led to Trip or Reject. */
  datatype Thread = Thread(verb: string, stage: Stage, note: Note, pc: Pc, reading: Option<real>, seen: real)

  function Recording(verb: string, stage: Stage, note: Note): Thread {
    Thread(verb, stage, note, Insert, None, 0.0)
  }

  function Guarding(verb: string, note: Note): Thread {
    Thread(verb, Requested, note, Probe, None, 0.0)
  }

  predicate Ended(th: Thread) { th.pc in {Recorded, Passed, Blocked} }

  /** The row the next lock section appends, if it appends one. */
  function Appended(th: Thread): Option<Row> {
    if th.reading.None? then None
    else match th.pc
      case Insert => if Storable(th.stage) then Some(Row(th.reading.value, th.verb, th.stage, th.note)) else None
      case Trip => Some(Row(th.reading.value, th.verb, CircuitOpen, th.note))
      case Reject => Some(Row(th.reading.value, th.verb, CircuitOpen, th.note.(error := None)))
      case _ => None
  }

  function LogAfter(log: seq<Row>, th: Thread): seq<Row> {
    if Appended(th).Some? then log + [Appended(th).value] else log
  }

  /** Either the clock is read, or the section behind the lock runs with the reading. */
  function Advance(cfg: Config, now: real, log: seq<Row>, th: Thread): Thread {
    if Ended(th) then th
    else if th.reading.None? then th.(reading := Some(now))
    else
      var t := th.reading.value;
      var next := th.(reading := None);
      match th.pc
      case Insert => next.(pc := if Counts(th.stage) then Count else Recorded)
      case Count =>
        if Failures(log, th.verb, t - cfg.window) >= cfg.limit then next.(pc := Check, seen := t)
        else next.(pc := Recorded)
      case Check => next.(pc := if Open(cfg, log, th.verb, t) then Recorded else Trip)
      case Trip => next.(pc := Recorded)
      case Probe => if Open(cfg, log, th.verb, t) then next.(pc := Reject, seen := t) else next.(pc := Passed)
      case Reject => next.(pc := Blocked)
      case _ => th
  }

  /** One thread alone: for each clock value in turn, read it and run the next section. */
  function Solo(cfg: Config, log: seq<Row>, th: Thread, clock: seq<real>): (seq<Row>, Thread)
    decreases |clock|
  {
    if clock == [] then (log, th)
    else
      var read := Advance(cfg, clock[0], log, th);
      Solo(cfg, LogAfter(log, read), Advance(cfg, clock[0], log, read), clock[1..])
  }

  lemma SoloStep(cfg: Config, log: seq<Row>, th: Thread, t: real, rest: seq<real>)
    requires th.reading.None?
    ensures Solo(cfg, log, th, [t] + rest) ==
            if Ended(th) then Solo(cfg, log, th, rest)
            else var read := th.(reading := Some(t));
                 Solo(cfg, LogAfter(log, read), Advance(cfg, t, log, read), rest)
  {
    assert ([t] + rest)[1..] == rest;
  }

  /** Uninterrupted, the lock-section form writes what RecordOutcome writes. */
  lemma SoloRecordsOutcome(cfg: Config, log: seq<Row>, verb: string, stage: Stage, note: Note, t: Readings)
    requires Storable(stage)
    ensures Solo(cfg, log, Recording(verb, stage, note), [t.insert, t.count, t.check, t.trip]).0
            == OutcomeLog(cfg, log, verb, stage, note, t)
    ensures Solo(cfg, log, Recording(verb, stage, note), [t.insert, t.count, t.check, t.trip]).1.pc == Recorded
  {
    var th := Recording(verb, stage, note);
    var c := [t.insert, t.count, t.check, t.trip];
    assert c == [t.insert] + [t.count, t.check, t.trip];
    SoloStep(cfg, log, th, t.insert, [t.count, t.check, t.trip]);
    var th1 := Advance(cfg, t.insert, log, th.(reading := Some(t.insert)));
    var log1 := log + [Row(t.insert, verb, stage, note)];
    SoloTail(cfg, log1, th1, t);
  }

  lemma SoloTail(cfg: Config, log: seq<Row>, th: Thread, t: Readings)
    requires th.reading.None? && th.pc in {Count, Recorded}
    ensures Solo(cfg, log, th, [t.count, t.check, t.trip]).1.pc == Recorded
    ensures Solo(cfg, log, th, [t.count, t.check, t.trip]).0 ==
            if th.pc == Count && Failures(log, th.verb, t.count - cfg.window) >= cfg.limit &&
               !Open(cfg, log, th.verb, t.check)
            then log + [Row(t.trip, th.verb, CircuitOpen, th.note)] else log
  {
    assert [t.count, t.check, t.trip] == [t.count] + [t.check, t.trip];
    SoloStep(cfg, log, th, t.count, [t.check, t.trip]);
    var next := if Ended(th) then th else Advance(cfg, t.count, log, th.(reading := Some(t.count)));
    SoloDecision(cfg, log, next, t.check, t.trip);
  }

  lemma SoloDecision(cfg: Config, log: seq<Row>, th: Thread, check: real, trip: real)
    requires th.reading.None? && th.pc in {Check, Recorded}
    ensures Solo(cfg, log, th, [check, trip]).1.pc == Recorded
    ensures Solo(cfg, log, th, [check, trip]).0 ==
            if th.pc == Check && !Open(cfg, log, th.verb, check)
            then log + [Row(trip, th.verb, CircuitOpen, th.note)] else log
  {
    assert [check, trip] == [check] + [trip];
    SoloStep(cfg, log, th, check, [trip]);
    var next := if Ended(th) then th else Advance(cfg, check, log, th.(reading := Some(check)));
    assert [trip] == [trip] + [];
    SoloStep(cfg, log, next, trip, []);
  }

  /** Uninterrupted, the lock-section form of guard blocks and writes as Guard does. */
  lemma SoloGuards(cfg: Config, log: seq<Row>, verb: string, note: Note, probe: real, write: real)
    ensures var (after, th) := Solo(cfg, log, Guarding(verb, note), [probe, write]);
            after == GuardLog(cfg, log, verb, note, probe, write) &&
            th.pc == if Open(cfg, log, verb, probe) then Blocked else Passed
  {
    var th := Guarding(verb, note);
    assert [probe, write] == [probe] + [write];
    SoloStep(cfg, log, th, probe, [write]);
    var th1 := Advance(cfg, probe, log, th.(reading := Some(probe)));
    assert [write] == [write] + [];
    SoloStep(cfg, log, th1, write, []);
  }

  // ---- cooldown in closed form ----------------------------------------------------------------

  ghost predicate Sorted(log: seq<Row>) {
    forall i, j :: 0 <= i < j < |log| ==> log[i].ts <= log[j].ts
  }

  ghost predicate RecentOpening(cfg: Config, log: seq<Row>, verb: string, at: real) {
    exists i :: 0 <= i < |log| && IsOpening(log[i], verb) && at - log[i].ts < cfg.cooldown
  }

  /** No opening of the verb bears a later time than the one appended last. */
  ghost predicate LastIsLatest(log: seq<Row>, verb: string) {
    LastOpening(log, verb).Some? ==>
      forall i :: 0 <= i < |log| && IsOpening(log[i], verb) ==> log[i].ts <= LastOpening(log, verb).value
  }

  lemma OpenMeansRecent(cfg: Config, log: seq<Row>, verb: string, now: real)
    requires Open(cfg, log, verb, now)
    ensures RecentOpening(cfg, log, verb, now)
  {
    var i := LastOpeningIsARow(log, verb);
  }

  lemma LatestAnswersForAll(cfg: Config, log: seq<Row>, verb: string, now: real)
    requires LastIsLatest(log, verb) && RecentOpening(cfg, log, verb, now)
    ensures Open(cfg, log, verb, now)
  {
    var i :| 0 <= i < |log| && IsOpening(log[i], verb) && now - log[i].ts < cfg.cooldown;
    if LastOpening(log, verb).None? {
      NoOpeningNoRow(log, verb);
    }
  }

  /** The latest-by-id test never sees an opening that is not recent, and it sees every recent one
      at every time exactly if no opening bears a later time than the one appended last. */
  lemma OpenIffRecentOpening(cfg: Config, log: seq<Row>, verb: string)
    ensures forall now :: Open(cfg, log, verb, now) ==> RecentOpening(cfg, log, verb, now)
    ensures (forall now :: Open(cfg, log, verb, now) <==> RecentOpening(cfg, log, verb, now)) <==>
            LastIsLatest(log, verb)
  {
    forall now ensures Open(cfg, log, verb, now) ==> RecentOpening(cfg, log, verb, now) {
      if Open(cfg, log, verb, now) {
        OpenMeansRecent(cfg, log, verb, now);
      }
    }
    if LastIsLatest(log, verb) {
      forall now ensures RecentOpening(cfg, log, verb, now) ==> Open(cfg, log, verb, now) {
        if RecentOpening(cfg, log, verb, now) {
          LatestAnswersForAll(cfg, log, verb, now);
        }
      }
    } else {
      var last := LastOpening(log, verb).value;
      var i :| 0 <= i < |log| && IsOpening(log[i], verb) && log[i].ts > last;
      assert RecentOpening(cfg, log, verb, last + cfg.cooldown);
      assert !Open(cfg, log, verb, last + cfg.cooldown);
    }
  }

  /** One operation of a store that nothing interrupts. */
  datatype Operation =
    | GuardCall(verb: string, note: Note, probe: real, write: real)
    | OutcomeCall(verb: string, stage: Stage, note: Note, t: Readings)

  function Operated(cfg: Config, log: seq<Row>, op: Operation): seq<Row> {
    match op
    case GuardCall(verb, note, probe, write) => GuardLog(cfg, log, verb, note, probe, write)
    case OutcomeCall(verb, stage, note, t) => OutcomeLog(cfg, log, verb, stage, note, t)
  }

  function OperationsRun(cfg: Config, ops: seq<Operation>): seq<Row> {
    if ops == [] then [] else Operated(cfg, OperationsRun(cfg, ops[..|ops| - 1]), ops[|ops| - 1])
  }

  /** The clock values of an operation lie between from and to, in program order. */
  predicate Between(from: real, op: Operation, to: real) {
    match op
    case GuardCall(_, _, probe, write) => from <= probe <= write <= to
    case OutcomeCall(_, _, _, t) => from <= t.insert <= t.count <= t.check <= t.trip <= to
  }

  /** clock[k] is a clock value before operation k and none of the clock values runs back. */
  ghost predicate Monotone(ops: seq<Operation>, clock: seq<real>) {
    |clock| == |ops| + 1 && forall k :: 0 <= k < |ops| ==> Between(clock[k], ops[k], clock[k + 1])
  }

  lemma {:induction false} MonotoneLogIsSorted(cfg: Config, ops: seq<Operation>, clock: seq<real>)
    requires Monotone(ops, clock)
    ensures Sorted(OperationsRun(cfg, ops))
    ensures forall i :: 0 <= i < |OperationsRun(cfg, ops)| ==> OperationsRun(cfg, ops)[i].ts <= clock[|ops|]
  {
    if ops != [] {
      var n := |ops| - 1;
      assert Monotone(ops[..n], clock[..n + 1]);
      MonotoneLogIsSorted(cfg, ops[..n], clock[..n + 1]);
      assert Between(clock[n], ops[n], clock[n + 1]);
    }
  }

  /** Uninterrupted operations under a clock that never runs back: the test is exact. */
  lemma OpenIsExactUninterrupted(cfg: Config, ops: seq<Operation>, clock: seq<real>, verb: string, now: real)
    requires Monotone(ops, clock)
    ensures Open(cfg, OperationsRun(cfg, ops), verb, now) <==> RecentOpening(cfg, OperationsRun(cfg, ops), verb, now)
  {
    var log := OperationsRun(cfg, ops);
    MonotoneLogIsSorted(cfg, ops, clock);
    if LastOpening(log, verb).Some? {
      var i := LastOpeningIsARow(log, verb);
    }
    OpenIffRecentOpening(cfg, log, verb);
  }

  /** One guard call: the reading of is_open and the reading of the rejection row. */
  datatype Call = Call(probe: real, write: real)

  function GuardRun(cfg: Config, log: seq<Row>, verb: string, note: Note, calls: seq<Call>): seq<Row> {
    if calls == [] then log
    else
      var before := GuardRun(cfg, log, verb, note, calls[..|calls| - 1]);
      var c := calls[|calls| - 1];
      GuardLog(cfg, before, verb, note, c.probe, c.write)
  }

  ghost predicate Ordered(start: real, calls: seq<Call>) {
    && (forall k :: 0 <= k < |calls| ==> start <= calls[k].probe <= calls[k].write)
    && (forall j, k :: 0 <= j < k < |calls| ==> calls[j].write <= calls[k].probe)
  }

  /** Call k follows the one before it (or the opening at start) within the cooldown. */
  predicate ShortGap(cfg: Config, start: real, calls: seq<Call>, k: int)
    requires 0 <= k < |calls|
  {
    calls[k].probe - (if k == 0 then start else calls[k - 1].write) < cfg.cooldown
  }

  /** Every gap up to and including call k is short. */
  ghost predicate Chained(cfg: Config, start: real, calls: seq<Call>, k: int)
    requires k < |calls|
  {
    forall j :: 0 <= j <= k ==> ShortGap(cfg, start, calls, j)
  }

  lemma {:induction false} GuardRunState(cfg: Config, log: seq<Row>, verb: string, note: Note, calls: seq<Call>)
    requires LastOpening(log, verb).Some? && Ordered(LastOpening(log, verb).value, calls)
    ensures var start := LastOpening(log, verb).value;
            var last := LastOpening(GuardRun(cfg, log, verb, note, calls), verb);
            var n := |calls|;
            && last.Some? && (n > 0 ==> last.value <= calls[n - 1].write)
            && (Chained(cfg, start, calls, n - 1) ==>
                  last.value == if n == 0 then start else calls[n - 1].write)
            && (!Chained(cfg, start, calls, n - 1) ==> n > 0 && calls[n - 1].probe - last.value >= cfg.cooldown)
  {
    var start := LastOpening(log, verb).value;
    var n := |calls|;
    if n > 0 {
      var init := calls[..n - 1];
      GuardRunState(cfg, log, verb, note, init);
      var before := GuardRun(cfg, log, verb, note, init);
      assert forall j :: 0 <= j < n - 1 ==> ShortGap(cfg, start, init, j) == ShortGap(cfg, start, calls, j);
      assert Chained(cfg, start, calls, n - 1) <==>
             Chained(cfg, start, init, n - 2) && ShortGap(cfg, start, calls, n - 1);
      QueriesAfterAppend(before, Row(calls[n - 1].write, verb, CircuitOpen, note.(error := None)), verb, 0.0);
    }
  }

  /** With no new failures, guard rejects exactly the calls reached through short gaps only:
      each rejection restarts the cooldown, and after the first long gap every call passes. */
  lemma SlidingCooldown(cfg: Config, log: seq<Row>, verb: string, note: Note, calls: seq<Call>, k: nat)
    requires LastOpening(log, verb).Some? && Ordered(LastOpening(log, verb).value, calls)
    requires k < |calls|
    ensures Open(cfg, GuardRun(cfg, log, verb, note, calls[..k]), verb, calls[k].probe)
            <==> Chained(cfg, LastOpening(log, verb).value, calls, k)
  {
    var start := LastOpening(log, verb).value;
    var init := calls[..k];
    GuardRunState(cfg, log, verb, note, init);
    assert forall j :: 0 <= j < k ==> ShortGap(cfg, start, init, j) == ShortGap(cfg, start, calls, j);
    assert Chained(cfg, start, calls, k) <==> Chained(cfg, start, init, k - 1) && ShortGap(cfg, start, calls, k);
  }

  /** A verb that never tripped is never rejected, whatever the clock does. */
  lemma {:induction false} NeverTrippedNeverRejected(cfg: Config, log: seq<Row>, verb: string, note: Note,
                                                     calls: seq<Call>)
    requires LastOpening(log, verb).None?
    ensures GuardRun(cfg, log, verb, note, calls) == log
  {
    if calls != [] {
      NeverTrippedNeverRejected(cfg, log, verb, note, calls[..|calls| - 1]);
    }
  }
}
