/** Any number of threads inside the breaker at once.  A schedule says which thread runs its
    next piece and when the clock moves; every statement is about every schedule. */
module BreakerRaces {
  import opened Common
  import opened Breaker

  /** Where a row came from: Tripped and Rejected keep the verb and the clock value decided on. */
  datatype Origin = Initial | Event | Tripped(verb: string, at: real) | Rejected(at: real)

  datatype State = State(now: real, log: seq<Row>, origin: seq<Origin>, threads: seq<Thread>)

  datatype Action = Tick(d: real) | Move(k: nat)

  function OriginOf(th: Thread): Origin {
    match th.pc
    case Trip => Tripped(th.verb, th.seen)
    case Reject => Rejected(th.seen)
    case _ => Event
  }

  function Step(cfg: Config, s: State, a: Action): State {
    match a
    case Tick(d) => if d >= 0.0 then s.(now := s.now + d) else s
    case Move(k) =>
      if k >= |s.threads| then s
      else
        var th := s.threads[k];
        s.(log := LogAfter(s.log, th),
           origin := if Appended(th).Some? then s.origin + [OriginOf(th)] else s.origin,
           threads := s.threads[k := Advance(cfg, s.now, s.log, th)])
  }

  function Run(cfg: Config, s: State, acts: seq<Action>): State {
    if acts == [] then s else Step(cfg, Run(cfg, s, acts[..|acts| - 1]), acts[|acts| - 1])
  }

  /** Callers that have not begun; the audit layer never records circuit_open itself. */
  predicate Fresh(th: Thread) {
    th.reading.None? && (th.pc == Probe || (th.pc == Insert && th.stage != CircuitOpen))
  }

  predicate Start(s: State) {
    |s.origin| == |s.log| && forall k :: 0 <= k < |s.threads| ==> Fresh(s.threads[k])
  }

  // ---- no false trip ------------------------------------------------------------------------

  /** What row i, if it is a circuit_open row, rests on. */
  ghost predicate Justified(cfg: Config, s: State, i: nat)
    requires i < |s.log| == |s.origin|
  {
    s.log[i].stage == CircuitOpen ==>
      match s.origin[i]
      case Tripped(verb, at) =>
        verb == s.log[i].verb && at <= s.log[i].ts &&
        Failures(s.log[..i], verb, at - cfg.window) >= cfg.limit
      case Rejected(at) => at <= s.log[i].ts && RecentOpening(cfg, s.log[..i], s.log[i].verb, at)
      case _ => false
  }

  ghost predicate ThreadGrounded(cfg: Config, s: State, th: Thread) {
    && (th.reading.Some? ==> th.reading.value <= s.now)
    && (th.pc == Insert ==> th.stage != CircuitOpen)
    && (th.pc in {Check, Trip, Reject} ==>
          th.seen <= s.now && (th.reading.Some? ==> th.seen <= th.reading.value))
    && (th.pc in {Check, Trip} ==> Failures(s.log, th.verb, th.seen - cfg.window) >= cfg.limit)
    && (th.pc == Reject ==> RecentOpening(cfg, s.log, th.verb, th.seen))
  }

  ghost predicate Grounded(cfg: Config, s: State) {
    && |s.origin| == |s.log|
    && (forall i: nat :: i < |s.log| ==> Justified(cfg, s, i))
    && (forall k :: 0 <= k < |s.threads| ==> ThreadGrounded(cfg, s, s.threads[k]))
  }

  lemma RecentOpeningGrows(cfg: Config, log: seq<Row>, r: Row, verb: string, at: real)
    requires RecentOpening(cfg, log, verb, at)
    ensures RecentOpening(cfg, log + [r], verb, at)
  {
    var j :| 0 <= j < |log| && IsOpening(log[j], verb) && at - log[j].ts < cfg.cooldown;
    assert (log + [r])[j] == log[j];
  }

  lemma OthersStayGrounded(cfg: Config, s: State, t: State, th: Thread)
    requires ThreadGrounded(cfg, s, th)
    requires t.now == s.now
    requires t.log == s.log || exists r :: t.log == s.log + [r]
    ensures ThreadGrounded(cfg, t, th)
  {
    if t.log != s.log {
      var r :| t.log == s.log + [r];
      QueriesAfterAppend(s.log, r, th.verb, th.seen - cfg.window);
      if th.pc == Reject {
        RecentOpeningGrows(cfg, s.log, r, th.verb, th.seen);
      }
    }
  }

  lemma MoverStaysGrounded(cfg: Config, s: State, k: nat)
    requires Grounded(cfg, s) && k < |s.threads|
    ensures ThreadGrounded(cfg, Step(cfg, s, Move(k)), Advance(cfg, s.now, s.log, s.threads[k]))
  {
    var th := s.threads[k];
    if th.reading.Some? {
      if th.pc == Probe && Open(cfg, s.log, th.verb, th.reading.value) {
        OpenMeansRecent(cfg, s.log, th.verb, th.reading.value);
      }
    }
  }

  lemma RowsStayJustified(cfg: Config, s: State, k: nat, i: nat)
    requires Grounded(cfg, s) && k < |s.threads|
    requires i < |Step(cfg, s, Move(k)).log|
    ensures |Step(cfg, s, Move(k)).log| == |Step(cfg, s, Move(k)).origin|
    ensures Justified(cfg, Step(cfg, s, Move(k)), i)
  {
    var t := Step(cfg, s, Move(k));
    if i < |s.log| {
      assert Justified(cfg, s, i);
      assert t.log[..i] == s.log[..i] && t.log[i] == s.log[i] && t.origin[i] == s.origin[i];
    } else {
      assert ThreadGrounded(cfg, s, s.threads[k]);
      assert t.log[..i] == s.log;
    }
  }

  lemma StepGrounded(cfg: Config, s: State, a: Action)
    requires Grounded(cfg, s)
    ensures Grounded(cfg, Step(cfg, s, a))
  {
    var t := Step(cfg, s, a);
    match a
    case Tick(d) =>
      forall i: nat | i < |t.log| ensures Justified(cfg, t, i) {
        assert Justified(cfg, s, i);
      }
      forall k | 0 <= k < |t.threads| ensures ThreadGrounded(cfg, t, t.threads[k]) {
        assert ThreadGrounded(cfg, s, s.threads[k]);
      }
    case Move(k) =>
      if k < |s.threads| {
        forall i: nat | i < |t.log| ensures Justified(cfg, t, i) {
          RowsStayJustified(cfg, s, k, i);
        }
        forall j | 0 <= j < |t.threads| ensures ThreadGrounded(cfg, t, t.threads[j]) {
          if j == k {
            MoverStaysGrounded(cfg, s, k);
          } else {
            assert ThreadGrounded(cfg, s, s.threads[j]);
            OthersStayGrounded(cfg, s, t, s.threads[j]);
          }
        }
      }
  }

  lemma {:induction false} RunGrounded(cfg: Config, s: State, acts: seq<Action>)
    requires Grounded(cfg, s)
    ensures Grounded(cfg, Run(cfg, s, acts))
  {
    if acts != [] {
      RunGrounded(cfg, s, acts[..|acts| - 1]);
      StepGrounded(cfg, Run(cfg, s, acts[..|acts| - 1]), acts[|acts| - 1]);
    }
  }

  /** From an empty log, under every interleaving: each circuit_open row is a trip on at least
      `limit` failures inside the window that ends at the clock value read for the count, or a
      rejection within the cooldown of an earlier circuit_open row of the same verb. */
  lemma NoFalseTrip(cfg: Config, s: State, acts: seq<Action>, i: nat)
    requires Start(s) && s.log == [] && i < |Run(cfg, s, acts).log|
    ensures |Run(cfg, s, acts).log| == |Run(cfg, s, acts).origin|
    ensures Justified(cfg, Run(cfg, s, acts), i)
  {
    RunGrounded(cfg, s, acts);
  }

  /** hops leads from a row over ever earlier openings, each recent to the next, to a trip. */
  ghost predicate LeadsToTrip(cfg: Config, s: State, hops: seq<nat>) {
    && |s.origin| == |s.log| && |hops| > 0
    && (forall n :: 0 <= n < |hops| ==> hops[n] < |s.log|)
    && (forall n :: 0 <= n < |hops| ==> IsOpening(s.log[hops[n]], s.log[hops[0]].verb))
    && (forall n :: 0 <= n < |hops| - 1 ==>
          hops[n + 1] < hops[n] && s.origin[hops[n]].Rejected? &&
          s.origin[hops[n]].at - s.log[hops[n + 1]].ts < cfg.cooldown)
    && s.origin[hops[|hops| - 1]].Tripped?
  }

  /** The opening that a rejection rests on. */
  lemma OpeningBefore(cfg: Config, s: State, i: nat) returns (j: nat)
    requires i < |s.log| == |s.origin| && Justified(cfg, s, i) && s.log[i].stage == CircuitOpen && s.origin[i].Rejected?
    ensures j < i && IsOpening(s.log[j], s.log[i].verb) && s.origin[i].at - s.log[j].ts < cfg.cooldown
  {
    var log, verb, at := s.log[..i], s.log[i].verb, s.origin[i].at;
    assert RecentOpening(cfg, log, verb, at);
    j :| 0 <= j < |log| && IsOpening(log[j], verb) && at - log[j].ts < cfg.cooldown;
  }

  lemma {:induction false} ChainsToTrip(cfg: Config, s: State, i: nat) returns (hops: seq<nat>)
    requires Grounded(cfg, s) && i < |s.log| && s.log[i].stage == CircuitOpen
    ensures LeadsToTrip(cfg, s, hops) && hops[0] == i
    decreases i
  {
    assert Justified(cfg, s, i);
    if s.origin[i].Tripped? {
      hops := [i];
    } else {
      var j := OpeningBefore(cfg, s, i);
      var rest := ChainsToTrip(cfg, s, j);
      hops := [i] + rest;
    }
  }

  lemma EveryOpeningChainsToATrip(cfg: Config, s: State, acts: seq<Action>, i: nat)
    requires Start(s) && s.log == []
    requires i < |Run(cfg, s, acts).log| && Run(cfg, s, acts).log[i].stage == CircuitOpen
    ensures exists hops :: LeadsToTrip(cfg, Run(cfg, s, acts), hops) && hops[0] == i
  {
    RunGrounded(cfg, s, acts);
    var hops := ChainsToTrip(cfg, Run(cfg, s, acts), i);
  }

  // ---- a recent opening missed ------------------------------------------------------------------

  lemma Extend(cfg: Config, s: State, acts: seq<Action>, a: Action)
    ensures Run(cfg, s, acts + [a]) == Step(cfg, Run(cfg, s, acts), a)
  {
    assert (acts + [a])[..|acts|] == acts;
  }

  lemma {:induction false} RunOn(cfg: Config, s: State, a: seq<Action>, b: seq<Action>)
    ensures Run(cfg, s, a + b) == Run(cfg, Run(cfg, s, a), b)
  {
    if b == [] {
      assert a + b == a;
    } else {
      RunOn(cfg, s, a, b[..|b| - 1]);
      assert (a + b)[..|a + b| - 1] == a + b[..|b| - 1];
    }
  }

  /** Thread k reads the clock and runs its next section. */
  lemma Section(cfg: Config, s: State, k: nat)
    requires k < |s.threads| && s.threads[k].reading.None? && !Ended(s.threads[k])
    ensures var read := s.threads[k].(reading := Some(s.now));
            Step(cfg, Step(cfg, s, Move(k)), Move(k)) ==
            State(s.now, LogAfter(s.log, read),
                  if Appended(read).Some? then s.origin + [OriginOf(read)] else s.origin,
                  s.threads[k := Advance(cfg, s.now, s.log, read)])
  {
    var read := s.threads[k].(reading := Some(s.now));
    assert Step(cfg, s, Move(k)) == s.(threads := s.threads[k := read]);
    var next := Advance(cfg, s.now, s.log, read);
    assert s.threads[k := read][k := next] == s.threads[k := next];
  }

  /** The same as a run. */
  lemma SectionRun(cfg: Config, s: State, k: nat) returns (acts: seq<Action>)
    requires k < |s.threads| && s.threads[k].reading.None? && !Ended(s.threads[k])
    ensures var read := s.threads[k].(reading := Some(s.now));
            Run(cfg, s, acts) ==
            State(s.now, LogAfter(s.log, read),
                  if Appended(read).Some? then s.origin + [OriginOf(read)] else s.origin,
                  s.threads[k := Advance(cfg, s.now, s.log, read)])
  {
    Section(cfg, s, k);
    assert Run(cfg, s, []) == s;
    Extend(cfg, s, [], Move(k));
    Extend(cfg, s, [] + [Move(k)], Move(k));
    acts := [] + [Move(k)] + [Move(k)];
  }

  /** The verb's opening with the later reading is appended first, the one with the earlier
      reading last. */
  lemma StaleTripAppendedLast(cfg: Config, s: State, late: nat, stale: nat, d: real) returns (acts: seq<Action>)
    requires late < |s.threads| && stale < |s.threads| && late != stale && d >= 0.0
    requires s.threads[late].pc == s.threads[stale].pc == Trip && s.threads[late].verb == s.threads[stale].verb
    requires s.threads[late].reading.None? && s.threads[stale].reading.Some?
    ensures var t := Run(cfg, s, acts);
            var x, y := s.threads[late], s.threads[stale];
            t.now == s.now + d &&
            t.log == s.log + [Row(s.now + d, x.verb, CircuitOpen, x.note)] +
                     [Row(y.reading.value, y.verb, CircuitOpen, y.note)]
  {
    var s1 := Step(cfg, s, Tick(d));
    assert Run(cfg, s, []) == s;
    Extend(cfg, s, [], Tick(d));
    var trip := SectionRun(cfg, s1, late);
    RunOn(cfg, s, [] + [Tick(d)], trip);
    Extend(cfg, s, [] + [Tick(d)] + trip, Move(stale));
    acts := [] + [Tick(d)] + trip + [Move(stale)];
  }

  /** Two threads about to trip one verb, one of which has read its clock: if the other trips
      first and the cooldown has passed meanwhile, the test misses the opening just logged. */
  lemma StaleTripHidesAnOpening(cfg: Config, s: State, late: nat, stale: nat)
    requires late < |s.threads| && stale < |s.threads| && late != stale && cfg.cooldown > 0.0
    requires s.threads[late].pc == s.threads[stale].pc == Trip && s.threads[late].verb == s.threads[stale].verb
    requires s.threads[late].reading.None? && s.threads[stale].reading.Some?
    requires s.threads[stale].reading.value <= s.now
    ensures exists acts :: var t := Run(cfg, s, acts);
              !Open(cfg, t.log, s.threads[late].verb, t.now) && RecentOpening(cfg, t.log, s.threads[late].verb, t.now)
  {
    var verb := s.threads[late].verb;
    var acts := StaleTripAppendedLast(cfg, s, late, stale, cfg.cooldown);
    var t := Run(cfg, s, acts);
    var newest := Row(t.now, verb, CircuitOpen, s.threads[late].note);
    var earlier := Row(s.threads[stale].reading.value, verb, CircuitOpen, s.threads[stale].note);
    QueriesAfterAppend(s.log + [newest], earlier, verb, 0.0);
    assert t.log[|s.log|] == newest;
    assert !Open(cfg, t.log, verb, t.now);
  }

  /** n threads recording a failure, of which the first m have inserted their row. */
  function Crew(verb: string, note: Note, n: nat, m: nat): (crew: seq<Thread>)
    ensures |crew| == n
    ensures forall i :: 0 <= i < n ==>
              crew[i] == Recording(verb, Failed, note).(pc := if i < m then Count else Insert)
  {
    seq(n, i => Recording(verb, Failed, note).(pc := if i < m then Count else Insert))
  }

  function FailureRows(verb: string, note: Note, m: nat): seq<Row> {
    if m == 0 then [] else FailureRows(verb, note, m - 1) + [Row(0.0, verb, Failed, note)]
  }

  lemma {:induction false} FailureRowsCount(verb: string, note: Note, m: nat, since: real)
    requires since <= 0.0
    ensures Failures(FailureRows(verb, note, m), verb, since) == m
    ensures LastOpening(FailureRows(verb, note, m), verb).None?
  {
    if m > 0 {
      FailureRowsCount(verb, note, m - 1, since);
      QueriesAfterAppend(FailureRows(verb, note, m - 1), Row(0.0, verb, Failed, note), verb, since);
    }
  }

  lemma {:induction false} CrewInserts(cfg: Config, verb: string, note: Note, n: nat, m: nat)
    returns (acts: seq<Action>)
    requires m <= n
    ensures var t := Run(cfg, State(0.0, [], [], Crew(verb, note, n, 0)), acts);
            t.now == 0.0 && t.log == FailureRows(verb, note, m) && t.threads == Crew(verb, note, n, m)
  {
    var s0 := State(0.0, [], [], Crew(verb, note, n, 0));
    if m == 0 {
      acts := [];
    } else {
      acts := CrewInserts(cfg, verb, note, n, m - 1);
      var t := Run(cfg, s0, acts);
      var next := SectionRun(cfg, t, m - 1);
      var th := Recording(verb, Failed, note);
      assert t.threads[m - 1 := th.(pc := Count)] == Crew(verb, note, n, m);
      RunOn(cfg, s0, acts, next);
      acts := acts + next;
    }
  }

  /** With enough failures in the window and the breaker closed, a counting thread gets to its trip. */
  lemma CounterGetsToTrip(cfg: Config, s: State, k: nat) returns (acts: seq<Action>)
    requires k < |s.threads| && s.threads[k].pc == Count && s.threads[k].reading.None?
    requires Failures(s.log, s.threads[k].verb, s.now - cfg.window) >= cfg.limit
    requires !Open(cfg, s.log, s.threads[k].verb, s.now)
    ensures Run(cfg, s, acts) == s.(threads := s.threads[k := s.threads[k].(pc := Trip, seen := s.now)])
  {
    var th := s.threads[k];
    var count := SectionRun(cfg, s, k);
    var s1 := s.(threads := s.threads[k := th.(pc := Check, seen := s.now)]);
    assert Run(cfg, s, count) == s1;
    var check := SectionRun(cfg, s1, k);
    assert s1.threads[k := th.(pc := Trip, seen := s.now)] == s.threads[k := th.(pc := Trip, seen := s.now)];
    RunOn(cfg, s, count, check);
    acts := count + check;
  }

  /** From an empty log, whatever the limit: two threads of the crew at their trip, the second
      with its clock already read. */
  lemma TwoAtTrip(cfg: Config, verb: string, note: Note, n: nat) returns (acts: seq<Action>)
    requires n >= 2 && n >= cfg.limit && cfg.window >= 0.0
    ensures var t := Run(cfg, State(0.0, [], [], Crew(verb, note, n, 0)), acts);
            && t.now == 0.0 && |t.threads| == n
            && t.threads[0].verb == t.threads[1].verb == verb && t.threads[0].pc == t.threads[1].pc == Trip
            && t.threads[0].reading.None? && t.threads[1].reading == Some(0.0)
  {
    var s0 := State(0.0, [], [], Crew(verb, note, n, 0));
    var a := CrewInserts(cfg, verb, note, n, n);
    var s1 := Run(cfg, s0, a);
    FailureRowsCount(verb, note, n, s1.now - cfg.window);
    var b := CounterGetsToTrip(cfg, s1, 0);
    RunOn(cfg, s0, a, b);
    var s2 := Run(cfg, s0, a + b);
    var d := CounterGetsToTrip(cfg, s2, 1);
    RunOn(cfg, s0, a + b, d);
    Extend(cfg, s0, a + b + d, Move(1));
    acts := a + b + d + [Move(1)];
  }

  /** So, with the clock read outside the lock, the test does not see every recent opening: for
      every configuration some callers, from an empty log, make it say closed at the very moment
      an opening is logged. */
  lemma RacingTripsHideAnOpening(cfg: Config, verb: string, note: Note)
    requires cfg.cooldown > 0.0 && cfg.window >= 0.0
    ensures exists s0: State, acts :: Start(s0) && s0.log == [] &&
              var t := Run(cfg, s0, acts);
              !Open(cfg, t.log, verb, t.now) && RecentOpening(cfg, t.log, verb, t.now) && !LastIsLatest(t.log, verb)
  {
    var n := cfg.limit + 2;
    var s0 := State(0.0, [], [], Crew(verb, note, n, 0));
    var a := TwoAtTrip(cfg, verb, note, n);
    var s := Run(cfg, s0, a);
    StaleTripHidesAnOpening(cfg, s, 0, 1);
    var b :| var t := Run(cfg, s, b); !Open(cfg, t.log, verb, t.now) && RecentOpening(cfg, t.log, verb, t.now);
    RunOn(cfg, s0, a, b);
    var t := Run(cfg, s0, a + b);
    OpenIffRecentOpening(cfg, t.log, verb);
    assert !LastIsLatest(t.log, verb) by {
      if LastIsLatest(t.log, verb) {
        LatestAnswersForAll(cfg, t.log, verb, t.now);
      }
    }
    assert Start(s0);
  }

  // ---- no lost trip ---------------------------------------------------------------------------

  predicate IsFailing(verb: string, th: Thread) {
    th.verb == verb && Counts(th.stage) && th.pc in {Insert, Count, Check, Trip, Recorded}
  }

  function Failing(verb: string): Thread -> bool { (th: Thread) => IsFailing(verb, th) }

  function HasInserted(verb: string): Thread -> bool { (th: Thread) => IsFailing(verb, th) && th.pc != Insert }

  function Unfinished(verb: string): Thread -> bool { (th: Thread) => IsFailing(verb, th) && th.pc != Recorded }

  function TripOf(verb: string): Origin -> bool { (o: Origin) => o.Tripped? && o.verb == verb }

  predicate Deciding(verb: string, th: Thread) {
    IsFailing(verb, th) && th.pc in {Count, Check, Trip}
  }

  ghost function Trips(s: State, verb: string): nat { CountIf(s.origin, TripOf(verb)) }

  /** Until the first new trip the breaker looks closed to everyone, and either too few
      failures are in the log or some failing thread has yet to decide. */
  ghost predicate Undecided(cfg: Config, s0: State, s: State, verb: string) {
    && LastOpening(s.log, verb) == LastOpening(s0.log, verb)
    && (forall k :: 0 <= k < |s.threads| && s.threads[k].verb == verb ==> s.threads[k].pc != Reject)
    && (CountIf(s.threads, HasInserted(verb)) < cfg.limit
        || exists k :: 0 <= k < |s.threads| && Deciding(verb, s.threads[k]))
  }

  ghost predicate ThreadInv(s0: State, s: State, verb: string, th: Thread, was: Thread) {
    && (th.reading.Some? ==> s0.now <= th.reading.value <= s.now)
    && (th.pc == Insert ==> th.stage != CircuitOpen)
    && (th.pc in {Count, Check, Trip} ==> Counts(th.stage))
    && IsFailing(verb, th) == IsFailing(verb, was)
  }

  ghost predicate TripInv(cfg: Config, s0: State, s: State, verb: string) {
    && s0.now <= s.now && s.now - s0.now <= cfg.window
    && |s.threads| == |s0.threads|
    && (forall k :: 0 <= k < |s.threads| ==> ThreadInv(s0, s, verb, s.threads[k], s0.threads[k]))
    && Failures(s.log, verb, s0.now) >= CountIf(s.threads, HasInserted(verb))
    && Trips(s, verb) + CountIf(s.threads, Unfinished(verb)) <= Trips(s0, verb) + CountIf(s0.threads, Failing(verb))
    && Trips(s, verb) >= Trips(s0, verb)
    && (Trips(s, verb) == Trips(s0, verb) ==> Undecided(cfg, s0, s, verb))
  }

  lemma StillClosed(cfg: Config, s0: State, s: State, verb: string, t: real)
    requires !Open(cfg, s0.log, verb, s0.now) && s0.now <= t
    requires LastOpening(s.log, verb) == LastOpening(s0.log, verb)
    ensures !Open(cfg, s.log, verb, t)
  {}

  /** Flags of a thread before and after its next piece. */
  lemma AdvanceFlags(cfg: Config, now: real, log: seq<Row>, th: Thread, verb: string)
    requires th.pc in {Count, Check, Trip} ==> Counts(th.stage)
    ensures var next := Advance(cfg, now, log, th);
            && IsFailing(verb, next) == IsFailing(verb, th)
            && (IsFailing(verb, th) && th.pc == Insert && next.pc != Insert ==> th.reading.Some?)
            && (next.pc == Insert ==> th.pc == Insert)
            && (next.pc == Trip && th.pc == Trip ==> th.reading.None?)
            && (th.pc == Trip && th.reading.Some? ==> next.pc == Recorded)
            && (th.pc == Recorded ==> next.pc == Recorded)
  {}

  /** A failing thread that goes on from Insert has put its failure into the log. */
  lemma InsertIsLogged(cfg: Config, now: real, log: seq<Row>, th: Thread, verb: string, since: real)
    requires th.reading.Some? ==> since <= th.reading.value
    ensures Failures(LogAfter(log, th), verb, since) >= Failures(log, verb, since)
    ensures IsFailing(verb, th) && th.pc == Insert && Advance(cfg, now, log, th).pc != Insert ==>
              Failures(LogAfter(log, th), verb, since) == Failures(log, verb, since) + 1
  {
    if Appended(th).Some? {
      QueriesAfterAppend(log, Appended(th).value, verb, since);
    }
  }

  lemma MoveFailures(cfg: Config, s0: State, s: State, verb: string, k: nat)
    requires TripInv(cfg, s0, s, verb) && k < |s.threads|
    ensures Failures(Step(cfg, s, Move(k)).log, verb, s0.now)
            >= CountIf(Step(cfg, s, Move(k)).threads, HasInserted(verb))
  {
    var th := s.threads[k];
    var next := Advance(cfg, s.now, s.log, th);
    assert ThreadInv(s0, s, verb, th, s0.threads[k]);
    AdvanceFlags(cfg, s.now, s.log, th, verb);
    InsertIsLogged(cfg, s.now, s.log, th, verb, s0.now);
    CountIfUpdate(s.threads, k, next, HasInserted(verb));
  }

  /** A trip uses up the unfinished thread that makes it. */
  lemma MoveTrips(cfg: Config, s: State, verb: string, k: nat)
    requires k < |s.threads| && (s.threads[k].pc in {Count, Check, Trip} ==> Counts(s.threads[k].stage))
    ensures var t := Step(cfg, s, Move(k));
            && Trips(t, verb) + CountIf(t.threads, Unfinished(verb)) <=
               Trips(s, verb) + CountIf(s.threads, Unfinished(verb))
            && Trips(s, verb) <= Trips(t, verb)
            && (Trips(t, verb) == Trips(s, verb) && Appended(s.threads[k]).Some? && s.threads[k].verb == verb ==>
                  s.threads[k].pc != Trip)
  {
    var th := s.threads[k];
    var next := Advance(cfg, s.now, s.log, th);
    AdvanceFlags(cfg, s.now, s.log, th, verb);
    CountIfUpdate(s.threads, k, next, Unfinished(verb));
    if Appended(th).Some? {
      CountIfAppend(s.origin, OriginOf(th), TripOf(verb));
    }
  }

  /** A thread that counts behind the lock sees every failure inserted in this window, and so
      goes on to decide unless too few have been. */
  lemma CounterDecides(cfg: Config, s0: State, s: State, verb: string, k: nat)
    requires TripInv(cfg, s0, s, verb) && k < |s.threads| && s.threads[k].pc == Count
    requires IsFailing(verb, s.threads[k]) && s.threads[k].reading.Some?
    ensures CountIf(s.threads, HasInserted(verb)) < cfg.limit || Advance(cfg, s.now, s.log, s.threads[k]).pc == Check
  {
    var t := s.threads[k].reading.value;
    assert ThreadInv(s0, s, verb, s.threads[k], s0.threads[k]);
    FailuresAntitone(s.log, verb, t - cfg.window, s0.now);
  }

  lemma MoverUndecided(cfg: Config, s0: State, s: State, verb: string, k: nat)
    requires TripInv(cfg, s0, s, verb) && k < |s.threads| && IsFailing(verb, s.threads[k])
    requires !Open(cfg, s0.log, verb, s0.now)
    requires Trips(Step(cfg, s, Move(k)), verb) == Trips(s, verb) == Trips(s0, verb)
    ensures var th := Advance(cfg, s.now, s.log, s.threads[k]);
            Deciding(verb, th) || (CountIf(s.threads, HasInserted(verb)) < cfg.limit && s.threads[k].pc != Insert)
            || th.pc == s.threads[k].pc
  {
    var th := s.threads[k];
    assert ThreadInv(s0, s, verb, th, s0.threads[k]);
    MoveTrips(cfg, s, verb, k);
    if th.reading.Some? {
      StillClosed(cfg, s0, s, verb, th.reading.value);
      if th.pc == Count {
        CounterDecides(cfg, s0, s, verb, k);
      }
    }
  }

  lemma MoveUndecided(cfg: Config, s0: State, s: State, verb: string, k: nat)
    requires TripInv(cfg, s0, s, verb) && k < |s.threads|
    requires !Open(cfg, s0.log, verb, s0.now)
    requires Trips(Step(cfg, s, Move(k)), verb) == Trips(s, verb) == Trips(s0, verb)
    ensures CountIf(Step(cfg, s, Move(k)).threads, HasInserted(verb)) < cfg.limit
            || exists j :: 0 <= j < |s.threads| && Deciding(verb, Step(cfg, s, Move(k)).threads[j])
  {
    var t := Step(cfg, s, Move(k));
    var th := s.threads[k];
    var th' := t.threads[k];
    assert ThreadInv(s0, s, verb, th, s0.threads[k]);
    CountIfUpdate(s.threads, k, th', HasInserted(verb));
    if IsFailing(verb, th) {
      MoverUndecided(cfg, s0, s, verb, k);
    }
    if !Deciding(verb, th') && CountIf(s.threads, HasInserted(verb)) >= cfg.limit {
      var j :| 0 <= j < |s.threads| && Deciding(verb, s.threads[j]);
      assert Deciding(verb, t.threads[j]);
    }
  }

  /** While nobody trips, no row that opens the breaker is appended. */
  lemma MoveOpensNothing(cfg: Config, s0: State, s: State, verb: string, k: nat)
    requires TripInv(cfg, s0, s, verb) && k < |s.threads|
    requires Trips(Step(cfg, s, Move(k)), verb) == Trips(s, verb) == Trips(s0, verb)
    ensures LastOpening(Step(cfg, s, Move(k)).log, verb) == LastOpening(s0.log, verb)
  {
    var th := s.threads[k];
    assert ThreadInv(s0, s, verb, th, s0.threads[k]);
    MoveTrips(cfg, s, verb, k);
    if Appended(th).Some? {
      QueriesAfterAppend(s.log, Appended(th).value, verb, s0.now);
    }
  }

  lemma MoveRejectsNobody(cfg: Config, s0: State, s: State, verb: string, k: nat)
    requires TripInv(cfg, s0, s, verb) && k < |s.threads| && s.threads[k].verb == verb
    requires !Open(cfg, s0.log, verb, s0.now) && Trips(s, verb) == Trips(s0, verb)
    ensures Advance(cfg, s.now, s.log, s.threads[k]).pc != Reject
  {
    var th := s.threads[k];
    assert ThreadInv(s0, s, verb, th, s0.threads[k]);
    if th.reading.Some? {
      StillClosed(cfg, s0, s, verb, th.reading.value);
    }
  }

  lemma MoveLooksClosed(cfg: Config, s0: State, s: State, verb: string, k: nat)
    requires TripInv(cfg, s0, s, verb) && k < |s.threads|
    requires !Open(cfg, s0.log, verb, s0.now)
    requires Trips(Step(cfg, s, Move(k)), verb) == Trips(s, verb) == Trips(s0, verb)
    ensures var t := Step(cfg, s, Move(k));
            && LastOpening(t.log, verb) == LastOpening(s0.log, verb)
            && (t.threads[k].verb == verb ==> t.threads[k].pc != Reject)
  {
    MoveOpensNothing(cfg, s0, s, verb, k);
    MoveKeepsVerb(cfg, s.now, s.log, s.threads[k]);
    if s.threads[k].verb == verb {
      MoveRejectsNobody(cfg, s0, s, verb, k);
    }
  }

  lemma MoveThreads(cfg: Config, s0: State, s: State, verb: string, k: nat)
    requires TripInv(cfg, s0, s, verb) && k < |s.threads|
    ensures var t := Step(cfg, s, Move(k));
            forall j :: 0 <= j < |t.threads| ==> ThreadInv(s0, t, verb, t.threads[j], s0.threads[j])
  {
    var t := Step(cfg, s, Move(k));
    forall j | 0 <= j < |t.threads| ensures ThreadInv(s0, t, verb, t.threads[j], s0.threads[j]) {
      assert ThreadInv(s0, s, verb, s.threads[j], s0.threads[j]);
    }
  }

  lemma StepTripInv(cfg: Config, s0: State, s: State, verb: string, a: Action)
    requires TripInv(cfg, s0, s, verb) && !Open(cfg, s0.log, verb, s0.now)
    requires Step(cfg, s, a).now - s0.now <= cfg.window
    ensures TripInv(cfg, s0, Step(cfg, s, a), verb)
  {
    var t := Step(cfg, s, a);
    match a
    case Tick(d) =>
      forall j | 0 <= j < |t.threads| ensures ThreadInv(s0, t, verb, t.threads[j], s0.threads[j]) {
        assert ThreadInv(s0, s, verb, s.threads[j], s0.threads[j]);
      }
    case Move(k) =>
      if k < |s.threads| {
        MoveThreads(cfg, s0, s, verb, k);
        MoveFailures(cfg, s0, s, verb, k);
        assert ThreadInv(s0, s, verb, s.threads[k], s0.threads[k]);
        MoveTrips(cfg, s, verb, k);
        if Trips(t, verb) == Trips(s0, verb) {
          MoveUndecided(cfg, s0, s, verb, k);
          MoveLooksClosed(cfg, s0, s, verb, k);
        }
      }
  }

  lemma {:induction false} RunTripInv(cfg: Config, s0: State, verb: string, acts: seq<Action>)
    requires Start(s0) && !Open(cfg, s0.log, verb, s0.now) && cfg.limit > 0
    requires Run(cfg, s0, acts).now - s0.now <= cfg.window
    ensures TripInv(cfg, s0, Run(cfg, s0, acts), verb)
  {
    if acts == [] {
      CountIfWitness(s0.threads, HasInserted(verb));
      CountIfMono(s0.threads, Unfinished(verb), Failing(verb));
    } else {
      var init := acts[..|acts| - 1];
      assert Run(cfg, s0, init).now <= Run(cfg, s0, acts).now;
      RunTripInv(cfg, s0, verb, init);
      StepTripInv(cfg, s0, Run(cfg, s0, init), verb, acts[|acts| - 1]);
    }
  }

  /** Let at least `limit` threads record a failed or timed-out outcome of one verb inside one
      window, starting closed, in any interleaving with each other and with any other callers.
      Once those threads are done, the verb has tripped at least once and at most once each. */
  lemma NoLostTrip(cfg: Config, s0: State, verb: string, acts: seq<Action>)
    requires Start(s0) && !Open(cfg, s0.log, verb, s0.now) && cfg.limit > 0
    requires CountIf(s0.threads, Failing(verb)) >= cfg.limit
    requires Run(cfg, s0, acts).now - s0.now <= cfg.window
    requires forall k :: 0 <= k < |s0.threads| && IsFailing(verb, s0.threads[k]) ==>
                           k < |Run(cfg, s0, acts).threads| && Run(cfg, s0, acts).threads[k].pc == Recorded
    ensures 1 <= Trips(Run(cfg, s0, acts), verb) - Trips(s0, verb) <= CountIf(s0.threads, Failing(verb))
  {
    RunTripInv(cfg, s0, verb, acts);
    var s := Run(cfg, s0, acts);
    if Trips(s, verb) == Trips(s0, verb) {
      assert forall k :: 0 <= k < |s.threads| ==> ThreadInv(s0, s, verb, s.threads[k], s0.threads[k]);
      AllInserted(s0.threads, s.threads, verb);
    }
  }

  lemma {:induction false} AllInserted(before: seq<Thread>, after: seq<Thread>, verb: string)
    requires |before| == |after|
    requires forall k :: 0 <= k < |before| && IsFailing(verb, before[k]) ==>
               IsFailing(verb, after[k]) && after[k].pc != Insert
    ensures CountIf(after, HasInserted(verb)) >= CountIf(before, Failing(verb))
  {
    if before != [] {
      var n := |before| - 1;
      assert forall k :: 0 <= k < n ==> before[..n][k] == before[k] && after[..n][k] == after[k];
      AllInserted(before[..n], after[..n], verb);
    }
  }

  // ---- each verb on its own -----------------------------------------------------------------------

  function RowsOf(log: seq<Row>, verb: string): seq<Row> {
    if log == [] then []
    else RowsOf(log[..|log| - 1], verb) + if log[|log| - 1].verb == verb then [log[|log| - 1]] else []
  }

  /** The schedule with the moves of other verbs' threads left out, times kept. */
  function MovesOf(acts: seq<Action>, threads: seq<Thread>, verb: string): seq<Action> {
    if acts == [] then []
    else
      var a := acts[|acts| - 1];
      MovesOf(acts[..|acts| - 1], threads, verb) +
      if a.Move? && a.k < |threads| && threads[a.k].verb != verb then [] else [a]
  }

  lemma {:induction false} QueriesOnOwnRows(log: seq<Row>, verb: string, since: real)
    ensures Failures(RowsOf(log, verb), verb, since) == Failures(log, verb, since)
    ensures LastOpening(RowsOf(log, verb), verb) == LastOpening(log, verb)
  {
    if log != [] {
      var init := log[..|log| - 1];
      QueriesOnOwnRows(init, verb, since);
      QueriesAfterAppend(RowsOf(init, verb), log[|log| - 1], verb, since);
      assert log[|log| - 1].verb != verb ==> RowsOf(log, verb) == RowsOf(init, verb);
    }
  }

  lemma RowsOfAppend(log: seq<Row>, r: Row, verb: string)
    ensures RowsOf(log + [r], verb) == RowsOf(log, verb) + if r.verb == verb then [r] else []
  {
    assert (log + [r])[..|log|] == log;
  }

  /** A thread looks at the log through the two queries on its own verb only. */
  lemma AdvanceByQueries(cfg: Config, now: real, log: seq<Row>, own: seq<Row>, th: Thread)
    requires th.reading.Some? ==>
               Failures(log, th.verb, th.reading.value - cfg.window) ==
               Failures(own, th.verb, th.reading.value - cfg.window) &&
               LastOpening(log, th.verb) == LastOpening(own, th.verb)
    ensures Advance(cfg, now, log, th) == Advance(cfg, now, own, th)
  {}

  lemma AdvanceOnOwnRows(cfg: Config, now: real, log: seq<Row>, th: Thread)
    ensures Advance(cfg, now, log, th) == Advance(cfg, now, RowsOf(log, th.verb), th)
  {
    if th.reading.Some? {
      QueriesOnOwnRows(log, th.verb, th.reading.value - cfg.window);
    }
    AdvanceByQueries(cfg, now, log, RowsOf(log, th.verb), th);
  }

  /** s and its projection p agree on everything that concerns verb. */
  ghost predicate Projects(s: State, p: State, verb: string) {
    && p.now == s.now && p.log == RowsOf(s.log, verb) && |p.threads| == |s.threads|
    && (forall k :: 0 <= k < |s.threads| ==> s.threads[k].verb == p.threads[k].verb)
    && (forall k :: 0 <= k < |s.threads| && s.threads[k].verb == verb ==> s.threads[k] == p.threads[k])
  }

  lemma MoveKeepsVerb(cfg: Config, now: real, log: seq<Row>, th: Thread)
    ensures Advance(cfg, now, log, th).verb == th.verb
    ensures Appended(th).Some? ==> Appended(th).value.verb == th.verb
  {}

  lemma LogAfterOnOwnRows(log: seq<Row>, th: Thread, verb: string)
    ensures RowsOf(LogAfter(log, th), verb) ==
            if th.verb == verb then LogAfter(RowsOf(log, verb), th) else RowsOf(log, verb)
  {
    if Appended(th).Some? {
      RowsOfAppend(log, Appended(th).value, verb);
    }
  }

  lemma OtherMoveProjects(cfg: Config, s: State, p: State, verb: string, k: nat)
    requires Projects(s, p, verb) && k < |s.threads| && s.threads[k].verb != verb
    ensures Projects(Step(cfg, s, Move(k)), p, verb)
  {
    LogAfterOnOwnRows(s.log, s.threads[k], verb);
    MoveKeepsVerb(cfg, s.now, s.log, s.threads[k]);
  }

  lemma OwnMoveProjects(cfg: Config, s: State, p: State, verb: string, k: nat)
    requires Projects(s, p, verb) && k < |s.threads| && s.threads[k].verb == verb
    ensures Projects(Step(cfg, s, Move(k)), Step(cfg, p, Move(k)), verb)
  {
    LogAfterOnOwnRows(s.log, s.threads[k], verb);
    MoveKeepsVerb(cfg, s.now, s.log, s.threads[k]);
    AdvanceOnOwnRows(cfg, s.now, s.log, s.threads[k]);
  }

  lemma StepProjects(cfg: Config, s: State, p: State, verb: string, a: Action)
    requires Projects(s, p, verb)
    ensures Projects(Step(cfg, s, a),
                     if a.Move? && a.k < |s.threads| && s.threads[a.k].verb != verb then p else Step(cfg, p, a), verb)
  {
    if a.Move? && a.k < |s.threads| {
      if s.threads[a.k].verb == verb {
        OwnMoveProjects(cfg, s, p, verb, a.k);
      } else {
        OtherMoveProjects(cfg, s, p, verb, a.k);
      }
    }
  }

  /** Leaving out every move of other verbs' threads changes neither this verb's rows nor any
      count, verdict or trip its threads arrive at. */
  lemma {:induction false} PerVerbProjection(cfg: Config, s: State, acts: seq<Action>, verb: string)
    ensures Projects(Run(cfg, s, acts),
                     Run(cfg, s.(log := RowsOf(s.log, verb)), MovesOf(acts, s.threads, verb)), verb)
  {
    if acts != [] {
      var init := acts[..|acts| - 1];
      var a := acts[|acts| - 1];
      var own := s.(log := RowsOf(s.log, verb));
      PerVerbProjection(cfg, s, init, verb);
      ThreadsKeepVerbs(cfg, s, init);
      StepProjects(cfg, Run(cfg, s, init), Run(cfg, own, MovesOf(init, s.threads, verb)), verb, a);
      var kept := MovesOf(init, s.threads, verb);
      assert (kept + [a])[..|kept|] == kept;
      assert kept + [] == kept;
    }
  }

  lemma {:induction false} ThreadsKeepVerbs(cfg: Config, s: State, acts: seq<Action>)
    ensures |Run(cfg, s, acts).threads| == |s.threads|
    ensures forall k :: 0 <= k < |s.threads| ==> Run(cfg, s, acts).threads[k].verb == s.threads[k].verb
  {
    if acts != [] {
      ThreadsKeepVerbs(cfg, s, acts[..|acts| - 1]);
    }
  }
}
