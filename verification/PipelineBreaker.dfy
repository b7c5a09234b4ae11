/** The pipeline's store log is a log of the breaker's own machine, so what holds of every
    interleaving of breaker callers holds of every interleaving of whole requests. */
module PipelineBreaker {
  import opened Common
  import C = Catalog
  import B = Breaker
  import R = BreakerRaces
  import P = Pipeline

  predicate InStore(pc: P.Pc) { pc.Recording? || pc.Guarding? }

  function StoreThread(pc: P.Pc): B.Thread
    requires InStore(pc)
  {
    if pc.Recording? then pc.th else pc.guard
  }

  function Begin(now: real, log: seq<B.Row>, threads: seq<B.Thread>): R.State {
    R.State(now, log, seq(|log|, _ => R.Initial), threads)
  }

  /** Failing outcomes come with the text of their error. */
  predicate Noted(th: B.Thread) { B.Counts(th.stage) ==> th.note.error.Some? }

  const FAILURES: set<P.Stage> := {B.Failed, B.Timeout}

  /** b drives the given breaker threads to the log and clock of pipeline state m; the request at
      k is inside the store as thread at[k]. */
  ghost predicate Simulates(cfg: B.Config, s: P.State, m: P.State,
                            threads: seq<B.Thread>, b: seq<R.Action>, at: seq<nat>) {
    var q := R.Run(cfg, Begin(s.now, s.log, threads), b);
    && (forall i :: 0 <= i < |threads| ==> R.Fresh(threads[i]))
    && (forall i :: 0 <= i < |b| && b[i].Move? ==> b[i].k < |threads|)
    && q.now == m.now && q.log == m.log && |q.threads| == |threads| && |at| == |m.requests|
    && (forall k :: 0 <= k < |at| && InStore(m.requests[k].pc) ==>
          at[k] < |threads| && q.threads[at[k]] == StoreThread(m.requests[k].pc))
    && (forall j, k :: 0 <= j < k < |at| && InStore(m.requests[j].pc) && InStore(m.requests[k].pc) ==> at[j] != at[k])
  }

  /** Request k is in the store as thread i. */
  predicate Owns(m: P.State, at: seq<nat>, k: nat, i: nat) {
    k < |m.requests| && k < |at| && InStore(m.requests[k].pc) && at[k] == i
  }

  /** Every thread that has not ended belongs to a request, and the failing threads of the verb
      are as many as the requests that have written a failure. */
  ghost predicate Tallies(cfg: B.Config, s: P.State, m: P.State, threads: seq<B.Thread>, b: seq<R.Action>, at: seq<nat>,
                          verb: string) {
    var q := R.Run(cfg, Begin(s.now, s.log, threads), b);
    && (forall i :: 0 <= i < |threads| ==> Noted(threads[i]))
    && (forall i: nat :: i < |q.threads| && !B.Ended(q.threads[i]) ==> exists k :: Owns(m, at, k, i))
    && CountIf(threads, R.Failing(verb)) == CountIf(m.requests, P.Wrote(verb, FAILURES))
  }

  /** A thread that no action names changes nothing. */
  lemma {:induction false} SpareThread(cfg: B.Config, s: R.State, th: B.Thread, b: seq<R.Action>)
    requires forall i :: 0 <= i < |b| && b[i].Move? ==> b[i].k < |s.threads|
    ensures |R.Run(cfg, s, b).threads| == |s.threads|
    ensures R.Run(cfg, s.(threads := s.threads + [th]), b) ==
            R.Run(cfg, s, b).(threads := R.Run(cfg, s, b).threads + [th])
  {
    if b != [] {
      var init := b[..|b| - 1];
      assert forall i :: 0 <= i < |init| ==> init[i] == b[i];
      SpareThread(cfg, s, th, init);
      var m := R.Run(cfg, s, init);
      var a := b[|b| - 1];
      if a.Move? {
        assert (m.threads + [th])[a.k] == m.threads[a.k];
        var next := B.Advance(cfg, m.now, m.log, m.threads[a.k]);
        assert (m.threads + [th])[a.k := next] == m.threads[a.k := next] + [th];
      }
    }
  }

  /** Request k enters the store: a new breaker thread stands ready for it. */
  lemma Enter(cfg: B.Config, s: P.State, m: P.State, n: P.State, threads: seq<B.Thread>, b: seq<R.Action>,
              at: seq<nat>, k: nat)
    returns (threads': seq<B.Thread>, at': seq<nat>)
    requires Simulates(cfg, s, m, threads, b, at) && k < |m.requests|
    requires n.now == m.now && n.log == m.log && |n.requests| == |m.requests|
    requires forall j :: 0 <= j < |m.requests| && j != k ==> n.requests[j] == m.requests[j]
    requires InStore(n.requests[k].pc) && R.Fresh(StoreThread(n.requests[k].pc))
    ensures threads' == threads + [StoreThread(n.requests[k].pc)] && at' == at[k := |threads|]
    ensures Simulates(cfg, s, n, threads', b, at')
  {
    var th := StoreThread(n.requests[k].pc);
    threads' := threads + [th];
    at' := at[k := |threads|];
    SpareThread(cfg, Begin(s.now, s.log, threads), th, b);
  }

  /** Request k stays where it is or leaves the store. */
  lemma Stay(cfg: B.Config, s: P.State, m: P.State, n: P.State, threads: seq<B.Thread>, b: seq<R.Action>,
             at: seq<nat>, k: nat)
    requires Simulates(cfg, s, m, threads, b, at) && k < |m.requests|
    requires n.now == m.now && n.log == m.log && |n.requests| == |m.requests|
    requires forall j :: 0 <= j < |m.requests| && j != k ==> n.requests[j] == m.requests[j]
    requires InStore(n.requests[k].pc) ==>
               InStore(m.requests[k].pc) && StoreThread(n.requests[k].pc) == StoreThread(m.requests[k].pc)
    ensures Simulates(cfg, s, n, threads, b, at)
  {}

  /** Request k runs its next piece inside the store. */
  lemma Inside(cfg: B.Config, s: P.State, m: P.State, n: P.State, threads: seq<B.Thread>, b: seq<R.Action>,
               at: seq<nat>, k: nat)
    requires Simulates(cfg, s, m, threads, b, at) && k < |m.requests|
    requires |n.requests| == |m.requests| && n.now == m.now
    requires forall j :: 0 <= j < |m.requests| && j != k ==> n.requests[j] == m.requests[j]
    requires InStore(m.requests[k].pc) && InStore(n.requests[k].pc)
    requires n.log == B.LogAfter(m.log, StoreThread(m.requests[k].pc))
    requires StoreThread(n.requests[k].pc) == B.Advance(cfg, m.now, m.log, StoreThread(m.requests[k].pc))
    ensures Simulates(cfg, s, n, threads, b + [R.Move(at[k])], at)
  {
    assert (b + [R.Move(at[k])])[..|b|] == b;
  }

  lemma EndedWritesNothing(log: seq<B.Row>, th: B.Thread)
    requires B.Ended(th)
    ensures B.LogAfter(log, th) == log
  {}

  lemma StepShape(c: C.Catalog, cfg: B.Config, m: P.State, k: nat)
    requires k < |m.requests|
    ensures var n := P.Step(c, cfg, m, P.Move(k));
            && n.now == m.now && n.requests == m.requests[k := P.Moved(c, cfg, m, m.requests[k])]
            && n.log == if m.requests[k].verb in c.verbs && InStore(m.requests[k].pc)
                        then B.LogAfter(m.log, StoreThread(m.requests[k].pc)) else m.log
  {}

  /** What the three cases keep of Tallies. */
  lemma EnterTallies(cfg: B.Config, s: P.State, m: P.State, n: P.State, threads: seq<B.Thread>, b: seq<R.Action>,
                     at: seq<nat>, k: nat, verb: string)
    requires Simulates(cfg, s, m, threads, b, at) && Tallies(cfg, s, m, threads, b, at, verb) && k < |m.requests|
    requires |n.requests| == |m.requests|
             && forall j :: 0 <= j < |m.requests| && j != k ==> n.requests[j] == m.requests[j]
    requires InStore(m.requests[k].pc) ==> B.Ended(StoreThread(m.requests[k].pc))
    requires InStore(n.requests[k].pc) && Noted(StoreThread(n.requests[k].pc))
    requires R.Fresh(StoreThread(n.requests[k].pc))
    requires CountIf(n.requests, P.Wrote(verb, FAILURES)) ==
             CountIf(m.requests, P.Wrote(verb, FAILURES))
              + if R.Failing(verb)(StoreThread(n.requests[k].pc)) then 1 else 0
    ensures Tallies(cfg, s, n, threads + [StoreThread(n.requests[k].pc)], b, at[k := |threads|], verb)
  {
    var th := StoreThread(n.requests[k].pc);
    var at' := at[k := |threads|];
    SpareThread(cfg, Begin(s.now, s.log, threads), th, b);
    CountIfAppend(threads, th, R.Failing(verb));
    var before := R.Run(cfg, Begin(s.now, s.log, threads), b);
    var q := R.Run(cfg, Begin(s.now, s.log, threads + [th]), b);
    forall i: nat | i < |q.threads| && !B.Ended(q.threads[i]) ensures exists j :: Owns(n, at', j, i) {
      if i < |threads| {
        var j :| Owns(m, at, j, i);
        assert Owns(n, at', j, i);
      } else {
        assert Owns(n, at', k, i);
      }
    }
  }

  lemma StayTallies(cfg: B.Config, s: P.State, m: P.State, n: P.State, threads: seq<B.Thread>, b: seq<R.Action>,
                    at: seq<nat>, k: nat, verb: string)
    requires Simulates(cfg, s, m, threads, b, at) && Tallies(cfg, s, m, threads, b, at, verb) && k < |m.requests|
    requires |n.requests| == |m.requests|
             && forall j :: 0 <= j < |m.requests| && j != k ==> n.requests[j] == m.requests[j]
    requires InStore(m.requests[k].pc) && !InStore(n.requests[k].pc) ==> B.Ended(StoreThread(m.requests[k].pc))
    requires CountIf(n.requests, P.Wrote(verb, FAILURES)) == CountIf(m.requests, P.Wrote(verb, FAILURES))
    ensures Tallies(cfg, s, n, threads, b, at, verb)
  {
    var q := R.Run(cfg, Begin(s.now, s.log, threads), b);
    forall i: nat | i < |q.threads| && !B.Ended(q.threads[i]) ensures exists j :: Owns(n, at, j, i) {
      var j :| Owns(m, at, j, i);
      assert Owns(n, at, j, i);
    }
  }

  lemma InsideTallies(cfg: B.Config, s: P.State, m: P.State, n: P.State, threads: seq<B.Thread>, b: seq<R.Action>,
                      at: seq<nat>, k: nat, verb: string)
    requires Simulates(cfg, s, m, threads, b, at) && Tallies(cfg, s, m, threads, b, at, verb) && k < |m.requests|
    requires |n.requests| == |m.requests|
             && forall j :: 0 <= j < |m.requests| && j != k ==> n.requests[j] == m.requests[j]
    requires InStore(m.requests[k].pc) && InStore(n.requests[k].pc)
    requires CountIf(n.requests, P.Wrote(verb, FAILURES)) == CountIf(m.requests, P.Wrote(verb, FAILURES))
    ensures Tallies(cfg, s, n, threads, b + [R.Move(at[k])], at, verb)
  {
    var q := R.Run(cfg, Begin(s.now, s.log, threads), b);
    var b' := b + [R.Move(at[k])];
    assert b'[..|b|] == b;
    var q' := R.Run(cfg, Begin(s.now, s.log, threads), b');
    forall i: nat | i < |q'.threads| && !B.Ended(q'.threads[i]) ensures exists j :: Owns(n, at, j, i) {
      if i == at[k] {
        assert Owns(n, at, k, i);
      } else {
        assert q'.threads[i] == q.threads[i];
        var j :| Owns(m, at, j, i);
        assert Owns(n, at, j, i);
      }
    }
  }

  predicate Explained(r: P.Request) {
    r.pc.Writing? && B.Counts(r.pc.event.stage) ==> r.pc.event.error.Some?
  }

  lemma MovedExplained(c: C.Catalog, cfg: B.Config, s: P.State, r: P.Request)
    requires Explained(r)
    ensures Explained(P.Moved(c, cfg, s, r))
  {}

  lemma {:induction false} RunExplained(c: C.Catalog, cfg: B.Config, s: P.State, acts: seq<P.Action>, k: nat)
    requires P.Start(s) && k < |s.requests|
    ensures |P.Run(c, cfg, s, acts).requests| == |s.requests| && Explained(P.Run(c, cfg, s, acts).requests[k])
  {
    if acts != [] {
      var m := P.Run(c, cfg, s, acts[..|acts| - 1]);
      RunExplained(c, cfg, s, acts[..|acts| - 1], k);
      P.StepMoves(c, cfg, m, acts[|acts| - 1]);
      MovedExplained(c, cfg, m, m.requests[k]);
    }
  }

  lemma {:induction false} Simulate(c: C.Catalog, cfg: B.Config, s: P.State, acts: seq<P.Action>, verb: string)
    returns (threads: seq<B.Thread>, b: seq<R.Action>, at: seq<nat>)
    requires P.Start(s)
    ensures Simulates(cfg, s, P.Run(c, cfg, s, acts), threads, b, at)
    ensures Tallies(cfg, s, P.Run(c, cfg, s, acts), threads, b, at, verb)
  {
    if acts == [] {
      threads, b, at := [], [], seq(|s.requests|, _ => 0);
      CountIfWitness(s.requests, P.Wrote(verb, FAILURES));
    } else {
      var m := P.Run(c, cfg, s, acts[..|acts| - 1]);
      var a := acts[|acts| - 1];
      threads, b, at := Simulate(c, cfg, s, acts[..|acts| - 1], verb);
      if a.Tick? {
        b := SimulateTick(c, cfg, s, m, a.d, threads, b, at, verb);
      } else if a.k < |m.requests| {
        P.RunInv(c, cfg, s, acts[..|acts| - 1]);
        P.RunKeepsCount(c, cfg, s, acts[..|acts| - 1]);
        RunExplained(c, cfg, s, acts[..|acts| - 1], a.k);
        threads, b, at := SimulateMove(c, cfg, s, m, a.k, threads, b, at, verb);
      }
    }
  }

  lemma SimulateTick(c: C.Catalog, cfg: B.Config, s: P.State, m: P.State, d: real, threads: seq<B.Thread>,
                     b: seq<R.Action>, at: seq<nat>, verb: string)
    returns (b': seq<R.Action>)
    requires Simulates(cfg, s, m, threads, b, at) && Tallies(cfg, s, m, threads, b, at, verb)
    ensures Simulates(cfg, s, P.Step(c, cfg, m, P.Tick(d)), threads, b', at)
    ensures Tallies(cfg, s, P.Step(c, cfg, m, P.Tick(d)), threads, b', at, verb)
  {
    b' := b + [R.Tick(d)];
    assert b'[..|b|] == b;
    var n := P.Step(c, cfg, m, P.Tick(d));
    assert n.requests == m.requests;
    var q := R.Run(cfg, Begin(s.now, s.log, threads), b');
    forall i: nat | i < |q.threads| && !B.Ended(q.threads[i]) ensures exists j :: Owns(n, at, j, i) {
      var j :| Owns(m, at, j, i);
      assert Owns(n, at, j, i);
    }
  }

  /** A move writes a failure of the verb exactly if it starts a failing thread. */
  lemma FailuresWritten(c: C.Catalog, cfg: B.Config, m: P.State, k: nat, verb: string)
    requires k < |m.requests| && P.RequestInv(c, m.requests[k])
    ensures var r := m.requests[k];
            CountIf(P.Step(c, cfg, m, P.Move(k)).requests, P.Wrote(verb, FAILURES)) ==
            CountIf(m.requests, P.Wrote(verb, FAILURES)) +
              if r.verb == verb && r.verb in c.verbs && r.pc.Writing? && B.Counts(r.pc.event.stage) then 1 else 0
  {
    var r := m.requests[k];
    P.StepMoves(c, cfg, m, P.Move(k));
    P.MovedTouches(c, cfg, m, r, FAILURES);
    CountIfUpdate(m.requests, k, P.Moved(c, cfg, m, r), P.Wrote(verb, FAILURES));
  }

  /** What a request that stands in the store after its move has there. */
  lemma NewThread(c: C.Catalog, cfg: B.Config, m: P.State, r: P.Request, verb: string)
    requires P.RequestInv(c, r) && Explained(r) && r.verb in c.verbs
    requires InStore(P.Moved(c, cfg, m, r).pc) && (InStore(r.pc) ==> B.Ended(StoreThread(r.pc)))
    ensures var th := StoreThread(P.Moved(c, cfg, m, r).pc);
            && R.Fresh(th) && Noted(th)
            && (R.Failing(verb)(th) <==> r.verb == verb && r.pc.Writing? && B.Counts(r.pc.event.stage))
  {
    if r.pc.Writing? {
      StagesWritten(c, r);
    }
  }

  lemma SimulateMove(c: C.Catalog, cfg: B.Config, s: P.State, m: P.State, k: nat, threads: seq<B.Thread>,
                     b: seq<R.Action>, at: seq<nat>, verb: string)
    returns (threads': seq<B.Thread>, b': seq<R.Action>, at': seq<nat>)
    requires Simulates(cfg, s, m, threads, b, at) && Tallies(cfg, s, m, threads, b, at, verb)
    requires k < |m.requests| && P.Inv(c, m) && Explained(m.requests[k])
    ensures Simulates(cfg, s, P.Step(c, cfg, m, P.Move(k)), threads', b', at')
    ensures Tallies(cfg, s, P.Step(c, cfg, m, P.Move(k)), threads', b', at', verb)
  {
    threads', b', at' := threads, b, at;
    var n := P.Step(c, cfg, m, P.Move(k));
    var r := m.requests[k];
    assert P.RequestInv(c, r);
    StepShape(c, cfg, m, k);
    FailuresWritten(c, cfg, m, k, verb);
    var pc := n.requests[k].pc;
    if r.verb !in c.verbs {
      UnknownStays(c, cfg, m, r);
      Stay(cfg, s, m, n, threads, b, at, k);
      StayTallies(cfg, s, m, n, threads, b, at, k, verb);
    } else if InStore(r.pc) && !B.Ended(StoreThread(r.pc)) {
      Inside(cfg, s, m, n, threads, b, at, k);
      InsideTallies(cfg, s, m, n, threads, b, at, k, verb);
      b' := b + [R.Move(at[k])];
    } else {
      if InStore(r.pc) {
        EndedWritesNothing(m.log, StoreThread(r.pc));
      }
      if InStore(pc) {
        NewThread(c, cfg, m, r, verb);
        threads', at' := Enter(cfg, s, m, n, threads, b, at, k);
        EnterTallies(cfg, s, m, n, threads, b, at, k, verb);
      } else {
        Stay(cfg, s, m, n, threads, b, at, k);
        StayTallies(cfg, s, m, n, threads, b, at, k, verb);
      }
    }
  }

  /** A request for an unknown verb never gets to the store. */
  lemma UnknownStays(c: C.Catalog, cfg: B.Config, m: P.State, r: P.Request)
    requires r.verb !in c.verbs && P.RequestInv(c, r)
    ensures !InStore(r.pc) && !r.pc.Writing? && !InStore(P.Moved(c, cfg, m, r).pc)
  {}

  /** The pipeline audits lifecycle stages only, never circuit_open. */
  lemma StagesWritten(c: C.Catalog, r: P.Request)
    requires P.RequestInv(c, r) && r.pc.Writing?
    ensures r.pc.event.stage in {B.Requested, B.Approved, B.Denied, B.Executed, B.Failed, B.Timeout}
  {
    var t := r.trail + [r.pc.event.stage];
    assert t[|t| - 1] == r.pc.event.stage;
  }

  /** Where a breaker state is reached by callers of guard and record_outcome from an empty log. */
  ghost predicate ReachedByCallers(cfg: B.Config, q: R.State) {
    exists s: R.State, b: seq<R.Action> :: R.Start(s) && s.log == [] && q == R.Run(cfg, s, b)
  }

  /** Every circuit_open row that whole requests, in any interleaving, leave in the store chains
      back to a genuine trip. */
  lemma PipelineNeverTripsFalsely(c: C.Catalog, cfg: B.Config, s: P.State, acts: seq<P.Action>, i: nat)
    requires P.Start(s) && s.log == []
    requires i < |P.Run(c, cfg, s, acts).log| && P.Run(c, cfg, s, acts).log[i].stage == B.CircuitOpen
    ensures exists q: R.State, hops: seq<nat> ::
              && ReachedByCallers(cfg, q) && q.log == P.Run(c, cfg, s, acts).log && |q.origin| == |q.log|
              && R.Justified(cfg, q, i) && R.LeadsToTrip(cfg, q, hops) && hops[0] == i
  {
    var threads, b, at := Simulate(c, cfg, s, acts, "");
    var s0 := Begin(s.now, [], threads);
    var q := R.Run(cfg, s0, b);
    assert ReachedByCallers(cfg, q);
    R.NoFalseTrip(cfg, s0, b, i);
    R.RunGrounded(cfg, s0, b);
    var hops := R.ChainsToTrip(cfg, q, i);
  }

  // ---- no lost trip, for whole requests ------------------------------------------------------------

  /** A trip row bears the error of the failure that tripped the breaker; a rejection has none. */
  function TripRow(verb: string): B.Row -> bool {
    (row: B.Row) => row.verb == verb && row.stage == B.CircuitOpen && row.note.error.Some?
  }

  predicate Plausible(th: B.Thread) {
    && Noted(th) && (th.pc in {B.Count, B.Check, B.Trip} ==> B.Counts(th.stage))
    && (th.pc == B.Insert ==> th.stage != B.CircuitOpen)
  }

  lemma {:induction false} TripsAreTripRows(cfg: B.Config, s: R.State, b: seq<R.Action>, verb: string)
    requires R.Start(s) && (forall k :: 0 <= k < |s.threads| ==> Noted(s.threads[k])) && R.Trips(s, verb) == 0
    ensures forall k :: 0 <= k < |R.Run(cfg, s, b).threads| ==> Plausible(R.Run(cfg, s, b).threads[k])
    ensures CountIf(R.Run(cfg, s, b).log, TripRow(verb)) ==
            CountIf(s.log, TripRow(verb)) + R.Trips(R.Run(cfg, s, b), verb)
  {
    if b != [] {
      var m := R.Run(cfg, s, b[..|b| - 1]);
      var a := b[|b| - 1];
      TripsAreTripRows(cfg, s, b[..|b| - 1], verb);
      if a.Move? && a.k < |m.threads| {
        MoveTripRows(cfg, m, a.k, verb);
      }
    }
  }

  lemma MoveTripRows(cfg: B.Config, m: R.State, k: nat, verb: string)
    requires k < |m.threads| && Plausible(m.threads[k])
    ensures var n := R.Step(cfg, m, R.Move(k));
            && Plausible(n.threads[k])
            && CountIf(n.log, TripRow(verb)) + R.Trips(m, verb) == CountIf(m.log, TripRow(verb)) + R.Trips(n, verb)
  {
    var th := m.threads[k];
    if B.Appended(th).Some? {
      CountIfAppend(m.log, B.Appended(th).value, TripRow(verb));
      CountIfAppend(m.origin, R.OriginOf(th), R.TripOf(verb));
    }
  }

  lemma {:induction false} FailingStays(cfg: B.Config, s: R.State, b: seq<R.Action>, verb: string, k: nat)
    requires R.Start(s) && (forall j :: 0 <= j < |s.threads| ==> Noted(s.threads[j])) && k < |s.threads|
    requires R.Trips(s, verb) == 0
    ensures k < |R.Run(cfg, s, b).threads|
    ensures R.IsFailing(verb, R.Run(cfg, s, b).threads[k]) == R.IsFailing(verb, s.threads[k])
  {
    if b != [] {
      var m := R.Run(cfg, s, b[..|b| - 1]);
      FailingStays(cfg, s, b[..|b| - 1], verb, k);
      TripsAreTripRows(cfg, s, b[..|b| - 1], verb);
      assert Plausible(m.threads[k]);
      R.AdvanceFlags(cfg, m.now, m.log, m.threads[k], verb);
    }
  }

  lemma NothingInitialTrips(n: nat, verb: string)
    ensures CountIf(seq(n, _ => R.Initial), R.TripOf(verb)) == 0
  {
    CountIfWitness(seq(n, _ => R.Initial), R.TripOf(verb));
  }

  /** With no request inside the store, every failing thread has recorded. */
  lemma AllRecorded(cfg: B.Config, s: P.State, m: P.State, threads: seq<B.Thread>, b: seq<R.Action>, at: seq<nat>,
                    verb: string, k: nat)
    requires Simulates(cfg, s, m, threads, b, at) && Tallies(cfg, s, m, threads, b, at, verb)
    requires (forall j :: 0 <= j < |m.requests| ==> !InStore(m.requests[j].pc))
    requires k < |threads| && R.IsFailing(verb, threads[k])
    ensures var q := R.Run(cfg, Begin(s.now, s.log, threads), b);
            k < |q.threads| && q.threads[k].pc == B.Recorded
  {
    var s0 := Begin(s.now, s.log, threads);
    var q := R.Run(cfg, s0, b);
    NothingInitialTrips(|s.log|, verb);
    FailingStays(cfg, s0, b, verb, k);
    assert forall j: nat :: !Owns(m, at, j, k);
  }

  /** Let at least `limit` requests of one verb fail or time out inside one window, starting with the
      breaker closed, in any interleaving with each other and with any other requests.  Once none
      is inside the store, the store has gained at least one row that trips the verb, and at most
      one for each of them. */
  lemma PipelineLosesNoTrip(c: C.Catalog, cfg: B.Config, s: P.State, acts: seq<P.Action>, verb: string)
    requires P.Start(s) && cfg.limit > 0 && !B.Open(cfg, s.log, verb, s.now)
    requires var e := P.Run(c, cfg, s, acts);
             && e.now - s.now <= cfg.window
             && (forall k :: 0 <= k < |e.requests| ==> !InStore(e.requests[k].pc))
             && CountIf(e.requests, P.Wrote(verb, FAILURES)) >= cfg.limit
    ensures var e := P.Run(c, cfg, s, acts);
            1 <= CountIf(e.log, TripRow(verb)) - CountIf(s.log, TripRow(verb)) <=
            CountIf(e.requests, P.Wrote(verb, FAILURES))
  {
    var threads, b, at := Simulate(c, cfg, s, acts, verb);
    var s0 := Begin(s.now, s.log, threads);
    NothingInitialTrips(|s.log|, verb);
    TripsAreTripRows(cfg, s0, b, verb);
    forall k | 0 <= k < |threads| && R.IsFailing(verb, threads[k])
      ensures k < |R.Run(cfg, s0, b).threads| && R.Run(cfg, s0, b).threads[k].pc == B.Recorded
    {
      AllRecorded(cfg, s, P.Run(c, cfg, s, acts), threads, b, at, verb, k);
    }
    R.NoLostTrip(cfg, s0, verb, b);
  }
}
