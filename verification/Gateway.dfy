/** The gate and the handlers as straight-line code over the audit file and the store: audit,
    check, and one whole perceive, act or watch request.  Each is shown to be a run of the
    pipeline machine in which no other request moves, whatever the clock shows at each reading
    (dispatch/risk_gate.py, daemon.py). */
module Gateway {
  import opened Common
  import C = Catalog
  import B = Breaker
  import P = Pipeline
  import T = TimeoutStage
  import W = PipelineAnswers

  // ---- runs of the machine -------------------------------------------------------------------

  ghost predicate Reaches(c: C.Catalog, cfg: B.Config, s: P.State, t: P.State) {
    exists acts :: t == P.Run(c, cfg, s, acts)
  }

  lemma {:induction false} RunOn(c: C.Catalog, cfg: B.Config, s: P.State, a: seq<P.Action>, b: seq<P.Action>)
    ensures P.Run(c, cfg, s, a + b) == P.Run(c, cfg, P.Run(c, cfg, s, a), b)
  {
    if b == [] {
      assert a + b == a;
    } else {
      RunOn(c, cfg, s, a, b[..|b| - 1]);
      assert (a + b)[..|a + b| - 1] == a + b[..|b| - 1];
    }
  }

  lemma ReachesOn(c: C.Catalog, cfg: B.Config, s: P.State, t: P.State, u: P.State)
    requires Reaches(c, cfg, s, t) && Reaches(c, cfg, t, u)
    ensures Reaches(c, cfg, s, u)
  {
    var a :| t == P.Run(c, cfg, s, a);
    var b :| u == P.Run(c, cfg, t, b);
    RunOn(c, cfg, s, a, b);
  }

  lemma ReachesSelf(c: C.Catalog, cfg: B.Config, s: P.State)
    ensures Reaches(c, cfg, s, s)
  {
    assert s == P.Run(c, cfg, s, []);
  }

  lemma ReachesStep(c: C.Catalog, cfg: B.Config, s: P.State)
    ensures Reaches(c, cfg, s, P.Step(c, cfg, s, P.Move(0)))
  {
    var acts := [P.Move(0)];
    assert acts[..0] == [];
    assert P.Run(c, cfg, s, acts) == P.Step(c, cfg, P.Run(c, cfg, s, []), P.Move(0));
  }

  lemma TickTo(c: C.Catalog, cfg: B.Config, s: P.State, t: real)
    requires t >= s.now
    ensures Reaches(c, cfg, s, s.(now := t))
  {
    var acts := [P.Tick(t - s.now)];
    assert acts[..0] == [];
    assert P.Run(c, cfg, s, acts) == P.Step(c, cfg, P.Run(c, cfg, s, []), P.Tick(t - s.now));
  }

  /** A request inside the store, with its breaker thread. */
  function InStore(r: P.Request, th: B.Thread, after: Option<P.Next>): P.Request {
    r.(pc := if after.Some? then P.Recording(th, after.value) else P.Guarding(th))
  }

  /** The clock moves to t, is read, and the section runs. */
  lemma OneSection(c: C.Catalog, cfg: B.Config, s: P.State, r: P.Request, th: B.Thread, after: Option<P.Next>, t: real)
    requires r.verb in c.verbs && s.requests == [InStore(r, th, after)]
    requires !B.Ended(th) && th.reading.None? && t >= s.now
    ensures var read := th.(reading := Some(t));
            Reaches(c, cfg, s, s.(now := t, log := B.LogAfter(s.log, read),
                                  requests := [InStore(r, B.Advance(cfg, t, s.log, read), after)]))
  {
    var read := th.(reading := Some(t));
    var s0 := s.(now := t);
    TickTo(c, cfg, s, t);
    var s1 := P.Step(c, cfg, s0, P.Move(0));
    assert s1 == s0.(requests := [InStore(r, read, after)]);
    var s2 := P.Step(c, cfg, s1, P.Move(0));
    assert s2 == s0.(log := B.LogAfter(s.log, read), requests := [InStore(r, B.Advance(cfg, t, s.log, read), after)]);
    ReachesStep(c, cfg, s0);
    ReachesStep(c, cfg, s1);
    ReachesOn(c, cfg, s0, s1, s2);
    ReachesOn(c, cfg, s, s0, s2);
  }

  /** Clock values that never run back, from now on. */
  ghost predicate Climbs(now: real, clock: seq<real>) {
    (clock != [] ==> now <= clock[0]) && forall i, j :: 0 <= i < j < |clock| ==> clock[i] <= clock[j]
  }

  function LastOf(now: real, clock: seq<real>): real { if clock == [] then now else clock[|clock| - 1] }

  /** The machine does to the store what the thread alone does with the same clock values. */
  lemma {:induction false} StoreAlone(c: C.Catalog, cfg: B.Config, s: P.State, r: P.Request, th: B.Thread,
                                      after: Option<P.Next>, clock: seq<real>)
    requires r.verb in c.verbs && s.requests == [InStore(r, th, after)] && th.reading.None? && Climbs(s.now, clock)
    ensures var (log, end) := B.Solo(cfg, s.log, th, clock);
            Reaches(c, cfg, s, s.(now := LastOf(s.now, clock), log := log, requests := [InStore(r, end, after)]))
    decreases |clock|
  {
    if clock == [] {
      ReachesSelf(c, cfg, s);
    } else {
      var t := clock[0];
      assert clock == [t] + clock[1..];
      assert Climbs(t, clock[1..]);
      B.SoloStep(cfg, s.log, th, t, clock[1..]);
      var (log, end) := B.Solo(cfg, s.log, th, clock);
      var s1;
      if B.Ended(th) {
        s1 := s.(now := t);
        TickTo(c, cfg, s, t);
        StoreAlone(c, cfg, s1, r, th, after, clock[1..]);
      } else {
        OneSection(c, cfg, s, r, th, after, t);
        var read := th.(reading := Some(t));
        s1 := s.(now := t, log := B.LogAfter(s.log, read),
                 requests := [InStore(r, B.Advance(cfg, t, s.log, read), after)]);
        StoreAlone(c, cfg, s1, r, B.Advance(cfg, t, s.log, read), after, clock[1..]);
      }
      ReachesOn(c, cfg, s, s1, s.(now := LastOf(s.now, clock), log := log, requests := [InStore(r, end, after)]));
    }
  }

  /** The clock readings of one audit call: the row's in the file, then those of record_outcome. */
  datatype Times = Times(write: real, store: B.Readings)

  predicate Follows(now: real, t: Times) {
    now <= t.write <= t.store.insert <= t.store.count <= t.store.check <= t.store.trip
  }

  function RowFor(t: real, v: C.Verb, r: P.Request, e: P.Event): P.AuditRow {
    P.AuditRow(t, r.verb, e.stage, v.risk, C.PublicArgs(v, r.args), e.error, e.stderr, e.subscription)
  }

  /** One audit call, from the file write to the end of record_outcome. */
  lemma AuditAlone(c: C.Catalog, cfg: B.Config, s: P.State, r: P.Request, v: C.Verb, e: P.Event, next: P.Next, t: Times)
    requires r.verb in c.verbs && v == c.verbs[r.verb] && B.Storable(e.stage) && Follows(s.now, t)
    requires s.requests == [r.(pc := P.Writing(e, next))]
    ensures Reaches(c, cfg, s,
              s.(now := t.store.trip,
                 audit := s.audit + [RowFor(t.write, v, r, e)],
                 log := B.OutcomeLog(cfg, s.log, r.verb, e.stage, P.Note(v, r, e.error), t.store),
                 requests := [r.(pc := P.Go(v, r, next), trail := r.trail + [e.stage])]))
  {
    var note := P.Note(v, r, e.error);
    var th := B.Recording(r.verb, e.stage, note);
    var q := r.(trail := r.trail + [e.stage]);
    var s0 := s.(now := t.write);
    TickTo(c, cfg, s, t.write);
    var s1 := P.Step(c, cfg, s0, P.Move(0));
    assert s1 == s0.(audit := s.audit + [RowFor(t.write, v, r, e)], requests := [InStore(q, th, Some(next))]);
    ReachesStep(c, cfg, s0);
    ReachesOn(c, cfg, s, s0, s1);
    var clock := [t.store.insert, t.store.count, t.store.check, t.store.trip];
    StoreAlone(c, cfg, s1, q, th, Some(next), clock);
    B.SoloRecordsOutcome(cfg, s.log, r.verb, e.stage, note, t.store);
    var (log, end) := B.Solo(cfg, s.log, th, clock);
    var s2 := s1.(now := t.store.trip, log := log, requests := [InStore(q, end, Some(next))]);
    ReachesOn(c, cfg, s, s1, s2);
    LeaveStore(c, cfg, s2, q, v, end, Some(next), P.Go(v, r, next));
    ReachesOn(c, cfg, s, s2, s2.(requests := [q.(pc := P.Go(v, r, next))]));
  }

  lemma LeaveStore(c: C.Catalog, cfg: B.Config, s: P.State, q: P.Request, v: C.Verb, end: B.Thread,
                   after: Option<P.Next>, pc: P.Pc)
    requires q.verb in c.verbs && v == c.verbs[q.verb] && s.requests == [InStore(q, end, after)] && B.Ended(end)
    requires pc == P.NextPc(c, cfg, s.now, s.log, InStore(q, end, after), v)
    ensures Reaches(c, cfg, s, s.(requests := [q.(pc := pc)]))
  {
    var s1 := P.Step(c, cfg, s, P.Move(0));
    assert s1 == s.(requests := [q.(pc := pc)]);
    ReachesStep(c, cfg, s);
  }

  /** guard, from its lock section to the verdict. */
  lemma GuardAlone(c: C.Catalog, cfg: B.Config, s: P.State, r: P.Request, v: C.Verb, probe: real, write: real)
    requires r.verb in c.verbs && v == c.verbs[r.verb] && s.requests == [r.(pc := P.Go(v, r, P.ToGuard))]
    requires s.now <= probe <= write
    ensures var note := P.Note(v, r, None);
            var pc := if B.Open(cfg, s.log, r.verb, probe) then P.Replied(P.Reply(500, P.BreakerOpen))
                      else if c.RequiresConfirmation(r.verb) then P.Asking else P.Running;
            Reaches(c, cfg, s, s.(now := write, log := B.GuardLog(cfg, s.log, r.verb, note, probe, write),
                                  requests := [r.(pc := pc)]))
  {
    var note := P.Note(v, r, None);
    var th := B.Guarding(r.verb, note);
    var clock := [probe, write];
    StoreAlone(c, cfg, s, r, th, None, clock);
    B.SoloGuards(cfg, s.log, r.verb, note, probe, write);
    var (log, end) := B.Solo(cfg, s.log, th, clock);
    var s1 := s.(now := write, log := log, requests := [InStore(r, end, None)]);
    var pc := if B.Open(cfg, s.log, r.verb, probe) then P.Replied(P.Reply(500, P.BreakerOpen))
              else if c.RequiresConfirmation(r.verb) then P.Asking else P.Running;
    LeaveStore(c, cfg, s1, r, v, end, None, pc);
    ReachesOn(c, cfg, s, s1, s1.(requests := [r.(pc := pc)]));
  }

  // ---- the code ----------------------------------------------------------------------------------

  /** How check ends: it returns, or raises CircuitOpen or Denied. */
  datatype Verdict = Clear | Open | Declined

  /** The clock readings of one check. */
  datatype CheckTimes = CheckTimes(requested: Times, probe: real, reject: real, decided: Times)

  predicate CheckFollows(now: real, t: CheckTimes) {
    Follows(now, t.requested) && t.requested.store.trip <= t.probe <= t.reject && Follows(t.reject, t.decided)
  }

  /** The file has one more row, which tells the outcome of the request. */
  ghost predicate OutcomeWritten(v: C.Verb, r: P.Request, now: real, was: seq<P.AuditRow>, audit: seq<P.AuditRow>) {
    exists e: P.Event :: W.Noted(v, r, e) &&
      audit == was + [P.AuditRow(now, r.verb, e.stage, v.risk, C.PublicArgs(v, r.args),
                                 e.error, e.stderr, e.subscription)]
  }

  class Gate {
    const store: B.Store
    var now: real
    var audit: seq<P.AuditRow>
    var dialogs: seq<(string, Args)>

    constructor (now: real, store: B.Store)
      ensures this.now == now && this.store == store && audit == [] && dialogs == []
    {
      this.now, this.store, audit, dialogs := now, store, [], [];
    }

    ghost function View(r: P.Request): P.State
      reads this, store
    {
      P.State(now, audit, store.log, dialogs, [r])
    }

    /** The file first, then the store. */
    method Audit(v: C.Verb, r: P.Request, e: P.Event, t: Times)
      requires B.Storable(e.stage)
      modifies this`now, this`audit, store`log
      ensures now == t.store.trip && audit == old(audit) + [RowFor(t.write, v, r, e)]
      ensures audit[|audit| - 1] == P.AuditRow(t.write, r.verb, e.stage, v.risk, C.PublicArgs(v, r.args),
                                               e.error, e.stderr, e.subscription)
      ensures store.log == B.OutcomeLog(store.cfg, old(store.log), r.verb, e.stage, P.Note(v, r, e.error), t.store)
    {
      audit := audit + [RowFor(t.write, v, r, e)];
      var _ := store.RecordOutcome(r.verb, e.stage, P.Note(v, r, e.error), t.store);
      now := t.store.trip;
    }

    /** risk_gate.check: logs first, then the breaker, then the human.  after is the request as
        the machine has it when check is over. */
    method Check(c: C.Catalog, r: P.Request, t: CheckTimes) returns (verdict: Verdict, ghost after: P.Request)
      requires r.verb in c.verbs && r.pc == P.Writing(P.Plain(B.Requested, None), P.ToGuard) && CheckFollows(now, t)
      modifies this, store`log
      ensures Reaches(c, store.cfg, old(View(r)), View(after)) && now <= t.decided.store.trip
      ensures after == r.(pc := after.pc, trail := after.trail, asked := after.asked)
      ensures verdict == Clear ==> after.pc.Running?
      ensures verdict == Open ==> after.pc == P.Replied(P.Reply(500, P.BreakerOpen))
      ensures verdict == Declined ==>
                after.pc == P.Replied(P.Reply(403, P.Declined)) && c.RequiresConfirmation(r.verb) && !r.yes
    {
      var v := c.verbs[r.verb];
      var requested := P.Plain(B.Requested, None);
      ghost var s0 := View(r);
      AuditAlone(c, store.cfg, s0, r, v, requested, P.ToGuard, t.requested);
      Audit(v, r, requested, t.requested);
      ghost var r1 := r.(trail := r.trail + [B.Requested]);
      ghost var s1 := View(r1.(pc := P.Go(v, r, P.ToGuard)));
      assert Reaches(c, store.cfg, s0, s1);
      GuardAlone(c, store.cfg, s1, r1, v, t.probe, t.reject);
      var blocked := store.Guard(r.verb, P.Note(v, r, None), t.probe, t.reject);
      now := t.reject;
      if blocked {
        after := r1.(pc := P.Replied(P.Reply(500, P.BreakerOpen)));
        ReachesOn(c, store.cfg, s0, s1, View(after));
        return Open, after;
      }
      if !c.RequiresConfirmation(r.verb) {
        after := r1.(pc := P.Running);
        ReachesOn(c, store.cfg, s0, s1, View(after));
        return Clear, after;
      }
      ghost var s2 := View(r1.(pc := P.Asking));
      ReachesOn(c, store.cfg, s0, s1, s2);
      verdict, after := Ask(c, r, r1.(pc := P.Asking), t.decided);
      ReachesOn(c, store.cfg, s0, s2, View(after));
    }

    /** The dialog and the decision row. */
    method Ask(c: C.Catalog, r: P.Request, ghost before: P.Request, t: Times)
      returns (verdict: Verdict, ghost after: P.Request)
      requires r.verb in c.verbs && before == r.(pc := P.Asking, trail := before.trail) && Follows(now, t)
      modifies this, store`log
      ensures Reaches(c, store.cfg, old(View(before)), View(after)) && now == t.store.trip
      ensures after == r.(pc := after.pc, trail := after.trail, asked := after.asked)
      ensures verdict == if r.yes then Clear else Declined
      ensures after.pc == if r.yes then P.Running else P.Replied(P.Reply(403, P.Declined))
    {
      var v := c.verbs[r.verb];
      var e := P.Plain(if r.yes then B.Approved else B.Denied, None);
      ghost var next := if r.yes then P.ToRun else P.ToReply(P.Reply(403, P.Declined));
      ghost var s0 := View(before);
      ghost var asked := before.(asked := true);
      ReachesStep(c, store.cfg, s0);
      dialogs := dialogs + [(r.verb, C.PublicArgs(v, r.args))];
      ghost var s1 := View(asked.(pc := P.Writing(e, next)));
      assert P.Step(c, store.cfg, s0, P.Move(0)) == s1;
      AuditAlone(c, store.cfg, s1, asked, v, e, next, t);
      Audit(v, r, e, t);
      after := asked.(pc := P.Go(v, asked, next), trail := asked.trail + [e.stage]);
      ReachesOn(c, store.cfg, s0, s1, View(after));
      verdict := if r.yes then Clear else Declined;
    }

    /** One request from the route to the reply (do_POST, _run_tier_a and the watch branch). */
    method Serve(c: C.Catalog, r: P.Request, t: CheckTimes, done: Times) returns (reply: P.Reply)
      requires r.pc == P.Arrived && CheckFollows(now, t) && Follows(t.decided.store.trip, done)
      modifies this, store`log
      ensures exists q: P.Request :: q.pc == P.Replied(reply) && Reaches(c, store.cfg, old(View(r)), View(q))
      ensures C.Loaded(c) && !W.Accepted(c, r) ==>
                W.TurnedAway(c, r, reply) && View(r) == old(View(r))
      ensures C.Loaded(c) && W.Accepted(c, r) ==>
                || reply == P.Reply(500, P.BreakerOpen)
                || (reply == P.Reply(403, P.Declined) && c.RequiresConfirmation(r.verb) && !r.yes)
                || (if W.Breaks(r) then reply == P.Reply(500, P.Aborted) else W.Told(c.verbs[r.verb], r, reply))
    {
      if C.Loaded(c) {
        W.ChecksAreExact(c, r);
      }
      ghost var s0 := View(r);
      ReachesStep(c, store.cfg, s0);
      var early := P.Early(c, r);
      if early.Some? {
        assert P.Step(c, store.cfg, s0, P.Move(0)) == View(r.(pc := P.Replied(early.value)));
        return early.value;
      }
      var logged := r.(pc := P.Writing(P.Plain(B.Requested, None), P.ToGuard));
      ghost var s1 := View(logged);
      assert P.Step(c, store.cfg, s0, P.Move(0)) == s1;
      var verdict, cleared := Check(c, logged, t);
      ReachesOn(c, store.cfg, s0, s1, View(cleared));
      if verdict == Open {
        return P.Reply(500, P.BreakerOpen);
      }
      if verdict == Declined {
        return P.Reply(403, P.Declined);
      }
      ghost var s2 := View(cleared);
      ghost var q;
      reply, q := Execute(c, r, cleared, done);
      ReachesOn(c, store.cfg, s0, s2, View(q));
    }

    /** The process and its outcome row. */
    method Execute(c: C.Catalog, r: P.Request, ghost before: P.Request, t: Times)
      returns (reply: P.Reply, ghost after: P.Request)
      requires r.verb in c.verbs && before.pc == P.Running && Follows(now, t)
      requires before == r.(pc := P.Running, trail := before.trail, asked := before.asked)
      modifies this, store`log
      ensures after.pc == P.Replied(reply) && Reaches(c, store.cfg, old(View(before)), View(after))
      ensures C.Loaded(c) && W.Accepted(c, r) ==>
                if W.Breaks(r) then reply == P.Reply(500, P.Aborted) && audit == old(audit)
                else W.Told(c.verbs[r.verb], r, reply) && OutcomeWritten(c.verbs[r.verb], r, t.write, old(audit), audit)
    {
      if C.Loaded(c) && W.Accepted(c, r) {
        W.OutcomeFits(c, r);
      }
      var v := c.verbs[r.verb];
      var pc := P.Outcome(v, r);
      ghost var s0 := View(before);
      ghost var ran := before.(ran := true);
      ReachesStep(c, store.cfg, s0);
      ghost var s1 := View(ran.(pc := pc));
      SameOutcome(v, r, before);
      assert P.Step(c, store.cfg, s0, P.Move(0)) == s1;
      if pc.Replied? {
        after := ran.(pc := pc);
        return pc.reply, after;
      }
      AuditAlone(c, store.cfg, s1, ran, v, pc.event, pc.next, t);
      Audit(v, r, pc.event, t);
      reply := pc.next.reply;
      after := ran.(pc := P.Replied(reply), trail := ran.trail + [pc.event.stage]);
      ReachesOn(c, store.cfg, s0, s1, View(after));
    }
  }

  /** The outcome depends on the request's fixed part only, and ends in a row or a reply. */
  lemma SameOutcome(v: C.Verb, r: P.Request, q: P.Request)
    requires q == r.(pc := q.pc, trail := q.trail, asked := q.asked)
    ensures P.Outcome(v, q) == P.Outcome(v, r)
    ensures || P.Outcome(v, r).Replied?
            || (P.Outcome(v, r).Writing? && B.Storable(P.Outcome(v, r).event.stage) && P.Outcome(v, r).next.ToReply?)
  {}

  function Still(now: real): Times { Times(now, B.Readings(now, now, now, now)) }

  /** A request with no opening on record whose dialog, if there is one, is answered yes gets its
      process started. */
  lemma ReachesItsProcess(c: C.Catalog, cfg: B.Config, s: P.State, r: P.Request, v: C.Verb)
    returns (q: P.Request, t: P.State)
    requires s.requests == [r] && r.pc.Arrived? && P.Early(c, r).None? && v == c.verbs[r.verb]
    requires (c.RequiresConfirmation(r.verb) ==> r.yes) && B.LastOpening(s.log, r.verb).None?
    ensures Reaches(c, cfg, s, t) && t.requests == [q] && q.pc.Running? && q.ran == r.ran
    ensures q == r.(pc := q.pc, trail := q.trail, asked := q.asked)
  {
    var requested := P.Plain(B.Requested, None);
    var s1 := P.Step(c, cfg, s, P.Move(0));
    assert s1 == s.(requests := [r.(pc := P.Writing(requested, P.ToGuard))]);
    ReachesStep(c, cfg, s);
    AuditAlone(c, cfg, s1, r, v, requested, P.ToGuard, Still(s.now));
    var first := B.Row(s.now, r.verb, B.Requested, P.Note(v, r, None));
    B.QueriesAfterAppend(s.log, first, r.verb, 0.0);
    q := r.(trail := r.trail + [B.Requested]);
    var s2 := s1.(audit := s.audit + [RowFor(s.now, v, r, requested)], log := s.log + [first],
                  requests := [q.(pc := P.Go(v, r, P.ToGuard))]);
    ReachesOn(c, cfg, s, s1, s2);
    GuardAlone(c, cfg, s2, q, v, s.now, s.now);
    q := q.(pc := if c.RequiresConfirmation(r.verb) then P.Asking else P.Running);
    t := s2.(requests := [q]);
    ReachesOn(c, cfg, s, s2, t);
    if c.RequiresConfirmation(r.verb) {
      var asked := t;
      q, t := AllowedAlone(c, cfg, asked, q, v);
      ReachesOn(c, cfg, s, asked, t);
    }
  }

  /** The dialog, answered yes, and its row. */
  lemma AllowedAlone(c: C.Catalog, cfg: B.Config, s: P.State, r: P.Request, v: C.Verb)
    returns (q: P.Request, t: P.State)
    requires s.requests == [r] && r.pc.Asking? && r.yes && r.verb in c.verbs && v == c.verbs[r.verb]
    ensures Reaches(c, cfg, s, t) && t.requests == [q] && q.pc.Running?
    ensures q == r.(pc := q.pc, trail := q.trail, asked := q.asked)
  {
    var e := P.Plain(B.Approved, None);
    var asked := r.(asked := true);
    var s1 := P.Step(c, cfg, s, P.Move(0));
    assert s1 == s.(dialogs := s.dialogs + [(r.verb, C.PublicArgs(v, r.args))],
                    requests := [asked.(pc := P.Writing(e, P.ToRun))]);
    ReachesStep(c, cfg, s);
    AuditAlone(c, cfg, s1, asked, v, e, P.ToRun, Still(s.now));
    q := asked.(pc := P.Running, trail := r.trail + [B.Approved]);
    t := s1.(audit := s.audit + [RowFor(s.now, v, asked, e)],
             log := B.OutcomeLog(cfg, s.log, r.verb, B.Approved, P.Note(v, asked, None), Still(s.now).store),
             requests := [q]);
    ReachesOn(c, cfg, s, s1, t);
  }

  /** The process and its outcome row, alone. */
  lemma RunsAlone(c: C.Catalog, cfg: B.Config, s: P.State, r: P.Request, q: P.Request, v: C.Verb)
    requires r.verb in c.verbs && v == c.verbs[r.verb] && q == r.(pc := q.pc, trail := q.trail, asked := q.asked)
    requires s.requests == [q.(pc := P.Running)]
    requires P.Outcome(v, r).Writing? && B.Storable(P.Outcome(v, r).event.stage)
    ensures exists t: P.State ::
              Reaches(c, cfg, s, t) && t.audit == s.audit + [RowFor(s.now, v, r, P.Outcome(v, r).event)]
  {
    var pc := P.Outcome(v, r);
    var running := q.(pc := P.Running);
    SameOutcome(v, r, running);
    var ran := running.(ran := true);
    var s1 := P.Step(c, cfg, s, P.Move(0));
    assert s1 == s.(requests := [ran.(pc := pc)]);
    ReachesStep(c, cfg, s);
    AuditAlone(c, cfg, s1, ran, v, pc.event, pc.next, Still(s.now));
    var end := s1.(audit := s.audit + [RowFor(s.now, v, r, pc.event)],
                   log := B.OutcomeLog(cfg, s.log, r.verb, pc.event.stage, P.Note(v, r, pc.event.error),
                                       Still(s.now).store),
                   requests := [ran.(pc := P.Go(v, ran, pc.next), trail := ran.trail + [pc.event.stage])]);
    ReachesOn(c, cfg, s, s1, end);
  }

  /** So a process that merely exited with an error is audited as a timeout, which the breaker
      counts, if the verb's name says "timed out": from any state in which such a request stands
      alone with the breaker closed, the run that serves it ends its audit file with a timeout row. */
  lemma NamedSoIsAuditedAsTimeout(c: C.Catalog, cfg: B.Config, s: P.State, r: P.Request)
    requires C.Loaded(c) && s.requests == [r] && r.pc.Arrived? && r.route != P.WatchRoute && P.Early(c, r).None?
    requires (c.RequiresConfirmation(r.verb) ==> r.yes) && B.LastOpening(s.log, r.verb).None?
    requires r.process.Exited? && r.process.code != 0 && T.Mentions(r.verb)
    ensures exists t: P.State ::
              Reaches(c, cfg, s, t) && t.audit != [] && t.audit[|t.audit| - 1].stage == B.Timeout
  {
    var v := c.verbs[r.verb];
    C.ValidatedOnceValidLater(v, r.args, r.process, r.spawn);
    T.TimeoutIffTimedOutOrNamedSo(v, r.args, r.process);
    var q, m := ReachesItsProcess(c, cfg, s, r, v);
    RunsAlone(c, cfg, m, r, q, v);
    var event := P.Outcome(v, r).event;
    var t: P.State :| Reaches(c, cfg, m, t) && t.audit == m.audit + [RowFor(m.now, v, r, event)];
    ReachesOn(c, cfg, s, m, t);
  }
}
