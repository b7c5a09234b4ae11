/** The proviso under which what goes to stdin never shows is exact: a program that mentions the
    stdin argument shows it in some run (dispatch/catalog.py, dispatch/tier_a.py, daemon.py). */
module Redaction {
  import opened Common
  import B = Breaker
  import C = Catalog
  import G = Gateway
  import P = Pipeline

  predicate NothingRan(s: P.State) { forall k :: 0 <= k < |s.requests| ==> !s.requests[k].ran }

  lemma RanBefore(c: C.Catalog, cfg: B.Config, s: P.State, a: P.Action)
    requires NothingRan(P.Step(c, cfg, s, a))
    ensures NothingRan(s) && P.RunsSafely(c, s, a)
  {
    P.StepMoves(c, cfg, s, a);
    var t := P.Step(c, cfg, s, a);
    assert a.Move? && a.k < |s.requests| ==> t.requests[a.k] == P.Moved(c, cfg, s, s.requests[a.k]);
    forall k | 0 <= k < |s.requests| ensures !s.requests[k].ran {
      assert !t.requests[k].ran;
    }
  }

  /** As long as no process has been started, twins cannot be told apart, whatever the programs. */
  lemma {:induction false} TwinsUntilRun(c: C.Catalog, cfg: B.Config, s: P.State, t: P.State, acts: seq<P.Action>)
    requires P.TwinStates(c, s, t) && NothingRan(P.Run(c, cfg, s, acts))
    ensures P.TwinStates(c, P.Run(c, cfg, s, acts), P.Run(c, cfg, t, acts))
  {
    if acts != [] {
      var init := acts[..|acts| - 1];
      RanBefore(c, cfg, P.Run(c, cfg, s, init), acts[|acts| - 1]);
      TwinsUntilRun(c, cfg, s, t, init);
      P.TwinsStep(c, cfg, P.Run(c, cfg, s, init), P.Run(c, cfg, t, init), acts[|acts| - 1]);
    }
  }

  function Route(v: C.Verb): P.Route {
    if v.tier == C.TierB then P.WatchRoute else if v.direction == C.Perceive then P.PerceiveRoute else P.ActRoute
  }

  /** A request whose program will not be found. */
  function Lost(v: C.Verb, name: string, args: Args): P.Request {
    P.Request(Route(v), name, args, true, C.NotFound, C.NO_SUCH_FILE, P.Arrived, [], false, false)
  }

  function Alone(r: P.Request): P.State { P.State(0.0, [], [], [], [r]) }

  /** The text of the error that a request whose program is not found ends with. */
  function ErrorShown(v: C.Verb, r: P.Request): Option<string> {
    if r.route == P.WatchRoute then
      var w := C.RunWatch(v, r.args, r.spawn);
      if w.OsError? then Some(w.text) else None
    else
      var x := C.RunTierA(v, r.args, r.process);
      if x.ExecutionError? then Some(x.text) else None
  }

  lemma OutcomeShowsText(v: C.Verb, r: P.Request)
    requires ErrorShown(v, r).Some?
    ensures P.Outcome(v, r).Writing? && P.Outcome(v, r).event.error == ErrorShown(v, r)
  {}

  lemma ProcessRuns(c: C.Catalog, cfg: B.Config, s: P.State, r: P.Request)
    requires s.requests == [r] && r.verb in c.verbs && r.pc.Running?
    ensures |P.Step(c, cfg, s, P.Move(0)).requests| == 1
    ensures P.Step(c, cfg, s, P.Move(0)).requests[0].pc == P.Outcome(c.verbs[r.verb], r)
  {
    P.StepMoves(c, cfg, s, P.Move(0));
  }

  lemma OtherPcNoTwins(c: C.Catalog, s: P.State, t: P.State)
    requires |s.requests| == |t.requests| == 1 && s.requests[0].pc != t.requests[0].pc
    ensures !P.TwinStates(c, s, t)
  {
    assert !P.TwinRequests(c, s.requests[0], t.requests[0]);
  }

  /** Twins that differ in the error of their process differ once it has been run. */
  lemma LeakShows(c: C.Catalog, cfg: B.Config, s: P.State, t: P.State, r: P.Request, q: P.Request)
    requires s.requests == [r] && t.requests == [q] && r.verb in c.verbs
    requires r.pc.Running? && q == r.(args := q.args)
    requires ErrorShown(c.verbs[r.verb], r).Some? && ErrorShown(c.verbs[r.verb], q).Some?
    requires ErrorShown(c.verbs[r.verb], r) != ErrorShown(c.verbs[r.verb], q)
    ensures !P.TwinStates(c, P.Step(c, cfg, s, P.Move(0)), P.Step(c, cfg, t, P.Move(0)))
  {
    OutcomeShowsText(c.verbs[r.verb], r);
    OutcomeShowsText(c.verbs[r.verb], q);
    ProcessRuns(c, cfg, s, r);
    ProcessRuns(c, cfg, t, q);
    OtherPcNoTwins(c, P.Step(c, cfg, s, P.Move(0)), P.Step(c, cfg, t, P.Move(0)));
  }

  /** Twins at the start whose errors will differ. */
  lemma LeakingStates(c: C.Catalog, name: string) returns (s: P.State, t: P.State, a: Args, b: Args)
    requires C.Loaded(c) && name in c.verbs && !C.ProgramSafe(c.verbs[name])
    ensures P.Start(s) && P.Start(t) && P.TwinStates(c, s, t)
    ensures var v := c.verbs[name];
            && s == Alone(Lost(v, name, a)) && t == Alone(Lost(v, name, b))
            && P.Early(c, Lost(v, name, a)).None?
            && ErrorShown(v, Lost(v, name, a)).Some? && ErrorShown(v, Lost(v, name, b)).Some?
            && ErrorShown(v, Lost(v, name, a)) != ErrorShown(v, Lost(v, name, b))
  {
    var v := c.verbs[name];
    a, b := C.LeakingTwins(v);
    s, t := Alone(Lost(v, name, a)), Alone(Lost(v, name, b));
  }

  /** For a verb whose program mentions its stdin argument: two requests alone, twins at the start,
      and a schedule after which they can be told apart. */
  lemma UnsafeProgramShows(c: C.Catalog, cfg: B.Config, name: string)
    returns (s: P.State, t: P.State, acts: seq<P.Action>)
    requires C.Loaded(c) && name in c.verbs && !C.ProgramSafe(c.verbs[name])
    ensures P.Start(s) && P.Start(t) && P.TwinStates(c, s, t)
    ensures !P.TwinStates(c, P.Run(c, cfg, s, acts), P.Run(c, cfg, t, acts))
  {
    var a, b;
    s, t, a, b := LeakingStates(c, name);
    var r, m := G.ReachesItsProcess(c, cfg, s, s.requests[0], c.verbs[name]);
    var go :| m == P.Run(c, cfg, s, go);
    TwinsUntilRun(c, cfg, s, t, go);
    KeepsArgs(c, cfg, t, go);
    var n := P.Run(c, cfg, t, go);
    LeakShows(c, cfg, m, n, r, n.requests[0]);
    acts := go + [P.Move(0)];
    assert acts[..|go|] == go;
  }

  lemma KeepsArgs(c: C.Catalog, cfg: B.Config, s: P.State, acts: seq<P.Action>)
    requires |s.requests| == 1
    ensures |P.Run(c, cfg, s, acts).requests| == 1 && P.Run(c, cfg, s, acts).requests[0].args == s.requests[0].args
  {
    P.RunKeepsRequest(c, cfg, s, acts, 0);
  }

  /** With a loaded catalog, exactly: stdin texts of equal length never show, in any run of any
      requests under any schedule, if and only if no program that can be run mentions them. */
  lemma StdinNeverShowsExactly(c: C.Catalog, cfg: B.Config)
    requires C.Loaded(c)
    ensures (forall s, t, acts :: P.Start(s) && P.TwinStates(c, s, t) ==>
               P.TwinStates(c, P.Run(c, cfg, s, acts), P.Run(c, cfg, t, acts)))
            <==> P.ProgramsSafe(c)
  {
    if P.ProgramsSafe(c) {
      forall s, t, acts | P.Start(s) && P.TwinStates(c, s, t)
        ensures P.TwinStates(c, P.Run(c, cfg, s, acts), P.Run(c, cfg, t, acts))
      {
        P.StdinNeverShows(c, cfg, s, t, acts);
      }
    } else {
      var name :| name in c.verbs && !C.ProgramSafe(c.verbs[name]);
      var s, t, acts := UnsafeProgramShows(c, cfg, name);
    }
  }
}
