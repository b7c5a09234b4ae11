/** What every request is told, and what is written about it in the audit file, the store and the
    dialogs, in terms of the request itself (daemon.py, dispatch/risk_gate.py). */
module PipelineAnswers {
  import opened Common
  import A = Argv
  import B = Breaker
  import C = Catalog
  import O = Outcomes
  import P = Pipeline

  // ---- who gets to the gate ------------------------------------------------------------------

  ghost predicate RouteFits(v: C.Verb, route: P.Route) {
    match route
    case PerceiveRoute => v.tier == C.TierA && v.direction == C.Perceive
    case ActRoute => v.tier == C.TierA && v.direction == C.Act
    case WatchRoute => v.tier == C.TierB
  }

  ghost predicate Accepted(c: C.Catalog, r: P.Request) {
    r.verb in c.verbs && RouteFits(c.verbs[r.verb], r.route) && A.Valid(c.verbs[r.verb], r.args)
  }

  /** The reply to a request that does not get there says why. */
  ghost predicate TurnedAway(c: C.Catalog, r: P.Request, reply: P.Reply) {
    && (reply == P.Reply(404, P.UnknownVerb(r.verb)) <==> r.verb !in c.verbs)
    && (r.verb in c.verbs ==>
          var v := c.verbs[r.verb];
          var nameless := A.RightNames(v, r.args) && !C.PlaceholdersBound(v);
          && (reply == P.Reply(400, P.WrongRoute) <==> !RouteFits(v, r.route))
          && (reply == P.Reply(500, P.Aborted) <==> RouteFits(v, r.route) && nameless)
          && (RouteFits(v, r.route) && !nameless ==>
                reply.status == 400 && reply.body.BadArgs? && A.Blames(v, r.args, reply.body.e)))
  }

  /** With a loaded catalog, the checks before the gate let exactly the accepted requests through. */
  lemma ChecksAreExact(c: C.Catalog, r: P.Request)
    requires C.Loaded(c)
    ensures P.Early(c, r).None? <==> Accepted(c, r)
    ensures P.Early(c, r).Some? ==> TurnedAway(c, r, P.Early(c, r).value)
  {
    if r.verb in c.verbs {
      var v := c.verbs[r.verb];
      A.ArgCheckExact(v, r.args);
      A.KeysAreNames(v, r.args);
      C.BuildArgvOk(v, r.args);
    }
  }

  // ---- what a run leads to ---------------------------------------------------------------------

  /** The process, or Popen, does something that no handler expects. */
  ghost predicate Breaks(r: P.Request) { if r.route.WatchRoute? then r.spawn.SpawnCrashed? else r.process.Crashed? }

  /** The reply to a request whose process ran. */
  ghost predicate Told(v: C.Verb, r: P.Request, reply: P.Reply) {
    if r.route.WatchRoute? then
      || (r.spawn.Spawned? && reply == P.Reply(200, P.Subscribed(r.spawn.id)))
      || (exists text :: O.SpawnFails(v, r.args, r.spawn, text) &&
                         reply == P.Reply(500, P.Error(r.verb + ": " + text, None)))
    else
      || (reply.status == 200 && reply.body.Result? && O.Gave(v, r.process, reply.body.data))
      || (reply.status == 500 && reply.body.Error? && reply.body.stderr.Some? &&
          O.Failed(v, r.args, r.process, reply.body.text, reply.body.stderr.value))
      || (r.process.Rejected? && reply == P.Reply(400, P.InvalidCall(r.process.text)))
  }

  /** text is the error that the run ended with. */
  ghost predicate ErrorOf(v: C.Verb, r: P.Request, text: string) {
    if r.route.WatchRoute? then O.SpawnFails(v, r.args, r.spawn, text)
    else (exists stderr :: O.Failed(v, r.args, r.process, text, stderr)) || r.process == C.Rejected(text)
  }

  /** The outcome row of a run: a timeout exactly if the run failed and its error says timed out, with
      at most 500 characters of its standard error; the subscription exactly of a started watch. */
  ghost predicate Noted(v: C.Verb, r: P.Request, e: P.Event) {
    && e.stage in {B.Executed, B.Failed, B.Timeout}
    && (e.stage == B.Executed <==> e.error.None?)
    && (e.error.Some? ==> ErrorOf(v, r, e.error.value))
    && (e.subscription.Some? <==> r.route.WatchRoute? && r.spawn.Spawned?)
    && (e.subscription.Some? ==> e.subscription.value == r.spawn.id)
    && (if r.route.WatchRoute? then
          e.stderr.None? && e.stage != B.Timeout && (e.stage == B.Executed <==> r.spawn.Spawned?)
        else
          && (e.stage == B.Executed <==> exists data :: O.Gave(v, r.process, data))
          && (e.stderr.Some? <==> e.stage != B.Executed && !r.process.Rejected?)
          && (e.stderr.Some? ==>
                (exists whole :: O.Failed(v, r.args, r.process, e.error.value, whole) &&
                                 O.FirstOf(e.stderr.value, whole, 500)))
          && (e.stage == B.Timeout <==> e.stderr.Some? && O.SaysTimedOut(v, r.args, r.process)))
  }

  /** Either an exception that nothing catches, or a row and a reply that fit the run. */
  lemma OutcomeFits(c: C.Catalog, r: P.Request)
    requires C.Loaded(c) && Accepted(c, r)
    ensures var v, pc := c.verbs[r.verb], P.Outcome(c.verbs[r.verb], r);
            if Breaks(r) then pc == P.Replied(P.Reply(500, P.Aborted))
            else pc.Writing? && Noted(v, r, pc.event) && pc.next.ToReply? && Told(v, r, pc.next.reply)
  {
    var v := c.verbs[r.verb];
    if r.route.WatchRoute? {
      O.WatchResult(v, r.args, r.spawn);
    } else {
      TierAOutcomeFits(v, r);
    }
  }

  lemma TierAOutcomeFits(v: C.Verb, r: P.Request)
    requires C.Sound(v) && v.tier == C.TierA && A.Valid(v, r.args) && !r.route.WatchRoute?
    ensures var pc := P.Outcome(v, r);
            if Breaks(r) then pc == P.Replied(P.Reply(500, P.Aborted))
            else pc.Writing? && Noted(v, r, pc.event) && pc.next.ToReply? && Told(v, r, pc.next.reply)
  {
    O.TierAResult(v, r.args, r.process);
    var x := C.RunTierA(v, r.args, r.process);
    if x.ExecutionError? {
      assert O.Failed(v, r.args, r.process, x.text, x.stderr);
      O.MarkedIffSaysTimedOut(v, r.args, r.process, x.text, x.stderr);
      assert O.FirstOf(C.Upto(x.stderr, 500), x.stderr, 500);
    } else if x.Success? {
      assert O.Gave(v, r.process, x.data);
    }
  }

  // ---- every request in every run ----------------------------------------------------------------

  /** What is written with a stage, beside it: nothing before the process, then the error of the run. */
  ghost predicate ErrorFits(v: C.Verb, r: P.Request, stage: B.Stage, error: Option<string>) {
    && stage != B.CircuitOpen
    && (B.Counts(stage) <==> error.Some?)
    && (error.Some? ==> r.ran && ErrorOf(v, r, error.value))
  }

  /** The breaker thread of a request works on its verb and its public arguments. */
  ghost predicate ThreadTells(v: C.Verb, r: P.Request, th: B.Thread) {
    && th.verb == r.verb && th.note.risk == v.risk && th.note.args == C.PublicArgs(v, r.args)
    && ErrorFits(v, r, th.stage, th.note.error)
  }

  const DECLINED := P.Reply(403, P.Declined)

  ghost predicate Tells(c: C.Catalog, r: P.Request) {
    && ((!r.pc.Arrived? && !r.pc.Replied?) || r.ran ==> Accepted(c, r))
    && (Accepted(c, r) ==>
          var v := c.verbs[r.verb];
          match r.pc
          case Arrived => !r.ran
          case Writing(e, next) =>
            if r.ran then Noted(v, r, e) && next.ToReply? && Told(v, r, next.reply) && !Breaks(r)
            else e == P.Plain(e.stage, None) && e.stage in {B.Requested, B.Approved, B.Denied} &&
                 (next.ToReply? ==> next.reply == DECLINED)
          case Recording(th, after) =>
            ThreadTells(v, r, th) && r.trail != [] && th.stage == r.trail[|r.trail| - 1] &&
            if r.ran then after.ToReply? && Told(v, r, after.reply) && !Breaks(r)
            else after.ToReply? ==> after.reply == DECLINED
          case Guarding(th) => ThreadTells(v, r, th) && th.stage == B.Requested && !r.ran
          case Asking => !r.ran
          case Running => !r.ran
          case Replied(reply) =>
            if !r.ran then reply == P.Reply(500, P.BreakerOpen) || reply == DECLINED
            else if Breaks(r) then reply == P.Reply(500, P.Aborted)
            else Told(v, r, reply))
  }

  ghost predicate SameCall(r: P.Request, q: P.Request) {
    q == r.(pc := q.pc, trail := q.trail, asked := q.asked, ran := q.ran)
  }

  lemma SameCallSameTelling(c: C.Catalog, v: C.Verb, r: P.Request, q: P.Request)
    requires SameCall(r, q)
    ensures Accepted(c, q) == Accepted(c, r) && Breaks(q) == Breaks(r)
    ensures forall reply :: Told(v, q, reply) <==> Told(v, r, reply)
    ensures forall e :: Noted(v, q, e) <==> Noted(v, r, e)
    ensures forall text :: ErrorOf(v, q, text) <==> ErrorOf(v, r, text)
  {}

  lemma RanTells(c: C.Catalog, cfg: B.Config, s: P.State, r: P.Request)
    requires C.Loaded(c) && r.pc.Running? && Tells(c, r)
    ensures Tells(c, P.Moved(c, cfg, s, r))
  {
    OutcomeFits(c, r);
    SameCallSameTelling(c, c.verbs[r.verb], r, P.Moved(c, cfg, s, r));
  }

  lemma NotedErrorFits(v: C.Verb, r: P.Request, e: P.Event)
    requires r.ran && Noted(v, r, e)
    ensures ErrorFits(v, r, e.stage, e.error)
  {}

  lemma WroteTells(c: C.Catalog, cfg: B.Config, s: P.State, r: P.Request)
    requires r.pc.Writing? && P.RequestInv(c, r) && Tells(c, r)
    ensures Tells(c, P.Moved(c, cfg, s, r))
  {
    var v := c.verbs[r.verb];
    SameCallSameTelling(c, v, r, P.Moved(c, cfg, s, r));
    if r.ran {
      NotedErrorFits(v, r, r.pc.event);
    }
  }

  lemma RecordedTells(c: C.Catalog, cfg: B.Config, s: P.State, r: P.Request)
    requires r.pc.Recording? && P.RequestInv(c, r) && Tells(c, r)
    ensures Tells(c, P.Moved(c, cfg, s, r))
  {
    SameCallSameTelling(c, c.verbs[r.verb], r, P.Moved(c, cfg, s, r));
  }

  lemma GuardedTells(c: C.Catalog, cfg: B.Config, s: P.State, r: P.Request)
    requires r.pc.Guarding? && P.RequestInv(c, r) && Tells(c, r)
    ensures Tells(c, P.Moved(c, cfg, s, r))
  {
    SameCallSameTelling(c, c.verbs[r.verb], r, P.Moved(c, cfg, s, r));
  }

  lemma MovedTells(c: C.Catalog, cfg: B.Config, s: P.State, r: P.Request)
    requires C.Loaded(c) && P.RequestInv(c, r) && Tells(c, r)
    ensures Tells(c, P.Moved(c, cfg, s, r))
  {
    match r.pc
    case Arrived => ChecksAreExact(c, r);
    case Writing(_, _) => WroteTells(c, cfg, s, r);
    case Recording(_, _) => RecordedTells(c, cfg, s, r);
    case Guarding(_) => GuardedTells(c, cfg, s, r);
    case Asking => SameCallSameTelling(c, c.verbs[r.verb], r, P.Moved(c, cfg, s, r));
    case Running => RanTells(c, cfg, s, r);
    case Replied(_) =>
  }

  lemma {:induction false} RunTells(c: C.Catalog, cfg: B.Config, s: P.State, acts: seq<P.Action>, k: nat)
    requires C.Loaded(c) && P.Start(s) && k < |s.requests|
    ensures k < |P.Run(c, cfg, s, acts).requests| && Tells(c, P.Run(c, cfg, s, acts).requests[k])
    ensures P.RequestInv(c, P.Run(c, cfg, s, acts).requests[k])
  {
    P.RunKeepsCount(c, cfg, s, acts);
    P.RunInv(c, cfg, s, acts);
    if acts != [] {
      var m := P.Run(c, cfg, s, acts[..|acts| - 1]);
      RunTells(c, cfg, s, acts[..|acts| - 1], k);
      P.StepMoves(c, cfg, m, acts[|acts| - 1]);
      MovedTells(c, cfg, m, m.requests[k]);
    }
  }

  /** What every request of every run is told, once it has its reply: why it was turned away; or that
      the breaker is open, or that the human declined; or what its process, or Popen, made of it. */
  lemma EveryReplyTells(c: C.Catalog, cfg: B.Config, s: P.State, acts: seq<P.Action>, k: nat)
    requires C.Loaded(c) && P.Start(s) && k < |s.requests|
    ensures k < |P.Run(c, cfg, s, acts).requests|
    ensures var r := P.Run(c, cfg, s, acts).requests[k];
            r.pc.Replied? ==>
              if !Accepted(c, r) then r.trail == [] && !r.ran && TurnedAway(c, r, r.pc.reply)
              else if !r.ran then
                || (r.pc.reply == P.Reply(500, P.BreakerOpen) && r.trail == [B.Requested])
                || (r.pc.reply == P.Reply(403, P.Declined) && r.trail == [B.Requested, B.Denied] && r.asked && !r.yes)
              else if Breaks(r) then r.pc.reply == P.Reply(500, P.Aborted)
              else Told(c.verbs[r.verb], r, r.pc.reply)
  {
    RunTells(c, cfg, s, acts, k);
    var r := P.Run(c, cfg, s, acts).requests[k];
    ChecksAreExact(c, r);
  }

  // ---- every row in every run ----------------------------------------------------------------------

  /** The row is about this request: its verb, risk and redacted arguments, one of its stages, and
      beside an outcome what the run gave, beside the other stages nothing. */
  ghost predicate RowTells(c: C.Catalog, r: P.Request, row: P.AuditRow) {
    && r.verb in c.verbs && row.verb == r.verb && row.risk == c.verbs[r.verb].risk
    && row.args == C.PublicArgs(c.verbs[r.verb], r.args) && row.stage in r.trail
    && var e := P.Event(row.stage, row.error, row.stderr, row.subscription);
       if P.IsOutcome(row.stage) then r.ran && !Breaks(r) && Noted(c.verbs[r.verb], r, e)
       else e == P.Plain(row.stage, None)
  }

  /** So is the row of the store, which holds the error only; a circuit_open row is a rejection without
      an error, or a trip with the error of the failure that led to it. */
  ghost predicate StoreRowTells(c: C.Catalog, r: P.Request, row: B.Row) {
    && r.verb in c.verbs && row.verb == r.verb && row.note.risk == c.verbs[r.verb].risk
    && row.note.args == C.PublicArgs(c.verbs[r.verb], r.args)
    && (row.stage != B.CircuitOpen ==> row.stage in r.trail && (B.Counts(row.stage) <==> row.note.error.Some?))
    && (row.note.error.Some? ==> r.ran && ErrorOf(c.verbs[r.verb], r, row.note.error.value))
  }

  /** So is a dialog: the request is gated, and the arguments shown are the redacted ones. */
  ghost predicate DialogTells(c: C.Catalog, r: P.Request, dialog: (string, Args)) {
    r.asked && P.Gated(c, r.verb) && dialog == (r.verb, C.PublicArgs(c.verbs[r.verb], r.args))
  }

  /** Whatever is told of a request stays true of it. */
  lemma TellingStays(c: C.Catalog, cfg: B.Config, s: P.State, r: P.Request)
    ensures var q := P.Moved(c, cfg, s, r);
            && (forall row :: RowTells(c, r, row) ==> RowTells(c, q, row))
            && (forall row :: StoreRowTells(c, r, row) ==> StoreRowTells(c, q, row))
            && (forall dialog :: DialogTells(c, r, dialog) ==> DialogTells(c, q, dialog))
  {
    var q := P.Moved(c, cfg, s, r);
    if r.verb in c.verbs {
      SameCallSameTelling(c, c.verbs[r.verb], r, q);
    }
    assert forall stage :: stage in r.trail ==> stage in q.trail;
  }

  ghost predicate RowOwned(c: C.Catalog, s: P.State, row: P.AuditRow) {
    exists k :: 0 <= k < |s.requests| && RowTells(c, s.requests[k], row)
  }

  ghost predicate StoreRowOwned(c: C.Catalog, s: P.State, row: B.Row) {
    exists k :: 0 <= k < |s.requests| && StoreRowTells(c, s.requests[k], row)
  }

  ghost predicate DialogOwned(c: C.Catalog, s: P.State, dialog: (string, Args)) {
    exists k :: 0 <= k < |s.requests| && DialogTells(c, s.requests[k], dialog)
  }

  /** Everything written since the store had n rows is about some request. */
  ghost predicate AllOwned(c: C.Catalog, s: P.State, n: nat) {
    && (forall i :: 0 <= i < |s.audit| ==> RowOwned(c, s, s.audit[i]))
    && (forall i :: n <= i < |s.log| ==> StoreRowOwned(c, s, s.log[i]))
    && (forall i :: 0 <= i < |s.dialogs| ==> DialogOwned(c, s, s.dialogs[i]))
  }

  lemma OwnersStay(c: C.Catalog, cfg: B.Config, s: P.State, a: P.Action)
    ensures var t := P.Step(c, cfg, s, a);
            && (forall row :: RowOwned(c, s, row) ==> RowOwned(c, t, row))
            && (forall row :: StoreRowOwned(c, s, row) ==> StoreRowOwned(c, t, row))
            && (forall dialog :: DialogOwned(c, s, dialog) ==> DialogOwned(c, t, dialog))
  {
    var t := P.Step(c, cfg, s, a);
    P.StepMoves(c, cfg, s, a);
    if a.Move? && a.k < |s.requests| {
      TellingStays(c, cfg, s, s.requests[a.k]);
    }
    forall row | RowOwned(c, s, row) ensures RowOwned(c, t, row) {
      var k :| 0 <= k < |s.requests| && RowTells(c, s.requests[k], row);
      assert RowTells(c, t.requests[k], row);
    }
    forall row | StoreRowOwned(c, s, row) ensures StoreRowOwned(c, t, row) {
      var k :| 0 <= k < |s.requests| && StoreRowTells(c, s.requests[k], row);
      assert StoreRowTells(c, t.requests[k], row);
    }
    forall dialog | DialogOwned(c, s, dialog) ensures DialogOwned(c, t, dialog) {
      var k :| 0 <= k < |s.requests| && DialogTells(c, s.requests[k], dialog);
      assert DialogTells(c, t.requests[k], dialog);
    }
  }

  /** What the step of a request writes is about it. */
  lemma NewRowTells(c: C.Catalog, cfg: B.Config, s: P.State, k: nat)
    requires k < |s.requests| && Tells(c, s.requests[k])
    ensures var t, q := P.Step(c, cfg, s, P.Move(k)), P.Moved(c, cfg, s, s.requests[k]);
            t.audit == s.audit || (|t.audit| == |s.audit| + 1 && t.audit[..|s.audit|] == s.audit &&
                                   RowTells(c, q, t.audit[|s.audit|]))
  {
    var r := s.requests[k];
    if r.pc.Writing? {
      SameCallSameTelling(c, c.verbs[r.verb], r, P.Moved(c, cfg, s, r));
    }
  }

  lemma NewStoreRowTells(c: C.Catalog, cfg: B.Config, s: P.State, k: nat)
    requires k < |s.requests| && Tells(c, s.requests[k]) && P.RequestInv(c, s.requests[k])
    ensures var t, q := P.Step(c, cfg, s, P.Move(k)), P.Moved(c, cfg, s, s.requests[k]);
            t.log == s.log || (|t.log| == |s.log| + 1 && t.log[..|s.log|] == s.log &&
                               StoreRowTells(c, q, t.log[|s.log|]))
  {
    var r := s.requests[k];
    if r.pc.Recording? || r.pc.Guarding? {
      SameCallSameTelling(c, c.verbs[r.verb], r, P.Moved(c, cfg, s, r));
    }
  }

  lemma NewDialogTells(c: C.Catalog, cfg: B.Config, s: P.State, k: nat)
    requires k < |s.requests| && Tells(c, s.requests[k]) && P.RequestInv(c, s.requests[k])
    ensures var t, q := P.Step(c, cfg, s, P.Move(k)), P.Moved(c, cfg, s, s.requests[k]);
            t.dialogs == s.dialogs || (|t.dialogs| == |s.dialogs| + 1 && t.dialogs[..|s.dialogs|] == s.dialogs &&
                                       DialogTells(c, q, t.dialogs[|s.dialogs|]))
  {}

  lemma StepOwned(c: C.Catalog, cfg: B.Config, s: P.State, a: P.Action, n: nat)
    requires AllOwned(c, s, n) && n <= |s.log|
    requires forall k :: 0 <= k < |s.requests| ==> Tells(c, s.requests[k]) && P.RequestInv(c, s.requests[k])
    ensures AllOwned(c, P.Step(c, cfg, s, a), n) && n <= |P.Step(c, cfg, s, a).log|
  {
    var t := P.Step(c, cfg, s, a);
    OwnersStay(c, cfg, s, a);
    if a.Move? && a.k < |s.requests| {
      P.StepMoves(c, cfg, s, a);
      NewRowTells(c, cfg, s, a.k);
      NewStoreRowTells(c, cfg, s, a.k);
      NewDialogTells(c, cfg, s, a.k);
      assert t.requests[a.k] == P.Moved(c, cfg, s, s.requests[a.k]);
      forall i | 0 <= i < |t.audit| ensures RowOwned(c, t, t.audit[i]) {
        assert i < |s.audit| ==> t.audit[i] == s.audit[i];
      }
      forall i | n <= i < |t.log| ensures StoreRowOwned(c, t, t.log[i]) {
        assert i < |s.log| ==> t.log[i] == s.log[i];
      }
      forall i | 0 <= i < |t.dialogs| ensures DialogOwned(c, t, t.dialogs[i]) {
        assert i < |s.dialogs| ==> t.dialogs[i] == s.dialogs[i];
      }
    }
  }

  /** Every row of the audit file, every new row of the store and every dialog of every run is about
      one of its requests, and says of it what is so. */
  lemma {:induction false} EveryRowTells(c: C.Catalog, cfg: B.Config, s: P.State, acts: seq<P.Action>)
    requires C.Loaded(c) && P.Start(s)
    ensures AllOwned(c, P.Run(c, cfg, s, acts), |s.log|) && |s.log| <= |P.Run(c, cfg, s, acts).log|
  {
    if acts != [] {
      var init := acts[..|acts| - 1];
      EveryRowTells(c, cfg, s, init);
      var m := P.Run(c, cfg, s, init);
      P.RunKeepsCount(c, cfg, s, init);
      forall k | 0 <= k < |m.requests| ensures Tells(c, m.requests[k]) && P.RequestInv(c, m.requests[k]) {
        RunTells(c, cfg, s, init, k);
      }
      StepOwned(c, cfg, m, acts[|acts| - 1], |s.log|);
    }
  }
}
