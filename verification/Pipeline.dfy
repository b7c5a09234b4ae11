/** The gated request pipeline: many request threads, one audit file, one store.  Store
    operations run at the granularity of the breaker's lock sections (daemon.py,
    dispatch/risk_gate.py). */
module Pipeline {
  import opened Common
  import C = Catalog
  import B = Breaker

  type Stage = B.Stage

  datatype AuditRow = AuditRow(
    ts: real, verb: string, stage: Stage, risk: C.Risk, args: Args, error: Option<string>,
    stderr: Option<string>, subscription: Option<string>)

  datatype Route = PerceiveRoute | ActRoute | WatchRoute

  datatype Body =
    | UnknownVerb(name: string)
    | TierCUnavailable
    | WrongRoute
    | BadArgs(e: C.ArgError)
    | BreakerOpen
    | Declined
    | Error(text: string, stderr: Option<string>)
    | InvalidCall(text: string)
    | Result(data: C.Data)
    | Subscribed(id: string)
    | Aborted                     // an exception no handler catches

  datatype Reply = Reply(status: nat, body: Body)

  datatype Next = ToGuard | ToRun | ToReply(reply: Reply)

  /** The fields an audit call passes beside verb, risk and args. */
  datatype Event = Event(stage: Stage, error: Option<string>, stderr: Option<string>, subscription: Option<string>)

  /** Writing: about to append to the audit file.  Recording: in record_outcome for that row. */
  datatype Pc =
    | Arrived
    | Writing(event: Event, next: Next)
    | Recording(th: B.Thread, after: Next)
    | Guarding(guard: B.Thread)
    | Asking
    | Running
    | Replied(reply: Reply)

  /** yes, process and spawn are what the human and the system will answer.  trail, asked and
      ran are history: the stages written for this request, and whether its dialog was shown
      and its process started. */
  datatype Request = Request(
    route: Route, verb: string, args: Args, yes: bool, process: C.Process, spawn: C.Spawn,
    pc: Pc, trail: seq<Stage>, asked: bool, ran: bool)

  datatype State = State(
    now: real, audit: seq<AuditRow>, log: seq<B.Row>, dialogs: seq<(string, Args)>, requests: seq<Request>)

  datatype Action = Tick(d: real) | Move(k: nat)

  /** Everything checked before the gate, in the order it is checked. */
  function Early(c: C.Catalog, r: Request): Option<Reply> {
    if r.verb !in c.verbs then Some(Reply(404, UnknownVerb(r.verb)))
    else
      var v := c.verbs[r.verb];
      if v.tier.OtherTier? then Some(Reply(501, TierCUnavailable))
      else if r.route == PerceiveRoute && (v.tier != C.TierA || v.direction != C.Perceive) then
        Some(Reply(400, WrongRoute))
      else if r.route == ActRoute && (v.tier != C.TierA || v.direction != C.Act) then Some(Reply(400, WrongRoute))
      else if r.route == WatchRoute && v.tier != C.TierB then Some(Reply(400, WrongRoute))
      else
        var e := C.ArgCheck(v, r.args);
        if e.None? then None
        else if C.IsValueError(e.value) then Some(Reply(400, BadArgs(e.value)))
        else Some(Reply(500, Aborted))
  }

  /** With a loaded catalog the Tier C branch is dead, and the only exception that escapes the
      checks is that of a template which names a value that is no argument. */
  lemma LoadedCatalogLimitsRefusals(c: C.Catalog, r: Request)
    requires C.Loaded(c)
    ensures Early(c, r).Some? ==> Early(c, r).value.status in {400, 404} || Early(c, r).value == Reply(500, Aborted)
    ensures Early(c, r) == Some(Reply(500, Aborted)) ==>
              r.verb in c.verbs && r.args.Keys == (set a | a in c.verbs[r.verb].args) &&
              !C.PlaceholdersBound(c.verbs[r.verb])
  {
    if r.verb in c.verbs {
      C.ValidatedOnceValidLater(c.verbs[r.verb], r.args, C.TimedOut, C.SpawnCrashed);
    }
  }

  function Plain(stage: Stage, error: Option<string>): Event { Event(stage, error, None, None) }

  /** What follows the process: the outcome to audit, then the reply. */
  function Outcome(v: C.Verb, r: Request): Pc {
    if r.route == WatchRoute then
      match C.RunWatch(v, r.args, r.spawn)
      case Started(id) => Writing(Event(B.Executed, None, None, Some(id)), ToReply(Reply(200, Subscribed(id))))
      case OsError(text) =>
        Writing(Plain(B.Failed, Some(text)), ToReply(Reply(500, Error(C.ErrorText(r.verb, text), None))))
      case WatchBroken => Replied(Reply(500, Aborted))
    else
      match C.RunTierA(v, r.args, r.process)
      case Success(data) => Writing(Plain(B.Executed, None), ToReply(Reply(200, Result(data))))
      case ExecutionError(text, stderr) =>
        Writing(Event(if Contains(text, "timed out") then B.Timeout else B.Failed, Some(text),
                      Some(C.Upto(stderr, 500)), None),
                ToReply(Reply(500, Error(text, Some(stderr)))))
      case BadCall(_, _, args) =>
        if args.Some? && !C.IsValueError(args.value) then Replied(Reply(500, Aborted))
        else
          var text := C.ErrorText(v.name, "not a valid Tier A call");
          Writing(Plain(B.Failed, Some(text)), ToReply(Reply(400, InvalidCall(text))))
      case ValueFailure(text) => Writing(Plain(B.Failed, Some(text)), ToReply(Reply(400, InvalidCall(text))))
      case Uncaught => Replied(Reply(500, Aborted))
  }

  function Note(v: C.Verb, r: Request, error: Option<string>): B.Note {
    B.Note(v.risk, C.PublicArgs(v, r.args), error)
  }

  function Go(v: C.Verb, r: Request, next: Next): Pc {
    match next
    case ToGuard => Guarding(B.Guarding(r.verb, Note(v, r, None)))
    case ToRun => Running
    case ToReply(reply) => Replied(reply)
  }

  function NextPc(c: C.Catalog, cfg: B.Config, now: real, log: seq<B.Row>, r: Request, v: C.Verb): Pc
    requires r.verb in c.verbs
  {
    match r.pc
    case Arrived => Arrived
    case Writing(e, next) => Recording(B.Recording(r.verb, e.stage, Note(v, r, e.error)), next)
    case Recording(th, after) =>
      if B.Ended(th) then Go(v, r, after) else Recording(B.Advance(cfg, now, log, th), after)
    case Guarding(th) =>
      if !B.Ended(th) then Guarding(B.Advance(cfg, now, log, th))
      else if th.pc.Blocked? then Replied(Reply(500, BreakerOpen))
      else if c.RequiresConfirmation(r.verb) then Asking
      else Running
    case Asking =>
      if r.yes then Writing(Plain(B.Approved, None), ToRun)
      else Writing(Plain(B.Denied, None), ToReply(Reply(403, Declined)))
    case Running => Outcome(v, r)
    case Replied(_) => r.pc
  }

  function Stepped(c: C.Catalog, cfg: B.Config, s: State, r: Request, v: C.Verb): Request
    requires r.verb in c.verbs
  {
    r.(pc := NextPc(c, cfg, s.now, s.log, r, v),
       trail := if r.pc.Writing? then r.trail + [r.pc.event.stage] else r.trail,
       asked := r.asked || r.pc.Asking?,
       ran := r.ran || r.pc.Running?)
  }

  /** The next state of the request's own thread. */
  function Moved(c: C.Catalog, cfg: B.Config, s: State, r: Request): Request {
    if r.pc.Arrived? then
      var early := Early(c, r);
      r.(pc := if early.Some? then Replied(early.value) else Writing(Plain(B.Requested, None), ToGuard))
    else if r.verb in c.verbs then Stepped(c, cfg, s, r, c.verbs[r.verb]) else r
  }

  function Step(c: C.Catalog, cfg: B.Config, s: State, a: Action): State {
    match a
    case Tick(d) => if d >= 0.0 then s.(now := s.now + d) else s
    case Move(k) =>
      if k >= |s.requests| then s
      else
        var r := s.requests[k];
        var t := s.(requests := s.requests[k := Moved(c, cfg, s, r)]);
        if r.verb !in c.verbs then t
        else
          var v := c.verbs[r.verb];
          match r.pc
          case Writing(e, _) =>
            t.(audit := s.audit + [AuditRow(s.now, r.verb, e.stage, v.risk, C.PublicArgs(v, r.args),
                                            e.error, e.stderr, e.subscription)])
          case Recording(th, _) => t.(log := B.LogAfter(s.log, th))
          case Guarding(th) => t.(log := B.LogAfter(s.log, th))
          case Asking => t.(dialogs := s.dialogs + [(r.verb, C.PublicArgs(v, r.args))])
          case _ => t
  }

  function Run(c: C.Catalog, cfg: B.Config, s: State, acts: seq<Action>): State {
    if acts == [] then s else Step(c, cfg, Run(c, cfg, s, acts[..|acts| - 1]), acts[|acts| - 1])
  }

  /** Requests that have just come in; the store may hold anything. */
  predicate Start(s: State) {
    s.audit == [] && s.dialogs == [] &&
    forall k :: 0 <= k < |s.requests| ==>
      s.requests[k].pc.Arrived? && s.requests[k].trail == [] && !s.requests[k].asked && !s.requests[k].ran
  }

  // ---- the lifecycle of one request -------------------------------------------------------------

  predicate IsOutcome(stage: Stage) { stage in {B.Executed, B.Failed, B.Timeout} }

  predicate Gated(c: C.Catalog, verb: string) { verb in c.verbs && c.RequiresConfirmation(verb) }

  /** The stages that must precede the process. */
  function Cleared(gated: bool): seq<Stage> { if gated then [B.Requested, B.Approved] else [B.Requested] }

  predicate Finished(gated: bool, trail: seq<Stage>) {
    |trail| == |Cleared(gated)| + 1 && trail[..|Cleared(gated)|] == Cleared(gated) && IsOutcome(trail[|trail| - 1])
  }

  predicate Refused(gated: bool, trail: seq<Stage>) { gated && trail == [B.Requested, B.Denied] }

  predicate Closing(gated: bool, trail: seq<Stage>, reply: Reply) {
    && reply.body != BreakerOpen && reply.body != Aborted
    && (Refused(gated, trail) || Finished(gated, trail))
    && (reply.body == Declined <==> Refused(gated, trail))
    && (reply.status == 403 <==> Refused(gated, trail))
    && (reply.status == 200 <==> Finished(gated, trail) && trail[|trail| - 1] == B.Executed)
  }

  predicate RequestInv(c: C.Catalog, r: Request) {
    var gated := Gated(c, r.verb);
    && (B.Approved in r.trail ==> r.asked && r.yes)
    && (B.Denied in r.trail ==> r.asked && !r.yes && !r.ran)
    && (r.ran ==> Early(c, r).None? && (gated ==> B.Approved in r.trail))
    && ((!r.pc.Arrived? && !r.pc.Replied?) || r.trail != [] ==> Early(c, r).None?)
    && match r.pc
       case Arrived => r.trail == [] && !r.ran
       case Writing(e, next) =>
         if e.stage == B.Requested then r.trail == [] && next.ToGuard? && !r.ran
         else if e.stage == B.Approved then
           gated && r.trail == [B.Requested] && next.ToRun? && r.asked && r.yes && !r.ran
         else next.ToReply? && r.trail + [e.stage] != [] && Closing(gated, r.trail + [e.stage], next.reply) &&
              (e.stage == B.Denied ==> r.asked && !r.yes && !r.ran)
       case Recording(_, after) =>
         (match after
          case ToGuard => r.trail == [B.Requested] && !r.ran
          case ToRun => gated && r.trail == [B.Requested, B.Approved] && !r.ran
          case ToReply(reply) => Closing(gated, r.trail, reply))
       case Guarding(_) => r.trail == [B.Requested] && !r.ran
       case Asking => gated && r.trail == [B.Requested] && !r.ran
       case Running => r.trail == Cleared(gated) && !r.ran
       case Replied(reply) =>
         if r.trail == [] then Early(c, r) == Some(reply)
         else if reply.body == BreakerOpen then r.trail == [B.Requested] && !r.ran
         else if reply.body == Aborted then r.trail == Cleared(gated)
         else Closing(gated, r.trail, reply)
  }

  lemma MovedInv(c: C.Catalog, cfg: B.Config, s: State, r: Request)
    requires RequestInv(c, r)
    ensures RequestInv(c, Moved(c, cfg, s, r))
  {
    if r.pc.Arrived? {
      assert [] + [B.Requested] == [B.Requested];
    } else if r.verb in c.verbs {
      match r.pc
      case Running => OutcomeInv(c, c.verbs[r.verb], r);
      case Writing(_, _) => WrittenInv(c, cfg, s, r);
      case Recording(_, _) => RecordedInv(c, cfg, s, r);
      case Guarding(_) => GuardedInv(c, cfg, s, r);
      case Asking => AskedInv(c, cfg, s, r);
      case _ =>
    }
  }

  lemma RecordedInv(c: C.Catalog, cfg: B.Config, s: State, r: Request)
    requires RequestInv(c, r) && r.pc.Recording? && r.verb in c.verbs
    ensures RequestInv(c, Moved(c, cfg, s, r))
  {}

  lemma GuardedInv(c: C.Catalog, cfg: B.Config, s: State, r: Request)
    requires RequestInv(c, r) && r.pc.Guarding? && r.verb in c.verbs
    ensures RequestInv(c, Moved(c, cfg, s, r))
  {}

  lemma AskedInv(c: C.Catalog, cfg: B.Config, s: State, r: Request)
    requires RequestInv(c, r) && r.pc.Asking? && r.verb in c.verbs
    ensures RequestInv(c, Moved(c, cfg, s, r))
  {
    assert [B.Requested] + [B.Denied] == [B.Requested, B.Denied];
  }

  lemma OutcomeInv(c: C.Catalog, v: C.Verb, r: Request)
    requires RequestInv(c, r) && r.pc.Running? && r.verb in c.verbs && v == c.verbs[r.verb]
    ensures RequestInv(c, r.(ran := true, pc := Outcome(v, r)))
  {
    var gated := Gated(c, r.verb);
    var pc := Outcome(v, r);
    if pc.Writing? {
      var t := r.trail + [pc.event.stage];
      assert t[..|Cleared(gated)|] == Cleared(gated);
    }
  }

  lemma WrittenInv(c: C.Catalog, cfg: B.Config, s: State, r: Request)
    requires RequestInv(c, r) && r.pc.Writing? && r.verb in c.verbs
    ensures RequestInv(c, Moved(c, cfg, s, r))
  {
    assert [B.Requested] + [B.Approved] == [B.Requested, B.Approved];
  }

  ghost predicate Inv(c: C.Catalog, s: State) {
    forall k :: 0 <= k < |s.requests| ==> RequestInv(c, s.requests[k])
  }

  lemma StepInv(c: C.Catalog, cfg: B.Config, s: State, a: Action)
    requires Inv(c, s)
    ensures Inv(c, Step(c, cfg, s, a))
  {
    if a.Move? && a.k < |s.requests| {
      MovedInv(c, cfg, s, s.requests[a.k]);
    }
  }

  lemma {:induction false} RunInv(c: C.Catalog, cfg: B.Config, s: State, acts: seq<Action>)
    requires Inv(c, s)
    ensures Inv(c, Run(c, cfg, s, acts))
  {
    if acts != [] {
      RunInv(c, cfg, s, acts[..|acts| - 1]);
      StepInv(c, cfg, Run(c, cfg, s, acts[..|acts| - 1]), acts[|acts| - 1]);
    }
  }

  /** A dialog is shown only for a gated call that passed every check and is on record; a started
      process has its intent on record, and that of a gated verb its dialog shown before. */
  predicate Deliberate(c: C.Catalog, r: Request) {
    && (r.asked ==> Early(c, r).None? && Gated(c, r.verb) && B.Requested in r.trail)
    && (r.ran ==> B.Requested in r.trail)
  }

  lemma MovedDeliberate(c: C.Catalog, cfg: B.Config, s: State, r: Request)
    requires RequestInv(c, r) && Deliberate(c, r)
    ensures Deliberate(c, Moved(c, cfg, s, r))
  {}

  lemma {:induction false} RunDeliberate(c: C.Catalog, cfg: B.Config, s: State, acts: seq<Action>, k: nat)
    requires Start(s) && k < |Run(c, cfg, s, acts).requests|
    ensures Deliberate(c, Run(c, cfg, s, acts).requests[k])
  {
    if acts != [] {
      var m := Run(c, cfg, s, acts[..|acts| - 1]);
      RunDeliberate(c, cfg, s, acts[..|acts| - 1], k);
      RunInv(c, cfg, s, acts[..|acts| - 1]);
      assert RequestInv(c, m.requests[k]);
      MovedDeliberate(c, cfg, m, m.requests[k]);
    }
  }

  /** No interleaving gets a gated process started without its own dialog answered yes, any
      process started without passing every check first, or a dialog shown for a call that is not
      gated or that the machine can already refuse. */
  lemma GateCannotBeBypassed(c: C.Catalog, cfg: B.Config, s: State, acts: seq<Action>, k: nat)
    requires Start(s) && k < |Run(c, cfg, s, acts).requests|
    ensures var r := Run(c, cfg, s, acts).requests[k];
            && (r.ran ==> Early(c, r).None? && B.Requested in r.trail)
            && (r.ran && Gated(c, r.verb) ==> r.asked && r.yes && B.Approved in r.trail)
            && (r.asked ==> Early(c, r).None? && Gated(c, r.verb) && B.Requested in r.trail)
            && (B.Denied in r.trail ==> !r.ran)
  {
    RunInv(c, cfg, s, acts);
    RunDeliberate(c, cfg, s, acts, k);
    assert RequestInv(c, Run(c, cfg, s, acts).requests[k]);
  }

  // ---- counting rows ------------------------------------------------------------------------------

  function RowOf(verb: string, stages: set<Stage>): AuditRow -> bool {
    (row: AuditRow) => row.verb == verb && row.stage in stages
  }

  predicate Touches(trail: seq<Stage>, stages: set<Stage>) {
    exists i :: 0 <= i < |trail| && trail[i] in stages
  }

  function Wrote(verb: string, stages: set<Stage>): Request -> bool {
    (r: Request) => r.verb == verb && Touches(r.trail, stages)
  }

  ghost function Rows(audit: seq<AuditRow>, verb: string, stages: set<Stage>): nat {
    CountIf(audit, RowOf(verb, stages))
  }

  const DECISIONS: set<Stage> := {B.Approved, B.Denied}
  const OUTCOMES: set<Stage> := {B.Executed, B.Failed, B.Timeout}

  /** Stages of which a request writes at most one. */
  predicate OnePhase(stages: set<Stage>) {
    stages <= {B.Requested} || stages <= DECISIONS || stages <= OUTCOMES
  }

  lemma NewPhase(c: C.Catalog, r: Request, stages: set<Stage>)
    requires RequestInv(c, r) && r.pc.Writing? && OnePhase(stages) && r.pc.event.stage in stages
    ensures !Touches(r.trail, stages)
  {
    var gated := Gated(c, r.verb);
    var t := r.trail + [r.pc.event.stage];
    if r.pc.next.ToReply? && Finished(gated, t) {
      assert r.trail == t[..|Cleared(gated)|];
    } else if r.pc.next.ToReply? {
      assert r.trail == t[..1];
    }
  }

  lemma TouchesAppend(trail: seq<Stage>, stage: Stage, stages: set<Stage>)
    ensures Touches(trail + [stage], stages) <==> Touches(trail, stages) || stage in stages
  {
    if Touches(trail, stages) {
      var i :| 0 <= i < |trail| && trail[i] in stages;
      assert (trail + [stage])[i] in stages;
    }
    if stage in stages {
      assert (trail + [stage])[|trail|] in stages;
    }
  }

  lemma MovedTouches(c: C.Catalog, cfg: B.Config, s: State, r: Request, stages: set<Stage>)
    requires RequestInv(c, r) && OnePhase(stages)
    ensures var t := Moved(c, cfg, s, r);
            && t.verb == r.verb
            && (r.pc.Writing? && r.verb in c.verbs && r.pc.event.stage in stages ==>
                  !Touches(r.trail, stages) && Touches(t.trail, stages))
            && (!(r.pc.Writing? && r.verb in c.verbs && r.pc.event.stage in stages) ==>
                  Touches(t.trail, stages) == Touches(r.trail, stages))
  {
    if r.pc.Writing? && r.verb in c.verbs {
      TouchesAppend(r.trail, r.pc.event.stage, stages);
      if r.pc.event.stage in stages {
        NewPhase(c, r, stages);
      }
    }
  }

  lemma StepAudit(c: C.Catalog, cfg: B.Config, s: State, a: Action)
    ensures var t := Step(c, cfg, s, a);
            if a.Move? && a.k < |s.requests| && s.requests[a.k].pc.Writing? && s.requests[a.k].verb in c.verbs
            then |t.audit| == |s.audit| + 1 && t.audit == s.audit + [t.audit[|s.audit|]] &&
                 t.audit[|s.audit|].verb == s.requests[a.k].verb &&
                 t.audit[|s.audit|].stage == s.requests[a.k].pc.event.stage
            else t.audit == s.audit
  {}

  lemma StepCounts(c: C.Catalog, cfg: B.Config, s: State, a: Action, verb: string, stages: set<Stage>)
    requires Inv(c, s) && OnePhase(stages)
    requires Rows(s.audit, verb, stages) == CountIf(s.requests, Wrote(verb, stages))
    ensures Rows(Step(c, cfg, s, a).audit, verb, stages) == CountIf(Step(c, cfg, s, a).requests, Wrote(verb, stages))
  {
    StepAudit(c, cfg, s, a);
    if a.Move? && a.k < |s.requests| {
      var r := s.requests[a.k];
      MovedTouches(c, cfg, s, r, stages);
      CountIfUpdate(s.requests, a.k, Moved(c, cfg, s, r), Wrote(verb, stages));
      if r.pc.Writing? && r.verb in c.verbs {
        CountIfAppend(s.audit, Step(c, cfg, s, a).audit[|s.audit|], RowOf(verb, stages));
      }
    }
  }

  lemma {:induction false} RowsAreTrails(c: C.Catalog, cfg: B.Config, s: State, acts: seq<Action>, verb: string,
                                         stages: set<Stage>)
    requires Start(s) && OnePhase(stages)
    ensures Rows(Run(c, cfg, s, acts).audit, verb, stages) ==
            CountIf(Run(c, cfg, s, acts).requests, Wrote(verb, stages))
  {
    if acts == [] {
      CountIfWitness(s.requests, Wrote(verb, stages));
    } else {
      RowsAreTrails(c, cfg, s, acts[..|acts| - 1], verb, stages);
      RunInv(c, cfg, s, acts[..|acts| - 1]);
      StepCounts(c, cfg, Run(c, cfg, s, acts[..|acts| - 1]), acts[|acts| - 1], verb, stages);
    }
  }

  lemma TrailOrder(c: C.Catalog, r: Request, verb: string)
    requires RequestInv(c, r)
    ensures Wrote(verb, DECISIONS)(r) ==> Wrote(verb, {B.Requested})(r) && Gated(c, verb)
    ensures Wrote(verb, OUTCOMES)(r) ==> Wrote(verb, {B.Requested})(r)
    ensures Wrote(verb, OUTCOMES)(r) && Gated(c, verb) ==> Wrote(verb, {B.Approved})(r)
  {
    if r.trail != [] {
      var gated := Gated(c, r.verb);
      TrailShape(c, r);
      assert r.trail[0] == B.Requested;
      if |r.trail| > 1 && gated {
        assert r.trail[1] in DECISIONS;
      }
    }
  }

  /** The words a request can have written so far. */
  lemma TrailShape(c: C.Catalog, r: Request)
    requires RequestInv(c, r)
    ensures var gated := Gated(c, r.verb);
            || r.trail == [] || r.trail == [B.Requested] || r.trail == Cleared(gated)
            || Refused(gated, r.trail) || Finished(gated, r.trail)
  {
    var gated := Gated(c, r.verb);
    if r.pc.Writing? && r.pc.next.ToReply? {
      var t := r.trail + [r.pc.event.stage];
      assert r.trail == t[..|t| - 1];
    }
  }

  /** The audit lifecycle of one request in any run: `requested` first, then for a gated verb the
      decision, then at most one outcome; and a reply that says which of these it was. */
  lemma LifecycleOfEveryRequest(c: C.Catalog, cfg: B.Config, s: State, acts: seq<Action>, k: nat)
    requires Start(s) && k < |Run(c, cfg, s, acts).requests|
    ensures var r := Run(c, cfg, s, acts).requests[k];
            var gated := Gated(c, r.verb);
            && (r.trail == [] || r.trail == [B.Requested] || r.trail == Cleared(gated)
                || Refused(gated, r.trail) || Finished(gated, r.trail))
            && (r.pc.Replied? && r.pc.reply.body != Aborted ==>
                  || (r.trail == [] && Early(c, r) == Some(r.pc.reply))
                  || (r.trail == [B.Requested] && r.pc.reply.body == BreakerOpen && !r.ran)
                  || Closing(gated, r.trail, r.pc.reply))
  {
    RunInv(c, cfg, s, acts);
    assert RequestInv(c, Run(c, cfg, s, acts).requests[k]);
    TrailShape(c, Run(c, cfg, s, acts).requests[k]);
  }

  lemma AccountingNow(c: C.Catalog, cfg: B.Config, s: State, acts: seq<Action>, verb: string)
    requires Start(s)
    ensures var audit := Run(c, cfg, s, acts).audit;
            && Rows(audit, verb, DECISIONS) <= Rows(audit, verb, {B.Requested})
            && Rows(audit, verb, OUTCOMES) <= Rows(audit, verb, {B.Requested})
            && (Gated(c, verb) ==> Rows(audit, verb, OUTCOMES) <= Rows(audit, verb, {B.Approved}))
            && (!Gated(c, verb) ==> Rows(audit, verb, DECISIONS) == 0)
  {
    RunInv(c, cfg, s, acts);
    var rs := Run(c, cfg, s, acts).requests;
    RowsAreTrails(c, cfg, s, acts, verb, {B.Requested});
    RowsAreTrails(c, cfg, s, acts, verb, {B.Approved});
    RowsAreTrails(c, cfg, s, acts, verb, DECISIONS);
    RowsAreTrails(c, cfg, s, acts, verb, OUTCOMES);
    forall i | 0 <= i < |rs|
      ensures Wrote(verb, DECISIONS)(rs[i]) ==> Wrote(verb, {B.Requested})(rs[i]) && Gated(c, verb)
      ensures Wrote(verb, OUTCOMES)(rs[i]) ==> Wrote(verb, {B.Requested})(rs[i])
      ensures Wrote(verb, OUTCOMES)(rs[i]) && Gated(c, verb) ==> Wrote(verb, {B.Approved})(rs[i])
    {
      TrailOrder(c, rs[i], verb);
    }
    CountIfMono(rs, Wrote(verb, DECISIONS), Wrote(verb, {B.Requested}));
    CountIfMono(rs, Wrote(verb, OUTCOMES), Wrote(verb, {B.Requested}));
    if Gated(c, verb) {
      CountIfMono(rs, Wrote(verb, OUTCOMES), Wrote(verb, {B.Approved}));
    } else {
      CountIfWitness(rs, Wrote(verb, DECISIONS));
    }
  }

  /** Rows are only ever appended, one a step, so a prefix of the file is the file of a moment. */
  lemma {:induction false} PrefixIsAMoment(c: C.Catalog, cfg: B.Config, s: State, acts: seq<Action>, n: nat)
    returns (m: nat)
    requires s.audit == [] && n <= |Run(c, cfg, s, acts).audit|
    ensures m <= |acts| && Run(c, cfg, s, acts[..m]).audit == Run(c, cfg, s, acts).audit[..n]
  {
    if n == |Run(c, cfg, s, acts).audit| {
      m := |acts|;
      assert acts[..m] == acts;
    } else {
      var init := acts[..|acts| - 1];
      m := PrefixIsAMoment(c, cfg, s, init, n);
      assert init[..m] == acts[..m];
    }
  }

  /** The counting laws, in every prefix of the audit file under every interleaving. */
  lemma PrefixAccounting(c: C.Catalog, cfg: B.Config, s: State, acts: seq<Action>, n: nat, verb: string)
    requires Start(s) && n <= |Run(c, cfg, s, acts).audit|
    ensures var prefix := Run(c, cfg, s, acts).audit[..n];
            && Rows(prefix, verb, DECISIONS) <= Rows(prefix, verb, {B.Requested})
            && Rows(prefix, verb, OUTCOMES) <= Rows(prefix, verb, {B.Requested})
            && (Gated(c, verb) ==> Rows(prefix, verb, OUTCOMES) <= Rows(prefix, verb, {B.Approved}))
            && (!Gated(c, verb) ==> Rows(prefix, verb, DECISIONS) == 0)
  {
    var m := PrefixIsAMoment(c, cfg, s, acts, n);
    AccountingNow(c, cfg, s, acts[..m], verb);
  }

  // ---- accounting at rest -----------------------------------------------------------------------------

  function BlockedAt(verb: string): Request -> bool {
    (r: Request) => r.verb == verb && r.pc.Replied? && r.pc.reply.body == BreakerOpen
  }

  /** On record, and lost to an exception no handler catches. */
  function LostAt(verb: string): Request -> bool {
    (r: Request) => r.verb == verb && r.trail != [] && r.pc.Replied? && r.pc.reply.body == Aborted
  }

  function Ran(verb: string): Request -> bool {
    (r: Request) => LostAt(verb)(r) || Wrote(verb, OUTCOMES)(r)
  }

  function PassedOn(verb: string): Request -> bool {
    (r: Request) => BlockedAt(verb)(r) || Ran(verb)(r)
  }

  predicate NoAbort(r: Request) { r.pc.Replied? ==> r.pc.reply.body != Aborted }

  /** The process, or Popen, does something that the handlers expect. */
  predicate Handled(r: Request) { if r.route == WatchRoute then !r.spawn.SpawnCrashed? else !r.process.Crashed? }

  lemma MovedNoAbort(c: C.Catalog, cfg: B.Config, s: State, r: Request)
    requires C.Loaded(c) && RequestInv(c, r) && Handled(r) && (Early(c, r).None? ==> NoAbort(r))
    ensures Early(c, Moved(c, cfg, s, r)) == Early(c, r) && Handled(Moved(c, cfg, s, r))
    ensures Early(c, r).None? ==> NoAbort(Moved(c, cfg, s, r))
  {
    if r.verb in c.verbs {
      C.ValidatedOnceValidLater(c.verbs[r.verb], r.args, r.process, r.spawn);
    }
  }

  /** With a loaded catalog, a request that passed the checks is lost to an exception only if its
      process does what no handler expects. */
  lemma {:induction false} RunNoAbort(c: C.Catalog, cfg: B.Config, s: State, acts: seq<Action>, k: nat)
    requires C.Loaded(c) && Inv(c, s) && k < |s.requests| && s.requests[k].pc.Arrived? && Handled(s.requests[k])
    ensures |Run(c, cfg, s, acts).requests| == |s.requests| && Handled(Run(c, cfg, s, acts).requests[k])
    ensures Early(c, Run(c, cfg, s, acts).requests[k]) == Early(c, s.requests[k])
    ensures Early(c, s.requests[k]).None? ==> NoAbort(Run(c, cfg, s, acts).requests[k])
  {
    if acts != [] {
      var m := Run(c, cfg, s, acts[..|acts| - 1]);
      RunNoAbort(c, cfg, s, acts[..|acts| - 1], k);
      RunInv(c, cfg, s, acts[..|acts| - 1]);
      StepMoves(c, cfg, m, acts[|acts| - 1]);
      MovedNoAbort(c, cfg, m, m.requests[k]);
    }
  }

  lemma MovedKeepsRequest(c: C.Catalog, cfg: B.Config, s: State, r: Request)
    ensures var t := Moved(c, cfg, s, r);
            t == r.(pc := t.pc, trail := t.trail, asked := t.asked, ran := t.ran)
  {}

  lemma StepMoves(c: C.Catalog, cfg: B.Config, s: State, a: Action)
    ensures Step(c, cfg, s, a).requests ==
            if a.Move? && a.k < |s.requests| then s.requests[a.k := Moved(c, cfg, s, s.requests[a.k])] else s.requests
  {}

  /** What came in with a request is what it has at the end. */
  lemma {:induction false} RunKeepsRequest(c: C.Catalog, cfg: B.Config, s: State, acts: seq<Action>, k: nat)
    requires k < |s.requests|
    ensures |Run(c, cfg, s, acts).requests| == |s.requests|
    ensures var r := Run(c, cfg, s, acts).requests[k];
            r == s.requests[k].(pc := r.pc, trail := r.trail, asked := r.asked, ran := r.ran)
  {
    if acts != [] {
      var m := Run(c, cfg, s, acts[..|acts| - 1]);
      RunKeepsRequest(c, cfg, s, acts[..|acts| - 1], k);
      StepMoves(c, cfg, m, acts[|acts| - 1]);
      MovedKeepsRequest(c, cfg, m, m.requests[k]);
    }
  }

  lemma {:induction false} RunKeepsCount(c: C.Catalog, cfg: B.Config, s: State, acts: seq<Action>)
    ensures |Run(c, cfg, s, acts).requests| == |s.requests|
  {
    if acts != [] {
      RunKeepsCount(c, cfg, s, acts[..|acts| - 1]);
    }
  }

  /** A request at rest that is on record came to exactly one end. */
  lemma RestingPlace(c: C.Catalog, r: Request, verb: string)
    requires RequestInv(c, r) && (r.pc.Replied? || r.pc.Arrived?)
    ensures !(Wrote(verb, {B.Denied})(r) && PassedOn(verb)(r))
    ensures !(BlockedAt(verb)(r) && Ran(verb)(r))
    ensures !(LostAt(verb)(r) && Wrote(verb, OUTCOMES)(r))
    ensures Wrote(verb, {B.Requested})(r) <==> Wrote(verb, {B.Denied})(r) || PassedOn(verb)(r)
  {
    TrailShape(c, r);
    var gated := Gated(c, r.verb);
    if r.trail != [] {
      assert r.trail[0] == B.Requested;
      if Finished(gated, r.trail) {
        assert r.trail[|r.trail| - 1] in OUTCOMES;
        assert !Touches(r.trail, {B.Denied});
      } else if Refused(gated, r.trail) {
        assert |r.trail| == 2 && r.trail[1] == B.Denied;
        assert !BlockedAt(verb)(r) && !LostAt(verb)(r);
        assert !Touches(r.trail, OUTCOMES);
      } else {
        assert BlockedAt(r.verb)(r) != LostAt(r.verb)(r);
        assert !(BlockedAt(verb)(r) && LostAt(verb)(r));
        assert !Touches(r.trail, OUTCOMES) && !Touches(r.trail, {B.Denied});
      }
    }
  }

  /** When no request is in flight, every one that was logged as requested was denied, blocked by
      the breaker, ran to exactly one logged outcome, or was lost to an exception, whatever the
      catalog; and with a loaded catalog none is lost whose process the handlers expect. */
  lemma AccountingAtRest(c: C.Catalog, cfg: B.Config, s: State, acts: seq<Action>, verb: string)
    requires Start(s)
    requires forall k :: 0 <= k < |Run(c, cfg, s, acts).requests| ==>
               Run(c, cfg, s, acts).requests[k].pc.Replied? || Run(c, cfg, s, acts).requests[k].pc.Arrived?
    ensures var e := Run(c, cfg, s, acts);
            && Rows(e.audit, verb, {B.Requested}) ==
               Rows(e.audit, verb, {B.Denied}) + CountIf(e.requests, BlockedAt(verb)) +
               CountIf(e.requests, LostAt(verb)) + Rows(e.audit, verb, OUTCOMES)
            && (C.Loaded(c) && (forall k :: 0 <= k < |s.requests| ==> Handled(s.requests[k])) ==>
                  CountIf(e.requests, LostAt(verb)) == 0)
  {
    var rs := Run(c, cfg, s, acts).requests;
    RunInv(c, cfg, s, acts);
    RowsAreTrails(c, cfg, s, acts, verb, {B.Requested});
    RowsAreTrails(c, cfg, s, acts, verb, {B.Denied});
    RowsAreTrails(c, cfg, s, acts, verb, OUTCOMES);
    forall i | 0 <= i < |rs|
      ensures !(Wrote(verb, {B.Denied})(rs[i]) && PassedOn(verb)(rs[i]))
      ensures !(BlockedAt(verb)(rs[i]) && Ran(verb)(rs[i]))
      ensures !(LostAt(verb)(rs[i]) && Wrote(verb, OUTCOMES)(rs[i]))
      ensures Wrote(verb, {B.Requested})(rs[i]) <==> Wrote(verb, {B.Denied})(rs[i]) || PassedOn(verb)(rs[i])
    {
      RestingPlace(c, rs[i], verb);
    }
    CountIfDisjoint(rs, Wrote(verb, {B.Denied}), PassedOn(verb), Wrote(verb, {B.Requested}));
    CountIfDisjoint(rs, BlockedAt(verb), Ran(verb), PassedOn(verb));
    CountIfDisjoint(rs, LostAt(verb), Wrote(verb, OUTCOMES), Ran(verb));
    if C.Loaded(c) && (forall k :: 0 <= k < |s.requests| ==> Handled(s.requests[k])) {
      NoneLost(c, cfg, s, acts, verb);
    }
  }

  lemma NoneLost(c: C.Catalog, cfg: B.Config, s: State, acts: seq<Action>, verb: string)
    requires C.Loaded(c) && Start(s) && forall k :: 0 <= k < |s.requests| ==> Handled(s.requests[k])
    ensures CountIf(Run(c, cfg, s, acts).requests, LostAt(verb)) == 0
  {
    var rs := Run(c, cfg, s, acts).requests;
    RunInv(c, cfg, s, acts);
    RunKeepsCount(c, cfg, s, acts);
    forall k | 0 <= k < |rs| ensures !LostAt(verb)(rs[k]) {
      RunNoAbort(c, cfg, s, acts, k);
      assert RequestInv(c, rs[k]);
    }
    CountIfWitness(rs, LostAt(verb));
  }

  // ---- redaction ------------------------------------------------------------------------------------------

  /** The same request, but for the text piped to stdin. */
  ghost predicate TwinRequests(c: C.Catalog, r: Request, q: Request) {
    && q == r.(args := q.args)
    && (if r.verb in c.verbs then C.Twins(c.verbs[r.verb], r.args, q.args) else r.args == q.args)
  }

  /** Equal in everything anyone can see. */
  ghost predicate TwinStates(c: C.Catalog, s: State, t: State) {
    && t == s.(requests := t.requests)
    && |s.requests| == |t.requests|
    && forall k :: 0 <= k < |s.requests| ==> TwinRequests(c, s.requests[k], t.requests[k])
  }

  lemma TwinsArrive(c: C.Catalog, r: Request, q: Request)
    requires TwinRequests(c, r, q)
    ensures Early(c, r) == Early(c, q)
  {
    if r.verb in c.verbs {
      C.TwinsCheckAlike(c.verbs[r.verb], r.args, q.args);
    }
  }

  lemma TwinsOutcome(c: C.Catalog, r: Request, q: Request)
    requires r.verb in c.verbs && C.ProgramSafe(c.verbs[r.verb]) && TwinRequests(c, r, q)
    ensures Outcome(c.verbs[r.verb], r) == Outcome(c.verbs[r.verb], q)
  {
    C.SafeRunsAlike(c.verbs[r.verb], r.args, q.args, r.process, r.spawn);
  }

  lemma TwinsMove(c: C.Catalog, cfg: B.Config, s: State, t: State, r: Request, q: Request)
    requires r.pc.Running? && r.verb in c.verbs ==> C.ProgramSafe(c.verbs[r.verb])
    requires TwinStates(c, s, t) && TwinRequests(c, r, q)
    ensures TwinRequests(c, Moved(c, cfg, s, r), Moved(c, cfg, t, q))
  {
    if r.pc.Arrived? {
      TwinsArrive(c, r, q);
    } else if r.verb in c.verbs {
      var v := c.verbs[r.verb];
      C.TwinsLookAlike(v, r.args, q.args);
      if r.pc.Running? {
        TwinsOutcome(c, r, q);
      }
      SameViewSameStep(c, cfg, s.now, s.log, r, q, v);
    }
  }

  /** A request's step uses its arguments only through their public form and the outcome. */
  lemma SameViewSameStep(c: C.Catalog, cfg: B.Config, now: real, log: seq<B.Row>, r: Request, q: Request, v: C.Verb)
    requires r.verb in c.verbs && q == r.(args := q.args)
    requires C.PublicArgs(v, r.args) == C.PublicArgs(v, q.args) && (r.pc.Running? ==> Outcome(v, r) == Outcome(v, q))
    ensures NextPc(c, cfg, now, log, q, v) == NextPc(c, cfg, now, log, r, v)
  {}

  /** What a step shows to the outside depends on the mover only through what twins share. */
  lemma TwinsShowAlike(c: C.Catalog, cfg: B.Config, s: State, t: State, k: nat)
    requires TwinStates(c, s, t) && k < |s.requests|
    ensures var (s', t') := (Step(c, cfg, s, Move(k)), Step(c, cfg, t, Move(k)));
            && s'.now == t'.now && s'.audit == t'.audit && s'.log == t'.log && s'.dialogs == t'.dialogs
            && s'.requests == s.requests[k := Moved(c, cfg, s, s.requests[k])]
            && t'.requests == t.requests[k := Moved(c, cfg, t, t.requests[k])]
  {
    var r, q := s.requests[k], t.requests[k];
    assert TwinRequests(c, r, q);
    if r.verb in c.verbs {
      C.TwinsLookAlike(c.verbs[r.verb], r.args, q.args);
    }
  }

  /** The process that step a runs, if any, has a safe program. */
  predicate RunsSafely(c: C.Catalog, s: State, a: Action) {
    a.Move? && a.k < |s.requests| && s.requests[a.k].pc.Running? && s.requests[a.k].verb in c.verbs ==>
      C.ProgramSafe(c.verbs[s.requests[a.k].verb])
  }

  lemma TwinsStep(c: C.Catalog, cfg: B.Config, s: State, t: State, a: Action)
    requires RunsSafely(c, s, a) && TwinStates(c, s, t)
    ensures TwinStates(c, Step(c, cfg, s, a), Step(c, cfg, t, a))
  {
    if a.Move? && a.k < |s.requests| {
      TwinsMove(c, cfg, s, t, s.requests[a.k], t.requests[a.k]);
      TwinsShowAlike(c, cfg, s, t, a.k);
    }
  }

  predicate ProgramsSafe(c: C.Catalog) { forall n :: n in c.verbs ==> C.ProgramSafe(c.verbs[n]) }

  /** Two runs of the same requests under the same schedule, whose stdin texts differ in content
      but not in length, with the same human and the same process outcomes: every audit row,
      dialog text, store row (and so every breaker verdict) and reply is the same. */
  lemma {:induction false} StdinNeverShows(c: C.Catalog, cfg: B.Config, s: State, t: State, acts: seq<Action>)
    requires ProgramsSafe(c) && TwinStates(c, s, t)
    ensures TwinStates(c, Run(c, cfg, s, acts), Run(c, cfg, t, acts))
  {
    if acts != [] {
      StdinNeverShows(c, cfg, s, t, acts[..|acts| - 1]);
      TwinsStep(c, cfg, Run(c, cfg, s, acts[..|acts| - 1]), Run(c, cfg, t, acts[..|acts| - 1]), acts[|acts| - 1]);
    }
  }
}
