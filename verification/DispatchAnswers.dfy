/** What a dispatch call is answered, and what an execution makes of a job, in terms of the request,
    the verb and the process (dispatch/engine.py, dispatch/confirm.py). */
module DispatchAnswers {
  import opened Common
  import A = Argv
  import B = Breaker
  import C = Catalog
  import O = Outcomes
  import opened Dispatch

  // ---- who is served ---------------------------------------------------------------------------

  ghost predicate Suits(v: C.Verb, kind: Kind) {
    || (kind == Perceive && v.tier == C.TierA && v.direction == C.Perceive)
    || (kind == Act && v.tier == C.TierA && v.direction == C.Act)
    || (kind == Watch && v.tier == C.TierB)
  }

  ghost predicate WellFormed(c: C.Catalog, r: Request) {
    r.verb in c.verbs && Suits(c.verbs[r.verb], r.kind) && A.Valid(c.verbs[r.verb], r.args) && !r.webhook.BadWebhook?
  }

  ghost predicate HasKey(r: Request) { r.key.Some? && r.key.value != "" }

  /** Acts and watches of high risk need a key. */
  ghost predicate NeedsKey(v: C.Verb, kind: Kind) { v.risk == C.High && (kind == Act || kind == Watch) }

  ghost predicate Served(c: C.Catalog, r: Request) {
    WellFormed(c, r) && !r.dryRun && (NeedsKey(c.verbs[r.verb], r.kind) ==> HasKey(r)) &&
    (r.key.Some? ==> |r.key.value| <= 256)
  }

  ghost predicate Says(a: Answer, status: nat, code: Code) {
    a.status == status && a.body.Fault? && a.body.code == code
  }

  /** A dry run shows the command line, a note of the length of what would go to stdin, and whether the
      call would ask the human and need a key. */
  ghost predicate Shows(c: C.Catalog, v: C.Verb, r: Request, b: Body) {
    && b.DryRun?
    && |b.argv| == |v.command|
    && (forall i :: 0 <= i < |v.command| ==> A.Spells(v.command[i], r.args, b.argv[i]))
    && (b.stdin.Some? <==> v.stdin.Some? && v.stdin.value != "")
    && (b.stdin.Some? ==>
          v.stdin.value in r.args &&
          exists n :: A.Decimal(n, A.TextLength(r.args[v.stdin.value])) && b.stdin.value == Text("<" + n + " chars>"))
    && (b.confirmation <==> v.risk in c.confirm)
    && (b.keyRequired <==> NeedsKey(v, r.kind))
  }

  /** The answer to a call that is not served says why, a dry run being one reason. */
  ghost predicate TurnedAway(c: C.Catalog, r: Request, a: Answer) {
    && (Says(a, 404, UNKNOWN_VERB) <==> r.verb !in c.verbs)
    && (r.verb in c.verbs ==>
          var v := c.verbs[r.verb];
          var suits := Suits(v, r.kind);
          var nameless := A.RightNames(v, r.args) && !C.PlaceholdersBound(v);
          && (Says(a, 404, INVALID_ROUTE) <==> r.kind.OtherKind?)
          && (Says(a, 400, INVALID_ROUTE) <==> !r.kind.OtherKind? && !suits)
          && (Says(a, 500, UNCAUGHT) <==> suits && nameless)
          && (Says(a, 400, INVALID_ARGS) <==> suits && !nameless && !A.Valid(v, r.args))
          && (a.status == 200 <==> WellFormed(c, r) && r.dryRun)
          && (a.status == 200 ==> Shows(c, v, r, a.body))
          && (Says(a, 400, MISSING_IDEMPOTENCY_KEY) <==>
                WellFormed(c, r) && !r.dryRun && NeedsKey(v, r.kind) && !HasKey(r))
          && (Says(a, 400, INVALID_BODY) <==>
                || (suits && A.Valid(v, r.args) && r.webhook.BadWebhook?)
                || (WellFormed(c, r) && !r.dryRun && HasKey(r) && |r.key.value| > 256)))
  }

  lemma DryRunShows(c: C.Catalog, r: Request)
    requires C.Loaded(c) && WellFormed(c, r)
    ensures var v := c.verbs[r.verb];
            var public := C.PublicArgs(v, r.args);
            C.BuildArgv(v, r.args).Ok? &&
            Shows(c, v, r, DryRun(C.BuildArgv(v, r.args).value,
                                  if v.HasStdin() && v.stdin.value in public then Some(public[v.stdin.value]) else None,
                                  c.RequiresConfirmation(r.verb), KeyRequired(v)))
  {
    var v := c.verbs[r.verb];
    A.ArgCheckExact(v, r.args);
    A.ArgvSpelled(v, r.args, C.BuildArgv(v, r.args).value);
    if v.HasStdin() {
      A.PublicArgsShow(v, r.args, v.stdin.value);
    }
  }

  /** With a loaded catalog, a call gets past the checks exactly if it is to be served. */
  lemma ChecksAreExact(c: C.Catalog, r: Request)
    requires C.Loaded(c)
    ensures Early(c, r).None? <==> Served(c, r)
    ensures Early(c, r).Some? ==> TurnedAway(c, r, Early(c, r).value)
  {
    if r.verb in c.verbs {
      var v := c.verbs[r.verb];
      A.ArgCheckExact(v, r.args);
      NamelessIsCaught(v, r.args);
      if WellFormed(c, r) {
        DryRunShows(c, r);
      }
    }
  }

  lemma NamelessIsCaught(v: C.Verb, args: Args)
    requires C.Sound(v)
    ensures var e := C.ArgCheck(v, args);
            A.RightNames(v, args) && !C.PlaceholdersBound(v) <==> e.Some? && !C.IsValueError(e.value)
  {
    A.KeysAreNames(v, args);
    C.ValidatedOnceValidLater(v, args, C.TimedOut, C.SpawnCrashed);
  }

  /** In any state: a call that is not served, as a dry run is not, is answered as it comes; neither
      it nor any later step of it, whatever the others do in between, changes anything else. */
  lemma TurnedAwayLeavesNoTrace(c: C.Catalog, s: State, r: Request, more: seq<Action>, blocked: bool, exec: Execution)
    requires C.Loaded(c) && !Served(c, r)
    ensures var t := Step(c, s, Arrive(r));
            var n := |s.calls|;
            && t == s.(calls := t.calls) && |t.calls| == n + 1 && t.calls[..n] == s.calls
            && t.calls[n].pc.Replied? && TurnedAway(c, r, t.calls[n].pc.answer)
            && n < |Run(c, t, more).calls| && Run(c, t, more).calls[n] == t.calls[n]
            && Step(c, Run(c, t, more), CallStep(n, blocked, exec)) == Run(c, t, more)
  {
    ChecksAreExact(c, r);
    var t := Step(c, s, Arrive(r));
    RepliedStays(c, t, more, |s.calls|);
    var m := Run(c, t, more);
    assert m.calls[|s.calls| := m.calls[|s.calls|]] == m.calls;
  }

  lemma {:induction false} RepliedStays(c: C.Catalog, s: State, acts: seq<Action>, n: nat)
    requires n < |s.calls| && s.calls[n].pc.Replied?
    ensures n < |Run(c, s, acts).calls| && Run(c, s, acts).calls[n] == s.calls[n]
  {
    if acts != [] {
      RepliedStays(c, s, acts[..|acts| - 1], n);
    }
  }

  /** And a call that is to be served comes in with just what the request holds, its key first. */
  lemma ServedComesIn(c: C.Catalog, s: State, r: Request)
    requires C.Loaded(c) && Served(c, r)
    ensures var key := if HasKey(r) then r.key else None;
            Step(c, s, Arrive(r)) == s.(calls := s.calls +
              [Call(r.verb, key, r.args, r.kind, r.webhook == GoodWebhook, if HasKey(r) then Lookup else Precheck)])
  {
    ChecksAreExact(c, r);
  }

  // ---- what an execution is answered ----------------------------------------------------------------

  /** The process, or Popen, does something that no handler expects. */
  ghost predicate Breaks(kind: Kind, process: C.Process, spawn: C.Spawn) {
    if kind == Watch then spawn.SpawnCrashed? else process.Crashed?
  }

  /** The answer tells what the process, or Popen, did: the data, the subscription, or the error, whose
      code is TIMEOUT exactly if the run timed out or a name says so. */
  ghost predicate Tells(v: C.Verb, args: Args, kind: Kind, process: C.Process, spawn: C.Spawn, a: Answer) {
    if kind == Watch then
      || (spawn.Spawned? && a == Answer(200, Watching(spawn.id)))
      || (exists text :: O.SpawnFails(v, args, spawn, text) &&
                         a == Answer(500, Fault(EXECUTION_FAILED, v.name + ": " + text)))
    else
      || (a.status == 200 && a.body.Payload? && O.Gave(v, process, a.body.data))
      || (a.status == 500 && a.body.Fault? && a.body.stderr.Some? &&
          O.Failed(v, args, process, a.body.error, a.body.stderr.value) &&
          a.body.code == if O.SaysTimedOut(v, args, process) then TIMEOUT else EXECUTION_FAILED)
      || (process.Rejected? && a == Answer(400, Fault(INVALID_ARGS, process.text)))
  }

  /** The stage that is audited with such an answer. */
  ghost predicate StageTells(v: C.Verb, args: Args, kind: Kind, process: C.Process, a: Answer, stage: B.Stage) {
    && stage in {B.Executed, B.Failed, B.Timeout}
    && (stage == B.Executed <==> a.status == 200)
    && (stage == B.Timeout <==> kind != Watch && a.status == 500 && O.SaysTimedOut(v, args, process))
  }

  lemma ExecutionTells(v: C.Verb, args: Args, kind: Kind, process: C.Process, spawn: C.Spawn)
    requires C.Sound(v) && Suits(v, kind) && A.Valid(v, args)
    ensures var x := ExecuteKind(v, args, kind, process, spawn);
            if Breaks(kind, process, spawn) then x.Raised?
            else x.Done? && Tells(v, args, kind, process, spawn, x.answer) &&
                 StageTells(v, args, kind, process, x.answer, StageOf(x.answer))
  {
    if kind == Watch {
      O.WatchResult(v, args, spawn);
    } else {
      O.TierAResult(v, args, process);
      var x := C.RunTierA(v, args, process);
      if x.ExecutionError? {
        assert O.Failed(v, args, process, x.text, x.stderr);
        O.MarkedIffSaysTimedOut(v, args, process, x.text, x.stderr);
      } else if x.Success? {
        assert O.Gave(v, process, x.data);
      }
    }
  }

  // ---- what whole calls and jobs leave -----------------------------------------------------------------

  /** The view of job row j. */
  ghost predicate IsView(b: Body, id: nat, j: Job) {
    && b.JobView? && b.id == id && b.verb == j.verb && b.kind == j.kind && b.status == j.status && b.risk == j.risk
    && b.result == j.result
    && (b.failure.Some? <==> j.error.Some? && j.error.value != "") && (b.failure.Some? ==> b.failure == j.error)
    && (b.failure.Some? && j.errorCode.Some? ==> b.codeShown == j.errorCode)
    && (b.failure.None? || j.errorCode.None? ==>
          b.codeShown == if j.status.Pending? then Some(CONFIRM_PENDING) else None)
  }

  /** What a call is told that finds p recorded under its key. */
  ghost predicate Replays(jobs: seq<Job>, p: Prior, args: Args, a: Answer) {
    if args != p.args then Says(a, 409, IDEMPOTENCY_CONFLICT)
    else if p.job.None? || p.job.value >= |jobs| then a == Answer(p.status, p.response)
    else
      var j := jobs[p.job.value];
      if j.status.Pending? then a.status == 202 && IsView(a.body, p.job.value, j)
      else
        && (j.httpStatus != 0 ==> a.status == j.httpStatus) && (j.httpStatus == 0 ==> a.status == 200)
        && (j.result.Some? ==> a.body == j.result.value) && (j.result.None? ==> IsView(a.body, p.job.value, j))
  }

  lemma ReplayTells(jobs: seq<Job>, p: Prior, args: Args)
    ensures Replays(jobs, p, args, Replay(jobs, p, args))
  {}

  /** A poll of an unknown job is told so; one of a known job shows its row. */
  lemma PollTells(jobs: seq<Job>, id: nat)
    ensures var a := PollConfirm(jobs, id);
            if id >= |jobs| then Says(a, 404, CONFIRM_NOT_FOUND)
            else a.status == 200 && a.body.PollView? && IsView(a.body.job, id, jobs[id]) &&
                 a.body.verbHttpStatus == jobs[id].httpStatus
  {}

  /** The pending row of a call, with its arguments redacted. */
  ghost predicate IsPendingRow(v: C.Verb, r: Request, j: Job) {
    j == Job(r.verb, r.kind, v.risk, C.PublicArgs(v, r.args), Pending, 202, None, None, None, r.webhook == GoodWebhook)
  }

  /** The table of answers, with the call's own added under its key, if it has one. */
  ghost predicate Records(s: State, t: State, r: Request, a: Answer, job: Option<nat>) {
    t.idem == if HasKey(r) then s.idem[(r.verb, r.key.value) := Prior(r.args, a.status, a.body, job)] else s.idem
  }

  /** A served call that finds no answer on record and the breaker closed, for a gated verb. */
  ghost predicate Submits(v: C.Verb, r: Request, s: State, t: State, a: Answer, worker: Option<Worker>) {
    var id := |s.jobs|;
    && |t.jobs| == id + 1 && t.jobs[..id] == s.jobs && IsPendingRow(v, r, t.jobs[id])
    && t.inFlight == s.inFlight + {id}
    && worker == Some(Worker(id, r.verb, if HasKey(r) then r.key else None, r.args, r.kind, v.risk, Asking))
    && a.status == 202 && IsView(a.body, id, t.jobs[id]) && Records(s, t, r, a, Some(id))
    && t.starts == s.starts && t.approved == s.approved && t.audit == s.audit + [Entry(r.verb, B.Requested)]
  }

  /** And for any other verb: what the process does is told, audited and recorded. */
  ghost predicate Executes(v: C.Verb, r: Request, process: C.Process, spawn: C.Spawn, s: State, t: State, a: Answer) {
    && t.jobs == s.jobs && t.inFlight == s.inFlight && t.approved == s.approved
    && t.starts == s.starts + [Start(r.verb, if HasKey(r) then r.key else None, None)]
    && if Breaks(r.kind, process, spawn) then
         Says(a, 500, UNCAUGHT) && t.idem == s.idem && t.audit == s.audit + [Entry(r.verb, B.Requested)]
       else
         && Tells(v, r.args, r.kind, process, spawn, a) && Records(s, t, r, a, None)
         && exists stage :: StageTells(v, r.args, r.kind, process, a, stage) &&
                            t.audit == s.audit + [Entry(r.verb, B.Requested), Entry(r.verb, stage)]
  }

  /** What one call, left alone, makes of the tables s. */
  ghost predicate CallLeaves(c: C.Catalog, r: Request, blocked: bool, process: C.Process, spawn: C.Spawn,
                             s: State, t: State, a: Answer, worker: Option<Worker>)
  {
    if !Served(c, r) then TurnedAway(c, r, a) && t == s && worker.None?
    else if HasKey(r) && (r.verb, r.key.value) in s.idem then
      Replays(s.jobs, s.idem[(r.verb, r.key.value)], r.args, a) && t == s && worker.None?
    else if blocked then
      Says(a, 500, CIRCUIT_OPEN) && t == s.(audit := s.audit + [Entry(r.verb, B.Requested)]) && worker.None?
    else if c.verbs[r.verb].risk in c.confirm then Submits(c.verbs[r.verb], r, s, t, a, worker)
    else Executes(c.verbs[r.verb], r, process, spawn, s, t, a) && worker.None?
  }

  /** The row of a job whose execution gave the answer a. */
  ghost predicate RowHolds(j: Job, a: Answer) {
    && j.httpStatus == a.status && j.result == Some(a.body)
    && (a.status == 200 ==> j.status == Executed && j.error.None? && j.errorCode.None?)
    && (a.status != 200 ==> j.status == Failed && a.body.Fault? &&
                            j.error == Some(a.body.error) && j.errorCode == Some(a.body.code))
  }

  ghost predicate RowBroken(j: Job) {
    && j.status == Failed && j.httpStatus == 500 && j.result.None?
    && j.error.Some? && j.errorCode == Some(EXECUTION_FAILED)
  }

  /** The row a whole job leaves: broken by an exception of its own or of its webhook, refused, or the
      answer of its execution. */
  ghost predicate EndsAs(v: C.Verb, w: Worker, dialog: Dialog, process: C.Process, spawn: C.Spawn, posts: bool, j: Job)
  {
    if dialog.DialogRaised? then RowBroken(j) && j.error == Some(dialog.text)
    else if posts || (dialog.Yes? && Breaks(w.kind, process, spawn)) then RowBroken(j)
    else if dialog.No? then
      && j.status == Denied && j.httpStatus == 403 && j.errorCode == Some(CONFIRM_DENIED)
      && j.result.Some? && j.result.value.Fault? && j.result.value.code == CONFIRM_DENIED
      && j.error == Some(j.result.value.error)
    else exists a :: Tells(v, w.args, w.kind, process, spawn, a) && RowHolds(j, a)
  }

  /** The audit rows of a whole job: the decision, and the outcome if the process ran to one. */
  ghost predicate JobAudits(v: C.Verb, w: Worker, dialog: Dialog, process: C.Process, spawn: C.Spawn,
                            was: seq<Entry>, audit: seq<Entry>)
  {
    if dialog.DialogRaised? then audit == was
    else if dialog.No? then audit == was + [Entry(w.verb, B.Denied)]
    else if Breaks(w.kind, process, spawn) then audit == was + [Entry(w.verb, B.Approved)]
    else
      exists a, stage :: Tells(v, w.args, w.kind, process, spawn, a) &&
        StageTells(v, w.args, w.kind, process, a, stage) &&
        audit == was + [Entry(w.verb, B.Approved), Entry(w.verb, stage)]
  }

  /** What one job, left alone, makes of the tables s; posts: its webhook raises. */
  ghost predicate JobLeaves(v: C.Verb, w: Worker, dialog: Dialog, process: C.Process, spawn: C.Spawn, raises: bool,
                            s: State, t: State)
    requires w.job < |s.jobs|
  {
    var row := s.jobs[w.job];
    && |t.jobs| == |s.jobs| && (forall id :: 0 <= id < |s.jobs| && id != w.job ==> t.jobs[id] == s.jobs[id])
    && var j := t.jobs[w.job];
    && j == row.(status := j.status, httpStatus := j.httpStatus, result := j.result,
                 error := j.error, errorCode := j.errorCode)
    && EndsAs(v, w, dialog, process, spawn, raises && row.webhook, j)
    && JobAudits(v, w, dialog, process, spawn, s.audit, t.audit)
    && t.starts == s.starts + (if dialog.Yes? then [Start(w.verb, w.key, Some(w.job))] else [])
    && t.approved == s.approved + (if dialog.Yes? then {w.job} else {})
    && t.inFlight == s.inFlight - {w.job} && t.idem == s.idem
  }

  // ---- every call and job of every run ---------------------------------------------------------------------

  /** Fit to be executed. */
  ghost predicate Fit(c: C.Catalog, verb: string, kind: Kind, args: Args) {
    verb in c.verbs && Suits(c.verbs[verb], kind) && A.Valid(c.verbs[verb], args)
  }

  /** The row is that of a call on verb with args, which it shows redacted. */
  ghost predicate RowIs(c: C.Catalog, verb: string, kind: Kind, args: Args, j: Job) {
    Fit(c, verb, kind, args) && j.verb == verb && j.kind == kind && j.risk == c.verbs[verb].risk &&
    j.args == C.PublicArgs(c.verbs[verb], args)
  }

  ghost predicate CallFits(c: C.Catalog, s: State, x: Call) {
    match x.pc
    case Replied(_) => true
    case Launch(id) => id < |s.jobs| && RowIs(c, x.verb, x.kind, x.args, s.jobs[id])
    case ReadBack(id) => id < |s.jobs| && RowIs(c, x.verb, x.kind, x.args, s.jobs[id])
    case _ => Fit(c, x.verb, x.kind, x.args)
  }

  ghost predicate AllFit(c: C.Catalog, s: State) {
    && (forall n :: 0 <= n < |s.calls| ==> CallFits(c, s, s.calls[n]))
    && (forall k :: 0 <= k < |s.workers| ==>
          s.workers[k].job < |s.jobs| &&
          RowIs(c, s.workers[k].verb, s.workers[k].kind, s.workers[k].args, s.jobs[s.workers[k].job]))
  }

  /** No step changes what a row says of its call. */
  lemma RowsKeepTheirCall(c: C.Catalog, s: State, a: Action, id: nat)
    requires id < |s.jobs|
    ensures id < |Step(c, s, a).jobs|
    ensures var j, i := s.jobs[id], Step(c, s, a).jobs[id];
            i.verb == j.verb && i.kind == j.kind && i.risk == j.risk && i.args == j.args
  {}

  lemma StepFits(c: C.Catalog, s: State, a: Action)
    requires C.Loaded(c) && AllFit(c, s)
    ensures AllFit(c, Step(c, s, a))
  {
    var t := Step(c, s, a);
    forall id: nat | id < |s.jobs|
      ensures id < |t.jobs|
      ensures forall verb, kind, args ::
                RowIs(c, verb, kind, args, s.jobs[id]) ==> RowIs(c, verb, kind, args, t.jobs[id])
    {
      RowsKeepTheirCall(c, s, a, id);
    }
    match a
    case Arrive(r) => ChecksAreExact(c, r);
    case CallStep(n, blocked, exec) => if n < |s.calls| { CallStepFits(c, s, n, blocked, exec); }
    case WorkerStep(_, _, _, _) =>
      assert t.calls == s.calls;
  }

  lemma CallStepFits(c: C.Catalog, s: State, n: nat, blocked: bool, exec: Execution)
    requires AllFit(c, s) && n < |s.calls|
    ensures AllFit(c, Step(c, s, CallStep(n, blocked, exec)))
  {
    var t := Step(c, s, CallStep(n, blocked, exec));
    var x := s.calls[n];
    assert CallFits(c, s, x);
    if x.pc.Submit? {
      assert t.jobs == s.jobs + [NewJob(c, x)] && RowIs(c, x.verb, x.kind, x.args, NewJob(c, x));
    }
    assert CallFits(c, t, t.calls[n]);
  }

  lemma {:induction false} RunFits(c: C.Catalog, s0: State, acts: seq<Action>)
    requires C.Loaded(c) && Boot(s0)
    ensures AllFit(c, Run(c, s0, acts))
  {
    if acts != [] {
      RunFits(c, s0, acts[..|acts| - 1]);
      StepFits(c, Run(c, s0, acts[..|acts| - 1]), acts[|acts| - 1]);
    }
  }

  /** In every run: whatever is about to be executed, by a call or by a worker, is a known verb on the
      route it suits with valid arguments; and what a worker will execute is what its row, which the
      human's answer is about, shows redacted. */
  lemma ExecutionsFit(c: C.Catalog, s0: State, acts: seq<Action>)
    requires C.Loaded(c) && Boot(s0)
    ensures var s := Run(c, s0, acts);
            && (forall n :: 0 <= n < |s.calls| && s.calls[n].pc.Execute? ==>
                  Fit(c, s.calls[n].verb, s.calls[n].kind, s.calls[n].args))
            && (forall k :: 0 <= k < |s.workers| ==>
                  s.workers[k].job < |s.jobs| &&
                  RowIs(c, s.workers[k].verb, s.workers[k].kind, s.workers[k].args, s.jobs[s.workers[k].job]))
  {
    RunFits(c, s0, acts);
    assert forall n :: 0 <= n < |Run(c, s0, acts).calls| ==> CallFits(c, Run(c, s0, acts), Run(c, s0, acts).calls[n]);
  }
}
