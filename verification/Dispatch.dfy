/** Idempotent dispatch with asynchronous confirm jobs: calls, worker threads and the two
    tables they share (dispatch/engine.py, dispatch/confirm.py). */
module Dispatch {
  import opened Common
  import B = Breaker
  import C = Catalog

  // ---- answers -----------------------------------------------------------------------------

  datatype Code =
    | UNKNOWN_VERB | TIER_C_UNAVAILABLE | INVALID_ROUTE | INVALID_ARGS | INVALID_BODY
    | MISSING_IDEMPOTENCY_KEY | IDEMPOTENCY_CONFLICT | CIRCUIT_OPEN | CONFIRM_PENDING
    | CONFIRM_DENIED | CONFIRM_NOT_FOUND | EXECUTION_FAILED | TIMEOUT | UNCAUGHT

  datatype Status = Pending | Denied | Executed | Failed

  datatype Body =
    | Fault(code: Code, error: string, stderr: Option<string> := None)
    | Payload(data: C.Data)
    | Watching(subscription: string)
    | DryRun(argv: seq<string>, stdin: Option<Value>, confirmation: bool, keyRequired: bool)
    | JobView(id: nat, verb: string, kind: Kind, status: Status, risk: C.Risk, result: Option<Body>,
              failure: Option<string>, codeShown: Option<Code>)
    | PollView(job: Body, verbHttpStatus: nat)

  datatype Answer = Answer(status: nat, body: Body)

  datatype Kind = Perceive | Act | Watch | OtherKind(kindName: string)

  // ---- the tables ------------------------------------------------------------------------------

  /** webhook: whether the row holds a webhook_url. */
  datatype Job = Job(verb: string, kind: Kind, risk: C.Risk, args: Args, status: Status, httpStatus: nat,
                     result: Option<Body>, error: Option<string>, errorCode: Option<Code>, webhook: bool)

  /** A recorded answer.  Argument hashes are taken as injective, so the arguments stand here. */
  datatype Prior = Prior(args: Args, status: nat, response: Body, job: Option<nat>)

  type Key = (string, string)

  function PublicJob(id: nat, j: Job): Body {
    var pending := if j.status == Pending then Some(CONFIRM_PENDING) else None;
    var error := if j.error == Some("") then None else j.error;
    JobView(id, j.verb, j.kind, j.status, j.risk, j.result, error,
            if error.Some? && j.errorCode.Some? then j.errorCode else pending)
  }

  function Or200(n: nat): nat { if n == 0 then 200 else n }

  /** What a call gets that finds its key recorded. */
  function Replay(jobs: seq<Job>, prior: Prior, args: Args): Answer {
    if prior.args != args then Answer(409, Fault(IDEMPOTENCY_CONFLICT, "idempotency key reused with different args"))
    else if prior.job.Some? && prior.job.value < |jobs| then
      var id := prior.job.value;
      var j := jobs[id];
      if j.status == Pending then Answer(202, PublicJob(id, j))
      else if j.result.Some? then Answer(Or200(j.httpStatus), j.result.value)
      else Answer(Or200(j.httpStatus), PublicJob(id, j))
    else Answer(prior.status, prior.response)
  }

  function PollConfirm(jobs: seq<Job>, id: nat): Answer {
    if id >= |jobs| then Answer(404, Fault(CONFIRM_NOT_FOUND, "unknown confirm id"))
    else Answer(200, PollView(PublicJob(id, jobs[id]), jobs[id].httpStatus))
  }

  // ---- before the key is looked up -------------------------------------------------------------

  /** An empty URL counts as none. */
  datatype Webhook = NoWebhook | GoodWebhook | BadWebhook

  datatype Request = Request(
    verb: string, args: Args, kind: Kind, dryRun: bool, key: Option<string>, webhook: Webhook)

  const MAX_KEY: nat := 256

  predicate KeyRequired(v: C.Verb) { v.risk == C.High && (v.direction == C.Act || v.tier == C.TierB) }

  /** An empty key counts as none. */
  function EffectiveKey(r: Request): Option<string> {
    if r.key == Some("") then None else r.key
  }

  predicate RouteFits(v: C.Verb, kind: Kind) {
    match kind
    case Perceive => v.tier == C.TierA && v.direction == C.Perceive
    case Act => v.tier == C.TierA && v.direction == C.Act
    case Watch => v.tier == C.TierB
    case OtherKind(_) => false
  }

  /** The answer to a call that gets no further, in the order of the checks. */
  function Early(c: C.Catalog, r: Request): Option<Answer> {
    if r.verb !in c.verbs then Some(Answer(404, Fault(UNKNOWN_VERB, r.verb)))
    else
      var v := c.verbs[r.verb];
      if v.tier.OtherTier? then Some(Answer(501, Fault(TIER_C_UNAVAILABLE, r.verb)))
      else if !RouteFits(v, r.kind) then
        Some(Answer(if r.kind.OtherKind? then 404 else 400, Fault(INVALID_ROUTE, r.verb)))
      else
        var bad := C.ArgCheck(v, r.args);
        if bad.Some? then
          Some(if C.IsValueError(bad.value) then Answer(400, Fault(INVALID_ARGS, r.verb))
               else Answer(500, Fault(UNCAUGHT, r.verb)))
        else if r.webhook.BadWebhook? then Some(Answer(400, Fault(INVALID_BODY, "webhook_url must be http(s)")))
        else if r.dryRun then
          var public := C.PublicArgs(v, r.args);
          Some(Answer(200, DryRun(C.BuildArgv(v, r.args).value,
                                  if v.HasStdin() && v.stdin.value in public then Some(public[v.stdin.value]) else None,
                                  c.RequiresConfirmation(r.verb), KeyRequired(v))))
        else if KeyRequired(v) && EffectiveKey(r).None? then Some(Answer(400, Fault(MISSING_IDEMPOTENCY_KEY, r.verb)))
        else if EffectiveKey(r).Some? && |EffectiveKey(r).value| > MAX_KEY then
          Some(Answer(400, Fault(INVALID_BODY, "idempotency_key")))
        else None
  }

  predicate Gated(c: C.Catalog, verb: string) { verb in c.verbs && c.RequiresConfirmation(verb) }

  // ---- calls and workers -------------------------------------------------------------------------

  datatype CallPc =
    | Lookup
    | Precheck
    | Submit                                   // about to write the pending row
    | Launch(id: nat)                          // row written; about to enter _in_flight and start the worker
    | ReadBack(id: nat)
    | Execute
    | Record(answer: Answer, job: Option<nat>)
    | Replied(answer: Answer)

  datatype Call = Call(verb: string, key: Option<string>, args: Args, kind: Kind, webhook: bool, pc: CallPc)

  /** The statuses execute_kind answers with. */
  type ExecAnswer = a: Answer | a.status == 200 || a.status == 400 || a.status == 500
    witness Answer(200, Payload(C.OkOnly))

  /** Raised: an exception execute_kind does not handle, raised when the process may have run.  A
      worker turns it into a failed job; it ends a direct call before anything is recorded. */
  datatype Execution = Done(answer: ExecAnswer) | Raised(text: string)

  /** execute_kind: its answer by what the process, or Popen, does. */
  function ExecuteKind(v: C.Verb, args: Args, kind: Kind, process: C.Process, spawn: C.Spawn): Execution {
    if kind == Watch then
      match C.RunWatch(v, args, spawn)
      case Started(id) => Done(Answer(200, Watching(id)))
      case OsError(text) => Done(Answer(500, Fault(EXECUTION_FAILED, C.ErrorText(v.name, text))))
      case WatchBroken => Raised("not an OSError")
    else
      match C.RunTierA(v, args, process)
      case Success(data) => Done(Answer(200, Payload(data)))
      case ExecutionError(text, stderr) =>
        Done(Answer(500, Fault(if Contains(text, "timed out") then TIMEOUT else EXECUTION_FAILED, text, Some(stderr))))
      case BadCall(_, _, bad) =>
        if bad.Some? && !C.IsValueError(bad.value) then Raised("KeyError")
        else Done(Answer(400, Fault(INVALID_ARGS, C.ErrorText(v.name, "not a valid Tier A call"))))
      case ValueFailure(text) => Done(Answer(400, Fault(INVALID_ARGS, text)))
      case Uncaught => Raised("not a ValueError")
  }

  /** The outcome that execute_kind audits. */
  function StageOf(a: Answer): B.Stage {
    if a.status == 200 then B.Executed
    else if a.body.Fault? && a.body.code == TIMEOUT then B.Timeout
    else B.Failed
  }

  datatype Dialog = Yes | No | DialogRaised(text: string)

  /** again: the exception came from _notify, when a terminal row was already written. */
  datatype WorkerPc =
    | Asking
    | Deciding(yes: bool)
    | Denying
    | Executing
    | Storing(answer: ExecAnswer)
    | Rescuing(text: string, again: bool)
    | Notifying(inTry: bool)
    | Leaving
    | Gone

  datatype Worker = Worker(
    job: nat, verb: string, key: Option<string>, args: Args, kind: Kind, risk: C.Risk, pc: WorkerPc)

  /** A process start; job is None when the call itself started it. */
  datatype Start = Start(verb: string, key: Option<string>, job: Option<nat>)

  /** A row of the audit file, as far as it is counted. */
  datatype Entry = Entry(verb: string, stage: B.Stage)

  /** Job ids are positions in jobs: submit appends, put_confirm_job overwrites.  audit is what this
      daemon has written to the file; starts and approved (jobs whose dialog was answered yes) are
      history. */
  datatype State = State(
    jobs: seq<Job>, idem: map<Key, Prior>, inFlight: set<nat>, calls: seq<Call>, workers: seq<Worker>,
    audit: seq<Entry>, starts: seq<Start>, approved: set<nat>)

  /** blocked is guard's verdict, exec what the process does; each is used only where it matters. */
  datatype Action =
    | Arrive(r: Request)
    | CallStep(call: nat, blocked: bool, exec: Execution)
    | WorkerStep(worker: nat, dialog: Dialog, outcome: Execution, notifyRaises: bool)

  function KeyOf(verb: string, key: Option<string>): Option<Key> {
    if key.Some? then Some((verb, key.value)) else None
  }

  function NewJob(c: C.Catalog, x: Call): Job {
    var known := x.verb in c.verbs;
    Job(x.verb, x.kind, if known then c.verbs[x.verb].risk else C.NoRisk,
        if known then C.PublicArgs(c.verbs[x.verb], x.args) else x.args, Pending, 202, None, None, None, x.webhook)
  }

  function NewWorker(c: C.Catalog, x: Call, id: nat): Worker {
    Worker(id, x.verb, x.key, x.args, x.kind, if x.verb in c.verbs then c.verbs[x.verb].risk else C.NoRisk, Asking)
  }

  /** Calls may come at any time, also while one with the same key is being served. */
  function Arrived(c: C.Catalog, s: State, r: Request): State {
    var key := EffectiveKey(r);
    var early := Early(c, r);
    var pc := if early.Some? then Replied(early.value) else if key.Some? then Lookup else Precheck;
    s.(calls := s.calls + [Call(r.verb, key, r.args, r.kind, r.webhook.GoodWebhook?, pc)])
  }

  function FinishCall(x: Call, a: Answer, job: Option<nat>): CallPc {
    if x.key.Some? then Record(a, job) else Replied(a)
  }

  function NextCallPc(c: C.Catalog, s: State, x: Call, blocked: bool, exec: Execution): CallPc {
    match x.pc
    case Lookup =>
      var k := KeyOf(x.verb, x.key);
      if k.Some? && k.value in s.idem then Replied(Replay(s.jobs, s.idem[k.value], x.args)) else Precheck
    case Precheck =>
      if blocked then Replied(Answer(500, Fault(CIRCUIT_OPEN, x.verb)))
      else if Gated(c, x.verb) then Submit
      else Execute
    case Submit => Launch(|s.jobs|)
    case Launch(id) => ReadBack(id)
    case ReadBack(id) =>
      if id < |s.jobs| then FinishCall(x, Answer(202, PublicJob(id, s.jobs[id])), Some(id)) else x.pc
    case Execute =>
      if exec.Done? then FinishCall(x, exec.answer, None) else Replied(Answer(500, Fault(UNCAUGHT, exec.text)))
    case Record(a, _) => Replied(a)
    case Replied(_) => x.pc
  }

  /** What a call that is about to record will record. */
  function EntryOf(x: Call): Prior
    requires x.pc.Record?
  {
    Prior(x.args, x.pc.answer.status, x.pc.answer.body, x.pc.job)
  }

  /** What the step of a call, or of a worker, writes to the audit file: precheck its intent, a
      decision, an execution that is not lost to an exception its outcome. */
  function CallAudit(x: Call, exec: Execution): seq<Entry> {
    match x.pc
    case Precheck => [Entry(x.verb, B.Requested)]
    case Execute => if exec.Done? then [Entry(x.verb, StageOf(exec.answer))] else []
    case _ => []
  }

  function Logged(audit: seq<Entry>, more: seq<Entry>): seq<Entry> { if more == [] then audit else audit + more }

  function WorkerAudit(w: Worker, exec: Execution): seq<Entry> {
    match w.pc
    case Deciding(yes) => [Entry(w.verb, if yes then B.Approved else B.Denied)]
    case Executing => if exec.Done? then [Entry(w.verb, StageOf(exec.answer))] else []
    case _ => []
  }

  function CallStepped(c: C.Catalog, s: State, k: nat, blocked: bool, exec: Execution): State
    requires k < |s.calls|
  {
    var x := s.calls[k];
    s.(calls := s.calls[k := x.(pc := NextCallPc(c, s, x, blocked, exec))],
       jobs := if x.pc.Submit? then s.jobs + [NewJob(c, x)] else s.jobs,
       inFlight := if x.pc.Launch? then s.inFlight + {x.pc.id} else s.inFlight,
       workers := if x.pc.Launch? then s.workers + [NewWorker(c, x, x.pc.id)] else s.workers,
       audit := Logged(s.audit, CallAudit(x, exec)),
       starts := if x.pc.Execute? then s.starts + [Start(x.verb, x.key, None)] else s.starts,
       idem := if x.pc.Record? && x.key.Some?
               then s.idem[(x.verb, x.key.value) := EntryOf(x)]
               else s.idem)
  }

  /** raises: the post of the job's webhook raises; without a webhook _notify posts nothing. */
  function NextWorkerPc(w: Worker, dialog: Dialog, exec: Execution, raises: bool): WorkerPc {
    match w.pc
    case Asking =>
      (match dialog
       case Yes => Deciding(true)
       case No => Deciding(false)
       case DialogRaised(text) => Rescuing(text, false))
    case Deciding(yes) => if yes then Executing else Denying
    case Denying => Notifying(true)
    case Executing => if exec.Done? then Storing(exec.answer) else Rescuing(exec.text, false)
    case Storing(_) => Notifying(true)
    case Rescuing(_, _) => Notifying(false)
    case Notifying(inTry) => if raises && inTry then Rescuing("notify", true) else Leaving
    case Leaving => Gone
    case Gone => Gone
  }

  function ErrorOf(b: Body): Option<string> { if b.Fault? then Some(b.error) else None }
  function CodeOf(b: Body): Option<Code> { if b.Fault? then Some(b.code) else None }

  /** The row the worker writes in its present step, if it writes one. */
  function Written(w: Worker, row: Job): Job {
    var blank := row.(result := None, error := None, errorCode := None);
    match w.pc
    case Denying =>
      var text := w.verb + ": declined on-device";
      blank.(status := Denied, httpStatus := 403, result := Some(Fault(CONFIRM_DENIED, text)),
             error := Some(text), errorCode := Some(CONFIRM_DENIED))
    case Storing(a) =>
      if a.status >= 400
      then blank.(status := Failed, httpStatus := a.status, result := Some(a.body),
                  error := ErrorOf(a.body), errorCode := CodeOf(a.body))
      else blank.(status := Executed, httpStatus := a.status, result := Some(a.body))
    case Rescuing(text, _) =>
      blank.(status := Failed, httpStatus := 500, error := Some(text), errorCode := Some(EXECUTION_FAILED))
    case _ => row
  }

  function WorkerStepped(s: State, k: nat, dialog: Dialog, exec: Execution, notifyRaises: bool): State
    requires k < |s.workers| && s.workers[k].job < |s.jobs|
  {
    var w := s.workers[k];
    var raises := notifyRaises && s.jobs[w.job].webhook;
    s.(workers := s.workers[k := w.(pc := NextWorkerPc(w, dialog, exec, raises))],
       jobs := s.jobs[w.job := Written(w, s.jobs[w.job])],
       inFlight := if w.pc.Leaving? then s.inFlight - {w.job} else s.inFlight,
       audit := Logged(s.audit, WorkerAudit(w, exec)),
       starts := if w.pc.Executing? then s.starts + [Start(w.verb, w.key, Some(w.job))] else s.starts,
       approved := if w.pc.Asking? && dialog.Yes? then s.approved + {w.job} else s.approved)
  }

  function Step(c: C.Catalog, s: State, a: Action): State {
    match a
    case Arrive(r) => Arrived(c, s, r)
    case CallStep(k, blocked, exec) => if k < |s.calls| then CallStepped(c, s, k, blocked, exec) else s
    case WorkerStep(k, dialog, exec, notifyRaises) =>
      if k < |s.workers| && s.workers[k].job < |s.jobs| then WorkerStepped(s, k, dialog, exec, notifyRaises) else s
  }

  function Run(c: C.Catalog, s: State, acts: seq<Action>): State {
    if acts == [] then s else Step(c, Run(c, s, acts[..|acts| - 1]), acts[|acts| - 1])
  }

  /** The statuses that confirm.py writes into a job row. */
  predicate Stored(status: nat) { status == 202 || status == 403 || status == 200 || status == 400 || status == 500 }

  /** A daemon that has just come up and failed its orphans: tables from before, nothing running. */
  predicate Boot(s: State) {
    && s.inFlight == {} && s.calls == [] && s.workers == [] && s.audit == [] && s.starts == [] && s.approved == {}
    && (forall i :: 0 <= i < |s.jobs| ==> s.jobs[i].status != Pending && Stored(s.jobs[i].httpStatus))
    && (forall k :: k in s.idem && s.idem[k].job.Some? ==> s.idem[k].job.value < |s.jobs|)
  }
}
