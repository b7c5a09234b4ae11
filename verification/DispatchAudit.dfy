/** The counting laws of the audit file for idempotent dispatch, where a confirm worker writes the
    decision and the outcome long after the call that asked (dispatch/engine.py,
    dispatch/confirm.py). */
module DispatchAudit {
  import opened Common
  import B = Breaker
  import C = Catalog
  import opened Dispatch
  import opened DispatchOnce

  const DECISIONS: set<B.Stage> := {B.Approved, B.Denied}
  const OUTCOMES: set<B.Stage> := {B.Executed, B.Failed, B.Timeout}

  function RowOf(verb: string, stages: set<B.Stage>): Entry -> bool {
    (e: Entry) => e.verb == verb && e.stage in stages
  }

  ghost function Rows(audit: seq<Entry>, verb: string, stages: set<B.Stage>): nat {
    CountIf(audit, RowOf(verb, stages))
  }

  /** Calls on their way to a confirm job, and calls about to execute. */
  function Submitting(verb: string): Call -> bool { (x: Call) => x.verb == verb && (x.pc.Submit? || x.pc.Launch?) }

  function AtExecute(verb: string): Call -> bool { (x: Call) => x.verb == verb && x.pc.Execute? }

  /** Workers before their decision is written, and workers about to execute. */
  function Undecided(verb: string): Worker -> bool { (w: Worker) => w.verb == verb && (w.pc.Asking? || w.pc.Deciding?) }

  function AtExecuting(verb: string): Worker -> bool { (w: Worker) => w.verb == verb && w.pc.Executing? }

  /** Jobs are for gated verbs, direct execution for the others. */
  ghost predicate GateKept(c: C.Catalog, s: State) {
    && (forall i :: 0 <= i < |s.calls| && s.calls[i].pc.Execute? ==> !Gated(c, s.calls[i].verb))
    && (forall i :: 0 <= i < |s.calls| && (s.calls[i].pc.Submit? || s.calls[i].pc.Launch?) ==>
        Gated(c, s.calls[i].verb))
    && (forall i :: 0 <= i < |s.workers| ==> Gated(c, s.workers[i].verb))
  }

  /** What the law leaves room for: rows still to come are paid for by rows already there. */
  ghost predicate Covered(gated: bool, audit: seq<Entry>, calls: seq<Call>, workers: seq<Worker>, verb: string) {
    var decided, asked, done := Rows(audit, verb, DECISIONS),
      Rows(audit, verb, {B.Requested}), Rows(audit, verb, OUTCOMES);
    if gated then
      && decided + CountIf(calls, Submitting(verb)) + CountIf(workers, Undecided(verb)) <= asked
      && done + CountIf(workers, AtExecuting(verb)) <= Rows(audit, verb, {B.Approved})
    else decided == 0 && done + CountIf(calls, AtExecute(verb)) <= asked
  }

  ghost predicate Paid(c: C.Catalog, s: State, verb: string) {
    Covered(Gated(c, verb), s.audit, s.calls, s.workers, verb)
  }

  lemma StepGateKept(c: C.Catalog, s: State, a: Action)
    requires GateKept(c, s)
    ensures GateKept(c, Step(c, s, a))
  {}

  lemma {:induction false} RunGateKept(c: C.Catalog, s: State, acts: seq<Action>)
    requires Boot(s)
    ensures GateKept(c, Run(c, s, acts))
  {
    if acts != [] {
      RunGateKept(c, s, acts[..|acts| - 1]);
      StepGateKept(c, Run(c, s, acts[..|acts| - 1]), acts[|acts| - 1]);
    }
  }

  /** At most one row, and its effect on a count. */
  lemma RowsAppend(audit: seq<Entry>, more: seq<Entry>, verb: string, stages: set<B.Stage>)
    requires |more| <= 1
    ensures Rows(audit + more, verb, stages) ==
            Rows(audit, verb, stages) + if more != [] && more[0].verb == verb && more[0].stage in stages then 1 else 0
  {
    if more == [] {
      assert audit + more == audit;
    } else {
      assert more == [more[0]];
      CountIfAppend(audit, more[0], RowOf(verb, stages));
    }
  }

  lemma AllRowsAppend(audit: seq<Entry>, more: seq<Entry>, verb: string)
    requires |more| <= 1
    ensures forall stages :: stages in {{B.Requested}, {B.Approved}, DECISIONS, OUTCOMES} ==>
              Rows(audit + more, verb, stages) ==
              Rows(audit, verb, stages) + if more != [] && more[0].verb == verb && more[0].stage in stages then 1 else 0
  {
    forall stages | stages in {{B.Requested}, {B.Approved}, DECISIONS, OUTCOMES}
      ensures Rows(audit + more, verb, stages) ==
              Rows(audit, verb, stages) + if more != [] && more[0].verb == verb && more[0].stage in stages then 1 else 0
    {
      RowsAppend(audit, more, verb, stages);
    }
  }

  lemma ArrivePaid(c: C.Catalog, s: State, r: Request, verb: string)
    requires Paid(c, s, verb)
    ensures Paid(c, Step(c, s, Arrive(r)), verb)
  {
    var t := Step(c, s, Arrive(r));
    CountIfAppend(s.calls, t.calls[|s.calls|], Submitting(verb));
    CountIfAppend(s.calls, t.calls[|s.calls|], AtExecute(verb));
  }

  /** Where a call may stand after its step, and what it has written and hired on the way. */
  predicate CallGoes(c: C.Catalog, x: Call, pc: CallPc, more: seq<Entry>, hired: seq<Worker>) {
    && (pc.Submit? ==> x.pc.Precheck? && Gated(c, x.verb))
    && (pc.Launch? ==> x.pc.Submit?)
    && (pc.Execute? ==> x.pc.Precheck? && !Gated(c, x.verb))
    && |more| <= 1 && (more != [] ==> more[0].verb == x.verb)
    && (x.pc.Precheck? ==> more == [Entry(x.verb, B.Requested)])
    && (!x.pc.Precheck? && more != [] ==> x.pc.Execute? && more[0].stage in OUTCOMES)
    && |hired| <= 1 && (hired != [] ==> x.pc.Launch? && hired[0].verb == x.verb && hired[0].pc.Asking?)
  }

  lemma CallShape(c: C.Catalog, s: State, n: nat, blocked: bool, exec: Execution)
    returns (pc: CallPc, more: seq<Entry>, hired: seq<Worker>)
    requires n < |s.calls|
    ensures var t := Step(c, s, CallStep(n, blocked, exec));
            && t.audit == s.audit + more
             && t.calls == s.calls[n := s.calls[n].(pc := pc)] && t.workers == s.workers + hired
    ensures CallGoes(c, s.calls[n], pc, more, hired)
  {
    var x := s.calls[n];
    pc := NextCallPc(c, s, x, blocked, exec);
    more := CallAudit(x, exec);
    hired := if x.pc.Launch? then [NewWorker(c, x, x.pc.id)] else [];
  }

  lemma HireCounts(workers: seq<Worker>, hired: seq<Worker>, verb: string)
    requires |hired| <= 1 && (hired != [] ==> hired[0].pc.Asking?)
    ensures CountIf(workers + hired, AtExecuting(verb)) == CountIf(workers, AtExecuting(verb))
    ensures CountIf(workers + hired, Undecided(verb)) ==
            CountIf(workers, Undecided(verb)) + if hired != [] && hired[0].verb == verb then 1 else 0
  {
    if hired == [] {
      assert workers + hired == workers;
    } else {
      assert hired == [hired[0]];
      CountIfAppend(workers, hired[0], AtExecuting(verb));
      CountIfAppend(workers, hired[0], Undecided(verb));
    }
  }

  lemma CallCovered(c: C.Catalog, audit: seq<Entry>, calls: seq<Call>, workers: seq<Worker>, n: nat, pc: CallPc,
                    more: seq<Entry>, hired: seq<Worker>, verb: string)
    requires Covered(Gated(c, verb), audit, calls, workers, verb) && n < |calls|
    requires CallGoes(c, calls[n], pc, more, hired) && (calls[n].pc.Execute? ==> !Gated(c, calls[n].verb))
    ensures Covered(Gated(c, verb), audit + more, calls[n := calls[n].(pc := pc)], workers + hired, verb)
  {
    var y := calls[n].(pc := pc);
    AllRowsAppend(audit, more, verb);
    CountIfUpdate(calls, n, y, Submitting(verb));
    CountIfUpdate(calls, n, y, AtExecute(verb));
    HireCounts(workers, hired, verb);
  }

  lemma CallPaid(c: C.Catalog, s: State, n: nat, blocked: bool, exec: Execution, verb: string)
    requires Paid(c, s, verb) && GateKept(c, s) && n < |s.calls|
    ensures Paid(c, Step(c, s, CallStep(n, blocked, exec)), verb)
  {
    var pc, more, hired := CallShape(c, s, n, blocked, exec);
    CallCovered(c, s.audit, s.calls, s.workers, n, pc, more, hired, verb);
  }

  predicate WorkerGoes(w: Worker, pc: WorkerPc, more: seq<Entry>) {
    && (pc.Deciding? ==> w.pc.Asking?)
    && !pc.Asking?
    && (pc.Executing? ==> w.pc == Deciding(true))
    && |more| <= 1 && (more != [] ==> more[0].verb == w.verb)
    && (w.pc.Deciding? ==> more == [Entry(w.verb, if w.pc.yes then B.Approved else B.Denied)])
    && (!w.pc.Deciding? && more != [] ==> w.pc.Executing? && more[0].stage in OUTCOMES)
  }

  lemma WorkerShape(c: C.Catalog, s: State, a: Action) returns (pc: WorkerPc, more: seq<Entry>)
    requires a.WorkerStep? && a.worker < |s.workers| && s.workers[a.worker].job < |s.jobs|
    ensures var t := Step(c, s, a);
            && t.audit == s.audit + more && t.calls == s.calls
            && t.workers == s.workers[a.worker := s.workers[a.worker].(pc := pc)]
    ensures WorkerGoes(s.workers[a.worker], pc, more)
  {
    var w := s.workers[a.worker];
    pc := NextWorkerPc(w, a.dialog, a.outcome, a.notifyRaises && s.jobs[w.job].webhook);
    more := WorkerAudit(w, a.outcome);
  }

  lemma WorkerCovered(gated: bool, audit: seq<Entry>, calls: seq<Call>, workers: seq<Worker>, n: nat, pc: WorkerPc,
                      more: seq<Entry>, verb: string)
    requires Covered(gated, audit, calls, workers, verb) && n < |workers|
    requires WorkerGoes(workers[n], pc, more) && (workers[n].verb == verb ==> gated)
    ensures Covered(gated, audit + more, calls, workers[n := workers[n].(pc := pc)], verb)
  {
    var y := workers[n].(pc := pc);
    AllRowsAppend(audit, more, verb);
    CountIfUpdate(workers, n, y, Undecided(verb));
    CountIfUpdate(workers, n, y, AtExecuting(verb));
  }

  lemma WorkerPaid(c: C.Catalog, s: State, a: Action, verb: string)
    requires Paid(c, s, verb) && GateKept(c, s)
    requires a.WorkerStep? && a.worker < |s.workers| && s.workers[a.worker].job < |s.jobs|
    ensures Paid(c, Step(c, s, a), verb)
  {
    var pc, more := WorkerShape(c, s, a);
    assert Gated(c, s.workers[a.worker].verb);
    WorkerCovered(Gated(c, verb), s.audit, s.calls, s.workers, a.worker, pc, more, verb);
  }

  lemma {:induction false} RunPaid(c: C.Catalog, s: State, acts: seq<Action>, verb: string)
    requires Boot(s)
    ensures Paid(c, Run(c, s, acts), verb)
  {
    if acts != [] {
      var m := Run(c, s, acts[..|acts| - 1]);
      RunPaid(c, s, acts[..|acts| - 1], verb);
      RunGateKept(c, s, acts[..|acts| - 1]);
      match acts[|acts| - 1]
      case Arrive(r) => ArrivePaid(c, m, r, verb);
      case CallStep(n, blocked, exec) => if n < |m.calls| { CallPaid(c, m, n, blocked, exec, verb); }
      case WorkerStep(n, _, _, _) =>
        if n < |m.workers| && m.workers[n].job < |m.jobs| {
          WorkerPaid(c, m, acts[|acts| - 1], verb);
        }
    }
  }

  lemma StepAppends(c: C.Catalog, s: State, a: Action)
    ensures s.audit <= Step(c, s, a).audit && |Step(c, s, a).audit| <= |s.audit| + 1
  {}

  /** A prefix of the file is the file of a moment. */
  lemma {:induction false} PrefixIsAMoment(c: C.Catalog, s: State, acts: seq<Action>, n: nat) returns (m: nat)
    requires s.audit == [] && n <= |Run(c, s, acts).audit|
    ensures m <= |acts| && Run(c, s, acts[..m]).audit == Run(c, s, acts).audit[..n]
  {
    if n == |Run(c, s, acts).audit| {
      m := |acts|;
      assert acts[..m] == acts;
    } else {
      var init := acts[..|acts| - 1];
      StepAppends(c, Run(c, s, init), acts[|acts| - 1]);
      m := PrefixIsAMoment(c, s, init, n);
      assert init[..m] == acts[..m];
    }
  }

  lemma PartOfDecisions(audit: seq<Entry>, verb: string)
    ensures Rows(audit, verb, {B.Approved}) <= Rows(audit, verb, DECISIONS)
  {
    CountIfMono(audit, RowOf(verb, {B.Approved}), RowOf(verb, DECISIONS));
  }

  /** In every prefix of what this daemon has written, over every run of dispatch calls and confirm
      workers: decisions at most requests, and outcomes at most approvals for a gated verb, at most
      requests and no decisions for any other. */
  lemma PrefixAccounting(c: C.Catalog, s: State, acts: seq<Action>, n: nat, verb: string)
    requires Boot(s) && n <= |Run(c, s, acts).audit|
    ensures var prefix := Run(c, s, acts).audit[..n];
            && Rows(prefix, verb, DECISIONS) <= Rows(prefix, verb, {B.Requested})
            && Rows(prefix, verb, OUTCOMES) <= Rows(prefix, verb, {B.Requested})
            && (Gated(c, verb) ==> Rows(prefix, verb, OUTCOMES) <= Rows(prefix, verb, {B.Approved}))
            && (!Gated(c, verb) ==> Rows(prefix, verb, DECISIONS) == 0)
  {
    var m := PrefixIsAMoment(c, s, acts, n);
    RunPaid(c, s, acts[..m], verb);
    PartOfDecisions(Run(c, s, acts[..m]).audit, verb);
  }
}
