/** Dispatch and the confirm worker as the straight-line code they are, each shown to do what
    the step-by-step machine does when nothing else runs in between. */
module Engine {
  import opened Common
  import B = Breaker
  import C = Catalog
  import opened Dispatch
  import W = DispatchAnswers

  // ---- the machine, left alone -------------------------------------------------------------------

  /** Call n takes up to fuel steps, until it has its answer. */
  function CallAlone(c: C.Catalog, s: State, n: nat, blocked: bool, exec: Execution, fuel: nat): State
    requires n < |s.calls|
    decreases fuel
  {
    if fuel == 0 || s.calls[n].pc.Replied? then s
    else CallAlone(c, CallStepped(c, s, n, blocked, exec), n, blocked, exec, fuel - 1)
  }

  /** Worker n takes up to fuel steps, until its thread has ended. */
  function WorkerAlone(s: State, n: nat, dialog: Dialog, outcome: Execution, raises: bool, fuel: nat): State
    requires n < |s.workers| && s.workers[n].job < |s.jobs|
    decreases fuel
  {
    if fuel == 0 || s.workers[n].pc.Gone? then s
    else WorkerAlone(WorkerStepped(s, n, dialog, outcome, raises), n, dialog, outcome, raises, fuel - 1)
  }

  /** A call served from lookup to reply: lookup, precheck, submit, launch, read-back, record. */
  const CALL_STEPS: nat := 6
  /** A job from dialog to exit, with the detour of a raising webhook. */
  const JOB_STEPS: nat := 8

  // ---- orphans -------------------------------------------------------------------------------------

  function OrphanedJob(j: Job): Job {
    j.(status := Failed, httpStatus := 500, result := None,
       error := Some("confirm job orphaned on daemon restart"), errorCode := Some(EXECUTION_FAILED))
  }

  function IsPending(): Job -> bool { (j: Job) => j.status == Pending }

  function PendingIds(jobs: seq<Job>): seq<nat> {
    if jobs == [] then []
    else PendingIds(jobs[..|jobs| - 1]) + if jobs[|jobs| - 1].status == Pending then [|jobs| - 1] else []
  }

  lemma {:induction false} PendingIdsExact(jobs: seq<Job>)
    ensures |PendingIds(jobs)| == CountIf(jobs, IsPending())
    ensures forall i :: 0 <= i < |PendingIds(jobs)| ==>
              PendingIds(jobs)[i] < |jobs| && jobs[PendingIds(jobs)[i]].status == Pending
    ensures forall i, j :: 0 <= i < j < |PendingIds(jobs)| ==> PendingIds(jobs)[i] < PendingIds(jobs)[j]
    ensures forall id: nat :: id < |jobs| && jobs[id].status == Pending ==> id in PendingIds(jobs)
  {
    if jobs != [] {
      var init := jobs[..|jobs| - 1];
      PendingIdsExact(init);
      assert forall id: nat :: id < |init| ==> init[id] == jobs[id];
    }
  }

  lemma OneMoreOrphan(was: seq<Job>, jobs: seq<Job>, ids: seq<nat>, n: nat)
    requires |jobs| == |was| && n < |ids| && ids[n] < |jobs|
    requires forall i, j :: 0 <= i < j < |ids| ==> ids[i] < ids[j]
    requires forall id :: 0 <= id < |jobs| ==> jobs[id] == if id in ids[..n] then OrphanedJob(was[id]) else was[id]
    ensures var next := jobs[ids[n] := OrphanedJob(jobs[ids[n]])];
            forall id :: 0 <= id < |next| ==> next[id] == if id in ids[..n + 1] then OrphanedJob(was[id]) else was[id]
  {
    assert ids[..n + 1] == ids[..n] + [ids[n]];
    assert ids[n] !in ids[..n];
  }

  class Daemon {
    var jobs: seq<Job>
    var idem: map<Key, Prior>
    var inFlight: set<nat>
    var audit: seq<Entry>
    var starts: seq<Start>
    var approved: set<nat>

    constructor ()
      ensures jobs == [] && idem == map[] && inFlight == {} && audit == [] && starts == [] && approved == {}
    {
      jobs, idem, inFlight, audit, starts, approved := [], map[], {}, [], [], {};
    }

    /** The machine state that consists of this daemon and the given threads. */
    ghost function View(calls: seq<Call>, workers: seq<Worker>): State
      reads this
    {
      State(jobs, idem, inFlight, calls, workers, audit, starts, approved)
    }

    /** At start-up: no pending row is left, no other row is touched, and n rows changed. */
    method FailOrphans() returns (n: nat)
      modifies this`jobs
      ensures |jobs| == |old(jobs)|
      ensures forall id :: 0 <= id < |jobs| ==>
                var was := old(jobs)[id];
                if was.status == Pending then
                  && W.RowBroken(jobs[id]) && jobs[id].error == Some("confirm job orphaned on daemon restart")
                  && jobs[id].verb == was.verb && jobs[id].kind == was.kind && jobs[id].risk == was.risk
                  && jobs[id].args == was.args && jobs[id].webhook == was.webhook
                else jobs[id] == was
      ensures n == CountIf(old(jobs), IsPending())
      ensures forall id :: 0 <= id < |jobs| ==> jobs[id].status != Pending
    {
      n := 0;
      var ids := PendingIds(jobs);
      PendingIdsExact(jobs);
      while n < |ids|
        invariant n <= |ids| && |jobs| == |old(jobs)|
        invariant forall id :: 0 <= id < |jobs| ==>
                    jobs[id] == if id in ids[..n] then OrphanedJob(old(jobs)[id]) else old(jobs)[id]
      {
        OneMoreOrphan(old(jobs), jobs, ids, n);
        jobs := jobs[ids[n] := OrphanedJob(jobs[ids[n]])];
        n := n + 1;
      }
      assert ids[..n] == ids;
    }

    /** The pending row, the _in_flight entry and the new thread. */
    method Submit(c: C.Catalog, x: Call) returns (id: nat, w: Worker)
      modifies this`jobs, this`inFlight
      ensures id == |old(jobs)| && jobs == old(jobs) + [NewJob(c, x)]
      ensures inFlight == old(inFlight) + {id} && w == NewWorker(c, x, id)
    {
      id := |jobs|;
      jobs := jobs + [NewJob(c, x)];
      inFlight := inFlight + {id};
      w := NewWorker(c, x, id);
    }

    /** One whole call, against the machine given steps enough.  blocked is the breaker's verdict,
        process and spawn are what an execution would meet; worker is the thread the call leaves
        behind, if any. */
    method Dispatch(c: C.Catalog, r: Request, blocked: bool, process: C.Process, spawn: C.Spawn, ghost steps: nat)
      returns (a: Answer, worker: Option<Worker>)
      requires steps >= CALL_STEPS
      modifies this
      ensures var s := Arrived(c, old(View([], [])), r);
              |s.calls| == 1 &&
              View([s.calls[0].(pc := Replied(a))], Threads(worker)) ==
              CallAlone(c, s, 0, blocked, ExecutionOf(c, r.verb, r.args, r.kind, process, spawn), steps)
      ensures C.Loaded(c) ==>
                W.CallLeaves(c, r, blocked, process, spawn, old(View([], [])), View([], []), a, worker)
    {
      a, worker := Route(c, r, blocked, process, spawn, steps);
      if C.Loaded(c) {
        WholeCallLeaves(c, old(View([], [])), r, blocked, process, spawn, View([], []), a, worker, steps);
      }
    }

    /** From the checks to the answer. */
    method Route(c: C.Catalog, r: Request, blocked: bool, process: C.Process, spawn: C.Spawn, ghost steps: nat)
      returns (a: Answer, worker: Option<Worker>)
      requires steps >= CALL_STEPS
      modifies this
      ensures var s := Arrived(c, old(View([], [])), r);
              |s.calls| == 1 &&
              View([s.calls[0].(pc := Replied(a))], Threads(worker)) ==
              CallAlone(c, s, 0, blocked, ExecutionOf(c, r.verb, r.args, r.kind, process, spawn), steps)
    {
      ArrivesAlone(c, View([], []), r);
      var early := Early(c, r);
      if early.Some? {
        return early.value, None;
      }
      var key := EffectiveKey(r);
      var x := Call(r.verb, key, r.args, r.kind, r.webhook.GoodWebhook?, Precheck);
      assert Arrived(c, View([], []), r) == View([x.(pc := if key.Some? then Lookup else Precheck)], []);
      if key.None? {
        a, worker := Proceed(c, x, blocked, process, spawn, steps);
        return;
      }
      LookupAlone(c, View([x.(pc := Lookup)], []), blocked,
                  ExecutionOf(c, r.verb, r.args, r.kind, process, spawn), steps);
      if (r.verb, key.value) in idem {
        return Replay(jobs, idem[(r.verb, key.value)], r.args), None;
      }
      a, worker := Proceed(c, x, blocked, process, spawn, steps - 1);
    }

    /** The part of a call behind the lookup. */
    method Proceed(c: C.Catalog, x: Call, blocked: bool, process: C.Process, spawn: C.Spawn, ghost fuel: nat)
      returns (a: Answer, worker: Option<Worker>)
      requires x.pc.Precheck? && x.verb in c.verbs && fuel >= 5
      modifies this
      ensures View([x.(pc := Replied(a))], Threads(worker)) ==
              CallAlone(c, old(View([x], [])), 0, blocked,
                        ExecutionOf(c, x.verb, x.args, x.kind, process, spawn), fuel)
    {
      PrecheckAlone(c, View([x], []), blocked, ExecutionOf(c, x.verb, x.args, x.kind, process, spawn), fuel);
      worker := None;
      audit := audit + [Entry(x.verb, B.Requested)];
      if blocked {
        a := Answer(500, Fault(CIRCUIT_OPEN, x.verb));
        return;
      }
      if c.RequiresConfirmation(x.verb) {
        var id, w := Submit(c, x);
        a := Answer(202, PublicJob(id, jobs[id]));
        worker := Some(w);
      } else {
        var exec := Execute(c.verbs[x.verb], Start(x.verb, x.key, None), x.args, x.kind, process, spawn);
        if exec.Raised? {
          a := Answer(500, Fault(UNCAUGHT, exec.text));
          return;
        }
        a := exec.answer;
      }
      if x.key.Some? {
        var job := if worker.Some? then Some(worker.value.job) else None;
        idem := idem[(x.verb, x.key.value) := Prior(x.args, a.status, a.body, job)];
      }
    }

    /** execute_kind, with its audit row. */
    method Execute(v: C.Verb, start: Start, args: Args, kind: Kind, process: C.Process, spawn: C.Spawn)
      returns (exec: Execution)
      modifies this`starts, this`audit
      ensures exec == ExecuteKind(v, args, kind, process, spawn)
      ensures starts == old(starts) + [start]
      ensures audit == old(audit) + if exec.Done? then [Entry(start.verb, StageOf(exec.answer))] else []
    {
      starts := starts + [start];
      exec := ExecuteKind(v, args, kind, process, spawn);
      if exec.Done? {
        audit := audit + [Entry(start.verb, StageOf(exec.answer))];
      }
    }

    /** One whole job, from the dialog to the end of its thread. */
    method RunJob(c: C.Catalog, w: Worker, dialog: Dialog, process: C.Process, spawn: C.Spawn, raises: bool)
      requires w.job < |jobs| && w.pc == Asking && w.verb in c.verbs
      modifies this
      ensures View([], [w.(pc := Gone)]) ==
              WorkerAlone(old(View([], [w])), 0, dialog, ExecutionOf(c, w.verb, w.args, w.kind, process, spawn),
                          raises, JOB_STEPS)
      ensures C.Loaded(c) && W.Fit(c, w.verb, w.kind, w.args) ==>
                W.JobLeaves(c.verbs[w.verb], w, dialog, process, spawn, raises, old(View([], [])), View([], []))
    {
      Work(c, w, dialog, process, spawn, raises);
      if C.Loaded(c) && W.Fit(c, w.verb, w.kind, w.args) {
        WholeJobLeaves(c, w, dialog, process, spawn, raises, old(View([], [])), View([], []));
      }
    }

    /** The try block, its handler and the cleanup. */
    method Work(c: C.Catalog, w: Worker, dialog: Dialog, process: C.Process, spawn: C.Spawn, raises: bool)
      requires w.job < |jobs| && w.pc == Asking && w.verb in c.verbs
      modifies this
      ensures View([], [w.(pc := Gone)]) ==
              WorkerAlone(old(View([], [w])), 0, dialog, ExecutionOf(c, w.verb, w.args, w.kind, process, spawn),
                          raises, JOB_STEPS)
    {
      ghost var outcome := ExecutionOf(c, w.verb, w.args, w.kind, process, spawn);
      JobAlone(View([], [w]), dialog, outcome, raises);
      var rescue := TryJob(c, w, dialog, process, spawn);
      if rescue.None? && raises && jobs[w.job].webhook {
        rescue := Some("notify");
      }
      if rescue.Some? {
        PutJob(w.(pc := Rescuing(rescue.value, false)));
      }
      inFlight := inFlight - {w.job};
    }

    /** The try block up to its webhook; rescue is the text of the exception that leaves it. */
    method TryJob(c: C.Catalog, w: Worker, dialog: Dialog, process: C.Process, spawn: C.Spawn)
      returns (rescue: Option<string>)
      requires w.job < |jobs| && w.pc == Asking && w.verb in c.verbs
      modifies this
      ensures var exec := ExecutionOf(c, w.verb, w.args, w.kind, process, spawn);
              var row := old(jobs)[w.job];
              && View([], []) == Answered(old(View([], [])), w, dialog, exec).(jobs := jobs)
              && rescue == TextOf(dialog, exec)
              && jobs == if rescue.Some? then old(jobs) else old(jobs)[w.job := Written(Settling(w, dialog, exec), row)]
    {
      rescue := None;
      match dialog {
        case DialogRaised(text) => rescue := Some(text);
        case No =>
          audit := audit + [Entry(w.verb, B.Denied)];
          PutJob(w.(pc := Denying));
        case Yes =>
          approved := approved + {w.job};
          audit := audit + [Entry(w.verb, B.Approved)];
          var exec := Execute(c.verbs[w.verb], Start(w.verb, w.key, Some(w.job)), w.args, w.kind, process, spawn);
          match exec {
            case Raised(text) => rescue := Some(text);
            case Done(a) => PutJob(w.(pc := Storing(a)));
          }
      }
    }

    /** put_confirm_job with the fields of w's present stage. */
    method PutJob(w: Worker)
      requires w.job < |jobs|
      modifies this`jobs
      ensures jobs == old(jobs)[w.job := Written(w, old(jobs)[w.job])]
    {
      jobs := jobs[w.job := Written(w, jobs[w.job])];
    }
  }

  /** The execution of a verb, if the catalog has it. */
  function ExecutionOf(c: C.Catalog, verb: string, args: Args,
                       kind: Kind, process: C.Process, spawn: C.Spawn): Execution {
    if verb in c.verbs then ExecuteKind(c.verbs[verb], args, kind, process, spawn) else Raised("unknown verb")
  }

  function Threads(worker: Option<Worker>): seq<Worker> { if worker.Some? then [worker.value] else [] }

  lemma ArrivesAlone(c: C.Catalog, s: State, r: Request)
    requires s.calls == []
    ensures var early := Early(c, r);
            var pc := if early.Some? then Replied(early.value) else if EffectiveKey(r).Some? then Lookup else Precheck;
            Arrived(c, s, r) == s.(calls := [Call(r.verb, EffectiveKey(r), r.args, r.kind, r.webhook.GoodWebhook?, pc)])
    ensures Early(c, r).None? ==> r.verb in c.verbs
  {}

  predicate OneCallAt(s: State, pc: CallPc) { |s.calls| == 1 && s.calls[0].pc == pc }

  lemma LookupAlone(c: C.Catalog, s: State, blocked: bool, exec: Execution, fuel: nat)
    requires OneCallAt(s, Lookup) && s.calls[0].key.Some? && fuel > 0
    ensures var x := s.calls[0];
            var k := (x.verb, x.key.value);
            CallAlone(c, s, 0, blocked, exec, fuel) ==
            if k in s.idem then s.(calls := [x.(pc := Replied(Replay(s.jobs, s.idem[k], x.args)))])
            else CallAlone(c, s.(calls := [x.(pc := Precheck)]), 0, blocked, exec, fuel - 1)
  {
    var next := NextCallPc(c, s, s.calls[0], blocked, exec);
    assert CallStepped(c, s, 0, blocked, exec).calls == [s.calls[0].(pc := next)];
  }

  /** What the recording step leaves. */
  function Recorded(s: State, x: Call, a: Answer, job: Option<nat>): State {
    s.(calls := [x.(pc := Replied(a))],
       idem := if x.key.Some? then s.idem[(x.verb, x.key.value) := Prior(x.args, a.status, a.body, job)] else s.idem)
  }

  lemma FinishAlone(c: C.Catalog, s: State, x: Call, a: Answer, job: Option<nat>, blocked: bool, exec: Execution,
                    fuel: nat)
    requires fuel > 0 && s.calls == [x.(pc := FinishCall(x, a, job))]
    ensures CallAlone(c, s, 0, blocked, exec, fuel) == Recorded(s, x, a, job)
  {
    if x.key.Some? {
      assert CallStepped(c, s, 0, blocked, exec) == Recorded(s, x, a, job);
    }
  }

  /** What submit leaves: the pending row, the entry in _in_flight and the worker. */
  function Launched(c: C.Catalog, s: State, x: Call): State {
    var id := |s.jobs|;
    s.(jobs := s.jobs + [NewJob(c, x)], inFlight := s.inFlight + {id}, workers := s.workers + [NewWorker(c, x, id)])
  }

  lemma SubmitAlone(c: C.Catalog, s: State, blocked: bool, exec: Execution, fuel: nat)
    requires OneCallAt(s, CallPc.Submit) && fuel >= 4
    ensures var x := s.calls[0];
            var id := |s.jobs|;
            CallAlone(c, s, 0, blocked, exec, fuel) ==
            Recorded(Launched(c, s, x), x, Answer(202, PublicJob(id, NewJob(c, x))), Some(id))
  {
    var x := s.calls[0];
    var id := |s.jobs|;
    var s1 := CallStepped(c, s, 0, blocked, exec);
    assert s1 == s.(jobs := s.jobs + [NewJob(c, x)], calls := [x.(pc := Launch(id))]);
    var s2 := CallStepped(c, s1, 0, blocked, exec);
    assert NewWorker(c, s1.calls[0], id) == NewWorker(c, x, id);
    assert s2 == Launched(c, s, x).(calls := [x.(pc := ReadBack(id))]);
    var s3 := CallStepped(c, s2, 0, blocked, exec);
    var a := Answer(202, PublicJob(id, NewJob(c, x)));
    assert s3 == s2.(calls := [x.(pc := FinishCall(x, a, Some(id)))]);
    assert CallAlone(c, s, 0, blocked, exec, fuel) == CallAlone(c, s1, 0, blocked, exec, fuel - 1);
    assert CallAlone(c, s1, 0, blocked, exec, fuel - 1) == CallAlone(c, s2, 0, blocked, exec, fuel - 2);
    assert CallAlone(c, s2, 0, blocked, exec, fuel - 2) == CallAlone(c, s3, 0, blocked, exec, fuel - 3);
    FinishAlone(c, s3, x, a, Some(id), blocked, exec, fuel - 3);
  }

  /** What an execution leaves: the start, and the row of its outcome. */
  function Ran(s: State, start: Start, exec: Execution): State {
    s.(starts := s.starts + [start],
       audit := if exec.Done? then s.audit + [Entry(start.verb, StageOf(exec.answer))] else s.audit)
  }

  lemma PrecheckAlone(c: C.Catalog, s: State, blocked: bool, exec: Execution, fuel: nat)
    requires OneCallAt(s, Precheck) && fuel >= 5
    ensures var x := s.calls[0];
            var id := |s.jobs|;
            CallAlone(c, s, 0, blocked, exec, fuel) ==
            var asked := s.(audit := s.audit + [Entry(x.verb, B.Requested)]);
            if blocked then asked.(calls := [x.(pc := Replied(Answer(500, Fault(CIRCUIT_OPEN, x.verb))))])
            else if Gated(c, x.verb) then
              Recorded(Launched(c, asked, x), x, Answer(202, PublicJob(id, NewJob(c, x))), Some(id))
            else
              var started := Ran(asked, Start(x.verb, x.key, None), exec);
              if exec.Done? then Recorded(started, x, exec.answer, None)
              else started.(calls := [x.(pc := Replied(Answer(500, Fault(UNCAUGHT, exec.text))))])
  {
    var x := s.calls[0];
    var s1 := CallStepped(c, s, 0, blocked, exec);
    var asked := s.(audit := s.audit + [Entry(x.verb, B.Requested)]);
    assert s1 == asked.(calls := [x.(pc := NextCallPc(c, s, x, blocked, exec))]);
    assert CallAlone(c, s, 0, blocked, exec, fuel) == CallAlone(c, s1, 0, blocked, exec, fuel - 1);
    if !blocked {
      if Gated(c, x.verb) {
        var y := x.(pc := CallPc.Submit);
        assert NewJob(c, y) == NewJob(c, x);
        SubmitAlone(c, s1, blocked, exec, fuel - 1);
      } else {
        var s2 := CallStepped(c, s1, 0, blocked, exec);
        var pc := if exec.Done? then FinishCall(x, exec.answer, None)
                  else Replied(Answer(500, Fault(UNCAUGHT, exec.text)));
        assert s2 == Ran(asked, Start(x.verb, x.key, None), exec).(calls := [x.(pc := pc)]);
        assert CallAlone(c, s1, 0, blocked, exec, fuel - 1) == CallAlone(c, s2, 0, blocked, exec, fuel - 2);
        if exec.Done? {
          FinishAlone(c, s2, x, exec.answer, None, blocked, exec, fuel - 2);
        }
      }
    }
  }

  // ---- a job alone -----------------------------------------------------------------------------------

  predicate OneWorkerAt(s: State, w: Worker) { s.workers == [w] && w.job < |s.jobs| }

  /** The state with w's row and thread replaced. */
  function With(s: State, w: Worker, pc: WorkerPc, j: Job): State
    requires w.job < |s.jobs|
  {
    s.(workers := [w.(pc := pc)], jobs := s.jobs[w.job := j])
  }

  lemma LeaveAlone(s: State, w: Worker, dialog: Dialog, outcome: Execution, raises: bool, fuel: nat)
    requires OneWorkerAt(s, w) && fuel >= 2
    requires w.pc == Notifying(false) || (w.pc == Notifying(true) && !(raises && s.jobs[w.job].webhook))
    ensures WorkerAlone(s, 0, dialog, outcome, raises, fuel) ==
            s.(workers := [w.(pc := Gone)], inFlight := s.inFlight - {w.job})
  {
    var s1 := WorkerStepped(s, 0, dialog, outcome, raises);
    assert s.jobs[w.job := s.jobs[w.job]] == s.jobs;
    assert s1 == s.(workers := [w.(pc := Leaving)]);
    var s2 := WorkerStepped(s1, 0, dialog, outcome, raises);
    assert s2 == s.(workers := [w.(pc := Gone)], inFlight := s.inFlight - {w.job});
    assert WorkerAlone(s1, 0, dialog, outcome, raises, fuel - 1) ==
           WorkerAlone(s2, 0, dialog, outcome, raises, fuel - 2);
  }

  lemma RescueAlone(s: State, w: Worker, dialog: Dialog, outcome: Execution, raises: bool, fuel: nat)
    requires OneWorkerAt(s, w) && w.pc.Rescuing? && fuel >= 3
    ensures WorkerAlone(s, 0, dialog, outcome, raises, fuel) ==
            With(s, w, Gone, Written(w, s.jobs[w.job])).(inFlight := s.inFlight - {w.job})
  {
    var s1 := WorkerStepped(s, 0, dialog, outcome, raises);
    assert s1 == With(s, w, Notifying(false), Written(w, s.jobs[w.job]));
    LeaveAlone(s1, w.(pc := Notifying(false)), dialog, outcome, raises, fuel - 1);
  }

  /** The row after the webhook has been posted: rescued if that raises. */
  function Notified(w: Worker, row: Job, raises: bool): Job {
    if raises && row.webhook then Written(w.(pc := Rescuing("notify", false)), row) else row
  }

  /** After the row is written: notify, and rescue if that raises. */
  lemma NotifyAlone(s: State, w: Worker, dialog: Dialog, outcome: Execution, raises: bool, fuel: nat)
    requires OneWorkerAt(s, w) && w.pc == Notifying(true) && fuel >= 4
    ensures WorkerAlone(s, 0, dialog, outcome, raises, fuel) ==
            With(s, w, Gone, Notified(w, s.jobs[w.job], raises)).(inFlight := s.inFlight - {w.job})
  {
    assert s.jobs[w.job := s.jobs[w.job]] == s.jobs;
    if raises && s.jobs[w.job].webhook {
      var s1 := WorkerStepped(s, 0, dialog, outcome, raises);
      assert s1 == s.(workers := [w.(pc := Rescuing("notify", true))]);
      RescueAlone(s1, w.(pc := Rescuing("notify", true)), dialog, outcome, raises, fuel - 1);
    } else {
      LeaveAlone(s, w, dialog, outcome, raises, fuel);
    }
  }

  lemma WriteAlone(s: State, w: Worker, dialog: Dialog, outcome: Execution, raises: bool, fuel: nat)
    requires OneWorkerAt(s, w) && (w.pc.Denying? || w.pc.Storing?) && fuel >= 5
    ensures var row := Written(w, s.jobs[w.job]);
            WorkerAlone(s, 0, dialog, outcome, raises, fuel) ==
            With(s, w, Gone, Notified(w, row, raises)).(inFlight := s.inFlight - {w.job})
  {
    var s1 := WorkerStepped(s, 0, dialog, outcome, raises);
    assert s1 == With(s, w, Notifying(true), Written(w, s.jobs[w.job]));
    assert WorkerAlone(s, 0, dialog, outcome, raises, fuel) == WorkerAlone(s1, 0, dialog, outcome, raises, fuel - 1);
    NotifyAlone(s1, w.(pc := Notifying(true)), dialog, outcome, raises, fuel - 1);
  }

  lemma ExecuteAlone(s: State, w: Worker, dialog: Dialog, outcome: Execution, raises: bool, fuel: nat)
    requires OneWorkerAt(s, w) && w.pc.Executing? && fuel >= 6
    ensures var started := Ran(s, Start(w.verb, w.key, Some(w.job)), outcome);
            WorkerAlone(s, 0, dialog, outcome, raises, fuel) ==
            With(started, w, Gone, JobRow(w, s.jobs[w.job], Yes, outcome, raises)).(inFlight := s.inFlight - {w.job})
  {
    var s1 := WorkerStepped(s, 0, dialog, outcome, raises);
    var pc := if outcome.Done? then Storing(outcome.answer) else Rescuing(outcome.text, false);
    assert s.jobs[w.job := s.jobs[w.job]] == s.jobs;
    assert s1 == Ran(s, Start(w.verb, w.key, Some(w.job)), outcome).(workers := [w.(pc := pc)]);
    if outcome.Done? {
      WriteAlone(s1, w.(pc := pc), dialog, outcome, raises, fuel - 1);
    } else {
      RescueAlone(s1, w.(pc := pc), dialog, outcome, raises, fuel - 1);
    }
  }

  /** The text of the exception that ends a job, if one does. */
  function TextOf(dialog: Dialog, outcome: Execution): Option<string> {
    if dialog.DialogRaised? then Some(dialog.text)
    else if dialog.Yes? && outcome.Raised? then Some(outcome.text)
    else None
  }

  /** The worker as it writes the row of a job that no exception ends. */
  function Settling(w: Worker, dialog: Dialog, outcome: Execution): Worker {
    w.(pc := if dialog.Yes? && outcome.Done? then Storing(outcome.answer) else Denying)
  }

  /** The row a whole job leaves. */
  function JobRow(w: Worker, row: Job, dialog: Dialog, outcome: Execution, raises: bool): Job {
    var text := TextOf(dialog, outcome);
    if text.Some? then Written(w.(pc := Rescuing(text.value, false)), row)
    else Notified(w, Written(Settling(w, dialog, outcome), row), raises)
  }

  /** The tables and histories after the dialog. */
  function Answered(s: State, w: Worker, dialog: Dialog, outcome: Execution): State {
    match dialog
    case DialogRaised(_) => s
    case No => s.(audit := s.audit + [Entry(w.verb, B.Denied)])
    case Yes =>
      Ran(s.(audit := s.audit + [Entry(w.verb, B.Approved)], approved := s.approved + {w.job}),
          Start(w.verb, w.key, Some(w.job)), outcome)
  }

  /** What a job alone leaves behind. */
  lemma JobAlone(s: State, dialog: Dialog, outcome: Execution, raises: bool)
    requires |s.workers| == 1 && OneWorkerAt(s, s.workers[0]) && s.workers[0].pc == Asking
    ensures var w := s.workers[0];
            WorkerAlone(s, 0, dialog, outcome, raises, JOB_STEPS) ==
            With(Answered(s, w, dialog, outcome), w, Gone, JobRow(w, s.jobs[w.job], dialog, outcome, raises))
              .(inFlight := s.inFlight - {w.job})
  {
    var w := s.workers[0];
    assert s.jobs[w.job := s.jobs[w.job]] == s.jobs;
    var s1 := WorkerStepped(s, 0, dialog, outcome, raises);
    if dialog.DialogRaised? {
      assert s1 == s.(workers := [w.(pc := Rescuing(dialog.text, false))]);
      RescueAlone(s1, w.(pc := Rescuing(dialog.text, false)), dialog, outcome, raises, 7);
    } else {
      assert s1 == s.(workers := [w.(pc := Deciding(dialog.Yes?))],
                      approved := if dialog.Yes? then s.approved + {w.job} else s.approved);
      DecidedAlone(s1, w.(pc := Deciding(dialog.Yes?)), dialog, outcome, raises, 7);
    }
  }

  lemma DecidedAlone(s: State, w: Worker, dialog: Dialog, outcome: Execution, raises: bool, fuel: nat)
    requires OneWorkerAt(s, w) && !dialog.DialogRaised? && w.pc == Deciding(dialog.Yes?) && fuel >= 7
    ensures var decided := s.(audit := s.audit + [Entry(w.verb, if dialog.Yes? then B.Approved else B.Denied)]);
            WorkerAlone(s, 0, dialog, outcome, raises, fuel) ==
            With(if dialog.Yes? then Ran(decided, Start(w.verb, w.key, Some(w.job)), outcome) else decided,
                 w, Gone, JobRow(w, s.jobs[w.job], dialog, outcome, raises)).(inFlight := s.inFlight - {w.job})
  {
    var decided := s.(audit := s.audit + [Entry(w.verb, if dialog.Yes? then B.Approved else B.Denied)]);
    var pc := if dialog.Yes? then Executing else Denying;
    assert s.jobs[w.job := s.jobs[w.job]] == s.jobs;
    var s1 := WorkerStepped(s, 0, dialog, outcome, raises);
    assert s1 == decided.(workers := [w.(pc := pc)]);
    assert WorkerAlone(s, 0, dialog, outcome, raises, fuel) == WorkerAlone(s1, 0, dialog, outcome, raises, fuel - 1);
    if dialog.Yes? {
      ExecuteAlone(s1, w.(pc := pc), dialog, outcome, raises, fuel - 1);
    } else {
      WriteAlone(s1, w.(pc := pc), dialog, outcome, raises, fuel - 1);
    }
  }

  // ---- what that means for the request -----------------------------------------------------------------

  lemma ViewTells(id: nat, j: Job)
    ensures W.IsView(PublicJob(id, j), id, j)
  {}

  lemma SubmitLeaves(c: C.Catalog, s: State, x: Call, r: Request, t: State, a: Answer, worker: Option<Worker>)
    requires r.verb in c.verbs && t.calls == [] && t.workers == [] && s.workers == []
    requires x == Call(r.verb, if W.HasKey(r) then r.key else None, r.args, r.kind, r.webhook.GoodWebhook?, Precheck)
    requires var asked := s.(audit := s.audit + [Entry(x.verb, B.Requested)]);
             t.(calls := [x.(pc := Replied(a))], workers := Threads(worker)) ==
             Recorded(Launched(c, asked, x), x, Answer(202, PublicJob(|s.jobs|, NewJob(c, x))), Some(|s.jobs|))
    ensures W.Submits(c.verbs[r.verb], r, s, t, a, worker)
  {
    ViewTells(|s.jobs|, NewJob(c, x));
    assert Threads(worker) == [NewWorker(c, x, |s.jobs|)];
    assert [x.(pc := Replied(a))][0].pc.answer == a;
  }

  lemma ExecuteLeaves(c: C.Catalog, s: State, x: Call, r: Request, process: C.Process, spawn: C.Spawn,
                      t: State, a: Answer, worker: Option<Worker>)
    requires C.Loaded(c) && W.Served(c, r) && t.calls == [] && t.workers == [] && s.workers == []
    requires x == Call(r.verb, if W.HasKey(r) then r.key else None, r.args, r.kind, r.webhook.GoodWebhook?, Precheck)
    requires var exec := ExecutionOf(c, r.verb, r.args, r.kind, process, spawn);
             var started := Ran(s.(audit := s.audit + [Entry(x.verb, B.Requested)]), Start(x.verb, x.key, None), exec);
             t.(calls := [x.(pc := Replied(a))], workers := Threads(worker)) ==
             if exec.Done? then Recorded(started, x, exec.answer, None)
             else started.(calls := [x.(pc := Replied(Answer(500, Fault(UNCAUGHT, exec.text))))])
    ensures W.Executes(c.verbs[r.verb], r, process, spawn, s, t, a) && worker.None?
  {
    var v := c.verbs[r.verb];
    W.ExecutionTells(v, r.args, r.kind, process, spawn);
    var exec := ExecuteKind(v, r.args, r.kind, process, spawn);
    assert [x.(pc := Replied(a))][0].pc.answer == a;
    assert worker.Some? ==> |Threads(worker)| == 1;
    if exec.Done? {
      var stage := StageOf(exec.answer);
      assert s.audit + [Entry(x.verb, B.Requested)] + [Entry(x.verb, stage)] ==
             s.audit + [Entry(r.verb, B.Requested), Entry(r.verb, stage)];
    }
  }

  lemma ServedCallLeaves(c: C.Catalog, s: State, x: Call, r: Request, blocked: bool, process: C.Process, spawn: C.Spawn,
                         t: State, a: Answer, worker: Option<Worker>, fuel: nat)
    requires C.Loaded(c) && W.Served(c, r) && fuel >= 5
    requires x == Call(r.verb, if W.HasKey(r) then r.key else None, r.args, r.kind, r.webhook.GoodWebhook?, Precheck)
    requires s.calls == [x] && s.workers == [] && !(W.HasKey(r) && (r.verb, r.key.value) in s.idem)
    requires t.(calls := [x.(pc := Replied(a))], workers := Threads(worker)) ==
             CallAlone(c, s, 0, blocked, ExecutionOf(c, r.verb, r.args, r.kind, process, spawn), fuel)
    requires t.calls == [] && t.workers == []
    ensures W.CallLeaves(c, r, blocked, process, spawn, s.(calls := []), t, a, worker)
  {
    PrecheckAlone(c, s, blocked, ExecutionOf(c, r.verb, r.args, r.kind, process, spawn), fuel);
    if blocked {
      assert [x.(pc := Replied(a))][0].pc.answer == a;
      assert worker.Some? ==> |Threads(worker)| == 1;
    } else if Gated(c, r.verb) {
      SubmitLeaves(c, s, x, r, t, a, worker);
    } else {
      ExecuteLeaves(c, s, x, r, process, spawn, t, a, worker);
    }
  }

  lemma KeyedCallLeaves(c: C.Catalog, s: State, r: Request, blocked: bool, process: C.Process, spawn: C.Spawn,
                        t: State, a: Answer, worker: Option<Worker>, steps: nat)
    requires C.Loaded(c) && W.Served(c, r) && W.HasKey(r) && steps >= CALL_STEPS
    requires s.calls == [] && s.workers == [] && t.calls == [] && t.workers == []
    requires var x := Call(r.verb, r.key, r.args, r.kind, r.webhook.GoodWebhook?, Lookup);
             t.(calls := [x.(pc := Replied(a))], workers := Threads(worker)) ==
             CallAlone(c, s.(calls := [x]), 0, blocked, ExecutionOf(c, r.verb, r.args, r.kind, process, spawn), steps)
    ensures W.CallLeaves(c, r, blocked, process, spawn, s, t, a, worker)
  {
    var x := Call(r.verb, r.key, r.args, r.kind, r.webhook.GoodWebhook?, Lookup);
    var m := s.(calls := [x]);
    LookupAlone(c, m, blocked, ExecutionOf(c, r.verb, r.args, r.kind, process, spawn), steps);
    assert [x.(pc := Replied(a))][0].pc.answer == a;
    assert worker.Some? ==> |Threads(worker)| == 1;
    if (r.verb, r.key.value) in s.idem {
      W.ReplayTells(s.jobs, s.idem[(r.verb, r.key.value)], r.args);
    } else {
      var y := x.(pc := Precheck);
      assert m.(calls := [y]).(calls := []) == s;
      ServedCallLeaves(c, m.(calls := [y]), y, r, blocked, process, spawn, t, a, worker, steps - 1);
    }
  }

  /** What one whole call leaves, in terms of the request. */
  lemma WholeCallLeaves(c: C.Catalog, s: State, r: Request, blocked: bool, process: C.Process, spawn: C.Spawn,
                        t: State, a: Answer, worker: Option<Worker>, steps: nat)
    requires C.Loaded(c) && steps >= CALL_STEPS
    requires s.calls == [] && s.workers == [] && t.calls == [] && t.workers == []
    requires var m := Arrived(c, s, r);
             |m.calls| == 1 && t.(calls := [m.calls[0].(pc := Replied(a))], workers := Threads(worker)) ==
             CallAlone(c, m, 0, blocked, ExecutionOf(c, r.verb, r.args, r.kind, process, spawn), steps)
    ensures W.CallLeaves(c, r, blocked, process, spawn, s, t, a, worker)
  {
    ArrivesAlone(c, s, r);
    W.ChecksAreExact(c, r);
    var m := Arrived(c, s, r);
    assert [m.calls[0].(pc := Replied(a))][0].pc.answer == a;
    assert worker.Some? ==> |Threads(worker)| == 1;
    if W.Served(c, r) {
      var x := m.calls[0].(pc := Precheck);
      assert m.(calls := [x]).(calls := []) == s;
      if W.HasKey(r) {
        KeyedCallLeaves(c, s, r, blocked, process, spawn, t, a, worker, steps);
      } else {
        ServedCallLeaves(c, m, x, r, blocked, process, spawn, t, a, worker, steps);
      }
    }
  }

  lemma BrokenTells(w: Worker, row: Job, dialog: Dialog, exec: Execution, raises: bool)
    requires dialog.DialogRaised? || (dialog.Yes? && exec.Raised?) || (raises && row.webhook)
    ensures var j := JobRow(w, row, dialog, exec, raises);
            W.RowBroken(j) && (dialog.DialogRaised? ==> j.error == Some(dialog.text))
  {}

  lemma RowKeepsItsCall(w: Worker, row: Job, dialog: Dialog, exec: Execution, raises: bool)
    ensures var j := JobRow(w, row, dialog, exec, raises);
            j == row.(status := j.status, httpStatus := j.httpStatus, result := j.result,
                      error := j.error, errorCode := j.errorCode)
  {}

  lemma RowTells(c: C.Catalog, w: Worker, dialog: Dialog, process: C.Process, spawn: C.Spawn, row: Job, raises: bool)
    requires C.Loaded(c) && W.Fit(c, w.verb, w.kind, w.args)
    ensures var v := c.verbs[w.verb];
            W.EndsAs(v, w, dialog, process, spawn, raises && row.webhook,
                     JobRow(w, row, dialog, ExecuteKind(v, w.args, w.kind, process, spawn), raises))
  {
    var v := c.verbs[w.verb];
    W.ExecutionTells(v, w.args, w.kind, process, spawn);
    var exec := ExecuteKind(v, w.args, w.kind, process, spawn);
    if dialog.DialogRaised? || (dialog.Yes? && exec.Raised?) || (raises && row.webhook) {
      BrokenTells(w, row, dialog, exec, raises);
    } else if dialog.Yes? {
      assert W.RowHolds(JobRow(w, row, dialog, exec, raises), exec.answer);
    }
  }

  lemma AuditTells(c: C.Catalog, w: Worker, dialog: Dialog, process: C.Process, spawn: C.Spawn,
                   was: seq<Entry>, audit: seq<Entry>)
    requires C.Loaded(c) && W.Fit(c, w.verb, w.kind, w.args)
    requires var exec := ExecuteKind(c.verbs[w.verb], w.args, w.kind, process, spawn);
             audit == match dialog
                      case DialogRaised(_) => was
                      case No => was + [Entry(w.verb, B.Denied)]
                      case Yes =>
                        if exec.Done? then was + [Entry(w.verb, B.Approved)] + [Entry(w.verb, StageOf(exec.answer))]
                        else was + [Entry(w.verb, B.Approved)]
    ensures W.JobAudits(c.verbs[w.verb], w, dialog, process, spawn, was, audit)
  {
    var v := c.verbs[w.verb];
    W.ExecutionTells(v, w.args, w.kind, process, spawn);
    var exec := ExecuteKind(v, w.args, w.kind, process, spawn);
    if dialog.Yes? && exec.Done? {
      var stage := StageOf(exec.answer);
      assert was + [Entry(w.verb, B.Approved)] + [Entry(w.verb, stage)] ==
             was + [Entry(w.verb, B.Approved), Entry(w.verb, stage)];
    }
  }

  /** What one whole job leaves, in terms of its dialog and its process. */
  lemma WholeJobLeaves(c: C.Catalog, w: Worker, dialog: Dialog, process: C.Process, spawn: C.Spawn, raises: bool,
                       s: State, t: State)
    requires C.Loaded(c) && W.Fit(c, w.verb, w.kind, w.args) && w.job < |s.jobs| && w.pc == Asking
    requires s.workers == [] && t.workers == []
    requires t.(workers := [w.(pc := Gone)]) ==
             WorkerAlone(s.(workers := [w]), 0, dialog, ExecutionOf(c, w.verb, w.args, w.kind, process, spawn),
                         raises, JOB_STEPS)
    ensures W.JobLeaves(c.verbs[w.verb], w, dialog, process, spawn, raises, s, t)
  {
    var exec := ExecuteKind(c.verbs[w.verb], w.args, w.kind, process, spawn);
    JobAlone(s.(workers := [w]), dialog, exec, raises);
    RowTells(c, w, dialog, process, spawn, s.jobs[w.job], raises);
    RowKeepsItsCall(w, s.jobs[w.job], dialog, exec, raises);
    AuditTells(c, w, dialog, process, spawn, s.audit, Answered(s, w, dialog, exec).audit);
  }
}
