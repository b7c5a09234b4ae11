/** The confirm jobs: what must precede a process, and the job state machine with its raising
    webhooks (dispatch/confirm.py). */
module DispatchJobs {
  import opened Common
  import C = Catalog
  import opened Dispatch
  import opened DispatchOnce

  // ---- approval first --------------------------------------------------------------------------

  predicate CallCleared(c: C.Catalog, x: Call) {
    x.pc.Replied? || (x.verb in c.verbs && (KeyRequired(c.verbs[x.verb]) ==> x.key.Some?) &&
                      (x.pc.Execute? ==> !Gated(c, x.verb)))
  }

  predicate WorkerCleared(c: C.Catalog, s: State, w: Worker) {
    && w.verb in c.verbs && (KeyRequired(c.verbs[w.verb]) ==> w.key.Some?)
    && (w.pc == Deciding(true) || w.pc.Executing? ==> w.job in s.approved)
  }

  predicate StartCleared(c: C.Catalog, s: State, x: Start) {
    && x.verb in c.verbs && (KeyRequired(c.verbs[x.verb]) ==> x.key.Some?)
    && (Gated(c, x.verb) ==> x.job.Some?)
    && (x.job.Some? ==> x.job.value in s.approved)
  }

  ghost predicate Cleared(c: C.Catalog, s: State) {
    && (forall i :: 0 <= i < |s.calls| ==> CallCleared(c, s.calls[i]))
    && (forall i :: 0 <= i < |s.workers| ==> WorkerCleared(c, s, s.workers[i]))
    && (forall i :: 0 <= i < |s.starts| ==> StartCleared(c, s, s.starts[i]))
  }

  lemma StepCleared(c: C.Catalog, s: State, a: Action)
    requires Cleared(c, s)
    ensures Cleared(c, Step(c, s, a))
  {
    var t := Step(c, s, a);
    assert s.approved <= t.approved;
    if a.CallStep? && a.call < |s.calls| {
      assert CallCleared(c, s.calls[a.call]);
    }
    if a.WorkerStep? && a.worker < |s.workers| {
      assert WorkerCleared(c, s, s.workers[a.worker]);
    }
    forall i | 0 <= i < |t.workers| ensures WorkerCleared(c, t, t.workers[i]) {
      if i < |s.workers| {
        assert WorkerCleared(c, s, s.workers[i]);
      }
    }
    forall i | 0 <= i < |t.starts| ensures StartCleared(c, t, t.starts[i]) {
      if i < |s.starts| {
        assert StartCleared(c, s, s.starts[i]);
      }
    }
  }

  lemma {:induction false} RunCleared(c: C.Catalog, s: State, acts: seq<Action>)
    requires Boot(s)
    ensures Cleared(c, Run(c, s, acts))
  {
    if acts != [] {
      RunCleared(c, s, acts[..|acts| - 1]);
      StepCleared(c, Run(c, s, acts[..|acts| - 1]), acts[|acts| - 1]);
    }
  }

  /** A confirmation-required verb's process starts only for a job whose dialog answered yes,
      and a high-risk act or watch only under an idempotency key, so at most once. */
  lemma StartsAreCleared(c: C.Catalog, s: State, acts: seq<Action>, i: nat)
    requires Boot(s) && i < |Run(c, s, acts).starts|
    ensures StartCleared(c, Run(c, s, acts), Run(c, s, acts).starts[i])
  {
    RunCleared(c, s, acts);
  }

  // ---- the job state machine ---------------------------------------------------------------------

  /** The worker has its row still to write. */
  predicate Owes(w: Worker) {
    || w.pc.Asking? || w.pc.Deciding? || w.pc.Executing? || w.pc.Denying? || w.pc.Storing?
    || (w.pc.Rescuing? && !w.pc.again)
  }

  /** The row is written and the webhook in the try block is still ahead, or has just raised. */
  predicate Exposed(w: Worker) { w.pc == Notifying(true) || (w.pc.Rescuing? && w.pc.again) }

  ghost predicate JobsExist(s: State) {
    && (forall i :: 0 <= i < |s.workers| ==> s.workers[i].job < |s.jobs|)
    && (forall i :: 0 <= i < |s.calls| && s.calls[i].pc.Launch? ==> s.calls[i].pc.id < |s.jobs|)
    && (forall i :: 0 <= i < |s.calls| && s.calls[i].pc.ReadBack? ==> s.calls[i].pc.id < |s.jobs|)
    && (forall i :: 0 <= i < |s.calls| && s.calls[i].pc.Record? && s.calls[i].pc.job.Some? ==>
          s.calls[i].pc.job.value < |s.jobs|)
    && (forall k :: k in s.idem && s.idem[k].job.Some? ==> s.idem[k].job.value < |s.jobs|)
  }

  /** A job belongs to one call about to launch it or to one worker, and to nobody else. */
  ghost predicate JobsOwned(s: State) {
    && (forall i, j :: 0 <= i < j < |s.workers| ==> s.workers[i].job != s.workers[j].job)
    && (forall i, j :: 0 <= i < j < |s.calls| && s.calls[i].pc.Launch? && s.calls[j].pc.Launch? ==>
          s.calls[i].pc.id != s.calls[j].pc.id)
    && (forall i, j :: 0 <= i < |s.workers| && 0 <= j < |s.calls| && s.calls[j].pc.Launch? ==>
          s.workers[i].job != s.calls[j].pc.id)
  }

  /** Between the two lines of submit that set the job up. */
  ghost predicate Launching(s: State, id: nat) {
    exists i :: 0 <= i < |s.calls| && s.calls[i].pc == Launch(id)
  }

  ghost predicate PendingCovered(s: State) {
    && (forall id :: 0 <= id < |s.jobs| && s.jobs[id].status == Pending ==> id in s.inFlight || Launching(s, id))
    && (forall i ::
          0 <= i < |s.workers| && (s.workers[i].pc.Leaving? || s.workers[i].pc.Gone? || s.workers[i].pc.Notifying?) ==>
          s.workers[i].job < |s.jobs| && s.jobs[s.workers[i].job].status != Pending)
  }

  ghost predicate JobInv(s: State) { JobsExist(s) && JobsOwned(s) && PendingCovered(s) }

  lemma CallExist(c: C.Catalog, s: State, n: nat, blocked: bool, exec: Execution)
    requires JobsExist(s) && n < |s.calls|
    ensures JobsExist(Step(c, s, CallStep(n, blocked, exec)))
  {}

  lemma CallOwned(c: C.Catalog, s: State, n: nat, blocked: bool, exec: Execution)
    requires JobsExist(s) && JobsOwned(s) && n < |s.calls|
    ensures JobsOwned(Step(c, s, CallStep(n, blocked, exec)))
  {
    var t := Step(c, s, CallStep(n, blocked, exec));
    var x := s.calls[n];
    var pc := NextCallPc(c, s, x, blocked, exec);
    assert t.calls == s.calls[n := x.(pc := pc)];
    assert pc.Launch? <==> x.pc.Submit?;
    assert pc.Launch? ==> pc.id == |s.jobs|;
    assert t.workers == if x.pc.Launch? then s.workers + [NewWorker(c, x, x.pc.id)] else s.workers;
  }

  lemma CallCovered(c: C.Catalog, s: State, n: nat, blocked: bool, exec: Execution)
    requires PendingCovered(s) && n < |s.calls|
    ensures PendingCovered(Step(c, s, CallStep(n, blocked, exec)))
  {
    var t := Step(c, s, CallStep(n, blocked, exec));
    forall id | 0 <= id < |t.jobs| && t.jobs[id].status == Pending ensures id in t.inFlight || Launching(t, id) {
      if id < |s.jobs| {
        if id !in s.inFlight {
          var i :| 0 <= i < |s.calls| && s.calls[i].pc == Launch(id);
          if i != n {
            assert t.calls[i].pc == Launch(id);
          }
        }
      } else {
        assert t.calls[n].pc == Launch(id);
      }
    }
  }

  lemma CallJobInv(c: C.Catalog, s: State, n: nat, blocked: bool, exec: Execution)
    requires JobInv(s) && n < |s.calls|
    ensures JobInv(Step(c, s, CallStep(n, blocked, exec)))
  {
    CallExist(c, s, n, blocked, exec);
    CallOwned(c, s, n, blocked, exec);
    CallCovered(c, s, n, blocked, exec);
  }

  lemma LaunchingStays(s: State, t: State, id: nat)
    requires Launching(s, id) && |s.calls| <= |t.calls| && t.calls[..|s.calls|] == s.calls
    ensures Launching(t, id)
  {
    var i :| 0 <= i < |s.calls| && s.calls[i].pc == Launch(id);
    assert t.calls[i] == t.calls[..|s.calls|][i];
  }

  lemma WorkerCovered(c: C.Catalog, s: State, a: Action)
    requires JobInv(s) && a.WorkerStep? && a.worker < |s.workers|
    ensures PendingCovered(Step(c, s, a))
  {
    var t := Step(c, s, a);
    assert t.calls == s.calls;
    forall id | 0 <= id < |t.jobs| && t.jobs[id].status == Pending ensures id in t.inFlight || Launching(t, id) {
      assert s.jobs[id].status == Pending;
      if id !in s.inFlight {
        LaunchingStays(s, t, id);
      }
    }
  }

  lemma WorkerJobInv(c: C.Catalog, s: State, a: Action)
    requires JobInv(s) && a.WorkerStep? && a.worker < |s.workers|
    ensures JobInv(Step(c, s, a))
  {
    var t := Step(c, s, a);
    assert t.calls == s.calls && t.idem == s.idem && |t.jobs| == |s.jobs| && |t.workers| == |s.workers|;
    assert forall i :: 0 <= i < |s.workers| ==> t.workers[i].job == s.workers[i].job;
    WorkerCovered(c, s, a);
  }

  lemma {:induction false} RunJobInv(c: C.Catalog, s: State, acts: seq<Action>)
    requires Boot(s)
    ensures JobInv(Run(c, s, acts))
  {
    if acts != [] {
      var m := Run(c, s, acts[..|acts| - 1]);
      var a := acts[|acts| - 1];
      RunJobInv(c, s, acts[..|acts| - 1]);
      match a
      case Arrive(r) => ArriveJobInv(c, m, r);
      case CallStep(n, blocked, exec) => if n < |m.calls| { CallJobInv(c, m, n, blocked, exec); }
      case WorkerStep(n, _, _, _) => if n < |m.workers| { WorkerJobInv(c, m, a); }
    }
  }

  lemma ArriveCovered(c: C.Catalog, s: State, r: Request)
    requires PendingCovered(s)
    ensures PendingCovered(Step(c, s, Arrive(r)))
  {
    var t := Step(c, s, Arrive(r));
    assert t.jobs == s.jobs && t.inFlight == s.inFlight && t.workers == s.workers;
    forall id | 0 <= id < |t.jobs| && t.jobs[id].status == Pending ensures id in t.inFlight || Launching(t, id) {
      if id !in s.inFlight {
        LaunchingStays(s, t, id);
      }
    }
  }

  lemma ArriveShape(c: C.Catalog, s: State, r: Request) returns (x: Call)
    ensures Step(c, s, Arrive(r)) == s.(calls := s.calls + [x])
    ensures x.pc.Replied? || x.pc.Lookup? || x.pc.Precheck?
  {
    x := Step(c, s, Arrive(r)).calls[|s.calls|];
  }

  lemma ArriveJobInv(c: C.Catalog, s: State, r: Request)
    requires JobInv(s)
    ensures JobInv(Step(c, s, Arrive(r)))
  {
    var x := ArriveShape(c, s, r);
    ArriveCovered(c, s, r);
  }

  /** In every run, raising webhooks included: a pending row is in flight or still being set up. */
  lemma PendingIsInFlight(c: C.Catalog, s: State, acts: seq<Action>, id: nat)
    requires Boot(s) && id < |Run(c, s, acts).jobs| && Run(c, s, acts).jobs[id].status == Pending
    ensures id in Run(c, s, acts).inFlight || Launching(Run(c, s, acts), id)
  {
    RunJobInv(c, s, acts);
  }

  // ---- rows that have ended ----------------------------------------------------------------------

  /** A worker with its row to write has a pending one, and one that is exposed has written a row
      with a result. */
  ghost predicate RowsFit(s: State) {
    && (forall i :: 0 <= i < |s.workers| ==> s.workers[i].job < |s.jobs|)
    && (forall i :: 0 <= i < |s.workers| && Owes(s.workers[i]) ==> s.jobs[s.workers[i].job].status == Pending)
    && (forall i :: 0 <= i < |s.workers| && Exposed(s.workers[i]) ==> s.jobs[s.workers[i].job].result.Some?)
    && (forall i :: 0 <= i < |s.calls| && s.calls[i].pc.Launch? ==>
          s.calls[i].pc.id < |s.jobs| && s.jobs[s.calls[i].pc.id].status == Pending)
  }

  lemma CallRowsFit(c: C.Catalog, s: State, n: nat, blocked: bool, exec: Execution)
    requires RowsFit(s) && n < |s.calls|
    ensures RowsFit(Step(c, s, CallStep(n, blocked, exec)))
  {}

  lemma WorkerRowsFit(c: C.Catalog, s: State, a: Action)
    requires RowsFit(s) && JobsOwned(s) && a.WorkerStep? && a.worker < |s.workers|
    ensures RowsFit(Step(c, s, a))
  {
    var t := Step(c, s, a);
    var w := s.workers[a.worker];
    assert t.calls == s.calls && t.workers[a.worker].job == w.job;
    assert t.jobs == s.jobs[w.job := Written(w, s.jobs[w.job])];
    forall i | 0 <= i < |t.workers|
      ensures Owes(t.workers[i]) ==> t.jobs[t.workers[i].job].status == Pending
      ensures Exposed(t.workers[i]) ==> t.jobs[t.workers[i].job].result.Some?
    {
      if i != a.worker {
        assert t.workers[i] == s.workers[i] && t.jobs[s.workers[i].job] == s.jobs[s.workers[i].job];
      }
    }
  }

  lemma {:induction false} RunRowsFit(c: C.Catalog, s: State, acts: seq<Action>)
    requires Boot(s)
    ensures RowsFit(Run(c, s, acts)) && JobInv(Run(c, s, acts))
  {
    RunJobInv(c, s, acts);
    if acts != [] {
      var m := Run(c, s, acts[..|acts| - 1]);
      RunRowsFit(c, s, acts[..|acts| - 1]);
      match acts[|acts| - 1]
      case Arrive(_) =>
      case CallStep(n, blocked, exec) => if n < |m.calls| { CallRowsFit(c, m, n, blocked, exec); }
      case WorkerStep(n, _, _, _) => if n < |m.workers| { WorkerRowsFit(c, m, acts[|acts| - 1]); }
    }
  }

  predicate Ended(s: State, id: nat) { id < |s.jobs| && s.jobs[id].status != Pending }

  /** Worker k is about to post the webhook of its job from inside the try block, or has just seen
      that raise. */
  predicate AtRisk(s: State, k: nat) {
    k < |s.workers| && s.workers[k].job < |s.jobs| &&
    ((s.workers[k].pc == Notifying(true) && s.jobs[s.workers[k].job].webhook) ||
     (s.workers[k].pc.Rescuing? && s.workers[k].pc.again))
  }

  /** The job's own worker is. */
  ghost predicate MayBeOverwritten(s: State, id: nat) {
    exists k: nat :: AtRisk(s, k) && s.workers[k].job == id
  }

  /** In this step the job's own webhook raises inside the try block. */
  predicate WebhookRaises(s: State, a: Action, id: nat) {
    a.WorkerStep? && a.worker < |s.workers| && s.workers[a.worker].job == id &&
    s.workers[a.worker].pc == Notifying(true) && a.notifyRaises && id < |s.jobs| && s.jobs[id].webhook
  }

  /** In this step the handler of that exception writes the job's row. */
  predicate Rescues(s: State, a: Action, id: nat) {
    a.WorkerStep? && a.worker < |s.workers| && s.workers[a.worker].job == id &&
    s.workers[a.worker].pc.Rescuing? && s.workers[a.worker].pc.again
  }

  /** One step leaves an ended row alone unless it is the rescue after its own raising webhook, and
      a pending row changes only by ending. */
  lemma StepRow(c: C.Catalog, s: State, a: Action, id: nat)
    requires RowsFit(s) && id < |s.jobs|
    ensures id < |Step(c, s, a).jobs|
    ensures Ended(s, id) && !Rescues(s, a, id) ==> Step(c, s, a).jobs[id] == s.jobs[id]
    ensures Rescues(s, a, id) ==> s.jobs[id].result.Some? && Step(c, s, a).jobs[id].result.None?
    ensures Rescues(s, a, id) ==> Step(c, s, a).jobs[id].status == Failed && Step(c, s, a).jobs[id].httpStatus == 500
    ensures !Ended(Step(c, s, a), id) ==> Step(c, s, a).jobs[id] == s.jobs[id]
  {}

  /** Nobody comes to be at risk by a step on an ended row. */
  lemma StepStaysUnexposed(c: C.Catalog, s: State, a: Action, id: nat)
    requires RowsFit(s) && Ended(s, id) && !MayBeOverwritten(s, id)
    ensures !MayBeOverwritten(Step(c, s, a), id)
  {
    var t := Step(c, s, a);
    forall k: nat | k < |t.workers| && t.workers[k].job == id ensures !AtRisk(t, k) {
      if k < |s.workers| {
        assert s.workers[k].job == id ==> !AtRisk(s, k) && !Owes(s.workers[k]);
      }
    }
  }

  lemma {:induction false} UnexposedRowStays(c: C.Catalog, s0: State, acts: seq<Action>, more: seq<Action>, id: nat)
    requires Boot(s0) && Ended(Run(c, s0, acts), id) && !MayBeOverwritten(Run(c, s0, acts), id)
    ensures id < |Run(c, s0, acts + more).jobs| && Run(c, s0, acts + more).jobs[id] == Run(c, s0, acts).jobs[id]
    ensures !MayBeOverwritten(Run(c, s0, acts + more), id)
  {
    if more == [] {
      assert acts + more == acts;
    } else {
      var init := more[..|more| - 1];
      assert (acts + more)[..|acts + more| - 1] == acts + init;
      UnexposedRowStays(c, s0, acts, init, id);
      var m := Run(c, s0, acts + init);
      RunRowsFit(c, s0, acts + init);
      StepRow(c, m, more[|more| - 1], id);
      StepStaysUnexposed(c, m, more[|more| - 1], id);
    }
  }

  lemma WebhookRaised(c: C.Catalog, s: State, k: nat)
    requires RowsFit(s) && k < |s.workers| && s.workers[k].pc == Notifying(true) && s.jobs[s.workers[k].job].webhook
    ensures var t := Step(c, s, WorkerStep(k, No, FINE, true));
            && t.workers == s.workers[k := s.workers[k].(pc := Rescuing("notify", true))]
            && t.jobs == s.jobs && RowsFit(t)
  {
    var id := s.workers[k].job;
    assert s.jobs[id := s.jobs[id]] == s.jobs;
  }

  lemma RescueWrites(c: C.Catalog, s: State, k: nat)
    requires RowsFit(s) && k < |s.workers| && s.workers[k].pc.Rescuing? && s.workers[k].pc.again
    ensures var id := s.workers[k].job;
            var t := Step(c, s, WorkerStep(k, No, FINE, true));
            id < |t.jobs| && t.jobs[id].status == Failed && t.jobs[id].httpStatus == 500 && t.jobs[id] != s.jobs[id]
  {
    assert Exposed(s.workers[k]);
  }

  /** From an exposed worker, one raising webhook and the rescue are enough. */
  lemma ExposedRowIsOverwritten(c: C.Catalog, s: State, id: nat) returns (more: seq<Action>)
    requires RowsFit(s) && MayBeOverwritten(s, id)
    ensures var t := Run(c, s, more);
            id < |s.jobs| && id < |t.jobs| && t.jobs[id].status == Failed && t.jobs[id].httpStatus == 500 &&
            t.jobs[id] != s.jobs[id]
  {
    var k: nat :| AtRisk(s, k) && s.workers[k].job == id;
    var a := WorkerStep(k, No, FINE, true);
    RunOne(c, s, a);
    more := [a];
    if s.workers[k].pc == Notifying(true) {
      var t := Step(c, s, a);
      WebhookRaised(c, s, k);
      RescueWrites(c, t, k);
      Extend(c, s, more, a);
      more := more + [a];
    } else {
      RescueWrites(c, s, k);
    }
  }

  /** In every reachable state, exactly: an ended row keeps its contents in all continuations if and
      only if its own worker is not about to post its webhook from inside the try block, nor has
      just seen that raise. */
  lemma TerminalIsAbsorbing(c: C.Catalog, s0: State, acts: seq<Action>, id: nat)
    requires Boot(s0) && Ended(Run(c, s0, acts), id)
    ensures (forall more :: id < |Run(c, s0, acts + more).jobs| &&
                            Run(c, s0, acts + more).jobs[id] == Run(c, s0, acts).jobs[id])
            <==> !MayBeOverwritten(Run(c, s0, acts), id)
  {
    var s := Run(c, s0, acts);
    if MayBeOverwritten(s, id) {
      RunRowsFit(c, s0, acts);
      var more := ExposedRowIsOverwritten(c, s, id);
      RunOn(c, s0, acts, more);
    } else {
      forall more ensures id < |Run(c, s0, acts + more).jobs| &&
                          Run(c, s0, acts + more).jobs[id] == s.jobs[id] {
        UnexposedRowStays(c, s0, acts, more, id);
      }
    }
  }

  /** The job's own webhook never raises inside the try block. */
  ghost predicate OwnWebhookQuiet(c: C.Catalog, s: State, acts: seq<Action>, id: nat) {
    acts == [] ||
    (OwnWebhookQuiet(c, s, acts[..|acts| - 1], id) &&
     !WebhookRaises(Run(c, s, acts[..|acts| - 1]), acts[|acts| - 1], id))
  }

  /** No rescue of the job's row after it was written. */
  ghost predicate NeverRescued(s: State, id: nat) {
    forall k :: 0 <= k < |s.workers| && s.workers[k].job == id ==> !(s.workers[k].pc.Rescuing? && s.workers[k].pc.again)
  }

  lemma StepNoRescue(c: C.Catalog, s: State, a: Action, id: nat)
    requires NeverRescued(s, id) && !WebhookRaises(s, a, id)
    ensures NeverRescued(Step(c, s, a), id)
  {}

  lemma {:induction false} QuietMeansNoRescue(c: C.Catalog, s: State, acts: seq<Action>, id: nat)
    requires Boot(s) && OwnWebhookQuiet(c, s, acts, id)
    ensures NeverRescued(Run(c, s, acts), id)
  {
    if acts != [] {
      QuietMeansNoRescue(c, s, acts[..|acts| - 1], id);
      StepNoRescue(c, Run(c, s, acts[..|acts| - 1]), acts[|acts| - 1], id);
    }
  }

  /** Along a run whose webhook for this job does not raise, whatever others do: an ended row never
      changes, and a pending one only by ending. */
  lemma {:induction false} RowAlongRun(c: C.Catalog, s0: State, acts: seq<Action>, m: nat, id: nat)
    requires Boot(s0) && OwnWebhookQuiet(c, s0, acts, id) && m <= |acts| && id < |Run(c, s0, acts[..m]).jobs|
    ensures id < |Run(c, s0, acts).jobs|
    ensures Ended(Run(c, s0, acts[..m]), id) ==> Run(c, s0, acts).jobs[id] == Run(c, s0, acts[..m]).jobs[id]
    ensures !Ended(Run(c, s0, acts), id) ==> Run(c, s0, acts).jobs[id] == Run(c, s0, acts[..m]).jobs[id]
  {
    if m == |acts| {
      assert acts[..m] == acts;
    } else {
      var init := acts[..|acts| - 1];
      assert init[..m] == acts[..m];
      RowAlongRun(c, s0, init, m, id);
      RunRowsFit(c, s0, init);
      QuietMeansNoRescue(c, s0, init, id);
      StepRow(c, Run(c, s0, init), acts[|acts| - 1], id);
    }
  }

  /** The step at m of acts is the rescue of the job's row. */
  predicate RescueAt(c: C.Catalog, s0: State, acts: seq<Action>, m: nat, id: nat) {
    m < |acts| && Rescues(Run(c, s0, acts[..m]), acts[m], id)
  }

  ghost predicate RescuedSince(c: C.Catalog, s0: State, acts: seq<Action>, from: nat, id: nat) {
    exists m: nat :: from <= m && RescueAt(c, s0, acts, m, id)
  }

  lemma RescuesOfPrefix(c: C.Catalog, s0: State, acts: seq<Action>, m: nat, id: nat)
    requires m < |acts| - 1
    ensures RescueAt(c, s0, acts[..|acts| - 1], m, id) <==> RescueAt(c, s0, acts, m, id)
  {
    assert acts[..|acts| - 1][..m] == acts[..m];
  }

  lemma RescuedEarlier(c: C.Catalog, s0: State, acts: seq<Action>, from: nat, id: nat)
    requires from < |acts| && RescuedSince(c, s0, acts[..|acts| - 1], from, id)
    ensures RescuedSince(c, s0, acts, from, id)
  {
    var m: nat :| from <= m && RescueAt(c, s0, acts[..|acts| - 1], m, id);
    RescuesOfPrefix(c, s0, acts, m, id);
  }

  lemma RescuedBefore(c: C.Catalog, s0: State, acts: seq<Action>, from: nat, id: nat)
    requires from < |acts| && RescuedSince(c, s0, acts, from, id) && !RescueAt(c, s0, acts, |acts| - 1, id)
    ensures RescuedSince(c, s0, acts[..|acts| - 1], from, id)
  {
    var m: nat :| from <= m && RescueAt(c, s0, acts, m, id);
    RescuesOfPrefix(c, s0, acts, m, id);
  }

  lemma RescuedStep(c: C.Catalog, s0: State, acts: seq<Action>, from: nat, id: nat)
    requires from < |acts|
    ensures RescuedSince(c, s0, acts, from, id) <==>
            RescuedSince(c, s0, acts[..|acts| - 1], from, id) || RescueAt(c, s0, acts, |acts| - 1, id)
  {
    if RescuedSince(c, s0, acts[..|acts| - 1], from, id) {
      RescuedEarlier(c, s0, acts, from, id);
    } else if RescuedSince(c, s0, acts, from, id) && !RescueAt(c, s0, acts, |acts| - 1, id) {
      RescuedBefore(c, s0, acts, from, id);
    }
  }

  /** At the end of a run the row of a job that had ended in its middle has changed exactly if the
      handler of its own raising webhook wrote it in between. */
  lemma {:induction false} ChangedIffRescued(c: C.Catalog, s0: State, acts: seq<Action>, from: nat, id: nat)
    requires Boot(s0) && from <= |acts| && Ended(Run(c, s0, acts[..from]), id)
    ensures Ended(Run(c, s0, acts), id)
    ensures Run(c, s0, acts).jobs[id] != Run(c, s0, acts[..from]).jobs[id] <==> RescuedSince(c, s0, acts, from, id)
    ensures RescuedSince(c, s0, acts, from, id) ==>
              Run(c, s0, acts[..from]).jobs[id].result.Some? && Run(c, s0, acts).jobs[id].result.None?
  {
    if from == |acts| {
      assert acts[..from] == acts;
    } else {
      var init := acts[..|acts| - 1];
      assert init[..from] == acts[..from];
      ChangedIffRescued(c, s0, init, from, id);
      RunRowsFit(c, s0, init);
      StepRow(c, Run(c, s0, init), acts[|acts| - 1], id);
      RescuedStep(c, s0, acts, from, id);
    }
  }

  // ---- the rows overwritten, from boot -------------------------------------------------------------

  /** A worker that will write a refused row, or an executed one. */
  predicate OnItsWay(w: Worker, yes: bool) {
    || w.pc.Asking? || w.pc == Deciding(yes)
    || (if yes then w.pc.Executing? || w.pc == Storing(FINE.answer) else w.pc.Denying?)
  }

  function WayToGo(w: Worker): nat {
    if w.pc.Asking? then 3 else if w.pc.Deciding? then 2 else if w.pc.Executing? then 1 else 0
  }

  lemma {:induction false} WorkerReachesItsRow(c: C.Catalog, s: State, yes: bool) returns (acts: seq<Action>)
    requires |s.workers| == 1 && s.workers[0].job < |s.jobs| && OnItsWay(s.workers[0], yes)
    ensures var t := Run(c, s, acts);
            var id := s.workers[0].job;
            && |t.jobs| == |s.jobs| && |t.workers| == 1 && t.workers[0].job == id && t.workers[0].pc == Notifying(true)
            && t.jobs[id].status == (if yes then Executed else Denied) && t.jobs[id].webhook == s.jobs[id].webhook
    decreases WayToGo(s.workers[0])
  {
    var a := WorkerStep(0, if yes then Yes else No, FINE, false);
    var t := Step(c, s, a);
    RunOne(c, s, a);
    acts := [a];
    if !s.workers[0].pc.Storing? && !s.workers[0].pc.Denying? {
      assert OnItsWay(t.workers[0], yes);
      var rest := WorkerReachesItsRow(c, t, yes);
      RunOn(c, s, [a], rest);
      acts := [a] + rest;
    }
  }

  /** A gated call and its worker, up to the row. */
  lemma JobReachesItsRow(c: C.Catalog, s0: State, r: Request, yes: bool) returns (acts: seq<Action>)
    requires Boot(s0) && Early(c, r).None? && (EffectiveKey(r).Some? ==> KeyFor(r) !in s0.idem) && Gated(c, r.verb)
    ensures var t := Run(c, s0, acts);
            var id := |s0.jobs|;
            && |t.jobs| == id + 1 && |t.workers| == 1 && t.workers[0].job == id && t.workers[0].pc == Notifying(true)
            && t.jobs[id].status == (if yes then Executed else Denied) && t.jobs[id].webhook == r.webhook.GoodWebhook?
  {
    var asked := JobIsAsked(c, s0, r);
    var rest := WorkerReachesItsRow(c, Run(c, s0, asked), yes);
    RunOn(c, s0, asked, rest);
    acts := asked + rest;
  }

  lemma CallIsChecked(c: C.Catalog, s0: State, r: Request) returns (acts: seq<Action>)
    requires Boot(s0) && Early(c, r).None? && (EffectiveKey(r).Some? ==> KeyFor(r) !in s0.idem)
    ensures Run(c, s0, acts) == s0.(calls :=
            [Call(r.verb, EffectiveKey(r), r.args, r.kind, r.webhook.GoodWebhook?, Precheck)])
  {
    acts := [Arrive(r)];
    RunOne(c, s0, Arrive(r));
    if EffectiveKey(r).Some? {
      ArrivesAtLookup(c, s0, r);
      Extend(c, s0, acts, Kindly(0));
      acts := acts + [Kindly(0)];
    }
  }

  lemma JobIsAsked(c: C.Catalog, s0: State, r: Request) returns (acts: seq<Action>)
    requires Boot(s0) && Early(c, r).None? && (EffectiveKey(r).Some? ==> KeyFor(r) !in s0.idem) && Gated(c, r.verb)
    ensures var t := Run(c, s0, acts);
            && |t.jobs| == |s0.jobs| + 1 && t.jobs[|s0.jobs|].webhook == r.webhook.GoodWebhook?
            && |t.workers| == 1 && t.workers[0].job == |s0.jobs| && t.workers[0].pc == Asking
  {
    var x := Call(r.verb, EffectiveKey(r), r.args, r.kind, r.webhook.GoodWebhook?, Precheck);
    acts := CallIsChecked(c, s0, r);
    Extend(c, s0, acts, Kindly(0));
    var s2 := Step(c, s0.(calls := [x]), Kindly(0));
    assert s2.calls == [x.(pc := CallPc.Submit)] && s2.jobs == s0.jobs && s2.workers == [];
    Extend(c, s0, acts + [Kindly(0)], Kindly(0));
    var s3 := Step(c, s2, Kindly(0));
    assert s3.calls == [x.(pc := Launch(|s0.jobs|))]
           && s3.jobs == s0.jobs + [NewJob(c, s2.calls[0])] && s3.workers == [];
    Extend(c, s0, acts + [Kindly(0)] + [Kindly(0)], Kindly(0));
    acts := acts + [Kindly(0)] + [Kindly(0)] + [Kindly(0)];
  }

  /** It does happen, from boot, for every gated verb and every request with a webhook: a denied job
      and an executed one both turn into a failed one when the post of their webhook raises. */
  lemma RaisingWebhookOverwrites(c: C.Catalog, s0: State, r: Request, yes: bool)
    requires Boot(s0) && Early(c, r).None? && (EffectiveKey(r).Some? ==> KeyFor(r) !in s0.idem) && Gated(c, r.verb)
    requires r.webhook.GoodWebhook?
    ensures exists acts, more :: var s, t, id := Run(c, s0, acts), Run(c, s0, acts + more), |s0.jobs|;
              id < |s.jobs| && s.jobs[id].status == (if yes then Executed else Denied) &&
              id < |t.jobs| && t.jobs[id].status == Failed && t.jobs[id].httpStatus == 500
  {
    var acts := JobReachesItsRow(c, s0, r, yes);
    var s := Run(c, s0, acts);
    RunRowsFit(c, s0, acts);
    assert AtRisk(s, 0);
    var more := ExposedRowIsOverwritten(c, s, |s0.jobs|);
    RunOn(c, s0, acts, more);
    assert Run(c, s0, acts + more).jobs[|s0.jobs|].status == Failed;
  }
}
