/** What the calls of a run are answered once their key is on record, and what a poll says beside
    them (dispatch/engine.py). */
module DispatchReplay {
  import opened Common
  import C = Catalog
  import opened Dispatch
  import opened DispatchOnce
  import opened DispatchJobs
  import W = DispatchAnswers

  // ---- steps of a run that matter here ----------------------------------------------------------

  /** The state before step m. */
  function Before(c: C.Catalog, s0: State, acts: seq<Action>, m: nat): State
    requires m <= |acts|
  {
    Run(c, s0, acts[..m])
  }

  /** Step m is a call's lookup of a key that is on record. */
  predicate HitAt(c: C.Catalog, s0: State, acts: seq<Action>, m: nat, k: Key) {
    m < |acts| && acts[m].CallStep? && acts[m].call < |Before(c, s0, acts, m).calls| &&
    var x := Before(c, s0, acts, m).calls[acts[m].call];
    x.pc.Lookup? && Has(x.verb, x.key, k) && k in Before(c, s0, acts, m).idem
  }

  /** Step m is a call's recording of its answer in the entry p. */
  predicate RecordAt(c: C.Catalog, s0: State, acts: seq<Action>, m: nat, k: Key, p: Prior) {
    m < |acts| && Records(Before(c, s0, acts, m), acts[m], k)
     && EntryOf(Before(c, s0, acts, m).calls[acts[m].call]) == p
  }

  function ArgsAt(c: C.Catalog, s0: State, acts: seq<Action>, m: nat): Args
    requires m < |acts| && acts[m].CallStep? && acts[m].call < |Before(c, s0, acts, m).calls|
  {
    Before(c, s0, acts, m).calls[acts[m].call].args
  }

  /** The answer that the call moved by step m has got by the end of the run, if it has. */
  function AnswerOf(c: C.Catalog, s0: State, acts: seq<Action>, m: nat): Option<Answer>
    requires m < |acts|
  {
    var t := Run(c, s0, acts);
    if acts[m].CallStep? && acts[m].call < |t.calls| && t.calls[acts[m].call].pc.Replied?
    then Some(t.calls[acts[m].call].pc.answer) else None
  }

  lemma NextBefore(c: C.Catalog, s0: State, acts: seq<Action>, m: nat)
    requires m < |acts|
    ensures Before(c, s0, acts, m + 1) == Step(c, Before(c, s0, acts, m), acts[m])
  {
    assert acts[..m + 1][..m] == acts[..m];
  }

  lemma SplitRun(c: C.Catalog, s0: State, acts: seq<Action>, m: nat)
    requires m <= |acts|
    ensures Run(c, s0, acts) == Run(c, Before(c, s0, acts, m), acts[m..])
  {
    var a, b := acts[..m], acts[m..];
    SplitSeq(acts, m);
    RunOn(c, s0, a, b);
  }

  lemma SplitSeq<T>(s: seq<T>, m: nat)
    requires m <= |s|
    ensures s[..m] + s[m..] == s
  {}

  // ---- the record ----------------------------------------------------------------------------------

  /** k is on record, and no call on k is past its lookup, other than one about to record that same
      entry again. */
  ghost predicate Steady(s: State, k: Key) {
    k in s.idem && forall n: nat :: n < |s.calls| && Has(s.calls[n].verb, s.calls[n].key, k) ==>
      !Beyond(s.calls[n]) && !s.calls[n].pc.ReadBack? && (s.calls[n].pc.Record? ==> EntryOf(s.calls[n]) == s.idem[k])
  }

  lemma StepSteady(c: C.Catalog, s: State, a: Action, k: Key)
    requires Steady(s, k)
    ensures Steady(Step(c, s, a), k) && Step(c, s, a).idem[k] == s.idem[k]
  {
    var t := Step(c, s, a);
    if a.CallStep? && a.call < |s.calls| {
      var x := s.calls[a.call];
      assert Has(x.verb, x.key, k) ==> !Beyond(x) && !x.pc.ReadBack?;
      assert x.pc.Record? && x.key.Some? && (x.verb, x.key.value) == k ==> Has(x.verb, x.key, k);
    }
    forall n: nat | n < |t.calls| && Has(t.calls[n].verb, t.calls[n].key, k)
      ensures !Beyond(t.calls[n]) && !t.calls[n].pc.ReadBack?
      ensures t.calls[n].pc.Record? ==> EntryOf(t.calls[n]) == s.idem[k]
    {
      if n < |s.calls| {
        assert Has(s.calls[n].verb, s.calls[n].key, k);
      }
    }
  }

  lemma {:induction false} RunSteady(c: C.Catalog, s: State, acts: seq<Action>, k: Key)
    requires Steady(s, k)
    ensures Steady(Run(c, s, acts), k) && Run(c, s, acts).idem[k] == s.idem[k]
  {
    if acts != [] {
      RunSteady(c, s, acts[..|acts| - 1], k);
      StepSteady(c, Run(c, s, acts[..|acts| - 1]), acts[|acts| - 1], k);
    }
  }

  /** The job a call has submitted and not yet recorded. */
  function JobOf(x: Call): Option<nat> {
    match x.pc
    case Launch(id) => Some(id)
    case ReadBack(id) => Some(id)
    case Record(_, job) => job
    case _ => None
  }

  /** Such jobs belong to one call each, and to no record. */
  ghost predicate IdsFresh(s: State) {
    && (forall n: nat :: n < |s.calls| && JobOf(s.calls[n]).Some? ==> JobOf(s.calls[n]).value < |s.jobs|)
    && (forall m: nat, n: nat :: m < n < |s.calls| && JobOf(s.calls[m]).Some? ==>
        JobOf(s.calls[m]) != JobOf(s.calls[n]))
    && (forall n: nat, k :: n < |s.calls| && JobOf(s.calls[n]).Some? && k in s.idem ==>
          s.idem[k].job != JobOf(s.calls[n]))
    && (forall k :: k in s.idem && s.idem[k].job.Some? ==> s.idem[k].job.value < |s.jobs|)
  }

  lemma CallJobOf(c: C.Catalog, s: State, n: nat, blocked: bool, exec: Execution)
    requires n < |s.calls|
    ensures var x := s.calls[n];
            var t := Step(c, s, CallStep(n, blocked, exec));
            && t.calls == s.calls[n := t.calls[n]]
            && (x.pc.Submit? ==> JobOf(t.calls[n]) == Some(|s.jobs|) && |t.jobs| == |s.jobs| + 1 && t.idem == s.idem)
            && (!x.pc.Submit? ==> t.jobs == s.jobs && (JobOf(t.calls[n]) == None || JobOf(t.calls[n]) == JobOf(x)))
            && (if x.pc.Record? then JobOf(t.calls[n]) == None else t.idem == s.idem)
            && (forall k :: k in t.idem ==>
                  (k in s.idem && t.idem[k] == s.idem[k]) || (x.pc.Record? && t.idem[k].job == JobOf(x)))
  {}

  lemma CallIdsFresh(c: C.Catalog, s: State, n: nat, blocked: bool, exec: Execution)
    requires IdsFresh(s) && n < |s.calls|
    ensures IdsFresh(Step(c, s, CallStep(n, blocked, exec)))
  {
    CallJobOf(c, s, n, blocked, exec);
    SwapIdsFresh(s, Step(c, s, CallStep(n, blocked, exec)), n);
  }

  /** One call moves on. */
  lemma SwapIdsFresh(s: State, t: State, n: nat)
    requires IdsFresh(s) && n < |s.calls| && |t.calls| == |s.calls| && t.calls == s.calls[n := t.calls[n]]
    requires |s.jobs| <= |t.jobs|
    requires || JobOf(t.calls[n]).None?
             || (JobOf(t.calls[n]) == JobOf(s.calls[n]) && t.idem == s.idem)
             || (JobOf(t.calls[n]) == Some(|s.jobs|) && |t.jobs| == |s.jobs| + 1 && t.idem == s.idem)
    requires forall k :: k in t.idem ==> (k in s.idem && t.idem[k] == s.idem[k]) || t.idem[k].job == JobOf(s.calls[n])
    ensures IdsFresh(t)
  {
    forall m: nat, k | m < |t.calls| && JobOf(t.calls[m]).Some? && k in t.idem
      ensures t.idem[k].job != JobOf(t.calls[m]) {
      if m != n {
        assert t.calls[m] == s.calls[m];
        assert m < n ==> JobOf(s.calls[m]) != JobOf(s.calls[n]);
        assert n < m && JobOf(s.calls[n]).Some? ==> JobOf(s.calls[n]) != JobOf(s.calls[m]);
      }
    }
  }

  lemma ArriveIdsFresh(c: C.Catalog, s: State, r: Request)
    requires IdsFresh(s)
    ensures IdsFresh(Arrived(c, s, r))
  {
    var t := Arrived(c, s, r);
    assert t.idem == s.idem && t.jobs == s.jobs && |t.calls| == |s.calls| + 1;
    assert JobOf(t.calls[|s.calls|]).None?;
    assert forall n: nat :: n < |s.calls| ==> t.calls[n] == s.calls[n];
  }

  lemma StepIdsFresh(c: C.Catalog, s: State, a: Action)
    requires IdsFresh(s)
    ensures IdsFresh(Step(c, s, a))
  {
    match a
    case Arrive(r) => ArriveIdsFresh(c, s, r);
    case CallStep(n, blocked, exec) => if n < |s.calls| { CallIdsFresh(c, s, n, blocked, exec); }
    case WorkerStep(_, _, _, _) =>
      var t := Step(c, s, a);
      assert t.calls == s.calls && t.idem == s.idem && |t.jobs| == |s.jobs|;
  }

  lemma {:induction false} RunIdsFresh(c: C.Catalog, s: State, acts: seq<Action>)
    requires Boot(s)
    ensures IdsFresh(Run(c, s, acts))
  {
    if acts != [] {
      RunIdsFresh(c, s, acts[..|acts| - 1]);
      StepIdsFresh(c, Run(c, s, acts[..|acts| - 1]), acts[|acts| - 1]);
    }
  }

  /** The call, going on, can record something else than p. */
  predicate MayRecordElse(s: State, x: Call, p: Prior) {
    match x.pc
    case Precheck => p.job.Some? ==> p.job.value < |s.jobs|
    case Submit => p.job.Some? ==> p.job.value < |s.jobs|
    case Launch(id) => id < |s.jobs| && p.job != Some(id)
    case ReadBack(id) => id < |s.jobs| && p.job != Some(id)
    case Execute => true
    case Record(_, _) => EntryOf(x) != p
    case _ => false
  }

  function StepsToRecord(x: Call): nat {
    match x.pc
    case Precheck => 5
    case Submit => 4
    case Launch(_) => 3
    case ReadBack(_) => 2
    case Execute => 2
    case Record(_, _) => 1
    case _ => 0
  }

  /** A step towards a record other than p; an execution answers with another status than p's. */
  function Contrary(n: nat, p: Prior): Action {
    CallStep(n, false, if p.status == 200 then Done(Answer(500, Fault(EXECUTION_FAILED, ""))) else FINE)
  }

  lemma ContraryStep(c: C.Catalog, s: State, n: nat, k: Key, p: Prior)
    requires n < |s.calls| && Has(s.calls[n].verb, s.calls[n].key, k) && MayRecordElse(s, s.calls[n], p)
    ensures var t := Step(c, s, Contrary(n, p));
            if s.calls[n].pc.Record? then k in t.idem && t.idem[k] != p
            else n < |t.calls| && Has(t.calls[n].verb, t.calls[n].key, k) && MayRecordElse(t, t.calls[n], p) &&
                 StepsToRecord(t.calls[n]) < StepsToRecord(s.calls[n])
  {}

  lemma {:induction false} RecordsElse(c: C.Catalog, s: State, n: nat, k: Key, p: Prior) returns (acts: seq<Action>)
    requires n < |s.calls| && Has(s.calls[n].verb, s.calls[n].key, k) && MayRecordElse(s, s.calls[n], p)
    ensures k in Run(c, s, acts).idem && Run(c, s, acts).idem[k] != p
    decreases StepsToRecord(s.calls[n])
  {
    var a := Contrary(n, p);
    ContraryStep(c, s, n, k, p);
    RunOne(c, s, a);
    acts := [a];
    if !s.calls[n].pc.Record? {
      var rest := RecordsElse(c, Step(c, s, a), n, k, p);
      RunOn(c, s, acts, rest);
      acts := acts + rest;
    }
  }

  ghost predicate KeepsRecord(s: State, t: State, k: Key)
    requires k in s.idem
  {
    k in t.idem && t.idem[k] == s.idem[k]
  }

  lemma UnsteadyChanges(c: C.Catalog, s: State, k: Key) returns (acts: seq<Action>)
    requires IdsFresh(s) && k in s.idem && !Steady(s, k)
    ensures !KeepsRecord(s, Run(c, s, acts), k)
  {
    var n: nat :| n < |s.calls| && Has(s.calls[n].verb, s.calls[n].key, k) &&
                  (Beyond(s.calls[n]) ||
                    s.calls[n].pc.ReadBack? || (s.calls[n].pc.Record? && EntryOf(s.calls[n]) != s.idem[k]));
    acts := RecordsElse(c, s, n, k, s.idem[k]);
  }

  /** In every reachable state, exactly: a recorded answer is kept in all continuations if and only if
      it is steady. */
  lemma RecordIsForever(c: C.Catalog, s0: State, acts: seq<Action>, k: Key)
    requires Boot(s0) && k in Run(c, s0, acts).idem
    ensures (forall more :: KeepsRecord(Run(c, s0, acts), Run(c, s0, acts + more), k)) <==> Steady(Run(c, s0, acts), k)
  {
    var s := Run(c, s0, acts);
    if Steady(s, k) {
      forall more ensures KeepsRecord(s, Run(c, s0, acts + more), k) {
        RunOn(c, s0, acts, more);
        RunSteady(c, s, more, k);
      }
    } else {
      RunIdsFresh(c, s0, acts);
      var more := UnsteadyChanges(c, s, k);
      RunOn(c, s0, acts, more);
    }
  }

  /** While lookups are exclusive, what is on record is steady. */
  lemma ExclusiveIsSteady(c: C.Catalog, s0: State, acts: seq<Action>, k: Key)
    requires Boot(s0) && LookupsExclusive(c, s0, acts, k) && k in Run(c, s0, acts).idem
    ensures Steady(Run(c, s0, acts), k)
  {
    var s := Run(c, s0, acts);
    RunSole(c, s0, acts, k);
    CountIfWitness(s.calls, WorkingOn(k));
    forall n: nat | n < |s.calls| && Has(s.calls[n].verb, s.calls[n].key, k)
      ensures !Beyond(s.calls[n]) && !Holding(s.calls[n])
    {
      assert !WorkingOn(k)(s.calls[n]);
    }
  }

  /** What is on record at a step where it is steady is on record at every later one. */
  lemma RecordFrom(c: C.Catalog, s0: State, acts: seq<Action>, from: nat, m: nat, k: Key)
    requires from <= m <= |acts| && Steady(Before(c, s0, acts, from), k)
    ensures k in Before(c, s0, acts, m).idem
    ensures Before(c, s0, acts, m).idem[k] == Before(c, s0, acts, from).idem[k]
  {
    SplitRun(c, s0, acts[..m], from);
    assert acts[..m][..from] == acts[..from];
    RunSteady(c, Before(c, s0, acts, from), acts[..m][from..], k);
  }

  lemma HitReplies(c: C.Catalog, s: State, a: Action, k: Key)
    requires a.CallStep? && a.call < |s.calls| && s.calls[a.call].pc.Lookup? && k in s.idem
    requires Has(s.calls[a.call].verb, s.calls[a.call].key, k)
    ensures var x := s.calls[a.call];
            |Step(c, s, a).calls| == |s.calls| &&
            Step(c, s, a).calls[a.call] == x.(pc := Replied(Replay(s.jobs, s.idem[k], x.args)))
  {}

  /** A hit is answered by the replay of what is then on record on the jobs of its moment. */
  lemma HitAnswer(c: C.Catalog, s0: State, acts: seq<Action>, m: nat, k: Key)
    requires HitAt(c, s0, acts, m, k)
    ensures AnswerOf(c, s0, acts, m) ==
            Some(Replay(Before(c, s0, acts, m).jobs, Before(c, s0, acts, m).idem[k], ArgsAt(c, s0, acts, m)))
  {
    NextBefore(c, s0, acts, m);
    SplitRun(c, s0, acts, m + 1);
    HitReplies(c, Before(c, s0, acts, m), acts[m], k);
    W.RepliedStays(c, Before(c, s0, acts, m + 1), acts[m + 1..], acts[m].call);
  }

  /** A call that records is answered with what it records. */
  lemma RecorderAnswer(c: C.Catalog, s0: State, acts: seq<Action>, m: nat, k: Key, p: Prior)
    requires RecordAt(c, s0, acts, m, k, p)
    ensures AnswerOf(c, s0, acts, m) == Some(Answer(p.status, p.response)) && p.args == ArgsAt(c, s0, acts, m)
  {
    NextBefore(c, s0, acts, m);
    SplitRun(c, s0, acts, m + 1);
    W.RepliedStays(c, Before(c, s0, acts, m + 1), acts[m + 1..], acts[m].call);
  }

  // ---- when the job ends ----------------------------------------------------------------------------

  /** The first step before which job id has ended, or one past the last. */
  function EndStep(c: C.Catalog, s0: State, acts: seq<Action>, id: nat): nat
    ensures EndStep(c, s0, acts, id) <= |acts| + 1
  {
    if acts == [] then (if Ended(s0, id) then 0 else 1)
    else
      var before := EndStep(c, s0, acts[..|acts| - 1], id);
      if before <= |acts| - 1 then before
      else if Ended(Run(c, s0, acts), id) then |acts| else |acts| + 1
  }

  lemma {:induction false} EndStepIsTheEnd(c: C.Catalog, s0: State, acts: seq<Action>, m: nat, id: nat)
    requires Boot(s0) && m <= |acts|
    ensures Ended(Before(c, s0, acts, m), id) <==> EndStep(c, s0, acts, id) <= m
  {
    if acts == [] {
      assert acts[..m] == [];
    } else {
      var init := acts[..|acts| - 1];
      if m < |acts| {
        EndStepIsTheEnd(c, s0, init, m, id);
        assert init[..m] == acts[..m];
      } else {
        assert acts[..m] == acts;
        EndStepIsTheEnd(c, s0, init, |init|, id);
        assert init[..|init|] == init;
        if Ended(Run(c, s0, init), id) {
          EndedStays(c, s0, init, acts[|acts| - 1], id);
        }
      }
    }
  }

  lemma EndedStays(c: C.Catalog, s0: State, acts: seq<Action>, a: Action, id: nat)
    requires Boot(s0) && Ended(Run(c, s0, acts), id)
    ensures Ended(Step(c, Run(c, s0, acts), a), id)
  {
    RunRowsFit(c, s0, acts);
    StepRow(c, Run(c, s0, acts), a, id);
  }

  lemma {:induction false} QuietBefore(c: C.Catalog, s0: State, acts: seq<Action>, m: nat, id: nat)
    requires OwnWebhookQuiet(c, s0, acts, id) && m <= |acts|
    ensures OwnWebhookQuiet(c, s0, acts[..m], id)
  {
    if m == |acts| {
      assert acts[..m] == acts;
    } else {
      QuietBefore(c, s0, acts[..|acts| - 1], m, id);
      assert acts[..|acts| - 1][..m] == acts[..m];
    }
  }

  /** The job's row at two moments, both before its end or both after it, is the same. */
  lemma SameRow(c: C.Catalog, s0: State, acts: seq<Action>, m: nat, n: nat, id: nat)
    requires Boot(s0) && OwnWebhookQuiet(c, s0, acts, id) && m <= n <= |acts| && id < |Before(c, s0, acts, m).jobs|
    requires Ended(Before(c, s0, acts, m), id) || !Ended(Before(c, s0, acts, n), id)
    ensures id < |Before(c, s0, acts, n).jobs| && Before(c, s0, acts, n).jobs[id] == Before(c, s0, acts, m).jobs[id]
  {
    QuietBefore(c, s0, acts, n, id);
    assert acts[..n][..m] == acts[..m];
    RowAlongRun(c, s0, acts[..n], m, id);
  }

  /** A record's job exists. */
  lemma RecordedJobExists(c: C.Catalog, s0: State, acts: seq<Action>, m: nat, k: Key)
    requires Boot(s0) && m <= |acts| && k in Before(c, s0, acts, m).idem && Before(c, s0, acts, m).idem[k].job.Some?
    ensures Before(c, s0, acts, m).idem[k].job.value < |Before(c, s0, acts, m).jobs|
  {
    RunJobInv(c, s0, acts[..m]);
  }

  // ---- convergence -----------------------------------------------------------------------------------

  const CONFLICT: Answer := Answer(409, Fault(IDEMPOTENCY_CONFLICT, "idempotency key reused with different args"))

  /** Whether all hits of k from step `from` on got just these answers: 409 for other arguments than the
      recorded ones, else first before step cut and final from there on. */
  ghost predicate AnsweredAs(c: C.Catalog, s0: State, acts: seq<Action>, from: nat, k: Key, args: Args, first: Answer,
                             final: Answer, cut: nat) {
    forall m: nat :: from <= m && HitAt(c, s0, acts, m, k) ==>
      AnswerOf(c, s0, acts, m) ==
      Some(if ArgsAt(c, s0, acts, m) != args then CONFLICT else if m < cut then first else final)
  }

  predicate Shows202(first: Answer, id: nat) {
    first.status == 202 && first.body.JobView? && first.body.id == id && first.body.status == Pending
  }

  /** k is on record for job id, steadily, from step `from` on, and the job's own webhook is quiet. */
  ghost predicate OnRecord(c: C.Catalog, s0: State, acts: seq<Action>, from: nat, k: Key, id: nat) {
    && Boot(s0) && from <= |acts| && Steady(Before(c, s0, acts, from), k)
    && Before(c, s0, acts, from).idem[k].job == Some(id) && OwnWebhookQuiet(c, s0, acts, id)
  }

  /** A hit from then on with the recorded arguments. */
  predicate SameHitAt(c: C.Catalog, s0: State, acts: seq<Action>, from: nat, m: nat, k: Key) {
    && from <= m && HitAt(c, s0, acts, m, k) && from <= |acts| && k in Before(c, s0, acts, from).idem
    && ArgsAt(c, s0, acts, m) == Before(c, s0, acts, from).idem[k].args
  }

  lemma HitsOfAJob(c: C.Catalog, s0: State, acts: seq<Action>, from: nat, k: Key, id: nat)
    returns (first: Answer, final: Answer)
    requires OnRecord(c, s0, acts, from, k, id)
    ensures Shows202(first, id)
    ensures var p := Before(c, s0, acts, from).idem[k];
            AnsweredAs(c, s0, acts, from, k, p.args, first, final, EndStep(c, s0, acts, id)) &&
            (Ended(Run(c, s0, acts), id) ==> final == Replay(Run(c, s0, acts).jobs, p, p.args))
  {
    var p := Before(c, s0, acts, from).idem[k];
    var cut := EndStep(c, s0, acts, id);
    first := Answer(202, JobView(id, "", Act, Pending, C.NoRisk, None, None, None));
    final := Replay(Run(c, s0, acts).jobs, p, p.args);
    if early: nat :| SameHitAt(c, s0, acts, from, early, k) && early < cut {
      first := PendingAnswer(c, s0, acts, from, early, k, id);
    }
    forall m: nat | SameHitAt(c, s0, acts, from, m, k) && m < cut
      ensures AnswerOf(c, s0, acts, m) == Some(first)
    {
      var early: nat :| SameHitAt(c, s0, acts, from, early, k)
         && early < cut && AnswerOf(c, s0, acts, early) == Some(first);
      PendingAnswersAgree(c, s0, acts, from, early, m, k, id);
    }
    forall m: nat | SameHitAt(c, s0, acts, from, m, k) && cut <= m
      ensures AnswerOf(c, s0, acts, m) == Some(final)
    {
      EndedAnswer(c, s0, acts, from, m, k, id);
    }
    forall m: nat | from <= m && HitAt(c, s0, acts, m, k) && ArgsAt(c, s0, acts, m) != p.args
      ensures AnswerOf(c, s0, acts, m) == Some(CONFLICT)
    {
      HitAnswer(c, s0, acts, m, k);
      RecordFrom(c, s0, acts, from, m, k);
    }
  }

  lemma PendingAnswer(c: C.Catalog, s0: State, acts: seq<Action>, from: nat, m: nat, k: Key, id: nat)
    returns (a: Answer)
    requires OnRecord(c, s0, acts, from, k, id) && SameHitAt(c, s0, acts, from, m, k) && m < EndStep(c, s0, acts, id)
    ensures AnswerOf(c, s0, acts, m) == Some(a) && Shows202(a, id)
    ensures id < |Before(c, s0, acts, m).jobs| && a == Answer(202, PublicJob(id, Before(c, s0, acts, m).jobs[id]))
  {
    HitAnswer(c, s0, acts, m, k);
    RecordFrom(c, s0, acts, from, m, k);
    RecordedJobExists(c, s0, acts, m, k);
    EndStepIsTheEnd(c, s0, acts, m, id);
    a := Answer(202, PublicJob(id, Before(c, s0, acts, m).jobs[id]));
  }

  lemma PendingAnswersAgree(c: C.Catalog, s0: State, acts: seq<Action>, from: nat, m: nat, n: nat, k: Key, id: nat)
    requires OnRecord(c, s0, acts, from, k, id)
    requires SameHitAt(c, s0, acts, from, m, k) && SameHitAt(c, s0, acts, from, n, k)
    requires m < EndStep(c, s0, acts, id) && n < EndStep(c, s0, acts, id)
    ensures AnswerOf(c, s0, acts, m) == AnswerOf(c, s0, acts, n)
  {
    var a := PendingAnswer(c, s0, acts, from, m, k, id);
    var b := PendingAnswer(c, s0, acts, from, n, k, id);
    EndStepIsTheEnd(c, s0, acts, m, id);
    EndStepIsTheEnd(c, s0, acts, n, id);
    if m <= n {
      SameRow(c, s0, acts, m, n, id);
    } else {
      SameRow(c, s0, acts, n, m, id);
    }
  }

  lemma EndedAnswer(c: C.Catalog, s0: State, acts: seq<Action>, from: nat, m: nat, k: Key, id: nat)
    requires OnRecord(c, s0, acts, from, k, id) && SameHitAt(c, s0, acts, from, m, k) && EndStep(c, s0, acts, id) <= m
    ensures var p := Before(c, s0, acts, from).idem[k];
            AnswerOf(c, s0, acts, m) == Some(Replay(Run(c, s0, acts).jobs, p, p.args)) && Ended(Run(c, s0, acts), id)
  {
    HitAnswer(c, s0, acts, m, k);
    RecordFrom(c, s0, acts, from, m, k);
    EndStepIsTheEnd(c, s0, acts, m, id);
    SameRow(c, s0, acts, m, |acts|, id);
    assert acts[..|acts|] == acts;
  }

  /** In every run, from any step on at which k is steadily on record, if the recorded job's own webhook
      does not raise: the calls that find the key are answered 409 if their arguments are others,
      else by one and the same 202 until the job ends and by one constant from then on, which is the
      replay on the final row; a record without a job is that constant from the start.  And the call
      that made the record was answered with it. */
  lemma AnswersConverge(c: C.Catalog, s0: State, acts: seq<Action>, from: nat, k: Key)
    returns (first: Answer, final: Answer, cut: nat)
    requires Boot(s0) && from <= |acts| && Steady(Before(c, s0, acts, from), k)
    requires var job := Before(c, s0, acts, from).idem[k].job;
             job.Some? ==> OwnWebhookQuiet(c, s0, acts, job.value)
    ensures AnsweredAs(c, s0, acts, from, k, Before(c, s0, acts, from).idem[k].args, first, final, cut)
    ensures var p := Before(c, s0, acts, from).idem[k];
            && (p.job.Some? ==> Shows202(first, p.job.value) && cut == EndStep(c, s0, acts, p.job.value))
            && (p.job.Some? && Ended(Run(c, s0, acts), p.job.value) ==>
                 final == Replay(Run(c, s0, acts).jobs, p, p.args))
            && (p.job.None? ==> cut == 0 && final == Answer(p.status, p.response))
            && (forall m: nat :: RecordAt(c, s0, acts, m, k, p) ==>
                  AnswerOf(c, s0, acts, m) == Some(Answer(p.status, p.response)))
  {
    var p := Before(c, s0, acts, from).idem[k];
    forall m: nat | RecordAt(c, s0, acts, m, k, p)
      ensures AnswerOf(c, s0, acts, m) == Some(Answer(p.status, p.response)) {
      RecorderAnswer(c, s0, acts, m, k, p);
    }
    if p.job.Some? {
      cut := EndStep(c, s0, acts, p.job.value);
      first, final := HitsOfAJob(c, s0, acts, from, k, p.job.value);
    } else {
      first, final, cut := Answer(p.status, p.response), Answer(p.status, p.response), 0;
      forall m: nat | from <= m && HitAt(c, s0, acts, m, k)
        ensures AnswerOf(c, s0, acts, m) == Some(Replay(Before(c, s0, acts, m).jobs, p, ArgsAt(c, s0, acts, m)))
      {
        HitAnswer(c, s0, acts, m, k);
        RecordFrom(c, s0, acts, from, m, k);
      }
    }
  }

  // ---- polls beside replays ----------------------------------------------------------------------------

  predicate AllStored(s: State) { forall id :: 0 <= id < |s.jobs| ==> Stored(s.jobs[id].httpStatus) }

  lemma StepStored(c: C.Catalog, s: State, a: Action)
    requires AllStored(s)
    ensures AllStored(Step(c, s, a))
  {}

  lemma {:induction false} RunStored(c: C.Catalog, s0: State, acts: seq<Action>)
    requires Boot(s0)
    ensures AllStored(Run(c, s0, acts))
  {
    if acts != [] {
      RunStored(c, s0, acts[..|acts| - 1]);
      StepStored(c, Run(c, s0, acts[..|acts| - 1]), acts[|acts| - 1]);
    }
  }

  /** In the runs of AnswersConverge: a call answered after the job's end has the status that every poll
      after it reports as the verb's, and the body that poll holds; a call answered before the end
      shows, with 202, the job view that a poll at any moment since the job was submitted shows. */
  lemma PollsAgreeWithReplays(c: C.Catalog, s0: State, acts: seq<Action>, from: nat, m: nat, n: nat, k: Key, id: nat)
    requires OnRecord(c, s0, acts, from, k, id) && SameHitAt(c, s0, acts, from, m, k)
    requires n <= |acts| && id < |Before(c, s0, acts, n).jobs|
    requires EndStep(c, s0, acts, id) <= m <==> EndStep(c, s0, acts, id) <= n
    ensures var poll := PollConfirm(Before(c, s0, acts, n).jobs, id);
            && AnswerOf(c, s0, acts, m).Some? && poll.status == 200 && poll.body.PollView?
            && var answer := AnswerOf(c, s0, acts, m).value;
            if EndStep(c, s0, acts, id) <= m then
              && answer.status == poll.body.verbHttpStatus
              && (poll.body.job.result.Some? ==> answer.body == poll.body.job.result.value)
              && (poll.body.job.result.None? ==> answer.body == poll.body.job)
            else answer == Answer(202, poll.body.job)
  {
    HitAnswer(c, s0, acts, m, k);
    RecordFrom(c, s0, acts, from, m, k);
    RecordedJobExists(c, s0, acts, m, k);
    EndStepIsTheEnd(c, s0, acts, m, id);
    EndStepIsTheEnd(c, s0, acts, n, id);
    if m <= n {
      SameRow(c, s0, acts, m, n, id);
    } else {
      SameRow(c, s0, acts, n, m, id);
    }
    RunStored(c, s0, acts[..n]);
  }

  // ---- what the constant says ----------------------------------------------------------------------------

  /** How a job ends: refused on the device, answered by its execution, or broken by an exception. */
  datatype Ending = Refused | Answered(answer: ExecAnswer) | Broken(text: string)

  /** The step that decides how job id ends, and how. */
  function EndingOf(s: State, a: Action, id: nat): Option<Ending> {
    if !(a.WorkerStep? && a.worker < |s.workers| && s.workers[a.worker].job == id) then None
    else match s.workers[a.worker].pc
      case Asking =>
        (match a.dialog
         case Yes => None
         case No => Some(Refused)
         case DialogRaised(text) => Some(Broken(text)))
      case Executing => Some(if a.outcome.Done? then Answered(a.outcome.answer) else Broken(a.outcome.text))
      case _ => None
  }

  /** The worker carries this ending to its row. */
  predicate Carries(w: Worker, e: Ending) {
    match e
    case Refused => w.pc == Deciding(false) || w.pc.Denying?
    case Answered(a) => w.pc == Storing(a)
    case Broken(text) => w.pc == Rescuing(text, false)
  }

  predicate RowSays(j: Job, e: Ending) {
    match e
    case Refused =>
      j.status == Denied && j.httpStatus == 403 &&
      j.result.Some? && j.result.value.Fault? && j.result.value.code == CONFIRM_DENIED &&
      j.error == Some(j.result.value.error) && j.result.value.error != "" && j.errorCode == Some(CONFIRM_DENIED)
    case Answered(a) =>
      j.status == (if a.status >= 400 then Failed else Executed) && j.httpStatus == a.status &&
      j.result == Some(a.body) && (a.status < 400 ==> j.error.None?) &&
      (a.status >= 400 && a.body.Fault? ==> j.error == Some(a.body.error) && j.errorCode == Some(a.body.code))
    case Broken(text) =>
      j.status == Failed && j.httpStatus == 500 && j.result.None? &&
      j.error == Some(text) && j.errorCode == Some(EXECUTION_FAILED)
  }

  ghost predicate Decided(s: State, id: nat, e: Ending) {
    id < |s.jobs| &&
    (if Ended(s, id) then RowSays(s.jobs[id], e)
     else exists k :: 0 <= k < |s.workers| && s.workers[k].job == id && Carries(s.workers[k], e))
  }

  lemma DecidedNow(c: C.Catalog, s: State, a: Action, id: nat)
    requires RowsFit(s) && EndingOf(s, a, id).Some?
    ensures Decided(Step(c, s, a), id, EndingOf(s, a, id).value)
  {
    var t := Step(c, s, a);
    assert t.jobs[id] == s.jobs[id];
    assert Carries(t.workers[a.worker], EndingOf(s, a, id).value) && t.workers[a.worker].job == id;
  }

  lemma DecidedStep(c: C.Catalog, s: State, a: Action, id: nat, e: Ending)
    requires RowsFit(s) && JobsOwned(s) && NeverRescued(s, id) && Decided(s, id, e)
    ensures Decided(Step(c, s, a), id, e)
  {
    var t := Step(c, s, a);
    StepRow(c, s, a, id);
    if !Ended(s, id) {
      var k :| 0 <= k < |s.workers| && s.workers[k].job == id && Carries(s.workers[k], e);
      if a.WorkerStep? && a.worker == k {
        CarriedOn(c, s, a, id, e);
      } else {
        assert t.workers[k] == s.workers[k] && t.jobs[id] == s.jobs[id];
      }
    }
  }

  /** The worker that carries the ending writes it, or comes closer to that. */
  lemma CarriedOn(c: C.Catalog, s: State, a: Action, id: nat, e: Ending)
    requires RowsFit(s) && NeverRescued(s, id) && id < |s.jobs| && !Ended(s, id)
    requires a.WorkerStep? && a.worker < |s.workers| && s.workers[a.worker].job == id && Carries(s.workers[a.worker], e)
    ensures Decided(Step(c, s, a), id, e)
  {
    var t := Step(c, s, a);
    assert t.jobs[id] == Written(s.workers[a.worker], s.jobs[id]);
    assert t.workers[a.worker].job == id;
  }

  lemma {:induction false} DecidedToTheEnd(c: C.Catalog, s0: State, acts: seq<Action>, m: nat, id: nat, e: Ending)
    requires Boot(s0) && OwnWebhookQuiet(c, s0, acts, id) && m < |acts|
    requires EndingOf(Before(c, s0, acts, m), acts[m], id) == Some(e)
    ensures Decided(Run(c, s0, acts), id, e)
  {
    var init, a := acts[..|acts| - 1], acts[|acts| - 1];
    var s := Run(c, s0, init);
    assert Run(c, s0, acts) == Step(c, s, a);
    RunRowsFit(c, s0, init);
    if m == |init| {
      assert Before(c, s0, acts, m) == s;
      DecidedNow(c, s, a, id);
    } else {
      assert init[..m] == acts[..m] && init[m] == acts[m];
      DecidedToTheEnd(c, s0, init, m, id, e);
      QuietMeansNoRescue(c, s0, init, id);
      DecidedStep(c, s, a, id, e);
    }
  }

  /** What the constant is, for a call answered after the job's end: for a job the human refused, 403
      and the refusal; for one that was executed, the very answer of the execution; for one that an
      exception ended, 500 and the failed job. */
  lemma ReplayTellsTheEnding(c: C.Catalog, s0: State, acts: seq<Action>, from: nat, k: Key, id: nat, d: nat, m: nat)
    requires OnRecord(c, s0, acts, from, k, id) && SameHitAt(c, s0, acts, from, m, k) && EndStep(c, s0, acts, id) <= m
    requires d < |acts| && EndingOf(Before(c, s0, acts, d), acts[d], id).Some?
    ensures AnswerOf(c, s0, acts, m).Some?
    ensures var answer := AnswerOf(c, s0, acts, m).value;
            match EndingOf(Before(c, s0, acts, d), acts[d], id).value
            case Refused => answer.status == 403 && answer.body.Fault? && answer.body.code == CONFIRM_DENIED
            case Answered(a) => answer == a
            case Broken(_) => answer.status == 500 && answer.body.JobView? && answer.body.status == Failed
  {
    EndedAnswer(c, s0, acts, from, m, k, id);
    DecidedToTheEnd(c, s0, acts, d, id, EndingOf(Before(c, s0, acts, d), acts[d], id).value);
    RecordFrom(c, s0, acts, from, m, k);
  }

  /** And what a poll shows of such a job: the status, the code and the error of its ending, but for the
      error of an exception without a text. */
  lemma PollTellsTheEnding(c: C.Catalog, s0: State, acts: seq<Action>, id: nat, d: nat)
    requires Boot(s0) && OwnWebhookQuiet(c, s0, acts, id) && Ended(Run(c, s0, acts), id)
    requires d < |acts| && EndingOf(Before(c, s0, acts, d), acts[d], id).Some?
    ensures var poll := PollConfirm(Run(c, s0, acts).jobs, id);
            && poll.status == 200 && poll.body.PollView? && poll.body.job.JobView? && poll.body.job.id == id
            && var shown := poll.body.job;
            match EndingOf(Before(c, s0, acts, d), acts[d], id).value
            case Refused =>
              poll.body.verbHttpStatus == 403 && shown.status == Denied && shown.codeShown == Some(CONFIRM_DENIED)
            case Answered(a) =>
              && poll.body.verbHttpStatus == a.status && shown.result == Some(a.body)
              && (a.status < 400 ==> shown.status == Executed && shown.failure.None? && shown.codeShown.None?)
              && (a.status >= 400 ==> shown.status == Failed)
              && (a.status >= 400 && a.body.Fault? && a.body.error != "" ==>
                    shown.failure == Some(a.body.error) && shown.codeShown == Some(a.body.code))
            case Broken(text) =>
              && poll.body.verbHttpStatus == 500 && shown.status == Failed && shown.result.None?
              && (if text != "" then shown.failure == Some(text) && shown.codeShown == Some(EXECUTION_FAILED)
                  else shown.failure.None? && shown.codeShown.None?)
  {
    DecidedToTheEnd(c, s0, acts, d, id, EndingOf(Before(c, s0, acts, d), acts[d], id).value);
    W.PollTells(Run(c, s0, acts).jobs, id);
  }

  predicate NotToldYes(w: Worker) { w.pc.Asking? || w.pc == Deciding(false) || w.pc.Denying? }

  /** The job of a worker that has not been told yes is not on the approved list. */
  ghost predicate RefusedUnapproved(s: State) {
    && (forall i :: 0 <= i < |s.workers| && NotToldYes(s.workers[i]) ==>
          s.workers[i].job !in s.approved)
    && (forall id :: id in s.approved ==> id < |s.jobs| && (s.jobs[id].status != Denied))
    && (forall i :: 0 <= i < |s.calls| && s.calls[i].pc.Launch? ==> s.calls[i].pc.id !in s.approved)
  }

  lemma CallUnapproved(c: C.Catalog, s: State, n: nat, blocked: bool, exec: Execution)
    requires RefusedUnapproved(s) && n < |s.calls|
    ensures RefusedUnapproved(Step(c, s, CallStep(n, blocked, exec)))
  {}

  lemma WorkerUnapproved(c: C.Catalog, s: State, a: Action)
    requires RefusedUnapproved(s) && RowsFit(s) && JobsOwned(s) && a.WorkerStep? && a.worker < |s.workers|
    ensures RefusedUnapproved(Step(c, s, a))
  {
    var t := Step(c, s, a);
    var w := s.workers[a.worker];
    assert t.jobs == s.jobs[w.job := Written(w, s.jobs[w.job])] && t.calls == s.calls;
    assert t.approved == if w.pc.Asking? && a.dialog.Yes? then s.approved + {w.job} else s.approved;
    forall i | 0 <= i < |t.workers| && NotToldYes(t.workers[i]) ensures t.workers[i].job !in t.approved {
      assert i != a.worker ==> t.workers[i] == s.workers[i] && s.workers[i].job != w.job;
    }
  }

  lemma {:induction false} RunUnapproved(c: C.Catalog, s0: State, acts: seq<Action>)
    requires Boot(s0)
    ensures RefusedUnapproved(Run(c, s0, acts))
  {
    if acts != [] {
      var init := acts[..|acts| - 1];
      RunUnapproved(c, s0, init);
      RunRowsFit(c, s0, init);
      var m := Run(c, s0, init);
      match acts[|acts| - 1]
      case Arrive(_) =>
      case CallStep(n, blocked, exec) => if n < |m.calls| { CallUnapproved(c, m, n, blocked, exec); }
      case WorkerStep(n, _, _, _) => if n < |m.workers| { WorkerUnapproved(c, m, acts[|acts| - 1]); }
    }
  }

  /** And a row that says denied is true: no process was started for the job. */
  lemma DeniedNeverRan(c: C.Catalog, s0: State, acts: seq<Action>, id: nat, i: nat)
    requires Boot(s0) && id < |Run(c, s0, acts).jobs| && Run(c, s0, acts).jobs[id].status == Denied
    requires i < |Run(c, s0, acts).starts|
    ensures Run(c, s0, acts).starts[i].job != Some(id)
  {
    RunUnapproved(c, s0, acts);
    RunCleared(c, s0, acts);
    assert StartCleared(c, Run(c, s0, acts), Run(c, s0, acts).starts[i]);
  }
}
