/** How often a keyed verb's process is started, over every run of dispatch calls and confirm
    workers: at most once if no two calls with the key overlap past their lookup and no direct
    execution is lost to an exception, and exactly when twice otherwise (dispatch/engine.py). */
module DispatchOnce {
  import opened Common
  import C = Catalog
  import opened Dispatch

  // ---- runs ------------------------------------------------------------------------------------

  lemma {:induction false} RunOn(c: C.Catalog, s: State, a: seq<Action>, b: seq<Action>)
    ensures Run(c, s, a + b) == Run(c, Run(c, s, a), b)
  {
    if b == [] {
      assert a + b == a;
    } else {
      RunOn(c, s, a, b[..|b| - 1]);
      assert (a + b)[..|a + b| - 1] == a + b[..|b| - 1];
    }
  }

  lemma Extend(c: C.Catalog, s: State, acts: seq<Action>, a: Action)
    ensures Run(c, s, acts + [a]) == Step(c, Run(c, s, acts), a)
  {
    assert (acts + [a])[..|acts|] == acts;
  }

  lemma RunOne(c: C.Catalog, s: State, a: Action)
    ensures Run(c, s, [a]) == Step(c, s, a)
  {
    assert [a][..0] == [];
  }

  lemma TwoMore(c: C.Catalog, s: State, acts: seq<Action>, a: Action, b: Action) returns (next: seq<Action>)
    ensures |next| == 2 && next[0] == a && next[1] == b
    ensures Run(c, s, acts + next) == Step(c, Step(c, Run(c, s, acts), a), b)
  {
    next := [a, b];
    Extend(c, s, acts, a);
    Extend(c, s, acts + [a], b);
    assert acts + [a] + [b] == acts + next;
  }

  // ---- chances to start ------------------------------------------------------------------------

  predicate Has(verb: string, key: Option<string>, k: Key) { key == Some(k.1) && verb == k.0 }

  /** The call has missed its key and may still act on it. */
  predicate Beyond(x: Call) { x.pc.Precheck? || x.pc.Submit? || x.pc.Launch? || x.pc.Execute? }

  /** The call has acted on its key and is about to record it. */
  predicate Holding(x: Call) { x.pc.ReadBack? || x.pc.Record? }

  /** The worker may still start its process. */
  predicate CanStart(w: Worker) { w.pc.Asking? || w.pc == Deciding(true) || w.pc.Executing? }

  function ActingOn(k: Key): Call -> bool { (x: Call) => Has(x.verb, x.key, k) && Beyond(x) }

  function WorkingOn(k: Key): Call -> bool { (x: Call) => Has(x.verb, x.key, k) && (Beyond(x) || Holding(x)) }

  function MayStart(k: Key): Worker -> bool { (w: Worker) => Has(w.verb, w.key, k) && CanStart(w) }

  function StartOf(k: Key): Start -> bool { (x: Start) => Has(x.verb, x.key, k) }

  ghost function Starts(s: State, k: Key): nat { CountIf(s.starts, StartOf(k)) }

  /** Calls between their lookup and their record. */
  ghost function Working(s: State, k: Key): nat { CountIf(s.calls, WorkingOn(k)) }

  /** Starts, and calls and workers that may still bring one about. */
  ghost function Chances(s: State, k: Key): nat {
    CountIf(s.calls, ActingOn(k)) + CountIf(s.workers, MayStart(k)) + Starts(s, k)
  }

  /** In this step a call looks its key up and does not find it. */
  predicate Misses(s: State, a: Action, k: Key) {
    a.CallStep? && a.call < |s.calls| && s.calls[a.call].pc.Lookup? &&
    Has(s.calls[a.call].verb, s.calls[a.call].key, k) && k !in s.idem
  }

  /** In this step a call writes its answer down. */
  predicate Records(s: State, a: Action, k: Key) {
    a.CallStep? && a.call < |s.calls| && s.calls[a.call].pc.Record? && Has(s.calls[a.call].verb, s.calls[a.call].key, k)
  }

  /** In this step a direct execution ends in an exception. */
  predicate RaisesDirectly(s: State, a: Action, k: Key) {
    a.CallStep? && a.call < |s.calls| && s.calls[a.call].pc.Execute? && a.exec.Raised? &&
    Has(s.calls[a.call].verb, s.calls[a.call].key, k)
  }

  lemma ArriveChances(c: C.Catalog, s: State, r: Request, k: Key)
    ensures var t := Step(c, s, Arrive(r));
            Chances(t, k) == Chances(s, k) && Working(t, k) == Working(s, k) && t.idem == s.idem && t.starts == s.starts
  {
    var t := Step(c, s, Arrive(r));
    CountIfAppend(s.calls, t.calls[|s.calls|], ActingOn(k));
    CountIfAppend(s.calls, t.calls[|s.calls|], WorkingOn(k));
  }

  /** What the moving call itself contributes, before and after. */
  lemma CallMoves(c: C.Catalog, s: State, n: nat, blocked: bool, exec: Execution, k: Key)
    requires n < |s.calls|
    ensures var a := CallStep(n, blocked, exec);
            var x := s.calls[n];
            var y := Step(c, s, a).calls[n];
            && y == x.(pc := NextCallPc(c, s, x, blocked, exec))
            && (WorkingOn(k)(y) && !WorkingOn(k)(x) ==> Misses(s, a, k))
            && (ActingOn(k)(y) && !ActingOn(k)(x) ==> Misses(s, a, k))
            && (Misses(s, a, k) ==> ActingOn(k)(y) && WorkingOn(k)(y) && !WorkingOn(k)(x))
            && ((x.pc.Launch? || x.pc.Execute?) && Has(x.verb, x.key, k) ==> ActingOn(k)(x) && !ActingOn(k)(y))
            && (WorkingOn(k)(x) && !WorkingOn(k)(y) ==>
                  Records(s, a, k) || RaisesDirectly(s, a, k) || (x.pc.Precheck? && ActingOn(k)(x) && !ActingOn(k)(y)))
  {}

  lemma CallChances(c: C.Catalog, s: State, n: nat, blocked: bool, exec: Execution, k: Key)
    requires n < |s.calls|
    ensures var a := CallStep(n, blocked, exec);
            var t := Step(c, s, a);
            && (if Misses(s, a, k) then Chances(t, k) == Chances(s, k) + 1 && Working(t, k) == Working(s, k) + 1
                else Chances(t, k) <= Chances(s, k) && Working(t, k) <= Working(s, k))
            && (Working(t, k) < Working(s, k) ==>
                  Records(s, a, k) || RaisesDirectly(s, a, k) || Chances(t, k) < Chances(s, k))
  {
    var a := CallStep(n, blocked, exec);
    var x := s.calls[n];
    var t := Step(c, s, a);
    CallMoves(c, s, n, blocked, exec, k);
    CountIfUpdate(s.calls, n, t.calls[n], ActingOn(k));
    CountIfUpdate(s.calls, n, t.calls[n], WorkingOn(k));
    if x.pc.Launch? {
      CountIfAppend(s.workers, NewWorker(c, x, x.pc.id), MayStart(k));
    }
    if x.pc.Execute? {
      CountIfAppend(s.starts, Start(x.verb, x.key, None), StartOf(k));
    }
  }

  /** What a worker's step changes that is counted here. */
  lemma WorkerMoves(c: C.Catalog, s: State, a: Action)
    requires a.WorkerStep? && a.worker < |s.workers| && s.workers[a.worker].job < |s.jobs|
    ensures var t, w := Step(c, s, a), s.workers[a.worker];
            && t.calls == s.calls && t.idem == s.idem && |t.workers| == |s.workers|
            && t.workers == s.workers[a.worker := t.workers[a.worker]]
            && t.workers[a.worker] == w.(pc := t.workers[a.worker].pc)
            && t.starts == (if w.pc.Executing? then s.starts + [Start(w.verb, w.key, Some(w.job))] else s.starts)
            && (CanStart(t.workers[a.worker]) ==> CanStart(w) && !w.pc.Executing?)
  {}

  lemma WorkerChances(c: C.Catalog, s: State, a: Action, k: Key)
    requires a.WorkerStep? && a.worker < |s.workers| && s.workers[a.worker].job < |s.jobs|
    ensures var t := Step(c, s, a);
            Chances(t, k) <= Chances(s, k) && Working(t, k) == Working(s, k) && t.idem == s.idem
  {
    var t := Step(c, s, a);
    var w := s.workers[a.worker];
    WorkerMoves(c, s, a);
    CountIfUpdate(s.workers, a.worker, t.workers[a.worker], MayStart(k));
    if w.pc.Executing? {
      CountIfAppend(s.starts, Start(w.verb, w.key, Some(w.job)), StartOf(k));
    }
  }

  /** Only a miss makes a new chance, and only a miss, a record, an exception or a breaker's refusal
      changes who works on the key. */
  lemma StepChances(c: C.Catalog, s: State, a: Action, k: Key)
    ensures var t := Step(c, s, a);
            && (if Misses(s, a, k) then Chances(t, k) == Chances(s, k) + 1 && Working(t, k) == Working(s, k) + 1
                else Chances(t, k) <= Chances(s, k) && Working(t, k) <= Working(s, k))
            && (Working(t, k) < Working(s, k) ==>
                  Records(s, a, k) || RaisesDirectly(s, a, k) || Chances(t, k) < Chances(s, k))
            && (k in t.idem <==> k in s.idem || Records(s, a, k))
            && (k in s.idem && !Records(s, a, k) ==> t.idem[k] == s.idem[k])
  {
    match a
    case Arrive(r) => ArriveChances(c, s, r, k);
    case CallStep(n, blocked, exec) => if n < |s.calls| { CallChances(c, s, n, blocked, exec, k); }
    case WorkerStep(n, _, _, _) =>
      if n < |s.workers| && s.workers[n].job < |s.jobs| {
        WorkerChances(c, s, a, k);
      }
  }

  // ---- at most once ------------------------------------------------------------------------------

  /** Whenever a call misses the key, no other call is between its lookup and its record of it. */
  ghost predicate LookupsExclusive(c: C.Catalog, s: State, acts: seq<Action>, k: Key) {
    acts == [] ||
    (LookupsExclusive(c, s, acts[..|acts| - 1], k) &&
     var m := Run(c, s, acts[..|acts| - 1]);
     (Misses(m, acts[|acts| - 1], k) ==> Working(m, k) == 0))
  }

  /** No direct execution on the key ends in an exception. */
  ghost predicate NothingRaised(c: C.Catalog, s: State, acts: seq<Action>, k: Key) {
    acts == [] ||
    (NothingRaised(c, s, acts[..|acts| - 1], k) && !RaisesDirectly(Run(c, s, acts[..|acts| - 1]), acts[|acts| - 1], k))
  }

  lemma BootChances(s: State, k: Key)
    requires Boot(s)
    ensures Chances(s, k) == 0 && Working(s, k) == 0
  {}

  /** One call at a time works on the key, and none once it is recorded. */
  lemma {:induction false} RunSole(c: C.Catalog, s: State, acts: seq<Action>, k: Key)
    requires Boot(s) && LookupsExclusive(c, s, acts, k)
    ensures Working(Run(c, s, acts), k) <= 1
    ensures Working(Run(c, s, acts), k) == 1 ==> k !in Run(c, s, acts).idem
  {
    if acts == [] {
      BootChances(s, k);
    } else {
      var m := Run(c, s, acts[..|acts| - 1]);
      var a := acts[|acts| - 1];
      RunSole(c, s, acts[..|acts| - 1], k);
      StepChances(c, m, a, k);
      if Records(m, a, k) {
        RecorderLeaves(c, m, a, k);
      }
    }
  }

  lemma RecorderLeaves(c: C.Catalog, s: State, a: Action, k: Key)
    requires Records(s, a, k)
    ensures Working(Step(c, s, a), k) + 1 == Working(s, k)
  {
    CountIfUpdate(s.calls, a.call, Step(c, s, a).calls[a.call], WorkingOn(k));
  }

  lemma {:induction false} RunOnce(c: C.Catalog, s: State, acts: seq<Action>, k: Key)
    requires Boot(s) && LookupsExclusive(c, s, acts, k) && NothingRaised(c, s, acts, k)
    ensures Chances(Run(c, s, acts), k) <= 1
    ensures Chances(Run(c, s, acts), k) == 1 ==> k in Run(c, s, acts).idem || Working(Run(c, s, acts), k) == 1
  {
    RunSole(c, s, acts, k);
    if acts == [] {
      BootChances(s, k);
    } else {
      var m := Run(c, s, acts[..|acts| - 1]);
      var a := acts[|acts| - 1];
      RunOnce(c, s, acts[..|acts| - 1], k);
      RunSole(c, s, acts[..|acts| - 1], k);
      StepChances(c, m, a, k);
    }
  }

  /** Over every run in which no two calls with the key are past their lookup together and no direct
      execution on it is lost to an exception, confirm workers stepping at any point: its process
      is started at most once. */
  lemma AtMostOnce(c: C.Catalog, s: State, acts: seq<Action>, k: Key)
    requires Boot(s) && LookupsExclusive(c, s, acts, k) && NothingRaised(c, s, acts, k)
    ensures Starts(Run(c, s, acts), k) <= 1
  {
    RunOnce(c, s, acts, k);
  }

  function Unanswered(k: Key): Call -> bool { (x: Call) => Has(x.verb, x.key, k) && !x.pc.Replied? }

  /** A call with the key that gets as far as its lookup arrives only when every earlier one has
      been answered. */
  ghost predicate CallsInTurn(c: C.Catalog, s: State, acts: seq<Action>, k: Key) {
    acts == [] ||
    (CallsInTurn(c, s, acts[..|acts| - 1], k) &&
     var a := acts[|acts| - 1];
     (a.Arrive? && Has(a.r.verb, EffectiveKey(a.r), k) && Early(c, a.r).None? ==>
        CountIf(Run(c, s, acts[..|acts| - 1]).calls, Unanswered(k)) == 0))
  }

  lemma UnansweredSteps(c: C.Catalog, s: State, a: Action, k: Key)
    ensures var t := Step(c, s, a);
            CountIf(t.calls, Unanswered(k)) <= CountIf(s.calls, Unanswered(k)) +
              if a.Arrive? && Has(a.r.verb, EffectiveKey(a.r), k) && Early(c, a.r).None? then 1 else 0
  {
    var t := Step(c, s, a);
    match a
    case Arrive(r) => CountIfAppend(s.calls, t.calls[|s.calls|], Unanswered(k));
    case CallStep(n, _, _) => if n < |s.calls| { CountIfUpdate(s.calls, n, t.calls[n], Unanswered(k)); }
    case WorkerStep(_, _, _, _) =>
  }

  lemma {:induction false} RunInTurn(c: C.Catalog, s: State, acts: seq<Action>, k: Key)
    requires Boot(s) && CallsInTurn(c, s, acts, k)
    ensures CountIf(Run(c, s, acts).calls, Unanswered(k)) <= 1
    ensures LookupsExclusive(c, s, acts, k)
  {
    if acts != [] {
      var m := Run(c, s, acts[..|acts| - 1]);
      var a := acts[|acts| - 1];
      RunInTurn(c, s, acts[..|acts| - 1], k);
      UnansweredSteps(c, m, a, k);
      if Misses(m, a, k) {
        OnlyTheMisser(m, a.call, k);
      }
    }
  }

  lemma OnlyTheMisser(s: State, n: nat, k: Key)
    requires n < |s.calls| && s.calls[n].pc.Lookup? && Has(s.calls[n].verb, s.calls[n].key, k)
    requires CountIf(s.calls, Unanswered(k)) <= 1
    ensures Working(s, k) == 0
  {
    var x := s.calls[n];
    var others := s.calls[n := x.(pc := Replied(Answer(200, Payload(C.OkOnly))))];
    CountIfUpdate(s.calls, n, others[n], Unanswered(k));
    CountIfUpdate(s.calls, n, others[n], WorkingOn(k));
    CountIfMono(others, WorkingOn(k), Unanswered(k));
  }

  /** In particular: calls that come one at a time start the process at most once. */
  lemma AtMostOnceInTurn(c: C.Catalog, s: State, acts: seq<Action>, k: Key)
    requires Boot(s) && CallsInTurn(c, s, acts, k) && NothingRaised(c, s, acts, k)
    ensures Starts(Run(c, s, acts), k) <= 1
  {
    RunInTurn(c, s, acts, k);
    AtMostOnce(c, s, acts, k);
  }

  /** A key on record when the daemon comes up is never acted on again, overlap or not. */
  lemma {:induction false} RecordedNeverStarts(c: C.Catalog, s: State, acts: seq<Action>, k: Key)
    requires Boot(s) && k in s.idem
    ensures Starts(Run(c, s, acts), k) == 0 && Chances(Run(c, s, acts), k) == 0 && k in Run(c, s, acts).idem
  {
    if acts == [] {
      BootChances(s, k);
    } else {
      RecordedNeverStarts(c, s, acts[..|acts| - 1], k);
      StepChances(c, Run(c, s, acts[..|acts| - 1]), acts[|acts| - 1], k);
    }
  }

  // ---- exactly when more than once ---------------------------------------------------------------

  /** No call misses the key in this run. */
  ghost predicate NoMiss(c: C.Catalog, s: State, acts: seq<Action>, k: Key) {
    acts == [] ||
    (NoMiss(c, s, acts[..|acts| - 1], k) && !Misses(Run(c, s, acts[..|acts| - 1]), acts[|acts| - 1], k))
  }

  lemma {:induction false} ChancesOnlyFall(c: C.Catalog, s: State, acts: seq<Action>, k: Key)
    requires NoMiss(c, s, acts, k)
    ensures Starts(Run(c, s, acts), k) <= Chances(Run(c, s, acts), k) <= Chances(s, k)
  {
    if acts != [] {
      ChancesOnlyFall(c, s, acts[..|acts| - 1], k);
      StepChances(c, Run(c, s, acts[..|acts| - 1]), acts[|acts| - 1], k);
    }
  }

  /** Calls and workers speak of jobs that exist. */
  ghost predicate JobsThere(s: State) {
    && (forall i :: 0 <= i < |s.workers| ==> s.workers[i].job < |s.jobs|)
    && (forall i :: 0 <= i < |s.calls| && s.calls[i].pc.Launch? ==> s.calls[i].pc.id < |s.jobs|)
  }

  lemma StepJobsThere(c: C.Catalog, s: State, a: Action)
    requires JobsThere(s)
    ensures JobsThere(Step(c, s, a))
  {}

  lemma {:induction false} RunJobsThere(c: C.Catalog, s: State, acts: seq<Action>)
    requires JobsThere(s)
    ensures JobsThere(Run(c, s, acts))
  {
    if acts != [] {
      RunJobsThere(c, s, acts[..|acts| - 1]);
      StepJobsThere(c, Run(c, s, acts[..|acts| - 1]), acts[|acts| - 1]);
    }
  }

  const FINE: Execution := Done(Answer(200, Payload(C.OkOnly)))

  /** The breaker lets the call pass, the human says yes, the process succeeds. */
  function Kindly(n: nat): Action { CallStep(n, false, FINE) }
  function Approving(n: nat): Action { WorkerStep(n, Yes, FINE, false) }

  function WorkerRank(w: Worker): nat {
    if w.pc.Asking? then 2 else if w.pc.Deciding? then 1 else 0
  }

  function CallRank(x: Call): nat {
    match x.pc
    case Precheck => 3
    case Submit => 2
    case Launch(_) => 1
    case _ => 0
  }

  /** A kind step on a chance keeps all chances, makes no miss, and brings the chance forward. */
  lemma KindWorkerStep(c: C.Catalog, s: State, n: nat, k: Key)
    requires JobsThere(s) && n < |s.workers| && MayStart(k)(s.workers[n])
    ensures var t := Step(c, s, Approving(n));
            && JobsThere(t) && t.calls == s.calls && |t.workers| == |s.workers| && Chances(t, k) == Chances(s, k)
            && (if s.workers[n].pc.Executing? then Starts(t, k) == Starts(s, k) + 1
                else Starts(t, k) == Starts(s, k) && MayStart(k)(t.workers[n]) &&
                     WorkerRank(t.workers[n]) < WorkerRank(s.workers[n]))
  {
    var t := Step(c, s, Approving(n));
    var w := s.workers[n];
    CountIfUpdate(s.workers, n, t.workers[n], MayStart(k));
    if w.pc.Executing? {
      CountIfAppend(s.starts, Start(w.verb, w.key, Some(w.job)), StartOf(k));
    }
  }

  lemma {:induction false} NoMissOn(c: C.Catalog, s: State, a: seq<Action>, b: seq<Action>, k: Key)
    requires NoMiss(c, s, a, k) && NoMiss(c, Run(c, s, a), b, k)
    ensures NoMiss(c, s, a + b, k)
  {
    if b == [] {
      assert a + b == a;
    } else {
      NoMissOn(c, s, a, b[..|b| - 1], k);
      RunOn(c, s, a, b[..|b| - 1]);
      assert (a + b)[..|a + b| - 1] == a + b[..|b| - 1];
    }
  }

  predicate NoArrivals(acts: seq<Action>) { forall i :: 0 <= i < |acts| ==> !acts[i].Arrive? }

  /** A continuation in which nobody arrives and nobody misses the key. */
  ghost predicate Onward(c: C.Catalog, s: State, acts: seq<Action>, k: Key) {
    NoMiss(c, s, acts, k) && NoArrivals(acts)
  }

  lemma OnwardFrom(c: C.Catalog, s: State, a: Action, rest: seq<Action>, k: Key)
    requires !Misses(s, a, k) && !a.Arrive? && Onward(c, Step(c, s, a), rest, k)
    ensures Run(c, s, [a] + rest) == Run(c, Step(c, s, a), rest) && Onward(c, s, [a] + rest, k)
  {
    RunOne(c, s, a);
    assert [a][..0] == [];
    RunOn(c, s, [a], rest);
    NoMissOn(c, s, [a], rest, k);
  }

  lemma OnwardOn(c: C.Catalog, s: State, a: seq<Action>, b: seq<Action>, k: Key)
    requires Onward(c, s, a, k) && Onward(c, Run(c, s, a), b, k)
    ensures Run(c, s, a + b) == Run(c, Run(c, s, a), b) && Onward(c, s, a + b, k)
  {
    RunOn(c, s, a, b);
    NoMissOn(c, s, a, b, k);
  }

  lemma {:induction false} WorkerTakesChance(c: C.Catalog, s: State, n: nat, k: Key) returns (acts: seq<Action>)
    requires JobsThere(s) && n < |s.workers| && MayStart(k)(s.workers[n])
    ensures Onward(c, s, acts, k) && JobsThere(Run(c, s, acts))
    ensures Chances(Run(c, s, acts), k) == Chances(s, k) && Starts(Run(c, s, acts), k) == Starts(s, k) + 1
    decreases WorkerRank(s.workers[n])
  {
    var a := Approving(n);
    KindWorkerStep(c, s, n, k);
    var rest := [];
    if !s.workers[n].pc.Executing? {
      rest := WorkerTakesChance(c, Step(c, s, a), n, k);
    }
    OnwardFrom(c, s, a, rest, k);
    acts := [a] + rest;
  }

  lemma KindCallStep(c: C.Catalog, s: State, n: nat, k: Key)
    requires JobsThere(s) && n < |s.calls| && ActingOn(k)(s.calls[n])
    ensures var t := Step(c, s, Kindly(n));
            && JobsThere(t) && Chances(t, k) == Chances(s, k)
            && (match s.calls[n].pc
                case Execute => Starts(t, k) == Starts(s, k) + 1
                case Launch(_) => Starts(t, k) == Starts(s, k) && |t.workers| == |s.workers| + 1 &&
                                  MayStart(k)(t.workers[|s.workers|])
                case _ => Starts(t, k) == Starts(s, k) && ActingOn(k)(t.calls[n]) &&
                          (CallRank(t.calls[n]) < CallRank(s.calls[n])))
  {
    var t := Step(c, s, Kindly(n));
    var x := s.calls[n];
    CountIfUpdate(s.calls, n, t.calls[n], ActingOn(k));
    if x.pc.Execute? {
      CountIfAppend(s.starts, Start(x.verb, x.key, None), StartOf(k));
    }
    if x.pc.Launch? {
      CountIfAppend(s.workers, NewWorker(c, x, x.pc.id), MayStart(k));
    }
  }

  lemma {:induction false} CallTakesChance(c: C.Catalog, s: State, n: nat, k: Key) returns (acts: seq<Action>)
    requires JobsThere(s) && n < |s.calls| && ActingOn(k)(s.calls[n])
    ensures Onward(c, s, acts, k) && JobsThere(Run(c, s, acts))
    ensures Chances(Run(c, s, acts), k) == Chances(s, k) && Starts(Run(c, s, acts), k) == Starts(s, k) + 1
    decreases CallRank(s.calls[n])
  {
    var a := Kindly(n);
    var pc := s.calls[n].pc;
    KindCallStep(c, s, n, k);
    var rest := [];
    if pc.Launch? {
      rest := WorkerTakesChance(c, Step(c, s, a), |s.workers|, k);
    } else if !pc.Execute? {
      rest := CallTakesChance(c, Step(c, s, a), n, k);
    }
    OnwardFrom(c, s, a, rest, k);
    acts := [a] + rest;
  }

  lemma {:induction false} AllChancesTaken(c: C.Catalog, s: State, k: Key) returns (acts: seq<Action>)
    requires JobsThere(s)
    ensures Onward(c, s, acts, k) && Starts(Run(c, s, acts), k) == Chances(s, k)
    decreases Chances(s, k) - Starts(s, k)
  {
    CountIfWitness(s.calls, ActingOn(k));
    CountIfWitness(s.workers, MayStart(k));
    acts := [];
    if Chances(s, k) > Starts(s, k) {
      if n :| 0 <= n < |s.calls| && ActingOn(k)(s.calls[n]) {
        acts := CallTakesChance(c, s, n, k);
      } else {
        var n :| 0 <= n < |s.workers| && MayStart(k)(s.workers[n]);
        acts := WorkerTakesChance(c, s, n, k);
      }
      var rest := AllChancesTaken(c, Run(c, s, acts), k);
      OnwardOn(c, s, acts, rest, k);
      acts := acts + rest;
    }
  }

  /** Exact, in every state: those already past their lookup can bring the number of starts to n,
      and no further call missing the key, to n and no more, exactly if starts, calls that may act
      and workers that may start make n together. */
  lemma StartsReachTheChances(c: C.Catalog, s: State, k: Key, n: nat)
    requires JobsThere(s)
    ensures (exists acts :: NoMiss(c, s, acts, k) && Starts(Run(c, s, acts), k) >= n) <==> Chances(s, k) >= n
  {
    var all := AllChancesTaken(c, s, k);
    if acts :| NoMiss(c, s, acts, k) && Starts(Run(c, s, acts), k) >= n {
      ChancesOnlyFall(c, s, acts, k);
    }
  }

  // ---- overlapping calls ---------------------------------------------------------------------------

  predicate Keyed(c: C.Catalog, r: Request) { Early(c, r).None? && EffectiveKey(r).Some? }

  function KeyFor(r: Request): Key
    requires EffectiveKey(r).Some?
  {
    (r.verb, EffectiveKey(r).value)
  }

  lemma ArrivesAtLookup(c: C.Catalog, s: State, r: Request)
    requires Keyed(c, r)
    ensures Step(c, s, Arrive(r)) == s.(calls := s.calls +
            [Call(r.verb, EffectiveKey(r), r.args, r.kind, r.webhook.GoodWebhook?, Lookup)])
  {}

  /** A call that comes and misses its key is one more chance. */
  lemma ArrivesAndMisses(c: C.Catalog, s: State, r: Request)
    requires Keyed(c, r) && KeyFor(r) !in s.idem
    ensures var t := Step(c, Step(c, s, Arrive(r)), Kindly(|s.calls|));
            t.idem == s.idem && Chances(t, KeyFor(r)) == Chances(s, KeyFor(r)) + 1
  {
    var m := Step(c, s, Arrive(r));
    ArrivesAtLookup(c, s, r);
    ArriveChances(c, s, r, KeyFor(r));
    assert Misses(m, Kindly(|s.calls|), KeyFor(r));
    StepChances(c, m, Kindly(|s.calls|), KeyFor(r));
    MissKeepsTable(c, m, |s.calls|, KeyFor(r));
  }

  lemma MissKeepsTable(c: C.Catalog, s: State, n: nat, k: Key)
    requires Misses(s, Kindly(n), k)
    ensures Step(c, s, Kindly(n)).idem == s.idem
  {}

  /** One more call comes, after acts, and misses. */
  lemma OneMoreChance(c: C.Catalog, s: State, acts: seq<Action>, r: Request) returns (next: seq<Action>)
    requires Keyed(c, r) && KeyFor(r) !in Run(c, s, acts).idem
    ensures |next| == 2 && next[0] == Arrive(r) && !next[1].Arrive?
    ensures Run(c, s, acts + next).idem == Run(c, s, acts).idem
    ensures Chances(Run(c, s, acts + next), KeyFor(r)) == Chances(Run(c, s, acts), KeyFor(r)) + 1
  {
    var m := Run(c, s, acts);
    next := TwoMore(c, s, acts, Arrive(r), Kindly(|m.calls|));
    ArrivesAndMisses(c, m, r);
  }

  /** Then all chances are taken. */
  lemma AllTakenAfter(c: C.Catalog, s: State, acts: seq<Action>, k: Key) returns (rest: seq<Action>)
    requires JobsThere(s)
    ensures NoArrivals(rest) && Starts(Run(c, s, acts + rest), k) == Chances(Run(c, s, acts), k)
  {
    RunJobsThere(c, s, acts);
    rest := AllChancesTaken(c, Run(c, s, acts), k);
    RunOn(c, s, acts, rest);
  }

  /** The proviso is needed: from boot, for any verb, gated or not, two calls with one new key that
      both look it up before either records it can both start the process. */
  lemma OverlappingCallsStartTwice(c: C.Catalog, s: State, r: Request)
    requires Boot(s) && Keyed(c, r) && KeyFor(r) !in s.idem
    ensures exists acts :: Starts(Run(c, s, acts), KeyFor(r)) == 2
  {
    BootChances(s, KeyFor(r));
    var none: seq<Action> := [];
    var first := OneMoreChance(c, s, none, r);
    var second := OneMoreChance(c, s, none + first, r);
    var rest := AllTakenAfter(c, s, none + first + second, KeyFor(r));
    assert Starts(Run(c, s, none + first + second + rest), KeyFor(r)) == 2;
  }

  lemma {:induction false} InTurnOn(c: C.Catalog, s: State, a: seq<Action>, b: seq<Action>, k: Key)
    requires CallsInTurn(c, s, a, k) && NoArrivals(b)
    ensures CallsInTurn(c, s, a + b, k)
  {
    if b == [] {
      assert a + b == a;
    } else {
      InTurnOn(c, s, a, b[..|b| - 1], k);
      assert (a + b)[..|a + b| - 1] == a + b[..|b| - 1];
    }
  }

  lemma NextInTurn(c: C.Catalog, s: State, a: seq<Action>, r: Request, k: Key)
    requires CallsInTurn(c, s, a, k) && CountIf(Run(c, s, a).calls, Unanswered(k)) == 0
    ensures CallsInTurn(c, s, a + [Arrive(r)], k)
  {
    assert (a + [Arrive(r)])[..|a|] == a;
  }

  lemma RunThree(c: C.Catalog, s: State, a: Action, b: Action, d: Action)
    ensures Run(c, s, [a, b, d]) == Step(c, Step(c, Step(c, s, a), b), d)
  {
    assert [a, b, d][..2] == [a, b] && [a, b][..1] == [a];
    RunOne(c, s, a);
    assert Run(c, s, [a, b]) == Step(c, Run(c, s, [a]), b);
  }

  lemma CheckedCallIsLost(c: C.Catalog, m: State, x: Call, text: string)
    requires m.calls == [x] && x.pc.Precheck? && !Gated(c, x.verb)
    ensures var t := Step(c, Step(c, m, Kindly(0)), CallStep(0, false, Raised(text)));
            t.calls == [x.(pc := Replied(Answer(500, Fault(UNCAUGHT, text))))] && t.workers == m.workers &&
            t.starts == m.starts + [Start(x.verb, x.key, None)] && t.idem == m.idem
  {
    var n := Step(c, m, Kindly(0));
    assert n.calls == [x.(pc := Execute)] && n.workers == m.workers && n.starts == m.starts && n.idem == m.idem;
  }

  lemma MissesAlone(c: C.Catalog, m: State, x: Call)
    requires m.calls == [x] && x.pc.Lookup? && x.key.Some? && (x.verb, x.key.value) !in m.idem
    ensures var t := Step(c, m, Kindly(0));
            t.calls == [x.(pc := Precheck)] && t.workers == m.workers && t.starts == m.starts && t.idem == m.idem
  {}

  /** One call to an ungated verb whose execution ends in an exception. */
  lemma CallIsLost(c: C.Catalog, m: State, x: Call, text: string) returns (acts: seq<Action>)
    requires m.calls == [x] && x.pc.Lookup? && x.key.Some? && (x.verb, x.key.value) !in m.idem && !Gated(c, x.verb)
    ensures NoArrivals(acts)
    ensures var t := Run(c, m, acts);
            && |t.calls| == 1 && t.calls[0].pc.Replied? && t.workers == m.workers
            && t.starts == m.starts + [Start(x.verb, x.key, None)] && t.idem == m.idem
  {
    MissesAlone(c, m, x);
    CheckedCallIsLost(c, Step(c, m, Kindly(0)), x.(pc := Precheck), text);
    RunThree(c, m, Kindly(0), Kindly(0), CallStep(0, false, Raised(text)));
    acts := [Kindly(0), Kindly(0), CallStep(0, false, Raised(text))];
  }

  /** So is the other: an execution lost to an exception leaves no record, and a retry, though it
      waits for the reply, starts the process again. */
  lemma RaisedCallStartsAgain(c: C.Catalog, s: State, r: Request, text: string)
    requires Boot(s) && Keyed(c, r) && KeyFor(r) !in s.idem && !Gated(c, r.verb)
    ensures exists acts :: CallsInTurn(c, s, acts, KeyFor(r)) && Starts(Run(c, s, acts), KeyFor(r)) == 2
  {
    var k := KeyFor(r);
    var lost := LostInTurn(c, s, r, text);
    var retry := OneMoreChance(c, s, lost, r);
    var rest := AllTakenAfter(c, s, lost + retry, k);
    RetryInTurn(c, s, lost, retry, rest, r);
    assert Starts(Run(c, s, lost + retry + rest), k) == 2;
  }

  lemma RetryInTurn(c: C.Catalog, s: State, lost: seq<Action>, retry: seq<Action>, rest: seq<Action>, r: Request)
    requires EffectiveKey(r).Some? && CallsInTurn(c, s, lost, KeyFor(r))
    requires CountIf(Run(c, s, lost).calls, Unanswered(KeyFor(r))) == 0
    requires |retry| == 2 && retry[0] == Arrive(r) && !retry[1].Arrive? && NoArrivals(rest)
    ensures CallsInTurn(c, s, lost + retry + rest, KeyFor(r))
  {
    NextInTurn(c, s, lost, r, KeyFor(r));
    InTurnOn(c, s, lost + [Arrive(r)], [retry[1]] + rest, KeyFor(r));
    Regroup(lost, retry, rest);
  }

  lemma Regroup<T>(a: seq<T>, b: seq<T>, d: seq<T>)
    requires |b| == 2
    ensures a + b + d == a + [b[0]] + ([b[1]] + d)
  {}

  lemma LostInTurn(c: C.Catalog, s: State, r: Request, text: string) returns (acts: seq<Action>)
    requires Boot(s) && Keyed(c, r) && KeyFor(r) !in s.idem && !Gated(c, r.verb)
    ensures CallsInTurn(c, s, acts, KeyFor(r)) && KeyFor(r) !in Run(c, s, acts).idem
    ensures Chances(Run(c, s, acts), KeyFor(r)) == 1 && CountIf(Run(c, s, acts).calls, Unanswered(KeyFor(r))) == 0
  {
    var k := KeyFor(r);
    var x := Call(r.verb, EffectiveKey(r), r.args, r.kind, r.webhook.GoodWebhook?, Lookup);
    ArrivesAtLookup(c, s, r);
    var come := [Arrive(r)];
    RunOne(c, s, Arrive(r));
    var rest := CallIsLost(c, Run(c, s, come), x, text);
    RunOn(c, s, come, rest);
    LostCallCounts(Run(c, s, come + rest), k);
    NextInTurn(c, s, [], r, k);
    assert [] + come == come;
    InTurnOn(c, s, come, rest, k);
    acts := come + rest;
  }

  lemma LostCallCounts(m: State, k: Key)
    requires |m.calls| == 1 && m.calls[0].pc.Replied? && m.workers == []
    requires |m.starts| == 1 && StartOf(k)(m.starts[0])
    ensures Chances(m, k) == 1 && CountIf(m.calls, Unanswered(k)) == 0
  {
    CountIfAppend([], m.calls[0], ActingOn(k));
    CountIfAppend([], m.calls[0], Unanswered(k));
    CountIfAppend([], m.starts[0], StartOf(k));
    assert [] + [m.calls[0]] == m.calls && [] + [m.starts[0]] == m.starts;
  }
}
