/** What two overlapping calls with one key do to the replays of later ones: the second record
    replaces the first (dispatch/engine.py). */
module DispatchOverlap {
  import opened Common
  import C = Catalog
  import opened Dispatch
  import opened DispatchOnce
  import opened DispatchReplay
  import W = DispatchAnswers

  /** The call of request r at some point. */
  function CallOf(r: Request, pc: CallPc): Call {
    Call(r.verb, EffectiveKey(r), r.args, r.kind, r.webhook.GoodWebhook?, pc)
  }

  /** All but call n, and but the tables that a call writes, is as before. */
  predicate OthersStay(s: State, t: State, n: nat) {
    |t.calls| == |s.calls| && forall i :: 0 <= i < |s.calls| && i != n ==> t.calls[i] == s.calls[i]
  }

  // ---- hits ------------------------------------------------------------------------------------------

  /** A call that comes after acts and finds its key on record. */
  lemma HitComes(c: C.Catalog, s0: State, acts: seq<Action>, r: Request) returns (next: seq<Action>)
    requires Keyed(c, r) && KeyFor(r) in Run(c, s0, acts).idem
    ensures |next| == 2 && HitAt(c, s0, acts + next, |acts| + 1, KeyFor(r))
    ensures ArgsAt(c, s0, acts + next, |acts| + 1) == r.args
    ensures var s := Run(c, s0, acts);
            AnswerOf(c, s0, acts + next, |acts| + 1) == Some(Replay(s.jobs, s.idem[KeyFor(r)], r.args))
    ensures var s, t := Run(c, s0, acts), Run(c, s0, acts + next);
            t.jobs == s.jobs && t.idem == s.idem && |t.calls| == |s.calls| + 1 && t.calls[..|s.calls|] == s.calls
  {
    var s := Run(c, s0, acts);
    var n := |s.calls|;
    next := TwoMore(c, s0, acts, Arrive(r), Kindly(n));
    var m := Step(c, s, Arrive(r));
    ArrivesAtLookup(c, s, r);
    HitReplies(c, m, Kindly(n), KeyFor(r));
    HitKeepsTables(c, m, n, KeyFor(r));
    Extend(c, s0, acts, Arrive(r));
    assert (acts + next)[..|acts| + 1] == acts + [Arrive(r)];
    assert Before(c, s0, acts + next, |acts| + 1) == m;
  }

  lemma HitKeepsTables(c: C.Catalog, s: State, n: nat, k: Key)
    requires n < |s.calls| && s.calls[n].pc.Lookup? && Has(s.calls[n].verb, s.calls[n].key, k) && k in s.idem
    ensures var t := Step(c, s, Kindly(n));
            t.jobs == s.jobs && t.idem == s.idem && OthersStay(s, t, n)
  {}

  /** A hit stays one, and its answer stays, whatever follows. */
  lemma HitSurvives(c: C.Catalog, s0: State, acts: seq<Action>, more: seq<Action>, m: nat, k: Key)
    requires HitAt(c, s0, acts, m, k) && AnswerOf(c, s0, acts, m).Some?
    ensures HitAt(c, s0, acts + more, m, k) && ArgsAt(c, s0, acts + more, m) == ArgsAt(c, s0, acts, m)
    ensures AnswerOf(c, s0, acts + more, m) == AnswerOf(c, s0, acts, m)
  {
    assert (acts + more)[..m] == acts[..m];
    RunOn(c, s0, acts, more);
    W.RepliedStays(c, Run(c, s0, acts), more, acts[m].call);
  }

  // ---- two calls past their lookup -------------------------------------------------------------------

  lemma MissComes(c: C.Catalog, s0: State, acts: seq<Action>, r: Request) returns (next: seq<Action>)
    requires Keyed(c, r) && KeyFor(r) !in Run(c, s0, acts).idem
    ensures var s := Run(c, s0, acts);
            Run(c, s0, acts + next) == s.(calls := s.calls + [CallOf(r, Precheck)])
  {
    var s := Run(c, s0, acts);
    var n := |s.calls|;
    next := TwoMore(c, s0, acts, Arrive(r), Kindly(n));
    ArrivesAtLookup(c, s, r);
    var m := Step(c, s, Arrive(r));
    assert m.calls[n := CallOf(r, Precheck)] == s.calls + [CallOf(r, Precheck)];
  }

  lemma BothMissed(c: C.Catalog, s0: State, r: Request) returns (acts: seq<Action>)
    requires Boot(s0) && Keyed(c, r) && KeyFor(r) !in s0.idem
    ensures Run(c, s0, acts) == s0.(calls := [CallOf(r, Precheck), CallOf(r, Precheck)])
  {
    var none: seq<Action> := [];
    var a := MissComes(c, s0, none, r);
    var b := MissComes(c, s0, none + a, r);
    acts := none + a + b;
  }

  // ---- a call's way to its record ----------------------------------------------------------------------

  /** What later calls are told after a call on a checked verb went through: the answer of its
      execution, or for a gated verb the view of its job, the next one in the table. */
  predicate Tells(c: C.Catalog, verb: string, jobs: nat, a: ExecAnswer, told: Answer) {
    if Gated(c, verb) then Shows202(told, jobs) else told == a
  }

  lemma DirectRecord(c: C.Catalog, s: State, n: nat, r: Request, a: ExecAnswer) returns (acts: seq<Action>)
    requires n < |s.calls| && s.calls[n] == CallOf(r, Precheck) && EffectiveKey(r).Some? && !Gated(c, r.verb)
    ensures var t := Run(c, s, acts);
            && OthersStay(s, t, n) && t.jobs == s.jobs
            && KeyFor(r) in t.idem && t.idem[KeyFor(r)] == Prior(r.args, a.status, a.body, None)
  {
    var s1 := Step(c, s, Kindly(n));
    assert OthersStay(s, s1, n) && s1.jobs == s.jobs && s1.calls[n] == CallOf(r, Execute);
    var s2 := Step(c, s1, CallStep(n, false, Done(a)));
    assert OthersStay(s1, s2, n) && s2.jobs == s.jobs && s2.calls[n] == CallOf(r, Record(a, None));
    RunThree(c, s, Kindly(n), CallStep(n, false, Done(a)), Kindly(n));
    acts := [Kindly(n), CallStep(n, false, Done(a)), Kindly(n)];
  }

  lemma JobSubmitted(c: C.Catalog, s: State, n: nat, r: Request) returns (acts: seq<Action>)
    requires n < |s.calls| && s.calls[n] == CallOf(r, Precheck) && EffectiveKey(r).Some? && Gated(c, r.verb)
    ensures var t := Run(c, s, acts);
            && OthersStay(s, t, n) && t.calls[n] == CallOf(r, ReadBack(|s.jobs|))
            && |t.jobs| == |s.jobs| + 1 && t.jobs[|s.jobs|].status == Pending
  {
    var s1 := Step(c, s, Kindly(n));
    assert OthersStay(s, s1, n) && s1.jobs == s.jobs && s1.calls[n] == CallOf(r, CallPc.Submit);
    var s2 := Step(c, s1, Kindly(n));
    assert OthersStay(s1, s2, n) && s2.jobs == s.jobs + [NewJob(c, s1.calls[n])]
           && s2.calls[n] == CallOf(r, Launch(|s.jobs|));
    RunThree(c, s, Kindly(n), Kindly(n), Kindly(n));
    acts := [Kindly(n), Kindly(n), Kindly(n)];
  }

  lemma JobRecorded(c: C.Catalog, s: State, n: nat, r: Request, id: nat)
    requires n < |s.calls| && s.calls[n] == CallOf(r, ReadBack(id)) && EffectiveKey(r).Some? && id < |s.jobs|
    ensures var t := Step(c, Step(c, s, Kindly(n)), Kindly(n));
            && OthersStay(s, t, n) && t.jobs == s.jobs
            && KeyFor(r) in t.idem && t.idem[KeyFor(r)] == Prior(r.args, 202, PublicJob(id, s.jobs[id]), Some(id))
  {
    var s1 := Step(c, s, Kindly(n));
    assert OthersStay(s, s1, n) && s1.jobs == s.jobs;
    assert s1.calls[n] == CallOf(r, Record(Answer(202, PublicJob(id, s.jobs[id])), Some(id)));
  }

  lemma CallRecords(c: C.Catalog, s: State, n: nat, r: Request, a: ExecAnswer) returns (acts: seq<Action>)
    requires n < |s.calls| && s.calls[n] == CallOf(r, Precheck) && EffectiveKey(r).Some?
    ensures var t := Run(c, s, acts);
            && OthersStay(s, t, n) && KeyFor(r) in t.idem
            && Tells(c, r.verb, |s.jobs|, a, Replay(t.jobs, t.idem[KeyFor(r)], r.args))
            && |t.jobs| == |s.jobs| + if Gated(c, r.verb) then 1 else 0
  {
    if Gated(c, r.verb) {
      var submit := JobSubmitted(c, s, n, r);
      var m := Run(c, s, submit);
      JobRecorded(c, m, n, r, |s.jobs|);
      var next := TwoMore(c, s, submit, Kindly(n), Kindly(n));
      acts := submit + next;
    } else {
      acts := DirectRecord(c, s, n, r, a);
    }
  }

  /** At step m a call with request r's key and arguments is told as Tells says. */
  ghost predicate ToldAt(c: C.Catalog, s0: State, acts: seq<Action>, m: nat, r: Request, jobs: nat, a: ExecAnswer) {
    && EffectiveKey(r).Some? && HitAt(c, s0, acts, m, KeyFor(r)) && ArgsAt(c, s0, acts, m) == r.args
    && AnswerOf(c, s0, acts, m).Some? && Tells(c, r.verb, jobs, a, AnswerOf(c, s0, acts, m).value)
  }

  lemma ToldSurvives(c: C.Catalog, s0: State, acts: seq<Action>, longer: seq<Action>, m: nat, r: Request, jobs: nat,
                     a: ExecAnswer)
    requires ToldAt(c, s0, acts, m, r, jobs, a) && acts <= longer
    ensures ToldAt(c, s0, longer, m, r, jobs, a)
  {
    var more := longer[|acts|..];
    assert acts + more == longer;
    HitSurvives(c, s0, acts, more, m, KeyFor(r));
  }

  lemma ToldNow(c: C.Catalog, s0: State, acts: seq<Action>, r: Request, jobs: nat, a: ExecAnswer)
    returns (longer: seq<Action>)
    requires Keyed(c, r) && KeyFor(r) in Run(c, s0, acts).idem
    requires var s := Run(c, s0, acts); Tells(c, r.verb, jobs, a, Replay(s.jobs, s.idem[KeyFor(r)], r.args))
    ensures acts <= longer && |longer| == |acts| + 2 && ToldAt(c, s0, longer, |acts| + 1, r, jobs, a)
    ensures |Run(c, s0, longer).jobs| == |Run(c, s0, acts).jobs|
    ensures CallsStay(Run(c, s0, acts), Run(c, s0, longer))
  {
    var next := HitComes(c, s0, acts, r);
    longer := acts + next;
    var s, t := Run(c, s0, acts), Run(c, s0, longer);
    assert forall j :: 0 <= j < |s.calls| ==> t.calls[j] == t.calls[..|s.calls|][j];
  }

  predicate CallsStay(s: State, t: State) {
    |t.calls| >= |s.calls| && forall j :: 0 <= j < |s.calls| ==> t.calls[j] == s.calls[j]
  }

  predicate OthersKept(s: State, t: State, i: nat) {
    |t.calls| >= |s.calls| && forall j :: 0 <= j < |s.calls| && j != i ==> t.calls[j] == s.calls[j]
  }

  lemma RecordsAfter(c: C.Catalog, s0: State, before: seq<Action>, i: nat, r: Request, a: ExecAnswer)
    returns (longer: seq<Action>)
    requires Keyed(c, r) && i < |Run(c, s0, before).calls| && Run(c, s0, before).calls[i] == CallOf(r, Precheck)
    ensures before <= longer && OthersStay(Run(c, s0, before), Run(c, s0, longer), i)
    ensures KeyFor(r) in Run(c, s0, longer).idem
    ensures var s, t := Run(c, s0, before), Run(c, s0, longer);
            && Tells(c, r.verb, |s.jobs|, a, Replay(t.jobs, t.idem[KeyFor(r)], r.args))
            && |t.jobs| == |s.jobs| + if Gated(c, r.verb) then 1 else 0
  {
    var record := CallRecords(c, Run(c, s0, before), i, r, a);
    RunOn(c, s0, before, record);
    longer := before + record;
  }

  /** Call i records, and another call finds the record. */
  lemma RecordAndHit(c: C.Catalog, s0: State, before: seq<Action>, i: nat, r: Request, a: ExecAnswer)
    returns (longer: seq<Action>)
    requires Keyed(c, r) && i < |Run(c, s0, before).calls| && Run(c, s0, before).calls[i] == CallOf(r, Precheck)
    ensures before <= longer && |longer| >= |before| + 2
    ensures ToldAt(c, s0, longer, |longer| - 1, r, |Run(c, s0, before).jobs|, a)
    ensures |Run(c, s0, longer).jobs| == |Run(c, s0, before).jobs| + if Gated(c, r.verb) then 1 else 0
    ensures OthersKept(Run(c, s0, before), Run(c, s0, longer), i)
  {
    var mid := RecordsAfter(c, s0, before, i, r, a);
    longer := ToldNow(c, s0, mid, r, |Run(c, s0, before).jobs|, a);
    KeptAcross(Run(c, s0, before), Run(c, s0, mid), Run(c, s0, longer), i);
    PrefixOn(before, mid, longer);
    assert |longer| - 1 == |mid| + 1;
  }

  lemma PrefixOn<T>(a: seq<T>, b: seq<T>, d: seq<T>)
    requires a <= b <= d
    ensures a <= d
  {}

  lemma KeptAcross(s: State, m: State, t: State, i: nat)
    requires OthersStay(s, m, i) && CallsStay(m, t)
    ensures OthersKept(s, t, i)
  {}

  lemma FirstTold(c: C.Catalog, s0: State, r: Request, a: ExecAnswer) returns (acts: seq<Action>)
    requires Boot(s0) && Keyed(c, r) && KeyFor(r) !in s0.idem
    ensures acts != [] && ToldAt(c, s0, acts, |acts| - 1, r, |s0.jobs|, a)
    ensures |Run(c, s0, acts).jobs| == |s0.jobs| + if Gated(c, r.verb) then 1 else 0
    ensures |Run(c, s0, acts).calls| > 1 && Run(c, s0, acts).calls[1] == CallOf(r, Precheck)
  {
    var both := BothMissed(c, s0, r);
    acts := RecordAndHit(c, s0, both, 0, r, a);
    assert Run(c, s0, acts).calls[1] == Run(c, s0, both).calls[1];
  }

  /** From boot, for every keyed request: two overlapping calls make the same later call be told two
      things, first what the one recorded and then what the other did; for an ungated verb any two
      answers of the execution, for a gated one two pending jobs. */
  lemma OverlapChangesTheReplay(c: C.Catalog, s0: State, r: Request, a: ExecAnswer, b: ExecAnswer)
    returns (acts: seq<Action>, m: nat, n: nat)
    requires Boot(s0) && Keyed(c, r) && KeyFor(r) !in s0.idem
    ensures m < n && ToldAt(c, s0, acts, m, r, |s0.jobs|, a)
    ensures ToldAt(c, s0, acts, n, r, |s0.jobs| + if Gated(c, r.verb) then 1 else 0, b)
  {
    var first := FirstTold(c, s0, r, a);
    acts := RecordAndHit(c, s0, first, 1, r, b);
    m, n := |first| - 1, |acts| - 1;
    ToldSurvives(c, s0, first, acts, m, r, |s0.jobs|, a);
  }
}
