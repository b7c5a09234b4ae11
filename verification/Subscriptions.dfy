/** Life of a subscription: start, natural exit, stop, the reaper, and the pid ledger that
    survives a crash (dispatch/tier_b.py). */
module Subscriptions {
  import opened Common

  const REAP_GRACE: real := 60.0

  datatype Starting = Spawned | Registered | Returned

  datatype Sub = Sub(pid: nat, live: bool, starting: Starting, stopped: bool, stoppedAt: Option<real>)

  /** Flag, Clock and Store are the three effects of _mark_stopped after its unlocked test. */
  datatype Pc = Reading | Killing | Test | Flag | Clock | Store(t: real) | Unlist | Ended

  /** A reader thread or a call of stop, working on subscription sub. */
  datatype Thread = Thread(sub: nat, isStop: bool, pc: Pc)

  /** Subscriptions are named by their position in subs, which only grows.  reaped is history:
      the stop time on record when the reaper removed the subscription. */
  datatype State = State(
    now: real, subs: seq<Sub>, registry: set<nat>, ledger: seq<nat>, threads: seq<Thread>,
    woken: Option<real>, reaped: map<nat, real>)

  datatype Action =
    | Tick(d: real)
    | Spawn(pid: nat)     // Popen, and the reader thread
    | Register(sub: nat)
    | List(sub: nat)      // the last act of start
    | Exit(sub: nat)      // the child ends by itself
    | Stop(sub: nat)      // a stop call that found its subscription
    | Move(thread: nat)
    | Wake                // the reaper reads the clock
    | Reap                // and then takes the lock

  function Without(pids: seq<nat>, pid: nat): seq<nat> {
    if pids == [] then []
    else Without(pids[..|pids| - 1], pid) + if pids[|pids| - 1] == pid then [] else [pids[|pids| - 1]]
  }

  predicate Due(sub: Sub, now: real) {
    sub.stopped && sub.stoppedAt.Some? && now - sub.stoppedAt.value > REAP_GRACE
  }

  function DueSet(s: State, now: real): set<nat> {
    set i | i in s.registry && i < |s.subs| && Due(s.subs[i], now)
  }

  /** Where a thread goes once it is through with _mark_stopped. */
  function AfterMark(th: Thread): Pc { if th.isStop then Unlist else Ended }

  function NextPc(th: Thread, sub: Sub, now: real): Pc {
    match th.pc
    case Reading => Test
    case Killing => Test
    case Test => if sub.stopped then AfterMark(th) else Pc.Flag
    case Flag => Clock
    case Clock => Store(now)
    case Store(_) => AfterMark(th)
    case Unlist => Ended
    case Ended => Ended
  }

  function Marked(th: Thread, sub: Sub): Sub {
    match th.pc
    case Killing => sub.(live := false)
    case Flag => sub.(stopped := true)
    case Store(t) => sub.(stoppedAt := Some(t))
    case _ => sub
  }

  function Moved(s: State, k: nat): State
    requires k < |s.threads| && s.threads[k].sub < |s.subs|
  {
    var th := s.threads[k];
    var sub := s.subs[th.sub];
    s.(threads := s.threads[k := th.(pc := NextPc(th, sub, s.now))],
       subs := s.subs[th.sub := Marked(th, sub)],
       ledger := if th.pc.Unlist? then Without(s.ledger, sub.pid) else s.ledger)
  }

  function Step(s: State, a: Action): State {
    match a
    case Tick(d) => if d >= 0.0 then s.(now := s.now + d) else s
    case Spawn(pid) =>
      s.(subs := s.subs + [Sub(pid, true, Spawned, false, None)],
         threads := s.threads + [Thread(|s.subs|, false, Reading)])
    case Register(i) =>
      if i < |s.subs| && s.subs[i].starting == Spawned
      then s.(registry := s.registry + {i}, subs := s.subs[i := s.subs[i].(starting := Registered)]) else s
    case List(i) =>
      if i < |s.subs| && s.subs[i].starting == Registered
      then s.(ledger := s.ledger + [s.subs[i].pid], subs := s.subs[i := s.subs[i].(starting := Returned)]) else s
    case Exit(i) => if i < |s.subs| then s.(subs := s.subs[i := s.subs[i].(live := false)]) else s
    case Stop(i) => if i in s.registry then s.(threads := s.threads + [Thread(i, true, Killing)]) else s
    case Move(k) => if k < |s.threads| && s.threads[k].sub < |s.subs| then Moved(s, k) else s
    case Wake => s.(woken := Some(s.now))
    case Reap =>
      if s.woken.None? then s
      else
        var dead := DueSet(s, s.woken.value);
        s.(registry := s.registry - dead, woken := None,
           reaped := s.reaped + map i | i in dead :: s.subs[i].stoppedAt.value)
  }

  function Run(s: State, acts: seq<Action>): State {
    if acts == [] then s else Step(Run(s, acts[..|acts| - 1]), acts[|acts| - 1])
  }

  /** A daemon that has just started; the ledger is whatever recovery left. */
  predicate Boot(s: State) {
    s.subs == [] && s.registry == {} && s.threads == [] && s.woken.None? && s.reaped == map[]
  }

  // ---- the reaper --------------------------------------------------------------------------

  ghost predicate SubInv(s: State, i: nat)
    requires i < |s.subs|
  {
    var sub := s.subs[i];
    && (i in s.registry ==> sub.starting != Spawned && i !in s.reaped)
    && (sub.starting != Spawned ==> i in s.registry || i in s.reaped)
    && (i in s.reaped ==> sub.stopped && sub.starting != Spawned && s.now - s.reaped[i] > REAP_GRACE)
    && (sub.stoppedAt.Some? ==> sub.stopped && sub.stoppedAt.value <= s.now)
  }

  predicate ThreadInv(s: State, th: Thread) {
    && th.sub < |s.subs|
    && (th.pc.Clock? ==> s.subs[th.sub].stopped)
    && (th.pc.Store? ==> s.subs[th.sub].stopped && th.pc.t <= s.now)
  }

  ghost predicate Inv(s: State) {
    && (forall i: nat :: i < |s.subs| ==> SubInv(s, i))
    && (forall i :: i in s.registry ==> i < |s.subs|)
    && (forall i :: i in s.reaped ==> i < |s.subs|)
    && (forall k :: 0 <= k < |s.threads| ==> ThreadInv(s, s.threads[k]))
    && (s.woken.Some? ==> s.woken.value <= s.now)
  }

  lemma StepKeepsSub(s: State, a: Action, i: nat)
    requires i < |s.subs|
    ensures i < |Step(s, a).subs| && s.now <= Step(s, a).now
    ensures s.subs[i].stopped ==> Step(s, a).subs[i].stopped
    ensures s.subs[i].starting != Spawned ==> Step(s, a).subs[i].starting != Spawned
    ensures Step(s, a).subs[i].pid == s.subs[i].pid
  {}

  lemma StepThreadInv(s: State, a: Action, k: nat)
    requires Inv(s) && k < |Step(s, a).threads|
    ensures ThreadInv(Step(s, a), Step(s, a).threads[k])
  {
    if k < |s.threads| {
      assert ThreadInv(s, s.threads[k]);
      StepKeepsSub(s, a, s.threads[k].sub);
    }
  }

  lemma MoveSubInv(s: State, k: nat, i: nat)
    requires Inv(s) && k < |s.threads| && i < |s.subs|
    ensures s.threads[k].sub < |s.subs| && SubInv(Moved(s, k), i)
  {
    assert ThreadInv(s, s.threads[k]);
    assert SubInv(s, i);
  }

  lemma ReapSubInv(s: State, i: nat)
    requires Inv(s) && i < |s.subs|
    ensures SubInv(Step(s, Reap), i)
  {
    assert SubInv(s, i);
  }

  lemma StepSubInv(s: State, a: Action, i: nat)
    requires Inv(s) && i < |Step(s, a).subs|
    ensures SubInv(Step(s, a), i)
  {
    if i < |s.subs| {
      assert SubInv(s, i);
      if a.Move? && a.thread < |s.threads| {
        MoveSubInv(s, a.thread, i);
      } else if a.Reap? {
        ReapSubInv(s, i);
      }
    }
  }

  lemma StepInv(s: State, a: Action)
    requires Inv(s)
    ensures Inv(Step(s, a))
  {
    var t := Step(s, a);
    forall k | 0 <= k < |t.threads| ensures ThreadInv(t, t.threads[k]) {
      StepThreadInv(s, a, k);
    }
    forall i: nat | i < |t.subs| ensures SubInv(t, i) {
      StepSubInv(s, a, i);
    }
  }

  lemma {:induction false} RunInv(s: State, acts: seq<Action>)
    requires Inv(s)
    ensures Inv(Run(s, acts))
  {
    if acts != [] {
      RunInv(s, acts[..|acts| - 1]);
      StepInv(Run(s, acts[..|acts| - 1]), acts[|acts| - 1]);
    }
  }

  /** In every run, racing marks included: a subscription whose start registered it is pollable
      unless the reaper removed it, and it did so only after the subscription had stopped and
      more than the grace period past the stop time then on record. */
  lemma ReaperSafety(s0: State, acts: seq<Action>, i: nat)
    requires Boot(s0)
    requires i < |Run(s0, acts).subs| && Run(s0, acts).subs[i].starting != Spawned
    ensures var s := Run(s0, acts);
            && (i in s.registry <==> i !in s.reaped)
            && (!s.subs[i].stopped ==> i in s.registry)
            && (i in s.reaped ==> s.subs[i].stopped && s.now - s.reaped[i] > 60.0)
  {
    RunInv(s0, acts);
    assert SubInv(Run(s0, acts), i);
  }

  /** stopped never reverts; a registered subscription leaves the registry only through the reaper,
      and one the reaper removed never comes back. */
  lemma {:induction false} StoppedIsForever(s: State, acts: seq<Action>, i: nat)
    requires Inv(s) && i < |s.subs|
    ensures i < |Run(s, acts).subs| && s.now <= Run(s, acts).now
    ensures s.subs[i].stopped ==> Run(s, acts).subs[i].stopped
    ensures i in s.registry ==> i in Run(s, acts).registry || i in Run(s, acts).reaped
    ensures i in s.reaped ==> i in Run(s, acts).reaped && i !in Run(s, acts).registry
  {
    RunInv(s, acts);
    if acts != [] {
      var m := Run(s, acts[..|acts| - 1]);
      StoppedIsForever(s, acts[..|acts| - 1], i);
      StepKeepsSub(m, acts[|acts| - 1], i);
      assert SubInv(Run(s, acts), i);
    } else {
      assert SubInv(s, i);
    }
  }

  // ---- pollable for the grace period ---------------------------------------------------------

  /** Thread k holds a stop time for i that it has still to record. */
  predicate Storing(s: State, k: nat, i: nat) {
    k < |s.threads| && s.threads[k].sub == i && s.threads[k].pc.Store?
  }

  /** Thread k is past its test of `stopped` and has no stop time yet. */
  predicate Flagging(s: State, k: nat, i: nat) {
    k < |s.threads| && s.threads[k].sub == i && (s.threads[k].pc.Flag? || s.threads[k].pc.Clock?)
  }

  predicate Timed(s: State, i: nat) { i < |s.subs| && s.subs[i].stopped && s.subs[i].stoppedAt.Some? }

  predicate WithinGrace(s: State, t: real) { s.now - t <= REAP_GRACE }

  /** Stopped, and pollable if the stop time on record is no older than the grace period. */
  predicate Kept(s: State, i: nat) {
    Timed(s, i) && (WithinGrace(s, s.subs[i].stoppedAt.value) ==> i in s.registry)
  }

  /** No racing mark has still to take its stop time, and none holds one from within the grace
      period that is later than the time on record or one that another thread holds. */
  ghost predicate MarksHarmless(s: State, i: nat)
    requires Timed(s, i)
  {
    && (forall k: nat :: !Flagging(s, k, i))
    && (forall k: nat :: Storing(s, k, i) && WithinGrace(s, s.threads[k].pc.t) ==>
          s.threads[k].pc.t <= s.subs[i].stoppedAt.value)
    && (forall j: nat, k: nat :: Storing(s, j, i) && Storing(s, k, i) && WithinGrace(s, s.threads[k].pc.t) ==>
          s.threads[k].pc.t <= s.threads[j].pc.t)
  }

  ghost predicate Safe(s: State, i: nat) {
    && Timed(s, i) && MarksHarmless(s, i) && Kept(s, i)
    && (i !in s.registry ==> forall k: nat :: Storing(s, k, i) ==> !WithinGrace(s, s.threads[k].pc.t))
  }

  lemma MoveSafe(s: State, n: nat, i: nat)
    requires Inv(s) && Safe(s, i) && n < |s.threads|
    ensures s.threads[n].sub < |s.subs| && Safe(Moved(s, n), i)
  {
    var t := Moved(s, n);
    assert ThreadInv(s, s.threads[n]);
    assert forall k: nat :: Storing(t, k, i) ==> Storing(s, k, i) && t.threads[k] == s.threads[k] by {
      forall k: nat | Storing(t, k, i) ensures Storing(s, k, i) && t.threads[k] == s.threads[k] {
        assert !Flagging(s, k, i);
      }
    }
    forall k: nat ensures !Flagging(t, k, i) {
      assert !Flagging(s, k, i);
    }
    if Storing(s, n, i) {
      assert t.subs[i].stoppedAt == Some(s.threads[n].pc.t);
    } else {
      assert !Flagging(s, n, i);
      assert t.subs[i].stoppedAt == s.subs[i].stoppedAt;
    }
  }

  lemma ReapSafe(s: State, i: nat)
    requires Inv(s) && Safe(s, i)
    ensures Safe(Step(s, Reap), i)
  {
    var t := Step(s, Reap);
    assert forall k: nat :: Storing(t, k, i) <==> Storing(s, k, i);
    assert forall k: nat :: Flagging(t, k, i) <==> Flagging(s, k, i);
  }

  /** Any other step leaves the threads on i where they are. */
  lemma QuietSafe(s: State, a: Action, i: nat)
    requires Inv(s) && Safe(s, i) && !a.Move? && !a.Reap?
    ensures Safe(Step(s, a), i)
  {
    var t := Step(s, a);
    StepKeepsSub(s, a, i);
    assert forall k: nat :: Storing(t, k, i) ==> Storing(s, k, i) && t.threads[k] == s.threads[k];
    forall k: nat ensures !Flagging(t, k, i) {
      assert !Flagging(s, k, i);
    }
    assert t.subs[i].stoppedAt == s.subs[i].stoppedAt;
  }

  lemma {:induction false} RunSafe(s: State, acts: seq<Action>, i: nat)
    requires Inv(s) && Safe(s, i)
    ensures Safe(Run(s, acts), i)
  {
    if acts != [] {
      var m := Run(s, acts[..|acts| - 1]);
      var a := acts[|acts| - 1];
      RunSafe(s, acts[..|acts| - 1], i);
      RunInv(s, acts[..|acts| - 1]);
      if a.Reap? {
        ReapSafe(m, i);
      } else if a.Move? {
        if a.thread < |m.threads| {
          MoveSafe(m, a.thread, i);
        }
      } else {
        QuietSafe(m, a, i);
      }
    }
  }

  lemma Extend(s: State, acts: seq<Action>, a: Action)
    ensures Run(s, acts + [a]) == Step(Run(s, acts), a)
  {
    assert (acts + [a])[..|acts|] == acts;
  }

  lemma {:induction false} RunOn(s: State, a: seq<Action>, b: seq<Action>)
    ensures Run(s, a + b) == Run(Run(s, a), b)
  {
    if b == [] {
      assert a + b == a;
    } else {
      RunOn(s, a, b[..|b| - 1]);
      assert (a + b)[..|a + b| - 1] == a + b[..|b| - 1];
    }
  }

  lemma RunThree(s: State, a: Action, b: Action, c: Action)
    ensures Run(s, [a, b, c]) == Step(Step(Step(s, a), b), c)
  {
    assert [a, b, c][..2] == [a, b] && [a, b][..1] == [a] && [a][..0] == [];
    assert Run(s, [a]) == Step(Run(s, []), a);
    assert Run(s, [a, b]) == Step(Run(s, [a]), b);
  }

  /** The clock moves on and the reaper takes i away. */
  lemma Reaped(s: State, i: nat, d: real) returns (acts: seq<Action>)
    requires Timed(s, i) && i in s.registry && d >= 0.0 && s.now + d - s.subs[i].stoppedAt.value > REAP_GRACE
    ensures var t := Run(s, acts);
            t.now == s.now + d && i !in t.registry && t.threads == s.threads && t.subs == s.subs
  {
    var s2 := Step(Step(s, Tick(d)), Wake);
    assert i in DueSet(s2, s2.now);
    RunThree(s, Tick(d), Wake, Reap);
    acts := [Tick(d), Wake, Reap];
  }

  /** A mark that has its stop time still to take records the present one. */
  lemma MarkLands(s: State, k: nat, i: nat) returns (acts: seq<Action>)
    requires Flagging(s, k, i) && Timed(s, i)
    ensures var t := Run(s, acts);
            t.now == s.now && t.registry == s.registry && |t.subs| == |s.subs| && Timed(t, i) &&
            t.subs[i] == s.subs[i].(stoppedAt := Some(s.now))
  {
    assert Run(s, []) == s;
    Extend(s, [], Move(k));
    acts := [] + [Move(k)];
    if s.threads[k].pc.Flag? {
      var m := Step(s, Move(k));
      assert m == s.(threads := s.threads[k := s.threads[k].(pc := Clock)], subs := s.subs[i := s.subs[i]]);
      ClockLands(m, k, i);
      Extend(s, acts, Move(k));
      acts := acts + [Move(k)];
    } else {
      ClockLands(s, k, i);
    }
    Extend(s, acts, Move(k));
    acts := acts + [Move(k)];
  }

  lemma ClockLands(s: State, k: nat, i: nat)
    requires k < |s.threads| && s.threads[k].sub == i && s.threads[k].pc == Clock && Timed(s, i)
    ensures var t := Step(Step(s, Move(k)), Move(k));
            t.now == s.now && t.registry == s.registry && |t.subs| == |s.subs| && Timed(t, i) &&
            t.subs[i] == s.subs[i].(stoppedAt := Some(s.now))
  {
    var m := Step(s, Move(k));
    assert m.threads[k] == s.threads[k].(pc := Store(s.now)) && m.subs[i] == s.subs[i];
  }

  /** A mark without its time yet can be delayed past the reaper. */
  lemma FlaggingBreaks(s: State, k: nat, i: nat) returns (acts: seq<Action>)
    requires Inv(s) && Flagging(s, k, i) && Timed(s, i) && i in s.registry
    ensures var t := Run(s, acts);
            |t.subs| == |s.subs| && Timed(t, i) && t.subs[i] == s.subs[i].(stoppedAt := Some(t.now)) &&
            i !in t.registry
  {
    assert SubInv(s, i);
    var a := Reaped(s, i, 61.0);
    var b := MarkLands(Run(s, a), k, i);
    RunOn(s, a, b);
    acts := a + b;
  }

  /** So can one with a time later than that on record. */
  lemma LaterStoreBreaks(s: State, k: nat, i: nat) returns (acts: seq<Action>)
    requires Storing(s, k, i) && Timed(s, i) && i in s.registry
    requires WithinGrace(s, s.threads[k].pc.t) && s.threads[k].pc.t > s.subs[i].stoppedAt.value
    ensures Timed(Run(s, acts), i) && !Kept(Run(s, acts), i)
  {
    var y := s.threads[k].pc.t;
    var a := Reaped(s, i, y + REAP_GRACE - s.now);
    var t := Run(s, a);
    Extend(s, a, Move(k));
    acts := a + [Move(k)];
  }

  /** Or later than that of another thread, which lands first. */
  lemma StoreBehindStoreBreaks(s: State, j: nat, k: nat, i: nat) returns (acts: seq<Action>)
    requires Storing(s, j, i) && Storing(s, k, i) && Timed(s, i) && i in s.registry
    requires WithinGrace(s, s.threads[k].pc.t) && s.threads[k].pc.t > s.threads[j].pc.t
    ensures Timed(Run(s, acts), i) && !Kept(Run(s, acts), i)
  {
    var t := Step(s, Move(j));
    var b := LaterStoreBreaks(t, k, i);
    assert Run(s, []) == s;
    Extend(s, [], Move(j));
    RunOn(s, [] + [Move(j)], b);
    acts := [] + [Move(j)] + b;
  }

  lemma HarmfulMarkBreaks(s: State, i: nat) returns (acts: seq<Action>)
    requires Inv(s) && Timed(s, i) && i in s.registry && !MarksHarmless(s, i)
    ensures !Kept(Run(s, acts), i)
  {
    if k: nat :| Flagging(s, k, i) {
      acts := FlaggingBreaks(s, k, i);
    } else if k: nat :| Storing(s, k, i) && WithinGrace(s, s.threads[k].pc.t) &&
                        s.threads[k].pc.t > s.subs[i].stoppedAt.value {
      acts := LaterStoreBreaks(s, k, i);
    } else {
      var j: nat, k: nat :| Storing(s, j, i) && Storing(s, k, i) && WithinGrace(s, s.threads[k].pc.t) &&
                            s.threads[k].pc.t > s.threads[j].pc.t;
      acts := StoreBehindStoreBreaks(s, j, k, i);
    }
  }

  /** A stopped, registered subscription stays pollable for the whole grace period after its stop
      time, as last recorded, in every continuation, exactly if the racing marks are harmless. */
  lemma PollableForGrace(s: State, i: nat)
    requires Inv(s) && Timed(s, i) && i in s.registry
    ensures (forall acts :: Kept(Run(s, acts), i)) <==> MarksHarmless(s, i)
  {
    if MarksHarmless(s, i) {
      forall acts ensures Kept(Run(s, acts), i) {
        RunSafe(s, acts, i);
      }
    } else {
      var acts := HarmfulMarkBreaks(s, i);
    }
  }

  /** No thread is between its test of `stopped` and its write of the stop time. */
  predicate Settled(s: State, i: nat) {
    forall k :: 0 <= k < |s.threads| && s.threads[k].sub == i ==>
      !s.threads[k].pc.Flag? && !s.threads[k].pc.Clock? && !s.threads[k].pc.Store?
  }

  lemma StepSettled(s: State, a: Action, i: nat)
    requires Inv(s) && i < |s.subs| && s.subs[i].stopped && Settled(s, i)
    ensures Settled(Step(s, a), i) && Step(s, a).subs[i].stoppedAt == s.subs[i].stoppedAt
  {
    if a.Move? && a.thread < |s.threads| {
      assert ThreadInv(s, s.threads[a.thread]);
    }
  }

  /** Once every racing mark has landed, the stop time is final. */
  lemma {:induction false} StopTimeIsFinal(s: State, acts: seq<Action>, i: nat)
    requires Inv(s) && i < |s.subs| && s.subs[i].stopped && Settled(s, i)
    ensures Inv(Run(s, acts)) && i < |Run(s, acts).subs|
    ensures Settled(Run(s, acts), i) && Run(s, acts).subs[i].stopped
    ensures Run(s, acts).subs[i].stoppedAt == s.subs[i].stoppedAt
  {
    if acts != [] {
      var m := Run(s, acts[..|acts| - 1]);
      var a := acts[|acts| - 1];
      StopTimeIsFinal(s, acts[..|acts| - 1], i);
      StepInv(m, a);
      StepKeepsSub(m, a, i);
      StepSettled(m, a, i);
    }
  }

  /** One subscription, its reader and one stop call on it. */
  function Racing(s0: State, sub: Sub, reader: Pc, stop: Pc): State {
    s0.(subs := [sub], registry := {0}, ledger := s0.ledger + [7],
        threads := [Thread(0, false, reader), Thread(0, true, stop)])
  }

  lemma RacingMoves(s0: State, sub: Sub, reader: Pc, stop: Pc)
    requires !reader.Unlist? && !stop.Unlist?
    ensures Step(Racing(s0, sub, reader, stop), Move(0)) ==
            Racing(s0, Marked(Thread(0, false, reader), sub), NextPc(Thread(0, false, reader), sub, s0.now), stop)
    ensures Step(Racing(s0, sub, reader, stop), Move(1)) ==
            Racing(s0, Marked(Thread(0, true, stop), sub), reader, NextPc(Thread(0, true, stop), sub, s0.now))
  {
    var s := Racing(s0, sub, reader, stop);
    assert s.threads[0 := Thread(0, false, NextPc(Thread(0, false, reader), sub, s0.now))]
        == [Thread(0, false, NextPc(Thread(0, false, reader), sub, s0.now)), Thread(0, true, stop)];
    assert s.threads[1 := Thread(0, true, NextPc(Thread(0, true, stop), sub, s0.now))]
        == [Thread(0, false, reader), Thread(0, true, NextPc(Thread(0, true, stop), sub, s0.now))];
  }

  lemma Started(s0: State, pid: nat) returns (acts: seq<Action>)
    requires Boot(s0)
    ensures Run(s0, acts) == s0.(subs := [Sub(pid, true, Returned, false, None)], registry := {0},
                                 ledger := s0.ledger + [pid], threads := [Thread(0, false, Reading)])
  {
    var s1 := s0.(subs := [Sub(pid, true, Spawned, false, None)], threads := [Thread(0, false, Reading)]);
    assert Run(s0, []) == s0;
    assert Step(s0, Spawn(pid)) == s1;
    Extend(s0, [], Spawn(pid));
    var s2 := s1.(subs := [Sub(pid, true, Registered, false, None)], registry := {0});
    assert Step(s1, Register(0)) == s2;
    Extend(s0, [] + [Spawn(pid)], Register(0));
    Extend(s0, [] + [Spawn(pid)] + [Register(0)], List(0));
    acts := [] + [Spawn(pid)] + [Register(0)] + [List(0)];
  }

  /** Both the reader and stop pass the test of `stopped`. */
  lemma BothPassTheTest(s0: State) returns (acts: seq<Action>)
    requires Boot(s0)
    ensures Run(s0, acts) == Racing(s0, Sub(7, false, Returned, false, None), Pc.Flag, Pc.Flag)
  {
    acts := Started(s0, 7);
    var up, down := Sub(7, true, Returned, false, None), Sub(7, false, Returned, false, None);
    Extend(s0, acts, Stop(0));
    acts := acts + [Stop(0)];
    assert Run(s0, acts) == Racing(s0, up, Reading, Killing);
    RacingMoves(s0, up, Reading, Killing);
    Extend(s0, acts, Move(1));
    acts := acts + [Move(1)];
    RacingMoves(s0, down, Reading, Test);
    Extend(s0, acts, Move(0));
    acts := acts + [Move(0)];
    RacingMoves(s0, down, Test, Test);
    Extend(s0, acts, Move(0));
    acts := acts + [Move(0)];
    RacingMoves(s0, down, Pc.Flag, Test);
    Extend(s0, acts, Move(1));
    acts := acts + [Move(1)];
  }

  /** Only stop goes on, and records its time. */
  lemma ReaderRacesStop(s0: State) returns (acts: seq<Action>)
    requires Boot(s0)
    ensures Run(s0, acts) == Racing(s0, Sub(7, false, Returned, true, Some(s0.now)), Pc.Flag, Unlist)
  {
    acts := BothPassTheTest(s0);
    RacingMoves(s0, Sub(7, false, Returned, false, None), Pc.Flag, Pc.Flag);
    Extend(s0, acts, Move(1));
    acts := acts + [Move(1)];
    RacingMoves(s0, Sub(7, false, Returned, true, None), Pc.Flag, Clock);
    Extend(s0, acts, Move(1));
    acts := acts + [Move(1)];
    RacingMoves(s0, Sub(7, false, Returned, true, None), Pc.Flag, Store(s0.now));
    Extend(s0, acts, Move(1));
    acts := acts + [Move(1)];
  }

  /** The harmful race does happen: from boot, a stop call and the reader can both pass the test of
      `stopped`, and the later mark record a stop time of now on a subscription already removed. */
  lemma LateMarkAfterReap(s0: State)
    requires Boot(s0)
    ensures exists acts :: var s := Run(s0, acts);
              |s.subs| == 1 && s.subs[0].starting == Returned &&
              s.subs[0].stoppedAt == Some(s.now) && 0 !in s.registry
  {
    var a := ReaderRacesStop(s0);
    var m := Run(s0, a);
    RunInv(s0, a);
    assert Flagging(m, 0, 0);
    var b := FlaggingBreaks(m, 0, 0);
    RunOn(s0, a, b);
    assert Run(s0, a + b).subs[0].starting == Returned;
  }

  // ---- the ledger ----------------------------------------------------------------------------

  lemma {:induction false} WithoutKeeps(pids: seq<nat>, pid: nat, p: nat)
    ensures p in Without(pids, pid) <==> p in pids && p != pid
  {
    if pids != [] {
      WithoutKeeps(pids[..|pids| - 1], pid, p);
      assert pids == pids[..|pids| - 1] + [pids[|pids| - 1]];
    }
  }

  /** at lists, in order, the positions of whole whose entries are not pid; part holds just those. */
  ghost predicate OthersInOrder(whole: seq<nat>, pid: nat, part: seq<nat>, at: seq<nat>) {
    && |at| == |part|
    && (forall n :: 0 <= n < |at| ==> at[n] < |whole| && part[n] == whole[at[n]] && part[n] != pid)
    && (forall m, n :: 0 <= m < n < |at| ==> at[m] < at[n])
    && (forall k: nat :: k < |whole| && whole[k] != pid ==> k in at)
  }

  lemma OthersExtend(whole: seq<nat>, pid: nat, part: seq<nat>, at: seq<nat>, x: nat)
    requires OthersInOrder(whole, pid, part, at)
    ensures x == pid ==> OthersInOrder(whole + [x], pid, part, at)
    ensures x != pid ==> OthersInOrder(whole + [x], pid, part + [x], at + [|whole|])
  {
    forall k: nat | k <= |whole| && (whole + [x])[k] != pid
      ensures if x == pid then k in at else k in at + [|whole|]
    {
      if k < |whole| {
        assert whole[k] != pid;
      } else {
        assert (at + [|whole|])[|at|] == k;
      }
    }
  }

  lemma {:induction false} WithoutKeepsOrder(pids: seq<nat>, pid: nat) returns (at: seq<nat>)
    ensures OthersInOrder(pids, pid, Without(pids, pid), at)
  {
    if pids == [] {
      at := [];
    } else {
      var n := |pids| - 1;
      at := WithoutKeepsOrder(pids[..n], pid);
      OthersExtend(pids[..n], pid, Without(pids[..n], pid), at, pids[n]);
      assert pids[..n] + [pids[n]] == pids;
      if pids[n] != pid {
        at := at + [n];
      }
    }
  }

  /** Taken in s, a strikes pid from the ledger. */
  predicate Unlists(s: State, a: Action, pid: nat) {
    a.Move? && a.thread < |s.threads| && s.threads[a.thread].pc.Unlist? &&
    s.threads[a.thread].sub < |s.subs| && s.subs[s.threads[a.thread].sub].pid == pid
  }

  /** Taken in s, a writes pid into the ledger. */
  predicate Lists(s: State, a: Action, pid: nat) {
    a.List? && a.sub < |s.subs| && s.subs[a.sub].starting == Registered && s.subs[a.sub].pid == pid
  }

  lemma StepLedger(s: State, a: Action, pid: nat)
    ensures pid in Step(s, a).ledger <==> Lists(s, a, pid) || (pid in s.ledger && !Unlists(s, a, pid))
  {
    if a.Move? && a.thread < |s.threads| && s.threads[a.thread].sub < |s.subs| {
      WithoutKeeps(s.ledger, s.subs[s.threads[a.thread].sub].pid, pid);
    }
  }

  predicate Unlisting(s0: State, acts: seq<Action>, n: nat, pid: nat) {
    n < |acts| && Unlists(Run(s0, acts[..n]), acts[n], pid)
  }

  predicate Listing(s0: State, acts: seq<Action>, n: nat, pid: nat) {
    n < |acts| && Lists(Run(s0, acts[..n]), acts[n], pid)
  }

  /** pid was struck from the ledger and not written again since. */
  ghost predicate Struck(s0: State, acts: seq<Action>, pid: nat) {
    exists n: nat :: Unlisting(s0, acts, n, pid) && forall m: nat :: n < m ==> !Listing(s0, acts, m, pid)
  }

  lemma EarlierSteps(s0: State, acts: seq<Action>, pid: nat)
    requires acts != []
    ensures forall n: nat :: n < |acts| - 1 ==>
              (Unlisting(s0, acts[..|acts| - 1], n, pid) <==> Unlisting(s0, acts, n, pid)) &&
              (Listing(s0, acts[..|acts| - 1], n, pid) <==> Listing(s0, acts, n, pid))
  {
    var init := acts[..|acts| - 1];
    forall n: nat | n < |acts| - 1
      ensures Unlisting(s0, init, n, pid) <==> Unlisting(s0, acts, n, pid)
      ensures Listing(s0, init, n, pid) <==> Listing(s0, acts, n, pid)
    {
      assert init[..n] == acts[..n];
    }
  }

  lemma StruckNow(s0: State, acts: seq<Action>, pid: nat)
    requires acts != [] && Unlisting(s0, acts, |acts| - 1, pid)
    ensures Struck(s0, acts, pid)
  {
    assert forall m: nat :: |acts| - 1 < m ==> !Listing(s0, acts, m, pid);
  }

  lemma StruckStays(s0: State, acts: seq<Action>, pid: nat)
    requires acts != [] && Struck(s0, acts[..|acts| - 1], pid) && !Listing(s0, acts, |acts| - 1, pid)
    ensures Struck(s0, acts, pid)
  {
    var init := acts[..|acts| - 1];
    EarlierSteps(s0, acts, pid);
    var n: nat :| Unlisting(s0, init, n, pid) && forall m: nat :: n < m ==> !Listing(s0, init, m, pid);
    assert Unlisting(s0, acts, n, pid);
    forall m: nat | n < m ensures !Listing(s0, acts, m, pid) {
      assert !Listing(s0, init, m, pid);
    }
  }

  lemma StruckBefore(s0: State, acts: seq<Action>, pid: nat)
    requires acts != [] && Struck(s0, acts, pid) && !Unlisting(s0, acts, |acts| - 1, pid)
    ensures Struck(s0, acts[..|acts| - 1], pid) && !Listing(s0, acts, |acts| - 1, pid)
  {
    var init := acts[..|acts| - 1];
    EarlierSteps(s0, acts, pid);
    var n: nat :| Unlisting(s0, acts, n, pid) && forall m: nat :: n < m ==> !Listing(s0, acts, m, pid);
    assert n < |acts| - 1;
    assert Unlisting(s0, init, n, pid);
    forall m: nat | n < m ensures !Listing(s0, init, m, pid) {
      assert !Listing(s0, acts, m, pid);
    }
  }

  /** What the last step of a run does to Struck. */
  lemma StruckStep(s0: State, acts: seq<Action>, pid: nat)
    requires acts != []
    ensures var m := Run(s0, acts[..|acts| - 1]);
            var a := acts[|acts| - 1];
            Struck(s0, acts, pid) <==>
            Unlists(m, a, pid) || (Struck(s0, acts[..|acts| - 1], pid) && !Lists(m, a, pid))
  {
    if Unlisting(s0, acts, |acts| - 1, pid) {
      StruckNow(s0, acts, pid);
    } else if Struck(s0, acts, pid) {
      StruckBefore(s0, acts, pid);
    } else if Struck(s0, acts[..|acts| - 1], pid) && !Listing(s0, acts, |acts| - 1, pid) {
      StruckStays(s0, acts, pid);
    }
  }

  /** In every run, hence in every state a crash can hit, with recycled pids or without: a child
      whose start returned is missing from the ledger exactly if its pid was struck and not written
      again since. */
  lemma {:induction false} LedgerMissesExactlyTheStruck(s0: State, acts: seq<Action>, i: nat)
    requires Boot(s0) && i < |Run(s0, acts).subs| && Run(s0, acts).subs[i].starting == Returned
    ensures Run(s0, acts).subs[i].pid !in Run(s0, acts).ledger <==> Struck(s0, acts, Run(s0, acts).subs[i].pid)
  {
    if acts != [] {
      var m := Run(s0, acts[..|acts| - 1]);
      var a := acts[|acts| - 1];
      var pid := Run(s0, acts).subs[i].pid;
      StepLedger(m, a, pid);
      StruckStep(s0, acts, pid);
      if i < |m.subs| && m.subs[i].starting == Returned {
        LedgerMissesExactlyTheStruck(s0, acts[..|acts| - 1], i);
        StepKeepsSub(m, a, i);
      } else {
        assert Lists(m, a, pid);
      }
    }
  }

  /** Some call of stop has found a subscription with this pid. */
  ghost predicate PidStopped(s: State, pid: nat) {
    exists k :: 0 <= k < |s.threads| && s.threads[k].isStop &&
      s.threads[k].sub < |s.subs| && s.subs[s.threads[k].sub].pid == pid
  }

  /** Only a stop call gets to strike a pid. */
  predicate StopsStrike(s: State) {
    forall k :: 0 <= k < |s.threads| && s.threads[k].pc.Unlist? ==> s.threads[k].isStop
  }

  lemma StepKeepsPidStopped(s: State, a: Action, pid: nat)
    requires PidStopped(s, pid)
    ensures PidStopped(Step(s, a), pid)
  {
    var k :| 0 <= k < |s.threads| && s.threads[k].isStop &&
             s.threads[k].sub < |s.subs| && s.subs[s.threads[k].sub].pid == pid;
    var j := s.threads[k].sub;
    StepKeepsSub(s, a, j);
    assert Step(s, a).threads[k].sub == j && Step(s, a).threads[k].isStop;
  }

  lemma {:induction false} StruckWasStopped(s0: State, acts: seq<Action>, pid: nat)
    requires Boot(s0)
    ensures StopsStrike(Run(s0, acts))
    ensures Struck(s0, acts, pid) ==> PidStopped(Run(s0, acts), pid)
  {
    if acts != [] {
      var m := Run(s0, acts[..|acts| - 1]);
      var a := acts[|acts| - 1];
      StruckWasStopped(s0, acts[..|acts| - 1], pid);
      StruckStep(s0, acts, pid);
      if Unlists(m, a, pid) {
        assert PidStopped(m, pid);
      }
      if PidStopped(m, pid) {
        StepKeepsPidStopped(m, a, pid);
      }
    }
  }

  /** So each child whose start returned is listed as long as nobody has called stop on a
      subscription with its pid. */
  lemma LedgerCoversChildren(s0: State, acts: seq<Action>, i: nat)
    requires Boot(s0) && i < |Run(s0, acts).subs| && Run(s0, acts).subs[i].starting == Returned
    requires !PidStopped(Run(s0, acts), Run(s0, acts).subs[i].pid)
    ensures Run(s0, acts).subs[i].pid in Run(s0, acts).ledger
  {
    LedgerMissesExactlyTheStruck(s0, acts, i);
    StruckWasStopped(s0, acts, Run(s0, acts).subs[i].pid);
  }

  function StepsToUnlist(pc: Pc): nat {
    match pc
    case Killing => 5
    case Test => 4
    case Flag => 3
    case Clock => 2
    case Store(_) => 1
    case _ => 0
  }

  predicate OnlyMoves(acts: seq<Action>) { forall i :: 0 <= i < |acts| ==> acts[i].Move? }

  /** A stop call that goes on strikes its pid, whosever child has it now; the other subscriptions
      stay as they are. */
  lemma {:induction false} StopStrikesItsPid(s: State, k: nat) returns (acts: seq<Action>)
    requires k < |s.threads| && s.threads[k].isStop && s.threads[k].sub < |s.subs|
    requires !s.threads[k].pc.Ended? && !s.threads[k].pc.Reading?
    ensures var t := Run(s, acts);
            && s.subs[s.threads[k].sub].pid !in t.ledger && |t.subs| == |s.subs|
            && forall i :: 0 <= i < |s.subs| && i != s.threads[k].sub ==> t.subs[i] == s.subs[i]
    ensures OnlyMoves(acts)
    decreases StepsToUnlist(s.threads[k].pc)
  {
    var pid := s.subs[s.threads[k].sub].pid;
    var m := Step(s, Move(k));
    assert Run(s, []) == s;
    Extend(s, [], Move(k));
    if s.threads[k].pc.Unlist? {
      StepLedger(s, Move(k), pid);
      acts := [] + [Move(k)];
    } else {
      var rest := StopStrikesItsPid(m, k);
      RunOn(s, [] + [Move(k)], rest);
      acts := [] + [Move(k)] + rest;
    }
  }

  /** In any state: a stop call under way on one subscription costs every other child that has
      been given the same pid its entry, live and unstopped as it may be. */
  lemma RecycledPidIsLost(s: State, k: nat, i: nat)
    requires k < |s.threads| && s.threads[k].isStop && s.threads[k].sub < |s.subs|
    requires !s.threads[k].pc.Ended? && !s.threads[k].pc.Reading?
    requires i < |s.subs| && i != s.threads[k].sub && s.subs[i].pid == s.subs[s.threads[k].sub].pid
    ensures exists acts :: |Run(s, acts).subs| == |s.subs| && Run(s, acts).subs[i] == s.subs[i] &&
              s.subs[i].pid !in Run(s, acts).ledger
  {
    var acts := StopStrikesItsPid(s, k);
  }

  /** A stop call on a subscription with this pid is still going on. */
  ghost predicate StopUnderWay(s: State, pid: nat) {
    exists k: nat :: StoppingThread(s, k, pid)
  }

  predicate StoppingThread(s: State, k: nat, pid: nat) {
    k < |s.threads| && s.threads[k].isStop && !s.threads[k].pc.Ended? &&
    s.threads[k].sub < |s.subs| && s.subs[s.threads[k].sub].pid == pid
  }

  /** No stop call on a subscription with this pid begins in this run. */
  ghost predicate NoNewStop(s: State, acts: seq<Action>, pid: nat) {
    acts == [] ||
    (NoNewStop(s, acts[..|acts| - 1], pid) &&
     var m, a := Run(s, acts[..|acts| - 1]), acts[|acts| - 1];
     (a.Stop? && a.sub in m.registry && a.sub < |m.subs| ==> m.subs[a.sub].pid != pid))
  }

  /** Readers read and mark, stop calls kill, mark and strike. */
  predicate Shaped(s: State) {
    && (forall k :: 0 <= k < |s.threads| ==>
          s.threads[k].sub < |s.subs| &&
          (if s.threads[k].isStop then !s.threads[k].pc.Reading? else
            !s.threads[k].pc.Killing? && !s.threads[k].pc.Unlist?))
    && (forall i :: i in s.registry ==> i < |s.subs|)
  }

  lemma {:induction false} RunShaped(s: State, acts: seq<Action>)
    requires Boot(s)
    ensures Shaped(Run(s, acts))
  {
    if acts != [] {
      RunShaped(s, acts[..|acts| - 1]);
      StepShaped(Run(s, acts[..|acts| - 1]), acts[|acts| - 1]);
    }
  }

  lemma StepShaped(s: State, a: Action)
    requires Shaped(s)
    ensures Shaped(Step(s, a))
  {}

  lemma StepNoStop(s: State, a: Action, pid: nat)
    requires Shaped(s) && !StopUnderWay(s, pid) && pid in s.ledger
    requires a.Stop? && a.sub in s.registry && a.sub < |s.subs| ==> s.subs[a.sub].pid != pid
    ensures !StopUnderWay(Step(s, a), pid) && pid in Step(s, a).ledger
  {
    var t := Step(s, a);
    StepLedger(s, a, pid);
    assert a.Move? ==> !StoppingThread(s, a.thread, pid);
    forall k: nat ensures !StoppingThread(t, k, pid) {
      assert !StoppingThread(s, k, pid);
      if k < |s.threads| {
        StepKeepsSub(s, a, s.threads[k].sub);
      }
    }
  }

  lemma {:induction false} RunNoStop(s: State, acts: seq<Action>, pid: nat)
    requires Shaped(s) && !StopUnderWay(s, pid) && pid in s.ledger && NoNewStop(s, acts, pid)
    ensures Shaped(Run(s, acts)) && !StopUnderWay(Run(s, acts), pid) && pid in Run(s, acts).ledger
  {
    if acts != [] {
      RunNoStop(s, acts[..|acts| - 1], pid);
      StepNoStop(Run(s, acts[..|acts| - 1]), acts[|acts| - 1], pid);
      StepShaped(Run(s, acts[..|acts| - 1]), acts[|acts| - 1]);
    }
  }

  lemma {:induction false} MovesStopNothing(s: State, acts: seq<Action>, pid: nat)
    requires OnlyMoves(acts)
    ensures NoNewStop(s, acts, pid)
  {
    if acts != [] {
      MovesStopNothing(s, acts[..|acts| - 1], pid);
    }
  }

  /** In every reachable state, exactly: a listed pid stays listed in all continuations in which no
      stop call on it begins, if and only if none is still going on. */
  lemma ListedStaysListed(s0: State, acts: seq<Action>, pid: nat)
    requires Boot(s0) && pid in Run(s0, acts).ledger
    ensures (forall more :: NoNewStop(Run(s0, acts), more, pid) ==> pid in Run(Run(s0, acts), more).ledger)
            <==> !StopUnderWay(Run(s0, acts), pid)
  {
    var s := Run(s0, acts);
    RunShaped(s0, acts);
    if StopUnderWay(s, pid) {
      var k: nat :| StoppingThread(s, k, pid);
      var more := StopStrikesItsPid(s, k);
      MovesStopNothing(s, more, pid);
    } else {
      forall more | NoNewStop(s, more, pid) ensures pid in Run(s, more).ledger {
        RunNoStop(s, more, pid);
      }
    }
  }

  /** Two subscriptions whose children were given the same pid, and a stop call on the first. */
  function Recycled(s0: State, first: Sub, stop: Pc): State {
    s0.(subs := [first, Sub(7, true, Returned, false, None)], registry := {0, 1}, ledger := s0.ledger + [7] + [7],
        threads := [Thread(0, false, Reading), Thread(1, false, Reading), Thread(0, true, stop)])
  }

  /** The first child exits by itself, and the second is given its pid. */
  lemma PidRecycled(s0: State) returns (acts: seq<Action>)
    requires Boot(s0)
    ensures Run(s0, acts) == s0.(subs := [Sub(7, false, Returned, false, None), Sub(7, true, Spawned, false, None)],
                                 registry := {0}, ledger := s0.ledger + [7],
                                 threads := [Thread(0, false, Reading), Thread(1, false, Reading)])
  {
    acts := Started(s0, 7);
    Extend(s0, acts, Exit(0));
    acts := acts + [Exit(0)];
    assert Run(s0, acts).subs == [Sub(7, false, Returned, false, None)];
    Extend(s0, acts, Spawn(7));
    acts := acts + [Spawn(7)];
  }

  lemma FirstBeingStopped(s0: State) returns (acts: seq<Action>)
    requires Boot(s0)
    ensures Run(s0, acts) == Recycled(s0, Sub(7, false, Returned, false, None), Killing)
  {
    acts := PidRecycled(s0);
    Extend(s0, acts, Register(1));
    acts := acts + [Register(1)];
    assert Run(s0, acts).subs == [Sub(7, false, Returned, false, None), Sub(7, true, Registered, false, None)];
    Extend(s0, acts, List(1));
    acts := acts + [List(1)];
    assert Run(s0, acts).subs == [Sub(7, false, Returned, false, None), Sub(7, true, Returned, false, None)];
    Extend(s0, acts, Stop(0));
    acts := acts + [Stop(0)];
  }

  /** And that does happen: from boot, stopping a subscription whose child has exited by itself
      strikes the live child that now has its pid. */
  lemma RecycledPidUnlistsLiveChild(s0: State)
    requires Boot(s0)
    ensures exists acts :: var s := Run(s0, acts);
              |s.subs| == 2 && s.subs[1].live && s.subs[1].starting == Returned && !s.subs[1].stopped &&
              s.subs[1].pid !in s.ledger
  {
    var a := FirstBeingStopped(s0);
    var m := Run(s0, a);
    RecycledPidIsLost(m, 2, 1);
    var b :| |Run(m, b).subs| == |m.subs| && Run(m, b).subs[1] == m.subs[1] && m.subs[1].pid !in Run(m, b).ledger;
    RunOn(s0, a, b);
    assert Run(s0, a + b).subs[1].live;
  }

  // ---- recovery after a crash ------------------------------------------------------------------

  datatype Signal = Probe | Term | Kill

  /** The process table: who is alive, whose command line is a termux-* binary, and who does
      not die of SIGTERM within half a second. */
  class Processes {
    var alive: set<nat>
    const termux: set<nat>
    const hardy: set<nat>
    var sent: seq<(nat, Signal)>

    constructor (alive: set<nat>, termux: set<nat>, hardy: set<nat>)
      ensures this.alive == alive && this.termux == termux && this.hardy == hardy && sent == []
    {
      this.alive, this.termux, this.hardy, this.sent := alive, termux, hardy, [];
    }

    /** Signalling a dead pid raises OSError; signal 0 only probes. */
    method Send(pid: nat, sig: Signal) returns (ok: bool)
      modifies this
      ensures ok <==> pid in old(alive)
      ensures sent == if ok && !sig.Probe? then old(sent) + [(pid, sig)] else old(sent)
      ensures alive == if sig.Kill? || (sig.Term? && pid !in hardy) then old(alive) - {pid} else old(alive)
    {
      ok := pid in alive;
      if ok && !sig.Probe? {
        sent := sent + [(pid, sig)];
        if sig.Kill? || pid !in hardy {
          alive := alive - {pid};
        }
      }
    }
  }

  function PidSet(pids: seq<nat>): set<nat> { set p | p in pids }

  /** Who is alive after a recovery. */
  function Survivors(alive: set<nat>, pids: seq<nat>, termux: set<nat>): set<nat> { alive - (PidSet(pids) * termux) }

  /** Orphans in the order they are met, each once. */
  function Orphans(pids: seq<nat>, alive: set<nat>, termux: set<nat>): seq<nat> {
    if pids == [] then []
    else
      var p := pids[|pids| - 1];
      var before := Orphans(pids[..|pids| - 1], alive, termux);
      if p in alive && p in termux && p !in pids[..|pids| - 1] then before + [p] else before
  }

  /** The pidfile. */
  class Ledger {
    var pids: seq<nat>

    constructor (pids: seq<nat>)
      ensures this.pids == pids
    {
      this.pids := pids;
    }

    method Add(pid: nat)
      modifies this
      ensures pids == old(pids) + [pid]
    {
      pids := pids + [pid];
    }

    /** Every entry of the pid goes, not just one, and the others stay in order. */
    method Remove(pid: nat)
      modifies this
      ensures pids == Without(old(pids), pid)
      ensures exists at :: OthersInOrder(old(pids), pid, pids, at)
    {
      ghost var at := WithoutKeepsOrder(pids, pid);
      pids := Without(pids, pid);
    }

    /** Kills exactly the listed, live, recognised processes, signals no other, and empties
        the ledger. */
    method RecoverOrphans(os: Processes) returns (killed: seq<nat>)
      modifies this, os
      ensures pids == []
      ensures killed == Orphans(old(pids), old(os.alive), os.termux)
      ensures os.alive == Survivors(old(os.alive), old(pids), os.termux)
      ensures |old(os.sent)| <= |os.sent| && os.sent[..|old(os.sent)|] == old(os.sent)
      ensures forall n :: |old(os.sent)| <= n < |os.sent| ==>
                os.sent[n].0 in old(pids) && os.sent[n].0 in old(os.alive) && os.sent[n].0 in os.termux
    {
      killed := [];
      var n := 0;
      while n < |pids|
        invariant n <= |pids| && pids == old(pids)
        invariant killed == Orphans(pids[..n], old(os.alive), os.termux)
        invariant os.alive == old(os.alive) - (PidSet(pids[..n]) * os.termux)
        invariant |old(os.sent)| <= |os.sent| && os.sent[..|old(os.sent)|] == old(os.sent)
        invariant forall m :: |old(os.sent)| <= m < |os.sent| ==>
                    os.sent[m].0 in pids && os.sent[m].0 in old(os.alive) && os.sent[m].0 in os.termux
      {
        var pid := pids[n];
        assert pids[..n + 1][..n] == pids[..n];
        assert PidSet(pids[..n + 1]) == PidSet(pids[..n]) + {pid};
        n := n + 1;
        var there := os.Send(pid, Probe);
        if !there {
          continue;
        }
        if pid !in os.termux {
          continue;
        }
        var hit := os.Send(pid, Term);
        if hit {
          var survived := os.Send(pid, Probe);
          if survived {
            var _ := os.Send(pid, Kill);
          }
          killed := killed + [pid];
        }
      }
      assert pids[..n] == pids;
      pids := [];
    }
  }

  /** A crash in any state, then recovery on the ledger it left: of the termux-* children that a
      returned start had handed out, those survive whose pid was struck and not written again
      since; so none whose pid no stop call has named. */
  lemma CrashThenRecovery(s0: State, acts: seq<Action>, alive: set<nat>, termux: set<nat>, i: nat)
    requires Boot(s0) && i < |Run(s0, acts).subs| && Run(s0, acts).subs[i].starting == Returned
    requires Run(s0, acts).subs[i].pid in alive && Run(s0, acts).subs[i].pid in termux
    ensures var s := Run(s0, acts);
            && (s.subs[i].pid in Survivors(alive, s.ledger, termux) <==> Struck(s0, acts, s.subs[i].pid))
            && (!PidStopped(s, s.subs[i].pid) ==> s.subs[i].pid !in Survivors(alive, s.ledger, termux))
  {
    LedgerMissesExactlyTheStruck(s0, acts, i);
    StruckWasStopped(s0, acts, Run(s0, acts).subs[i].pid);
  }

  // ---- the manager as its callers see it -------------------------------------------------------

  ghost predicate Reaches(s: State, t: State) { exists acts :: t == Run(s, acts) }

  lemma ReachesSelf(s: State)
    ensures Reaches(s, s)
  {
    assert s == Run(s, []);
  }

  lemma ReachesStep(s: State, t: State, a: Action)
    requires Reaches(s, t)
    ensures Reaches(s, Step(t, a))
  {
    var acts :| t == Run(s, acts);
    Extend(s, acts, a);
  }

  /** Uninterrupted, the four pieces of a marking thread stop the subscription and record the
      present time, or change nothing. */
  lemma MarkAlone(s: State, k: nat)
    requires k < |s.threads| && s.threads[k].pc.Test? && s.threads[k].sub < |s.subs|
    ensures var th := s.threads[k];
            Reaches(s, s.(threads := s.threads[k := th.(pc := AfterMark(th))],
                          subs := s.subs[th.sub := MarkedStopped(s.subs[th.sub], s.now)]))
  {
    var th := s.threads[k];
    var sub := s.subs[th.sub];
    ReachesSelf(s);
    MarkPiece(s, s, k);
    if !sub.stopped {
      var marked := sub.(stopped := true);
      var s1 := MarkStage(s, k, Pc.Flag, sub);
      MarkPiece(s, s1, k);
      var s2 := MarkStage(s, k, Clock, marked);
      assert Moved(s1, k) == s2;
      MarkPiece(s, s2, k);
      var s3 := MarkStage(s, k, Store(s.now), marked);
      assert Moved(s2, k) == s3;
      MarkPiece(s, s3, k);
    }
  }

  /** s with thread k and its subscription at some stage of the mark. */
  function MarkStage(s: State, k: nat, pc: Pc, sub: Sub): State
    requires k < |s.threads| && s.threads[k].sub < |s.subs|
  {
    s.(threads := s.threads[k := s.threads[k].(pc := pc)], subs := s.subs[s.threads[k].sub := sub])
  }

  lemma MarkPiece(s0: State, s: State, k: nat)
    requires Reaches(s0, s) && k < |s.threads| && s.threads[k].sub < |s.subs|
    requires !s.threads[k].pc.Unlist?
    ensures var th := s.threads[k];
            Moved(s, k) == MarkStage(s, k, NextPc(th, s.subs[th.sub], s.now), Marked(th, s.subs[th.sub])) &&
            Reaches(s0, MarkStage(s, k, NextPc(th, s.subs[th.sub], s.now), Marked(th, s.subs[th.sub])))
  {
    ReachesStep(s0, s, Move(k));
  }

  /** Only the first mark records a stop time. */
  function MarkedStopped(sub: Sub, now: real): Sub {
    if sub.stopped then sub else sub.(stopped := true, stoppedAt := Some(now))
  }

  /** _subs is the set of registered positions; the objects themselves outlive it.  reaped is the
      machine's history. */
  class Manager {
    const pidfile: Ledger
    var subs: seq<Sub>
    var registry: set<nat>
    ghost var reaped: map<nat, real>

    constructor (pidfile: Ledger)
      ensures this.pidfile == pidfile && subs == [] && registry == {} && reaped == map[]
    {
      this.pidfile, subs, registry, reaped := pidfile, [], {}, map[];
    }

    /** The machine state with this manager and the given threads. */
    ghost function View(now: real, threads: seq<Thread>): State
      reads this, pidfile
    {
      State(now, subs, registry, pidfile.pids, threads, None, reaped)
    }

    /** One whole start: the machine's Spawn, Register and List in a row. */
    method Start(pid: nat, ghost now: real, ghost threads: seq<Thread>) returns (id: nat)
      modifies this, pidfile
      ensures id == |old(subs)| && subs == old(subs) + [Sub(pid, true, Returned, false, None)]
      ensures registry == old(registry) + {id} && pidfile.pids == old(pidfile.pids) + [pid]
      ensures Reaches(old(View(now, threads)), View(now, threads + [Thread(id, false, Reading)]))
    {
      id := |subs|;
      ghost var s0 := View(now, threads);
      ghost var running := threads + [Thread(id, false, Reading)];
      ReachesSelf(s0);
      ReachesStep(s0, s0, Spawn(pid));
      subs := subs + [Sub(pid, true, Spawned, false, None)];
      assert Step(s0, Spawn(pid)) == View(now, running);
      ReachesStep(s0, View(now, running), Register(id));
      registry := registry + {id};
      subs := subs[id := subs[id].(starting := Registered)];
      ReachesStep(s0, View(now, running), List(id));
      pidfile.Add(pid);
      subs := subs[id := subs[id].(starting := Returned)];
    }

    method MarkStopped(id: nat, now: real)
      requires id < |subs|
      modifies this`subs
      ensures subs == old(subs)[id := MarkedStopped(old(subs)[id], now)]
    {
      if !subs[id].stopped {
        subs := subs[id := subs[id].(stopped := true)];
        subs := subs[id := subs[id].(stoppedAt := Some(now))];
      }
    }

    /** The end of the reader thread k, which stands in front of its mark. */
    method ReaderEnds(id: nat, now: real, ghost threads: seq<Thread>, ghost k: nat)
      requires id < |subs| && k < |threads| && threads[k] == Thread(id, false, Test)
      modifies this`subs
      ensures subs == old(subs)[id := MarkedStopped(old(subs)[id], now)]
      ensures Reaches(old(View(now, threads)), View(now, threads[k := Thread(id, false, Ended)]))
    {
      MarkAlone(View(now, threads), k);
      MarkStopped(id, now);
    }

    /** One whole stop.  An unknown id raises a KeyError and changes nothing; a known one is no
        longer live, is stopped, and has every ledger entry of its pid struck. */
    method Stop(id: nat, now: real, ghost threads: seq<Thread>) returns (found: bool)
      requires forall i :: i in registry ==> i < |subs|
      modifies this`subs, pidfile
      ensures found <==> id in registry
      ensures !found ==> subs == old(subs) && pidfile.pids == old(pidfile.pids)
      ensures found ==> subs == old(subs)[id := MarkedStopped(old(subs)[id].(live := false), now)] &&
                        pidfile.pids == Without(old(pidfile.pids), old(subs)[id].pid)
      ensures found ==> Reaches(old(View(now, threads)), View(now, threads + [Thread(id, true, Ended)]))
    {
      if id !in registry {
        return false;
      }
      ghost var s0 := View(now, threads);
      ghost var k := |threads|;
      ReachesSelf(s0);
      ReachesStep(s0, s0, Action.Stop(id));
      ReachesStep(s0, View(now, threads + [Thread(id, true, Killing)]), Move(k));
      if subs[id].live {
        subs := subs[id := subs[id].(live := false)];
      }
      StopTail(s0, now, threads, id);
      MarkStopped(id, now);
      pidfile.Remove(subs[id].pid);
      found := true;
    }

    /** The machine's way from the mark of a stop call to its end. */
    lemma StopTail(s0: State, now: real, threads: seq<Thread>, id: nat)
      requires id < |subs| && Reaches(s0, View(now, threads + [Thread(id, true, Test)]))
      ensures Reaches(s0, View(now, threads + [Thread(id, true, Ended)])
                            .(subs := subs[id := MarkedStopped(subs[id], now)],
                              ledger := Without(pidfile.pids, subs[id].pid)))
    {
      var k := |threads|;
      var s1 := View(now, threads + [Thread(id, true, Test)]);
      MarkAlone(s1, k);
      var after := MarkedStopped(subs[id], now);
      var s2 := s1.(threads := threads + [Thread(id, true, Unlist)], subs := subs[id := after]);
      assert s1.threads[k := Thread(id, true, Unlist)] == s2.threads;
      assert Reaches(s1, s2);
      ReachesOn(s0, s1, s2);
      ReachesStep(s0, s2, Move(k));
      assert s2.subs[id := after] == s2.subs;
      assert s2.threads[k := Thread(id, true, Ended)] == threads + [Thread(id, true, Ended)];
    }

    /** One round of the reaper, which read the clock at now: exactly the due subscriptions go. */
    method Reap(now: real, ghost threads: seq<Thread>)
      requires forall i :: i in registry ==> i < |subs|
      modifies this`registry, this`reaped
      ensures forall i ::
                i in registry <==>
                i in old(registry) &&
                !(subs[i].stopped && subs[i].stoppedAt.Some? && now - subs[i].stoppedAt.value > 60.0)
      ensures Reaches(old(View(now, threads)), View(now, threads))
    {
      ghost var s0 := View(now, threads);
      var dead := set i | i in registry && i < |subs| && Due(subs[i], now);
      ghost var s1 := Step(s0, Wake);
      assert dead == DueSet(s1, now);
      ReachesSelf(s0);
      ReachesStep(s0, s0, Wake);
      ReachesStep(s0, s1, Action.Reap);
      reaped := reaped + map i | i in dead :: subs[i].stoppedAt.value;
      ghost var all, removed := dead, reaped;
      while dead != {}
        invariant dead <= all <= old(registry) && reaped == removed
        invariant registry == old(registry) - (all - dead)
        decreases |dead|
      {
        var id :| id in dead;
        registry := registry - {id};
        dead := dead - {id};
      }
      assert View(now, threads) == Step(s1, Action.Reap);
    }
  }

  lemma ReachesOn(s: State, t: State, u: State)
    requires Reaches(s, t) && Reaches(t, u)
    ensures Reaches(s, u)
  {
    var a :| t == Run(s, a);
    var b :| u == Run(t, b);
    RunOn(s, a, b);
  }
}
