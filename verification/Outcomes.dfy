/** What a process, or Popen, makes of a verb: the data, the error text and the standard error that
    every caller of it goes by, in terms of the process itself (dispatch/tier_a.py,
    dispatch/tier_b.py). */
module Outcomes {
  import opened Common
  import A = Argv
  import C = Catalog
  import T = TimeoutStage

  /** A run that ended well gave data. */
  ghost predicate Gave(v: C.Verb, p: C.Process, data: C.Data) {
    && p.Exited? && p.code == 0
    && match v.parser
       case NoParser => data == C.OkOnly
       case PlainText => data == C.OkText(p.stdout)
       case Json => data.OkJson? && (if p.stdout == "" then data.json == Null else p.json == Some(data.json))
       case _ => false
  }

  ghost predicate FirstOf(s: string, whole: string, n: nat) {
    s <= whole && |s| <= n && (|s| == n || s == whole)
  }

  /** program is what the first part of the command says. */
  ghost predicate IsProgram(v: C.Verb, args: Args, program: string) {
    v.command != [] && A.Spells(v.command[0], args, program)
  }

  /** A run that failed says text, the verb's name in front, and has stderr: it took longer than it
      may, or the program was not there, or its exit code was not 0, or its output did not decode. */
  ghost predicate Failed(v: C.Verb, args: Args, p: C.Process, text: string, stderr: string) {
    match p
    case TimedOut =>
      stderr == "" &&
      (exists limit :: A.Decimal(limit, if v.timeout.Some? then v.timeout.value else 30) &&
                       text == v.name + ": " + ("timed out after " + limit + "s"))
    case NotFound =>
      stderr == "" &&
      (exists program :: IsProgram(v, args, program) &&
                         text == v.name + ": " + ("command not found: " + program + " (is Termux:API installed?)"))
    case Exited(code, stdout, err, json) =>
      if code != 0 then stderr == err && exists n :: A.Integer(n, code) && text == v.name + ": " + ("exit code " + n)
      else v.parser.Json? && stdout != "" && json.None? && FirstOf(stderr, stdout, 500) &&
           text == v.name + ": " + "expected JSON stdout, got unparseable output"
    case _ => false
  }

  /** The run timed out, or its error merely says so: through the verb's name, or the name of the
      program that is not there. */
  ghost predicate SaysTimedOut(v: C.Verb, args: Args, p: C.Process) {
    p.TimedOut? || T.Mentions(v.name) ||
    (p.NotFound? && exists program :: IsProgram(v, args, program) && T.Mentions(program))
  }

  lemma FailsOnce(v: C.Verb, args: Args, p: C.Process, text: string, stderr: string, text': string, stderr': string)
    requires Failed(v, args, p, text, stderr) && Failed(v, args, p, text', stderr')
    ensures text == text' && stderr == stderr'
  {
    match p
    case TimedOut =>
      var limit := if v.timeout.Some? then v.timeout.value else 30;
      forall s: string ensures A.Decimal(s, limit) ==> s == C.Digits(limit) { A.DecimalExact(s, limit); }
    case NotFound =>
      forall s: string ensures IsProgram(v, args, s) ==> C.FormatPart(v.command[0], args) == Ok(s) {
        if v.command != [] { A.PartSpelled(v.command[0], args, s); }
      }
    case Exited(code, _, _, _) =>
      forall s: string ensures A.Integer(s, code) ==> s == C.Printed(Number(code)) { A.PrintsExact(Number(code), s); }
    case _ =>
  }

  lemma TierAFails(v: C.Verb, args: Args, p: C.Process)
    requires v.tier == C.TierA && C.ArgCheck(v, args).None? && v.command != []
    requires C.RunTierA(v, args, p).ExecutionError?
    ensures Failed(v, args, p, C.RunTierA(v, args, p).text, C.RunTierA(v, args, p).stderr)
  {
    match p
    case TimedOut => A.DigitsAreDecimal(if v.timeout.Some? then v.timeout.value else 30);
    case NotFound =>
      var program := C.BuildArgv(v, args).value[0];
      A.PartSpelled(v.command[0], args, program);
      assert IsProgram(v, args, program);
    case Exited(code, _, _, _) => A.PrintsExact(Number(code), C.Printed(Number(code)));
    case _ =>
  }

  /** A Tier A run of a loaded verb on valid arguments: it succeeds exactly with the data that the
      process gave, fails exactly with the text and the standard error of its failure, and passes
      on exactly the exceptions that the call of the process raises. */
  lemma TierAResult(v: C.Verb, args: Args, p: C.Process)
    requires C.Sound(v) && v.tier == C.TierA && A.Valid(v, args)
    ensures forall data :: C.RunTierA(v, args, p) == C.Success(data) <==> Gave(v, p, data)
    ensures forall text, stderr :: C.RunTierA(v, args, p) == C.ExecutionError(text, stderr) <==>
                                   Failed(v, args, p, text, stderr)
    ensures forall text :: C.RunTierA(v, args, p) == C.ValueFailure(text) <==> p == C.Rejected(text)
    ensures C.RunTierA(v, args, p) == C.Uncaught <==> p.Crashed?
    ensures !C.RunTierA(v, args, p).BadCall?
  {
    A.ArgCheckExact(v, args);
    var r := C.RunTierA(v, args, p);
    forall text, stderr ensures r == C.ExecutionError(text, stderr) <==> Failed(v, args, p, text, stderr) {
      if r.ExecutionError? {
        TierAFails(v, args, p);
        if Failed(v, args, p, text, stderr) {
          FailsOnce(v, args, p, text, stderr, r.text, r.stderr);
        }
      }
    }
  }

  /** The error of a failed run holds the mark by which it is taken for a timeout exactly if the
      run timed out or a name says so. */
  lemma MarkedIffSaysTimedOut(v: C.Verb, args: Args, p: C.Process, text: string, stderr: string)
    requires C.Sound(v) && v.tier == C.TierA && A.Valid(v, args) && Failed(v, args, p, text, stderr)
    ensures Contains(text, "timed out") <==> SaysTimedOut(v, args, p)
  {
    TierAResult(v, args, p);
    assert C.RunTierA(v, args, p) == C.ExecutionError(text, stderr);
    T.TimeoutIffTimedOutOrNamedSo(v, args, p);
    var program := C.BuildArgv(v, args).value[0];
    forall s: string ensures IsProgram(v, args, s) <==> s == program { A.PartSpelled(v.command[0], args, s); }
  }

  // ---- watches -----------------------------------------------------------------------------------------

  ghost predicate Complains(v: C.Verb, args: Args, head: string, named: bool, text: string) {
    if named then exists program :: IsProgram(v, args, program) && text == head + (": " + C.Repr(program))
    else text == head
  }

  /** The OSError of Popen says text; about the program file, it names it. */
  ghost predicate SpawnFails(v: C.Verb, args: Args, w: C.Spawn, text: string) {
    w.SpawnFailed? &&
    (exists errno :: A.Decimal(errno, w.errno) &&
                     Complains(v, args, "[Errno " + errno + "] " + w.reason, w.named, text))
  }

  /** A watch of a loaded verb on valid arguments starts, fails or breaks exactly as Popen does. */
  lemma WatchResult(v: C.Verb, args: Args, w: C.Spawn)
    requires C.Sound(v) && v.tier == C.TierB && A.Valid(v, args)
    ensures forall id :: C.RunWatch(v, args, w) == C.Started(id) <==> w == C.Spawned(id)
    ensures forall text :: C.RunWatch(v, args, w) == C.OsError(text) <==> SpawnFails(v, args, w, text)
    ensures C.RunWatch(v, args, w).WatchBroken? <==> w.SpawnCrashed?
  {
    A.ArgCheckExact(v, args);
    if w.SpawnFailed? {
      var program := C.BuildArgv(v, args).value[0];
      forall s: string ensures IsProgram(v, args, s) <==> s == program { A.PartSpelled(v.command[0], args, s); }
      forall s: string ensures A.Decimal(s, w.errno) <==> s == C.Digits(w.errno) { A.DecimalExact(s, w.errno); }
      var said := C.OsErrorText(w.errno, w.reason, w.named, program);
      assert C.RunWatch(v, args, w) == C.OsError(said);
      var head := "[Errno " + C.Digits(w.errno) + "] " + w.reason;
      assert !w.named ==> head + "" == head;
      assert Complains(v, args, head, w.named, said);
      assert SpawnFails(v, args, w, said);
    }
  }
}
