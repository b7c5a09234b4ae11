/** Verbs and the catalog: loading, argument checks, argv, the stdin hook and its redaction
    (dispatch/catalog.py), and one Tier A execution (dispatch/tier_a.py). */
module Catalog {
  import opened Common

  datatype Tier = TierA | TierB | OtherTier(tierName: string)
  datatype Direction = Perceive | Act | OtherDirection(directionName: string)
  datatype Risk = NoRisk | Low | Medium | High | OtherRisk(riskName: string)
  datatype Parser = Json | PlainText | NoParser | JsonStream | OtherParser(parserName: string)

  /** One piece of an argv template: literal text or `{name}`. */
  datatype Piece = Literal(text: string) | Placeholder(name: string)
  type Template = seq<Piece>

  datatype Verb = Verb(
    name: string, direction: Direction, tier: Tier, risk: Risk, command: seq<Template>,
    args: seq<string>, parser: Parser, timeout: Option<nat>, stdin: Option<string>)
  {
    /** An empty stdin name counts as no hook. */
    predicate HasStdin() { stdin.Some? && stdin.value != "" }
  }

  // ---- printing values -----------------------------------------------------------------------

  function Digits(n: nat): string {
    if n < 10 then [('0' as int + n) as char] else Digits(n / 10) + [('0' as int + n % 10) as char]
  }

  function Printed(v: Value): string {
    match v
    case Text(s) => s
    case Number(n) => if n < 0 then "-" + Digits(-n) else Digits(n)
    case Flag(b) => if b then "True" else "False"
    case Null => "None"
    case Nested(p) => p
  }

  const HEX: string := "0123456789abcdef"

  /** One character inside a repr in the given quotes. */
  function EscapedChar(c: char, quote: char): string {
    if c == quote || c == '\\' then ['\\', c]
    else if c == '\n' then ['\\', 'n']
    else if c == '\r' then ['\\', 'r']
    else if c == '\t' then ['\\', 't']
    else if c < ' ' || c == '\U{7F}' then ['\\', 'x', HEX[c as int / 16], HEX[c as int % 16]]
    else [c]
  }

  function Escaped(s: string, quote: char): string {
    if s == "" then "" else EscapedChar(s[0], quote) + Escaped(s[1..], quote)
  }

  function QuoteFor(s: string): char { if '\'' in s && '"' !in s then '"' else '\'' }

  /** repr of a string. */
  function Repr(s: string): string { [QuoteFor(s)] + Escaped(s, QuoteFor(s)) + [QuoteFor(s)] }

  // ---- arguments -------------------------------------------------------------------------------

  /** UnknownPlaceholder is a KeyError, which no caller catches; the others are ValueErrors. */
  datatype ArgError =
    | Missing(names: seq<string>) | Unexpected(extra: set<string>) | UnknownPlaceholder(name: string) | StdinNotText

  predicate IsValueError(e: ArgError) { !e.UnknownPlaceholder? }

  function MissingArgs(wanted: seq<string>, supplied: Args): seq<string> {
    if wanted == [] then []
    else (if wanted[0] in supplied then [] else [wanted[0]]) + MissingArgs(wanted[1..], supplied)
  }

  function FormatPart(part: Template, supplied: Args): Result<string, ArgError> {
    if part == [] then Ok("")
    else
      var rest := FormatPart(part[1..], supplied);
      match part[0]
      case Literal(t) => if rest.Ok? then Ok(t + rest.value) else rest
      case Placeholder(n) =>
        if n !in supplied then Err(UnknownPlaceholder(n))
        else if rest.Ok? then Ok(Printed(supplied[n]) + rest.value) else rest
  }

  function FormatAll(command: seq<Template>, supplied: Args): Result<seq<string>, ArgError> {
    if command == [] then Ok([])
    else
      var first := FormatPart(command[0], supplied);
      if first.Err? then Err(first.error)
      else
        var rest := FormatAll(command[1..], supplied);
        if rest.Err? then rest else Ok([first.value] + rest.value)
  }

  function BuildArgv(v: Verb, supplied: Args): Result<seq<string>, ArgError> {
    var missing := MissingArgs(v.args, supplied);
    var extra := set k | k in supplied && k !in v.args;
    if missing != [] then Err(Missing(missing))
    else if extra != {} then Err(Unexpected(extra))
    else FormatAll(v.command, supplied)
  }

  /** What is piped to the process, if anything. */
  function StdinPayload(v: Verb, supplied: Args): Result<Option<string>, ArgError> {
    if !v.HasStdin() then Ok(None)
    else if v.stdin.value !in supplied then Err(UnknownPlaceholder(v.stdin.value))
    else match supplied[v.stdin.value]
      case Null => Ok(Some(""))
      case Text(s) => Ok(Some(s))
      case _ => Err(StdinNotText)
  }

  /** The two checks a request passes before the gate. */
  function ArgCheck(v: Verb, supplied: Args): Option<ArgError> {
    var argv := BuildArgv(v, supplied);
    if argv.Err? then Some(argv.error)
    else
      var body := StdinPayload(v, supplied);
      if body.Err? then Some(body.error) else None
  }

  function Redacted(v: Value): Value {
    Text("<" + Digits(if v.Text? then |v.s| else 0) + " chars>")
  }

  /** What the audit log and the dialog may see. */
  function PublicArgs(v: Verb, supplied: Args): Args {
    if v.HasStdin() && v.stdin.value in supplied
    then supplied[v.stdin.value := Redacted(supplied[v.stdin.value])]
    else supplied
  }

  // ---- loading -----------------------------------------------------------------------------------

  /** A verbs.yaml entry.  An outer None marks a key that is absent, an inner one a value that is
      not a list of strings; args, timeout and stdin may be absent. */
  datatype Spec = Spec(
    tier: Option<Tier>, risk: Option<Risk>, parser: Option<Parser>, direction: Option<Direction>,
    command: Option<Option<seq<Template>>>, args: Option<Option<seq<string>>>, timeout: Option<nat>,
    stdin: Option<string>)

  /** MissingKey is a KeyError, the others are ValueErrors. */
  datatype Fault =
    | MissingKey(key: string)
    | BadTier | BadDirection | BadRisk | BadParser | StreamOnTierA | BadCommand | BadArgs | BadStdin

  datatype LoadError = BadVerb(name: string, fault: Fault) | BadConfirm(unknown: set<Risk>)

  datatype Catalog = Catalog(verbs: map<string, Verb>, confirm: set<Risk>)
  {
    predicate RequiresConfirmation(name: string)
      requires name in verbs
    {
      verbs[name].risk in confirm
    }
  }

  /** The first mandatory key the entry lacks, in the order they are read. */
  function LackingKey(s: Spec): Option<string> {
    if s.tier.None? then Some("tier")
    else if s.risk.None? then Some("risk")
    else if s.parser.None? then Some("parser")
    else if s.direction.None? then Some("direction")
    else if s.command.None? then Some("command")
    else None
  }

  /** An absent args list is empty. */
  function DeclaredArgs(s: Spec): Option<seq<string>> {
    if s.args.None? then Some([]) else s.args.value
  }

  /** The first check the entry fails, in the order of the checks. */
  function FaultOf(s: Spec): Option<Fault> {
    var lacking := LackingKey(s);
    var names := DeclaredArgs(s);
    if lacking.Some? then Some(MissingKey(lacking.value))
    else if s.tier.value.OtherTier? then Some(BadTier)
    else if s.direction.value.OtherDirection? then Some(BadDirection)
    else if s.risk.value.OtherRisk? then Some(BadRisk)
    else if s.parser.value.OtherParser? then Some(BadParser)
    else if s.tier.value == TierA && s.parser.value == JsonStream then Some(StreamOnTierA)
    else if s.command.value.None? || s.command.value.value == [] then Some(BadCommand)
    else if names.None? then Some(BadArgs)
    else if s.stdin.Some? && s.stdin.value !in names.value then Some(BadStdin)
    else None
  }

  function VerbOf(name: string, s: Spec): Verb
    requires FaultOf(s).None?
  {
    Verb(name, s.direction.value, s.tier.value, s.risk.value, s.command.value.value, DeclaredArgs(s).value,
         s.parser.value, s.timeout, s.stdin)
  }

  /** The checks of an entry, in the order in which they are made. */
  const CHECKS: seq<Fault> :=
    [MissingKey("tier"), MissingKey("risk"), MissingKey("parser"), MissingKey("direction"), MissingKey("command"),
     BadTier, BadDirection, BadRisk, BadParser, StreamOnTierA, BadCommand, BadArgs, BadStdin]

  /** The entry fails this check, whatever it does to the others. */
  predicate Fails(s: Spec, f: Fault) {
    match f
    case MissingKey(key) =>
      || (key == "tier" && s.tier.None?) || (key == "risk" && s.risk.None?) || (key == "parser" && s.parser.None?)
      || (key == "direction" && s.direction.None?) || (key == "command" && s.command.None?)
    case BadTier => s.tier.Some? && s.tier.value !in {TierA, TierB}
    case BadDirection => s.direction.Some? && s.direction.value !in {Perceive, Act}
    case BadRisk => s.risk.Some? && s.risk.value !in {NoRisk, Low, Medium, High}
    case BadParser => s.parser.Some? && s.parser.value !in {Json, PlainText, NoParser, JsonStream}
    case StreamOnTierA => s.tier == Some(TierA) && s.parser == Some(JsonStream)
    case BadCommand => s.command.Some? && (s.command.value.None? || s.command.value.value == [])
    case BadArgs => s.args == Some(None)
    case BadStdin => s.stdin.Some? && s.args != Some(None) && (s.args.None? || s.stdin.value !in s.args.value.value)
  }

  ghost predicate Passes(s: Spec) { forall k :: 0 <= k < |CHECKS| ==> !Fails(s, CHECKS[k]) }

  /** f is the first check that the entry fails. */
  ghost predicate FailsFirst(s: Spec, f: Fault) {
    exists k :: 0 <= k < |CHECKS| && CHECKS[k] == f && Fails(s, f) && forall j :: 0 <= j < k ==> !Fails(s, CHECKS[j])
  }

  function PlaceOf(f: Fault): nat {
    match f
    case MissingKey(key) =>
      if key == "tier" then 0 else if key == "risk" then 1 else if key == "parser" then 2
      else if key == "direction" then 3 else 4
    case BadTier => 5
    case BadDirection => 6
    case BadRisk => 7
    case BadParser => 8
    case StreamOnTierA => 9
    case BadCommand => 10
    case BadArgs => 11
    case BadStdin => 12
  }

  lemma FaultIsTheFirst(s: Spec)
    ensures FaultOf(s).None? <==> Passes(s)
    ensures FaultOf(s).Some? ==> FailsFirst(s, FaultOf(s).value)
  {
    if FaultOf(s).None? {
      forall k | 0 <= k < |CHECKS| ensures !Fails(s, CHECKS[k]) {}
    } else {
      var k := PlaceOf(FaultOf(s).value);
      assert CHECKS[k] == FaultOf(s).value && Fails(s, CHECKS[k]);
      assert forall j :: 0 <= j < k ==> !Fails(s, CHECKS[j]);
    }
  }

  /** The verb has just the fields of its entry; an absent args list is empty. */
  predicate IsEntry(v: Verb, name: string, s: Spec) {
    && v.name == name && s.direction == Some(v.direction) && s.tier == Some(v.tier) && s.risk == Some(v.risk)
    && s.command == Some(Some(v.command)) && s.parser == Some(v.parser) && s.timeout == v.timeout && s.stdin == v.stdin
    && (if s.args.None? then v.args == [] else s.args == Some(Some(v.args)))
  }

  function UnknownRisks(confirm: set<Risk>): set<Risk> { set r | r in confirm && r.OtherRisk? }

  ghost predicate UniqueNames(raw: seq<(string, Spec)>) {
    forall i, j :: 0 <= i < j < |raw| ==> raw[i].0 != raw[j].0
  }

  /** What Load promises of each verb, in terms of the verb. */
  predicate Sound(v: Verb) {
    && (v.tier == TierA || v.tier == TierB)
    && (v.direction == Perceive || v.direction == Act)
    && !v.risk.OtherRisk? && !v.parser.OtherParser?
    && (v.tier == TierA ==> v.parser != JsonStream)
    && v.command != [] && (v.stdin.Some? ==> v.stdin.value in v.args)
  }

  ghost predicate Loaded(c: Catalog) {
    forall n :: n in c.verbs ==> c.verbs[n].name == n && Sound(c.verbs[n])
  }

  /** One entry. */
  method LoadEntry(name: string, spec: Spec) returns (r: Result<Verb, Fault>)
    ensures r.Ok? <==> Passes(spec)
    ensures r.Ok? ==> IsEntry(r.value, name, spec) && Sound(r.value)
    ensures r.Err? ==> FailsFirst(spec, r.error)
  {
    var fault := FaultOf(spec);
    FaultIsTheFirst(spec);
    if fault.Some? {
      return Err(fault.value);
    }
    r := Ok(VerbOf(name, spec));
  }

  /** raw: the entries in file order; the keys of a mapping are unique. */
  method Load(raw: seq<(string, Spec)>, confirm: set<Risk>) returns (r: Result<Catalog, LoadError>)
    requires UniqueNames(raw)
    ensures r.Ok? <==> (forall i :: 0 <= i < |raw| ==> Passes(raw[i].1)) && forall x :: x in confirm ==> !x.OtherRisk?
    ensures r.Ok? ==> r.value.confirm == confirm && r.value.verbs.Keys == (set i | 0 <= i < |raw| :: raw[i].0)
    ensures r.Ok? ==> forall i :: 0 <= i < |raw| ==>
              && raw[i].0 in r.value.verbs && IsEntry(r.value.verbs[raw[i].0], raw[i].0, raw[i].1)
              && (r.value.RequiresConfirmation(raw[i].0) <==> raw[i].1.risk.Some? && raw[i].1.risk.value in confirm)
    ensures r.Ok? ==> Loaded(r.value)
    ensures r.Err? && r.error.BadVerb? ==>
              exists i :: 0 <= i < |raw| && raw[i].0 == r.error.name && FailsFirst(raw[i].1, r.error.fault) &&
                          forall j :: 0 <= j < i ==> Passes(raw[j].1)
    ensures r.Err? && r.error.BadConfirm? ==>
              && (forall i :: 0 <= i < |raw| ==> Passes(raw[i].1))
              && r.error.unknown != {} && forall x :: x in r.error.unknown <==> x in confirm && x.OtherRisk?
  {
    var verbs: map<string, Verb> := map[];
    for n := 0 to |raw|
      invariant forall i :: 0 <= i < n ==> Passes(raw[i].1)
      invariant verbs.Keys == set i | 0 <= i < n :: raw[i].0
      invariant forall i :: 0 <= i < n ==> raw[i].0 in verbs && IsEntry(verbs[raw[i].0], raw[i].0, raw[i].1)
      invariant forall name :: name in verbs ==> verbs[name].name == name && Sound(verbs[name])
    {
      var (name, spec) := raw[n];
      var verb := LoadEntry(name, spec);
      if verb.Err? {
        assert !Passes(raw[n].1);
        return Err(BadVerb(name, verb.error));
      }
      verbs := verbs[name := verb.value];
    }
    var unknown := UnknownRisks(confirm);
    if unknown != {} {
      assert exists x :: x in confirm && x.OtherRisk? by {
        var x :| x in unknown;
      }
      return Err(BadConfirm(unknown));
    }
    forall x | x in confirm ensures !x.OtherRisk? {
      assert x !in unknown;
    }
    r := Ok(Catalog(verbs, confirm));
  }

  /** Every placeholder names an argument. */
  predicate PlaceholdersBound(v: Verb) {
    forall i, j :: 0 <= i < |v.command| && 0 <= j < |v.command[i]| && v.command[i][j].Placeholder? ==>
      v.command[i][j].name in v.args
  }

  // ---- running a verb --------------------------------------------------------------------------------

  /** What the process did.  stdout is already stripped; json is json.loads of it.  Rejected: the
      call itself raised a ValueError, as for a NUL in an argument.  Crashed: it raised something
      else, as for a program that may not be executed or output that does not decode. */
  datatype Process =
    | TimedOut | NotFound | Exited(code: int, stdout: string, stderr: string, json: Option<Value>)
    | Rejected(text: string) | Crashed

  datatype Data = OkOnly | OkText(text: string) | OkJson(json: Value)

  /** BadCall and ValueFailure are ValueErrors, but for an unknown placeholder; Uncaught is not. */
  datatype RunResult =
    | Success(data: Data)
    | ExecutionError(text: string, stderr: string)
    | BadCall(tier: bool, parser: bool, args: Option<ArgError>)
    | ValueFailure(text: string)
    | Uncaught

  const DEFAULT_TIMEOUT: nat := 30

  function Upto(s: string, n: nat): string { if |s| <= n then s else s[..n] }

  /** ExecutionError puts the verb's name before the message. */
  function ErrorText(name: string, message: string): string { name + ": " + message }

  function Parse(v: Verb, stdout: string, json: Option<Value>): RunResult {
    match v.parser
    case NoParser => Success(OkOnly)
    case PlainText => Success(OkText(stdout))
    case Json =>
      if stdout == "" then Success(OkJson(Null))
      else if json.Some? then Success(OkJson(json.value))
      else ExecutionError(ErrorText(v.name, "expected JSON stdout, got unparseable output"), Upto(stdout, 500))
    case _ => BadCall(false, true, None)
  }

  /** argv[0] of a built command line. */
  function ProgramOf(argv: seq<string>): string { if argv == [] then "" else argv[0] }

  function RunTierA(v: Verb, supplied: Args, p: Process): RunResult {
    if v.tier != TierA then BadCall(true, false, None)
    else
      var argv := BuildArgv(v, supplied);
      var body := StdinPayload(v, supplied);
      if argv.Err? then BadCall(false, false, Some(argv.error))
      else if body.Err? then BadCall(false, false, Some(body.error))
      else match p
        case TimedOut =>
          var limit := if v.timeout.Some? then v.timeout.value else DEFAULT_TIMEOUT;
          ExecutionError(ErrorText(v.name, "timed out after " + Digits(limit) + "s"), "")
        case NotFound =>
          ExecutionError(ErrorText(v.name,
                                    "command not found: " + ProgramOf(argv.value) + " (is Termux:API installed?)"), "")
        case Exited(code, stdout, stderr, json) =>
          if code != 0 then ExecutionError(ErrorText(v.name, "exit code " + Printed(Number(code))), stderr)
          else Parse(v, stdout, json)
        case Rejected(text) => ValueFailure(text)
        case Crashed => Uncaught
  }

  /** What Popen did for a watch.  An OSError about the program file names it.  SpawnCrashed:
      anything but an OSError. */
  datatype Spawn = Spawned(id: string) | SpawnFailed(errno: nat, reason: string, named: bool) | SpawnCrashed

  datatype WatchResult = Started(id: string) | OsError(text: string) | WatchBroken

  /** str of an OSError. */
  function OsErrorText(errno: nat, reason: string, named: bool, program: string): string {
    "[Errno " + Digits(errno) + "] " + reason + if named then ": " + Repr(program) else ""
  }

  /** The start of a subscription as far as its caller sees it. */
  function RunWatch(v: Verb, supplied: Args, w: Spawn): WatchResult {
    var argv := BuildArgv(v, supplied);
    if v.tier != TierB || argv.Err? || StdinPayload(v, supplied).Err? then WatchBroken
    else match w
      case Spawned(id) => Started(id)
      case SpawnFailed(errno, reason, named) => OsError(OsErrorText(errno, reason, named, ProgramOf(argv.value)))
      case SpawnCrashed => WatchBroken
  }

  // ---- validated once, valid later --------------------------------------------------------------

  lemma {:induction false} MissingNone(wanted: seq<string>, supplied: Args)
    ensures MissingArgs(wanted, supplied) == [] <==> forall a :: a in wanted ==> a in supplied
  {
    if wanted != [] {
      MissingNone(wanted[1..], supplied);
      assert wanted == [wanted[0]] + wanted[1..];
      assert wanted[0] in wanted;
    }
  }

  lemma {:induction false} FormatPartOk(part: Template, supplied: Args)
    ensures FormatPart(part, supplied).Ok? <==>
            forall j :: 0 <= j < |part| && part[j].Placeholder? ==> part[j].name in supplied
    ensures FormatPart(part, supplied).Err? ==> FormatPart(part, supplied).error.UnknownPlaceholder?
  {
    if part != [] {
      FormatPartOk(part[1..], supplied);
      assert forall j :: 1 <= j < |part| ==> part[j] == part[1..][j - 1];
    }
  }

  lemma {:induction false} FormatAllOk(command: seq<Template>, supplied: Args)
    ensures FormatAll(command, supplied).Ok? <==>
            forall i, j :: 0 <= i < |command| && 0 <= j < |command[i]| && command[i][j].Placeholder? ==>
              command[i][j].name in supplied
    ensures FormatAll(command, supplied).Err? ==> FormatAll(command, supplied).error.UnknownPlaceholder?
    ensures FormatAll(command, supplied).Ok? ==> |FormatAll(command, supplied).value| == |command|
  {
    if command != [] {
      FormatPartOk(command[0], supplied);
      FormatAllOk(command[1..], supplied);
      assert forall i :: 1 <= i < |command| ==> command[i] == command[1..][i - 1];
    }
  }

  /** build_argv succeeds exactly on the declared argument names with every placeholder bound.  On
      any other names it raises a ValueError, and on the right ones, if the template names a value
      that is no argument, a KeyError. */
  lemma BuildArgvOk(v: Verb, supplied: Args)
    ensures var right := supplied.Keys == (set a | a in v.args);
            && (BuildArgv(v, supplied).Ok? <==> right && PlaceholdersBound(v))
            && (BuildArgv(v, supplied).Err? ==> (IsValueError(BuildArgv(v, supplied).error) <==> !right))
            && (BuildArgv(v, supplied).Ok? ==> |BuildArgv(v, supplied).value| == |v.command|)
  {
    MissingNone(v.args, supplied);
    FormatAllOk(v.command, supplied);
    var extra := set k | k in supplied && k !in v.args;
    if supplied.Keys == set a | a in v.args {
      assert extra == {};
      assert forall a: string :: a in supplied <==> a in v.args;
    }
    if MissingArgs(v.args, supplied) == [] && extra == {} {
      assert forall k :: k in supplied.Keys ==> k !in extra;
      assert supplied.Keys == set a | a in v.args;
    }
  }

  /** The value piped to the process is text or null. */
  predicate StdinFits(v: Verb, supplied: Args) {
    v.HasStdin() ==>
      v.stdin.value in supplied && (supplied[v.stdin.value].Text? || supplied[v.stdin.value].Null?)
  }

  /** Checked once, a request cannot fail any of the checks of the run itself, whatever the process
      does.  The checks themselves are exact, and a request fails them with an exception that the
      handlers do not turn into a 400 only if the template is at fault. */
  lemma ValidatedOnceValidLater(v: Verb, supplied: Args, p: Process, w: Spawn)
    requires Sound(v)
    ensures v.tier == TierA && ArgCheck(v, supplied).None? ==> !RunTierA(v, supplied, p).BadCall?
    ensures v.tier == TierA && ArgCheck(v, supplied).None? ==> (RunTierA(v, supplied, p).Uncaught? <==> p.Crashed?)
    ensures v.tier == TierB && ArgCheck(v, supplied).None? ==>
            (RunWatch(v, supplied, w).WatchBroken? <==> w.SpawnCrashed?)
    ensures ArgCheck(v, supplied).None? <==>
              supplied.Keys == (set a | a in v.args) && PlaceholdersBound(v) && StdinFits(v, supplied)
    ensures ArgCheck(v, supplied).Some? && !IsValueError(ArgCheck(v, supplied).value) <==>
              supplied.Keys == (set a | a in v.args) && !PlaceholdersBound(v)
  {
    BuildArgvOk(v, supplied);
  }

  /** Every argument with the same text. */
  function AllText(v: Verb, text: string): Args { map a | a in v.args :: Text(text) }

  /** For every template that names a value that is no argument there are correct arguments, and
      they raise an exception that no handler catches. */
  lemma UnboundPlaceholderEscapes(v: Verb, text: string)
    requires !PlaceholdersBound(v)
    ensures AllText(v, text).Keys == set a | a in v.args
    ensures ArgCheck(v, AllText(v, text)).Some? && !IsValueError(ArgCheck(v, AllText(v, text)).value)
  {
    assert AllText(v, text).Keys == set a | a in v.args;
    BuildArgvOk(v, AllText(v, text));
  }

  // ---- redaction -----------------------------------------------------------------------------------

  /** Two argument maps that differ at most in the text piped to stdin, not in its length. */
  ghost predicate Twins(v: Verb, a: Args, b: Args) {
    && a.Keys == b.Keys
    && forall k :: k in a ==>
         a[k] == b[k] || (v.HasStdin() && k == v.stdin.value && a[k].Text? && b[k].Text? && |a[k].s| == |b[k].s|)
  }

  predicate ProgramIgnoresStdin(v: Verb) {
    v.HasStdin() && v.command != [] ==>
      forall j :: 0 <= j < |v.command[0]| ==> v.command[0][j] != Placeholder(v.stdin.value)
  }

  lemma TwinsLookAlike(v: Verb, a: Args, b: Args)
    requires Twins(v, a, b)
    ensures PublicArgs(v, a) == PublicArgs(v, b)
  {
    assert PublicArgs(v, a).Keys == PublicArgs(v, b).Keys;
  }

  lemma {:induction false} TwinsMissing(wanted: seq<string>, a: Args, b: Args)
    requires a.Keys == b.Keys
    ensures MissingArgs(wanted, a) == MissingArgs(wanted, b)
  {
    if wanted != [] {
      assert wanted[0] in a.Keys <==> wanted[0] in b.Keys;
      TwinsMissing(wanted[1..], a, b);
    }
  }

  lemma {:induction false} TwinsFormatPart(v: Verb, part: Template, a: Args, b: Args)
    requires Twins(v, a, b)
    ensures FormatPart(part, a).Ok? == FormatPart(part, b).Ok?
    ensures FormatPart(part, a).Err? ==> FormatPart(part, a) == FormatPart(part, b)
    ensures (v.HasStdin() ==> Placeholder(v.stdin.value) !in part) ==> FormatPart(part, a) == FormatPart(part, b)
  {
    if part != [] {
      assert part == [part[0]] + part[1..];
      TwinsFormatPart(v, part[1..], a, b);
      if part[0].Placeholder? {
        assert part[0].name in a.Keys <==> part[0].name in b.Keys;
        assert part[0] in part;
      }
    }
  }

  lemma {:induction false} TwinsFormatAll(v: Verb, command: seq<Template>, a: Args, b: Args)
    requires Twins(v, a, b)
    ensures FormatAll(command, a).Ok? == FormatAll(command, b).Ok?
    ensures FormatAll(command, a).Err? ==> FormatAll(command, a) == FormatAll(command, b)
  {
    if command != [] {
      TwinsFormatPart(v, command[0], a, b);
      TwinsFormatAll(v, command[1..], a, b);
    }
  }

  lemma TwinsCheckAlike(v: Verb, a: Args, b: Args)
    requires Twins(v, a, b)
    ensures ArgCheck(v, a) == ArgCheck(v, b)
    ensures BuildArgv(v, a).Ok? == BuildArgv(v, b).Ok?
  {
    TwinsMissing(v.args, a, b);
    TwinsFormatAll(v, v.command, a, b);
    assert forall k :: k in a.Keys <==> k in b.Keys;
    assert (set k | k in a && k !in v.args) == (set k | k in b && k !in v.args);
  }

  /** Twins have the same program, if it ignores the stdin argument. */
  lemma TwinsProgram(v: Verb, a: Args, b: Args)
    requires Twins(v, a, b) && ProgramIgnoresStdin(v)
    ensures BuildArgv(v, a).Err? ==> BuildArgv(v, a) == BuildArgv(v, b)
    ensures BuildArgv(v, a).Ok? ==>
              BuildArgv(v, b).Ok? && ProgramOf(BuildArgv(v, a).value) == ProgramOf(BuildArgv(v, b).value)
  {
    TwinsCheckAlike(v, a, b);
    TwinsMissing(v.args, a, b);
    TwinsFormatAll(v, v.command, a, b);
    assert forall k :: k in a.Keys <==> k in b.Keys;
    assert (set k | k in a && k !in v.args) == (set k | k in b && k !in v.args);
    if v.command != [] {
      TwinsFormatPart(v, v.command[0], a, b);
    }
  }

  lemma TwinsStdin(v: Verb, a: Args, b: Args)
    requires Twins(v, a, b)
    ensures StdinPayload(v, a).Err? ==> StdinPayload(v, a) == StdinPayload(v, b)
    ensures StdinPayload(v, a).Ok? ==> StdinPayload(v, b).Ok?
  {
    if v.HasStdin() {
      assert v.stdin.value in a.Keys <==> v.stdin.value in b.Keys;
    }
  }

  /** Two texts of the same parts, of which one differs, differ. */
  lemma ConcatDiffers(x: string, y: string, rest: string, other: string)
    requires |x| == |y| && (x != y || rest != other)
    ensures x + rest != y + other
  {
    assert x == (x + rest)[..|x|] && y == (y + other)[..|y|];
    assert rest == (x + rest)[|x|..] && other == (y + other)[|y|..];
  }

  /** With stdin texts of one length, a part that mentions them is formatted to texts of one
      length that differ. */
  lemma {:induction false} MentionShows(v: Verb, part: Template, a: Args, b: Args)
    requires Twins(v, a, b) && v.HasStdin() && v.stdin.value in a && a[v.stdin.value] != b[v.stdin.value]
    requires FormatPart(part, a).Ok?
    ensures FormatPart(part, b).Ok? && |FormatPart(part, a).value| == |FormatPart(part, b).value|
    ensures FormatPart(part, a).value != FormatPart(part, b).value <==> Placeholder(v.stdin.value) in part
  {
    if part != [] {
      assert part == [part[0]] + part[1..];
      MentionShows(v, part[1..], a, b);
      var rest, other := FormatPart(part[1..], a).value, FormatPart(part[1..], b).value;
      if part[0].Literal? {
        if rest != other {
          ConcatDiffers(part[0].text, part[0].text, rest, other);
        }
      } else {
        var n := part[0].name;
        assert n in a.Keys && n in b.Keys;
        if a[n] != b[n] || rest != other {
          ConcatDiffers(Printed(a[n]), Printed(b[n]), rest, other);
        }
      }
    }
  }

  lemma WrapIsInjective(before: string, x: string, y: string, after: string)
    requires x != y
    ensures before + x + after != before + y + after
  {
    var p, q := before + x + after, before + y + after;
    if |x| == |y| {
      assert x == p[|before|..|before| + |x|] && y == q[|before|..|before| + |y|];
    } else {
      assert |p| != |q|;
    }
  }

  lemma HexApart(m: nat, n: nat)
    requires m < 16 && n < 16 && m != n
    ensures HEX[m] != HEX[n]
  {}

  /** Escapes of different characters part before either ends. */
  lemma EscapesPart(c: char, d: char, quote: char, x: string, y: string)
    requires c != d && quote in {'\'', '"'}
    ensures EscapedChar(c, quote) + x != EscapedChar(d, quote) + y
  {
    var p, q := EscapedChar(c, quote) + x, EscapedChar(d, quote) + y;
    if p[0] == q[0] && p[1] == q[1] && |EscapedChar(c, quote)| == 4 {
      if c as int / 16 != d as int / 16 {
        HexApart(c as int / 16, d as int / 16);
        assert p[2] != q[2];
      } else {
        HexApart(c as int % 16, d as int % 16);
        assert p[3] != q[3];
      }
    }
  }

  lemma {:induction false} EscapedDiffer(s: string, t: string, quote: char)
    requires |s| == |t| && s != t && quote in {'\'', '"'}
    ensures Escaped(s, quote) != Escaped(t, quote)
  {
    if s[0] != t[0] {
      EscapesPart(s[0], t[0], quote, Escaped(s[1..], quote), Escaped(t[1..], quote));
    } else {
      assert s == [s[0]] + s[1..] && t == [t[0]] + t[1..];
      EscapedDiffer(s[1..], t[1..], quote);
      var e := EscapedChar(s[0], quote);
      ConcatDiffers(e, e, Escaped(s[1..], quote), Escaped(t[1..], quote));
    }
  }

  /** Different texts of one length have different reprs. */
  lemma ReprsDiffer(s: string, t: string)
    requires |s| == |t| && s != t
    ensures Repr(s) != Repr(t)
  {
    if QuoteFor(s) == QuoteFor(t) {
      var quote := QuoteFor(s);
      EscapedDiffer(s, t, quote);
      WrapIsInjective([quote], Escaped(s, quote), Escaped(t, quote), [quote]);
    } else {
      assert Repr(s)[0] != Repr(t)[0];
    }
  }

  /** Twins whose program mentions the stdin argument have different programs of one length. */
  lemma ProgramsDiffer(v: Verb, a: Args, b: Args)
    requires v.HasStdin() && v.command != [] && Placeholder(v.stdin.value) in v.command[0]
    requires Twins(v, a, b) && ArgCheck(v, a).None? && a[v.stdin.value] != b[v.stdin.value]
    ensures ArgCheck(v, b).None? && BuildArgv(v, a).Ok? && BuildArgv(v, b).Ok?
    ensures var x, y := ProgramOf(BuildArgv(v, a).value), ProgramOf(BuildArgv(v, b).value);
            x != y && |x| == |y|
  {
    TwinsCheckAlike(v, a, b);
    MentionShows(v, v.command[0], a, b);
  }

  /** A Tier A program that mentions the stdin argument in any way leaks it through the text of the
      error when it is not found. */
  lemma ProgramFromStdinLeaks(v: Verb, a: Args, b: Args)
    requires v.tier == TierA && v.HasStdin() && v.command != [] && Placeholder(v.stdin.value) in v.command[0]
    requires Twins(v, a, b) && ArgCheck(v, a).None? && a[v.stdin.value] != b[v.stdin.value]
    ensures RunTierA(v, a, NotFound).ExecutionError? && RunTierA(v, b, NotFound).ExecutionError?
    ensures RunTierA(v, a, NotFound).text != RunTierA(v, b, NotFound).text
  {
    ProgramsDiffer(v, a, b);
    var x, y := ProgramOf(BuildArgv(v, a).value), ProgramOf(BuildArgv(v, b).value);
    var head, tail := "command not found: ", " (is Termux:API installed?)";
    WrapIsInjective(head, x, y, tail);
    WrapIsInjective(v.name + ": ", head + x + tail, head + y + tail, "");
    assert forall m: string :: v.name + ": " + m + "" == v.name + ": " + m;
  }

  /** The error of Popen: the program file does not exist. */
  const NO_SUCH_FILE: Spawn := SpawnFailed(2, "No such file or directory", true)

  /** A Tier B program does so through the text of the OSError. */
  lemma WatchFromStdinLeaks(v: Verb, a: Args, b: Args)
    requires v.tier == TierB && v.HasStdin() && v.command != [] && Placeholder(v.stdin.value) in v.command[0]
    requires Twins(v, a, b) && ArgCheck(v, a).None? && a[v.stdin.value] != b[v.stdin.value]
    ensures RunWatch(v, a, NO_SUCH_FILE).OsError? && RunWatch(v, b, NO_SUCH_FILE).OsError?
    ensures RunWatch(v, a, NO_SUCH_FILE).text != RunWatch(v, b, NO_SUCH_FILE).text
  {
    ProgramsDiffer(v, a, b);
    var x, y := ProgramOf(BuildArgv(v, a).value), ProgramOf(BuildArgv(v, b).value);
    ReprsDiffer(x, y);
    var head := "[Errno " + Digits(2) + "] " + "No such file or directory";
    WrapIsInjective(": ", Repr(x), Repr(y), "");
    assert forall m: string :: ": " + m + "" == ": " + m;
    WrapIsInjective(head, ": " + Repr(x), ": " + Repr(y), "");
    assert forall m: string :: head + m + "" == head + m;
  }

  /** A program that can be run at all does not mention the stdin argument. */
  predicate ProgramSafe(v: Verb) { PlaceholdersBound(v) ==> ProgramIgnoresStdin(v) }

  lemma SafeRunsAlike(v: Verb, a: Args, b: Args, p: Process, w: Spawn)
    requires Twins(v, a, b) && ProgramSafe(v)
    ensures RunTierA(v, a, p) == RunTierA(v, b, p)
    ensures RunWatch(v, a, w) == RunWatch(v, b, w)
  {
    TwinsCheckAlike(v, a, b);
    TwinsStdin(v, a, b);
    if PlaceholdersBound(v) {
      TwinsProgram(v, a, b);
    } else {
      BuildArgvOk(v, a);
      BuildArgvOk(v, b);
    }
  }

  /** Valid arguments of a verb whose program mentions the stdin argument, and their twins. */
  lemma LeakingTwins(v: Verb) returns (a: Args, b: Args)
    requires Sound(v) && !ProgramSafe(v)
    ensures Twins(v, a, b) && ArgCheck(v, a).None?
    ensures v.tier == TierA ==>
              RunTierA(v, a, NotFound).ExecutionError? && RunTierA(v, b, NotFound).ExecutionError? &&
              RunTierA(v, a, NotFound).text != RunTierA(v, b, NotFound).text
    ensures v.tier == TierB ==>
              RunWatch(v, a, NO_SUCH_FILE).OsError? && RunWatch(v, b, NO_SUCH_FILE).OsError? &&
              RunWatch(v, a, NO_SUCH_FILE).text != RunWatch(v, b, NO_SUCH_FILE).text
  {
    a := AllText(v, "x");
    b := a[v.stdin.value := Text("y")];
    assert a.Keys == set n | n in v.args;
    ValidatedOnceValidLater(v, a, NotFound, NO_SUCH_FILE);
    if v.tier == TierA {
      ProgramFromStdinLeaks(v, a, b);
    } else {
      WatchFromStdinLeaks(v, a, b);
    }
  }

  /** A run and a watch show the same of a and b. */
  predicate SameResults(v: Verb, a: Args, b: Args, p: Process, w: Spawn) {
    RunTierA(v, a, p) == RunTierA(v, b, p) && RunWatch(v, a, w) == RunWatch(v, b, w)
  }

  lemma LeakingTwinsDiffer(v: Verb) returns (a: Args, b: Args)
    requires Sound(v) && !ProgramSafe(v)
    ensures Twins(v, a, b) && !SameResults(v, a, b, NotFound, NO_SUCH_FILE)
  {
    a, b := LeakingTwins(v);
  }

  /** What goes to stdin stays out of every result, of runs and of watches, exactly if the program
      does not mention it. */
  lemma StdinStaysOutIffProgramIgnoresIt(v: Verb)
    requires Sound(v)
    ensures (forall a, b, p, w :: Twins(v, a, b) ==> SameResults(v, a, b, p, w)) <==> ProgramSafe(v)
  {
    if ProgramSafe(v) {
      forall a, b, p, w | Twins(v, a, b) ensures SameResults(v, a, b, p, w) {
        SafeRunsAlike(v, a, b, p, w);
      }
    } else {
      var a, b := LeakingTwinsDiffer(v);
    }
  }
}
