/** What the texts of a command line and of a log entry say: numbers in decimal, printed values,
    the pieces of a template in order, what goes to stdin and what of it is shown
    (dispatch/catalog.py). */
module Argv {
  import opened Common
  import C = Catalog

  // ---- printed values ------------------------------------------------------------------------

  /** The number that a text of digits stands for. */
  ghost function NumberOf(s: string): int {
    if s == "" then 0 else 10 * NumberOf(s[..|s| - 1]) + (s[|s| - 1] as int - '0' as int)
  }

  ghost predicate AllDigits(s: string) { forall i :: 0 <= i < |s| ==> '0' <= s[i] <= '9' }

  /** s is n in decimal, without a leading zero. */
  ghost predicate Decimal(s: string, n: nat) {
    s != "" && AllDigits(s) && (|s| > 1 ==> s[0] != '0') && NumberOf(s) == n
  }

  lemma {:induction false} DigitsAreDecimal(n: nat)
    ensures Decimal(C.Digits(n), n)
    ensures n > 0 ==> C.Digits(n)[0] != '0'
  {
    if n >= 10 {
      DigitsAreDecimal(n / 10);
      var s := C.Digits(n);
      assert s[..|s| - 1] == C.Digits(n / 10);
    }
  }

  lemma {:induction false} PositiveUnlessZero(s: string)
    requires s != "" && AllDigits(s) && s[0] != '0'
    ensures NumberOf(s) > 0
  {
    if |s| > 1 {
      PositiveUnlessZero(s[..|s| - 1]);
    }
  }

  lemma {:induction false} DecimalIsDigits(s: string)
    requires s != "" && AllDigits(s) && (|s| > 1 ==> s[0] != '0')
    ensures NumberOf(s) >= 0 && s == C.Digits(NumberOf(s))
  {
    var d := s[|s| - 1] as int - '0' as int;
    if |s| == 1 {
      assert s[..0] == "";
      assert s == [('0' as int + d) as char];
    } else {
      var init := s[..|s| - 1];
      PositiveUnlessZero(init);
      DecimalIsDigits(init);
      var n := NumberOf(s);
      assert n == 10 * NumberOf(init) + d && n / 10 == NumberOf(init) && n % 10 == d;
      assert s == init + [('0' as int + d) as char];
    }
  }

  /** A text is the printed form of n exactly if it is n in decimal. */
  lemma DecimalExact(s: string, n: nat)
    ensures Decimal(s, n) <==> s == C.Digits(n)
  {
    DigitsAreDecimal(n);
    if Decimal(s, n) {
      DecimalIsDigits(s);
    }
  }

  ghost predicate Integer(s: string, n: int) {
    if n < 0 then s != "" && s[0] == '-' && Decimal(s[1..], -n) else Decimal(s, n)
  }

  /** What str.format makes of a value. */
  ghost predicate Prints(v: Value, s: string) {
    match v
    case Text(t) => s == t
    case Number(n) => Integer(s, n)
    case Flag(b) => s == if b then "True" else "False"
    case Null => s == "None"
    case Nested(p) => s == p
  }

  lemma PrintsExact(v: Value, s: string)
    ensures Prints(v, s) <==> s == C.Printed(v)
  {
    if v.Number? {
      if v.n < 0 {
        DecimalExact(if s == "" then s else s[1..], -v.n);
        assert s != "" && s[0] == '-' ==> s == "-" + s[1..];
        assert ("-" + C.Digits(-v.n))[1..] == C.Digits(-v.n);
      } else {
        DecimalExact(s, v.n);
      }
    }
  }

  ghost function HexValue(c: char): int {
    if '0' <= c <= '9' then c as int - '0' as int else if 'a' <= c <= 'f' then c as int - 'a' as int + 10 else 0
  }

  /** The text that the inside of a quoted literal stands for. */
  ghost function Unescaped(s: string): string {
    if s == "" then ""
    else if s[0] != '\\' || |s| == 1 then [s[0]] + Unescaped(s[1..])
    else if s[1] == 'n' then "\n" + Unescaped(s[2..])
    else if s[1] == 'r' then "\r" + Unescaped(s[2..])
    else if s[1] == 't' then "\t" + Unescaped(s[2..])
    else if s[1] == 'x' && |s| >= 4 then
      [(16 * HexValue(s[2]) + HexValue(s[3])) as char] + Unescaped(s[4..])
    else [s[1]] + Unescaped(s[2..])
  }

  lemma PairUnescaped(d: char, rest: string)
    requires d != 'x'
    ensures Unescaped(['\\', d] + rest) ==
            [if d == 'n' then '\n' else if d == 'r' then '\r' else if d == 't' then '\t' else d] + Unescaped(rest)
  {
    var s := ['\\', d] + rest;
    assert s[2..] == rest;
  }

  lemma HexReads(n: nat)
    requires n < 16
    ensures HexValue(C.HEX[n]) == n
  {}

  lemma CodeUnescaped(c: char, rest: string)
    requires c as int < 256
    ensures Unescaped(['\\', 'x', C.HEX[c as int / 16], C.HEX[c as int % 16]] + rest) == [c] + Unescaped(rest)
  {
    var s := ['\\', 'x', C.HEX[c as int / 16], C.HEX[c as int % 16]] + rest;
    HexReads(c as int / 16);
    HexReads(c as int % 16);
    assert s[4..] == rest;
  }

  lemma OneUnescaped(c: char, quote: char, rest: string)
    requires quote in {'\'', '"'}
    ensures Unescaped(C.EscapedChar(c, quote) + rest) == [c] + Unescaped(rest)
  {
    var e := C.EscapedChar(c, quote);
    if |e| == 4 {
      CodeUnescaped(c, rest);
    } else if |e| == 2 {
      PairUnescaped(e[1], rest);
    } else {
      assert (e + rest)[1..] == rest;
    }
  }

  lemma {:induction false} EscapedReadsBack(s: string, quote: char)
    requires quote in {'\'', '"'}
    ensures Unescaped(C.Escaped(s, quote)) == s
  {
    if s != "" {
      EscapedReadsBack(s[1..], quote);
      OneUnescaped(s[0], quote, C.Escaped(s[1..], quote));
      assert s == [s[0]] + s[1..];
    }
  }

  /** repr is the text in quotes, escaped so that it reads back. */
  lemma ReprReadsBack(s: string)
    ensures var r := C.Repr(s);
            && |r| >= 2 && r[0] == r[|r| - 1] && (r[0] == '"' <==> '\'' in s && '"' !in s)
            && (r[0] != '"' ==> r[0] == '\'') && Unescaped(r[1..|r| - 1]) == s
  {
    var quote := C.QuoteFor(s);
    EscapedReadsBack(s, quote);
    assert C.Repr(s)[1..|C.Repr(s)| - 1] == C.Escaped(s, quote);
  }

  // ---- templates ---------------------------------------------------------------------------------

  /** The text a piece gives: its own, or that of the value it names. */
  ghost predicate Gives(piece: C.Piece, supplied: Args, s: string) {
    match piece
    case Literal(t) => s == t
    case Placeholder(n) => n in supplied && Prints(supplied[n], s)
  }

  /** Cut there, s is the texts of the pieces, in order. */
  ghost predicate CutAt(part: C.Template, supplied: Args, s: string, cuts: seq<nat>) {
    && |cuts| == |part| + 1 && cuts[0] == 0 && cuts[|part|] == |s|
    && (forall i, j :: 0 <= i <= j < |cuts| ==> cuts[i] <= cuts[j])
    && forall j :: 0 <= j < |part| ==> Gives(part[j], supplied, s[cuts[j]..cuts[j + 1]])
  }

  ghost predicate Spells(part: C.Template, supplied: Args, s: string) {
    exists cuts :: CutAt(part, supplied, s, cuts)
  }

  lemma MoreCuts(part: C.Template, supplied: Args, first: string, rest: string, cuts: seq<nat>)
    requires part != [] && Gives(part[0], supplied, first) && CutAt(part[1..], supplied, rest, cuts)
    ensures Spells(part, supplied, first + rest)
  {
    var s := first + rest;
    var longer := [0] + seq(|cuts|, j requires 0 <= j < |cuts| => cuts[j] + |first|);
    forall j | 0 <= j < |part| ensures Gives(part[j], supplied, s[longer[j]..longer[j + 1]]) {
      if j == 0 {
        assert s[..|first|] == first;
      } else {
        assert s[longer[j]..longer[j + 1]] == rest[cuts[j - 1]..cuts[j]];
      }
    }
    assert CutAt(part, supplied, s, longer);
  }

  lemma FewerCuts(part: C.Template, supplied: Args, s: string, cuts: seq<nat>)
    requires part != [] && CutAt(part, supplied, s, cuts)
    ensures cuts[1] <= |s| && Gives(part[0], supplied, s[..cuts[1]]) && Spells(part[1..], supplied, s[cuts[1]..])
  {
    var rest := s[cuts[1]..];
    var shorter := seq(|part|, j requires 0 <= j < |part| => cuts[j + 1] - cuts[1]);
    forall j | 0 <= j < |part| - 1 ensures Gives(part[1..][j], supplied, rest[shorter[j]..shorter[j + 1]]) {
      assert rest[shorter[j]..shorter[j + 1]] == s[cuts[j + 1]..cuts[j + 2]];
    }
    assert CutAt(part[1..], supplied, rest, shorter);
  }

  /** A part formats to s exactly if s is the texts of its pieces one behind the other. */
  lemma {:induction false} PartSpelled(part: C.Template, supplied: Args, s: string)
    ensures C.FormatPart(part, supplied) == Ok(s) <==> Spells(part, supplied, s)
    decreases |part|
  {
    if part == [] {
      assert CutAt(part, supplied, "", [0]);
    } else {
      if C.FormatPart(part, supplied) == Ok(s) {
        var rest := C.FormatPart(part[1..], supplied).value;
        var first := if part[0].Literal? then part[0].text else C.Printed(supplied[part[0].name]);
        PartSpelled(part[1..], supplied, rest);
        var cuts :| CutAt(part[1..], supplied, rest, cuts);
        if part[0].Placeholder? {
          PrintsExact(supplied[part[0].name], first);
        }
        MoreCuts(part, supplied, first, rest, cuts);
      }
      if cuts :| CutAt(part, supplied, s, cuts) {
        FewerCuts(part, supplied, s, cuts);
        var first, rest := s[..cuts[1]], s[cuts[1]..];
        PartSpelled(part[1..], supplied, rest);
        if part[0].Placeholder? {
          PrintsExact(supplied[part[0].name], first);
        }
        assert s == first + rest;
      }
    }
  }

  lemma {:induction false} AllSpelled(command: seq<C.Template>, supplied: Args, argv: seq<string>)
    ensures C.FormatAll(command, supplied) == Ok(argv) <==>
            |argv| == |command| && forall i :: 0 <= i < |command| ==> Spells(command[i], supplied, argv[i])
  {
    if command != [] && argv != [] {
      PartSpelled(command[0], supplied, argv[0]);
      AllSpelled(command[1..], supplied, argv[1..]);
      assert argv == [argv[0]] + argv[1..];
      assert forall i :: 1 <= i < |command| ==> command[i] == command[1..][i - 1];
      assert forall i :: 1 <= i < |argv| ==> argv[i] == argv[1..][i - 1];
    }
  }

  ghost predicate RightNames(v: C.Verb, supplied: Args) { forall k :: k in supplied <==> k in v.args }

  /** build_argv returns argv exactly if the names are the declared ones and element i is the texts
      of the pieces of part i of the template, for every i. */
  lemma ArgvSpelled(v: C.Verb, supplied: Args, argv: seq<string>)
    ensures C.BuildArgv(v, supplied) == Ok(argv) <==>
            && RightNames(v, supplied) && |argv| == |v.command|
            && forall i :: 0 <= i < |v.command| ==> Spells(v.command[i], supplied, argv[i])
  {
    NamesExact(v, supplied);
    AllSpelled(v.command, supplied, argv);
  }

  lemma {:induction false} MissingExact(wanted: seq<string>, supplied: Args)
    ensures forall a :: a in C.MissingArgs(wanted, supplied) <==> a in wanted && a !in supplied
  {
    if wanted != [] {
      MissingExact(wanted[1..], supplied);
      assert wanted == [wanted[0]] + wanted[1..];
    }
  }

  lemma NamesExact(v: C.Verb, supplied: Args)
    ensures var missing, extra := C.MissingArgs(v.args, supplied), set k | k in supplied && k !in v.args;
            RightNames(v, supplied) <==> missing == [] && extra == {}
  {
    MissingExact(v.args, supplied);
    var missing, extra := C.MissingArgs(v.args, supplied), set k | k in supplied && k !in v.args;
    if missing != [] {
      assert missing[0] in missing;
    } else if extra == {} {
      forall k ensures k in supplied <==> k in v.args {
        assert k !in missing && k !in extra;
      }
    } else {
      var k :| k in extra;
    }
  }

  // ---- checks, stdin and redaction -----------------------------------------------------------------

  /** The names are the declared ones, the template needs no other, and what goes to stdin is text
      or null. */
  ghost predicate Valid(v: C.Verb, supplied: Args) {
    && RightNames(v, supplied)
    && (forall i, j :: 0 <= i < |v.command| && 0 <= j < |v.command[i]| && v.command[i][j].Placeholder? ==>
          v.command[i][j].name in v.args)
    && (v.stdin.Some? && v.stdin.value != "" ==>
          v.stdin.value in supplied && (supplied[v.stdin.value].Text? || supplied[v.stdin.value].Null?))
  }

  lemma KeysAreNames(v: C.Verb, supplied: Args)
    ensures supplied.Keys == (set a | a in v.args) <==> RightNames(v, supplied)
  {
    assert forall k :: k in supplied.Keys <==> k in supplied;
    assert forall k :: k in (set a | a in v.args) <==> k in v.args;
  }

  /** The error of a bad call: a declared name is missing, or another is there, or both names are
      right and the template needs one more, or stdin would get a value of another kind. */
  ghost predicate Blames(v: C.Verb, supplied: Args, e: C.ArgError) {
    match e
    case Missing(names) => names != [] && forall a :: a in names <==> a in v.args && a !in supplied
    case Unexpected(extra) =>
      (forall a :: a in v.args ==> a in supplied) && extra != {} &&
      forall k :: k in extra <==> k in supplied && k !in v.args
    case UnknownPlaceholder(n) =>
      RightNames(v, supplied) && !C.PlaceholdersBound(v) && n !in v.args
    case StdinNotText =>
      RightNames(v, supplied) && C.PlaceholdersBound(v) && v.HasStdin() && v.stdin.value in supplied &&
      !supplied[v.stdin.value].Text? && !supplied[v.stdin.value].Null?
  }

  lemma {:induction false} UnknownIsUndeclared(part: C.Template, supplied: Args)
    ensures var r := C.FormatPart(part, supplied);
            r.Err? ==> r.error.UnknownPlaceholder? && r.error.name !in supplied
  {
    if part != [] {
      UnknownIsUndeclared(part[1..], supplied);
    }
  }

  lemma {:induction false} UnknownInCommand(command: seq<C.Template>, supplied: Args)
    ensures var r := C.FormatAll(command, supplied);
            r.Err? ==> r.error.UnknownPlaceholder? && r.error.name !in supplied
  {
    if command != [] {
      UnknownIsUndeclared(command[0], supplied);
      UnknownInCommand(command[1..], supplied);
    }
  }

  /** The checks pass exactly on valid arguments of a verb whose stdin argument is declared, and say
      otherwise what is wrong. */
  lemma ArgCheckExact(v: C.Verb, supplied: Args)
    requires v.stdin.Some? ==> v.stdin.value in v.args
    ensures C.ArgCheck(v, supplied).None? <==> Valid(v, supplied)
    ensures C.ArgCheck(v, supplied).Some? ==> Blames(v, supplied, C.ArgCheck(v, supplied).value)
  {
    C.BuildArgvOk(v, supplied);
    KeysAreNames(v, supplied);
    NamesExact(v, supplied);
    MissingExact(v.args, supplied);
    UnknownInCommand(v.command, supplied);
    var missing := C.MissingArgs(v.args, supplied);
    if missing == [] {
      assert forall a :: a in v.args ==> a in supplied by {
        assert forall a :: a !in missing;
      }
    }
  }

  /** What is piped to the process: nothing without a hook, else the text, or an empty one for null. */
  lemma StdinPiped(v: C.Verb, supplied: Args, piped: Option<string>)
    requires Valid(v, supplied)
    ensures C.StdinPayload(v, supplied) == Ok(piped) <==>
            if v.stdin.None? || v.stdin == Some("") then piped.None?
            else piped.Some? && (supplied[v.stdin.value] == Text(piped.value) ||
                                 (supplied[v.stdin.value] == Null && piped.value == ""))
  {}

  ghost function TextLength(v: Value): nat { if v.Text? then |v.s| else 0 }

  /** In public, only the stdin argument is replaced, by a note of its length. */
  lemma PublicArgsShow(v: C.Verb, supplied: Args, k: string)
    ensures C.PublicArgs(v, supplied).Keys == supplied.Keys
    ensures k in supplied && v.stdin != Some(k) ==> C.PublicArgs(v, supplied)[k] == supplied[k]
    ensures k in supplied && v.stdin == Some(k) && k != "" ==>
              exists d :: Decimal(d, TextLength(supplied[k])) &&
                          C.PublicArgs(v, supplied)[k] == Text("<" + d + " chars>")
  {
    if k in supplied && v.stdin == Some(k) && k != "" {
      var d := C.Digits(TextLength(supplied[k]));
      DigitsAreDecimal(TextLength(supplied[k]));
      assert C.PublicArgs(v, supplied)[k] == Text("<" + d + " chars>");
    }
  }

  lemma DigitsDiffer(m: nat, n: nat)
    requires C.Digits(m) == C.Digits(n)
    ensures m == n
  {
    DigitsAreDecimal(m);
    DigitsAreDecimal(n);
  }

  lemma NotesDiffer(a: Value, b: Value)
    requires C.Redacted(a) == C.Redacted(b)
    ensures TextLength(a) == TextLength(b)
  {
    var x, y := C.Digits(TextLength(a)), C.Digits(TextLength(b));
    if x != y {
      C.WrapIsInjective("<", x, y, " chars>");
    } else {
      DigitsDiffer(TextLength(a), TextLength(b));
    }
  }

  /** The public form tells everything but the stdin text, and of that its length: two maps have the
      same one exactly if they differ at most there, and not in the length. */
  lemma PublicArgsTellTheLength(v: C.Verb, a: Args, b: Args)
    ensures C.PublicArgs(v, a) == C.PublicArgs(v, b) <==>
            && a.Keys == b.Keys
            && forall k :: k in a ==>
                 a[k] == b[k] || (v.stdin == Some(k) && k != "" && TextLength(a[k]) == TextLength(b[k]))
  {
    var x, y := C.PublicArgs(v, a), C.PublicArgs(v, b);
    assert x.Keys == a.Keys && y.Keys == b.Keys;
    if x == y {
      forall k | k in a
        ensures k in b && (a[k] == b[k] || (v.stdin == Some(k) && k != "" && TextLength(a[k]) == TextLength(b[k])))
      {
        assert k in y.Keys && x[k] == y[k];
        if v.stdin == Some(k) && k != "" {
          NotesDiffer(a[k], b[k]);
        }
      }
    }
    if a.Keys == b.Keys &&
       forall k :: k in a ==>
         a[k] == b[k] || (v.stdin == Some(k) && k != "" && TextLength(a[k]) == TextLength(b[k])) {
      assert forall k :: k in x.Keys ==> k in a && k in b && x[k] == y[k];
    }
  }
}
