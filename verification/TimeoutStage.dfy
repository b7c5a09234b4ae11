/** Whether an execution error is audited as a timeout is decided by searching its text for
    "timed out"; this says exactly when that is right (daemon.py). */
module TimeoutStage {
  import opened Common
  import C = Catalog

  const MARK: string := "timed out"

  /** t stands in s at position i. */
  predicate At(s: string, t: string, i: nat) { i + |t| <= |s| && s[i..i + |t|] == t }

  lemma AtEvery(s: string, t: string, i: nat)
    requires At(s, t, i)
    ensures forall k :: 0 <= k < |t| ==> t[k] == s[i + k]
  {
    forall k | 0 <= k < |t| ensures t[k] == s[i + k] {
      assert s[i..i + |t|][k] == s[i + k];
    }
  }

  lemma {:induction false} ContainsAt(s: string, t: string)
    ensures Contains(s, t) <==> exists i: nat :: At(s, t, i)
    decreases |s|
  {
    if |t| <= |s| && s[..|t|] == t {
      assert At(s, t, 0);
    } else if |t| <= |s| && s != [] {
      ContainsAt(s[1..], t);
      if Contains(s[1..], t) {
        var i: nat :| At(s[1..], t, i);
        assert s[1..][i..i + |t|] == s[i + 1..i + 1 + |t|];
        assert At(s, t, i + 1);
      }
      if exists i: nat :: At(s, t, i) {
        var i: nat :| At(s, t, i);
        assert i > 0;
        assert s[1..][i - 1..i - 1 + |t|] == s[i..i + |t|];
        assert At(s[1..], t, i - 1);
      }
    }
  }

  lemma SeparatorInside(s: string, t: string, i: nat, k: nat)
    requires At(s, t, i) && i <= k < i + |t|
    ensures s[k] in t
  {
    AtEvery(s, t, i);
    assert t[k - i] == s[k];
  }

  lemma AtInside(a: string, s: string, b: string, t: string, i: nat)
    requires At(s, t, i)
    ensures At(a + s + b, t, |a| + i)
  {
    var w := a + s + b;
    assert w[|a| + i..|a| + i + |t|] == s[i..i + |t|];
  }

  lemma AtOneSide(a: string, sep: char, b: string, t: string, i: nat)
    requires sep !in t && t != "" && At(a + [sep] + b, t, i)
    ensures At(a, t, i) || (i > |a| && At(b, t, i - |a| - 1))
  {
    var s := a + [sep] + b;
    assert s[|a|] == sep;
    if i <= |a| < i + |t| {
      SeparatorInside(s, t, i, |a|);
    } else if i + |t| <= |a| {
      assert s[i..i + |t|] == a[i..i + |t|];
    } else {
      assert s[i..i + |t|] == b[i - |a| - 1..i - |a| - 1 + |t|];
    }
  }

  /** A character that t lacks keeps t on one side of it. */
  lemma SplitAt(a: string, sep: char, b: string, t: string)
    requires sep !in t && t != ""
    ensures Contains(a + [sep] + b, t) <==> Contains(a, t) || Contains(b, t)
  {
    var s := a + [sep] + b;
    ContainsAt(s, t);
    ContainsAt(a, t);
    ContainsAt(b, t);
    if i: nat :| At(s, t, i) {
      AtOneSide(a, sep, b, t, i);
    }
    if i: nat :| At(a, t, i) {
      AtInside("", a, [sep] + b, t, i);
      assert "" + a + ([sep] + b) == s;
    }
    if i: nat :| At(b, t, i) {
      AtInside(a + [sep], b, "", t, i);
      assert a + [sep] + b + "" == s;
    }
  }

  /** A text without one of t's characters does not contain t. */
  lemma LacksOne(s: string, t: string, k: nat)
    requires k < |t| && t[k] !in s
    ensures !Contains(s, t)
  {
    ContainsAt(s, t);
    forall i: nat ensures !At(s, t, i) {
      if At(s, t, i) {
        AtEvery(s, t, i);
        assert false;
      }
    }
  }

  /** A character at either end that t neither starts nor ends with makes no difference. */
  lemma PaddingIgnored(pad: char, s: string, t: string)
    requires t != "" && t[0] != pad && t[|t| - 1] != pad
    ensures Contains([pad] + s + [pad], t) <==> Contains(s, t)
  {
    var w := [pad] + s + [pad];
    ContainsAt(w, t);
    ContainsAt(s, t);
    if i: nat :| At(w, t, i) {
      AtEvery(w, t, i);
      assert w[i + 0] == t[0] && w[i + (|t| - 1)] == t[|t| - 1];
      assert w[i..i + |t|] == s[i - 1..i - 1 + |t|];
      assert At(s, t, i - 1);
    }
    if i: nat :| At(s, t, i) {
      AtInside([pad], s, [pad], t, i);
    }
  }

  lemma {:induction false} DigitsAreDigits(n: nat)
    ensures forall i :: 0 <= i < |C.Digits(n)| ==> '0' <= C.Digits(n)[i] <= '9'
  {
    if n >= 10 {
      DigitsAreDigits(n / 10);
    }
  }

  predicate Mentions(s: string) { Contains(s, MARK) }

  lemma AfterColon(name: string, message: string)
    ensures Mentions(C.ErrorText(name, message)) <==> Mentions(name) || Mentions([' '] + message)
  {
    SplitAt(name, ':', [' '] + message, MARK);
    assert C.ErrorText(name, message) == name + [':'] + ([' '] + message);
  }

  /** A message without the k-th character of the mark leaves only the name to mention it. */
  lemma OnlyTheName(name: string, message: string, k: nat)
    requires k < |MARK| && MARK[k] != ' ' && MARK[k] !in message
    ensures Mentions(C.ErrorText(name, message)) <==> Mentions(name)
  {
    LacksOne([' '] + message, MARK, k);
    AfterColon(name, message);
  }

  lemma ExitText(name: string, code: int)
    ensures Mentions(C.ErrorText(name, "exit code " + C.Printed(Number(code)))) <==> Mentions(name)
  {
    DigitsAreDigits(if code < 0 then -code else code);
    var words := "exit code ";
    assert 'm' !in words;
    OnlyTheName(name, words + C.Printed(Number(code)), 2);
  }

  lemma UnparsedText(name: string)
    ensures Mentions(C.ErrorText(name, "expected JSON stdout, got unparseable output")) <==> Mentions(name)
  {
    var message := "expected JSON stdout, got unparseable output";
    assert 'm' !in message;
    OnlyTheName(name, message, 2);
  }

  /** name, head, colon, program in blanks, bracket, tail, where neither head nor tail can hold
      the mark. */
  lemma NameOrProgram(name: string, head: string, program: string, tail: string)
    requires 'i' !in head && 'o' !in tail
    ensures Mentions(C.ErrorText(name, head + [':'] + ([' '] + program + [' '] + ['('] + tail))) <==>
            Mentions(name) || Mentions(program)
  {
    var middle := [' '] + program + [' '];
    PaddingIgnored(' ', program, MARK);
    LacksOne(tail, MARK, 6);
    SplitAt(middle, '(', tail, MARK);
    LacksOne([' '] + head, MARK, 1);
    var back := middle + ['('] + tail;
    SplitAt([' '] + head, ':', back, MARK);
    AfterColon(name, head + [':'] + back);
    assert [' '] + head + [':'] + back == [' '] + (head + [':'] + back);
  }

  lemma HeadAndTail()
    ensures "command not found: " == "command not found" + [':'] + [' ']
    ensures " (is Termux:API installed?)" == [' '] + ['('] + "is Termux:API installed?)"
    ensures 'i' !in "command not found" && 'o' !in "is Termux:API installed?)"
  {}

  lemma Regroup(head: string, program: string, tail: string)
    ensures head + [':'] + [' '] + program + ([' '] + ['('] + tail) ==
            head + [':'] + ([' '] + program + [' '] + ['('] + tail)
  {}

  lemma NotFoundText(name: string, program: string)
    ensures Mentions(C.ErrorText(name, "command not found: " + program + " (is Termux:API installed?)")) <==>
            Mentions(name) || Mentions(program)
  {
    var head, tail := "command not found", "is Termux:API installed?)";
    HeadAndTail();
    Regroup(head, program, tail);
    NameOrProgram(name, head, program, tail);
  }

  lemma TimedOutText(name: string, limit: nat)
    ensures Mentions(C.ErrorText(name, "timed out after " + C.Digits(limit) + "s"))
  {
    var s := C.ErrorText(name, "timed out after " + C.Digits(limit) + "s");
    ContainsAt(s, MARK);
    assert s[|name| + 2..|name| + 2 + |MARK|] == MARK;
    assert At(s, MARK, |name| + 2);
  }

  /** A run that really timed out is always audited as one.  Any other failed run is, too,
      exactly if the verb's name, or the program that was not found, happens to say so. */
  lemma TimeoutIffTimedOutOrNamedSo(v: C.Verb, args: Args, p: C.Process)
    requires C.RunTierA(v, args, p).ExecutionError?
    ensures Mentions(C.RunTierA(v, args, p).text) <==>
            || p.TimedOut?
            || Mentions(v.name)
            || (p.NotFound? && v.command != [] && Mentions(C.FormatPart(v.command[0], args).value))
  {
    match p
    case TimedOut => TimedOutText(v.name, if v.timeout.Some? then v.timeout.value else C.DEFAULT_TIMEOUT);
    case NotFound =>
      if v.command == [] {
        NotFoundText(v.name, "");
        assert !Mentions("");
      } else {
        NotFoundText(v.name, C.FormatPart(v.command[0], args).value);
      }
    case Exited(code, _, _, _) =>
      if code != 0 {
        ExitText(v.name, code);
      } else {
        UnparsedText(v.name);
      }
  }
}
