/** The hand-written YAML printer of the catalog, read back by the rules of YAML 1.2.2
    (scripts/enrich_verbs.py). */
module YamlEmitter {
  import opened Common

  // ---- the printer ---------------------------------------------------------------------------

  /** s.replace(c, cc) */
  function Doubled(s: string, c: char): string {
    if s == "" then "" else (if s[0] == c then [c, c] else [s[0]]) + Doubled(s[1..], c)
  }

  function Quoted(s: Option<string>): string {
    if s.None? then "null" else "'" + Doubled(Doubled(s.value, '\\'), '\'') + "'"
  }

  function Joined(xs: seq<Option<string>>): string {
    if xs == [] then ""
    else if |xs| == 1 then Quoted(xs[0])
    else Quoted(xs[0]) + ", " + Joined(xs[1..])
  }

  function FlowList(xs: seq<Option<string>>): string { "[" + Joined(xs) + "]" }

  // ---- the reader ----------------------------------------------------------------------------

  /** nb-json of section 5.1: what may stand in a quoted scalar on one line. */
  predicate NbJson(c: char) { c == '\t' || c as int >= 0x20 }

  predicate IsBreak(c: char) { c == '\n' || c == '\r' }

  predicate AtBreak(s: string) { s != "" && IsBreak(s[0]) }

  function SkipWhite(s: string): (r: string)
    ensures |r| <= |s|
  {
    if s != "" && (s[0] == ' ' || s[0] == '\t') then SkipWhite(s[1..]) else s
  }

  /** b-break of section 5.4: CR LF is one break. */
  function AfterBreak(s: string): (r: string)
    requires AtBreak(s)
    ensures |r| < |s|
  {
    if |s| > 1 && s[0] == '\r' && s[1] == '\n' then s[2..] else s[1..]
  }

  /** What follows the spaces of a line, n of them at most, and how many of the n it lacks. */
  function Unindent(n: nat, s: string): (r: (string, nat))
    ensures |r.0| <= |s|
  {
    if n > 0 && s != "" && s[0] == ' ' then Unindent(n - 1, s[1..]) else (s, n)
  }

  /** A line behind its prefix (section 6.3): n spaces and any white space, or too few spaces. */
  function LineText(n: nat, s: string): (r: (string, bool))
    ensures |r.0| <= |s|
  {
    var u := Unindent(n, s);
    if u.1 == 0 then (SkipWhite(u.0), true) else (u.0, false)
  }

  /** Section 6.5, from behind a break: each further empty line is a line feed, a break without
      one was a space, and the next line must be indented. */
  function AfterFold(n: nat, s: string, feeds: string): (r: Option<(string, string)>)
    ensures r.Some? ==> |r.value.1| <= |s|
    decreases |s|
  {
    var line := LineText(n, s);
    if AtBreak(line.0) then AfterFold(n, AfterBreak(line.0), feeds + "\n")
    else if line.1 then Some((if feeds == "" then " " else feeds, line.0))
    else None
  }

  /** The content of a quoted scalar: white space about a break goes, the breaks are folded, and
      everything else is kept. */
  function Folded(n: nat, s: string): Option<string>
    decreases |s|
  {
    if s == "" then Some("")
    else if AtBreak(SkipWhite(s)) then
      var f := AfterFold(n, AfterBreak(SkipWhite(s)), "");
      if f.None? then None
      else
        var r := Folded(n, f.value.1);
        if r.Some? then Some(f.value.0 + r.value) else None
    else if !NbJson(s[0]) then None
    else
      var r := Folded(n, s[1..]);
      if r.Some? then Some([s[0]] + r.value) else None
  }

  /** Section 7.3.2, from behind the opening quote: a doubled quote is a quote and a single one
      ends the scalar. */
  function Unquoted(s: string): (r: Option<(string, string)>)
    ensures r.Some? ==> |r.value.1| < |s|
    decreases |s|
  {
    if s == "" then None
    else if s[0] == '\'' && (|s| == 1 || s[1] != '\'') then Some(("", s[1..]))
    else
      var r := Unquoted(if s[0] == '\'' then s[2..] else s[1..]);
      if r.Some? then Some(([s[0]] + r.value.0, r.value.1)) else None
  }

  /** A single-quoted scalar, or the plain scalar null, in a node indented by n. */
  function ReadEntry(n: nat, s: string): (r: Option<(Option<string>, string)>)
    ensures r.Some? ==> |r.value.1| < |s|
  {
    if s != "" && s[0] == '\'' then
      var q := Unquoted(s[1..]);
      if q.None? then None
      else
        var f := Folded(n, q.value.0);
        if f.Some? then Some((f, q.value.1)) else None
    else if |s| >= 4 && s[..4] == "null" then Some((None, s[4..]))
    else None
  }

  /** Section 7.4.1, from behind the bracket or a comma. */
  function ReadEntries(n: nat, s: string): Option<(seq<Option<string>>, string)>
    decreases |s|
  {
    if s != "" && s[0] == ']' then Some(([], s[1..]))
    else
      var e := ReadEntry(n, s);
      if e.None? then None
      else
        var rest := SkipWhite(e.value.1);
        if rest == "" then None
        else if rest[0] == ']' then Some(([e.value.0], rest[1..]))
        else if rest[0] == ',' then
          var more := ReadEntries(n, SkipWhite(rest[1..]));
          if more.Some? then Some(([e.value.0] + more.value.0, more.value.1)) else None
        else None
  }

  function ReadFlowList(n: nat, s: string): Option<seq<Option<string>>> {
    if s == "" || s[0] != '[' then None
    else
      var r := ReadEntries(n, SkipWhite(s[1..]));
      if r.Some? && r.value.1 == "" then Some(r.value.0) else None
  }

  // ---- round trip ------------------------------------------------------------------------------

  predicate OneLine(s: string) { forall i :: 0 <= i < |s| ==> NbJson(s[i]) }

  /** What an entry reads back as, if at all: single quotes do not undo a doubled backslash. */
  function ReadBack(n: nat, x: Option<string>): Option<Option<string>> {
    if x.None? then Some(None)
    else
      var f := Folded(n, Doubled(x.value, '\\'));
      if f.Some? then Some(f) else None
  }

  function AllReadBack(n: nat, xs: seq<Option<string>>): Option<seq<Option<string>>> {
    if xs == [] then Some([])
    else
      var first := ReadBack(n, xs[0]);
      var more := AllReadBack(n, xs[1..]);
      if first.Some? && more.Some? then Some([first.value] + more.value) else None
  }

  function AllBackslashed(xs: seq<Option<string>>): (r: seq<Option<string>>)
    ensures |r| == |xs|
  {
    seq(|xs|, i requires 0 <= i < |xs| =>
      if xs[i].None? then None else Some(Doubled(xs[i].value, '\\')))
  }

  lemma {:induction false} QuotedReadsBack(t: string, rest: string)
    requires rest == "" || rest[0] != '\''
    ensures Unquoted(Doubled(t, '\'') + "'" + rest) == Some((t, rest))
  {
    var s := Doubled(t, '\'') + "'" + rest;
    if t == "" {
      assert s == "'" + rest && s[1..] == rest;
    } else {
      QuotedReadsBack(t[1..], rest);
      var tail := Doubled(t[1..], '\'') + "'" + rest;
      assert t == [t[0]] + t[1..];
      if t[0] == '\'' {
        assert s == ['\'', '\''] + tail && s[2..] == tail;
      } else {
        assert s == [t[0]] + tail && s[1..] == tail;
      }
    }
  }

  function Breaks(s: string): nat {
    if s == "" then 0 else (if IsBreak(s[0]) then 1 else 0) + Breaks(s[1..])
  }

  lemma {:induction false} BreaksAppend(a: string, b: string)
    ensures Breaks(a + b) == Breaks(a) + Breaks(b)
  {
    if a == "" {
      assert a + b == b;
    } else {
      BreaksAppend(a[1..], b);
      assert (a + b)[1..] == a[1..] + b;
    }
  }

  lemma {:induction false} WhiteHasNoBreaks(n: nat, s: string)
    ensures Breaks(SkipWhite(s)) == Breaks(s)
    ensures Breaks(Unindent(n, s).0) == Breaks(s)
    ensures AtBreak(s) ==> SkipWhite(s) == s && Breaks(AfterBreak(s)) < Breaks(s)
  {
    if s != "" {
      WhiteHasNoBreaks(if n > 0 then n - 1 else 0, s[1..]);
      if AtBreak(s) && |s| > 1 { assert s[1..][1..] == s[2..]; }
    }
  }

  /** The feeds of a fold and what is behind it hold no more breaks than were there. */
  lemma {:induction false} AfterFoldBreaks(n: nat, s: string, feeds: string)
    ensures var f := AfterFold(n, s, feeds);
            f.Some? ==> Breaks(f.value.0) + Breaks(f.value.1) <= Breaks(feeds) + Breaks(s)
    decreases |s|
  {
    var line := LineText(n, s).0;
    WhiteHasNoBreaks(n, s);
    WhiteHasNoBreaks(n, Unindent(n, s).0);
    if AtBreak(line) {
      WhiteHasNoBreaks(n, line);
      AfterFoldBreaks(n, AfterBreak(line), feeds + "\n");
      BreaksAppend(feeds, "\n");
      assert Breaks("\n") == 1;
    }
  }

  /** Folding loses a break whenever there is one. */
  lemma {:induction false} FoldingLosesABreak(n: nat, s: string)
    ensures var f := Folded(n, s);
            f.Some? ==> Breaks(f.value) <= Breaks(s) && (Breaks(f.value) == Breaks(s) ==> OneLine(s) && f.value == s)
    decreases |s|
  {
    if s == "" {
    } else if AtBreak(SkipWhite(s)) {
      var tail := AfterBreak(SkipWhite(s));
      WhiteHasNoBreaks(n, s);
      WhiteHasNoBreaks(n, SkipWhite(s));
      AfterFoldBreaks(n, tail, "");
      var f := AfterFold(n, tail, "");
      if f.Some? && Folded(n, f.value.1).Some? {
        FoldingLosesABreak(n, f.value.1);
        BreaksAppend(f.value.0, Folded(n, f.value.1).value);
      }
    } else if NbJson(s[0]) && Folded(n, s[1..]).Some? {
      FoldingLosesABreak(n, s[1..]);
      BreaksAppend([s[0]], Folded(n, s[1..]).value);
      assert s == [s[0]] + s[1..];
    }
  }

  lemma {:induction false} OneLineStays(n: nat, s: string)
    requires OneLine(s)
    ensures Folded(n, s) == Some(s) && !AtBreak(SkipWhite(s))
  {
    if s != "" {
      OneLineStays(n, s[1..]);
      assert s == [s[0]] + s[1..];
    }
  }

  /** A quoted scalar means its own text exactly if that is one line. */
  lemma FoldedSameIffOneLine(n: nat, s: string)
    ensures Folded(n, s) == Some(s) <==> OneLine(s)
  {
    FoldingLosesABreak(n, s);
    if OneLine(s) { OneLineStays(n, s); }
  }

  lemma OneLineAppend(a: string, b: string)
    ensures OneLine(a + b) <==> OneLine(a) && OneLine(b)
  {
    assert forall i :: 0 <= i < |a| ==> (a + b)[i] == a[i];
    assert forall i :: 0 <= i < |b| ==> (a + b)[|a| + i] == b[i];
  }

  lemma {:induction false} DoubledKeepsLines(s: string, c: char)
    requires NbJson(c)
    ensures OneLine(Doubled(s, c)) <==> OneLine(s)
    ensures Breaks(Doubled(s, c)) == Breaks(s)
  {
    if s != "" {
      DoubledKeepsLines(s[1..], c);
      var d := Doubled(s[1..], c);
      var first := if s[0] == c then [c, c] else [s[0]];
      assert s == [s[0]] + s[1..];
      assert Doubled(s, c) == first + d;
      OneLineAppend([s[0]], s[1..]);
      OneLineAppend(first, d);
      BreaksAppend(first, d);
    }
  }

  lemma {:induction false} DoubledGrows(s: string, c: char)
    ensures Doubled(s, c) == s <==> c !in s
    ensures |Doubled(s, c)| >= |s| && (c in s ==> |Doubled(s, c)| > |s|)
  {
    if s != "" {
      DoubledGrows(s[1..], c);
      assert s == [s[0]] + s[1..];
      assert s[0] != c ==> Doubled(s, c) == [s[0]] + Doubled(s[1..], c);
    }
  }

  /** An entry comes back as itself exactly if it is one line without a backslash. */
  predicate Faithful(x: Option<string>) { x.Some? ==> OneLine(x.value) && '\\' !in x.value }

  lemma FaithfulIffSame(n: nat, x: Option<string>)
    ensures ReadBack(n, x) == Some(x) <==> Faithful(x)
  {
    if x.Some? {
      var d := Doubled(x.value, '\\');
      DoubledKeepsLines(x.value, '\\');
      DoubledGrows(x.value, '\\');
      FoldedSameIffOneLine(n, d);
      FoldingLosesABreak(n, d);
    }
  }

  lemma EntryReadsBack(n: nat, x: Option<string>, rest: string)
    requires rest == "" || rest[0] != '\''
    ensures ReadEntry(n, Quoted(x) + rest) ==
            if ReadBack(n, x).Some? then Some((ReadBack(n, x).value, rest)) else None
  {
    var s := Quoted(x) + rest;
    if x.Some? {
      var t := Doubled(x.value, '\\');
      assert s[1..] == Doubled(t, '\'') + "'" + rest;
      QuotedReadsBack(t, rest);
    } else {
      assert s[..4] == "null" && s[4..] == rest;
    }
  }

  lemma QuotedStarts(x: Option<string>)
    ensures Quoted(x) != "" && Quoted(x)[0] in {'\'', 'n'}
  {}

  /** Reading one entry off the front, separator included. */
  lemma FirstEntry(n: nat, x: Option<string>, rest: string)
    requires rest != "" && rest[0] != '\'' && SkipWhite(rest) == rest
    ensures var first := ReadBack(n, x);
            ReadEntries(n, Quoted(x) + rest) ==
            if first.None? then None
            else if rest[0] == ']' then Some(([first.value], rest[1..]))
            else if rest[0] != ',' then None
            else
              var more := ReadEntries(n, SkipWhite(rest[1..]));
              if more.Some? then Some(([first.value] + more.value.0, more.value.1)) else None
    ensures SkipWhite(Quoted(x) + rest) == Quoted(x) + rest
  {
    QuotedStarts(x);
    EntryReadsBack(n, x, rest);
    assert (Quoted(x) + rest)[0] == Quoted(x)[0];
  }

  /** An entry, the separator, and what reading the rest gives. */
  lemma CommaEntry(n: nat, x: Option<string>, tail: string)
    requires SkipWhite(tail) == tail
    ensures var more := ReadEntries(n, tail);
            ReadEntries(n, Quoted(x) + (", " + tail)) ==
            if ReadBack(n, x).Some? && more.Some?
            then Some(([ReadBack(n, x).value] + more.value.0, more.value.1)) else None
    ensures SkipWhite(Quoted(x) + (", " + tail)) == Quoted(x) + (", " + tail)
  {
    var rest := ", " + tail;
    FirstEntry(n, x, rest);
    assert rest[1..] == " " + tail && (" " + tail)[1..] == tail;
    assert SkipWhite(rest[1..]) == SkipWhite(tail);
  }

  lemma Regroup(q: string, j: string)
    ensures q + ", " + j + "]" == q + (", " + (j + "]"))
  {}

  lemma JoinedMore(xs: seq<Option<string>>)
    requires |xs| > 1
    ensures Joined(xs) + "]" == Quoted(xs[0]) + (", " + (Joined(xs[1..]) + "]"))
  {
    Regroup(Quoted(xs[0]), Joined(xs[1..]));
    assert Joined(xs) == Quoted(xs[0]) + ", " + Joined(xs[1..]);
  }

  lemma OnlyEntry(n: nat, xs: seq<Option<string>>)
    requires |xs| == 1
    ensures ReadEntries(n, Joined(xs) + "]") ==
            if AllReadBack(n, xs).Some? then Some((AllReadBack(n, xs).value, "")) else None
    ensures SkipWhite(Joined(xs) + "]") == Joined(xs) + "]"
  {
    FirstEntry(n, xs[0], "]");
    assert "]"[1..] == "" && xs[1..] == [];
    assert AllReadBack(n, xs[1..]) == Some([]);
    if ReadBack(n, xs[0]).Some? {
      var v := ReadBack(n, xs[0]).value;
      assert [v] + [] == [v];
    }
  }

  lemma {:induction false} EntriesReadBack(n: nat, xs: seq<Option<string>>)
    ensures ReadEntries(n, Joined(xs) + "]") ==
            if AllReadBack(n, xs).Some? then Some((AllReadBack(n, xs).value, "")) else None
    ensures SkipWhite(Joined(xs) + "]") == Joined(xs) + "]"
  {
    if xs == [] {
      assert Joined(xs) + "]" == "]" && "]"[1..] == "";
    } else if |xs| == 1 {
      OnlyEntry(n, xs);
    } else {
      EntriesReadBack(n, xs[1..]);
      JoinedMore(xs);
      CommaEntry(n, xs[0], Joined(xs[1..]) + "]");
    }
  }

  lemma {:induction false} AllReadBackAt(n: nat, xs: seq<Option<string>>, ys: seq<Option<string>>)
    requires |ys| == |xs|
    ensures AllReadBack(n, xs) == Some(ys) <==> forall i :: 0 <= i < |xs| ==> ReadBack(n, xs[i]) == Some(ys[i])
  {
    if xs != [] {
      AllReadBackAt(n, xs[1..], ys[1..]);
      assert forall i :: 1 <= i < |xs| ==> xs[i] == xs[1..][i - 1] && ys[i] == ys[1..][i - 1];
      assert ys == [ys[0]] + ys[1..];
      assert AllReadBack(n, xs) == Some(ys) <==>
             ReadBack(n, xs[0]) == Some(ys[0]) && AllReadBack(n, xs[1..]) == Some(ys[1..]);
    } else {
      assert ys == [];
    }
  }

  /** A printed flow list reads back as its entries do, and not at all exactly if one of them does
      not. Where every string is one line, that is the list with every backslash doubled. */
  lemma FlowListReadsBack(n: nat, xs: seq<Option<string>>)
    ensures ReadFlowList(n, FlowList(xs)) == AllReadBack(n, xs)
    ensures (forall i :: 0 <= i < |xs| ==> xs[i].Some? ==> OneLine(xs[i].value)) <==>
            ReadFlowList(n, FlowList(xs)) == Some(AllBackslashed(xs))
  {
    EntriesReadBack(n, xs);
    var text := FlowList(xs);
    assert text != "" && text[0] == '[' && text[1..] == Joined(xs) + "]";
    var r := ReadEntries(n, SkipWhite(text[1..]));
    assert ReadFlowList(n, text) == if r.Some? && r.value.1 == "" then Some(r.value.0) else None;
    AllReadBackAt(n, xs, AllBackslashed(xs));
    forall i | 0 <= i < |xs|
      ensures (xs[i].Some? ==> OneLine(xs[i].value)) <==> ReadBack(n, xs[i]) == Some(AllBackslashed(xs)[i])
    {
      if xs[i].Some? {
        DoubledKeepsLines(xs[i].value, '\\');
        FoldedSameIffOneLine(n, Doubled(xs[i].value, '\\'));
      }
    }
  }

  /** The list itself comes back exactly if no string holds a backslash or a control character,
      line breaks among them. */
  lemma FlowListRoundTrip(n: nat, xs: seq<Option<string>>)
    ensures ReadFlowList(n, FlowList(xs)) == Some(xs) <==> forall i :: 0 <= i < |xs| ==> Faithful(xs[i])
  {
    FlowListReadsBack(n, xs);
    AllReadBackAt(n, xs, xs);
    forall i | 0 <= i < |xs| ensures ReadBack(n, xs[i]) == Some(xs[i]) <==> Faithful(xs[i]) {
      FaithfulIffSame(n, xs[i]);
    }
  }
}
