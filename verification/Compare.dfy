/** Output comparison (pkg/utils/compare.go): what the replace, split, trim and join passes
    amount to. */
module Compare {
  import opened Text

  const BLANKS := {' ', '\t'}
  const TRAILING := {' ', '\t', '\n'}

  function TrimLines(lines: seq<string>): (r: seq<string>)
    ensures |r| == |lines|
    ensures forall k | 0 <= k < |r| :: r[k] == TrimRight(lines[k], BLANKS)
  {
    if lines == [] then [] else [TrimRight(lines[0], BLANKS)] + TrimLines(lines[1..])
  }

  /** The composition of the passes, as a value. */
  function Normalized(s: string): string {
    TrimRight(Join(TrimLines(Split(ReplaceCr(ReplaceCrLf(s)), '\n')), '\n'), TRAILING)
  }

  /** `normalizeOutput`: the lines are trimmed in place. */
  method NormalizeOutput(text: string) returns (r: string)
    ensures r == Normalized(text)
  {
    hide Split, TrimRight, Join, ReplaceCrLf, ReplaceCr, TrimLines;
    var s := ReplaceCrLf(text);
    s := ReplaceCr(s);
    var parts := Split(s, '\n');
    var lines := new string[|parts|](i requires 0 <= i < |parts| => parts[i]);
    var i := 0;
    while i < lines.Length
      invariant 0 <= i <= lines.Length == |parts|
      invariant forall k | 0 <= k < i :: lines[k] == TrimRight(parts[k], BLANKS)
      invariant forall k | i <= k < lines.Length :: lines[k] == parts[k]
    {
      lines[i] := TrimRight(lines[i], BLANKS);
      i := i + 1;
    }
    assert lines[..] == TrimLines(parts);
    var res := Join(lines[..], '\n');
    r := TrimRight(res, TRAILING);
  }

  method CompareOutput(actual: string, expected: string) returns (equal: bool)
    ensures equal <==> SameOutput(actual, expected)
    ensures equal <==> Content(actual) == Content(expected)
  {
    var a := NormalizeOutput(actual);
    var e := NormalizeOutput(expected);
    SameOutputMeansSameLines(actual, expected);
    equal := a == e;
  }

  predicate SameOutput(actual: string, expected: string) {
    Normalized(actual) == Normalized(expected)
  }

  // The meaning, without any of the passes: a line ends at CR LF, at CR or at LF.

  function Lines(s: string): (r: seq<string>)
    ensures |r| > 0
  {
    if s == [] then [""]
    else if |s| > 1 && s[0] == '\r' && s[1] == '\n' then [""] + Lines(s[2..])
    else if s[0] == '\r' || s[0] == '\n' then [""] + Lines(s[1..])
    else
      var rest := Lines(s[1..]);
      [[s[0]] + rest[0]] + rest[1..]
  }

  function DropTrailingEmpty(lines: seq<string>): (r: seq<string>)
    ensures |r| <= |lines| && r == lines[..|r|]
    ensures r == [] || r[|r| - 1] != ""
    ensures forall k | |r| <= k < |lines| :: lines[k] == ""
  {
    if lines == [] || lines[|lines| - 1] != "" then lines else DropTrailingEmpty(lines[..|lines| - 1])
  }

  /** What counts of an output: its lines without trailing blanks, without trailing empty lines. */
  function Content(s: string): seq<string> {
    DropTrailingEmpty(TrimLines(Lines(s)))
  }

  lemma {:induction false} PassesFindLines(s: string)
    ensures Split(ReplaceCr(ReplaceCrLf(s)), '\n') == Lines(s)
  {
    if s == [] {
    } else if |s| > 1 && s[0] == '\r' && s[1] == '\n' {
      PassesFindLines(s[2..]);
      var t := ReplaceCrLf(s);
      assert t[1..] == ReplaceCrLf(s[2..]);
      assert ReplaceCr(t)[1..] == ReplaceCr(t[1..]);
    } else {
      PassesFindLines(s[1..]);
      var t := ReplaceCrLf(s);
      assert t[1..] == ReplaceCrLf(s[1..]);
      assert ReplaceCr(t)[1..] == ReplaceCr(t[1..]);
    }
  }

  lemma {:induction false} JoinSnoc(lines: seq<string>, last: string)
    requires lines != []
    ensures Join(lines + [last], '\n') == Join(lines, '\n') + "\n" + last
  {
    if |lines| == 1 {
      assert (lines + [last])[1..] == [last];
    } else {
      JoinSnoc(lines[1..], last);
      assert (lines + [last])[1..] == lines[1..] + [last];
    }
  }

  /** Lines that are trimmed already. */
  predicate Trimmed(lines: seq<string>) {
    forall k | 0 <= k < |lines| :: lines[k] == "" || lines[k][|lines[k]| - 1] !in TRAILING
  }

  lemma LastLineStays(init: seq<string>, last: string)
    requires last != "" && last[|last| - 1] !in TRAILING
    ensures TrimRight(Join(init + [last], '\n'), TRAILING) == Join(init + [last], '\n')
  {
    var whole := Join(init + [last], '\n');
    if init != [] {
      JoinSnoc(init, last);
    }
    assert whole != "" && whole[|whole| - 1] == last[|last| - 1];
  }

  lemma TrimDropsOne(s: string, x: char, cutset: set<char>)
    requires x in cutset
    ensures TrimRight(s + [x], cutset) == TrimRight(s, cutset)
  {
    assert (s + [x])[..|s|] == s;
  }

  /** The final trim of the joined lines drops exactly the trailing empty lines. */
  lemma {:induction false} FinalTrimDropsEmptyLines(lines: seq<string>)
    requires Trimmed(lines)
    ensures TrimRight(Join(lines, '\n'), TRAILING) == Join(DropTrailingEmpty(lines), '\n')
    decreases |lines|
  {
    hide TrimRight, Join;
    if lines == [] {
      NothingToTrim();
    } else {
      var n := |lines| - 1;
      var init, last := lines[..n], lines[n];
      assert lines == init + [last];
      if last != "" {
        LastLineStays(init, last);
      } else {
        FinalTrimDropsEmptyLines(init);
        if init != [] {
          JoinSnoc(init, "");
          assert Join(init, '\n') + "\n" + "" == Join(init, '\n') + ['\n'];
          TrimDropsOne(Join(init, '\n'), '\n', TRAILING);
        } else {
          NothingToTrim();
        }
      }
    }
  }

  lemma NothingToTrim()
    ensures Join([], '\n') == "" && Join([""], '\n') == "" && TrimRight("", TRAILING) == ""
  {
  }

  lemma SplitLinesAreTrimmed(s: string)
    ensures var lines := TrimLines(Split(s, '\n'));
      Trimmed(lines) && forall k | 0 <= k < |lines| :: '\n' !in lines[k]
  {
    var parts := Split(s, '\n');
    var lines := TrimLines(parts);
    forall k | 0 <= k < |lines|
      ensures '\n' !in lines[k] && (lines[k] == "" || lines[k][|lines[k]| - 1] !in TRAILING)
    {
      assert lines[k] == parts[k][..|lines[k]|];
      if lines[k] != "" { assert lines[k][|lines[k]| - 1] in parts[k]; }
    }
  }

  /** The normal form is the content, joined with line feeds. */
  lemma NormalizedIsContent(s: string)
    ensures Normalized(s) == Join(Content(s), '\n')
    ensures forall k | 0 <= k < |Content(s)| :: '\n' !in Content(s)[k]
    ensures Trimmed(Content(s))
  {
    PassesFindLines(s);
    SplitLinesAreTrimmed(ReplaceCr(ReplaceCrLf(s)));
    FinalTrimDropsEmptyLines(TrimLines(Lines(s)));
  }

  lemma ContentFromNormalized(s: string)
    ensures Content(s) == if Normalized(s) == "" then [] else Split(Normalized(s), '\n')
  {
    NormalizedIsContent(s);
    var c := Content(s);
    if c != [] {
      SplitJoin(c, '\n');
      JoinNotEmpty(c);
    }
  }

  lemma JoinNotEmpty(lines: seq<string>)
    requires lines != [] && lines[|lines| - 1] != ""
    ensures Join(lines, '\n') != ""
  {
  }

  /** Two outputs compare equal exactly when their lines, right-trimmed and without trailing
      empty ones, are the same. */
  lemma SameOutputMeansSameLines(actual: string, expected: string)
    ensures SameOutput(actual, expected) <==> Content(actual) == Content(expected)
  {
    NormalizedIsContent(actual);
    NormalizedIsContent(expected);
    ContentFromNormalized(actual);
    ContentFromNormalized(expected);
  }

  // Idempotence.

  lemma {:induction false} LinesHaveNoEnds(s: string)
    ensures forall k | 0 <= k < |Lines(s)| :: '\r' !in Lines(s)[k] && '\n' !in Lines(s)[k]
  {
    if s == [] {
    } else if |s| > 1 && s[0] == '\r' && s[1] == '\n' {
      LinesHaveNoEnds(s[2..]);
    } else {
      LinesHaveNoEnds(s[1..]);
    }
  }

  lemma {:induction false} NothingToReplace(s: string)
    requires '\r' !in s
    ensures ReplaceCr(ReplaceCrLf(s)) == s
  {
    if s != [] {
      NothingToReplace(s[1..]);
      assert ReplaceCrLf(s)[1..] == ReplaceCrLf(s[1..]);
    }
  }

  lemma {:induction false} JoinAdds(lines: seq<string>, c: char)
    requires c != '\n' && forall k | 0 <= k < |lines| :: c !in lines[k]
    ensures c !in Join(lines, '\n')
  {
    if |lines| > 1 { JoinAdds(lines[1..], c); }
  }

  lemma ContentHasNoReturns(s: string)
    ensures forall k | 0 <= k < |Content(s)| :: '\r' !in Content(s)[k]
  {
    LinesHaveNoEnds(s);
    var c := Content(s);
    forall k | 0 <= k < |c| ensures '\r' !in c[k] {
      assert c[k] == TrimRight(Lines(s)[k], BLANKS) == Lines(s)[k][..|c[k]|];
    }
  }

  lemma TrimmedStays(lines: seq<string>)
    requires Trimmed(lines)
    ensures TrimLines(lines) == lines
  {
    forall k | 0 <= k < |lines| ensures TrimLines(lines)[k] == lines[k] {
      TrimRightUnique(lines[k], BLANKS, |lines[k]|);
    }
  }

  /** Normalising twice is normalising once. */
  lemma NormalizingTwice(s: string)
    ensures Normalized(Normalized(s)) == Normalized(s)
  {
    var c := Content(s);
    NormalizedIsContent(s);
    ContentHasNoReturns(s);
    JoinAdds(c, '\r');
    NothingToReplace(Normalized(s));
    if c != [] {
      SplitJoin(c, '\n');
      TrimmedStays(c);
      FinalTrimDropsEmptyLines(c);
    }
  }

  // Trailing blanks and line ends.

  predicate LineEnd(c: char) {
    c == '\r' || c == '\n'
  }

  /** One more byte in front that is no line end, or is one of its own. */
  lemma LinesCons(c: char, s: string)
    ensures !LineEnd(c) ==> Lines([c] + s) == [[c] + Lines(s)[0]] + Lines(s)[1..]
    ensures LineEnd(c) && !(c == '\r' && s != [] && s[0] == '\n') ==> Lines([c] + s) == [""] + Lines(s)
  {
    assert ([c] + s)[1..] == s;
  }

  /** Only the last line grew. */
  predicate LastGrew(l: seq<string>, l': seq<string>, x: char)
    requires l != []
  {
    l' == l[..|l| - 1] + [l[|l| - 1] + [x]]
  }

  /** A byte in front of the first line leaves that the last one grew. */
  lemma GrewInFront(c: char, l: seq<string>, l': seq<string>, x: char)
    requires l != [] && LastGrew(l, l', x)
    ensures l' != [] && LastGrew([[c] + l[0]] + l[1..], [[c] + l'[0]] + l'[1..], x) && LastGrew([""] + l, [""] + l', x)
  {
    if |l| == 1 {
      assert [c] + (l[0] + [x]) == ([c] + l[0]) + [x];
    }
  }

  /** One more byte at the end that ends no line. */
  lemma {:induction false} LinesGrow(s: string, x: char)
    requires !LineEnd(x)
    ensures LastGrew(Lines(s), Lines(s + [x]), x)
  {
    var t := s + [x];
    if s == [] {
      assert t == [x] && t[1..] == [] && Lines([]) == [""];
      assert [x] + "" == "" + [x];
    } else if |s| > 1 && s[0] == '\r' && s[1] == '\n' {
      LinesGrow(s[2..], x);
      assert t[2..] == s[2..] + [x];
      GrewInFront(x, Lines(s[2..]), Lines(t[2..]), x);
    } else {
      LinesGrow(s[1..], x);
      assert t == [s[0]] + (s[1..] + [x]) && s == [s[0]] + s[1..];
      hide Lines, LastGrew;
      LinesCons(s[0], s[1..] + [x]);
      LinesCons(s[0], s[1..]);
      GrewInFront(s[0], Lines(s[1..]), Lines(s[1..] + [x]), x);
    }
  }

  /** One more line end at the end; a line feed after a carriage return is part of it. */
  function EndsAdded(s: string, x: char): seq<string> {
    if x == '\n' && s != [] && s[|s| - 1] == '\r' then [] else [""]
  }

  lemma {:induction false} LinesEnd(s: string, x: char)
    requires x == '\n' || x == '\r'
    ensures Lines(s + [x]) == Lines(s) + EndsAdded(s, x)
  {
    hide Lines, EndsAdded;
    if s == "" {
      OneEnd(x);
      assert s + [x] == [x];
    } else if |s| > 1 && s[0] == '\r' && s[1] == '\n' {
      LinesEnd(s[2..], x);
      SameEnds(s, 2, x);
      assert s == ['\r', '\n'] + s[2..] && s + [x] == ['\r', '\n'] + (s[2..] + [x]);
      LinesPair(s[2..]);
      LinesPair(s[2..] + [x]);
      assert [""] + (Lines(s[2..]) + EndsAdded(s, x)) == [""] + Lines(s[2..]) + EndsAdded(s, x);
    } else if s == "\r" && x == '\n' {
      LinesOfPair();
      assert s + [x] == "\r\n";
    } else {
      LinesEnd(s[1..], x);
      SameEnds(s, 1, x);
      assert s + [x] == [s[0]] + (s[1..] + [x]) && s == [s[0]] + s[1..];
      LinesCons(s[0], s[1..] + [x]);
      LinesCons(s[0], s[1..]);
      FrontOfConcat(s[0], Lines(s[1..]), EndsAdded(s[1..], x));
    }
  }

  /** Whether a line is added is decided by the last two bytes. */
  lemma SameEnds(s: string, k: nat, x: char)
    requires 0 < k <= |s| && !(k == |s| && s[k - 1] == '\r' && x == '\n')
    ensures EndsAdded(s[k..], x) == EndsAdded(s, x)
  {
  }

  lemma OneEnd(x: char)
    requires x == '\n' || x == '\r'
    ensures Lines([x]) == Lines("") + EndsAdded("", x)
  {
    assert [x][1..] == [];
  }

  lemma LinesPair(rest: string)
    ensures Lines(['\r', '\n'] + rest) == [""] + Lines(rest)
  {
    assert (['\r', '\n'] + rest)[2..] == rest;
  }

  lemma LinesOfPair()
    ensures Lines("\r\n") == Lines("\r") == Lines("\r") + EndsAdded("\r", '\n')
  {
    assert "\r\n"[2..] == "\r"[1..] == [];
  }

  lemma {:induction false} TrimLinesAppend(a: seq<string>, b: seq<string>)
    ensures TrimLines(a + b) == TrimLines(a) + TrimLines(b)
  {
    assert forall k | 0 <= k < |a + b| :: TrimLines(a + b)[k] == (TrimLines(a) + TrimLines(b))[k];
  }

  lemma DropIgnoresEmpty(lines: seq<string>)
    ensures DropTrailingEmpty(lines + [""]) == DropTrailingEmpty(lines)
  {
    assert (lines + [""])[..|lines|] == lines;
  }

  lemma OneMoreBlank(s: string, x: char)
    requires x in BLANKS
    ensures TrimLines(Lines(s + [x])) == TrimLines(Lines(s))
  {
    hide Lines, TrimLines, TrimRight;
    var l := Lines(s);
    var n := |l| - 1;
    LinesGrow(s, x);
    TrimLinesAppend(l[..n], [l[n] + [x]]);
    TrimLinesAppend(l[..n], [l[n]]);
    assert l == l[..n] + [l[n]];
    TrimDropsOne(l[n], x, BLANKS);
    assert TrimLines([l[n] + [x]]) == TrimLines([l[n]]);
  }

  lemma OneMoreEnd(s: string, x: char)
    requires x == '\n' || x == '\r'
    ensures DropTrailingEmpty(TrimLines(Lines(s + [x]))) == DropTrailingEmpty(TrimLines(Lines(s)))
  {
    LinesEnd(s, x);
    if EndsAdded(s, x) == [""] {
      EmptyLineTrimmed();
      hide Lines, TrimLines, DropTrailingEmpty;
      TrimLinesAppend(Lines(s), [""]);
      DropIgnoresEmpty(TrimLines(Lines(s)));
    } else {
      assert Lines(s) + [] == Lines(s);
    }
  }

  lemma EmptyLineTrimmed()
    ensures TrimLines([""]) == [""]
  {
  }

  lemma OneMoreTrailing(s: string, x: char)
    requires x == '\n' || x == '\r' || x in BLANKS
    ensures Content(s + [x]) == Content(s)
  {
    hide Lines, TrimLines, DropTrailingEmpty;
    if x in BLANKS {
      OneMoreBlank(s, x);
    } else {
      OneMoreEnd(s, x);
    }
  }

  lemma OneMoreOther(s: string, x: char)
    requires x !in BLANKS && !LineEnd(x)
    ensures Content(s + [x]) != Content(s)
  {
    var l, l' := Lines(s), Lines(s + [x]);
    var n := |l| - 1;
    LinesGrow(s, x);
    hide Lines, LastGrew;
    assert l'[n] == l[n] + [x] && |l'| == n + 1 by {
      LastOf(l, l', x);
    }
    assert TrimLines(l')[n] == TrimRight(l[n] + [x], BLANKS) == l[n] + [x];
    assert Content(s + [x]) == TrimLines(l');
    if |Content(s)| == n + 1 {
      assert Content(s)[n] == TrimRight(l[n], BLANKS);
    }
  }

  lemma LastOf(l: seq<string>, l': seq<string>, x: char)
    requires l != [] && LastGrew(l, l', x)
    ensures |l'| == |l| && l'[|l| - 1] == l[|l| - 1] + [x]
  {
  }

  /** Of all bytes, exactly blanks, tabs and line ends may be added at the end. */
  lemma TrailingExactly(s: string, x: char)
    ensures SameOutput(s + [x], s) <==> x in {' ', '\t', '\r', '\n'}
  {
    hide Content, SameOutput;
    SameOutputMeansSameLines(s + [x], s);
    if x in {' ', '\t', '\r', '\n'} {
      OneMoreTrailing(s, x);
    } else {
      OneMoreOther(s, x);
    }
  }

  /** Blanks and line ends added at the end of an output change nothing. */
  lemma {:induction false} TrailingIsIgnored(s: string, tail: string)
    requires forall k | 0 <= k < |tail| :: tail[k] in {' ', '\t', '\r', '\n'}
    ensures Normalized(s + tail) == Normalized(s)
    ensures SameOutput(s + tail, s)
    decreases |tail|
  {
    if tail == [] {
      assert s + tail == s;
    } else {
      assert s + tail == (s + [tail[0]]) + tail[1..];
      TrailingIsIgnored(s + [tail[0]], tail[1..]);
      OneMoreTrailing(s, tail[0]);
      NormalizedIsContent(s);
      NormalizedIsContent(s + [tail[0]]);
    }
  }
}
