/** The unified-diff generator, and the count-driven parser and applier that undo it. */
module Patch {
  import opened Text
  import opened Wrappers

  // ---------- content lines ----------

  function ReplaceCRLF(s: string): string {
    if s == "" then ""
    else if |s| >= 2 && s[0] == '\r' && s[1] == '\n' then ['\n'] + ReplaceCRLF(s[2..])
    else [s[0]] + ReplaceCRLF(s[1..])
  }

  /** Line ends unified and one final newline dropped. */
  function Normalized(content: string): string {
    var s := ReplaceCRLF(content);
    if HasSuffix(s, "\n") then s[..|s| - 1] else s
  }

  function SplitLines(content: string): seq<string> {
    if Normalized(content) == "" then [] else Split(Normalized(content), '\n')
  }

  function CountContentLines(content: string): nat { |SplitLines(content)| }

  predicate NewlineFree(lines: seq<string>) {
    forall i | 0 <= i < |lines| :: '\n' !in lines[i]
  }

  lemma SplitLinesNewlineFree(content: string)
    ensures NewlineFree(SplitLines(content))
  {
    if Normalized(content) != "" {
      forall i | 0 <= i < |SplitLines(content)| ensures '\n' !in SplitLines(content)[i] {
        SplitPartsLackSeparator(Normalized(content), '\n', i);
      }
    }
  }

  /** Splitting forgets line-end style and one final newline, and nothing else. */
  lemma SplitLinesForgets(c: string, d: string)
    ensures SplitLines(c) == SplitLines(d) <==> Normalized(c) == Normalized(d)
  {
    JoinSplit(Normalized(c), '\n');
    JoinSplit(Normalized(d), '\n');
  }

  // ---------- the generator ----------

  datatype FilePatch = FilePatch(path: string, removed: seq<string>, added: seq<string>)

  function CleanPath(path: string): string {
    var clean := TrimPrefix(TrimSpace(path), "./");
    if clean == "" then "unknown.txt" else clean
  }

  function PatchOf(path: string, original: string, modified: string): FilePatch {
    FilePatch(CleanPath(path), SplitLines(original), SplitLines(modified))
  }

  function HunkHeader(n: nat, m: nat): string {
    "@@ -1," + Decimal(n) + " +1," + Decimal(m) + " @@"
  }

  function Header(p: FilePatch): seq<string> {
    ["diff --git a/" + p.path + " b/" + p.path, "--- a/" + p.path, "+++ b/" + p.path, HunkHeader(|p.removed|, |p.added|)]
  }

  function Mark(mark: char, lines: seq<string>): seq<string> {
    seq(|lines|, i requires 0 <= i < |lines| => [mark] + lines[i])
  }

  function PatchLines(p: FilePatch): seq<string> {
    Header(p) + Mark('-', p.removed) + Mark('+', p.added)
  }

  /** Every line followed by a newline. */
  function Unlines(lines: seq<string>): string {
    if lines == [] then "" else Unlines(lines[..|lines| - 1]) + lines[|lines| - 1] + "\n"
  }

  function Diff(p: FilePatch): string { Unlines(PatchLines(p)) }

  method GenerateUnifiedDiff(path: string, originalContent: string, modifiedContent: string) returns (b: string)
    ensures b == Diff(PatchOf(path, originalContent, modifiedContent))
  {
    var cleanPath := TrimPrefix(TrimSpace(path), "./");
    if cleanPath == "" {
      cleanPath := "unknown.txt";
    }
    var origLines, modLines := SplitLines(originalContent), SplitLines(modifiedContent);
    ghost var p := PatchOf(path, originalContent, modifiedContent);
    b := "diff --git a/" + cleanPath + " b/" + cleanPath + "\n";
    b := b + "--- a/" + cleanPath + "\n";
    b := b + "+++ b/" + cleanPath + "\n";
    b := b + HunkHeader(|origLines|, |modLines|) + "\n";
    HeaderText(p);
    assert Header(p) + Mark('-', origLines[..0]) == Header(p);
    for i := 0 to |origLines|
      invariant b == Unlines(Header(p) + Mark('-', origLines[..i]))
    {
      WriteMarked(Header(p), '-', origLines, i);
      b := b + "-";
      b := b + origLines[i];
      b := b + "\n";
    }
    assert origLines[..|origLines|] == origLines;
    ghost var upper := Header(p) + Mark('-', origLines);
    assert upper + Mark('+', modLines[..0]) == upper;
    for i := 0 to |modLines|
      invariant b == Unlines(upper + Mark('+', modLines[..i]))
    {
      WriteMarked(upper, '+', modLines, i);
      b := b + "+";
      b := b + modLines[i];
      b := b + "\n";
    }
    assert modLines[..|modLines|] == modLines;
  }

  lemma WriteMarked(before: seq<string>, mark: char, lines: seq<string>, i: nat)
    requires i < |lines|
    ensures Unlines(before + Mark(mark, lines[..i + 1]))
            == Unlines(before + Mark(mark, lines[..i])) + [mark] + lines[i] + "\n"
  {
    assert before + Mark(mark, lines[..i + 1]) == (before + Mark(mark, lines[..i])) + [[mark] + lines[i]];
    AppendLine(before + Mark(mark, lines[..i]), [mark] + lines[i]);
  }

  lemma AppendLine(lines: seq<string>, line: string)
    ensures Unlines(lines + [line]) == Unlines(lines) + line + "\n"
  {
    assert (lines + [line])[..|lines|] == lines;
  }

  lemma HeaderText(p: FilePatch)
    ensures Unlines(Header(p)) ==
            "diff --git a/" + p.path + " b/" + p.path + "\n" + "--- a/" + p.path + "\n" + "+++ b/" + p.path + "\n"
            + HunkHeader(|p.removed|, |p.added|) + "\n"
  {
    var h := Header(p);
    AppendLine([], h[0]);
    AppendLine([h[0]], h[1]);
    AppendLine([h[0], h[1]], h[2]);
    AppendLine([h[0], h[1], h[2]], h[3]);
    assert [] + [h[0]] == [h[0]] && [h[0]] + [h[1]] == [h[0], h[1]] && [h[0], h[1]] + [h[2]] == [h[0], h[1], h[2]];
    assert [h[0], h[1], h[2]] + [h[3]] == h;
  }

  // ---------- the parser ----------

  /** Reads `@@ -1,n +1,m @@`. */
  function ParseHunkHeader(line: string): Option<(nat, nat)> {
    if !("@@ -1," <= line) then None
    else
      var (n, rest) := ReadDigits(0, line[6..]);
      if !(" +1," <= rest) then None
      else
        var (m, tail) := ReadDigits(0, rest[4..]);
        if tail == " @@" then Some((n, m)) else None
  }

  predicate AllMarked(mark: char, lines: seq<string>) {
    forall i | 0 <= i < |lines| :: lines[i] != "" && lines[i][0] == mark
  }

  function Unmark(lines: seq<string>): seq<string> {
    seq(|lines|, i requires 0 <= i < |lines| => if lines[i] == "" then "" else lines[i][1..])
  }

  /** One file patch from the front of `lines`: the header says how many lines follow. */
  function ParseOne(lines: seq<string>): (r: Option<(FilePatch, seq<string>)>)
    ensures r.Some? ==> |r.value.1| + 4 <= |lines|
  {
    if |lines| < 4 || !("--- a/" <= lines[1]) || ParseHunkHeader(lines[3]).None? then None
    else
      var path := lines[1][6..];
      var (n, m) := ParseHunkHeader(lines[3]).value;
      if |lines| < 4 + n + m then None
      else
        var p := FilePatch(path, Unmark(lines[4..4 + n]), Unmark(lines[4 + n..4 + n + m]));
        if lines[0] == "diff --git a/" + path + " b/" + path && lines[2] == "+++ b/" + path && AllMarked('-', lines[4..4 + n]) && AllMarked('+', lines[4 + n..4 + n + m])
        then Some((p, lines[4 + n + m..])) else None
  }

  /** Patches separated by an empty line, the last one ended by the final newline. */
  function ParseAll(lines: seq<string>): Option<seq<FilePatch>>
    decreases |lines|
  {
    if lines == [""] then Some([])
    else
      match ParseOne(lines)
      case None => None
      case Some((p, rest)) =>
        if rest == [""] then Some([p])
        else if rest == [] || rest[0] != "" then None
        else
          match ParseAll(rest[1..])
          case None => None
          case Some(ps) => Some([p] + ps)
  }

  function ParsePatches(text: string): Option<seq<FilePatch>> { ParseAll(Split(text, '\n')) }

  function DiffAll(ps: seq<FilePatch>): seq<string> {
    if ps == [] then [] else [Diff(ps[0])] + DiffAll(ps[1..])
  }

  /** The combined patch of a branch/PR request. */
  function Combined(ps: seq<FilePatch>): string { Join(DiffAll(ps), "\n") }

  // ---------- what content lines are ----------

  /** A line of a text and how it ends. */
  datatype TextLine = TextLine(content: string, crlf: bool)

  predicate ProperLine(l: TextLine) {
    '\n' !in l.content && (!l.crlf ==> l.content == "" || l.content[|l.content| - 1] != '\r')
  }

  function EndOf(l: TextLine): string { if l.crlf then "\r\n" else "\n" }

  function TextOf(lines: seq<TextLine>): string {
    if lines == [] then "" else lines[0].content + EndOf(lines[0]) + TextOf(lines[1..])
  }

  function Contents(lines: seq<TextLine>): (contents: seq<string>)
    ensures |contents| == |lines|
  {
    seq(|lines|, i requires 0 <= i < |lines| => lines[i].content)
  }

  lemma {:induction false} ReplaceWithin(s: string, rest: string)
    requires '\n' !in s && (s != "" && s[|s| - 1] == '\r' ==> rest == "" || rest[0] != '\n')
    ensures ReplaceCRLF(s + rest) == s + ReplaceCRLF(rest)
    decreases s
  {
    if s == "" {
      assert s + rest == rest;
    } else {
      var t := s + rest;
      assert t[0] == s[0] && t[1..] == s[1..] + rest;
      assert |s| > 1 ==> t[1] == s[1] && s[1] in s;
      ReplaceWithin(s[1..], rest);
      assert [s[0]] + (s[1..] + ReplaceCRLF(rest)) == s + ReplaceCRLF(rest);
    }
  }

  lemma Regroup(a: string, b: string, c: string, d: string)
    ensures a + b + c + d == a + b + (c + d) && a + (b + c) == a + b + c
  {
  }

  lemma ReplaceLine(l: TextLine, rest: string)
    requires ProperLine(l)
    ensures ReplaceCRLF(l.content + EndOf(l) + rest) == l.content + "\n" + ReplaceCRLF(rest)
  {
    var tail := EndOf(l) + rest;
    Regroup(l.content, EndOf(l), rest, "");
    ReplaceWithin(l.content, tail);
    ReplaceEnd(l, rest);
    Regroup(l.content, "\n", ReplaceCRLF(rest), "");
  }

  lemma ReplaceEnd(l: TextLine, rest: string)
    ensures EndOf(l) + rest != "" && (EndOf(l) + rest)[0] == EndOf(l)[0]
    ensures ReplaceCRLF(EndOf(l) + rest) == "\n" + ReplaceCRLF(rest)
  {
    var tail := EndOf(l) + rest;
    if l.crlf {
      assert tail[0] == '\r' && tail[1] == '\n' && tail[2..] == rest;
    } else {
      assert tail[0] == '\n' && tail[1..] == rest;
    }
  }

  lemma {:induction false} UnlinesFront(lines: seq<string>)
    requires lines != []
    ensures Unlines(lines) == lines[0] + "\n" + Unlines(lines[1..])
  {
    var n := |lines| - 1;
    if n == 0 {
      assert lines[..0] == [] && lines[1..] == [];
      assert "" + lines[0] + "\n" == lines[0] + "\n" + "";
    } else {
      var init, last := lines[..n], lines[n];
      UnlinesFront(init);
      assert init[1..] == lines[1..][..n - 1] && lines[1..][n - 1] == last;
      Regroup(lines[0], "\n", Unlines(init[1..]), last + "\n");
      Regroup(Unlines(init), last, "\n", "");
      Regroup(Unlines(init[1..]), last, "\n", "");
    }
  }

  lemma {:induction false} ReplaceText(lines: seq<TextLine>, tail: string)
    requires (forall i | 0 <= i < |lines| :: ProperLine(lines[i])) && '\n' !in tail
    ensures ReplaceCRLF(TextOf(lines) + tail) == Unlines(Contents(lines)) + tail
  {
    if lines == [] {
      ReplaceWithin(tail, "");
      assert tail + "" == tail && "" + tail == tail;
    } else {
      ReplaceText(lines[1..], tail);
      ReplaceFirst(lines, tail);
    }
  }

  lemma ReplaceFirst(lines: seq<TextLine>, tail: string)
    requires lines != [] && ProperLine(lines[0])
    requires ReplaceCRLF(TextOf(lines[1..]) + tail) == Unlines(Contents(lines[1..])) + tail
    ensures ReplaceCRLF(TextOf(lines) + tail) == Unlines(Contents(lines)) + tail
  {
    var l := lines[0];
    Regroup(l.content, EndOf(l), TextOf(lines[1..]), tail);
    ReplaceLine(l, TextOf(lines[1..]) + tail);
    Regroup(l.content, "\n", Unlines(Contents(lines[1..])), tail);
    UnlinesFront(Contents(lines));
    assert Contents(lines)[1..] == Contents(lines[1..]);
  }

  /** Main result about content lines: whatever each line ends with, and with or without a last line that
      does not end, splitting gives the lines; but one empty line alone counts as none. */
  lemma SplitLinesMeaning(lines: seq<TextLine>, tail: string)
    requires (forall i | 0 <= i < |lines| :: ProperLine(lines[i])) && '\n' !in tail
    ensures SplitLines(TextOf(lines) + tail)
            == if tail != "" then Contents(lines) + [tail] else if Contents(lines) == [""] then [] else Contents(lines)
  {
    var contents := Contents(lines);
    ReplaceText(lines, tail);
    if tail != "" {
      OpenEnd(contents, tail);
    } else if lines != [] {
      ClosedEnd(contents);
      assert Unlines(contents) + "" == Unlines(contents);
    }
  }

  lemma OpenEnd(contents: seq<string>, tail: string)
    requires NewlineFree(contents) && tail != "" && '\n' !in tail
    ensures var s := Unlines(contents) + tail; !HasSuffix(s, "\n") && Split(s, '\n') == contents + [tail]
  {
    var s := Unlines(contents) + tail;
    assert s[|s| - 1] == tail[|tail| - 1];
    assert s[|s| - 1..][0] == s[|s| - 1];
    SplitUnlines(contents, tail);
    SplitWithoutSeparator(tail, '\n');
  }

  lemma ClosedEnd(contents: seq<string>)
    requires NewlineFree(contents) && contents != []
    ensures var s := Unlines(contents);
            && HasSuffix(s, "\n") && Split(s[..|s| - 1], '\n') == contents
            && (s[..|s| - 1] == "" <==> contents == [""])
  {
    var n := |contents| - 1;
    var s := Unlines(contents);
    assert s[..|s| - 1] == Unlines(contents[..n]) + contents[n];
    SplitUnlines(contents[..n], contents[n]);
    SplitWithoutSeparator(contents[n], '\n');
    assert contents == contents[..n] + [contents[n]];
    if s[..|s| - 1] == "" { assert Split("", '\n') == [""]; }
  }

  /** What the patch calls a file: white space around the path and one leading `./` are dropped. */
  lemma CleanPathMeaning(path: string, lead: string, name: string, left: string, right: string)
    requires Tight(lead + name) && Pads(path, lead + name, left, right) && lead in {"", "./"} && !("./" <= name)
    ensures CleanPath(path) == if name == "" then "unknown.txt" else name
  {
    TrimPadded(path, lead + name, left, right);
    assert lead == "" ==> lead + name == name;
    assert lead == "./" ==> (lead + name)[2..] == name;
  }

  // ---------- round trip ----------

  predicate WellFormed(p: FilePatch) {
    '\n' !in p.path && NewlineFree(p.removed) && NewlineFree(p.added)
  }

  lemma ReadAfterDecimal(n: nat, rest: string)
    requires rest == "" || !IsDigit(rest[0])
    ensures ReadDigits(0, Decimal(n) + rest) == (n, rest)
  {
    ReadDecimal(n, rest);
  }

  function HeaderTail(m: nat): string { " +1," + Decimal(m) + " @@" }

  lemma ReadHeaderTail(m: nat)
    ensures " +1," <= HeaderTail(m) && ReadDigits(0, HeaderTail(m)[4..]) == (m, " @@")
  {
    assert HeaderTail(m) == " +1," + (Decimal(m) + " @@");
    assert HeaderTail(m)[4..] == Decimal(m) + " @@";
    ReadAfterDecimal(m, " @@");
  }

  lemma ReadHeaderFront(n: nat, tail: string)
    requires tail != "" && tail[0] == ' '
    ensures var line := "@@ -1," + Decimal(n) + tail; "@@ -1," <= line && ReadDigits(0, line[6..]) == (n, tail)
  {
    var line := "@@ -1," + Decimal(n) + tail;
    assert line == "@@ -1," + (Decimal(n) + tail);
    assert line[6..] == Decimal(n) + tail;
    ReadAfterDecimal(n, tail);
  }

  lemma ParseHunkHeaderInverts(n: nat, m: nat)
    ensures ParseHunkHeader(HunkHeader(n, m)) == Some((n, m))
  {
    assert HunkHeader(n, m) == "@@ -1," + Decimal(n) + HeaderTail(m);
    ReadHeaderFront(n, HeaderTail(m));
    ReadHeaderTail(m);
  }

  lemma HunkHeaderCharacters(n: nat, m: nat)
    ensures '\n' !in HunkHeader(n, m) && HunkHeader(n, m)[0] == '@'
  {
    assert forall c <- Decimal(n) :: IsDigit(c);
    assert forall c <- Decimal(m) :: IsDigit(c);
  }

  lemma UnmarkMark(mark: char, lines: seq<string>)
    ensures Unmark(Mark(mark, lines)) == lines && AllMarked(mark, Mark(mark, lines))
  {
    assert forall i | 0 <= i < |lines| :: ([mark] + lines[i])[1..] == lines[i];
  }

  lemma ParseOneInverts(p: FilePatch, rest: seq<string>)
    ensures ParseOne(PatchLines(p) + rest) == Some((p, rest))
  {
    var minus, plus := Mark('-', p.removed), Mark('+', p.added);
    var lines := PatchLines(p) + rest;
    var n, m := |p.removed|, |p.added|;
    assert lines[..4] == Header(p);
    assert lines[1] == Header(p)[1] && lines[3] == Header(p)[3];
    assert lines[1][6..] == p.path;
    ParseHunkHeaderInverts(n, m);
    assert lines[4..4 + n] == minus;
    assert lines[4 + n..4 + n + m] == plus;
    assert lines[4 + n + m..] == rest;
    UnmarkMark('-', p.removed);
    UnmarkMark('+', p.added);
  }

  lemma {:induction false} SplitUnlines(lines: seq<string>, tail: string)
    requires NewlineFree(lines)
    ensures Split(Unlines(lines) + tail, '\n') == lines + Split(tail, '\n')
  {
    if lines == [] {
      assert Unlines(lines) + tail == tail;
    } else {
      var k := |lines| - 1;
      assert Unlines(lines) + tail == Unlines(lines[..k]) + (lines[k] + ['\n'] + tail);
      SplitUnlines(lines[..k], lines[k] + ['\n'] + tail);
      SplitAtSeparator(lines[k], '\n', tail);
      SplitWithoutSeparator(lines[k], '\n');
      assert lines[..k] + ([lines[k]] + Split(tail, '\n')) == lines + Split(tail, '\n');
    }
  }

  lemma PatchLinesNewlineFree(p: FilePatch)
    requires WellFormed(p)
    ensures NewlineFree(PatchLines(p))
  {
    HunkHeaderCharacters(|p.removed|, |p.added|);
    assert NewlineFree(Header(p));
    assert forall i | 0 <= i < |p.removed| :: '\n' !in ['-'] + p.removed[i];
    assert forall i | 0 <= i < |p.added| :: '\n' !in ['+'] + p.added[i];
  }

  lemma CombinedUnfold(ps: seq<FilePatch>)
    requires ps != []
    ensures Combined(ps) == Diff(ps[0]) + if |ps| == 1 then "" else "\n" + Combined(ps[1..])
  {
    assert DiffAll(ps)[1..] == DiffAll(ps[1..]);
    if |ps| == 1 {
      assert ps[1..] == [];
      assert Diff(ps[0]) + "" == Diff(ps[0]);
    } else {
      assert Diff(ps[0]) + "\n" + Combined(ps[1..]) == Diff(ps[0]) + ("\n" + Combined(ps[1..]));
    }
  }

  /** The lines of a combined patch. */
  function CombinedLines(ps: seq<FilePatch>): (lines: seq<string>)
    ensures lines != []
  {
    if ps == [] then [""]
    else PatchLines(ps[0]) + if |ps| == 1 then [""] else [""] + CombinedLines(ps[1..])
  }

  lemma SplitBlock(lines: seq<string>, rest: string)
    requires NewlineFree(lines)
    ensures Split(Unlines(lines) + "", '\n') == lines + [""]
    ensures Split(Unlines(lines) + ("\n" + rest), '\n') == lines + ([""] + Split(rest, '\n'))
  {
    SplitUnlines(lines, "");
    SplitUnlines(lines, "\n" + rest);
    assert ("\n" + rest)[1..] == rest;
  }

  lemma {:induction false} SplitCombined(ps: seq<FilePatch>)
    requires forall i | 0 <= i < |ps| :: WellFormed(ps[i])
    ensures Split(Combined(ps), '\n') == CombinedLines(ps)
  {
    if ps != [] {
      PatchLinesNewlineFree(ps[0]);
      CombinedUnfold(ps);
      SplitBlock(PatchLines(ps[0]), Combined(ps[1..]));
      if |ps| > 1 { SplitCombined(ps[1..]); }
    }
  }

  lemma ParseLast(lines: seq<string>, p: FilePatch)
    requires ParseOne(lines) == Some((p, [""]))
    ensures ParseAll(lines) == Some([p])
  {
  }

  lemma ParseMore(lines: seq<string>, p: FilePatch, rest: seq<string>, ps: seq<FilePatch>)
    requires ParseOne(lines) == Some((p, [""] + rest)) && rest != [] && ParseAll(rest) == Some(ps)
    ensures ParseAll(lines) == Some([p] + ps)
  {
    assert ([""] + rest)[1..] == rest && |[""] + rest| > 1;
  }

  lemma {:induction false} ParseCombinedLines(ps: seq<FilePatch>)
    ensures ParseAll(CombinedLines(ps)) == Some(ps)
  {
    if |ps| == 1 {
      ParseOneInverts(ps[0], [""]);
      ParseLast(CombinedLines(ps), ps[0]);
      assert ps == [ps[0]];
    } else if |ps| > 1 {
      var rest := CombinedLines(ps[1..]);
      ParseOneInverts(ps[0], [""] + rest);
      ParseCombinedLines(ps[1..]);
      ParseMore(CombinedLines(ps), ps[0], rest, ps[1..]);
      assert ps == [ps[0]] + ps[1..];
    }
  }

  lemma ParseCombined(ps: seq<FilePatch>)
    requires forall i | 0 <= i < |ps| :: WellFormed(ps[i])
    ensures ParsePatches(Combined(ps)) == Some(ps)
  {
    SplitCombined(ps);
    ParseCombinedLines(ps);
  }

  // ---------- a branch/PR request ----------

  datatype FileChange = FileChange(path: string, original: string, modified: string)

  function PatchesOf(files: seq<FileChange>): seq<FilePatch> {
    seq(|files|, i requires 0 <= i < |files| => PatchOf(files[i].path, files[i].original, files[i].modified))
  }

  /** Main result: for every list of files whose clean paths hold no newline, the combined patch
      text parses back to each file's clean path, original lines and modified lines. */
  lemma CombinedPatchRoundTrip(files: seq<FileChange>)
    requires forall i | 0 <= i < |files| :: '\n' !in CleanPath(files[i].path)
    ensures ParsePatches(Combined(PatchesOf(files))) == Some(PatchesOf(files))
  {
    forall i | 0 <= i < |files| ensures WellFormed(PatchesOf(files)[i]) {
      SplitLinesNewlineFree(files[i].original);
      SplitLinesNewlineFree(files[i].modified);
    }
    ParseCombined(PatchesOf(files));
  }

  /** Applies a hunk that starts at line 1: the removed lines must match. */
  function Apply(p: FilePatch, file: seq<string>): Option<seq<string>> {
    if p.removed <= file then Some(p.added + file[|p.removed|..]) else None
  }

  function LinesStarting(mark: char, lines: seq<string>): nat {
    if lines == [] then 0
    else LinesStarting(mark, lines[..|lines| - 1]) + if lines[|lines| - 1] != "" && lines[|lines| - 1][0] == mark then 1 else 0
  }

  lemma {:induction false} LinesStartingAppend(mark: char, xs: seq<string>, ys: seq<string>)
    ensures LinesStarting(mark, xs + ys) == LinesStarting(mark, xs) + LinesStarting(mark, ys)
  {
    if ys == [] {
      assert xs + ys == xs;
    } else {
      LinesStartingAppend(mark, xs, ys[..|ys| - 1]);
      assert (xs + ys)[..|xs + ys| - 1] == xs + ys[..|ys| - 1];
    }
  }

  lemma {:induction false} LinesStartingMark(mark: char, other: char, lines: seq<string>)
    ensures LinesStarting(mark, Mark(other, lines)) == if mark == other then |lines| else 0
  {
    if lines != [] {
      var k := |lines| - 1;
      assert Mark(other, lines)[..k] == Mark(other, lines[..k]);
      LinesStartingMark(mark, other, lines[..k]);
    }
  }

  lemma LinesStartingHeader(p: FilePatch)
    ensures LinesStarting('-', Header(p)) == LinesStarting('+', Header(p)) == 1
  {
    var h := Header(p);
    HunkHeaderCharacters(|p.removed|, |p.added|);
    assert h[0][0] == 'd' && h[1][0] == '-' && h[2][0] == '+' && h[3][0] == '@';
    assert h[..3][..2] == h[..2] && h[..2][..1] == h[..1] && h[..1][..0] == [];
    assert LinesStarting('-', h[..1]) == 0 && LinesStarting('+', h[..1]) == 0;
    assert LinesStarting('-', h[..2]) == 1 && LinesStarting('+', h[..2]) == 0;
    assert LinesStarting('-', h[..3]) == 1 && LinesStarting('+', h[..3]) == 1;
  }

  lemma LinesStartingPatch(p: FilePatch, c: char)
    requires c == '-' || c == '+'
    ensures LinesStarting(c, PatchLines(p) + [""]) == 1 + if c == '-' then |p.removed| else |p.added|
  {
    var minus, plus := Mark('-', p.removed), Mark('+', p.added);
    LinesStartingAppend(c, PatchLines(p), [""]);
    assert LinesStarting(c, [""]) == 0;
    LinesStartingAppend(c, Header(p) + minus, plus);
    LinesStartingAppend(c, Header(p), minus);
    LinesStartingHeader(p);
    LinesStartingMark(c, '-', p.removed);
    LinesStartingMark(c, '+', p.added);
  }

  lemma PatchOfWellFormed(path: string, original: string, modified: string)
    requires '\n' !in CleanPath(path)
    ensures WellFormed(PatchOf(path, original, modified))
  {
    SplitLinesNewlineFree(original);
    SplitLinesNewlineFree(modified);
  }

  lemma ParseSingle(p: FilePatch)
    requires WellFormed(p)
    ensures ParsePatches(Diff(p)) == Some([p])
  {
    ParseCombined([p]);
    CombinedUnfold([p]);
    assert Diff(p) + "" == Diff(p);
  }

  lemma ApplyToOwnLines(p: FilePatch)
    ensures Apply(p, p.removed) == Some(p.added)
  {
    assert p.removed[|p.removed|..] == [];
    assert p.added + [] == p.added;
  }

  /** Main result: a generated patch parses back, and applying it to the original's lines gives the modified's. */
  lemma PatchTransforms(path: string, original: string, modified: string)
    requires '\n' !in CleanPath(path)
    ensures var p := PatchOf(path, original, modified);
            ParsePatches(Diff(p)) == Some([p]) && Apply(p, SplitLines(original)) == Some(SplitLines(modified))
  {
    PatchOfWellFormed(path, original, modified);
    ParseSingle(PatchOf(path, original, modified));
    ApplyToOwnLines(PatchOf(path, original, modified));
  }

  /** In the patch text the lines starting with plus outnumber those starting with minus by
      exactly the reported line delta. */
  lemma LineDeltaCounted(path: string, original: string, modified: string)
    requires '\n' !in CleanPath(path)
    ensures var lines := Split(Diff(PatchOf(path, original, modified)), '\n');
            LinesStarting('+', lines) - LinesStarting('-', lines) == CountContentLines(modified) - CountContentLines(original)
  {
    var p := PatchOf(path, original, modified);
    PatchOfWellFormed(path, original, modified);
    PatchLinesNewlineFree(p);
    SplitUnlines(PatchLines(p), "");
    assert Diff(p) + "" == Diff(p) && Split("", '\n') == [""];
    LinesStartingPatch(p, '-');
    LinesStartingPatch(p, '+');
  }
}
