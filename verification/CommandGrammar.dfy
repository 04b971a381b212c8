/** The language of command lines, told without the scanner: what a line is made of, what words it
    stands for, and that the splitter reads exactly that. */
module CommandGrammar {
  import opened Text
  import opened Wrappers
  import opened CommandLine

  // ---------- the grammar ----------

  /** What a line is made of. Inside quotes a backslash is an ordinary character. */
  datatype Piece = Plain(c: char) | Escaped(c: char) | Single(text: string) | Double(text: string) | Gap(c: char)

  predicate Valid(p: Piece) {
    match p
    case Plain(c) => c !in ['\\', '\'', '"', ' ', '\t']
    case Escaped(_) => true
    case Single(text) => '\'' !in text
    case Double(text) => '"' !in text
    case Gap(c) => c == ' ' || c == '\t'
  }

  predicate AllValid(ps: seq<Piece>) { forall i | 0 <= i < |ps| :: Valid(ps[i]) }

  function Show(p: Piece): string {
    match p
    case Plain(c) => [c]
    case Escaped(c) => ['\\'] + [c]
    case Single(text) => ['\''] + text + ['\'']
    case Double(text) => ['"'] + text + ['"']
    case Gap(c) => [c]
  }

  function Line(ps: seq<Piece>): string {
    if ps == [] then "" else Show(ps[0]) + Line(ps[1..])
  }

  function Content(p: Piece): string {
    match p
    case Plain(c) => [c]
    case Escaped(c) => [c]
    case Single(text) => text
    case Double(text) => text
    case Gap(_) => ""
  }

  /** The words between the gaps, empty ones dropped; `word` is the one begun. */
  function WordsOf(ps: seq<Piece>, word: string): seq<string> {
    if ps == [] then Kept(word)
    else if ps[0].Gap? then Kept(word) + WordsOf(ps[1..], "")
    else WordsOf(ps[1..], word + Content(ps[0]))
  }

  lemma {:induction false} LineAppend(ps: seq<Piece>, qs: seq<Piece>)
    ensures Line(ps + qs) == Line(ps) + Line(qs)
  {
    if ps == [] {
      assert ps + qs == qs;
    } else {
      assert (ps + qs)[1..] == ps[1..] + qs;
      LineAppend(ps[1..], qs);
    }
  }

  // ---------- the splitter reads what is written ----------

  function Open(args: seq<string>, token: string): Scan { Scan(args, token, NO_QUOTE, false) }

  lemma {:induction false} ScanInside(args: seq<string>, token: string, q: char, text: string)
    requires q != NO_QUOTE && q !in text
    ensures ScanAll(Scan(args, token, q, false), text) == Scan(args, token + text, q, false)
    decreases text
  {
    if text == "" {
      assert token + text == token;
    } else {
      ScanInside(args, token + [text[0]], q, text[1..]);
      assert token + [text[0]] + text[1..] == token + text;
    }
  }

  lemma ScanOne(st: Scan, c: char)
    ensures ScanAll(st, [c]) == Step(st, c)
  {
    assert [c][1..] == "";
  }

  lemma ScanQuoted(args: seq<string>, token: string, q: char, text: string)
    requires (q == '\'' || q == '"') && q !in text
    ensures ScanAll(Open(args, token), [q] + text + [q]) == Open(args, token + text)
  {
    ScanConcat(Open(args, token), [q] + text, [q]);
    ScanConcat(Open(args, token), [q], text);
    ScanOne(Open(args, token), q);
    ScanInside(args, token, q, text);
    ScanOne(Scan(args, token + text, q, false), q);
  }

  lemma ScanEscaped(args: seq<string>, token: string, c: char)
    ensures ScanAll(Open(args, token), ['\\'] + [c]) == Open(args, token + [c])
  {
    ScanConcat(Open(args, token), ['\\'], [c]);
    ScanOne(Open(args, token), '\\');
    ScanOne(Scan(args, token, NO_QUOTE, true), c);
  }

  lemma ScanPiece(args: seq<string>, token: string, p: Piece)
    requires Valid(p)
    ensures ScanAll(Open(args, token), Show(p))
            == if p.Gap? then Open(args + Kept(token), "") else Open(args, token + Content(p))
  {
    match p
    case Plain(c) => ScanOne(Open(args, token), c);
    case Escaped(c) => ScanEscaped(args, token, c);
    case Single(text) => ScanQuoted(args, token, '\'', text);
    case Double(text) => ScanQuoted(args, token, '"', text);
    case Gap(c) =>
      ScanOne(Open(args, token), c);
      assert args + [] == args;
  }

  /** The words finished and the word begun. */
  function Reached(args: seq<string>, token: string, ps: seq<Piece>): (seq<string>, string)
    decreases ps
  {
    if ps == [] then (args, token)
    else if ps[0].Gap? then Reached(args + Kept(token), "", ps[1..])
    else Reached(args, token + Content(ps[0]), ps[1..])
  }

  lemma {:induction false} ScanWhole(args: seq<string>, token: string, ps: seq<Piece>)
    requires AllValid(ps)
    ensures ScanAll(Open(args, token), Line(ps)) == Open(Reached(args, token, ps).0, Reached(args, token, ps).1)
    decreases ps
  {
    if ps != [] {
      assert Line(ps) == Show(ps[0]) + Line(ps[1..]);
      ScanConcat(Open(args, token), Show(ps[0]), Line(ps[1..]));
      ScanPiece(args, token, ps[0]);
      if ps[0].Gap? {
        ScanWhole(args + Kept(token), "", ps[1..]);
      } else {
        ScanWhole(args, token + Content(ps[0]), ps[1..]);
      }
    }
  }

  lemma {:induction false} ReachedWords(args: seq<string>, token: string, ps: seq<Piece>)
    ensures Reached(args, token, ps).0 + Kept(Reached(args, token, ps).1) == args + WordsOf(ps, token)
    decreases ps
  {
    if ps != [] {
      if ps[0].Gap? {
        ReachedWords(args + Kept(token), "", ps[1..]);
        assert args + Kept(token) + WordsOf(ps[1..], "") == args + (Kept(token) + WordsOf(ps[1..], ""));
      } else {
        ReachedWords(args, token + Content(ps[0]), ps[1..]);
      }
    }
  }

  lemma ScanLine(ps: seq<Piece>)
    requires AllValid(ps)
    ensures Finish(ScanAll(START, Line(ps))) == Ok(WordsOf(ps, ""))
  {
    ScanWhole([], "", ps);
    ReachedWords([], "", ps);
    var (args, token) := Reached([], "", ps);
    assert [] + WordsOf(ps, "") == WordsOf(ps, "");
    assert args + [] == args;
  }

  /** Whatever is written in this way splits into its words. */
  lemma TokensAreWords(input: string, ps: seq<Piece>)
    requires AllValid(ps) && TrimSpace(input) == Line(ps)
    ensures Tokens(input) == Ok(WordsOf(ps, ""))
  {
    ScanLine(ps);
    if ps != [] { LineHasText(ps); }
  }

  lemma LineHasText(ps: seq<Piece>)
    requires ps != []
    ensures Line(ps) != "" && Line(ps)[0] == Show(ps[0])[0]
  {
    assert |Show(ps[0])| >= 1;
  }

  // ---------- every line that splits is so written ----------

  /** An open quote of a line that splits is closed. */
  lemma {:induction false} ReadQuote(args: seq<string>, token: string, q: char, s: string) returns (i: nat)
    requires q != NO_QUOTE && Finish(ScanAll(Scan(args, token, q, false), s)).Ok?
    ensures i < |s| && s[i] == q && q !in s[..i]
    ensures ScanAll(Scan(args, token, q, false), s) == ScanAll(Open(args, token + s[..i]), s[i + 1..])
    decreases s
  {
    i := 0;
    if s != "" && s[0] != q {
      i := ReadQuote(args, token + [s[0]], q, s[1..]);
      assert s[1..][i + 1..] == s[i + 2..];
      assert s[..i + 1] == [s[0]] + s[1..][..i];
      assert token + [s[0]] + s[1..][..i] == token + s[..i + 1];
      i := i + 1;
    } else {
      assert token + s[..0] == token;
    }
  }

  lemma ReadPiece(args: seq<string>, token: string, s: string) returns (p: Piece, rest: string)
    requires s != "" && Finish(ScanAll(Open(args, token), s)).Ok?
    ensures Valid(p) && s == Show(p) + rest && |rest| < |s|
  {
    var c := s[0];
    if c == '\\' {
      assert s[1..] != "";
      p, rest := Escaped(s[1]), s[2..];
    } else if c == '\'' || c == '"' {
      var i := ReadQuote(args, token, c, s[1..]);
      p, rest := if c == '\'' then Single(s[1..][..i]) else Double(s[1..][..i]), s[1..][i + 1..];
      assert s == [c] + s[1..][..i] + [c] + rest;
    } else {
      p, rest := if c == ' ' || c == '\t' then Gap(c) else Plain(c), s[1..];
    }
  }

  lemma {:induction false} ReadLine(args: seq<string>, token: string, s: string) returns (ps: seq<Piece>)
    requires Finish(ScanAll(Open(args, token), s)).Ok?
    ensures AllValid(ps) && Line(ps) == s
    decreases |s|
  {
    ps := [];
    if s != "" {
      var p, rest := ReadPiece(args, token, s);
      ScanConcat(Open(args, token), Show(p), rest);
      ScanPiece(args, token, p);
      if p.Gap? {
        ps := ReadLine(args + Kept(token), "", rest);
      } else {
        ps := ReadLine(args, token + Content(p), rest);
      }
      ps := [p] + ps;
      assert ps[1..] == ps[1..] && Line(ps) == Show(p) + Line(ps[1..]);
    }
  }

  /** Main result: what the splitter does, in full. A line splits into these words exactly when it can be
      written as pieces that stand for them; a line that cannot be so written is an error. */
  lemma SplitMeaning(input: string, ws: seq<string>)
    ensures Tokens(input) == Ok(ws) <==> exists ps :: AllValid(ps) && Line(ps) == TrimSpace(input) && WordsOf(ps, "") == ws
    ensures Tokens(input) == Err(CommandInvalid) <==> forall ps | AllValid(ps) :: Line(ps) != TrimSpace(input)
  {
    if Tokens(input).Ok? {
      var ps := WrittenLine(input);
      TokensAreWords(input, ps);
    }
    forall ps | AllValid(ps) && Line(ps) == TrimSpace(input) ensures Tokens(input) == Ok(WordsOf(ps, "")) {
      TokensAreWords(input, ps);
    }
  }

  lemma WrittenLine(input: string) returns (ps: seq<Piece>)
    requires Tokens(input).Ok?
    ensures AllValid(ps) && Line(ps) == TrimSpace(input)
  {
    if TrimSpace(input) == "" {
      ps := [];
    } else {
      ps := ReadLine([], "", TrimSpace(input));
    }
  }

  // ---------- lines left open ----------

  /** A line left inside either quote, or after a backslash, is an error. */
  lemma OpenLinesFail(input: string, ps: seq<Piece>, tail: string)
    requires AllValid(ps) && TrimSpace(input) == Line(ps) + tail
    requires tail == "\\" || (tail != "" && tail[0] in ['\'', '"'] && tail[0] !in tail[1..])
    ensures Tokens(input) == Err(CommandInvalid)
  {
    ScanWhole([], "", ps);
    var (args, token) := Reached([], "", ps);
    ScanConcat(START, Line(ps), tail);
    if tail != "\\" {
      assert tail == [tail[0]] + tail[1..];
      ScanConcat(Open(args, token), [tail[0]], tail[1..]);
      ScanOne(Open(args, token), tail[0]);
      ScanInside(args, token, tail[0], tail[1..]);
    } else {
      ScanOne(Open(args, token), '\\');
    }
  }

  // ---------- printing in any style ----------

  datatype Style = InSingle | InDouble | Escaping

  /** A word, the style it is written in, and the gap before the next one. */
  datatype Element = Element(word: string, style: Style, gap: char)

  predicate Printable(e: Element) {
    && (e.gap == ' ' || e.gap == '\t')
    && (e.style == InSingle ==> '\'' !in e.word) && (e.style == InDouble ==> '"' !in e.word)
  }

  function Escapes(w: string): (ps: seq<Piece>)
    ensures |ps| == |w| && AllValid(ps)
  {
    seq(|w|, i requires 0 <= i < |w| => Escaped(w[i]))
  }

  function Styled(e: Element): seq<Piece> {
    match e.style
    case InSingle => [Single(e.word)]
    case InDouble => [Double(e.word)]
    case Escaping => Escapes(e.word)
  }

  /** A word and the gap after it. */
  function Fronted(e: Element): seq<Piece> { Styled(e) + [Gap(e.gap)] }

  function Pieces(es: seq<Element>): seq<Piece> {
    if es == [] then [] else if |es| == 1 then Styled(es[0]) else Fronted(es[0]) + Pieces(es[1..])
  }

  function WordsIn(es: seq<Element>): (ws: seq<string>)
    ensures |ws| == |es|
  {
    seq(|es|, i requires 0 <= i < |es| => es[i].word)
  }

  lemma {:induction false} EscapesSpell(w: string, word: string, rest: seq<Piece>)
    ensures WordsOf(Escapes(w) + rest, word) == WordsOf(rest, word + w)
    decreases w
  {
    if w == "" {
      assert Escapes(w) + rest == rest && word + w == word;
    } else {
      assert (Escapes(w) + rest)[1..] == Escapes(w[1..]) + rest;
      EscapesSpell(w[1..], word + [w[0]], rest);
      assert word + [w[0]] + w[1..] == word + w;
    }
  }

  lemma StyledSpells(e: Element, rest: seq<Piece>)
    ensures WordsOf(Styled(e) + rest, "") == WordsOf(rest, e.word)
  {
    assert "" + e.word == e.word;
    if e.style == Escaping {
      EscapesSpell(e.word, "", rest);
    } else {
      assert (Styled(e) + rest)[1..] == rest;
    }
  }

  lemma FrontedSpells(e: Element, rest: seq<Piece>)
    ensures WordsOf(Fronted(e) + rest, "") == Kept(e.word) + WordsOf(rest, "")
  {
    var tail := [Gap(e.gap)] + rest;
    assert Fronted(e) + rest == Styled(e) + tail;
    StyledSpells(e, tail);
    assert tail[1..] == rest;
  }

  lemma LastSpells(e: Element)
    ensures WordsOf(Styled(e), "") == Kept(e.word)
  {
    StyledSpells(e, []);
    assert Styled(e) + [] == Styled(e);
  }

  lemma StyledValid(e: Element)
    requires Printable(e)
    ensures AllValid(Styled(e)) && AllValid(Fronted(e))
  {
  }

  lemma NonEmptyFirst(es: seq<Element>)
    requires es != []
    ensures NonEmpty(WordsIn(es)) == Kept(es[0].word) + NonEmpty(WordsIn(es[1..]))
  {
    assert WordsIn(es)[1..] == WordsIn(es[1..]);
  }

  lemma {:induction false} PiecesSpell(es: seq<Element>)
    requires forall i | 0 <= i < |es| :: Printable(es[i])
    ensures AllValid(Pieces(es)) && WordsOf(Pieces(es), "") == NonEmpty(WordsIn(es))
  {
    if es != [] {
      StyledValid(es[0]);
      NonEmptyFirst(es);
      PiecesSpell(es[1..]);
      if |es| == 1 {
        LastSpells(es[0]);
        assert es[1..] == [] && Kept(es[0].word) + NonEmpty(WordsIn([])) == Kept(es[0].word);
      } else {
        FrontedSpells(es[0], Pieces(es[1..]));
      }
    }
  }

  /** Trimming leaves an element at the end of a line alone unless an escape writes white space last, or nothing. */
  predicate Firm(e: Element) {
    e.style == Escaping ==> e.word != "" && !IsSpace(e.word[|e.word| - 1])
  }

  lemma StyledEnds(e: Element)
    requires Firm(e)
    ensures Line(Styled(e)) != "" && Tight(Line(Styled(e)))
  {
    if e.style == Escaping {
      var n := |e.word| - 1;
      assert Escapes(e.word) == Escapes(e.word[..n]) + [Escaped(e.word[n])];
      LineAppend(Escapes(e.word[..n]), [Escaped(e.word[n])]);
      LineHasText(Styled(e));
      assert [Escaped(e.word[n])][1..] == [] && Line([Escaped(e.word[n])]) == ['\\'] + [e.word[n]];
    } else {
      assert Styled(e)[1..] == [];
    }
  }

  predicate EndsFirm(line: string) { line != "" && !IsSpace(line[|line| - 1]) }

  lemma {:induction false} PiecesEnd(es: seq<Element>)
    requires es != [] && Firm(es[|es| - 1])
    ensures EndsFirm(Line(Pieces(es)))
  {
    if |es| == 1 {
      StyledEnds(es[0]);
    } else {
      var rest := es[1..];
      PiecesEnd(rest);
      LineAppend(Fronted(es[0]), Pieces(rest));
      EndOfBoth(Line(Fronted(es[0])), Line(Pieces(rest)));
    }
  }

  lemma EndOfBoth(a: string, b: string)
    requires EndsFirm(b)
    ensures EndsFirm(a + b)
  {
  }

  lemma PiecesStart(es: seq<Element>)
    requires es != [] && Firm(es[0])
    ensures Line(Pieces(es)) != "" && !IsSpace(Line(Pieces(es))[0])
  {
    StyledEnds(es[0]);
    if |es| > 1 {
      LineAppend(Fronted(es[0]), Pieces(es[1..]));
      LineAppend(Styled(es[0]), [Gap(es[0].gap)]);
    }
  }

  /** Main result: printing in any style, chosen word by word, with blanks or tabs between. The splitter gives
      back the words, without the empty ones. (At either end of the line white space may not be written by an
      escape alone, since the line is trimmed first.) */
  lemma AnyStyleInverts(es: seq<Element>)
    requires forall i | 0 <= i < |es| :: Printable(es[i])
    requires es != [] ==> Firm(es[0]) && Firm(es[|es| - 1])
    ensures Tokens(Line(Pieces(es))) == Ok(NonEmpty(WordsIn(es)))
  {
    PiecesSpell(es);
    PiecesTight(es);
    TokensAreWords(Line(Pieces(es)), Pieces(es));
  }

  lemma PiecesTight(es: seq<Element>)
    requires es != [] ==> Firm(es[0]) && Firm(es[|es| - 1])
    ensures TrimSpace(Line(Pieces(es))) == Line(Pieces(es))
  {
    var line := Line(Pieces(es));
    if es != [] {
      PiecesStart(es);
      PiecesEnd(es);
    }
    assert Tight(line);
    TrimSpaceFixpoint(line);
  }

  /** An escaped blank at the end of a line: trimming takes it, and the backslash is left open. */
  lemma EscapedBlankAtTheEndFails()
    ensures AllValid([Plain('a'), Escaped(' ')]) && WordsOf([Plain('a'), Escaped(' ')], "") == ["a "]
    ensures Tokens(Line([Plain('a'), Escaped(' ')])) == Err(CommandInvalid)
  {
    LetterAndBlank();
    LetterThenOpen();
  }

  lemma LetterAndBlank()
    ensures WordsOf([Plain('a'), Escaped(' ')], "") == ["a "] && Line([Plain('a'), Escaped(' ')]) == "a\\ "
  {
    var ps := [Plain('a'), Escaped(' ')];
    assert ps[1..] == [Escaped(' ')] && ps[1..][1..] == [];
    assert "" + ['a'] == "a" && "a" + [' '] == "a ";
  }

  lemma LetterLine()
    ensures Line([Plain('a')]) == "a"
  {
    assert [Plain('a')][1..] == [];
  }

  lemma LetterThenOpen()
    ensures Tokens("a\\ ") == Err(CommandInvalid)
  {
    TrimPadded("a\\ ", "a\\", "", " ");
    LetterLine();
    OpenLinesFail("a\\ ", [Plain('a')], "\\");
  }
}
