/** The QA runner's command-line splitter: a scanner with quotes and escapes, the printer it
    inverts, and what validation guarantees about the tokens. */
module CommandLine {
  import opened Text
  import opened Wrappers

  datatype CommandError = CommandEmpty | CommandInvalid | CommandNotAllowed

  const NO_QUOTE: char := '\0'

  /** The scanner's variables. `quote` is the open quote character, or `NO_QUOTE`. */
  datatype Scan = Scan(args: seq<string>, token: string, quote: char, escape: bool)

  function Flush(st: Scan): Scan {
    if st.token != "" then st.(args := st.args + [st.token], token := "") else st
  }

  function Step(st: Scan, r: char): Scan {
    if st.escape then st.(token := st.token + [r], escape := false)
    else if st.quote != NO_QUOTE then
      if r == st.quote then st.(quote := NO_QUOTE) else st.(token := st.token + [r])
    else if r == '\\' then st.(escape := true)
    else if r == '\'' || r == '"' then st.(quote := r)
    else if r == ' ' || r == '\t' then Flush(st)
    else st.(token := st.token + [r])
  }

  function ScanAll(st: Scan, s: string): Scan
    decreases s
  {
    if s == "" then st else ScanAll(Step(st, s[0]), s[1..])
  }

  const START := Scan([], "", NO_QUOTE, false)

  function Finish(st: Scan): Result<seq<string>, CommandError> {
    if st.escape || st.quote != NO_QUOTE then Err(CommandInvalid) else Ok(Flush(st).args)
  }

  function Tokens(input: string): Result<seq<string>, CommandError> {
    var trimmed := TrimSpace(input);
    if trimmed == "" then Ok([]) else Finish(ScanAll(START, trimmed))
  }

  lemma {:induction false} ScanPrefixStep(st: Scan, s: string, i: nat)
    requires i < |s|
    ensures ScanAll(st, s[..i + 1]) == Step(ScanAll(st, s[..i]), s[i])
    decreases s
  {
    assert s[..i + 1] != "" && s[..i + 1][0] == s[0] && s[..i + 1][1..] == s[1..][..i];
    if i == 0 {
      assert s[1..][..0] == "";
    } else {
      ScanPrefixStep(Step(st, s[0]), s[1..], i - 1);
      assert s[..i][0] == s[0] && s[..i][1..] == s[1..][..i - 1];
    }
  }

  method SplitCommandLine(input: string) returns (result: Result<seq<string>, CommandError>)
    ensures result == Tokens(input)
  {
    var trimmed := TrimSpace(input);
    if trimmed == "" {
      return Ok([]);
    }
    var args: seq<string> := [];
    var token := "";
    var quote := NO_QUOTE;
    var escape := false;
    for i := 0 to |trimmed|
      invariant Scan(args, token, quote, escape) == ScanAll(START, trimmed[..i])
    {
      var r := trimmed[i];
      ScanPrefixStep(START, trimmed, i);
      if escape {
        token := token + [r];
        escape := false;
        continue;
      }
      if quote != NO_QUOTE {
        if r == quote {
          quote := NO_QUOTE;
        } else {
          token := token + [r];
        }
        continue;
      }
      if r == '\\' {
        escape := true;
      } else if r == '\'' || r == '"' {
        quote := r;
      } else if r == ' ' || r == '\t' {
        if token != "" {
          args := args + [token];
          token := "";
        }
      } else {
        token := token + [r];
      }
    }
    assert trimmed[..|trimmed|] == trimmed;
    if escape {
      return Err(CommandInvalid);
    }
    if quote != NO_QUOTE {
      return Err(CommandInvalid);
    }
    if token != "" {
      args := args + [token];
    }
    return Ok(args);
  }

  // ---------- scanning in pieces ----------

  lemma {:induction false} ScanConcat(st: Scan, a: string, b: string)
    ensures ScanAll(st, a + b) == ScanAll(ScanAll(st, a), b)
    decreases a
  {
    if a == "" {
      assert a + b == b;
    } else {
      assert (a + b)[0] == a[0] && (a + b)[1..] == a[1..] + b;
      ScanConcat(Step(st, a[0]), a[1..], b);
    }
  }

  function WithEarlier(earlier: seq<string>, st: Scan): Scan {
    st.(args := earlier + st.args)
  }

  /** Tokens already emitted never influence what is emitted next. */
  lemma {:induction false} EarlierArgsInert(earlier: seq<string>, st: Scan, s: string)
    ensures ScanAll(WithEarlier(earlier, st), s) == WithEarlier(earlier, ScanAll(st, s))
    decreases s
  {
    if s != "" {
      assert earlier + (st.args + [st.token]) == (earlier + st.args) + [st.token];
      assert Step(WithEarlier(earlier, st), s[0]) == WithEarlier(earlier, Step(st, s[0]));
      EarlierArgsInert(earlier, Step(st, s[0]), s[1..]);
    }
  }

  lemma TightConcat(a: string, b: string)
    requires a != "" && b != "" && Tight(a) && Tight(b)
    ensures Tight(a + " " + b)
  {
    var s := a + " " + b;
    assert s[0] == a[0] && s[|s| - 1] == b[|b| - 1];
  }

  /** Compositionality: two lines that split on their own split together into the concatenation. */
  lemma TokensCompose(a: string, b: string)
    requires Tight(a) && Tight(b) && Tokens(a).Ok? && Tokens(b).Ok?
    ensures Tokens(a + " " + b) == Ok(Tokens(a).value + Tokens(b).value)
  {
    TrimSpaceFixpoint(a);
    TrimSpaceFixpoint(b);
    if a == "" {
      TrimBlankFront(b);
      assert a + " " + b == " " + b;
      assert [] + Tokens(b).value == Tokens(b).value;
    } else if b == "" {
      TrimBlankBack(a);
      assert a + " " + b == a + " ";
      assert Tokens(a).value + [] == Tokens(a).value;
    } else {
      TightConcat(a, b);
      TrimSpaceFixpoint(a + " " + b);
      var first := ScanAll(START, a);
      ScanConcat(START, a + " ", b);
      ScanConcat(START, a, " ");
      assert ScanAll(first, " ") == Step(first, ' ') by { assert " "[1..] == ""; }
      var done := Tokens(a).value;
      assert Step(first, ' ') == WithEarlier(done, START) by { assert done + [] == done; }
      EarlierArgsInert(done, START, b);
      var second := ScanAll(START, b);
      assert (done + second.args) + [second.token] == done + (second.args + [second.token]);
    }
  }

  lemma TrimBlankFront(b: string)
    requires Tight(b)
    ensures TrimSpace(" " + b) == b
  {
    TrimSpaceFixpoint(b);
    assert (" " + b)[1..] == b;
    assert TrimLeft(" " + b) == TrimLeft(b);
  }

  lemma TrimBlankBack(a: string)
    requires Tight(a) && a != ""
    ensures TrimSpace(a + " ") == a
  {
    TrimSpaceFixpoint(a);
    var s := a + " ";
    assert s[0] == a[0] && s[|s| - 1] == ' ' && s[..|s| - 1] == a;
    assert TrimLeft(s) == s;
    assert TrimRight(s) == TrimRight(a);
  }

  // ---------- the printer ----------

  /** Inside single quotes, an inner single quote is written by closing, escaping it and reopening. */
  function QuoteBody(w: string): string {
    if w == "" then ""
    else if w[0] == '\'' then "'\\''" + QuoteBody(w[1..])
    else [w[0]] + QuoteBody(w[1..])
  }

  function Quote(w: string): string { "'" + QuoteBody(w) + "'" }

  function QuoteAll(ws: seq<string>): seq<string> {
    if ws == [] then [] else [Quote(ws[0])] + QuoteAll(ws[1..])
  }

  function Print(ws: seq<string>): string { Join(QuoteAll(ws), " ") }

  function Kept(w: string): seq<string> { if w == "" then [] else [w] }

  function NonEmpty(ws: seq<string>): seq<string> {
    if ws == [] then [] else Kept(ws[0]) + NonEmpty(ws[1..])
  }

  lemma ScanInnerQuote(args: seq<string>, token: string)
    ensures ScanAll(Scan(args, token, '\'', false), "'\\''") == Scan(args, token + "'", '\'', false)
  {
    var t := "'\\''";
    assert t[1..] == "\\''" && t[1..][1..] == "''" && t[1..][1..][1..] == "'" && t[1..][1..][1..][1..] == "";
    var closed := Scan(args, token, NO_QUOTE, false);
    assert ScanAll(Scan(args, token, '\'', false), t) == ScanAll(closed, "\\''");
    assert ScanAll(closed, "\\''") == ScanAll(closed.(escape := true), "''");
    var written := Scan(args, token + ['\''], NO_QUOTE, false);
    assert ScanAll(closed.(escape := true), "''") == ScanAll(written, "'");
    assert ScanAll(written, "'") == ScanAll(written.(quote := '\''), "");
  }

  lemma {:induction false} ScanQuoteBody(args: seq<string>, token: string, w: string)
    ensures ScanAll(Scan(args, token, '\'', false), QuoteBody(w)) == Scan(args, token + w, '\'', false)
    decreases w
  {
    var st := Scan(args, token, '\'', false);
    if w == "" {
      assert token + w == token;
    } else if w[0] == '\'' {
      ScanConcat(st, "'\\''", QuoteBody(w[1..]));
      ScanInnerQuote(args, token);
      ScanQuoteBody(args, token + "'", w[1..]);
      assert token + "'" + w[1..] == token + w;
    } else {
      var body := QuoteBody(w);
      assert body[0] == w[0] && body[1..] == QuoteBody(w[1..]);
      ScanQuoteBody(args, token + [w[0]], w[1..]);
      assert token + [w[0]] + w[1..] == token + w;
    }
  }

  lemma ScanQuote(args: seq<string>, w: string)
    ensures ScanAll(Scan(args, "", NO_QUOTE, false), Quote(w)) == Scan(args, w, NO_QUOTE, false)
  {
    var st := Scan(args, "", NO_QUOTE, false);
    ScanConcat(st, "'" + QuoteBody(w), "'");
    ScanConcat(st, "'", QuoteBody(w));
    assert "'"[1..] == "";
    ScanQuoteBody(args, "", w);
    assert "" + w == w;
    assert ScanAll(Scan(args, w, '\'', false), "'") == ScanAll(Scan(args, w, NO_QUOTE, false), "");
  }

  lemma ScanQuoteThenBlank(args: seq<string>, w: string)
    ensures ScanAll(Scan(args, "", NO_QUOTE, false), Quote(w) + " ")
            == Scan(args + Kept(w), "", NO_QUOTE, false)
  {
    assert args + [] == args;
    ScanQuote(args, w);
    ScanConcat(Scan(args, "", NO_QUOTE, false), Quote(w), " ");
    assert " "[1..] == "";
    assert ScanAll(Scan(args, w, NO_QUOTE, false), " ") == Step(Scan(args, w, NO_QUOTE, false), ' ');
  }

  lemma PrintUnfold(ws: seq<string>)
    requires ws != []
    ensures Print(ws) == if |ws| == 1 then Quote(ws[0]) else Quote(ws[0]) + " " + Print(ws[1..])
  {
    assert |ws| == 1 ==> ws[1..] == [] && QuoteAll(ws[1..]) == [];
    assert QuoteAll(ws)[1..] == QuoteAll(ws[1..]);
  }

  lemma ScanPrintLast(args: seq<string>, ws: seq<string>)
    requires |ws| == 1
    ensures Finish(ScanAll(Scan(args, "", NO_QUOTE, false), Print(ws))) == Ok(args + NonEmpty(ws))
  {
    PrintUnfold(ws);
    ScanQuote(args, ws[0]);
    NonEmptyUnfold(ws);
    assert args + [] == args;
  }

  lemma NonEmptyUnfold(ws: seq<string>)
    requires |ws| == 1
    ensures NonEmpty(ws) == Kept(ws[0])
  {
    var none := ws[1..];
    assert none == [] && Kept(ws[0]) + NonEmpty(none) == Kept(ws[0]);
  }

  lemma ScanPrintMore(args: seq<string>, ws: seq<string>)
    requires |ws| > 1
    ensures ScanAll(Scan(args, "", NO_QUOTE, false), Print(ws))
            == ScanAll(Scan(args + Kept(ws[0]), "", NO_QUOTE, false), Print(ws[1..]))
  {
    PrintUnfold(ws);
    ScanConcat(Scan(args, "", NO_QUOTE, false), Quote(ws[0]) + " ", Print(ws[1..]));
    ScanQuoteThenBlank(args, ws[0]);
  }

  lemma {:induction false} ScanPrint(args: seq<string>, ws: seq<string>)
    requires ws != []
    ensures Finish(ScanAll(Scan(args, "", NO_QUOTE, false), Print(ws))) == Ok(args + NonEmpty(ws))
    decreases ws
  {
    if |ws| == 1 {
      ScanPrintLast(args, ws);
    } else {
      var kept, rest := Kept(ws[0]), NonEmpty(ws[1..]);
      ScanPrintMore(args, ws);
      ScanPrint(args + kept, ws[1..]);
      assert (args + kept) + rest == args + (kept + rest);
    }
  }

  lemma {:induction false} PrintEnds(ws: seq<string>)
    requires ws != []
    ensures Print(ws) != "" && Print(ws)[0] == '\'' && Print(ws)[|Print(ws)| - 1] == '\''
  {
    if |ws| > 1 {
      PrintEnds(ws[1..]);
      PrintUnfold(ws);
    } else {
      PrintUnfold(ws);
    }
  }

  /** Main result: the splitter inverts the printer on every list of strings, dropping empty ones
      and never failing. */
  lemma TokensInvertPrint(ws: seq<string>)
    ensures Tokens(Print(ws)) == Ok(NonEmpty(ws))
  {
    if ws != [] {
      PrintEnds(ws);
      TrimSpaceFixpoint(Print(ws));
      ScanPrint([], ws);
      assert [] + NonEmpty(ws) == NonEmpty(ws);
    }
  }

  // ---------- validation ----------

  const DANGEROUS: seq<string> := ["&&", "||", ";", "|", "$(", "`", ">", "<", "\n", "\r"]
  const DANGEROUS_CHARS: set<char> := {';', '|', '`', '>', '<', '\n', '\r'}

  function ValidateCommandLine(cmdline: string): Option<CommandError> {
    var trimmed := TrimSpace(cmdline);
    if trimmed == "" then Some(CommandEmpty)
    else if exists i | 0 <= i < |DANGEROUS| :: Contains(trimmed, DANGEROUS[i]) then Some(CommandInvalid)
    else None
  }

  /** The characters the scanner writes into tokens while reading `s`. */
  function Written(st: Scan, s: string): string
    decreases s
  {
    if s == "" then ""
    else (if |Step(st, s[0]).token| > |st.token| then [s[0]] else "") + Written(Step(st, s[0]), s[1..])
  }

  function Concat(ws: seq<string>): string {
    if ws == [] then "" else Concat(ws[..|ws| - 1]) + ws[|ws| - 1]
  }

  predicate Subsequence(x: string, y: string) {
    x == "" || (y != "" && ((x[0] == y[0] && Subsequence(x[1..], y[1..])) || Subsequence(x, y[1..])))
  }

  lemma {:induction false} WrittenIsSubsequence(st: Scan, s: string)
    ensures Subsequence(Written(st, s), s)
    decreases s
  {
    if s != "" {
      WrittenIsSubsequence(Step(st, s[0]), s[1..]);
      var rest := Written(Step(st, s[0]), s[1..]);
      if |Step(st, s[0]).token| > |st.token| {
        assert Written(st, s)[1..] == rest;
      } else {
        assert Written(st, s) == rest;
      }
    }
  }

  function Emitted(st: Scan): string { Concat(st.args) + st.token }

  lemma StepWrites(st: Scan, c: char)
    ensures Emitted(Step(st, c)) == Emitted(st) + if |Step(st, c).token| > |st.token| then [c] else ""
  {
    assert (st.args + [st.token])[..|st.args|] == st.args;
    assert Concat(st.args) + (st.token + [c]) == (Concat(st.args) + st.token) + [c];
  }

  lemma {:induction false} ScanWrites(st: Scan, s: string)
    ensures Emitted(ScanAll(st, s)) == Emitted(st) + Written(st, s)
    decreases s
  {
    if s != "" {
      StepWrites(st, s[0]);
      ScanWrites(Step(st, s[0]), s[1..]);
    }
  }

  /** The splitter invents and reorders nothing: its tokens, run together, are a subsequence of the line. */
  lemma TokensAreSubsequence(input: string)
    requires Tokens(input).Ok?
    ensures Subsequence(Concat(Tokens(input).value), TrimSpace(input))
  {
    var trimmed := TrimSpace(input);
    if trimmed != "" {
      var st := ScanAll(START, trimmed);
      ScanWrites(START, trimmed);
      WrittenIsSubsequence(START, trimmed);
      assert (st.args + [st.token])[..|st.args|] == st.args;
      assert "" + Written(START, trimmed) == Written(START, trimmed);
      assert Concat(Flush(st).args) == Emitted(st);
    }
  }

  lemma {:induction false} SubsequenceCharacters(x: string, y: string, c: char)
    requires Subsequence(x, y) && c in x
    ensures c in y
    decreases y
  {
    if x[0] == y[0] && Subsequence(x[1..], y[1..]) {
      if c != x[0] {
        assert c in x[1..];
        SubsequenceCharacters(x[1..], y[1..], c);
        assert c in y[1..];
      }
    } else {
      SubsequenceCharacters(x, y[1..], c);
      assert c in y[1..];
    }
  }

  lemma {:induction false} TokenCharacters(ws: seq<string>, i: nat, c: char)
    requires i < |ws| && c in ws[i]
    ensures c in Concat(ws)
  {
    if i < |ws| - 1 {
      TokenCharacters(ws[..|ws| - 1], i, c);
    }
  }

  lemma DangerousCharIsListed(c: char) returns (k: nat)
    requires c in DANGEROUS_CHARS
    ensures k < |DANGEROUS| && DANGEROUS[k] == [c]
  {
    k := if c == ';' then 2 else if c == '|' then 3 else if c == '`' then 5 else if c == '>' then 6
         else if c == '<' then 7 else if c == '\n' then 8 else 9;
  }

  lemma ValidatedLineCharacters(input: string, c: char)
    requires ValidateCommandLine(input) == None && c in DANGEROUS_CHARS
    ensures c !in TrimSpace(input)
  {
    var k := DangerousCharIsListed(c);
    assert !Contains(TrimSpace(input), DANGEROUS[k]);
    ContainsChar(TrimSpace(input), c);
  }

  /** A validated line yields no token with a one-character shell operator in it. */
  lemma ValidatedTokensAreClean(input: string, i: nat, c: char)
    requires ValidateCommandLine(input) == None && Tokens(input).Ok? && i < |Tokens(input).value|
    requires c in DANGEROUS_CHARS
    ensures c !in Tokens(input).value[i]
  {
    var tokens := Tokens(input).value;
    if c in tokens[i] {
      TokenCharacters(tokens, i, c);
      TokensAreSubsequence(input);
      SubsequenceCharacters(Concat(tokens), TrimSpace(input), c);
      ValidatedLineCharacters(input, c);
    }
  }

  lemma QuotedAmpersandScan()
    ensures ScanAll(START, "'&'&") == Scan([], "&&", NO_QUOTE, false)
  {
    var line := "'&'&";
    assert line[1..] == "&'&" && "&'&"[1..] == "'&" && "'&"[1..] == "&" && "&"[1..] == "" && "&" + ['&'] == "&&";
    var inQuote := Scan([], "", '\'', false);
    var inner := Scan([], "&", '\'', false);
    var closed := Scan([], "&", NO_QUOTE, false);
    assert ScanAll(START, line) == ScanAll(inQuote, "&'&");
    assert ScanAll(inQuote, "&'&") == ScanAll(inner, "'&");
    assert ScanAll(inner, "'&") == ScanAll(closed, "&");
    assert ScanAll(closed, "&") == ScanAll(Scan([], "&&", NO_QUOTE, false), "");
  }

  lemma QuotedAmpersandIsValid(k: nat)
    requires k < |DANGEROUS|
    ensures !Contains("'&'&", DANGEROUS[k])
  {
    var op := DANGEROUS[k];
    assert "'&'&"[1..] == "&'&" && "&'&"[1..] == "'&" && "'&"[1..] == "&" && "&"[1..] == "";
    if op == "&&" {
      assert op[0] == op[1] == '&' && "'&'&"[0] == "'&"[0] == "&'&"[1] == '\'' && |"&"| == 1;
    } else {
      assert op[0] != '\'' && op[0] != '&';
    }
    assert !Contains("", op);
    assert !Contains("&", op);
    assert !Contains("'&", op);
    assert !Contains("&'&", op);
  }

  /** The two-character operators are not covered: quoting can assemble one inside a token of a
      line that passes validation. */
  lemma TwoCharacterOperatorSlipsThrough()
    ensures ValidateCommandLine("'&'&") == None
    ensures Tokens("'&'&") == Ok(["&&"])
  {
    TrimSpaceFixpoint("'&'&");
    QuotedAmpersandScan();
    assert [] + ["&&"] == ["&&"];
    forall k | 0 <= k < |DANGEROUS| ensures !Contains("'&'&", DANGEROUS[k]) { QuotedAmpersandIsValid(k); }
  }

  // ---------- where operators come from ----------

  /** The scanner before character m. */
  function At(line: string, m: nat): Scan
    requires m <= |line|
  {
    ScanAll(START, line[..m])
  }

  /** The scanner writes character m into the current token. */
  predicate Writes(line: string, m: nat) {
    m < |line| && |Step(At(line, m), line[m]).token| > |At(line, m).token|
  }

  /** The scanner neither writes character m nor ends a token at it: a quote, an escape, a stray blank. */
  predicate Silent(line: string, m: nat) {
    m < |line| && Step(At(line, m), line[m]).token == At(line, m).token && Step(At(line, m), line[m]).args == At(line, m).args
  }

  /** Characters i and j end up next to each other in one token. */
  predicate Joined(line: string, i: nat, j: nat) {
    i < j && Writes(line, i) && Writes(line, j) && forall k | i < k < j :: Silent(line, k)
  }

  /** Within the first m characters, some a and some b end up next to each other. */
  predicate AssembledBefore(line: string, m: nat, a: char, b: char)
    requires m <= |line|
  {
    exists i, j | 0 <= i < m && 0 <= j < m :: Joined(line, i, j) && line[i] == a && line[j] == b
  }

  predicate Assembled(line: string, a: char, b: char) { AssembledBefore(line, |line|, a, b) }

  /** The current token ends in a, as the characters read show. */
  predicate Pending(line: string, m: nat, a: char)
    requires m <= |line|
  {
    exists i | 0 <= i < m :: Writes(line, i) && line[i] == a && forall k | i < k < m :: Silent(line, k)
  }

  predicate EndsIn(s: string, a: char) { s != "" && s[|s| - 1] == a }

  predicate HasPair(ws: seq<string>, a: char, b: char) {
    exists t | 0 <= t < |ws| :: Contains(ws[t], [a, b])
  }

  /** What one character does: it is written, it ends the token, or it is silent. */
  lemma StepCases(line: string, m: nat)
    requires m < |line|
    ensures var st, next := At(line, m), At(line, m + 1);
            && next == Step(st, line[m])
            && if Writes(line, m) then next.args == st.args && next.token == st.token + [line[m]] && !Silent(line, m)
               else if Silent(line, m) then next.args == st.args && next.token == st.token
               else st.token != "" && next.args == st.args + [st.token] && next.token == ""
  {
    ScanPrefixStep(START, line, m);
  }

  lemma PendingStep(line: string, m: nat, a: char)
    requires m < |line|
    ensures Pending(line, m + 1, a) <==> if Writes(line, m) then line[m] == a else Silent(line, m) && Pending(line, m, a)
  {
    StepCases(line, m);
    if Silent(line, m) && Pending(line, m, a) {
      var i :| 0 <= i < m && Writes(line, i) && line[i] == a && forall k | i < k < m :: Silent(line, k);
      assert forall k | i < k < m + 1 :: Silent(line, k);
    }
    if Pending(line, m + 1, a) && !Writes(line, m) {
      var i :| 0 <= i < m + 1 && Writes(line, i) && line[i] == a && forall k | i < k < m + 1 :: Silent(line, k);
      assert i < m && Silent(line, m);
    }
  }

  /** The last character of the current token is the last one written, if nothing but silence followed. */
  lemma {:induction false} PendingMeaning(line: string, m: nat, a: char)
    requires m <= |line|
    ensures Pending(line, m, a) <==> EndsIn(At(line, m).token, a)
    decreases m
  {
    if m > 0 {
      PendingMeaning(line, m - 1, a);
      PendingStep(line, m - 1, a);
      StepCases(line, m - 1);
    }
  }

  lemma AssembledStep(line: string, m: nat, a: char, b: char)
    requires m < |line|
    ensures AssembledBefore(line, m + 1, a, b)
            <==> AssembledBefore(line, m, a, b) || (Writes(line, m) && line[m] == b && Pending(line, m, a))
  {
    if Writes(line, m) && line[m] == b && Pending(line, m, a) {
      var i :| 0 <= i < m && Writes(line, i) && line[i] == a && forall k | i < k < m :: Silent(line, k);
      assert Joined(line, i, m);
    }
    if AssembledBefore(line, m + 1, a, b) && !AssembledBefore(line, m, a, b) {
      var i, j :| 0 <= i < m + 1 && 0 <= j < m + 1 && Joined(line, i, j) && line[i] == a && line[j] == b;
      assert j == m;
    }
  }

  lemma PairStart(s: string, a: char, b: char)
    ensures [a, b] <= s <==> |s| >= 2 && s[0] == a && s[1] == b
  {
  }

  lemma {:induction false} PairAppend(s: string, c: char, a: char, b: char)
    ensures Contains(s + [c], [a, b]) <==> Contains(s, [a, b]) || (EndsIn(s, a) && c == b)
  {
    var all := s + [c];
    PairStart(all, a, b);
    PairStart(s, a, b);
    if s == "" {
      assert all[1..] == "";
    } else {
      var tail := s[1..];
      PairAppend(tail, c, a, b);
      assert all[1..] == tail + [c];
      assert |s| > 1 ==> tail[|tail| - 1] == s[|s| - 1];
    }
  }

  lemma PairEmitted(ws: seq<string>, w: string, a: char, b: char)
    ensures HasPair(ws + [w], a, b) <==> HasPair(ws, a, b) || Contains(w, [a, b])
  {
    var both := ws + [w];
    assert both[|ws|] == w;
    assert forall t | 0 <= t < |ws| :: both[t] == ws[t];
  }

  /** A pair of characters is in a token exactly when the scanner has put one next to the other. */
  lemma {:induction false} PairsAreAssembled(line: string, m: nat, a: char, b: char)
    requires m <= |line|
    ensures HasPair(At(line, m).args, a, b) || Contains(At(line, m).token, [a, b]) <==> AssembledBefore(line, m, a, b)
    decreases m
  {
    if m > 0 {
      var st, r := At(line, m - 1), line[m - 1];
      PairsAreAssembled(line, m - 1, a, b);
      AssembledStep(line, m - 1, a, b);
      PendingMeaning(line, m - 1, a);
      StepCases(line, m - 1);
      PairAppend(st.token, r, a, b);
      PairEmitted(st.args, st.token, a, b);
    }
  }

  /** For every line that splits and any two characters: they stand next to each other in some token
      exactly when the line holds them in this order, both written, with silent characters between. */
  lemma TokenPairs(input: string, a: char, b: char)
    requires Tokens(input).Ok?
    ensures HasPair(Tokens(input).value, a, b) <==> Assembled(TrimSpace(input), a, b)
  {
    var line := TrimSpace(input);
    if line != "" {
      assert line[..|line|] == line;
      PairsAreAssembled(line, |line|, a, b);
      PairEmitted(At(line, |line|).args, At(line, |line|).token, a, b);
    }
  }

  predicate HasOperator(ws: seq<string>) {
    exists t, k | 0 <= t < |ws| && 0 <= k < |DANGEROUS| :: Contains(ws[t], DANGEROUS[k])
  }

  /** A two-character operator made of a character validation bars is not in a validated line's tokens. */
  lemma BarredOperator(input: string, t: nat, k: nat)
    requires ValidateCommandLine(input) == None && Tokens(input).Ok? && t < |Tokens(input).value|
    requires k < |DANGEROUS| && Contains(Tokens(input).value[t], DANGEROUS[k])
    ensures DANGEROUS[k] == "&&" || DANGEROUS[k] == "$("
  {
    var token, op := Tokens(input).value[t], DANGEROUS[k];
    if op != "&&" && op != "$(" {
      assert op[0] in DANGEROUS_CHARS;
      ContainsItsCharacters(token, op);
      ValidatedTokensAreClean(input, t, op[0]);
    }
  }

  lemma ContainsItsCharacters(s: string, sub: string)
    requires Contains(s, sub) && sub != ""
    ensures sub[0] in s
  {
    var i := ContainsPosition(s, sub);
    var slice := s[i..i + |sub|];
    assert slice[0] == s[i];
  }

  /** Main result: exactly when a validated line slips an operator into its tokens. Of all operators only
      two can; and one does if and only if the scanner writes its two characters with nothing but silent
      characters between them. */
  lemma OperatorsAreAssembled(input: string)
    requires ValidateCommandLine(input) == None && Tokens(input).Ok?
    ensures HasOperator(Tokens(input).value)
            <==> Assembled(TrimSpace(input), '&', '&') || Assembled(TrimSpace(input), '$', '(')
  {
    var tokens := Tokens(input).value;
    TokenPairs(input, '&', '&');
    TokenPairs(input, '$', '(');
    assert DANGEROUS[0] == ['&', '&'] && DANGEROUS[4] == ['$', '('];
    if HasOperator(tokens) {
      var t, k :| 0 <= t < |tokens| && 0 <= k < |DANGEROUS| && Contains(tokens[t], DANGEROUS[k]);
      BarredOperator(input, t, k);
      assert HasPair(tokens, '&', '&') || HasPair(tokens, '$', '(');
    }
    if HasPair(tokens, '&', '&') {
      var t :| 0 <= t < |tokens| && Contains(tokens[t], ['&', '&']);
      assert Contains(tokens[t], DANGEROUS[0]);
    }
    if HasPair(tokens, '$', '(') {
      var t :| 0 <= t < |tokens| && Contains(tokens[t], ['$', '(']);
      assert Contains(tokens[t], DANGEROUS[4]);
    }
  }

  // ---------- lines without quoting ----------

  /** No quoting and no escaping. */
  predicate Unquoted(s: string) {
    '\\' !in s && '\'' !in s && '"' !in s
  }

  lemma {:induction false} UnquotedStaysOpen(line: string, m: nat)
    requires Unquoted(line) && m <= |line|
    ensures !At(line, m).escape && At(line, m).quote == NO_QUOTE
    decreases m
  {
    if m > 0 {
      UnquotedStaysOpen(line, m - 1);
      StepCases(line, m - 1);
      assert line[m - 1] in line;
    }
  }

  /** Without quoting, the character after a written one is written too or ends the token. */
  lemma UnquotedIsNotSilent(line: string, m: nat)
    requires Unquoted(line) && m < |line| && At(line, m).token != ""
    ensures !Silent(line, m)
  {
    UnquotedStaysOpen(line, m);
    assert line[m] in line;
  }

  /** So without quoting only neighbours are joined, and the line holds them as they stand. */
  lemma UnquotedJoinsNeighbours(line: string, i: nat, j: nat)
    requires Unquoted(line) && Joined(line, i, j)
    ensures Contains(line, [line[i], line[j]])
  {
    StepCases(line, i);
    UnquotedIsNotSilent(line, i + 1);
    assert j == i + 1;
    ContainsSlice(line, i, i + 2);
    assert line[i..i + 2] == [line[i], line[j]];
  }

  lemma UnquotedAssemblesNothing(line: string, a: char, b: char)
    requires Unquoted(line) && !Contains(line, [a, b])
    ensures !Assembled(line, a, b)
  {
    if Assembled(line, a, b) {
      var i, j :| 0 <= i < |line| && 0 <= j < |line| && Joined(line, i, j) && line[i] == a && line[j] == b;
      UnquotedJoinsNeighbours(line, i, j);
    }
  }

  /** Without quotes and escapes validation covers all operators. */
  lemma UnquotedTokensAreClean(input: string)
    requires Unquoted(TrimSpace(input)) && ValidateCommandLine(input) == None
    ensures Tokens(input).Ok? && !HasOperator(Tokens(input).value)
  {
    var line := TrimSpace(input);
    assert line[..|line|] == line;
    UnquotedStaysOpen(line, |line|);
    assert !Contains(line, DANGEROUS[0]) && !Contains(line, DANGEROUS[4]);
    assert DANGEROUS[0] == ['&', '&'] && DANGEROUS[4] == ['$', '('];
    UnquotedAssemblesNothing(line, '&', '&');
    UnquotedAssemblesNothing(line, '$', '(');
    OperatorsAreAssembled(input);
  }

  /** What `NewRunner` checks of each configured command, and `Run` checks again before executing it. */
  function ConfiguredCommandError(cmdline: string, allowed: set<string>): Option<CommandError> {
    if ValidateCommandLine(cmdline).Some? then ValidateCommandLine(cmdline)
    else
      match Tokens(cmdline)
      case Err(e) => Some(e)
      case Ok(args) => if args == [] then Some(CommandEmpty) else if args[0] !in allowed then Some(CommandNotAllowed) else None
  }

  lemma {:induction false} NonEmptyOfNonEmpty(ws: seq<string>)
    requires "" !in ws
    ensures NonEmpty(ws) == ws
  {
    if ws != [] {
      assert forall w <- ws[1..] :: w in ws;
      NonEmptyOfNonEmpty(ws[1..]);
    }
  }

  // ---------- what can be configured ----------

  /** Operators hold no character the printer adds. */
  predicate NeverPrinted(op: string) {
    op != "" && '\'' !in op && '\\' !in op && ' ' !in op
  }

  /** A character an operator lacks separates its occurrences. */
  lemma {:induction false} ContainsSeparated(x: string, d: char, y: string, op: string)
    requires op != "" && d !in op
    ensures Contains(x + [d] + y, op) <==> Contains(x, op) || Contains(y, op)
    decreases x
  {
    var all := x + [d] + y;
    if |x| < |op| { assert op[|x|] in op && all[|x|] == d; }
    if x == "" {
      assert all[1..] == y;
    } else {
      assert all[1..] == x[1..] + [d] + y;
      ContainsSeparated(x[1..], d, y, op);
    }
  }

  lemma ContainsAfter(d: char, y: string, op: string)
    requires op != "" && d !in op
    ensures Contains([d] + y, op) <==> Contains(y, op)
  {
    ContainsSeparated("", d, y, op);
    assert "" + [d] + y == [d] + y;
  }

  lemma PrefixCons(c: char, s: string, op: string)
    requires op != ""
    ensures op <= [c] + s <==> op[0] == c && op[1..] <= s
  {
    var all, rest := [c] + s, op[1..];
    if rest <= s && op[0] == c { assert op == [c] + rest && all[..|op|] == op; }
    if op <= all { assert rest == s[..|rest|]; }
  }

  lemma {:induction false} BodyPrefix(w: string, op: string)
    requires '\'' !in op
    ensures op <= QuoteBody(w) <==> op <= w
    decreases w
  {
    if op != "" && w != "" {
      assert w == [w[0]] + w[1..];
      PrefixCons(w[0], w[1..], op);
      if w[0] == '\'' {
        assert QuoteBody(w)[0] == '\'' && op[0] != '\'';
      } else {
        PrefixCons(w[0], QuoteBody(w[1..]), op);
        BodyPrefix(w[1..], op[1..]);
      }
    }
  }

  lemma {:induction false} BodyContains(w: string, op: string)
    requires NeverPrinted(op)
    ensures Contains(QuoteBody(w), op) <==> Contains(w, op)
    decreases w
  {
    if w != "" {
      BodyContains(w[1..], op);
      BodyPrefix(w, op);
      if w[0] == '\'' {
        var rest := QuoteBody(w[1..]);
        assert "'\\''" + rest == ['\''] + (['\\'] + (['\''] + (['\''] + rest)));
        ContainsAfter('\'', ['\\'] + (['\''] + (['\''] + rest)), op);
        ContainsAfter('\\', ['\''] + (['\''] + rest), op);
        ContainsAfter('\'', ['\''] + rest, op);
        ContainsAfter('\'', rest, op);
        assert w == ['\''] + w[1..];
        ContainsAfter('\'', w[1..], op);
      } else {
        assert QuoteBody(w)[1..] == QuoteBody(w[1..]);
      }
    }
  }

  lemma QuoteContains(w: string, op: string)
    requires NeverPrinted(op)
    ensures Contains(Quote(w), op) <==> Contains(w, op)
  {
    var body := QuoteBody(w);
    assert Quote(w) == ['\''] + (body + ['\''] + "");
    ContainsAfter('\'', body + ['\''] + "", op);
    ContainsSeparated(body, '\'', "", op);
    BodyContains(w, op);
  }

  /** Printing neither makes nor hides an operator. */
  lemma {:induction false} PrintContains(ws: seq<string>, op: string)
    requires NeverPrinted(op)
    ensures Contains(Print(ws), op) <==> exists t | 0 <= t < |ws| :: Contains(ws[t], op)
    decreases ws
  {
    if ws != [] {
      PrintUnfold(ws);
      QuoteContains(ws[0], op);
      var rest := ws[1..];
      assert (exists t | 0 <= t < |ws| :: Contains(ws[t], op)) <==>
             Contains(ws[0], op) || exists t | 0 <= t < |rest| :: Contains(rest[t], op) by
      {
        assert forall t | 0 <= t < |rest| :: rest[t] == ws[t + 1];
        assert forall t | 1 <= t < |ws| :: ws[t] == rest[t - 1];
      }
      if |ws| > 1 {
        PrintContains(rest, op);
        assert Quote(ws[0]) + " " + Print(rest) == Quote(ws[0]) + [' '] + Print(rest);
        ContainsSeparated(Quote(ws[0]), ' ', Print(rest), op);
      }
    }
  }

  lemma OperatorsAreNeverPrinted(k: nat)
    requires k < |DANGEROUS|
    ensures NeverPrinted(DANGEROUS[k])
  {
  }

  /** A printed vector is refused as dangerous exactly when one of its own elements holds an operator. */
  lemma PrintValidates(ws: seq<string>)
    requires ws != []
    ensures ValidateCommandLine(Print(ws)) == (if HasOperator(ws) then Some(CommandInvalid) else None)
  {
    PrintEnds(ws);
    TrimSpaceFixpoint(Print(ws));
    forall k | 0 <= k < |DANGEROUS|
      ensures Contains(Print(ws), DANGEROUS[k]) <==> exists t | 0 <= t < |ws| :: Contains(ws[t], DANGEROUS[k])
    {
      OperatorsAreNeverPrinted(k);
      PrintContains(ws, DANGEROUS[k]);
    }
  }

  /** Main result: which argument vectors can be configured by printing them. The runner accepts the
      printed line exactly when no element holds an operator and the first is an allowed executable; and
      it then executes precisely that vector. */
  lemma PrintedCommandIsAccepted(ws: seq<string>, allowed: set<string>)
    requires ws != [] && "" !in ws
    ensures ConfiguredCommandError(Print(ws), allowed) == None <==> ws[0] in allowed && !HasOperator(ws)
    ensures Tokens(Print(ws)) == Ok(ws)
  {
    TokensInvertPrint(ws);
    NonEmptyOfNonEmpty(ws);
    PrintValidates(ws);
  }
}
