/**
 * The hand-written C++ lexer: it cuts a source text into tokens and loses nothing.  Which characters
 * count as letters and digits is left open, so everything holds for any character classification.
 */
module EasterlyLexer {
  import opened Options
  import opened Sequences
  import opened Text

  datatype Kind =
    | Word | Star | Amp | AmpAmp | LBracket | RBracket | LParen | RParen | LBrace | RBrace
    | LAngle | RAngle | Semicolon | Comma | Equals | Other | String | CharLit
    | LineComment | BlockComment | Whitespace | Newline | Eof

  datatype Token = Token(kind: Kind, text: string, line: int, col: int) {
    predicate Trivial() {
      kind.Whitespace? || kind.Newline? || kind.LineComment? || kind.BlockComment?
    }

    predicate Cv() {
      kind.Word? && (text == "const" || text == "volatile")
    }
  }

  datatype Classes = Classes(alpha: char -> bool, alnum: char -> bool, digit: char -> bool)

  // ---- Where a token ends ----------------------------------------------------------------------

  predicate Blank(c: char) {
    c == ' ' || c == '\t' || c == '\U{c}' || c == '\U{b}'
  }

  /** The first index from `j` on whose character does not satisfy `p`. */
  function Skip(src: string, j: nat, p: char -> bool): (k: nat)
    requires j <= |src|
    ensures j <= k <= |src|
    decreases |src| - j
  {
    if j == |src| || !p(src[j]) then j else Skip(src, j + 1, p)
  }

  lemma {:induction false} SkipFacts(src: string, j: nat, p: char -> bool)
    requires j <= |src|
    ensures forall x :: j <= x < Skip(src, j, p) ==> p(src[x])
    ensures Skip(src, j, p) < |src| ==> !p(src[Skip(src, j, p)])
    decreases |src| - j
  {
    if j < |src| && p(src[j]) {
      SkipFacts(src, j + 1, p);
    }
  }

  /** Where a literal's loop stops: at its closing quote, or at or just beyond the end of the text. */
  function QuoteAt(src: string, j: nat, quote: char): (k: nat)
    ensures j <= k && (j <= |src| ==> k <= |src| + 1)
    decreases if j < |src| then |src| - j else 0
  {
    if j >= |src| || src[j] == quote then j
    else if src[j] == '\\' then QuoteAt(src, j + 2, quote)
    else QuoteAt(src, j + 1, quote)
  }

  function Min(a: nat, b: nat): nat { if a < b then a else b }

  function LiteralEnd(src: string, j: nat, quote: char): (k: nat)
    requires j <= |src|
    ensures j <= k <= |src|
  {
    Min(QuoteAt(src, j, quote) + 1, |src|)
  }

  /** Where a block comment's closing mark begins, or the end of the text. */
  function CommentAt(src: string, j: nat): (k: nat)
    requires j <= |src|
    ensures j <= k <= |src|
    decreases |src| - j
  {
    if j == |src| || (src[j] == '*' && j + 1 < |src| && src[j + 1] == '/') then j
    else if src[j] == '\r' && j + 1 < |src| && src[j + 1] == '\n' then CommentAt(src, j + 2)
    else CommentAt(src, j + 1)
  }

  /** How many lines a block comment's loop counts between two indices. */
  function CommentLines(src: string, j: nat, k: nat): nat
    requires j <= |src| && k <= |src|
    decreases |src| - j
  {
    if j >= k then 0
    else if src[j] == '\n' then 1 + CommentLines(src, j + 1, k)
    else if src[j] == '\r' then
      1 + CommentLines(src, if j + 1 < |src| && src[j + 1] == '\n' then j + 2 else j + 1, k)
    else CommentLines(src, j + 1, k)
  }

  /** Where that loop notes the last line to begin. */
  function CommentStart(src: string, j: nat, k: nat, start: Option<nat>): Option<nat>
    requires j <= |src| && k <= |src|
    decreases |src| - j
  {
    if j >= k then start
    else if src[j] == '\n' then CommentStart(src, j + 1, k, Some(j + 1))
    else if src[j] == '\r' then
      var next := if j + 1 < |src| && src[j + 1] == '\n' then j + 2 else j + 1;
      CommentStart(src, next, k, Some(next))
    else CommentStart(src, j + 1, k, start)
  }

  lemma {:induction false} NoLinesNoStart(src: string, j: nat, k: nat)
    requires j <= |src| && k <= |src|
    ensures CommentLines(src, j, k) == 0 ==> CommentStart(src, j, k, None) == None
    decreases |src| - j
  {
    if j < k && src[j] != '\n' && src[j] != '\r' {
      NoLinesNoStart(src, j + 1, k);
    }
  }

  function RawPrefix(src: string, i: nat): (k: nat)
    requires i < |src|
    ensures i <= k <= |src|
  {
    if src[i] == 'u' && i + 1 < |src| && src[i + 1] == '8' then i + 2
    else if src[i] == 'L' || src[i] == 'u' || src[i] == 'U' then i + 1
    else i
  }

  predicate RawStart(src: string, i: nat)
    requires i < |src|
  {
    var k := RawPrefix(src, i);
    k + 1 < |src| && src[k] == 'R' && src[k + 1] == '"'
  }

  function RawEnd(src: string, i: nat): (e: nat)
    requires i < |src| && RawStart(src, i)
    ensures i < e <= |src|
  {
    var start := RawPrefix(src, i) + 2;
    var open := Skip(src, start, (c: char) => c != '(');
    var closing := ")" + src[start..open] + "\"";
    var at := FindFrom(src, closing, open + 1);
    if at <= |src| then at + |closing| else |src|
  }

  function CountNewlines(text: string): nat {
    if text == [] then 0 else CountNewlines(text[..|text| - 1]) + if text[|text| - 1] == '\n' then 1 else 0
  }

  predicate NumberChar(cls: Classes, c: char) {
    cls.alnum(c) || c in ".xXbBoO_'eEpP+-"
  }

  function SingleKind(c: char): Kind {
    match c
    case '*' => Star case '&' => Amp
    case '[' => LBracket case ']' => RBracket
    case '(' => LParen case ')' => RParen
    case '{' => LBrace case '}' => RBrace
    case '<' => LAngle case '>' => RAngle
    case ';' => Semicolon case ',' => Comma case '=' => Equals
    case _ => Other
  }

  /** The kind of a token, where it ends, how many lines it moves on, and where a new line is noted to begin. */
  datatype Cut = Cut(kind: Kind, end: nat, lines: nat, start: Option<nat>)

  function Within(kind: Kind, end: nat): Cut { Cut(kind, end, 0, None) }

  predicate Prefixed(src: string, i: nat, quote: char)
    requires i < |src|
  {
    (src[i] == 'u' || src[i] == 'U' || src[i] == 'L') && i + 1 < |src| && src[i + 1] == quote
  }

  function CutAt(src: string, cls: Classes, i: nat): (cut: Cut)
    requires i < |src|
    ensures i < cut.end <= |src| && !cut.kind.Eof?
  {
    var c, n := src[i], |src|;
    if c == '\r' then
      var end := if i + 1 < n && src[i + 1] == '\n' then i + 2 else i + 1;
      Cut(Newline, end, 1, Some(end))
    else if c == '\n' then Cut(Newline, i + 1, 1, Some(i + 1))
    else if Blank(c) then Within(Whitespace, Skip(src, i + 1, Blank))
    else if c == '/' && i + 1 < n && src[i + 1] == '/' then
      Within(LineComment, Skip(src, i + 2, (x: char) => x != '\n' && x != '\r'))
    else if c == '/' && i + 1 < n && src[i + 1] == '*' then
      var close := CommentAt(src, i + 2);
      Cut(BlockComment, Min(close + 2, n), CommentLines(src, i + 2, close), CommentStart(src, i + 2, close, None))
    else if RawStart(src, i) then
      var end := RawEnd(src, i);
      Cut(String, end, CountNewlines(src[i..end]), None)
    else if Prefixed(src, i, '"') then Within(String, LiteralEnd(src, i + 2, '"'))
    else if c == '"' then Within(String, LiteralEnd(src, i + 1, '"'))
    else if c == '\'' then Within(CharLit, LiteralEnd(src, i + 1, '\''))
    else if Prefixed(src, i, '\'') then Within(CharLit, LiteralEnd(src, i + 2, '\''))
    else if c == '_' || cls.alpha(c) then Within(Word, Skip(src, i + 1, (x: char) => x == '_' || cls.alnum(x)))
    else if cls.digit(c) || (c == '.' && i + 1 < n && cls.digit(src[i + 1])) then
      Within(Other, Skip(src, i + 1, (x: char) => NumberChar(cls, x)))
    else if c == '&' && i + 1 < n && src[i + 1] == '&' then Within(AmpAmp, i + 2)
    else Within(SingleKind(c), i + 1)
  }

  /** One way of cutting a text into tokens: what stands at each index. */
  type Cutter = nat -> Cut

  function CutterOf(src: string, cls: Classes): Cutter {
    (i: nat) => if i < |src| then CutAt(src, cls, i) else Within(Other, i + 1)
  }

  /** Every cut takes something, and stays inside the text. */
  ghost predicate Progresses(src: string, cutter: Cutter) {
    forall i :: 0 <= i < |src| ==> i < cutter(i).end <= |src| && !cutter(i).kind.Eof?
  }

  /** A run of blanks is cut off whole, and nothing else is whitespace. */
  ghost predicate CutsBlanksWhole(src: string, cutter: Cutter) {
    forall i :: 0 <= i < |src| && cutter(i).kind.Whitespace? ==>
      && 0 <= i < cutter(i).end <= |src|
      && (forall x :: i <= x < cutter(i).end ==> Blank(src[x]))
      && (cutter(i).end < |src| ==> !Blank(src[cutter(i).end]))
  }

  /** Within one line the beginning of the line stays where it is. */
  ghost predicate KeepsLine(src: string, cutter: Cutter) {
    forall i :: 0 <= i < |src| && cutter(i).lines == 0 ==> cutter(i).start.None?
  }

  lemma {:induction false} CutterKeepsLine(src: string, cls: Classes)
    ensures KeepsLine(src, CutterOf(src, cls))
  {
    forall i | 0 <= i < |src| && CutAt(src, cls, i).lines == 0 ensures CutAt(src, cls, i).start.None? {
      if i + 1 < |src| && src[i] == '/' && src[i + 1] == '*' {
        NoLinesNoStart(src, i + 2, CommentAt(src, i + 2));
      }
    }
  }

  lemma {:induction false} CutterSound(src: string, cls: Classes)
    ensures Progresses(src, CutterOf(src, cls)) && CutsBlanksWhole(src, CutterOf(src, cls))
  {
    forall i | 0 <= i < |src| && CutAt(src, cls, i).kind.Whitespace?
      ensures forall x :: i <= x < CutAt(src, cls, i).end ==> Blank(src[x])
      ensures CutAt(src, cls, i).end < |src| ==> !Blank(src[CutAt(src, cls, i).end])
    {
      BlankCut(src, cls, i);
    }
  }

  lemma {:induction false} BlankCut(src: string, cls: Classes, i: nat)
    requires i < |src| && CutAt(src, cls, i).kind.Whitespace?
    ensures forall x :: i <= x < CutAt(src, cls, i).end ==> Blank(src[x])
    ensures CutAt(src, cls, i).end < |src| ==> !Blank(src[CutAt(src, cls, i).end])
  {
    assert Blank(src[i]) && CutAt(src, cls, i).end == Skip(src, i + 1, Blank);
    SkipFacts(src, i + 1, Blank);
  }

  function LineStart(cut: Cut, start: int): int {
    if cut.start.Some? then cut.start.value else start
  }

  /** The tokens from index `i` on, in a line that begins at `start`, ending with the end-of-file token. */
  ghost function Tokens(src: string, cutter: Cutter, i: nat, line: int, start: int): (tokens: seq<Token>)
    requires i <= |src| && Progresses(src, cutter)
    ensures |tokens| > 0
    decreases |src| - i
  {
    if i == |src| then [Token(Eof, "", line, i - start + 1)]
    else
      var cut := cutter(i);
      [Token(cut.kind, src[i..cut.end], line, i - start + 1)]
      + Tokens(src, cutter, cut.end, line + cut.lines, LineStart(cut, start))
  }

  ghost function Lexed(src: string, cls: Classes): seq<Token> {
    CutterSound(src, cls);
    Tokens(src, CutterOf(src, cls), 0, 1, 0)
  }

  // ---- The lexer as it is carried out ----------------------------------------------------------

  method SkipWhile(src: string, from: nat, p: char -> bool) returns (j: nat)
    requires from <= |src|
    ensures j == Skip(src, from, p)
  {
    j := from;
    while j < |src| && p(src[j])
      invariant j <= |src| && Skip(src, from, p) == Skip(src, j, p)
    {
      j := j + 1;
    }
  }

  method ScanLiteral(src: string, from: nat, quote: char) returns (end: nat)
    requires from <= |src|
    ensures end == LiteralEnd(src, from, quote)
  {
    var j := from;
    while j < |src| && src[j] != quote
      invariant j <= |src| + 1 && QuoteAt(src, from, quote) == QuoteAt(src, j, quote)
      decreases |src| + 1 - j
    {
      if src[j] == '\\' {
        j := j + 1;
      }
      j := j + 1;
    }
    end := Min(j + 1, |src|);
  }

  method ScanBlockComment(src: string, from: nat) returns (close: nat, lines: nat, start: Option<nat>)
    requires from <= |src|
    ensures close == CommentAt(src, from)
    ensures lines == CommentLines(src, from, close) && start == CommentStart(src, from, close, None)
  {
    close, lines, start := from, 0, None;
    while close < |src| && !(src[close] == '*' && close + 1 < |src| && src[close + 1] == '/')
      invariant from <= close <= |src| && CommentAt(src, from) == CommentAt(src, close)
      invariant lines + CommentLines(src, close, CommentAt(src, from)) == CommentLines(src, from, CommentAt(src, from))
      invariant CommentStart(src, close, CommentAt(src, from), start) == CommentStart(src, from, CommentAt(src, from), None)
    {
      if src[close] == '\n' {
        lines := lines + 1;
        start := Some(close + 1);
      } else if src[close] == '\r' {
        lines := lines + 1;
        if close + 1 < |src| && src[close + 1] == '\n' {
          close := close + 1;
        }
        start := Some(close + 1);
      }
      close := close + 1;
    }
  }

  method FindPattern(src: string, pattern: string, from: nat) returns (at: nat)
    ensures at == FindFrom(src, pattern, from)
  {
    at := from;
    while at <= |src| && !StartsAt(src, pattern, at)
      invariant FindFrom(src, pattern, from) == FindFrom(src, pattern, at)
      decreases |src| + 1 - at
    {
      at := at + 1;
    }
  }

  method ScanRawString(src: string, i: nat) returns (end: nat, lines: nat)
    requires i < |src| && RawStart(src, i)
    ensures end == RawEnd(src, i) && lines == CountNewlines(src[i..end])
  {
    var start := RawPrefix(src, i) + 2;
    var open := SkipWhile(src, start, (c: char) => c != '(');
    var closing := ")" + src[start..open] + "\"";
    var at := FindPattern(src, closing, open + 1);
    end := if at <= |src| then at + |closing| else |src|;
    assert end == RawEnd(src, i);
    lines := CountLines(src[i..end]);
  }

  method CountLines(raw: string) returns (lines: nat)
    ensures lines == CountNewlines(raw)
  {
    lines := 0;
    for k := 0 to |raw|
      invariant lines == CountNewlines(raw[..k])
    {
      assert raw[..k + 1][..k] == raw[..k];
      if raw[k] == '\n' {
        lines := lines + 1;
      }
    }
    assert raw[..|raw|] == raw;
  }

  method CutToken(src: string, cls: Classes, i: nat) returns (cut: Cut)
    requires i < |src|
    ensures cut == CutAt(src, cls, i)
  {
    var c, n := src[i], |src|;
    var j: nat, lines: nat;
    if c == '\r' {
      j := if i + 1 < n && src[i + 1] == '\n' then i + 2 else i + 1;
      return Cut(Newline, j, 1, Some(j));
    } else if c == '\n' {
      return Cut(Newline, i + 1, 1, Some(i + 1));
    } else if Blank(c) {
      j := SkipWhile(src, i + 1, Blank);
      return Within(Whitespace, j);
    } else if c == '/' && i + 1 < n && src[i + 1] == '/' {
      j := SkipWhile(src, i + 2, (x: char) => x != '\n' && x != '\r');
      return Within(LineComment, j);
    } else if c == '/' && i + 1 < n && src[i + 1] == '*' {
      var start: Option<nat>;
      j, lines, start := ScanBlockComment(src, i + 2);
      return Cut(BlockComment, Min(j + 2, n), lines, start);
    } else if RawStart(src, i) {
      j, lines := ScanRawString(src, i);
      return Cut(String, j, lines, None);
    } else if Prefixed(src, i, '"') {
      j := ScanLiteral(src, i + 2, '"');
      return Within(String, j);
    } else if c == '"' {
      j := ScanLiteral(src, i + 1, '"');
      return Within(String, j);
    } else if c == '\'' {
      j := ScanLiteral(src, i + 1, '\'');
      return Within(CharLit, j);
    } else if Prefixed(src, i, '\'') {
      j := ScanLiteral(src, i + 2, '\'');
      return Within(CharLit, j);
    } else if c == '_' || cls.alpha(c) {
      j := SkipWhile(src, i + 1, (x: char) => x == '_' || cls.alnum(x));
      return Within(Word, j);
    } else if cls.digit(c) || (c == '.' && i + 1 < n && cls.digit(src[i + 1])) {
      j := SkipWhile(src, i + 1, (x: char) => NumberChar(cls, x));
      return Within(Other, j);
    } else if c == '&' && i + 1 < n && src[i + 1] == '&' {
      return Within(AmpAmp, i + 2);
    } else {
      return Within(SingleKind(c), i + 1);
    }
  }

  /** What is left begins with the token cut off. */
  lemma {:induction false} Emitted(src: string, cutter: Cutter, i: nat, line: int, start: int, left: seq<Token>) returns (rest: seq<Token>)
    requires i < |src| && Progresses(src, cutter) && left == Tokens(src, cutter, i, line, start)
    ensures i < cutter(i).end <= |src|
    ensures rest == Tokens(src, cutter, cutter(i).end, line + cutter(i).lines, LineStart(cutter(i), start))
    ensures left == [Token(cutter(i).kind, src[i..cutter(i).end], line, i - start + 1)] + rest
  {
    rest := Tokens(src, cutter, cutter(i).end, line + cutter(i).lines, LineStart(cutter(i), start));
  }

  lemma {:induction false} Append<T>(done: seq<T>, t: T, rest: seq<T>, left: seq<T>, all: seq<T>)
    requires left == [t] + rest && done + left == all
    ensures done + [t] + rest == all
  {
  }

  predicate Agrees(src: string, cls: Classes, cutter: Cutter, i: nat)
    requires i < |src|
  {
    cutter(i) == CutAt(src, cls, i)
  }

  method NextCut(src: string, cls: Classes, i: nat, ghost cutter: Cutter) returns (cut: Cut)
    requires i < |src| && Agrees(src, cls, cutter, i)
    ensures cut == cutter(i)
  {
    cut := CutToken(src, cls, i);
  }

  method LexWith(src: string, cls: Classes, ghost cutter: Cutter) returns (tokens: seq<Token>)
    requires Progresses(src, cutter) && forall i: nat :: i < |src| ==> Agrees(src, cls, cutter, i)
    ensures tokens == Tokens(src, cutter, 0, 1, 0)
  {
    tokens := [];
    var i: nat, line, lineStart: int := 0, 1, 0;
    ghost var all := Tokens(src, cutter, 0, 1, 0);
    ghost var left := all;
    while i < |src|
      invariant i <= |src| && left == Tokens(src, cutter, i, line, lineStart)
      invariant tokens + left == all
      decreases |src| - i
    {
      var cut := NextCut(src, cls, i, cutter);
      ghost var rest := Emitted(src, cutter, i, line, lineStart, left);
      var token := Token(cut.kind, src[i..cut.end], line, i - lineStart + 1);
      Append(tokens, token, rest, left, all);
      tokens, left := tokens + [token], rest;
      i, line, lineStart := cut.end, line + cut.lines, LineStart(cut, lineStart);
    }
    tokens := tokens + [Token(Eof, "", line, i - lineStart + 1)];
  }

  method Lex(src: string, cls: Classes) returns (tokens: seq<Token>)
    ensures tokens == Lexed(src, cls)
  {
    CutterSound(src, cls);
    tokens := LexWith(src, cls, CutterOf(src, cls));
  }

  // ---- Nothing is lost -------------------------------------------------------------------------

  /** The texts of the tokens up to the end-of-file token, put together. */
  function Rendered(tokens: seq<Token>): string {
    if tokens == [] || tokens[0].kind.Eof? then "" else tokens[0].text + Rendered(tokens[1..])
  }

  /** Only the last token marks the end of the file. */
  ghost predicate EndsOnce(tokens: seq<Token>) {
    |tokens| > 0 && forall k :: 0 <= k < |tokens| ==> (tokens[k].kind.Eof? <==> k == |tokens| - 1)
  }

  /** Whitespace tokens hold only blanks, and a run of blanks is one token. */
  ghost predicate BlanksWhole(tokens: seq<Token>) {
    && (forall k, x :: 0 <= k < |tokens| && tokens[k].kind.Whitespace? && 0 <= x < |tokens[k].text| ==> Blank(tokens[k].text[x]))
    && (forall k :: 0 <= k < |tokens| - 1 && tokens[k].kind.Whitespace? ==> !tokens[k + 1].kind.Whitespace?)
  }

  lemma {:induction false} RenderedCons(t: Token, rest: seq<Token>)
    requires !t.kind.Eof? && EndsOnce(rest)
    ensures Rendered([t] + rest) == t.text + Rendered(rest) && EndsOnce([t] + rest)
  {
    assert ([t] + rest)[1..] == rest;
  }

  lemma {:induction false} TokensRender(src: string, cutter: Cutter, i: nat, line: int, start: int)
    requires i <= |src| && Progresses(src, cutter)
    ensures Rendered(Tokens(src, cutter, i, line, start)) == src[i..]
    ensures EndsOnce(Tokens(src, cutter, i, line, start))
    decreases |src| - i
  {
    if i < |src| {
      var cut := cutter(i);
      TokensRender(src, cutter, cut.end, line + cut.lines, LineStart(cut, start));
      RenderedCons(Token(cut.kind, src[i..cut.end], line, i - start + 1), Tokens(src, cutter, cut.end, line + cut.lines, LineStart(cut, start)));
      assert src[i..] == src[i..cut.end] + src[cut.end..];
    }
  }

  lemma {:induction false} TokensBlanksWhole(src: string, cutter: Cutter, i: nat, line: int, start: int)
    requires i <= |src| && Progresses(src, cutter) && CutsBlanksWhole(src, cutter)
    ensures BlanksWhole(Tokens(src, cutter, i, line, start))
    ensures Tokens(src, cutter, i, line, start)[0].kind.Whitespace? ==> i < |src| && Blank(src[i])
    decreases |src| - i
  {
    if i < |src| {
      var cut := cutter(i);
      TokensBlanksWhole(src, cutter, cut.end, line + cut.lines, LineStart(cut, start));
      var rest, all := Tokens(src, cutter, cut.end, line + cut.lines, LineStart(cut, start)), Tokens(src, cutter, i, line, start);
      assert all[1..] == rest;
      forall k | 0 <= k < |all| - 1 && all[k].kind.Whitespace? ensures !all[k + 1].kind.Whitespace? {
        assert k > 0 ==> all[k] == rest[k - 1] && all[k + 1] == rest[k];
      }
    }
  }

  /**
   * Putting the tokens of any text together gives the text back, unterminated comments and literals
   * included; only the last token ends the file, and no two whitespace tokens stand side by side.
   */
  lemma {:induction false} LexLosesNothing(src: string, cls: Classes)
    ensures Rendered(Lexed(src, cls)) == src
    ensures EndsOnce(Lexed(src, cls)) && BlanksWhole(Lexed(src, cls))
  {
    CutterSound(src, cls);
    TokensRender(src, CutterOf(src, cls), 0, 1, 0);
    TokensBlanksWhole(src, CutterOf(src, cls), 0, 1, 0);
    assert src[0..] == src;
  }

  // ---- No two tokens stand at one place --------------------------------------------------------

  predicate Precedes(a: Token, b: Token) {
    a.line < b.line || (a.line == b.line && a.col < b.col)
  }

  predicate NotBefore(t: Token, line: int, col: int) {
    line < t.line || (line == t.line && col <= t.col)
  }

  /** Every token stands at or behind this place, and each behind the ones before it. */
  ghost predicate InOrder(tokens: seq<Token>, line: int, col: int) {
    && (forall k :: 0 <= k < |tokens| ==> NotBefore(tokens[k], line, col))
    && (forall j, k :: 0 <= j < k < |tokens| ==> Precedes(tokens[j], tokens[k]))
  }

  lemma {:induction false} InOrderFrom(t: Token, rest: seq<Token>, line: int, col: int)
    requires InOrder(rest, line, col) && (t.line < line || (t.line == line && t.col < col))
    ensures InOrder([t] + rest, t.line, t.col)
  {
    var all := [t] + rest;
    assert forall k :: 1 <= k < |all| ==> all[k] == rest[k - 1];
    forall k | 1 <= k < |all| ensures Precedes(t, all[k]) {
      assert NotBefore(rest[k - 1], line, col);
    }
    forall j, k | 0 <= j < k < |all| ensures Precedes(all[j], all[k]) {
      assert j > 0 ==> Precedes(rest[j - 1], rest[k - 1]);
    }
  }

  lemma {:induction false} TokensFollow(src: string, cutter: Cutter, i: nat, line: int, start: int)
    requires i <= |src| && Progresses(src, cutter) && KeepsLine(src, cutter)
    ensures InOrder(Tokens(src, cutter, i, line, start), line, i - start + 1)
    decreases |src| - i
  {
    if i < |src| {
      var cut := cutter(i);
      var next := LineStart(cut, start);
      TokensFollow(src, cutter, cut.end, line + cut.lines, next);
      InOrderFrom(Token(cut.kind, src[i..cut.end], line, i - start + 1), Tokens(src, cutter, cut.end, line + cut.lines, next),
                  line + cut.lines, cut.end - next + 1);
    }
  }

  /** Lines and columns tell any two tokens apart, whatever comments and literals span lines. */
  lemma {:induction false} LexedDistinct(src: string, cls: Classes)
    ensures Distinct(Lexed(src, cls))
  {
    CutterSound(src, cls);
    CutterKeepsLine(src, cls);
    TokensFollow(src, CutterOf(src, cls), 0, 1, 0);
    var tokens := Lexed(src, cls);
    forall j, k | 0 <= j < k < |tokens| ensures tokens[j] != tokens[k] {
      assert Precedes(tokens[j], tokens[k]);
    }
  }
}
