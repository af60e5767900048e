/**
 * What a token of each kind looks like, and where it ends: the lexer cuts comments, literals, words and
 * marks off whole, and nothing more.
 */
module EasterlyShapes {
  import opened Text
  import opened EasterlyLexer
  import opened EasterlyTransform
  import opened EasterlyTheorems

  // ---- The shape of each kind ------------------------------------------------------------------

  predicate LineEnd(c: char) { c == '\n' || c == '\r' }

  /** What follows does not begin with such a character. */
  predicate StopsAt(behind: string, p: char -> bool) {
    behind == [] || !p(behind[0])
  }

  predicate AllAre(text: string, p: char -> bool) {
    forall x :: 0 <= x < |text| ==> p(text[x])
  }

  predicate IsLineComment(text: string, behind: string) {
    && |text| >= 2 && text[0] == '/' && text[1] == '/'
    && (forall x :: 0 <= x < |text| ==> !LineEnd(text[x]))
    && (behind == [] || LineEnd(behind[0]))
  }

  predicate ClosesAt(text: string, x: nat) {
    x + 1 < |text| && text[x] == '*' && text[x + 1] == '/'
  }

  /** It holds no closing mark before its own; without one it runs to the end of the text. */
  predicate IsBlockComment(text: string, behind: string) {
    && |text| >= 2 && text[0] == '/' && text[1] == '*'
    && (if |text| >= 4 && ClosesAt(text, |text| - 2) then forall x :: 2 <= x < |text| - 2 ==> !ClosesAt(text, x)
        else behind == [] && forall x :: 2 <= x < |text| ==> !ClosesAt(text, x))
  }

  /** How many backslashes stand right before `x`, none of them before `from`. */
  function Backslashes(text: string, from: nat, x: nat): nat
    requires x <= |text|
  {
    if x <= from || text[x - 1] != '\\' then 0 else 1 + Backslashes(text, from, x - 1)
  }

  /** A quote that no backslash escapes. */
  predicate ClosingQuote(text: string, from: nat, quote: char, x: nat) {
    x < |text| && text[x] == quote && Backslashes(text, from, x) % 2 == 0
  }

  predicate EncodingPrefix(c: char) { c == 'u' || c == 'U' || c == 'L' }

  /** From its quote on, it ends at the first quote that no backslash escapes, or at the end of the text. */
  predicate IsQuoted(text: string, behind: string, quote: char, from: nat) {
    && 1 <= from <= |text| && text[from - 1] == quote
    && if |text| > from && ClosingQuote(text, from, quote, |text| - 1)
       then forall x :: from <= x < |text| - 1 ==> !ClosingQuote(text, from, quote, x)
       else behind == [] && forall x :: from <= x < |text| ==> !ClosingQuote(text, from, quote, x)
  }

  predicate IsLiteral(text: string, behind: string, quote: char) {
    || IsQuoted(text, behind, quote, 1)
    || (|text| >= 2 && EncodingPrefix(text[0]) && IsQuoted(text, behind, quote, 2))
  }

  /** A raw string's `R` and quote stand after an encoding prefix at most. */
  predicate RawOpens(text: string, at: nat) {
    && at + 1 < |text| && text[at] == 'R' && text[at + 1] == '"'
    && (at == 0 || (at == 1 && EncodingPrefix(text[0])) || (at == 2 && text[0] == 'u' && text[1] == '8'))
  }

  /** What closes a raw string whose `R` stands at `at` and whose parenthesis stands at `open`. */
  function CloseMark(text: string, at: nat, open: nat): string
    requires at + 2 <= open <= |text|
  {
    ")" + text[at + 2..open] + "\""
  }

  /** It ends at the first closing mark after `open`, or at the end of the text. */
  predicate RawCloses(text: string, behind: string, open: nat, mark: string) {
    if open + 1 + |mark| <= |text| && StartsAt(text, mark, |text| - |mark|)
    then forall x :: open + 1 <= x < |text| - |mark| ==> !StartsAt(text, mark, x)
    else behind == [] && forall x :: open + 1 <= x < |text| ==> !StartsAt(text, mark, x)
  }

  /** After its delimiter and parenthesis it ends at the first closing mark with that delimiter, or at the end of the text. */
  predicate IsRaw(text: string, behind: string, at: nat, open: nat) {
    && RawOpens(text, at) && at + 2 <= open <= |text|
    && (forall x :: at + 2 <= x < open ==> text[x] != '(')
    && if open == |text| then behind == []
       else text[open] == '(' && RawCloses(text, behind, open, CloseMark(text, at, open))
  }

  predicate WordChar(cls: Classes, c: char) { c == '_' || cls.alnum(c) }

  /** A literal begins here: a quote, with an encoding prefix or none, or a raw string. */
  predicate OpensLiteral(s: string) {
    || (s != [] && (s[0] == '"' || s[0] == '\''))
    || (|s| >= 2 && EncodingPrefix(s[0]) && (s[1] == '"' || s[1] == '\''))
    || RawOpens(s, 0) || RawOpens(s, 1) || RawOpens(s, 2)
  }

  predicate OpensComment(s: string) {
    |s| >= 2 && s[0] == '/' && (s[1] == '/' || s[1] == '*')
  }

  predicate OpensNumber(cls: Classes, s: string) {
    s != [] && (cls.digit(s[0]) || (s[0] == '.' && |s| >= 2 && cls.digit(s[1])))
  }

  /** A maximal run of word characters that no literal begins with. */
  predicate IsWord(cls: Classes, text: string, behind: string) {
    && text != [] && (text[0] == '_' || cls.alpha(text[0]))
    && (forall x :: 1 <= x < |text| ==> WordChar(cls, text[x]))
    && (behind == [] || !WordChar(cls, behind[0]))
    && !OpensLiteral(text + behind)
  }

  predicate IsNumber(cls: Classes, text: string, behind: string) {
    && OpensNumber(cls, text + behind) && text != []
    && (forall x :: 1 <= x < |text| ==> NumberChar(cls, text[x]))
    && (behind == [] || !NumberChar(cls, behind[0]))
  }

  /** One character with which nothing longer begins. */
  predicate IsMark(cls: Classes, text: string, behind: string) {
    && |text| == 1 && text[0] !in "*&[](){}<>;,=" && !Blank(text[0]) && !LineEnd(text[0]) && text[0] != '_' && !cls.alpha(text[0])
    && !OpensComment(text + behind) && !OpensLiteral(text + behind) && !OpensNumber(cls, text + behind)
  }

  /** What a token of this kind looks like, and what follows it. */
  ghost predicate Looks(cls: Classes, kind: Kind, text: string, behind: string) {
    match kind
    case Newline => text == "\n" || text == "\r\n" || (text == "\r" && (behind == [] || behind[0] != '\n'))
    case Whitespace => text != [] && AllAre(text, Blank) && StopsAt(behind, Blank)
    case LineComment => IsLineComment(text, behind)
    case BlockComment => IsBlockComment(text, behind)
    case String => IsLiteral(text, behind, '"') || exists at, open :: IsRaw(text, behind, at, open)
    case CharLit => IsLiteral(text, behind, '\'')
    case Word => IsWord(cls, text, behind)
    case AmpAmp => text == "&&"
    case Amp => text == "&" && (behind == [] || behind[0] != '&')
    case Star => text == "*"
    case LBracket => text == "["
    case RBracket => text == "]"
    case LParen => text == "("
    case RParen => text == ")"
    case LBrace => text == "{"
    case RBrace => text == "}"
    case LAngle => text == "<"
    case RAngle => text == ">"
    case Semicolon => text == ";"
    case Comma => text == ","
    case Equals => text == "="
    case Other => IsNumber(cls, text, behind) || IsMark(cls, text, behind)
    case Eof => text == [] && behind == []
  }

  // ---- Each cut ---------------------------------------------------------------------------------

  /** The token cut off at `i` looks as it should. */
  ghost predicate LooksAt(src: string, cls: Classes, i: nat)
    requires i < |src|
  {
    var cut := CutAt(src, cls, i);
    Looks(cls, cut.kind, src[i..cut.end], src[cut.end..])
  }

  lemma {:induction false} LineCommentLooks(src: string, i: nat, end: nat)
    requires i + 1 < |src| && src[i] == '/' && src[i + 1] == '/'
    requires end == Skip(src, i + 2, (x: char) => x != '\n' && x != '\r')
    ensures IsLineComment(src[i..end], src[end..])
  {
    SkipFacts(src, i + 2, (x: char) => x != '\n' && x != '\r');
  }

  lemma {:induction false} CommentAtFacts(src: string, j: nat)
    requires j <= |src|
    ensures var close := CommentAt(src, j);
      (forall x :: j <= x < close ==> !ClosesAt(src, x)) && (close < |src| ==> ClosesAt(src, close))
    decreases |src| - j
  {
    if j < |src| && !ClosesAt(src, j) {
      CommentAtFacts(src, if src[j] == '\r' && j + 1 < |src| && src[j + 1] == '\n' then j + 2 else j + 1);
    }
  }

  lemma {:induction false} BlockCommentLooks(src: string, i: nat, end: nat)
    requires i + 1 < |src| && src[i] == '/' && src[i + 1] == '*' && end == Min(CommentAt(src, i + 2) + 2, |src|)
    ensures IsBlockComment(src[i..end], src[end..])
  {
    var text, close := src[i..end], CommentAt(src, i + 2);
    CommentAtFacts(src, i + 2);
    assert forall x :: 0 <= x < |text| ==> text[x] == src[i + x];
    assert forall x :: 0 <= x < |text| - 1 ==> (ClosesAt(text, x) <==> ClosesAt(src, i + x));
  }

  lemma {:induction false} BackslashesFrom(text: string, j: nat, x: nat)
    requires j < x <= |text|
    ensures text[j] != '\\' ==> Backslashes(text, j, x) == Backslashes(text, j + 1, x)
    ensures text[j] == '\\' && j + 2 <= x ==> Backslashes(text, j, x) % 2 == Backslashes(text, j + 2, x) % 2
    decreases x
  {
    if x > j + 1 {
      if text[x - 1] == '\\' {
        BackslashesFrom(text, j, x - 1);
      }
      if x == j + 2 {
        assert Backslashes(text, j, j + 1) == if text[j] == '\\' then 1 + Backslashes(text, j, j) else 0;
      }
    }
  }

  lemma {:induction false} QuoteAtFacts(src: string, j: nat, quote: char)
    requires j <= |src| + 1 && quote != '\\'
    ensures var k := QuoteAt(src, j, quote);
      && (forall x :: j <= x < k && x < |src| ==> !ClosingQuote(src, j, quote, x))
      && (k < |src| ==> ClosingQuote(src, j, quote, k))
    decreases |src| + 1 - j
  {
    if j < |src| && src[j] != quote {
      var next := if src[j] == '\\' then j + 2 else j + 1;
      QuoteAtFacts(src, next, quote);
      var k := QuoteAt(src, j, quote);
      forall x | j <= x < |src| ensures next <= x ==> (ClosingQuote(src, j, quote, x) <==> ClosingQuote(src, next, quote, x)) {
        if next <= x && j < x {
          BackslashesFrom(src, j, x);
        }
      }
      if src[j] == '\\' && j + 1 < |src| {
        assert Backslashes(src, j, j + 1) == 1 + Backslashes(src, j, j);
      }
    }
  }

  lemma {:induction false} BackslashesWithin(src: string, i: nat, end: nat, from: nat, x: nat)
    requires i <= end <= |src| && x <= end - i
    ensures Backslashes(src[i..end], from, x) == Backslashes(src, i + from, i + x)
    decreases x
  {
    if x > 0 {
      BackslashesWithin(src, i, end, from, x - 1);
    }
  }

  lemma {:induction false} QuotedLooks(src: string, i: nat, from: nat, quote: char, end: nat)
    requires 1 <= from && i + from <= |src| && src[i + from - 1] == quote && quote != '\\'
    requires end == LiteralEnd(src, i + from, quote)
    ensures IsQuoted(src[i..end], src[end..], quote, from)
  {
    var text, k := src[i..end], QuoteAt(src, i + from, quote);
    QuoteAtFacts(src, i + from, quote);
    forall x | 0 <= x < |text| ensures ClosingQuote(text, from, quote, x) <==> ClosingQuote(src, i + from, quote, i + x) {
      BackslashesWithin(src, i, end, from, x);
    }
    if k < |src| {
      assert ClosingQuote(text, from, quote, |text| - 1);
    } else {
      assert end == |src|;
    }
  }

  lemma {:induction false} FindFromFacts(src: string, mark: string, j: nat, x: nat)
    requires j <= x < FindFrom(src, mark, j) && x <= |src|
    ensures !StartsAt(src, mark, x)
    decreases if j <= |src| then |src| + 1 - j else 0
  {
    if j < x {
      FindFromFacts(src, mark, j + 1, x);
    }
  }

  lemma {:induction false} StartsWithin(src: string, i: nat, end: nat, mark: string, x: nat)
    requires i <= end <= |src| && i + x + |mark| <= end
    ensures StartsAt(src[i..end], mark, x) <==> StartsAt(src, mark, i + x)
  {
    SliceOfSlice(src, i, end, x, x + |mark|);
  }

  lemma {:induction false} SliceOfSlice(s: string, a: nat, b: nat, c: nat, d: nat)
    requires a <= b <= |s| && c <= d <= b - a
    ensures s[a..b][c..d] == s[a + c..a + d]
  {
    var one, two := s[a..b][c..d], s[a + c..a + d];
    forall k | 0 <= k < |one| ensures one[k] == two[k] {
    }
  }

  lemma {:induction false} TextThenBehind(src: string, i: nat, end: nat)
    requires i <= end <= |src|
    ensures src[i..end] + src[end..] == src[i..]
  {
  }

  lemma {:induction false} RawOpensAt(src: string, i: nat, end: nat)
    requires i < |src| && RawStart(src, i) && RawPrefix(src, i) + 2 <= end <= |src|
    ensures RawOpens(src[i..end], RawPrefix(src, i) - i)
  {
  }

  lemma {:induction false} NoMarkBefore(src: string, i: nat, end: nat, mark: string, from: nat, x: nat)
    requires i <= end <= |src| && from <= i + x < FindFrom(src, mark, from) && i + x + |mark| <= end
    ensures !StartsAt(src[i..end], mark, x)
  {
    FindFromFacts(src, mark, from, i + x);
    StartsWithin(src, i, end, mark, x);
  }

  lemma {:induction false} RawEnds(src: string, i: nat, end: nat, mark: string, open: nat, found: nat)
    requires i <= open < |src| && mark != [] && found == FindFrom(src, mark, open + 1)
    requires end == if found <= |src| then found + |mark| else |src|
    ensures RawCloses(src[i..end], src[end..], open - i, mark)
  {
    var text := src[i..end];
    forall x | open - i + 1 <= x < |text| && i + x < found ensures !StartsAt(text, mark, x) {
      if x + |mark| <= |text| {
        NoMarkBefore(src, i, end, mark, open + 1, x);
      }
    }
    if found <= |src| {
      StartsWithin(src, i, end, mark, found - i);
    }
  }

  lemma {:induction false} CloseMarkWithin(src: string, i: nat, end: nat, at: nat, open: nat)
    requires i + at + 2 <= open <= end <= |src|
    ensures CloseMark(src[i..end], at, open - i) == CloseMark(src, i + at, open)
  {
    SliceOfSlice(src, i, end, at + 2, open - i);
  }

  lemma {:induction false} RawPut(src: string, i: nat, at: nat, open: nat, mark: string, found: nat, end: nat)
    requires i + at + 2 <= open < |src| && (forall x :: i + at + 2 <= x < open ==> src[x] != '(') && src[open] == '('
    requires mark == CloseMark(src, i + at, open) && found == FindFrom(src, mark, open + 1)
    requires end == (if found <= |src| then found + |mark| else |src|) && RawOpens(src[i..end], at)
    ensures IsRaw(src[i..end], src[end..], at, open - i)
  {
    CloseMarkWithin(src, i, end, at, open);
    RawEnds(src, i, end, mark, open, found);
  }

  lemma {:induction false} RawUnopened(text: string, behind: string, at: nat)
    requires RawOpens(text, at) && (forall x :: at + 2 <= x < |text| ==> text[x] != '(') && behind == []
    ensures IsRaw(text, behind, at, |text|)
  {
  }

  /** Where a raw string ends, by its parts. */
  lemma {:induction false} RawEndIs(src: string, i: nat, start: nat, open: nat)
    requires i < |src| && RawStart(src, i) && start == RawPrefix(src, i) && open == Skip(src, start + 2, (c: char) => c != '(')
    ensures start + 2 <= open <= |src| && (forall x :: start + 2 <= x < open ==> src[x] != '(') && (open < |src| ==> src[open] == '(')
    ensures var mark := CloseMark(src, start, open); var found := FindFrom(src, mark, open + 1);
      RawEnd(src, i) == if found <= |src| then found + |mark| else |src|
  {
    SkipFacts(src, start + 2, (c: char) => c != '(');
  }

  lemma {:induction false} RawParts(src: string, i: nat, at: nat, open: nat, mark: string, found: nat, end: nat)
    requires i + at + 2 <= open <= |src| && (forall x :: i + at + 2 <= x < open ==> src[x] != '(') && (open < |src| ==> src[open] == '(')
    requires mark == CloseMark(src, i + at, open) && found == FindFrom(src, mark, open + 1)
    requires end == (if found <= |src| then found + |mark| else |src|) && RawOpens(src[i..end], at)
    ensures IsRaw(src[i..end], src[end..], at, open - i)
  {
    if open < |src| {
      RawPut(src, i, at, open, mark, found, end);
    } else {
      RawUnopened(src[i..end], src[end..], at);
    }
  }

  lemma {:induction false} RawLooks(src: string, i: nat, end: nat)
    requires i < |src| && RawStart(src, i) && end == RawEnd(src, i)
    ensures exists at, open :: IsRaw(src[i..end], src[end..], at, open)
  {
    var start := RawPrefix(src, i);
    var open := Skip(src, start + 2, (c: char) => c != '(');
    RawEndIs(src, i, start, open);
    RawOpensAt(src, i, end);
    var mark := CloseMark(src, start, open);
    RawParts(src, i, start - i, open, mark, FindFrom(src, mark, open + 1), end);
  }

  lemma {:induction false} WordLooks(src: string, cls: Classes, i: nat, end: nat)
    requires i < |src| && (src[i] == '_' || cls.alpha(src[i]))
    requires !RawStart(src, i) && !Prefixed(src, i, '"') && !Prefixed(src, i, '\'') && src[i] != '"' && src[i] != '\''
    requires end == Skip(src, i + 1, (x: char) => x == '_' || cls.alnum(x))
    ensures IsWord(cls, src[i..end], src[end..])
  {
    SkipFacts(src, i + 1, (x: char) => x == '_' || cls.alnum(x));
    TextThenBehind(src, i, end);
    NoLiteral(src, i);
  }

  lemma {:induction false} NoLiteral(src: string, i: nat)
    requires i < |src|
    ensures OpensLiteral(src[i..]) <==>
      RawStart(src, i) || Prefixed(src, i, '"') || Prefixed(src, i, '\'') || src[i] == '"' || src[i] == '\''
  {
  }

  lemma {:induction false} NumberLooks(src: string, cls: Classes, i: nat, end: nat)
    requires i < |src| && (cls.digit(src[i]) || (src[i] == '.' && i + 1 < |src| && cls.digit(src[i + 1])))
    requires end == Skip(src, i + 1, (x: char) => NumberChar(cls, x))
    ensures IsNumber(cls, src[i..end], src[end..])
  {
    SkipFacts(src, i + 1, (x: char) => NumberChar(cls, x));
    TextThenBehind(src, i, end);
  }

  lemma {:induction false} MarkLooks(src: string, cls: Classes, i: nat)
    requires i < |src| && CutAt(src, cls, i) == Within(SingleKind(src[i]), i + 1)
    requires !LineEnd(src[i]) && !Blank(src[i]) && src[i] != '_' && !cls.alpha(src[i])
    requires !(src[i] == '&' && i + 1 < |src| && src[i + 1] == '&')
    requires !OpensComment(src[i..]) && !OpensLiteral(src[i..]) && !OpensNumber(cls, src[i..])
    ensures LooksAt(src, cls, i)
  {
    assert src[i..i + 1] == [src[i]] && src[i..i + 1] + src[i + 1..] == src[i..];
  }

  lemma {:induction false} BlanksLook(src: string, i: nat, end: nat)
    requires i < |src| && Blank(src[i]) && end == Skip(src, i + 1, Blank)
    ensures src[i..end] != [] && AllAre(src[i..end], Blank) && StopsAt(src[end..], Blank)
  {
    SkipFacts(src, i + 1, Blank);
  }

  lemma {:induction false} LiteralCutLooks(src: string, cls: Classes, i: nat)
    requires i < |src| && !LineEnd(src[i]) && !Blank(src[i]) && src[i] != '/'
    requires RawStart(src, i) || Prefixed(src, i, '"') || Prefixed(src, i, '\'') || src[i] == '"' || src[i] == '\''
    ensures LooksAt(src, cls, i)
  {
    var cut := CutAt(src, cls, i);
    if RawStart(src, i) {
      RawLooks(src, i, cut.end);
    } else if Prefixed(src, i, '"') {
      QuotedLooks(src, i, 2, '"', cut.end);
    } else if src[i] == '"' {
      QuotedLooks(src, i, 1, '"', cut.end);
    } else if src[i] == '\'' {
      QuotedLooks(src, i, 1, '\'', cut.end);
    } else {
      QuotedLooks(src, i, 2, '\'', cut.end);
    }
  }

  lemma {:induction false} CutLooks(src: string, cls: Classes, i: nat)
    requires i < |src|
    ensures LooksAt(src, cls, i)
  {
    var c, cut := src[i], CutAt(src, cls, i);
    NoLiteral(src, i);
    if LineEnd(c) {
      assert cut.end == i + 1 ==> src[i..cut.end] == [c];
      assert cut.end == i + 2 ==> src[i..cut.end] == [c, src[i + 1]];
    } else if Blank(c) {
      BlanksLook(src, i, cut.end);
    } else if c == '/' && i + 1 < |src| && src[i + 1] == '/' {
      LineCommentLooks(src, i, cut.end);
    } else if c == '/' && i + 1 < |src| && src[i + 1] == '*' {
      BlockCommentLooks(src, i, cut.end);
    } else if OpensLiteral(src[i..]) {
      LiteralCutLooks(src, cls, i);
    } else if c == '_' || cls.alpha(c) {
      WordLooks(src, cls, i, cut.end);
    } else if cls.digit(c) || (c == '.' && i + 1 < |src| && cls.digit(src[i + 1])) {
      NumberLooks(src, cls, i, cut.end);
    } else if c == '&' && i + 1 < |src| && src[i + 1] == '&' {
      assert src[i..i + 2] == [c, src[i + 1]];
    } else {
      MarkLooks(src, cls, i);
    }
  }

  // ---- Every token of a source -----------------------------------------------------------------

  /** Where the token at `k` begins, counted in characters. */
  function Offset(tokens: seq<Token>, k: nat): nat
    requires k <= |tokens|
  {
    if k == 0 then 0 else |tokens[0].text| + Offset(tokens[1..], k - 1)
  }

  /** This token, with so many after it, is the one cut off at `at`, or the last one. */
  ghost predicate IsCutAt(src: string, cutter: Cutter, t: Token, after: nat, at: nat)
    requires Progresses(src, cutter)
  {
    && at <= |src| && (after == 0 <==> at == |src|)
    && (if after == 0 then t.kind == Eof && t.text == [] else t.kind == cutter(at).kind && t.text == src[at..cutter(at).end])
  }

  lemma {:induction false} FirstStands(src: string, cutter: Cutter, i: nat, line: int, start: int, tokens: seq<Token>)
    requires i <= |src| && Progresses(src, cutter) && tokens == Tokens(src, cutter, i, line, start)
    ensures IsCutAt(src, cutter, tokens[0], |tokens| - 1, i)
  {
  }

  lemma {:induction false} Unfold(src: string, cutter: Cutter, i: nat, line: int, start: int, tokens: seq<Token>, rest: seq<Token>)
    requires i < |src| && Progresses(src, cutter) && tokens == Tokens(src, cutter, i, line, start)
    requires rest == Tokens(src, cutter, cutter(i).end, line + cutter(i).lines, LineStart(cutter(i), start))
    ensures tokens[1..] == rest && |tokens[0].text| == cutter(i).end - i
  {
  }

  /** Where the cut after `k` others, the first of them at `i`, begins. */
  ghost function CutStart(src: string, cutter: Cutter, i: nat, k: nat): nat
    requires i <= |src| && Progresses(src, cutter)
    decreases k
  {
    if k == 0 || i == |src| then i else CutStart(src, cutter, cutter(i).end, k - 1)
  }

  lemma {:induction false} TokenCut(src: string, cutter: Cutter, i: nat, line: int, start: int, tokens: seq<Token>, k: nat)
    requires i <= |src| && Progresses(src, cutter) && tokens == Tokens(src, cutter, i, line, start) && k < |tokens|
    ensures IsCutAt(src, cutter, tokens[k], |tokens| - 1 - k, CutStart(src, cutter, i, k))
    decreases k
  {
    FirstStands(src, cutter, i, line, start, tokens);
    if k > 0 {
      var cut := cutter(i);
      var rest := Tokens(src, cutter, cut.end, line + cut.lines, LineStart(cut, start));
      Unfold(src, cutter, i, line, start, tokens, rest);
      TokenCut(src, cutter, cut.end, line + cut.lines, LineStart(cut, start), rest, k - 1);
      assert tokens[k] == rest[k - 1];
    }
  }

  lemma {:induction false} OffsetIsStart(src: string, cutter: Cutter, i: nat, line: int, start: int, tokens: seq<Token>, k: nat)
    requires i <= |src| && Progresses(src, cutter) && tokens == Tokens(src, cutter, i, line, start) && k < |tokens|
    ensures i + Offset(tokens, k) == CutStart(src, cutter, i, k)
    decreases k
  {
    if k > 0 {
      var cut := cutter(i);
      var rest := Tokens(src, cutter, cut.end, line + cut.lines, LineStart(cut, start));
      FirstStands(src, cutter, i, line, start, tokens);
      Unfold(src, cutter, i, line, start, tokens, rest);
      OffsetIsStart(src, cutter, cut.end, line + cut.lines, LineStart(cut, start), rest, k - 1);
    }
  }

  /** A token with this text stands at `at`, and looks as its kind must. */
  ghost predicate StandsAt(src: string, cls: Classes, kind: Kind, text: string, at: nat) {
    at + |text| <= |src| && src[at..at + |text|] == text && Looks(cls, kind, text, src[at + |text|..])
  }

  lemma {:induction false} CutStands(src: string, cls: Classes, at: nat, kind: Kind, text: string)
    requires at < |src| && kind == CutAt(src, cls, at).kind && text == src[at..CutAt(src, cls, at).end]
    ensures StandsAt(src, cls, kind, text, at)
  {
    CutLooks(src, cls, at);
  }

  lemma {:induction false} EndStands(src: string, cls: Classes)
    ensures StandsAt(src, cls, Eof, [], |src|)
  {
  }

  /**
   * Every token of every source stands where the ones before it end, and looks as its kind must, which
   * takes in what follows it: a line comment goes to its line's end, a block comment to its first closing
   * mark, a literal to the first quote that no backslash escapes, a raw string to its own closing mark, a
   * word as far as it goes, and nothing shorter is taken where something longer begins.
   */
  lemma {:induction false} TokensLook(src: string, cls: Classes, k: nat)
    requires k < |Lexed(src, cls)|
    ensures var tokens := Lexed(src, cls); StandsAt(src, cls, tokens[k].kind, tokens[k].text, Offset(tokens, k))
  {
    CutterSound(src, cls);
    TokenCut(src, CutterOf(src, cls), 0, 1, 0, Lexed(src, cls), k);
    OffsetIsStart(src, CutterOf(src, cls), 0, 1, 0, Lexed(src, cls), k);
    var t, at := Lexed(src, cls)[k], Offset(Lexed(src, cls), k);
    if at < |src| {
      CutStands(src, cls, at, t.kind, t.text);
    } else {
      EndStands(src, cls);
    }
  }

  lemma {:induction false} LooksNotBlank(src: string, cls: Classes, k: nat)
    requires k < |Lexed(src, cls)|
    requires var kind := Lexed(src, cls)[k].kind; kind.LineComment? || kind.BlockComment? || kind.String? || kind.CharLit?
    ensures !AllBlank(Lexed(src, cls)[k].text)
  {
    TokensLook(src, cls, k);
    var text := Lexed(src, cls)[k].text;
    assert text != [] && !Blank(text[0]);
  }

  /** Every comment and every literal of the source stands in the output, its text unchanged. */
  lemma {:induction false} CommentsAndLiteralsStand(src: string, cls: Classes, k: nat) returns (before: string, after: string)
    requires k < |Lexed(src, cls)|
    requires var kind := Lexed(src, cls)[k].kind; kind.LineComment? || kind.BlockComment? || kind.String? || kind.CharLit?
    ensures Processed(src, cls) == before + Lexed(src, cls)[k].text + after
  {
    var text, out := Lexed(src, cls)[k].text, Output(src, cls);
    ProcessKeepsTally(Whole, src, cls);
    LooksNotBlank(src, cls, k);
    TallyHas(Lexed(src, cls), text);
    TallyHas(out, text);
    var j :| 0 <= j < |out| && out[j].text == text;
    before, after := RenderedHas(out, j);
  }
}
