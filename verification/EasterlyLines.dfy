/** The line and column each token is given, by the line ends in the texts before it. */
module EasterlyLines {
  import opened Options
  import opened EasterlyLexer
  import opened EasterlyShapes
  import opened EasterlyTransform

  /** A line ends here: at a newline, or at a carriage return that no newline follows. */
  predicate BreakAt(text: string, x: nat) {
    x < |text| && (text[x] == '\n' || (text[x] == '\r' && !(x + 1 < |text| && text[x + 1] == '\n')))
  }

  /** How many lines end in this stretch of the text. */
  function Breaks(text: string, from: nat, end: nat): nat {
    if end <= from then 0 else Breaks(text, from, end - 1) + if BreakAt(text, end - 1) then 1 else 0
  }

  /** How many characters of the stretch stand after its last line end. */
  function Tail(text: string, from: nat, end: nat): nat {
    if end <= from || BreakAt(text, end - 1) then 0 else 1 + Tail(text, from, end - 1)
  }

  predicate OpensRaw(text: string) { RawOpens(text, 0) || RawOpens(text, 1) || RawOpens(text, 2) }

  /** How many lines a token is counted to end: a comment's and a raw string's are, those of other literals are not. */
  ghost function LinesEnded(kind: Kind, text: string): nat {
    match kind
    case Newline => 1
    case BlockComment => Breaks(text, 0, |text|)
    case String => if OpensRaw(text) then multiset(text)['\n'] else 0
    case _ => 0
  }

  /** The column after a token: a line's end starts it again, but a raw string's line ends do not. */
  ghost function ColumnAfter(kind: Kind, text: string, col: int): int {
    match kind
    case Newline => 1
    case BlockComment => if Breaks(text, 0, |text|) > 0 then 1 + Tail(text, 0, |text|) else col + |text|
    case _ => col + |text|
  }

  // ---- One cut ---------------------------------------------------------------------------------

  lemma {:induction false} BreaksApart(text: string, from: nat, middle: nat, end: nat)
    requires from <= middle <= end
    ensures Breaks(text, from, end) == Breaks(text, from, middle) + Breaks(text, middle, end)
    decreases end
  {
    if middle < end {
      BreaksApart(text, from, middle, end - 1);
    }
  }

  lemma {:induction false} NoBreaks(text: string, from: nat, end: nat)
    requires from <= end && forall x :: from <= x < end ==> !BreakAt(text, x)
    ensures Breaks(text, from, end) == 0 && Tail(text, from, end) == end - from
    decreases end
  {
    if from < end {
      NoBreaks(text, from, end - 1);
    }
  }

  lemma {:induction false} BreaksShifted(src: string, i: nat, text: string, from: nat, end: nat)
    requires i + |text| <= |src| && text == src[i..i + |text|] && end <= |text|
    requires forall x: nat :: from <= x < end ==> (BreakAt(text, x) <==> BreakAt(src, i + x))
    ensures Breaks(text, from, end) == Breaks(src, i + from, i + end) && Tail(text, from, end) == Tail(src, i + from, i + end)
    decreases end
  {
    if from < end {
      BreaksShifted(src, i, text, from, end - 1);
    }
  }

  /** The end of the comment is no line feed that a carriage return before it would wait for. */
  predicate EndsBetween(src: string, k: nat) {
    k == |src| || (k < |src| && src[k] == '*')
  }

  lemma {:induction false} CommentLinesCounted(src: string, j: nat, k: nat)
    requires j <= k <= |src| && EndsBetween(src, k)
    ensures CommentLines(src, j, k) == Breaks(src, j, k)
    decreases |src| - j
  {
    if j < k {
      var next := if src[j] == '\r' && j + 1 < |src| && src[j + 1] == '\n' then j + 2 else j + 1;
      CommentLinesCounted(src, next, k);
      BreaksApart(src, j, next, k);
      assert Breaks(src, j, j + 1) == Breaks(src, j, j) + if BreakAt(src, j) then 1 else 0;
      if next == j + 2 {
        assert Breaks(src, j, j + 2) == Breaks(src, j, j + 1) + 1;
      }
    }
  }

  lemma {:induction false} LastBreak(src: string, s: nat, from: nat, k: nat)
    requires from < s <= k && BreakAt(src, s - 1) && forall x :: s <= x < k ==> !BreakAt(src, x)
    ensures Tail(src, from, k) == k - s && Breaks(src, from, k) > 0
    decreases k
  {
    if s < k {
      LastBreak(src, s, from, k - 1);
    }
  }

  lemma {:induction false} CommentStartIs(src: string, j: nat, k: nat, start: Option<nat>)
    requires j <= k <= |src| && EndsBetween(src, k)
    ensures var r := CommentStart(src, j, k, start);
      || (r == start && forall x :: j <= x < k ==> !BreakAt(src, x))
      || (r.Some? && j < r.value <= k && BreakAt(src, r.value - 1) && forall x :: r.value <= x < k ==> !BreakAt(src, x))
    decreases |src| - j
  {
    if j < k {
      if src[j] == '\n' {
        CommentStartIs(src, j + 1, k, Some(j + 1));
      } else if src[j] == '\r' {
        var next := if j + 1 < |src| && src[j + 1] == '\n' then j + 2 else j + 1;
        CommentStartIs(src, next, k, Some(next));
      } else {
        CommentStartIs(src, j + 1, k, start);
      }
    }
  }

  lemma {:induction false} NewlinesCounted(text: string)
    ensures CountNewlines(text) == multiset(text)['\n']
  {
    if text != [] {
      var m := |text| - 1;
      NewlinesCounted(text[..m]);
      assert text == text[..m] + [text[m]];
    }
  }

  lemma {:induction false} BlockCommentCounted(src: string, cls: Classes, i: nat, cut: Cut, text: string)
    requires i + 1 < |src| && src[i] == '/' && src[i + 1] == '*' && cut == CutAt(src, cls, i) && text == src[i..cut.end]
    ensures cut.lines == Breaks(text, 0, |text|)
    ensures if cut.lines > 0 then cut.start.Some? && cut.end - cut.start.value == Tail(text, 0, |text|) else cut.start.None?
  {
    var close := CommentAt(src, i + 2);
    CommentAtFacts(src, i + 2);
    CommentLinesCounted(src, i + 2, close);
    CommentStartIs(src, i + 2, close, None);
    var s := cut.start;
    if s.Some? {
      LastBreak(src, s.value, i + 2, close);
    } else {
      NoBreaks(src, i + 2, close);
    }
    BreaksAround(src, i, close, cut.end);
    assert forall x: nat :: x < |text| ==> text[x] == src[i + x];
    BreaksShifted(src, i, text, 0, |text|);
  }

  /** Neither mark of the comment holds a line's end. */
  lemma {:induction false} BreaksAround(src: string, i: nat, close: nat, end: nat)
    requires i + 2 <= close <= end <= |src| && src[i] == '/' && src[i + 1] == '*'
    requires close == end || (end == close + 2 && src[close] == '*' && src[close + 1] == '/')
    ensures Breaks(src, i, end) == Breaks(src, i + 2, close)
    ensures Breaks(src, i, end) > 0 ==> Tail(src, i, end) == Tail(src, i + 2, close) + (end - close)
  {
    NoBreaks(src, i, i + 2);
    NoBreaks(src, close, end);
    BreaksApart(src, i, i + 2, close);
    BreaksApart(src, i, close, end);
    if Breaks(src, i + 2, close) > 0 {
      TailApart(src, i, i + 2, close);
      if end == close + 2 {
        assert Tail(src, i, close + 1) == 1 + Tail(src, i, close);
      }
    }
  }

  lemma {:induction false} TailApart(text: string, from: nat, middle: nat, end: nat)
    requires from <= middle <= end && Breaks(text, middle, end) > 0
    ensures Tail(text, from, end) == Tail(text, middle, end)
    decreases end
  {
    if !BreakAt(text, end - 1) {
      TailApart(text, from, middle, end - 1);
    }
  }

  lemma {:induction false} RawNotQuoted(src: string, i: nat, end: nat)
    requires i < end <= |src|
    ensures OpensRaw(src[i..end]) ==> RawStart(src, i)
    ensures RawStart(src, i) && RawPrefix(src, i) + 2 <= end ==> OpensRaw(src[i..end])
  {
  }

  /** The lines and the column a cut accounts for. */
  ghost predicate Counted(cut: Cut, i: nat, text: string) {
    && cut.lines == LinesEnded(cut.kind, text)
    && forall start: int :: cut.end - LineStart(cut, start) + 1 == ColumnAfter(cut.kind, text, i - start + 1)
  }

  lemma {:induction false} CutCounted(src: string, cls: Classes, i: nat)
    requires i < |src|
    ensures var cut := CutAt(src, cls, i); Counted(cut, i, src[i..cut.end])
  {
    var cut := CutAt(src, cls, i);
    var text := src[i..cut.end];
    RawNotQuoted(src, i, cut.end);
    if cut.kind.BlockComment? {
      BlockCommentCounted(src, cls, i, cut, text);
    } else if cut.kind.String? {
      NewlinesCounted(text);
    }
  }

  // ---- Every token of a source -----------------------------------------------------------------

  /** The next token's place follows from this one's. */
  ghost predicate Follows(t: Token, next: Token) {
    next.line == t.line + LinesEnded(t.kind, t.text) && next.col == ColumnAfter(t.kind, t.text, t.col)
  }

  ghost predicate AllCounted(src: string, cutter: Cutter)
    requires Progresses(src, cutter)
  {
    forall i: nat :: i < |src| ==> Counted(cutter(i), i, src[i..cutter(i).end])
  }

  lemma {:induction false} TokenFollows(src: string, cutter: Cutter, i: nat, line: int, start: int, tokens: seq<Token>, k: nat)
    requires i <= |src| && Progresses(src, cutter) && AllCounted(src, cutter) && tokens == Tokens(src, cutter, i, line, start)
    requires k + 1 < |tokens|
    ensures Follows(tokens[k], tokens[k + 1])
    decreases k
  {
    FirstStands(src, cutter, i, line, start, tokens);
    var cut := cutter(i);
    var rest := Tokens(src, cutter, cut.end, line + cut.lines, LineStart(cut, start));
    Unfold(src, cutter, i, line, start, tokens, rest);
    if k == 0 {
      FirstPlace(src, cutter, i, line, start, tokens);
      FirstPlace(src, cutter, cut.end, line + cut.lines, LineStart(cut, start), rest);
      assert tokens[1] == rest[0] && Counted(cut, i, tokens[0].text);
    } else {
      TokenFollows(src, cutter, cut.end, line + cut.lines, LineStart(cut, start), rest, k - 1);
      assert tokens[k] == rest[k - 1] && tokens[k + 1] == rest[k];
    }
  }

  lemma {:induction false} FirstPlace(src: string, cutter: Cutter, i: nat, line: int, start: int, tokens: seq<Token>)
    requires i <= |src| && Progresses(src, cutter) && tokens == Tokens(src, cutter, i, line, start)
    ensures tokens[0].line == line && tokens[0].col == i - start + 1
  {
  }

  /** The first token stands at line one, column one, and every other where the texts before it leave off. */
  lemma {:induction false} PlacesCounted(src: string, cls: Classes, k: nat)
    requires k < |Lexed(src, cls)|
    ensures var tokens := Lexed(src, cls);
      && tokens[0].line == 1 && tokens[0].col == 1
      && (k + 1 < |tokens| ==> Follows(tokens[k], tokens[k + 1]))
  {
    CutterSound(src, cls);
    var cutter := CutterOf(src, cls);
    forall i: nat | i < |src| ensures Counted(cutter(i), i, src[i..cutter(i).end]) {
      CutCounted(src, cls, i);
    }
    FirstPlace(src, cutter, 0, 1, 0, Lexed(src, cls));
    if k + 1 < |Lexed(src, cls)| {
      TokenFollows(src, cutter, 0, 1, 0, Lexed(src, cls), k);
    }
  }

  // ---- Which qualifiers are moved --------------------------------------------------------------

  lemma {:induction false} LinesBetween(src: string, cls: Classes, tokens: seq<Token>, p: nat, k: nat)
    requires tokens == Lexed(src, cls) && p <= k < |tokens|
    ensures tokens[p].line <= tokens[k].line
    ensures tokens[p].line == tokens[k].line <==> forall x :: p <= x < k ==> LinesEnded(tokens[x].kind, tokens[x].text) == 0
    decreases k
  {
    if p < k {
      LinesBetween(src, cls, tokens, p, k - 1);
      PlacesCounted(src, cls, k - 1);
      assert Follows(tokens[k - 1], tokens[k]);
    }
  }

  /** The last token before `k` that is neither blank, comment nor line end. */
  ghost predicate StandsBefore(tokens: seq<Token>, p: nat, k: nat) {
    p < k <= |tokens| && !tokens[p].Trivial() && forall x :: p < x < k ==> tokens[x].Trivial()
  }

  lemma {:induction false} PrevIs(tokens: seq<Token>, k: nat)
    requires k <= |tokens|
    ensures var p := PrevFrom(tokens, k - 1);
      && (p >= 0 ==> StandsBefore(tokens, p, k))
      && (forall q: nat :: StandsBefore(tokens, q, k) ==> q == p)
    decreases k
  {
    if k > 0 && tokens[k - 1].Trivial() {
      PrevIs(tokens, k - 1);
      var p := PrevFrom(tokens, k - 1);
      forall q: nat | StandsBefore(tokens, q, k) ensures q == p {
        assert StandsBefore(tokens, q, k - 1);
      }
    }
  }

  /** A type can end here: at a word, a closing angle, or a closing bracket that no other comes right before. */
  ghost predicate EndsType(tokens: seq<Token>, p: nat)
    requires p < |tokens|
  {
    || tokens[p].kind in {Word, RAngle}
    || (tokens[p].kind.RBracket? && !exists q: nat :: StandsBefore(tokens, q, p) && tokens[q].kind.RBracket?)
  }

  /** The qualifier at `k` stands right behind a type that ends at `p`, on its line, and not in an assembler statement. */
  ghost predicate Qualifies(tokens: seq<Token>, p: nat, k: nat) {
    && k < |tokens| && tokens[k].kind.Word? && tokens[k].text in {"const", "volatile"}
    && StandsBefore(tokens, p, k) && EndsType(tokens, p)
    && (forall x :: p <= x < k ==> LinesEnded(tokens[x].kind, tokens[x].text) == 0)
    && var first := tokens[TypeStart(tokens, p)]; !(first.kind.Word? && first.text in {"asm", "__asm__", "__asm"})
  }

  lemma {:induction false} EndsTypeIs(tokens: seq<Token>, p: nat)
    requires p < |tokens|
    ensures EndsType(tokens, p) <==> IsTypeToken(tokens, p)
  {
    PrevIs(tokens, p);
  }

  /** A qualifier is moved exactly when it stands behind a type so, and then to where that type starts. */
  lemma {:induction false} MovesExactlyWhen(src: string, cls: Classes, k: nat)
    requires k < |Lexed(src, cls)|
    ensures var tokens := Lexed(src, cls);
      && (MoveAt(tokens, k).Some? <==> exists p: nat :: Qualifies(tokens, p, k))
      && (forall p: nat :: Qualifies(tokens, p, k) ==> MoveAt(tokens, k) == Some(Move(k, TypeStart(tokens, p))))
  {
    var tokens := Lexed(src, cls);
    var p := PrevFrom(tokens, k - 1);
    PrevIs(tokens, k);
    if p >= 0 {
      LinesBetween(src, cls, tokens, p, k);
      EndsTypeIs(tokens, p);
      assert MoveAt(tokens, k).Some? <==> Qualifies(tokens, p, k);
    }
  }

  /** The blank before the qualifier goes with it: it follows a token that is itself no blank, comment or line end. */
  predicate BlankGoes(tokens: seq<Token>, cv: nat)
    requires cv < |tokens|
  {
    cv >= 2 && tokens[cv - 1].kind == Whitespace && tokens[cv - 2].kind !in {Whitespace, Newline, LineComment, BlockComment}
  }

  /** A move puts the qualifier and one blank in front of the type, and takes it out behind it with the blank before it, if that goes. */
  lemma {:induction false} MovedExactly(tokens: seq<Token>, m: Move)
    requires m.start < m.cv < |tokens| && !(m.start == m.cv - 1 && BlankGoes(tokens, m.cv))
    ensures var qualifier := tokens[m.cv]; var end := if BlankGoes(tokens, m.cv) then m.cv - 1 else m.cv;
      Applied(tokens, m) ==
        tokens[..m.start]
        + [qualifier.(kind := Word), Token(Whitespace, " ", qualifier.line, qualifier.col)]
        + tokens[m.start..end] + tokens[m.cv + 1..]
  {
    var end := if BlankGoes(tokens, m.cv) then m.cv - 1 else m.cv;
    var kept := tokens[..end] + tokens[m.cv + 1..];
    assert kept[..m.start] == tokens[..m.start] && kept[m.start..] == tokens[m.start..end] + tokens[m.cv + 1..];
  }
}
