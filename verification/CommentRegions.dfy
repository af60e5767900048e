/** What is blanked before the coding standards are checked, by the comments and literals of the text. */
module CommentRegions {
  import opened EasterlyShapes
  import opened CommentStripping

  /** A stretch of a C++ text: one character of code, a comment or a literal. */
  datatype Piece = Plain(text: string) | BlockPiece(text: string) | LinePiece(text: string) | LiteralPiece(text: string)

  /** No backslash escapes what stands at `x` in a literal. */
  predicate Free(text: string, x: nat)
    requires x <= |text|
  {
    Backslashes(text, 1, x) % 2 == 0
  }

  /** A literal would end here: at its quote, or at its line's end. */
  predicate Stops(text: string, x: nat) {
    0 < x < |text| && Free(text, x) && (text[x] == text[0] || text[x] == '\n')
  }

  /** The quote at the end closes the literal. */
  predicate LiteralClosed(text: string) {
    |text| >= 2 && text[|text| - 1] == text[0] && Free(text, |text| - 1)
  }

  predicate IsLineLiteral(text: string, behind: string) {
    && text != [] && (text[0] == '"' || text[0] == '\'')
    && (forall x :: 0 < x < |text| - (if LiteralClosed(text) then 1 else 0) ==> !Stops(text, x))
    && (LiteralClosed(text) || behind == [] || (behind[0] == '\n' && Free(text, |text|)))
  }

  predicate IsRestOfLine(text: string, behind: string) {
    && |text| >= 2 && text[0] == '/' && text[1] == '/'
    && (forall x :: 0 <= x < |text| ==> text[x] != '\n')
    && (behind == [] || behind[0] == '\n')
  }

  predicate IsCode(text: string, behind: string) {
    && |text| == 1 && text[0] != '"' && text[0] != '\''
    && !(text[0] == '/' && behind != [] && (behind[0] == '/' || behind[0] == '*'))
  }

  predicate IsPiece(p: Piece, behind: string) {
    match p
    case Plain(text) => IsCode(text, behind)
    case BlockPiece(text) => IsBlockComment(text, behind)
    case LinePiece(text) => IsRestOfLine(text, behind)
    case LiteralPiece(text) => IsLineLiteral(text, behind)
  }

  /** The text cut into such pieces. */
  predicate Cuts(text: string, pieces: seq<Piece>)
    decreases |pieces|
  {
    if pieces == [] then text == []
    else
      var p := pieces[0];
      && |p.text| <= |text| && text[..|p.text|] == p.text
      && IsPiece(p, text[|p.text|..]) && Cuts(text[|p.text|..], pieces[1..])
  }

  /** The characters that open and close a comment or a literal; all of the code. */
  predicate Marks(p: Piece, k: nat) {
    match p
    case Plain(_) => true
    case BlockPiece(text) => k < 2 || (|text| >= 4 && ClosesAt(text, |text| - 2) && k >= |text| - 2)
    case LinePiece(text) => k < 2
    case LiteralPiece(text) => k == 0 || (LiteralClosed(text) && k == |text| - 1)
  }

  /** A piece with its inside blanked, the line ends of a block comment apart. */
  function Bare(p: Piece): string {
    seq(|p.text|, k requires 0 <= k < |p.text| =>
      if Marks(p, k) || (p.BlockPiece? && p.text[k] == '\n') then p.text[k] else ' ')
  }

  function AllBare(pieces: seq<Piece>): string {
    if pieces == [] then [] else Bare(pieces[0]) + AllBare(pieces[1..])
  }

  // ---- Blanking one piece ----------------------------------------------------------------------

  function Spaces(n: nat): string { seq(n, _ => ' ') }

  function Blots(s: string): string { seq(|s|, k requires 0 <= k < |s| => if s[k] == '\n' then '\n' else ' ') }

  lemma {:induction false} DropOne(text: string, i: nat)
    requires i < |text|
    ensures text[i..] != [] && text[i..][0] == text[i] && text[i..][1..] == text[i + 1..]
  {
  }

  lemma {:induction false} DropTwo(text: string, i: nat)
    requires i + 2 <= |text|
    ensures |text[i..]| >= 2 && text[i..][1] == text[i + 1] && text[i..][2..] == text[i + 2..]
  {
  }

  /** Two stretches blanked one after the other. */
  lemma {:induction false} Joined(whole: string, a: string, first: string, b: string, last: string, bare: string)
    requires whole == a + first && first == b + last && bare == a + b
    ensures whole == bare + last
  {
  }

  lemma {:induction false} InLine(text: string, i: nat, end: nat)
    requires i <= end <= |text| && forall x :: i <= x < end ==> text[x] != '\n'
    ensures Blanked(text[i..], Line) == Spaces(end - i) + Blanked(text[end..], Line)
    decreases end - i
  {
    if i < end {
      DropOne(text, i);
      InLine(text, i + 1, end);
      assert Spaces(end - i) == " " + Spaces(end - i - 1);
    } else {
      assert Spaces(0) == [];
    }
  }

  lemma {:induction false} OneInBlock(text: string, i: nat, blot: string)
    requires i < |text| && !ClosesAt(text, i) && blot == [if text[i] == '\n' then '\n' else ' ']
    ensures Blanked(text[i..], Block) == blot + Blanked(text[i + 1..], Block)
  {
    DropOne(text, i);
    assert !ClosesBlock(text[i..]);
  }

  lemma {:induction false} InBlock(text: string, i: nat, end: nat)
    requires i <= end <= |text| && forall x :: i <= x < end ==> !ClosesAt(text, x)
    ensures Blanked(text[i..], Block) == Blots(text[i..end]) + Blanked(text[end..], Block)
    decreases end - i
  {
    if i < end {
      assert !ClosesAt(text, i);
      var blot := [if text[i] == '\n' then '\n' else ' '];
      OneInBlock(text, i, blot);
      InBlock(text, i + 1, end);
      assert Blots(text[i..end]) == blot + Blots(text[i + 1..end]);
      Joined(Blanked(text[i..], Block), blot, Blanked(text[i + 1..], Block), Blots(text[i + 1..end]), Blanked(text[end..], Block),
             Blots(text[i..end]));
    } else {
      assert Blots(text[i..end]) == [];
    }
  }

  /** From `i` to `end`, inside a literal, everything is blanked. */
  ghost predicate Clears(text: string, i: nat, end: nat, quote: char)
    requires i <= end <= |text|
  {
    Blanked(text[i..], Quoted(quote)) == Spaces(end - i) + Blanked(text[end..], Quoted(quote))
  }

  lemma {:induction false} NoneInside(text: string, i: nat, quote: char)
    requires i <= |text|
    ensures Clears(text, i, i, quote)
  {
    assert Spaces(0) == [];
  }

  lemma {:induction false} OneInside(text: string, i: nat, quote: char)
    requires i < |text| && text[i] != quote && text[i] != '\n' && (text[i] == '\\' ==> i + 1 == |text|)
    ensures Clears(text, i, i + 1, quote)
  {
    DropOne(text, i);
    assert Spaces(1) == " ";
  }

  lemma {:induction false} EscapeInside(text: string, i: nat, quote: char)
    requires i + 1 < |text| && text[i] == '\\' && quote != '\\'
    ensures Clears(text, i, i + 2, quote)
  {
    DropTwo(text, i);
    assert Spaces(2) == "  ";
  }

  lemma {:induction false} MoreInside(text: string, i: nat, middle: nat, end: nat, quote: char)
    requires i <= middle <= end <= |text| && Clears(text, i, middle, quote) && Clears(text, middle, end, quote)
    ensures Clears(text, i, end, quote)
  {
    assert Spaces(middle - i) + Spaces(end - middle) == Spaces(end - i);
    Joined(Blanked(text[i..], Quoted(quote)), Spaces(middle - i), Blanked(text[middle..], Quoted(quote)), Spaces(end - middle),
           Blanked(text[end..], Quoted(quote)), Spaces(end - i));
  }

  lemma {:induction false} InLiteral(text: string, i: nat, end: nat, quote: char)
    requires 1 <= i <= end <= |text| && quote == text[0] != '\\' && Free(text, i) && (end == |text| || Free(text, end))
    requires forall x :: i <= x < end ==> !Stops(text, x)
    ensures Clears(text, i, end, quote)
    decreases end - i
  {
    if i == end {
      NoneInside(text, i, quote);
    } else {
      assert !Stops(text, i);
      FreeAfter(text, i);
      if text[i] == '\\' && i + 1 < |text| {
        EscapeInside(text, i, quote);
        InLiteral(text, i + 2, end, quote);
        MoreInside(text, i, i + 2, end, quote);
      } else {
        OneInside(text, i, quote);
        if text[i] != '\\' {
          InLiteral(text, i + 1, end, quote);
          MoreInside(text, i, i + 1, end, quote);
        }
      }
    }
  }

  lemma {:induction false} FreeAfter(text: string, i: nat)
    requires 1 <= i < |text| && Free(text, i)
    ensures Free(text, i + 1) <==> text[i] != '\\'
    ensures text[i] == '\\' && i + 2 <= |text| ==> Free(text, i + 2)
  {
    assert Backslashes(text, 1, i + 1) == if text[i] == '\\' then 1 + Backslashes(text, 1, i) else 0;
  }

  /** Three stretches blanked one after the other. */
  lemma {:induction false} Assembled(whole: string, a: string, first: string, b: string, second: string, c: string, last: string, bare: string)
    requires whole == a + first && first == b + second && second == c + last && bare == a + b + c
    ensures whole == bare + last
  {
  }

  lemma {:induction false} BlockStarts(text: string)
    requires |text| >= 2 && text[0] == '/' && text[1] == '*'
    ensures Blanked(text, Code) == "/*" + Blanked(text[2..], Block)
  {
  }

  lemma {:induction false} LiteralStarts(text: string)
    requires text != [] && IsQuote(text[0])
    ensures Blanked(text, Code) == [text[0]] + Blanked(text[1..], Quoted(text[0]))
  {
  }

  lemma {:induction false} LineBlanked(p: Piece, behind: string, text: string)
    requires p.LinePiece? && IsPiece(p, behind) && text == p.text + behind
    ensures Blanked(text, Code) == Bare(p) + Blanked(behind, Code)
  {
    var n := |p.text|;
    assert text[n..] == behind;
    InLine(text, 2, n);
    assert Bare(p) == "//" + Spaces(n - 2);
  }

  lemma {:induction false} ClosesWithin(p: string, behind: string, text: string, x: nat)
    requires text == p + behind && x + 1 < |p|
    ensures ClosesAt(p, x) <==> ClosesAt(text, x)
  {
  }

  lemma {:induction false} ClosedBlockBlanked(p: Piece, behind: string, text: string)
    requires p.BlockPiece? && IsPiece(p, behind) && text == p.text + behind && |p.text| >= 4 && ClosesAt(p.text, |p.text| - 2)
    ensures Blanked(text, Code) == Bare(p) + Blanked(behind, Code)
  {
    var n := |p.text|;
    forall x | 2 <= x < n - 2 ensures !ClosesAt(text, x) {
      ClosesWithin(p.text, behind, text, x);
    }
    InBlock(text, 2, n - 2);
    BlockLeft(text, n - 2, behind);
    BlockStarts(text);
    var inner := text[2..n - 2];
    ClosedBlockBare(p, inner);
    Assembled(Blanked(text, Code), "/*", Blanked(text[2..], Block), Blots(inner), Blanked(text[n - 2..], Block), "*/",
              Blanked(behind, Code), Bare(p));
  }

  lemma {:induction false} BlockLeft(text: string, end: nat, behind: string)
    requires ClosesAt(text, end) && text[end + 2..] == behind
    ensures Blanked(text[end..], Block) == "*/" + Blanked(behind, Code)
  {
    DropTwo(text, end);
  }

  lemma {:induction false} ClosedBlockBare(p: Piece, inner: string)
    requires p.BlockPiece? && |p.text| >= 4 && ClosesAt(p.text, |p.text| - 2) && p.text[0] == '/' && p.text[1] == '*'
    requires inner == p.text[2..|p.text| - 2]
    ensures Bare(p) == "/*" + Blots(inner) + "*/"
  {
  }

  lemma {:induction false} LiteralBare(p: Piece, quote: char)
    requires p.LiteralPiece? && p.text != [] && p.text[0] == quote
    ensures var n := |p.text|;
      if LiteralClosed(p.text) then Bare(p) == [quote] + Spaces(n - 2) + [quote] else Bare(p) == [quote] + Spaces(n - 1) + []
  {
  }

  lemma {:induction false} OpenBlockBlanked(p: Piece, text: string)
    requires p.BlockPiece? && IsPiece(p, []) && text == p.text && !(|p.text| >= 4 && ClosesAt(p.text, |p.text| - 2))
    ensures Blanked(text, Code) == Bare(p) + Blanked([], Code)
  {
    InBlock(text, 2, |text|);
    assert Bare(p) == "/*" + Blots(text[2..]);
  }

  lemma {:induction false} StopsWithin(p: string, behind: string, text: string, x: nat)
    requires text == p + behind && 0 < x <= |p|
    ensures Free(p, x) <==> Free(text, x)
    ensures x < |p| ==> (Stops(p, x) <==> Stops(text, x))
  {
    assert text[0..|p|] == p;
    BackslashesWithin(text, 0, |p|, 1, x);
  }

  /** A literal's inside is blanked up to where it ends. */
  lemma {:induction false} LiteralInside(p: Piece, behind: string, text: string, end: nat)
    requires p.LiteralPiece? && IsPiece(p, behind) && text == p.text + behind
    requires end == |p.text| - if LiteralClosed(p.text) then 1 else 0
    ensures Clears(text, 1, end, text[0])
  {
    forall x | 1 <= x < end ensures !Stops(text, x) {
      StopsWithin(p.text, behind, text, x);
      assert !Stops(p.text, x);
    }
    if end < |text| {
      StopsWithin(p.text, behind, text, end);
    }
    InLiteral(text, 1, end, text[0]);
  }

  lemma {:induction false} LiteralLeft(text: string, end: nat, quote: char, closed: bool)
    requires end <= |text| && quote != '\n'
    requires if closed then end < |text| && text[end] == quote else end == |text| || text[end] == '\n'
    ensures Blanked(text[end..], Quoted(quote)) == if closed then [quote] + Blanked(text[end + 1..], Code) else Blanked(text[end..], Code)
  {
    if closed {
      DropOne(text, end);
    }
  }

  lemma {:induction false} LiteralBlanked(p: Piece, behind: string, text: string)
    requires p.LiteralPiece? && IsPiece(p, behind) && text == p.text + behind
    ensures Blanked(text, Code) == Bare(p) + Blanked(behind, Code)
  {
    var closed, quote := LiteralClosed(p.text), text[0];
    var end := |p.text| - if closed then 1 else 0;
    LiteralInside(p, behind, text, end);
    LiteralLeft(text, end, quote, closed);
    assert text[|p.text|..] == behind;
    LiteralStarts(text);
    LiteralBare(p, quote);
    Assembled(Blanked(text, Code), [quote], Blanked(text[1..], Quoted(quote)), Spaces(end - 1), Blanked(text[end..], Quoted(quote)),
              if closed then [quote] else [], Blanked(behind, Code), Bare(p));
  }

  lemma {:induction false} PieceBlanked(p: Piece, behind: string, text: string)
    requires IsPiece(p, behind) && text == p.text + behind
    ensures Blanked(text, Code) == Bare(p) + Blanked(behind, Code)
  {
    match p
    case Plain(_) =>
      assert text[1..] == behind && Bare(p) == p.text;
    case BlockPiece(_) =>
      if |p.text| >= 4 && ClosesAt(p.text, |p.text| - 2) {
        ClosedBlockBlanked(p, behind, text);
      } else {
        OpenBlockBlanked(p, text);
      }
    case LinePiece(_) =>
      LineBlanked(p, behind, text);
    case LiteralPiece(_) =>
      LiteralBlanked(p, behind, text);
  }

  // ---- Blanking the whole text -----------------------------------------------------------------

  /**
   * However a text is cut into code, comments and literals, what blanking leaves of it is the code and the
   * marks that open and close the rest.
   */
  lemma {:induction false} BlankedPieceByPiece(text: string, pieces: seq<Piece>)
    requires Cuts(text, pieces)
    ensures Blanked(text, Code) == AllBare(pieces)
    decreases |pieces|
  {
    if pieces != [] {
      var p := pieces[0];
      var behind := text[|p.text|..];
      assert text == p.text + behind;
      PieceBlanked(p, behind, text);
      BlankedPieceByPiece(behind, pieces[1..]);
    }
  }

  /** The first place from `from` on where this holds, or the end. */
  lemma {:induction false} FirstSuch(p: nat -> bool, from: nat, end: nat) returns (at: nat)
    requires from <= end
    ensures from <= at <= end && (at < end ==> p(at)) && forall x: nat :: from <= x < at ==> !p(x)
    decreases end - from
  {
    if from == end || p(from) {
      at := from;
    } else {
      at := FirstSuch(p, from + 1, end);
    }
  }

  lemma {:induction false} FirstLiteral(text: string) returns (p: Piece)
    requires text != [] && (text[0] == '"' || text[0] == '\'')
    ensures p.LiteralPiece? && 0 < |p.text| <= |text| && text[..|p.text|] == p.text && IsPiece(p, text[|p.text|..])
  {
    var stops := (x: nat) => Stops(text, x);
    var at := FirstSuch(stops, 1, |text|);
    var end := if at < |text| && text[at] == text[0] then at + 1 else at;
    p := LiteralPiece(text[..end]);
    assert text == p.text + text[end..];
    forall x | 0 < x <= end ensures Free(p.text, x) <==> Free(text, x)
      ensures x < end ==> (Stops(p.text, x) <==> Stops(text, x))
    {
      StopsWithin(p.text, text[end..], text, x);
    }
    forall x: nat | 1 <= x < at ensures !Stops(text, x) {
      assert !stops(x);
    }
  }

  lemma {:induction false} FirstBlock(text: string) returns (p: Piece)
    requires |text| >= 2 && text[0] == '/' && text[1] == '*'
    ensures p.BlockPiece? && 0 < |p.text| <= |text| && text[..|p.text|] == p.text && IsPiece(p, text[|p.text|..])
  {
    var closes := (x: nat) => ClosesAt(text, x);
    var at := FirstSuch(closes, 2, |text|);
    var end := if at < |text| then at + 2 else at;
    p := BlockPiece(text[..end]);
    assert text == p.text + text[end..];
    forall x | 2 <= x < end ensures x + 1 < end ==> (ClosesAt(p.text, x) <==> ClosesAt(text, x)) {
      if x + 1 < end {
        ClosesWithin(p.text, text[end..], text, x);
      }
    }
    forall x: nat | 2 <= x < at ensures !ClosesAt(text, x) {
      assert !closes(x);
    }
  }

  lemma {:induction false} FirstLine(text: string) returns (p: Piece)
    requires |text| >= 2 && text[0] == '/' && text[1] == '/'
    ensures p.LinePiece? && 0 < |p.text| <= |text| && text[..|p.text|] == p.text && IsPiece(p, text[|p.text|..])
  {
    var ends := (x: nat) => x < |text| && text[x] == '\n';
    var at := FirstSuch(ends, 2, |text|);
    p := LinePiece(text[..at]);
    forall x: nat | 2 <= x < at ensures text[x] != '\n' {
      assert !ends(x);
    }
  }

  /** Every text is cut into such pieces. */
  lemma {:induction false} CutExists(text: string) returns (pieces: seq<Piece>)
    ensures Cuts(text, pieces)
    decreases |text|
  {
    if text == [] {
      pieces := [];
    } else {
      var p := Plain([text[0]]);
      if text[0] == '"' || text[0] == '\'' {
        p := FirstLiteral(text);
      } else if |text| >= 2 && text[0] == '/' && text[1] == '*' {
        p := FirstBlock(text);
      } else if |text| >= 2 && text[0] == '/' && text[1] == '/' {
        p := FirstLine(text);
      }
      var rest := CutExists(text[|p.text|..]);
      pieces := [p] + rest;
    }
  }
}
