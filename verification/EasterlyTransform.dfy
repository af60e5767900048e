/**
 * Moving east-side qualifiers to the west of their types: which tokens move where, and how the moves
 * are applied from right to left.
 */
module EasterlyTransform {
  import opened EasterlyLexer
  import opened Options

  /** The qualifier at `cv` is to go in front of the token at `start`. */
  datatype Move = Move(cv: nat, start: nat)

  // ---- Walking the tokens ----------------------------------------------------------------------

  /** The last nontrivial token at or before `i`, or -1. */
  function PrevFrom(tokens: seq<Token>, i: int): (p: int)
    requires -1 <= i < |tokens|
    ensures -1 <= p <= i && (p >= 0 ==> !tokens[p].Trivial())
    decreases i + 1
  {
    if i < 0 || !tokens[i].Trivial() then i else PrevFrom(tokens, i - 1)
  }

  predicate IsColon(t: Token) {
    t.kind.Other? && t.text == ":"
  }

  /** Could this token be the rightmost of a type?  A `]` that closes an attribute could not. */
  predicate IsTypeToken(tokens: seq<Token>, k: nat)
    requires k < |tokens|
  {
    || tokens[k].kind.Word?
    || tokens[k].kind.RAngle?
    || (tokens[k].kind.RBracket? &&
        var p := PrevFrom(tokens, k - 1); !(p >= 0 && tokens[p].kind.RBracket?))
  }

  /** Where the leftward walk from `i` stops: one to the left of the type. */
  function Walk(tokens: seq<Token>, i: int, depth: nat): (p: int)
    requires -1 <= i < |tokens|
    ensures -1 <= p <= i
    decreases i + 1
  {
    if i < 0 || tokens[i].kind.Newline? then i
    else if tokens[i].Trivial() then Walk(tokens, i - 1, depth)
    else if tokens[i].kind.RAngle? then Walk(tokens, i - 1, depth + 1)
    else if tokens[i].kind.LAngle? then if depth > 0 then Walk(tokens, i - 1, depth - 1) else i
    else if depth > 0 || tokens[i].kind.Word? then Walk(tokens, i - 1, depth)
    else if IsColon(tokens[i]) then
      var p := PrevFrom(tokens, i - 1);
      if p >= 0 && IsColon(tokens[p]) then Walk(tokens, p - 1, depth) else i
    else i
  }

  function NextFrom(tokens: seq<Token>, j: nat, last: nat): (k: nat)
    requires j <= last + 1 <= |tokens|
    ensures j <= k <= last + 1
    decreases last + 1 - j
  {
    if j <= last && tokens[j].Trivial() then NextFrom(tokens, j + 1, last) else j
  }

  /** The first token of the type expression that ends at `rightmost`. */
  function TypeStart(tokens: seq<Token>, rightmost: nat): (k: nat)
    requires rightmost < |tokens|
    ensures k <= rightmost + 1
  {
    NextFrom(tokens, Walk(tokens, rightmost, 0) + 1, rightmost)
  }

  predicate IsAsm(t: Token) {
    t.kind.Word? && (t.text == "asm" || t.text == "__asm__" || t.text == "__asm")
  }

  /** Whether the token at `k` is an east-side qualifier, and where its type starts. */
  function MoveAt(tokens: seq<Token>, k: nat): Option<Move>
    requires k < |tokens|
  {
    if !tokens[k].Cv() then None
    else
      var p := PrevFrom(tokens, k - 1);
      if p < 0 || tokens[p].line != tokens[k].line || !IsTypeToken(tokens, p) then None
      else
        var start := TypeStart(tokens, p);
        if IsAsm(tokens[start]) then None else Some(Move(k, start))
  }

  function Moves(tokens: seq<Token>, k: nat): seq<Move>
    requires k <= |tokens|
  {
    if k == 0 then []
    else
      var before, here := Moves(tokens, k - 1), MoveAt(tokens, k - 1);
      if here.Some? then before + [here.value] else before
  }

  // ---- Applying the moves ----------------------------------------------------------------------

  /** The whitespace between the type and the qualifier goes with the qualifier. */
  predicate DropsBlank(tokens: seq<Token>, cv: nat)
    requires cv < |tokens|
  {
    cv >= 2 && tokens[cv - 1].kind.Whitespace? && !tokens[cv - 2].Trivial()
  }

  function Inserted(t: Token): seq<Token> {
    [Token(Word, t.text, t.line, t.col), Token(Whitespace, " ", t.line, t.col)]
  }

  predicate Names(tokens: seq<Token>, m: Move) {
    m.start <= m.cv < |tokens|
  }

  function Applied(tokens: seq<Token>, m: Move): (r: seq<Token>)
    ensures |tokens| <= |r|
  {
    if !Names(tokens, m) then tokens
    else
      var drops := DropsBlank(tokens, m.cv);
      var kept := (if drops then tokens[..m.cv - 1] else tokens[..m.cv]) + tokens[m.cv + 1..];
      var start := if drops && m.cv - 1 < m.start then m.start - 1 else m.start;
      kept[..start] + Inserted(tokens[m.cv]) + kept[start..]
  }

  /** Every move names tokens of the text. */
  ghost predicate InRange(moves: seq<Move>, n: nat) {
    forall k :: 0 <= k < |moves| ==> moves[k].start <= moves[k].cv < n
  }

  type Applier = (seq<Token>, Move) -> seq<Token>

  /** The first `k` moves applied one after another, the rightmost first. */
  function AppliedFirst(apply: Applier, tokens: seq<Token>, moves: seq<Move>, k: nat): seq<Token>
    requires k <= |moves|
    decreases k
  {
    if k == 0 then tokens else AppliedFirst(apply, apply(tokens, moves[k - 1]), moves, k - 1)
  }

  function AppliedAll(tokens: seq<Token>, moves: seq<Move>): seq<Token> {
    AppliedFirst(Applied, tokens, moves, |moves|)
  }

  lemma {:induction false} MovesInRange(tokens: seq<Token>, k: nat)
    requires k <= |tokens|
    ensures InRange(Moves(tokens, k), k)
    ensures forall a, b :: 0 <= a < b < |Moves(tokens, k)| ==> Moves(tokens, k)[a].cv < Moves(tokens, k)[b].cv
    ensures forall a :: 0 <= a < |Moves(tokens, k)| ==> MoveAt(tokens, Moves(tokens, k)[a].cv) == Some(Moves(tokens, k)[a])
  {
    if k > 0 {
      MovesInRange(tokens, k - 1);
    }
  }

  function Transformed(tokens: seq<Token>): seq<Token> {
    AppliedAll(tokens, Moves(tokens, |tokens|))
  }

  // ---- Squeezing whitespace --------------------------------------------------------------------

  function RunEnd(tokens: seq<Token>, j: nat): (k: nat)
    requires j <= |tokens|
    ensures j <= k <= |tokens|
    decreases |tokens| - j
  {
    if j < |tokens| && tokens[j].kind.Whitespace? then RunEnd(tokens, j + 1) else j
  }

  function Normalised(tokens: seq<Token>, i: nat): seq<Token>
    requires i <= |tokens|
    decreases |tokens| - i
  {
    if i == |tokens| then []
    else if !tokens[i].kind.Whitespace? then [tokens[i]] + Normalised(tokens, i + 1)
    else
      var j := RunEnd(tokens, i);
      [if j - i > 1 then Token(Whitespace, " ", tokens[i].line, tokens[i].col) else tokens[i]] + Normalised(tokens, j)
  }

  ghost function Processed(src: string, cls: Classes): string {
    Rendered(Normalised(Transformed(Lexed(src, cls)), 0))
  }

  // ---- The rewriter as it is carried out -------------------------------------------------------

  method PrevNontrivial(tokens: seq<Token>, pos: nat) returns (i: int)
    requires pos <= |tokens|
    ensures i == PrevFrom(tokens, pos - 1)
  {
    i := pos - 1;
    while i >= 0 && tokens[i].Trivial()
      invariant -1 <= i < |tokens| && PrevFrom(tokens, pos - 1) == PrevFrom(tokens, i)
      decreases i + 1
    {
      i := i - 1;
    }
  }

  method CouldEndType(tokens: seq<Token>, k: nat) returns (could: bool)
    requires k < |tokens|
    ensures could == IsTypeToken(tokens, k)
  {
    if tokens[k].kind.Word? || tokens[k].kind.RAngle? {
      return true;
    }
    if tokens[k].kind.RBracket? {
      var p := PrevNontrivial(tokens, k);
      return !(p >= 0 && tokens[p].kind.RBracket?);
    }
    return false;
  }

  method FindTypeStart(tokens: seq<Token>, rightmost: nat) returns (j: nat)
    requires rightmost < |tokens|
    ensures j == TypeStart(tokens, rightmost)
  {
    var i: int := rightmost;
    var depth: nat := 0;
    while i >= 0
      invariant -1 <= i <= rightmost && Walk(tokens, rightmost, 0) == Walk(tokens, i, depth)
      decreases i + 1
    {
      var t := tokens[i];
      if t.kind.Newline? {
        break;
      }
      if t.Trivial() {
        i := i - 1;
      } else if t.kind.RAngle? {
        depth, i := depth + 1, i - 1;
      } else if t.kind.LAngle? {
        if depth == 0 {
          break;
        }
        depth, i := depth - 1, i - 1;
      } else if depth > 0 || t.kind.Word? {
        i := i - 1;
      } else if IsColon(t) {
        var p := PrevNontrivial(tokens, i);
        if p < 0 || !IsColon(tokens[p]) {
          break;
        }
        i := p - 1;
      } else {
        break;
      }
    }
    assert i == Walk(tokens, rightmost, 0);
    j := i + 1;
    while j <= rightmost && tokens[j].Trivial()
      invariant j <= rightmost + 1 && TypeStart(tokens, rightmost) == NextFrom(tokens, j, rightmost)
    {
      j := j + 1;
    }
  }

  method CollectMoves(tokens: seq<Token>) returns (moves: seq<Move>)
    ensures moves == Moves(tokens, |tokens|)
  {
    moves := [];
    for k := 0 to |tokens|
      invariant moves == Moves(tokens, k)
    {
      if !tokens[k].Cv() {
        continue;
      }
      var p := PrevNontrivial(tokens, k);
      if p < 0 || tokens[p].line != tokens[k].line {
        continue;
      }
      if tokens[p].kind.Star? || tokens[p].kind.Amp? || tokens[p].kind.AmpAmp? {
        continue;
      }
      var could := CouldEndType(tokens, p);
      if !could {
        continue;
      }
      var start := FindTypeStart(tokens, p);
      if IsAsm(tokens[start]) {
        continue;
      }
      moves := moves + [Move(k, start)];
    }
  }

  method ApplyMove(tokens: seq<Token>, m: Move) returns (result: seq<Token>)
    requires Names(tokens, m)
    ensures result == Applied(tokens, m)
  {
    var cv, drops := tokens[m.cv], false;
    if m.cv >= 1 && tokens[m.cv - 1].kind.Whitespace? {
      if m.cv >= 2 && !tokens[m.cv - 2].Trivial() {
        drops := true;
      }
    }
    result := (if drops then tokens[..m.cv - 1] else tokens[..m.cv]) + tokens[m.cv + 1..];
    var start: nat := m.start;
    if drops && m.cv - 1 < start {
      start := start - 1;
    }
    result := result[..start] + [Token(Word, cv.text, cv.line, cv.col), Token(Whitespace, " ", cv.line, cv.col)] + result[start..];
  }

  predicate Does(apply: Applier, tokens: seq<Token>, m: Move) {
    apply(tokens, m) == Applied(tokens, m)
  }

  method ApplyOne(tokens: seq<Token>, m: Move, ghost apply: Applier) returns (result: seq<Token>)
    requires Names(tokens, m) && Does(apply, tokens, m)
    ensures result == apply(tokens, m) && |tokens| <= |result|
  {
    result := ApplyMove(tokens, m);
  }

  /** Applies the moves from right to left. */
  method ApplyEach(tokens: seq<Token>, moves: seq<Move>, ghost apply: Applier) returns (result: seq<Token>)
    requires InRange(moves, |tokens|) && forall t, m :: Does(apply, t, m)
    ensures result == AppliedFirst(apply, tokens, moves, |moves|)
  {
    result := tokens;
    var k := |moves|;
    while k > 0
      invariant 0 <= k <= |moves| && |tokens| <= |result|
      invariant AppliedFirst(apply, tokens, moves, |moves|) == AppliedFirst(apply, result, moves, k)
    {
      k := k - 1;
      assert Does(apply, result, moves[k]);
      result := ApplyOne(result, moves[k], apply);
    }
  }

  method Transform(tokens: seq<Token>) returns (result: seq<Token>)
    ensures result == Transformed(tokens)
  {
    var moves := CollectMoves(tokens);
    MovesInRange(tokens, |tokens|);
    if moves == [] {
      return tokens;
    }
    result := ApplyEach(tokens, moves, Applied);
  }

  method FindRunEnd(tokens: seq<Token>, i: nat) returns (j: nat)
    requires i <= |tokens|
    ensures j == RunEnd(tokens, i)
  {
    j := i;
    while j < |tokens| && tokens[j].kind.Whitespace?
      invariant i <= j <= |tokens| && RunEnd(tokens, i) == RunEnd(tokens, j)
    {
      j := j + 1;
    }
  }

  /** One turn of the squeezing loop. */
  method Squeeze(tokens: seq<Token>, i: nat) returns (t: Token, j: nat)
    requires i < |tokens|
    ensures i < j <= |tokens| && Normalised(tokens, i) == [t] + Normalised(tokens, j)
  {
    t := tokens[i];
    if t.kind.Whitespace? {
      j := FindRunEnd(tokens, i);
      if j - i > 1 {
        t := Token(Whitespace, " ", t.line, t.col);
      }
    } else {
      j := i + 1;
    }
  }

  method NormaliseWhitespace(tokens: seq<Token>) returns (result: seq<Token>)
    ensures result == Normalised(tokens, 0)
  {
    result := [];
    var i: nat := 0;
    while i < |tokens|
      invariant i <= |tokens| && result + Normalised(tokens, i) == Normalised(tokens, 0)
      decreases |tokens| - i
    {
      var t, j := Squeeze(tokens, i);
      assert result + ([t] + Normalised(tokens, j)) == result + [t] + Normalised(tokens, j);
      result, i := result + [t], j;
    }
  }

  method Render(tokens: seq<Token>) returns (text: string)
    ensures text == Rendered(tokens)
  {
    text := "";
    var k := 0;
    assert tokens[0..] == tokens;
    while k < |tokens|
      invariant 0 <= k <= |tokens| && text + Rendered(tokens[k..]) == Rendered(tokens)
    {
      if tokens[k].kind.Eof? {
        return;
      }
      assert tokens[k..][1..] == tokens[k + 1..];
      text := text + tokens[k].text;
      k := k + 1;
    }
  }

  method ProcessSource(src: string, cls: Classes) returns (text: string)
    ensures text == Processed(src, cls)
  {
    var tokens := Lex(src, cls);
    tokens := Transform(tokens);
    tokens := NormaliseWhitespace(tokens);
    text := Render(tokens);
  }
}
