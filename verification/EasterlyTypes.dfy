/**
 * What a type expression is, apart from the walk that looks for its start: words, pairs of colons and
 * balanced groups in angle brackets, with trivial tokens between them.  The walk finds the longest one
 * that ends at a given token, exactly when its brackets balance.
 */
module EasterlyTypes {
  import opened EasterlyLexer
  import opened EasterlyTransform

  // ---- Type expressions ------------------------------------------------------------------------

  function Angle(t: Token): int {
    if t.kind.LAngle? then 1 else if t.kind.RAngle? then -1 else 0
  }

  /** How many angle brackets are opened from `x` up to `y`, less those closed. */
  function Depth(tokens: seq<Token>, x: nat, y: nat): int
    requires y <= |tokens|
  {
    if x >= y then 0 else Depth(tokens, x, y - 1) + Angle(tokens[y - 1])
  }

  predicate AllTrivial(tokens: seq<Token>, x: nat, y: nat)
    requires y <= |tokens|
  {
    forall z :: x <= z < y ==> tokens[z].Trivial()
  }

  /** Two colons with nothing but trivial tokens between them. */
  predicate ColonPair(tokens: seq<Token>, x: nat, y: nat) {
    && x + 1 < y <= |tokens| && IsColon(tokens[x]) && IsColon(tokens[y - 1])
    && AllTrivial(tokens, x + 1, y - 1)
  }

  /** An angle bracket, what it closes, and anything but a line's end between them. */
  ghost predicate Group(tokens: seq<Token>, x: nat, y: nat) {
    && x + 1 < y <= |tokens| && tokens[x].kind.LAngle? && tokens[y - 1].kind.RAngle?
    && Depth(tokens, x, y) == 0 && (forall z :: x < z < y ==> Depth(tokens, x, z) >= 1)
    && (forall z :: x <= z < y ==> !tokens[z].kind.Newline?)
  }

  /** A part of a type expression: a word, a trivial token on the line, two colons, or a group. */
  ghost predicate Piece(tokens: seq<Token>, x: nat, y: nat) {
    || (y == x + 1 <= |tokens| && (tokens[x].kind.Word? || (tokens[x].Trivial() && !tokens[x].kind.Newline?)))
    || ColonPair(tokens, x, y)
    || Group(tokens, x, y)
  }

  /** The tokens from `a` up to `b` are cut into such parts at these places. */
  ghost predicate CutAs(tokens: seq<Token>, cuts: seq<nat>, a: nat, b: nat) {
    && cuts != [] && cuts[0] == a && cuts[|cuts| - 1] == b
    && forall k :: 0 <= k < |cuts| - 1 ==> Piece(tokens, cuts[k], cuts[k + 1])
  }

  ghost predicate TypeExpression(tokens: seq<Token>, a: nat, b: nat) {
    exists cuts :: CutAs(tokens, cuts, a, b)
  }

  // ---- Depths ----------------------------------------------------------------------------------

  lemma {:induction false} DepthSplit(tokens: seq<Token>, x: nat, y: nat, z: nat)
    requires x <= y <= z <= |tokens|
    ensures Depth(tokens, x, z) == Depth(tokens, x, y) + Depth(tokens, y, z)
    decreases z
  {
    if y < z {
      DepthSplit(tokens, x, y, z - 1);
    }
  }

  lemma {:induction false} DepthFirst(tokens: seq<Token>, x: nat, z: nat)
    requires x < z <= |tokens|
    ensures Depth(tokens, x, z) == Angle(tokens[x]) + Depth(tokens, x + 1, z)
  {
    DepthSplit(tokens, x, x + 1, z);
    assert Depth(tokens, x, x + 1) == Depth(tokens, x, x) + Angle(tokens[x]);
  }

  lemma {:induction false} TrivialDepth(tokens: seq<Token>, x: nat, y: nat)
    requires x <= y <= |tokens| && AllTrivial(tokens, x, y)
    ensures Depth(tokens, x, y) == 0
    decreases y
  {
    if x < y {
      TrivialDepth(tokens, x, y - 1);
    }
  }

  lemma {:induction false} PieceDepth(tokens: seq<Token>, x: nat, y: nat)
    requires Piece(tokens, x, y)
    ensures x < y <= |tokens| && Depth(tokens, x, y) == 0
  {
    if y == x + 1 {
      assert Depth(tokens, x, x + 1) == Depth(tokens, x, x) + Angle(tokens[x]);
    } else if ColonPair(tokens, x, y) {
      DepthFirst(tokens, x, y);
      TrivialDepth(tokens, x + 1, y - 1);
    }
  }

  lemma {:induction false} TypeDepth(tokens: seq<Token>, cuts: seq<nat>, a: nat, b: nat)
    requires b <= |tokens| && CutAs(tokens, cuts, a, b)
    ensures a <= b && Depth(tokens, a, b) == 0
    decreases |cuts|
  {
    if |cuts| > 1 {
      var m := |cuts| - 1;
      var c := cuts[m - 1];
      assert Piece(tokens, cuts[m - 1], cuts[m - 1 + 1]);
      PieceDepth(tokens, c, b);
      assert CutAs(tokens, cuts[..m], a, c);
      TypeDepth(tokens, cuts[..m], a, c);
      DepthSplit(tokens, a, c, b);
    }
  }

  lemma {:induction false} Nothing(tokens: seq<Token>, a: nat)
    ensures TypeExpression(tokens, a, a)
  {
    assert CutAs(tokens, [a], a, a);
  }

  lemma {:induction false} PieceThen(tokens: seq<Token>, x: nat, y: nat, b: nat)
    requires Piece(tokens, x, y) && TypeExpression(tokens, y, b)
    ensures TypeExpression(tokens, x, b)
  {
    var cuts :| CutAs(tokens, cuts, y, b);
    var more := [x] + cuts;
    forall k | 0 <= k < |more| - 1 ensures Piece(tokens, more[k], more[k + 1]) {
      if k > 0 {
        assert Piece(tokens, cuts[k - 1], cuts[k - 1 + 1]);
      }
    }
    assert CutAs(tokens, more, x, b);
  }

  // ---- No longer one ---------------------------------------------------------------------------

  lemma {:induction false} PrevOverTrivial(tokens: seq<Token>, x: nat, i: int)
    requires x <= i < |tokens| && !tokens[x].Trivial() && AllTrivial(tokens, x + 1, i + 1)
    ensures PrevFrom(tokens, i) == x
    decreases i
  {
    if x < i {
      PrevOverTrivial(tokens, x, i - 1);
    }
  }

  /** Inside a group the walk goes on to the bracket that opens it. */
  lemma {:induction false} WalkOutOfGroup(tokens: seq<Token>, x: nat, y: nat, i: nat, depth: nat)
    requires Group(tokens, x, y) && x <= i < y - 1 && depth == Depth(tokens, x, i + 1)
    ensures Walk(tokens, i, depth) == Walk(tokens, x - 1, 0)
    decreases i
  {
    assert !tokens[i].kind.Newline? && Depth(tokens, x, i + 1) == Depth(tokens, x, i) + Angle(tokens[i]);
    if x < i {
      assert Depth(tokens, x, i) >= 1;
      WalkOutOfGroup(tokens, x, y, i - 1, Depth(tokens, x, i));
    } else {
      assert Depth(tokens, x, x) == 0;
    }
  }

  lemma {:induction false} WalkOverPiece(tokens: seq<Token>, x: nat, y: nat)
    requires Piece(tokens, x, y)
    ensures Walk(tokens, y - 1, 0) == Walk(tokens, x - 1, 0)
  {
    if Group(tokens, x, y) {
      assert Depth(tokens, x, y) == Depth(tokens, x, y - 1) + Angle(tokens[y - 1]);
      WalkOutOfGroup(tokens, x, y, y - 2, 1);
    } else if ColonPair(tokens, x, y) {
      PrevOverTrivial(tokens, x, y - 2);
    }
  }

  lemma {:induction false} WalkOverType(tokens: seq<Token>, cuts: seq<nat>, a: nat, b: nat)
    requires b <= |tokens| && CutAs(tokens, cuts, a, b)
    ensures a <= b && Walk(tokens, b - 1, 0) == Walk(tokens, a - 1, 0)
    decreases |cuts|
  {
    if |cuts| > 1 {
      var m := |cuts| - 1;
      assert Piece(tokens, cuts[m - 1], cuts[m - 1 + 1]);
      WalkOverPiece(tokens, cuts[m - 1], b);
      assert CutAs(tokens, cuts[..m], a, cuts[m - 1]);
      WalkOverType(tokens, cuts[..m], a, cuts[m - 1]);
    }
  }

  // ---- The walk finds one ----------------------------------------------------------------------

  /** What the walk has found when it stops: a type expression, or the rest of a line with a bracket still open. */
  ghost predicate Found(tokens: seq<Token>, s: nat, b: nat) {
    && s <= b <= |tokens|
    && (TypeExpression(tokens, s, b) || (Depth(tokens, s, b) < 0 && (s == 0 || tokens[s - 1].kind.Newline?)))
  }

  lemma {:induction false} WalkFinds(tokens: seq<Token>, i: int, b: nat)
    requires -1 <= i < |tokens| && i + 1 <= b <= |tokens| && TypeExpression(tokens, i + 1, b)
    ensures Found(tokens, Walk(tokens, i, 0) + 1, b)
    decreases i + 1
  {
    if i >= 0 && !tokens[i].kind.Newline? {
      if tokens[i].Trivial() || tokens[i].kind.Word? {
        PieceThen(tokens, i, i + 1, b);
        WalkFinds(tokens, i - 1, b);
      } else if tokens[i].kind.RAngle? {
        assert Depth(tokens, i, i + 1) == Depth(tokens, i, i) + Angle(tokens[i]);
        WalkFindsInside(tokens, i - 1, 1, i + 1, b);
      } else if IsColon(tokens[i]) {
        var p := PrevFrom(tokens, i - 1);
        if p >= 0 && IsColon(tokens[p]) {
          PrevTrivialBetween(tokens, i - 1);
          assert ColonPair(tokens, p, i + 1);
          PieceThen(tokens, p, i + 1, b);
          WalkFinds(tokens, p - 1, b);
        }
      }
    }
  }

  lemma {:induction false} PrevTrivialBetween(tokens: seq<Token>, i: int)
    requires -1 <= i < |tokens|
    ensures forall z :: PrevFrom(tokens, i) < z <= i ==> tokens[z].Trivial()
    decreases i + 1
  {
    if i >= 0 && tokens[i].Trivial() {
      PrevTrivialBetween(tokens, i - 1);
    }
  }

  /** The tokens from `i + 1` up to `y` close `depth` brackets more than they open, the last of them with `y`. */
  ghost predicate Closing(tokens: seq<Token>, i: int, depth: nat, y: nat) {
    && -1 <= i && i + 1 < y <= |tokens| && tokens[y - 1].kind.RAngle? && depth >= 1
    && Depth(tokens, i + 1, y) + depth == 0
    && (forall z :: i + 1 < z < y ==> Depth(tokens, z, y) <= -1)
    && (forall z :: i + 1 <= z < y ==> !tokens[z].kind.Newline?)
  }

  lemma {:induction false} WalkFindsInside(tokens: seq<Token>, i: int, depth: nat, y: nat, b: nat)
    requires Closing(tokens, i, depth, y) && y <= b <= |tokens| && TypeExpression(tokens, y, b)
    ensures Found(tokens, Walk(tokens, i, depth) + 1, b)
    decreases i + 1
  {
    if i < 0 || tokens[i].kind.Newline? {
      var cuts :| CutAs(tokens, cuts, y, b);
      TypeDepth(tokens, cuts, y, b);
      DepthSplit(tokens, i + 1, y, b);
    } else {
      DepthFirst(tokens, i, y);
      var left := depth - Angle(tokens[i]);
      if left == 0 {
        GroupClosed(tokens, i, y);
        PieceThen(tokens, i, y, b);
        WalkFinds(tokens, i - 1, b);
      } else {
        assert Closing(tokens, i - 1, left, y);
        WalkFindsInside(tokens, i - 1, left, y, b);
      }
    }
  }

  lemma {:induction false} GroupClosed(tokens: seq<Token>, x: nat, y: nat)
    requires x < y && Closing(tokens, x, 1, y) && tokens[x].kind.LAngle?
    ensures Group(tokens, x, y)
  {
    DepthFirst(tokens, x, y);
    forall z | x < z < y ensures Depth(tokens, x, z) >= 1 {
      DepthSplit(tokens, x, z, y);
    }
  }

  // ---- Where a type starts ---------------------------------------------------------------------

  lemma {:induction false} NextOverTrivial(tokens: seq<Token>, j: nat, last: nat)
    requires j <= last + 1 <= |tokens|
    ensures var k := NextFrom(tokens, j, last);
      && AllTrivial(tokens, j, k) && (k <= last ==> !tokens[k].Trivial())
    decreases last + 1 - j
  {
    if j <= last && tokens[j].Trivial() {
      NextOverTrivial(tokens, j + 1, last);
    }
  }

  lemma {:induction false} TrivialDropped(tokens: seq<Token>, s: nat, k: nat, b: nat)
    requires s <= k <= b <= |tokens| && AllTrivial(tokens, s, k) && TypeExpression(tokens, s, b)
    ensures TypeExpression(tokens, k, b)
    decreases k - s
  {
    if s < k {
      var cuts :| CutAs(tokens, cuts, s, b);
      assert |cuts| > 1;
      assert Piece(tokens, cuts[0], cuts[0 + 1]);
      assert cuts[1] == s + 1;
      assert CutAs(tokens, cuts[1..], s + 1, b) by {
        forall j | 0 <= j < |cuts[1..]| - 1 ensures Piece(tokens, cuts[1..][j], cuts[1..][j + 1]) {
          assert Piece(tokens, cuts[j + 1], cuts[j + 1 + 1]);
        }
      }
      TrivialDropped(tokens, s + 1, k, b);
    }
  }

  /** The line, or the text, begins with trivial tokens only before this one. */
  ghost predicate BeginsLine(tokens: seq<Token>, k: nat) {
    exists s: nat :: s <= k <= |tokens| && AllTrivial(tokens, s, k) && (s == 0 || tokens[s - 1].kind.Newline?)
  }

  /**
   * From the start found up to the rightmost token stands a type expression exactly when as many angle
   * brackets are opened there as closed; otherwise the start is the first token of a line on which a
   * bracket is closed that was opened before it.  The start is not a trivial token, and no type expression
   * that ends at the same token starts further left but for trivial tokens.
   */
  lemma {:induction false} TypeStartExactly(tokens: seq<Token>, rightmost: nat)
    requires rightmost < |tokens|
    ensures var k := TypeStart(tokens, rightmost);
      && (TypeExpression(tokens, k, rightmost + 1) <==> Depth(tokens, k, rightmost + 1) == 0)
      && (Depth(tokens, k, rightmost + 1) != 0 ==> BeginsLine(tokens, k))
      && (k <= rightmost ==> !tokens[k].Trivial())
      && (forall a: nat :: a < k && TypeExpression(tokens, a, rightmost + 1) ==> AllTrivial(tokens, a, k))
  {
    var b := rightmost + 1;
    var s := Walk(tokens, rightmost, 0) + 1;
    var k := TypeStart(tokens, rightmost);
    Nothing(tokens, b);
    WalkFinds(tokens, rightmost, b);
    NextOverTrivial(tokens, s, rightmost);
    TrivialDepth(tokens, s, k);
    DepthSplit(tokens, s, k, b);
    if TypeExpression(tokens, s, b) {
      TrivialDropped(tokens, s, k, b);
    }
    if TypeExpression(tokens, k, b) {
      var cuts :| CutAs(tokens, cuts, k, b);
      TypeDepth(tokens, cuts, k, b);
    }
    forall a: nat | a < k && TypeExpression(tokens, a, b) ensures AllTrivial(tokens, a, k) {
      var cuts :| CutAs(tokens, cuts, a, b);
      WalkOverType(tokens, cuts, a, b);
    }
  }

  /** A bracket opened on the line before: the tokens from the start found are no type expression. */
  lemma {:induction false} BrokenLineCutsType(tokens: seq<Token>)
    requires |tokens| == 4 && tokens[0].kind.LAngle? && tokens[1].kind.Newline? && tokens[2].kind.Word? && tokens[3].kind.RAngle?
    ensures TypeStart(tokens, 3) == 2 && !TypeExpression(tokens, 2, 4)
  {
    assert Walk(tokens, 3, 0) == Walk(tokens, 2, 1) == Walk(tokens, 1, 1) == 1;
    assert Depth(tokens, 2, 4) == Depth(tokens, 2, 3) + Angle(tokens[3]);
    assert Depth(tokens, 2, 3) == Depth(tokens, 2, 2) + Angle(tokens[2]);
    TypeStartExactly(tokens, 3);
  }
}
