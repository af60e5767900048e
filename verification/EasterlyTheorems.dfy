/**
 * What the rewriter keeps: every character other than blanks on every source, the source itself when
 * there is nothing to move, and the order of everything else when the moves do not overlap.
 */
module EasterlyTheorems {
  import opened Sequences
  import opened EasterlyLexer
  import opened EasterlyTransform
  import opened Options

  // ---- Characters ------------------------------------------------------------------------------

  /** The characters of a text other than blanks, with how often each occurs. */
  function Ink(s: string): multiset<char> {
    if s == [] then multiset{} else Ink(s[1..]) + if Blank(s[0]) then multiset{} else multiset{s[0]}
  }

  /** What is counted in each text, counted over all of them. */
  ghost function Tally<T>(f: string -> multiset<T>, tokens: seq<Token>): multiset<T> {
    if tokens == [] then multiset{} else f(tokens[0].text) + Tally(f, tokens[1..])
  }

  /** Blanks count for nothing. */
  ghost predicate BlanksFree<T>(f: string -> multiset<T>) {
    forall s: string :: AllBlank(s) ==> f(s) == multiset{}
  }

  predicate AllBlank(s: string) {
    forall x :: 0 <= x < |s| ==> Blank(s[x])
  }

  lemma {:induction false} InkConcat(s: string, t: string)
    ensures Ink(s + t) == Ink(s) + Ink(t)
  {
    if s == [] {
      assert s + t == t;
    } else {
      assert (s + t)[1..] == s[1..] + t;
      InkConcat(s[1..], t);
    }
  }

  lemma {:induction false} TallyConcat<T>(f: string -> multiset<T>, a: seq<Token>, b: seq<Token>)
    ensures Tally(f, a + b) == Tally(f, a) + Tally(f, b)
  {
    if a == [] {
      assert a + b == b;
    } else {
      assert (a + b)[1..] == a[1..] + b;
      TallyConcat(f, a[1..], b);
    }
  }

  lemma {:induction false} BlankHasNoInk(s: string)
    requires forall x :: 0 <= x < |s| ==> Blank(s[x])
    ensures Ink(s) == multiset{}
  {
    if s != [] {
      BlankHasNoInk(s[1..]);
    }
  }

  /** Whitespace tokens hold only blanks. */
  ghost predicate BlankText(tokens: seq<Token>) {
    forall t :: t in tokens && t.kind.Whitespace? ==> AllBlank(t.text)
  }

  /** The shape every stage keeps: one end-of-file token, last and empty, and blank whitespace. */
  ghost predicate Shaped(tokens: seq<Token>) {
    EndsOnce(tokens) && tokens[|tokens| - 1].text == [] && BlankText(tokens)
  }

  lemma {:induction false} OneTally<T>(f: string -> multiset<T>, t: Token)
    ensures Tally(f, [t]) == f(t.text)
  {
    assert [t][1..] == [];
  }

  lemma {:induction false} RenderedInk(tokens: seq<Token>)
    requires EndsOnce(tokens) && tokens[|tokens| - 1].text == []
    ensures Ink(Rendered(tokens)) == Tally(Ink, tokens)
  {
    if |tokens| == 1 {
      OneTally(Ink, tokens[0]);
    } else {
      RenderedInk(tokens[1..]);
      InkConcat(tokens[0].text, Rendered(tokens[1..]));
    }
  }

  // ---- One move --------------------------------------------------------------------------------

  /** The parts a move cuts the tokens into: before the type, the type, and after the qualifier. */
  function Moved(tokens: seq<Token>, m: Move): seq<Token>
    requires Names(tokens, m)
  {
    if DropsBlank(tokens, m.cv) && m.start < m.cv then tokens[m.start..m.cv - 1] else tokens[m.start..m.cv]
  }

  /** A move whose type starts right at the qualifier finds no blank to drop there. */
  predicate Regular(tokens: seq<Token>, m: Move) {
    Names(tokens, m) && (m.start == m.cv ==> !DropsBlank(tokens, m.cv))
  }

  lemma {:induction false} AppliedParts(tokens: seq<Token>, m: Move)
    requires Regular(tokens, m)
    ensures Applied(tokens, m) ==
            tokens[..m.start] + (Inserted(tokens[m.cv]) + Moved(tokens, m) + tokens[m.cv + 1..])
  {
    var kept := Without(tokens, m.cv);
    KeptParts(tokens, m, kept);
    FourParts(kept[..m.start], Inserted(tokens[m.cv]), Moved(tokens, m), tokens[m.cv + 1..], kept[m.start..]);
  }

  lemma {:induction false} KeptParts(tokens: seq<Token>, m: Move, kept: seq<Token>)
    requires Regular(tokens, m) && kept == Without(tokens, m.cv)
    ensures m.start <= |kept| && kept[..m.start] == tokens[..m.start]
    ensures kept[m.start..] == Moved(tokens, m) + tokens[m.cv + 1..]
  {
  }

  lemma {:induction false} FourParts<T>(a: seq<T>, b: seq<T>, c: seq<T>, d: seq<T>, cd: seq<T>)
    requires cd == c + d
    ensures a + b + cd == a + (b + c + d)
  {
  }

  lemma {:induction false} TallySplit<T>(f: string -> multiset<T>, tokens: seq<Token>, k: nat)
    requires k <= |tokens|
    ensures Tally(f, tokens) == Tally(f, tokens[..k]) + Tally(f, tokens[k..])
  {
    assert tokens == tokens[..k] + tokens[k..];
    TallyConcat(f, tokens[..k], tokens[k..]);
  }

  lemma {:induction false} InsertedTally<T>(f: string -> multiset<T>, t: Token)
    requires BlanksFree(f)
    ensures Tally(f, Inserted(t)) == f(t.text)
  {
    assert Inserted(t) == [Token(Word, t.text, t.line, t.col)] + [Token(Whitespace, " ", t.line, t.col)];
    TallyConcat(f, [Token(Word, t.text, t.line, t.col)], [Token(Whitespace, " ", t.line, t.col)]);
    OneTally(f, Token(Word, t.text, t.line, t.col));
    OneTally(f, Token(Whitespace, " ", t.line, t.col));
    assert AllBlank(" ");
  }

  /** What is left after the qualifier, and the blank with it, are taken out. */
  function Without(tokens: seq<Token>, cv: nat): seq<Token>
    requires cv < |tokens|
  {
    (if DropsBlank(tokens, cv) then tokens[..cv - 1] else tokens[..cv]) + tokens[cv + 1..]
  }

  lemma {:induction false} TallyAround<T>(f: string -> multiset<T>, tokens: seq<Token>, k: nat)
    requires k < |tokens|
    ensures Tally(f, tokens) == Tally(f, tokens[..k]) + f(tokens[k].text) + Tally(f, tokens[k + 1..])
  {
    TallySplit(f, tokens, k);
    TallySplit(f, tokens[k..], 1);
    assert tokens[k..][..1] == [tokens[k]] && tokens[k..][1..] == tokens[k + 1..];
    OneTally(f, tokens[k]);
  }

  lemma {:induction false} TallyBeforeBlank<T>(f: string -> multiset<T>, tokens: seq<Token>, k: nat)
    requires BlanksFree(f)
    requires k < |tokens| && BlankText(tokens) && tokens[k].kind.Whitespace?
    ensures Tally(f, tokens[..k + 1]) == Tally(f, tokens[..k])
  {
    assert tokens[..k + 1] == tokens[..k] + [tokens[k]];
    TallyConcat(f, tokens[..k], [tokens[k]]);
    OneTally(f, tokens[k]);
    assert tokens[k] in tokens;
    assert AllBlank(tokens[k].text);
  }

  lemma {:induction false} WithoutTally<T>(f: string -> multiset<T>, tokens: seq<Token>, cv: nat)
    requires BlanksFree(f)
    requires cv < |tokens| && BlankText(tokens)
    ensures Tally(f, tokens) == Tally(f, Without(tokens, cv)) + f(tokens[cv].text)
  {
    TallyAround(f, tokens, cv);
    if DropsBlank(tokens, cv) {
      TallyBeforeBlank(f, tokens, cv - 1);
      TallyConcat(f, tokens[..cv - 1], tokens[cv + 1..]);
    } else {
      TallyConcat(f, tokens[..cv], tokens[cv + 1..]);
    }
  }

  /** A move, whatever token it happens to act on, keeps every character but blanks. */
  lemma {:induction false} AppliedTally<T>(f: string -> multiset<T>, tokens: seq<Token>, m: Move)
    requires BlanksFree(f)
    requires Names(tokens, m) && BlankText(tokens)
    ensures Tally(f, Applied(tokens, m)) == Tally(f, tokens)
  {
    var kept, drops := Without(tokens, m.cv), DropsBlank(tokens, m.cv);
    var start := if drops && m.cv - 1 < m.start then m.start - 1 else m.start;
    WithoutTally(f, tokens, m.cv);
    TallySplit(f, kept, start);
    InsertedTally(f, tokens[m.cv]);
    TallyConcat(f, kept[..start], Inserted(tokens[m.cv]));
    TallyConcat(f, kept[..start] + Inserted(tokens[m.cv]), kept[start..]);
  }

  lemma {:induction false} AppliedMembers(tokens: seq<Token>, m: Move, t: Token)
    requires Names(tokens, m) && t in Applied(tokens, m)
    ensures t in tokens || t in Inserted(tokens[m.cv])
  {
    var kept, k := Without(tokens, m.cv), Target(tokens, m);
    AppliedIs(tokens, m);
    InThree(kept[..k], Inserted(tokens[m.cv]), kept[k..], t);
    if t in kept[..k] || t in kept[k..] {
      assert t in kept;
      WithoutMembers(tokens, m.cv, t);
    }
  }

  lemma {:induction false} InThree(a: seq<Token>, b: seq<Token>, c: seq<Token>, t: Token)
    requires t in a + b + c
    ensures t in a || t in b || t in c
  {
  }

  lemma {:induction false} WithoutMembers(tokens: seq<Token>, cv: nat, t: Token)
    requires cv < |tokens| && t in Without(tokens, cv)
    ensures t in tokens
  {
  }

  /** Where, once the qualifier is out, it goes back in. */
  function Target(tokens: seq<Token>, m: Move): (k: nat)
    requires Names(tokens, m)
    ensures k <= |Without(tokens, m.cv)|
    ensures m.cv < |tokens| - 1 ==> k < |Without(tokens, m.cv)|
  {
    if DropsBlank(tokens, m.cv) && m.cv - 1 < m.start then m.start - 1 else m.start
  }

  lemma {:induction false} AppliedIs(tokens: seq<Token>, m: Move)
    requires Names(tokens, m)
    ensures var kept, k := Without(tokens, m.cv), Target(tokens, m);
      Applied(tokens, m) == kept[..k] + Inserted(tokens[m.cv]) + kept[k..]
  {
  }

  lemma {:induction false} AppliedEnds(tokens: seq<Token>, m: Move)
    requires Names(tokens, m) && EndsOnce(tokens) && m.cv < |tokens| - 1
    ensures EndsOnce(Applied(tokens, m))
    ensures Applied(tokens, m)[|Applied(tokens, m)| - 1] == tokens[|tokens| - 1]
  {
    AppliedIs(tokens, m);
    WithoutEnds(tokens, m.cv);
    InsertedEnds(Without(tokens, m.cv), Target(tokens, m), Inserted(tokens[m.cv]), Applied(tokens, m));
  }

  lemma {:induction false} WithoutEnds(tokens: seq<Token>, cv: nat)
    requires EndsOnce(tokens) && cv < |tokens| - 1
    ensures EndsOnce(Without(tokens, cv)) && Without(tokens, cv)[|Without(tokens, cv)| - 1] == tokens[|tokens| - 1]
  {
  }

  lemma {:induction false} InsertedEnds(tokens: seq<Token>, at: nat, more: seq<Token>, all: seq<Token>)
    requires EndsOnce(tokens) && at < |tokens| && forall k :: 0 <= k < |more| ==> !more[k].kind.Eof?
    requires all == tokens[..at] + more + tokens[at..]
    ensures EndsOnce(all) && all[|all| - 1] == tokens[|tokens| - 1]
  {
  }

  lemma {:induction false} AppliedShaped<T>(f: string -> multiset<T>, tokens: seq<Token>, m: Move)
    requires BlanksFree(f)
    requires Names(tokens, m) && Shaped(tokens) && m.cv < |tokens| - 1
    ensures Shaped(Applied(tokens, m)) && Tally(f, Applied(tokens, m)) == Tally(f, tokens)
  {
    AppliedTally(f, tokens, m);
    AppliedEnds(tokens, m);
    AppliedBlankText(tokens, m);
  }

  lemma {:induction false} AppliedBlankText(tokens: seq<Token>, m: Move)
    requires Names(tokens, m) && BlankText(tokens)
    ensures BlankText(Applied(tokens, m))
  {
    forall t | t in Applied(tokens, m) && t.kind.Whitespace? ensures AllBlank(t.text) {
      AppliedMembers(tokens, m, t);
    }
  }

  lemma {:induction false} AppliedLength(tokens: seq<Token>, m: Move)
    requires Names(tokens, m)
    ensures |tokens| <= |Applied(tokens, m)|
  {
  }

  // ---- All moves, overlapping or not -----------------------------------------------------------

  /** Applied to well-formed tokens, in range, it keeps them well-formed, no fewer, and with the same characters. */
  ghost predicate KeepsTally<T>(f: string -> multiset<T>, apply: Applier, n: nat) {
    forall tokens: seq<Token>, m: Move :: Shaped(tokens) && m.start <= m.cv < n < |tokens| ==> TallyKept(f, tokens, apply(tokens, m))
  }

  ghost predicate TallyKept<T>(f: string -> multiset<T>, before: seq<Token>, after: seq<Token>) {
    Shaped(after) && Tally(f, after) == Tally(f, before) && |before| <= |after|
  }

  lemma {:induction false} AppliedKeepsTally<T>(f: string -> multiset<T>, n: nat)
    requires BlanksFree(f)
    ensures KeepsTally(f, Applied, n)
  {
    forall tokens: seq<Token>, m: Move | Shaped(tokens) && m.start <= m.cv < n < |tokens|
      ensures TallyKept(f, tokens, Applied(tokens, m))
    {
      AppliedShaped(f, tokens, m);
      AppliedLength(tokens, m);
    }
  }

  /** No move ever reaches outside the tokens, and no character but blanks is lost, gained or changed. */
  lemma {:induction false} AppliedFirstTally<T>(f: string -> multiset<T>, apply: Applier, tokens: seq<Token>, moves: seq<Move>, k: nat, n: nat)
    requires KeepsTally(f, apply, n)
    requires k <= |moves| && Shaped(tokens) && InRange(moves, n) && n < |tokens|
    ensures TallyKept(f, tokens, AppliedFirst(apply, tokens, moves, k))
    decreases k
  {
    if k > 0 {
      var next := apply(tokens, moves[k - 1]);
      assert TallyKept(f, tokens, next);
      AppliedFirstTally(f, apply, next, moves, k - 1, n);
    }
  }

  lemma {:induction false} MovesBeforeEnd(tokens: seq<Token>, k: nat)
    requires EndsOnce(tokens) && k <= |tokens|
    ensures InRange(Moves(tokens, k), if k < |tokens| then k else |tokens| - 1)
  {
    MovesInRange(tokens, k);
    var moves := Moves(tokens, k);
    forall a | 0 <= a < |moves| ensures moves[a].cv < |tokens| - 1 {
      assert MoveAt(tokens, moves[a].cv) == Some(moves[a]);
      assert tokens[moves[a].cv].Cv();
    }
  }

  lemma {:induction false} BlankRun<T>(f: string -> multiset<T>, tokens: seq<Token>, i: nat)
    requires BlanksFree(f)
    requires i <= |tokens| && BlankText(tokens)
    ensures Tally(f, tokens[i..]) == Tally(f, tokens[RunEnd(tokens, i)..])
    decreases |tokens| - i
  {
    if i < |tokens| && tokens[i].kind.Whitespace? {
      BlankRun(f, tokens, i + 1);
      TallySplit(f, tokens[i..], 1);
      assert tokens[i..][..1] == [tokens[i]] && tokens[i..][1..] == tokens[i + 1..];
      OneTally(f, tokens[i]);
      assert tokens[i] in tokens;
      assert AllBlank(tokens[i].text);
    }
  }

  lemma {:induction false} NormalisedTokenBlank<T>(f: string -> multiset<T>, tokens: seq<Token>, i: nat, t: Token)
    requires BlanksFree(f)
    requires i < |tokens| && tokens[i].kind.Whitespace? && BlankText(tokens)
    requires t == Token(Whitespace, " ", tokens[i].line, tokens[i].col) || t == tokens[i]
    ensures f(t.text) == multiset{}
  {
    assert tokens[i] in tokens;
    assert AllBlank(t.text);
  }

  lemma {:induction false} NormalisedTally<T>(f: string -> multiset<T>, tokens: seq<Token>, i: nat)
    requires BlanksFree(f)
    requires i <= |tokens| && BlankText(tokens)
    ensures Tally(f, Normalised(tokens, i)) == Tally(f, tokens[i..])
    decreases |tokens| - i
  {
    if i < |tokens| {
      TallySplit(f, tokens[i..], 1);
      assert tokens[i..][..1] == [tokens[i]] && tokens[i..][1..] == tokens[i + 1..];
      OneTally(f, tokens[i]);
      if tokens[i].kind.Whitespace? {
        var j := RunEnd(tokens, i);
        NormalisedTally(f, tokens, j);
        BlankRun(f, tokens, i);
        var t := if j - i > 1 then Token(Whitespace, " ", tokens[i].line, tokens[i].col) else tokens[i];
        NormalisedTokenBlank(f, tokens, i, t);
        TallyConcat(f, [t], Normalised(tokens, j));
        OneTally(f, t);
      } else {
        NormalisedTally(f, tokens, i + 1);
        TallyConcat(f, [tokens[i]], Normalised(tokens, i + 1));
      }
    }
  }

  lemma {:induction false} NormalisedEnds(tokens: seq<Token>, i: nat)
    requires i < |tokens| && EndsOnce(tokens)
    ensures EndsOnce(Normalised(tokens, i))
    ensures Normalised(tokens, i)[|Normalised(tokens, i)| - 1] == tokens[|tokens| - 1]
    decreases |tokens| - i
  {
    var j := if tokens[i].kind.Whitespace? then RunEnd(tokens, i) else i + 1;
    if tokens[i].kind.Whitespace? {
      RunBeforeEnd(tokens, i);
    }
    if j < |tokens| {
      NormalisedEnds(tokens, j);
    }
  }

  lemma {:induction false} RunBeforeEnd(tokens: seq<Token>, i: nat)
    requires i < |tokens| && EndsOnce(tokens)
    ensures RunEnd(tokens, i) < |tokens|
    decreases |tokens| - i
  {
    if tokens[i].kind.Whitespace? {
      RunBeforeEnd(tokens, i + 1);
    }
  }

  lemma {:induction false} LexedShaped(src: string, cls: Classes)
    ensures Shaped(Lexed(src, cls))
  {
    LexLosesNothing(src, cls);
    var tokens := Lexed(src, cls);
    CutterSound(src, cls);
    LastIsEmpty(src, CutterOf(src, cls), 0, 1, 0);
    forall t | t in tokens && t.kind.Whitespace? ensures AllBlank(t.text) {
      var k :| 0 <= k < |tokens| && tokens[k] == t;
    }
  }

  lemma {:induction false} LastIsEmpty(src: string, cutter: Cutter, i: nat, line: int, start: int)
    requires i <= |src| && Progresses(src, cutter)
    ensures var tokens := Tokens(src, cutter, i, line, start); tokens[|tokens| - 1].text == []
    decreases |src| - i
  {
    if i < |src| {
      LastIsEmpty(src, cutter, cutter(i).end, line + cutter(i).lines, LineStart(cutter(i), start));
    }
  }

  /** The tokens that are printed. */
  ghost function Output(src: string, cls: Classes): seq<Token> {
    Normalised(Transformed(Lexed(src, cls)), 0)
  }

  /** Whatever is counted, blanks apart, the tokens printed have as much of it as the tokens read. */
  lemma {:induction false} ProcessKeepsTally<T>(f: string -> multiset<T>, src: string, cls: Classes)
    requires BlanksFree(f)
    ensures Tally(f, Output(src, cls)) == Tally(f, Lexed(src, cls))
    ensures EndsOnce(Output(src, cls)) && Output(src, cls)[|Output(src, cls)| - 1].text == []
  {
    LexedShaped(src, cls);
    TransformedTally(f, Lexed(src, cls));
    PrintedTally(f, Transformed(Lexed(src, cls)));
  }

  lemma {:induction false} TransformedTally<T>(f: string -> multiset<T>, tokens: seq<Token>)
    requires BlanksFree(f) && Shaped(tokens)
    ensures TallyKept(f, tokens, Transformed(tokens))
  {
    MovesBeforeEnd(tokens, |tokens|);
    var moves := Moves(tokens, |tokens|);
    AppliedKeepsTally(f, |tokens| - 1);
    AppliedFirstTally(f, Applied, tokens, moves, |moves|, |tokens| - 1);
  }

  lemma {:induction false} PrintedTally<T>(f: string -> multiset<T>, tokens: seq<Token>)
    requires BlanksFree(f) && Shaped(tokens)
    ensures Tally(f, Normalised(tokens, 0)) == Tally(f, tokens)
    ensures EndsOnce(Normalised(tokens, 0)) && Normalised(tokens, 0)[|Normalised(tokens, 0)| - 1].text == []
  {
    NormalisedTally(f, tokens, 0);
    assert tokens[0..] == tokens;
    NormalisedEnds(tokens, 0);
  }

  lemma {:induction false} InkIgnoresBlanks()
    ensures BlanksFree(Ink)
  {
    forall s: string | AllBlank(s) ensures Ink(s) == multiset{} {
      BlankHasNoInk(s);
    }
  }

  /** Whatever the source, even when moves overlap, the output has the input's characters, blanks apart. */
  lemma {:induction false} ProcessKeepsCharacters(src: string, cls: Classes)
    ensures Ink(Processed(src, cls)) == Ink(src)
  {
    InkIgnoresBlanks();
    ProcessKeepsTally(Ink, src, cls);
    RenderedInk(Output(src, cls));
    LexedShaped(src, cls);
    RenderedInk(Lexed(src, cls));
    LexLosesNothing(src, cls);
  }

  // ---- Texts -----------------------------------------------------------------------------------

  /** A text as a whole, unless it is blank. */
  function Whole(s: string): multiset<string> {
    if AllBlank(s) then multiset{} else multiset{s}
  }

  /**
   * Whatever the source, even when moves overlap, the output is made of the very texts the source was cut
   * into, blanks apart: no word, comment or literal is broken up, joined to another, lost or doubled.
   */
  lemma {:induction false} ProcessKeepsTexts(src: string, cls: Classes)
    ensures Processed(src, cls) == Rendered(Output(src, cls))
    ensures Tally(Whole, Output(src, cls)) == Tally(Whole, Lexed(src, cls))
  {
    ProcessKeepsTally(Whole, src, cls);
  }

  lemma {:induction false} TallyHas(tokens: seq<Token>, text: string)
    requires !AllBlank(text)
    ensures text in Tally(Whole, tokens) <==> exists k :: 0 <= k < |tokens| && tokens[k].text == text
  {
    if tokens != [] {
      TallyHas(tokens[1..], text);
      assert forall k :: 0 <= k < |tokens| - 1 ==> tokens[1..][k] == tokens[k + 1];
    }
  }

  lemma {:induction false} RenderedHas(tokens: seq<Token>, k: nat) returns (before: string, after: string)
    requires EndsOnce(tokens) && k < |tokens| - 1
    ensures Rendered(tokens) == before + tokens[k].text + after
  {
    if k == 0 {
      before, after := "", Rendered(tokens[1..]);
    } else {
      before, after := RenderedHas(tokens[1..], k - 1);
      assert tokens[0].text + (before + tokens[k].text + after) == tokens[0].text + before + tokens[k].text + after;
      before := tokens[0].text + before;
    }
  }

  // ---- Nothing to move -------------------------------------------------------------------------

  lemma {:induction false} NormalisedUnchanged(tokens: seq<Token>, i: nat)
    requires i <= |tokens| && forall k :: 0 <= k < |tokens| - 1 && tokens[k].kind.Whitespace? ==> !tokens[k + 1].kind.Whitespace?
    ensures Normalised(tokens, i) == tokens[i..]
    decreases |tokens| - i
  {
    if i < |tokens| {
      NormalisedUnchanged(tokens, i + 1);
      assert tokens[i..] == [tokens[i]] + tokens[i + 1..];
      if tokens[i].kind.Whitespace? {
        assert RunEnd(tokens, i) == RunEnd(tokens, i + 1) == i + 1;
      }
    }
  }

  /** A source with nothing to move comes out exactly as it went in. */
  lemma {:induction false} NothingToMoveUnchanged(src: string, cls: Classes)
    requires Moves(Lexed(src, cls), |Lexed(src, cls)|) == []
    ensures Processed(src, cls) == src
  {
    LexLosesNothing(src, cls);
    var tokens := Lexed(src, cls);
    assert Transformed(tokens) == tokens;
    NormalisedUnchanged(tokens, 0);
    assert tokens[0..] == tokens;
  }

  // ---- Moves that do not overlap ---------------------------------------------------------------

  /** The spans from type start to qualifier stand one behind another without touching. */
  ghost predicate Disjoint(moves: seq<Move>) {
    && (forall k :: 0 <= k < |moves| ==> moves[k].start <= moves[k].cv)
    && (forall j, k :: 0 <= j < k < |moves| ==> moves[j].cv < moves[k].start)
  }

  ghost predicate AllRegular(tokens: seq<Token>, moves: seq<Move>) {
    forall k :: 0 <= k < |moves| ==> Regular(tokens, moves[k])
  }

  /**
   * All moves carried out at once: in front of each type its qualifier and a space, the qualifier and
   * the blank before it gone from behind the type, and everything in between untouched.
   */
  ghost function RewrittenFirst(tokens: seq<Token>, moves: seq<Move>, k: nat, end: nat): seq<Token>
    requires k <= |moves| && end <= |tokens| && AllRegular(tokens, moves)
    decreases k
  {
    if k == 0 || moves[k - 1].cv >= end then tokens[..end]
    else
      var m := moves[k - 1];
      RewrittenFirst(tokens, moves, k - 1, m.start)
      + Inserted(tokens[m.cv]) + Moved(tokens, m) + tokens[m.cv + 1..end]
  }

  /** A move acts only on what stands up to its qualifier; what follows is carried along. */
  lemma {:induction false} AppliedLocal(front: seq<Token>, back: seq<Token>, m: Move)
    requires Regular(front, m)
    ensures Regular(front + back, m) && Applied(front + back, m) == Applied(front, m) + back
  {
    var all := front + back;
    SameMoved(front, back, all, m);
    AppliedParts(front, m);
    AppliedParts(all, m);
    PartsThen(front[..m.start], Inserted(front[m.cv]), Moved(front, m), front[m.cv + 1..], back, all[m.cv + 1..]);
  }

  lemma {:induction false} SameMoved(front: seq<Token>, back: seq<Token>, all: seq<Token>, m: Move)
    requires Regular(front, m) && all == front + back
    ensures Regular(all, m) && Moved(all, m) == Moved(front, m)
    ensures all[..m.start] == front[..m.start] && all[m.cv] == front[m.cv] && all[m.cv + 1..] == front[m.cv + 1..] + back
  {
    assert DropsBlank(all, m.cv) == DropsBlank(front, m.cv);
  }

  lemma {:induction false} PartsThen<T>(a: seq<T>, b: seq<T>, c: seq<T>, d: seq<T>, e: seq<T>, de: seq<T>)
    requires de == d + e
    ensures a + (b + c + de) == a + (b + c + d) + e
  {
  }

  lemma {:induction false} AppliedPartsAt(tokens: seq<Token>, m: Move, end: nat)
    requires Regular(tokens, m) && m.cv < end <= |tokens|
    ensures Regular(tokens[..end], m)
    ensures Applied(tokens[..end], m) ==
            tokens[..m.start] + (Inserted(tokens[m.cv]) + Moved(tokens, m) + tokens[m.cv + 1..end])
  {
    var front := tokens[..end];
    assert DropsBlank(front, m.cv) == DropsBlank(tokens, m.cv);
    AppliedParts(front, m);
    assert front[..m.start] == tokens[..m.start] && Moved(front, m) == Moved(tokens, m);
    assert front[m.cv + 1..] == tokens[m.cv + 1..end];
  }

  /** What a move leaves from its type's start up to `end`. */
  function Tail(tokens: seq<Token>, m: Move, end: nat): seq<Token>
    requires Names(tokens, m) && m.cv < end <= |tokens|
  {
    Inserted(tokens[m.cv]) + Moved(tokens, m) + tokens[m.cv + 1..end]
  }

  lemma {:induction false} LocalStep(tokens: seq<Token>, end: nat, back: seq<Token>, m: Move)
    requires Regular(tokens, m) && m.cv < end <= |tokens|
    ensures Applied(tokens[..end] + back, m) == tokens[..m.start] + (Tail(tokens, m, end) + back)
  {
    AppliedPartsAt(tokens, m, end);
    AppliedLocal(tokens[..end], back, m);
  }

  lemma {:induction false} AppliedFirstLocal(tokens: seq<Token>, end: nat, back: seq<Token>, moves: seq<Move>, k: nat)
    requires k <= |moves| && end <= |tokens| && AllRegular(tokens, moves) && Disjoint(moves)
    requires k > 0 ==> moves[k - 1].cv < end
    ensures AppliedFirst(Applied, tokens[..end] + back, moves, k) == RewrittenFirst(tokens, moves, k, end) + back
    decreases k
  {
    if k > 0 {
      var m := moves[k - 1];
      LocalStep(tokens, end, back, m);
      AppliedFirstLocal(tokens, m.start, Tail(tokens, m, end) + back, moves, k - 1);
      Regroup(RewrittenFirst(tokens, moves, k - 1, m.start), Inserted(tokens[m.cv]), Moved(tokens, m), tokens[m.cv + 1..end], back);
    }
  }

  lemma {:induction false} Regroup(a: seq<Token>, b: seq<Token>, c: seq<Token>, d: seq<Token>, e: seq<Token>)
    ensures a + ((b + c + d) + e) == (a + b + c + d) + e
  {
  }

  lemma {:induction false} MoveRegular(tokens: seq<Token>, k: nat, m: Move)
    requires k < |tokens| && MoveAt(tokens, k) == Some(m)
    ensures Regular(tokens, m)
  {
  }

  lemma {:induction false} MovesRegular(tokens: seq<Token>)
    ensures AllRegular(tokens, Moves(tokens, |tokens|))
  {
    MovesInRange(tokens, |tokens|);
    var moves := Moves(tokens, |tokens|);
    forall a | 0 <= a < |moves| ensures Regular(tokens, moves[a]) {
      MoveRegular(tokens, moves[a].cv, moves[a]);
    }
  }

  /** When the moves do not overlap, applying them from right to left carries all of them out at once. */
  lemma {:induction false} DisjointMovesAllAtOnce(tokens: seq<Token>)
    requires Disjoint(Moves(tokens, |tokens|))
    ensures AllRegular(tokens, Moves(tokens, |tokens|))
    ensures Transformed(tokens) == RewrittenFirst(tokens, Moves(tokens, |tokens|), |Moves(tokens, |tokens|)|, |tokens|)
  {
    var moves := Moves(tokens, |tokens|);
    MovesRegular(tokens);
    MovesInRange(tokens, |tokens|);
    AppliedFirstLocal(tokens, |tokens|, [], moves, |moves|);
    assert tokens[..|tokens|] + [] == tokens;
    var r := RewrittenFirst(tokens, moves, |moves|, |tokens|);
    assert r + [] == r;
  }

  // ---- The order of everything else ------------------------------------------------------------

  /** The tokens other than qualifiers and whitespace, in order. */
  function Others(tokens: seq<Token>): seq<Token> {
    if tokens == [] then []
    else (if tokens[0].Cv() || tokens[0].kind.Whitespace? then [] else [tokens[0]]) + Others(tokens[1..])
  }

  lemma {:induction false} OthersConcat(a: seq<Token>, b: seq<Token>)
    ensures Others(a + b) == Others(a) + Others(b)
  {
    if a == [] {
      assert a + b == b;
    } else {
      assert (a + b)[1..] == a[1..] + b;
      OthersConcat(a[1..], b);
    }
  }

  lemma {:induction false} InsertedHasNoOthers(t: Token)
    requires t.Cv()
    ensures Others(Inserted(t)) == []
  {
    var word, space := Token(Word, t.text, t.line, t.col), Token(Whitespace, " ", t.line, t.col);
    assert Inserted(t)[1..] == [space] && [space][1..] == [];
    assert Others([space]) == Others([]);
  }

  lemma {:induction false} OneOther(t: Token)
    requires t.Cv() || t.kind.Whitespace?
    ensures Others([t]) == []
  {
    assert [t][1..] == [];
  }

  /** Taking the qualifier, and the blank in front of it, out of its span loses no other token. */
  lemma {:induction false} MovedOthers(tokens: seq<Token>, m: Move)
    requires Regular(tokens, m) && tokens[m.cv].Cv()
    ensures Others(tokens[m.start..m.cv + 1]) == Others(Moved(tokens, m))
  {
    assert tokens[m.start..m.cv + 1] == tokens[m.start..m.cv] + [tokens[m.cv]];
    OthersConcat(tokens[m.start..m.cv], [tokens[m.cv]]);
    OneOther(tokens[m.cv]);
    if DropsBlank(tokens, m.cv) && m.start < m.cv {
      assert tokens[m.start..m.cv] == tokens[m.start..m.cv - 1] + [tokens[m.cv - 1]];
      OthersConcat(tokens[m.start..m.cv - 1], [tokens[m.cv - 1]]);
      OneOther(tokens[m.cv - 1]);
    }
  }

  lemma {:induction false} OthersOfParts(a: seq<Token>, b: seq<Token>, c: seq<Token>, d: seq<Token>)
    ensures Others(a + b + c + d) == Others(a) + Others(b) + Others(c) + Others(d)
  {
    OthersConcat(a, b);
    OthersConcat(a + b, c);
    OthersConcat(a + b + c, d);
  }

  lemma {:induction false} RewrittenKeepsOthers(tokens: seq<Token>, moves: seq<Move>, k: nat, end: nat)
    requires k <= |moves| && end <= |tokens| && AllRegular(tokens, moves)
    requires forall a :: 0 <= a < |moves| ==> tokens[moves[a].cv].Cv()
    ensures Others(RewrittenFirst(tokens, moves, k, end)) == Others(tokens[..end])
    decreases k
  {
    if k > 0 && moves[k - 1].cv < end {
      var m := moves[k - 1];
      RewrittenKeepsOthers(tokens, moves, k - 1, m.start);
      InsertedHasNoOthers(tokens[m.cv]);
      MovedOthers(tokens, m);
      OthersRebuilt(tokens, RewrittenFirst(tokens, moves, k - 1, m.start), Inserted(tokens[m.cv]), Moved(tokens, m), m.start, m.cv + 1, end);
    }
  }

  lemma {:induction false} OthersRebuilt(tokens: seq<Token>, before: seq<Token>, inserted: seq<Token>, moved: seq<Token>, a: nat, b: nat, end: nat)
    requires a <= b <= end <= |tokens|
    requires Others(before) == Others(tokens[..a]) && Others(inserted) == [] && Others(moved) == Others(tokens[a..b])
    ensures Others(before + inserted + moved + tokens[b..end]) == Others(tokens[..end])
  {
    OthersOfParts(before, inserted, moved, tokens[b..end]);
    assert Others(before) + [] == Others(before);
    OthersAround(tokens, a, b, end);
  }

  lemma {:induction false} OthersAround(tokens: seq<Token>, a: nat, b: nat, end: nat)
    requires a <= b <= end <= |tokens|
    ensures Others(tokens[..end]) == Others(tokens[..a]) + Others(tokens[a..b]) + Others(tokens[b..end])
  {
    assert tokens[..end] == tokens[..a] + tokens[a..b] + tokens[b..end];
    OthersConcat(tokens[..a], tokens[a..b]);
    OthersConcat(tokens[..a] + tokens[a..b], tokens[b..end]);
  }

  /** When the moves do not overlap, every token but the qualifiers and the blanks keeps its place in the order. */
  lemma {:induction false} DisjointMovesKeepOrder(tokens: seq<Token>)
    requires Disjoint(Moves(tokens, |tokens|))
    ensures Others(Transformed(tokens)) == Others(tokens)
  {
    var moves := Moves(tokens, |tokens|);
    DisjointMovesAllAtOnce(tokens);
    MovesInRange(tokens, |tokens|);
    forall a | 0 <= a < |moves| ensures tokens[moves[a].cv].Cv() {
      assert MoveAt(tokens, moves[a].cv) == Some(moves[a]);
    }
    RewrittenKeepsOthers(tokens, moves, |moves|, |tokens|);
    assert tokens[..|tokens|] == tokens;
  }

  // ---- When an index kept for a later move is still good ---------------------------------------

  /** The tokens when the turn of move `k` comes: the moves behind it have been applied. */
  function BeforeTurn(tokens: seq<Token>, moves: seq<Move>, k: nat): seq<Token>
    requires k < |moves|
    decreases |moves| - k
  {
    if k == |moves| - 1 then tokens else Applied(BeforeTurn(tokens, moves, k + 1), moves[k + 1])
  }

  /** Up to its qualifier, a move finds the tokens as they were when it was collected. */
  ghost predicate FindsItsOwn(tokens: seq<Token>, moves: seq<Move>, k: nat)
    requires k < |moves|
  {
    SameFront(BeforeTurn(tokens, moves, k), tokens, moves[k].cv)
  }

  predicate SameFront(now: seq<Token>, tokens: seq<Token>, n: nat) {
    n < |now| && n < |tokens| && now[..n + 1] == tokens[..n + 1]
  }

  lemma {:induction false} SameFrontRegular(now: seq<Token>, tokens: seq<Token>, m: Move)
    requires Regular(tokens, m) && m.cv < |now| && now[..m.cv + 1] == tokens[..m.cv + 1]
    ensures Regular(now, m) && now[m.cv] == tokens[m.cv]
  {
    assert forall p :: 0 <= p <= m.cv ==> now[p] == now[..m.cv + 1][p] && tokens[p] == tokens[..m.cv + 1][p];
  }

  /** A move that finds its own leaves everything before its type alone, and puts its qualifier there. */
  lemma {:induction false} OwnMove(now: seq<Token>, tokens: seq<Token>, m: Move)
    requires Regular(tokens, m) && tokens[m.cv].kind.Word?
    requires m.cv < |now| && now[..m.cv + 1] == tokens[..m.cv + 1]
    ensures var next := Applied(now, m);
      m.start < |next| && next[..m.start] == tokens[..m.start] && next[m.start] == tokens[m.cv]
  {
    SameFrontRegular(now, tokens, m);
    AppliedParts(now, m);
    assert now[..m.start] == now[..m.cv + 1][..m.start] == tokens[..m.start];
  }

  lemma {:induction false} DisjointFindsOwn(tokens: seq<Token>, moves: seq<Move>, k: nat)
    requires AllRegular(tokens, moves) && Disjoint(moves) && k < |moves|
    requires forall a :: 0 <= a < |moves| ==> tokens[moves[a].cv].kind.Word?
    ensures FindsItsOwn(tokens, moves, k)
    decreases |moves| - k
  {
    if k < |moves| - 1 {
      DisjointFindsOwn(tokens, moves, k + 1);
      OwnMove(BeforeTurn(tokens, moves, k + 1), tokens, moves[k + 1]);
      var now, m := BeforeTurn(tokens, moves, k), moves[k];
      assert now[..m.cv + 1] == now[..moves[k + 1].start][..m.cv + 1];
      assert tokens[..m.cv + 1] == tokens[..moves[k + 1].start][..m.cv + 1];
    }
  }

  /** Two moves in a row whose spans meet: the first of them no longer finds its own. */
  lemma {:induction false} MeetingSpansLoseTrack(tokens: seq<Token>, moves: seq<Move>, k: nat)
    requires AllRegular(tokens, moves) && Distinct(tokens) && k + 1 < |moves|
    requires tokens[moves[k + 1].cv].kind.Word? && moves[k].cv < moves[k + 1].cv && moves[k + 1].start <= moves[k].cv
    ensures !(FindsItsOwn(tokens, moves, k) && FindsItsOwn(tokens, moves, k + 1))
  {
    var now, next := BeforeTurn(tokens, moves, k + 1), BeforeTurn(tokens, moves, k);
    BeforeTurnStep(tokens, moves, k);
    assert Regular(tokens, moves[k + 1]);
    OneOfTwoLost(now, next, tokens, moves[k + 1], moves[k].cv);
  }

  lemma {:induction false} OneOfTwoLost(now: seq<Token>, next: seq<Token>, tokens: seq<Token>, m: Move, n: nat)
    requires Regular(tokens, m) && tokens[m.cv].kind.Word? && Distinct(tokens) && m.start <= n < m.cv && next == Applied(now, m)
    ensures !(SameFront(now, tokens, m.cv) && SameFront(next, tokens, n))
  {
    if SameFront(now, tokens, m.cv) {
      QualifierInFront(now, next, tokens, m, n);
    }
  }

  lemma {:induction false} BeforeTurnStep(tokens: seq<Token>, moves: seq<Move>, k: nat)
    requires k + 1 < |moves|
    ensures BeforeTurn(tokens, moves, k) == Applied(BeforeTurn(tokens, moves, k + 1), moves[k + 1])
  {
  }

  /** Once a move has put its qualifier in front, what stands there is no longer what stood there. */
  lemma {:induction false} QualifierInFront(now: seq<Token>, next: seq<Token>, tokens: seq<Token>, m: Move, n: nat)
    requires Regular(tokens, m) && tokens[m.cv].kind.Word? && Distinct(tokens) && m.start <= n < m.cv
    requires m.cv < |now| && now[..m.cv + 1] == tokens[..m.cv + 1] && next == Applied(now, m)
    ensures n < |next| ==> next[..n + 1] != tokens[..n + 1]
  {
    OwnMove(now, tokens, m);
    if n < |next| && next[..n + 1] == tokens[..n + 1] {
      FrontsAgreeAt(next, tokens, n, m.start);
      assert false;
    }
  }

  lemma {:induction false} FrontsAgreeAt(a: seq<Token>, b: seq<Token>, n: nat, p: nat)
    requires n < |a| && n < |b| && a[..n + 1] == b[..n + 1] && p <= n
    ensures a[p] == b[p]
  {
    assert a[p] == a[..n + 1][p];
  }

  /**
   * The moves are applied from right to left so that the indices kept for the others stay good.  For the
   * tokens of any source that is so exactly when no two spans from type start to qualifier overlap.
   */
  lemma {:induction false} IndicesStayGoodExactlyWhen(src: string, cls: Classes)
    ensures var tokens := Lexed(src, cls); var moves := Moves(tokens, |tokens|);
      (forall k :: 0 <= k < |moves| ==> FindsItsOwn(tokens, moves, k)) <==> Disjoint(moves)
  {
    LexedDistinct(src, cls);
    MovesFindTheirOwn(Lexed(src, cls));
  }

  lemma {:induction false} MovesFindTheirOwn(tokens: seq<Token>)
    requires Distinct(tokens)
    ensures var moves := Moves(tokens, |tokens|);
      (forall k :: 0 <= k < |moves| ==> FindsItsOwn(tokens, moves, k)) <==> Disjoint(moves)
  {
    var moves := Moves(tokens, |tokens|);
    MovesRegular(tokens);
    MovesInRange(tokens, |tokens|);
    forall a | 0 <= a < |moves| ensures tokens[moves[a].cv].kind.Word? {
      assert MoveAt(tokens, moves[a].cv) == Some(moves[a]);
    }
    if Disjoint(moves) {
      forall k | 0 <= k < |moves| ensures FindsItsOwn(tokens, moves, k) {
        DisjointFindsOwn(tokens, moves, k);
      }
    } else {
      var k := MeetingNeighbours(moves);
      MeetingSpansLoseTrack(tokens, moves, k);
    }
  }

  /** Among moves in order, if any two spans meet then some two neighbours' do. */
  lemma {:induction false} MeetingNeighbours(moves: seq<Move>) returns (k: nat)
    requires forall a :: 0 <= a < |moves| ==> moves[a].start <= moves[a].cv
    requires forall a, b :: 0 <= a < b < |moves| ==> moves[a].cv < moves[b].cv
    requires !Disjoint(moves)
    ensures k + 1 < |moves| && moves[k + 1].start <= moves[k].cv
  {
    var j, l :| 0 <= j < l < |moves| && moves[j].cv >= moves[l].start;
    k := l - 1;
  }

  function W(text: string, col: int): Token { Token(Word, text, 1, col) }

  function B(col: int): Token { Token(Whitespace, " ", 1, col) }

  const OPEN := Token(LAngle, "<", 1, 2)
  const CLOSE := Token(RAngle, ">", 1, 12)
  const REST := [B(19), W("v", 20), Token(Semicolon, ";", 1, 21), Token(Eof, "", 1, 22)]

  /** The tokens of `V<int const> const v;`, whose outer span holds its inner one. */
  const NESTED := [W("V", 1), OPEN, W("int", 3), B(6), W("const", 7), CLOSE, B(13), W("const", 14),
                   REST[0], REST[1], REST[2], REST[3]]

  /** Letters and the marks of this text are classified as ASCII classifies them. */
  ghost predicate AsciiHere(cls: Classes) {
    && (forall c :: Letter(c) ==> cls.alpha(c) && cls.alnum(c))
    && (forall c :: Mark(c) ==> !cls.alpha(c) && !cls.alnum(c) && !cls.digit(c))
  }

  predicate Letter(c: char) { 'a' <= c <= 't' || c == 'v' || c == 'V' }

  predicate Mark(c: char) { c == ' ' || c == '<' || c == '>' || c == ';' }

  lemma {:induction false} SkipIs(src: string, j: nat, k: nat, p: char -> bool)
    requires j <= k < |src| && (forall x :: j <= x < k ==> p(src[x])) && !p(src[k])
    ensures Skip(src, j, p) == k
    decreases k - j
  {
    if j < k {
      SkipIs(src, j + 1, k, p);
    }
  }

  lemma {:induction false} WordCut(src: string, cls: Classes, i: nat, end: nat)
    requires AsciiHere(cls) && i < end < |src| && Mark(src[end])
    requires forall x :: i <= x < end ==> Letter(src[x])
    ensures CutAt(src, cls, i) == Within(Word, end)
  {
    SkipIs(src, i + 1, end, (x: char) => x == '_' || cls.alnum(x));
    assert Letter(src[i]);
  }

  lemma {:induction false} BlankCutHere(src: string, cls: Classes, i: nat)
    requires i + 1 < |src| && src[i] == ' ' && Letter(src[i + 1])
    ensures CutAt(src, cls, i) == Within(Whitespace, i + 1)
  {
    SkipIs(src, i + 1, i + 1, Blank);
  }

  lemma {:induction false} MarkCut(src: string, cls: Classes, i: nat)
    requires AsciiHere(cls) && i < |src| && Mark(src[i]) && src[i] != ' '
    ensures CutAt(src, cls, i) == Within(SingleKind(src[i]), i + 1)
  {
    assert !RawStart(src, i);
  }

  ghost function From(src: string, cls: Classes, i: nat): seq<Token>
    requires i <= |src|
  {
    CutterSound(src, cls);
    Tokens(src, CutterOf(src, cls), i, 1, 0)
  }

  lemma {:induction false} FromNext(src: string, cls: Classes, i: nat, kind: Kind, end: nat, text: string)
    requires i < end <= |src| && CutAt(src, cls, i) == Within(kind, end) && src[i..end] == text
    ensures From(src, cls, i) == [Token(kind, text, 1, i + 1)] + From(src, cls, end)
  {
    CutterSound(src, cls);
  }

  lemma {:induction false} LetterNext(src: string, cls: Classes, i: nat, c: char)
    requires AsciiHere(cls) && Letter(c) && i + 1 < |src| && src[i] == c && Mark(src[i + 1])
    ensures From(src, cls, i) == [W([c], i + 1)] + From(src, cls, i + 1)
  {
    WordCut(src, cls, i, i + 1);
    FromNext(src, cls, i, Word, i + 1, [c]);
  }

  lemma {:induction false} IntNext(src: string, cls: Classes, i: nat)
    requires AsciiHere(cls) && i + 3 < |src| && Mark(src[i + 3])
    requires src[i] == 'i' && src[i + 1] == 'n' && src[i + 2] == 't'
    ensures From(src, cls, i) == [W("int", i + 1)] + From(src, cls, i + 3)
  {
    WordCut(src, cls, i, i + 3);
    assert src[i..i + 3] == ['i', 'n', 't'];
    FromNext(src, cls, i, Word, i + 3, "int");
  }

  lemma {:induction false} ConstNext(src: string, cls: Classes, i: nat)
    requires AsciiHere(cls) && i + 5 < |src| && Mark(src[i + 5])
    requires src[i] == 'c' && src[i + 1] == 'o' && src[i + 2] == 'n' && src[i + 3] == 's' && src[i + 4] == 't'
    ensures From(src, cls, i) == [W("const", i + 1)] + From(src, cls, i + 5)
  {
    WordCut(src, cls, i, i + 5);
    assert src[i..i + 5] == ['c', 'o', 'n', 's', 't'];
    FromNext(src, cls, i, Word, i + 5, "const");
  }

  lemma {:induction false} BlankNext(src: string, cls: Classes, i: nat)
    requires i + 1 < |src| && src[i] == ' ' && Letter(src[i + 1])
    ensures From(src, cls, i) == [B(i + 1)] + From(src, cls, i + 1)
  {
    BlankCutHere(src, cls, i);
    FromNext(src, cls, i, Whitespace, i + 1, " ");
  }

  lemma {:induction false} MarkNext(src: string, cls: Classes, i: nat, c: char)
    requires AsciiHere(cls) && i < |src| && c == src[i] && Mark(c) && c != ' '
    ensures From(src, cls, i) == [Token(SingleKind(c), [c], 1, i + 1)] + From(src, cls, i + 1)
  {
    MarkCut(src, cls, i);
    FromNext(src, cls, i, SingleKind(c), i + 1, [c]);
  }

  /** The text, character by character. */
  predicate Spelt(src: string) {
    && |src| == 21
    && src[0] == 'V' && src[1] == '<' && src[2] == 'i' && src[3] == 'n' && src[4] == 't' && src[5] == ' ' && src[6] == 'c'
    && src[7] == 'o' && src[8] == 'n' && src[9] == 's' && src[10] == 't' && src[11] == '>' && src[12] == ' ' && src[13] == 'c'
    && src[14] == 'o' && src[15] == 'n' && src[16] == 's' && src[17] == 't' && src[18] == ' ' && src[19] == 'v' && src[20] == ';'
  }

  lemma {:induction false} FirstPair(src: string, cls: Classes)
    requires AsciiHere(cls) && Spelt(src)
    ensures From(src, cls, 0) == [W("V", 1)] + From(src, cls, 1) && From(src, cls, 1) == [OPEN] + From(src, cls, 2)
  {
    LetterNext(src, cls, 0, 'V');
    MarkNext(src, cls, 1, '<');
  }

  lemma {:induction false} SecondPair(src: string, cls: Classes)
    requires AsciiHere(cls) && Spelt(src)
    ensures From(src, cls, 2) == [W("int", 3)] + From(src, cls, 5) && From(src, cls, 5) == [B(6)] + From(src, cls, 6)
  {
    IntNext(src, cls, 2);
    BlankNext(src, cls, 5);
  }

  lemma {:induction false} ThirdPair(src: string, cls: Classes)
    requires AsciiHere(cls) && Spelt(src)
    ensures From(src, cls, 6) == [W("const", 7)] + From(src, cls, 11) && From(src, cls, 11) == [CLOSE] + From(src, cls, 12)
  {
    ConstNext(src, cls, 6);
    MarkNext(src, cls, 11, '>');
  }

  lemma {:induction false} FourthPair(src: string, cls: Classes)
    requires AsciiHere(cls) && Spelt(src)
    ensures From(src, cls, 12) == [B(13)] + From(src, cls, 13) && From(src, cls, 13) == [W("const", 14)] + From(src, cls, 18)
  {
    BlankNext(src, cls, 12);
    ConstNext(src, cls, 13);
  }

  lemma {:induction false} FifthPair(src: string, cls: Classes)
    requires AsciiHere(cls) && Spelt(src)
    ensures From(src, cls, 18) == [B(19)] + From(src, cls, 19) && From(src, cls, 19) == [W("v", 20)] + From(src, cls, 20)
  {
    BlankNext(src, cls, 18);
    LetterNext(src, cls, 19, 'v');
  }

  lemma {:induction false} LastPair(src: string, cls: Classes)
    requires AsciiHere(cls) && Spelt(src)
    ensures From(src, cls, 20) == [REST[2]] + [REST[3]]
  {
    MarkNext(src, cls, 20, ';');
    assert From(src, cls, 21) == [REST[3]];
  }

  lemma {:induction false} Joined(f0: seq<Token>, f2: seq<Token>, f6: seq<Token>, f12: seq<Token>, f18: seq<Token>, f20: seq<Token>)
    requires f0 == [W("V", 1)] + ([OPEN] + f2) && f2 == [W("int", 3)] + ([B(6)] + f6) && f6 == [W("const", 7)] + ([CLOSE] + f12)
    requires f12 == [B(13)] + ([W("const", 14)] + f18) && f18 == [REST[0]] + ([REST[1]] + f20) && f20 == [REST[2]] + [REST[3]]
    ensures f0 == NESTED
  {
  }

  lemma {:induction false} SpeltIsLexed(src: string, cls: Classes)
    requires AsciiHere(cls) && Spelt(src)
    ensures Lexed(src, cls) == NESTED
  {
    FirstPair(src, cls);
    SecondPair(src, cls);
    ThirdPair(src, cls);
    FourthPair(src, cls);
    FifthPair(src, cls);
    LastPair(src, cls);
    Joined(From(src, cls, 0), From(src, cls, 2), From(src, cls, 6), From(src, cls, 12), From(src, cls, 18), From(src, cls, 20));
  }

  /** The lexer makes just these tokens of `V<int const> const v;`. */
  lemma {:induction false} NestedIsLexed(head: string, tail: string, cls: Classes)
    requires AsciiHere(cls) && head == "V<int const" && tail == "> const v;"
    ensures Lexed(head + tail, cls) == NESTED
  {
    HalvesSpelt(head, tail);
    SpeltIsLexed(head + tail, cls);
  }

  lemma {:induction false} HalvesSpelt(head: string, tail: string)
    requires head == "V<int const" && tail == "> const v;"
    ensures Spelt(head + tail)
  {
  }

  lemma {:induction false} NestedStarts()
    ensures MoveAt(NESTED, 4) == Some(Move(4, 2)) && MoveAt(NESTED, 7) == Some(Move(7, 0))
  {
    assert PrevFrom(NESTED, 3) == PrevFrom(NESTED, 2) == 2;
    assert Walk(NESTED, 2, 0) == Walk(NESTED, 1, 0) == 1;
    assert PrevFrom(NESTED, 6) == PrevFrom(NESTED, 5) == 5;
    assert Walk(NESTED, 5, 0) == Walk(NESTED, 4, 1) == Walk(NESTED, 3, 1) == Walk(NESTED, 2, 1);
    assert Walk(NESTED, 2, 1) == Walk(NESTED, 1, 1) == Walk(NESTED, 0, 0) == Walk(NESTED, -1, 0) == -1;
  }

  lemma {:induction false} NestedMoves()
    ensures Moves(NESTED, |NESTED|) == [Move(4, 2), Move(7, 0)]
  {
    NestedStarts();
    assert Moves(NESTED, 4) == Moves(NESTED, 3) == Moves(NESTED, 2) == Moves(NESTED, 1) == Moves(NESTED, 0) == [];
    assert Moves(NESTED, 5) == [Move(4, 2)];
    assert Moves(NESTED, 7) == Moves(NESTED, 6) == Moves(NESTED, 5);
    assert Moves(NESTED, 8) == [Move(4, 2), Move(7, 0)];
    assert Moves(NESTED, 12) == Moves(NESTED, 11) == Moves(NESTED, 10) == Moves(NESTED, 9) == Moves(NESTED, 8);
  }

  const ONCE := [W("const", 14), B(14), W("V", 1), OPEN, W("int", 3), B(6), W("const", 7), CLOSE,
                 REST[0], REST[1], REST[2], REST[3]]
  const TWICE := [W("const", 14), B(14), W("int", 3), B(3), W("V", 1), OPEN, B(6), W("const", 7), CLOSE,
                  REST[0], REST[1], REST[2], REST[3]]

  lemma {:induction false} NestedOnce()
    ensures Applied(NESTED, Move(7, 0)) == ONCE
  {
    AppliedParts(NESTED, Move(7, 0));
    assert Moved(NESTED, Move(7, 0)) == NESTED[..6] == ONCE[2..8];
    assert NESTED[8..] == ONCE[8..];
    assert Inserted(W("const", 14)) == ONCE[..2];
    assert ONCE == [] + (ONCE[..2] + ONCE[2..8] + ONCE[8..]);
  }

  lemma {:induction false} NestedTwice()
    ensures Applied(ONCE, Move(4, 2)) == TWICE
  {
    assert ONCE[3].kind.LAngle? && ONCE[4] == W("int", 3);
    AppliedParts(ONCE, Move(4, 2));
    assert Moved(ONCE, Move(4, 2)) == ONCE[2..4];
    assert ONCE[..2] == TWICE[..2] && Inserted(W("int", 3)) == TWICE[2..4];
    assert ONCE[2..4] == TWICE[4..6] && ONCE[5..] == TWICE[6..];
    assert TWICE == TWICE[..2] + (TWICE[2..4] + TWICE[4..6] + TWICE[6..]);
  }

  lemma {:induction false} NestedApplied()
    ensures Transformed(NESTED) == TWICE
  {
    NestedMoves();
    NestedOnce();
    NestedTwice();
    TwoMoves(NESTED, Move(4, 2), Move(7, 0));
  }

  lemma {:induction false} TwoMoves(tokens: seq<Token>, a: Move, b: Move)
    ensures AppliedAll(tokens, [a, b]) == Applied(Applied(tokens, b), a)
  {
    var moves := [a, b];
    assert AppliedFirst(Applied, tokens, moves, 2) == AppliedFirst(Applied, Applied(tokens, b), moves, 1);
    assert AppliedFirst(Applied, Applied(tokens, b), moves, 1) == AppliedFirst(Applied, Applied(Applied(tokens, b), a), moves, 0);
  }

  /**
   * When spans overlap the second move acts on the wrong token: `V<int const> const v;` comes out with
   * `int` taken out of the template's brackets, so the order of the other tokens is not kept.
   */
  lemma {:induction false} OverlapMovesWrongToken()
    ensures !Disjoint(Moves(NESTED, |NESTED|))
    ensures Others(Transformed(NESTED)) != Others(NESTED)
  {
    NestedMoves();
    NestedApplied();
    assert NESTED[0] == W("V", 1);
    assert Others(NESTED)[0] == W("V", 1);
    assert TWICE[1..] == [B(14)] + TWICE[2..];
    OthersConcat(TWICE[..2], TWICE[2..]);
    assert TWICE == TWICE[..2] + TWICE[2..];
    assert TWICE[..2] == [W("const", 14)] + [B(14)];
    OthersConcat([W("const", 14)], [B(14)]);
    OneOther(W("const", 14));
    OneOther(B(14));
    assert Others(TWICE[2..])[0] == W("int", 3);
  }
}
