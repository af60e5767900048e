/** Blanking the inside of C++ comments and literals before the coding standards are checked line by line. */
module CommentStripping {

  datatype Mode = Code | Block | Line | Quoted(quote: char)

  predicate OpensBlock(text: string) { |text| >= 2 && text[0] == '/' && text[1] == '*' }

  predicate OpensLine(text: string) { |text| >= 2 && text[0] == '/' && text[1] == '/' }

  predicate ClosesBlock(text: string) { |text| >= 2 && text[0] == '*' && text[1] == '/' }

  predicate IsQuote(c: char) { c == '"' || c == '\'' }

  predicate Escapes(text: string) { |text| >= 2 && text[0] == '\\' }

  /** The text blanked from here on, read in the given mode. */
  function Blanked(text: string, mode: Mode): (out: string)
    ensures |out| == |text|
    decreases |text|, if mode.Code? then 0 else 1
  {
    if text == "" then ""
    else
      match mode
      case Code =>
        if OpensBlock(text) then "/*" + Blanked(text[2..], Block)
        else if OpensLine(text) then "//" + Blanked(text[2..], Line)
        else [text[0]] + Blanked(text[1..], if IsQuote(text[0]) then Quoted(text[0]) else Code)
      case Block =>
        if ClosesBlock(text) then "*/" + Blanked(text[2..], Code)
        else [if text[0] == '\n' then '\n' else ' '] + Blanked(text[1..], Block)
      case Line =>
        if text[0] == '\n' then Blanked(text, Code) else " " + Blanked(text[1..], Line)
      case Quoted(quote) =>
        if text[0] == '\n' then Blanked(text, Code)
        else if text[0] == quote then [quote] + Blanked(text[1..], Code)
        else if Escapes(text) then "  " + Blanked(text[2..], mode)
        else " " + Blanked(text[1..], mode)
  }

  // ---- The scan --------------------------------------------------------------------------------

  /** What is out so far, followed by the rest blanked. */
  ghost predicate Ahead(text: string, i: nat, mode: Mode, out: string) {
    i <= |text| && out + Blanked(text[i..], mode) == Blanked(text, Code)
  }

  lemma {:induction false} AheadBy(text: string, i: nat, mode: Mode, out: string, piece: string, j: nat, next: Mode)
    requires Ahead(text, i, mode, out) && i <= j <= |text|
    requires Blanked(text[i..], mode) == piece + Blanked(text[j..], next)
    ensures Ahead(text, j, next, out + piece)
  {
    assert out + (piece + Blanked(text[j..], next)) == out + piece + Blanked(text[j..], next);
  }

  lemma {:induction false} AheadInBlock(text: string, i: nat, out: string)
    requires Ahead(text, i, Block, out) && i < |text| && !ClosesBlock(text[i..])
    ensures Ahead(text, i + 1, Block, out + if text[i] == '\n' then "\n" else " ")
  {
    assert text[i..][1..] == text[i + 1..];
    AheadBy(text, i, Block, out, if text[i] == '\n' then "\n" else " ", i + 1, Block);
  }

  lemma {:induction false} AheadInLiteral(text: string, i: nat, out: string, quote: char)
    requires Ahead(text, i, Quoted(quote), out) && i < |text| && text[i] != quote && text[i] != '\n'
    ensures var n := if text[i] == '\\' && i + 1 < |text| then 2 else 1;
      Ahead(text, i + n, Quoted(quote), out + if n == 2 then "  " else " ")
  {
    if text[i] == '\\' && i + 1 < |text| {
      assert text[i..][2..] == text[i + 2..];
      AheadBy(text, i, Quoted(quote), out, "  ", i + 2, Quoted(quote));
    } else {
      assert text[i..][1..] == text[i + 1..];
      AheadBy(text, i, Quoted(quote), out, " ", i + 1, Quoted(quote));
    }
  }

  lemma {:induction false} LiteralEnds(text: string, i: nat, out: string, quote: char)
    requires Ahead(text, i, Quoted(quote), out) && quote != '\n' && (i == |text| || text[i] == quote || text[i] == '\n')
    ensures if i < |text| && text[i] == quote then Ahead(text, i + 1, Code, out + [quote]) else Ahead(text, i, Code, out)
  {
    if i < |text| && text[i] == quote {
      assert text[i..][1..] == text[i + 1..];
      AheadBy(text, i, Quoted(quote), out, [quote], i + 1, Code);
    } else {
      assert Blanked(text[i..], Quoted(quote)) == Blanked(text[i..], Code);
    }
  }

  method BlankBlock(text: string, start: nat, before: string) returns (i: nat, out: string)
    requires Ahead(text, start, Block, before)
    ensures start <= i && Ahead(text, i, Code, out)
  {
    i, out := start, before;
    while i < |text| && !(i + 2 <= |text| && text[i..i + 2] == "*/")
      invariant start <= i <= |text| && Ahead(text, i, Block, out)
    {
      assert !ClosesBlock(text[i..]) by {
        assert i + 2 <= |text| ==> text[i..i + 2] == [text[i], text[i + 1]];
      }
      AheadInBlock(text, i, out);
      var c := if text[i] != '\n' then " " else "\n";
      out := out + c;
      i := i + 1;
    }
    if i < |text| {
      assert text[i..i + 2][0] == text[i] && text[i..i + 2][1] == text[i + 1];
      assert text[i..][2..] == text[i + 2..];
      AheadBy(text, i, Block, out, "*/", i + 2, Code);
      out := out + "*/";
      i := i + 2;
    }
  }

  method BlankLine(text: string, start: nat, before: string) returns (i: nat, out: string)
    requires Ahead(text, start, Line, before)
    ensures start <= i && Ahead(text, i, Code, out)
  {
    i, out := start, before;
    while i < |text| && text[i] != '\n'
      invariant start <= i <= |text| && Ahead(text, i, Line, out)
    {
      assert text[i..][1..] == text[i + 1..];
      AheadBy(text, i, Line, out, " ", i + 1, Line);
      out := out + " ";
      i := i + 1;
    }
  }

  method BlankLiteral(text: string, start: nat, before: string, quote: char) returns (i: nat, out: string)
    requires Ahead(text, start, Quoted(quote), before) && quote != '\n'
    ensures start <= i && Ahead(text, i, Code, out)
  {
    i, out := start, before;
    while i < |text| && text[i] != quote && text[i] != '\n'
      invariant start <= i <= |text| && Ahead(text, i, Quoted(quote), out)
    {
      AheadInLiteral(text, i, out, quote);
      if text[i] == '\\' && i + 1 < |text| {
        out := out + "  ";
        i := i + 2;
      } else {
        out := out + " ";
        i := i + 1;
      }
    }
    LiteralEnds(text, i, out, quote);
    if i < |text| && text[i] == quote {
      out := out + [quote];
      i := i + 1;
    }
  }

  method StripCommentsAndStrings(text: string) returns (out: string)
    ensures out == Blanked(text, Code)
  {
    out := "";
    var i := 0;
    assert text[0..] == text;
    while i < |text|
      invariant i <= |text| && Ahead(text, i, Code, out)
    {
      assert i + 2 <= |text| ==> text[i..i + 2] == [text[i], text[i + 1]] && text[i..][2..] == text[i + 2..];
      assert text[i..][1..] == text[i + 1..];
      if i + 2 <= |text| && text[i..i + 2] == "/*" {
        AheadBy(text, i, Code, out, "/*", i + 2, Block);
        i, out := BlankBlock(text, i + 2, out + "/*");
      } else if i + 2 <= |text| && text[i..i + 2] == "//" {
        AheadBy(text, i, Code, out, "//", i + 2, Line);
        i, out := BlankLine(text, i + 2, out + "//");
      } else if text[i] == '"' || text[i] == '\'' {
        var quote := text[i];
        AheadBy(text, i, Code, out, [quote], i + 1, Quoted(quote));
        i, out := BlankLiteral(text, i + 1, out + [quote], quote);
      } else {
        AheadBy(text, i, Code, out, [text[i]], i + 1, Code);
        out := out + [text[i]];
        i := i + 1;
      }
    }
    assert text[i..] == "";
  }

  // ---- What is kept ----------------------------------------------------------------------------

  /** How many characters the first step of the scan takes: none when a line's end closes the mode. */
  function Consumed(text: string, mode: Mode): (n: nat)
    requires text != ""
    ensures n <= |text|
  {
    match mode
    case Code => if OpensBlock(text) || OpensLine(text) then 2 else 1
    case Block => if ClosesBlock(text) then 2 else 1
    case Line => if text[0] == '\n' then 0 else 1
    case Quoted(quote) => if text[0] == '\n' then 0 else if text[0] != quote && Escapes(text) then 2 else 1
  }

  function After(text: string, mode: Mode): Mode
    requires text != ""
  {
    match mode
    case Code => if OpensBlock(text) then Block else if OpensLine(text) then Line
                 else if IsQuote(text[0]) then Quoted(text[0]) else Code
    case Block => if ClosesBlock(text) then Code else Block
    case Line => if text[0] == '\n' then Code else Line
    case Quoted(quote) => if text[0] == '\n' || text[0] == quote then Code else mode
  }

  /** The characters the first step takes lie inside a comment or a literal, and are not what closes it. */
  predicate Inside(text: string, mode: Mode)
    requires text != ""
  {
    match mode
    case Code => false
    case Block => !ClosesBlock(text)
    case Line => true
    case Quoted(quote) => text[0] != quote
  }

  /** The mode in which the scan takes position `k`, when it lies inside a comment or a literal; code otherwise. */
  function Interior(text: string, mode: Mode, k: nat): Mode
    requires k < |text|
    decreases |text|, if mode.Code? then 0 else 1
  {
    var n := Consumed(text, mode);
    if n == 0 then Interior(text, Code, k)
    else if k < n then if Inside(text, mode) then mode else Code
    else Interior(text[n..], After(text, mode), k - n)
  }

  /**
   * What lies outside comments and literals, and what opens and closes them, is kept; what lies inside is
   * blanked, except that a block comment keeps its line ends.
   */
  lemma {:induction false} BlankedExactlyInside(text: string, mode: Mode, k: nat)
    requires k < |text|
    ensures Blanked(text, mode)[k] ==
      match Interior(text, mode, k)
      case Code => text[k]
      case Block => if text[k] == '\n' then '\n' else ' '
      case _ => ' '
    decreases |text|, if mode.Code? then 0 else 1
  {
    var n := Consumed(text, mode);
    if n == 0 {
      BlankedExactlyInside(text, Code, k);
    } else if k < n {
      FirstStepBlanks(text, mode, k);
    } else {
      FirstStepLeaves(text, mode);
      BlankedExactlyInside(text[n..], After(text, mode), k - n);
    }
  }

  lemma {:induction false} FirstStepLeaves(text: string, mode: Mode)
    requires text != "" && Consumed(text, mode) > 0
    ensures Blanked(text, mode)[Consumed(text, mode)..] == Blanked(text[Consumed(text, mode)..], After(text, mode))
  {
  }

  lemma {:induction false} FirstStepBlanks(text: string, mode: Mode, k: nat)
    requires text != "" && k < Consumed(text, mode)
    ensures Blanked(text, mode)[k] ==
      if !Inside(text, mode) then text[k] else if mode.Block? && text[k] == '\n' then '\n' else ' '
  {
  }

  // ---- Blanking again --------------------------------------------------------------------------

  /** What is blanked stays as it is when blanked again. */
  lemma {:induction false} Idempotent(text: string, mode: Mode)
    requires mode.Quoted? ==> IsQuote(mode.quote)
    ensures Blanked(Blanked(text, mode), mode) == Blanked(text, mode)
    decreases |text|, if mode.Code? then 0 else 1
  {
    if text != "" {
      var out := Blanked(text, mode);
      var n := Consumed(text, mode);
      if n == 0 {
        Idempotent(text, Code);
        assert out[0] == '\n';
      } else {
        var rest := Blanked(text[n..], After(text, mode));
        Idempotent(text[n..], After(text, mode));
        assert out[n..] == rest;
        if mode.Code? && n == 1 {
          FirstKept(text[1..]);
        }
        if mode.Quoted? && n == 2 {
          assert out[1..][1..] == rest;
        }
      }
    }
  }

  /** In code the first character is always kept. */
  lemma {:induction false} FirstKept(text: string)
    ensures text != "" ==> Blanked(text, Code)[0] == text[0]
  {
  }

  // ---- Line numbers ----------------------------------------------------------------------------

  /** The two texts break their lines at the same places. */
  ghost predicate SameLines(a: string, b: string) {
    |a| == |b| && forall k :: 0 <= k < |a| ==> (a[k] == '\n' <==> b[k] == '\n')
  }

  /** Somewhere a literal is continued over a line's end by a backslash. */
  predicate ContinuesLiteral(text: string, mode: Mode)
    decreases |text|, if mode.Code? then 0 else 1
  {
    text != "" &&
    var n := Consumed(text, mode);
    if n == 0 then ContinuesLiteral(text, Code)
    else (mode.Quoted? && n == 2 && text[1] == '\n') || ContinuesLiteral(text[n..], After(text, mode))
  }

  lemma {:induction false} SameLinesApart(a: string, b: string, n: nat)
    requires |a| == |b| && n <= |a|
    ensures SameLines(a, b) <==> SameLines(a[..n], b[..n]) && SameLines(a[n..], b[n..])
  {
    if SameLines(a[..n], b[..n]) && SameLines(a[n..], b[n..]) {
      forall k | 0 <= k < |a| ensures a[k] == '\n' <==> b[k] == '\n' {
        if k < n {
          assert a[..n][k] == a[k] && b[..n][k] == b[k];
        } else {
          assert a[n..][k - n] == a[k] && b[n..][k - n] == b[k];
        }
      }
    }
    if SameLines(a, b) {
      assert forall k :: 0 <= k < |a| - n ==> a[n..][k] == a[k + n] && b[n..][k] == b[k + n];
    }
  }

  /** The first step keeps its line ends unless it is an escape over one. */
  lemma {:induction false} FirstStepLines(text: string, mode: Mode)
    requires text != "" && Consumed(text, mode) > 0 && (mode.Quoted? ==> IsQuote(mode.quote))
    ensures var n := Consumed(text, mode);
      && Blanked(text, mode)[n..] == Blanked(text[n..], After(text, mode))
      && (SameLines(text[..n], Blanked(text, mode)[..n]) <==> !(mode.Quoted? && n == 2 && text[1] == '\n'))
  {
    var n, out := Consumed(text, mode), Blanked(text, mode);
    assert forall k :: 0 <= k < n ==> text[..n][k] == text[k] && out[..n][k] == out[k];
    if n == 2 {
      assert text[..2] == [text[0], text[1]] && out[..2] == [out[0], out[1]];
    } else {
      assert text[..1] == [text[0]] && out[..1] == [out[0]];
    }
  }

  /** Lines keep their numbers exactly when no literal is continued over a line's end by a backslash. */
  lemma {:induction false} LinesKeptExactlyWhen(text: string, mode: Mode)
    requires mode.Quoted? ==> IsQuote(mode.quote)
    ensures SameLines(text, Blanked(text, mode)) <==> !ContinuesLiteral(text, mode)
    decreases |text|, if mode.Code? then 0 else 1
  {
    if text != "" {
      var n := Consumed(text, mode);
      if n == 0 {
        LinesKeptExactlyWhen(text, Code);
      } else {
        FirstStepLines(text, mode);
        SameLinesApart(text, Blanked(text, mode), n);
        LinesKeptExactlyWhen(text[n..], After(text, mode));
      }
    }
  }

  predicate BackslashEndsLine(text: string, k: nat)
    requires k < |text|
  {
    text[k] == '\\' && k + 1 < |text| && text[k + 1] == '\n'
  }

  /** A text without a backslash before a line's end keeps its lines, whatever else it holds. */
  lemma {:induction false} NoContinuation(text: string, mode: Mode)
    requires forall k :: 0 <= k < |text| ==> !BackslashEndsLine(text, k)
    ensures !ContinuesLiteral(text, mode)
    decreases |text|, if mode.Code? then 0 else 1
  {
    if text != "" {
      var n := Consumed(text, mode);
      if n == 0 {
        NoContinuation(text, Code);
      } else {
        forall k | 0 <= k < |text[n..]| ensures !BackslashEndsLine(text[n..], k) {
          assert !BackslashEndsLine(text, n + k);
        }
        assert !BackslashEndsLine(text, 0);
        NoContinuation(text[n..], After(text, mode));
      }
    }
  }

  /** A continued literal loses its line's end: the lines after it are counted one short. */
  lemma {:induction false} ContinuedLiteralLosesLine()
    ensures Blanked("\"a\\\nb\"", Code) == "\"    \""
  {
    var text := "\"a\\\nb\"";
    assert text[1..] == "a\\\nb\"" && text[1..][1..] == "\\\nb\"" && text[1..][1..][2..] == "b\"" && "b\""[1..] == "\"";
    assert Blanked("\"", Quoted('"')) == "\"" + Blanked("", Code);
    assert Blanked("b\"", Quoted('"')) == " \"";
    assert Blanked("\\\nb\"", Quoted('"')) == "   \"";
    assert Blanked("a\\\nb\"", Quoted('"')) == "    \"";
  }
}
