/** Kernel CPU-list strings such as "0-3,8": printing a list of CPU ids and reading one back. */
module CpuList {
  import opened Options
  import opened Sequences
  import opened Text

  // ---- Reading ---------------------------------------------------------------------------------

  /** The ids from `a` to `b`, both included. */
  function Span(a: int, b: int): (s: seq<int>)
    ensures |s| == if a <= b then b - a + 1 else 0
    ensures forall k :: 0 <= k < |s| ==> s[k] == a + k
    decreases b - a
  {
    if a > b then [] else [a] + Span(a + 1, b)
  }

  function TokenCpus(raw: string): Option<seq<int>> {
    var token := Strip(raw);
    var dash := Find(token, '-');
    if token == [] then Some([])
    else if dash == |token| then
      match ParseInt(token) case None => None case Some(n) => Some([n])
    else
      match (ParseInt(token[..dash]), ParseInt(token[dash + 1..]))
      case (Some(a), Some(b)) => Some(Span(a, b))
      case _ => None
  }

  function Prepended(first: seq<int>, rest: Option<seq<int>>): Option<seq<int>> {
    match rest case None => None case Some(cpus) => Some(first + cpus)
  }

  function TokensCpus(tokens: seq<string>): Option<seq<int>> {
    if tokens == [] then Some([])
    else
      match TokenCpus(tokens[0])
      case None => None
      case Some(first) => Prepended(first, TokensCpus(tokens[1..]))
  }

  lemma {:induction false} PrependedNothing(rest: Option<seq<int>>)
    ensures Prepended([], rest) == rest
  {
    if rest.Some? {
      assert [] + rest.value == rest.value;
    }
  }

  lemma {:induction false} PrependedTwice(a: seq<int>, b: Option<seq<int>>, rest: Option<seq<int>>)
    requires b.Some?
    ensures Prepended(a, Prepended(b.value, rest)) == Prepended(a + b.value, rest)
  {
    if rest.Some? {
      assert a + (b.value + rest.value) == a + b.value + rest.value;
    }
  }

  function Parse(text: string): Option<seq<int>> {
    TokensCpus(Split(Strip(text), ','))
  }

  /** Reads a CPU list token by token; `None` stands for the ValueError a malformed token raises. */
  method ParseCpuList(text: string) returns (result: Option<seq<int>>)
    ensures result == Parse(text)
  {
    var tokens := Split(Strip(text), ',');
    var cpus: seq<int> := [];
    ghost var whole := TokensCpus(tokens);
    assert tokens[0..] == tokens;
    PrependedNothing(whole);
    for k := 0 to |tokens|
      invariant whole == Prepended(cpus, TokensCpus(tokens[k..]))
    {
      TokenTaken(whole, cpus, tokens, k);
      var token := ReadToken(tokens[k]);
      if token.None? {
        return None;
      }
      cpus := cpus + token.value;
    }
    assert tokens[|tokens|..] == [] && cpus + [] == cpus;
    return Some(cpus);
  }

  lemma {:induction false} TokenTaken(whole: Option<seq<int>>, cpus: seq<int>, tokens: seq<string>, k: nat)
    requires k < |tokens| && whole == Prepended(cpus, TokensCpus(tokens[k..]))
    ensures var t := TokenCpus(tokens[k]);
      whole == if t.None? then None else Prepended(cpus + t.value, TokensCpus(tokens[k + 1..]))
  {
    assert tokens[k..][0] == tokens[k] && tokens[k..][1..] == tokens[k + 1..];
    if TokenCpus(tokens[k]).Some? {
      PrependedTwice(cpus, TokenCpus(tokens[k]), TokensCpus(tokens[k + 1..]));
    }
  }

  /** One token: nothing, one CPU, or a range. */
  method ReadToken(text: string) returns (cpus: Option<seq<int>>)
    ensures cpus == TokenCpus(text)
  {
    var token := Strip(text);
    if token == [] {
      return Some([]);
    }
    var dash := Find(token, '-');
    if dash < |token| {
      var start, end := ParseInt(token[..dash]), ParseInt(token[dash + 1..]);
      if start.None? || end.None? {
        return None;
      }
      return Some(Span(start.value, end.value));
    }
    var cpu := ParseInt(token);
    return if cpu.None? then None else Some([cpu.value]);
  }

  // ---- Printing --------------------------------------------------------------------------------

  predicate Leq(a: int, b: int) { a <= b }

  function Sorted(cores: seq<int>): seq<int> {
    Sort(cores, Leq)
  }

  datatype Range = Range(first: int, last: int)

  /** Runs of consecutive ids, as the printer collects them. */
  function Extended(ranges: seq<Range>, cpu: int): (r: seq<Range>)
    ensures r != []
  {
    if ranges != [] && cpu == ranges[|ranges| - 1].last + 1 then
      ranges[..|ranges| - 1] + [Range(ranges[|ranges| - 1].first, cpu)]
    else
      ranges + [Range(cpu, cpu)]
  }

  function Ranges(ordered: seq<int>): (r: seq<Range>)
    ensures ordered != [] ==> r != []
  {
    if ordered == [] then [] else Extended(Ranges(ordered[..|ordered| - 1]), ordered[|ordered| - 1])
  }

  function RangeText(r: Range): string {
    if r.first == r.last then ToText(r.first) else ToText(r.first) + "-" + ToText(r.last)
  }

  function Texts(ranges: seq<Range>): (t: seq<string>)
    ensures |t| == |ranges| && forall k :: 0 <= k < |t| ==> t[k] == RangeText(ranges[k])
  {
    seq(|ranges|, k requires 0 <= k < |ranges| => RangeText(ranges[k]))
  }

  function Format(cores: seq<int>): string {
    Join(Texts(Ranges(Sorted(cores))), ',')
  }

  method CollectTexts(ordered: seq<int>) returns (texts: seq<string>)
    requires ordered != []
    ensures texts == Texts(Ranges(ordered))
  {
    texts := [];
    var start, previous := ordered[0], ordered[0];
    assert ordered[..1][..0] == [];
    for k := 1 to |ordered|
      invariant Collected(ordered[..k], start, previous, texts)
    {
      assert ordered[..k + 1] == ordered[..k] + [ordered[k]];
      CollectedStep(ordered[..k], start, previous, texts, ordered[k]);
      if ordered[k] == previous + 1 {
        previous := ordered[k];
        continue;
      }
      texts := texts + [RangeText(Range(start, previous))];
      start, previous := ordered[k], ordered[k];
    }
    assert ordered[..|ordered|] == ordered;
    CollectedAll(ordered, start, previous, texts);
    texts := texts + [RangeText(Range(start, previous))];
  }

  method FormatCpuList(cores: seq<int>) returns (text: string)
    ensures text == Format(cores)
  {
    if cores == [] {
      return "";
    }
    var ordered := Sorted(cores);
    SortedLength(cores);
    var texts := CollectTexts(ordered);
    text := Join(texts, ',');
  }

  lemma {:induction false} SortedLength(cores: seq<int>)
    ensures |Sorted(cores)| == |cores|
  {
    SortSorts(cores, Leq);
    assert |multiset(Sorted(cores))| == |multiset(cores)|;
  }

  /** The printer's state: the run being collected, and the text of those already closed. */
  ghost predicate Collected(done: seq<int>, start: int, previous: int, texts: seq<string>) {
    var ranges := Ranges(done);
    && ranges != []
    && ranges[|ranges| - 1] == Range(start, previous)
    && texts == Texts(ranges[..|ranges| - 1])
  }

  lemma {:induction false} CollectedStep(done: seq<int>, start: int, previous: int, texts: seq<string>, cpu: int)
    requires Collected(done, start, previous, texts)
    ensures if cpu == previous + 1 then Collected(done + [cpu], start, cpu, texts)
            else Collected(done + [cpu], cpu, cpu, texts + [RangeText(Range(start, previous))])
  {
    var before, after := Ranges(done), Ranges(done + [cpu]);
    var m := |before| - 1;
    assert (done + [cpu])[..|done|] == done;
    assert after == Extended(before, cpu);
    if cpu == previous + 1 {
      assert after[..|after| - 1] == before[..m];
    } else {
      assert after[..|after| - 1] == before;
      assert before == before[..m] + [Range(start, previous)];
    }
  }

  lemma {:induction false} CollectedAll(done: seq<int>, start: int, previous: int, texts: seq<string>)
    requires Collected(done, start, previous, texts)
    ensures texts + [RangeText(Range(start, previous))] == Texts(Ranges(done))
  {
  }

  // ---- Reading back what was printed -----------------------------------------------------------

  lemma {:induction false} SingleRead(n: nat)
    ensures TokenCpus(Decimal(n)) == Some([n])
  {
    var text := Decimal(n);
    StripNothing(text);
    FindAbsent(text, '-');
    ParseDecimal(n);
  }

  lemma {:induction false} DashedRead(a: nat, b: nat)
    ensures TokenCpus(Decimal(a) + "-" + Decimal(b)) == Some(Span(a, b))
  {
    var x, y := Decimal(a), Decimal(b);
    var text := x + ['-'] + y;
    StripNothing(text);
    FindAppended(x, '-', y);
    assert text[..|x|] == x && text[|x| + 1..] == y;
    ParseDecimal(a);
    ParseDecimal(b);
    DashedToken(text, |x|, x, y, a, b);
  }

  lemma {:induction false} DashedToken(text: string, dash: nat, x: string, y: string, a: nat, b: nat)
    requires Strip(text) == text && dash < |text| && Find(text, '-') == dash && text[..dash] == x && text[dash + 1..] == y
    requires ParseInt(x) == Some(a) && ParseInt(y) == Some(b)
    ensures TokenCpus(text) == Some(Span(a, b))
  {
  }

  lemma {:induction false} RangeTextPlain(r: Range)
    requires 0 <= r.first <= r.last
    ensures ',' !in RangeText(r) && NoSpaces(RangeText(r))
  {
  }

  lemma {:induction false} RangeTextRead(r: Range)
    requires 0 <= r.first <= r.last
    ensures TokenCpus(RangeText(r)) == Some(Span(r.first, r.last))
  {
    if r.first == r.last {
      SingleRead(r.first);
      assert Span(r.first, r.last) == [r.first];
    } else {
      DashedRead(r.first, r.last);
    }
  }

  lemma {:induction false} JoinHasNoSpaces(parts: seq<string>)
    requires forall p :: p in parts ==> NoSpaces(p)
    ensures NoSpaces(Join(parts, ','))
  {
    if |parts| > 1 {
      JoinHasNoSpaces(parts[1..]);
      assert parts[0] in parts && NoSpaces(parts[0]) && NoSpaces([',']);
    } else if |parts| == 1 {
      assert parts[0] in parts;
    }
  }

  /** The ids of the first `k` runs, one after another. */
  function Covered(ranges: seq<Range>, k: nat): seq<int>
    requires k <= |ranges|
  {
    if k == 0 then [] else Covered(ranges, k - 1) + Span(ranges[k - 1].first, ranges[k - 1].last)
  }

  lemma {:induction false} CoveredAgree(a: seq<Range>, b: seq<Range>, k: nat)
    requires k <= |a| && k <= |b| && forall j :: 0 <= j < k ==> a[j] == b[j]
    ensures Covered(a, k) == Covered(b, k)
  {
    if k > 0 {
      CoveredAgree(a, b, k - 1);
    }
  }

  lemma {:induction false} SpanExtended(a: int, b: int)
    requires a <= b + 1
    ensures Span(a, b + 1) == Span(a, b) + [b + 1]
  {
  }

  /** One more id is one more covered. */
  lemma {:induction false} ExtendedCovers(ranges: seq<Range>, cpu: int)
    requires ranges != [] ==> ranges[|ranges| - 1].first <= ranges[|ranges| - 1].last
    ensures Covered(Extended(ranges, cpu), |Extended(ranges, cpu)|) == Covered(ranges, |ranges|) + [cpu]
  {
    var all, n := Extended(ranges, cpu), |ranges|;
    if ranges != [] && cpu == ranges[n - 1].last + 1 {
      CoveredAgree(all, ranges, n - 1);
      SpanExtended(ranges[n - 1].first, ranges[n - 1].last);
      Glued(Covered(ranges, n - 1), Span(ranges[n - 1].first, ranges[n - 1].last), [cpu], Covered(ranges, n),
            Span(ranges[n - 1].first, cpu), Covered(all, n));
    } else {
      CoveredAgree(all, ranges, n);
      SpanExtended(cpu, cpu - 1);
      Glued(Covered(ranges, n), [], [cpu], Covered(ranges, n), Span(cpu, cpu), Covered(all, n + 1));
    }
  }

  /** Each run is not empty and begins with an id given; the last ends with the last id. */
  ghost predicate RunsOf(ranges: seq<Range>, ordered: seq<int>) {
    && (forall r :: r in ranges ==> r.first <= r.last && r.first in ordered)
    && (ordered != [] ==> ranges != [] && ranges[|ranges| - 1].last == ordered[|ordered| - 1])
  }

  /** The runs collected cover exactly the ids given, in order. */
  lemma {:induction false} RangesCover(ordered: seq<int>)
    ensures Covered(Ranges(ordered), |Ranges(ordered)|) == ordered
    ensures RunsOf(Ranges(ordered), ordered)
  {
    if ordered != [] {
      var n := |ordered| - 1;
      RangesCover(ordered[..n]);
      SplitLast(ordered);
      OneMoreCovered(Ranges(ordered[..n]), ordered[..n], ordered[n], ordered);
    }
  }

  lemma {:induction false} OneMoreCovered(ranges: seq<Range>, done: seq<int>, cpu: int, all: seq<int>)
    requires Covered(ranges, |ranges|) == done && RunsOf(ranges, done) && all == done + [cpu]
    ensures Covered(Extended(ranges, cpu), |Extended(ranges, cpu)|) == all && RunsOf(Extended(ranges, cpu), all)
  {
    if ranges != [] {
      assert ranges[|ranges| - 1] in ranges;
    }
    ExtendedCovers(ranges, cpu);
    ExtendedRuns(ranges, done, cpu);
  }

  lemma {:induction false} ExtendedRuns(ranges: seq<Range>, done: seq<int>, cpu: int)
    requires forall r :: r in ranges ==> r.first <= r.last && r.first in done
    ensures forall r :: r in Extended(ranges, cpu) ==> r.first <= r.last && r.first in done + [cpu]
    ensures Extended(ranges, cpu)[|Extended(ranges, cpu)| - 1].last == cpu
  {
    var all := Extended(ranges, cpu);
    forall r | r in all ensures r.first <= r.last && r.first in done + [cpu] {
      var k :| 0 <= k < |all| && all[k] == r;
      assert ranges != [] ==> ranges[|ranges| - 1] in ranges;
      assert k < |all| - 1 ==> all[k] == ranges[k] && ranges[k] in ranges;
    }
  }

  lemma {:induction false} OneToken(token: string)
    requires TokenCpus(token).Some?
    ensures TokensCpus([token]) == TokenCpus(token)
  {
    var first := TokenCpus(token).value;
    assert [token][1..] == [];
    assert first + [] == first;
    assert TokensCpus([]) == Some([]);
  }

  lemma {:induction false} TokensConcat(a: seq<string>, b: seq<string>)
    requires TokensCpus(a).Some? && TokensCpus(b).Some?
    ensures TokensCpus(a + b) == Some(TokensCpus(a).value + TokensCpus(b).value)
  {
    if a == [] {
      assert a + b == b;
      PrependedNothing(TokensCpus(b));
    } else {
      assert (a + b)[1..] == a[1..] + b;
      TokensConcat(a[1..], b);
      PrependedTwice(TokenCpus(a[0]).value, TokensCpus(a[1..]), TokensCpus(b));
    }
  }

  lemma {:induction false} OneMoreRead(before: seq<string>, last: string, all: seq<string>)
    requires all == before + [last] && TokensCpus(before).Some? && TokenCpus(last).Some?
    ensures TokensCpus(all) == Some(TokensCpus(before).value + TokenCpus(last).value)
  {
    OneToken(last);
    TokensConcat(before, [last]);
  }

  lemma {:induction false} TextsRead(ranges: seq<Range>, k: nat, texts: seq<string>)
    requires k == |texts| <= |ranges| && forall j :: 0 <= j < k ==> 0 <= ranges[j].first <= ranges[j].last
    requires forall j :: 0 <= j < k ==> texts[j] == RangeText(ranges[j])
    ensures TokensCpus(texts) == Some(Covered(ranges, k))
  {
    if k > 0 {
      TextsRead(ranges, k - 1, texts[..k - 1]);
      RangeTextRead(ranges[k - 1]);
      SplitLast(texts);
      OneMoreRead(texts[..k - 1], texts[k - 1], texts);
    }
  }

  /** Reading a printed list gives back the ids in ascending order, repeats included. */
  lemma {:induction false} ParseFormat(cores: seq<int>)
    requires forall k :: 0 <= k < |cores| ==> 0 <= cores[k]
    ensures Parse(Format(cores)) == Some(Sorted(cores))
  {
    SortedStaysPlain(cores);
    OrderedReadBack(Sorted(cores));
  }

  lemma {:induction false} SortedStaysPlain(cores: seq<int>)
    requires forall k :: 0 <= k < |cores| ==> 0 <= cores[k]
    ensures forall c :: c in Sorted(cores) ==> 0 <= c
  {
    SortSorts(cores, Leq);
    forall c | c in Sorted(cores) ensures 0 <= c {
      assert c in multiset(Sorted(cores)) && c in multiset(cores);
      assert c in cores;
    }
  }

  lemma {:induction false} OrderedReadBack(ordered: seq<int>)
    requires forall c :: c in ordered ==> 0 <= c
    ensures Parse(Join(Texts(Ranges(ordered)), ',')) == Some(ordered)
  {
    RangesCover(ordered);
    var ranges := Ranges(ordered);
    if ordered == [] {
      NothingRead();
    } else {
      assert forall k :: 0 <= k < |ranges| ==> ranges[k] in ranges;
      RunsRead(ranges);
    }
  }

  lemma {:induction false} NothingRead()
    ensures Parse(Join(Texts([]), ',')) == Some([])
  {
    assert Texts([]) == [] && Strip("") == "" && Split("", ',') == [""];
    OneToken("");
  }

  /** Runs of ids that are not negative read back as what they cover. */
  lemma {:induction false} RunsRead(ranges: seq<Range>)
    requires ranges != [] && forall k :: 0 <= k < |ranges| ==> 0 <= ranges[k].first <= ranges[k].last
    ensures Parse(Join(Texts(ranges), ',')) == Some(Covered(ranges, |ranges|))
  {
    var texts := Texts(ranges);
    forall t | t in texts ensures ',' !in t && NoSpaces(t) {
      var k :| 0 <= k < |texts| && texts[k] == t;
      RangeTextPlain(ranges[k]);
    }
    JoinHasNoSpaces(texts);
    StripNothing(Join(texts, ','));
    SplitJoin(texts, ',');
    TextsRead(ranges, |ranges|, texts);
  }

  /** With distinct ids the runs printed are maximal: between two of them at least one id is missing. */
  lemma {:induction false} RangesMaximal(ordered: seq<int>)
    requires forall i, j :: 0 <= i < j < |ordered| ==> ordered[i] < ordered[j]
    ensures Apart(Ranges(ordered))
  {
    if ordered != [] {
      var n := |ordered| - 1;
      RangesMaximal(ordered[..n]);
      RangesCover(ordered[..n]);
      ExtendedApart(Ranges(ordered[..n]), ordered[n]);
    }
  }

  ghost predicate Apart(ranges: seq<Range>) {
    forall k :: 0 < k < |ranges| ==> ranges[k - 1].last + 1 < ranges[k].first
  }

  lemma {:induction false} ExtendedApart(ranges: seq<Range>, cpu: int)
    requires Apart(ranges) && (ranges != [] ==> ranges[|ranges| - 1].last < cpu)
    ensures Apart(Extended(ranges, cpu))
  {
  }
}
