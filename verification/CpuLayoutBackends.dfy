/** Where the logging backends go: spread evenly over the background, in the order of their names. */
module CpuLayoutBackends {
  import opened Sequences
  import opened CpuLayout
  import opened CpuLayoutAdmission

  // ---- The order of names ----------------------------------------------------------------------

  lemma {:induction false} NameOrderTotal()
    ensures TotalOrder(NameLeq)
  {
    forall a, b ensures (NameLeq(a, b) || NameLeq(b, a)) && (NameLeq(a, b) && NameLeq(b, a) ==> a == b) {
      NameTotal(a, b);
    }
    forall a, b, c | NameLeq(a, b) && NameLeq(b, c) ensures NameLeq(a, c) {
      NameTransitive(a, b, c);
    }
  }

  /** Names are compared as in a dictionary: by the first character that differs, or the shorter one first. */
  lemma {:induction false} NamesAsInDictionary(a: Name, b: Name, common: nat)
    requires common <= |a| && common <= |b| && a[..common] == b[..common]
    ensures common == |a| ==> NameLeq(a, b)
    ensures common < |a| && common < |b| && a[common] != b[common] ==> (NameLeq(a, b) <==> a[common] < b[common])
    decreases common
  {
    if common > 0 {
      assert a[0] == a[..common][0] && b[0] == b[..common][0];
      assert a[1..][..common - 1] == a[..common][1..] && b[1..][..common - 1] == b[..common][1..];
      NamesAsInDictionary(a[1..], b[1..], common - 1);
    }
  }

  // ---- Going round -----------------------------------------------------------------------------

  lemma {:induction false} RoundRobinKeys(names: seq<Name>, background: seq<int>, n: Name)
    requires background != []
    ensures n in RoundRobin(names, background) <==> n in names
  {
    if names != [] {
      RoundRobinKeys(names[..|names| - 1], background, n);
      SplitLast(names);
    }
  }

  lemma {:induction false} RoundRobinAt(names: seq<Name>, background: seq<int>, k: nat)
    requires background != [] && k < |names| && Distinct(names)
    ensures names[k] in RoundRobin(names, background)
    ensures RoundRobin(names, background)[names[k]] == background[k % |background|]
  {
    var m := |names| - 1;
    if k < m {
      RoundRobinAt(names[..m], background, k);
      assert names[..m][k] == names[k] && names[k] != names[m];
    }
  }

  /** The components whose backend is on this CPU. */
  function BackendsOn(quill: map<Name, int>, cpu: int): set<Name> {
    set n | n in quill && quill[n] == cpu
  }

  /** How many of `n` things dealt round `places` places come to a place. */
  function Share(n: nat, places: nat, place: nat): nat
    requires place < places
  {
    n / places + if place < n % places then 1 else 0
  }

  lemma {:induction false} OneMoreDealt(n: nat, places: nat, place: nat)
    requires place < places
    ensures Share(n + 1, places, place) == Share(n, places, place) + if n % places == place then 1 else 0
  {
    var d, r := n / places, n % places;
    assert n == places * d + r;
    if r + 1 < places {
      DivMod(n + 1, places, d, r + 1);
    } else {
      assert places * (d + 1) == places * d + places;
      DivMod(n + 1, places, d + 1, 0);
    }
  }

  lemma {:induction false} DivMod(n: nat, places: nat, d: nat, r: nat)
    requires r < places && n == places * d + r
    ensures n / places == d && n % places == r
  {
    if n / places < d {
      StepApart(places, n / places, d);
      assert false;
    } else if d < n / places {
      StepApart(places, d, n / places);
      assert false;
    }
  }

  lemma {:induction false} StepApart(step: nat, a: nat, b: nat)
    requires a < b
    ensures step * a + step <= step * b
    decreases b
  {
    if a + 1 < b {
      StepApart(step, a, b - 1);
    }
    assert step * b == step * (b - 1) + step;
  }

  lemma {:induction false} ShareOf(names: seq<Name>, background: seq<int>, place: nat)
    requires place < |background| && Distinct(names) && Distinct(background)
    ensures |BackendsOn(RoundRobin(names, background), background[place])| == Share(|names|, |background|, place)
  {
    var quill := RoundRobin(names, background);
    if names == [] {
      assert BackendsOn(quill, background[place]) == {};
    } else {
      var m := |names| - 1;
      var before, last := RoundRobin(names[..m], background), names[m];
      ShareOf(names[..m], background, place);
      OneMoreDealt(m, |background|, place);
      RoundRobinKeys(names[..m], background, last);
      assert last !in names[..m];
      OneMoreOn(before, last, background[m % |background|], background[place]);
      assert background[m % |background|] == background[place] <==> m % |background| == place;
    }
  }

  lemma {:induction false} OneMoreOn(quill: map<Name, int>, n: Name, on: int, cpu: int)
    requires n !in quill
    ensures |BackendsOn(quill[n := on], cpu)| == |BackendsOn(quill, cpu)| + if on == cpu then 1 else 0
  {
    var more := BackendsOn(quill[n := on], cpu);
    if on == cpu {
      assert more == BackendsOn(quill, cpu) + {n};
    } else {
      assert more == BackendsOn(quill, cpu);
    }
  }

  lemma {:induction false} SharesEven(n: nat, places: nat, a: nat, b: nat)
    requires a < places && b < places
    ensures Share(n, places, a) <= Share(n, places, b) + 1
  {
  }

  lemma {:induction false} SortedDistinct(names: seq<Name>)
    ensures Distinct(names) ==> Distinct(Sort(names, NameLeq))
  {
    NameOrderTotal();
    SortSorts(names, NameLeq);
    if Distinct(names) {
      DistinctByCount(names, Sort(names, NameLeq));
    }
  }

  lemma {:induction false} DistinctByCount(s: seq<Name>, t: seq<Name>)
    requires Distinct(s) && multiset(s) == multiset(t)
    ensures Distinct(t)
  {
    forall a, b | 0 <= a < b < |t| ensures t[a] != t[b] {
      if t[a] == t[b] {
        TwiceCounted(t, a, b);
        OnceCounted(s, t[a]);
        assert false;
      }
    }
  }

  lemma {:induction false} TwiceCounted(t: seq<Name>, a: nat, b: nat)
    requires a < b < |t| && t[a] == t[b]
    ensures multiset(t)[t[a]] >= 2
  {
    assert t == t[..b] + ([t[b]] + t[b + 1..]);
    assert t[a] in t[..b];
  }

  lemma {:induction false} OnceCounted(s: seq<Name>, n: Name)
    requires Distinct(s)
    ensures multiset(s)[n] <= 1
  {
    if s != [] {
      SplitLast(s);
      OnceCounted(s[..|s| - 1], n);
      assert s[|s| - 1] !in s[..|s| - 1];
    }
  }

  /** These are the same names in the order of a dictionary. */
  ghost predicate InOrder(names: seq<Name>, sorted: seq<Name>) {
    multiset(sorted) == multiset(names) && Ascending(sorted, NameLeq)
  }

  /**
   * Exactly these names are given a CPU, and only of a background that has any.  With names all different, the
   * k-th of them in order is on the k-th background CPU, counting round, and no background CPU has two
   * more than another.
   */
  ghost predicate SpreadEvenly(names: seq<Name>, sorted: seq<Name>, background: seq<int>, quill: map<Name, int>) {
    && quill.Keys == (set n | n in names)
    && (names != [] ==> background != [])
    && (Distinct(names) ==> forall k :: 0 <= k < |sorted| ==>
          sorted[k] in quill && background != [] && quill[sorted[k]] == background[k % |background|])
    && (Distinct(names) && Distinct(background) ==> forall a, b :: a in background && b in background ==>
          |BackendsOn(quill, a)| <= |BackendsOn(quill, b)| + 1)
  }

  lemma {:induction false} ResolvedBackends(i: Input, l: Layout)
    requires Resolve(i) == Resolved(l)
    ensures if l.background == [] then i.quill == [] && l.quill == map[] else l.quill == RoundRobin(Sort(i.quill, NameLeq), l.background)
  {
  }

  lemma {:induction false} InOrderIs(names: seq<Name>, sorted: seq<Name>)
    requires InOrder(names, sorted)
    ensures sorted == Sort(names, NameLeq)
  {
    NameOrderTotal();
    SortSorts(names, NameLeq);
    AscendingUnique(sorted, Sort(names, NameLeq), NameLeq);
  }

  lemma {:induction false} Spread(names: seq<Name>, sorted: seq<Name>, background: seq<int>, quill: map<Name, int>)
    requires background != [] && multiset(sorted) == multiset(names) && quill == RoundRobin(sorted, background)
    requires Distinct(names) ==> Distinct(sorted)
    ensures SpreadEvenly(names, sorted, background, quill)
  {
    forall n ensures n in quill <==> n in names {
      RoundRobinKeys(sorted, background, n);
      assert n in sorted <==> n in multiset(sorted);
      assert n in names <==> n in multiset(names);
    }
    if Distinct(names) {
      forall k | 0 <= k < |sorted| ensures sorted[k] in quill && quill[sorted[k]] == background[k % |background|] {
        RoundRobinAt(sorted, background, k);
      }
      if Distinct(background) {
        forall a, b | a in background && b in background ensures |BackendsOn(quill, a)| <= |BackendsOn(quill, b)| + 1 {
          var x :| 0 <= x < |background| && background[x] == a;
          var y :| 0 <= y < |background| && background[y] == b;
          ShareOf(sorted, background, x);
          ShareOf(sorted, background, y);
          SharesEven(|sorted|, |background|, x, y);
        }
      }
    }
  }

  lemma {:induction false} NothingToSpread(sorted: seq<Name>)
    requires multiset(sorted) == multiset([])
    ensures SpreadEvenly([], sorted, [], map[])
  {
    assert |multiset(sorted)| == |sorted|;
  }

  /** The components with a logging backend are spread so over the background of every resolved layout. */
  lemma {:induction false} BackendsSpread(i: Input, sorted: seq<Name>)
    requires Resolve(i).Resolved? && InOrder(i.quill, sorted)
    ensures var l := Resolve(i).layout; SpreadEvenly(i.quill, sorted, l.background, l.quill)
  {
    var l := Resolve(i).layout;
    ResolvedBackends(i, l);
    InOrderIs(i.quill, sorted);
    SortedDistinct(i.quill);
    if l.background == [] {
      NothingToSpread(sorted);
    } else {
      Spread(i.quill, sorted, l.background, l.quill);
    }
  }
}
