/** Nothing declared behind a component, and no smaller reserve, changes the cores it was given. */
module CpuLayoutStability {
  import opened Sequences
  import opened CpuLayout
  import opened CpuLayoutTiers
  import opened CpuLayoutAdmission

  function UpTo(ranks: map<Name, int>, rank: int): Name -> bool {
    (n: Name) => n in ranks && ranks[n] <= rank
  }

  /** Two declarations for one machine that differ only in components ranked behind `rank`, and in the reserve. */
  ghost predicate AgreeUpTo(i: Input, j: Input, rank: int) {
    && i.topology == j.topology && i.reserveCpu0 == j.reserveCpu0
    && (forall n :: UpTo(i.ranks, rank)(n) <==> UpTo(j.ranks, rank)(n))
    && (forall n :: UpTo(i.ranks, rank)(n) ==> i.ranks[n] == j.ranks[n] && CountOf(i.counts, n) == CountOf(j.counts, n))
    && multiset(Filter(i.components, UpTo(i.ranks, rank))) == multiset(Filter(j.components, UpTo(j.ranks, rank)))
  }

  /** How many names at the front rank no higher than `rank`. */
  function Front(names: seq<Name>, ranks: map<Name, int>, rank: int): (k: nat)
    ensures k <= |names|
    ensures forall j :: 0 <= j < k ==> RankOf(ranks, names[j]) <= rank
    ensures k < |names| ==> RankOf(ranks, names[k]) > rank
  {
    if names == [] || RankOf(ranks, names[0]) > rank then 0 else 1 + Front(names[1..], ranks, rank)
  }

  function FrontNames(i: Input, rank: int): seq<Name> {
    var ranked := Ranked(i.components, i.ranks);
    ranked[..Front(ranked, i.ranks, rank)]
  }

  lemma {:induction false} RanksAscend(names: seq<Name>, ranks: map<Name, int>, p: nat, q: nat)
    requires Ascending(names, RankOrder(ranks)) && p <= q < |names|
    ensures RankOf(ranks, names[p]) <= RankOf(ranks, names[q])
  {
    assert p < q ==> RankOrder(ranks)(names[p], names[q]);
  }

  lemma {:induction false} BeyondFront(names: seq<Name>, ranks: map<Name, int>, rank: int, n: Name)
    requires Ascending(names, RankOrder(ranks)) && n in names[Front(names, ranks, rank)..]
    ensures RankOf(ranks, n) > rank
  {
    var k := Front(names, ranks, rank);
    var p :| 0 <= p < |names[k..]| && names[k..][p] == n;
    RanksAscend(names, ranks, k, k + p);
  }

  lemma {:induction false} WithinFront(i: Input, rank: int, n: Name)
    requires n in FrontNames(i, rank)
    ensures UpTo(i.ranks, rank)(n)
  {
    RankedFacts(i.components, i.ranks);
    assert n in Ranked(i.components, i.ranks);
  }

  /** The front holds exactly the components ranked up to `rank`, as often as they are declared. */
  lemma {:induction false} FrontCount(i: Input, rank: int, n: Name)
    ensures multiset(FrontNames(i, rank))[n] == multiset(Filter(i.components, UpTo(i.ranks, rank)))[n]
  {
    RankedFacts(i.components, i.ranks);
    var ranked := Ranked(i.components, i.ranks);
    FilterCount(i.components, UpTo(i.ranks, rank), n);
    FilterCount(i.components, HasRank(i.ranks), n);
    if UpTo(i.ranks, rank)(n) {
      FrontHoldsAll(i, rank, n);
    }
    if n in FrontNames(i, rank) {
      WithinFront(i, rank, n);
    }
  }

  /** A component ranked up to `rank` stands in the front with all its repeats. */
  lemma {:induction false} FrontHoldsAll(i: Input, rank: int, n: Name)
    requires UpTo(i.ranks, rank)(n)
    ensures multiset(FrontNames(i, rank))[n] == multiset(Ranked(i.components, i.ranks))[n]
  {
    var ranked := Ranked(i.components, i.ranks);
    var k := Front(ranked, i.ranks, rank);
    RankedAscends(i.components, i.ranks);
    NoneBeyond(ranked, i.ranks, rank, n);
    AllInFront(ranked[..k], ranked[k..], ranked, n);
  }

  lemma {:induction false} RankedAscends(components: seq<Name>, ranks: map<Name, int>)
    ensures Ascending(Ranked(components, ranks), RankOrder(ranks))
  {
    RankedFacts(components, ranks);
  }

  lemma {:induction false} NoneBeyond(names: seq<Name>, ranks: map<Name, int>, rank: int, n: Name)
    requires Ascending(names, RankOrder(ranks)) && UpTo(ranks, rank)(n)
    ensures n !in names[Front(names, ranks, rank)..]
  {
    if n in names[Front(names, ranks, rank)..] {
      BeyondFront(names, ranks, rank, n);
    }
  }

  lemma {:induction false} AllInFront(front: seq<Name>, back: seq<Name>, all: seq<Name>, n: Name)
    requires all == front + back && n !in back
    ensures multiset(front)[n] == multiset(all)[n]
  {
  }

  lemma {:induction false} FrontsPermute(i: Input, j: Input, rank: int)
    requires AgreeUpTo(i, j, rank)
    ensures multiset(FrontNames(i, rank)) == multiset(FrontNames(j, rank))
  {
    forall n ensures multiset(FrontNames(i, rank))[n] == multiset(FrontNames(j, rank))[n] {
      FrontCount(i, rank, n);
      FrontCount(j, rank, n);
    }
  }

  lemma {:induction false} FrontAscends(i: Input, rank: int)
    ensures Ascending(FrontNames(i, rank), RankOrder(i.ranks))
  {
    RankedFacts(i.components, i.ranks);
  }

  lemma {:induction false} OrdersAgree(i: Input, j: Input, rank: int, a: Name, b: Name)
    requires AgreeUpTo(i, j, rank) && UpTo(j.ranks, rank)(a) && UpTo(j.ranks, rank)(b)
    requires RankOrder(j.ranks)(a, b)
    ensures RankOrder(i.ranks)(a, b)
  {
    assert UpTo(i.ranks, rank)(a) && UpTo(i.ranks, rank)(b);
  }

  lemma {:induction false} FrontsAgree(i: Input, j: Input, rank: int)
    requires AgreeUpTo(i, j, rank)
    ensures FrontNames(i, rank) == FrontNames(j, rank)
  {
    FrontsPermute(i, j, rank);
    FrontAscends(i, rank);
    FrontAscends(j, rank);
    RankOrderTotal(i.ranks);
    var a, b := FrontNames(i, rank), FrontNames(j, rank);
    forall p, q | 0 <= p < q < |b| ensures RankOrder(i.ranks)(b[p], b[q]) {
      WithinFront(j, rank, b[p]);
      WithinFront(j, rank, b[q]);
      OrdersAgree(i, j, rank, b[p], b[q]);
    }
    AscendingUnique(a, b, RankOrder(i.ranks));
  }

  function FrontGroups(i: Input, rank: int): seq<RankGroup> {
    Grouped(FrontNames(i, rank), i.ranks, i.counts)
  }

  ghost predicate RanksBeyond(g: RankGroup, ranks: map<Name, int>, rank: int) {
    forall n :: n in g.components ==> RankOf(ranks, n) > rank
  }

  function RestGroups(names: seq<Name>, ranks: map<Name, int>, counts: map<Name, int>, rank: int): seq<RankGroup> {
    Grouped(names[Front(names, ranks, rank)..], ranks, counts)
  }

  lemma {:induction false} RestMemberBeyond(names: seq<Name>, ranks: map<Name, int>, counts: map<Name, int>, rank: int, k: nat, n: Name)
    requires Ascending(names, RankOrder(ranks))
    requires k < |RestGroups(names, ranks, counts, rank)| && n in RestGroups(names, ranks, counts, rank)[k].components
    ensures RankOf(ranks, n) > rank
  {
    GroupMember(RestGroups(names, ranks, counts, rank), k, n);
    GroupedFacts(names[Front(names, ranks, rank)..], ranks, counts);
    BeyondFront(names, ranks, rank, n);
  }

  lemma {:induction false} RestRanksBeyond(names: seq<Name>, ranks: map<Name, int>, counts: map<Name, int>, rank: int)
    requires Ascending(names, RankOrder(ranks))
    ensures forall k :: 0 <= k < |RestGroups(names, ranks, counts, rank)|
              ==> RanksBeyond(RestGroups(names, ranks, counts, rank)[k], ranks, rank)
  {
    var rest := RestGroups(names, ranks, counts, rank);
    forall k, n | 0 <= k < |rest| && n in rest[k].components ensures RankOf(ranks, n) > rank {
      RestMemberBeyond(names, ranks, counts, rank, k, n);
    }
  }

  lemma {:induction false} GroupsSplit(names: seq<Name>, ranks: map<Name, int>, counts: map<Name, int>, rank: int)
    requires Ascending(names, RankOrder(ranks))
    ensures var k := Front(names, ranks, rank);
      Grouped(names, ranks, counts) == Grouped(names[..k], ranks, counts) + RestGroups(names, ranks, counts, rank)
  {
    var k := Front(names, ranks, rank);
    assert names == names[..k] + names[k..];
    GroupedConcat(names[..k], names[k..], ranks, counts);
  }

  /** The groups of the front are the first groups, and every other group ranks behind. */
  lemma {:induction false} FrontGroupsFirst(i: Input, rank: int)
    ensures FrontGroups(i, rank) <= GroupsOf(i)
    ensures forall k :: |FrontGroups(i, rank)| <= k < |GroupsOf(i)| ==> RanksBeyond(GroupsOf(i)[k], i.ranks, rank)
  {
    RankedFacts(i.components, i.ranks);
    GroupsSplit(Ranked(i.components, i.ranks), i.ranks, i.counts, rank);
    RestRanksBeyond(Ranked(i.components, i.ranks), i.ranks, i.counts, rank);
  }

  /** Both declarations begin with the same groups, whose components ask for the same. */
  lemma {:induction false} FrontGroupsAgree(i: Input, j: Input, rank: int)
    requires AgreeUpTo(i, j, rank)
    ensures FrontGroups(i, rank) == FrontGroups(j, rank)
    ensures FrontGroups(i, rank) <= GroupsOf(i) && FrontGroups(i, rank) <= GroupsOf(j)
    ensures CountsAgree(i.counts, j.counts, Members(FrontGroups(i, rank)))
  {
    FrontsAgree(i, j, rank);
    FrontGroupsFirst(i, rank);
    FrontGroupsFirst(j, rank);
    var front := FrontNames(i, rank);
    forall n | n in front ensures RankOf(i.ranks, n) == RankOf(j.ranks, n) && CountOf(i.counts, n) == CountOf(j.counts, n) {
      WithinFront(i, rank, n);
    }
    GroupedAgree(front, i.ranks, i.counts, j.ranks, j.counts);
    GroupedFacts(front, i.ranks, i.counts);
  }

  lemma {:induction false} WantedAgree(m: Machine, c: map<Name, int>, m': Machine, c': map<Name, int>, names: seq<Name>)
    requires m.threads == m'.threads && CountsAgree(c, c', names)
    ensures WantedAll(m, c, names) == WantedAll(m', c', names)
  {
    if names != [] {
      assert names[|names| - 1] in names;
      WantedAgree(m, c, m', c', names[..|names| - 1]);
    }
  }

  lemma {:induction false} LeftAgree(m: Machine, m': Machine, given: nat)
    requires m.threads == m'.threads && m.total == m'.total
    ensures Left(m, given) == Left(m', given)
  {
    if given > 0 {
      LeftAgree(m, m', given - 1);
    }
  }

  ghost predicate CountsAgree(c: map<Name, int>, c': map<Name, int>, names: seq<Name>) {
    forall n :: n in names ==> CountOf(c, n) == CountOf(c', n)
  }

  lemma {:induction false} CountsAgreeBefore(c: map<Name, int>, c': map<Name, int>, groups: seq<RankGroup>, k: nat)
    requires k < |groups| && CountsAgree(c, c', Members(groups))
    ensures CountsAgree(c, c', Members(groups[..k])) && CountsAgree(c, c', groups[k].components)
  {
    MembersPrefix(groups, k, |groups|);
    assert groups[..|groups|] == groups;
    forall n | n in groups[k].components ensures n in Members(groups) {
      GroupMember(groups, k, n);
    }
  }

  lemma {:induction false} FitsWithLess(m: Machine, m': Machine, wanted: nat, given: nat)
    requires m.cores == m'.cores && m.threads == m'.threads && m.total == m'.total && m'.minimum <= m.minimum
    requires Fits(m, wanted, given)
    ensures Fits(m', wanted, given)
  {
    LeftAgree(m, m', given + wanted);
  }

  /** A group that fits still fits with a smaller reserve. */
  lemma {:induction false} FitsAgree(m: Machine, c: map<Name, int>, m': Machine, c': map<Name, int>, groups: seq<RankGroup>, k: nat)
    requires m.cores == m'.cores && m.threads == m'.threads && m.total == m'.total && m'.minimum <= m.minimum
    requires k < |groups| && CountsAgree(c, c', Members(groups)) && GroupFits(m, c, groups, k)
    ensures GroupFits(m', c', groups, k)
  {
    CountsAgreeBefore(c, c', groups, k);
    WantedAgree(m, c, m', c', Members(groups[..k]));
    WantedAgree(m, c, m', c', groups[k].components);
    FitsWithLess(m, m', WantedAll(m, c, groups[k].components), Given(m, c, groups, k));
  }

  /** Whether a group fits depends only on the groups before it. */
  lemma {:induction false} FitsInPrefix(m: Machine, c: map<Name, int>, groups: seq<RankGroup>, more: seq<RankGroup>, k: nat)
    requires k < |groups| && groups <= more
    ensures GroupFits(m, c, groups, k) <==> GroupFits(m, c, more, k)
  {
    assert groups[..k] == more[..k];
  }

  /** How many front groups are admitted. */
  function FrontAdmitted(i: Input, rank: int): nat {
    if AdmittedGroups(i) < |FrontGroups(i, rank)| then AdmittedGroups(i) else |FrontGroups(i, rank)|
  }

  lemma {:induction false} FrontAdmittedToo(i: Input, j: Input, rank: int)
    requires AgreeUpTo(i, j, rank) && j.minimum <= i.minimum
    ensures FrontAdmitted(i, rank) <= AdmittedGroups(j)
  {
    FrontGroupsAgree(i, j, rank);
    var front, n := FrontGroups(i, rank), AdmittedGroups(j);
    if n < FrontAdmitted(i, rank) {
      FitsInPrefix(MachineFor(i), i.counts, front, GroupsOf(i), n);
      FitsAgree(MachineFor(i), i.counts, MachineFor(j), j.counts, front, n);
      FitsInPrefix(MachineFor(j), j.counts, front, GroupsOf(j), n);
      assert false;
    }
  }

  /** The front components admitted under the first declaration stand at the front under both. */
  lemma {:induction false} CommonPrefix(i: Input, j: Input, rank: int) returns (common: seq<Name>)
    requires AgreeUpTo(i, j, rank) && j.minimum <= i.minimum
    ensures common <= AdmittedNames(i) && common <= AdmittedNames(j)
    ensures CountsAgree(i.counts, j.counts, common)
    ensures common == Members(GroupsOf(i)[..FrontAdmitted(i, rank)])
  {
    FrontAdmittedToo(i, j, rank);
    FrontGroupsAgree(i, j, rank);
    common := SharedMembers(FrontGroups(i, rank), FrontAdmitted(i, rank), GroupsOf(i), AdmittedGroups(i),
                            GroupsOf(j), AdmittedGroups(j), i.counts, j.counts);
  }

  lemma {:induction false} SharedMembers(front: seq<RankGroup>, a: nat, ours: seq<RankGroup>, n: nat, theirs: seq<RankGroup>, m: nat,
                      c: map<Name, int>, c': map<Name, int>) returns (common: seq<Name>)
    requires front <= ours && front <= theirs && a <= |front| && a <= n <= |ours| && a <= m <= |theirs|
    requires CountsAgree(c, c', Members(front))
    ensures common == Members(ours[..a]) && common <= Members(ours[..n]) && common <= Members(theirs[..m])
    ensures CountsAgree(c, c', common)
  {
    common := Members(front[..a]);
    assert ours[..a] == front[..a] && theirs[..a] == front[..a];
    MembersPrefix(ours, a, n);
    MembersPrefix(theirs, a, m);
    MembersPrefix(front, a, |front|);
    assert front[..|front|] == front;
  }

  lemma {:induction false} AdmittedFrontIsCommon(i: Input, rank: int, n: Name)
    requires n in AdmittedNames(i) && RankOf(i.ranks, n) <= rank
    ensures n in Members(GroupsOf(i)[..FrontAdmitted(i, rank)])
  {
    FrontGroupsFirst(i, rank);
    var g := MemberOfGroup(GroupsOf(i)[..AdmittedGroups(i)], n);
    GroupMember(GroupsOf(i)[..FrontAdmitted(i, rank)], g, n);
  }

  lemma {:induction false} MembersPrefix(groups: seq<RankGroup>, a: nat, b: nat)
    requires a <= b <= |groups|
    ensures Members(groups[..a]) <= Members(groups[..b])
  {
    assert groups[..b] == groups[..a] + groups[a..b];
    MembersConcat(groups[..a], groups[a..b]);
  }

  /** With distinct names, a component's place in the order decides its cores. */
  lemma {:induction false} PlacedAtIndex(m: Machine, counts: map<Name, int>, names: seq<Name>, k: nat)
    requires WantedAll(m, counts, names) <= |m.cores| && Distinct(names) && k < |names|
    ensures WantedAll(m, counts, names[..k]) + Wanted(m, counts, names[k]) <= |m.cores|
    ensures names[k] in Placed(m, counts, names)
    ensures Placed(m, counts, names)[names[k]] ==
            SlotCpus(m, WantedAll(m, counts, names[..k]), Wanted(m, counts, names[k]), CountOf(counts, names[k]))
  {
    var p := PlacedAt(m, counts, names, names[k]);
    assert p == k;
  }

  lemma {:induction false} AdmittedDistinct(i: Input)
    requires Distinct(i.components)
    ensures Distinct(AdmittedNames(i))
  {
    RankedFacts(i.components, i.ranks);
    AdmittedNamesPrefix(i);
  }

  lemma {:induction false} SamePlaceSameCores(m: Machine, c: map<Name, int>, m': Machine, c': map<Name, int>,
                           a: seq<Name>, b: seq<Name>, common: seq<Name>, k: nat)
    requires m.cores == m'.cores && m.threads == m'.threads
    requires Distinct(a) && Distinct(b) && common <= a && common <= b && k < |common|
    requires CountsAgree(c, c', common)
    requires WantedAll(m, c, a) <= |m.cores| && WantedAll(m', c', b) <= |m'.cores|
    ensures common[k] in Placed(m, c, a) && common[k] in Placed(m', c', b)
    ensures Placed(m, c, a)[common[k]] == Placed(m', c', b)[common[k]]
  {
    var n := common[k];
    assert a[k] == n == b[k] && a[..k] == common[..k] == b[..k];
    assert n in common;
    PlacedAtIndex(m, c, a, k);
    PlacedAtIndex(m', c', b, k);
    WantedAgree(m, c, m', c', common[..k]);
    SlotAgree(m, m', WantedAll(m, c, common[..k]), Wanted(m, c, n), CountOf(c, n));
  }

  lemma {:induction false} SlotAgree(m: Machine, m': Machine, start: nat, wanted: nat, count: int)
    requires m.cores == m'.cores && start + wanted <= |m.cores|
    ensures SlotCpus(m, start, wanted, count) == SlotCpus(m', start, wanted, count)
  {
  }

  /**
   * A component admitted at or before `rank` keeps exactly its cores when components behind that rank
   * are added, removed or changed, or the reserve is lowered.
   */
  lemma {:induction false} CoresStable(i: Input, j: Input, rank: int, name: Name)
    requires Distinct(i.components) && Distinct(j.components)
    requires AgreeUpTo(i, j, rank) && j.minimum <= i.minimum
    requires name in PlacedOf(i) && RankOf(i.ranks, name) <= rank
    ensures name in PlacedOf(j) && PlacedOf(j)[name] == PlacedOf(i)[name]
  {
    AdmittedNamesPrefix(i);
    AdmittedDistinct(i);
    AdmittedDistinct(j);
    var common := CommonPrefix(i, j, rank);
    AdmittedFrontIsCommon(i, rank, name);
    var k :| 0 <= k < |common| && common[k] == name;
    var a, b := AdmittedNames(i), AdmittedNames(j);
    AdmittedFits(MachineFor(i), i.counts, GroupsOf(i), AdmittedGroups(i));
    AdmittedFits(MachineFor(j), j.counts, GroupsOf(j), AdmittedGroups(j));
    SamePlaceSameCores(MachineFor(i), i.counts, MachineFor(j), j.counts, a, b, common, k);
  }
}
