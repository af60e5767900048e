/**
 * Admission by rank: which components are admitted, and that nothing ranked behind a component can
 * change what it is given.
 */
module CpuLayoutAdmission {
  import opened Sequences
  import opened CpuLayout
  import opened CpuLayoutResolver
  import opened CpuLayoutTiers

  // ---- The order of components -----------------------------------------------------------------

  lemma {:induction false} NameTotal(a: Name, b: Name)
    ensures NameLeq(a, b) || NameLeq(b, a)
    ensures NameLeq(a, b) && NameLeq(b, a) ==> a == b
  {
    if a != [] && b != [] {
      NameTotal(a[1..], b[1..]);
      assert a == [a[0]] + a[1..] && b == [b[0]] + b[1..];
    }
  }

  lemma {:induction false} NameTransitive(a: Name, b: Name, c: Name)
    requires NameLeq(a, b) && NameLeq(b, c)
    ensures NameLeq(a, c)
  {
    if a != [] && a[0] == b[0] && b[0] == c[0] {
      NameTransitive(a[1..], b[1..], c[1..]);
    }
  }

  lemma {:induction false} RankOrderTotal(ranks: map<Name, int>)
    ensures TotalOrder(RankOrder(ranks))
  {
    var leq := RankOrder(ranks);
    forall a, b ensures (leq(a, b) || leq(b, a)) && (leq(a, b) && leq(b, a) ==> a == b) {
      NameTotal(a, b);
    }
    forall a, b, c | leq(a, b) && leq(b, c) ensures leq(a, c) {
      if NameLeq(a, b) && NameLeq(b, c) {
        NameTransitive(a, b, c);
      }
    }
  }

  lemma {:induction false} FilterCount<T(!new)>(s: seq<T>, keep: T -> bool, x: T)
    ensures multiset(Filter(s, keep))[x] == if keep(x) then multiset(s)[x] else 0
  {
    if s != [] {
      var n := |s| - 1;
      assert s == s[..n] + [s[n]];
      FilterCount(s[..n], keep, x);
    }
  }

  lemma {:induction false} DistinctCounts<T>(s: seq<T>)
    requires forall x :: x in s ==> multiset(s)[x] == 1
    ensures Distinct(s)
  {
    forall i, j | 0 <= i < j < |s| ensures s[i] != s[j] {
      assert s == s[..i] + [s[i]] + s[i + 1..j] + [s[j]] + s[j + 1..];
      assert s[i] in s;
    }
  }

  lemma {:induction false} CountsOfDistinct<T>(s: seq<T>, x: T)
    requires Distinct(s) && x in s
    ensures multiset(s)[x] == 1
  {
    var n := |s| - 1;
    assert s == s[..n] + [s[n]];
    if x in s[..n] {
      CountsOfDistinct(s[..n], x);
    }
  }

  /** The ranked components, each once, in ascending order. */
  lemma {:induction false} RankedFacts(components: seq<Name>, ranks: map<Name, int>)
    ensures Ascending(Ranked(components, ranks), RankOrder(ranks))
    ensures multiset(Ranked(components, ranks)) == multiset(Filter(components, HasRank(ranks)))
    ensures forall n :: n in Ranked(components, ranks) <==> n in components && n in ranks
    ensures Distinct(components) ==> Distinct(Ranked(components, ranks))
  {
    RankOrderTotal(ranks);
    var kept, ranked := Filter(components, HasRank(ranks)), Ranked(components, ranks);
    SortSorts(kept, RankOrder(ranks));
    forall n ensures n in ranked <==> n in components && n in ranks {
      assert n in ranked <==> n in multiset(ranked);
      assert n in kept <==> n in multiset(kept);
    }
    if Distinct(components) {
      forall n | n in ranked ensures multiset(ranked)[n] == 1 {
        FilterCount(components, HasRank(ranks), n);
        CountsOfDistinct(components, n);
      }
      DistinctCounts(ranked);
    }
  }

  // ---- Groups ----------------------------------------------------------------------------------

  /** Every component of a group carries the group's rank. */
  ghost predicate RanksMatch(groups: seq<RankGroup>, ranks: map<Name, int>) {
    forall k, n :: 0 <= k < |groups| && n in groups[k].components ==> RankOf(ranks, n) == groups[k].rank
  }

  lemma {:induction false} JoinedMembers(groups: seq<RankGroup>, rank: int, name: Name, count: int)
    ensures Members(Joined(groups, rank, name, count)) == Members(groups) + [name]
  {
    var now := Joined(groups, rank, name, count);
    if groups != [] && groups[|groups| - 1].rank == rank {
      var m := |groups| - 1;
      assert now[..m] == groups[..m];
      assert Members(groups[..m]) + (groups[m].components + [name]) == Members(groups[..m]) + groups[m].components + [name];
    } else {
      assert now[..|groups|] == groups;
    }
  }

  lemma {:induction false} JoinedRanks(groups: seq<RankGroup>, ranks: map<Name, int>, name: Name, count: int)
    requires RanksMatch(groups, ranks)
    ensures var now := Joined(groups, RankOf(ranks, name), name, count);
      now != [] && now[|now| - 1].rank == RankOf(ranks, name) && RanksMatch(now, ranks)
  {
  }

  /** These are groups of these names, in their order. */
  ghost predicate GroupsHold(groups: seq<RankGroup>, names: seq<Name>, ranks: map<Name, int>) {
    && Members(groups) == names
    && (names != [] ==> groups != [] && groups[|groups| - 1].rank == RankOf(ranks, names[|names| - 1]))
    && (names == [] ==> groups == [])
    && RanksMatch(groups, ranks)
  }

  lemma {:induction false} JoinedHolds(groups: seq<RankGroup>, before: seq<Name>, ranks: map<Name, int>, name: Name, count: int, names: seq<Name>)
    requires GroupsHold(groups, before, ranks) && names == before + [name]
    ensures GroupsHold(Joined(groups, RankOf(ranks, name), name, count), names, ranks)
  {
    JoinedMembers(groups, RankOf(ranks, name), name, count);
    JoinedRanks(groups, ranks, name, count);
  }

  lemma {:induction false} GroupedFacts(names: seq<Name>, ranks: map<Name, int>, counts: map<Name, int>)
    ensures GroupsHold(Grouped(names, ranks, counts), names, ranks)
  {
    if names != [] {
      var before, last := names[..|names| - 1], names[|names| - 1];
      GroupedFacts(before, ranks, counts);
      SplitLast(names);
      JoinedHolds(Grouped(before, ranks, counts), before, ranks, last, CountOf(counts, last), names);
    }
  }

  lemma {:induction false} JoinedConcat(a: seq<RankGroup>, b: seq<RankGroup>, rank: int, name: Name, count: int)
    requires b == [] && a != [] ==> a[|a| - 1].rank != rank
    ensures Joined(a + b, rank, name, count) == a + Joined(b, rank, name, count)
  {
    if b != [] && b[|b| - 1].rank == rank {
      assert (a + b)[..|a + b| - 1] == a + b[..|b| - 1];
    }
  }

  /** Names of different rank never share a group, so groups of a front part are not disturbed by what follows. */
  lemma {:induction false} GroupedConcat(a: seq<Name>, b: seq<Name>, ranks: map<Name, int>, counts: map<Name, int>)
    requires a != [] && b != [] ==> RankOf(ranks, a[|a| - 1]) != RankOf(ranks, b[0])
    ensures Grouped(a + b, ranks, counts) == Grouped(a, ranks, counts) + Grouped(b, ranks, counts)
  {
    if b == [] {
      assert a + b == a;
    } else {
      var n := |b| - 1;
      GroupedConcat(a, b[..n], ranks, counts);
      SplitLast(b);
      OneMoreGrouped(a, b[..n], b[n], b, ranks, counts);
    }
  }

  lemma {:induction false} OneMoreGrouped(a: seq<Name>, b: seq<Name>, last: Name, all: seq<Name>, ranks: map<Name, int>, counts: map<Name, int>)
    requires Grouped(a + b, ranks, counts) == Grouped(a, ranks, counts) + Grouped(b, ranks, counts)
    requires all == b + [last] && (b == [] && a != [] ==> RankOf(ranks, a[|a| - 1]) != RankOf(ranks, last))
    ensures Grouped(a + all, ranks, counts) == Grouped(a, ranks, counts) + Grouped(all, ranks, counts)
  {
    GroupedFacts(a, ranks, counts);
    GroupedFacts(b, ranks, counts);
    GroupedLast(b, last, all, ranks, counts);
    assert a + all == a + b + [last];
    GroupedLast(a + b, last, a + all, ranks, counts);
    JoinedConcat(Grouped(a, ranks, counts), Grouped(b, ranks, counts), RankOf(ranks, last), last, CountOf(counts, last));
  }

  lemma {:induction false} GroupedLast(names: seq<Name>, last: Name, all: seq<Name>, ranks: map<Name, int>, counts: map<Name, int>)
    requires all == names + [last]
    ensures Grouped(all, ranks, counts) == Joined(Grouped(names, ranks, counts), RankOf(ranks, last), last, CountOf(counts, last))
  {
    assert all[..|names|] == names;
  }

  lemma {:induction false} GroupedAgree(names: seq<Name>, r: map<Name, int>, c: map<Name, int>, r': map<Name, int>, c': map<Name, int>)
    requires forall n :: n in names ==> RankOf(r, n) == RankOf(r', n) && CountOf(c, n) == CountOf(c', n)
    ensures Grouped(names, r, c) == Grouped(names, r', c')
  {
    if names != [] {
      assert names[|names| - 1] in names;
      GroupedAgree(names[..|names| - 1], r, c, r', c');
    }
  }

  // ---- Admitted as a unit, and in rank order ---------------------------------------------------

  function GroupsOf(i: Input): seq<RankGroup> {
    Grouped(Ranked(i.components, i.ranks), i.ranks, i.counts)
  }

  function MachineFor(i: Input): Machine {
    MachineOf(Claimable(i.topology, i.reserveCpu0), i.minimum)
  }

  function AdmittedGroups(i: Input): (n: nat)
    ensures n <= |GroupsOf(i)|
  {
    AdmittedCount(MachineFor(i), i.counts, GroupsOf(i))
  }

  /** The admitted components are a front part of the rank order. */
  lemma {:induction false} AdmittedNamesPrefix(i: Input)
    ensures AdmittedNames(i) <= Ranked(i.components, i.ranks)
    ensures Ranked(i.components, i.ranks) == AdmittedNames(i) + Members(GroupsOf(i)[AdmittedGroups(i)..])
    ensures forall n :: n in PlacedOf(i) <==> n in AdmittedNames(i)
  {
    GroupedFacts(Ranked(i.components, i.ranks), i.ranks, i.counts);
    MembersSplit(GroupsOf(i), AdmittedGroups(i));
    AdmittedPlaced(i);
  }

  lemma {:induction false} MembersSplit(groups: seq<RankGroup>, n: nat)
    requires n <= |groups|
    ensures Members(groups) == Members(groups[..n]) + Members(groups[n..])
  {
    assert groups == groups[..n] + groups[n..];
    MembersConcat(groups[..n], groups[n..]);
  }

  lemma {:induction false} AdmittedPlaced(i: Input)
    ensures forall n :: n in PlacedOf(i) <==> n in AdmittedNames(i)
  {
    AdmittedFits(MachineFor(i), i.counts, GroupsOf(i), AdmittedGroups(i));
    PlacedKeys(MachineFor(i), i.counts, AdmittedNames(i));
  }

  lemma {:induction false} MemberOfGroup(groups: seq<RankGroup>, n: Name) returns (k: nat)
    requires n in Members(groups)
    ensures k < |groups| && n in groups[k].components
  {
    var last := |groups| - 1;
    if n in groups[last].components {
      k := last;
    } else {
      k := MemberOfGroup(groups[..last], n);
    }
  }

  lemma {:induction false} GroupMember(groups: seq<RankGroup>, k: nat, n: Name)
    requires k < |groups| && n in groups[k].components
    ensures n in Members(groups)
  {
    if k < |groups| - 1 {
      GroupMember(groups[..|groups| - 1], k, n);
    }
  }

  /**
   * A rank is admitted whole or not at all, and no rank is admitted over the head of another: if a
   * component is admitted, so is every ranked component whose rank number is no greater.
   */
  lemma {:induction false} AdmittedWholeAndInOrder(i: Input, a: Name, b: Name)
    requires a in PlacedOf(i) && a in i.ranks
    requires b in i.components && b in i.ranks && i.ranks[b] <= i.ranks[a]
    ensures b in PlacedOf(i)
  {
    AdmittedNamesPrefix(i);
    RankedFacts(i.components, i.ranks);
    if b !in AdmittedNames(i) {
      AdmittedRankLower(i, a, b);
      assert false;
    }
  }

  /** Whoever is left out ranks after everyone admitted. */
  lemma {:induction false} AdmittedRankLower(i: Input, a: Name, b: Name)
    requires a in Members(GroupsOf(i)[..AdmittedGroups(i)]) && b in Members(GroupsOf(i)[AdmittedGroups(i)..])
    ensures RankOf(i.ranks, a) < RankOf(i.ranks, b)
  {
    var groups, n := GroupsOf(i), AdmittedGroups(i);
    var ka := MemberOfGroup(groups[..n], a);
    var kb := MemberOfGroup(groups[n..], b);
    LaterGroupsRankHigher(i, ka, n + kb, a, b);
  }

  lemma {:induction false} LaterGroupsRankHigher(i: Input, j: nat, k: nat, a: Name, b: Name)
    requires j < k < |GroupsOf(i)| && a in GroupsOf(i)[j].components && b in GroupsOf(i)[k].components
    ensures RankOf(i.ranks, a) < RankOf(i.ranks, b)
  {
    RankedFacts(i.components, i.ranks);
    GroupedFacts(Ranked(i.components, i.ranks), i.ranks, i.counts);
    GroupRanksAscend(Ranked(i.components, i.ranks), i.ranks, i.counts);
  }

  ghost predicate RanksRise(groups: seq<RankGroup>) {
    forall j, k :: 0 <= j < k < |groups| ==> groups[j].rank < groups[k].rank
  }

  lemma {:induction false} JoinedRises(groups: seq<RankGroup>, rank: int, name: Name, count: int)
    requires RanksRise(groups) && (groups != [] ==> groups[|groups| - 1].rank <= rank)
    ensures RanksRise(Joined(groups, rank, name, count))
  {
  }

  /** Ranks ascend strictly from group to group. */
  lemma {:induction false} GroupRanksAscend(names: seq<Name>, ranks: map<Name, int>, counts: map<Name, int>)
    requires Ascending(names, RankOrder(ranks))
    ensures RanksRise(Grouped(names, ranks, counts))
  {
    if names != [] {
      var before, last := names[..|names| - 1], names[|names| - 1];
      GroupRanksAscend(before, ranks, counts);
      GroupedFacts(before, ranks, counts);
      if before != [] {
        assert RankOrder(ranks)(before[|before| - 1], last);
      }
      JoinedRises(Grouped(before, ranks, counts), RankOf(ranks, last), last, CountOf(counts, last));
    }
  }

  /** The first refused group does not fit, and every admitted one did when its turn came. */
  lemma {:induction false} FirstRefusedDoesNotFit(i: Input)
    requires Resolve(i).Resolved?
    ensures var l := Resolve(i).layout; var n := AdmittedGroups(i);
      && |l.groups| == |GroupsOf(i)|
      && (forall k :: 0 <= k < |l.groups| ==> (l.groups[k].admitted <==> k < n))
      && (forall k :: 0 <= k < n ==> GroupFits(MachineFor(i), i.counts, GroupsOf(i), k))
      && (n < |l.groups| ==>
            && !GroupFits(MachineFor(i), i.counts, GroupsOf(i), n)
            && (l.groups[n].reason.NeedsCores? || l.groups[n].reason.LeavesTooFew?))
      && (forall k :: n < k < |l.groups| ==> l.groups[k].reason == StoppedAt(GroupsOf(i)[n].rank))
  {
    GroupedNotYetAdmitted(Ranked(i.components, i.ranks), i.ranks, i.counts);
  }
}
