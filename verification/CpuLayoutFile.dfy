/**
 * What the resolver says of each group and component, and the file after it: why a group was refused, how
 * many threads it asked for, which CPUs a component was given, and what stands in its entry.
 */
module CpuLayoutFile {
  import opened Options
  import opened Sequences
  import opened CpuLayout
  import opened CpuLayoutTiers
  import opened CpuLayoutAdmission
  import opened CpuLayoutBackends
  import opened CpuLayoutQuotas
  import opened CpuAudit
  import opened CpuAuditTheorem

  // ---- Groups ----------------------------------------------------------------------------------

  /** The threads these components asked for together. */
  function Threads(counts: map<Name, int>, names: seq<Name>): int {
    if names == [] then 0
    else Threads(counts, names[..|names| - 1]) + if names[|names| - 1] in counts then counts[names[|names| - 1]] else 0
  }

  ghost predicate DemandsAdded(groups: seq<RankGroup>, counts: map<Name, int>) {
    forall k :: 0 <= k < |groups| ==> groups[k].demand == Threads(counts, groups[k].components)
  }

  lemma {:induction false} OneMoreThread(counts: map<Name, int>, names: seq<Name>, name: Name)
    ensures Threads(counts, names + [name]) == Threads(counts, names) + if name in counts then counts[name] else 0
  {
    assert (names + [name])[..|names|] == names;
  }

  lemma {:induction false} FirstThread(counts: map<Name, int>, name: Name)
    ensures Threads(counts, [name]) == CountOf(counts, name)
  {
    assert [name][..0] == [];
  }

  lemma {:induction false} JoinedDemands(groups: seq<RankGroup>, counts: map<Name, int>, rank: int, name: Name)
    requires DemandsAdded(groups, counts)
    ensures DemandsAdded(Joined(groups, rank, name, CountOf(counts, name)), counts)
  {
    FirstThread(counts, name);
    if groups != [] {
      OneMoreThread(counts, groups[|groups| - 1].components, name);
    }
  }

  lemma {:induction false} GroupedDemands(names: seq<Name>, ranks: map<Name, int>, counts: map<Name, int>)
    ensures DemandsAdded(Grouped(names, ranks, counts), counts)
  {
    if names != [] {
      var before, last := names[..|names| - 1], names[|names| - 1];
      GroupedDemands(before, ranks, counts);
      JoinedDemands(Grouped(before, ranks, counts), counts, RankOf(ranks, last), last);
    }
  }

  /** Why a group that wants so many cores is refused when so many are given out already. */
  predicate RefusedFor(m: Machine, wanted: nat, given: nat, reason: Reason) {
    match reason
    case NeedsCores(cores, remaining) => cores == wanted > remaining == |m.cores| - given
    case LeavesTooFew(cores, left) =>
      cores == wanted <= |m.cores| - given && left == m.total - (given + wanted) * m.threads && left < m.minimum
    case _ => false
  }

  lemma {:induction false} ReasonHolds(m: Machine, counts: map<Name, int>, given: nat, g: RankGroup)
    requires !Fits(m, WantedAll(m, counts, g.components), given)
    ensures RefusedFor(m, WantedAll(m, counts, g.components), given, RefusalReason(m, counts, given, g))
  {
    LeftIs(m, given + WantedAll(m, counts, g.components));
  }

  /** What the group at `k` is found to be, the first `n` being admitted. */
  ghost predicate JudgedAt(m: Machine, counts: map<Name, int>, groups: seq<RankGroup>, n: nat, judged: seq<RankGroup>, k: nat) {
    && n <= |groups| == |judged| && k < |judged|
    && judged[k].components == groups[k].components && judged[k].rank == groups[k].rank && judged[k].demand == groups[k].demand
    && (judged[k].admitted <==> k < n)
    && (if k < n then judged[k].reason == NoReason
        else if k == n then RefusedFor(m, WantedAll(m, counts, judged[n].components), WantedAll(m, counts, Members(groups[..n])), judged[n].reason)
        else judged[k].reason == StoppedAt(judged[n].rank))
  }

  ghost predicate Unjudged(groups: seq<RankGroup>) {
    forall k :: 0 <= k < |groups| ==> groups[k].reason == NoReason && !groups[k].admitted
  }

  lemma {:induction false} VerdictsJudge(m: Machine, counts: map<Name, int>, groups: seq<RankGroup>, k: nat)
    requires k < |groups| && Unjudged(groups)
    ensures JudgedAt(m, counts, groups, AdmittedCount(m, counts, groups), Verdicts(m, counts, groups), k)
  {
    var n := AdmittedCount(m, counts, groups);
    assert Verdicts(m, counts, groups)[k] == Verdict(m, counts, groups, n, k);
    if n < |groups| {
      assert Verdicts(m, counts, groups)[n] == Verdict(m, counts, groups, n, n);
      ReasonHolds(m, counts, Given(m, counts, groups, n), groups[n]);
    }
  }

  lemma {:induction false} LayoutVerdicts(i: Input)
    requires Resolve(i).Resolved?
    ensures Resolve(i).layout.groups == Verdicts(MachineFor(i), i.counts, GroupsOf(i))
  {
  }

  lemma {:induction false} GroupsExplained(i: Input, groups: seq<RankGroup>, judged: seq<RankGroup>, k: nat)
    requires groups == GroupsOf(i) && judged == Verdicts(MachineFor(i), i.counts, groups) && k < |groups|
    ensures JudgedAt(MachineFor(i), i.counts, groups, AdmittedGroups(i), judged, k)
    ensures judged[k].demand == Threads(i.counts, judged[k].components)
  {
    GroupedDemands(Ranked(i.components, i.ranks), i.ranks, i.counts);
    GroupedUnjudged(Ranked(i.components, i.ranks), i.ranks, i.counts);
    VerdictsJudge(MachineFor(i), i.counts, groups, k);
  }

  /**
   * Each group asks for the threads of its components and keeps their rank; the first refused has the one
   * reason that holds of it, with its figures, and those behind it name its rank.
   */
  lemma {:induction false} GroupExplained(i: Input, l: Layout, k: nat)
    requires Resolve(i) == Resolved(l) && k < |l.groups|
    ensures JudgedAt(MachineFor(i), i.counts, GroupsOf(i), AdmittedGroups(i), l.groups, k)
    ensures l.groups[k].demand == Threads(i.counts, l.groups[k].components)
    ensures forall name :: name in l.groups[k].components ==> name in i.ranks && i.ranks[name] == l.groups[k].rank
  {
    LayoutVerdicts(i);
    GroupsExplained(i, GroupsOf(i), l.groups, k);
    forall name | name in l.groups[k].components ensures name in i.ranks && i.ranks[name] == l.groups[k].rank {
      GroupRank(i, k, name);
    }
  }

  lemma {:induction false} GroupRank(i: Input, k: nat, name: Name)
    requires k < |GroupsOf(i)| && name in GroupsOf(i)[k].components
    ensures name in i.ranks && i.ranks[name] == GroupsOf(i)[k].rank
  {
    var names := Ranked(i.components, i.ranks);
    GroupedFacts(names, i.ranks, i.counts);
    RankedFacts(i.components, i.ranks);
    HeldRank(GroupsOf(i), names, i.ranks, k, name);
  }

  lemma {:induction false} HeldRank(groups: seq<RankGroup>, names: seq<Name>, ranks: map<Name, int>, k: nat, name: Name)
    requires GroupsHold(groups, names, ranks) && k < |groups| && name in groups[k].components && forall n :: n in names ==> n in ranks
    ensures name in ranks && ranks[name] == groups[k].rank
  {
    GroupMember(groups, k, name);
    assert RankOf(ranks, name) == groups[k].rank;
  }

  lemma {:induction false} JoinedUnjudged(groups: seq<RankGroup>, rank: int, name: Name, count: int)
    requires Unjudged(groups)
    ensures Unjudged(Joined(groups, rank, name, count))
  {
  }

  lemma {:induction false} GroupedUnjudged(names: seq<Name>, ranks: map<Name, int>, counts: map<Name, int>)
    ensures Unjudged(Grouped(names, ranks, counts))
  {
    if names != [] {
      var before, last := names[..|names| - 1], names[|names| - 1];
      GroupedUnjudged(before, ranks, counts);
      JoinedUnjudged(Grouped(before, ranks, counts), RankOf(ranks, last), last, CountOf(counts, last));
    }
  }

  // ---- Physical cores --------------------------------------------------------------------------

  predicate PerformsOn(c: Core, id: int) { c.performance && c.physical == id }

  /** The first performance CPU of this physical core stands at `x`. */
  ghost predicate AppearsAt(cores: seq<Core>, id: int, x: nat) {
    x < |cores| && PerformsOn(cores[x], id) && forall y :: 0 <= y < x ==> !PerformsOn(cores[y], id)
  }

  ghost predicate Appears(cores: seq<Core>, id: int) { exists x: nat :: AppearsAt(cores, id, x) }

  /** The physical cores, each named by where its first CPU stands, in that order and none left out. */
  ghost predicate InOrderOfAppearance(cores: seq<Core>, ids: seq<int>) {
    && (forall k :: 0 <= k < |ids| ==> Appears(cores, ids[k]))
    && (forall j, k, x: nat, y: nat :: 0 <= j < k < |ids| && AppearsAt(cores, ids[j], x) && AppearsAt(cores, ids[k], y) ==> x < y)
    && (forall x :: 0 <= x < |cores| && cores[x].performance ==> cores[x].physical in ids)
  }

  lemma {:induction false} AppearsStill(cores: seq<Core>, last: Core, id: int, x: nat)
    requires x < |cores|
    ensures AppearsAt(cores + [last], id, x) <==> AppearsAt(cores, id, x)
  {
    var more := cores + [last];
    assert forall y :: 0 <= y < |cores| ==> more[y] == cores[y];
  }

  lemma {:induction false} OneMoreCore(cores: seq<Core>, last: Core, ids: seq<int>, more: seq<Core>, now: seq<int>)
    requires InOrderOfAppearance(cores, ids) && more == cores + [last]
    requires now == if last.performance && last.physical !in ids then ids + [last.physical] else ids
    ensures InOrderOfAppearance(more, now)
  {
    forall k | 0 <= k < |now| ensures Appears(more, now[k]) {
      if k < |ids| {
        assert Appears(cores, ids[k]);
        var x: nat :| AppearsAt(cores, ids[k], x);
        AppearsStill(cores, last, ids[k], x);
      } else {
        assert forall y :: 0 <= y < |cores| ==> more[y] == cores[y];
        assert AppearsAt(more, now[k], |cores|);
      }
    }
    forall x | 0 <= x < |more| && more[x].performance ensures more[x].physical in now {
      assert x < |cores| ==> more[x] == cores[x];
    }
    forall j, k, x: nat, y: nat | 0 <= j < k < |now| && AppearsAt(more, now[j], x) && AppearsAt(more, now[k], y) ensures x < y {
      assert Appears(cores, ids[j]);
      var first: nat :| AppearsAt(cores, ids[j], first);
      AppearsStill(cores, last, ids[j], first);
      assert first == x;
      if y < |cores| {
        AppearsStill(cores, last, now[k], y);
        assert now[k] in ids;
      }
    }
  }

  /** Physical cores are handed out in the order in which the topology first names them. */
  lemma {:induction false} CoresInOrder(cores: seq<Core>)
    ensures InOrderOfAppearance(cores, PerformanceIds(cores))
    ensures |PerformanceCores(cores)| == |PerformanceIds(cores)|
    ensures forall k, c :: 0 <= k < |PerformanceIds(cores)| ==>
      (c in PerformanceCores(cores)[k] <==> c in cores && PerformsOn(c, PerformanceIds(cores)[k]))
  {
    CoreIdsInOrder(cores);
    forall k, c | 0 <= k < |PerformanceIds(cores)|
      ensures c in PerformanceCores(cores)[k] <==> c in cores && PerformsOn(c, PerformanceIds(cores)[k])
    {
      assert PerformanceCores(cores)[k] == PerformanceCpus(cores, PerformanceIds(cores)[k]);
      assert IsPerformanceOn(PerformanceIds(cores)[k])(c) <==> PerformsOn(c, PerformanceIds(cores)[k]);
    }
  }

  lemma {:induction false} CoreIdsInOrder(cores: seq<Core>)
    ensures InOrderOfAppearance(cores, PerformanceIds(cores))
  {
    if cores != [] {
      var before, last := cores[..|cores| - 1], cores[|cores| - 1];
      CoreIdsInOrder(before);
      OneMoreCore(before, last, PerformanceIds(before), cores, PerformanceIds(cores));
    }
  }

  // ---- Components ------------------------------------------------------------------------------

  /** These are the first CPUs of those presented, as many as counted or all there are. */
  ghost predicate FrontOf(cpus: seq<int>, presented: seq<Core>, count: int) {
    && |cpus| <= |presented| && (forall k :: 0 <= k < |cpus| ==> cpus[k] == presented[k].cpu)
    && (|cpus| == count || (count < 0 && cpus == []) || (count > |presented| && |cpus| == |presented|))
  }

  lemma {:induction false} SlotFront(m: Machine, start: nat, end: nat, count: int, cpus: seq<int>)
    requires start <= end <= |m.cores| && cpus == SlotCpus(m, start, end - start, count)
    ensures FrontOf(cpus, Flatten(m.cores[start..end]), count)
  {
  }

  lemma {:induction false} WantedByOne(m: Machine, counts: map<Name, int>, name: Name)
    ensures WantedAll(m, counts, [name]) == Wanted(m, counts, name)
  {
    assert [name][..0] == [];
    assert WantedAll(m, counts, [name]) == WantedAll(m, counts, []) + Wanted(m, counts, name);
  }

  /** The component's CPUs come from this run of cores. */
  ghost predicate TakenFrom(m: Machine, counts: map<Name, int>, name: Name, cpus: seq<int>, start: nat) {
    start + Wanted(m, counts, name) <= |m.cores| && cpus == SlotCpus(m, start, Wanted(m, counts, name), CountOf(counts, name))
  }

  lemma {:induction false} SlotOf(i: Input, name: Name) returns (start: nat)
    requires Distinct(i.components) && name in PlacedOf(i)
    ensures TakenFrom(MachineFor(i), i.counts, name, PlacedOf(i)[name], start)
  {
    start := AdmittedSlot(i, name);
  }

  lemma {:induction false} FrontTaken(m: Machine, counts: map<Name, int>, name: Name, cpus: seq<int>, start: nat, end: nat)
    requires TakenFrom(m, counts, name, cpus, start) && end == start + Wanted(m, counts, name)
    ensures start <= end <= |m.cores| && end - start == WantedAll(m, counts, [name])
    ensures FrontOf(cpus, Flatten(m.cores[start..end]), if name in counts then counts[name] else 0)
  {
    WantedByOne(m, counts, name);
    SlotFront(m, start, end, CountOf(counts, name), cpus);
  }

  /** A component's CPUs are the first of those its run of cores presents, as many as it has threads. */
  lemma {:induction false} CpusFromTheFront(i: Input, name: Name) returns (start: nat, end: nat)
    requires Distinct(i.components) && name in PlacedOf(i)
    ensures var m := MachineFor(i);
      && start <= end <= |m.cores| && end - start == WantedAll(m, i.counts, [name])
      && FrontOf(PlacedOf(i)[name], Flatten(m.cores[start..end]), if name in i.counts then i.counts[name] else 0)
  {
    start := SlotOf(i, name);
    end := start + Wanted(MachineFor(i), i.counts, name);
    FrontTaken(MachineFor(i), i.counts, name, PlacedOf(i)[name], start, end);
  }

  // ---- Entries ---------------------------------------------------------------------------------

  /** The entry says of its component what was declared and resolved. */
  ghost predicate EntrySays(i: Input, l: Layout, e: Entry) {
    && (e.backend.Some? <==> e.name in l.quill) && (e.name in l.quill ==> e.backend == Some(l.quill[e.name]))
    && match e.standing
       case NotRanked => e.name !in i.ranks
       case Admitted(rank) => e.name in i.ranks && i.ranks[e.name] == rank && JudgedSo(l, e.name, true, NoReason)
       case Demoted(rank, reason) => e.name in i.ranks && i.ranks[e.name] == rank && JudgedSo(l, e.name, false, reason)
  }

  /** A group of this component was judged so. */
  ghost predicate JudgedSo(l: Layout, name: Name, admitted: bool, reason: Reason) {
    exists g :: 0 <= g < |l.groups| && name in l.groups[g].components && l.groups[g].admitted == admitted && l.groups[g].reason == reason
  }

  lemma {:induction false} GroupEntryIs(l: Layout, g: RankGroup, k: nat, e: Entry) returns (name: Name)
    requires k <= |g.components| && e in GroupEntries(l, g, k)
    ensures name in g.components && e == RankedEntry(l, g, name)
  {
    name := g.components[k - 1];
    if e != RankedEntry(l, g, name) {
      assert e in GroupEntries(l, g, k - 1);
      name := GroupEntryIs(l, g, k - 1, e);
    }
  }

  lemma {:induction false} RankedEntryIs(l: Layout, k: nat, e: Entry) returns (g: nat, name: Name)
    requires k <= |l.groups| && e in RankedEntries(l, k)
    ensures g < |l.groups| && name in l.groups[g].components && e == RankedEntry(l, l.groups[g], name)
  {
    var last := l.groups[k - 1];
    if e in RankedEntries(l, k - 1) {
      g, name := RankedEntryIs(l, k - 1, e);
    } else {
      assert e in GroupEntries(l, last, |last.components|);
      g := k - 1;
      name := GroupEntryIs(l, last, |last.components|, e);
    }
  }

  lemma {:induction false} UnrankedEntryIs(l: Layout, k: nat, e: Entry) returns (name: Name)
    requires k <= |l.unranked| && e in UnrankedEntries(l, k)
    ensures name in l.unranked && e == Entry(name, NotRanked, "", BackendOf(l, name))
  {
    name := l.unranked[k - 1];
    if e != Entry(name, NotRanked, "", BackendOf(l, name)) {
      assert e in UnrankedEntries(l, k - 1);
      name := UnrankedEntryIs(l, k - 1, e);
    }
  }

  lemma {:induction false} RankedEntrySays(i: Input, l: Layout, g: nat, name: Name)
    requires g < |l.groups| && name in l.groups[g].components && name in i.ranks && i.ranks[name] == l.groups[g].rank
    requires l.groups[g].admitted ==> l.groups[g].reason == NoReason
    ensures EntrySays(i, l, RankedEntry(l, l.groups[g], name))
  {
    assert JudgedSo(l, name, l.groups[g].admitted, l.groups[g].reason);
  }

  /** Every entry of the file gives its component's rank, verdict, reason and logging backend. */
  lemma {:induction false} EntriesSay(i: Input, l: Layout, e: Entry)
    requires Resolve(i) == Resolved(l) && e in Render(l).entries
    ensures EntrySays(i, l, e)
  {
    if e in RankedEntries(l, |l.groups|) {
      var g, name := RankedEntryIs(l, |l.groups|, e);
      GroupExplained(i, l, g);
      RankedEntrySays(i, l, g, name);
    } else {
      var name := UnrankedEntryIs(l, |l.unranked|, e);
      UnrankedHasNoRank(i.components, i.ranks, name);
    }
  }

  /** Components without a rank are listed by name, each as often as it was declared. */
  lemma {:induction false} UnrankedInOrder(i: Input, l: Layout, a: nat, b: nat)
    requires Resolve(i) == Resolved(l)
    ensures multiset(l.unranked) == multiset(Filter(i.components, n => n !in i.ranks))
    ensures a < b < |l.unranked| ==> NameLeq(l.unranked[a], l.unranked[b])
  {
    NameOrderTotal();
    SortSorts(Filter(i.components, HasNoRank(i.ranks)), NameLeq);
    SameFilter(i.components, HasNoRank(i.ranks), n => n !in i.ranks);
  }

  lemma {:induction false} SameFilter(names: seq<Name>, p: Name -> bool, q: Name -> bool)
    requires forall n :: p(n) == q(n)
    ensures Filter(names, p) == Filter(names, q)
  {
    if names != [] {
      SameFilter(names[..|names| - 1], p, q);
    }
  }
}
