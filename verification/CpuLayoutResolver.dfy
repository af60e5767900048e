/** The resolution as it is carried out: loops over the cores and groups, each proved against the specification. */
module CpuLayoutResolver {
  import opened Sequences
  import opened CpuLayout

  lemma {:induction false} FilterStep<T(!new)>(s: seq<T>, keep: T -> bool, k: nat)
    requires k < |s|
    ensures Filter(s[..k + 1], keep) == Filter(s[..k], keep) + if keep(s[k]) then [s[k]] else []
  {
    assert s[..k + 1][..k] == s[..k];
  }

  // ---- Counting siblings -----------------------------------------------------------------------

  lemma {:induction false} MaxSiblingsIsGreatest(cores: seq<Core>, k: nat)
    requires k <= |cores|
    ensures forall i :: 0 <= i < k ==> Siblings(cores, cores[i].physical) <= MaxSiblings(cores, k)
    ensures k > 0 ==> exists i :: 0 <= i < k && Siblings(cores, cores[i].physical) == MaxSiblings(cores, k)
  {
    if k > 0 {
      MaxSiblingsIsGreatest(cores, k - 1);
      if k > 1 && Siblings(cores, cores[k - 1].physical) < MaxSiblings(cores, k) {
        var i :| 0 <= i < k - 1 && Siblings(cores, cores[i].physical) == MaxSiblings(cores, k - 1);
      }
    }
  }

  ghost predicate Counted(cores: seq<Core>, counts: map<int, nat>) {
    && (forall id :: Siblings(cores, id) == if id in counts then counts[id] else 0)
    && (forall i :: 0 <= i < |cores| ==> cores[i].physical in counts)
  }

  lemma {:induction false} CountedStep(cores: seq<Core>, c: Core, counts: map<int, nat>)
    requires Counted(cores, counts)
    ensures Counted(cores + [c], counts[c.physical := (if c.physical in counts then counts[c.physical] else 0) + 1])
  {
    assert (cores + [c])[..|cores|] == cores;
  }

  method ThreadsPerPhysicalCore(cores: seq<Core>) returns (threads: nat)
    ensures threads == ThreadsPerCore(cores)
  {
    if cores == [] {
      return 1;
    }
    var counts: map<int, nat> := map[];
    for k := 0 to |cores|
      invariant Counted(cores[..k], counts)
    {
      CountedStep(cores[..k], cores[k], counts);
      assert cores[..k + 1] == cores[..k] + [cores[k]];
      var id := cores[k].physical;
      counts := counts[id := (if id in counts then counts[id] else 0) + 1];
    }
    assert cores[..|cores|] == cores;
    threads := Greatest(cores, counts);
    MaxSiblingsIsGreatest(cores, |cores|);
  }

  method Greatest(cores: seq<Core>, counts: map<int, nat>) returns (greatest: nat)
    requires cores != [] && Counted(cores, counts)
    ensures forall i :: 0 <= i < |cores| ==> Siblings(cores, cores[i].physical) <= greatest
    ensures exists i :: 0 <= i < |cores| && Siblings(cores, cores[i].physical) == greatest
  {
    greatest := counts[cores[0].physical];
    for k := 1 to |cores|
      invariant forall i :: 0 <= i < k ==> Siblings(cores, cores[i].physical) <= greatest
      invariant exists i :: 0 <= i < |cores| && Siblings(cores, cores[i].physical) == greatest
    {
      if counts[cores[k].physical] > greatest {
        greatest := counts[cores[k].physical];
      }
    }
  }

  // ---- Collecting performance cores ------------------------------------------------------------

  lemma {:induction false} PerformanceIdsComplete(cores: seq<Core>)
    ensures Distinct(PerformanceIds(cores))
    ensures forall id :: id in PerformanceIds(cores) <==> exists c :: c in cores && c.performance && c.physical == id
  {
    if cores != [] {
      var n := |cores| - 1;
      PerformanceIdsComplete(cores[..n]);
      assert cores == cores[..n] + [cores[n]];
    }
  }

  lemma {:induction false} PerformanceCpusStep(cores: seq<Core>, k: nat, id: int)
    requires k < |cores|
    ensures PerformanceCpus(cores[..k + 1], id) ==
            if cores[k].performance && cores[k].physical == id then PerformanceCpus(cores[..k], id) + [cores[k]]
            else PerformanceCpus(cores[..k], id)
  {
    FilterStep(cores, IsPerformanceOn(id), k);
    assert PerformanceCpus(cores[..k], id) + [] == PerformanceCpus(cores[..k], id);
  }

  lemma {:induction false} KnownCoreStep(cores: seq<Core>, k: nat, i: nat)
    requires k < |cores| && cores[k].performance
    requires i < |PerformanceIds(cores[..k])| && PerformanceIds(cores[..k])[i] == cores[k].physical
    ensures PerformanceCores(cores[..k + 1]) ==
            PerformanceCores(cores[..k])[i := PerformanceCores(cores[..k])[i] + [cores[k]]]
  {
    assert cores[..k + 1][..k] == cores[..k];
    PerformanceIdsComplete(cores[..k]);
    forall id { PerformanceCpusStep(cores, k, id); }
  }

  lemma {:induction false} NewCoreStep(cores: seq<Core>, k: nat)
    requires k < |cores| && cores[k].performance && cores[k].physical !in PerformanceIds(cores[..k])
    ensures PerformanceCores(cores[..k + 1]) == PerformanceCores(cores[..k]) + [[cores[k]]]
  {
    assert cores[..k + 1][..k] == cores[..k];
    PerformanceIdsComplete(cores[..k]);
    forall id { PerformanceCpusStep(cores, k, id); }
    FilterNone(cores[..k], IsPerformanceOn(cores[k].physical));
    assert [] + [cores[k]] == [cores[k]];
  }

  lemma {:induction false} PerformanceStep(cores: seq<Core>, k: nat)
    requires k < |cores|
    ensures !cores[k].performance ==> PerformanceCores(cores[..k + 1]) == PerformanceCores(cores[..k])
    ensures forall i ::
              0 <= i < |PerformanceIds(cores[..k])| && cores[k].performance && PerformanceIds(cores[..k])[i] == cores[k].physical
              ==> PerformanceCores(cores[..k + 1]) ==
                  PerformanceCores(cores[..k])[i := PerformanceCores(cores[..k])[i] + [cores[k]]]
    ensures cores[k].performance && cores[k].physical !in PerformanceIds(cores[..k]) ==>
              PerformanceCores(cores[..k + 1]) == PerformanceCores(cores[..k]) + [[cores[k]]]
  {
    if !cores[k].performance {
      assert cores[..k + 1][..k] == cores[..k];
      forall id { PerformanceCpusStep(cores, k, id); }
    } else if cores[k].physical !in PerformanceIds(cores[..k]) {
      NewCoreStep(cores, k);
    } else {
      forall i | 0 <= i < |PerformanceIds(cores[..k])| && PerformanceIds(cores[..k])[i] == cores[k].physical {
        KnownCoreStep(cores, k, i);
      }
    }
  }

  method CollectPerformanceCores(cores: seq<Core>) returns (groups: seq<seq<Core>>)
    ensures groups == PerformanceCores(cores)
  {
    groups := [];
    var position: map<int, nat> := map[];
    for k := 0 to |cores|
      invariant groups == PerformanceCores(cores[..k])
      invariant forall id :: id in position <==> id in PerformanceIds(cores[..k])
      invariant forall id :: id in position ==> position[id] < |groups| && PerformanceIds(cores[..k])[position[id]] == id
    {
      var core := cores[k];
      PerformanceStep(cores, k);
      assert cores[..k + 1][..k] == cores[..k];
      if !core.performance {
        continue;
      }
      if core.physical !in position {
        position := position[core.physical := |groups|];
        groups := groups + [[core]];
      } else {
        var at := position[core.physical];
        groups := groups[at := groups[at] + [core]];
      }
    }
    assert cores[..|cores|] == cores;
  }

  // ---- Grouping by rank ------------------------------------------------------------------------

  lemma {:induction false} GroupedStep(ranked: seq<Name>, ranks: map<Name, int>, counts: map<Name, int>, k: nat)
    requires k < |ranked|
    ensures Grouped(ranked[..k + 1], ranks, counts)
         == Joined(Grouped(ranked[..k], ranks, counts), RankOf(ranks, ranked[k]), ranked[k], CountOf(counts, ranked[k]))
  {
    assert ranked[..k + 1][..k] == ranked[..k];
  }

  method JoinGroup(groups: seq<RankGroup>, rank: int, name: Name, count: int) returns (now: seq<RankGroup>)
    ensures now == Joined(groups, rank, name, count)
  {
    if groups != [] && groups[|groups| - 1].rank == rank {
      var last := groups[|groups| - 1];
      now := groups[..|groups| - 1] + [last.(components := last.components + [name], demand := last.demand + count)];
    } else {
      now := groups + [RankGroup(rank, [name], count, false, NoReason)];
    }
  }

  method GroupByRank(ranked: seq<Name>, ranks: map<Name, int>, counts: map<Name, int>) returns (groups: seq<RankGroup>)
    ensures groups == Grouped(ranked, ranks, counts)
  {
    groups := [];
    for k := 0 to |ranked|
      invariant groups == Grouped(ranked[..k], ranks, counts)
    {
      GroupedStep(ranked, ranks, counts, k);
      var name := ranked[k];
      groups := JoinGroup(groups, RankOf(ranks, name), name, CountOf(counts, name));
    }
    assert ranked[..|ranked|] == ranked;
  }

  lemma {:induction false} GroupedNotYetAdmitted(names: seq<Name>, ranks: map<Name, int>, counts: map<Name, int>)
    ensures forall k :: 0 <= k < |Grouped(names, ranks, counts)| ==> !Grouped(names, ranks, counts)[k].admitted
  {
    if names != [] {
      GroupedNotYetAdmitted(names[..|names| - 1], ranks, counts);
    }
  }

  method CoresNeeded(count: int, threads: nat) returns (k: nat)
    ensures k == CoresForThreads(count, threads)
  {
    if count <= 0 {
      return 0;
    }
    CoresForThreadsLeast(count, threads);
    var per := if threads > 1 then threads else 1;
    return (count + per - 1) / per;
  }

  // ---- Placing the components of an admitted group ---------------------------------------------

  lemma {:induction false} WantedMonotone(m: Machine, counts: map<Name, int>, names: seq<Name>, k: nat)
    requires k <= |names|
    ensures WantedAll(m, counts, names[..k]) <= WantedAll(m, counts, names)
  {
    assert names == names[..k] + names[k..];
    WantedConcat(m, counts, names[..k], names[k..]);
  }

  method CpusOfSlot(m: Machine, start: nat, wanted: nat, count: int) returns (cpus: seq<int>)
    requires start + wanted <= |m.cores|
    ensures cpus == SlotCpus(m, start, wanted, count)
  {
    var all: seq<int> := [];
    var slot := m.cores[start..start + wanted];
    for k := 0 to |slot|
      invariant all == CpuIds(Flatten(slot[..k]))
    {
      assert slot[..k + 1] == slot[..k] + [slot[k]];
      FlattenConcat(slot[..k], [slot[k]]);
      assert Flatten([slot[k]]) == slot[k] + Flatten([]);
      all := all + CpuIds(slot[k]);
    }
    assert slot[..|slot|] == slot;
    cpus := Take(all, count);
  }

  lemma {:induction false} PlacedStep(m: Machine, counts: map<Name, int>, before: seq<Name>, name: Name)
    requires WantedAll(m, counts, before) + Wanted(m, counts, name) <= |m.cores|
    ensures WantedAll(m, counts, before + [name]) == WantedAll(m, counts, before) + Wanted(m, counts, name)
    ensures var start := WantedAll(m, counts, before);
      Placed(m, counts, before + [name]) ==
      Placed(m, counts, before)[name := SlotCpus(m, start, Wanted(m, counts, name), CountOf(counts, name))]
  {
    assert (before + [name])[..|before|] == before;
  }

  lemma {:induction false} RoomForNext(m: Machine, counts: map<Name, int>, placed: seq<Name>, names: seq<Name>, k: nat)
    requires k < |names| && WantedAll(m, counts, placed + names) <= |m.cores|
    ensures WantedAll(m, counts, placed + names[..k]) + Wanted(m, counts, names[k]) <= |m.cores|
    ensures placed + names[..k + 1] == placed + names[..k] + [names[k]]
  {
    var next := placed + names[..k + 1];
    assert next == placed + names[..k] + [names[k]];
    assert (placed + names)[..|next|] == next;
    WantedMonotone(m, counts, placed + names, |next|);
    assert next[..|next| - 1] == placed + names[..k];
  }

  /** Adds the components of one group behind `placed`, one after another. */
  method PlaceGroup(m: Machine, counts: map<Name, int>, ghost placed: seq<Name>, names: seq<Name>,
                    cores: map<Name, seq<int>>, given: nat)
    returns (newCores: map<Name, seq<int>>, newGiven: nat)
    requires WantedAll(m, counts, placed + names) <= |m.cores|
    requires WantedAll(m, counts, placed) <= |m.cores|
    requires cores == Placed(m, counts, placed) && given == WantedAll(m, counts, placed)
    ensures newGiven == WantedAll(m, counts, placed + names)
    ensures newCores == Placed(m, counts, placed + names)
  {
    newCores, newGiven := cores, given;
    ghost var sofar := placed;
    assert placed + names[..0] == placed;
    for k := 0 to |names|
      invariant sofar == placed + names[..k]
      invariant newGiven == WantedAll(m, counts, sofar) <= |m.cores|
      invariant newCores == Placed(m, counts, sofar)
    {
      RoomForNext(m, counts, placed, names, k);
      PlacedStep(m, counts, sofar, names[k]);
      var count := CountOf(counts, names[k]);
      var wanted := CoresNeeded(count, m.threads);
      var cpus := CpusOfSlot(m, newGiven, wanted, count);
      newCores := newCores[names[k] := cpus];
      newGiven := newGiven + wanted;
      sofar := sofar + [names[k]];
    }
    assert names[..|names|] == names;
  }

  // ---- Admission -------------------------------------------------------------------------------

  method SumWanted(m: Machine, counts: map<Name, int>, names: seq<Name>) returns (sum: nat)
    ensures sum == WantedAll(m, counts, names)
  {
    sum := 0;
    for k := 0 to |names|
      invariant sum == WantedAll(m, counts, names[..k])
    {
      assert names[..k + 1][..k] == names[..k];
      var wanted := CoresNeeded(CountOf(counts, names[k]), m.threads);
      sum := sum + wanted;
    }
    assert names[..|names|] == names;
  }

  lemma {:induction false} AdmittedCountIs(m: Machine, counts: map<Name, int>, groups: seq<RankGroup>, n: nat)
    requires n <= |groups|
    requires forall j :: 0 <= j < n ==> GroupFits(m, counts, groups, j)
    requires n < |groups| ==> !GroupFits(m, counts, groups, n)
    ensures n == AdmittedCount(m, counts, groups)
  {
  }

  /** The first `k` groups have been judged, and the components of the first `n` placed. */
  ghost predicate Judged(m: Machine, counts: map<Name, int>, groups: seq<RankGroup>, k: nat, n: nat, judged: seq<RankGroup>) {
    && n <= k <= |groups| && |judged| == k
    && (forall j :: 0 <= j < n ==> GroupFits(m, counts, groups, j))
    && (n < k ==> !GroupFits(m, counts, groups, n))
    && (forall j :: 0 <= j < k ==> judged[j] == Verdict(m, counts, groups, n, j))
  }

  lemma {:induction false} JudgedAdmit(m: Machine, counts: map<Name, int>, groups: seq<RankGroup>, k: nat, judged: seq<RankGroup>)
    requires k < |groups| && Judged(m, counts, groups, k, k, judged) && GroupFits(m, counts, groups, k)
    ensures Judged(m, counts, groups, k + 1, k + 1, judged + [groups[k].(admitted := true)])
  {
  }

  lemma {:induction false} JudgedRefuse(m: Machine, counts: map<Name, int>, groups: seq<RankGroup>, k: nat, judged: seq<RankGroup>)
    requires k < |groups| && Judged(m, counts, groups, k, k, judged) && !GroupFits(m, counts, groups, k)
    ensures Judged(m, counts, groups, k + 1, k,
                   judged + [groups[k].(reason := RefusalReason(m, counts, Given(m, counts, groups, k), groups[k]))])
  {
  }

  lemma {:induction false} JudgedStop(m: Machine, counts: map<Name, int>, groups: seq<RankGroup>, k: nat, n: nat, judged: seq<RankGroup>)
    requires n < k < |groups| && Judged(m, counts, groups, k, n, judged)
    ensures Judged(m, counts, groups, k + 1, n, judged + [groups[k].(reason := StoppedAt(groups[n].rank))])
  {
  }

  lemma {:induction false} JudgedAll(m: Machine, counts: map<Name, int>, groups: seq<RankGroup>, n: nat, judged: seq<RankGroup>)
    requires Judged(m, counts, groups, |groups|, n, judged)
    ensures n == AdmittedCount(m, counts, groups) && judged == Verdicts(m, counts, groups)
  {
    AdmittedCountIs(m, counts, groups, n);
  }

  method CpusLeft(m: Machine, given: nat) returns (left: int)
    ensures left == Left(m, given)
  {
    LeftIs(m, given);
    left := m.total - given * m.threads;
  }

  method PlaceNext(m: Machine, counts: map<Name, int>, groups: seq<RankGroup>, k: nat, cores: map<Name, seq<int>>, given: nat)
    returns (newCores: map<Name, seq<int>>, newGiven: nat)
    requires k < |groups| && GroupFits(m, counts, groups, k)
    requires given == Given(m, counts, groups, k) <= |m.cores|
    requires cores == Placed(m, counts, Members(groups[..k]))
    ensures newGiven == Given(m, counts, groups, k + 1) <= |m.cores|
    ensures newCores == Placed(m, counts, Members(groups[..k + 1]))
  {
    MembersStep(m, counts, groups, k);
    newCores, newGiven := PlaceGroup(m, counts, Members(groups[..k]), groups[k].components, cores, given);
  }

  /** Judges a group when `given` cores are gone. */
  method JudgeNext(m: Machine, counts: map<Name, int>, group: RankGroup, given: nat) returns (verdict: RankGroup)
    requires given <= |m.cores| && !group.admitted
    ensures verdict == if Fits(m, WantedAll(m, counts, group.components), given) then group.(admitted := true)
                       else group.(reason := RefusalReason(m, counts, given, group))
  {
    var wanted := SumWanted(m, counts, group.components);
    var remaining := |m.cores| - given;
    var left := CpusLeft(m, given + wanted);
    if wanted > remaining {
      verdict := group.(reason := NeedsCores(wanted, remaining));
    } else if left < m.minimum {
      verdict := group.(reason := LeavesTooFew(wanted, left));
    } else {
      verdict := group.(admitted := true);
    }
  }

  /** Groups are judged in rank order until one does not fit; the rest are not considered. */
  method Admit(m: Machine, counts: map<Name, int>, groups: seq<RankGroup>)
    returns (judged: seq<RankGroup>, cores: map<Name, seq<int>>)
    requires forall k :: 0 <= k < |groups| ==> !groups[k].admitted
    ensures judged == Verdicts(m, counts, groups)
    ensures Given(m, counts, groups, AdmittedCount(m, counts, groups)) <= |m.cores|
    ensures cores == Placed(m, counts, Members(groups[..AdmittedCount(m, counts, groups)]))
  {
    judged, cores := [], map[];
    var given: nat := 0;
    var stopped, stoppedAt := false, 0;
    ghost var n: nat := 0;
    assert groups[..0] == [];
    for k := 0 to |groups|
      invariant Judged(m, counts, groups, k, n, judged)
      invariant if stopped then n < k && stoppedAt == groups[n].rank else n == k
      invariant given == Given(m, counts, groups, n) <= |m.cores|
      invariant cores == Placed(m, counts, Members(groups[..n]))
    {
      if stopped {
        JudgedStop(m, counts, groups, k, n, judged);
        judged := judged + [groups[k].(reason := StoppedAt(stoppedAt))];
        continue;
      }
      var verdict := JudgeNext(m, counts, groups[k], given);
      if verdict.admitted {
        cores, given := PlaceNext(m, counts, groups, k, cores, given);
        JudgedAdmit(m, counts, groups, k, judged);
        n := k + 1;
      } else {
        JudgedRefuse(m, counts, groups, k, judged);
        stopped, stoppedAt := true, verdict.rank;
      }
      judged := judged + [verdict];
    }
    JudgedAll(m, counts, groups, n, judged);
  }

  // ---- Spreading the logging backends ----------------------------------------------------------

  method SpreadBackends(names: seq<Name>, background: seq<int>) returns (backends: map<Name, int>)
    requires background != []
    ensures backends == RoundRobin(names, background)
  {
    backends := map[];
    for k := 0 to |names|
      invariant backends == RoundRobin(names[..k], background)
    {
      assert names[..k + 1][..k] == names[..k];
      backends := backends[names[k] := background[k % |background|]];
    }
    assert names[..|names|] == names;
  }

  method ResolveLayout(i: Input) returns (outcome: Outcome)
    ensures outcome == Resolve(i)
  {
    var claimable := Claimable(i.topology, i.reserveCpu0);
    if i.minimum >= |claimable| {
      return LayoutError;
    }
    var groups := GroupByRank(Ranked(i.components, i.ranks), i.ranks, i.counts);
    GroupedNotYetAdmitted(Ranked(i.components, i.ranks), i.ranks, i.counts);
    var cores := CollectPerformanceCores(claimable);
    var threads := ThreadsPerPhysicalCore(claimable);
    var m := Machine(cores, threads, |claimable|, i.minimum);
    var judged, componentCores := Admit(m, i.counts, groups);
    var hot := HotCpus(componentCores);
    var background, idle := Background(claimable, hot), IdleSiblings(claimable, hot);
    var unranked := Unranked(i.components, i.ranks);
    var backends: map<Name, int> := map[];
    if background == [] {
      if i.quill != [] {
        return DivisionByZero;
      }
    } else {
      backends := SpreadBackends(Sort(i.quill, NameLeq), background);
    }
    return Resolved(Layout(claimable, background, idle, componentCores, judged, unranked, backends));
  }
}
