/** Exactly when every admitted component is given a CPU for each of its threads. */
module CpuLayoutQuotas {
  import opened Sequences
  import opened CpuLayout
  import opened CpuLayoutTiers
  import opened CpuLayoutAdmission
  import opened CpuLayoutStability

  function AtLeastZero(count: int): nat { if count < 0 then 0 else count }

  /** Admission can hand out the first `k + 1` performance cores without breaking the reserve. */
  predicate Reachable(m: Machine, k: nat) {
    k < |m.cores| && Left(m, k + 1) >= m.minimum
  }

  /** Every core that admission can ever hand out presents as many CPUs as the machine's largest. */
  ghost predicate ReachableCoresUniform(m: Machine) {
    forall k: nat :: Reachable(m, k) ==> |m.cores[k]| == m.threads
  }

  lemma {:induction false} FlattenLength(ss: seq<seq<Core>>, each: nat)
    requires forall k :: 0 <= k < |ss| ==> |ss[k]| == each
    ensures |Flatten(ss)| == |ss| * each
  {
    if ss != [] {
      FlattenLength(ss[1..], each);
      assert |ss| * each == (|ss| - 1) * each + each;
    }
  }

  lemma {:induction false} FlattenShort(ss: seq<seq<Core>>, each: nat)
    requires forall k :: 0 <= k < |ss| ==> |ss[k]| <= each
    ensures |Flatten(ss)| <= |ss| * each
    ensures (exists k :: 0 <= k < |ss| && |ss[k]| < each) ==> |Flatten(ss)| < |ss| * each
  {
    if ss != [] {
      FlattenShort(ss[1..], each);
      assert |ss| * each == (|ss| - 1) * each + each;
      if k :| 0 <= k < |ss| && |ss[k]| < each {
        assert k > 0 ==> ss[1..][k - 1] == ss[k];
      }
    }
  }

  lemma {:induction false} LeftDecreases(m: Machine, a: nat, b: nat)
    requires a <= b
    ensures Left(m, b) <= Left(m, a)
    decreases b - a
  {
    if a < b {
      LeftDecreases(m, a, b - 1);
    }
  }

  lemma {:induction false} ThreadsPositive(cores: seq<Core>)
    requires cores != []
    ensures ThreadsPerCore(cores) >= 1
  {
    SiblingsAtMost(cores, cores[|cores| - 1].physical);
  }

  /** A slot of uniform cores holds every thread, and no fewer cores could. */
  lemma {:induction false} SlotHoldsThreads(m: Machine, start: nat, count: int)
    requires m.threads >= 1 && start + CoresForThreads(count, m.threads) <= |m.cores|
    requires forall k :: start <= k < start + CoresForThreads(count, m.threads) ==> |m.cores[k]| == m.threads
    ensures |SlotCpus(m, start, CoresForThreads(count, m.threads), count)| == AtLeastZero(count)
    ensures forall fewer: nat :: fewer < CoresForThreads(count, m.threads) ==> fewer * m.threads < count
  {
    var wanted := CoresForThreads(count, m.threads);
    if count > 0 {
      CoresForThreadsLeast(count, m.threads);
      FlattenLength(m.cores[start..start + wanted], m.threads);
      forall fewer: nat | fewer < wanted ensures fewer * m.threads < count {
        MulMonotone(fewer, wanted - 1, m.threads);
      }
    }
  }

  lemma {:induction false} SlotReachable(i: Input, k: nat)
    requires Distinct(i.components) && k < |AdmittedNames(i)|
    ensures var m, names := MachineFor(i), AdmittedNames(i);
      var end := WantedAll(m, i.counts, names[..k]) + Wanted(m, i.counts, names[k]);
      end <= |m.cores| && forall q: nat :: q < end ==> Reachable(m, q)
  {
    var m, names := MachineFor(i), AdmittedNames(i);
    AdmittedFits(m, i.counts, GroupsOf(i), AdmittedGroups(i));
    SlotInRange(m, i.counts, names, k);
    var given := Given(m, i.counts, GroupsOf(i), AdmittedGroups(i));
    var end := WantedAll(m, i.counts, names[..k]) + Wanted(m, i.counts, names[k]);
    forall q: nat | q < end ensures Reachable(m, q) {
      LeftDecreases(m, q + 1, given);
    }
  }

  /** The slot of an admitted component, and the cores in it. */
  lemma {:induction false} AdmittedSlot(i: Input, name: Name) returns (start: nat)
    requires Distinct(i.components) && name in PlacedOf(i)
    ensures var m := MachineFor(i); var wanted := Wanted(m, i.counts, name);
      && start + wanted <= |m.cores|
      && PlacedOf(i)[name] == SlotCpus(m, start, wanted, CountOf(i.counts, name))
      && forall q: nat :: q < start + wanted ==> Reachable(m, q)
  {
    var m, names := MachineFor(i), AdmittedNames(i);
    AdmittedNamesPrefix(i);
    AdmittedDistinct(i);
    var k :| 0 <= k < |names| && names[k] == name;
    AdmittedFits(m, i.counts, GroupsOf(i), AdmittedGroups(i));
    PlacedAtIndex(m, i.counts, names, k);
    SlotReachable(i, k);
    start := WantedAll(m, i.counts, names[..k]);
  }

  /** On a uniform machine each admitted component gets exactly its threads, on the least whole cores. */
  lemma {:induction false} QuotaMet(i: Input, name: Name)
    requires Distinct(i.components) && Claimable(i.topology, i.reserveCpu0) != []
    requires ReachableCoresUniform(MachineFor(i)) && name in PlacedOf(i)
    ensures |PlacedOf(i)[name]| == AtLeastZero(CountOf(i.counts, name))
    ensures forall fewer: nat :: fewer < Wanted(MachineFor(i), i.counts, name) ==>
              fewer * MachineFor(i).threads < CountOf(i.counts, name)
  {
    var start := AdmittedSlot(i, name);
    ThreadsPositive(Claimable(i.topology, i.reserveCpu0));
    SlotHoldsThreads(MachineFor(i), start, CountOf(i.counts, name));
  }

  // ---- The converse ----------------------------------------------------------------------------

  /** One component asking for as many threads as `cores` of the largest cores would present. */
  function Asking(topology: seq<Core>, reserveCpu0: bool, minimum: int, threads: int): Input {
    Input(["a"], map["a" := 0], map["a" := threads], topology, minimum, reserveCpu0, [])
  }

  lemma {:induction false} AskingGroups(i: Input, threads: int)
    requires i == Asking(i.topology, i.reserveCpu0, i.minimum, threads)
    ensures GroupsOf(i) == [RankGroup(0, ["a"], threads, false, NoReason)]
  {
    assert ["a"][..0] == [] && ["a"][1..] == [];
    assert Filter(["a"], HasRank(i.ranks)) == Filter([], HasRank(i.ranks)) + ["a"];
    assert Sort(["a"], RankOrder(i.ranks)) == Insert("a", [], RankOrder(i.ranks));
    assert Ranked(i.components, i.ranks) == ["a"];
    assert Grouped(["a"], i.ranks, i.counts) == Joined(Grouped([], i.ranks, i.counts), 0, "a", threads);
  }

  lemma {:induction false} WholeCoresWanted(cores: nat, threads: nat)
    requires threads >= 1
    ensures CoresForThreads(cores * threads, threads) == cores
  {
    if cores > 0 {
      assert cores * threads == (cores - 1) * threads + threads;
      WholeCoresWanted(cores - 1, threads);
    }
  }

  /** A component asking for whole cores is admitted whenever that many can be handed out. */
  lemma {:induction false} AskingAdmitted(i: Input, cores: nat)
    requires i == Asking(i.topology, i.reserveCpu0, i.minimum, cores * MachineFor(i).threads)
    requires MachineFor(i).threads >= 1 && cores <= |MachineFor(i).cores| && Left(MachineFor(i), cores) >= i.minimum
    ensures AdmittedNames(i) == ["a"] && WantedAll(MachineFor(i), i.counts, ["a"]) == cores
  {
    var m := MachineFor(i);
    AskingGroups(i, cores * m.threads);
    WholeCoresWanted(cores, m.threads);
    var groups := GroupsOf(i);
    assert ["a"][..0] == [] && groups[..0] == [] && groups[..1] == groups;
    assert Members(groups) == Members([]) + ["a"];
    assert GroupFits(m, i.counts, groups, 0);
  }

  lemma {:induction false} CoreAtMostThreads(cores: seq<Core>, id: int)
    ensures |PerformanceCpus(cores, id)| <= ThreadsPerCore(cores)
  {
    SiblingsAtMost(cores, id);
    PerformanceAmongSiblings(cores, id);
  }

  lemma {:induction false} PerformanceAmongSiblings(cores: seq<Core>, id: int)
    ensures |PerformanceCpus(cores, id)| <= Siblings(cores, id)
  {
    if cores != [] {
      PerformanceAmongSiblings(cores[..|cores| - 1], id);
    }
  }

  /** Without uniformity some component is admitted and given fewer CPUs than it has threads. */
  lemma {:induction false} QuotaMissed(i: Input, q: nat)
    requires Claimable(i.topology, i.reserveCpu0) != []
    requires q < |MachineFor(i).cores| && Left(MachineFor(i), q + 1) >= i.minimum
    requires |MachineFor(i).cores[q]| != MachineFor(i).threads
    requires i == Asking(i.topology, i.reserveCpu0, i.minimum, (q + 1) * MachineFor(i).threads)
    ensures Distinct(i.components) && "a" in PlacedOf(i)
    ensures |PlacedOf(i)["a"]| < CountOf(i.counts, "a")
  {
    var m := MachineFor(i);
    ThreadsPositive(Claimable(i.topology, i.reserveCpu0));
    AskingAdmitted(i, q + 1);
    AdmittedNamesPrefix(i);
    CoresAtMostThreads(i);
    AloneTooShort(m, i.counts, q);
  }

  lemma {:induction false} CoresAtMostThreads(i: Input)
    ensures forall k :: 0 <= k < |MachineFor(i).cores| ==> |MachineFor(i).cores[k]| <= MachineFor(i).threads
  {
    var claimable := Claimable(i.topology, i.reserveCpu0);
    forall k | 0 <= k < |MachineFor(i).cores| ensures |MachineFor(i).cores[k]| <= MachineFor(i).threads {
      CoreAtMostThreads(claimable, PerformanceIds(claimable)[k]);
    }
  }

  /** One component alone, asking for whole cores up to one that is short, is given too few CPUs. */
  lemma {:induction false} AloneTooShort(m: Machine, counts: map<Name, int>, q: nat)
    requires m.threads >= 1 && q < |m.cores| && |m.cores[q]| != m.threads
    requires forall k :: 0 <= k < |m.cores| ==> |m.cores[k]| <= m.threads
    requires CountOf(counts, "a") == (q + 1) * m.threads && WantedAll(m, counts, ["a"]) == q + 1
    ensures "a" in Placed(m, counts, ["a"]) && |Placed(m, counts, ["a"])["a"]| < CountOf(counts, "a")
  {
    var slot := m.cores[0..q + 1];
    assert slot[q] == m.cores[q];
    FlattenShort(slot, m.threads);
    PlacedAtIndex(m, counts, ["a"], 0);
    assert ["a"][..0] == [];
    WholeCoresWanted(q + 1, m.threads);
  }

  /**
   * On a given machine every declaration gives every admitted component exactly its thread count of
   * CPUs, if and only if every performance core that can be handed out presents the largest number.
   */
  lemma {:induction false} QuotasMetExactlyWhen(topology: seq<Core>, reserveCpu0: bool, minimum: int)
    requires Claimable(topology, reserveCpu0) != []
    ensures (forall i: Input, name ::
               && i.topology == topology && i.reserveCpu0 == reserveCpu0 && i.minimum == minimum
               && Distinct(i.components) && name in PlacedOf(i)
               ==> |PlacedOf(i)[name]| == AtLeastZero(CountOf(i.counts, name)))
            <==> ReachableCoresUniform(MachineOf(Claimable(topology, reserveCpu0), minimum))
  {
    var m := MachineOf(Claimable(topology, reserveCpu0), minimum);
    if ReachableCoresUniform(m) {
      forall i: Input, name |
        && i.topology == topology && i.reserveCpu0 == reserveCpu0 && i.minimum == minimum
        && Distinct(i.components) && name in PlacedOf(i)
        ensures |PlacedOf(i)[name]| == AtLeastZero(CountOf(i.counts, name))
      {
        QuotaMet(i, name);
      }
    } else {
      var q: nat :| Reachable(m, q) && |m.cores[q]| != m.threads;
      var i := Asking(topology, reserveCpu0, minimum, (q + 1) * m.threads);
      QuotaMissed(i, q);
    }
  }
}
