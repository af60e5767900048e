/**
 * What every resolved layout guarantees: the tiers divide the claimable CPUs, no physical core serves
 * two masters, and the background pool keeps its reserve.
 */
module CpuLayoutTiers {
  import opened Sequences
  import opened CpuLayout
  import opened CpuLayoutResolver

  /** A CPU id names one CPU. */
  ghost predicate CpusDistinct(cores: seq<Core>) {
    forall a, b :: a in cores && b in cores && a.cpu == b.cpu ==> a == b
  }

  // ---- Where a component's CPUs come from ------------------------------------------------------

  lemma {:induction false} FlattenMembers<T>(ss: seq<seq<T>>, x: T) returns (j: nat)
    requires x in Flatten(ss)
    ensures j < |ss| && x in ss[j]
  {
    if x in ss[0] {
      j := 0;
    } else {
      j := FlattenMembers(ss[1..], x);
      j := j + 1;
    }
  }

  /** A CPU handed to a component lies on a core of that component's slot. */
  lemma {:induction false} SlotMember(m: Machine, start: nat, wanted: nat, count: int, cpu: int) returns (j: nat, core: Core)
    requires start + wanted <= |m.cores| && cpu in SlotCpus(m, start, wanted, count)
    ensures start <= j < start + wanted && core in m.cores[j] && core.cpu == cpu
  {
    var slot := m.cores[start..start + wanted];
    var all := CpuIds(Flatten(slot));
    assert cpu in all;
    var k :| 0 <= k < |all| && all[k] == cpu;
    core := Flatten(slot)[k];
    j := FlattenMembers(slot, core);
    j := j + start;
  }

  lemma {:induction false} PlacedKeys(m: Machine, counts: map<Name, int>, names: seq<Name>)
    requires WantedAll(m, counts, names) <= |m.cores|
    ensures Placed(m, counts, names).Keys == set n | n in names
  {
    if names != [] {
      PlacedKeys(m, counts, names[..|names| - 1]);
      assert names == names[..|names| - 1] + [names[|names| - 1]];
    }
  }

  /** The cores in front of component `k`, and those up to it, are among the cores handed out. */
  lemma {:induction false} SlotInRange(m: Machine, counts: map<Name, int>, names: seq<Name>, k: nat)
    requires k < |names|
    ensures WantedAll(m, counts, names[..k]) + Wanted(m, counts, names[k]) <= WantedAll(m, counts, names)
    ensures WantedAll(m, counts, names[..k + 1]) == WantedAll(m, counts, names[..k]) + Wanted(m, counts, names[k])
  {
    assert names[..k + 1][..k] == names[..k];
    WantedMonotone(m, counts, names, k + 1);
  }

  /** The last component of a name decides what the name holds; with distinct names there is only one. */
  lemma {:induction false} PlacedAt(m: Machine, counts: map<Name, int>, names: seq<Name>, name: Name) returns (k: nat)
    requires WantedAll(m, counts, names) <= |m.cores| && name in names
    ensures k < |names| && names[k] == name && name !in names[k + 1..]
    ensures WantedAll(m, counts, names[..k]) + Wanted(m, counts, name) <= |m.cores|
    ensures name in Placed(m, counts, names)
    ensures Placed(m, counts, names)[name] ==
            SlotCpus(m, WantedAll(m, counts, names[..k]), Wanted(m, counts, name), CountOf(counts, name))
  {
    var n := |names| - 1;
    if names[n] == name {
      k := n;
      assert names[k + 1..] == [];
    } else {
      assert names == names[..n] + [names[n]];
      k := PlacedAt(m, counts, names[..n], name);
      assert names[..n][..k] == names[..k];
      assert names[k + 1..] == names[..n][k + 1..] + [names[n]];
    }
  }

  /** Every hot-path CPU lies on a core handed out, and on a performance CPU of that core. */
  lemma {:induction false} HotCpuSource(claimable: seq<Core>, minimum: int, counts: map<Name, int>, names: seq<Name>, name: Name, cpu: int)
    returns (j: nat, core: Core, k: nat)
    requires var m := MachineOf(claimable, minimum);
      && WantedAll(m, counts, names) <= |m.cores|
      && name in Placed(m, counts, names) && cpu in Placed(m, counts, names)[name]
    ensures var m := MachineOf(claimable, minimum);
      && k < |names| && names[k] == name
      && WantedAll(m, counts, names[..k]) <= j < WantedAll(m, counts, names[..k]) + Wanted(m, counts, name) <= |m.cores|
      && j < WantedAll(m, counts, names)
    ensures core in claimable && core.cpu == cpu && core.performance && core.physical == PerformanceIds(claimable)[j]
  {
    var m := MachineOf(claimable, minimum);
    PlacedKeys(m, counts, names);
    k := PlacedAt(m, counts, names, name);
    SlotInRange(m, counts, names, k);
    j, core := SlotMember(m, WantedAll(m, counts, names[..k]), Wanted(m, counts, name), CountOf(counts, name), cpu);
    assert m.cores[j] == PerformanceCpus(claimable, PerformanceIds(claimable)[j]);
  }

  // ---- Facts about one layout ------------------------------------------------------------------

  lemma {:induction false} ClaimableFacts(i: Input)
    requires CpusDistinct(i.topology)
    ensures CpusDistinct(Claimable(i.topology, i.reserveCpu0))
    ensures i.reserveCpu0 ==> forall c, z :: c in Claimable(i.topology, true) && z in i.topology && z.cpu == 0 ==> c.physical != z.physical
  {
  }

  function PlacedOf(i: Input): map<Name, seq<int>> {
    var claimable := Claimable(i.topology, i.reserveCpu0);
    var m := MachineOf(claimable, i.minimum);
    var groups := Grouped(Ranked(i.components, i.ranks), i.ranks, i.counts);
    AdmittedFits(m, i.counts, groups, AdmittedCount(m, i.counts, groups));
    Placed(m, i.counts, AdmittedNames(i))
  }

  /** The source of a hot-path CPU, stated of a whole resolution. */
  lemma {:induction false} HotCpuOf(i: Input, name: Name, cpu: int) returns (j: nat, core: Core, k: nat)
    requires name in PlacedOf(i) && cpu in PlacedOf(i)[name]
    ensures core in Claimable(i.topology, i.reserveCpu0) && core.cpu == cpu && core.performance
    ensures var claimable, names := Claimable(i.topology, i.reserveCpu0), AdmittedNames(i);
      var m := MachineOf(claimable, i.minimum);
      && j < |PerformanceIds(claimable)| && core.physical == PerformanceIds(claimable)[j]
      && k < |names| && names[k] == name
      && WantedAll(m, i.counts, names[..k]) <= j < WantedAll(m, i.counts, names[..k]) + Wanted(m, i.counts, name)
      && j < WantedAll(m, i.counts, names)
  {
    var claimable := Claimable(i.topology, i.reserveCpu0);
    var m := MachineOf(claimable, i.minimum);
    var groups := Grouped(Ranked(i.components, i.ranks), i.ranks, i.counts);
    AdmittedFits(m, i.counts, groups, AdmittedCount(m, i.counts, groups));
    j, core, k := HotCpuSource(claimable, i.minimum, i.counts, AdmittedNames(i), name, cpu);
  }

  /** No physical core serves two components: their slots are different cores. */
  lemma {:induction false} CoresNotShared(i: Input, a: Name, b: Name, x: Core, y: Core)
    requires CpusDistinct(i.topology) && a != b
    requires a in PlacedOf(i) && b in PlacedOf(i)
    requires x in Claimable(i.topology, i.reserveCpu0) && x.cpu in PlacedOf(i)[a]
    requires y in Claimable(i.topology, i.reserveCpu0) && y.cpu in PlacedOf(i)[b]
    ensures x.physical != y.physical
  {
    ClaimableFacts(i);
    var claimable, names := Claimable(i.topology, i.reserveCpu0), AdmittedNames(i);
    var m := MachineOf(claimable, i.minimum);
    var jx, cx, kx := HotCpuOf(i, a, x.cpu);
    var jy, cy, ky := HotCpuOf(i, b, y.cpu);
    assert cx == x && cy == y;
    PerformanceIdsComplete(claimable);
    if kx < ky {
      SlotsApart(m, i.counts, names, kx, ky);
    } else {
      SlotsApart(m, i.counts, names, ky, kx);
    }
  }

  /** An earlier component's slot ends where a later one's has not yet begun. */
  lemma {:induction false} SlotsApart(m: Machine, counts: map<Name, int>, names: seq<Name>, k: nat, l: nat)
    requires k < l < |names|
    ensures WantedAll(m, counts, names[..k]) + Wanted(m, counts, names[k]) <= WantedAll(m, counts, names[..l])
  {
    SlotInRange(m, counts, names[..l], k);
    assert names[..l][..k] == names[..k];
  }

  // ---- The tiers divide the machine ------------------------------------------------------------

  lemma {:induction false} CpuIdsMember(cores: seq<Core>, cpu: int)
    ensures cpu in CpuIds(cores) <==> exists c :: c in cores && c.cpu == cpu
  {
    if cpu in CpuIds(cores) {
      var k :| 0 <= k < |CpuIds(cores)| && CpuIds(cores)[k] == cpu;
      assert cores[k] in cores;
    }
    forall c | c in cores && c.cpu == cpu ensures cpu in CpuIds(cores) {
      var k :| 0 <= k < |cores| && cores[k] == c;
      assert CpuIds(cores)[k] == cpu;
    }
  }

  predicate IsHot(layout: Layout, cpu: int) {
    exists n :: n in layout.componentCores && cpu in layout.componentCores[n]
  }

  /** Which tier a claimable CPU is in: its own cpu id and its physical core decide. */
  lemma {:induction false} TierOf(layout: Layout, hot: set<int>, c: Core)
    requires hot == HotCpus(layout.componentCores) && c in layout.claimable && CpusDistinct(layout.claimable)
    requires layout.background == Background(layout.claimable, hot) && layout.idle == IdleSiblings(layout.claimable, hot)
    ensures c.cpu in hot <==> IsHot(layout, c.cpu)
    ensures c.cpu in layout.background <==> c.cpu !in hot && c.physical !in HotIds(layout.claimable, hot)
    ensures c.cpu in layout.idle <==> c.cpu !in hot && c.physical in HotIds(layout.claimable, hot)
  {
    var ids := HotIds(layout.claimable, hot);
    CpuIdsMember(Filter(layout.claimable, IsBackground(hot, ids)), c.cpu);
    CpuIdsMember(Filter(layout.claimable, IsIdle(hot, ids)), c.cpu);
    if c.cpu in layout.background {
      var d :| d in Filter(layout.claimable, IsBackground(hot, ids)) && d.cpu == c.cpu;
      assert d == c;
    }
    if c.cpu in layout.idle {
      var d :| d in Filter(layout.claimable, IsIdle(hot, ids)) && d.cpu == c.cpu;
      assert d == c;
    }
  }

  ghost predicate AllClaimed(cpus: seq<int>, claimable: seq<Core>) {
    forall cpu :: cpu in cpus ==> exists c :: c in claimable && c.cpu == cpu
  }

  /** Every claimable CPU is in exactly one of the three tiers, and every CPU of a tier is claimable. */
  lemma {:induction false} TiersDivideClaimable(i: Input)
    requires CpusDistinct(i.topology) && Resolve(i).Resolved?
    ensures var l := Resolve(i).layout;
      && (forall c :: c in l.claimable ==>
            && (IsHot(l, c.cpu) || c.cpu in l.background || c.cpu in l.idle)
            && !(IsHot(l, c.cpu) && c.cpu in l.background)
            && !(IsHot(l, c.cpu) && c.cpu in l.idle)
            && !(c.cpu in l.background && c.cpu in l.idle))
      && AllClaimed(l.background, l.claimable) && AllClaimed(l.idle, l.claimable)
      && (forall n :: n in l.componentCores ==> AllClaimed(l.componentCores[n], l.claimable))
  {
    ClaimableFacts(i);
    var l := Resolve(i).layout;
    var hot := HotCpus(l.componentCores);
    assert l.componentCores == PlacedOf(i);
    forall c | c in l.claimable ensures
      && (IsHot(l, c.cpu) || c.cpu in l.background || c.cpu in l.idle)
      && !(IsHot(l, c.cpu) && c.cpu in l.background)
      && !(IsHot(l, c.cpu) && c.cpu in l.idle)
      && !(c.cpu in l.background && c.cpu in l.idle)
    {
      TierOf(l, hot, c);
    }
    forall cpu ensures cpu in l.background ==> exists c :: c in l.claimable && c.cpu == cpu {
      CpuIdsMember(Filter(l.claimable, IsBackground(hot, HotIds(l.claimable, hot))), cpu);
    }
    forall cpu ensures cpu in l.idle ==> exists c :: c in l.claimable && c.cpu == cpu {
      CpuIdsMember(Filter(l.claimable, IsIdle(hot, HotIds(l.claimable, hot))), cpu);
    }
    forall n, cpu | n in l.componentCores && cpu in l.componentCores[n]
      ensures exists c :: c in l.claimable && c.cpu == cpu
    {
      var j, core, k := HotCpuOf(i, n, cpu);
    }
  }

  /** A physical core is filled by one component or left alone: never lent to another, nor to the background. */
  lemma {:induction false} PhysicalCoreServesOne(i: Input, name: Name, x: Core, y: Core)
    requires CpusDistinct(i.topology) && Resolve(i).Resolved?
    requires x in Resolve(i).layout.claimable && y in Resolve(i).layout.claimable && x.physical == y.physical
    requires name in Resolve(i).layout.componentCores && x.cpu in Resolve(i).layout.componentCores[name]
    ensures var l := Resolve(i).layout;
      && y.cpu !in l.background
      && (y.cpu in l.componentCores[name] || y.cpu in l.idle)
      && (forall other :: other in l.componentCores && y.cpu in l.componentCores[other] ==> other == name)
  {
    ClaimableFacts(i);
    var l := Resolve(i).layout;
    var hot := HotCpus(l.componentCores);
    assert l.componentCores == PlacedOf(i);
    TierOf(l, hot, x);
    TierOf(l, hot, y);
    forall other | other in l.componentCores && y.cpu in l.componentCores[other] ensures other == name {
      if other != name {
        CoresNotShared(i, name, other, x, y);
      }
    }
  }

  /** With cpu0 reserved, no CPU of its physical core is in any tier. */
  lemma {:induction false} ReservedCoreUnused(i: Input, z: Core, c: Core)
    requires CpusDistinct(i.topology) && Resolve(i).Resolved? && i.reserveCpu0
    requires z in i.topology && z.cpu == 0 && c in i.topology && c.physical == z.physical
    ensures var l := Resolve(i).layout;
      !IsHot(l, c.cpu) && c.cpu !in l.background && c.cpu !in l.idle
  {
    ClaimableFacts(i);
    TiersDivideClaimable(i);
    var l := Resolve(i).layout;
    assert forall d :: d in l.claimable ==> d in i.topology && d.physical != z.physical;
    assert forall d :: d in l.claimable ==> d.cpu != c.cpu;
  }

  // ---- The background reserve ------------------------------------------------------------------

  function CountOn(cores: seq<Core>, ids: set<int>): nat {
    if cores == [] then 0
    else CountOn(cores[..|cores| - 1], ids) + if cores[|cores| - 1].physical in ids then 1 else 0
  }

  lemma {:induction false} CountOnSplit(cores: seq<Core>, ids: set<int>, id: int)
    requires id in ids
    ensures CountOn(cores, ids) == CountOn(cores, ids - {id}) + Siblings(cores, id)
  {
    if cores != [] {
      CountOnSplit(cores[..|cores| - 1], ids, id);
    }
  }

  lemma {:induction false} CountOnNone(cores: seq<Core>)
    ensures CountOn(cores, {}) == 0
  {
    if cores != [] {
      CountOnNone(cores[..|cores| - 1]);
    }
  }

  /** Each physical core holds at most `most` of the CPUs, so so many cores hold at most so many times as much. */
  lemma {:induction false} CountOnBound(cores: seq<Core>, ids: set<int>, most: nat)
    requires forall id :: Siblings(cores, id) <= most
    ensures CountOn(cores, ids) <= |ids| * most
    decreases |ids|
  {
    if |ids| == 0 {
      assert ids == {};
      CountOnNone(cores);
    } else {
      SomeMember(ids);
      var id :| id in ids;
      CountOnSplit(cores, ids, id);
      CountOnBound(cores, ids - {id}, most);
      assert |ids| * most == (|ids| - 1) * most + most;
    }
  }

  lemma {:induction false} SiblingsOfAbsent(cores: seq<Core>, id: int)
    requires forall c :: c in cores ==> c.physical != id
    ensures Siblings(cores, id) == 0
  {
    if cores != [] {
      assert cores[|cores| - 1] in cores;
      SiblingsOfAbsent(cores[..|cores| - 1], id);
    }
  }

  lemma {:induction false} SiblingsAtMost(cores: seq<Core>, id: int)
    ensures Siblings(cores, id) <= ThreadsPerCore(cores)
  {
    if c :| c in cores && c.physical == id {
      var k :| 0 <= k < |cores| && cores[k] == c;
      MaxSiblingsIsGreatest(cores, |cores|);
    } else {
      SiblingsOfAbsent(cores, id);
    }
  }

  lemma {:induction false} BackgroundLength(cores: seq<Core>, hot: set<int>, ids: set<int>)
    requires forall c :: c in cores && c.cpu in hot ==> c.physical in ids
    ensures |Filter(cores, IsBackground(hot, ids))| == |cores| - CountOn(cores, ids)
  {
    if cores != [] {
      var n := |cores| - 1;
      assert cores == cores[..n] + [cores[n]];
      BackgroundLength(cores[..n], hot, ids);
    }
  }

  function FirstOf(ids: seq<int>, k: nat): set<int>
    requires k <= |ids|
  {
    if k == 0 then {} else FirstOf(ids, k - 1) + {ids[k - 1]}
  }

  lemma {:induction false} FirstOfFacts(ids: seq<int>, k: nat)
    requires k <= |ids|
    ensures |FirstOf(ids, k)| <= k
    ensures forall j :: 0 <= j < k ==> ids[j] in FirstOf(ids, k)
  {
    if k > 0 {
      FirstOfFacts(ids, k - 1);
    }
  }

  lemma {:induction false} SubsetNotLarger(a: set<int>, b: set<int>)
    requires a <= b
    ensures |a| <= |b|
  {
    assert b == a + (b - a);
  }

  /** At most as many physical cores are hot as cores were handed out. */
  lemma {:induction false} HotIdsAtMost(i: Input, given: nat)
    requires CpusDistinct(i.topology)
    requires given == WantedAll(MachineOf(Claimable(i.topology, i.reserveCpu0), i.minimum), i.counts, AdmittedNames(i))
    requires given <= |PerformanceIds(Claimable(i.topology, i.reserveCpu0))|
    ensures |HotIds(Claimable(i.topology, i.reserveCpu0), HotCpus(PlacedOf(i)))| <= given
  {
    ClaimableFacts(i);
    var claimable := Claimable(i.topology, i.reserveCpu0);
    var ids, hot := PerformanceIds(claimable), HotCpus(PlacedOf(i));
    FirstOfFacts(ids, given);
    forall id | id in HotIds(claimable, hot) ensures id in FirstOf(ids, given) {
      var c :| c in claimable && c.cpu in hot && c.physical == id;
      var n :| n in PlacedOf(i) && c.cpu in PlacedOf(i)[n];
      var j, core, k := HotCpuOf(i, n, c.cpu);
      assert core == c;
    }
    SubsetNotLarger(HotIds(claimable, hot), FirstOf(ids, given));
  }

  lemma {:induction false} MulMonotone(a: nat, b: nat, c: nat)
    requires a <= b
    ensures a * c <= b * c
  {
  }

  /** What admission counted as left is what the background keeps at least. */
  lemma {:induction false} BackgroundAtLeast(i: Input, given: nat)
    requires CpusDistinct(i.topology)
    requires given == WantedAll(MachineOf(Claimable(i.topology, i.reserveCpu0), i.minimum), i.counts, AdmittedNames(i))
    requires given <= |PerformanceIds(Claimable(i.topology, i.reserveCpu0))|
    ensures var claimable := Claimable(i.topology, i.reserveCpu0);
      |Background(claimable, HotCpus(PlacedOf(i)))| >= |claimable| - given * ThreadsPerCore(claimable)
  {
    var claimable := Claimable(i.topology, i.reserveCpu0);
    var hot := HotCpus(PlacedOf(i));
    var ids, most := HotIds(claimable, hot), ThreadsPerCore(claimable);
    HotIdsAtMost(i, given);
    BackgroundLength(claimable, hot, ids);
    forall id ensures Siblings(claimable, id) <= most {
      SiblingsAtMost(claimable, id);
    }
    CountOnBound(claimable, ids, most);
    MulMonotone(|ids|, given, most);
  }

  /**
   * The background pool always keeps its reserve, even when physical cores present different numbers
   * of CPUs, because a core handed out takes at most the machine's largest sibling count with it.
   */
  lemma {:induction false} BackgroundKeepsReserve(i: Input)
    requires CpusDistinct(i.topology) && i.minimum < |Claimable(i.topology, i.reserveCpu0)|
    ensures |Background(Claimable(i.topology, i.reserveCpu0), HotCpus(PlacedOf(i)))| >= i.minimum
    ensures Resolve(i).Resolved? ==> |Resolve(i).layout.background| >= i.minimum
  {
    var claimable := Claimable(i.topology, i.reserveCpu0);
    var m := MachineOf(claimable, i.minimum);
    var groups := Grouped(Ranked(i.components, i.ranks), i.ranks, i.counts);
    var n := AdmittedCount(m, i.counts, groups);
    AdmittedFits(m, i.counts, groups, n);
    var given := Given(m, i.counts, groups, n);
    BackgroundAtLeast(i, given);
    LeftIs(m, given);
    if n == 0 {
      assert groups[..0] == [];
      assert given == 0;
    }
  }

  // ---- When the resolution fails ---------------------------------------------------------------

  /** A configuration is refused exactly when its reserve leaves nothing that could ever be admitted. */
  lemma {:induction false} LayoutErrorExactlyWhen(i: Input)
    ensures Resolve(i).LayoutError? <==> i.minimum >= |Claimable(i.topology, i.reserveCpu0)|
    ensures CpusDistinct(i.topology) && i.minimum >= 1 ==> !Resolve(i).DivisionByZero?
  {
    if CpusDistinct(i.topology) && i.minimum >= 1 && i.minimum < |Claimable(i.topology, i.reserveCpu0)| {
      BackgroundKeepsReserve(i);
    }
  }

  /** One CPU, wanted by one component whose logging backend needs a background CPU. */
  function OneCpu(minimum: int): Input {
    Input(["a"], map["a" := 1], map["a" := 1], [Core(0, 0, true, 0)], minimum, false, ["a"])
  }

  lemma {:induction false} OneCpuAdmitted(minimum: int)
    requires minimum <= 0
    ensures var i := OneCpu(minimum);
      && Claimable(i.topology, false) == i.topology
      && MachineOf(i.topology, minimum) == Machine([i.topology], 1, 1, minimum)
      && Ranked(i.components, i.ranks) == ["a"]
      && Grouped(["a"], i.ranks, i.counts) == [RankGroup(1, ["a"], 1, false, NoReason)]
  {
    var i := OneCpu(minimum);
    var core := i.topology[0];
    assert i.topology[..0] == [] && ["a"][..0] == [] && ["a"][1..] == [];
    assert Filter(i.topology, IsOff({})) == Filter([], IsOff({})) + [core];
    assert PerformanceIds(i.topology) == [0];
    assert Filter(i.topology, IsPerformanceOn(0)) == Filter([], IsPerformanceOn(0)) + [core];
    assert Siblings(i.topology, 0) == 1;
    assert MaxSiblings(i.topology, 1) == 1;
    assert Filter(["a"], HasRank(i.ranks)) == Filter([], HasRank(i.ranks)) + ["a"];
    assert Sort(["a"], RankOrder(i.ranks)) == Insert("a", [], RankOrder(i.ranks));
    assert [] + [core] == i.topology && PerformanceCpus(i.topology, 0) == i.topology;
    assert PerformanceCores(i.topology) == [i.topology];
  }

  lemma {:induction false} OneCpuPlaced(minimum: int)
    requires minimum <= 0
    ensures AdmittedNames(OneCpu(minimum)) == ["a"] && PlacedOf(OneCpu(minimum)) == map["a" := [0]]
  {
    var i := OneCpu(minimum);
    OneCpuAdmitted(minimum);
    var m := Machine([i.topology], 1, 1, minimum);
    var groups := [RankGroup(1, ["a"], 1, false, NoReason)];
    assert ["a"][..0] == [] && groups[..0] == [] && groups[..1] == groups;
    assert CoresForThreads(1, 1) == 1 + CoresForThreads(0, 1);
    assert WantedAll(m, i.counts, ["a"]) == 1;
    assert Members(groups) == Members([]) + ["a"];
    assert Left(m, 1) == 0;
    assert GroupFits(m, i.counts, groups, 0);
    assert AdmittedCount(m, i.counts, groups) == 1;
    OneSlot(m, i.topology[0]);
    assert Placed(m, i.counts, ["a"]) == Placed(m, i.counts, [])["a" := [0]];
  }

  lemma {:induction false} OneSlot(m: Machine, core: Core)
    requires m.cores == [[core]] && core.cpu == 0
    ensures SlotCpus(m, 0, 1, 1) == [0]
  {
    assert m.cores[0..1] == [[core]] && [[core]][1..] == [];
    assert Flatten([[core]]) == [core] + Flatten([]);
  }

  /** The division fails exactly when backends are to be spread over no CPUs at all. */
  lemma {:induction false} DivisionByZeroIs(i: Input)
    ensures var claimable := Claimable(i.topology, i.reserveCpu0);
      Resolve(i).DivisionByZero? <==>
      i.minimum < |claimable| && i.quill != [] && Background(claimable, HotCpus(PlacedOf(i))) == []
  {
  }

  lemma {:induction false} OneCpuNoBackground(minimum: int)
    requires minimum <= 0
    ensures Background(OneCpu(minimum).topology, HotCpus(PlacedOf(OneCpu(minimum)))) == []
  {
    OneCpuPlaced(minimum);
    var topology, hot := OneCpu(minimum).topology, HotCpus(PlacedOf(OneCpu(minimum)));
    assert 0 in PlacedOf(OneCpu(minimum))["a"] && 0 in hot;
    FilterNone(topology, IsBackground(hot, HotIds(topology, hot)));
  }

  lemma {:induction false} OneCpuDividesByZero(minimum: int)
    requires minimum <= 0
    ensures CpusDistinct(OneCpu(minimum).topology) && Resolve(OneCpu(minimum)).DivisionByZero?
  {
    OneCpuAdmitted(minimum);
    OneCpuNoBackground(minimum);
    DivisionByZeroIs(OneCpu(minimum));
  }

  /**
   * Spreading the logging backends divides by the number of background CPUs.  A reserve rules the
   * division by zero out on every machine exactly when it is at least one; the default is zero.
   */
  lemma {:induction false} ReserveRulesOutDivisionExactlyWhen(minimum: int)
    ensures (forall i: Input :: i.minimum == minimum && CpusDistinct(i.topology) ==> !Resolve(i).DivisionByZero?)
            <==> minimum >= 1
  {
    if minimum >= 1 {
      forall i: Input | i.minimum == minimum && CpusDistinct(i.topology) ensures !Resolve(i).DivisionByZero? {
        LayoutErrorExactlyWhen(i);
      }
    } else {
      OneCpuDividesByZero(minimum);
      assert OneCpu(minimum).minimum == minimum;
    }
  }
}
