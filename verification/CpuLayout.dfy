/**
 * Resolving declared ranks into core ids for one machine: what is claimable, how physical performance
 * cores are handed out group by group, and what is left for the background tier.
 */
module CpuLayout {
  import opened Sequences

  type Name = string

  /** One online CPU; `physical` is the same for every CPU of one physical core. */
  datatype Core = Core(cpu: int, numa: int, performance: bool, physical: int)

  datatype Reason =
    | NoReason
    | NeedsCores(wanted: int, remaining: int)
    | LeavesTooFew(wanted: int, left: int)
    | StoppedAt(rank: int)

  datatype RankGroup = RankGroup(rank: int, components: seq<Name>, demand: int, admitted: bool, reason: Reason)

  datatype Layout = Layout(
    claimable: seq<Core>,
    background: seq<int>,
    idle: seq<int>,
    componentCores: map<Name, seq<int>>,
    groups: seq<RankGroup>,
    unranked: seq<Name>,
    quill: map<Name, int>)

  datatype Outcome = Resolved(layout: Layout) | LayoutError | DivisionByZero

  datatype Input = Input(
    components: seq<Name>,
    ranks: map<Name, int>,
    counts: map<Name, int>,
    topology: seq<Core>,
    minimum: int,
    reserveCpu0: bool,
    quill: seq<Name>)

  // ---- Orders ----------------------------------------------------------------------------------

  predicate NameLeq(a: Name, b: Name) {
    a == [] || (b != [] && (a[0] < b[0] || (a[0] == b[0] && NameLeq(a[1..], b[1..]))))
  }

  function RankOf(ranks: map<Name, int>, name: Name): int {
    if name in ranks then ranks[name] else 0
  }

  predicate RankLeq(ranks: map<Name, int>, a: Name, b: Name) {
    RankOf(ranks, a) < RankOf(ranks, b) || (RankOf(ranks, a) == RankOf(ranks, b) && NameLeq(a, b))
  }

  function RankOrder(ranks: map<Name, int>): (Name, Name) -> bool {
    (a, b) => RankLeq(ranks, a, b)
  }

  // ---- The machine -----------------------------------------------------------------------------

  /** Reserving cpu0 reserves the whole physical core it sits on. */
  function Reserved(topology: seq<Core>, reserveCpu0: bool): set<int> {
    if reserveCpu0 then set c | c in topology && c.cpu == 0 :: c.physical else {}
  }

  function IsOff(ids: set<int>): Core -> bool {
    (c: Core) => c.physical !in ids
  }

  function Claimable(topology: seq<Core>, reserveCpu0: bool): seq<Core> {
    Filter(topology, IsOff(Reserved(topology, reserveCpu0)))
  }

  /** How many of these CPUs belong to one physical core. */
  function Siblings(cores: seq<Core>, id: int): nat {
    if cores == [] then 0
    else Siblings(cores[..|cores| - 1], id) + if cores[|cores| - 1].physical == id then 1 else 0
  }

  function MaxSiblings(cores: seq<Core>, k: nat): nat
    requires k <= |cores|
  {
    if k == 0 then 0
    else
      var most, here := MaxSiblings(cores, k - 1), Siblings(cores, cores[k - 1].physical);
      if most < here then here else most
  }

  /** The size of the machine's largest sibling group. */
  function ThreadsPerCore(cores: seq<Core>): nat {
    if cores == [] then 1 else MaxSiblings(cores, |cores|)
  }

  /** The physical cores presenting performance CPUs, in the order they are met. */
  function PerformanceIds(cores: seq<Core>): seq<int> {
    if cores == [] then []
    else
      var before, last := PerformanceIds(cores[..|cores| - 1]), cores[|cores| - 1];
      if last.performance && last.physical !in before then before + [last.physical] else before
  }

  function IsPerformanceOn(id: int): Core -> bool {
    (c: Core) => c.performance && c.physical == id
  }

  function PerformanceCpus(cores: seq<Core>, id: int): seq<Core> {
    Filter(cores, IsPerformanceOn(id))
  }

  function PerformanceCores(cores: seq<Core>): (r: seq<seq<Core>>)
    ensures |r| == |PerformanceIds(cores)|
    ensures forall i :: 0 <= i < |r| ==> r[i] == PerformanceCpus(cores, PerformanceIds(cores)[i])
  {
    var ids := PerformanceIds(cores);
    seq(|ids|, i requires 0 <= i < |ids| => PerformanceCpus(cores, ids[i]))
  }

  /** What admission looks at. */
  datatype Machine = Machine(cores: seq<seq<Core>>, threads: nat, total: nat, minimum: int)

  function MachineOf(claimable: seq<Core>, minimum: int): Machine {
    Machine(PerformanceCores(claimable), ThreadsPerCore(claimable), |claimable|, minimum)
  }

  // ---- Demand ----------------------------------------------------------------------------------

  function PerCore(threads: nat): nat {
    if threads > 1 then threads else 1
  }

  /** Whole cores are taken until every thread has a CPU. */
  function CoresForThreads(count: int, threads: nat): nat
    decreases if count > 0 then count else 0
  {
    if count <= 0 then 0 else 1 + CoresForThreads(count - PerCore(threads), threads)
  }

  /** That is the least number of cores that can hold the threads, and the count divided and rounded up. */
  lemma {:induction false} CoresForThreadsLeast(count: int, threads: nat)
    requires 0 < count
    ensures var k := CoresForThreads(count, threads);
      && (k - 1) * PerCore(threads) < count <= k * PerCore(threads)
      && k == (count + PerCore(threads) - 1) / PerCore(threads)
    decreases count
  {
    var per := PerCore(threads);
    if count > per {
      CoresForThreadsLeast(count - per, threads);
      var k := CoresForThreads(count - per, threads);
      assert (k + 1) * per == k * per + per && (k - 1) * per == k * per - per;
      QuotientIs(count + per - 1, per, k + 1);
    } else {
      assert CoresForThreads(count - per, threads) == 0;
      QuotientIs(count + per - 1, per, 1);
    }
  }

  lemma {:induction false} QuotientIs(n: int, d: int, q: int)
    requires 0 < d && q * d <= n < q * d + d
    ensures n / d == q
  {
    var x := n / d - q;
    assert x * d == n - n % d - q * d;
    MultipleAtLeast(x, d);
  }

  lemma {:induction false} MultipleAtLeast(x: int, d: int)
    requires 0 < d
    ensures x >= 1 ==> x * d >= d
    ensures x <= -1 ==> x * d <= -d
  {
  }

  function CountOf(counts: map<Name, int>, name: Name): int {
    if name in counts then counts[name] else 0
  }

  function Wanted(m: Machine, counts: map<Name, int>, name: Name): nat {
    CoresForThreads(CountOf(counts, name), m.threads)
  }

  function WantedAll(m: Machine, counts: map<Name, int>, names: seq<Name>): nat {
    if names == [] then 0
    else WantedAll(m, counts, names[..|names| - 1]) + Wanted(m, counts, names[|names| - 1])
  }

  // ---- Rank groups -----------------------------------------------------------------------------

  function Joined(groups: seq<RankGroup>, rank: int, name: Name, count: int): seq<RankGroup> {
    if groups != [] && groups[|groups| - 1].rank == rank then
      var last := groups[|groups| - 1];
      groups[..|groups| - 1] + [last.(components := last.components + [name], demand := last.demand + count)]
    else
      groups + [RankGroup(rank, [name], count, false, NoReason)]
  }

  function Grouped(names: seq<Name>, ranks: map<Name, int>, counts: map<Name, int>): seq<RankGroup> {
    if names == [] then []
    else
      var last := names[|names| - 1];
      Joined(Grouped(names[..|names| - 1], ranks, counts), RankOf(ranks, last), last, CountOf(counts, last))
  }

  function Ranked(components: seq<Name>, ranks: map<Name, int>): seq<Name> {
    Sort(Filter(components, HasRank(ranks)), RankOrder(ranks))
  }

  function HasRank(ranks: map<Name, int>): Name -> bool {
    n => n in ranks
  }

  function HasNoRank(ranks: map<Name, int>): Name -> bool {
    n => n !in ranks
  }

  function Unranked(components: seq<Name>, ranks: map<Name, int>): seq<Name> {
    Sort(Filter(components, HasNoRank(ranks)), NameLeq)
  }

  function Members(groups: seq<RankGroup>): seq<Name> {
    if groups == [] then [] else Members(groups[..|groups| - 1]) + groups[|groups| - 1].components
  }

  // ---- Admission -------------------------------------------------------------------------------

  /** How many cores the components of the first `k` groups take. */
  function Given(m: Machine, counts: map<Name, int>, groups: seq<RankGroup>, k: nat): nat
    requires k <= |groups|
  {
    WantedAll(m, counts, Members(groups[..k]))
  }

  /** The CPUs counted as left when `given` cores leave the background tier with everything they present. */
  function Left(m: Machine, given: nat): int {
    if given == 0 then m.total else Left(m, given - 1) - m.threads
  }

  lemma {:induction false} LeftIs(m: Machine, given: nat)
    ensures Left(m, given) == m.total - given * m.threads
  {
    if given > 0 {
      LeftIs(m, given - 1);
      assert given * m.threads == (given - 1) * m.threads + m.threads;
    }
  }

  /** Enough cores remain, and handing them over leaves the reserve. */
  predicate Fits(m: Machine, wanted: nat, given: nat) {
    given + wanted <= |m.cores| && Left(m, given + wanted) >= m.minimum
  }

  predicate GroupFits(m: Machine, counts: map<Name, int>, groups: seq<RankGroup>, k: nat)
    requires k < |groups|
  {
    Fits(m, WantedAll(m, counts, groups[k].components), Given(m, counts, groups, k))
  }

  function AdmittedFrom(m: Machine, counts: map<Name, int>, groups: seq<RankGroup>, k: nat): (n: nat)
    requires k <= |groups|
    ensures k <= n <= |groups|
    ensures forall j :: k <= j < n ==> GroupFits(m, counts, groups, j)
    ensures n < |groups| ==> !GroupFits(m, counts, groups, n)
    decreases |groups| - k
  {
    if k == |groups| || !GroupFits(m, counts, groups, k) then k else AdmittedFrom(m, counts, groups, k + 1)
  }

  /** How many groups are admitted: as many from the front as fit one after another. */
  function AdmittedCount(m: Machine, counts: map<Name, int>, groups: seq<RankGroup>): (n: nat)
    ensures n <= |groups|
    ensures forall j :: 0 <= j < n ==> GroupFits(m, counts, groups, j)
    ensures n < |groups| ==> !GroupFits(m, counts, groups, n)
  {
    AdmittedFrom(m, counts, groups, 0)
  }

  function RefusalReason(m: Machine, counts: map<Name, int>, given: nat, g: RankGroup): Reason {
    var wanted := WantedAll(m, counts, g.components);
    if wanted > |m.cores| - given then NeedsCores(wanted, |m.cores| - given)
    else LeavesTooFew(wanted, Left(m, given + wanted))
  }

  function Verdict(m: Machine, counts: map<Name, int>, groups: seq<RankGroup>, n: nat, k: nat): RankGroup
    requires n <= |groups| && k < |groups|
  {
    if k < n then groups[k].(admitted := true)
    else if k == n then
      groups[k].(reason := RefusalReason(m, counts, Given(m, counts, groups, n), groups[k]))
    else groups[k].(reason := StoppedAt(groups[n].rank))
  }

  function Verdicts(m: Machine, counts: map<Name, int>, groups: seq<RankGroup>): (r: seq<RankGroup>)
    ensures |r| == |groups|
    ensures forall k :: 0 <= k < |r| ==> r[k] == Verdict(m, counts, groups, AdmittedCount(m, counts, groups), k)
  {
    var n := AdmittedCount(m, counts, groups);
    seq(|groups|, k requires 0 <= k < |groups| => Verdict(m, counts, groups, n, k))
  }

  function CpuIds(cores: seq<Core>): (r: seq<int>)
    ensures |r| == |cores| && forall i :: 0 <= i < |r| ==> r[i] == cores[i].cpu
  {
    seq(|cores|, i requires 0 <= i < |cores| => cores[i].cpu)
  }

  function Take(s: seq<int>, count: int): seq<int> {
    if count <= 0 then [] else if count >= |s| then s else s[..count]
  }

  /** The CPUs of the cores from `start` on that a component asking for `count` threads is given. */
  function SlotCpus(m: Machine, start: nat, wanted: nat, count: int): seq<int>
    requires start + wanted <= |m.cores|
  {
    Take(CpuIds(Flatten(m.cores[start..start + wanted])), count)
  }

  function Placed(m: Machine, counts: map<Name, int>, names: seq<Name>): map<Name, seq<int>>
    requires WantedAll(m, counts, names) <= |m.cores|
  {
    if names == [] then map[]
    else
      var before, last := names[..|names| - 1], names[|names| - 1];
      var start := WantedAll(m, counts, before);
      Placed(m, counts, before)[last := SlotCpus(m, start, Wanted(m, counts, last), CountOf(counts, last))]
  }

  // ---- The two tiers ---------------------------------------------------------------------------

  function HotCpus(componentCores: map<Name, seq<int>>): set<int> {
    set n, c | n in componentCores && c in componentCores[n] :: c
  }

  function HotIds(claimable: seq<Core>, hot: set<int>): set<int> {
    set c | c in claimable && c.cpu in hot :: c.physical
  }

  function IsBackground(hot: set<int>, ids: set<int>): Core -> bool {
    (c: Core) => c.cpu !in hot && c.physical !in ids
  }

  function IsIdle(hot: set<int>, ids: set<int>): Core -> bool {
    (c: Core) => c.cpu !in hot && c.physical in ids
  }

  function Background(claimable: seq<Core>, hot: set<int>): seq<int> {
    CpuIds(Filter(claimable, IsBackground(hot, HotIds(claimable, hot))))
  }

  /** CPUs on a hot-path core that its component did not need; they are offered to nobody. */
  function IdleSiblings(claimable: seq<Core>, hot: set<int>): seq<int> {
    CpuIds(Filter(claimable, IsIdle(hot, HotIds(claimable, hot))))
  }

  /** Logging backends are spread round-robin over the background CPUs. */
  function RoundRobin(names: seq<Name>, background: seq<int>): map<Name, int>
    requires background != []
  {
    if names == [] then map[]
    else RoundRobin(names[..|names| - 1], background)[names[|names| - 1] := background[(|names| - 1) % |background|]]
  }

  // ---- The whole resolution --------------------------------------------------------------------

  function AdmittedNames(i: Input): seq<Name> {
    var m := MachineOf(Claimable(i.topology, i.reserveCpu0), i.minimum);
    var groups := Grouped(Ranked(i.components, i.ranks), i.ranks, i.counts);
    Members(groups[..AdmittedCount(m, i.counts, groups)])
  }

  lemma {:induction false} WantedConcat(m: Machine, counts: map<Name, int>, a: seq<Name>, b: seq<Name>)
    ensures WantedAll(m, counts, a + b) == WantedAll(m, counts, a) + WantedAll(m, counts, b)
  {
    if b == [] {
      assert a + b == a;
    } else {
      assert (a + b)[..|a + b| - 1] == a + b[..|b| - 1];
      WantedConcat(m, counts, a, b[..|b| - 1]);
    }
  }

  lemma {:induction false} MembersConcat(a: seq<RankGroup>, b: seq<RankGroup>)
    ensures Members(a + b) == Members(a) + Members(b)
  {
    if b == [] {
      assert a + b == a;
    } else {
      assert (a + b)[..|a + b| - 1] == a + b[..|b| - 1];
      MembersConcat(a, b[..|b| - 1]);
    }
  }

  /** Admitting group `k` adds its components behind those already placed. */
  lemma {:induction false} MembersStep(m: Machine, counts: map<Name, int>, groups: seq<RankGroup>, k: nat)
    requires k < |groups|
    ensures Members(groups[..k + 1]) == Members(groups[..k]) + groups[k].components
    ensures WantedAll(m, counts, Members(groups[..k + 1])) ==
            WantedAll(m, counts, Members(groups[..k])) + WantedAll(m, counts, groups[k].components)
  {
    assert groups[..k + 1][..k] == groups[..k];
    WantedConcat(m, counts, Members(groups[..k]), groups[k].components);
  }

  /** What has been handed out when the first `k` admitted groups are in. */
  lemma {:induction false} AdmittedFits(m: Machine, counts: map<Name, int>, groups: seq<RankGroup>, k: nat)
    requires k <= AdmittedCount(m, counts, groups)
    ensures Given(m, counts, groups, k) <= |m.cores|
    ensures k > 0 ==> Left(m, Given(m, counts, groups, k)) >= m.minimum
  {
    if k > 0 {
      assert GroupFits(m, counts, groups, k - 1);
      MembersStep(m, counts, groups, k - 1);
    }
  }

  function Resolve(i: Input): Outcome {
    var claimable := Claimable(i.topology, i.reserveCpu0);
    if i.minimum >= |claimable| then LayoutError
    else
      var m := MachineOf(claimable, i.minimum);
      var groups := Grouped(Ranked(i.components, i.ranks), i.ranks, i.counts);
      AdmittedFits(m, i.counts, groups, AdmittedCount(m, i.counts, groups));
      var componentCores := Placed(m, i.counts, AdmittedNames(i));
      var hot := HotCpus(componentCores);
      var background := Background(claimable, hot);
      if i.quill != [] && background == [] then DivisionByZero
      else
        Resolved(Layout(
          claimable, background, IdleSiblings(claimable, hot), componentCores,
          Verdicts(m, i.counts, groups),
          Unranked(i.components, i.ranks),
          if background == [] then map[] else RoundRobin(Sort(i.quill, NameLeq), background)))
  }
}
