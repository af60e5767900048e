/**
 * What the audit reports, problem by problem: each is reported exactly when it is so, of any file that
 * can be read and of the file a resolved layout is written to, and no thread is reported twice.
 */
module CpuAuditReports {
  import opened Options
  import opened Sequences
  import opened CpuLayout
  import opened CpuLayoutTiers
  import opened CpuLayoutAdmission
  import opened CpuLayoutBackends
  import opened CpuAudit
  import opened CpuAuditTheorem

  // ---- What the file says ----------------------------------------------------------------------

  /** The CPUs an entry lists as its component's own. */
  type Reader = Entry -> seq<int>

  function HotPathOf(e: Entry): seq<int> {
    CpusIn(e.hotPath)
  }

  /** The entry at `k` lists this CPU, and no later one does. */
  predicate LastToList(read: Reader, entries: seq<Entry>, c: int, k: nat) {
    k < |entries| && c in read(entries[k]) && forall j :: k < j < |entries| ==> c !in read(entries[j])
  }

  ghost predicate Claims(read: Reader, entries: seq<Entry>, c: int, name: Name) {
    exists k: nat :: LastToList(read, entries, c, k) && entries[k].name == name
  }

  ghost predicate Claimed(read: Reader, entries: seq<Entry>, c: int) {
    exists k :: 0 <= k < |entries| && c in read(entries[k])
  }

  lemma {:induction false} ClaimedStep(read: Reader, entries: seq<Entry>, before: seq<Entry>, last: Entry, c: int)
    requires entries == before + [last]
    ensures Claimed(read, entries, c) <==> c in read(last) || Claimed(read, before, c)
  {
    if Claimed(read, before, c) {
      var k :| 0 <= k < |before| && c in read(before[k]);
      assert entries[k] == before[k];
    }
    if c in read(last) {
      assert entries[|before|] == last;
    }
  }

  lemma {:induction false} ClaimsStep(read: Reader, entries: seq<Entry>, before: seq<Entry>, last: Entry, c: int, name: Name)
    requires entries == before + [last]
    ensures Claims(read, entries, c, name) <==> if c in read(last) then last.name == name else Claims(read, before, c, name)
  {
    if c in read(last) {
      assert LastToList(read, entries, c, |before|);
    } else {
      assert entries[|before|] == last && forall j :: 0 <= j < |before| ==> entries[j] == before[j];
      forall k: nat ensures LastToList(read, entries, c, k) <==> LastToList(read, before, c, k) {
        if LastToList(read, entries, c, k) {
          assert k < |before|;
          assert forall j :: k < j < |before| ==> before[j] == entries[j] && c !in read(entries[j]);
        }
      }
    }
  }

  /** This map names an owner for exactly the CPUs claimed, and it is whoever lists the CPU last. */
  ghost predicate OwnerMap(read: Reader, entries: seq<Entry>, owner: map<int, Name>) {
    && (forall c :: c in owner <==> Claimed(read, entries, c))
    && (forall c, n :: c in owner && owner[c] == n <==> Claims(read, entries, c, n))
  }

  function OwnersBy(read: Reader, entries: seq<Entry>): map<int, Name> {
    if entries == [] then map[]
    else
      var last := entries[|entries| - 1];
      Claim(OwnersBy(read, entries[..|entries| - 1]), read(last), last.name)
  }

  lemma {:induction false} OwnersByHotPath(entries: seq<Entry>)
    ensures OwnersBy(HotPathOf, entries) == Owners(entries)
  {
    if entries != [] {
      OwnersByHotPath(entries[..|entries| - 1]);
    }
  }

  lemma {:induction false} OwnerOf(read: Reader, entries: seq<Entry>, c: int, name: Name)
    ensures var owner := OwnersBy(read, entries);
      && (c in owner <==> Claimed(read, entries, c))
      && (c in owner && owner[c] == name <==> Claims(read, entries, c, name))
  {
    if entries != [] {
      var n := |entries| - 1;
      OwnerOf(read, entries[..n], c, name);
      assert entries == entries[..n] + [entries[n]];
      ClaimFacts(OwnersBy(read, entries[..n]), read(entries[n]), entries[n].name);
      ClaimedStep(read, entries, entries[..n], entries[n], c);
      ClaimsStep(read, entries, entries[..n], entries[n], c, name);
    }
  }

  lemma {:induction false} OwnersAre(entries: seq<Entry>, owner: map<int, Name>)
    requires owner == Owners(entries)
    ensures OwnerMap(HotPathOf, entries, owner)
  {
    OwnersByHotPath(entries);
    OwnersByMap(HotPathOf, entries);
  }

  lemma {:induction false} OwnersByMap(read: Reader, entries: seq<Entry>)
    ensures OwnerMap(read, entries, OwnersBy(read, entries))
  {
    var owner := OwnersBy(read, entries);
    forall c ensures c in owner <==> Claimed(read, entries, c) {
      OwnerOf(read, entries, c, []);
    }
    forall c, n ensures c in owner && owner[c] == n <==> Claims(read, entries, c, n) {
      OwnerOf(read, entries, c, n);
    }
  }

  // ---- One thread ------------------------------------------------------------------------------

  /** What is so of a thread with this mask, of a component with this entry. */
  ghost predicate SoOfMask(read: Reader, entries: seq<Entry>, background: set<int>, e: Entry, mask: seq<int>, p: Problem) {
    match p
    case OnCoreOf(n, _, c, o) => n == e.name && mask == [c] && Claims(read, entries, c, o) && o != n
    case InNeitherTier(n, _, c) =>
      n == e.name && mask == [c] && !Claimed(read, entries, c) && e.backend != Some(c) && c !in background
    case MayRunOnHotPath(n, _, cpus) =>
      && n == e.name && |mask| != 1 && cpus != {}
      && (forall c :: c in cpus <==> c in mask && c !in background && Claimed(read, entries, c))
    case OutsideBackground(n, _, cpus) =>
      && n == e.name && |mask| != 1 && cpus != {}
      && (forall c :: c in cpus <==> c in mask && c !in background)
      && (forall c :: c in cpus ==> !Claimed(read, entries, c))
    case _ => false
  }

  /** The problem is one of a thread, and of this one. */
  predicate IsOf(p: Problem, thread: nat) {
    (p.OnCoreOf? || p.InNeitherTier? || p.MayRunOnHotPath? || p.OutsideBackground?) && p.thread == thread
  }

  lemma {:induction false} PinnedSays(read: Reader, entries: seq<Entry>, owner: map<int, Name>, background: set<int>, e: Entry, thread: nat,
                                      cpu: int, p: Problem)
    requires OwnerMap(read, entries, owner)
    ensures MaskProblem(owner, background, e, thread, [cpu]) == Some(p)
            <==> IsOf(p, thread) && SoOfMask(read, entries, background, e, [cpu], p)
  {
    assert cpu in owner ==> Claims(read, entries, cpu, owner[cpu]);
  }

  lemma {:induction false} WideSays(read: Reader, entries: seq<Entry>, owner: map<int, Name>, background: set<int>, e: Entry, thread: nat,
                                    mask: seq<int>, p: Problem)
    requires OwnerMap(read, entries, owner) && |mask| != 1
    ensures MaskProblem(owner, background, e, thread, mask) == Some(p)
            <==> IsOf(p, thread) && SoOfMask(read, entries, background, e, mask, p)
  {
    var outside := Ids(mask) - background;
    var stray := outside * owner.Keys;
    assert forall c :: c in outside <==> c in mask && c !in background;
    assert forall c :: c in stray <==> c in mask && c !in background && Claimed(read, entries, c);
    if SoOfMask(read, entries, background, e, mask, p) {
      if p.MayRunOnHotPath? {
        forall c ensures c in p.cpus <==> c in stray {
        }
        assert p.cpus == stray;
      } else if p.OutsideBackground? {
        forall c ensures (c in p.cpus <==> c in outside) && c !in stray {
        }
        assert p.cpus == outside && stray == {};
      }
    }
  }

  lemma {:induction false} MaskSays(read: Reader, entries: seq<Entry>, owner: map<int, Name>, background: set<int>, e: Entry, thread: nat,
                                    mask: seq<int>, p: Problem)
    requires OwnerMap(read, entries, owner)
    ensures MaskProblem(owner, background, e, thread, mask) == Some(p)
            <==> IsOf(p, thread) && SoOfMask(read, entries, background, e, mask, p)
  {
    if |mask| == 1 {
      assert mask == [mask[0]];
      PinnedSays(read, entries, owner, background, e, thread, mask[0], p);
    } else {
      WideSays(read, entries, owner, background, e, thread, mask, p);
    }
  }

  // ---- One component ---------------------------------------------------------------------------

  /** What is so of a component with this entry, whose threads have these masks. */
  ghost predicate SoOfComponent(read: Reader, entries: seq<Entry>, background: set<int>, e: Entry, masks: seq<Option<seq<int>>>, p: Problem) {
    match p
    case NobodyPinned(n, cpus) =>
      && n == e.name && cpus != {}
      && (forall c :: c in cpus <==> c in read(e) && !(Claims(read, entries, c, n) && Some([c]) in masks))
    case _ => exists t :: 0 <= t < |masks| && SoOfThread(read, entries, background, e, masks, t, p)
  }

  ghost predicate SoOfThread(read: Reader, entries: seq<Entry>, background: set<int>, e: Entry, masks: seq<Option<seq<int>>>, t: nat, p: Problem)
    requires t < |masks|
  {
    IsOf(p, t) && masks[t].Some? && SoOfMask(read, entries, background, e, masks[t].value, p)
  }

  lemma {:induction false} ThreadsSay(read: Reader, entries: seq<Entry>, owner: map<int, Name>, background: set<int>, e: Entry,
                                      masks: seq<Option<seq<int>>>, p: Problem)
    requires OwnerMap(read, entries, owner)
    ensures p in MaskProblems(owner, background, e, masks)
            <==> exists t :: 0 <= t < |masks| && SoOfThread(read, entries, background, e, masks, t, p)
  {
    if masks != [] {
      var k := |masks| - 1;
      ThreadsSay(read, entries, owner, background, e, masks[..k], p);
      if masks[k].Some? {
        MaskSays(read, entries, owner, background, e, k, masks[k].value, p);
      }
      forall t | 0 <= t < k
        ensures SoOfThread(read, entries, background, e, masks[..k], t, p) <==> SoOfThread(read, entries, background, e, masks, t, p)
      {
      }
      assert SoOfThread(read, entries, background, e, masks, k, p) <==>
        masks[k].Some? && MaskProblem(owner, background, e, k, masks[k].value) == Some(p);
    }
  }

  lemma {:induction false} UnclaimedSays(read: Reader, entries: seq<Entry>, owner: map<int, Name>, e: Entry, masks: seq<Option<seq<int>>>, cpus: set<int>)
    requires OwnerMap(read, entries, owner) && (forall c :: c in read(e) <==> c in CpusIn(e.hotPath))
    ensures cpus == Unclaimed(owner, e, masks)
            <==> forall c :: c in cpus <==> c in read(e) && !(Claims(read, entries, c, e.name) && Some([c]) in masks)
  {
    var unclaimed := Unclaimed(owner, e, masks);
    assert forall c :: c in unclaimed <==> c in read(e) && !(Claims(read, entries, c, e.name) && Some([c]) in masks);
    if forall c :: c in cpus <==> c in read(e) && !(Claims(read, entries, c, e.name) && Some([c]) in masks) {
      forall c ensures c in cpus <==> c in unclaimed {
      }
    }
  }

  lemma {:induction false} ComponentSays(read: Reader, entries: seq<Entry>, owner: map<int, Name>, background: set<int>, e: Entry,
                                         masks: seq<Option<seq<int>>>, p: Problem)
    requires OwnerMap(read, entries, owner) && (forall c :: c in read(e) <==> c in CpusIn(e.hotPath))
    ensures p in ComponentProblems(owner, background, e, masks) <==> SoOfComponent(read, entries, background, e, masks, p)
  {
    ThreadsSay(read, entries, owner, background, e, masks, p);
    if p.NobodyPinned? {
      UnclaimedSays(read, entries, owner, e, masks, p.cpus);
    }
  }

  // ---- The whole report ------------------------------------------------------------------------

  /** The first entry with this name. */
  predicate EntryOf(entries: seq<Entry>, name: Name, k: nat) {
    k < |entries| && entries[k].name == name && forall j :: 0 <= j < k ==> entries[j].name != name
  }

  /** What is so of a running process, by these entries and this background. */
  ghost predicate SoOfRunning(read: Reader, entries: seq<Entry>, background: set<int>, metricsOnly: set<Name>, r: Running, p: Problem) {
    && r.name !in metricsOnly
    && ((p == NotListed(r.name) && forall k :: 0 <= k < |entries| ==> entries[k].name != r.name)
        || exists k: nat :: EntryOf(entries, r.name, k) && SoOfComponent(read, entries, background, entries[k], r.masks, p))
  }

  lemma {:induction false} EntrySays(read: Reader, entries: seq<Entry>, owner: map<int, Name>, background: set<int>, metricsOnly: set<Name>,
                                     r: Running, p: Problem, at: nat)
    requires OwnerMap(read, entries, owner) && EntryOf(entries, r.name, at) && r.name !in metricsOnly
    requires forall c :: c in read(entries[at]) <==> c in CpusIn(entries[at].hotPath)
    ensures p in ComponentProblems(owner, background, entries[at], r.masks) <==> SoOfRunning(read, entries, background, metricsOnly, r, p)
  {
    ComponentSays(read, entries, owner, background, entries[at], r.masks, p);
    forall k: nat | EntryOf(entries, r.name, k) ensures k == at {
    }
  }

  lemma {:induction false} RunningSays(file: LayoutFile, metricsOnly: set<Name>, r: Running, p: Problem, owner: map<int, Name>, background: set<int>)
    requires owner == Owners(file.entries) && background == Ids(CpusIn(file.background))
    ensures p in RunningProblems(file, metricsOnly, r) <==> SoOfRunning(HotPathOf, file.entries, background, metricsOnly, r, p)
  {
    var at := IndexOf(file.entries, r.name);
    OwnersAre(file.entries, owner);
    if r.name !in metricsOnly && at < |file.entries| {
      EntrySays(HotPathOf, file.entries, owner, background, metricsOnly, r, p, at);
    }
  }

  lemma {:induction false} SaidByOne<T>(said: T -> seq<Problem>, s: seq<T>, p: Problem)
    ensures p in Together(said, s) <==> exists k :: 0 <= k < |s| && p in said(s[k])
  {
    if s != [] {
      SaidByOne(said, s[..|s| - 1], p);
      assert forall k :: 0 <= k < |s| - 1 ==> s[..|s| - 1][k] == s[k];
    }
  }

  /**
   * Of any layout file: the audit reports a problem exactly when it is so, of a process that takes part
   * and the file's entry for it.
   */
  lemma {:induction false} ReportedExactlyWhenSo(file: LayoutFile, metricsOnly: set<Name>, running: seq<Running>, p: Problem)
    ensures p in Report(file, metricsOnly, running) <==>
      (running == [] && p == NothingRunning)
      || exists k :: 0 <= k < |running| && SoOfRunning(HotPathOf, file.entries, Ids(CpusIn(file.background)), metricsOnly, running[k], p)
  {
    AllTogether(file, metricsOnly, running);
    SaidByOne(ProblemsOf(file, metricsOnly), running, p);
    forall k | 0 <= k < |running|
      ensures p in ProblemsOf(file, metricsOnly)(running[k]) <==> SoOfRunning(HotPathOf, file.entries, Ids(CpusIn(file.background)), metricsOnly, running[k], p)
    {
      RunningSays(file, metricsOnly, running[k], p, Owners(file.entries), Ids(CpusIn(file.background)));
    }
  }

  // ---- Who is in the file ----------------------------------------------------------------------

  function NamesOf(entries: seq<Entry>): (names: seq<Name>)
    ensures |names| == |entries| && forall k :: 0 <= k < |names| ==> names[k] == entries[k].name
  {
    seq(|entries|, k requires 0 <= k < |entries| => entries[k].name)
  }

  lemma {:induction false} NamesConcat(a: seq<Entry>, b: seq<Entry>)
    ensures NamesOf(a + b) == NamesOf(a) + NamesOf(b)
  {
  }

  lemma {:induction false} GroupLength(l: Layout, g: RankGroup, k: nat)
    requires k <= |g.components|
    ensures |GroupEntries(l, g, k)| == k
  {
    if k > 0 {
      GroupLength(l, g, k - 1);
    }
  }

  lemma {:induction false} GroupNameAt(l: Layout, g: RankGroup, k: nat, j: nat)
    requires j < k <= |g.components| && |GroupEntries(l, g, k)| == k
    ensures GroupEntries(l, g, k)[j].name == g.components[j]
  {
    GroupLength(l, g, k - 1);
    if j < k - 1 {
      GroupNameAt(l, g, k - 1, j);
    }
  }

  lemma {:induction false} GroupNames(l: Layout, g: RankGroup, k: nat)
    requires k <= |g.components|
    ensures NamesOf(GroupEntries(l, g, k)) == g.components[..k]
  {
    GroupLength(l, g, k);
    forall j | 0 <= j < k ensures GroupEntries(l, g, k)[j].name == g.components[j] {
      GroupNameAt(l, g, k, j);
    }
  }

  lemma {:induction false} RankedNames(l: Layout, k: nat)
    requires k <= |l.groups|
    ensures NamesOf(RankedEntries(l, k)) == Members(l.groups[..k])
  {
    if k > 0 {
      var g := l.groups[k - 1];
      RankedNames(l, k - 1);
      GroupNames(l, g, |g.components|);
      NamesConcat(RankedEntries(l, k - 1), GroupEntries(l, g, |g.components|));
      assert l.groups[..k][..k - 1] == l.groups[..k - 1] && g.components[..|g.components|] == g.components;
    }
  }

  lemma {:induction false} UnrankedNames(l: Layout, k: nat)
    requires k <= |l.unranked|
    ensures NamesOf(UnrankedEntries(l, k)) == l.unranked[..k]
  {
    if k > 0 {
      UnrankedNames(l, k - 1);
      var last := Entry(l.unranked[k - 1], NotRanked, "", BackendOf(l, l.unranked[k - 1]));
      NamesConcat(UnrankedEntries(l, k - 1), [last]);
      assert l.unranked[..k] == l.unranked[..k - 1] + [l.unranked[k - 1]];
    }
  }

  lemma {:induction false} SameMembers(a: seq<RankGroup>, b: seq<RankGroup>)
    requires |a| == |b| && forall g :: 0 <= g < |a| ==> a[g].components == b[g].components
    ensures Members(a) == Members(b)
  {
    if a != [] {
      SameMembers(a[..|a| - 1], b[..|b| - 1]);
    }
  }

  /** The file lists the ranked components in the order of their ranks, then the others. */
  lemma {:induction false} FileNames(i: Input)
    requires Resolve(i).Resolved?
    ensures NamesOf(Render(LayoutOf(i)).entries) == Ranked(i.components, i.ranks) + Unranked(i.components, i.ranks)
  {
    var l := LayoutOf(i);
    RankedNames(l, |l.groups|);
    UnrankedNames(l, |l.unranked|);
    NamesConcat(RankedEntries(l, |l.groups|), UnrankedEntries(l, |l.unranked|));
    assert l.groups[..|l.groups|] == l.groups && l.unranked[..|l.unranked|] == l.unranked;
    LayoutGroups(i);
    SameMembers(l.groups, GroupsOf(i));
    AdmittedNamesPrefix(i);
    var groups, n := GroupsOf(i), AdmittedGroups(i);
    MembersSplit(groups, n);
  }

  lemma {:induction false} FilterParts(s: seq<Name>, ranks: map<Name, int>)
    ensures multiset(Filter(s, HasRank(ranks))) + multiset(Filter(s, HasNoRank(ranks))) == multiset(s)
  {
    if s != [] {
      SplitLast(s);
      FilterParts(s[..|s| - 1], ranks);
    }
  }

  /** The file has exactly one entry for each component. */
  lemma {:induction false} FileListsEach(i: Input)
    requires Resolve(i).Resolved?
    ensures multiset(NamesOf(Render(LayoutOf(i)).entries)) == multiset(i.components)
  {
    FileNames(i);
    RankedFacts(i.components, i.ranks);
    NameOrderTotal();
    SortSorts(Filter(i.components, HasNoRank(i.ranks)), NameLeq);
    FilterParts(i.components, i.ranks);
  }

  predicate Named(entries: seq<Entry>, n: Name) {
    exists k :: 0 <= k < |entries| && entries[k].name == n
  }

  lemma {:induction false} NamedIs(entries: seq<Entry>, components: seq<Name>, n: Name)
    requires multiset(NamesOf(entries)) == multiset(components)
    ensures Named(entries, n) <==> n in components
  {
    var names := NamesOf(entries);
    assert n in names <==> n in multiset(names);
    assert n in components <==> n in multiset(components);
  }

  // ---- Of the file of a resolved layout --------------------------------------------------------

  /** What is so of one thread, by the layout itself. */
  ghost predicate TrueOfMask(l: Layout, name: Name, mask: seq<int>, p: Problem) {
    match p
    case OnCoreOf(n, _, c, o) => n == name && mask == [c] && c in Own(l, o) && o != n
    case InNeitherTier(n, _, c) => n == name && mask == [c] && !IsHot(l, c) && c !in l.background
    case MayRunOnHotPath(n, _, cpus) =>
      n == name && |mask| != 1 && cpus != {} && (forall c :: c in cpus <==> c in mask && IsHot(l, c))
    case OutsideBackground(n, _, cpus) =>
      && n == name && |mask| != 1 && cpus != {}
      && (forall c :: c in cpus <==> c in mask && c !in l.background) && (forall c :: c in cpus ==> !IsHot(l, c))
    case _ => false
  }

  /** What is so of a component that takes part, by the declaration and the layout. */
  ghost predicate TrueOf(l: Layout, components: seq<Name>, name: Name, masks: seq<Option<seq<int>>>, p: Problem) {
    match p
    case NothingRunning => false
    case NotListed(n) => n == name && name !in components
    case NobodyPinned(n, cpus) =>
      && n == name && name in components && cpus != {}
      && (forall c :: c in cpus <==> c in Own(l, name) && Some([c]) !in masks)
    case _ => name in components && exists t :: 0 <= t < |masks| && TrueOfThread(l, name, masks, t, p)
  }

  ghost predicate TrueOfThread(l: Layout, name: Name, masks: seq<Option<seq<int>>>, t: nat, p: Problem)
    requires t < |masks|
  {
    IsOf(p, t) && masks[t].Some? && TrueOfMask(l, name, masks[t].value, p)
  }

  /** What the file's entries say is what the layout says. */
  ghost predicate Agree(read: Reader, entries: seq<Entry>, l: Layout) {
    && (forall c, n :: Claims(read, entries, c, n) <==> c in Own(l, n))
    && (forall c :: Claimed(read, entries, c) <==> IsHot(l, c))
    && (forall c :: IsHot(l, c) ==> c !in l.background)
    && (forall e :: e in entries ==> EntryAgrees(read, e, l))
  }

  ghost predicate EntryAgrees(read: Reader, e: Entry, l: Layout) {
    && (forall c :: c in read(e) <==> c in Own(l, e.name))
    && (e.backend.Some? ==> e.backend.value in l.background)
  }

  lemma {:induction false} HotIsOwned(l: Layout, c: int)
    ensures IsHot(l, c) <==> exists n :: c in Own(l, n)
  {
    if IsHot(l, c) {
      var n :| n in l.componentCores && c in l.componentCores[n];
      assert c in Own(l, n);
    }
  }

  lemma {:induction false} SoundAgrees(read: Reader, entries: seq<Entry>, l: Layout, owner: map<int, Name>)
    requires OwnerMap(read, entries, owner) && OwnersTrue(l, owner)
    requires forall e :: e in entries ==> EntryAgrees(read, e, l)
    ensures Agree(read, entries, l)
  {
    forall c, n ensures Claims(read, entries, c, n) <==> c in Own(l, n) {
    }
    forall c ensures Claimed(read, entries, c) <==> IsHot(l, c) {
      HotIsOwned(l, c);
    }
  }

  lemma {:induction false} TrueEntryAgrees(l: Layout, e: Entry)
    requires EntryTrue(l, e) && BackendsBehind(l)
    ensures EntryAgrees(HotPathOf, e, l)
  {
    forall c ensures c in HotPathOf(e) <==> c in Own(l, e.name) {
      assert c in HotPathOf(e) <==> c in Ids(CpusIn(e.hotPath));
    }
  }

  lemma {:induction false} DeployedAgrees(l: Layout, entries: seq<Entry>, owner: map<int, Name>)
    requires owner == Owners(entries) && OwnersTrue(l, owner) && forall e :: e in entries ==> EntryTrue(l, e)
    ensures Agree(HotPathOf, entries, l)
  {
    OwnersAre(entries, owner);
    forall e | e in entries ensures EntryAgrees(HotPathOf, e, l) {
      TrueEntryAgrees(l, e);
    }
    SoundAgrees(HotPathOf, entries, l, owner);
  }

  lemma {:induction false} MaskAgrees(read: Reader, entries: seq<Entry>, l: Layout, background: set<int>, e: Entry, mask: seq<int>, p: Problem)
    requires Agree(read, entries, l) && e in entries && background == Ids(l.background)
    ensures SoOfMask(read, entries, background, e, mask, p) <==> TrueOfMask(l, e.name, mask, p)
  {
    assert EntryAgrees(read, e, l);
  }

  lemma {:induction false} ComponentAgrees(read: Reader, entries: seq<Entry>, l: Layout, background: set<int>, e: Entry,
                                           masks: seq<Option<seq<int>>>, components: seq<Name>, p: Problem)
    requires Agree(read, entries, l) && e in entries && background == Ids(l.background) && e.name in components
    ensures SoOfComponent(read, entries, background, e, masks, p) <==> TrueOf(l, components, e.name, masks, p)
  {
    assert EntryAgrees(read, e, l);
    if !p.NobodyPinned? {
      forall t | 0 <= t < |masks|
        ensures SoOfThread(read, entries, background, e, masks, t, p) <==> TrueOfThread(l, e.name, masks, t, p)
      {
        if masks[t].Some? {
          MaskAgrees(read, entries, l, background, e, masks[t].value, p);
        }
      }
    }
  }

  lemma {:induction false} FirstEntry(entries: seq<Entry>, name: Name) returns (k: nat)
    requires Named(entries, name)
    ensures EntryOf(entries, name, k) && k == IndexOf(entries, name)
  {
    k := IndexOf(entries, name);
  }

  lemma {:induction false} RunningAgrees(read: Reader, entries: seq<Entry>, l: Layout, background: set<int>, metricsOnly: set<Name>,
                                         r: Running, components: seq<Name>, p: Problem)
    requires Agree(read, entries, l) && background == Ids(l.background)
    requires Named(entries, r.name) <==> r.name in components
    ensures SoOfRunning(read, entries, background, metricsOnly, r, p)
            <==> r.name !in metricsOnly && TrueOf(l, components, r.name, r.masks, p)
  {
    if r.name in components {
      var at := FirstEntry(entries, r.name);
      assert entries[at] in entries;
      ComponentAgrees(read, entries, l, background, entries[at], r.masks, components, p);
      forall k: nat | EntryOf(entries, r.name, k) ensures k == at {
      }
    }
  }

  /**
   * Of the file a declaration is resolved to: the audit reports exactly what is so of the layout and the
   * masks, each problem with its component, its thread, its CPUs and, for a CPU of another component, that
   * component.
   */
  lemma {:induction false} AuditReportsExactly(i: Input, metricsOnly: set<Name>, running: seq<Running>, p: Problem)
    requires Deployed(i)
    ensures p in Report(Render(LayoutOf(i)), metricsOnly, running) <==>
      (running == [] && p == NothingRunning)
      || exists k :: 0 <= k < |running| && running[k].name !in metricsOnly
                     && TrueOf(LayoutOf(i), i.components, running[k].name, running[k].masks, p)
  {
    var l := LayoutOf(i);
    DeployedTrueFile(i, l);
    ReportAgrees(l, Render(l), i.components, metricsOnly, running, p);
  }

  /** The file says what the layout says, with one entry for each component. */
  ghost predicate TrueFile(l: Layout, file: LayoutFile, components: seq<Name>) {
    && OwnersTrue(l, Owners(file.entries)) && (forall e :: e in file.entries ==> EntryTrue(l, e))
    && Ids(CpusIn(file.background)) == Ids(l.background) && multiset(NamesOf(file.entries)) == multiset(components)
  }

  lemma {:induction false} DeployedTrueFile(i: Input, l: Layout)
    requires Deployed(i) && l == LayoutOf(i)
    ensures TrueFile(l, Render(l), i.components)
  {
    DeployedFileSound(i, l);
    FileListsEach(i);
  }

  lemma {:induction false} ReportAgrees(l: Layout, file: LayoutFile, components: seq<Name>, metricsOnly: set<Name>, running: seq<Running>, p: Problem)
    requires TrueFile(l, file, components)
    ensures p in Report(file, metricsOnly, running) <==>
      (running == [] && p == NothingRunning)
      || exists k :: 0 <= k < |running| && running[k].name !in metricsOnly && TrueOf(l, components, running[k].name, running[k].masks, p)
  {
    ReportedExactlyWhenSo(file, metricsOnly, running, p);
    DeployedAgrees(l, file.entries, Owners(file.entries));
    forall k | 0 <= k < |running|
      ensures SoOfRunning(HotPathOf, file.entries, Ids(CpusIn(file.background)), metricsOnly, running[k], p)
              <==> running[k].name !in metricsOnly && TrueOf(l, components, running[k].name, running[k].masks, p)
    {
      NamedIs(file.entries, components, running[k].name);
      RunningAgrees(HotPathOf, file.entries, l, Ids(l.background), metricsOnly, running[k], components, p);
    }
  }

  // ---- No thread twice -------------------------------------------------------------------------

  /** How many of the problems are of this thread. */
  function CountOf(problems: seq<Problem>, thread: nat): nat {
    if problems == [] then 0
    else CountOf(problems[..|problems| - 1], thread) + if IsOf(problems[|problems| - 1], thread) then 1 else 0
  }

  lemma {:induction false} OneMoreCounted(problems: seq<Problem>, p: Problem, thread: nat)
    ensures CountOf(problems + [p], thread) == CountOf(problems, thread) + if IsOf(p, thread) then 1 else 0
  {
    assert (problems + [p])[..|problems|] == problems;
  }

  /** One if the thread is there and where it may not be, and otherwise none. */
  function Due(l: Layout, name: Name, masks: seq<Option<seq<int>>>, thread: nat): nat {
    if thread < |masks| && masks[thread].Some? && !MaskAllowed(l, name, masks[thread].value) then 1 else 0
  }

  lemma {:induction false} MaskProblemIsOf(owner: map<int, Name>, background: set<int>, e: Entry, k: nat, mask: seq<int>, thread: nat)
    requires MaskProblem(owner, background, e, k, mask).Some?
    ensures IsOf(MaskProblem(owner, background, e, k, mask).value, thread) <==> thread == k
  {
  }

  lemma {:induction false} ThreadsCounted(l: Layout, owner: map<int, Name>, e: Entry, masks: seq<Option<seq<int>>>, thread: nat)
    requires OwnersTrue(l, owner) && EntryTrue(l, e)
    ensures CountOf(MaskProblems(owner, Ids(l.background), e, masks), thread) == Due(l, e.name, masks, thread)
  {
    if masks != [] {
      var k := |masks| - 1;
      ThreadsCounted(l, owner, e, masks[..k], thread);
      OneMoreThread(l, owner, e, masks, k, masks[..k], thread);
    }
  }

  lemma {:induction false} OneMoreThread(l: Layout, owner: map<int, Name>, e: Entry, masks: seq<Option<seq<int>>>, k: nat,
                                         before: seq<Option<seq<int>>>, thread: nat)
    requires OwnersTrue(l, owner) && EntryTrue(l, e) && |masks| == k + 1 && before == masks[..k]
    requires CountOf(MaskProblems(owner, Ids(l.background), e, before), thread) == Due(l, e.name, before, thread)
    ensures CountOf(MaskProblems(owner, Ids(l.background), e, masks), thread) == Due(l, e.name, masks, thread)
  {
    if masks[k].Some? {
      MaskProblemExact(l, owner, e, k, masks[k].value);
      var said := MaskProblem(owner, Ids(l.background), e, k, masks[k].value);
      if said.Some? {
        OneMoreCounted(MaskProblems(owner, Ids(l.background), e, before), said.value, thread);
        MaskProblemIsOf(owner, Ids(l.background), e, k, masks[k].value, thread);
      }
    }
  }

  /** The reports on a process name this thread once if it is where it may not be, and otherwise not at all. */
  predicate ReportedAsDue(l: Layout, file: LayoutFile, metricsOnly: set<Name>, r: Running, thread: nat) {
    CountOf(RunningProblems(file, metricsOnly, r), thread) == Due(l, r.name, r.masks, thread)
  }

  /** Every thread where it may not be is reported once, and no other thread is. */
  lemma {:induction false} EachThreadReportedOnce(i: Input, metricsOnly: set<Name>, r: Running, thread: nat)
    requires Deployed(i) && r.name !in metricsOnly && r.name in i.components
    ensures ReportedAsDue(LayoutOf(i), Render(LayoutOf(i)), metricsOnly, r, thread)
  {
    DeployedTrueFile(i, LayoutOf(i));
    ReportedOnceIn(LayoutOf(i), Render(LayoutOf(i)), i.components, metricsOnly, r, thread);
  }

  lemma {:induction false} ReportedOnceIn(l: Layout, file: LayoutFile, components: seq<Name>, metricsOnly: set<Name>, r: Running, thread: nat)
    requires TrueFile(l, file, components) && r.name !in metricsOnly && r.name in components
    ensures ReportedAsDue(l, file, metricsOnly, r, thread)
  {
    NamedIs(file.entries, components, r.name);
    var at := FirstEntry(file.entries, r.name);
    assert file.entries[at] in file.entries;
    ComponentOnce(l, Owners(file.entries), file.entries[at], r.masks, thread);
  }

  lemma {:induction false} ComponentOnce(l: Layout, owner: map<int, Name>, e: Entry, masks: seq<Option<seq<int>>>, thread: nat)
    requires OwnersTrue(l, owner) && EntryTrue(l, e)
    ensures CountOf(ComponentProblems(owner, Ids(l.background), e, masks), thread) == Due(l, e.name, masks, thread)
  {
    ThreadsCounted(l, owner, e, masks, thread);
    var problems := MaskProblems(owner, Ids(l.background), e, masks);
    var unclaimed := Unclaimed(owner, e, masks);
    if unclaimed != {} {
      OneMoreCounted(problems, NobodyPinned(e.name, unclaimed), thread);
    } else {
      assert problems + [] == problems;
    }
  }
}
