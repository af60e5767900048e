/**
 * From the declaration to the verdict: what a clean mask audit of a deployed layout means, through
 * the text of the layout file.
 */
module CpuAuditTheorem {
  import opened Sequences
  import opened CpuList
  import opened CpuLayout
  import opened CpuLayoutTiers
  import opened CpuLayoutAdmission
  import opened CpuLayoutBackends
  import opened CpuAudit
  import opened Options

  /** A declaration that resolves on a machine whose CPU ids name one CPU each, with a reserve. */
  ghost predicate Deployed(i: Input) {
    && CpusDistinct(i.topology) && (forall c :: c in i.topology ==> 0 <= c.cpu)
    && Distinct(i.components) && i.minimum >= 1 && Resolve(i).Resolved?
  }

  function LayoutOf(i: Input): Layout
    requires Resolve(i).Resolved?
  {
    Resolve(i).layout
  }

  /** The CPUs a component was allocated; none if it was not admitted. */
  function Own(l: Layout, name: Name): set<int> {
    if name in l.componentCores then Ids(l.componentCores[name]) else {}
  }

  // ---- What the file says ----------------------------------------------------------------------

  lemma {:induction false} SortedMembers(cpus: seq<int>, c: int)
    ensures c in Sorted(cpus) <==> c in cpus
  {
    SortSorts(cpus, Leq);
    assert c in Sorted(cpus) <==> c in multiset(Sorted(cpus));
  }

  lemma {:induction false} TextRead(cpus: seq<int>)
    requires forall k :: 0 <= k < |cpus| ==> 0 <= cpus[k]
    ensures Parse(Format(cpus)).Some? && Ids(CpusIn(Format(cpus))) == Ids(cpus)
  {
    ParseFormat(cpus);
    forall c ensures c in CpusIn(Format(cpus)) <==> c in cpus {
      SortedMembers(cpus, c);
    }
  }

  lemma {:induction false} EmptyRead()
    ensures Parse("") == Some([]) && CpusIn("") == []
  {
    assert Format([]) == "";
    ParseFormat([]);
  }

  /** Every CPU id written to the file is one of the machine's. */
  lemma {:induction false} WrittenIdsNotNegative(i: Input, cpus: seq<int>)
    requires Deployed(i) && AllClaimed(cpus, LayoutOf(i).claimable)
    ensures forall k :: 0 <= k < |cpus| ==> 0 <= cpus[k]
  {
    forall k | 0 <= k < |cpus| ensures 0 <= cpus[k] {
      assert cpus[k] in cpus;
    }
  }

  lemma {:induction false} ComponentTextRead(i: Input, name: Name)
    requires Deployed(i) && name in LayoutOf(i).componentCores
    ensures var text := Format(LayoutOf(i).componentCores[name]);
      Parse(text).Some? && Ids(CpusIn(text)) == Own(LayoutOf(i), name)
  {
    TiersDivideClaimable(i);
    WrittenIdsNotNegative(i, LayoutOf(i).componentCores[name]);
    TextRead(LayoutOf(i).componentCores[name]);
  }

  lemma {:induction false} BackgroundTextRead(i: Input)
    requires Deployed(i)
    ensures var text := Format(LayoutOf(i).background);
      Parse(text).Some? && Ids(CpusIn(text)) == Ids(LayoutOf(i).background)
  {
    TiersDivideClaimable(i);
    WrittenIdsNotNegative(i, LayoutOf(i).background);
    TextRead(LayoutOf(i).background);
  }

  /** The entry tells the truth about its component. */
  ghost predicate EntryTrue(l: Layout, e: Entry) {
    && TextTrue(l, e.name, e.hotPath)
    && e.backend == BackendOf(l, e.name)
    && (e.standing.Admitted? <==> e.name in l.componentCores)
  }

  /** The text lists the component's own CPUs. */
  ghost predicate TextTrue(l: Layout, name: Name, text: string) {
    Parse(text).Some? && Ids(CpusIn(text)) == Own(l, name)
  }

  /** The layout's groups are the declaration's, with a verdict each. */
  lemma {:induction false} LayoutGroups(i: Input)
    requires Resolve(i).Resolved?
    ensures var l := LayoutOf(i);
      && l.componentCores == PlacedOf(i) && |l.groups| == |GroupsOf(i)|
      && (forall g :: 0 <= g < |l.groups| ==>
            l.groups[g].components == GroupsOf(i)[g].components && (l.groups[g].admitted <==> g < AdmittedGroups(i)))
  {
    FirstRefusedDoesNotFit(i);
  }

  /** A component has cores exactly when its group was admitted. */
  lemma {:induction false} GroupMemberPlaced(i: Input, g: nat, name: Name)
    requires Distinct(i.components) && g < |GroupsOf(i)| && name in GroupsOf(i)[g].components
    ensures name in PlacedOf(i) <==> g < AdmittedGroups(i)
  {
    AdmittedNamesPrefix(i);
    var groups, n := GroupsOf(i), AdmittedGroups(i);
    if g < n {
      GroupMember(groups[..n], g, name);
    } else {
      GroupMember(groups[n..], g - n, name);
      RankedFacts(i.components, i.ranks);
      NotInBoth(AdmittedNames(i), Members(groups[n..]), name);
    }
  }

  lemma {:induction false} DemotedHasNone(i: Input, g: nat, name: Name)
    requires Deployed(i) && g < |LayoutOf(i).groups| && name in LayoutOf(i).groups[g].components
    ensures name in LayoutOf(i).componentCores <==> LayoutOf(i).groups[g].admitted
  {
    LayoutGroups(i);
    GroupMemberPlaced(i, g, name);
  }

  lemma {:induction false} NotInBoth(a: seq<Name>, b: seq<Name>, name: Name)
    requires Distinct(a + b) && name in b
    ensures name !in a
  {
    var q :| 0 <= q < |b| && b[q] == name;
    forall p | 0 <= p < |a| ensures a[p] != name {
      assert (a + b)[p] != (a + b)[|a| + q];
    }
  }

  lemma {:induction false} UnrankedMember(i: Input, name: Name)
    requires Resolve(i).Resolved? && name in LayoutOf(i).unranked
    ensures name !in LayoutOf(i).componentCores
  {
    UnrankedHasNoRank(i.components, i.ranks, name);
    PlacedHasRank(i, name);
  }

  lemma {:induction false} PlacedHasRank(i: Input, name: Name)
    ensures name in PlacedOf(i) ==> name in i.ranks
  {
    AdmittedNamesPrefix(i);
    RankedFacts(i.components, i.ranks);
  }

  lemma {:induction false} UnrankedHasNoRank(components: seq<Name>, ranks: map<Name, int>, name: Name)
    requires name in Unranked(components, ranks)
    ensures name !in ranks
  {
    NameOrderTotal();
    var kept := Filter(components, HasNoRank(ranks));
    SortSorts(kept, NameLeq);
    assert name in multiset(Sort(kept, NameLeq));
    assert name in multiset(kept);
    assert name in kept && HasNoRank(ranks)(name);
  }

  /** What the entries rely on. */
  ghost predicate Truthful(l: Layout) {
    && (forall n :: n in l.componentCores ==> TextTrue(l, n, Format(l.componentCores[n])))
    && (forall g, n :: 0 <= g < |l.groups| && n in l.groups[g].components ==> (n in l.componentCores <==> l.groups[g].admitted))
    && (forall n :: n in l.unranked ==> n !in l.componentCores)
  }

  lemma {:induction false} DeployedTruthful(i: Input)
    requires Deployed(i)
    ensures Truthful(LayoutOf(i))
  {
    var l := LayoutOf(i);
    forall n | n in l.componentCores ensures TextTrue(l, n, Format(l.componentCores[n])) {
      ComponentTextRead(i, n);
    }
    forall g, n | 0 <= g < |l.groups| && n in l.groups[g].components ensures n in l.componentCores <==> l.groups[g].admitted {
      DemotedHasNone(i, g, n);
    }
    forall n | n in l.unranked ensures n !in l.componentCores {
      UnrankedMember(i, n);
    }
  }

  ghost predicate Listed(entries: seq<Entry>, n: Name) {
    exists k :: 0 <= k < |entries| && entries[k].name == n
  }

  lemma {:induction false} ListedConcat(a: seq<Entry>, b: seq<Entry>, n: Name)
    ensures Listed(a, n) || Listed(b, n) ==> Listed(a + b, n)
  {
    if Listed(a, n) {
      var k :| 0 <= k < |a| && a[k].name == n;
      assert (a + b)[k].name == n;
    } else if Listed(b, n) {
      var k :| 0 <= k < |b| && b[k].name == n;
      assert (a + b)[|a| + k].name == n;
    }
  }

  lemma {:induction false} RankedEntryTrue(l: Layout, g: RankGroup, name: Name)
    requires Truthful(l) && g in l.groups && name in g.components
    ensures EntryTrue(l, RankedEntry(l, g, name))
  {
    var k :| 0 <= k < |l.groups| && l.groups[k] == g;
    EmptyRead();
  }

  lemma {:induction false} GroupEntriesTrue(l: Layout, g: RankGroup, k: nat)
    requires Truthful(l) && g in l.groups && k <= |g.components|
    ensures forall e :: e in GroupEntries(l, g, k) ==> EntryTrue(l, e)
    ensures forall n :: n in g.components[..k] ==> Listed(GroupEntries(l, g, k), n)
  {
    forall e | e in GroupEntries(l, g, k) ensures EntryTrue(l, e) {
      GroupEntryTrue(l, g, k, e);
    }
    forall n | n in g.components[..k] ensures Listed(GroupEntries(l, g, k), n) {
      GroupListed(l, g, k, n);
    }
  }

  lemma {:induction false} GroupEntryTrue(l: Layout, g: RankGroup, k: nat, e: Entry)
    requires Truthful(l) && g in l.groups && k <= |g.components| && e in GroupEntries(l, g, k)
    ensures EntryTrue(l, e)
  {
    var before, last := GroupEntries(l, g, k - 1), RankedEntry(l, g, g.components[k - 1]);
    if e == last {
      RankedEntryTrue(l, g, g.components[k - 1]);
    } else {
      assert e in before;
      GroupEntryTrue(l, g, k - 1, e);
    }
  }

  lemma {:induction false} GroupListed(l: Layout, g: RankGroup, k: nat, n: Name)
    requires k <= |g.components| && n in g.components[..k]
    ensures Listed(GroupEntries(l, g, k), n)
  {
    var before, last := GroupEntries(l, g, k - 1), RankedEntry(l, g, g.components[k - 1]);
    if n == g.components[k - 1] {
      assert [last][0].name == n;
    } else {
      assert n in g.components[..k - 1];
      GroupListed(l, g, k - 1, n);
    }
    ListedConcat(before, [last], n);
  }

  lemma {:induction false} RankedEntriesTrue(l: Layout, g: nat)
    requires Truthful(l) && g <= |l.groups|
    ensures forall e :: e in RankedEntries(l, g) ==> EntryTrue(l, e)
    ensures forall h, n :: 0 <= h < g && n in l.groups[h].components ==> Listed(RankedEntries(l, g), n)
  {
    if g > 0 {
      RankedEntriesTrue(l, g - 1);
      var group := l.groups[g - 1];
      GroupEntriesTrue(l, group, |group.components|);
      assert group.components[..|group.components|] == group.components;
      var before, more := RankedEntries(l, g - 1), GroupEntries(l, group, |group.components|);
      forall h, n | 0 <= h < g && n in l.groups[h].components ensures Listed(before + more, n) {
        ListedConcat(before, more, n);
      }
    }
  }

  lemma {:induction false} UnrankedEntriesTrue(l: Layout, k: nat)
    requires Truthful(l) && k <= |l.unranked|
    ensures forall e :: e in UnrankedEntries(l, k) ==> EntryTrue(l, e)
  {
    if k > 0 {
      UnrankedEntriesTrue(l, k - 1);
      assert l.unranked[k - 1] in l.unranked;
      EmptyRead();
    }
  }

  /** Everything in the file is true, and every component with cores is in it. */
  lemma {:induction false} FileTrue(i: Input)
    requires Deployed(i)
    ensures var entries := Render(LayoutOf(i)).entries;
      && (forall e :: e in entries ==> EntryTrue(LayoutOf(i), e))
      && (forall n :: n in LayoutOf(i).componentCores ==> Listed(entries, n))
  {
    var l := LayoutOf(i);
    DeployedTruthful(i);
    RankedEntriesTrue(l, |l.groups|);
    UnrankedEntriesTrue(l, |l.unranked|);
    forall n | n in l.componentCores ensures Listed(Render(l).entries, n) {
      var g := AdmittedGroupOf(i, n);
      ListedConcat(RankedEntries(l, |l.groups|), UnrankedEntries(l, |l.unranked|), n);
    }
  }

  lemma {:induction false} AdmittedGroupOf(i: Input, n: Name) returns (g: nat)
    requires Resolve(i).Resolved? && n in LayoutOf(i).componentCores
    ensures g < |LayoutOf(i).groups| && n in LayoutOf(i).groups[g].components
  {
    AdmittedNamesPrefix(i);
    LayoutGroups(i);
    g := MemberOfGroup(GroupsOf(i)[..AdmittedGroups(i)], n);
  }

  lemma {:induction false} TrueIsReadable(l: Layout, entries: seq<Entry>)
    requires forall e :: e in entries ==> EntryTrue(l, e)
    ensures AllReadable(entries)
  {
    if entries != [] {
      assert entries[|entries| - 1] in entries;
      TrueIsReadable(l, entries[..|entries| - 1]);
    }
  }

  // ---- Who owns a CPU --------------------------------------------------------------------------

  lemma {:induction false} ClaimFacts(owner: map<int, Name>, cpus: seq<int>, name: Name)
    ensures Claim(owner, cpus, name).Keys == owner.Keys + Ids(cpus)
    ensures forall c :: c in Claim(owner, cpus, name) ==>
              Claim(owner, cpus, name)[c] == if c in cpus then name else owner[c]
  {
    if cpus != [] {
      var n := |cpus| - 1;
      ClaimFacts(owner, cpus[..n], name);
      assert cpus == cpus[..n] + [cpus[n]];
    }
  }

  lemma {:induction false} LastClaims(entries: seq<Entry>, before: seq<Entry>, last: Entry, c: int)
    requires entries != [] && before == entries[..|entries| - 1] && last == entries[|entries| - 1]
    ensures c in Owners(entries) <==> c in CpusIn(last.hotPath) || c in Owners(before)
    ensures c in Owners(entries) ==> Owners(entries)[c] == if c in CpusIn(last.hotPath) then last.name else Owners(before)[c]
  {
    ClaimFacts(Owners(before), CpusIn(last.hotPath), last.name);
  }

  lemma {:induction false} OwnerTrue(l: Layout, entries: seq<Entry>, c: int)
    requires (forall e :: e in entries ==> EntryTrue(l, e)) && c in Owners(entries)
    ensures c in Own(l, Owners(entries)[c])
  {
    var n := |entries| - 1;
    var last := entries[n];
    LastClaims(entries, entries[..n], last, c);
    assert EntryTrue(l, last);
    if c in CpusIn(last.hotPath) {
      assert c in Ids(CpusIn(last.hotPath));
    } else {
      OwnerTrue(l, entries[..n], c);
    }
  }

  lemma {:induction false} OwnedIsRead(entries: seq<Entry>, k: nat, c: int)
    requires k < |entries| && c in CpusIn(entries[k].hotPath)
    ensures c in Owners(entries)
  {
    var n := |entries| - 1;
    if k < n {
      OwnedIsRead(entries[..n], k, c);
      EarlierIsRead(entries, entries[..n], c);
    } else {
      LastIsRead(entries, entries[n], c);
    }
  }

  lemma {:induction false} EarlierIsRead(entries: seq<Entry>, before: seq<Entry>, c: int)
    requires entries != [] && before == entries[..|entries| - 1] && c in Owners(before)
    ensures c in Owners(entries)
  {
    LastClaims(entries, before, entries[|entries| - 1], c);
  }

  lemma {:induction false} LastIsRead(entries: seq<Entry>, last: Entry, c: int)
    requires entries != [] && last == entries[|entries| - 1] && c in CpusIn(last.hotPath)
    ensures c in Owners(entries)
  {
    LastClaims(entries, entries[..|entries| - 1], last, c);
  }

  /** The owners read from a true file own what they are said to, and nothing is left out. */
  lemma {:induction false} OwnersFacts(l: Layout, entries: seq<Entry>, c: int)
    requires forall e :: e in entries ==> EntryTrue(l, e)
    ensures c in Owners(entries) ==> c in Own(l, Owners(entries)[c])
    ensures forall e :: e in entries && c in Own(l, e.name) ==> c in Owners(entries)
  {
    if c in Owners(entries) {
      OwnerTrue(l, entries, c);
    }
    forall e | e in entries && c in Own(l, e.name) ensures c in Owners(entries) {
      var k :| 0 <= k < |entries| && entries[k] == e;
      assert EntryTrue(l, e) && c in Ids(CpusIn(e.hotPath));
      OwnedIsRead(entries, k, c);
    }
  }

  lemma {:induction false} OwnedByOne(i: Input, a: Name, b: Name, c: int)
    requires Deployed(i) && c in Own(LayoutOf(i), a) && c in Own(LayoutOf(i), b)
    ensures a == b
  {
    LayoutGroups(i);
    if a != b {
      var j, core, k := HotCpuOf(i, a, c);
      CoresNotShared(i, a, b, core, core);
      assert false;
    }
  }

  /** The audit attributes a CPU to a component exactly when the layout gave it to that component. */
  lemma {:induction false} OwnersExact(i: Input, name: Name, c: int)
    requires Deployed(i)
    ensures var owner := Owners(Render(LayoutOf(i)).entries);
      c in owner && owner[c] == name <==> c in Own(LayoutOf(i), name)
  {
    var l := LayoutOf(i);
    var entries := Render(l).entries;
    FileTrue(i);
    OwnersFacts(l, entries, c);
    if c in Own(l, name) {
      var k :| 0 <= k < |entries| && entries[k].name == name;
      assert entries[k] in entries;
      OwnedByOne(i, name, Owners(entries)[c], c);
    }
  }

  lemma {:induction false} RoundRobinInside(names: seq<Name>, background: seq<int>, n: Name)
    requires background != [] && n in RoundRobin(names, background)
    ensures RoundRobin(names, background)[n] in background
  {
    if n != names[|names| - 1] {
      RoundRobinInside(names[..|names| - 1], background, n);
    }
  }

  lemma {:induction false} BackendInBackground(i: Input, n: Name)
    requires Resolve(i).Resolved? && n in LayoutOf(i).quill
    ensures LayoutOf(i).quill[n] in LayoutOf(i).background
  {
    var l := LayoutOf(i);
    RoundRobinInside(Sort(i.quill, NameLeq), l.background, n);
  }

  lemma {:induction false} BackgroundNotOwned(i: Input, n: Name, c: int)
    requires Deployed(i) && c in LayoutOf(i).background
    ensures c !in Own(LayoutOf(i), n)
  {
    TiersDivideClaimable(i);
    assert AllClaimed(LayoutOf(i).background, LayoutOf(i).claimable);
    OwnIsHot(LayoutOf(i), n, c);
  }

  lemma {:induction false} OwnIsHot(l: Layout, n: Name, c: int)
    ensures c in Own(l, n) ==> IsHot(l, c)
  {
  }

  /** What the checks rely on: ownership is exact, and the background belongs to nobody. */
  ghost predicate OwnersTrue(l: Layout, owner: map<int, Name>) {
    OwnersHold(l, owner) && HoldersOwn(l, owner) && BackendsBehind(l)
  }

  ghost predicate OwnersHold(l: Layout, owner: map<int, Name>) {
    forall c :: c in owner ==> c in Own(l, owner[c]) && c !in l.background
  }

  ghost predicate HoldersOwn(l: Layout, owner: map<int, Name>) {
    forall c, n :: c in Own(l, n) ==> c in owner && owner[c] == n
  }

  ghost predicate BackendsBehind(l: Layout) {
    forall n :: n in l.quill ==> l.quill[n] in l.background
  }

  lemma {:induction false} OwnerNotBackground(i: Input, c: int)
    requires Deployed(i) && c in Owners(Render(LayoutOf(i)).entries)
    ensures c in Own(LayoutOf(i), Owners(Render(LayoutOf(i)).entries)[c]) && c !in LayoutOf(i).background
  {
    var n := Owners(Render(LayoutOf(i)).entries)[c];
    OwnersExact(i, n, c);
    if c in LayoutOf(i).background {
      BackgroundNotOwned(i, n, c);
    }
  }

  lemma {:induction false} OwnersHoldTheirs(i: Input, l: Layout, owner: map<int, Name>)
    requires Deployed(i) && l == LayoutOf(i) && owner == Owners(Render(l).entries)
    ensures OwnersHold(l, owner)
  {
    forall c | c in owner ensures c in Own(l, owner[c]) && c !in l.background {
      OwnerNotBackground(i, c);
    }
  }

  lemma {:induction false} HeldIsOwned(i: Input, l: Layout, owner: map<int, Name>)
    requires Deployed(i) && l == LayoutOf(i) && owner == Owners(Render(l).entries)
    ensures HoldersOwn(l, owner)
  {
    AllOwnersExact(i, l, owner);
    ExactHoldersOwn(l, owner);
  }

  /** The owner map gives this CPU to the component exactly when the layout does. */
  predicate OwnsExactly(l: Layout, owner: map<int, Name>, n: Name, c: int) {
    c in owner && owner[c] == n <==> c in Own(l, n)
  }

  lemma {:induction false} OwnersExactFor(i: Input, l: Layout, owner: map<int, Name>, n: Name, c: int)
    requires Deployed(i) && l == LayoutOf(i) && owner == Owners(Render(l).entries)
    ensures OwnsExactly(l, owner, n, c)
  {
    OwnersExact(i, n, c);
  }

  lemma {:induction false} AllOwnersExact(i: Input, l: Layout, owner: map<int, Name>)
    requires Deployed(i) && l == LayoutOf(i) && owner == Owners(Render(l).entries)
    ensures forall n, c :: OwnsExactly(l, owner, n, c)
  {
    forall n, c ensures OwnsExactly(l, owner, n, c) {
      OwnersExactFor(i, l, owner, n, c);
    }
  }

  lemma {:induction false} ExactHoldersOwn(l: Layout, owner: map<int, Name>)
    requires forall n, c :: OwnsExactly(l, owner, n, c)
    ensures HoldersOwn(l, owner)
  {
    forall c, n | c in Own(l, n) ensures c in owner && owner[c] == n {
      assert OwnsExactly(l, owner, n, c);
    }
  }

  lemma {:induction false} BackendsInBackground(i: Input, l: Layout)
    requires Deployed(i) && l == LayoutOf(i)
    ensures BackendsBehind(l)
  {
    forall n | n in l.quill ensures l.quill[n] in l.background {
      BackendInBackground(i, n);
    }
  }

  lemma {:induction false} DeployedOwnersTrue(i: Input, l: Layout, owner: map<int, Name>)
    requires Deployed(i) && l == LayoutOf(i) && owner == Owners(Render(l).entries)
    ensures OwnersTrue(l, owner)
  {
    OwnersHoldTheirs(i, l, owner);
    HeldIsOwned(i, l, owner);
    BackendsInBackground(i, l);
  }

  // ---- One thread, one component, the whole machine --------------------------------------------

  /** A mask of one CPU must be an own hot-path CPU or a background one; a wider mask must stay in the background. */
  predicate MaskAllowed(l: Layout, name: Name, mask: seq<int>) {
    if |mask| == 1 then mask[0] in Own(l, name) || mask[0] in l.background
    else forall c :: c in mask ==> c in l.background
  }

  /** Every thread is where it may be, and every own hot-path CPU has a thread pinned to it alone. */
  predicate ComponentClean(l: Layout, name: Name, masks: seq<Option<seq<int>>>) {
    && (forall k :: 0 <= k < |masks| && masks[k].Some? ==> MaskAllowed(l, name, masks[k].value))
    && (forall c :: c in Own(l, name) ==> Some([c]) in masks)
  }

  lemma {:induction false} MaskProblemExact(l: Layout, owner: map<int, Name>, e: Entry, thread: nat, mask: seq<int>)
    requires OwnersTrue(l, owner) && EntryTrue(l, e)
    ensures MaskProblem(owner, Ids(l.background), e, thread, mask).None? <==> MaskAllowed(l, e.name, mask)
  {
    if |mask| == 1 {
      assert e.backend == BackendOf(l, e.name);
    } else {
      OutsideExact(mask, l.background);
    }
  }

  lemma {:induction false} OutsideExact(mask: seq<int>, background: seq<int>)
    ensures Ids(mask) - Ids(background) == {} <==> forall c :: c in mask ==> c in background
  {
    var outside := Ids(mask) - Ids(background);
    forall c | c in mask ensures c in background || c in outside {
    }
    if outside != {} {
      SomeMember(outside);
      var c :| c in outside;
      assert c in mask && c !in background;
    }
  }

  lemma {:induction false} MaskProblemsExact(l: Layout, owner: map<int, Name>, e: Entry, masks: seq<Option<seq<int>>>)
    requires OwnersTrue(l, owner) && EntryTrue(l, e)
    ensures MaskProblems(owner, Ids(l.background), e, masks) == []
            <==> forall k :: 0 <= k < |masks| && masks[k].Some? ==> MaskAllowed(l, e.name, masks[k].value)
  {
    if masks != [] {
      var k := |masks| - 1;
      MaskProblemsExact(l, owner, e, masks[..k]);
      if masks[k].Some? {
        MaskProblemExact(l, owner, e, k, masks[k].value);
      }
      assert forall j :: 0 <= j < k ==> masks[..k][j] == masks[j];
    }
  }

  lemma {:induction false} UnclaimedExact(l: Layout, owner: map<int, Name>, e: Entry, masks: seq<Option<seq<int>>>)
    requires OwnersTrue(l, owner) && EntryTrue(l, e)
    ensures Unclaimed(owner, e, masks) == {} <==> forall c :: c in Own(l, e.name) ==> Some([c]) in masks
  {
    assert forall c :: c in CpusIn(e.hotPath) <==> c in Own(l, e.name);
    assert forall c :: c in Unclaimed(owner, e, masks) <==> c in Own(l, e.name) && Some([c]) !in masks;
    SomeMember(Unclaimed(owner, e, masks));
  }

  lemma {:induction false} ComponentExact(l: Layout, owner: map<int, Name>, e: Entry, masks: seq<Option<seq<int>>>)
    requires OwnersTrue(l, owner) && EntryTrue(l, e)
    ensures ComponentProblems(owner, Ids(l.background), e, masks) == [] <==> ComponentClean(l, e.name, masks)
  {
    MaskProblemsExact(l, owner, e, masks);
    UnclaimedExact(l, owner, e, masks);
  }

  /** What a running process must be for the audit to have nothing to say about it. */
  ghost predicate RunningClean(l: Layout, metricsOnly: set<Name>, r: Running) {
    r.name in metricsOnly || (Listed(Render(l).entries, r.name) && ComponentClean(l, r.name, r.masks))
  }

  lemma {:induction false} ListedExact(entries: seq<Entry>, name: Name)
    ensures Listed(entries, name) <==> IndexOf(entries, name) < |entries|
  {
  }

  lemma {:induction false} RunningExact(l: Layout, metricsOnly: set<Name>, r: Running)
    requires OwnersTrue(l, Owners(Render(l).entries)) && forall e :: e in Render(l).entries ==> EntryTrue(l, e)
    requires Ids(CpusIn(Render(l).background)) == Ids(l.background)
    ensures RunningProblems(Render(l), metricsOnly, r) == [] <==> RunningClean(l, metricsOnly, r)
  {
    var entries := Render(l).entries;
    var k := IndexOf(entries, r.name);
    ListedExact(entries, r.name);
    if r.name !in metricsOnly && k < |entries| {
      assert entries[k] in entries;
      ComponentExact(l, Owners(entries), entries[k], r.masks);
    }
  }

  predicate Quiet(file: LayoutFile, metricsOnly: set<Name>, r: Running) {
    RunningProblems(file, metricsOnly, r) == []
  }

  function ProblemsOf(file: LayoutFile, metricsOnly: set<Name>): Running -> seq<Problem> {
    r => RunningProblems(file, metricsOnly, r)
  }

  /** What is said of each, put together. */
  function Together<T>(said: T -> seq<Problem>, s: seq<T>): seq<Problem> {
    if s == [] then [] else Together(said, s[..|s| - 1]) + said(s[|s| - 1])
  }

  lemma {:induction false} NothingSaid<T>(said: T -> seq<Problem>, s: seq<T>)
    ensures Together(said, s) == [] <==> forall k :: 0 <= k < |s| ==> said(s[k]) == []
  {
    if s != [] {
      NothingSaid(said, s[..|s| - 1]);
    }
  }

  lemma {:induction false} AllTogether(file: LayoutFile, metricsOnly: set<Name>, running: seq<Running>)
    ensures AllProblems(file, metricsOnly, running) == Together(ProblemsOf(file, metricsOnly), running)
  {
    if running != [] {
      AllTogether(file, metricsOnly, running[..|running| - 1]);
    }
  }

  lemma {:induction false} NoProblemsAtAll(file: LayoutFile, metricsOnly: set<Name>, running: seq<Running>)
    ensures AllProblems(file, metricsOnly, running) == []
            <==> forall k :: 0 <= k < |running| ==> Quiet(file, metricsOnly, running[k])
  {
    AllTogether(file, metricsOnly, running);
    NothingSaid(ProblemsOf(file, metricsOnly), running);
  }

  /** The file says of the layout what is true. */
  ghost predicate FileSound(l: Layout) {
    && OwnersTrue(l, Owners(Render(l).entries)) && (forall e :: e in Render(l).entries ==> EntryTrue(l, e))
    && Ids(CpusIn(Render(l).background)) == Ids(l.background)
  }

  /** The audit of these processes is clean exactly when each of them is. */
  ghost predicate AuditExact(l: Layout, metricsOnly: set<Name>, running: seq<Running>) {
    AllProblems(Render(l), metricsOnly, running) == [] <==> forall r :: r in running ==> RunningClean(l, metricsOnly, r)
  }

  lemma {:induction false} QuietIsClean(l: Layout, metricsOnly: set<Name>, r: Running)
    requires FileSound(l)
    ensures Quiet(Render(l), metricsOnly, r) <==> RunningClean(l, metricsOnly, r)
  {
    RunningExact(l, metricsOnly, r);
  }

  lemma {:induction false} AllRunningExact(l: Layout, metricsOnly: set<Name>, running: seq<Running>)
    requires FileSound(l)
    ensures AuditExact(l, metricsOnly, running)
  {
    NoProblemsAtAll(Render(l), metricsOnly, running);
    forall k | 0 <= k < |running|
      ensures Quiet(Render(l), metricsOnly, running[k]) <==> RunningClean(l, metricsOnly, running[k])
    {
      QuietIsClean(l, metricsOnly, running[k]);
    }
  }

  lemma {:induction false} DeployedFileSound(i: Input, l: Layout)
    requires Deployed(i) && l == LayoutOf(i)
    ensures FileSound(l)
  {
    FileTrue(i);
    BackgroundTextRead(i);
    DeployedOwnersTrue(i, l, Owners(Render(l).entries));
  }

  lemma {:induction false} AllExact(i: Input, metricsOnly: set<Name>, running: seq<Running>)
    requires Deployed(i)
    ensures AuditExact(LayoutOf(i), metricsOnly, running)
  {
    DeployedFileSound(i, LayoutOf(i));
    AllRunningExact(LayoutOf(i), metricsOnly, running);
  }

  /**
   * Resolving a declaration, writing the layout file and auditing the running processes against it:
   * the file can be read, and the audit reports nothing exactly when something runs, every process that
   * takes part is listed, every thread is where the layout allows, and every hot-path CPU has its thread.
   */
  lemma {:induction false} AuditCleanExactlyWhen(i: Input, metricsOnly: set<Name>, running: seq<Running>)
    requires Deployed(i)
    ensures Readable(Render(LayoutOf(i)))
    ensures Report(Render(LayoutOf(i)), metricsOnly, running) == []
            <==> running != [] && forall r :: r in running ==> RunningClean(LayoutOf(i), metricsOnly, r)
  {
    FileTrue(i);
    BackgroundTextRead(i);
    TrueIsReadable(LayoutOf(i), Render(LayoutOf(i)).entries);
    AllExact(i, metricsOnly, running);
  }

  lemma {:induction false} AllowedIsOwnOrBackground(l: Layout, name: Name, mask: seq<int>, cpu: int)
    requires MaskAllowed(l, name, mask) && cpu in mask
    ensures cpu in Own(l, name) || cpu in l.background
  {
  }

  /**
   * After a clean audit no thread of an audited component may run on a physical core that holds
   * another component's hot-path CPU.
   */
  lemma {:induction false} CleanAuditKeepsCoresApart(i: Input, metricsOnly: set<Name>, running: seq<Running>,
                                  r: Running, k: nat, x: Core, other: Name, y: Core)
    requires Deployed(i) && Report(Render(LayoutOf(i)), metricsOnly, running) == []
    requires r in running && r.name !in metricsOnly && k < |r.masks| && r.masks[k].Some?
    requires x in LayoutOf(i).claimable && x.cpu in r.masks[k].value
    requires other != r.name && y in LayoutOf(i).claimable && y.cpu in Own(LayoutOf(i), other)
    ensures x.physical != y.physical
  {
    AllExact(i, metricsOnly, running);
    assert RunningClean(LayoutOf(i), metricsOnly, r);
    AllowedIsOwnOrBackground(LayoutOf(i), r.name, r.masks[k].value, x.cpu);
    LayoutGroups(i);
    if x.cpu in Own(LayoutOf(i), r.name) {
      CoresNotShared(i, r.name, other, x, y);
    } else if x.physical == y.physical {
      PhysicalCoreServesOne(i, other, y, x);
    }
  }
}
