/**
 * The layout file a resolved layout is written to, and the audit that reads it back and compares every
 * running thread's real affinity mask with it.
 */
module CpuAudit {
  import opened CpuList
  import opened CpuLayout
  import opened Options

  /** What became of a component's claim to cores of its own. */
  datatype Standing = Admitted(rank: int) | Demoted(rank: int, reason: Reason) | NotRanked

  datatype Entry = Entry(name: Name, standing: Standing, hotPath: string, backend: Option<int>)

  /** The core lists of the layout file, as text. */
  datatype LayoutFile = LayoutFile(background: string, entries: seq<Entry>)

  /** A running component; a thread that has gone has no mask. */
  datatype Running = Running(name: Name, masks: seq<Option<seq<int>>>)

  datatype Problem =
    | NothingRunning
    | NotListed(name: Name)
    | OnCoreOf(name: Name, thread: nat, cpu: int, owner: Name)
    | InNeitherTier(name: Name, thread: nat, cpu: int)
    | MayRunOnHotPath(name: Name, thread: nat, cpus: set<int>)
    | OutsideBackground(name: Name, thread: nat, cpus: set<int>)
    | NobodyPinned(name: Name, cpus: set<int>)

  // ---- Writing the file ------------------------------------------------------------------------

  function BackendOf(l: Layout, name: Name): Option<int> {
    if name in l.quill then Some(l.quill[name]) else None
  }

  function RankedEntry(l: Layout, g: RankGroup, name: Name): Entry {
    Entry(name, if g.admitted then Admitted(g.rank) else Demoted(g.rank, g.reason),
          if g.admitted && name in l.componentCores then Format(l.componentCores[name]) else "", BackendOf(l, name))
  }

  function GroupEntries(l: Layout, g: RankGroup, k: nat): seq<Entry>
    requires k <= |g.components|
  {
    if k == 0 then [] else GroupEntries(l, g, k - 1) + [RankedEntry(l, g, g.components[k - 1])]
  }

  function RankedEntries(l: Layout, k: nat): seq<Entry>
    requires k <= |l.groups|
  {
    if k == 0 then [] else RankedEntries(l, k - 1) + GroupEntries(l, l.groups[k - 1], |l.groups[k - 1].components|)
  }

  function UnrankedEntries(l: Layout, k: nat): seq<Entry>
    requires k <= |l.unranked|
  {
    if k == 0 then [] else UnrankedEntries(l, k - 1) + [Entry(l.unranked[k - 1], NotRanked, "", BackendOf(l, l.unranked[k - 1]))]
  }

  function Render(l: Layout): LayoutFile {
    LayoutFile(Format(l.background), RankedEntries(l, |l.groups|) + UnrankedEntries(l, |l.unranked|))
  }

  method RenderLayoutFile(l: Layout) returns (file: LayoutFile)
    ensures file == Render(l)
  {
    var entries: seq<Entry> := [];
    for g := 0 to |l.groups|
      invariant entries == RankedEntries(l, g)
    {
      var group := l.groups[g];
      for k := 0 to |group.components|
        invariant entries == RankedEntries(l, g) + GroupEntries(l, group, k)
      {
        var name := group.components[k];
        var text := "";
        if group.admitted && name in l.componentCores {
          text := FormatCpuList(l.componentCores[name]);
        }
        var standing := if group.admitted then Admitted(group.rank) else Demoted(group.rank, group.reason);
        entries := entries + [Entry(name, standing, text, BackendOf(l, name))];
      }
    }
    for k := 0 to |l.unranked|
      invariant entries == RankedEntries(l, |l.groups|) + UnrankedEntries(l, k)
    {
      entries := entries + [Entry(l.unranked[k], NotRanked, "", BackendOf(l, l.unranked[k]))];
    }
    var background := FormatCpuList(l.background);
    file := LayoutFile(background, entries);
  }

  // ---- What the audit reads --------------------------------------------------------------------

  function Ids(cpus: seq<int>): set<int> {
    set c | c in cpus
  }

  /** Every list in the file can be read. */
  predicate Readable(file: LayoutFile) {
    Parse(file.background).Some? && AllReadable(file.entries)
  }

  predicate AllReadable(entries: seq<Entry>) {
    entries == [] || (AllReadable(entries[..|entries| - 1]) && Parse(entries[|entries| - 1].hotPath).Some?)
  }

  lemma {:induction false} UnreadableEntry(entries: seq<Entry>, k: nat)
    requires k < |entries| && Parse(entries[k].hotPath).None?
    ensures !AllReadable(entries)
  {
    if k < |entries| - 1 {
      UnreadableEntry(entries[..|entries| - 1], k);
    }
  }

  function CpusIn(text: string): seq<int> {
    match Parse(text) case None => [] case Some(cpus) => cpus
  }

  function Claim(owner: map<int, Name>, cpus: seq<int>, name: Name): map<int, Name> {
    if cpus == [] then owner else Claim(owner, cpus[..|cpus| - 1], name)[cpus[|cpus| - 1] := name]
  }

  /** Which component each hot-path CPU was allocated to. */
  function Owners(entries: seq<Entry>): map<int, Name> {
    if entries == [] then map[]
    else
      var last := entries[|entries| - 1];
      Claim(Owners(entries[..|entries| - 1]), CpusIn(last.hotPath), last.name)
  }

  function IndexOf(entries: seq<Entry>, name: Name): (k: nat)
    ensures k <= |entries| && (k < |entries| ==> entries[k].name == name)
    ensures forall j :: 0 <= j < k ==> entries[j].name != name
  {
    if entries == [] || entries[0].name == name then 0 else 1 + IndexOf(entries[1..], name)
  }

  // ---- The checks ------------------------------------------------------------------------------

  /** What is wrong, if anything, with one thread's mask. */
  function MaskProblem(owner: map<int, Name>, background: set<int>, e: Entry, thread: nat, mask: seq<int>): Option<Problem> {
    if |mask| == 1 then
      var cpu := mask[0];
      if cpu in owner && owner[cpu] != e.name then Some(OnCoreOf(e.name, thread, cpu, owner[cpu]))
      else if cpu in owner || e.backend == Some(cpu) || cpu in background then None
      else Some(InNeitherTier(e.name, thread, cpu))
    else
      var outside := Ids(mask) - background;
      var stray := outside * owner.Keys;
      if outside == {} then None
      else if stray != {} then Some(MayRunOnHotPath(e.name, thread, stray))
      else Some(OutsideBackground(e.name, thread, outside))
  }

  function MaskProblems(owner: map<int, Name>, background: set<int>, e: Entry, masks: seq<Option<seq<int>>>): seq<Problem> {
    if masks == [] then []
    else
      var k := |masks| - 1;
      var before := MaskProblems(owner, background, e, masks[..k]);
      if masks[k].None? || MaskProblem(owner, background, e, k, masks[k].value).None? then before
      else before + [MaskProblem(owner, background, e, k, masks[k].value).value]
  }

  /** The component's own CPUs that no thread is pinned to alone. */
  function Unclaimed(owner: map<int, Name>, e: Entry, masks: seq<Option<seq<int>>>): set<int> {
    set c | c in CpusIn(e.hotPath) && !(c in owner && owner[c] == e.name && Some([c]) in masks)
  }

  function ComponentProblems(owner: map<int, Name>, background: set<int>, e: Entry, masks: seq<Option<seq<int>>>): seq<Problem> {
    MaskProblems(owner, background, e, masks)
    + if Unclaimed(owner, e, masks) == {} then [] else [NobodyPinned(e.name, Unclaimed(owner, e, masks))]
  }

  function RunningProblems(file: LayoutFile, metricsOnly: set<Name>, r: Running): seq<Problem> {
    var k := IndexOf(file.entries, r.name);
    if r.name in metricsOnly then []
    else if k == |file.entries| then [NotListed(r.name)]
    else ComponentProblems(Owners(file.entries), Ids(CpusIn(file.background)), file.entries[k], r.masks)
  }

  function AllProblems(file: LayoutFile, metricsOnly: set<Name>, running: seq<Running>): seq<Problem> {
    if running == [] then []
    else AllProblems(file, metricsOnly, running[..|running| - 1])
         + RunningProblems(file, metricsOnly, running[|running| - 1])
  }

  // ---- The audit as it is carried out ----------------------------------------------------------

  lemma {:induction false} OwnersStep(entries: seq<Entry>, k: nat)
    requires k < |entries|
    ensures Owners(entries[..k + 1]) == Claim(Owners(entries[..k]), CpusIn(entries[k].hotPath), entries[k].name)
    ensures AllReadable(entries[..k + 1]) <==> AllReadable(entries[..k]) && Parse(entries[k].hotPath).Some?
  {
    assert entries[..k + 1][..k] == entries[..k];
  }

  method ClaimAll(owner: map<int, Name>, cpus: seq<int>, name: Name) returns (claimed: map<int, Name>)
    ensures claimed == Claim(owner, cpus, name)
  {
    claimed := owner;
    for c := 0 to |cpus|
      invariant claimed == Claim(owner, cpus[..c], name)
    {
      assert cpus[..c + 1][..c] == cpus[..c];
      claimed := claimed[cpus[c] := name];
    }
    assert cpus[..|cpus|] == cpus;
  }

  method ClaimOwners(entries: seq<Entry>) returns (result: Option<map<int, Name>>)
    ensures result.Some? <==> AllReadable(entries)
    ensures result.Some? ==> result.value == Owners(entries)
  {
    var owner: map<int, Name> := map[];
    for k := 0 to |entries|
      invariant owner == Owners(entries[..k])
      invariant AllReadable(entries[..k])
    {
      OwnersStep(entries, k);
      var cpus := ParseCpuList(entries[k].hotPath);
      if cpus.None? {
        UnreadableEntry(entries, k);
        return None;
      }
      owner := ClaimAll(owner, cpus.value, entries[k].name);
    }
    assert entries[..|entries|] == entries;
    return Some(owner);
  }

  /** Checks every thread of one component, striking off each own CPU a thread is pinned to alone. */
  method CheckComponent(owner: map<int, Name>, background: set<int>, e: Entry, masks: seq<Option<seq<int>>>)
    returns (problems: seq<Problem>)
    ensures problems == ComponentProblems(owner, background, e, masks)
  {
    problems := [];
    var unclaimed := Ids(CpusIn(e.hotPath));
    for k := 0 to |masks|
      invariant problems == MaskProblems(owner, background, e, masks[..k])
      invariant unclaimed == Unclaimed(owner, e, masks[..k])
    {
      assert masks[..k + 1][..k] == masks[..k] && masks[..k + 1] == masks[..k] + [masks[k]];
      if masks[k].None? {
        continue;
      }
      var mask := masks[k].value;
      if |mask| == 1 {
        var cpu := mask[0];
        assert mask == [cpu];
        if cpu in owner && owner[cpu] != e.name {
          problems := problems + [OnCoreOf(e.name, k, cpu, owner[cpu])];
        } else if cpu in owner {
          unclaimed := unclaimed - {cpu};
        } else if e.backend == Some(cpu) {
        } else if cpu !in background {
          problems := problems + [InNeitherTier(e.name, k, cpu)];
        }
        continue;
      }
      var outside := Ids(mask) - background;
      if outside != {} {
        var stray := outside * owner.Keys;
        if stray != {} {
          problems := problems + [MayRunOnHotPath(e.name, k, stray)];
        } else {
          problems := problems + [OutsideBackground(e.name, k, outside)];
        }
      }
    }
    assert masks[..|masks|] == masks;
    if unclaimed != {} {
      problems := problems + [NobodyPinned(e.name, unclaimed)];
    }
  }

  /** What the audit reports; that nothing runs at all is itself a problem. */
  function Report(file: LayoutFile, metricsOnly: set<Name>, running: seq<Running>): seq<Problem> {
    if running == [] then [NothingRunning] else AllProblems(file, metricsOnly, running)
  }

  /** The mask audit; `None` stands for the error a malformed core list raises. */
  method Audit(file: LayoutFile, metricsOnly: set<Name>, running: seq<Running>) returns (result: Option<seq<Problem>>)
    ensures result.None? <==> !Readable(file)
    ensures result.Some? ==> result.value == Report(file, metricsOnly, running)
  {
    var background := ParseCpuList(file.background);
    if background.None? {
      return None;
    }
    var owner := ClaimOwners(file.entries);
    if owner.None? {
      return None;
    }
    if running == [] {
      return Some([NothingRunning]);
    }
    var problems: seq<Problem> := [];
    for k := 0 to |running|
      invariant problems == AllProblems(file, metricsOnly, running[..k])
    {
      assert running[..k + 1][..k] == running[..k];
      if running[k].name in metricsOnly {
        continue;
      }
      var at := IndexOf(file.entries, running[k].name);
      if at == |file.entries| {
        problems := problems + [NotListed(running[k].name)];
        continue;
      }
      var found := CheckComponent(owner.value, Ids(background.value), file.entries[at], running[k].masks);
      problems := problems + found;
    }
    assert running[..|running|] == running;
    return Some(problems);
  }
}
