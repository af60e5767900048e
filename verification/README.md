# Verified model of the venue's leadership, placement and tooling

This project models the parts of the repository whose correctness is hardest to see from the code, and
proves what they promise over every input, every run or every reachable state. It is written for Dafny 4.11;
`dafny verify dfyconfig.toml` checks the whole of it.

## What is modelled

- **Leadership by majority leases** (`LeaseRules`, `LeaseRecord`, `LeaseSystem`, `LeaseSafety`,
  `LeaseStatements`, `LeaseProgress`, `LeaseRecordExactness`, `LeaseCounterexamples`, `LeaseObjects`,
  `LeaseHandlers`, `LeaseAgent`). Two instances and a third voter, each with its own clock, exchange requests, grants and refusals that may be lost, delayed or repeated. Each
  instance keeps its promises in a record written by a background thread, and any process may crash and
  restart at any step. The main theorem: two instances never act as leader at the same moment. `LeaseObjects`
  and `LeaseAgent` hold the C++ classes as Dafny classes; each handler of the agent is proved to do exactly a
  sequence of the system's steps, and such a sequence keeps the invariant of the theorem.
- **CPU layout and its audit** (`CpuList`, `CpuLayout` and the modules named after it, `CpuAudit`,
  `CpuAuditTheorem`, `CpuAuditReports`). From a topology and a declaration to tiers of CPUs, to the file that records them, to
  the audit of thread masks against that file.
- **The east-to-west const rewriter** (`EasterlyLexer`, `EasterlyShapes`, `EasterlyLines`,
  `EasterlyTransform`, `EasterlyTypes`, `EasterlyTheorems`): the lexer, the shape and place of its tokens,
  the moves and what they keep.
- **The raw FIX client** (`FixWire`, `FixWireTheorems`, `FixClient`, `FixClientTheorems`,
  `FixNumbering`, `FixConnection`): framing, parsing in chunks, the queue of unclaimed messages and the check
  of received numbers.
- **The launcher** (`Launcher`, `LauncherTheorems`), as a machine of steps between which a stop signal may fall.
- **Two algorithms**: blanking comments and literals (`CommentStripping`, `CommentRegions`), thinning a series (`Decimation`).

`Text`, `Sequences` and `Options` are shared helpers.

Loops and objects of the sources are Dafny methods and classes whose contracts tie them to functions; the
theorems are about those functions. Clocks, sockets, processes and files enter as parameters: a clock is a
function of the instant, a socket a sequence of reads, a run of the launcher a sequence of steps, thread
masks and topology are inputs.

## Where the code does less than its documentation says

Each is kept as the code has it, with a run or input that shows it and the exact condition under which the
promise holds.

- The rule that a promise survives a restart fails when the record covering it is about to be replaced by a
  write started earlier. `PairLeaseAgent::promise_recorded` looks only at the record already adopted. It
  survives exactly when every pending write covers it too (`PromiseSurvivesExactlyWhen`,
  `OvertakenRecordMakesTwoLeaders`).
- A restarted instance that waits because it has no record writes one that promises nothing when a newer
  statement reaches it, and a second restart then does not wait (`EmptyRecordMakesTwoLeaders`). The wait
  outlasts every restart exactly when no record is on its way to the disk, and a tick leaves it so exactly
  when the statement held is the one the instance started with (`WaitSurvivesExactlyWhen`,
  `StatementKeepsWaitExactlyWhen`).
- Spreading logging backends divides by zero when the background is empty; the default reserve of zero
  allows it (`ReserveRulesOutDivisionExactlyWhen`).
- A component is not always given as many CPUs as it has threads (`QuotasMetExactlyWhen`).
- Applying moves from right to left does not keep indices valid when spans overlap
  (`IndicesStayGoodExactlyWhen`, `OverlapMovesWrongToken`).
- The backward walk to the start of a type stops at a line's end even inside angle brackets, so a type
  broken over lines is cut; what it finds is a type expression exactly when its brackets balance
  (`TypeStartExactly`, `BrokenLineCutsType`).
- Line ends in literals other than raw strings are not counted, and those in raw strings do not start the
  column again (`PlacesCounted`).
- A logon that resets the numbering upwards, and a reset, pass over numbers without a report
  (`EveryNumberAccountedFor`).
- Reading at the end of the stream hands messages out and keeps them too (`EachOnceExactlyWhenCalm`,
  `EndedStreamGrows`).
- A launcher told to stop can return 1, and can leave a child untold (`StoppedReturns`,
  `RunningChildTold`, `LateSignalLeavesChildUntold`).
- Stripping loses a line's end inside a continued literal (`LinesKeptExactlyWhen`).
- Thinning can exceed a budget below two (`Decimate`).

One condition of the lease theorem is about the links rather than the code: a grant reaches only the process
whose request it answers, or the instance keeps its epoch on disk. `StaleGrantMakesTwoLeaders` shows that it
is needed.

## Model

| member | source | states |
|---|---|---|
| LeaseSafety.AtMostOneInstanceActs | docs/availability/majority_leases.md:44-60 | At no moment of any run of the two instances and the third voter, whatever is delayed, lost, repeated, crashed or restarted, do both instances act as leader; for clocks whose rates differ by no more than the drift allowance makes up for, and records kept with care |
| LeaseSafety.RunKeepsInv | docs/availability/majority_leases.md:44-60 | Every reachable state keeps the invariant behind it: each live grant binds its voter's vote, in memory and on disk, and a voter's live grants all went to one instance |
| LeaseSafety.StepKeepsInv | libraries/pubsub_itc_fw/include/pubsub_itc_fw/PairLeaseAgent.hpp:202-444 | Each single step, of seventeen kinds, keeps that invariant |
| LeaseSafety.ActingNeedsLiveGrant | libraries/pubsub_itc_fw/include/pubsub_itc_fw/LeaseHolder.hpp:97-144 | An instance that acts is backed by a grant from another voter that the voter itself still counts as running, although they count from different moments on different clocks |
| LeaseSafety.JustifiedIsLive | docs/availability/majority_leases.md:195-203 | A lease counted from the request, shortened by the drift allowance, runs out before the promise counted from the grant |
| LeaseSafety.SlowClocksAgree | docs/availability/majority_leases.md:199-203 | From a bound on how much faster one clock runs than another: while one machine counts less than a shortened lease and the time it may overrun, no other counts a whole lease period |
| LeaseSafety.RestartKeepsBound | libraries/pubsub_itc_fw/include/pubsub_itc_fw/PairLeaseAgent.hpp:153-188 | A restart keeps a live promise: read back from the record, or waited out when there is no record |
| LeaseSafety.NewGrantBound | libraries/pubsub_itc_fw/include/pubsub_itc_fw/PairLeaseAgent.hpp:311-328 | A grant is sent only with the vote bound to it, so that no restart can give the vote away |
| LeaseSafety.NoEpochHasTwoLeaders | libraries/pubsub_itc_fw/include/pubsub_itc_fw/LeaderEpoch.hpp:49-60 | Over a whole run, without any assumption on clocks or disks, the two instances never lead in the same epoch |
| LeaseStatements.BarredNeverLeads | docs/availability/majority_leases.md:150-163 | Over every run, an instance that neither leads nor asks never comes to lead as long as its own voter, or both the others, hold its peer's statement that it may not |
| LeaseStatements.NoGrantToBarred | libraries/pubsub_itc_fw/include/pubsub_itc_fw/LeaseVoter.hpp:81-98 | Over every run no voter grants an instance while it holds, in the statement's own fields, that the instance's peer leads and says it may not |
| LeaseStatements.NoBarredAsks | libraries/pubsub_itc_fw/include/pubsub_itc_fw/LeaseParticipant.hpp:117-120 | Over every run no such instance asks to lead while its own voter holds one |
| LeaseProgress.OneGrantSuffices | docs/availability/majority_leases.md:41-42 | From any state in which an instance may ask and one other voter, be it the peer or the third, has nothing against it, that voter's grant alone makes it act as leader, in its next epoch and with a lease from the moment it asked |
| LeaseProgress.RestartedMayAskExactlyWhen | libraries/pubsub_itc_fw/include/pubsub_itc_fw/PairLeaseAgent.hpp:112-188 | When a restarted instance may ask: exactly after a lease period, or with a record instead; the secondary a renewal later unless it led; not before a recorded promise to its peer has run out; not against a kept statement |
| LeaseProgress.GivesWayExactlyWhen | libraries/pubsub_itc_fw/include/pubsub_itc_fw/LeaseParticipant.hpp:99-108 | An instance gives way to a request exactly when it is only asking, the request's epoch is higher and it is not waiting |
| LeaseProgress.SaidIsHeld | libraries/pubsub_itc_fw/include/pubsub_itc_fw/LeaseParticipant.hpp:237-258 | What a leader says anew is later than all it said before and is what its own voter then holds |
| LeaseCounterexamples.OvertakenRecordMakesTwoLeaders | libraries/pubsub_itc_fw/include/pubsub_itc_fw/PairLeaseAgent.hpp:609-647 | A run with perfect clocks that ends with two leaders: the record that an instance leads is still on its way to the disk when the instance, having stopped, grants its peer under an older record; it lands later and the promise is forgotten |
| LeaseCounterexamples.EmptyRecordMakesTwoLeaders | libraries/pubsub_itc_fw/include/pubsub_itc_fw/PairLeaseAgent.hpp:577-582 | A run with perfect clocks that ends with two leaders: a leader's statement that reaches a restarted instance while it waits is written beside an empty promise, and a second restart no longer waits |
| LeaseCounterexamples.StaleGrantMakesTwoLeaders | libraries/pubsub_itc_fw/include/pubsub_itc_fw/LeaseHolder.hpp:75-116 | The theorem's condition on links is needed: were a grant to reach a later process of an instance that keeps no epoch on disk, both would lead |
| LeaseRecordExactness.PromiseSurvivesExactlyWhen | libraries/pubsub_itc_fw/include/pubsub_itc_fw/PairLeaseAgent.hpp:609-747 | A promise the record covers survives a restart at every moment of its life, whatever the writer thread does first, exactly when no write in flight or waiting would replace the record by one that does not cover it |
| LeaseRecordExactness.WaitSurvivesExactlyWhen | libraries/pubsub_itc_fw/include/pubsub_itc_fw/PairLeaseAgent.hpp:153-163 | An instance with no record on disk waits again after any restart, whatever the writer thread does first, exactly when no write of a record is on its way |
| LeaseRecordExactness.StatementKeepsWaitExactlyWhen | libraries/pubsub_itc_fw/include/pubsub_itc_fw/PairLeaseAgent.hpp:577-582 | Considering whether to write the statement it holds leaves that wait intact exactly when the statement is the one it started with |
| LeaseRecordExactness.StatementWrittenExactlyWhen | libraries/pubsub_itc_fw/include/pubsub_itc_fw/PairLeaseAgent.hpp:577-582 | A write for the statement held is started exactly when none is on its way and leader, epoch or number differ from the one on record, and it leaves the promise as it is |
| LeaseRecordExactness.PromiseSeenTo | libraries/pubsub_itc_fw/include/pubsub_itc_fw/PairLeaseAgent.hpp:609-663 | After a promise is seen to, it is on record or the last write on its way will put it there; no write is started needlessly, and a record with little time left is renewed with the full margin |
| LeaseRecordExactness.AdoptedIsOnDisk | libraries/pubsub_itc_fw/include/pubsub_itc_fw/PairLeaseAgent.hpp:671-693 | A write that landed and was adopted leaves the agent knowing exactly what is on disk |
| LeaseHandlers.HandlerKeepsInv | libraries/pubsub_itc_fw/include/pubsub_itc_fw/PairLeaseAgent.hpp:202-444 | Whatever sequence of its own steps a handler does, the system it belongs to ends with that party as the handler left it, nobody else moved, and the invariant kept if the record keeping took care |
| LeaseHandlers.RequestCarefulExactlyWhen | libraries/pubsub_itc_fw/include/pubsub_itc_fw/PairLeaseAgent.hpp:285-328 | Handling a request takes that care exactly when any grant it sends is one no write still on its way would forget |
| LeaseHandlers.TickCarefulExactlyWhen | libraries/pubsub_itc_fw/include/pubsub_itc_fw/PairLeaseAgent.hpp:202-210 | A tick takes that care exactly when it starts no write of a statement while the instance waits |
| LeaseHandlers.GrantAndRefusalCareful | libraries/pubsub_itc_fw/include/pubsub_itc_fw/PairLeaseAgent.hpp:347-444 | Handling a grant or a refusal always takes it |
| LeaseHandlers.RequestDid | libraries/pubsub_itc_fw/include/pubsub_itc_fw/PairLeaseAgent.hpp:285-341 | Taking in the statement, reading what is on disk, judging, recording and writing the statement amount to those steps in that order |
| LeaseHandlers.GrantDid | libraries/pubsub_itc_fw/include/pubsub_itc_fw/PairLeaseAgent.hpp:347-372 | Counting the lease, recording it and sending a new leader's statement amount to those steps in that order |
| LeaseAgent.PairLeaseAgent.constructor | libraries/pubsub_itc_fw/include/pubsub_itc_fw/PairLeaseAgent.hpp:112-130 | A process starts as a restart without a record, the secondary leaving a head start |
| LeaseAgent.PairLeaseAgent.KeepPromisesIn | libraries/pubsub_itc_fw/include/pubsub_itc_fw/PairLeaseAgent.hpp:153-188 | With the record attached it is the restart of the system model: a promise taken back, a vote for itself dropped, or the wait |
| LeaseAgent.PairLeaseAgent.OnTick | libraries/pubsub_itc_fw/include/pubsub_itc_fw/PairLeaseAgent.hpp:202-279 | A tick does exactly the steps given for it in their order, sends a request to lead only after its epoch is written, and counts the lease from then |
| LeaseAgent.PairLeaseAgent.OnRequest | libraries/pubsub_itc_fw/include/pubsub_itc_fw/PairLeaseAgent.hpp:285-341 | The peer's request is handled by exactly the steps given for it; it is granted exactly when judged so and covered on disk, and the grant echoes the peer's statement exactly when that is the one held |
| LeaseAgent.PairLeaseAgent.OnGrant | libraries/pubsub_itc_fw/include/pubsub_itc_fw/PairLeaseAgent.hpp:347-372 | A grant is handled by exactly the steps given for it |
| LeaseAgent.PairLeaseAgent.OnRefusal | libraries/pubsub_itc_fw/include/pubsub_itc_fw/PairLeaseAgent.hpp:402-444 | A refusal ends the candidacy for a lease period when both voters are promised elsewhere, and otherwise stops the instance exactly when it names a newer epoch |
| LeaseAgent.PairLeaseAgent.RecordLeading | libraries/pubsub_itc_fw/include/pubsub_itc_fw/PairLeaseAgent.hpp:734-747 | The record of leading runs to the latest lease held |
| LeaseAgent.PairLeaseAgent.SayPeerMayLead | libraries/pubsub_itc_fw/include/pubsub_itc_fw/PairLeaseAgent.hpp:562-568 | A changed statement is written and sent to both voters at once, by exactly the steps given |
| LeaseAgent.PairLeaseAgent.AskVoters | libraries/pubsub_itc_fw/include/pubsub_itc_fw/PairLeaseAgent.hpp:774-790 | Both voters are asked under two fresh numbers, noted as sent when the epoch's write was done |
| LeaseRules.NextFor | libraries/pubsub_itc_fw/include/pubsub_itc_fw/LeaderEpoch.hpp:49-60 | The least epoch above a given one that names the instance by its remainder |
| LeaseRules.RefusedMayNotLeadExactlyWhen | libraries/pubsub_itc_fw/include/pubsub_itc_fw/LeaderStatement.hpp:41-46 | A request past the first three refusals is refused as one that may not lead exactly when the statement held was made by the sender's peer and says the sender may not |
| LeaseRules.HeldIsNewest | libraries/pubsub_itc_fw/include/pubsub_itc_fw/LeaseVoter.hpp:173-182 | In whatever order statements arrive, the one held was made no earlier than any of them |
| LeaseRules.PromiseKept | libraries/pubsub_itc_fw/include/pubsub_itc_fw/LeaseVoter.hpp:81-98 | A grant promises for a lease period, during which nobody else is granted; a refusal changes nothing |
| LeaseRules.LeasesOnlyGrow | libraries/pubsub_itc_fw/include/pubsub_itc_fw/LeaseHolder.hpp:97-116 | A grant never shortens a lease: it extends the one voter's to a lease period from the request if that is later, and touches no other |
| LeaseRules.AnswersCountOnce | libraries/pubsub_itc_fw/include/pubsub_itc_fw/LeaseHolder.hpp:97-128 | No second answer to a request, after a grant or a refusal, counts for anything |
| LeaseRules.ForgetsOnlyTheUseless | libraries/pubsub_itc_fw/include/pubsub_itc_fw/LeaseHolder.hpp:75-88 | Forgetting old requests never changes what a later grant is worth |
| LeaseRules.RefusalHeededExactlyWhen | libraries/pubsub_itc_fw/include/pubsub_itc_fw/LeaseHolder.hpp:122-128 | A refusal ends a candidacy or a lead exactly when it names a newer epoch |
| LeaseAgent.GivesUpExactlyWhen | libraries/pubsub_itc_fw/include/pubsub_itc_fw/PairLeaseAgent.hpp:402-444 | Over the refusals of a candidacy, in any order: it is given up exactly when the third voter and the peer have both refused as promised elsewhere |
| LeaseObjects.LeaseVoter.constructor | libraries/pubsub_itc_fw/include/pubsub_itc_fw/LeaseVoter.hpp:64-72 | A voter starts quiet for a lease period and with nothing promised |
| LeaseObjects.LeaseVoter.Consider | libraries/pubsub_itc_fw/include/pubsub_itc_fw/LeaseVoter.hpp:81-98 | The verdict and the new state of a voter asked for its vote: the four refusals in their order, or the promise |
| LeaseObjects.LeaseVoter.RecordStatement | libraries/pubsub_itc_fw/include/pubsub_itc_fw/LeaseVoter.hpp:173-182 | Only a newer statement replaces the one held |
| LeaseObjects.LeaseVoter.ResumeWithKeptPromise | libraries/pubsub_itc_fw/include/pubsub_itc_fw/LeaseVoter.hpp:142-146 | The recorded promise is taken back and the quiet period ended |
| LeaseObjects.LeaseVoter.LearnEpoch | libraries/pubsub_itc_fw/include/pubsub_itc_fw/LeaseVoter.hpp:214-218 | The highest epoch known never falls |
| LeaseObjects.LeaseHolder.BeginCandidacy | libraries/pubsub_itc_fw/include/pubsub_itc_fw/LeaseHolder.hpp:65-70 | A candidacy begins with no lease and no request outstanding |
| LeaseObjects.LeaseHolder.RecordRequest | libraries/pubsub_itc_fw/include/pubsub_itc_fw/LeaseHolder.hpp:75-88 | A new request is noted under a fresh number and requests older than a lease period are forgotten |
| LeaseObjects.LeaseHolder.OnGrant | libraries/pubsub_itc_fw/include/pubsub_itc_fw/LeaseHolder.hpp:97-116 | A matching grant of this epoch gives or extends a lease counted from the request; anything else changes no lease |
| LeaseObjects.LeaseHolder.OnRefusal | libraries/pubsub_itc_fw/include/pubsub_itc_fw/LeaseHolder.hpp:122-128 | A refusal settles its request and reports a newer epoch |
| LeaseObjects.LeaseHolder.LeaseExpiresAt | libraries/pubsub_itc_fw/include/pubsub_itc_fw/LeaseHolder.hpp:136-144 | The loop finds the latest expiry held |
| LeaseObjects.LeaseHolder.Acting | libraries/pubsub_itc_fw/include/pubsub_itc_fw/LeaseHolder.hpp:131-133 | Acting means leading with a lease not yet run out |
| LeaseObjects.LeaseParticipant.OnPeerRequest | libraries/pubsub_itc_fw/include/pubsub_itc_fw/LeaseParticipant.hpp:99-108 | A candidate gives way to a higher epoch, then its voter judges |
| LeaseObjects.LeaseParticipant.BeginAskingToLead | libraries/pubsub_itc_fw/include/pubsub_itc_fw/LeaseParticipant.hpp:126-131 | Asking to lead takes the next own epoch and the own vote |
| LeaseObjects.LeaseParticipant.MayAskToLead | libraries/pubsub_itc_fw/include/pubsub_itc_fw/LeaseParticipant.hpp:117-120 | Whether the instance may ask to lead, as the system model guards it |
| LeaseObjects.LeaseParticipant.OnGrant | libraries/pubsub_itc_fw/include/pubsub_itc_fw/LeaseParticipant.hpp:144-160 | Becoming leader teaches the voter the epoch and, in a pair that makes them, starts with a statement its own voter holds |
| LeaseObjects.LeaseParticipant.SayPeerMayLead | libraries/pubsub_itc_fw/include/pubsub_itc_fw/LeaseParticipant.hpp:237-258 | A changed statement has the next number and is held by the own voter; the same one changes nothing |
| LeaseObjects.LeaseParticipant.Stop | libraries/pubsub_itc_fw/include/pubsub_itc_fw/LeaseParticipant.hpp:318-322 | Stopping frees the own vote and sets when the instance may ask again |
| LeaseObjects.LeaseParticipant.OnRefusal | libraries/pubsub_itc_fw/include/pubsub_itc_fw/LeaseParticipant.hpp:303-310 | A refusal with a newer epoch ends the candidacy or the lead and frees the own vote |
| LeaseObjects.LeaseParticipant.StopIfLeaseRanOut | libraries/pubsub_itc_fw/include/pubsub_itc_fw/LeaseParticipant.hpp:328-335 | An instance whose leases have all run out stops leading and frees its vote |
| LeaseObjects.RecordKeeper.Ensure | libraries/pubsub_itc_fw/include/pubsub_itc_fw/PairLeaseAgent.hpp:609-626 | After a finished write has been adopted, whether the record covers the promise, and which write is started if it does not or soon will not |
| LeaseObjects.RecordKeeper.WriteStatementIfNeeded | libraries/pubsub_itc_fw/include/pubsub_itc_fw/PairLeaseAgent.hpp:577-582 | The promise is written again unchanged beside a statement that is not on disk, unless a write is on its way |
| LeaseObjects.RecordKeeper.WriteInProgressCovers | libraries/pubsub_itc_fw/include/pubsub_itc_fw/PairLeaseAgent.hpp:658-663 | Whether the write waiting, or else the one in flight, will cover a promise |
| LeaseObjects.RecordKeeper.StartRecord | libraries/pubsub_itc_fw/include/pubsub_itc_fw/PairLeaseAgent.hpp:635-647 | A record is written now, with the statement held now, or waits for the write in flight |
| LeaseObjects.RecordKeeper.RefreshInBackground | libraries/pubsub_itc_fw/include/pubsub_itc_fw/PairLeaseAgent.hpp:713-718 | A record that soon runs out is renewed ahead of time |
| LeaseObjects.RecordKeeper.AdoptBackgroundRecord | libraries/pubsub_itc_fw/include/pubsub_itc_fw/PairLeaseAgent.hpp:672-703 | A write reported done becomes the record relied on, one reported failed does not, and one not reported stays in flight |
| LeaseObjects.RecordKeeper.StartWantedRecord | libraries/pubsub_itc_fw/include/pubsub_itc_fw/PairLeaseAgent.hpp:650-654 | A waiting record is started once nothing is in flight |
| CpuLayoutResolver.ResolveLayout | scripts/cpu_layout.py:292-474 | The loops of the resolver compute the layout specified by value, its two failures included |
| CpuLayoutTiers.TiersDivideClaimable | scripts/cpu_layout.py:440-461 | Every claimable CPU is in exactly one of hot path, background and idle siblings, and no tier holds anything else |
| CpuLayoutTiers.CoresNotShared | scripts/cpu_layout.py:424-434 | No physical core serves two components |
| CpuLayoutTiers.PhysicalCoreServesOne | scripts/cpu_layout.py:424-461 | The other CPUs of a physical core that serves a component are that component's or idle, never background and never another component's |
| CpuLayoutTiers.ReservedCoreUnused | scripts/cpu_layout.py:319-326 | With cpu0 reserved no CPU of its physical core is in any tier |
| CpuLayoutTiers.BackgroundKeepsReserve | scripts/cpu_layout.py:387-461 | The background keeps its minimum on every machine, also when physical cores present different numbers of CPUs |
| CpuLayoutTiers.LayoutErrorExactlyWhen | scripts/cpu_layout.py:330-336 | The declaration is refused exactly when the reserve is not below the claimable count, and with a reserve of one or more nothing else fails |
| CpuLayoutTiers.OneCpuDividesByZero | scripts/cpu_layout.py:470-472 | A one-CPU machine on which it does, for every reserve below one |
| CpuLayoutTiers.ReserveRulesOutDivisionExactlyWhen | scripts/cpu_layout.py:470-472 | A reserve rules that failure out on every machine if and only if it is at least one |
| CpuLayoutAdmission.AdmittedWholeAndInOrder | scripts/cpu_layout.py:387-434 | A rank is admitted whole or not at all, and never over the head of a lower one |
| CpuLayoutAdmission.AdmittedNamesPrefix | scripts/cpu_layout.py:338-434 | The admitted components are a front part of the rank order, and exactly those given CPUs |
| CpuLayoutAdmission.FirstRefusedDoesNotFit | scripts/cpu_layout.py:387-422 | The groups admitted are those before the first that does not fit; that one has the reason it was refused for and those behind it name its rank |
| CpuLayoutAdmission.GroupRanksAscend | scripts/cpu_layout.py:338-350 | Groups come in strictly ascending rank |
| CpuLayoutFile.GroupExplained | scripts/cpu_layout.py:338-422 | Each group asks for the sum of its components' threads under their rank; the first refused carries the one reason that holds of it, with its figures, and those behind it its rank |
| CpuLayoutFile.CoresInOrder | scripts/cpu_layout.py:369-377 | Physical cores are handed out in the order the topology first names them, each with exactly its performance CPUs, none left out |
| CpuLayoutFile.CpusFromTheFront | scripts/cpu_layout.py:424-434 | A component's CPUs are the first of those its run of cores presents, as many as it has threads |
| CpuLayoutFile.UnrankedInOrder | scripts/cpu_layout.py:384 | Components without a rank are listed by name, each as often as declared |
| CpuLayoutBackends.BackendsSpread | scripts/cpu_layout.py:462-472 | Exactly the components with a logging backend are given a CPU for it: the k-th by name is on the k-th background CPU, counting round, and no background CPU has two backends more than another |
| CpuLayoutBackends.NamesAsInDictionary | scripts/cpu_layout.py:462-472 | The order by name is that of the first difference, a front part coming first |
| CpuLayoutStability.CoresStable | scripts/cpu_layout.py:387-434 | A component admitted at or before a rank keeps exactly its CPUs when anything behind that rank is added, removed or changed, or the reserve is lowered |
| CpuLayoutQuotas.QuotaMet | scripts/cpu_layout.py:264-289 | On uniform cores an admitted component gets exactly its thread count of CPUs |
| CpuLayoutQuotas.QuotaMissed | scripts/cpu_layout.py:394-434 | A declaration under which a component gets fewer, on any machine whose reachable cores are not uniform |
| CpuLayoutQuotas.QuotasMetExactlyWhen | scripts/cpu_layout.py:264-434 | On a given machine every declaration gives every admitted component its quota if and only if every core that can be handed out presents the largest number of CPUs |
| CpuLayout.CoresForThreadsLeast | scripts/cpu_layout.py:264-273 | The number of cores is the least whose threads suffice |
| CpuLayoutResolver.ThreadsPerPhysicalCore | scripts/cpu_layout.py:276-289 | The loop finds the largest sibling count, or one on no cores |
| CpuLayoutResolver.CollectPerformanceCores | scripts/cpu_layout.py:369-377 | Performance CPUs grouped by physical core in order of first appearance |
| CpuLayoutResolver.GroupByRank | scripts/cpu_layout.py:338-350 | Ranked components gathered into groups with their demands |
| CpuLayoutResolver.Admit | scripts/cpu_layout.py:387-434 | The admission loop's placement and verdicts equal the specification |
| CpuList.ParseCpuList | scripts/cpu_layout.py:91-103 | The token loop reads what the specification reads, malformed tokens included |
| CpuList.ReadToken | scripts/cpu_layout.py:91-103 | One token is nothing, one CPU or a range, or malformed |
| CpuList.FormatCpuList | scripts/cpu_layout.py:583-601 | The run-collecting loop prints the specified text |
| CpuList.ParseFormat | scripts/cpu_layout.py:583-601 | Reading a printed list of ids that are not negative gives them sorted, repeats and the empty list included |
| CpuList.RangesCover | scripts/cpu_layout.py:583-601 | The runs printed cover exactly the ids, in order |
| CpuList.RangesMaximal | scripts/cpu_layout.py:583-601 | For distinct ids at least one id is missing between two printed runs |
| CpuAudit.RenderLayoutFile | scripts/cpu_layout.py:643-695 | The file's entries are those specified: rank, verdict and reason, own CPUs, logging backend |
| CpuAudit.Audit | scripts/cpu_audit.py:363-442 | The nested loops report exactly the specified problems, in order, or fail on an unreadable entry |
| CpuAuditTheorem.AuditCleanExactlyWhen | scripts/cpu_audit.py:363-442 | Resolve, write the file, read it, audit: nothing is reported exactly when something runs, every audited process is listed, every thread is on its own hot path or in the background, and every hot-path CPU has a thread pinned to it alone |
| CpuAuditTheorem.CleanAuditKeepsCoresApart | scripts/cpu_audit.py:363-442 | After a clean audit no thread may run on a physical core that holds another component's hot-path CPU |
| CpuAuditTheorem.OwnersExact | scripts/cpu_audit.py:363-376 | The owner map read from the file names exactly the component each hot-path CPU was given to |
| CpuAuditTheorem.FileTrue | scripts/cpu_layout.py:643-695 | Every entry of the file says of its component what the layout says |
| CpuLayoutFile.EntriesSay | scripts/cpu_layout.py:643-695 | Every entry gives its component's declared rank, the verdict and reason of its group, and its logging backend's CPU |
| CpuAuditReports.FileNames | scripts/cpu_layout.py:643-695 | The file lists the ranked components in the order of their ranks, then the others by name |
| CpuAuditReports.FileListsEach | scripts/cpu_layout.py:643-695 | The file has exactly one entry for each component |
| CpuAuditReports.OwnersAre | scripts/cpu_audit.py:363-376 | A CPU's owner is the last entry that lists it, and a CPU no entry lists has none |
| CpuAuditReports.ReportedExactlyWhenSo | scripts/cpu_audit.py:363-442 | Of any file: each kind of problem, with its component, thread and CPUs, is reported exactly when it is so of the file's entries and the masks |
| CpuAuditReports.AuditReportsExactly | scripts/cpu_audit.py:363-442 | Of the file a declaration resolves to: the same in terms of the layout and the masks alone |
| CpuAuditReports.EachThreadReportedOnce | scripts/cpu_audit.py:381-432 | A thread where it may not be is reported exactly once, and no other thread is |
| EasterlyLexer.Lex | scripts/easterly.py:81-249 | The lexing loop produces the tokens specified, lines and columns included |
| EasterlyLexer.LexLosesNothing | scripts/easterly.py:81-249 | Rendering the tokens of any text gives the text back, unterminated comments and literals included, and no two whitespace tokens are neighbours |
| EasterlyLexer.LexedDistinct | scripts/easterly.py:86-101 | Line and column tell any two tokens of a text apart |
| EasterlyShapes.TokensLook | scripts/easterly.py:81-249 | Every token stands where those before it end and looks as its kind must: comments to their end, literals to the first unescaped quote, raw strings to their own mark, words and numbers as far as they go, nothing shorter where something longer begins |
| EasterlyLines.PlacesCounted | scripts/easterly.py:86-178 | Every token's line and column follow from the line ends in the texts before it |
| EasterlyTransform.FindTypeStart | scripts/easterly.py:298-360 | The backward walk over brackets and type words finds the specified start |
| EasterlyTypes.TypeStartExactly | scripts/easterly.py:298-360 | From the start found a type expression stands exactly when its angle brackets balance, otherwise the start begins a line; the start is no blank or comment, and no type expression ending there starts further left |
| EasterlyTypes.BrokenLineCutsType | scripts/easterly.py:313-316 | A bracket opened on the line before leaves no type expression |
| EasterlyLines.MovesExactlyWhen | scripts/easterly.py:256-292 | A qualifier is moved, to the start of its type, exactly when it stands right behind what can end a type with no line's end between and not in an assembler statement |
| EasterlyLines.MovedExactly | scripts/easterly.py:417-457 | A move puts the qualifier and one blank in front of the type and takes it out behind it, with the blank before it exactly when that follows a token |
| EasterlyTransform.Transform | scripts/easterly.py:376-457 | Collecting the moves and applying them one by one equals the specified fold |
| EasterlyTransform.NormaliseWhitespace | scripts/easterly.py:473-497 | Runs of whitespace tokens become one space |
| EasterlyTransform.ProcessSource | scripts/easterly.py:500-501 | The pipeline equals lexing, moving, squeezing and rendering |
| EasterlyTheorems.ProcessKeepsCharacters | scripts/easterly.py:376-501 | On every source, overlapping moves included, no character but horizontal whitespace is lost, gained or changed in number |
| EasterlyTheorems.ProcessKeepsTexts | scripts/easterly.py:376-501 | On every source the output is made of the very texts the source was cut into, blanks apart |
| EasterlyShapes.CommentsAndLiteralsStand | scripts/easterly.py:376-501 | Every comment and every literal of the source stands in the output unchanged |
| EasterlyTheorems.NothingToMoveUnchanged | scripts/easterly.py:414-415 | A source with nothing to move comes out as it went in |
| EasterlyTheorems.DisjointMovesAllAtOnce | scripts/easterly.py:417-457 | When no spans overlap the result is all moves carried out at once, each qualifier right in front of its type |
| EasterlyTheorems.DisjointMovesKeepOrder | scripts/easterly.py:417-457 | When no spans overlap every token but qualifiers and blanks keeps its place in the order |
| EasterlyTheorems.IndicesStayGoodExactlyWhen | scripts/easterly.py:374-419 | For the tokens of any source, right-to-left application finds every kept index still good if and only if no two spans overlap |
| EasterlyTheorems.OverlapMovesWrongToken | scripts/easterly.py:374-457 | A declaration with nested qualifiers on which a later move takes the wrong token |
| EasterlyTheorems.NestedIsLexed | scripts/easterly.py:81-249 | Those are the tokens the lexer makes of that declaration's text |
| FixWire.ParseMessages | scripts/fix_raw_client.py:103-129 | The loop cuts a buffer into the messages and the remainder specified, or raises |
| FixWire.ReadFields | scripts/fix_raw_client.py:116-126 | The first value of each numeric tag is kept |
| FixWire.ChunksDoNotMatter | scripts/fix_raw_client.py:286-287 | Any stream of bytes, parsed in any chunks with the remainder carried over, gives what parsing it whole gives |
| FixWireTheorems.ReadFailsExactlyWhen | scripts/fix_raw_client.py:116-126 | Reading a message fails exactly when some tag is all digits with a raised one, two or three among them |
| FixWireTheorems.BuildsExactlyWhen | scripts/fix_raw_client.py:83-100 | Building fails exactly when a value or the begin string has a character without a byte |
| FixWireTheorems.ReadsBackExactlyWhen | scripts/fix_raw_client.py:103-129 | A message whose values hold no separator reads back as one message with nothing left over if and only if none of its fields carries the checksum's tag |
| FixWireTheorems.StreamReadBack | scripts/fix_raw_client.py:83-129 | A concatenation of messages reads back as the first value of each of their tags, message for message |
| FixWireTheorems.SentIsReceived | scripts/fix_raw_client.py:83-129 | So it does however the bytes are cut up on their way |
| FixWireTheorems.SumHoldsExactlyWhen | scripts/fix_raw_client.py:79-100 | CheckSum holds on the wire, as the Standard Message Trailer section of FIXT 1.1 defines it, exactly when it was not spoiled on purpose |
| FixWireTheorems.LengthHoldsExactlyWhen | scripts/fix_raw_client.py:75-100 | BodyLength holds on the wire, as the Standard Message Header section of FIXT 1.1 defines it, exactly when it was not spoiled on purpose |
| FixClient.FixRawClient.constructor | scripts/fix_raw_client.py:140-159 | A client starts with nothing read, nothing waiting and no number expected |
| FixClient.FixRawClient.Connect | scripts/fix_raw_client.py:163-168 | Connecting drops the buffer and the number expected but not what waits |
| FixClient.FixRawClient.CheckReceivedNumbering | scripts/fix_raw_client.py:294-329 | The new expected number and fault list, over every branch |
| FixClient.FixRawClient.Receive | scripts/fix_raw_client.py:270-292 | What a read hands back and leaves, for a timeout, an ended stream and a chunk |
| FixClient.FixRawClient.ReceiveUntil | scripts/fix_raw_client.py:336-360 | What a wait returns and leaves, over the reads there is time for |
| FixClientTheorems.StepKeepsLabels | scripts/fix_raw_client.py:270-360 | What waits and what is handed over are the messages read that the record says |
| FixClientTheorems.RunBalances | scripts/fix_raw_client.py:270-360 | Over every run each message read stands once among those waiting and handed over, and once more for each time an ended stream repeated it |
| FixClientTheorems.EachOnceExactlyWhenCalm | scripts/fix_raw_client.py:270-292 | A run keeps every message exactly once if and only if no read met the end of the stream while messages were waiting |
| FixClientTheorems.WaitingInOrder | scripts/fix_raw_client.py:336-360 | In such a run what waits stands in the order it was read |
| FixClientTheorems.WaitIsRun | scripts/fix_raw_client.py:336-360 | A wait is a run of picks and reads, and answers with the one message it hands over |
| FixConnection.WaitAnswers | scripts/fix_raw_client.py:336-360 | A wait answers with a message of a type waited for, and is silent only while none such waits |
| FixConnection.ConnectionReadsItsOwn | scripts/fix_raw_client.py:163-292 | However its bytes are split, a connection ends with the messages they hold together, checked from no number expected; nothing read before it began plays a part |
| FixClientTheorems.EndedStreamGrows | scripts/fix_raw_client.py:284-285 | Waiting on an ended stream for what has not come multiplies what waits by two with every read |
| FixClientTheorems.NumbersAccountedFor | scripts/fix_raw_client.py:294-329 | Every number between the first expected and the one now expected came with a message or is reported missing, never both, and no other number is either |
| FixClientTheorems.ConnectionExpects | scripts/fix_raw_client.py:294-329 | Over a connection the expected number is one more than the largest received, and its distance from the first is the messages that came forward plus the numbers reported missing |
| FixClientTheorems.NothingMissing | scripts/fix_raw_client.py:319-325 | Without a report of missing messages every number up to the largest came |
| FixClientTheorems.FaultlessExactlyWhenOrderly | scripts/fix_raw_client.py:317-329 | No fault is recorded if and only if each message is next in line or repeats an earlier number and says so |
| FixClientTheorems.ExpectedFallsExactlyWhen | scripts/fix_raw_client.py:306-318 | The expected number falls exactly when a reset or a resetting logon names a lower one |
| FixNumbering.FaultExactlyWhen | scripts/fix_raw_client.py:294-329 | Each kind of fault is recorded of a message exactly when it is one, and at most one |
| FixNumbering.EveryNumberAccountedFor | scripts/fix_raw_client.py:294-329 | Over every run of messages of any kind that no message rewinds: each number up to the one expected came, or is reported missing, or was passed over by a reset or a resetting logon, one of these only, and no other number is any |
| FixNumbering.RewindsExactlyWhen | scripts/fix_raw_client.py:306-319 | The numbering goes back exactly at a reset or a resetting logon that names a lower number |
| Launcher.Supervisor.Supervise | scripts/launch.py:319-362 | The supervising loop follows the step machine, with signals between its actions |
| Launcher.Supervisor.OnStopSignal | scripts/launch.py:193-205 | A signal sets the stop flag and is passed to a running child |
| Launcher.Supervisor.FailToStart | scripts/launch.py:330-335 | A failed start is counted and may end the run |
| Launcher.Supervisor.JudgeEnd | scripts/launch.py:342-362 | What the end of a child does to the counters and the loop |
| Launcher.Supervisor.GiveUp | scripts/launch.py:364-376 | Giving up over failures, never with a limit of zero |
| Launcher.Supervisor.GiveUpForInterruptions | scripts/launch.py:378-401 | Giving up over interruptions, never with a limit of zero |
| LauncherTheorems.GivesUpExactlyAtLimit | scripts/launch.py:319-401 | In every run the counters are the trailing failures and the deaths of the record, and the launcher gives up exactly when the record reaches a limit |
| LauncherTheorems.AttemptsBounded | scripts/launch.py:319-401 | With limits N on failures and K on interruptions no run makes more than K times N attempts |
| LauncherTheorems.RunReturns | scripts/launch.py:319-401 | With both limits set the launcher returns within K times N turns, whatever happens in them |
| LauncherTheorems.SignalledRunReturns | scripts/launch.py:319-345 | Told to stop in some turn, it has returned by the end of the next, with limits or without |
| LauncherTheorems.SpawnsBounded | scripts/launch.py:342-348 | No run spawns more children than the limit on interruptions |
| LauncherTheorems.BoundReached | scripts/launch.py:319-401 | Some run makes exactly K times N attempts |
| LauncherTheorems.StoppedAttempts | scripts/launch.py:324-330 | After a stop signal at most one more attempt is made, and only if the signal fell between the look and the start |
| LauncherTheorems.StoppedReturns | scripts/launch.py:319-345 | A run told to stop returns 0, except exactly when that last attempt fails and the failure is the one the limit allows |
| LauncherTheorems.ReturnsZeroOnlyWhenAsked | scripts/launch.py:324-345 | Returning 0 means a stop was asked for |
| LauncherTheorems.RunningChildTold | scripts/launch.py:193-205 | A running child has been told to stop if and only if a signal came while it was waited for; an untold one, when a stop is wanted, was started after the signal fell between the look and the start |
| LauncherTheorems.LateSignalLeavesChildUntold | scripts/launch.py:193-254 | A signal between the look and the start leaves the new child untold |
| CommentStripping.StripCommentsAndStrings | scripts/check_standards.py:69-122 | The nested scanning loops produce the specified text, which has the length of the input |
| CommentStripping.BlankedExactlyInside | scripts/check_standards.py:69-122 | Each character outside comments and literals, and each mark that opens or closes one, is kept in its place; each inside becomes a space, except a line's end in a block comment |
| CommentRegions.BlankedPieceByPiece | scripts/check_standards.py:69-122 | However a text is cut into code, comments and literals by their delimiters, stripping leaves the code and the marks that open and close the rest |
| CommentRegions.CutExists | scripts/check_standards.py:69-122 | Every text is cut so |
| CommentStripping.Idempotent | scripts/check_standards.py:69-122 | Stripping again changes nothing, for every text |
| CommentStripping.LinesKeptExactlyWhen | scripts/check_standards.py:70-73 | Line ends stay where they are if and only if no literal is continued over a line's end by a backslash |
| CommentStripping.NoContinuation | scripts/check_standards.py:98-117 | A text without a backslash before a line's end keeps its lines |
| CommentStripping.ContinuedLiteralLosesLine | scripts/check_standards.py:98-100 | A literal that loses a line's end |
| Decimation.Decimate | scripts/monitor_memory.py:206-234 | Thinning gives an in-order subsequence that keeps of every bucket exactly its first lowest and first highest, and so those of the series, and stays within the budget exactly when the series already does, the budget is two or more, or it is one and the series is flat |
| Decimation.ExtremesKept | scripts/monitor_memory.py:206-234 | The extremes of a series are extremes of their buckets |
| Decimation.BucketLeast | scripts/monitor_memory.py:222-223 | The bucket is the least size of which as many as the budget allows cover the series |

## Left out

- LeaseSafety.AtMostOneInstanceActs: asks that records are kept with care (`Careful`), which the code does not always do; the runs in `LeaseCounterexamples` show each part of that condition is needed, `RequestCarefulExactlyWhen` and `TickCarefulExactlyWhen` say when a handler meets it, and the lemmas of `LeaseRecordExactness` make both parts exact.
- LeaseSafety.RunKeepsInv: the same condition.
- LeaseSafety.StepKeepsInv: the same condition, of one step.
- LeaseSafety.NewGrantBound: the part of that condition about a grant.
- LeaseAgent.PairLeaseAgent.KeepPromisesIn: the record is attached at the same reading of the clock at which the agent was made.
- A reboot of the machine within a run: its steady clock would start again from zero, while the clocks of the model only run forward; a record from before a reboot is the record that is lost.
- EasterlyTheorems.DisjointMovesAllAtOnce: one direction only; with overlapping spans there is no result of carrying all moves out at once to compare with, and `IndicesStayGoodExactlyWhen` is the exact statement.
- EasterlyLexer.Lex: the column of the end-of-file token after an unterminated comment or literal is counted from the end of the text, while the source counts one or two beyond it.
- FixClientTheorems.NumbersAccountedFor: runs of messages that do not themselves move the numbering; `EveryNumberAccountedFor` is of all messages.
- FixNumbering.EveryNumberAccountedFor: runs that no message rewinds; after a rewind the venue uses the same numbers again.
- CommentStripping.LinesKeptExactlyWhen: where a literal is continued is told by the scan's own steps; `BlankedPieceByPiece` tells literals by their delimiters.
- Decimation.Decimate: times and values are one series of samples, so both lists have the same length.
- What the echoes of a statement and the arbiters' confirmations of it allow a leader to do without its peer.
- Replacing one arbiter by another is a restart of the third voter; the arbiters' own election among themselves is not modelled separately.
- That a leader is chosen in the end, whatever is lost on the way: beside safety only `OneGrantSuffices` is proved.
- How the random wait between attempts to lead is drawn, and the log lines, metrics and test events of the lease agent.
- 32-bit and 64-bit wrap-around of identifiers; the epoch's range check is kept, request numbers and times are unbounded.
- Integers in texts written with underscores, with digits outside ASCII, or longer than the interpreter's limit.
- Reading the topology from the kernel, the TOML syntax of the layout file, the printed layout report and the shell wrapper.
- Which processes run, their threads' names, and the sampling of where threads were seen in `scripts/cpu_audit.py`.
- Whether the rewritten C++ means the same: token-level statements only.
- Sending: header fields, times, numbering of what the client sends, and closing the connection.
- The list of numbering faults kept for the whole process beside each client's own.
- The launcher's state and pid files, its sleeps, the description of exit signals, and the stop file beyond what a look at it finds.
- The other checks of `scripts/check_standards.py` and the charts of `scripts/monitor_memory.py`.
- The write-ahead log, the sequencer, the matching engine, the gateways, the memory pools and the reactor.
- Build, release, deployment, database and profiling scripts.
