# CONCORD, modelled and proved

This project models the shared-document layer of the platform and proves what it
is for. The layers rest on one another:

- **Diff and merge** (`Text`, `Lcs`, `Diff`, `Merge`, `Square`, `MergeLaws`): lines,
  the longest-common-subsequence table, the greedy edit script, and the three-way
  merge. The diff is proved correct and minimal, the merge a commuting square.
- **Provenance** (`Provenance`, `Credit`): who last changed each line, carried over a
  commit along the diff, and a bound on what a merged commit may credit.
- **Sections** (`Sections`, `SectionLaws`): where a section lies, which edits stay
  inside it, and why two Agents in their own sections merge.
- **The store** (`StoreState`, `SharedDocStores`): compare-and-swap, merge, conflict,
  human edit, decision and lease. `StoreState.Step` is the effect of one critical
  section; the methods of the class refine it. Over all runs of it: truthful blame
  (`Blame`, `ContributionLog`, `CommitRecords`), no lost update (`NoLostUpdate`), exclusive leases
  (`Leases`), what becomes of the losing side (`OpenConflicts`, `KeepBoth`), human edits and
  stale Agents (`HumanEdits`), two allocated Agents at once (`SectionRace`), and whole Agent
  turns around the store (`Turns`, `DeskLaws`). Runs in which an expectation fails are in `Witnesses`.
- **Concurrency** (`Serialization`, `Durability`): the promise chain per document and
  the persist queue, as transition systems over their await points.
- **Around it** (`Audit`, `Resources`, `Sharing`, `Review`, `Routing`): the hash-chained
  log with retention, warrants and shares, the round budget of the review loop, and who
  its comments go to.

Loops and objects of the source are methods and classes here. Each is proved against
a specification function or a predicate, and the laws are lemmas about those. The
authority oracle's answer and the clock reading are part of each operation; ids of
lines, contributions, warrants, grants, comments and runs are drawn from counters.

## What does not hold as one might expect

The code is modelled as it is. Where a natural claim about it fails, there is a lemma
with the condition under which it holds, or a witness, or both.

- A merge that leaves one blank line commits the empty text, because joining cannot
  tell one blank line from none (`SplitJoin`, `MergedTextHoldsLines`,
  `BlankLineLostInMerge`). Nothing else is lost in the join.
- Two identical edits are accepted by an early return although every hunk overlaps its
  twin (`ShortcutsAgree`).
- The section check is sound and not complete: with repeated lines it may refuse an
  edit that stays inside. It accepts exactly when every hunk of the diff lies inside
  (`AcceptedIsFramed`, `FramedMayBeRefused`, `AcceptedIff`).
- Edits of two disjoint sections can collide in one way only: the sections are adjacent,
  the first appends at its end, and the second edits from its heading on
  (`SectionsCollideIff`).
- A turn does not always carry the Agent's edit: once a human has written since the
  hand-out, an accepted submission may drop a deletion of everything, or put the whole
  payload back into a text the human emptied. `TurnCarriesEditIff` says exactly when, as
  long as the Agent is given no other base in between; the witnesses are
  `DeletionIsDropped` and `EmptyingIsUndone`.
- Reading a document as an Agent moves that Agent's base, whoever asks. If that happens
  during a turn, the submission at the version handed out is merged from the newer text
  and replaces what was committed in between, a human's edit included
  (`RereadCarriesIff`, `RereadLosesUpdate`, `RereadReplacesHumanEdit`).
- A decision that conflicts again takes the losing Agent's text off the record and puts
  the decider's in its place (`LosingTextStaysIff`, `LosingTextIsReplaced`).
- A conflict decision names the human where an Agent's id belongs, so review comments on
  the settled lines are sent to that human (`CandidatesAre`, `CommentGoesToDecider`).
- The comment at apps/server/src/concord/store.ts:670-674 says a clean merge that reaches
  outside the section means the Agent did. It need not: the section is looked up again in
  the current text, and the merged text is diffed again (`SecondWriteIs`,
  `InBoundsEditIsRefused`).
- A share outlives what its granter held: attaching an Agent checks the grant only
  (`AttachIff`, `AttachedWithinIff`, `ShareOutlivesGranter`).
- The comment at apps/server/src/concord/store.ts:947-949 promises that a losing Agent's
  next write is rebased onto the human's decision. The decision becomes its base, so a
  write at an older version is taken as an edit of the decision and replaces it. The
  promise holds exactly if the version named holds the decided text (`DecisionIsKeptIff`,
  `LateWriteEditsDecision`, `DecisionIsOverwritten`).
- A conflict decision ignores the lease and logs no contribution, so blame is tied to
  the history and not to the contributions (`ResolveIgnoresLease`, `LogFollowsHistory`,
  `BlameIsTruthful`).
- Closing a run sets the status of every comment it lists, one settled in the meantime
  included (`SettledStaysIff`, `SettledIsReopened`).
- Sharing a document again replaces an earlier share only under the same spelling of its
  id, while warrants are on the file it names (`RegrantLeavesLiveIff`,
  `RespelledShareKeepsEditor`).
- A document id of slashes alone, or the empty one, names the whole repository, so sharing it
  covers every file; any other id covers its own file and what lies below
  (`SharedFileIsExactIff`).
- The hash of an audit record leaves out the reason, gate, policy version and severity of
  its verdict, and the check does not compare the head, so a log cut off at the end or
  with a forged last record still verifies (`ReasonIsNotHashed`, `RewriteUnnoticedIff`,
  `ForgedLastIsNotNoticed`, `TruncationIsNotNoticed`).
- Without a recorded base a stale write fills an empty document, and changes no other
  (`StaleWriteWithoutBase`).

## Model

| member | source | states |
|---|---|---|
| Text.JoinSplit | apps/server/src/concord/merge.ts:37-43 | Splitting a text and joining the lines gives back every text, without exception. |
| Text.SplitInjective | apps/server/src/concord/merge.ts:37-39 | Two texts with the same lines are the same text. |
| Text.SplitJoin | apps/server/src/concord/merge.ts:37-43 | The other way round: a list of lines survives join and split if and only if no line holds a newline and the list is not a single blank line. |
| Text.BlankLineIsLost | apps/server/src/concord/merge.ts:37-43 | The witness: one blank line comes back as no line. |
| Lcs.LcsTable | apps/server/src/concord/merge.ts:49-61 | The bottom-up loops over a two-dimensional table: every cell ends as the longest-common-subsequence length of its pair of suffixes. |
| Lcs.LcsIsUpperBound | apps/server/src/concord/merge.ts:49-61 | No common subsequence, defined independently by striking out lines, is longer than the table says. |
| Lcs.LcsIsMaximum | apps/server/src/concord/merge.ts:49-61 | The table holds the maximum length over all common subsequences, and it is attained. |
| Diff.WalkBoth | apps/server/src/concord/merge.ts:85-102 | The main loop, until one side is used up: what is pushed and what the walk still yields make up the diff. |
| Diff.ComputeDiff | apps/server/src/concord/merge.ts:64-118 | The two loops with their table, pending hunk and flushes compute the diff the lemmas below are about. |
| Diff.Finish | apps/server/src/concord/merge.ts:104-115 | Whatever is left on either side joins the last hunk. |
| Diff.DiffIsCorrect | apps/server/src/concord/merge.ts:63-118 | Hunks are in order, none is empty, at least one kept line stands between any two, and applying them to the base gives the other text. |
| Diff.DiffCounts | apps/server/src/concord/merge.ts:64-118 | The diff deletes all base lines but L and inserts all other lines but L, where L is the maximum length of a common subsequence. |
| Diff.DiffIsMinimal | apps/server/src/concord/merge.ts:64-118 | No list of hunks whatsoever that turns the base into the other text deletes or inserts fewer lines. |
| Diff.DiffIsEmpty | apps/server/src/concord/merge.ts:64-118 | The diff is empty if and only if nothing changed. |
| Diff.DiffFromNothing | apps/server/src/concord/merge.ts:105-116 | From the empty text the diff is one insertion at the top. |
| Merge.FindConflicts | apps/server/src/concord/merge.ts:145-157 | The nested loop finds the conflicts of every pair of hunks, in order. |
| Merge.SpliceHunks | apps/server/src/concord/merge.ts:160-164 | The right-to-left splicing loop over the sorted hunks, with the clamping of `splice`. |
| Merge.ComputeMerge3 | apps/server/src/concord/merge.ts:134-166 | The whole merge with its early returns refines the function `Merge3` that the laws below are about. |
| Merge.SortSorts | apps/server/src/concord/merge.ts:160 | The sort is a permutation in descending order of start. |
| Square.ConflictsAre | apps/server/src/concord/merge.ts:146-157 | A conflict is reported if and only if some pair of hunks overlaps and it says so: from the smaller start to the larger end, our lines as ours, theirs as theirs. |
| Square.OverlapsIs | apps/server/src/concord/merge.ts:120-128 | Two hunks overlap if and only if some base position is occupied by both, an insertion occupying the one it lands on. |
| Square.ConflictsMirror | apps/server/src/concord/merge.ts:120-157 | Swapping the sides swaps the halves of every reported conflict and nothing else. |
| Square.NoConflictIsDisjoint | apps/server/src/concord/merge.ts:120-158 | No conflict is reported if and only if no pair of hunks overlaps. |
| Square.SortIsUnique | apps/server/src/concord/merge.ts:160 | On hunks that do not overlap the order of splicing is determined: no tie is left to the sort. |
| Square.SpliceIsApply | apps/server/src/concord/merge.ts:160-165 | Splicing ordered hunks from the right equals applying them in one pass from the left. |
| Square.MergeIsApply | apps/server/src/concord/merge.ts:159-165 | The merged lines are both hunk lists, interleaved, applied to the base. |
| Square.RebaseMoves | apps/server/src/concord/merge.ts:159-165 | Rebasing moves each hunk by the net growth of the other side's earlier hunks and changes neither what it deletes nor what it inserts. |
| Square.CommutingSquare | apps/server/src/concord/merge.ts:134-166 | Without overlap the splice equals our hunks moved and applied to their text, equals their hunks moved and applied to ours, and is symmetric. |
| MergeLaws.MergedLinesSquare | apps/server/src/concord/merge.ts:134-166 | The same square for any two edits of one text. |
| MergeLaws.ShortcutsAgree | apps/server/src/concord/merge.ts:135-140 | The early returns agree with the general path if and only if the sides differ or nothing changed; two identical edits are a conflict on the general path and accepted by the early return. |
| MergeLaws.SameEditOverlaps | apps/server/src/concord/merge.ts:120-137 | Two identical non-empty edits always overlap. |
| MergeLaws.MergeAcceptsIff | apps/server/src/concord/merge.ts:134-166 | The merge succeeds if and only if both texts are the same or no hunk of one overlaps a hunk of the other. |
| MergeLaws.MergeMeaning | apps/server/src/concord/merge.ts:134-166 | What is committed is their text with exactly our hunks moved over it, and our text with exactly theirs. |
| MergeLaws.MergeIsSymmetric | apps/server/src/concord/merge.ts:134-166 | Swapping the sides changes neither acceptance nor the committed text. |
| MergeLaws.MergeInventsNothing | apps/server/src/concord/merge.ts:142-165 | Every merged line stands in one of the two sides. |
| MergeLaws.MergeCountsLines | apps/server/src/concord/merge.ts:142-165 | The merge has as many lines more than theirs as ours has more than the base. |
| MergeLaws.MergeCountsHunks | apps/server/src/concord/merge.ts:135-166 | The number reported with a merge: the hunks of both sides, one if a side is unchanged, none if the sides are equal. |
| MergeLaws.MergedTextHoldsLines | apps/server/src/concord/merge.ts:165 | The committed text has the merged lines if and only if they are not one single blank line. |
| MergeLaws.BlankLineLostInMerge | apps/server/src/concord/merge.ts:41-43 | The witness: two disjoint edits whose merge is one blank line commit the empty text. |
| Provenance.Reconcile | apps/server/src/concord/provenance.ts:136-208 | The attribution pass, with its cursor, its loops and its length check, computes the attribution the lemmas below are about; the error is never returned. |
| Provenance.ReconcileHunks | apps/server/src/concord/provenance.ts:174-193 | The loop over the hunks: entries, changed ids and caret after all of them. |
| Provenance.OriginsAreAlignment | apps/server/src/concord/provenance.ts:136-193 | Lines that keep their entry are an order-preserving match of equal lines, and exactly the diff's inserted lines have none. |
| Provenance.EntriesMatchLines | apps/server/src/concord/provenance.ts:195-206 | One entry per line, for any two texts and any previous entries, even too few. |
| Provenance.AttributionIsExact | apps/server/src/concord/provenance.ts:144-182 | A kept line carries the entry of the line it is, an inserted line has a new id and the writer's Agent, human, contribution, version and time, and a gap in the old entries is attributed to nobody. |
| Provenance.IdsStayDistinct | apps/server/src/concord/provenance.ts:144-170 | Line ids stay pairwise distinct. |
| Provenance.ChangedAreInserted | apps/server/src/concord/provenance.ts:177-181 | The reported changed ids are exactly those of the inserted lines. |
| Provenance.EndColumnOf | apps/server/src/concord/provenance.ts:218-232 | The backwards loop finds the end of what changed in the last line: past it if nothing or the same line was replaced, else in front of the longest common tail. |
| Provenance.SharedTailMeaning | apps/server/src/concord/provenance.ts:221-231 | What the loop counts is the longest common tail of the two lines. |
| Provenance.CaretIsInside | apps/server/src/concord/provenance.ts:172-192 | There is a caret if and only if the lines changed, and it stands inside the new text. |
| Provenance.CaretIsLastChange | apps/server/src/concord/provenance.ts:169-192 | The caret stands at the end of the last hunk: from its line on the new text is the old text behind that hunk. Its column is in front of the longest tail the last line shares with the one it replaces, or past the end of the line if it replaces none. |
| Provenance.Responsible | apps/server/src/concord/provenance.ts:251-267 | The candidates are exactly the Agents named in the range, once each; one is recommended if and only if it is the only one. |
| Credit.MergeCreditBound | apps/server/src/concord/merge.ts:134-166 | Diffing a merge result against their text again finds at most as many inserted lines as our own edit had. |
| Credit.MergedCommitCredit | apps/server/src/concord/provenance.ts:139-182 | A merged commit credits its writer with at most the lines its own edit inserted. |
| Sections.HeadingLevelIs | apps/server/src/concord/sections.ts:43-46 | A line has level n if and only if it starts with n `#`, at most six, followed by white space. |
| Sections.Locate | apps/server/src/concord/sections.ts:57-75 | The search and the loop with its break find the section. |
| Sections.SectionIs | apps/server/src/concord/sections.ts:57-75 | A section runs from the first line that reads as its heading to the line before the next heading that closes it: a heading of its own or a higher level, never a deeper one, and any heading if the first line is none; there is no section if and only if no line reads so. |
| Sections.TrimIs | apps/server/src/concord/sections.ts:57-60 | Trimming takes exactly the white space off both ends. |
| Sections.SectionsOfOneLevelAreDisjoint | apps/server/src/concord/sections.ts:57-75 | Two headings that read differently and lead sections of one non-zero level have disjoint ranges. |
| Sections.CheckBounds | apps/server/src/concord/sections.ts:94-140 | The first hunk that leaves the range is reported by its line. |
| Sections.AcceptedIff | apps/server/src/concord/sections.ts:94-140 | A write is accepted if and only if every hunk of its diff lies inside the range, an insertion just after its end included. |
| Sections.RefusedAtFirst | apps/server/src/concord/sections.ts:102-138 | A write is refused with line n if and only if n is the first line of the first hunk that leaves the range. |
| SectionLaws.AcceptedIsFramed | apps/server/src/concord/sections.ts:94-140 | An accepted write changes nothing outside the section: the new lines are the old ones with only the range replaced. |
| SectionLaws.FramedMayBeRefused | apps/server/src/concord/sections.ts:94-140 | The converse fails for a section `locateSection` finds: with a repeated line a deletion inside it is diffed as one after it, and refused. |
| SectionLaws.SectionsCollideIff | apps/server/src/concord/sections.ts:94-140 | Edits of two disjoint sections overlap if and only if the sections are adjacent, the first appends at its end and the second edits from its heading on. |
| SectionLaws.SectionsConcat | apps/server/src/concord/merge.ts:159-165 | Edits of two sections, applied one list after the other, replace both sections and nothing else. |
| SectionLaws.DisjointSectionsMerge | apps/server/src/concord/merge.ts:134-166 | Two Agents inside their own sections: the merge fails only in that one collision, and otherwise is the base with each section as its owner left it. |
| SectionRace.SecondWriteIs | apps/server/src/concord/store.ts:667-720 | A stale write in bounds on its base, over an edit of another section: it conflicts if and only if the two meet at a heading, otherwise commits if and only if the merged text passes the section rule on the current text, and then takes each section from its owner. |
| SectionRace.RaceOfTwo | apps/server/src/concord/store.ts:651-720 | End to end for two allocated Agents writing from one version: the same answer for the second. |
| SectionRace.InBoundsEditIsRefused | apps/server/src/concord/store.ts:670-675 | A concrete run in which a clean merge of an edit that stayed inside its section is refused as outside it. |
| SectionRace.BreachIs | apps/server/src/concord/store.ts:535-564 | The three refusals of the section rule, each if and only if: the document is allocated and the Agent is not, its heading reads like no line, or a change leaves the section found. |
| SectionRace.AllocationIs | apps/server/src/concord/sections.ts:146-154 | An allocation is the Agent's trimmed heading on that document; no other Agent's or document's changes, nor any text or base. |
| SectionRace.ReleaseIs | apps/server/src/concord/sections.ts:177-179 | Releasing takes exactly the allocations of that document. |
| SharedDocStores.SectionRegistry.Allocate | apps/server/src/concord/sections.ts:146-154 | An allocation replaces the Agent's own earlier heading on the document and no other. |
| SharedDocStores.SectionRegistry.Release | apps/server/src/concord/sections.ts:177-179 | Releasing drops every allocation of that document and no other. |
| KeepBoth.FindRun | apps/server/src/concord/store.ts:225-231 | The loop finds the first occurrence of a run. |
| KeepBoth.FirstRunIs | apps/server/src/concord/store.ts:225-231 | Found means the run stands there and nowhere earlier, not found means nowhere. |
| KeepBoth.ComputeKeepBoth | apps/server/src/concord/store.ts:200-222 | The two loops over the anchors refine the function the conservation laws are about. |
| KeepBoth.KeepBothConserves | apps/server/src/concord/store.ts:200-222 | The committed text survives in order, and the lines are exactly the committed ones and every range's losing ones, the fallback anchor included. |
| KeepBoth.LosingRunIsKept | apps/server/src/concord/store.ts:207-220 | Each range's losing lines stand together right after the winning run: the committed lines up to it in order before them, the others in order behind them. |
| KeepBoth.LosingFollowsWinning | apps/server/src/concord/store.ts:207-220 | Where the winning run first stands, the losing lines follow it. |
| KeepBoth.LosingComesLast | apps/server/src/concord/store.ts:211-213 | If the winning side has no lines there, or they are nowhere any more, the losing lines come after everything committed. |
| KeepBoth.RangesStand | apps/server/src/concord/merge.ts:142-158 | For every conflict a merge reports, our lines stand together in our text and theirs in theirs, so the winning run is found in the committed text. |
| SharedDocStores.SharedDocStore.Enter | apps/server/src/concord/store.ts:414-439 | A missing document is created empty, an expired lease is dropped, nothing else changes. |
| SharedDocStores.SharedDocStore.Read | apps/server/src/concord/store.ts:445-469 | A permitted read records the text as the reader's base. |
| SharedDocStores.SharedDocStore.OutOfBounds | apps/server/src/concord/store.ts:535-564 | The section rule with its four answers, on the text being replaced. |
| SharedDocStores.SharedDocStore.Attribute | apps/server/src/concord/store.ts:588-607 | Attribution of a commit, computed before anything is changed. |
| SharedDocStores.SharedDocStore.Commit | apps/server/src/concord/store.ts:580-649 | One commit: text, version, attribution, contribution, history and base move together. |
| SharedDocStores.SharedDocStore.Write | apps/server/src/concord/store.ts:479-722 | A write is one step of the store: authority, lease, compare-and-swap or merge, section, commit or conflict. |
| SharedDocStores.SharedDocStore.WriteAsHuman | apps/server/src/concord/store.ts:745-856 | A human edit is one step: lease, version, commit, and every Agent's base on the document cleared. |
| SharedDocStores.SharedDocStore.CommitAsHuman | apps/server/src/concord/store.ts:784-838 | A human's commit: text, version, attribution, contribution and history move together, and every base on the document goes. |
| SharedDocStores.SharedDocStore.ClearBases | apps/server/src/concord/store.ts:833-838 | The loop over the keys removes exactly the bases of that document. |
| SharedDocStores.SharedDocStore.Resolve | apps/server/src/concord/store.ts:870-961 | Settling a conflict is one step, over the text committed when it arose. |
| SharedDocStores.SharedDocStore.AcquireLease | apps/server/src/concord/store.ts:963-997 | Granting a lease is one step. |
| SharedDocStores.SharedDocStore.ReleaseLease | apps/server/src/concord/store.ts:1001-1019 | Releasing a lease is one step. |
| Blame.StepOnDoc | apps/server/src/concord/store.ts:479-961 | Every step either commits exactly one new version of its document with a matching history entry and attribution, or leaves version, text, attribution, history and contributions alone. |
| Blame.StepElsewhere | apps/server/src/concord/store.ts:414-433 | No step touches another document. |
| Blame.StepIsTruthful | apps/server/src/concord/store.ts:580-649 | Truthful blame is kept by every step. |
| Blame.BlameIsTruthful | apps/server/src/concord/store.ts:580-649 | After any run from the empty store each line names a version whose history entry has the same contribution and actor, the same entry with the same text stands in every version since, its id in none before, and ids are distinct. |
| ContributionLog.LogFollowsHistory | apps/server/src/concord/store.ts:608-647 | Over any run each contribution is one step of the history, under its id and versions; writes log one each and conflict decisions none, and together they make up the version. |
| ContributionLog.LogFollowsFromEmpty | apps/server/src/concord/store.ts:608-647 | So in a store that starts empty the log holds exactly one contribution per committed write. |
| CommitRecords.RecordsNameOperations | apps/server/src/concord/store.ts:588-961 | After any run from the empty store, history, contribution log, line entries and the document's stamp each name the actor, the human and the time of the operation that made the version. |
| CommitRecords.WriteIsLogged | apps/server/src/concord/store.ts:608-633 | The contribution of an accepted write says whether it was merged, lists exactly the line ids that are new with it, and for an Agent has the caret at the last hunk. |
| NoLostUpdate.RefusedIsQuiet | apps/server/src/concord/store.ts:487-722 | Whatever is not accepted leaves text, version, attribution, history and contributions unchanged. |
| NoLostUpdate.AcceptedWrite | apps/server/src/concord/store.ts:651-687 | An accepted write commits the payload at the current version, and otherwise moves the writer's own edit since its recorded base over the current text. |
| NoLostUpdate.NoUpdateLost | apps/server/src/concord/store.ts:651-722 | A write that states the version of its recorded base either carries exactly its own edit over the current text or changes nothing. |
| NoLostUpdate.NoUpdateLostInRun | apps/server/src/concord/store.ts:651-722 | The same at any point of any run from the empty store. |
| NoLostUpdate.WrittenOncePerVersion | apps/server/src/concord/store.ts:651-665 | Of two writes on one document answered "written", by Agents or humans, the later stated a later version: no version is overwritten twice. |
| NoLostUpdate.MovedBaseOverwrites | apps/server/src/concord/store.ts:667-676 | A stale write whose recorded base is already the current text replaces that text whole. |
| NoLostUpdate.StepVersion | apps/server/src/concord/store.ts:580-593 | A version grows by one for an accepted operation on its document and by nothing else. |
| NoLostUpdate.CommitStaysInSection | apps/server/src/concord/store.ts:535-564 | In an allocated document an Agent's write or merge commits only inside the section found in the text it replaces. |
| NoLostUpdate.MergedWriteCredit | apps/server/src/concord/store.ts:667-676 | The contribution of a merged write reports at most as many changed lines as the writer's own edit inserted. |
| Leases.DeniedIff | apps/server/src/concord/store.ts:445-508 | An operation is denied for want of authority if and only if the Agent has none, and then changes nothing. |
| Leases.ReadIff | apps/server/src/concord/store.ts:445-469 | A read gives the committed text and version if and only if it is permitted, whoever holds a lease. |
| Leases.LeasedIff | apps/server/src/concord/store.ts:510-525 | A write, an Agent's or a human's, is held off if and only if somebody else's lease has not run out, and is told whose and until when; a lease past its end holds off nobody. |
| Leases.TakenIff | apps/server/src/concord/store.ts:963-997 | A permitted request is granted the lease if and only if nobody else holds one that has not run out. |
| Leases.ReleasedIff | apps/server/src/concord/store.ts:1001-1019 | A lease is given back if and only if its holder asks, with permission, before it has run out. |
| Leases.WriteIs | apps/server/src/concord/store.ts:651-720 | Every answer to a write that is let through: on the version it states its payload, on any other the merge from the Agent's base, committed as the next version unless the section rule refuses it, or the conflict with the text as it is. |
| Leases.HumanWriteIs | apps/server/src/concord/store.ts:745-800 | A human's write that no lease holds off is written if it states the current version, and otherwise answered as stale with the current text. |
| Leases.LeaseExcludesOthers | apps/server/src/concord/store.ts:510-525 | Under a live lease the only commits are its holder's writes and conflict decisions. |
| Leases.ResolveIgnoresLease | apps/server/src/concord/store.ts:870-961 | Settling a conflict does not look at the lease: same answer, same document, whoever holds it. |
| Leases.LeaseStays | apps/server/src/concord/store.ts:963-1019 | Before it expires a lease changes only by a renewal or a release, and only its holder can do either. |
| Leases.GrantedLeaseIsExclusive | apps/server/src/concord/store.ts:963-1019 | Over any run from the grant in which the lease, as renewed, neither lapses nor is given back, nobody but its holder is granted one or commits, conflict decisions aside. |
| OpenConflicts.ConflictsAfter | apps/server/src/concord/store.ts:689-712 | What every step does to the open conflicts of its document, each field of a new or rewritten record included. |
| OpenConflicts.RunKeepsOnePerAgent | apps/server/src/concord/store.ts:700-703 | Every run keeps at most one open conflict per Agent and document, under distinct ids. |
| OpenConflicts.OnePerAgentAlways | apps/server/src/concord/store.ts:700-703 | So after any run from the empty store. |
| OpenConflicts.RecordLeavesOnly | apps/server/src/concord/store.ts:700-948 | A record is rewritten or removed only by a resolve of it that commits or conflicts, or by its own Agent's newer conflict. |
| OpenConflicts.RecordStays | apps/server/src/concord/store.ts:700-948 | Over a run without such a step it stays word for word; refused decisions and its Agent's other writes do not touch it. |
| OpenConflicts.LosingTextStaysIff | apps/server/src/concord/store.ts:700-948 | A step keeps the losing text on record, under its id and Agent, if and only if it is none of three: a decision on it that commits, one with another text that conflicts again, or its Agent's newer conflict. |
| OpenConflicts.LosingTextStays | apps/server/src/concord/store.ts:700-948 | Over any run without such a step the losing text stays on record. |
| Witnesses.LosingTextIsReplaced | apps/server/src/concord/store.ts:894-911 | A concrete run in which a decision that conflicts again replaces the losing text on record though nothing was settled. |
| OpenConflicts.ConflictKeepsBothSides | apps/server/src/concord/store.ts:689-720 | A conflict leaves text and version alone and puts on record, under a new id, the Agent and its human, the base, the losing and the winning text, the contested ranges and the version. |
| OpenConflicts.ResolveKeepsOthers | apps/server/src/concord/store.ts:870-961 | A resolve commits the chosen text with everything others landed since moved over it, verbatim if nothing did; the record goes, and only its owner or the orchestrator may. |
| OpenConflicts.UnmovedResolveSucceeds | apps/server/src/concord/store.ts:893-961 | On a document that has not moved the owner's choice always succeeds, verbatim. |
| OpenConflicts.DecisionIs | apps/server/src/concord/store.ts:870-961 | A decision is answered "not found" if no record has the id, "denied" if neither the record's human nor the orchestrator makes it, and otherwise by the merge of the choice over what was committed when the conflict arose. |
| OpenConflicts.OnlyOwnerDecides | apps/server/src/concord/store.ts:689-961 | End to end: as long as the document has not moved and the record is not touched, a decision by anyone but the orchestrator commits the choice if and only if it is made by the human the losing write was authorised by, and is otherwise denied. |
| OpenConflicts.RecordedRangesStand | apps/server/src/concord/store.ts:200-222 | Each range of a conflict the store answers stands in the payload and in the committed text, so keeping both finds its place. |
| HumanEdits.MergeFromNothing | apps/server/src/concord/merge.ts:105-126 | Against an empty base two different non-empty texts always conflict. |
| HumanEdits.StaleWriteWithoutBase | apps/server/src/concord/store.ts:667-720 | Without a recorded base an admitted stale write changes the text if and only if the document is empty and the payload is not. |
| HumanEdits.HumanWriteClearsBases | apps/server/src/concord/store.ts:833-838 | An accepted human edit commits its text and leaves no Agent a base there. |
| HumanEdits.BaseStep | apps/server/src/concord/store.ts:462-950 | An Agent's base is given exactly by its own permitted read, its own committed write or a decision on its own conflict, and is then the document's text; it is taken exactly by a committed human edit; every other step leaves it. |
| HumanEdits.BaseOverRun | apps/server/src/concord/store.ts:462-950 | Over a run that gives it none, an Agent has a base at the end if and only if it had one at first and no human wrote, and it is the same. |
| HumanEdits.HumanEditSurvives | apps/server/src/concord/store.ts:833-838 | After a human edit no stale write of an Agent changes a document that is not empty as long as the Agent is given no new base: not its first try nor any retry after a conflict, whatever the others do. |
| Turns.WorkspaceReconciler.Materialize | apps/server/src/concord/reconcile.ts:77-103 | Handing documents out: store, files and checkouts after the loop. |
| Turns.WorkspaceReconciler.Reconcile | apps/server/src/concord/reconcile.ts:105-175 | Taking documents back: each edited file submitted at the version it was handed out at, and brought up to what was committed. |
| Turns.HandoutSyncs | apps/server/src/concord/reconcile.ts:89-99 | A hand-out leaves the Agent's base equal to the text of the version it will state. |
| Turns.SubmissionSyncs | apps/server/src/concord/reconcile.ts:146-158 | So does an accepted submission. |
| Turns.SyncedRun | apps/server/src/concord/reconcile.ts:105-175 | As long as it is given no other base, an Agent stays in step over any run. |
| Turns.SyncedSubmission | apps/server/src/concord/reconcile.ts:141-158 | An accepted submission moves exactly the Agent's own edit over the current text if and only if the base is still recorded, or the payload is the current text, or the text handed out was empty; otherwise it drops a deletion of everything or fills an emptied text with the payload. |
| Turns.TurnCarriesEditIff | apps/server/src/concord/reconcile.ts:77-175 | The store operations of a turn in which the Agent is given no other base: a refused submission changes nothing, an accepted one carries the edit if and only if no human wrote since the hand-out, or the payload is the current text, or the text handed out was empty. |
| DeskLaws.HandoutIs | apps/server/src/concord/reconcile.ts:77-103 | A hand-out succeeds if and only if the document is inside the workspace and may be read; file and checkout are then its text and version, and all other files and checkouts are as before. |
| DeskLaws.SubmissionIs | apps/server/src/concord/reconcile.ts:105-175 | Exactly an edited file is submitted, at the version handed out; if that commits, file and checkout become what was committed, and otherwise nothing of them changes; no other file or checkout ever does. |
| DeskLaws.DeskTurnCarriesEditIff | apps/server/src/concord/reconcile.ts:77-175 | A whole turn over lists of documents: one that is handed out among others, edited, and taken back among others is submitted; an accepted submission carries the edit under the same condition and leaves file and checkout as committed, and a refused one changes nothing. |
| Turns.RereadCarriesIff | apps/server/src/concord/store.ts:460-469 | A turn in which the document is read again as the Agent, with nothing committed behind that read: submissions at another version than the current one carry the edit from the text handed out, for every payload, if and only if that text is the current one. |
| Turns.UncommittedKeepsBase | apps/server/src/concord/store.ts:460-469 | While nothing is committed on a document its text stays, and so does a base on that text, whatever else runs. |
| Witnesses.RereadLosesUpdate | apps/server/src/concord/store.ts:460-469 | A concrete run: an Agent is read again after another's commit, and its submission at the version handed out is answered as merged and replaces that commit. |
| Witnesses.RereadReplacesHumanEdit | apps/server/src/concord/store.ts:460-469 | The same with a human's edit in place of the other Agent's commit. |
| Witnesses.DeletionIsDropped | apps/server/src/concord/merge.ts:140 | A concrete run: after a human edit the Agent's deletion of everything is answered as merged and dropped. |
| Witnesses.EmptyingIsUndone | apps/server/src/concord/merge.ts:139 | A concrete run: a human empties the text and the Agent's next submission puts its whole payload back. |
| Turns.MovedBaseCarriesIff | apps/server/src/concord/store.ts:667-676 | When an Agent's base is the current text, its permitted stale writes carry the edit from the text of the version they name, for every payload, if and only if that text is the current one. |
| Turns.DecisionIsKeptIff | apps/server/src/concord/store.ts:947-949 | Right after a conflict decision the losing Agent's stale writes carry its own edit over the decision, for every payload, if and only if the version they name holds the decided text. |
| Turns.LateWriteEditsDecision | apps/server/src/concord/store.ts:947-949 | Whatever others commit after the decision, short of a human edit, the losing Agent's late write carries the way from the decided text to its payload; with nothing in between the payload replaces the decision. |
| Witnesses.DecisionIsOverwritten | apps/server/src/concord/store.ts:947-949 | A concrete run of four operations in which that happens. |
| Serialization.CallsAreSerialized | apps/server/src/concord/store.ts:401-412 | Under every interleaving at await points at most one call per document is under way, calls start in call order even after a rejection, and each document is exactly as far as the sequential run of its calls. |
| Serialization.StartedAfterSettled | apps/server/src/concord/store.ts:401-412 | A started call has every earlier call on its document settled. |
| Serialization.NeverStalls | apps/server/src/concord/store.ts:401-412 | While a call waits, one on its document is running or can start. |
| Durability.AcknowledgedIsDurable | apps/server/src/concord/store.ts:329-350 | Once an operation has answered, the file holds its version of the document or a later one, and is whole as in the next row. |
| Durability.FileIsPast | apps/server/src/concord/store.ts:329-350 | At every moment, whatever failed, the file holds every document, in every field but its lease, and every base of one state the store has been in. |
| Durability.UnsavedChangesNothing | apps/server/src/concord/store.ts:445-1019 | A step that does not wait for the disk changes nothing the file holds. |
| Durability.QuietDiskIsCurrent | apps/server/src/concord/store.ts:329-350 | If nothing failed and nothing is queued, the file holds the current state, but for documents nobody has written yet. |
| Durability.FileNeverGoesBack | apps/server/src/concord/store.ts:329-350 | Whatever happens next, failed writes included, no document's version in the file goes back. |
| Durability.CommitsPersist | apps/server/src/concord/store.ts:655-704 | Every accepted operation and every recorded conflict waits for the disk. |
| Audit.AuditLog.Append | apps/server/src/aegis/audit.ts:115-148 | Appending: numbering, redaction, capture level, hashing, head and pruning in one new state. |
| Audit.AuditLog.PruneOldest | apps/server/src/aegis/audit.ts:151-168 | The pruning loop drops the longest run of oldest records that are too old or too many, and moves the anchor. |
| Audit.AuditLog.VerifyFrom | apps/server/src/aegis/audit.ts:208-219 | The loop returns -1 if and only if the records form a chain from the start, and otherwise the first broken link; `FirstBreak` is that index. |
| Audit.AuditLog.Verify | apps/server/src/aegis/audit.ts:208-219 | Own records are checked from the anchor, others from where they say they start. |
| Audit.RetentionKeepsChain | apps/server/src/aegis/audit.ts:115-168 | After any appends the retained records verify from the anchor, pruned and retained add up to all, the cap holds, the first record hangs on the anchor, and each run counts 0, 1, 2, ... |
| Audit.RetainedAreRecent | apps/server/src/aegis/audit.ts:151-163 | With a clock that does not go back no retained record is older than the last cutoff. |
| Audit.RetainedIff | apps/server/src/aegis/audit.ts:151-168 | With a clock that does not go back a record is retained if and only if it is neither too old at the last cutoff nor one too many. |
| Audit.RetainedSayWhatWasAppended | apps/server/src/aegis/audit.ts:115-168 | The retained records are the last ones appended, each under its own id, and say what was appended, redacted; at the minimal capture level no evidence is kept. |
| Audit.HeadFixesChain | apps/server/src/aegis/audit.ts:44-65 | With a collision-free hash two chains of equal length, anchor and head agree, record by record, on event id, run, agent, number, time, gate, decision, rule, policy hash, evidence and previous hash. |
| Audit.RewriteIsFoundThere | apps/server/src/aegis/audit.ts:44-65 | Changing any of these in one record and keeping its hash makes the check answer that very record. |
| Audit.RewriteUnnoticedIff | apps/server/src/aegis/audit.ts:208-219 | Rewriting one record, its hash included, goes unnoticed before the last place if and only if the hash and every hashed field stay, and in the last place if and only if the new record is sealed onto the one before. |
| Audit.ForgedLastIsNotNoticed | apps/server/src/aegis/audit.ts:208-219 | So a last record that says anything and is hashed anew always goes unnoticed, because the head is not compared. |
| Audit.ReasonIsNotHashed | apps/server/src/aegis/audit.ts:44-58 | Reason, gate, policy version and severity of a verdict are not hashed: any chain survives their rewriting. |
| Audit.TruncationIsNotNoticed | apps/server/src/aegis/audit.ts:208-219 | Records cut off at the end go unnoticed, because the head is not compared. |
| Resources.CoversTransitive | apps/server/src/warrant/resources.ts:55-63 | What covers a cover covers. |
| Resources.CoversIsBeneath | apps/server/src/warrant/resources.ts:55-63 | A grant on a path that does not end in a slash covers exactly that path and what lies below it, and no sibling that merely starts alike. |
| Resources.SlashedGrantIsBelow | apps/server/src/warrant/resources.ts:60 | Written with a slash at its end it covers what lies below and not the path without the slash. |
| Resources.CoversOutside | apps/server/src/warrant/resources.ts:55-63 | A grant on the whole repository covers every file of it; a grant outside the repository covers only itself. |
| Resources.SharedFileIsExactIff | apps/server/src/concord/store.ts:243-245 | Sharing a document covers exactly the file its id names, without leading slashes, and what lies below, if and only if the id holds something besides slashes; otherwise it is the whole repository. |
| Resources.ComputeNormalPath | apps/server/src/warrant/resources.ts:25-37 | Backslashes replaced, the path split, the loop that pushes and pops parts, and the parts joined. |
| Resources.NormalPathIsPlain | apps/server/src/warrant/resources.ts:24-37 | No part of a normalised path is empty, `.`, `..` or holds a slash of either kind. |
| Resources.PathIsNormalIff | apps/server/src/warrant/resources.ts:24-37 | A path is left as it is if and only if it is empty or all its parts are such. |
| Resources.ClimbTakesBack | apps/server/src/warrant/resources.ts:30-33 | A climb takes back exactly the part before it. |
| Resources.NormalPathIsStable | apps/server/src/warrant/resources.ts:24-37 | Normalising twice is normalising once. |
| Sharing.ShareRegistry.Issue | apps/server/src/warrant/registry.ts:113-133 | A new warrant under a new id. |
| Sharing.ShareRegistry.WarrantForAgent | apps/server/src/warrant/registry.ts:140-145 | The oldest live warrant of the Agent, if there is one. |
| Sharing.ShareRegistry.RevokeById | apps/server/src/warrant/registry.ts:166-173 | Revoked once, at the first time asked. |
| Sharing.ShareRegistry.Revoke | apps/server/src/warrant/registry.ts:180-187 | Only by the human it belongs to; true if and only if the warrant is theirs and is now revoked. |
| Sharing.ShareRegistry.Held | apps/server/src/warrant/sharing.ts:69-81 | The loop unites the scopes of the live warrants that cover the document. |
| Sharing.ShareRegistry.GrantTo | apps/server/src/warrant/sharing.ts:192-221 | A new grant replaces a live one for the same document and person. |
| Sharing.ShareRegistry.Attach | apps/server/src/warrant/sharing.ts:229-250 | A warrant is minted, or the live one for that Agent returned. |
| Sharing.ShareRegistry.RevokeShare | apps/server/src/warrant/sharing.ts:256-267 | The loop revokes every warrant the grant minted. |
| Sharing.SharesAreExact | apps/server/src/warrant/sharing.ts:192-295 | After any run at most one grant is live per document id and person, and every live share warrant belongs to a live grant with exactly that role's scopes, document and person. |
| Sharing.NotBothLive | apps/server/src/warrant/sharing.ts:178-204 | Two grants of one document id to one person are never live together, now or later. |
| Sharing.RegrantLeavesLiveIff | apps/server/src/warrant/sharing.ts:178-204 | After any run, sharing a file again with the same person leaves a live warrant of an earlier share of that file live if and only if that share spelled the document id differently. |
| Sharing.RespelledShareKeepsEditor | apps/server/src/warrant/sharing.ts:178-204 | A concrete run: a file shared for editing and then, with a leading slash, for viewing keeps its Editor warrant live. |
| Sharing.OneWarrantPerAgent | apps/server/src/warrant/sharing.ts:229-250 | After any run a share has at most one live warrant per Agent. |
| Sharing.ShareWithinHoldings | apps/server/src/warrant/sharing.ts:106-166 | An allowed share is within what the granter holds at that moment, on everything the minted resource covers. |
| Sharing.AttachIff | apps/server/src/warrant/sharing.ts:229-250 | After any run attaching an Agent gives it the share's full role on that one document if and only if the grant is live; what the granter still holds does not enter. |
| Sharing.AttachedWithinIff | apps/server/src/warrant/sharing.ts:229-250 | What it is given is within the granter's holdings of that moment if and only if they hold every scope of the role then. |
| Sharing.ShareOutlivesGranter | apps/server/src/warrant/sharing.ts:229-250 | A concrete run: an Agent is attached with Editor rights on a file on which the sharer holds nothing any more. |
| Sharing.CanShareIsUpToMaxRole | apps/server/src/warrant/sharing.ts:84-166 | For a known, distinct grantee a role may be shared if and only if it is at most the widest role offered. |
| Sharing.StepIsSound | apps/server/src/warrant/routes.ts:726-845 | Every request, with the checks its route makes first, keeps the invariant behind these. |
| Sharing.ShareWarrantPermits | apps/server/src/warrant/sharing.ts:229-250 | After any run a warrant minted from a share permits exactly what the role stands for on exactly the shared file and below; a Viewer's Agent never edits. |
| Sharing.MayShareIff | apps/server/src/warrant/sharing.ts:106-166 | Sharing is allowed if and only if the grantee is another, known human and the granter holds write access and every scope of the role through live warrants covering the document. |
| Sharing.SharedIsHeld | apps/server/src/warrant/sharing.ts:192-250 | From sharing to holding: after an allowed share the grantee's attached Agent has a warrant that lasts until the share ends and permits exactly what was shared. |
| Sharing.WithdrawnIs | apps/server/src/warrant/sharing.ts:256-267 | A share that either party withdraws is over, and so is every warrant it minted; nothing else changes. |
| Sharing.IssuedIs | apps/server/src/warrant/registry.ts:113-187 | A warrant issued for a subtask says what was asked, is live exactly as long as asked, and its owner can end it. |
| Sharing.OnlyPartiesAct | apps/server/src/warrant/routes.ts:726-845 | A request that changes anything was allowed by the rule for sharing, or comes from the grantee who attaches, a party who withdraws, or the owner who revokes. |
| Review.ReviewService.AddComment | apps/server/src/review/service.ts:200-283 | A comment starts open with the rounds of its thread, after every refusal of the source: body, document, line range, choice of Agent, own lines. |
| Review.CreatedIff | apps/server/src/review/service.ts:200-283 | A comment is created, and nothing else changes, if and only if its trimmed body has 1 to 2000 characters, its lines are lines of the document, and the Agent it addresses, named explicitly or else recommended, is not the one raising it and, if named, is one of those its lines name, if they name any. |
| Routing.LinesNameCommitters | apps/server/src/concord/store.ts:588-607 | After any run every line names as its Agent what the operation that committed its version names: a writing Agent, nobody for a human edit, the human for a conflict decision. |
| Routing.CandidatesAre | apps/server/src/concord/provenance.ts:251-267 | After any run a comment's candidates are exactly those who committed one of its lines: an Agent by a write, or a human by a conflict decision. |
| Routing.CommentGoesToItsLines | apps/server/src/review/service.ts:220-261 | A created comment goes to one who committed one of the selected lines, if any of them names anyone; where not exactly one is named, only to one named explicitly; never to the Agent that raised it. |
| Witnesses.CommentGoesToDecider | apps/server/src/concord/store.ts:924-935 | A concrete run: a comment on a line a human settled is sent to that human as if they were an Agent. |
| Review.ReviewService.PlanReRuns | apps/server/src/review/service.ts:457-504 | Grouping by document and Agent with every refusal in the order of the source. |
| Review.ReviewService.OpenReRun | apps/server/src/review/service.ts:506-544 | A new run puts its comments in progress. |
| Review.ReviewService.CloseReRun | apps/server/src/review/service.ts:577-624 | Closing counts a round for each comment and sets its status, escalated or not. |
| Review.ReviewService.AgentResolves | apps/server/src/review/service.ts:375-408 | An Agent agrees; both ends of an Agents' thread settle it. |
| Review.ReviewService.Resolve | apps/server/src/review/routes.ts:216-224 | A human settles only their own comment. |
| Review.PlanIsGrouped | apps/server/src/review/service.ts:445-504 | A plan has at most one run per document and Agent, of at most ten comments; it covers every comment asked for under its own document and Agent, and each may go: the caller wrote it, or an Agent did and the caller owns the one it is sent to. |
| Review.PlannedIff | apps/server/src/review/service.ts:457-504 | A plan is made if and only if something is asked for, every comment may go, and no Agent is asked more than ten on one document; each group is then, in order, exactly what was asked of it. |
| Review.PlanStopsAt | apps/server/src/review/service.ts:464-490 | The first comment that may not go stops the plan; if only its lines have changed it is put aside, an Agent's as blocked and a human's as stale, and nothing else changes. |
| Review.PlannedIsSent | apps/server/src/review/service.ts:506-544 | A planned comment whose Agent can be started is in progress under one new run of the caller with exactly the comments of its document and Agent; the others stay as they were. |
| Review.AutoAsksIff | apps/server/src/review/routes.ts:270-296 | Auto mode asks for exactly the open comments an Agent raised whose Agent is idle. |
| Review.ClosedRun | apps/server/src/review/service.ts:554-624 | How a run ends for each of its comments, by its outcome: addressed, open again, contested or failed; an Agent's comment that ends badly or is out of rounds is blocked. Comments not in the run do not change. |
| Review.StepSpends | apps/server/src/review/service.ts:554-624 | Each automatic sending spends one of a comment's allowance and nothing raises it. |
| Review.BudgetHolds | apps/server/src/review/routes.ts:281-296 | An Agent's comment created with r rounds behind it is sent automatically at most max(1, M - r) times over any run. |
| Review.CloseMakesSpent | apps/server/src/review/service.ts:554-605 | A run that closes with the rounds used up leaves the comment not open. |
| Review.SpentStays | apps/server/src/review/service.ts:554-624 | From then on it is never open again. |
| Review.SettledStaysIff | apps/server/src/review/service.ts:599-605 | A settled comment stays settled in a step if and only if the step does not close a run that lists it. |
| Review.SettledIsReopened | apps/server/src/review/service.ts:599-605 | A concrete run from the empty board in which closing a run reopens a comment its human had settled. |
| Review.SettledTakesBoth | apps/server/src/review/service.ts:375-443 | An Agent's comment becomes settled only through the human it belongs to or through both of its two distinct Agents. |
| Review.BothEndsSettle | apps/server/src/review/service.ts:375-408 | Once both of its Agents have agreed, whatever came in between, an Agent's comment is settled. |

## Left out

- Documents as records shared by reference: a document is a value in a map that the methods replace, so aliasing between callers is not modelled.
- Interleaving inside one critical section: `Serialization` proves that none happens on one document; the store's steps are then atomic, and other documents' operations may run between the documents of one hand-out or submission, which the lemmas over runs allow for.
- One clock reading serves a whole store operation; the source reads the clock several times within one.
- UTF-16 code units: texts are sequences of Dafny characters, and columns count those.
- Ids: line, contribution, conflict, warrant, grant, comment and run ids are counters instead of random strings, and pairs instead of joined strings are the keys of bases, checkouts and review groups, so a separator inside an id is not modelled.
- Wording: reasons of refusals, commit messages, summaries and run ids are not part of the model, nor are events, presence, listings and snapshots for display.
- `SharedDocStore.initialize` and `seed`: the model starts from no documents; entries of a document without any are seeded as in the source.
- The persisted shape is the documents without leases, and the bases, as in the source: section allocations and the conflict counter are not in it. Writing the temporary file and renaming it is one event that happens or fails.
- One workspace: the files of `Turns` are one map, path resolution is the predicate `inside`, and `WorkspaceReconciler.forget` is left out.
- AuditLog.initialize and the append file are left out; the redactor is any function on verdicts and evidence, and SHA-256 any function of the hashed fields, free of collisions where a lemma says so.
- The two registries of warrants and grants are one class, `ShareRegistry`; sessions, handles, the defaults of time to live and the recorded reasons are left out.
- Routes appear only as the checks they make before a step: ownership on revoke, attach and resolve, decision before grant, and the selection of automatic re-runs.
- Review comments: the selected text and its hash are left out; whether an anchor still holds is a predicate of the caller's, and who wrote the selected lines is an argument of the operation, which `Routing` ties to the document.
- The budget bounds one comment; a chain of fresh replies is not bounded by the code, since creating a comment never escalates.
- The policy decision point, the rule engine, runners, the browser client and every other part of the platform.
