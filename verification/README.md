# Conseqa: verified model of the commit gate and the conformance algorithms

Conseqa keeps one architecture model that many agents edit at once, and checks source code against it.
This project models the five algorithmic pieces that everything else trusts, and proves what they are for:

- **The commit gate** (`Gate`, `Engine`, `EngineRuns`, `Steps`, `Sweep`, `Unguarded`, over `Slices`, `Patch`,
  `Proposals`, `Program`).
  Tasks read pinned snapshots; one writer revalidates what a task found, names to write and refers to against a moved
  head, applies its patch and publishes. Every run is serializable in what its tasks found, and no slice is replaced
  or deleted that moved since the task's snapshot, outbox runtimes excepted, whether or not the sweep after a commit
  invalidates anything. Look-ups that found nothing are not guarded; what that leaves open is stated exactly.
- **The binding-marker scanner** (`Text`, `Marker`, `Scan`, `Nesting`, `RegionTree`, `Locality`, `Completeness`). A
  stack automaton over begin and end markers, and residuals whose point is that editing a nested region leaves the
  regions around it alone.
- **The dependency-order planner** (`CallGraph`, `Tarjan`, `CallOrder`, `WorkList`). Tarjan's components, the
  placement of the condensation callees first, and the list of work with its dependencies.
- **Conformance, drift and the record store** (`Conformance`, `Drift`, `Records`, `Outcomes`). The greatest self-supporting set
  of obligations, the multiset difference of region digests, and attests and reviews that can be repeated safely.
- **The semantic graph and its queries** (`SymbolGraph`, `Traverse`, `Provenance`, `Requirements`, with
  `SortDedup`). Adjacency and its transpose, depth-bounded traversal, the provenance walk, and requirement identities.

Code that changes state in place is a class or a method proved against a specification function or relation; what
the source promises is then proved of that specification, for all inputs and all runs.

`dafny verify dfyconfig.toml` checks the project.

## Conventions

- Keys, digests, canonical facts and ids are represented by their place in their order, so equality and order are
  kept and spelling is not. A fingerprint is a parameter, or the content it is the fingerprint of.
- What is opaque in a module is a parameter of it: the fingerprints of symbols derived from the slices, query answers,
  draft checks, write scopes and collected references in `Gate`; key parsing and bindability in `Scan`; byte ranges found by patterns in
  `Completeness`.
- A write that the store may refuse is a step with that outcome as a parameter.

## What the proofs showed

- The graph has a node for every slice a mutation can name but an outbox runtime, so the gate compares nothing with
  nothing there: two tasks pinned at one snapshot may put the same outbox runtime, and the second silently replaces
  the first (`Unguarded.OutboxOverwritten`). What the graph tells guards a symbol's slices exactly unless it is an
  outbox runtime (`Slices.ProtectsAllButOutboxes`), and in every run each other slice a commit names is at its parent
  what it was at the task's snapshot (`EngineRuns.NoUpdateLost`).
- A look-up that finds nothing is not recorded, so another commit may declare the symbol before the task's own
  commit, which passes all the same (`Unguarded.MissOvertaken`). The parent answers everything the task asked as its
  snapshot did exactly when what it missed is still missing there (`EngineRuns.RunIsSerial`).
- The statuses explicit prompts write lie outside any footprint and no conflict guards them; they are merged, and
  keep every reference recorded before (`EngineRuns.StatusesMerge`).
- A recorded requirement reference is a place in a list. Replacing that list or deleting the operation can leave it
  naming nothing, or something else (`Patch.ReferenceDangles`); it goes on naming its requirement exactly when no
  mutation replaces the list, or each that does brings the same content to the place (`Patch.ReferenceStands`, and
  through a whole patch `Patch.ReferenceStandsThrough`).
- The work list is by priority first, so a dependency may stand after the item that depends on it
  (`WorkList.DependencyAfter`); it stands before it exactly when it is not less urgent (`WorkList.DependencyPlace`).
- The provenance walk visits a binding once whatever the path. A transaction-output reference to an effect result, at
  two paths, loses one of the two roots (`Provenance.LosesAPath`). Nothing is lost while each result binding is
  reached at one path, and, where no two result bindings answer for one effect, only then.
- `requirement_content` answers for the result-replay family, to which no requirement is ever assigned, with
  idempotency's declarations (`Requirements.ReplayFound`). An identity is found exactly when it was assigned, but for
  result-replay identities whose fingerprint and occurrence idempotency has assigned (`Requirements.FoundIffAssigned`).
- A symbol's version counts the changes of its content since it was last declared anew; removed and declared again,
  it starts over at the first version (`SymbolGraph.VersionCounts`).
- The sweep is said to find no cause exactly when a read set is not stale, and does not: an observation stale already
  and unchanged since is passed over. It agrees with the gate exactly when every observed symbol outside the changed
  set held at the old head, or something else gives it a cause (`Gate.SweepAgreesIff`). Over a run the workers left
  running hold only what the gate would pass exactly as long as none reads, from its own snapshot, what is stale
  already (`Sweep.RunFresh`); one that does runs on, though all it submits is refused (`Unguarded.StaleReadKept`).

## Model

| member | source | states |
|---|---|---|
| Tarjan.ComponentsOf | src/conformance/plan.rs:605-677 | on every call graph the recursive walk ends with a partition of the nodes into classes of mutual reachability through callees that are nodes, and every callee of a member lies in the same component or an earlier one |
| Tarjan.Walk.Visit | src/conformance/plan.rs:619-658 | one visit of the walk, with `index`, `low`, `stack` and `on_stack` updated in place, keeps the invariant of the search, and numbers its node |
| Tarjan.Walk.CloseComponent | src/conformance/plan.rs:644-656 | the stack is popped down to the root, inclusive, and just what was popped becomes the new component |
| CallOrder.PickNext | src/conformance/plan.rs:545-555 | a component whose callees are all placed is always found, and is the one of least key: the `expect` never fires |
| CallOrder.OrderOf | src/conformance/plan.rs:523-565 | the placement loop ends with every class placed after all it calls, and the numbers it gives put callees first |
| CallOrder.CalleesFirst | src/conformance/plan.rs:440-453 | operations and transitions are numbered 0 to n-1, each once, and a callee precedes its caller unless the two reach each other |
| CallOrder.PlacementUnique | src/conformance/plan.rs:523-565 | two placements of one graph agree on every prefix they both have |
| CallOrder.OrderSettled | src/conformance/plan.rs:523-565 | the numbers depend on the graph alone, not on the order in which components were found |
| WorkList.Plan | src/conformance/plan.rs:188-262 | the items found come once each in list order, and each depends on exactly the listed references that stand before it in dependency order: by group, call order and key |
| WorkList.NoCycle | src/conformance/plan.rs:567-602 | no chain of dependencies comes back to where it began, whatever references what |
| WorkList.BeforeIs | src/conformance/plan.rs:567-602 | for every call order and key: shared vocabulary before what calls, that before operations, those before runtimes, and those before the rest; within a group by call order where there is one, and then by key |
| WorkList.EarlierGroupFirst | src/conformance/plan.rs:186-262 | at equal priority an item of an earlier group stands first |
| WorkList.EarlierGroupNeeded | src/conformance/plan.rs:188-262 | a listed reference into an earlier group is always a dependency |
| WorkList.DependencyPlace | src/conformance/plan.rs:186-262 | a dependency is listed before its item exactly when its priority is not lower |
| WorkList.DependencyAfter | src/conformance/plan.rs:186-262 | a list in which a dependency stands after the item that depends on it, being less urgent |
| WorkList.CalleesListedFirst | src/conformance/plan.rs:186-262 | work on what is called, and calls not back, is listed before work on its caller exactly unless it is less urgent |
| WorkList.Scoped | src/conformance/plan.rs:150-184 | scoping keeps the owed items in order, with just those dependencies that are owed too |
| Text.SplitLines | src/conformance/markers.rs:447-466 | the cursor loop yields the lines of the specification, with one line ending stripped from each |
| Text.EndingsDoNotMatter | src/conformance/markers.rs:447-466 | lines written with any mixture of endings, the last line with one or without, read back as the same lines |
| Marker.NoStartNoMark | src/conformance/markers.rs:319-330 | a line without the keywords' common start holds no marker, so a file without it may be passed over |
| Marker.WrittenIsRead | src/conformance/markers.rs:489-551 | a marker written in any comment style, with any spacing and any closer, is read back with its key |
| Scan.ReadLines | src/conformance/markers.rs:331-403 | the automaton over all lines leaves exactly the open regions, closed regions and errors of its specification |
| Scan.Residual | src/conformance/markers.rs:610-639 | the residual loop skips the nested regions and keeps their indented content out of the residual text |
| Scan.ScanFile | src/conformance/markers.rs:319-445 | the early exit, the automaton, the unclosed regions and the residuals together give the file's regions and its errors, each in order |
| Scan.NothingToScan | src/conformance/markers.rs:319-330 | the early exit loses no region and no error |
| Scan.SortErrorsSame | src/conformance/markers.rs:409-424 | ordering the errors neither loses nor adds one |
| Scan.ErrorsByLine | src/conformance/markers.rs:409-412 | errors come by line, and those of one line in the order they were found |
| Scan.EndFault | src/conformance/markers.rs:371-402 | an end marker closes the innermost region with its key, overlapping what was opened next if that is not innermost; else it mismatches the innermost, or has nothing to close |
| Scan.MarkerFault | src/conformance/markers.rs:335-370 | a marker is reported for its form or else its key, and pairs by its key whenever it has one |
| Scan.UnclosedAll | src/conformance/markers.rs:405-407 | every region left open is reported at the line it begins |
| Nesting.ReadDoc | src/conformance/markers.rs:331-403 | reading a well-nested document from any state closes its pairs and leaves the rest of the state as it was |
| Nesting.CleanFile | src/conformance/markers.rs:331-424 | from a file in which the scan finds nothing wrong, the nesting of its regions can be rebuilt |
| Nesting.CleanIffNested | src/conformance/markers.rs:331-445 | the scan reports nothing exactly when every marker is well formed and bindable and the markers nest in pairs of equal keys |
| RegionTree.ResidualOfDoc | src/conformance/markers.rs:594-639 | a region's residual is its own text, with everything of the regions nested in it left out |
| RegionTree.RegionsOfFile | src/conformance/markers.rs:319-445 | the regions of a well-nested file are its pairs, in line order |
| RegionTree.FileLaminar | src/conformance/markers.rs:331-445 | in any file the regions begin before they end and any two are disjoint or strictly nested |
| Locality.EditIsLocal | src/conformance/markers.rs:594-639 | replacing the lines strictly inside a region leaves the file without errors, and every other region outside it keeps its key and residual |
| Locality.UnmarkedIsClean | src/conformance/markers.rs:319-445 | lines free of markers have no scan error, so they may replace the inside of any region |
| Marker.Indented | src/conformance/markers.rs:489-551 | indenting a line, whatever is on it, changes nothing of its marker and adds none |
| Locality.MarkersAreNoContent | src/conformance/markers.rs:594-639 | rewriting marker lines so that each reads as the same marker changes no region, residual or error |
| Locality.IndentationIsNoContent | src/conformance/markers.rs:594-639 | so indenting marker lines otherwise changes no region, residual or error |
| Completeness.LineNumber | src/conformance/completeness.rs:340-385 | the binary search gives the line that splitting the text puts the byte on |
| Completeness.LineHolds | src/conformance/completeness.rs:340-385 | the byte at an offset is in the line of that number, at its place there, or in the line's ending |
| Completeness.Visit | src/conformance/completeness.rs:340-366 | every range found by a claim's patterns is added to that claim's matches, with its lines, and nothing else is |
| Completeness.InsideByBytes | src/conformance/completeness.rs:395-415 | a match lies inside a region exactly when all its bytes lie on lines strictly between the region's markers |
| Completeness.ClaimHolds | src/conformance/completeness.rs:395-415 | nothing is reported outside exactly when the file is excepted or every match lies in an accepted region |
| Conformance.OwnBlockers | src/conformance/state.rs:1381-1480 | an obligation's own blockers are exactly the conditions its basis facts meet, its reliances those its basis names, and none blocks exactly when every fact is provided: attested without drift by each implementer, claimed structurally without staleness or drift at each bindable anchor, free of failed claims |
| Conformance.BlocksTell | src/conformance/state.rs:1417-1452 | a declaration blocks for not attesting or not claiming, else for staleness where structure is asked, or drift; a failed claim for being incomplete |
| Conformance.Failing | src/conformance/state.rs:1469-1521 | spreading failure ends and leaves the greatest set that has no blocker and relies only on itself; an obligation fails exactly when its blockers or the reliances it fails through are not empty |
| Conformance.ConformsIffNoBadChain | src/conformance/state.rs:1374-1381 | an obligation conforms exactly when no chain of reliances leads to a blocked or unproven one, so a cycle alone fails nothing |
| Drift.Drift | src/conformance/state.rs:1268-1290 | the regions added and removed are both multiset differences of the digests, and both are empty exactly when the multisets are equal |
| Drift.SortedIsMultiset | src/conformance/record.rs:409-428 | sorted digest lists are equal exactly when the digests are equal as multisets |
| Records.Store.Write | src/conformance/record.rs:785-827 | a write takes effect only over the file it names, and only of a well-formed record |
| Records.Store.Attest | src/conformance/attest.rs:369-648 | attesting settles, compares and replaces as its specification says, from outcome to file |
| Records.Store.Review | src/conformance/review.rs:173-292 | reviewing refuses drifted or stale records, puts the review in and writes as its specification says |
| Records.SurvivingMembers | src/conformance/record.rs:430-441 | rebinding drops exactly the reviews that saw other regions |
| Records.RunTidy | src/conformance/attest.rs:587-628 | over every run of attests and reviews each stored review carries the record's digests, each party has at most one, and its items name facts and claims the record has |
| Records.StepKeepsMeaning | src/conformance/attest.rs:587-605 | whatever a step is and whoever takes it, the items of a review it leaves in place go on naming the same facts and claims |
| Records.StoredReviewMeans | src/conformance/attest.rs:587-628 | over every run each review stored in the end was made by one of its steps, and its items mean what they meant in the record that step found |
| Outcomes.AttestJudged | src/conformance/attest.rs:578-640 | an attest is refused by the first check that fails and changes nothing then; it writes only over the file the caller names, and then just what is attested |
| Outcomes.AttestReviews | src/conformance/attest.rs:587-668 | the record written keeps all reviews of one that says the same of the same code, and else none |
| Outcomes.ReviewJudged | src/conformance/review.rs:184-280 | a review is refused by the first check that fails, drift before staleness, and else changes the reviews alone, by the one made |
| Outcomes.ItemsDecide | src/conformance/state.rs:1311-1343 | a review's items on a thing override its verdict: any disputing one unconfirms it, a confirming one alone confirms it |
| Records.AttestReplays | src/conformance/attest.rs:587-628 | a successful attest repeats without a write, even after reviews were added, on another commit, or naming the record it replaced |
| Records.ReviewReplays | src/conformance/review.rs:217-267 | a successful review repeats without a write, after any reviews by other parties |
| Records.ConfirmsWithoutDrift | src/conformance/state.rs:1311-1343 | a stored review confirms nothing once the digests drift, and nothing for the record's own attester |
| SymbolGraph.Builder.AddNode | src/design/graph_build.rs:342-365 | a symbol declared twice keeps its first declaration's node |
| SymbolGraph.Builder.Link | src/design/graph_build.rs:367-373 | an edge is added exactly when its target has a node |
| SymbolGraph.Builder.Finish | src/design/graph_build.rs:1524-1604 | outgoing holds exactly the edges linked; incoming is its transpose; both ascend without duplicates; versions are carried, advanced or started, so the graph is built over the previous one |
| SymbolGraph.AdjacencyBySet | src/design/graph_build.rs:1537-1558 | adjacency depends on which edges were linked, not on their order or number |
| SymbolGraph.VersionTellsChange | src/design/graph_build.rs:1525-1535 | while a symbol stays present its version never falls and is the same exactly while its content is |
| SymbolGraph.VersionCounts | src/design/graph_build.rs:32-35 | a symbol's version is one more than the changes of its content since it was last declared anew, whatever came before |
| SymbolGraph.NodeOfBuilds | src/design/graph_build.rs:1524-1604 | in the last of any line of graphs, each built over the one before, a symbol's node is the one its history of fingerprints makes |
| SortDedup.CanonicalBySet | src/design/graph_query.rs:286-294 | canonical rows are equal exactly when the same rows were found, in any order and however often |
| Traverse.Traverse | src/design/graph_query.rs:323-377 | the queue and distance map give exactly the symbols within the depth, with no distance overflowing its width; an unknown start gives none |
| Traverse.ImpactedBy | src/design/graph_query.rs:250-255 | a row is another symbol from which the start is reached along at most `depth` declared edges, with the least number of them |
| Provenance.ProvenanceRoots | src/design/graph_query.rs:596-818 | the walk ends on every program, finds only roots of what it reaches, and passes over none but a result binding's at another path |
| Provenance.RootIs | src/design/graph_query.rs:632-818 | what each kind of root says: which input, subject, first read, observed effect with its variant and path, or gap in the model a reference or binding is |
| Provenance.NextIs | src/design/graph_query.rs:690-761 | what a binding or reference is derived from: the references of its values, each made in its transaction, or the output binding it names |
| Provenance.OnePathComplete | src/design/graph_query.rs:632-679 | nothing is lost to visiting a binding once as long as each result binding is reached at one path |
| Provenance.CompleteOnlyIfOnePath | src/design/graph_query.rs:632-679 | where no two result bindings answer for one effect, nothing is lost only then |
| Provenance.OutputsComplete | src/design/graph_query.rs:759-761 | in a program whose transaction-output references name outputs the walk collects exactly the roots reachable |
| Provenance.LosesAPath | src/design/graph_query.rs:632-679 | an output that reads an effect result at two paths loses one of its roots |
| Program.UpdateIsPut | src/spec/operation/program.rs:632-707 | reaching a transaction to change it changes exactly the one that finding it by id would read |
| Requirements.RequirementEntries | src/design/graph_build.rs:1606-1676 | every requirement gets its family, fingerprint and the count of those alike declared before it, across all inline transactions in program order |
| Requirements.RequirementContent | src/design/engine.rs:2153-2227 | a look-up answers the one place with the identity, or that too few declarations are alike |
| Requirements.RoundTrip | src/design/engine.rs:2153-2227 | looking up the identity a declaration was assigned finds that declaration, even where fingerprints collide |
| Requirements.IdentitiesUnique | src/design/graph_build.rs:1606-1676 | no two declarations share an identity |
| Requirements.FoundIffAssigned | src/design/engine.rs:2153-2227 | a look-up finds an identity exactly when the one it answers for was assigned; so found and assigned agree exactly unless it is a result-replay identity whose idempotency twin was assigned |
| Requirements.ReplayFound | src/design/engine.rs:2220-2222 | a draft with one idempotency requirement, in which a result-replay identity is found that nothing was assigned |
| Proposals.BatchHolds | src/design/commit.rs:560-673 | across any batch the lists only grow, and every Adopted or Duplicate reference names the first declaration of what was proposed |
| Proposals.NeverAgain | src/design/commit.rs:616-652 | what is adopted was not declared in its list before the batch |
| Proposals.AdoptedApart | src/design/commit.rs:616-652 | no batch adopts one declaration twice |
| Proposals.BatchRecords | src/design/commit.rs:575-673 | each submission leaves one record or one diagnostic; the policy decides what is adopted; an explicit prompt's reference discharges its obligation and no other obligation changes |
| Proposals.SubmissionJudged | src/design/commit.rs:575-673 | each submission in turn: a diagnostic naming what is missing, or a record, Duplicate exactly if its list holds the content, else Adopted last in its list exactly as the policy has it for its origin |
| Proposals.StagedTells | src/design/workspace.rs:246-275 | a draft's stage tells whether it has a program and requirements, unless it is signed off, which stays |
| Proposals.MappingKeeps | src/design/commit.rs:676-704 | mapping an obligation keeps the references recorded, in order, and adds each at most once |
| Patch.Candidate.ApplyProposals | src/design/commit.rs:560-673 | the loop over submissions updates the draft, obligations and record of proposals as its specification says |
| Patch.Candidate.ApplyMutation | src/design/commit.rs:336-553 | each mutation changes the workspace in place, or raises the diagnostic, as its specification says |
| Patch.Candidate.ApplyPatch | src/design/commit.rs:318-334 | mutations apply in order, and the draft checks run only when none complains |
| Patch.MutationTakes | src/design/commit.rs:336-553 | a put, replacement or deletion that raises nothing leaves its target holding just what it brought |
| Patch.MutationClean | src/design/commit.rs:336-553 | a mutation raises nothing exactly where the workspace has what it needs: the operation a replacement or proposal is for, each proposal's list and obligation, or the deletable slice deleted |
| Patch.MutationComplains | src/design/commit.rs:463-553 | what is raised otherwise names what is missing, and every slice stays as it was |
| Patch.PatchClean | src/design/commit.rs:318-334 | a patch raises nothing exactly when each mutation has what it needs in what those before it left |
| Patch.ProposalsRecorded | src/design/commit.rs:560-673 | a proposal mutation records what its batch comes to, discharges what explicit prompts answer, and touches no other obligation |
| Patch.PatchStages | src/design/commit.rs:336-553 | whatever a patch does, stages go on telling what the drafts hold, and no sign-off is taken back |
| Patch.PatchTakes | src/design/commit.rs:318-334 | after a patch that raises nothing each slice addressed holds what the last mutation to name it brought |
| Patch.PatchKeepsObligations | src/design/commit.rs:676-704 | an obligation a patch does not name keeps its text, verdict and references in order, with references only added, each once |
| Patch.PatchFrame | src/design/patch.rs:165-193 | applying a patch changes only the slices its conflict footprints name, the stages, the record of proposals and the statuses its explicit prompts name |
| Patch.TargetsCover | src/design/patch.rs:262-275 | the write targets are the footprints' union, ascending, whatever the order of the mutations |
| Patch.FootprintsAre | src/design/patch.rs:165-193 | a patch may change just its mutations' targets and the programs its transaction proposals rewrite |
| Patch.WrittenHereIs | src/design/patch.rs:277-313 | a reference is satisfied by a patch that writes the symbol itself, or for an operation its interface |
| Patch.ExternalReferences | src/design/patch.rs:277-313 | the references kept are exactly those to symbols the patch does not itself write |
| Patch.ReferenceStands | src/design/commit.rs:336-553 | a reference goes on naming its requirement exactly when the mutation does not replace its list, or brings the same content to its place |
| Patch.ReferenceStandsThrough | src/design/commit.rs:318-334 | it does so after every mutation of a patch exactly when each of them keeps it |
| Patch.ReferenceAfterPatch | src/design/commit.rs:318-334 | a clean patch leaves a reference naming what its last replacement brought to the place, or nothing, unless something was proposed to the operation after that |
| Patch.ReferenceDangles | src/design/commit.rs:445-458 | replacing an operation's requirements raises nothing and can leave an adopted reference naming nothing |
| Slices.NodesTell | src/design/graph_build.rs:375-569 | the graph has a node for each declared slice but outbox runtimes, fingerprinted by its content, and an operation's node by its whole draft |
| Slices.ProtectsAllButOutboxes | src/design/graph_build.rs:446-482 | a symbol's node settles every slice that writing it names exactly unless it is an outbox runtime |
| Gate.Judge | src/design/engine.rs:1673-1777 | the gate passes exactly what meets every check, with the workspace the patch makes, and a refusal names the first check that fails and what fails it |
| Gate.CheckReads | src/design/engine.rs:1694-1735 | the reads are refused exactly when an observed symbol or query result no longer holds |
| Gate.ChangedSymbols | src/design/engine.rs:1906-1926 | the changed set is exactly the symbols whose fingerprints differ, in order |
| Gate.StaleCauses | src/design/invalidation.rs:14-67 | the two loops list the causes of the specification, in canonical order |
| Gate.CausesTell | src/design/invalidation.rs:22-67 | the causes are exactly those that are true: an observed changed symbol removed, or told otherwise, and a query or search answered otherwise; each once, in order |
| Gate.SweepRefines | src/design/invalidation.rs:14-67 | when the symbols observed and not changed held at the old head, there is no cause exactly when the gate would pass the reads at the new one |
| Gate.SweepAgreesIff | src/design/invalidation.rs:14-67 | sweep and gate agree exactly then, or when a changed symbol or a query gives the sweep a cause anyway |
| Sweep.SurvivesIffHolds | src/design/engine.rs:1928-1997 | of workers whose reads held at the old head the sweep leaves running just those whose reads the gate would pass at the new |
| Sweep.RunFresh | src/design/invalidation.rs:14-67 | over every run in which what publishes sweeps, all that running workers observed holds at every head exactly when none of them reads what is stale already |
| Gate.CauseMeansRefusal | src/design/invalidation.rs:14-67 | a cause found always means the gate would refuse |
| Gate.AcceptedSerially | src/design/engine.rs:1673-1777 | what is accepted would be accepted of the task run alone at the head, where it finds just what it had found |
| Gate.AcceptedAlike | src/design/engine.rs:592-599 | the head answers all the task had asked as its snapshot did exactly when it still lacks every symbol the task missed |
| Gate.AcceptedUntouched | src/design/engine.rs:1738-1748 | every slice an accepted patch replaces or deletes, outbox runtimes excepted, holds at the head what it held at the task's snapshot |
| Gate.OutboxesUnguarded | src/design/engine.rs:1738-1748 | whatever others have made of the outbox runtimes, the gate accepts what it would have accepted |
| Engine.Engine.ReadSymbol | src/design/engine.rs:575-618 | any active task, session or worker, reads its own snapshot, and what it finds it holds from then on beside all it held |
| Engine.Engine.RunQuery | src/design/engine.rs:719-755 | only an active task asks, over its own snapshot, and the answer is recorded |
| Engine.Engine.InvalidateStaleTasks | src/design/engine.rs:1928-1997 | exactly the running workers with a cause are invalidated, told why; sessions and the committing task are left |
| Engine.Engine.ProcessCommit | src/design/engine.rs:1551-1671 | a commit is answered and changes the engine as its specification says: unknown, repeated, invalidated, refused, not stored or published |
| Engine.Engine.Publish | src/design/engine.rs:1778-1839 | publishing moves the head by one revision, records the nonce and the commit, sweeps, and lets a session go on |
| Engine.Engine.AdoptDiskChange | src/design/engine.rs:1841-1904 | an outside change becomes the next revision and sweeps; every running session is over, its token naming a new task at the head with its scope and nothing read, and no session runs on behind the head |
| Engine.Engine.CommitWorker | src/design/engine.rs:1516-1543 | outside changes are adopted before a commit is judged, and nothing is committed over files that do not load |
| Engine.Engine.RefreshSession | src/design/engine.rs:482-509 | a live session behind the head is over and its token names a new task there; nothing else moves |
| Engine.Engine.FinishTask | src/design/engine.rs:1108-1130 | a task's authority ends: its state is the outcome and its tokens are revoked |
| Steps.FoundBinds | src/design/engine.rs:592-611 | over every run whatever a task has found it holds to the end, so the gate refuses it over every head that tells the symbol otherwise |
| Steps.AnswerBinds | src/design/engine.rs:1694-1735 | and so of every answer it was given |
| Steps.RefusalEnds | src/design/engine.rs:1629-1668 | a refused worker is over exactly when its base, reads or targets are stale, told what changed and its patch kept; any other refused task, a session always, runs on as it was |
| Steps.LatePatchKept | src/design/engine.rs:1583-1610 | a task invalidated before it submits keeps why, and the first patch it then submits |
| Steps.SweepEnds | src/design/engine.rs:1928-1997 | the sweep ends just the running workers something tells against, and tells them all of it |
| Steps.CommitDoes | src/design/engine.rs:1778-1839 | a commit published is the next revision, logged under its nonce, its task over; a session's token names a new task at the head |
| Steps.CreateDoes | src/design/engine.rs:432-480 | a created task runs at the head under a new token with nothing read |
| Steps.FinishDoes | src/design/engine.rs:1108-1130 | a task finished is over as reported and no token names it any more |
| EngineRuns.RunSane | src/design/engine.rs:1516-1880 | every run, with sweeps, refusals and failed writes anywhere, keeps recorded reads to the task's snapshot, nonces and log to the commits, and tokens to their running task |
| EngineRuns.SerialReplay | src/design/engine.rs:1673-1839 | the commits done again one at a time in revision order, each pinned at its parent, are all accepted and yield the same heads; revisions are consecutive |
| EngineRuns.RunIsSerial | src/design/engine.rs:1673-1839 | so for every run from an empty engine: each commit's task finds at its parent just what it had found, and all it had asked is answered alike exactly when what it had missed is still missing |
| EngineRuns.NoUpdateLost | src/design/engine.rs:1738-1748 | in every run each slice a commit names, outbox runtimes excepted, holds at its parent what it held at the task's snapshot |
| EngineRuns.StatusesMerge | src/design/commit.rs:676-704 | in every run an obligation a commit does not name keeps its text, its verdict and every reference recorded, by whichever task |
| Unguarded.OutboxOverwritten | src/design/graph_build.rs:446-482 | a run of two tasks pinned at one snapshot in which the second's put of an outbox runtime replaces the first's |
| Unguarded.MissOvertaken | src/design/engine.rs:592-599 | a run in which a task looks for a service, misses it, and commits after another declared it |
| Unguarded.StaleReadKept | src/design/invalidation.rs:22-40 | a run in which a worker reads, from its snapshot, what a commit has changed, and the next sweep leaves it running although the gate would refuse whatever it submits |
| EngineRuns.NothingOverwritten | src/design/patch.rs:262-275 | no commit of a run changes a slice its patch does not address |
| EngineRuns.CommitsOnce | src/design/engine.rs:1551-1632 | in no run does a task commit twice, under one nonce or two |
| EngineRuns.OneRunning | src/design/engine.rs:1492-1514 | in every run a session's token is held by at most one running task |
| EngineRuns.RunStands | src/design/engine.rs:1551-1671 | over every run nonces and the log only grow and a task that is not running never runs again |
| EngineRuns.RepeatedAnswers | src/design/engine.rs:1562-1578 | a commit once accepted answers every later submission of its task and nonce with its one revision, and moves nothing |

## Left out

- Interleavings inside a step: the gate is one atomic step in which the submitting task reads nothing, and `finish_task`, which is not under the writer lock, does not fall between a commit's checks.
- Recovery of tasks and nonces when an engine is opened anew (src/design/engine.rs:1415-1447).
- The draft checks of `check_patch`, the collection of a patch's references and write-scope grants: parameters of the gate.
- The symbols a workspace's graph derives from its slices, and the edges each declaration links: nodes of slices and the builder are modelled, the tables that drive the rest are not.
- Specialized graph indexes (callers, readers, publishers and the rest): each is sorted and deduplicated as `SortDedup` states.
- `index_program`: the provenance walk takes the bindings and effects it builds; which candidate of a race stands for it is not modelled.
- The edges from which the planner builds its call graph (src/conformance/plan.rs:454-519), and priorities, actions and containers of items.
- `requirement_report`, context bundles and operation summaries: a summary is guarded only through the symbols recorded with it.
- The checks of an attest on its facts, evidence and claims: whether they pass is a parameter; facts are compared by canonical form, evidence spans by place.
- The count of reviews an attest drops, and whether a review replaced another: reported to the caller, not stored.
- Widths of node ids, occurrences, revisions and versions: unbounded here. Traversal distances keep their eight bits.
- Requirement roots, node kinds and owners: derived from keys and contents.
- BLAKE3, JSON canonicalisation, regular expressions, YAML, git and file I/O, locks, events, the analysis hub, tokens' randomness and the command line.
- Gate.CheckReads: which of several failed observations a refusal names is the first in canonical order in the code; the contract says only that it is one of the first kind that fails.
- Engine.Engine.MoveInteractiveSessions: sessions roll in an order of their own choosing, as the source's hash map gives none.
- Conformance.Failing: the list of failing obligations is kept as a set; the order in which `through` names them is not modelled.
