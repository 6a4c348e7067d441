# unisupply: the grade and the scans beneath it, verified

unisupply grades a Go module's dependency tree with one letter, A to F. This project models the parts of it that promise
something about runs that did not happen, and proves those promises for every input. `dafny verify dfyconfig.toml` checks it.

## What is modelled

**The grading engine (`pkg/grade`).** Findings of one row that are the same vulnerability are merged by a union-find
(`Dedupe`, `DedupeLaws`); each row is scored (`Scoring`, `Evidence`); whole-tree rules may raise the letter (`Tree`,
`Letters`); missing checks may withhold it (`PendingRule`, `Withholding`); the rows are ordered and one thing decides
(`Engine`, `Deciding`). Loops are methods over sequences, arrays and maps, each proved equal to a specification function; the
theorems are about those functions and so about the methods:

- when skipping govulncheck's called pass changes nothing, exactly (`CalledPass`, `Promotion`, `SkippedPass`, `PassExact`);
- the two extreme re-runs settle every unknown severity, in both directions (`Sandwich`);
- a letter is given only when the missing data cannot change it, and withheld for upkeep or the checksum only when it could
  (`Completions`); when a letter withheld for the known-exploited catalog could change, exactly (`Catalog`);
- unread archived flags are listed exactly when they could change the letter (`ArchivedUnread`), and the policy gate is exact
  about them (`Policy`);
- splitting a dependency, or listing things in another order, changes nothing (`Splitting`, `OrderIndependence`).

All of these rest on one decomposition, `Letters.LetterIsEvidence`: a letter is reached exactly when a single finding, a
single row's upkeep, a count or the checksum reaches it. `Relations` carries it to pairs of inputs.

**The scans beneath it.** The edit distance (`Typosquat`); the single-flight cache as a step system of any number of callers,
with one method for each locked section (`OnceCache`); the requirement graph's searches (`DepGraph`) and the three-valued
build verdicts (`BuildLists`); the fold of govulncheck's findings (`CallPaths`, `VulnFold`); the request pacer and its retry
loop (`Pacing`); the facts store over many re-grades (`Facts`). `Ordering` is Go's string order and the sorts; `GradeTypes`
holds the grade's types.

Letters are a datatype ordered A < B < C < D < F; `*bool` is `Tri`; a severity or reachability word is the case it parses to;
times are integers. In `OnceCache` and `Pacing` a run is a sequence of atomic steps in any order, so a statement about every
run covers every interleaving. I/O is a parameter: a scan's findings, each `go list` run's modules, each request's reply, and
which reads and writes of the store fail.

## Where the code does not do what its comments say

- The called-pass promise (`pkg/grade/calledpass.go:23-26`) fails when an imported finding is an alias of another finding of
  its module, because the test drops aliases (`SkippedPass.AliasedImportBreaksThePromise`). After a false answer Grade's
  letter, star and unread list are safe from the called pass if and only if the merged input is settled
  (`PassExact.SkippingExact`); for a withheld one, promoting everything decides (`PassExact.WorstOutcomeDecides`). It is enough
  that no group of aliases that counts as imported has an exploited, high or critical member
  (`SkippedPass.SkippingChangesNothing`).
- Merging an unrated finding with an alias rated LOW lowers its score from medium to low; `DedupeLaws.MergeLowersExactly`
  gives the exact condition and `DedupeLaws.MergingLowers` a list. This is why severities are monotone on merged findings
  only.
- In the whole-tree rule a critical or exploited finding with an empty ID erases the smallest ID kept so far, so the named
  rule may not fire (`Tree.KeptUnlessLastIsEmpty`). The letter is not affected (`Letters.NamedRulesNeverBeatTheRow`).
- `gradeRow` withholds a row's own letter by asking test-only before self, while the upkeep score asks self first, so a module
  row that is test-only or not built can show a letter that its unread upkeep would worsen (`Completions.RowLetterCanBeEarly`;
  exactly when, `Completions.RowLetterExact`). The runner never marks that row as either, so the function can be handed such
  a row but this program does not do it. What `pendingFor` assumes a dependency could score is right exactly for rows not
  marked as the module itself (`Completions.PossibleIsWorst`).
- `pendingFor` asks for the module's status before its advisories; its comment lists them the other way round.
- `wait` says that nothing is reserved when the context has ended; the code reserves the start before it sleeps, so a
  cancelled wait keeps its slot (`Pacing.CancelledWaitKeepsItsSlot`; the comment holds exactly when the deadline refused the
  start, `Pacing.Pacer.Wait`). The bounds count such slots too.
- `known_exploited` says that a listed finding would grade F; where its row is not built, or its CVE is no valid identifier and
  so never looked up, the letter is withheld in vain (`Catalog.WithheldInVain`, exact condition in
  `Catalog.CatalogPendingExact`).
- `preferPath` breaks ties on the joined path, which is the path itself only when no name holds the separator
  (`VulnFold.ArrivalOrderCanMatter`, exact condition in `VulnFold.PathFixedExactly`), and `preferCandidate` fixes a trace's
  positions but not its module versions (`VulnFold.TraceCanDiffer`, exact condition in `VulnFold.TraceFixedExactly`). No Go
  symbol holds the separator and a build has one version of a module, so neither input comes from this program.
- The build-tag guard of `classifyTestOnlyDeps` follows only requirements that no list holds. A tagged file may also import
  another package of a requirement that plain builds use; `BuildLists.TaggedBuildsRuledOut` assumes that it does not, and
  `BuildLists.TagGuardGap` says for which modules that matters.
- `storeAdvisories` treats a failed read as a miss and then writes, so a store error can replace a newer fact by an older one
  (`Facts.ReadErrorOverwrites`, exact condition in `Facts.LosesOnlyWhatItCannotRead`).

## Model

| member | source | states |
|---|---|---|
| Dedupe.HalvingKeepsRoots | pkg/grade/dedupe.go:22-28 | One path-halving step keeps the root of every element. |
| Dedupe.Find | pkg/grade/dedupe.go:22-28 | find ends, returns the root its argument had on entry, leaves an acyclic forest and changes no element's root. |
| Dedupe.Union | pkg/grade/dedupe.go:35-36 | Joining two findings that share an identifier gives them one root, keeps every earlier join, and never joins two findings that no chain of shared identifiers connects. |
| Dedupe.Unite | pkg/grade/dedupe.go:29-41 | After the loop over all identifiers two findings have the same root if and only if a chain of shared non-empty identifiers connects them. |
| Dedupe.MergeGroup | pkg/grade/dedupe.go:57-129 | The merged finding of a group is determined by the set of its members: Go ID before any other, then the smallest; worst severity; closest reachability; exploited when any is. |
| Dedupe.MergeAdvisories | pkg/grade/dedupe.go:11-55 | The union-find, the grouping and the folds together return one finding per connected component, in the order of first appearance; a lone finding comes back untouched. |
| DedupeLaws.MergedIdIs | pkg/grade/dedupe.go:79-129 | The merged ID is a member's own: the smallest that starts with GO- when one does, otherwise the smallest; the other identifiers are its aliases, in ascending order. |
| DedupeLaws.MergedDisjoint | pkg/grade/dedupe.go:8-10 | Two findings of the result never share a non-empty identifier. |
| DedupeLaws.DisjointUnchanged | pkg/grade/dedupe.go:58-60 | A list without shared identifiers is returned as it is. |
| DedupeLaws.MergeIdempotent | pkg/grade/engine.go:578-578 | Merging a merged list changes nothing, so Grade and gradeOnce may both merge. |
| DedupeLaws.IdentifiersConserved | pkg/grade/dedupe.go:8-10 | The result carries exactly the identifiers of the input. |
| DedupeLaws.EveryFindingCovered | pkg/grade/dedupe.go:57-129 | Every finding has a result that carries its identifiers and is at least as severe, as close and as exploited. |
| DedupeLaws.CoverScore | pkg/grade/dedupe.go:131-158 | A covering finding scores at least as high if and only if it is not the case that an unpublished severity, scored as medium, met an alias published as LOW on a reached tier. |
| DedupeLaws.MergeLowersExactly | pkg/grade/dedupe.go:57-129 | A finding counts for less once merged if and only if nobody published its severity, it is reached, and the highest severity its component publishes is LOW. |
| DedupeLaws.MergingLowers | pkg/grade/dedupe.go:57-129 | One such list: the unrated finding scores 45 alone and 15 merged with its LOW alias. |
| DedupeLaws.PublishedNeverLowered | pkg/grade/engine.go:106-121 | Merging never lowers the table score that a finding with a published severity contributes. |
| DedupeLaws.LookupFailureOnlyUnrated | pkg/grade/dedupe.go:57-129 | If failed lookups are unrated going in, a merged finding marked as failed is unrated. |
| DedupeLaws.MergeOrderIndependent | pkg/grade/dedupe.go:57-88 | Permuting a row's findings (each with an identifier) permutes the merged list and changes no merged finding. |
| Scoring.WorstByID | pkg/grade/engine.go:202-222 | byID holds each advisory once, at its worst table value. |
| Scoring.RankIds | pkg/grade/engine.go:202-222 | The ranked IDs are those of the map, without repetition, worst value first and then by ID. |
| Scoring.Best | pkg/grade/engine.go:199-241 | The map, sort and counting loop of one tier equal the closed form: the worst finding plus 5 for each further distinct high or critical advisory, capped. |
| Scoring.WorstExploited | pkg/grade/engine.go:192-278 | The kept known-exploited finding is the worst called one, ties by ID. |
| Scoring.VulnScoreRow | pkg/grade/engine.go:192-278 | vulnScore equals the closed form: the larger of the called and the capped imported score, cap 100, floor 76 for a called known-exploited finding, halving when test-only. |
| Scoring.GradeRowImpl | pkg/grade/engine.go:321-386 | gradeRow returns the row's scores, state, flags and letter as specified. |
| Completions.RowLetterExact | pkg/grade/engine.go:342-355 | A row with unread upkeep shows no letter if and only if some reading of it would worsen the band, except for a module row that is test-only or not built and has a band better than C: exactly there the code gives a letter too early. |
| Completions.RowLetterCanBeEarly | pkg/grade/engine.go:342-355 | One such row: it shows an A and is a C when the module turns out to be archived. |
| Evidence.RowVulnShape | pkg/grade/engine.go:192-278 | A row's vulnerability score is the order of operations applied to the larger of its two parts, and each part is positive when its tier is not empty. |
| Evidence.AloneIsSingleRow | pkg/grade/engine.go:192-278 | What a finding scores alone is the vulnerability score of the row that holds nothing else. |
| Evidence.RowVulnBand | pkg/grade/engine.go:192-278 | A row's vulnerability letter is at least l if and only if one finding alone reaches l or three distinct called high or critical advisories make it F. |
| Deciding.LoneScores | pkg/grade/engine.go:10-26 | One finding alone on a built row scores 90, 70, 45, 15 when called, 50, 49, 32, 11 when imported and 0 when required, an unrated one as medium, a called exploited one at least 76, and half of that in a test-only row. |
| Deciding.RowScores | pkg/grade/engine.go:172-190 | An archived, deprecated or retracted row scores 35, 10 or 20 by its kind and no other scores for upkeep; the row scores the larger half, at most 100. |
| Deciding.RowVulnIs | pkg/grade/engine.go:192-278 | Called findings add 5 for each further distinct high or critical advisory, imported ones stop at 50, and the larger part is finished. |
| Deciding.LeadIs | pkg/grade/engine.go:199-241 | The finding that leads its tier has the highest score there and, among those that do, the smallest ID. |
| Deciding.EstimatedRow | pkg/grade/engine.go:356-360 | A row is marked as estimated only for a vulnerability score that upkeep does not exceed and only when some finding is unrated; for one finding, exactly when it is that finding and the floor did not lift it. |
| Deciding.StateIs | pkg/grade/engine.go:141-170 | The upkeep state shown, case by case. |
| Deciding.GradedRowIs | pkg/grade/engine.go:321-341 | A graded row repeats its row's own name, kind and flags; unknown is never shown as confirmed or refuted. |
| Tree.KeptUnlessLastIsEmpty | pkg/grade/tree.go:42-47 | The kept smallest ID is lost exactly when the last advisory met has an empty ID. |
| Tree.KeepsSmallest | pkg/grade/tree.go:42-47 | With every ID present the kept one is the smallest, whatever the order. |
| Tree.TreeRule | pkg/grade/tree.go:17-69 | The nested loops and the switch return the highest rule that holds of the sets of (module, advisory) pairs over all rows not confirmed test-only. |
| Deciding.TreeRuleIs | pkg/grade/tree.go:50-68 | With every finding named, the rule is the first that holds of: checksum mismatch, a called exploited finding, a called critical one, three called high or critical pairs (each F), five reached ones (D). |
| Letters.NamedRulesNeverBeatTheRow | pkg/grade/tree.go:50-63 | A named critical or exploited finding already makes its own row F, so losing the kept ID never changes the letter. |
| Letters.LetterIsEvidence | pkg/grade/engine.go:407-517 | The letter is at least l if and only if one finding alone, one row's upkeep, a whole-tree count or a checksum mismatch reaches l. |
| Letters.ExactlyF | pkg/grade/tree.go:6-9 | On merged rows F if and only if checksum mismatch, a called critical or exploited finding, or at least 3 called high or critical (module, ID) pairs, confirmed test-only rows left out. |
| Letters.ExactlyD | pkg/grade/tree.go:6-10 | On merged rows D if and only if not F and a called high finding or at least 5 reached high or critical pairs: upkeep, test-only rows and a lone imported finding never make a D. |
| Letters.ExactlyC | pkg/grade/engine.go:40-50 | On merged rows C if and only if no worse and one finding weighs enough (medium or worse, or called and exploited; in a test-only row called high, critical or exploited), or the module itself is archived, deprecated or retracted. |
| Letters.ExactlyB | pkg/grade/engine.go:40-50 | On merged rows B if and only if no worse and some finding is reached (a low one counts outside test-only rows only) or a compiled-in, not test-only dependency is archived, deprecated or retracted; so A means neither. |
| PendingRule.Unread | pkg/grade/pending.go:48-74 | The loop lists exactly the dependencies that withhold the letter, and the worst score one of them could get. |
| PendingRule.PendingFor | pkg/grade/pending.go:24-76 | The first check, in the code's order, that did not run and could still matter. |
| Withholding.WithheldExactly | pkg/grade/pending.go:9-76 | For every check, exactly when Grade is pending on it, in terms of Checks, the rows and the letter: the first in order that did not run and could matter, or severity_lookup when none is but an answer changes the letter; otherwise the letter is given. |
| Engine.ArchivedUnreadThatMatters | pkg/grade/engine.go:549-563 | The sorted names of the dependencies whose unread flag would put their row in a worse band than the letter. |
| Engine.GradeSorted | pkg/grade/engine.go:439-517 | Score, letter, tree row, deciding row, pending check and unread list from the sorted rows. |
| Engine.GradeOnce | pkg/grade/engine.go:407-517 | gradeOnce, merge and loops included, is the specification the theorems below speak of. |
| Engine.SeverityLookupPending | pkg/grade/engine.go:658-694 | True if and only if some lookup failed and the LOW or the CRITICAL re-run gives another letter. |
| Engine.Grade | pkg/grade/engine.go:572-598 | Grade, re-runs included, is the specification the theorems below speak of. |
| Deciding.RowsInOrder | pkg/grade/engine.go:388-448 | A grade's rows are its graded rows, none lost, and none stands after one that it precedes: higher score, then vulnerability before upkeep, known before estimated, self, direct, name. |
| Deciding.DecidingExactly | pkg/grade/engine.go:449-461 | With a letter given: score, letter, tree row and what decided, the whole-tree rule when it beats every row, otherwise the first row when it scores. |
| Deciding.PendingShowsNothing | pkg/grade/engine.go:462-466 | A pending grade has no letter, star, score or deciding row, and the tree row is listed all the same. |
| Ordering.LessIs | pkg/grade/engine.go:388-404 | The string order everything is sorted by: a proper prefix, or the smaller character at the first difference. |
| OrderIndependence.StrictUnique | pkg/grade/engine.go:388-404 | The row order is a strict total order on rows told apart by name: two sorted lists of the same rows are equal. |
| OrderIndependence.OrderNeverMatters | pkg/grade/engine.go:426-448 | Permuting the dependencies (distinct modules) and the findings of every row (non-empty IDs) leaves the whole result of Grade equal: rows, order, letter, star, deciding row, tree row, pending check, unread list. |
| Sandwich.SeverityMonotone | pkg/grade/engine.go:59-65 | On merged findings, a worse published severity anywhere never gives a better letter. |
| Sandwich.ExtremesSettle | pkg/grade/engine.go:569-571 | When the LOW and the CRITICAL re-run give one letter, so does every assignment between them. |
| Sandwich.LookupPendingExact | pkg/grade/engine.go:654-694 | Grade is pending on severity_lookup if and only if some answers to the failed lookups change the letter. |
| Sandwich.EstimatedExact | pkg/grade/engine.go:569-598 | Estimated is set if and only if some assignment of published severities to the unrated findings changes the letter. |
| Sandwich.UnstarredLetterIsFinal | pkg/grade/engine.go:569-598 | An unstarred letter is the letter, unstarred, of every publication of the missing severities. |
| Completions.UpkeepPendingSound | pkg/grade/pending.go:9-23 | When Grade gives a letter, every completion of the missing upkeep data gets that letter. |
| Completions.DependencyPendingTight | pkg/grade/pending.go:20-21 | When gradeOnce is pending on dependency_maintenance, two completions get two different letters. |
| Completions.ModulePendingTight | pkg/grade/pending.go:17-19 | When gradeOnce is pending on module_status, two completions get two different letters. |
| Completions.PossibleIsWorst | pkg/grade/pending.go:48-74 | The score the rule assumes a dependency could get is the worst it can get if and only if the row is not marked as the module itself. |
| Completions.ChecksumPendingSound | pkg/grade/pending.go:15-15 | A letter given while the checksum was unverified is the letter of either outcome. |
| Completions.ChecksumPendingTight | pkg/grade/pending.go:15-15 | When pending on checksum, a mismatch is an F and a match is not. |
| Completions.CatalogPendingSound | pkg/grade/pending.go:16-16 | A letter given while exploited flags were unchecked is the letter of every catalog. |
| Catalog.CveAlias | pkg/scanner/vuln.go:590-604 | The loop returns the ID when it is a valid CVE, otherwise the first valid CVE among the aliases, otherwise nothing. |
| Catalog.ValidCveIs | pkg/scanner/vulnenrich.go:484-492 | Which identifiers are looked up: the prefix and 1 to 96 characters, all letters, digits, dots, dashes or underscores. |
| Catalog.CveOfIs | pkg/scanner/vuln.go:590-604 | A finding has a CVE to look up if and only if one of its identifiers is a valid one, and it is one of those. |
| Catalog.ListedExact | pkg/grade/pending.go:16-16 | After any findings were listed the letter reaches l if and only if it did before or a newly listed finding that is scored as called reaches l: F, or C when test-only. |
| Catalog.GroupListed | pkg/grade/dedupe.go:57-129 | A merged finding is listed if and only if it was or the catalog lists the CVE of one of its members. |
| Catalog.KnownGrade | pkg/grade/pending.go:16-16 | Once Grade gives a letter with nothing listed, it gives one for every catalog, failed lookups included, and it is the merged rows' letter. |
| Catalog.CatalogPendingExact | pkg/grade/pending.go:40-41 | When only the catalog withholds Grade's letter, two catalogs of the CVEs not yet looked up lead to two letters if and only if some finding carries such a CVE, is scored as called once merged, and its listing (F, or C when test-only) would be worse than the letter without it. |
| Catalog.CountedIsTight | pkg/runner/grade.go:461-489 | One counted finding (called or undetermined, not in a test-only row) with a valid CVE that was not looked up, in a row that may be built, is enough for two catalogs to lead to two of Grade's letters. |
| Catalog.ListableIsCounted | pkg/runner/grade.go:461-489 | Every called or undetermined finding outside test-only rows that a catalog can list is counted. |
| Catalog.WithheldInVain | pkg/grade/pending.go:40-41 | One input whose letter is withheld for two counted findings although every catalog gives the same letter: one row is not built, and the other finding's CVE is no valid identifier, so it is never looked up. |
| CalledPass.CalledPassCanChangeLetter | pkg/grade/calledpass.go:30-97 | The loops over modules and findings answer true if and only if some imported advisory is exploited, unrated, high or critical; the reason names the first case that applies. |
| CalledPass.QuietScanRow | pkg/grade/calledpass.go:14-19 | A row whose imported findings are all medium or low and not exploited has the same band when they are called, halved or not. |
| Promotion.PromotedMerged | pkg/grade/dedupe.go:57-129 | Promoting imported findings before the merge moves merged findings from imported or undetermined to called, and changes nothing else. |
| Promotion.LiftedBetween | pkg/grade/calledpass.go:14-16 | Every such promotion's letter lies between the letter without one and the letter with all of them. |
| Promotion.UpExact | pkg/grade/calledpass.go:14-26 | Promoting every imported finding keeps the letter if and only if it is F, or fewer than three high or critical advisories are reached and no imported finding, called, is alone worse than the letter. |
| SkippedPass.QuietMergedStays | pkg/grade/calledpass.go:23-26 | When no imported finding is exploited, unrated, high or critical once merged, no promotion changes Grade's letter, star, pending check or unread list, aliases included. |
| SkippedPass.QuietMergedMeans | pkg/grade/calledpass.go:51-63 | After a false answer the merged imported findings are quiet if and only if no group of aliases that counts as imported has an exploited, high or critical member. |
| SkippedPass.SkippingChangesNothing | pkg/grade/calledpass.go:23-26 | If the test answers false and no such group exists, promoting any imported findings to called, for every test-only, build, upkeep and self row and with Checks fixed, leaves Grade's letter, star, pending check and unread list the same. |
| PassExact.PromotionExact | pkg/grade/calledpass.go:23-26 | For every input, no promotion of raw findings changes the letter of the merged rows if and only if the merged input is settled. |
| PassExact.SkippingExact | pkg/grade/calledpass.go:23-26 | The promise about Grade, exactly: after a false answer no outcome of the called pass changes a given letter, or with it the star and the unread list, if and only if the merged input is settled, failed lookups and all re-runs included. |
| PassExact.WorstOutcomeDecides | pkg/grade/calledpass.go:23-26 | For every input, withheld letters included: no outcome changes letter, pending check, star or unread list if and only if promoting everything does not. |
| PassExact.StaysWithheld | pkg/grade/calledpass.go:23-26 | The letter is withheld in every outcome if and only if it is when everything is promoted. |
| PassExact.RerunsCarry | pkg/grade/engine.go:569-598 | Re-runs that keep a letter keep it after every promotion of the called pass. |
| SkippedPass.TestIsExactOnTheScan | pkg/grade/calledpass.go:15-19 | With every imported severity known, the test is true if and only if the scan's rows get another letter when called. |
| SkippedPass.AliasedImportBreaksThePromise | pkg/grade/calledpass.go:51-63 | One input, a LOW imported advisory with a HIGH required alias, on which the test answers false and the called pass changes Grade's letter. |
| Splitting.KeysConserved | pkg/grade/tree.go:13-16 | Splitting a row keeps the number of (module, advisory) pairs with any property of finding and row kind. |
| Splitting.SplittingChangesNothing | pkg/grade/tree.go:13-16 | Spreading a dependency's merged findings over new modules of the same kind changes neither letter, star nor pending check, test-only rows included. |
| ArchivedUnread.FoundGrade | pkg/grade/engine.go:543-563 | When Grade gives a letter, every later reading of the unread archived flags (set, not set or still unread, each by itself) is given one too, and each is the letter that the merged rows give. |
| ArchivedUnread.EmptyListExact | pkg/grade/engine.go:543-563 | The list is empty if and only if no reading of the unread flags changes the letter. |
| ArchivedUnread.ListIs | pkg/grade/engine.go:549-563 | The list names, in ascending order, exactly the dependencies whose unread flag could worsen the letter. |
| ArchivedUnread.ListMeansAtWorstB | pkg/grade/engine.go:543-548 | A non-empty list means letter A, every reading gives A or B, and the one that sets every flag gives B. |
| Policy.PolicyResult.AddError | pkg/policy/engine.go:333-341 | An error is appended and clears Pass; Pass says exactly that no error was added. |
| Policy.EvalGrade | pkg/policy/engine.go:440-486 | The gate appends exactly the violations of its case and keeps Pass unless one is an error. |
| Policy.GateOnPending | pkg/policy/engine.go:440-486 | Without a letter the gate fails if and only if pending is not allowed. |
| Policy.GateSays | pkg/policy/engine.go:440-486 | Case by case what the gate adds: nothing, one warning or one error, naming the deciding row for a worse letter; it is silent about a maximum only for a letter no worse and with every flag read. |
| Policy.GateIsExact | pkg/policy/engine.go:440-486 | On a given letter the gate fails if and only if some reading of the unread flags, none included, exceeds max_grade. |
| Policy.PassStaysAPass | pkg/policy/engine.go:440-486 | A gate that does not fail does not fail after any reading of the unread flags, whichever are found set, not set or left unread. |
| Typosquat.Levenshtein | pkg/scanner/typosquat.go:234-268 | The two swapped rows compute the recursive edit distance. |
| Typosquat.LeastEdits | pkg/scanner/typosquat.go:233-268 | At most n single-byte insertions, deletions and substitutions lead from a to b if and only if the distance is at most n. |
| Typosquat.Triangle | pkg/scanner/typosquat.go:233-268 | Triangle inequality. |
| Typosquat.Symmetric | pkg/scanner/typosquat.go:233-268 | Symmetry. |
| Typosquat.ZeroIffEqual | pkg/scanner/typosquat.go:233-268 | Zero exactly for equal names. |
| Typosquat.Bounds | pkg/scanner/typosquat.go:234-241 | At least the difference and at most the maximum of the lengths. |
| Typosquat.CheckExtraChar | pkg/scanner/typosquat.go:314-331 | True if and only if deleting one byte of a gives b; then the distance is exactly 1. |
| OnceCache.Cache.EnterDo | pkg/scanner/maintainer.go:519-530 | The locked section of do joins the key's entry or makes one, as the step system says. |
| OnceCache.Cache.TestContext | pkg/scanner/maintainer.go:533-537 | Only a failure under a cancelled context goes on to delete the key. |
| OnceCache.Cache.BeginFn | pkg/scanner/maintainer.go:532-532 | The owner of a new entry starts fn, and nobody else is running fn for that key. |
| OnceCache.Cache.StoreAnswer | pkg/scanner/maintainer.go:532-532 | The owner writes fn's answer into its own entry, once. |
| OnceCache.Cache.DeleteKey | pkg/scanner/maintainer.go:534-536 | The locked delete takes the key out of the map and touches no entry; what it takes out is the caller's own entry, which failed. |
| OnceCache.Cache.CloseDone | pkg/scanner/maintainer.go:538-539 | Closing the channel, which was open, lets the owner return its entry's answer. |
| OnceCache.Cache.WakeUp | pkg/scanner/maintainer.go:525-526 | A waiter returns the answer of the entry it joined, once that is closed. |
| OnceCache.Cache.LockPeek | pkg/scanner/maintainer.go:544-549 | peek looks the entry up and changes nothing. |
| OnceCache.Cache.SelectPeek | pkg/scanner/maintainer.go:550-555 | peek returns an answer only from a closed entry and never waits. |
| OnceCache.Cache.SetKey | pkg/scanner/maintainer.go:558-571 | set adds a closed entry unless the key has one. |
| OnceCache.StepKeepsInv | pkg/scanner/maintainer.go:504-571 | Every step of every caller keeps the invariant: an open entry has exactly one owner and is its key's entry until the owner deletes or closes it. |
| OnceCache.RunsNeverOverlap | pkg/scanner/maintainer.go:502-503 | In every interleaving two callers never run fn for one key at the same time. |
| OnceCache.DeletesItsOwn | pkg/scanner/maintainer.go:533-537 | A delete takes out the entry its caller made, which ended in a failure, and no other. |
| OnceCache.FinishedIsKept | pkg/scanner/maintainer.go:515-517 | A closed entry in the map is kept. |
| OnceCache.KeptForever | pkg/scanner/maintainer.go:502-540 | A kept result stays, same entry and same answer, and fn is neither about to run nor running for its key ever after. |
| OnceCache.SetKeeps | pkg/scanner/maintainer.go:558-571 | set on a key without an entry keeps its value from then on, and otherwise changes nothing. |
| OnceCache.PeekGives | pkg/scanner/maintainer.go:542-555 | peek never waits, changes nothing, and finds nothing exactly when the key has no entry or its entry is open at that moment; else it returns the final answer. |
| OnceCache.KeptIsReturned | pkg/scanner/maintainer.go:519-540 | A call of do that starts after a result is kept returns that result. |
| OnceCache.KeptUnlessCancelledFailure | pkg/scanner/maintainer.go:515-517 | After fn the result is kept if and only if it is not a failure under a cancelled context; other errors are kept. |
| OnceCache.OneSuccessPerKey | pkg/scanner/maintainer.go:502-540 | Of two entries ever made for a key at least one ended in a failure of fn. |
| OnceCache.DoReturnsItsEntry | pkg/scanner/maintainer.go:515-540 | A finished call of do returned the answer of the entry it joined or made, for its own key, and that answer is final. |
| OnceCache.JoinersAgree | pkg/scanner/maintainer.go:502-540 | Callers that share an entry return the same answer, whenever they return. |
| OnceCache.WaitersHaveAnOwner | pkg/scanner/maintainer.go:523-539 | While a joined entry is open its owner can take a step, so the cache itself blocks nobody. |
| DepGraph.ReadEdges | pkg/resolver/graph.go:262-302 | children and parents list each kept edge once, in opposite directions, and each module keeps a version that no line outranks. |
| DepGraph.ToolchainLeftOut | pkg/resolver/graph.go:274-302 | A module lists another exactly when some line says so and neither is go or starts with toolchain; no version is kept for those. |
| DepGraph.Depths | pkg/resolver/graph.go:308-323 | On any graph, cyclic ones included, the search finds exactly the reachable modules, each at its shortest requirement distance minus one. |
| DepGraph.DepthFieldIsDistance | pkg/resolver/graph.go:340-344 | The Depth field of a reached dependency is that distance; the default 1 is for unreached modules only. |
| DepGraph.DepthZeroIsRequired | pkg/resolver/graph.go:308-323 | Depth 0 is exactly what the main module requires itself. |
| DepGraph.ReachableFrom | pkg/resolver/graph.go:675-707 | Exactly the modules on a UsedBy path from a seed that never enters the main module after its start. |
| DepGraph.OnwardIsAnEdge | pkg/resolver/graph.go:675-707 | On the graph that was read these are the paths along the lines of the output. |
| BuildLists.MergeRuns | pkg/resolver/graph.go:743-775 | Each target holds the union of what its runs saw, by kind, and fails or lacks packages when one of its runs does. |
| BuildLists.Classify | pkg/resolver/graph.go:533-636 | Every dependency gets the verdict of the merged lists; a nil verdict leaves the field as it was. |
| BuildLists.VerdictsAreTrue | pkg/resolver/graph.go:501-518 | With every run's modules among the true ones, and equal to them when clean, each definite IsTestOnly, InBuild and Platforms verdict is true of the real builds. |
| BuildLists.SeenIsGiven | pkg/resolver/graph.go:508-513 | When one target lists cleanly, a module that any run saw is in the build, and one that a production run saw is not test-only, whichever other runs failed. |
| BuildLists.GivenExactly | pkg/resolver/graph.go:580-636 | Exactly when InBuild and IsTestOnly are true, false or nil, from the runs alone. |
| BuildLists.PlatformsInOrder | pkg/resolver/graph.go:575-590 | Platforms are listed in ascending order, each once. |
| BuildLists.OverlayIs | pkg/resolver/graph.go:615-636 | A verdict replaces the field and a nil verdict leaves it. |
| BuildLists.FullEvidenceDecides | pkg/resolver/graph.go:475-480 | With every run clean each verdict is given and exact, the build-tag limit apart. |
| BuildLists.TaggedBuildsRuledOut | pkg/resolver/graph.go:481-497 | InBuild false also means that no build under a custom tag uses the module, if such builds use what plain ones do, direct requirements, and listed modules below direct requirements that no plain build uses. |
| BuildLists.InBuildFalseExactly | pkg/resolver/graph.go:481-497 | With every run clean InBuild is false for exactly the modules that no such build can use. |
| BuildLists.TagGuardGap | pkg/resolver/graph.go:481-497 | Were tagged builds also to import other packages of requirements that plain builds use, InBuild would be wrongly false for exactly the listed, unbuilt, indirect modules that a used requirement leads to and no unused one does. |
| BuildLists.MoreEvidence | pkg/resolver/graph.go:508-518 | Runs that saw more turn nil into a verdict and never take one back or flip one. |
| CallPaths.Condense | pkg/scanner/vuln.go:538-561 | Path and frames come from one walk and stay parallel, the cut marker included. |
| CallPaths.CondensedShape | pkg/scanner/vuln.go:531-561 | At most 8 entries, none only when no frame names a function, entry point first, vulnerable function last, nothing that the trace does not hold. |
| CallPaths.EntryIsLast | pkg/scanner/vuln.go:540-545 | The entry shown first is the trace's last frame that names a function. |
| CallPaths.SinkIsFirst | pkg/scanner/vuln.go:540-545 | The entry shown last is the trace's first frame that names a function. |
| CallPaths.KeptExactly | pkg/scanner/vuln.go:546-553 | Exactly the first frame, the last and those that hand over to another package are kept, in their order. |
| CallPaths.CutExactly | pkg/scanner/vuln.go:554-560 | Up to eight frames are all shown; of more, the first, the marker and the last six. |
| CallPaths.FrameNameIs | pkg/scanner/vuln.go:485-494 | A name is package, receiver without its star and function up to the first dollar sign. |
| CallPaths.FrameShows | pkg/scanner/vuln.go:516-529 | A frame shows its entry's module, version and position, and whether the package is the project's. |
| CallPaths.CompareFramePositions | pkg/scanner/vuln.go:374-390 | The loop is the lexicographic comparison of file, line and column, then of lengths. |
| CallPaths.PreferCalledIsAnOrder | pkg/scanner/vuln.go:411-428 | preferCalled is a strict weak order. |
| CallPaths.PreferredIsShorter | pkg/scanner/vuln.go:347-357 | A path that does more than format a message is preferred, then the shorter, then the one that joins to the smaller string. |
| CallPaths.PreferredIsEarlier | pkg/scanner/vuln.go:364-390 | Of one path the one whose positions come first is preferred: by file, line and column at the first frame that differs. |
| CallPaths.TiedShowTheSame | pkg/scanner/vuln.go:359-372 | Two candidates that tie have the same joined path, message kind and source positions. |
| VulnFold.ParseFindings | pkg/scanner/vuln.go:764-881 | One entry for each module and advisory some finding names, holding the fold of exactly that key's findings. |
| VulnFold.EntriesAreReported | pkg/scanner/vuln.go:764-881 | Every entry is of a known advisory that some finding reports in that module. |
| VulnFold.ReportsHaveEntries | pkg/scanner/vuln.go:764-881 | Every finding of a known advisory whose trace names a module has its entry there. |
| VulnFold.CapCalledSymbols | pkg/scanner/vuln.go:893-906 | The first 20 of the distinct sinks in ascending order. |
| VulnFold.TopReachIsMax | pkg/scanner/vuln.go:812-819 | The kept reachability is the highest of the findings. |
| VulnFold.ReachExactly | pkg/scanner/vuln.go:311-330 | An entry is called exactly when some finding's trace has a position or its innermost frame names a function, imported exactly when none does and some innermost frame names a package, and otherwise required. |
| VulnFold.KeptPathIsShortest | pkg/scanner/vuln.go:338-428 | There is a path exactly when some called finding names a function; one that does more than format a message wins; none of its kind is shorter. |
| VulnFold.SymbolsExactly | pkg/scanner/vuln.go:893-906 | The symbols are the names of the called findings' innermost functions: all up to twenty, otherwise the first twenty in ascending order. |
| VulnFold.ModuleIsFirst | pkg/scanner/vuln.go:764-811 | A finding belongs to the first module that a frame of its trace names. |
| VulnFold.BestPathIsLeast | pkg/scanner/vuln.go:820-828 | The kept path is a finding's own and no finding's path is preferred to it. |
| VulnFold.CalledStaysCalled | pkg/scanner/vuln.go:812-828 | One called finding makes the entry called, and its path is empty only if that finding names no function. |
| CallPaths.JoinInjective | pkg/scanner/vuln.go:357-357 | Paths of one length whose entries hold no NUL are equal when their joined strings are. |
| VulnFold.ArrivalOrderNeverMatters | pkg/scanner/vuln.go:342-346 | The same findings in any order and multiplicity give the same reachability and called symbols, call paths that read the same at the same positions, and, when no name holds a NUL, the same call path. |
| VulnFold.PathFixedExactly | pkg/scanner/vuln.go:342-346 | The call path is the same for every listing of the findings if and only if all findings that tie with the kept one share its path. |
| VulnFold.TraceFixedExactly | pkg/scanner/vuln.go:359-364 | The same of the whole call trace: fixed if and only if all findings that tie with the kept one share its frames. |
| VulnFold.TraceCanDiffer | pkg/scanner/vuln.go:359-364 | Two findings that differ in a module version only: the trace of the first to arrive is kept. |
| VulnFold.ArrivalOrderCanMatter | pkg/scanner/vuln.go:342-357 | Two findings with a NUL in a name, whose different paths join to one string: the first to arrive is kept. |
| VulnFold.ResultsAgree | pkg/scanner/vuln.go:764-881 | The same for whole results: every entry of one run has an entry of the other that reads the same, with the same call path when no name holds a NUL. |
| Pacing.Pacer.Reserve | pkg/scanner/nvdfetch.go:60-74 | The locked section reserves the later of now and next and moves next by the spacing; a start after the deadline is refused and changes nothing. |
| Pacing.Pacer.Wait | pkg/scanner/nvdfetch.go:57-75 | wait is true if and only if the deadline does not refuse the start and the sleep is not cancelled; when it is false, nothing is reserved if and only if the deadline refused it. |
| Pacing.NothingReservedExactly | pkg/scanner/nvdfetch.go:57-75 | The same of the step itself: a false result leaves next alone if and only if the deadline refused the start. |
| Pacing.CancelledWaitKeepsItsSlot | pkg/scanner/nvdfetch.go:57-75 | One wait that is cancelled during its sleep and moves next all the same. |
| Pacing.StartsAreSpaced | pkg/scanner/nvdfetch.go:57-74 | In every interleaving no start is reserved before an earlier one's spacing is over. |
| Pacing.GrantRespects | pkg/scanner/nvdfetch.go:57-84 | Each start respects every earlier delayUntil and the caller's deadline; a refusal changes nothing. |
| Pacing.WindowBound | pkg/scanner/nvdfetch.go:14-17 | No window of length w holds more than w/s + 1 starts when every spacing is at least s. |
| Pacing.ReservingBound | pkg/scanner/nvdfetch.go:14-17 | No window of length w holds more than w/s + 1 starts that reserved at least s, whatever the others reserved. |
| Pacing.NvdLimitsHold | pkg/scanner/nvdfetch.go:14-17 | At most 5 starts in any 30 s without a key and 50 with one; in runs that mix both, at most 5 without and 50 in all. |
| Pacing.Enricher.EnrichDeadline | pkg/scanner/nvdfetch.go:94-103 | The budget's end is fixed by the first use. |
| Pacing.BackoffIs | pkg/scanner/nvdfetch.go:266-274 | A retry waits what the header says, between 0 and a minute, or 5, 10, 20 and 40 seconds. |
| Pacing.Enricher.Fetch | pkg/scanner/nvdfetch.go:193-276 | Exactly when each outcome is reported: parsed for a last reply of 200, a failure by its kind only after four tries, cancelled or out of budget only at a wait or a cancelled request. Only a 429, 403, 5xx or transport error with a try left, or a refused key, is followed by another request, and each of them is, or by the end of its wait. Every request is followed by its own spacing and every retry by its wait, for the whole process; a request carries the key exactly while it is in use; none starts after the deadline. |
| Facts.ApplyAdvisories | pkg/runner/regrade_facts.go:106-126 | Each finding is overlaid in place by its fact exactly when the read succeeds and the fact is fresh and newer than the analysis. |
| Facts.AppliedExactly | pkg/runner/regrade_facts.go:104-126 | A finding changes only by a fact that is read, fetched after the analysis and not too old, and then exactly in what that fact knows. |
| Facts.StoreAdvisories | pkg/runner/regrade_facts.go:130-162 | The store after the loop is the fold of its first findings per advisory. |
| Facts.StoredExactly | pkg/runner/regrade_facts.go:128-162 | What a store step writes, field by field, and when it writes nothing. |
| Facts.FirstFindingDecides | pkg/runner/regrade_facts.go:135-142 | Of several findings of one advisory the first decides, whichever reads and writes fail. |
| Facts.LosesOnlyWhatItCannotRead | pkg/runner/regrade_facts.go:147-160 | A store step loses a date, a published severity or a catalog check if and only if its read failed on a fact that is newer or knows more. |
| Facts.ReadErrorOverwrites | pkg/runner/regrade_facts.go:147-160 | One such input: a read error lets an older analysis overwrite a newer fact. |
| Facts.NothingLostEver | pkg/runner/regrade_facts.go:128-162 | Over any sequence of re-grades whose reads succeed, analyses in any order and whichever writes fail: dates never go back, a published severity never becomes unknown, a catalog check is never undone. |
| Facts.NewerFactsStand | pkg/runner/regrade_facts.go:148-150 | A fact dated at or after the analysis is never overwritten by it. |
| Facts.DatedByTheLatest | pkg/runner/regrade_facts.go:128-162 | When reads and writes succeed each fact ends dated by the latest analysis that mentions it, in whatever order they come. |
| Facts.ApplyOnlyAdds | pkg/runner/regrade_facts.go:104-126 | Applying never unpublishes a severity or undoes a catalog check, and applying again changes nothing. |
| Facts.LaterAnalysisIsReadBack | pkg/runner/regrade_facts.go:104-160 | What a later analysis stored is what a fresh re-grade of an earlier one reads back. |

## Left out

- Severity and reachability words: trimming, case folding and unknown spellings are parsed before the model starts.
- A finding's fixed version, summary, condition, affected packages and fix dates, and the sort in `mergeGroup` that decides which member they come from: they never reach a score.
- The active, finished and parked upkeep states are one state (`Maintained`): all score 0, and the month arithmetic that tells them apart is not modelled.
- Reasons, notes, response wording, VEX statements, the per-row finding list, FixesNeedNewerGo and known facts: presentation.
- How the runner fills `Checks`: they are an input, held fixed in the relational theorems.
- SkippedPass.SkippingChangesNothing: assumes that failed lookups are unrated, which is what the runner guarantees; the condition on aliases is needed (see above).
- PassExact.SkippingExact: needs the row of the module itself to be marked as such, failed lookups to be unrated and the imported findings to be the scan's; the runner guarantees all three.
- BuildLists.TaggedBuildsRuledOut: assumes that a tagged build imports no further package of a requirement that plain builds use; Go's own listing of such imports is not modelled.
- Catalog.CatalogPendingExact: which CVEs were looked up before is a parameter; a catalog's dates and ransomware notes are left out.
- Per-dependency policy rules, their formatting and YAML loading; `validate` is reduced to the three shapes of max_grade.
- `checkSwappedChars`, `checkHomoglyph`, `checkMissingDash` and the typosquat confidence sums: thresholds, not exact predicates.
- OnceCache.Cache.EnterDo: a panic in fn is not modelled; it would leave the entry open for ever.
- go.mod line scanning, `goModListed` (a parameter here), version parsing (versions carry a rank) and the wording of warnings and notes.
- Running `go list` and its parallelism, the tolerated package errors and needsModUpdate: only the warning text reads them.
- VulnFold.ParseFindings: the finding's severity, fixed version, summary and condition come from the first or the chosen finding and may depend on arrival order; they are not modelled.
- Rebasing and module-relative file names in `newCallFrame`: positions are taken as they come out of it.
- Pacing.Enricher.Fetch: JSON decoding of a 200 reply and the warnings are left out; the sleep is a step that may be cancelled, and starts are the reserved ones.
- Facts.NothingLostEver: needs the reads to succeed; the exact condition without that is Facts.LosesOnlyWhatItCannotRead. Module and fix facts, aliases and publication dates are not modelled.
- The CVSS tiers, OSV and GitHub lookups, reports, SBOM, PDF, command line and network code.
