# Data-quality rewrites and their registrar, in Dafny

This project models the batch scripts that rewrite Legba's database in place, and the registrar that
brings descriptors to their declared lifecycle state, and proves what they promise over all inputs,
whole runs and, where a script claims to be re-runnable, repeated runs.

Four models carry the weight.

* **Duplicate collapse** (`Repoint`, `ArrayRepoint`, `EvidenceArchive`, `CollapseBatch`, `CollapseLaws`,
  `DuplicateGroups`, `CollapseRun`, `CollapseMeaning`). One batch is a transaction over links, aliases,
  canonical pointers, nine id arrays, the evidence sidecar and the tombstones. `Collapsed` states its effect
  as a relation (which of several conflicting rows an `ON CONFLICT DO NOTHING` keeps is not determined), the
  class `Database` performs it step by step, and the run is proved to leave exactly what one batch over all
  visited groups would have left.
* **Entity merge** (`MergePlan`, `MergeDraft`, `ListOrder`, `ClusterDecision`, `BuildPlan`, `PlanMeaning`,
  `MergeMigration`, `MergeLaws`, `MergeRerun`, `MergeFixpoint`, `MigrationRun`, `MigrationMeaning`,
  `UnstableCanon`). The planner elects, filters and sorts lists, and is proved to emit the plan of its rows
  taken as a set. The emitted migration is a class method in six ordered steps with a rollback, proved against
  the relation `Migrated`, about which the laws are stated.
* **Canonicalization backfill** (`CanonicalBackfill`, `BackfillLaws`, `BackfillMeaning`). The same kind of merge
  by guarded updates and cascades, one group at a time, with the unique index valid after each group.
* **Registrar** (`LegalPath`, `Lifecycle`, `DescriptorRegistry`, `Registration`, `Registrar`,
  `SourceCatalog`). A breadth-first search over any finite transition relation, the registry as a store of
  content-addressed versions with a head, and the idempotent walk over it while other writers intervene and
  calls fail. What one registration does is a function of the history it starts from and of the turns around
  its calls; the methods are proved to compute it, and what holds of every run is proved about it.

The four `Meaning` modules close each of these models off: they say what a run leaves behind in the columns of
the tables and the answers of the canon alone, row by row and in both directions, with the names of the classes,
states and thresholds written out.

Three smaller ones are exact about arithmetic and text: `CronSchedule`, `PromptText`, `MatrixSplice`.
`Ordering` holds the orders and the sets-as-sorted-lists facts that all of them use.

Conventions. Signal ids are integers ordered as their text is. Entity ids, names and timestamps are
texts under the lexicographic order `TextLess`. The name canon, the identity fold, the junk test, the
country lookups, the alias marker, the content hash and the digest behind the stagger are function
values, and a lemma that needs something of them says so in its `requires`: `Stable` (the name a survivor
is shown under folds as its stored name), `CaseBlind` (a name of the table that differs from that one in
case only folds like it), `Idempotent` and `IgnoresCase` (the canonicalizer), `Injective` (the content
hash). One `lower` stands for both the scripts' and the database's. Columns that the database keeps as
de-duplicated arrays (`derived_from` and `merged_aliases` of an entity) are sets. The laws of the migration
speak of the plan as maps and sets, which the emitted lists tabulate.

Six results are not what the code or its comments say.

* The migration's header calls it idempotent. It is so exactly when no rewrite was blocked only by rows that
  the same migration then renames or deletes: `MergeRerun.RerunIsNoop` is the equivalence. A plan made from
  the table it runs on always meets that condition under a stable and case-blind canon
  (`MergeFixpoint.PlannedRerunIsNoop`), and can fail it under one that is not stable
  (`UnstableCanon.RerunCanChange`).
* The generator has an empty form for a plan without rewrites, junk or geo, but none for a plan without
  merges: that one is written out as an `INSERT` with no values and the migration fails as a whole. Run on the
  table its plan was made from, it goes through if and only if some cluster is merged
  (`MigrationRun.MigratePlanned`); a table whose only finding is junk keeps the junk (`MigrationRun.LoneJunk`),
  and under a stable canon so does every table that has been migrated (`MigrationRun.MigrateReplanned`).
* The registry's update promotes an already stored version in the belief that its state is the one it was
  hashed with. Retiring a head, pausing a failing source and resuming it rewrite the state column alone, so
  "updated" can be reported for a head that is retired or paused, and a head can make a hop the lifecycle does
  not allow. `Registration.UpdatedReachesDeclaredState` and `Registration.QuietMovesLegal` give the exact
  conditions for a run, `DescriptorRegistry.MoveIsLegal` for one update; `Registration.RunIsLegal` says when
  no disturbance can make a run break the lifecycle. `Registration.StaleVersionIsRevived`,
  `Registration.PausedHeadStaysPaused` and `DescriptorRegistry.PausedVersionIsPromoted` are instances.
* The catalog's guard promises never to drive a source that was switched off back to active. It sees the bulk
  read only: a source paused after it, and before its own turn, is revived unless the declared version is
  stored under another state (`SourceCatalog.LateSwitchOff`, `SourceCatalog.PausedSourceIsRevived`).
* The registrar's comments say that the registry lands every new descriptor in the draft state; the
  registry inserts the declared state. The landing state is a parameter of the model, and what
  one call does is proved for every choice of it.
* A cadence of an hour or more that is not a whole number of hours dividing the day does not get the
  constant period the cron builder's docstring promises, and neither does one below the hour that does
  not divide it: `CronSchedule.ConstantPeriod` is the equivalence.

## Model

| member | source | states |
|---|---|---|
| `Repoint.MoveTouchedRows` | scripts/collapse_intrasource_dupes.py:266-282 | inserting the image of the touched rows and then deleting every touched row moves each kept row exactly once and touches nothing else, provided no image is itself touched; the reported count is the rows that are new |
| `Repoint.InsertOnConflictDoNothing` | scripts/collapse_intrasource_dupes.py:267-278 | each selected row is copied to its new key unless the key is taken; taken keys keep their contents, and a key several rows compete for gets the contents of one of them |
| `Repoint.InsertThenDelete` | scripts/collapse_intrasource_dupes.py:279-282 | the delete takes none of the rows just inserted, because survivors are never losers |
| `Repoint.RepointedCompose` | scripts/collapse_intrasource_dupes.py:458-517 | two moves in a row are one move by the composed map, whichever conflicting rows won |
| `ArrayRepoint.AggregatedIsFirstOccurrences` | scripts/collapse_intrasource_dupes.py:177-191 | the grouped query, `min(ord)` per value and ordered by it, is first-occurrence de-duplication |
| `ArrayRepoint.RepointArraySpec` | scripts/collapse_intrasource_dupes.py:177-191 | the re-pointed array holds no loser id, no duplicate, exactly the image of the old elements, in the order of their earliest positions; an array without losers is untouched, duplicates included |
| `ArrayRepoint.RepointArrayCompose` | scripts/collapse_intrasource_dupes.py:323-328 | re-pointing batch by batch is re-pointing once by the united map |
| `EvidenceArchive.ArchiveConserved` | scripts/collapse_intrasource_dupes.py:330-352 | no archive row is dropped, copied or rewritten and no two meet at one signal |
| `EvidenceArchive.ArchiveElection` | scripts/collapse_intrasource_dupes.py:333-352 | a survivor that has a row keeps it; one that has none receives exactly one, which beats every other candidate on archived status, then latest archival, then id; the rest stays in place |
| `EvidenceArchive.ArchiveCounts` | scripts/collapse_intrasource_dupes.py:333-370 | re-pointed rows and rows left in place add up to the loser rows there were |
| `EvidenceArchive.ArchiveCompose` | scripts/collapse_intrasource_dupes.py:333-370 | archiving batch by batch over separate groups is archiving once |
| `CollapseBatch.Database.RepointLinks` | scripts/collapse_intrasource_dupes.py:266-282 | the links after step 1 are the re-pointed links, and the reported count is the rows that are new |
| `CollapseBatch.Database.RepointAliases` | scripts/collapse_intrasource_dupes.py:284-308 | both sides of an alias move, pairs that would become self-pairs are dropped, untouched pairs stay |
| `CollapseBatch.Database.RepointArrays` | scripts/collapse_intrasource_dupes.py:322-328 | the loop over the nine columns re-points every one of them |
| `CollapseBatch.Database.MoveArchive` | scripts/collapse_intrasource_dupes.py:330-370 | the sidecar and the mirrored content addresses after step 5, and its two counters |
| `CollapseBatch.Database.DeleteLosers` | scripts/collapse_intrasource_dupes.py:372-391 | the losers go with their arrays, every loser has a tombstone, and existing tombstones are kept |
| `CollapseBatch.Database.ApplyBatch` | scripts/collapse_intrasource_dupes.py:244-391 | the seven steps together take the tables to a `Collapsed` image under the batch mapping, and the counters are the sizes of what changed |
| `CollapseLaws.CollapsedCompose` | scripts/collapse_intrasource_dupes.py:458-517 | two batches over separate groups leave exactly what one batch over both would have left, in every table |
| `CollapseLaws.NoReferenceToDeleted` | scripts/collapse_intrasource_dupes.py:266-391 | no link, alias, canonical pointer or id array names a deleted signal, and each deleted signal has a tombstone |
| `CollapseLaws.NoNewSelfAlias` | scripts/collapse_intrasource_dupes.py:284-308 | an alias from a signal to itself is there afterwards only if it was there before |
| `CollapseLaws.CanonicalPointersFollow` | scripts/collapse_intrasource_dupes.py:310-320 | a pointer to a loser names its survivor, except in that survivor, where it is cleared; every other pointer is kept |
| `CollapseLaws.SurvivorsMirrored` | scripts/collapse_intrasource_dupes.py:354-366 | a survivor whose archive row has a content address carries one; no address already there is overwritten |
| `DuplicateGroups.ElectSpec` | scripts/collapse_intrasource_dupes.py:204-216 | the newest row by time and then id survives, the keep-set is held, and the rest are losers: a partition without repeats |
| `DuplicateGroups.SurvivorUnique` | scripts/collapse_intrasource_dupes.py:204-216 | the newest row is the only one the election can return |
| `DuplicateGroups.MappingIsSubstitution` | scripts/collapse_intrasource_dupes.py:485-493 | over any groups the mapping has disjoint domain and range: no survivor is a loser anywhere |
| `DuplicateGroups.MappingsApart` | scripts/collapse_intrasource_dupes.py:485-493 | mappings of disjoint groups share no id, and the mapping of both is their union |
| `DuplicateGroups.UntouchedGroup` | scripts/collapse_intrasource_dupes.py:161-172 | a group that lost no row is elected as before |
| `DuplicateGroups.OtherGroupUnchanged` | scripts/collapse_intrasource_dupes.py:146-159 | collapsing some groups changes no other group: its rows, losers, held rows, and whether it is a duplicate group |
| `DuplicateGroups.NextFetch` | scripts/collapse_intrasource_dupes.py:149-159 | behind the keyset cursor the next fetch over the changed table is the next stretch of the groups there were at the start |
| `DuplicateGroups.PlanBatch` | scripts/collapse_intrasource_dupes.py:473-493 | the batch mapping, the losers in order, the held count and the groups counted, from the rows fetched |
| `CollapseRun.NextBatch` | scripts/collapse_intrasource_dupes.py:458-504 | what a batch fetches and plans in the middle of a run is what the original tables would have given |
| `CollapseRun.BatchApplied` | scripts/collapse_intrasource_dupes.py:506-514 | one more applied batch extends the single-batch image of the run so far |
| `CollapseRun.LosersListed` | scripts/collapse_intrasource_dupes.py:509-517 | the ids a run reports as deleted are the domain of its mapping, each once |
| `CollapseRun.Run` | scripts/collapse_intrasource_dupes.py:422-521 | groups seen, held count and reported ids are functions of the tables at the start, the restrictions, the batch size and the limit; dry-run and apply report the same; apply leaves the image under the accumulated mapping, dry-run changes nothing; it terminates |
| `CollapseRun.SettledGroup` | scripts/collapse_intrasource_dupes.py:146-148 | a visited group ends as its survivor and its held rows, elects the same survivor again and has no loser |
| `CollapseRun.SecondRunIsNoop` | scripts/collapse_intrasource_dupes.py:146-148 | a second run over a fully collapsed table visits no new group, reports nothing and changes nothing |
| `CollapseMeaning.GroupsAre` | scripts/collapse_intrasource_dupes.py:149-159 | a group is visited if and only if its hash is not empty, it meets the restrictions, and two rows share source, hash and tenant |
| `CollapseMeaning.GroupsInOrder` | scripts/collapse_intrasource_dupes.py:149-159 | groups are visited each once in the order of source, hash and tenant |
| `CollapseMeaning.RunPairsAre` | scripts/collapse_intrasource_dupes.py:204-216 | loser and survivor of a run share source, hash and tenant, the hash is not empty and the restrictions are met, the loser's retention class holds it back in no case, and the survivor was fetched last of all rows of that content, the larger id deciding |
| `CollapseMeaning.RunLosersAreAll` | scripts/collapse_intrasource_dupes.py:204-216 | conversely a row of a visited group that another one of it was fetched after is a loser unless its retention class is `retain_always` or `evidence_hold` |
| `CollapseMeaning.HeldCounted` | scripts/collapse_intrasource_dupes.py:481-484 | the held count is the number of rows of the visited groups that only their retention class saves |
| `CollapseMeaning.ReportedInOrder` | scripts/collapse_intrasource_dupes.py:485-517 | deleted ids are reported group by group, in each the latest fetched first |
| `CollapseMeaning.LinksAre` | scripts/collapse_intrasource_dupes.py:266-282 | a link is there afterwards if and only if one with its entity and role was there at its signal or at a loser of it; old links keep their contents and new ones have a loser's |
| `CollapseMeaning.AliasesAre` | scripts/collapse_intrasource_dupes.py:284-308 | the aliases are the images of all there were, less the pairs a loser was in and whose two sides became one |
| `CollapseMeaning.AliasContents` | scripts/collapse_intrasource_dupes.py:287-301 | an alias that was there keeps its contents, a new one has those of an alias of a loser |
| `CollapseMeaning.SignalsAre` | scripts/collapse_intrasource_dupes.py:310-376 | exactly the losers are gone; of a signal that is left only the canonical pointer and a missing content address can have changed, and to what |
| `CollapseMeaning.ArraysAre` | scripts/collapse_intrasource_dupes.py:175-192 | the arrays of deleted signals go with them, every other array is there, and one without a loser is as it was |
| `CollapseMeaning.ArrayIds` | scripts/collapse_intrasource_dupes.py:175-192 | an array holds the ids it held, each loser as its survivor, and no others |
| `CollapseMeaning.ArrayOrder` | scripts/collapse_intrasource_dupes.py:175-192 | in an array with a loser the ids stand once each in the order of their first appearance |
| `CollapseMeaning.ArchiveAre` | scripts/collapse_intrasource_dupes.py:333-352 | a survivor keeps its archive row, or takes that of the loser that is archived before not, then archived later, then of smaller id |
| `CollapseMeaning.ArchiveElsewhere` | scripts/collapse_intrasource_dupes.py:333-352 | every other archive row stays where and as it was |
| `CollapseMeaning.TombstonesAre` | scripts/collapse_intrasource_dupes.py:386-391 | every loser has a tombstone; an old one keeps index and reason, a new one has the given index and `intrasource_collapse` |
| `MergePlan.SurvivorBeatsAll` | scripts/gen_entity_merge_migration.py:238-245 | every other member has fewer links, or as many and a later creation, or the same creation and a larger id |
| `MergePlan.ElectedIsTotal` | scripts/gen_entity_merge_migration.py:238-245 | the election order is a strict total order on rows with distinct ids |
| `MergePlan.SurvivorClassSpec` | scripts/gen_entity_merge_migration.py:332-364 | the class is what the canon settles, else that of a seed with the most links, else the survivor's own, and never one that lands in a slot a protected row holds |
| `MergePlan.GeoDonorSpec` | scripts/gen_entity_merge_migration.py:280-316 | a donor is found exactly when the name denotes a country and some loser has both coordinates in it; the smallest id wins |
| `MergePlan.GeoAgreesWithName` | scripts/gen_entity_merge_migration.py:280-316 | a frozen geo row carries the country the survivor's own name denotes and both coordinates of one loser in that country |
| `MergeDraft.DecideShape` | scripts/gen_entity_merge_migration.py:459-555 | a cluster's decision names all its mergeable rows or none, never a protected one; a merge has a survivor with the most links and at least one loser |
| `MergeDraft.ClusterRoles` | scripts/gen_entity_merge_migration.py:459-555 | the decision of its cluster settles the role of every row |
| `MergeDraft.DraftTallied` | scripts/gen_entity_merge_migration.py:459-592 | the accumulated lists, maps and counters are exactly the rows of each role, each listed once, and the records of each cluster |
| `Ordering.TextOrder` | scripts/gen_entity_merge_migration.py:238-245 | ids, names and times are compared as texts: one is less than those it is a proper beginning of, and than those with a greater character where the two first differ |
| `ListOrder.MinBy` | scripts/gen_entity_merge_migration.py:238-245 | the loop over a list returns its least element under a total order, whatever order the list is in |
| `ListOrder.SortBy` | scripts/gen_entity_merge_migration.py:631-642 | the sorted list is the one ascending listing of its elements |
| `ClusterDecision.Elect` | scripts/gen_entity_merge_migration.py:238-245 | choosing from the list of members elects the survivor of the set of members |
| `ClusterDecision.ElectClass` | scripts/gen_entity_merge_migration.py:332-364 | the class found by looking through the list for seeds is that of the set of rows |
| `ClusterDecision.PickDonor` | scripts/gen_entity_merge_migration.py:280-316 | the donor found in the list of losers is that of the set of losers |
| `ClusterDecision.ProtectRows` | scripts/gen_entity_merge_migration.py:367-393 | the protected rows are those on a surface with a country row and a location row of at least three links each; the shared surfaces come out in order |
| `ClusterDecision.TopTwo` | scripts/gen_entity_merge_migration.py:408-414 | the balance test on the sorted totals asks for two classes with the largest totals, the second at least half the first, however ties are sorted |
| `ClusterDecision.CheckHomonym` | scripts/gen_entity_merge_migration.py:396-414 | the loop over class totals decides the homonym test of the row set |
| `ClusterDecision.MoreLinksIsTotal` | scripts/gen_entity_merge_migration.py:480-483 | listing rows best-linked first, then by id, is a strict total order on rows with distinct ids |
| `ClusterDecision.DecideCluster` | scripts/gen_entity_merge_migration.py:465-555 | the branches over lists, with elections, filters and losers taken from lists, decide as the set of members does; a homonym hold lists its surfaces in order and its rows best-linked first |
| `BuildPlan.CollectLosers` | scripts/gen_entity_merge_migration.py:550-560 | the losers are appended in the order of their ids, each under its survivor, and their links are summed |
| `BuildPlan.CollectMerge` | scripts/gen_entity_merge_migration.py:544-592 | a merge adds its losers, its geo, its rewrite and its sample to the lists, and each list still has every key once |
| `BuildPlan.TargetsClash` | scripts/gen_entity_merge_migration.py:620-629 | the loop that remembers which survivor wants which slot finds a clash exactly when two survivors want one |
| `BuildPlan.CheckPartition` | scripts/gen_entity_merge_migration.py:594-629 | the checks on the lists name the first violation of the plan they list |
| `BuildPlan.Emit` | scripts/gen_entity_merge_migration.py:631-642 | the emitted lists are the collected ones, each sorted by its key |
| `BuildPlan.GroupRows` | scripts/gen_entity_merge_migration.py:440-446 | every row lands in the cluster of its fold, or alone under its id when the fold is empty |
| `BuildPlan.OnlyTargetsCanClash` | scripts/gen_entity_merge_migration.py:594-629 | for distinct ids the seven partition checks never fire; the only abort left is two survivors wanting one slot |
| `BuildPlan.PlanTallied` | scripts/gen_entity_merge_migration.py:440-642 | the plan lists exactly the rows of each role |
| `BuildPlan.Build` | scripts/gen_entity_merge_migration.py:440-642 | the planner emits the plan of its rows taken as a set: every list sorted by its key, each record with its own member list sorted, all counts and samples; or it aborts exactly when two survivors would be rewritten to one slot |
| `BuildPlan.EmissionIsUnique` | scripts/gen_entity_merge_migration.py:631-642 | a plan is emitted in one way only: every list, member list, count and sample is determined |
| `BuildPlan.OrderNeverShows` | scripts/gen_entity_merge_migration.py:440-642 | two answers for the same set of rows are equal, so the order of the export never shows |
| `PlanMeaning.ClusterAre` | scripts/gen_entity_merge_migration.py:440-446 | a cluster is the rows of one fold, or a single row without one |
| `PlanMeaning.OutcomeIs` | scripts/gen_entity_merge_migration.py:452-465 | single rows without a fold are left alone, every other cluster is decided |
| `PlanMeaning.ProtectedAre` | scripts/gen_entity_merge_migration.py:367-393 | a row is set aside if and only if it is a country or a location with three links and a row of the other class with as many has its name up to case and outer white space |
| `PlanMeaning.ContentJunkIsJunked` | scripts/gen_entity_merge_migration.py:145-161 | rows that are all flagged and hold markup or are longer than two characters stripped are junked; a single row is junked for nothing else |
| `PlanMeaning.SweptWhenShownJunk` | scripts/gen_entity_merge_migration.py:248-277 | a cluster is swept to junk if and only if the name it would be shown under, or that without its article, is flagged, holds no markup and is longer than two characters |
| `PlanMeaning.HeldWhenSplit` | scripts/gen_entity_merge_migration.py:396-414 | a cluster is held for review if and only if its shown name is one word without a class, it has more than fifty links, and the second of its two largest classes has at least half the links of the first |
| `PlanMeaning.OtherwiseMerged` | scripts/gen_entity_merge_migration.py:507-555 | every other contested cluster is merged onto its best row, under the canon's display of its name or, when that is empty or junk, its own name stripped |
| `PlanMeaning.ClassIs` | scripts/gen_entity_merge_migration.py:332-364 | the class is the canon's, else that of the best seed, else the survivor's own, and the survivor's own where a row set aside holds the wanted one under that name |
| `PlanMeaning.GeoIs` | scripts/gen_entity_merge_migration.py:280-316 | a geo row is frozen if and only if a loser with both coordinates lies in the country the shown name denotes and the survivor lacks coordinates, country or a region that loser has; it is that of the smallest id, under the name's country |
| `PlanMeaning.MergeIsListed` | scripts/gen_entity_merge_migration.py:550-592 | every loser is listed under its survivor, and a rewrite exactly when name or class changes |
| `PlanMeaning.JunkIsListed` | scripts/gen_entity_merge_migration.py:467-523 | a row is listed as junk if and only if its cluster is junked and it is not set aside |
| `PlanMeaning.AbortsOnClash` | scripts/gen_entity_merge_migration.py:620-629 | the planner aborts if and only if two rewrites want one class under names that differ at most in case |
| `PlanMeaning.HomonymsAre` | scripts/gen_entity_merge_migration.py:476-492 | what a fold holds back as homonyms, and the names they share |
| `PlanMeaning.TokensAre` | scripts/gen_entity_merge_migration.py:526-541 | a fold is held for review in the plan exactly when it is decided so, with its shown name and its rows |
| `PlanMeaning.SweepsCounted` | scripts/gen_entity_merge_migration.py:512-523 | the swept folds are counted once each |
| `PlanMeaning.SamplesAre` | scripts/gen_entity_merge_migration.py:581-592 | the samples are the first twenty merges in the order of their folds |
| `PlanMeaning.MergesEmitted` | scripts/gen_entity_merge_migration.py:631-642 | the emitted merges are exactly the pairs of the plan, in the order of the losers' ids |
| `PlanMeaning.HomonymsEmitted` | scripts/gen_entity_merge_migration.py:480-487 | the homonyms are emitted fold by fold, the rows best-linked first, the shared names in order |
| `PlanMeaning.TokensEmitted` | scripts/gen_entity_merge_migration.py:631-642 | so are the clusters held for review, each under the name it would be shown under |
| `PlanMeaning.SamplesEmitted` | scripts/gen_entity_merge_migration.py:581-592 | a sample shows fold, survivor, name and class of its merge, with the losers best-linked first |
| `PlanMeaning.RewritesEmitted` | scripts/gen_entity_merge_migration.py:631-642 | the emitted rewrites are exactly those of the plan, by the survivors' ids |
| `PlanMeaning.GeoEmitted` | scripts/gen_entity_merge_migration.py:631-642 | and so are the emitted geo rows |
| `PlanMeaning.JunkEmitted` | scripts/gen_entity_merge_migration.py:631-642 | junk is emitted by id, and the counts are those of the plan |
| `MergeFixpoint.PlanPartitions` | scripts/gen_entity_merge_migration.py:441-618 | every row is exactly one of junk, loser, survivor, held, protected and untouched, as the lists say; a loser goes to the survivor of its own cluster, which has at least as many links |
| `MergeFixpoint.JunkIsWarranted` | scripts/gen_entity_merge_migration.py:248-277 | no row is junked without cause: its own name is flagged and is markup or longer than an abbreviation, or that holds of the name the best-linked row of its fold would be shown under; short abbreviations never sweep a fold |
| `MergeFixpoint.ValuesAreSurvivors` | scripts/gen_entity_merge_migration.py:557-563 | the targets of the merge map are exactly the survivors, and every id in the plan is an id of the input |
| `MergeFixpoint.PlanIsSound` | scripts/gen_entity_merge_migration.py:594-629 | a plan that was not aborted meets every hypothesis of the migration's laws, on the table it was made from |
| `MergeMigration.EntityStore.Migrate` | scripts/gen_entity_merge_migration.py:667-1004 | the six steps in order take the tables to a `Migrated` image; the transaction fails exactly when there is nothing to merge or a link would be moved to a missing entity, and then changes nothing |
| `MergeMigration.LinksMoved` | scripts/gen_entity_merge_migration.py:838-844 | the insert of step 1 and the cascades of steps 4 and 6 together move each link once |
| `MergeLaws.MigrationPreserves` | scripts/gen_entity_merge_migration.py:838-1004 | foreign keys, the unique name and class slot, and unique versions not above the entity's own survive the migration |
| `MergeLaws.SlotsStayUnique` | scripts/gen_entity_merge_migration.py:984-998 | the unique slot index holds after any subset of the rewrites has been written, so in whatever order the rows are updated |
| `MergeLaws.NamesBeforeRewrite` | scripts/gen_entity_merge_migration.py:852-975 | the steps before the rewrite delete the losers and leave every other name and class alone |
| `MergeLaws.VersionStep` | scripts/gen_entity_merge_migration.py:931-968 | appending above the current version and then bumping to it keeps the version ledger unique and monotone |
| `MergeLaws.LinksAreTheImage` | scripts/gen_entity_merge_migration.py:838-844 | the surviving link keys are exactly the loser-to-survivor image of the links of non-junk entities |
| `MergeLaws.EntitiesLeft` | scripts/gen_entity_merge_migration.py:975-1004 | exactly the losers and the junk are gone |
| `MergeLaws.RowsDrop` | scripts/gen_entity_merge_migration.py:975-1004 | the row count drops by the number of losers and junk rows when all of them are there |
| `MergeLaws.ProvenanceKept` | scripts/gen_entity_merge_migration.py:852-881 | a deleted loser's name is among its survivor's aliases and its lineage in its survivor's; nothing the survivor had is lost |
| `MergeLaws.GeoNeverMixed` | scripts/gen_entity_merge_migration.py:900-921 | known geo values are kept, completeness never falls, and coordinates are the row's own pair or the frozen pair, the latter only where the row had neither and the countries do not disagree |
| `MigrationMeaning.LinksAre` | scripts/gen_entity_merge_migration.py:838-844 | a link is there afterwards if and only if one with its signal and role was there at its entity or at a loser of it, which is no junk |
| `MigrationMeaning.LinkContents` | scripts/gen_entity_merge_migration.py:838-844 | a link that was there keeps its contents, a new one has those of a loser's link |
| `MigrationMeaning.ProvenanceIs` | scripts/gen_entity_merge_migration.py:852-881 | lineage and aliases of a row are exactly its own and its losers' |
| `MigrationMeaning.GeoIs` | scripts/gen_entity_merge_migration.py:900-921 | what step 2b writes into coordinates, country, region and completeness of a survivor with a frozen row, and when it writes nothing |
| `MigrationMeaning.NamesAre` | scripts/gen_entity_merge_migration.py:975-1004 | exactly losers and junk are gone; a rewrite is written if and only if it changes something and no other row but a loser holds the wanted class under that name up to case |
| `MigrationMeaning.VersionsAre` | scripts/gen_entity_merge_migration.py:931-949 | the version rows are the old ones of the rows that are left and one, with its contents, for each survivor that had no merge row |
| `MigrationMeaning.VersionIs` | scripts/gen_entity_merge_migration.py:951-968 | a row's version goes up by one exactly with its merge row |
| `MergeRerun.EarlyStepsSettled` | scripts/gen_entity_merge_migration.py:781-788 | a second run finds nothing to do in its steps 2 to 4 |
| `MergeRerun.LinksSettled` | scripts/gen_entity_merge_migration.py:781-783 | a second run moves no link |
| `MergeRerun.AppliesAgain` | scripts/gen_entity_merge_migration.py:984-998 | a rewrite applies the second time exactly when it was blocked the first time by rows none of which stays and keeps its name |
| `MergeRerun.RerunIsNoop` | scripts/gen_entity_merge_migration.py:781-788 | a second run changes nothing if and only if every blocked rewrite has a blocker that the migration neither renames nor deletes |
| `MigrationRun.MigratePlanned` | scripts/gen_entity_merge_migration.py:675-677 | on the table its plan was made from the migration goes through if and only if some cluster is merged, and leaves the tables well formed; otherwise nothing changes |
| `MigrationRun.MigrateReplanned` | scripts/gen_entity_merge_migration.py:807-812 | under a stable canon a plan made after a migration fails and changes nothing, whatever junk it lists |
| `MigrationRun.LoneJunk` | scripts/gen_entity_merge_migration.py:675-703 | a table with one row of junk: the plan lists that row and nothing else, and merges nothing |
| `UnstableCanon.RerunCanChange` | scripts/gen_entity_merge_migration.py:781-788 | a table, and a plan the planner makes from that very table without aborting, whose second run changes the table: under a canon that shows a survivor by a name of another fold, one that is swept to junk |
| `UnstableCanon.PlanOfTable` | scripts/gen_entity_merge_migration.py:440-642 | what the planner makes of that table |
| `MergeFixpoint.KeysStay` | scripts/gen_entity_merge_migration.py:440-446 | when the names survivors are shown under fold as their stored names, no surviving row changes its cluster |
| `MergeFixpoint.NothingLeftToMerge` | scripts/gen_entity_merge_migration.py:440-642 | when the names survivors are shown under fold as their stored names, planning again on the migrated tables finds no merge, no rewrite and no geo, and does not abort, even where rewrites were blocked |
| `MergeFixpoint.TargetsNeverClash` | scripts/gen_entity_merge_migration.py:620-629 | when in addition names that differ only in case from one a survivor is shown under fold like it, the planner never aborts |
| `MergeFixpoint.PlanFreesNoSlot` | scripts/gen_entity_merge_migration.py:984-998 | under the same two conditions every blocker of a planned rewrite stays and keeps its name |
| `MergeFixpoint.PlannedRerunIsNoop` | scripts/gen_entity_merge_migration.py:781-788 | for a plan made from the table it runs on, under the same two conditions, the idempotence claim holds |
| `CanonicalBackfill.PlanBackfill` | scripts/backfill_entity_canonicalization.py:130-174 | the plan maps exactly the canonical slots that need a merge or a rename to all their rows, each once |
| `CanonicalBackfill.OldestBeatsAll` | scripts/backfill_entity_canonicalization.py:177-180 | the survivor is the oldest row, then the smallest id |
| `CanonicalBackfill.GuardedMoveRepoints` | scripts/backfill_entity_canonicalization.py:204-225 | the guarded update and the cascade of the delete move each link once |
| `CanonicalBackfill.CollectProvenance` | scripts/backfill_entity_canonicalization.py:193-202 | the markers and readable names gathered over a group |
| `CanonicalBackfill.ApplyGroup` | scripts/backfill_entity_canonicalization.py:183-277 | one group leaves its survivor renamed with everybody's provenance, the others deleted, every link on the survivor, and one version row |
| `BackfillLaws.SlotBelongsToGroup` | scripts/backfill_entity_canonicalization.py:141-152 | for an idempotent canonicalizer blind to name case, a row sitting in a canonical slot belongs to its group |
| `BackfillLaws.KeysKept` | scripts/backfill_entity_canonicalization.py:334-338 | no row changes its group during the run, and finished groups are canonical |
| `BackfillLaws.SlotIsFree` | src/legba/data/migrations/0035_entity_profiles_composite_key.sql:37-38 | when a group is renamed no row outside it holds the slot, so the unique index is never violated |
| `BackfillLaws.GroupPreserves` | scripts/backfill_entity_canonicalization.py:183-277 | each group keeps foreign keys, the unique slot index and the version ledger |
| `BackfillLaws.ApplyAll` | scripts/backfill_entity_canonicalization.py:335-338 | the groups in any order take the tables to the image of all groups, well formed |
| `BackfillLaws.OneRowLeft` | scripts/backfill_entity_canonicalization.py:141-174 | each canonical slot ends with one row, and that row is canonical |
| `BackfillLaws.NothingLeftToCanonicalize` | scripts/backfill_entity_canonicalization.py:341-344 | the post-check comes back empty: planning on the result finds no group |
| `BackfillLaws.MemberFolded` | scripts/backfill_entity_canonicalization.py:193-258 | every member's links, lineage, id and former name are on the survivor; the other members are gone |
| `BackfillMeaning.PlannedWhen` | scripts/backfill_entity_canonicalization.py:141-174 | a place is planned if and only if several rows belong there or its one row is not what the canonicalizer makes of it |
| `BackfillMeaning.PlannedRows` | scripts/backfill_entity_canonicalization.py:141-174 | the plan holds for it exactly the rows that belong there, each once |
| `BackfillMeaning.AllCanonical` | scripts/backfill_entity_canonicalization.py:341-344 | for every row that is left the canonicalizer returns its name and class, or strips the name away |
| `BackfillMeaning.RowEnds` | scripts/backfill_entity_canonicalization.py:177-180 | a row ends in the oldest row of its place, the smaller id deciding, and is left only if it is that row |
| `BackfillMeaning.EndTogether` | scripts/backfill_entity_canonicalization.py:183-277 | two rows end in one row if and only if they belong in one place; that row is left, holds the place, and carries lineage, links, id and former name of both |
| `BackfillMeaning.RowLeft` | scripts/backfill_entity_canonicalization.py:193-258 | a row that is left is as it was, or named as a row of its place is canonicalized, one version up, and with exactly the lineage, ids, names and markers of that place |
| `BackfillMeaning.VersionsLeft` | scripts/backfill_entity_canonicalization.py:260-277 | the version rows are the old ones of the rows that are left and one, with its contents, for each planned place |
| `BackfillMeaning.LinksLeft` | scripts/backfill_entity_canonicalization.py:204-225 | a link is there afterwards if and only if one with its signal and role was there at a row of the same place |
| `LegalPath.FindLegalPath` | scripts/_p17_registrar.py:55-78 | terminates on any finite relation; None exactly when the target is unreachable, otherwise a walk along allowed hops of minimum length that repeats no state |
| `LegalPath.FirstMeetingIsShortest` | scripts/_p17_registrar.py:64-78 | the first time the search meets the target it has found a shortest walk |
| `LegalPath.ExhaustedMeansUnreachable` | scripts/_p17_registrar.py:66-78 | an empty queue means the target is unreachable |
| `LegalPath.ShortestRepeatsNothing` | scripts/_p17_registrar.py:55-63 | a shortest walk visits no state twice, its start included |
| `Lifecycle.PermittedAre` | src/legba/data/schemas/lifecycle.py:28-34 | an update may keep the state, retire any state, configure a draft and draft it again, activate what is configured or paused, and pause what is active |
| `Lifecycle.LifecycleReach` | src/legba/data/schemas/lifecycle.py:28-34 | a lifecycle state is reachable exactly as listed: anything from draft and configured, active and paused never go back before themselves, nothing leaves retired |
| `Lifecycle.ShortestIsRoute` | src/legba/data/schemas/lifecycle.py:28-34 | the shortest walk between two states is unique, so the iteration order of the successor sets cannot show, and it never passes through retired |
| `DescriptorRegistry.Registry.Register` | src/legba/data/registry/descriptor.py:334-403 | registers an id that has no head and refuses one that has with a version conflict, whatever other writers do around it |
| `DescriptorRegistry.Registry.Update` | src/legba/data/registry/descriptor.py:509-678 | the exact effect, reply and head move of an update around another writer's interventions and its own failures, for any state columns; every move it makes was declared along a permitted transition |
| `DescriptorRegistry.UpdateInRows` | src/legba/data/registry/descriptor.py:557-631 | what an update does row by row: it goes through unless it fails first, the hop is not allowed, or another writer has changed head or state; then its version is the head, no row is altered, and a missing one is inserted in the declared state |
| `DescriptorRegistry.MoveIsLegal` | src/legba/data/registry/descriptor.py:557-631 | when an update moves the head, and to which state; that move is a permitted transition if and only if the version was not stored under another state, or that state is itself permitted |
| `DescriptorRegistry.PausedVersionIsPromoted` | src/legba/data/analysts/deterministic_handlers/entity_gc.py:520-537 | a version paused in place and rolled back from, declared again, moves the head from configured to paused, which is no permitted transition |
| `DescriptorRegistry.QuietUpdate` | src/legba/data/registry/descriptor.py:557-631 | undisturbed, an update is refused exactly when the hop is not allowed; otherwise its version is the head, in the state of its column, and the history only grew |
| `DescriptorRegistry.GrownKeepsColumn` | src/legba/data/registry/descriptor.py:597-631 | growing the history changes the state no document would be promoted in |
| `Registrar.WalkTo` | scripts/_p17_registrar.py:157-160 | the walk ends with the first call that does not land; history, reply and moves are those of `Walking`, whatever the turns |
| `Registration.QuietWalking` | scripts/_p17_registrar.py:189-197 | undisturbed, a walk lands exactly the steps before the first one that is not allowed from the column of the version before it; the rows, the head and the moves it leaves are fixed |
| `Registrar.RegisterDescriptor` | scripts/_p17_registrar.py:121-208 | history, report and moves are those of `Registering` for every starting history and all turns around it, and meet the promises below; no other id is touched |
| `Registration.RegistrationKeeps` | scripts/_p17_registrar.py:121-208 | in every run, disturbed or cut short, each report's promise about the head and the moves holds, every move was declared along an allowed hop, and a lost race leaves the history of the writer it was lost to and names its head |
| `Registration.QuietRun` | scripts/_p17_registrar.py:139-197 | left alone once it has read the head, a run has one outcome for every starting history, in-place pauses included: the report, the head, every row, and every move |
| `Registration.QuietMovesLegal` | scripts/_p17_registrar.py:139-197 | the moves of such a run are permitted transitions if and only if each landed step that moves the head comes to a column permitted from where the head was |
| `Registration.RunIsLegal` | scripts/_p17_registrar.py:139-208 | in every run, disturbed or cut short, every move is a permitted transition as long as no version of the descriptor is there, or is brought in, under another state than its own |
| `Registration.LostRaceIsUnchanged` | scripts/_p17_registrar.py:198-203 | a run with one intruder loses the race if and only if it gets as far as the call the intruder gets into and that call finds another head or state; then the intruder's history stands, is reported as unchanged, and exactly the steps before have moved the head |
| `Registration.UpdatedReachesDeclaredState` | scripts/_p17_registrar.py:169-197 | an updated head is the declared document in the state of its column, which is the declared state if and only if the version was not stored under another one |
| `Registration.UpdateCompletes` | scripts/_p17_registrar.py:169-197 | a registration ends in an update if and only if it is not settled, a legal path exists, and every version strictly inside it would come up in a state the next hop is allowed from |
| `Registration.PausedHeadStaysPaused` | src/legba/data/analysts/deterministic_handlers/entity_gc.py:520-537 | a head at the declared document that was paused in place is reported as updated and stays paused |
| `Registration.StaleVersionIsRevived` | src/legba/data/registry/descriptor.py:597-631 | a history for which an update of an active head to an active descriptor is reported as updated and leaves the head retired |
| `Registrar.RegistrationSettles` | scripts/_p17_registrar.py:139-197 | where the lifecycle allows it and no version of the descriptor is stored under another state, registering settles the head at the declared document and state; what was settled is unchanged and untouched |
| `Registrar.SecondIsUnchanged` | scripts/_p17_registrar.py:130-167 | a second call reports unchanged, and changes nothing, if and only if the first registered the descriptor, found it settled, or updated it to a version that was not stored under another state |
| `Registrar.RegisterTwice` | scripts/_p17_registrar.py:121-208 | the same over two calls on the registry; a new id is registered exactly when its declared state can be reached from where it lands |
| `SourceCatalog.RegisterCatalog` | scripts/bringup_register_source_catalog.py:731-764 | the run itself moves no head it found paused or retired and none outside the catalog, whatever writers do to the entries while they are registered; the former are reported as preserved; every other entry left alone once it is read is registered from where it was then; every move is a permitted transition where no version of an entry is stored under another state |
| `SourceCatalog.SwitchedOffIsPreserved` | scripts/bringup_register_source_catalog.py:752-761 | a source whose head is paused or retired at the bulk read keeps its history, none of the run's moves is its, and it is reported as preserved |
| `SourceCatalog.OthersEndActive` | scripts/bringup_register_source_catalog.py:745-763 | every other source nobody interferes with ends active at its declared document, as long as no version of it is stored under another state than its own and the registry does not land it retired; it is reported registered exactly when it is new, unchanged exactly when its head was that version, updated otherwise |
| `SourceCatalog.LateSwitchOff` | scripts/bringup_register_source_catalog.py:722-728 | a source switched off between the bulk read and its own turn is active afterwards if and only if it was paused and the declared version is not stored under another state; a retired one stays, and so does one whose head is the declared version |
| `SourceCatalog.GuardSeesBulkReadOnly` | scripts/bringup_register_source_catalog.py:745-763 | the same for any entry of a run over the catalog |
| `SourceCatalog.PausedSourceIsRevived` | scripts/bringup_register_source_catalog.py:722-728 | a run over a catalog of one source, paused after the bulk read, that ends with the new document active |
| `CronSchedule.ConstantPeriod` | scripts/bringup_register_source_catalog.py:582-598 | some phase makes the schedule fire at exactly the minutes congruent to it modulo the cadence if and only if the cadence divides the hour, or is a number of hours dividing the day; then the phase is the remainder of the digest by the cadence, or by the hour and by the number of hours |
| `CronSchedule.DividingCadenceIsPeriodic` | scripts/bringup_register_source_catalog.py:587-598 | for a dividing cadence the schedule fires at minute `t` if and only if `t` is congruent to the stagger, for every `t` of an unbounded timeline |
| `CronSchedule.FiresAt` | scripts/bringup_register_source_catalog.py:587-598 | when the schedule of any cadence fires, dividing or not |
| `PromptText.CleanIsLinewise` | scripts/gen_descriptor_prompt_manifest.py:77-78 | splitting, stripping each line and joining is one pass that drops a space when nothing of its line is left behind it |
| `PromptText.CanonicalIsFixed` | scripts/gen_descriptor_prompt_manifest.py:77-78 | the fixed points of the normalization are exactly the texts with tidy lines, no space at either end and one final line feed |
| `PromptText.NormalizeIsCanonical` | scripts/gen_descriptor_prompt_manifest.py:77-78 | every normalized text is such a text |
| `PromptText.NormalizeIsIdempotent` | scripts/gen_descriptor_prompt_manifest.py:77-78 | normalizing twice is normalizing once |
| `PromptText.TrailingSpaceIsIgnored` | scripts/gen_descriptor_prompt_manifest.py:69-75 | white space before any line end or the end of the text does not change the result |
| `PromptText.LineEndsAreIgnored` | scripts/gen_descriptor_prompt_manifest.py:77-78 | a text with any mixture of line ends normalizes as its LF rendering |
| `PromptText.SurroundingSpaceIsIgnored` | scripts/gen_descriptor_prompt_manifest.py:77-78 | blank lines and other white space around the text do not change the result |
| `PromptText.NormalizeKeepsVisible` | scripts/gen_descriptor_prompt_manifest.py:77-78 | the normalization drops and adds nothing but white space |
| `MatrixSplice.MarkersAreSensible` | scripts/gen_release_state_matrix.py:58-59 | the real markers meet what the results below ask of markers: an end marker that is one line of text |
| `MatrixSplice.RenderSucceeds` | scripts/gen_release_state_matrix.py:199-206 | rendering succeeds exactly when an end marker follows the first begin marker, and complains of a missing marker exactly when one of the two occurs nowhere |
| `MatrixSplice.RenderReplaces` | scripts/gen_release_state_matrix.py:205-208 | the text up to the first begin marker and from the first end marker behind it is kept |
| `MatrixSplice.RenderForgets` | scripts/gen_release_state_matrix.py:205-208 | rendering over a rendered document is rendering over the original, when the first table holds no end marker |
| `MatrixSplice.CheckAfterWrite` | scripts/gen_release_state_matrix.py:221-241 | a check right after a write succeeds if and only if the table holds no end marker |
| `MatrixSplice.MarkInTableGrows` | scripts/gen_release_state_matrix.py:205-208 | a table that holds an end marker makes the document longer with every run |

## Left out

- Database, HTTP and message plumbing, argument parsing, printing, samples on the console, report Markdown and the reference counts of the dry run: input and output without an invariant.
- The fold, canon and junk gazetteers, the country lookups, the content hash, the digest and the derived marker ids: function values with stated hypotheses.
- `updated_at` and the other columns that are copied along unchanged: a link's or an alias's remaining columns are one value.
- Concurrent writers during the collapse, the migration and the backfill: each runs in transactions over tables that nobody else changes. The registrar is modelled with other writers, who act on the id at hand between its steps.
- CollapseBatch.Database.ApplyBatch: the counters of deleted links and aliases, canonical and array updates, mirrored addresses and tombstones are not modelled; each is the size of a set the relation fixes.
- Cycles of canonical pointers: collapsing two rows can close one, and it can put a survivor's id into its own `derived_from`; the code does not prevent either.
- BuildPlan.Build: reading the export (trimming the class, id and time columns, parsing numbers) happens before the rows the model starts from, and the rendering of the lists as SQL text after them.
- ClusterDecision.CheckHomonym: the balance is decided on integers, twice the second total against the first; the script divides floating-point numbers, which agrees below 2^52 links.
- MergeMigration.EntityStore.Migrate: the migration runner's ledger, and rows added between the freeze and the run beyond what the hypotheses of each law allow, are not modelled; a violated foreign key and an empty merge list roll the transaction back, the unique index being proved never to.
- Registrar.RegisterDescriptor: reads of the head do not fail in the model, nobody writes between a lost race and the reading of the head it reports, the markers that the pausing jobs leave in a stored text are not modelled since nothing here reads them, and neither is the other families' state machine (collections).
- SourceCatalog.RegisterCatalog: other writers act on an entry while it is being registered; what they do to other ids meanwhile is not modelled, so for the ids left alone the table part of the result speaks of the run itself.
- Ids, versions and bodies of descriptors are numbers in the registry model, since they are only compared; a version printed as a placeholder is None.
- CronSchedule.ConstantPeriod: an hour range that starts past 23, which a cadence of more than a day can give, matches no hour in the model; a negative cadence is not modelled.
- PromptText.NormalizeIsIdempotent: which characters count as white space is a parameter known to include the two line ends.
- The table between the markers is a parameter; parsing the panel registry is not part of this model.
- Edge confidence in the graph backfill, the credibility seeds, tag merging and budgets: no claim that holds, or none that needs a proof.
