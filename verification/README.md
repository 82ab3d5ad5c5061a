# Modelia: a verified model of its core

Modelia turns an editable UML class model into a relational schema and then into
generated code, exchanges it as XMI, and lets several people and an assistant edit it at
once. This project models the deterministic core of that pipeline and the protocols around
it, over one shared model datatype (`Uml.Model`), and proves what they promise.

Where the program computes with loops over lists, dictionaries and drafts, the model has
methods with the same loops, or classes with the same fields, each proved equal to a
specification function; the theorems are about those functions.

- **Relational compiler**: `Hierarchy`, `ParentMaps`, `Trees`, `Naming`, `Profiles`, `Schema`,
  `Mapper` (the specification), `MapperLoops` (the loops over table drafts), `MapperSound`,
  `MapperColumns`, `MapperTheorems`, `MapperAcceptance`; what stored links mean in `Links`,
  `LinkStorage`, `LinkMeaning`, and what a diagram says about them in `DiagramLinks`; what the
  generator accepts in `Generator`.
- **Commands and documents**: `Commands`, `Documents` (the gates), `DocumentRows` (the row),
  `DocumentRuns` (invariants over runs), `DefaultSorts`, `SortResolution`, `StrandedSorts`,
  `StaleSorts`.
- **Assistant**: `Plans` (preview and confirm in every interleaving), `ConfirmRuns` (one request as
  a run), `Calls`, `Translator`, `Shorthand`, `ImageExtraction`, `ImageTheorems`, `Reconcile` (the
  diff), `ReconcileLoops` (its loops) and the chain from `ReconcileMembers` to `ReconcileExact`,
  which follows the commands of a diff through the translation, the gates and the handlers;
  `SharedGeneralizations` is a concrete case.
- **XMI**: `Xml`, `XmiNames`, `XmiExport`, `XmiImport` (the specifications), `XmiWriter`, `XmiReader`
  (the loops), `XmiReads`, `XmiRoundTrip`, `XmiDiagrams`, `XmiTheorems`, `XmiStability`,
  `XmiReplace`, `Geometry`.
- **Node locks**: `Locks` (scripts and message handlers), `LockRuns` (every interleaving),
  `HandlerRuns` (the handlers as runs).

`dafny verify dfyconfig.toml` checks the whole project.

## Assumptions

- Ids the program draws at random are new (`IdsAreNew`, `RunIsFresh`, `AllNew`): in a run, a new
  id differs from every id in use. Class, attribute and relationship ids of a model are distinct
  where a theorem says so.
- `snake_case` is a partial function and `strip().casefold()` a function. Where a theorem needs
  names to convert, it says which (`NamesConvert`: the names of the model at hand). The rendering
  of element ids in XMI is injective on the ids of a document.
- A transaction under the row lock, a Redis script and a cache call are one atomic step each.

## What the proofs show about the code

- A generalization that is in the document and in the extraction makes every confirmation
  fail: the diff compares with the printed record of a multiplicity, so it always sends both
  multiplicities, which the gate refuses for generalizations (`ReconcileShows.BatchPasses`). An
  unchanged drawing of two classes and one generalization is enough
  (`SharedGeneralizations.UnchangedDrawingIsRefused`).
- The schema does not keep an upper bound of 0, which the multiplicity rule accepts, nor any bound
  above 1, nor most lower bounds (`DiagramLinks.ForbiddenLinkIsStored`, `UppersAreKept`);
  `DiagramLinks.StoredAsDrawnExactly` says exactly which relationships are stored as drawn.
- A `defaultSort` that was valid can lose its attribute when a generalization or a class between
  the two goes, and the manifest resolver then fails (`StaleSorts.CutStrandsSort` is a run);
  `StrandedSorts.StrandsExactly` says exactly which commands do that.
- A class named like a type of the XMI dialect takes over the attributes of that type
  (`XmiTheorems.ClassNamedIntIsNotPortable`).
- Hiding an empty association class that another association ends at leaves that association
  dangling (`XmiReplace.LinkedImportDangles`).
- The documentation of a batch speaks of one new revision; the code raises it once per command,
  and so does the model.

## Model

| member | source | states |
|---|---|---|
| Hierarchy.FirstCycle | backend/apps/relational_mapping/mapping/mapper.py:171-196 | cycle detection without its shared `visited` set: a returned tuple is a real parent cycle, and there is none exactly when every class's parent chain ends |
| Hierarchy.FindGeneralizationCycle | backend/apps/relational_mapping/mapping/mapper.py:171-196 | the loop with `path` and the shared `visited` set returns the same tuple: sharing the set never hides or changes a cycle, and both walks terminate |
| ParentMaps.HierarchyIsRelation | backend/apps/relational_mapping/mapping/mapper.py:124-154 | an accepted parent map is exactly the generalization relation |
| ParentMaps.HierarchyAccepts | backend/apps/relational_mapping/mapping/mapper.py:124-168 | the hierarchy stage succeeds exactly on single-parent acyclic models |
| Trees.TreeMembers | backend/apps/relational_mapping/mapping/mapper.py:157-168 | a class lies in the list of a root (the root, then its breadth-first descendants) iff `_root_of` returns that root |
| Trees.TreesPartitionClasses | backend/apps/relational_mapping/mapping/mapper.py:157-168 | the lists over all roots hold every class exactly once |
| Trees.DescendantsBreadthFirst | backend/apps/relational_mapping/mapping/mapper.py:199-210 | the queue loop terminates and yields the levels of the tree in breadth-first order |
| Trees.FindRoot | backend/apps/relational_mapping/mapping/mapper.py:337-341 | the climb terminates on every class of an accepted hierarchy and ends at its root |
| Mapper.EndsHaveTables | backend/apps/relational_mapping/mapping/mapper.py:474-481 | every relationship endpoint of an accepted model finds its table |
| Naming.FreeName | backend/apps/relational_mapping/mapping/naming.py:44-63 | `unique_name` returns a name that is not taken, the preferred one whenever that is free |
| Naming.ProbesAreBounded | backend/apps/relational_mapping/mapping/naming.py:58-63 | for every finite taken set the numbered search ends within |taken| + 1 probes (injective suffixes, pigeonhole) |
| Naming.Probe | backend/apps/relational_mapping/mapping/naming.py:58-63 | the mutable-suffix loop stops at the least free suffix, within |taken| + 1 probes |
| Naming.FreeJoinName | backend/apps/xmi_interop/exporter.py:125-140 | `_unique_join_name` returns a free name, by the same search |
| MapperAcceptance.AcceptsExactly | backend/apps/relational_mapping/mapping/mapper.py:558-604 | among the models whose class, attribute, enumeration and used role names `snake_case` converts, mapping succeeds exactly on those without dangling ends, with single acyclic inheritance, parsing profiles and known enumerations |
| MapperTheorems.MappingIsWellFormed | backend/apps/relational_mapping/mapping/mapper.py:273-329 | a result has distinct table and enum names, distinct column names per table, the key and foreign-key columns present, and every foreign key pointing at the `id` of an existing table |
| MapperTheorems.AttributeHasOneColumn | backend/apps/relational_mapping/mapping/mapper.py:297-327 | every attribute of every class gives exactly one column, in its hierarchy root's table, nullable iff its class is not the root |
| LinkStorage.RelationshipIsStored | backend/apps/relational_mapping/mapping/mapper.py:454-539 | every relationship that is no generalization is stored in exactly one place: one key column with the placed constraints, or one join table |
| Links.PlacementIsOnePerEnd | backend/apps/relational_mapping/mapping/mapper.py:470-539 | the placement chosen from the multiplicities enforces exactly one partner per object at each end that is not many, whatever the ranges are |
| Links.CellsHoldExactly | backend/apps/relational_mapping/mapping/mapper.py:358-395 | a key column can hold exactly the link sets that are functional on its table, one-to-one if it is unique, total if it is NOT NULL |
| Links.PairsHoldExactly | backend/apps/relational_mapping/mapping/mapper.py:398-451 | a join table can hold every set of pairs of existing objects |
| Links.DecodeOfEncode | backend/apps/relational_mapping/mapping/mapper.py:454-539 | encoding a link set into key cells and decoding it returns the set |
| LinkMeaning.StorableIsHeld | backend/apps/relational_mapping/mapping/mapper.py:454-539 | for every relationship of every accepted model, hierarchies and any ranges included, the link sets its storage can hold: one partner per object where an end is not many, every row of the holding table linked where the key is NOT NULL |
| DiagramLinks.StoredAsDrawnExactly | backend/apps/relational_mapping/mapping/mapper.py:454-539 | the storage of a relationship holds exactly the link sets that kind, lower and upper bounds of both ends allow iff these can be expressed: upper bounds 1 or none, a lower bound of 1 only at the end the key refers to |
| DiagramLinks.UppersAreKept | backend/apps/relational_mapping/mapping/mapper.py:332-334 | nothing that is stored exceeds an upper bound iff each upper bound is 1 or unbounded: 0 is not kept, nor is any bound above 1 |
| DiagramLinks.LinksMeanWhatTheDiagramSays | backend/apps/relational_mapping/mapping/mapper.py:454-539 | in the schema of an accepted model, between two classes outside any hierarchy: exactly the link sets the diagram allows can be stored iff the relationship is expressible |
| DiagramLinks.ForbiddenLinkIsStored | backend/apps/uml_modeling/validation/rules/multiplicity.py:19-24 | a concrete association with the valid range `0..0` at both ends, whose key stores a link all the same |
| MapperLoops.MapTableForRoot | backend/apps/relational_mapping/mapping/mapper.py:273-329 | filling a mutable draft class by class and attribute by attribute gives the specified table |
| MapperLoops.StoreRelationships | backend/apps/relational_mapping/mapping/mapper.py:454-539 | changing the drafts in place, relationship by relationship, gives the specified drafts, or the first error |
| MapperLoops.CollectProfiles | backend/apps/relational_mapping/mapping/mapper.py:86-106 | the loop over the metadata fills exactly the two profile indexes, and fails iff some entry does not parse at its level |
| MapperLoops.MapModel | backend/apps/relational_mapping/mapping/mapper.py:558-604 | the whole pipeline over mutable drafts computes the specified relational model, or the specified error |
| Generator.RejectOutOfScope | backend/apps/spring_generator/emit/errors.py:220-249 | the check loops raise nothing iff the table has the generator's shape, and otherwise report the first violated rule at the first entry that violates it, in the fixed order of the checks |
| Generator.RejectMalformedInheritance | backend/apps/spring_generator/emit/errors.py:152-217 | the inheritance checks raise nothing iff discriminator, owners and keyed columns fit, and otherwise report the first rule and entry that do not |
| Generator.ReportIsUnique | backend/apps/spring_generator/emit/errors.py:152-249 | a table has at most one such report, so the reported error is determined |
| Profiles.ReadCrud | backend/apps/relational_mapping/mapping/profile_parser.py:57-79 | the loops over the listed operations give them in canonical order, or the first rule they break: unknown names before repeated ones |
| Generator.MappedTablesAreInScope | backend/apps/spring_generator/emit/errors.py:152-249 | every table the mapper produces passes `reject_out_of_scope` |
| Generator.BuildFieldsForOwner | backend/apps/spring_generator/emit/inheritance_context.py:73-109 | the loop selects exactly the columns that belong to the owner, in column order |
| Generator.MappedHierarchiesArePartitioned | backend/apps/spring_generator/emit/inheritance_context.py:73-109 | in a mapped hierarchy table every column but the discriminator is a field of exactly one generated class, once |
| Multiplicities.ParseOfFormat | backend/apps/uml_modeling/domain/types.py:51-88 | parsing a formatted multiplicity returns the original for every integer pair and the unbounded upper, negative and inverted ranges included |
| Multiplicities.ReformatIsStable | backend/apps/uml_modeling/domain/types.py:51-88 | whatever text was accepted, formatting its range gives a text that reads as the same range |
| Commands.PruneGenerationMetadata | backend/apps/uml_commands/handlers/generation_profile.py:49-99 | the copy-and-flag loop drops exactly the removed ids and the sorts that named them, and nothing else |
| Documents.DescendantClassIds | backend/apps/uml_documents/services.py:279-293 | the worklist terminates on every graph, cyclic ones included, and finds exactly the transitive children |
| Documents.ValidateGenerationProfile | backend/apps/uml_documents/services.py:304-344 | the gate with its collected set of allowed attributes refuses exactly what the specification refuses, with the same error |
| DocumentRows.DocumentRow.SubmitCommand | backend/apps/uml_documents/services.py:198-218 | gate, handler, revision + 1, or an error and an untouched row |
| DocumentRows.DocumentRow.SubmitCommands | backend/apps/uml_documents/services.py:221-250 | the row is written once at the end; a stale revision, an empty batch or a refused command leaves it untouched |
| DocumentRows.DocumentRow.SaveLayoutPosition | backend/apps/uml_documents/services.py:348-381 | a position of a class that is gone writes nothing; otherwise stale positions go and the revision rises |
| DocumentRows.EachRaisesRevision | backend/apps/uml_modeling/documents.py:50-56 | n accepted commands raise the revision by exactly n |
| DocumentRows.BatchIsSinglesOrNothing | backend/apps/uml_documents/services.py:221-250 | a batch succeeds iff its revision is current, it is not empty and each command is accepted in turn; it then equals the n single submissions |
| DocumentRuns.PruneKeepsGood | backend/apps/uml_commands/handlers/generation_profile.py:49-99 | pruning repairs the metadata when exactly the removed ids disappear |
| DocumentRuns.CommandKeepsGood | backend/apps/uml_commands/dispatcher.py:63-77 | every gated command with a fresh id keeps the metadata live and parsing |
| DocumentRuns.ReachableMetadataIsGood | backend/apps/uml_commands/handlers/generation_profile.py:18-99 | over every run of writes with fresh ids each metadata key is a live class or attribute, each entry parses at its level, each `defaultSort` names a live attribute, so the mapper raises no profile error |
| DocumentRuns.RunKeepsEnds | backend/apps/uml_commands/handlers/relationships.py:15-55 | along every run whose added relationships name live classes no relationship dangles, through all cascades and partial updates |
| DocumentRuns.EndsSurvive | backend/apps/uml_commands/handlers/classes.py:20-36 | the relationships after a command are old ones, updated ones with the same ends, or the added one |
| SortResolution.WorklistIsTree | backend/apps/uml_documents/services.py:279-293 | on every accepted hierarchy the worklist's set for a root equals the mapper's breadth-first list of that root |
| SortResolution.ResolverSucceedsExactly | backend/apps/domain_manifest/builder/entities.py:39-52 | on a root's table the resolver finds an id iff it is an attribute of a class under that root, and then in one column only |
| SortResolution.ResolveAttribute | backend/apps/domain_manifest/builder/entities.py:39-52 | the search returns the first non-discriminator column with that attribute id, or fails when there is none |
| SortResolution.AcceptedSortResolves | backend/apps/uml_documents/services.py:328-344 | a `defaultSort` the gate accepts on an inheritance root of a mappable model: the updated model maps, that root's table carries exactly that profile, and exactly one column answers |
| DefaultSorts.MetadataDoesNotDecide | backend/apps/relational_mapping/mapping/mapper.py:297-327 | changing only metadata that still parses leaves a mappable model mappable, with the same hierarchy |
| StaleSorts.CutStrandsSort | backend/apps/uml_commands/handlers/generation_profile.py:49-99 | a concrete run: a sort accepted on a root by a subclass attribute stays on the table after the generalization is cut, and no column answers to it; only three names are assumed to convert |
| StrandedSorts.StrandsExactly | backend/apps/uml_commands/handlers/generation_profile.py:49-99 | on an accepted hierarchy a command leaves a sort without its attribute exactly when it removes the only generalization of an edge, or a class strictly, between the class with the sort and the owner of the attribute; no other command does, as attribute and sort are pruned together |
| StrandedSorts.StrandedIsUnanswered | backend/apps/domain_manifest/builder/entities.py:39-52 | on the table of an inheritance root, which carries the sort, a sort is stranded exactly when no column answers to it |
| Plans.CommitsMatchPreviews | backend/apps/ai_assistant/service.py:186-210 | in every interleaving of previews, confirmations and writers, a commit turned exactly the previewed content into the result of translating its plan against that content |
| Plans.PlansCommitAtMostOnce | backend/apps/ai_assistant/service.py:282-306 | in every interleaving no plan commits twice and no two plans commit on the same revision of a document |
| Plans.RunKeepsInv | backend/apps/uml_documents/services.py:221-250 | every step keeps the invariant: a document is still as it was read, or its revision has risen |
| Plans.StoreKeepsInv | backend/apps/ai_assistant/service.py:266-279 | caching a plan under a new id keeps the invariant: its base revision is that of the content it was previewed on |
| ConfirmRuns.StoreAsRun | backend/apps/ai_assistant/service.py:266-279 | storing a plan has the effect of the uninterrupted steps of a preview, and right after it the plan is current |
| Plans.PlanCache.Confirm | backend/apps/ai_assistant/service.py:282-306 | expired, foreign and stale plans are refused; the plan is dropped once the revision matches; the row changes only on success |
| ConfirmRuns.ConfirmRun | backend/apps/ai_assistant/service.py:282-306 | an uninterrupted confirmation in the interleaving model ends with its outcome: no plan, the row of the outcome, one commit iff it wrote; a plan that is gone, foreign or stale changes nothing |
| ConfirmRuns.ConfirmAsRun | backend/apps/ai_assistant/service.py:282-306 | `Confirm` on the cache and the row ends where that run ends |
| Translator.Session.constructor | backend/apps/ai_assistant/translator.py:60-64 | the registry starts with the classes of the document, the last of a name winning |
| Translator.Session.TranslateCalls | backend/apps/ai_assistant/translator.py:66-100 | call after call over the growing registry, or the first error |
| Translator.TranslateCounts | backend/apps/ai_assistant/translator.py:66-70 | one command per call |
| Shorthand.NormalizingKeepsMeaning | backend/apps/ai_assistant/service.py:491-500 | normalizing a multiplicity that the parser reads never changes what it reads |
| Shorthand.ShorthandBecomesReadable | backend/apps/ai_assistant/service.py:491-500 | every handwritten shorthand was unreadable and becomes `0..*` or `1..*` |
| ImageExtraction.ExpandImageExtraction | backend/apps/ai_assistant/service.py:429-488 | the loops over an answer give all classes, then all members, then all relationships, skipping items of another shape |
| ImageTheorems.AnswerIsRead | backend/apps/ai_assistant/service.py:429-488 | whatever diagram an answer describes, its expansion is read as that diagram, with normalized multiplicities |
| ReconcileLoops.ReconcileImageCalls | backend/apps/ai_assistant/service.py:328-413 | the loops over dictionaries, members and relationships compute the specified diff |
| ReconcileMembers.DiffMeetsWanted | backend/apps/ai_assistant/service.py:365-383 | what is kept and what is added are together exactly the wanted members |
| ReconcileLinks.ReprIsUnreadable | backend/apps/ai_assistant/service.py:401-406 | the text a stored multiplicity is compared with is never a multiplicity notation |
| ReconcileLinks.UpdateIsAlwaysSent | backend/apps/ai_assistant/service.py:401-406 | so a matched relationship always gets an update with both multiplicities |
| ReconcileCalls.RemovalsTranslate | backend/apps/ai_assistant/translator.py:117-192 | every removal call of the diff is translated, by name, to the command for the intended element |
| ReconcileTheorems.PlanTranslates | backend/apps/ai_assistant/translator.py:59-250 | the whole diff is translated without error, the new classes being known to the calls after them |
| ReconcileStages.RemovalsTrim | backend/apps/uml_commands/handlers/classes.py:20-36 | a run of removals leaves exactly what no command removes |
| ReconcileStages.AdditionsGrow | backend/apps/uml_commands/dispatcher.py:63-77 | a run of additions grows and creates classes, and updates and adds relationships, independently of their order |
| ReconcileTrim.TrimmedMembers | backend/apps/ai_assistant/service.py:365-383 | an extracted class of the document keeps exactly the members that are wanted as they are |
| ReconcileTrim.LinkStaysIfMatched | backend/apps/ai_assistant/service.py:407-412 | exactly the relationships matched by an extracted link survive the removals |
| ReconcileShows.BatchPasses | backend/apps/uml_documents/services.py:253-268 | the batch passes the write gates exactly when no extracted generalization is already in the document |
| SharedGeneralizations.UnchangedDrawingIsRefused | backend/apps/ai_assistant/service.py:401-406 | a concrete document with one generalization and the extraction of its unchanged drawing meet all conditions of the theorem, share that generalization, and the confirmation is refused |
| ReconcileExact.ConfirmedPlanShowsTheImage | backend/apps/ai_assistant/service.py:328-413 | translating and applying the diff: it succeeds iff no extracted generalization is on both sides, and the document then shows exactly the extracted classes, members and relationships by normalized name |
| ImageTheorems.UploadedImageIsShown | backend/apps/ai_assistant/service.py:246-279 | the same from the answer of the image model: its expansion, diff, translation and submission show exactly the diagram it describes |
| ImageTheorems.ConfirmedUploadShowsTheDiagram | backend/apps/ai_assistant/service.py:282-306 | confirming the cached plan while the document is as it was previewed succeeds iff no extracted generalization is already there, and then the document shows exactly that diagram |
| XmiNames.CleanIsStable | backend/apps/xmi_interop/exporter.py:50-51 | cleaning a text twice is cleaning it once |
| XmiNames.EaNameReadsBack | backend/apps/xmi_interop/importer.py:419-445 | each primitive's EA name is read back as that primitive |
| XmiReads.ModelWalks | backend/apps/xmi_interop/importer.py:194-288 | the reader finds in an exported document exactly the classes, enumerations, join classes, associations and generalizations that were written |
| XmiReads.AssociationReads | backend/apps/xmi_interop/importer.py:270-288 | an association is read back with its kind, ends, aggregation and multiplicities (section 2.5.2 of OMG UML 1.3) |
| XmiRoundTrip.PrimitiveResolves | backend/apps/xmi_interop/importer.py:419-445 | a primitive attribute keeps its type iff no class is named like it in the dialect, by name or by id |
| XmiTheorems.AssociationBuilds | backend/apps/xmi_interop/importer.py:563-597 | reorienting puts the whole end back on the source side |
| XmiTheorems.BuildsNormalForm | backend/apps/xmi_interop/importer.py:459-597 | the imported model is the normal form of the exported one iff that one is portable; the hidden join classes all disappear |
| XmiTheorems.RoundTripExactly | backend/apps/xmi_interop/exporter.py:181-379 | importing an exported model with classes gives its normal form iff the model is portable: no root-class name, no class named like a type in use |
| XmiTheorems.NothingToImport | backend/apps/xmi_interop/importer.py:600-623 | an exported model without classes is refused |
| XmiTheorems.ClassNamedIntIsNotPortable | backend/apps/xmi_interop/importer.py:419-445 | a concrete model with a class named `int` does not come back |
| XmiTheorems.LayoutComesBack | backend/apps/xmi_interop/importer.py:291-303 | every class is placed at its snapped centre under its new id, and nothing else is placed |
| Geometry.SnapMovesHalfAtMost | backend/apps/xmi_interop/exporter.py:443-493 | snapping moves a coordinate by at most half a unit, for any box size |
| Geometry.SnapTwiceIsSnap | backend/apps/xmi_interop/exporter.py:443-493 | a second snap moves nothing |
| Geometry.BoxReadsBack | backend/apps/xmi_interop/importer.py:291-303 | writing a box as geometry text and reading its centre gives the snapped centre |
| Geometry.EdgeHasNoBox | backend/apps/xmi_interop/importer.py:291-303 | the geometry of an edge is never taken for a box |
| XmiDiagrams.DiagramIsFound | backend/apps/xmi_interop/importer.py:291-303 | the one diagram with its boxes and edges is found, and no other element is taken for one |
| XmiStability.PositionMovesHalfAtMost | backend/apps/xmi_interop/exporter.py:437-493 | a positioned class moves by at most half a unit per axis |
| XmiStability.NormalIsPortable | backend/apps/xmi_interop/importer.py:459-511 | the normal form of a portable model is portable |
| XmiStability.TwoTrips | backend/apps/xmi_interop/exporter.py:437-493 | two round trips both succeed, and the second leaves every class where the first one put it, for any box height |
| XmiReplace.ImportIsFresh | backend/apps/uml_documents/services.py:146-175 | an import has distinct ids iff its kept class elements do, and carries no metadata, so it may replace a document |
| XmiReplace.DanglingExactlyWhenDropped | backend/apps/xmi_interop/importer.py:514-560 | hiding association classes leaves a relationship dangling iff one that is built ends at a class element that some association is tagged with and that is synthetic, or has no operations and only attributes typed by classes |
| XmiReplace.LinkedImportDangles | backend/apps/xmi_interop/importer.py:514-560 | a concrete file that the importer accepts and whose import has a relationship to a class that is gone |
| XmiWriter.TypeIds.IdOf | backend/apps/xmi_interop/exporter.py:216-222 | type ids are handed out in the order of first use, and one type keeps its id |
| XmiWriter.PlanJoinRelationships | backend/apps/xmi_interop/exporter.py:143-178 | the growing set of taken names gives every join class a name of its own |
| XmiWriter.ExportXmi | backend/apps/xmi_interop/exporter.py:181-244 | the writer with its growing dictionaries produces the specified tree |
| XmiReader.ReadClassV1 | backend/apps/xmi_interop/importer.py:233-267 | the loop over the features fills one raw class as specified |
| XmiReader.ImportXmi | backend/apps/xmi_interop/importer.py:600-623 | the reader over mutable lists and dictionaries gives the specified import, or the specified refusal |
| Locks.ValueReadsBack | backend/apps/uml_documents/locks.py:61-78 | owner and label are read back from the stored value, whatever the label contains |
| Locks.ScriptsSpareOthers | backend/apps/uml_documents/locks.py:23-43 | no claim, refresh or release by one token touches a node another token holds |
| Locks.LockStore.Claim | backend/apps/uml_documents/locks.py:61-78 | a claim succeeds iff no live lock exists; a refusal names the holder's label |
| Locks.LockStore.Refresh | backend/apps/uml_documents/locks.py:81-88 | compare-and-expire: the deadline moves iff the caller is the current holder |
| Locks.LockStore.Release | backend/apps/uml_documents/locks.py:91-95 | compare-and-delete: the lock goes iff the caller is the current holder |
| Locks.Consumer.HandleClaim | backend/apps/uml_documents/consumers.py:128-146 | `held` grows and the lock is broadcast exactly when the claim succeeds |
| Locks.Consumer.HandlePosition | backend/apps/uml_documents/consumers.py:148-166 | a position is broadcast exactly when its refresh succeeds |
| Locks.Consumer.HandleRelease | backend/apps/uml_documents/consumers.py:168-192 | only the holder unlocks, and saves the position at most once |
| Locks.Consumer.Disconnect | backend/apps/uml_documents/consumers.py:80-93 | the loop over `held` deletes exactly the own live locks in it and broadcasts exactly those |
| LockRuns.OthersAreSpared | backend/apps/uml_documents/locks.py:23-95 | in no step of any interleaving does a socket extend or delete another's lock, also after expiry and re-claim |
| LockRuns.LiveLocksAreHeld | backend/apps/uml_documents/consumers.py:128-192 | in every reachable state a live lock belongs to one connected socket that still has to release it: the node is in `held`, in what a leaving socket has left to do, or was just won |
| LockRuns.NothingSurvivesDisconnect | backend/apps/uml_documents/consumers.py:80-93 | no lock of a socket survives its disconnect |
| LockRuns.MoveWasRefreshed | backend/apps/uml_documents/consumers.py:148-166 | every broadcast position passed a refresh made while its sender held the node |
| HandlerRuns.ClaimAsRun | backend/apps/uml_documents/consumers.py:128-146 | the claim handler has the effect and the broadcasts of the uninterrupted steps of a claim |
| HandlerRuns.MoveAsRun | backend/apps/uml_documents/consumers.py:148-166 | the position handler has those of a move |
| HandlerRuns.ReleaseAsRun | backend/apps/uml_documents/consumers.py:168-192 | the release handler has those of a release, and writes the row exactly when the run saves |
| HandlerRuns.DisconnectAsRun | backend/apps/uml_documents/consumers.py:80-93 | a disconnect has those of the steps of leaving, whatever the order of the loop |
| LockRuns.SavesNeverExceedClaims | backend/apps/uml_documents/consumers.py:168-192 | the layout saves for a node never exceed its successful claims |

## Left out

- DiagramLinks.LinksMeanWhatTheDiagramSays: only classes outside any hierarchy, because a key on a shared root table is NOT NULL for all its rows; `LinkMeaning.StorableIsHeld` says what holds for the others.
- MapperTheorems.MappingIsWellFormed: the names of foreign keys, indexes and unique constraints, which the program keeps unique within a table only.
- MapperLoops.CollectProfiles: which malformed entry is reported first, since metadata is a map without an order of keys.
- Locks.LockStore.Claim: a lock that expires between the `SET` and the `GET` of one claim in the handler; `LockRuns` has the expiry between all steps.
- Plans.PlanCache.Confirm: the translation is a parameter and nothing interferes; `Plans.CommitsMatchPreviews` holds for every translation relation.
- ImageExtraction.ExpandImageExtraction: an answer without `classes` and `relationships` lists is passed on as one unsupported call, without its arguments.
- XmiWriter.ExportXmi: the element tree is an immutable value that the writer composes, not one that is extended in place; XML attributes and tagged values that the importer never reads are not written.
- Geometry.SnapMovesHalfAtMost: positions are real numbers, so floating-point rounding is not modelled.
- The name, type and nullability of the tables a join class documents in XMI: the tables are a parameter of the export.
- The XMI 2.x reader, XML bytes, encodings, namespaces and the size limit of an upload.
- Warnings, diagnostics of `validate`, timestamps, authors, names and other metadata of projects.
- Parameters of operations in diffs: the assistant neither reads nor writes them.
- Unicode beyond ASCII in `lower()` and in the digits `int` accepts.
- The `snapshot` scan of locks, the role checks of sockets, HTTP, authentication, e-mail and the language model clients.
- The partial-failure loop of voice commands that are applied without a preview.
- Java types, imports and texts of generated fields, templates, Postman export and packing.
- The `on_update` action of foreign keys, which the program always sets to no action.
