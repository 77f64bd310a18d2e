# sophia core: quad streams, the dataset API and the in-memory hash graph

This project models, in Dafny, the core of the sophia RDF toolkit:

- **Quad and triple streams** (`Streams`). A source hands items to a sink
  through `try_for_some` and `try_for_each`, and to an infallible step
  through `for_some` and `for_each`. A failure is either a source error or
  a sink error, and the two are never merged. Bulk collection into a
  dataset is modelled on top of these (`collect_quads`, `add_to_dataset`).
- **The dataset API** (`Datasets`, `MutableDatasets`). A dataset is the
  sequence of quads its `quads()` stream yields. On top of it sit the
  default scans (`quads_with_s` through `quads_with_spog`), `contains`,
  `quads_matching` driven by term matchers, and the term-set extractors
  (`subjects`, `predicates`, `objects`, `graph_names`, `iris`, `bnodes`,
  `literals`, `variables`). The mutable layer has `insert_all`,
  `remove_all`, `remove_matching` and `retain_matching`, built over a
  dataset's own `insert` and `remove`. `MemDataset` is an in-memory
  dataset with set semantics (`SetDataset`).
- **The term dictionary `TermIndexU`** (`TermIndex`). It interns terms
  into `u16` or `u32` indices with reference counts:
  - `i2t` maps index to term, `t2i` maps term to index, and `i2c` holds
    the counts;
  - freed slots are chained through `i2c` into a LIFO free list headed by
    `next_free`.
- **The in-memory `HashGraph`** (`HashGraphs`). It is a set of index
  triples over a `TermIndexU`. The model covers `new`, `len`, `is_empty`,
  `with_capacity`, `shrink_to_fit`, `get_index`, `get_term`,
  `insert_indexed`, `remove_indexed` and `triples`. It also covers
  `insert` and `insert_all`, which are what the graph's `MutableGraph`
  implementation uses, and `from_triple_source`.
- **The dataset test suite** (`DatasetTests`). This is the `some_quads`
  fixture and each scenario test, stated as lemmas and methods whose
  contracts are the outcomes the suite asserts. The term dictionary's own
  inline test is `TermIndex.IndexScenario`.

The graph's central invariant is `HashGraph.Valid()`. It says three things:
1. each slot's reference count equals the number of positions of stored
   index triples that use it (`Accounts`);
2. the free list threads exactly the free slots (`Chain`);
3. `t2i` mirrors the live slots (`Mirrors`).

The graph's meaning, `Content()`, is the set of term triples that the
stored index triples decode to. Every mutation is specified against
`Content()`.

Integers are unbounded. The index width appears as the bound
`MaxIndex(w)` on the number of indices and, because counts share the
index type, on every reference count (`Refs(t) <= MaxIndex(w)`). Floating point, hashing and allocation are not
involved.

## Model

| member | source | states |
|---|---|---|
| TermIndex.TermIndexU.constructor | sophia/src/graph/inmem/term_index_u.rs:30-52 | a new dictionary is empty (no slots, empty `t2i`, `next_free` 0), satisfies the invariant, and has room for `MaxIndex(w)` terms |
| TermIndex.TermIndexU.GetIndex | sophia/src/graph/inmem/term_index_u.rs:66-68 | the index returned holds the term; `None` means no slot holds it |
| TermIndex.TermIndexU.GetTerm | sophia/src/graph/inmem/term_index_u.rs:91-98 | a term is returned exactly when the index names a live slot; that term is the slot's, and `get_index` of it gives the index back |
| TermIndex.TermIndexU.MakeIndex | sophia/src/graph/inmem/term_index_u.rs:70-89 | three cases. A present term keeps its index and its count rises by one, with nothing else changing. With no free slot, the arrays grow by one live slot and `next_free` steps past it. Otherwise the head of the free list is reused, and its link becomes the new head. In every case the term and the index map to each other afterwards, and one unit of room is used exactly when the term was new. The caller keeps the term's count below `MaxIndex(width)`; the term's `Refs` rises by one and every other term's is unchanged |
| TermIndex.TermIndexU.Grow | sophia/src/graph/inmem/term_index_u.rs:79-82 | the growth branch appends `Live(t, 1)`, advances `next_free` and maps `t` to the new index, so `Refs(t)` becomes 1 and no other count changes |
| TermIndex.TermIndexU.ReuseHead | sophia/src/graph/inmem/term_index_u.rs:83-87 | the reuse branch takes the free slot at the head, sets its count to 1 and makes its old link the new head, so `Refs(t)` becomes 1 and no other count changes |
| TermIndex.TermIndexU.IncRef | sophia/src/graph/inmem/term_index_u.rs:100-103 | with the count below `MaxIndex(width)`, only the count of the live slot rises by one: its term's `Refs` rises by one and every other term's is unchanged |
| TermIndex.TermIndexU.DecRef | sophia/src/graph/inmem/term_index_u.rs:105-114 | while other references remain, only the count falls. At the last reference the slot is freed: it forgets its term, links to the old head of the free list and becomes the new head, and the term leaves `t2i`. In both cases the term's `Refs` falls by one and no other count changes |
| TermIndex.TermIndexU.Release | sophia/src/graph/inmem/term_index_u.rs:108-113 | freeing a live slot pushes it onto the free list and removes its term from `t2i`; the count recorded for the term was its slot's count, and it becomes 0 |
| TermIndex.TermIndexU.Recount | sophia/src/graph/inmem/term_index_u.rs:100-107 | setting the count of a live slot changes nothing else: its term's `Refs` becomes the new count and every other term's is unchanged |
| TermIndex.TermIndexU.ShrinkToFit | sophia/src/graph/inmem/term_index_u.rs:116-122 | releasing capacity changes no observable state and keeps the invariant |
| TermIndex.TermIndexU.HasRoom | sophia/src/graph/inmem/term_index_u.rs:77-81 | a new term can be given an index (a free slot exists, or the arrays can still grow) exactly when the room is positive |
| TermIndex.TermIndexU.SlotsDistinct | sophia/src/graph/inmem/term_index_u.rs:70-89 | no two live slots hold the same term |
| TermIndex.TermIndexU.LiveDistinct | sophia/src/graph/inmem/term_index_u.rs:72-76 | two live slots holding the same term are the same slot |
| TermIndex.TermIndexU.LiveCount | sophia/src/graph/inmem/term_index_u.rs:105-109 | a live slot holds at least one reference |
| TermIndex.PushKeeps | sophia/src/graph/inmem/term_index_u.rs:79-82 | appending a slot when the free list is empty preserves the invariant |
| TermIndex.ReuseKeeps | sophia/src/graph/inmem/term_index_u.rs:83-87 | reusing the head of the free list preserves the invariant, and the list loses exactly its head |
| TermIndex.ReuseChain | sophia/src/graph/inmem/term_index_u.rs:83-87 | after the head is reused, the rest of the list is still a well-formed chain headed by the old link |
| TermIndex.FreeKeeps | sophia/src/graph/inmem/term_index_u.rs:108-113 | freeing a slot preserves the invariant, with the slot at the front of the free list |
| TermIndex.FreeChain | sophia/src/graph/inmem/term_index_u.rs:110-112 | a freed slot linked to the old head forms a well-formed chain |
| TermIndex.RecountKeeps | sophia/src/graph/inmem/term_index_u.rs:100-107 | changing a live count to any positive value preserves the invariant |
| TermIndex.ReuseMirrors | sophia/src/graph/inmem/term_index_u.rs:77-86 | mapping a new term to a reused free slot keeps `t2i` and `i2t` inverse to each other |
| TermIndex.FreeMirrors | sophia/src/graph/inmem/term_index_u.rs:108-111 | taking a freed slot's term out of `t2i` keeps the two maps inverse to each other |
| TermIndex.SlotViewInjective | sophia/src/graph/inmem/term_index_u.rs:11-28 | the slot view determines the parallel arrays `i2t` and `i2c` |
| TermIndex.IndexScenario | sophia/src/graph/inmem/term_index_u.rs:159-226 | the inline test. Three new terms take indices 0, 1 and 2. Re-interning and `inc_ref`/`dec_ref` only move counts. Freeing slots 1 then 0 makes `next_free` 1 then 0. New terms then reuse slots 0 and 1 in LIFO order before the arrays grow to index 3. Every asserted `next_free` value is in `heads` |
| TermIndex.InternThree | sophia/src/graph/inmem/term_index_u.rs:166-185 | the first three terms take slots 0, 1 and 2, and `next_free` is 1, 2 and 3 after each |
| TermIndex.CountUpDown | sophia/src/graph/inmem/term_index_u.rs:187-199 | re-interning a known term and the reference calls leave the slots and `next_free` where they were |
| TermIndex.FreeTwo | sophia/src/graph/inmem/term_index_u.rs:201-209 | the last releases free slot 1 then slot 0, which link to 3 and 1 |
| TermIndex.ReuseAndGrow | sophia/src/graph/inmem/term_index_u.rs:211-225 | `rdf:type` takes slot 0 and `rdf:subject` takes slot 1, then `rdf:Property` grows the arrays to index 3 |
| HashGraphs.HashGraph.constructor | sophia/src/graph/inmem/_hash_graph.rs:39-44 | a new graph is empty and valid, over an empty dictionary with full room |
| HashGraphs.HashGraph.WithCapacity | sophia/src/graph/inmem/_hash_graph.rs:65-70 | the same empty, valid graph whatever the capacity |
| HashGraphs.HashGraph.ShrinkToFit | sophia/src/graph/inmem/_hash_graph.rs:73-76 | the graph and its dictionary are unchanged |
| HashGraphs.HashGraph.Len | sophia/src/graph/inmem/_hash_graph.rs:46-48 | the number of stored index triples is the number of distinct term triples in the graph |
| HashGraphs.HashGraph.IsEmpty | sophia/src/graph/inmem/_hash_graph.rs:50-52 | true exactly when the graph holds no triple, and exactly when `len` is 0 |
| HashGraphs.HashGraph.GetIndex | sophia/src/graph/inmem/_hash_graph.rs:79-84 | a term has an index exactly when some triple of the graph uses it, and `get_term` of that index gives it back |
| HashGraphs.HashGraph.GetTerm | sophia/src/graph/inmem/_hash_graph.rs:87-89 | an index resolves exactly when a stored index triple uses it, and the term maps back to it |
| HashGraphs.HashGraph.InsertIndexed | sophia/src/graph/inmem/_hash_graph.rs:91-114 | the new content is the old plus the triple. The result is `Some` exactly when the triple was new, and it then names the index triple added. On a duplicate, the graph and the dictionary end exactly as they began, because the three references just taken are released again. The three terms are known afterwards. Every term known before keeps its index, and exactly the new terms use up room. When the triple is added, the counts of `s`, `p` and `o` rise once per occurrence; on a duplicate no count changes |
| HashGraphs.HashGraph.InternAll | sophia/src/graph/inmem/_hash_graph.rs:102-104 | interning s, p and o yields an index triple that decodes to `(s, p, o)`, with three references accounted to it. Every known term keeps its slot, exactly the new terms use up room, and each term's count rises by the number of times it occurs in `(s, p, o)`; if the triple is already stored, the shape of every slot is unchanged |
| HashGraphs.HashGraph.ReleaseAll | sophia/src/graph/inmem/_hash_graph.rs:109-111 | releasing the three references of an index triple restores the accounting, keeps every surviving term in its slot and lowers the count of each decoded term once per occurrence; if the triple is stored, no slot is freed and the room is unchanged |
| HashGraphs.HashGraph.InternOne | sophia/src/graph/inmem/_hash_graph.rs:102 | one `make_index` accounts one more reference to the slot holding the term and keeps every other term where it was; that term's count rises by one, and room is used only for a new term |
| HashGraphs.HashGraph.ReleaseOne | sophia/src/graph/inmem/_hash_graph.rs:109 | one `dec_ref` drops one reference from the accounting; a slot still used by a stored triple keeps its term and the room is unchanged. The released term's count falls by one |
| HashGraphs.HashGraph.InternTwo | sophia/src/graph/inmem/_hash_graph.rs:103-104 | interning p and o accounts a reference to each and decodes to them; the room used is the number of new terms, and the counts rise once per occurrence |
| HashGraphs.HashGraph.ReleaseTwo | sophia/src/graph/inmem/_hash_graph.rs:110-111 | the last two `dec_ref`s remove two references from the accounting and lower each released term's count by one; if both slots are used by stored triples, no slot is freed and the room is unchanged |
| HashGraphs.HashGraph.Store | sophia/src/graph/inmem/_hash_graph.rs:105-107 | adding a fresh index triple adds its decoding to the content and keeps the invariant |
| HashGraphs.HashGraph.Restore | sophia/src/graph/inmem/_hash_graph.rs:108-112 | releasing the references taken for a duplicate returns `i2t` and `i2c` to their values before the insertion, with the room unchanged |
| HashGraphs.HashGraph.RemoveIndexed | sophia/src/graph/inmem/_hash_graph.rs:116-140 | the new content is the old without the triple. The result is `Some` exactly when the triple was present, and it then names the index triple removed. When the triple is absent, nothing changes, and that is always the case when one of the terms is unknown. Every surviving term keeps its index, and on a removal the count of each of the three terms falls once per occurrence |
| HashGraphs.HashGraph.Triples | sophia/src/graph/inmem/_hash_graph.rs:152-160 | the stream lists each triple of the graph exactly once and nothing else, so its length is `len` |
| HashGraphs.HashGraph.Insert | sophia/src/graph/inmem/_hash_graph.rs:185-192 | inserting a term triple adds it to the content and reports `true` exactly when the triple was not already there; exactly the new terms use up room, and the counts rise only when the triple is added |
| HashGraphs.HashGraph.InsertEach | sophia/src/graph/inmem/_hash_graph.rs:170-182 | inserting a sequence of triples yields the old content together with every triple of the sequence, provided the counts plus the occurrences in the sequence stay within `MaxIndex(width)` |
| HashGraphs.HashGraph.KnownTerms | sophia/src/graph/inmem/_hash_graph.rs:79-84 | the terms of a triple in the graph are all known to the dictionary |
| HashGraphs.HashGraph.NotStored | sophia/src/graph/inmem/_hash_graph.rs:127-130 | a triple with a term unknown to the dictionary is not in the graph |
| HashGraphs.HashGraph.UsedIffLive | sophia/src/graph/inmem/_hash_graph.rs:116-140 | a term is in the dictionary exactly when some triple of the graph uses it, so removing the last triple that uses a term forgets the term |
| HashGraphs.FromTripleSource | sophia/src/graph/inmem/_hash_graph.rs:170-182 | the source is drained. On success the new valid graph holds exactly the triples the source yielded. A source error is returned as a source error |
| HashGraphs.DecodeAllCard | sophia/src/graph/inmem/_hash_graph.rs:46-48 | distinct index triples decode to distinct term triples, so counting one counts the other |
| HashGraphs.DecodeInjective | sophia/src/graph/inmem/_hash_graph.rs:194-199 | with distinct live terms, two index triples that decode to the same triple are equal |
| HashGraphs.AccountsIntern | sophia/src/graph/inmem/term_index_u.rs:70-89 | one `make_index` adds exactly one reference to the accounting of its slot |
| HashGraphs.AccountsRelease | sophia/src/graph/inmem/term_index_u.rs:105-114 | one `dec_ref` removes exactly one reference from the accounting of its slot |
| HashGraphs.AccountsDetermine | sophia/src/graph/inmem/_hash_graph.rs:108-112 | two slot views with the same shape that account for the same stored triples are equal |
| HashGraphs.LiveIffUsed | sophia/src/graph/inmem/_hash_graph.rs:87-89 | a slot is live exactly when a stored index triple uses it |
| HashGraphs.NewTermsCard | sophia/src/graph/inmem/_hash_graph.rs:102-104 | the room a triple needs is the number of its distinct terms not yet known |
| Streams.Feed | sophia/src/quad/stream.rs:55-70 | a run over a sequence takes at most every item, takes all of them when the sink never fails, and takes the failing item when it does |
| Streams.FeedAppend | sophia/src/quad/stream.rs:62-70 | feeding a concatenation feeds the second part from where the first left off, unless the first part already failed |
| Streams.FeedStopsAtFirstError | sophia/src/quad/stream.rs:62-70 | a failed run stops at the first failing item: everything before it went through, and nothing after it reaches the sink |
| Streams.FeedLogs | sophia/src/quad/stream.rs:62-70 | every item reaches the sink exactly once and in order, up to the one it fails on |
| Streams.FeedLift | sophia/src/quad/stream.rs:75-94 | an infallible sink never stops early and ends where the fold ends |
| Streams.FoldAppend | sophia/src/quad/stream.rs:87-94 | folding a concatenation folds the second part from the result of the first |
| Streams.FoldAppending | sophia/src/quad/stream.rs:137-143 | collecting by appending each item reproduces the items in order |
| Streams.Source.TrySome | sophia/src/quad/stream.rs:55-58 | an exhausted source reports its own error or `false`. Otherwise at least one item reaches the sink, the items consumed are exactly those fed, and a sink error is returned as a sink error |
| Streams.Source.TryForEach | sophia/src/quad/stream.rs:62-70 | the items are fed to the sink in order until the first sink error, which is returned with the rest left unconsumed. When the sink never fails, the source is drained and its own error, if any, is returned |
| Streams.Source.ForSome | sophia/src/quad/stream.rs:75-84 | with an infallible step at least one item is folded when there is any, and only the source can fail |
| Streams.Source.ForEach | sophia/src/quad/stream.rs:87-94 | every item is folded in order, and the result is the source's own error or `Ok` |
| Streams.Source.SizeHint | sophia/src/quad/stream.rs:133-135 | the hint is a valid bound on the number of items still to come |
| Datasets.Filter | sophia/src/dataset/_traits.rs:94-99 | a filtered scan holds exactly the quads that pass the test, keeps no more items than its input, and keeps distinct quads distinct |
| Datasets.FilterThen | sophia/src/dataset/_traits.rs:130-136 | filtering twice is filtering once by the conjunction |
| Datasets.QuadsWithS | sophia/src/dataset/_traits.rs:94-99 | the default scan by subject equals the reference selection of the pattern binding only the subject |
| Datasets.QuadsWithP | sophia/src/dataset/_traits.rs:103-108 | the scan by predicate equals the selection binding only the predicate |
| Datasets.QuadsWithO | sophia/src/dataset/_traits.rs:112-117 | the scan by object equals the selection binding only the object |
| Datasets.QuadsWithG | sophia/src/dataset/_traits.rs:121-126 | the scan by graph name equals the selection binding only the graph name |
| Datasets.QuadsWithSp | sophia/src/dataset/_traits.rs:130-136 | the scan by subject and predicate equals the selection binding both |
| Datasets.QuadsWithSo | sophia/src/dataset/_traits.rs:140-146 | the scan by subject and object equals the selection binding both |
| Datasets.QuadsWithSg | sophia/src/dataset/_traits.rs:150-160 | the scan by subject and graph name equals the selection binding both |
| Datasets.QuadsWithPo | sophia/src/dataset/_traits.rs:164-170 | the scan by predicate and object equals the selection binding both |
| Datasets.QuadsWithPg | sophia/src/dataset/_traits.rs:174-184 | the scan by predicate and graph name equals the selection binding both |
| Datasets.QuadsWithOg | sophia/src/dataset/_traits.rs:188-198 | the scan by object and graph name equals the selection binding both |
| Datasets.QuadsWithSpo | sophia/src/dataset/_traits.rs:202-214 | the scan by subject, predicate and object equals the selection binding the three |
| Datasets.QuadsWithSpg | sophia/src/dataset/_traits.rs:218-230 | the scan by subject, predicate and graph name equals the selection binding the three |
| Datasets.QuadsWithSog | sophia/src/dataset/_traits.rs:234-246 | the scan by subject, object and graph name equals the selection binding the three |
| Datasets.QuadsWithPog | sophia/src/dataset/_traits.rs:250-262 | the scan by predicate, object and graph name equals the selection binding the three |
| Datasets.QuadsWithSpog | sophia/src/dataset/_traits.rs:266-280 | the scan by all four positions equals the selection binding all four |
| Datasets.Contains | sophia/src/dataset/_traits.rs:283-301 | `contains` holds exactly when the four-position scan is non-empty, and exactly when the quad is in the dataset |
| Datasets.MatchersSound | sophia/src/dataset/_traits.rs:306-390 | the matchers for any term, one term, a list of terms, any graph, one graph and a graph predicate each accept their constant, when they have one, and only it |
| Datasets.QuadsMatchingShape | sophia/src/dataset/_traits.rs:306-390 | `quads_matching` scans by the positions whose matchers are constants, then filters by the remaining matchers |
| Datasets.QuadsMatchingFilters | sophia/src/dataset/_traits.rs:306-390 | with sound matchers, `quads_matching` is exactly the filter by all four matchers |
| Datasets.QuadsMatchingWithin | sophia/src/dataset/_traits.rs:306-390 | `quads_matching` yields only quads of the dataset, and never repeats a quad of a duplicate-free dataset |
| Datasets.Subjects | sophia/src/dataset/_traits.rs:393-399 | the set holds exactly the subjects of the dataset's quads |
| Datasets.Predicates | sophia/src/dataset/_traits.rs:402-408 | the set holds exactly the predicates of the dataset's quads |
| Datasets.Objects | sophia/src/dataset/_traits.rs:411-417 | the set holds exactly the objects of the dataset's quads |
| Datasets.GraphNames | sophia/src/dataset/_traits.rs:420-430 | the set holds exactly the names of the named graphs in use; the default graph contributes none |
| Datasets.KindTerms | sophia/src/dataset/_traits.rs:433-526 | the set holds exactly the terms of one kind found in any position of any quad |
| Datasets.Iris | sophia/src/dataset/_traits.rs:433-454 | exactly the IRIs in any position of any quad |
| Datasets.BNodes | sophia/src/dataset/_traits.rs:457-478 | exactly the blank nodes in any position of any quad |
| Datasets.Literals | sophia/src/dataset/_traits.rs:481-502 | exactly the literals in any position of any quad |
| Datasets.Variables | sophia/src/dataset/_traits.rs:505-526 | exactly the variables in any position of any quad |
| MutableDatasets.CountingBounds | sophia/src/dataset/_traits.rs:664-711 | the count of `insert_all` and `remove_all` never falls, and grows by at most one per quad handed over |
| MutableDatasets.MutateAll | sophia/src/dataset/_traits.rs:664-711 | the shared loop of `insert_all` and `remove_all`. Each quad is applied in order. A mutation error stops the stream and comes back as a sink error; a source error comes back as a source error; otherwise the result is the number of calls that reported a change |
| MutableDatasets.RemoveMatchingWith | sophia/src/dataset/_traits.rs:729-762 | `remove` is applied to each matching quad in turn. The result is either the number of removals reported or the first mutation error |
| MutableDatasets.RetainMatchingWith | sophia/src/dataset/_traits.rs:769-799 | `remove` is applied to each quad that fails a matcher, stopping at the first mutation error |
| MutableDatasets.SetInsert | sophia/src/dataset/_traits.rs:602-613 | set-semantics `insert` reports `true` exactly when the quad was absent, and the dataset then gains just that quad |
| MutableDatasets.SetRemove | sophia/src/dataset/_traits.rs:628-639 | set-semantics `remove` reports `true` exactly when the quad was present, and the dataset then loses just that quad |
| MutableDatasets.SetInsertAll | sophia/src/dataset/_traits.rs:801-821 | on a set dataset, `insert_all` never fails, keeps the dataset duplicate-free, and returns the number of quads actually added |
| MutableDatasets.SetRemoveAll | sophia/src/dataset/_traits.rs:801-821 | on a set dataset, `remove_all` returns the number of quads actually removed, which is every quad of a duplicate-free list of present quads |
| MutableDatasets.MemDataset.constructor | sophia/src/dataset/_traits.rs:570-575 | a new set dataset is empty |
| MutableDatasets.MemDataset.Insert | sophia/src/dataset/_traits.rs:589-613 | `true` exactly when the quad was absent; the dataset gains just that quad |
| MutableDatasets.MemDataset.Remove | sophia/src/dataset/_traits.rs:615-639 | `true` exactly when the quad was present; the dataset loses just that quad |
| MutableDatasets.MemDataset.InsertAll | sophia/src/dataset/_traits.rs:664-680 | the dataset gains the quads of the source. The count is the number of quads actually added, and a source error is returned as such |
| MutableDatasets.MemDataset.RemoveAll | sophia/src/dataset/_traits.rs:695-711 | the dataset loses the quads of the source. The count is the number of quads actually removed, and a source error is returned as such |
| MutableDatasets.MemDataset.RemoveMatching | sophia/src/dataset/_traits.rs:729-762 | exactly the matching quads are removed, and their number is returned |
| MutableDatasets.MemDataset.RetainMatching | sophia/src/dataset/_traits.rs:769-799 | exactly the quads accepted by all four matchers remain |
| MutableDatasets.RemoveMatchingLeaves | sophia/src/dataset/_traits.rs:729-762 | with sound matchers, a quad survives `remove_matching` exactly when some matcher rejects it |
| MutableDatasets.CollectQuads | sophia/src/quad/stream.rs:137-143 | collecting a source yields a fresh set dataset holding exactly its quads, or the source's error |
| MutableDatasets.AddToDataset | sophia/src/quad/stream.rs:148-156 | the dataset gains the quads of the source. The number of quads actually added is returned, or the source's error |
| DatasetTests.FixtureNoDup | sophia/src/dataset/test.rs:28-50 | the 17 rows of `some_quads` are pairwise distinct |
| DatasetTests.FixtureSize | sophia/src/dataset/test.rs:28-50 | a dataset collected from the fixture has 17 quads |
| DatasetTests.FixtureFilter | sophia/src/dataset/test.rs:28-50 | in a dataset collected from the fixture, any filter keeps as many quads as it accepts among the fixture's rows |
| DatasetTests.CollectedFixture | sophia/src/dataset/test.rs:28-50 | collecting the fixture yields a set dataset holding exactly its rows |
| DatasetTests.EmptyDataset | sophia/src/dataset/test.rs:23-26 | collecting the empty source yields an empty dataset |
| DatasetTests.TestSimpleMutations | sophia/src/dataset/test.rs:156-192 | the inserts and removes all report a change, and the sizes run 0, 1, 2, 1, 0 |
| DatasetTests.TestNoDuplicate | sophia/src/dataset/test.rs:195-235 | a second insert and a second remove of the same quad report no change, and the sizes run 0, 1, 1, 0, 0 |
| DatasetTests.TestDifferentGraphsDoNotCountAsDuplicate | sophia/src/dataset/test.rs:238-274 | the same triple in two graphs is two quads, with sizes 0, 1, 2, 1, 0 |
| DatasetTests.TestXAllMutations | sophia/src/dataset/test.rs:277-290 | `insert_all` of the two-quad source adds 2 then 0, and `remove_all` removes 2 then 0 |
| DatasetTests.TestRemoveMatching | sophia/src/dataset/test.rs:293-300 | removing the quads typed `C1` or `C2` removes 4 of the 17 and leaves 13 |
| DatasetTests.TestRetainMatching | sophia/src/dataset/test.rs:303-311 | retaining the quads typed `C1` or `C2` leaves 4 |
| DatasetTests.TestQuads | sophia/src/dataset/test.rs:327-341 | the full scan yields all 17 quads, including the asserted ones and not the asserted absent one |
| DatasetTests.TestQuadsWithS | sophia/src/dataset/test.rs:344-370 | the scan by subject `C2` yields 2 quads, with the asserted present and absent ones |
| DatasetTests.TestQuadsWithP | sophia/src/dataset/test.rs:373-393 | the scan by `rdfs:subClassOf` yields 1 quad, as asserted |
| DatasetTests.TestQuadsWithO | sophia/src/dataset/test.rs:396-410 | the scan by object `I2B` yields 2 quads, as asserted |
| DatasetTests.TestQuadsWithG | sophia/src/dataset/test.rs:413-427 | the scan by graph `G1` yields 6 quads, as asserted |
| DatasetTests.TestQuadsWithSp | sophia/src/dataset/test.rs:430-450 | the scan by `C2 rdf:type` yields 1 quad, as asserted |
| DatasetTests.TestQuadsWithSo | sophia/src/dataset/test.rs:453-467 | the scan by `C2 … C1` yields 1 quad, as asserted |
| DatasetTests.TestQuadsWithPo | sophia/src/dataset/test.rs:470-499 | the scan by `rdf:type rdfs:Class` yields 3 quads, as asserted |
| DatasetTests.TestQuadsWithSg | sophia/src/dataset/test.rs:502-516 | the scan by `C2` in `G1` yields 1 quad, as asserted |
| DatasetTests.TestQuadsWithPg | sophia/src/dataset/test.rs:519-533 | the scan by `rdf:type` in `G1` yields 1 quad, as asserted |
| DatasetTests.TestQuadsWithOg | sophia/src/dataset/test.rs:536-550 | the scan by object `C1` in `G1` yields 2 quads, as asserted |
| DatasetTests.TestQuadsWithSpo | sophia/src/dataset/test.rs:553-570 | the scan by `C1 rdf:type rdfs:Class` yields 2 quads, as asserted |
| DatasetTests.TestQuadsWithSpg | sophia/src/dataset/test.rs:573-593 | the scan by `C1 rdf:type` in the default graph yields 1 quad, as asserted |
| DatasetTests.TestQuadsWithSog | sophia/src/dataset/test.rs:596-616 | the scan by `C1 … rdfs:Class` in the default graph yields 1 quad, as asserted |
| DatasetTests.TestQuadsWithPog | sophia/src/dataset/test.rs:619-642 | the scan by `rdf:type rdfs:Class` in the default graph yields 2 quads, as asserted |
| DatasetTests.TestQuadsWithSpog | sophia/src/dataset/test.rs:645-668 | the four-position scan yields 1 quad, as asserted |
| DatasetTests.TestContains | sophia/src/dataset/test.rs:671-676 | the fixture contains `C2 rdfs:subClassOf C1` in `G1` and not its converse |
| DatasetTests.TestQuadsMatching | sophia/src/dataset/test.rs:679-703 | matching predicates `rdf:type` or `rdfs:domain`, objects `C1` or `C2`, in named graphs, yields the 6 asserted quads |
| DatasetTests.TestSubjects | sophia/src/dataset/test.rs:706-723 | the fixture has exactly the 8 asserted subjects |
| DatasetTests.TestPredicates | sophia/src/dataset/test.rs:726-741 | the fixture has exactly the 6 asserted predicates |
| DatasetTests.TestObjects | sophia/src/dataset/test.rs:744-759 | the fixture has exactly the 6 asserted objects |
| DatasetTests.TestGraphNames | sophia/src/dataset/test.rs:762-773 | the fixture has exactly the 2 asserted graph names |

## Left out

- TermIndex.TermIndexU.MakeIndex: requires room for a new index (`t in t2i || HasRoom()`), because in the source `next_free += 1` at the top of the index type overflows, which panics in debug builds and wraps in release builds. Neither outcome is modelled, so the source's behaviour at full capacity is not captured.
- TermIndex.TermIndexU.MakeIndex, TermIndex.TermIndexU.IncRef: require the count being raised to be below `MaxIndex(width)`. Counts have the index type, so in the source `i2c[i] += 1` at the top of that type panics or wraps; that overflow is not modelled.
- HashGraphs.HashGraph.InsertIndexed: carries the same two preconditions for the triple: room for its new terms (`NewTerms(…) <= Room()`), and counts that stay within the index width once each term is counted per occurrence (`Fits`). `InternAll`, `InternTwo`, `InternOne` and `Insert` carry them too.
- HashGraphs.HashGraph.InsertEach: requires every term's count plus its occurrences in the sequence to stay within the index width. A duplicate in the sequence takes and then returns its references, so this bound is stronger than the source needs when the sequence repeats a triple.
- HashGraphs.FromTripleSource: requires that the source's distinct terms fit the index width, and that each term's occurrences in the source fit in a count, with the same over-approximation for repeated triples as `InsertEach`. The source's error is modelled as raised once the items are exhausted, so no triple is lost to an early source failure. The size hint only sizes the hash set and does not affect the result, so it is not modelled.
- HashGraphs.HashGraph.WithCapacity: the capacity only reserves memory, so it has no effect in the model.
- HashGraphs.HashGraph.ShrinkToFit and TermIndex.TermIndexU.ShrinkToFit: only release memory, so they are modelled as state-preserving.
- SetGraph and SetDataset are marker traits with no operations. Their promise is carried by contracts instead:
  - for the graph, `InsertIndexed` returns `None` on a duplicate and `Triples` lists each triple once;
  - for `MemDataset`, `Valid()` says no quad appears twice and the counts are exact (`SetInsertAll`, `SetRemoveAll`).
- Fallible `quads()`: a dataset whose `quads()` stream itself fails is not modelled. The scans are functions of the dataset's quads.
- Streams.Source: a source raises its error, if any, only after its last item, so errors in the middle of a stream are not modelled. How many items one `try_for_some` call takes is the source's choice `k`, a ghost output.
- Streams.Source.SizeHint: returns the default `(0, None)` hint. Tighter, source-specific hints are not modelled.
- `filter_quads`, `filter_map_quads` and `map_quads` are adapters, and the adapter types they return are not part of this model.
- The `graph`, `graph_mut` and `union_graph` views build `DatasetGraph` adapters, which are not part of this model.
- The node-kind tests (`test_iris`, `test_bnodes`, `test_literals`, `test_variables`) and their fixtures `strict_node_types_quads` and `generalized_node_types_quads` are not modelled as scenarios. The extractors themselves are (`Datasets.Iris` and the rest).
- `dump_dataset` and `as_box_q` only print or convert for the tests, so they are left out.
- `fake_static` extends a borrow's lifetime for the `t2i` keys. It has no counterpart in a value model.
- Hash-set iteration order is not modelled: `Triples` promises each triple once in some order.
- The default `remove_matching` collects the matching quads first and converts the error through `Into`. The model removes from the matching scan of the old quads and keeps the mutation error as it is.
- MemDataset's mutation error type is unit and its mutations never fail. The generic `MutateAll`, `RemoveMatchingWith` and `RetainMatchingWith` cover failing mutations.
- The dataset suite runs against `MemDataset`, a sequence without duplicates standing in for any `SetDataset`. The `is_set = false` and `is_gen` variants of the suite are not modelled.
- Fixture IRIs are prefixed names such as `ex:C1`. Namespace expansion and IRI validation are not part of this model.
- Term factories and term data holders (`TermFactory`, `F::Holder`) are not modelled: terms are values.
