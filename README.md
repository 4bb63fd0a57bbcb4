# find-test-names, modelled in Dafny

This project models the core of `find-test-names`. The library reads a
`describe`/`it` spec file without running it and recovers its suites and
tests. For each one it records the name, its own tags and whether it is
pending (`.skip`). It then answers tag queries over the nested tree.

The repository's behaviour is pinned down by its ava test files
(`test/*.js`). The model is written against them:

- `Syntax`: the spec file as an already-parsed tree (`Expr`), and the
  recognizer for `describe` / `it`, with or without the `.skip` and `.only`
  modifiers.
- `Resolver`: the argument-shape resolver. A leading array literal supplies
  the own tags, keeping its string-literal entries. The next argument supplies
  the name only when it is a plain string literal.
- `Structure`: suite and test nodes, the flat record list, and the
  root-to-test paths (`Paths`) that every query is proved against.
- `Builder`: `getTestNames`. One depth-first pass builds the nested tree, the
  post-order flat `tests` list, `suiteNames`, `testNames` and `testCount`.
  `structure` and `testCount` are present only when asked for.
- `EffectiveTags`: `setEffectiveTags` on values. Each node gets the sorted,
  duplicate-free union of its own tags and every enclosing suite's own tags.
  `MutableStructure.StructureRef` wraps that as the in-place update the caller
  sees. `countTags` also attaches effective tags to the structure it is given,
  so the reference holds a propagated tree after counting too.
- `Strings`: alphabetical order on strings, the sorted/deduplicated normal
  form, and the space join. Dafny's own `<` on strings is the proper-prefix
  relation, so the order is defined here.
- `Queries`: `visitEachTest` as the list of (test, nearest enclosing suite)
  pairs it delivers, `countTags`, `filterByEffectiveTags` (given a structure
  or a spec file), and `findEffectiveTestTags`.
- `Visitors`: the callback loops the tests run during a visit. One is a visit
  counter; the other is a per-tag dictionary tally of own tags, updated in
  place.
- `ExtractionScenarios`, `QueryScenarios`, `PipelineScenarios`: each ava
  test is covered by a lemma, except the one that reads a fixture file (see
  "## Left out"). Names and tags are parameters, so a lemma covers the
  literal strings of the test and other choices of strings too. Three lemmas
  need conditions that the test's own strings meet: `AllTagsCombine` and
  `CollectsTestTags` need the test's tags to be distinct, and `MixedFileTags`
  needs them in the test's alphabetical order. Other lemmas hold for every
  choice. The trees in `QueryScenarios` are the trees extraction builds from
  the tests' `describe`/`it` sources (`PipelineScenarios.SuiteNodes`,
  `PipelineScenarios.TestNodes`).

A concatenation of string literals (`'super' + ' ' + 'test'`) resolves to no
name (test/dynamic-names.js:39-53). It does not resolve to the concatenated
text.

## Model

| member | source | states |
|---|---|---|
| Syntax.Recognize | test/tags.js:59-84 | a callee is recognized exactly when it is `describe`/`it`, alone or with `.skip`/`.only`; the kind is suite exactly for `describe`; pending exactly when the modifier is `skip` |
| Resolver.LiteralTags | test/tags.js:86-111 | the tags of a tag array are exactly its string-literal entries; when all entries are literals there is one tag per entry, in entry order |
| Resolver.LiteralTagsAppend | test/tags.js:86-111 | the literals of two runs of entries are those of the first run followed by those of the second, so literal order is kept when non-literal entries are mixed in |
| Resolver.StaticName | test/dynamic-names.js:5-72 | a name argument resolves exactly when it is a string literal, and then to that literal's text |
| Resolver.Resolve | test/tags.js:5-30 | own tags are present exactly when the first argument is an array literal, and they are its literal entries; the name is present exactly when the argument after the tag array (or the first argument) is a string literal |
| Resolver.TagsAndNameIndependent | test/dynamic-names.js:21-37 | the name argument never changes the resolved tags, and the tag array never changes the resolved name |
| Resolver.NonLiteralNameGivesNothing | test/dynamic-names.js:39-72 | an identifier, member access, concatenation or call as first argument gives neither a name nor tags |
| Builder.WalkExprConsistent | test/tags.js:16-28 | for every expression, the flat list is the built tree in post-order; suiteNames/testNames are the resolved names of that list's suites/tests; the count is the tree's number of tests; no node has effective tags |
| Builder.GetTestNames | test/tags.js:13-29 | structure and testCount are present exactly when requested; the name lists are the resolved names in the post-order flat list; the flat list is the structure in post-order and testCount its number of tests |
| Builder.StructureFlagOnlyAddsFields | test/tags.js:13-29 | without the structure flag the result equals the flagged result with `structure` and `testCount` removed |
| Builder.TestCountMatchesFlatList | test/filter-by-effective-tags.js:23-24 | testCount equals the number of test entries in the flat `tests` list |
| Structure.PostOrderCountsTests | test/visit-each-test.js:11-12 | the post-order flat list holds exactly one test entry per test of the tree |
| Structure.PathShape | test/visit-each-test.js:173-196 | every root-to-test path descends suite by suite from the roots, and its test is a direct child of the last suite of its chain |
| Strings.SortUnique | test/find-effective-tags.js:19-24 | the result is strictly alphabetically sorted (so duplicate-free) and holds exactly the input's strings |
| Strings.SortedUnique | test/find-effective-tags.js:21-22 | two strictly sorted lists with the same elements are equal, so the sorted tag list is unique |
| Strings.LessTransitive | test/find-effective-tags.js:21-22 | alphabetical order is transitive |
| Strings.LessTotal | test/find-effective-tags.js:21-22 | any two different strings are ordered one way or the other |
| EffectiveTags.PropagateSpec | test/filter-by-effective-tags.js:26 | propagation changes nothing but `effectiveTags`, keeps every test, and gives each node the sorted union of the inherited tags and its own, passing a suite's own tags on to its children |
| EffectiveTags.SetEffectiveTags | test/filter-by-effective-tags.js:26 | after propagation from the roots, every node's effective tags are sorted, duplicate-free and exactly its own plus all ancestor suites' own tags; nothing else changes |
| EffectiveTags.SetEffectiveTagsIdempotent | test/filter-by-effective-tags.js:26 | propagating an already propagated structure gives the same structure |
| EffectiveTags.PropagateIgnoresOldEffectiveTags | test/count-tags.js:13-14 | propagation depends only on names, tags and nesting, never on effective tags already attached |
| EffectiveTags.EffectiveIncludesOwn | test/find-effective-tags.js:21-22 | a node's effective tags include all its own tags |
| MutableStructure.StructureRef.SetEffectiveTags | test/filter-by-effective-tags.js:26-27 | the held structure is replaced by its propagated form (only effective tags change) and the same object is returned |
| MutableStructure.StructureRef.CountTags | test/count-tags.js:13-15 | the counts are those of the held tree, and afterwards the reference holds that tree with effective tags attached |
| MutableStructure.StructureRef.FilterByEffectiveTags | test/filter-by-effective-tags.js:27 | filters the tree the reference currently holds |
| MutableStructure.CountThenFilter | test/filter-by-effective-tags.js:26-40 | counting through a reference and then filtering through it selects, in source order, exactly the tests carrying a query tag, with no explicit propagation |
| MutableStructure.SetEffectiveTagsTwice | test/filter-by-effective-tags.js:26 | propagating twice in place leaves the structure as one propagation does |
| Queries.VisitEachTest | test/visit-each-test.js:5-79 | the visitor is called as many times as the structure has tests at any depth, and every visited node is a test, never a suite |
| Queries.VisitFollowsPaths | test/visit-each-test.js:155-196 | the i-th visit delivers the i-th root-to-test path's test with the innermost suite of its chain as parent |
| Queries.VisitEachTestSpec | test/visit-each-test.js:97-99 | every visited node is a test; its parent is absent only for a root-level test, and otherwise is a suite whose children hold the test |
| Queries.PropagatedVisit | test/count-tags.js:13-14 | after propagation, the i-th visited test carries the sorted union of its own and all its ancestors' own tags |
| Queries.TallyCounts | test/visit-each-test.js:129-143 | the tally of tag lists has an entry exactly for the tags that occur, holding their number of occurrences |
| Queries.CountTags | test/count-tags.js:5-52 | a tag maps to the number of tests that carry it as own or inherited tag, each test counting once; tags carried by no test have no entry; no earlier propagation is needed |
| Queries.Select | test/filter-by-effective-tags.js:27-40 | every selected node is a visited test whose effective tags hit a query tag, and every visited test that hits one is selected |
| Queries.FilterByEffectiveTags | test/filter-by-effective-tags.js:27-40 | every returned node is a test whose effective tags contain one of the query tags |
| Queries.FilterPropagatedStructure | test/filter-by-effective-tags.js:32-40 | on a propagated structure the filter returns, in source order, exactly the tests carrying a query tag as own or any ancestor suite's tag |
| Queries.FilterSourceMatchesStructure | test/filter-by-effective-tags.js:43-50 | filtering a spec file equals extracting, propagating, then filtering its structure |
| Queries.QualifyFollowsPaths | test/find-effective-tags.js:19-24 | the i-th entry is the i-th test's qualified name (resolved suite names outermost first, then its own) with its effective tags |
| Queries.ToMapSpec | test/find-effective-tags.js:19-25 | the mapping's keys are exactly the entries' names, each mapped to the tags of an entry of that name |
| Queries.ToMapDistinct | test/find-effective-tags.js:19-25 | with distinct names, the mapping has one key per entry, mapped to that entry's tags |
| Queries.FindEffectiveTestTagsSpec | test/find-effective-tags.js:6-26 | the keys are exactly the tests' qualified names, never a suite's; each value is a sorted effective tag list of a test with that name |
| Queries.FindEffectiveTestTagsPerTest | test/find-effective-tags.js:19-25 | when qualified names differ, there is exactly one entry per test, holding its sorted own-plus-ancestor tags |
| Visitors.CountVisits | test/visit-each-test.js:14-18 | the callback counter ends at the number of tests |
| Visitors.AddTags | test/visit-each-test.js:136-142 | one callback: the dictionary afterwards counts one more occurrence of every tag in the list, starting absent tags at one |
| Visitors.TallyOwnTags | test/visit-each-test.js:129-143 | the dictionary tally built in the callback equals the tally of the visited tests' own tags |
| Visitors.OwnTallyMatchesCountTags | test/visit-each-test.js:150-152 | when no suite is tagged and no test repeats a tag, the own-tag tally equals `countTags` |
| ExtractionScenarios.TaggedTestInSuite | test/tags.js:5-84 | `describe(s, () => it([t], n))` (plain or `it.skip`) gives exactly `suiteNames [s]`, `testNames [n]`, the test before the suite, tags on the test only, pending only when skipped, and no structure or testCount |
| ExtractionScenarios.TaggedSuite | test/tags.js:86-111 | a suite's tag array stays on the suite and is not copied into its test's own tags |
| ExtractionScenarios.VariableAsName | test/dynamic-names.js:5-37 | a variable as name gives one unnamed, untagged, non-pending test and empty name lists |
| ExtractionScenarios.ConcatenatedName | test/dynamic-names.js:39-53 | a concatenation of literals as name gives one unnamed test |
| ExtractionScenarios.MemberAsName | test/dynamic-names.js:55-72 | a member access as name gives one unnamed test |
| QueryScenarios.SuiteTagReachesTests | test/count-tags.js:5-16 | a suite tag counts once for each of its two tests |
| QueryScenarios.OuterSuiteTagReachesTests | test/count-tags.js:18-31 | a tag reaches the tests through an untagged inner suite |
| QueryScenarios.AllTagsCombine | test/count-tags.js:33-52 | ancestor and own tags combine, each test counting once per distinct tag |
| QueryScenarios.VisitsEveryNestedTest | test/visit-each-test.js:57-79 | four tests in two inner suites are visited four times |
| QueryScenarios.VisitsWithNearestSuite | test/visit-each-test.js:173-196 | a test directly in `parent` is visited with `parent`, one in `inner` with `inner` |
| QueryScenarios.VisitsWithParentSuite | test/visit-each-test.js:155-171 | both tests of `parent` are visited with `parent` as parent suite; the two visits are also the counter of 2 for the same tree at test/visit-each-test.js:21-36 |
| QueryScenarios.VisitsInsideInnerSuite | test/visit-each-test.js:38-55 | the two tests of a suite nested in an untagged suite give exactly two visits, in order, each with the inner suite as parent |
| QueryScenarios.VisitsEachInnerSuite | test/visit-each-test.js:81-110 | the two tests are visited in order, each with its own inner suite |
| QueryScenarios.CollectsTestTags | test/visit-each-test.js:112-153 | the manual own-tag tally and `countTags` both give `{user: 1, tag1: 2, tag2: 1}` |
| PipelineScenarios.VisitsTwoTopLevelTests | test/visit-each-test.js:5-19 | two top-level `it` calls give testCount 2 and exactly two visits, neither inside a suite |
| PipelineScenarios.PassesTestInfo | test/visit-each-test.js:81-110 | every visited node is a non-pending test; the tagged test keeps exactly its own tags, the other has none |
| PipelineScenarios.FilterFileCount | test/filter-by-effective-tags.js:21-24 | the filter file holds three tests |
| PipelineScenarios.FilterTreeByOneTag | test/filter-by-effective-tags.js:26-40 | querying one tag returns `works a` for its own or either suite's tag, `works b` for either suite's tag, `works c` for its suite's tag, in source order |
| PipelineScenarios.FilterFileByOneTag | test/filter-by-effective-tags.js:43-50 | filtering the file's text by one tag gives the same tests, so `@user` yields `works a`, `works b` |
| PipelineScenarios.MixedFileTags | test/find-effective-tags.js:6-26 | the file maps `parent child works a` to `[auth, one, user]`, `parent child works b` to `[auth, user]`, the top test to `[root]` and the skipped untagged test to `[]` |
| PipelineScenarios.TagOrder | test/find-effective-tags.js:21-22 | `@auth` sorts before `@one`, which sorts before `@user` |

## Left out

- Parsing JavaScript source text into a syntax tree: the model takes the tree
  (`Syntax.Expr`) as input. The parser library and `src/` are not part of this
  model.
- `findEffectiveTestTagsIn` and the `test-cy/spec-a.js` fixture
  (test/find-effective-tags.js:28-37): they read a file from disk.
- `stripIndent`, and the ava harness calls (`t.plan`, `t.is`, `t.deepEqual`):
  foreign library calls. Each assertion is a lemma instead.
- Arbitrary callback code passed to `visitEachTest`: the visit is the list of
  (test, parent suite) pairs it delivers. The two callbacks the tests use are
  the methods in `Visitors`.
- Template literals, and skip status cascading from a suite to its tests: no
  test exercises them.
- Suite/test function families beyond `describe` and `it` (such as `context`
  or `specify`): no test uses them.
- The non-owning parent link on nodes: parents are computed by the traversal
  (`Visit.parent`, `Path.chain`), never stored.
- MutableStructure.StructureRef.SetEffectiveTags: replaces the held tree as a
  value. It does not model node-by-node mutation or aliasing of individual
  node objects held elsewhere.
- Queries.FilterByEffectiveTags: given a structure, it reads the effective
  tags already attached and does not propagate them itself. The tests always
  call `setEffectiveTags` first (test/filter-by-effective-tags.js:26). A
  structure that was never propagated yields no tests. Propagation through
  `StructureRef.SetEffectiveTags` or `StructureRef.CountTags` comes first.
- Queries.CountTags: the value-level function leaves the caller's tree
  untouched. The in-place attachment of effective tags that counting performs
  is `MutableStructure.StructureRef.CountTags`.
- Strings.Less: tags compare by Unicode code point. JavaScript's default
  `sort` compares UTF-16 code units, so the two orders differ for characters
  above U+FFFF against those in U+E000-U+FFFF. No test uses such characters.
- Visitors.AddTags: the callback dictionary is a plain map. In the tests it
  is a JavaScript object, where `tag in tags` also sees inherited keys such
  as `constructor` (test/visit-each-test.js:137). No test uses such a tag.
- Queries.FindEffectiveTestTags: when two tests share a qualified name, the
  later test's tags win, because the result is a plain key-value mapping.
