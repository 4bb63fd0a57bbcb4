/**
 * Whole-file scenarios: a spec file is extracted, its tags propagated, and
 * the tests filtered by effective tags or mapped to their effective tags.
 */
module PipelineScenarios {
  import opened Wrappers
  import opened Strings
  import opened Syntax
  import opened Structure
  import opened Builder
  import opened EffectiveTags
  import opened Queries
  import opened ExtractionScenarios
  import opened QueryScenarios

  lemma {:induction false} OneNode(e: Expr)
    ensures WalkSeq([e]).nodes == WalkExpr(e).nodes
  {
    WalkSeqCons(e, []);
    assert [e] + [] == [e];
  }

  lemma {:induction false} TwoNodes(e1: Expr, e2: Expr)
    ensures WalkSeq([e1, e2]).nodes == WalkExpr(e1).nodes + WalkExpr(e2).nodes
  {
    OneNode(e2);
    WalkSeqCons(e1, [e2]);
    assert [e1] + [e2] == [e1, e2];
  }

  lemma {:induction false} ThreeNodes(e1: Expr, e2: Expr, e3: Expr)
    ensures WalkSeq([e1, e2, e3]).nodes == WalkExpr(e1).nodes + WalkExpr(e2).nodes + WalkExpr(e3).nodes
  {
    TwoNodes(e2, e3);
    WalkSeqCons(e1, [e2, e3]);
    assert [e1] + [e2, e3] == [e1, e2, e3];
  }

  lemma {:induction false} SuiteNodes(tags: Option<seq<string>>, name: string, body: seq<Expr>)
    ensures WalkExpr(Describe(Args(tags, name, body))).nodes == [Group(name, tags, WalkSeq(body).nodes)]
  {
    SuiteWalk(tags, name, body);
  }

  lemma {:induction false} TestNodes(tags: Option<seq<string>>, name: string)
    ensures WalkExpr(It(Args(tags, name, []))).nodes == [Leaf(name, tags)]
  {
    TestWalk(tags, name, [], false);
  }

  // filterByEffectiveTags

  // describe([user], parent, () => {
  //   describe([auth], child, () => {
  //     it([one], a, () => {})
  //     it(b, () => {})
  //   })
  // })
  // describe([latest], outside, () => {
  //   it(c, () => {})
  // })
  function FilterFile(user: string, auth: string, one: string, latest: string,
                      parent: string, child: string, outside: string, a: string, b: string, c: string): Program
  {
    [Describe(Args(Some([user]), parent, [
       Describe(Args(Some([auth]), child, [It(Args(Some([one]), a, [])), It(Args(None, b, []))]))])),
     Describe(Args(Some([latest]), outside, [It(Args(None, c, []))]))]
  }

  function FilterTree(user: string, auth: string, one: string, latest: string,
                      parent: string, child: string, outside: string, a: string, b: string, c: string): seq<Node>
  {
    [Group(parent, Some([user]), [
       Group(child, Some([auth]), [Leaf(a, Some([one])), Leaf(b, None)])]),
     Group(outside, Some([latest]), [Leaf(c, None)])]
  }

  /** The extraction's structure is the tree of suites and tests the walk finds. */
  lemma {:induction false} StructureIsWalk(program: Program)
    ensures GetTestNames(program, true).structure == Some(WalkSeq(program).nodes)
  {
  }

  lemma {:induction false} FilterChildNodes(auth: string, one: string, child: string, a: string, b: string)
    ensures WalkExpr(Describe(Args(Some([auth]), child, [It(Args(Some([one]), a, [])), It(Args(None, b, []))]))).nodes
         == [Group(child, Some([auth]), [Leaf(a, Some([one])), Leaf(b, None)])]
  {
    var ta, tb := It(Args(Some([one]), a, [])), It(Args(None, b, []));
    TestNodes(Some([one]), a);
    TestNodes(None, b);
    TwoNodes(ta, tb);
    assert WalkSeq([ta, tb]).nodes == [Leaf(a, Some([one])), Leaf(b, None)];
    SuiteNodes(Some([auth]), child, [ta, tb]);
    assert WalkExpr(Describe(Args(Some([auth]), child, [ta, tb]))).nodes == [Group(child, Some([auth]), WalkSeq([ta, tb]).nodes)];
  }

  lemma {:induction false} FilterOutsideNodes(latest: string, outside: string, c: string)
    ensures WalkExpr(Describe(Args(Some([latest]), outside, [It(Args(None, c, []))]))).nodes
         == [Group(outside, Some([latest]), [Leaf(c, None)])]
  {
    TestNodes(None, c);
    OneNode(It(Args(None, c, [])));
    SuiteNodes(Some([latest]), outside, [It(Args(None, c, []))]);
  }

  lemma {:induction false} FilterFileNodes(user: string, auth: string, one: string, latest: string,
                        parent: string, child: string, outside: string, a: string, b: string, c: string)
    ensures WalkSeq(FilterFile(user, auth, one, latest, parent, child, outside, a, b, c)).nodes
         == FilterTree(user, auth, one, latest, parent, child, outside, a, b, c)
  {
    var ch := Describe(Args(Some([auth]), child, [It(Args(Some([one]), a, [])), It(Args(None, b, []))]));
    FilterChildNodes(auth, one, child, a, b);
    OneNode(ch);
    SuiteNodes(Some([user]), parent, [ch]);
    FilterOutsideNodes(latest, outside, c);
    var program := FilterFile(user, auth, one, latest, parent, child, outside, a, b, c);
    TwoNodes(program[0], program[1]);
  }

  lemma {:induction false} FilterTreePaths(user: string, auth: string, one: string, latest: string,
                        parent: string, child: string, outside: string, a: string, b: string, c: string)
    ensures var tree := FilterTree(user, auth, one, latest, parent, child, outside, a, b, c);
      Paths(tree, []) == [Path([tree[0], tree[0].children[0]], Leaf(a, Some([one]))),
                          Path([tree[0], tree[0].children[0]], Leaf(b, None)),
                          Path([tree[1]], Leaf(c, None))]
  {
    var la, lb, lc := Leaf(a, Some([one])), Leaf(b, None), Leaf(c, None);
    var ch := Group(child, Some([auth]), [la, lb]);
    var p := Group(parent, Some([user]), [ch]);
    var o := Group(outside, Some([latest]), [lc]);
    assert FilterTree(user, auth, one, latest, parent, child, outside, a, b, c) == [p] + [o];
    PathsCons(p, [o], []);
    assert [] + [p] == [p];
    PathsOfSuite(ch, [p]);
    assert [p] + [ch] == [p, ch];
    PathsOfTwo(la, lb, [p, ch]);
    PathsOfSuite(o, []);
    assert [] + [o] == [o];
    PathsOfOne(lc, [o]);
  }

  /** The names of a list of tests. */
  function NamesIn(ns: seq<Node>): (r: seq<Option<string>>)
    ensures |r| == |ns|
  {
    seq(|ns|, i requires 0 <= i < |ns| => ns[i].name)
  }

  lemma {:induction false} MatchesOne(p: Path, x: string)
    ensures Matches(p, [x]) <==> Carries(p, x)
  {
    if Carries(p, x) {
      assert x in [x];
    }
  }

  lemma {:induction false} SelectPathsOfThree(p: Path, q: Path, u: Path, query: seq<string>)
    ensures SelectPaths([p, q, u], query)
         == (if Matches(p, query) then [Tagged(p)] else [])
          + (if Matches(q, query) then [Tagged(q)] else [])
          + (if Matches(u, query) then [Tagged(u)] else [])
  {
    assert [u][1..] == [];
    assert SelectPaths([u], query) == (if Matches(u, query) then [Tagged(u)] else []) + [];
    assert [q, u][1..] == [u];
    assert SelectPaths([q, u], query) == (if Matches(q, query) then [Tagged(q)] else []) + SelectPaths([u], query);
    assert [p, q, u][1..] == [q, u];
    assert SelectPaths([p, q, u], query) == (if Matches(p, query) then [Tagged(p)] else []) + SelectPaths([q, u], query);
  }

  lemma {:induction false} NamesInAppend(a: seq<Node>, b: seq<Node>)
    ensures NamesIn(a + b) == NamesIn(a) + NamesIn(b)
  {
  }

  /** The names of the tests selected among three paths. */
  lemma {:induction false} NamesOfSelectedThree(p: Path, q: Path, u: Path, query: seq<string>)
    requires p.test.Test? && q.test.Test? && u.test.Test?
    ensures NamesIn(SelectPaths([p, q, u], query))
         == (if Matches(p, query) then [p.test.name] else [])
          + (if Matches(q, query) then [q.test.name] else [])
          + (if Matches(u, query) then [u.test.name] else [])
  {
    SelectPathsOfThree(p, q, u, query);
    var sp := if Matches(p, query) then [Tagged(p)] else [];
    var sq := if Matches(q, query) then [Tagged(q)] else [];
    var su := if Matches(u, query) then [Tagged(u)] else [];
    NamesInAppend(sp, sq);
    NamesInAppend(sp + sq, su);
  }

  /** A path matches a one-tag query when its chain and test tags hold the tag. */
  lemma {:induction false} MatchesAlong(p: Path, x: string, tags: seq<string>)
    requires ChainTags(p.chain) + OwnTags(p.test) == tags
    ensures Matches(p, [x]) <==> x in tags
  {
    MatchesOne(p, x);
  }

  /** The names selected by a one-tag query among the tree's paths. */
  lemma {:induction false} FilterTreeSelects(user: string, auth: string, one: string, latest: string,
                           parent: string, child: string, outside: string, a: string, b: string, c: string,
                           x: string)
    ensures NamesIn(SelectPaths(Paths(FilterTree(user, auth, one, latest, parent, child, outside, a, b, c), []), [x]))
         == (if x in [user, auth, one] then [Some(a)] else [])
          + (if x in [user, auth] then [Some(b)] else [])
          + (if x == latest then [Some(c)] else [])
  {
    var la, lb, lc := Leaf(a, Some([one])), Leaf(b, None), Leaf(c, None);
    var ch := Group(child, Some([auth]), [la, lb]);
    var pa := Group(parent, Some([user]), [ch]);
    var o := Group(outside, Some([latest]), [lc]);
    FilterTreePaths(user, auth, one, latest, parent, child, outside, a, b, c);
    var p0, p1, p2 := Path([pa, ch], la), Path([pa, ch], lb), Path([o], lc);
    assert Paths(FilterTree(user, auth, one, latest, parent, child, outside, a, b, c), []) == [p0, p1, p2];
    ChainTagsOfTwo(pa, ch);
    ChainTagsOfTwo(o, o);
    MatchesAlong(p0, x, [user, auth] + [one]);
    MatchesAlong(p1, x, [user, auth] + []);
    MatchesAlong(p2, x, [latest] + []);
    assert [user, auth] + [one] == [user, auth, one];
    assert [user, auth] + [] == [user, auth];
    assert [latest] + [] == [latest];
    NamesOfSelectedThree(p0, p1, p2, [x]);
  }

  /**
   * Querying one tag over the propagated tree: `works a` carries the tags of
   * both suites and its own, `works b` only those of both suites, and
   * `works c` only that of its own suite.
   */
  lemma {:induction false} FilterTreeByOneTag(user: string, auth: string, one: string, latest: string,
                           parent: string, child: string, outside: string, a: string, b: string, c: string,
                           x: string)
    ensures NamesIn(FilterByEffectiveTags(
              FromStructure(SetEffectiveTags(FilterTree(user, auth, one, latest, parent, child, outside, a, b, c))), [x]))
         == (if x in [user, auth, one] then [Some(a)] else [])
          + (if x in [user, auth] then [Some(b)] else [])
          + (if x == latest then [Some(c)] else [])
  {
    FilterPropagatedStructure(FilterTree(user, auth, one, latest, parent, child, outside, a, b, c), [x]);
    FilterTreeSelects(user, auth, one, latest, parent, child, outside, a, b, c, x);
  }

  /** The file holds three tests. */
  lemma {:induction false} FilterFileCount(user: string, auth: string, one: string, latest: string,
                        parent: string, child: string, outside: string, a: string, b: string, c: string)
    ensures GetTestNames(FilterFile(user, auth, one, latest, parent, child, outside, a, b, c), true).testCount == Some(3)
  {
    var program := FilterFile(user, auth, one, latest, parent, child, outside, a, b, c);
    FilterFileNodes(user, auth, one, latest, parent, child, outside, a, b, c);
    StructureIsWalk(program);
    FilterTreePaths(user, auth, one, latest, parent, child, outside, a, b, c);
  }

  /** Filtering the file's text gives the tests that filtering its propagated tree gives. */
  lemma {:induction false} FilterFileByOneTag(user: string, auth: string, one: string, latest: string,
                           parent: string, child: string, outside: string, a: string, b: string, c: string,
                           x: string)
    ensures NamesIn(FilterByEffectiveTags(FromSource(FilterFile(user, auth, one, latest, parent, child, outside, a, b, c)), [x]))
         == (if x in [user, auth, one] then [Some(a)] else [])
          + (if x in [user, auth] then [Some(b)] else [])
          + (if x == latest then [Some(c)] else [])
  {
    var program := FilterFile(user, auth, one, latest, parent, child, outside, a, b, c);
    FilterFileNodes(user, auth, one, latest, parent, child, outside, a, b, c);
    StructureIsWalk(program);
    FilterSourceMatchesStructure(program, [x]);
    FilterTreeByOneTag(user, auth, one, latest, parent, child, outside, a, b, c, x);
  }

  // findEffectiveTestTags

  // describe([user], parent, () => {
  //   describe([auth], child, () => {
  //     it([one], a, () => {})
  //     it(b, () => {})
  //   })
  // })
  // it([root], top, () => {})
  // it.skip(untagged)
  function MixedFile(user: string, auth: string, one: string, root: string,
                     parent: string, child: string, a: string, b: string, top: string, untagged: string): Program
  {
    [Describe(Args(Some([user]), parent, [
       Describe(Args(Some([auth]), child, [It(Args(Some([one]), a, [])), It(Args(None, b, []))]))])),
     It(Args(Some([root]), top, [])),
     ItSkip([StrLit(untagged)])]
  }

  function MixedTree(user: string, auth: string, one: string, root: string,
                     parent: string, child: string, a: string, b: string, top: string, untagged: string): seq<Node>
  {
    [Group(parent, Some([user]), [
       Group(child, Some([auth]), [Leaf(a, Some([one])), Leaf(b, None)])]),
     Leaf(top, Some([root])),
     Test(Some(untagged), None, true, None)]
  }

  /** A skipped test with only a name and no callback. */
  lemma {:induction false} SkippedNameOnly(name: string)
    ensures WalkExpr(ItSkip([StrLit(name)])).nodes == [Test(Some(name), None, true, None)]
  {
  }

  lemma {:induction false} MixedFileNodes(user: string, auth: string, one: string, root: string,
                       parent: string, child: string, a: string, b: string, top: string, untagged: string)
    ensures WalkSeq(MixedFile(user, auth, one, root, parent, child, a, b, top, untagged)).nodes
         == MixedTree(user, auth, one, root, parent, child, a, b, top, untagged)
  {
    var ch := Describe(Args(Some([auth]), child, [It(Args(Some([one]), a, [])), It(Args(None, b, []))]));
    FilterChildNodes(auth, one, child, a, b);
    OneNode(ch);
    SuiteNodes(Some([user]), parent, [ch]);
    TestNodes(Some([root]), top);
    SkippedNameOnly(untagged);
    var program := MixedFile(user, auth, one, root, parent, child, a, b, top, untagged);
    ThreeNodes(program[0], program[1], program[2]);
  }

  lemma {:induction false} ChainNamesOfTwo(s: Node, u: Node)
    ensures ChainNames([s, u]) == NameList(s.name) + NameList(u.name)
  {
    assert [s, u][..1] == [s] && [s][..0] == [];
    assert ChainNames([s]) == NameList(s.name);
  }

  /** The entry of a path, given the names and tags collected along it. */
  lemma {:induction false} EntryAlong(p: Path, names: seq<string>, tags: seq<string>)
    requires ChainNames(p.chain) + NameList(p.test.name) == names
    requires ChainTags(p.chain) + OwnTags(p.test) == tags
    ensures Entry(QualifiedName(p), EffectiveOf(p)) == Entry(JoinWords(names), SortUnique(tags))
  {
  }

  /** The four root-to-test paths of the mixed tree, in source order. */
  function MixedPathList(user: string, auth: string, one: string, root: string,
                         parent: string, child: string, a: string, b: string, top: string, untagged: string): seq<Path>
  {
    var la, lb := Leaf(a, Some([one])), Leaf(b, None);
    var ch := Group(child, Some([auth]), [la, lb]);
    var pa := Group(parent, Some([user]), [ch]);
    [Path([pa, ch], la), Path([pa, ch], lb),
     Path([], Leaf(top, Some([root]))), Path([], Test(Some(untagged), None, true, None))]
  }

  lemma {:induction false} MixedTreePaths(user: string, auth: string, one: string, root: string,
                       parent: string, child: string, a: string, b: string, top: string, untagged: string)
    ensures Paths(MixedTree(user, auth, one, root, parent, child, a, b, top, untagged), [])
         == MixedPathList(user, auth, one, root, parent, child, a, b, top, untagged)
  {
    var tree := MixedTree(user, auth, one, root, parent, child, a, b, top, untagged);
    var pa, lt, ln := tree[0], tree[1], tree[2];
    var ch := pa.children[0];
    var la, lb := ch.children[0], ch.children[1];
    assert tree == [pa] + [lt, ln];
    PathsCons(pa, [lt, ln], []);
    assert [] + [pa] == [pa];
    PathsOfSuite(ch, [pa]);
    assert [pa] + [ch] == [pa, ch];
    assert ch.children == [la, lb];
    PathsOfTwo(la, lb, [pa, ch]);
    PathsOfTwo(lt, ln, []);
  }

  lemma {:induction false} MixedPaths(user: string, auth: string, one: string, root: string,
                   parent: string, child: string, a: string, b: string, top: string, untagged: string)
    ensures SourcePaths(MixedFile(user, auth, one, root, parent, child, a, b, top, untagged))
         == MixedPathList(user, auth, one, root, parent, child, a, b, top, untagged)
  {
    var program := MixedFile(user, auth, one, root, parent, child, a, b, top, untagged);
    MixedFileNodes(user, auth, one, root, parent, child, a, b, top, untagged);
    StructureIsWalk(program);
    MixedTreePaths(user, auth, one, root, parent, child, a, b, top, untagged);
  }

  /** The `i`-th entry of the file is the `i`-th path's qualified name and effective tags. */
  lemma {:induction false} MixedEntriesFollowPaths(user: string, auth: string, one: string, root: string,
                                parent: string, child: string, a: string, b: string, top: string, untagged: string)
    ensures var ps := MixedPathList(user, auth, one, root, parent, child, a, b, top, untagged);
      SourceEntries(MixedFile(user, auth, one, root, parent, child, a, b, top, untagged))
        == [Entry(QualifiedName(ps[0]), EffectiveOf(ps[0])), Entry(QualifiedName(ps[1]), EffectiveOf(ps[1])),
            Entry(QualifiedName(ps[2]), EffectiveOf(ps[2])), Entry(QualifiedName(ps[3]), EffectiveOf(ps[3]))]
  {
    var program := MixedFile(user, auth, one, root, parent, child, a, b, top, untagged);
    var ps := MixedPathList(user, auth, one, root, parent, child, a, b, top, untagged);
    MixedPaths(user, auth, one, root, parent, child, a, b, top, untagged);
    SourceEntriesFollowPaths(program);
    EntriesOfFour(SourceEntries(program), Entry(QualifiedName(ps[0]), EffectiveOf(ps[0])), Entry(QualifiedName(ps[1]), EffectiveOf(ps[1])),
                  Entry(QualifiedName(ps[2]), EffectiveOf(ps[2])), Entry(QualifiedName(ps[3]), EffectiveOf(ps[3])));
  }

  /** The entry of a test two suites deep: the three names joined, and the three nodes' tags sorted. */
  lemma {:induction false} NestedEntry(pa: Node, ch: Node, t: Node, names: seq<string>, tags: seq<string>)
    requires NameList(pa.name) + NameList(ch.name) + NameList(t.name) == names
    requires OwnTags(pa) + OwnTags(ch) + OwnTags(t) == tags
    ensures Entry(QualifiedName(Path([pa, ch], t)), EffectiveOf(Path([pa, ch], t)))
         == Entry(JoinWords(names), SortUnique(tags))
  {
    ChainTagsOfTwo(pa, ch);
    ChainNamesOfTwo(pa, ch);
    EntryAlong(Path([pa, ch], t), names, tags);
  }

  /** The entry of a top-level test: its own name, and its own tags sorted. */
  lemma {:induction false} TopEntry(t: Node, name: string)
    requires t.name == Some(name)
    ensures Entry(QualifiedName(Path([], t)), EffectiveOf(Path([], t))) == Entry(name, SortUnique(OwnTags(t)))
  {
    assert ChainNames([]) + NameList(t.name) == [name];
    assert ChainTags([]) + OwnTags(t) == OwnTags(t);
    EntryAlong(Path([], t), [name], OwnTags(t));
  }

  /** The entries along the file's four paths. */
  lemma {:induction false} MixedPathEntries(user: string, auth: string, one: string, root: string,
                     parent: string, child: string, a: string, b: string, top: string, untagged: string)
    ensures var ps := MixedPathList(user, auth, one, root, parent, child, a, b, top, untagged);
      [Entry(QualifiedName(ps[0]), EffectiveOf(ps[0])), Entry(QualifiedName(ps[1]), EffectiveOf(ps[1])),
       Entry(QualifiedName(ps[2]), EffectiveOf(ps[2])), Entry(QualifiedName(ps[3]), EffectiveOf(ps[3]))]
        == [Entry(JoinWords([parent, child, a]), SortUnique([user, auth, one])),
            Entry(JoinWords([parent, child, b]), SortUnique([user, auth])),
            Entry(top, SortUnique([root])),
            Entry(untagged, [])]
  {
    var la, lb := Leaf(a, Some([one])), Leaf(b, None);
    var ch := Group(child, Some([auth]), [la, lb]);
    var pa := Group(parent, Some([user]), [ch]);
    var lt, ln := Leaf(top, Some([root])), Test(Some(untagged), None, true, None);
    assert MixedPathList(user, auth, one, root, parent, child, a, b, top, untagged)
        == [Path([pa, ch], la), Path([pa, ch], lb), Path([], lt), Path([], ln)];
    NestedEntry(pa, ch, la, [parent, child, a], [user, auth, one]);
    NestedEntry(pa, ch, lb, [parent, child, b], [user, auth]);
    TopEntry(lt, top);
    TopEntry(ln, untagged);
    assert SortUnique([]) == [];
  }

  /** The entries of the file: the nested tests qualified by both suite names, the top-level ones by their own. */
  lemma {:induction false} MixedEntries(user: string, auth: string, one: string, root: string,
                     parent: string, child: string, a: string, b: string, top: string, untagged: string)
    ensures SourceEntries(MixedFile(user, auth, one, root, parent, child, a, b, top, untagged))
         == [Entry(JoinWords([parent, child, a]), SortUnique([user, auth, one])),
             Entry(JoinWords([parent, child, b]), SortUnique([user, auth])),
             Entry(top, SortUnique([root])),
             Entry(untagged, [])]
  {
    MixedEntriesFollowPaths(user, auth, one, root, parent, child, a, b, top, untagged);
    MixedPathEntries(user, auth, one, root, parent, child, a, b, top, untagged);
  }

  /** A list of four entries, given entry by entry. */
  lemma {:induction false} EntriesOfFour(es: seq<Entry>, e0: Entry, e1: Entry, e2: Entry, e3: Entry)
    requires |es| == 4 && es[0] == e0 && es[1] == e1 && es[2] == e2 && es[3] == e3
    ensures es == [e0, e1, e2, e3]
  {
  }

  /** The mapping built from four entries, the later ones replacing earlier ones with the same name. */
  lemma {:induction false} ToMapOfFour(e0: Entry, e1: Entry, e2: Entry, e3: Entry)
    ensures ToMap([e0, e1, e2, e3])
         == map[e0.qualifiedName := e0.tags, e1.qualifiedName := e1.tags,
                e2.qualifiedName := e2.tags, e3.qualifiedName := e3.tags]
  {
    assert [e0, e1, e2, e3][..3] == [e0, e1, e2];
    assert [e0, e1, e2][..2] == [e0, e1];
    assert [e0, e1][..1] == [e0];
    assert [e0][..0] == [];
    assert ToMap([e0]) == map[e0.qualifiedName := e0.tags];
    assert ToMap([e0, e1]) == map[e0.qualifiedName := e0.tags, e1.qualifiedName := e1.tags];
    assert ToMap([e0, e1, e2])
        == map[e0.qualifiedName := e0.tags, e1.qualifiedName := e1.tags, e2.qualifiedName := e2.tags];
  }

  /** Three tags in alphabetical order, given in any order, come out sorted. */
  lemma {:induction false} SortThree(x: string, y: string, z: string)
    requires Less(x, y) && Less(y, z)
    ensures SortUnique([z, x, y]) == [x, y, z]
    ensures SortUnique([z, x]) == [x, z]
  {
    LessTransitive(x, y, z);
    SortUniqueCanonical([z, x, y], [x, y, z]);
    SortUniqueOfSorted([x, y, z]);
    SortUniqueCanonical([z, x], [x, z]);
    SortUniqueOfSorted([x, z]);
  }

  /**
   * Every test's qualified name maps to its effective tags, sorted: the
   * nested tests' names are prefixed by both suite names, and the skipped
   * test without tags maps to an empty list.
   */
  lemma {:induction false} MixedFileTags(user: string, auth: string, one: string, root: string,
                      parent: string, child: string, a: string, b: string, top: string, untagged: string)
    requires Less(auth, one) && Less(one, user)
    ensures FindEffectiveTestTags(MixedFile(user, auth, one, root, parent, child, a, b, top, untagged))
         == map[JoinWords([parent, child, a]) := [auth, one, user],
                JoinWords([parent, child, b]) := [auth, user],
                top := [root],
                untagged := []]
  {
    MixedEntries(user, auth, one, root, parent, child, a, b, top, untagged);
    SortThree(auth, one, user);
    SortUniqueOfSorted([root]);
    ToMapOfFour(Entry(JoinWords([parent, child, a]), [auth, one, user]),
                Entry(JoinWords([parent, child, b]), [auth, user]),
                Entry(top, [root]), Entry(untagged, []));
  }

  /** The tags of the test file are in that order. */
  lemma {:induction false} TagOrder()
    ensures Less("@auth", "@one") && Less("@one", "@user")
  {
  }

  // visitEachTest

  /** `it(a, () => {}); it(b, () => {})`: two tests, each visited once, neither inside a suite. */
  lemma {:induction false} VisitsTwoTopLevelTests(a: string, b: string)
    ensures var r := GetTestNames([It(Args(None, a, [])), It(Args(None, b, []))], true);
      && r.testCount == Some(2)
      && VisitEachTest(r.structure.value) == [Visit(Leaf(a, None), None), Visit(Leaf(b, None), None)]
  {
    var program := [It(Args(None, a, [])), It(Args(None, b, []))];
    TestNodes(None, a);
    TestNodes(None, b);
    TwoNodes(program[0], program[1]);
    StructureIsWalk(program);
    PathsOfTwo(Leaf(a, None), Leaf(b, None), []);
    VisitFollowsPaths([Leaf(a, None), Leaf(b, None)], [], 0);
    VisitFollowsPaths([Leaf(a, None), Leaf(b, None)], [], 1);
  }

  // describe(parent, () => {
  //   describe(inner1, () => { it([user], a, () => {}) })
  //   describe(inner2, () => { it(b, () => {}) })
  // })
  function InfoFile(user: string, parent: string, inner1: string, inner2: string, a: string, b: string): Program
  {
    [Describe(Args(None, parent, [
       Describe(Args(None, inner1, [It(Args(Some([user]), a, []))])),
       Describe(Args(None, inner2, [It(Args(None, b, []))]))]))]
  }

  lemma {:induction false} InfoFileNodes(user: string, parent: string, inner1: string, inner2: string, a: string, b: string)
    ensures WalkSeq(InfoFile(user, parent, inner1, inner2, a, b)).nodes
         == [Group(parent, None, [Group(inner1, None, [Leaf(a, Some([user]))]), Group(inner2, None, [Leaf(b, None)])])]
  {
    var program := InfoFile(user, parent, inner1, inner2, a, b);
    var d1 := Describe(Args(None, inner1, [It(Args(Some([user]), a, []))]));
    var d2 := Describe(Args(None, inner2, [It(Args(None, b, []))]));
    var i1 := Group(inner1, None, [Leaf(a, Some([user]))]);
    var i2 := Group(inner2, None, [Leaf(b, None)]);
    TestNodes(Some([user]), a);
    TestNodes(None, b);
    OneNode(It(Args(Some([user]), a, [])));
    OneNode(It(Args(None, b, [])));
    SuiteNodes(None, inner1, [It(Args(Some([user]), a, []))]);
    SuiteNodes(None, inner2, [It(Args(None, b, []))]);
    assert WalkExpr(d1).nodes == [i1] && WalkExpr(d2).nodes == [i2];
    TwoNodes(d1, d2);
    assert WalkSeq([d1, d2]).nodes == [i1, i2];
    SuiteNodes(None, parent, [d1, d2]);
    assert program == [Describe(Args(None, parent, [d1, d2]))];
    OneNode(program[0]);
  }

  /**
   * The visitor receives only tests, none of them pending; the tagged test
   * keeps exactly its own tags and the untagged one has none; each comes
   * with its own inner suite.
   */
  lemma {:induction false} PassesTestInfo(user: string, parent: string, inner1: string, inner2: string, a: string, b: string)
    ensures var i1 := Group(inner1, None, [Leaf(a, Some([user]))]);
      var i2 := Group(inner2, None, [Leaf(b, None)]);
      var vs := VisitEachTest(GetTestNames(InfoFile(user, parent, inner1, inner2, a, b), true).structure.value);
      && vs == [Visit(Leaf(a, Some([user])), Some(i1)), Visit(Leaf(b, None), Some(i2))]
      && forall v :: v in vs ==> v.test.Test? && !v.test.pending
  {
    var program := InfoFile(user, parent, inner1, inner2, a, b);
    InfoFileNodes(user, parent, inner1, inner2, a, b);
    StructureIsWalk(program);
    VisitsEachInnerSuite(user, parent, inner1, inner2, a, b);
  }
}
