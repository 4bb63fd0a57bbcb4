/**
 * Structures of the shapes the queries are exercised on, with their names
 * and tags left as parameters, and what visiting, counting, filtering and
 * mapping give for every choice of them. Each tree is the one extraction
 * builds from the corresponding nest of `describe`/`it` calls: a call gives
 * a `Group` or a `Leaf` of its name and tags, holding the nodes of its
 * callback (`PipelineScenarios.SuiteNodes`, `PipelineScenarios.TestNodes`).
 */
module QueryScenarios {
  import opened Wrappers
  import opened Strings
  import opened Structure
  import opened EffectiveTags
  import opened Queries
  import opened Visitors

  /** A test that is not pending and has no effective tags yet. */
  function Leaf(name: string, tags: Option<seq<string>>): Node
  {
    Test(Some(name), tags, false, None)
  }

  /** A suite that is not pending and has no effective tags yet. */
  function Group(name: string, tags: Option<seq<string>>, children: seq<Node>): Node
  {
    Suite(Some(name), tags, false, None, children)
  }

  /** The paths of a list: those through its first node, then those of the rest. */
  lemma {:induction false} PathsCons(n: Node, rest: seq<Node>, chain: seq<Node>)
    ensures Paths([n] + rest, chain)
         == (if n.Test? then [Path(chain, n)] else Paths(n.children, chain + [n])) + Paths(rest, chain)
  {
    assert ([n] + rest)[0] == n && ([n] + rest)[1..] == rest;
  }

  lemma {:induction false} PathsOfOne(x: Node, chain: seq<Node>)
    requires x.Test?
    ensures Paths([x], chain) == [Path(chain, x)]
  {
    PathsCons(x, [], chain);
    assert [x] + [] == [x];
  }

  lemma {:induction false} PathsOfTwo(x: Node, y: Node, chain: seq<Node>)
    requires x.Test? && y.Test?
    ensures Paths([x, y], chain) == [Path(chain, x), Path(chain, y)]
  {
    PathsOfOne(y, chain);
    PathsCons(x, [y], chain);
    assert [x] + [y] == [x, y];
  }

  lemma {:induction false} PathsOfSuite(s: Node, chain: seq<Node>)
    requires s.Suite?
    ensures Paths([s], chain) == Paths(s.children, chain + [s])
  {
    PathsCons(s, [], chain);
    assert [s] + [] == [s];
  }

  lemma {:induction false} DistinctAt(s: seq<string>, i: nat, j: nat)
    requires Distinct(s) && i < |s| && j < |s| && i != j
    ensures s[i] != s[j]
  {
  }

  lemma {:induction false} ChainTagsOfTwo(s: Node, u: Node)
    ensures ChainTags([s]) == OwnTags(s)
    ensures ChainTags([s, u]) == OwnTags(s) + OwnTags(u)
  {
    assert [s][..0] == [] && [s, u][..1] == [s];
  }

  lemma {:induction false} CarriersOfTwo(p: Path, q: Path, t: string)
    ensures Carriers([p, q], t) == (if Carries(p, t) then 1 else 0) + (if Carries(q, t) then 1 else 0)
  {
    assert [p, q][..1] == [p] && [p][..0] == [];
    assert Carriers([p], t) == Carriers([], t) + (if Carries(p, t) then 1 else 0);
    assert Carriers([p, q], t) == Carriers([p], t) + (if Carries(q, t) then 1 else 0);
  }

  lemma {:induction false} CarriersOfThree(p: Path, q: Path, u: Path, t: string)
    ensures Carriers([p, q, u], t)
         == (if Carries(p, t) then 1 else 0) + (if Carries(q, t) then 1 else 0) + (if Carries(u, t) then 1 else 0)
  {
    CarriersOfTwo(p, q, t);
    assert [p, q, u][..2] == [p, q];
    assert Carriers([p, q, u], t) == Carriers([p, q], t) + (if Carries(u, t) then 1 else 0);
  }

  // countTags

  /** `CountTags` is determined by how many paths carry each tag. */
  lemma {:induction false} CountTagsByCarriers(structure: seq<Node>, expected: map<string, nat>)
    requires forall t :: Carriers(Paths(structure, []), t) == Get(expected, t)
    requires forall t :: t in expected ==> expected[t] > 0
    ensures CountTags(structure) == expected
  {
    var r := CountTags(structure);
    assert r.Keys == expected.Keys;
    forall t | t in r ensures r[t] == expected[t] {
      assert Get(r, t) == Get(expected, t);
    }
  }

  /** Two paths that each carry exactly the tag `x`. */
  lemma {:induction false} BothCarryOnly(ps: seq<Path>, p: Path, q: Path, x: string)
    requires ps == [p, q]
    requires ChainTags(p.chain) + OwnTags(p.test) == [x]
    requires ChainTags(q.chain) + OwnTags(q.test) == [x]
    ensures forall t :: Carriers(ps, t) == Get(map[x := 2], t)
  {
    forall t ensures Carriers(ps, t) == Get(map[x := 2], t) {
      CarriersOfTwo(p, q, t);
      assert Carries(p, t) <==> t in [x];
      assert Carries(q, t) <==> t in [x];
    }
  }

  /** `describe([basic], 'parent', () => { it('works a'); it('works b') })`: the suite's tag counts for both tests. */
  lemma {:induction false} SuiteTagReachesTests(basic: string, parent: string, a: string, b: string)
    ensures CountTags([Group(parent, Some([basic]), [Leaf(a, None), Leaf(b, None)])]) == map[basic := 2]
  {
    var s := Group(parent, Some([basic]), [Leaf(a, None), Leaf(b, None)]);
    PathsOfSuite(s, []);
    PathsOfTwo(Leaf(a, None), Leaf(b, None), [s]);
    assert [] + [s] == [s];
    ChainTagsOfTwo(s, s);
    assert OwnTags(s) + [] == [basic];
    BothCarryOnly(Paths([s], []), Path([s], Leaf(a, None)), Path([s], Leaf(b, None)), basic);
    CountTagsByCarriers([s], map[basic := 2]);
  }

  lemma {:induction false} OuterSuitePaths(basic: string, parent: string, inner: string, a: string, b: string)
    ensures var i := Group(inner, None, [Leaf(a, None), Leaf(b, None)]);
      var s := Group(parent, Some([basic]), [i]);
      Paths([s], []) == [Path([s, i], Leaf(a, None)), Path([s, i], Leaf(b, None))]
  {
    var i := Group(inner, None, [Leaf(a, None), Leaf(b, None)]);
    var s := Group(parent, Some([basic]), [i]);
    PathsOfSuite(s, []);
    assert [] + [s] == [s];
    PathsOfSuite(i, [s]);
    assert [s] + [i] == [s, i];
    PathsOfTwo(Leaf(a, None), Leaf(b, None), [s, i]);
  }

  /** The same tag on the outer of two nested suites still counts for both tests. */
  lemma {:induction false} OuterSuiteTagReachesTests(basic: string, parent: string, inner: string, a: string, b: string)
    ensures CountTags([Group(parent, Some([basic]), [Group(inner, None, [Leaf(a, None), Leaf(b, None)])])])
         == map[basic := 2]
  {
    var i := Group(inner, None, [Leaf(a, None), Leaf(b, None)]);
    var s := Group(parent, Some([basic]), [i]);
    OuterSuitePaths(basic, parent, inner, a, b);
    ChainTagsOfTwo(s, i);
    assert ChainTags([s, i]) + [] == [basic];
    BothCarryOnly(Paths([s], []), Path([s, i], Leaf(a, None)), Path([s, i], Leaf(b, None)), basic);
    CountTagsByCarriers([s], map[basic := 2]);
  }

  /**
   * Tags of both suites and of each test combine: every suite tag counts
   * for both tests, each test tag for its own test.
   */
  /** The per-tag counts `AllTagsCombine` states. */
  function CombinedCounts(one: string, two: string, three: string, four: string, five: string): map<string, nat>
  {
    map[one := 2, two := 2, three := 2, four := 1, five := 1]
  }

  lemma {:induction false} CombinedCarriers(one: string, two: string, three: string, four: string, five: string,
                         p: Path, q: Path, t: string)
    requires one != two && one != three && one != four && one != five
    requires two != three && two != four && two != five
    requires three != four && three != five && four != five
    requires Carries(p, t) <==> t in [one, two, three, four]
    requires Carries(q, t) <==> t in [one, two, three, five]
    ensures Carriers([p, q], t) == Get(CombinedCounts(one, two, three, four, five), t)
  {
    CarriersOfTwo(p, q, t);
  }

  lemma {:induction false} AllTagsCombine(one: string, two: string, three: string, four: string, five: string,
                       parent: string, inner: string, a: string, b: string)
    requires Distinct([one, two, three, four, five])
    ensures CountTags([Group(parent, Some([one]), [
              Group(inner, Some([two, three]), [Leaf(a, Some([four])), Leaf(b, Some([five]))])])])
         == map[one := 2, two := 2, three := 2, four := 1, five := 1]
  {
    var i := Group(inner, Some([two, three]), [Leaf(a, Some([four])), Leaf(b, Some([five]))]);
    var s := Group(parent, Some([one]), [i]);
    PathsOfSuite(s, []);
    PathsOfSuite(i, [s]);
    PathsOfTwo(Leaf(a, Some([four])), Leaf(b, Some([five])), [s, i]);
    assert [] + [s] == [s] && [s] + [i] == [s, i];
    ChainTagsOfTwo(s, i);
    var ps := Paths([s], []);
    var pa, pb := Path([s, i], Leaf(a, Some([four]))), Path([s, i], Leaf(b, Some([five])));
    assert ps == [pa, pb];
    var tags := [one, two, three, four, five];
    assert one != two && one != three && one != four && one != five by {
      DistinctAt(tags, 0, 1); DistinctAt(tags, 0, 2); DistinctAt(tags, 0, 3); DistinctAt(tags, 0, 4);
    }
    assert two != three && two != four && two != five by {
      DistinctAt(tags, 1, 2); DistinctAt(tags, 1, 3); DistinctAt(tags, 1, 4);
    }
    assert three != four && three != five && four != five by {
      DistinctAt(tags, 2, 3); DistinctAt(tags, 2, 4); DistinctAt(tags, 3, 4);
    }
    forall t ensures Carriers(ps, t) == Get(CombinedCounts(one, two, three, four, five), t) {
      assert ChainTags(pa.chain) == [one] + [two, three];
      assert Carries(pa, t) <==> t in [one, two, three, four];
      assert Carries(pb, t) <==> t in [one, two, three, five];
      CombinedCarriers(one, two, three, four, five, pa, pb, t);
    }
    CountTagsByCarriers([s], CombinedCounts(one, two, three, four, five));
  }

  // visitEachTest

  /** Tests in two nested suites are each visited once, whatever the nesting. */
  lemma {:induction false} VisitsEveryNestedTest(parent: string, inner1: string, inner2: string, a: string, b: string)
    ensures |VisitEachTest([Group(parent, None, [
              Group(inner1, None, [Leaf(a, None), Leaf(b, None)]),
              Group(inner2, None, [Leaf(a, None), Leaf(b, None)])])])| == 4
  {
    var i1 := Group(inner1, None, [Leaf(a, None), Leaf(b, None)]);
    var i2 := Group(inner2, None, [Leaf(a, None), Leaf(b, None)]);
    var s := Group(parent, None, [i1, i2]);
    PathsOfSuite(s, []);
    PathsCons(i1, [i2], [s]);
    assert [i1] + [i2] == [i1, i2];
    PathsOfSuite(i2, [s]);
    PathsOfTwo(Leaf(a, None), Leaf(b, None), [s, i1]);
    PathsOfTwo(Leaf(a, None), Leaf(b, None), [s, i2]);
    assert |Paths([s], [])| == 4;
  }

  /**
   * `describe('parent', () => { it('works a'); describe('inner', () => { it('works b') }) })`:
   * each test is visited with its own nearest suite.
   */
  lemma {:induction false} VisitsWithNearestSuite(parent: string, inner: string, a: string, b: string)
    ensures var i := Group(inner, None, [Leaf(b, None)]);
      var s := Group(parent, None, [Leaf(a, None), i]);
      VisitEachTest([s]) == [Visit(Leaf(a, None), Some(s)), Visit(Leaf(b, None), Some(i))]
  {
    var i := Group(inner, None, [Leaf(b, None)]);
    var s := Group(parent, None, [Leaf(a, None), i]);
    var ps := Paths([s], []);
    PathsOfSuite(s, []);
    PathsCons(Leaf(a, None), [i], [s]);
    assert [Leaf(a, None)] + [i] == [Leaf(a, None), i];
    PathsOfSuite(i, [s]);
    PathsOfOne(Leaf(b, None), [s, i]);
    assert [] + [s] == [s] && [s] + [i] == [s, i];
    assert ps == [Path([s], Leaf(a, None)), Path([s, i], Leaf(b, None))];
    var vs := VisitEachTest([s]);
    VisitFollowsPaths([s], [], 0);
    VisitFollowsPaths([s], [], 1);
  }

  /** Three tagged tests in nested suites, none of the suites tagged. */
  function CollectedTree(user: string, tag1: string, tag2: string,
                         parent: string, inner1: string, inner2: string, a: string, b: string, c: string): Node
  {
    Group(parent, None, [
      Group(inner1, None, [Leaf(a, Some([user]))]),
      Group(inner2, None, [Leaf(b, Some([tag1, tag2]))]),
      Leaf(c, Some([tag1]))])
  }

  /** A suite holding two one-test suites and a test: one path per test, through the suites above it. */
  lemma {:induction false} PathsOfTwoInnerSuites(s: Node, i1: Node, i2: Node, lc: Node)
    requires s.Suite? && s.children == [i1, i2, lc]
    requires i1.Suite? && |i1.children| == 1 && i1.children[0].Test?
    requires i2.Suite? && |i2.children| == 1 && i2.children[0].Test?
    requires lc.Test?
    ensures Paths([s], []) == [Path([s, i1], i1.children[0]), Path([s, i2], i2.children[0]), Path([s], lc)]
  {
    var p1, p2, p3 := Path([s, i1], i1.children[0]), Path([s, i2], i2.children[0]), Path([s], lc);
    assert [s] + [i1] == [s, i1] && [s] + [i2] == [s, i2];
    PathsSplit([i1.children[0]], [s, i1]);
    assert Paths(i1.children, [s, i1]) == [p1];
    PathsSplit([i2.children[0]], [s, i2]);
    assert Paths(i2.children, [s, i2]) == [p2];
    PathsSplit([lc], [s]);
    PathsSplit([i2, lc], [s]);
    assert [i2, lc][1..] == [lc];
    PathsSplit(s.children, [s]);
    assert s.children[1..] == [i2, lc];
    assert Paths(s.children, [s]) == [p1, p2, p3];
    PathsSplit([s], []);
    assert [] + [s] == [s];
  }

  lemma {:induction false} CollectedPaths(user: string, tag1: string, tag2: string,
                       parent: string, inner1: string, inner2: string, a: string, b: string, c: string)
    ensures var s := CollectedTree(user, tag1, tag2, parent, inner1, inner2, a, b, c);
      Paths([s], []) == [Path([s, s.children[0]], Leaf(a, Some([user]))),
                         Path([s, s.children[1]], Leaf(b, Some([tag1, tag2]))),
                         Path([s], Leaf(c, Some([tag1])))]
  {
    var la, lb, lc := Leaf(a, Some([user])), Leaf(b, Some([tag1, tag2])), Leaf(c, Some([tag1]));
    var i1, i2 := Group(inner1, None, [la]), Group(inner2, None, [lb]);
    var s := Group(parent, None, [i1, i2, lc]);
    assert s == CollectedTree(user, tag1, tag2, parent, inner1, inner2, a, b, c);
    PathsOfTwoInnerSuites(s, i1, i2, lc);
  }

  lemma {:induction false} CollectedCarriers(user: string, tag1: string, tag2: string, p: Path, q: Path, u: Path, t: string)
    requires user != tag1 && user != tag2 && tag1 != tag2
    requires Carries(p, t) <==> t == user
    requires Carries(q, t) <==> t == tag1 || t == tag2
    requires Carries(u, t) <==> t == tag1
    ensures Carriers([p, q, u], t) == Get(map[user := 1, tag1 := 2, tag2 := 1], t)
  {
    CarriersOfThree(p, q, u, t);
  }

  lemma {:induction false} CollectedCounts(user: string, tag1: string, tag2: string,
                        parent: string, inner1: string, inner2: string, a: string, b: string, c: string)
    requires user != tag1 && user != tag2 && tag1 != tag2
    ensures CountTags([CollectedTree(user, tag1, tag2, parent, inner1, inner2, a, b, c)])
         == map[user := 1, tag1 := 2, tag2 := 1]
  {
    var s := CollectedTree(user, tag1, tag2, parent, inner1, inner2, a, b, c);
    CollectedPaths(user, tag1, tag2, parent, inner1, inner2, a, b, c);
    var ps := Paths([s], []);
    ChainTagsOfTwo(s, s.children[0]);
    ChainTagsOfTwo(s, s.children[1]);
    forall t ensures Carriers(ps, t) == Get(map[user := 1, tag1 := 2, tag2 := 1], t) {
      CollectedCarriers(user, tag1, tag2, ps[0], ps[1], ps[2], t);
    }
    CountTagsByCarriers([s], map[user := 1, tag1 := 2, tag2 := 1]);
  }

  lemma {:induction false} CollectedPlain(user: string, tag1: string, tag2: string,
                       parent: string, inner1: string, inner2: string, a: string, b: string, c: string)
    requires tag1 != tag2
    ensures PlainTags([CollectedTree(user, tag1, tag2, parent, inner1, inner2, a, b, c)])
  {
    var s := CollectedTree(user, tag1, tag2, parent, inner1, inner2, a, b, c);
    assert PlainTags(s.children[0].children) && PlainTags(s.children[1].children);
    assert PlainTags(s.children);
  }

  /**
   * Three tagged tests in nested suites without suite tags: tallying their
   * own tags during a visit gives the per-tag counts, and so does `CountTags`.
   */
  lemma {:induction false} CollectsTestTags(user: string, tag1: string, tag2: string,
                         parent: string, inner1: string, inner2: string, a: string, b: string, c: string)
    requires Distinct([user, tag1, tag2])
    ensures var s := CollectedTree(user, tag1, tag2, parent, inner1, inner2, a, b, c);
      && CountTags([s]) == map[user := 1, tag1 := 2, tag2 := 1]
      && Tally(OwnLists(VisitEachTest([s]))) == CountTags([s])
  {
    var tags := [user, tag1, tag2];
    assert user != tag1 && user != tag2 && tag1 != tag2 by {
      DistinctAt(tags, 0, 1); DistinctAt(tags, 0, 2); DistinctAt(tags, 1, 2);
    }
    CollectedCounts(user, tag1, tag2, parent, inner1, inner2, a, b, c);
    CollectedPlain(user, tag1, tag2, parent, inner1, inner2, a, b, c);
    OwnTallyMatchesCountTags([CollectedTree(user, tag1, tag2, parent, inner1, inner2, a, b, c)]);
  }

  /** `describe(parent, () => { it(a); it(b) })`: both tests are visited with that suite as their parent. */
  lemma {:induction false} VisitsWithParentSuite(parent: string, a: string, b: string)
    ensures var s := Group(parent, None, [Leaf(a, None), Leaf(b, None)]);
      && VisitEachTest([s]) == [Visit(Leaf(a, None), Some(s)), Visit(Leaf(b, None), Some(s))]
      && forall v :: v in VisitEachTest([s]) ==> v.parent.Some? && v.parent.value.name == Some(parent)
  {
    var s := Group(parent, None, [Leaf(a, None), Leaf(b, None)]);
    PathsOfSuite(s, []);
    assert [] + [s] == [s];
    PathsOfTwo(Leaf(a, None), Leaf(b, None), [s]);
    VisitFollowsPaths([s], [], 0);
    VisitFollowsPaths([s], [], 1);
  }

  /**
   * `describe('parent', () => { describe('inner', () => { it('works a'); it('works b') }) })`:
   * both tests are visited, in order, each with the inner suite as its parent.
   */
  lemma {:induction false} VisitsInsideInnerSuite(parent: string, inner: string, a: string, b: string)
    ensures var i := Group(inner, None, [Leaf(a, None), Leaf(b, None)]);
      && |VisitEachTest([Group(parent, None, [i])])| == 2
      && VisitEachTest([Group(parent, None, [i])]) == [Visit(Leaf(a, None), Some(i)), Visit(Leaf(b, None), Some(i))]
  {
    var la, lb := Leaf(a, None), Leaf(b, None);
    var i := Group(inner, None, [la, lb]);
    var s := Group(parent, None, [i]);
    var va, vb := Visit(la, Some(i)), Visit(lb, Some(i));
    VisitUnderSplit([lb], Some(i));
    assert VisitUnder([lb], Some(i)) == [vb];
    VisitUnderSplit([la, lb], Some(i));
    assert [la, lb][1..] == [lb];
    assert VisitUnder(i.children, Some(i)) == [va, vb];
    VisitUnderSplit([i], Some(s));
    assert VisitUnder(s.children, Some(s)) == [va, vb];
    VisitUnderSplit([s], None);
  }

  /** A suite of two one-test suites: each test is visited with its own inner suite as parent. */
  lemma {:induction false} VisitsOfTwoInnerSuites(s: Node, i1: Node, i2: Node)
    requires s.Suite? && s.children == [i1, i2]
    requires i1.Suite? && |i1.children| == 1 && i1.children[0].Test?
    requires i2.Suite? && |i2.children| == 1 && i2.children[0].Test?
    ensures VisitEachTest([s]) == [Visit(i1.children[0], Some(i1)), Visit(i2.children[0], Some(i2))]
  {
    var v1, v2 := Visit(i1.children[0], Some(i1)), Visit(i2.children[0], Some(i2));
    VisitUnderSplit([i1.children[0]], Some(i1));
    assert VisitUnder(i1.children, Some(i1)) == [v1];
    VisitUnderSplit([i2.children[0]], Some(i2));
    assert VisitUnder(i2.children, Some(i2)) == [v2];
    VisitUnderSplit([i2], Some(s));
    assert VisitUnder([i2], Some(s)) == [v2];
    VisitUnderSplit([i1, i2], Some(s));
    assert [i1, i2][1..] == [i2];
    assert VisitUnder(s.children, Some(s)) == [v1, v2];
    VisitUnderSplit([s], None);
  }

  /** Two inner suites holding one test each: every test is visited with its own inner suite. */
  lemma {:induction false} VisitsEachInnerSuite(user: string, parent: string, inner1: string, inner2: string, a: string, b: string)
    ensures var i1 := Group(inner1, None, [Leaf(a, Some([user]))]);
      var i2 := Group(inner2, None, [Leaf(b, None)]);
      VisitEachTest([Group(parent, None, [i1, i2])])
        == [Visit(Leaf(a, Some([user])), Some(i1)), Visit(Leaf(b, None), Some(i2))]
  {
    var i1 := Group(inner1, None, [Leaf(a, Some([user]))]);
    var i2 := Group(inner2, None, [Leaf(b, None)]);
    VisitsOfTwoInnerSuites(Group(parent, None, [i1, i2]), i1, i2);
  }
}
