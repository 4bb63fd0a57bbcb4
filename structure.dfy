/**
 * The extracted structure: suite and test nodes nested as in the source,
 * the flat record list, and the root-to-test paths that every query over
 * the structure is specified against.
 */
module Structure {
  import opened Wrappers
  import opened Strings

  datatype NodeType = SuiteType | TestType

  /**
   * A suite or a test. `name` is present only when it was a string literal,
   * `tags` only when the call had a tag array (its own tags, never inherited
   * ones), and `effectiveTags` only once tags have been propagated.
   */
  datatype Node =
    | Suite(name: Option<string>, tags: Option<seq<string>>, pending: bool,
            effectiveTags: Option<seq<string>>, children: seq<Node>)
    | Test(name: Option<string>, tags: Option<seq<string>>, pending: bool,
           effectiveTags: Option<seq<string>>)

  /** An entry of the flat `tests` list: a node without its children. */
  datatype Info = Info(kind: NodeType, name: Option<string>, tags: Option<seq<string>>, pending: bool)

  function TypeOf(n: Node): NodeType
  {
    if n.Suite? then SuiteType else TestType
  }

  function InfoOf(n: Node): Info
  {
    Info(TypeOf(n), n.name, n.tags, n.pending)
  }

  /** The node's own tags, or none when it had no tag array. */
  function OwnTags(n: Node): seq<string>
  {
    if n.tags.Some? then n.tags.value else []
  }

  /** Every node in post-order: a suite's descendants come before the suite itself. */
  function PostOrder(ns: seq<Node>): seq<Info>
  {
    if ns == [] then []
    else
      (match ns[0]
       case Test(_, _, _, _) => [InfoOf(ns[0])]
       case Suite(_, _, _, _, children) => PostOrder(children) + [InfoOf(ns[0])])
      + PostOrder(ns[1..])
  }

  /** The number of test nodes at any depth; suites are never counted. */
  function CountTests(ns: seq<Node>): nat
  {
    if ns == [] then 0
    else
      (match ns[0]
       case Test(_, _, _, _) => 1
       case Suite(_, _, _, _, children) => CountTests(children))
      + CountTests(ns[1..])
  }

  /** The resolved names of the entries of one kind, in order; unresolved names are skipped. */
  function NamesOf(infos: seq<Info>, kind: NodeType): seq<string>
  {
    if infos == [] then []
    else
      (if infos[0].kind == kind && infos[0].name.Some? then [infos[0].name.value] else [])
      + NamesOf(infos[1..], kind)
  }

  /** The number of entries of one kind. */
  function CountOf(infos: seq<Info>, kind: NodeType): nat
  {
    if infos == [] then 0
    else (if infos[0].kind == kind then 1 else 0) + CountOf(infos[1..], kind)
  }

  /** No node carries effective tags yet. */
  predicate Unpropagated(ns: seq<Node>)
  {
    forall i :: 0 <= i < |ns| ==>
      ns[i].effectiveTags.None? && (ns[i].Suite? ==> Unpropagated(ns[i].children))
  }

  lemma {:induction false} PostOrderAppend(a: seq<Node>, b: seq<Node>)
    ensures PostOrder(a + b) == PostOrder(a) + PostOrder(b)
  {
    if a != [] {
      assert (a + b)[0] == a[0] && (a + b)[1..] == a[1..] + b;
      PostOrderAppend(a[1..], b);
    } else {
      assert a + b == b;
    }
  }

  lemma {:induction false} CountTestsAppend(a: seq<Node>, b: seq<Node>)
    ensures CountTests(a + b) == CountTests(a) + CountTests(b)
  {
    if a != [] {
      assert (a + b)[0] == a[0] && (a + b)[1..] == a[1..] + b;
      CountTestsAppend(a[1..], b);
    } else {
      assert a + b == b;
    }
  }

  lemma {:induction false} NamesOfAppend(a: seq<Info>, b: seq<Info>, kind: NodeType)
    ensures NamesOf(a + b, kind) == NamesOf(a, kind) + NamesOf(b, kind)
  {
    if a != [] {
      assert (a + b)[0] == a[0] && (a + b)[1..] == a[1..] + b;
      NamesOfAppend(a[1..], b, kind);
    } else {
      assert a + b == b;
    }
  }

  lemma {:induction false} CountOfAppend(a: seq<Info>, b: seq<Info>, kind: NodeType)
    ensures CountOf(a + b, kind) == CountOf(a, kind) + CountOf(b, kind)
  {
    if a != [] {
      assert (a + b)[0] == a[0] && (a + b)[1..] == a[1..] + b;
      CountOfAppend(a[1..], b, kind);
    } else {
      assert a + b == b;
    }
  }

  /** The flat post-order list holds exactly one test entry per test of the tree. */
  lemma {:induction false} PostOrderCountsTests(ns: seq<Node>)
    ensures CountOf(PostOrder(ns), TestType) == CountTests(ns)
  {
    if ns != [] {
      PostOrderCountsTests(ns[1..]);
      match ns[0]
      case Test(_, _, _, _) =>
        CountOfAppend([InfoOf(ns[0])], PostOrder(ns[1..]), TestType);
      case Suite(_, _, _, _, children) =>
        PostOrderCountsTests(children);
        CountOfAppend(PostOrder(children), [InfoOf(ns[0])], TestType);
        CountOfAppend(PostOrder(children) + [InfoOf(ns[0])], PostOrder(ns[1..]), TestType);
    }
  }

  /**
   * A path from the roots down to one test: `chain` lists the enclosing
   * suites, outermost first, so its last element is the test's nearest
   * enclosing suite.
   */
  datatype Path = Path(chain: seq<Node>, test: Node)

  /**
   * `chain[base..]` is a descent through suites starting among `ns`: each
   * suite is a child of the one before it.
   */
  predicate Descends(chain: seq<Node>, base: nat, ns: seq<Node>)
  {
    base <= |chain| && forall k :: base <= k < |chain| ==> LinkedAt(chain, base, ns, k)
  }

  /** The `k`-th suite of the chain is a child of the one before it, or one of `ns` at the start. */
  predicate LinkedAt(chain: seq<Node>, base: nat, ns: seq<Node>, k: nat)
    requires base <= k < |chain|
  {
    chain[k].Suite? && chain[k] in (if k == base then ns else ChildrenOf(chain[k - 1]))
  }

  function ChildrenOf(n: Node): seq<Node>
  {
    if n.Suite? then n.children else []
  }

  /** The nodes at the bottom of a descent: the suite's children, or `ns` for an empty descent. */
  function Bottom(chain: seq<Node>, base: nat, ns: seq<Node>): seq<Node>
    requires base <= |chain|
  {
    if |chain| == base then ns else ChildrenOf(chain[|chain| - 1])
  }

  /**
   * Every test below `ns`, in source order, with its enclosing suites
   * appended to `chain`. This is the reference all queries are proved against.
   */
  function Paths(ns: seq<Node>, chain: seq<Node>): (r: seq<Path>)
    ensures |r| == CountTests(ns)
  {
    if ns == [] then []
    else
      var head := match ns[0]
        case Test(_, _, _, _) => [Path(chain, ns[0])]
        case Suite(_, _, _, _, children) => Paths(children, chain + [ns[0]]);
      CountTestsAppend([ns[0]], ns[1..]);
      head + Paths(ns[1..], chain)
  }

  /** Every path ends in a test and extends the chain it started from. */
  lemma {:induction false} PathEndsInTest(ns: seq<Node>, chain: seq<Node>, i: nat)
    requires i < CountTests(ns)
    ensures Paths(ns, chain)[i].test.Test? && |chain| <= |Paths(ns, chain)[i].chain|
  {
    PathsAt(ns, chain, i);
    if i >= HeadCount(ns[0]) {
      PathEndsInTest(ns[1..], chain, i - HeadCount(ns[0]));
    } else if ns[0].Suite? {
      PathEndsInTest(ns[0].children, chain + [ns[0]], i);
    }
  }

  /**
   * `p` extends `chain` by a descent through suites starting among `ns`,
   * and its test is a direct child of the last of them (or one of `ns` when
   * the descent is empty).
   */
  predicate Shaped(p: Path, chain: seq<Node>, ns: seq<Node>)
  {
    && |chain| <= |p.chain|
    && p.chain[..|chain|] == chain
    && Descends(p.chain, |chain|, ns)
    && p.test in Bottom(p.chain, |chain|, ns)
  }

  /** A path through the first suite of `ns` has the shape of a path from `ns`. */
  lemma {:induction false} ShapedThroughSuite(p: Path, chain: seq<Node>, ns: seq<Node>)
    requires ns != [] && ns[0].Suite? && Shaped(p, chain + [ns[0]], ns[0].children)
    ensures Shaped(p, chain, ns)
  {
    var n, c := ns[0], p.chain;
    assert c[..|chain| + 1] == chain + [n];
    assert c[..|chain|] == (chain + [n])[..|chain|];
    assert c[|chain|] == (chain + [n])[|chain|];
    forall k | |chain| <= k < |c| ensures LinkedAt(c, |chain|, ns, k) {
      if k > |chain| {
        assert LinkedAt(c, |chain| + 1, n.children, k);
      }
    }
  }

  /** A path from the later nodes of `ns` has the shape of a path from `ns`. */
  lemma {:induction false} ShapedFromTail(p: Path, chain: seq<Node>, ns: seq<Node>)
    requires ns != [] && Shaped(p, chain, ns[1..])
    ensures Shaped(p, chain, ns)
  {
    var c := p.chain;
    forall k | |chain| <= k < |c| ensures LinkedAt(c, |chain|, ns, k) {
      assert LinkedAt(c, |chain|, ns[1..], k);
    }
    if |c| == |chain| {
      assert p.test in ns[1..];
    }
  }

  /** Every path below `ns` has that shape. */
  lemma {:induction false} PathShape(ns: seq<Node>, chain: seq<Node>, i: nat)
    requires i < |Paths(ns, chain)|
    ensures Shaped(Paths(ns, chain)[i], chain, ns)
  {
    var n := ns[0];
    var head := if n.Test? then [Path(chain, n)] else Paths(n.children, chain + [n]);
    var tail := Paths(ns[1..], chain);
    assert Paths(ns, chain) == head + tail;
    if i < |head| {
      if n.Suite? {
        PathShape(n.children, chain + [n], i);
        ShapedThroughSuite(head[i], chain, ns);
      } else {
        assert n in ns;
      }
    } else {
      PathShape(ns[1..], chain, i - |head|);
      ShapedFromTail(tail[i - |head|], chain, ns);
    }
  }

  /** The number of tests a node holds: one for a test, its descendants' for a suite. */
  function HeadCount(n: Node): nat
  {
    if n.Suite? then CountTests(n.children) else 1
  }

  /** The paths through one node: the node itself for a test, its descendants' for a suite. */
  function HeadPaths(n: Node, chain: seq<Node>): (r: seq<Path>)
    ensures |r| == HeadCount(n)
  {
    if n.Test? then [Path(chain, n)] else Paths(n.children, chain + [n])
  }

  /** The paths of a list: those through its first node, then those of the rest. */
  lemma {:induction false} PathsSplit(ns: seq<Node>, chain: seq<Node>)
    requires ns != []
    ensures Paths(ns, chain) == HeadPaths(ns[0], chain) + Paths(ns[1..], chain)
  {
  }

  /** The `i`-th path of a list: one through its first node, or one of the rest. */
  lemma {:induction false} PathsAt(ns: seq<Node>, chain: seq<Node>, i: nat)
    requires ns != [] && i < CountTests(ns)
    ensures CountTests(ns) == HeadCount(ns[0]) + CountTests(ns[1..])
    ensures Paths(ns, chain)[i]
         == if i >= HeadCount(ns[0]) then Paths(ns[1..], chain)[i - HeadCount(ns[0])]
            else if ns[0].Suite? then Paths(ns[0].children, chain + [ns[0]])[i]
            else Path(chain, ns[0])
  {
    PathsSplit(ns, chain);
    var head, tail := HeadPaths(ns[0], chain), Paths(ns[1..], chain);
    if i < |head| {
      assert (head + tail)[i] == head[i];
    } else {
      assert (head + tail)[i] == tail[i - |head|];
    }
  }

  lemma {:induction false} PathsAppend(a: seq<Node>, b: seq<Node>, chain: seq<Node>)
    ensures Paths(a + b, chain) == Paths(a, chain) + Paths(b, chain)
  {
    if a != [] {
      assert (a + b)[0] == a[0] && (a + b)[1..] == a[1..] + b;
      PathsAppend(a[1..], b, chain);
    } else {
      assert a + b == b;
    }
  }

  /** The resolved name as a list of zero or one names. */
  function NameList(name: Option<string>): seq<string>
  {
    if name.Some? then [name.value] else []
  }

  /** The own tags of the suites of a chain, outermost first. */
  function ChainTags(chain: seq<Node>): seq<string>
  {
    if chain == [] then [] else ChainTags(chain[..|chain| - 1]) + OwnTags(chain[|chain| - 1])
  }

  /** The resolved names of the suites of a chain, outermost first; unresolved ones are skipped. */
  function ChainNames(chain: seq<Node>): seq<string>
  {
    if chain == [] then []
    else
      ChainNames(chain[..|chain| - 1]) + NameList(chain[|chain| - 1].name)
  }

  /** The tags a test carries: its own and every enclosing suite's own tags, sorted, without repeats. */
  function EffectiveOf(p: Path): seq<string>
  {
    SortUnique(ChainTags(p.chain) + OwnTags(p.test))
  }

  /** The space-joined resolved suite names, outermost first, then the test's resolved name. */
  function QualifiedName(p: Path): string
  {
    JoinWords(ChainNames(p.chain) + NameList(p.test.name))
  }

  /** The innermost suite of a chain, if any. */
  function Innermost(chain: seq<Node>): Option<Node>
  {
    if chain == [] then None else Some(chain[|chain| - 1])
  }
}
