/**
 * The structure builder: one depth-first pass over the spec file that
 * produces the nested suite/test tree, the flat post-order record list, the
 * resolved suite and test names, and the number of tests.
 */
module Builder {
  import opened Wrappers
  import opened Syntax
  import opened Resolver
  import opened Structure

  /**
   * The result of extracting test names. `testCount` and `structure` are
   * present only when the caller asks for the structure.
   */
  datatype Extraction = Extraction(
    suiteNames: seq<string>,
    testNames: seq<string>,
    tests: seq<Info>,
    testCount: Option<nat>,
    structure: Option<seq<Node>>)

  /** What the pass has collected over some part of the file. */
  datatype Pass = Pass(nodes: seq<Node>, flat: seq<Info>, suiteNames: seq<string>,
                       testNames: seq<string>, testCount: nat)

  const Nothing: Pass := Pass([], [], [], [], 0)

  /** The collections of two consecutive parts of the file, one after the other. */
  function Then(a: Pass, b: Pass): Pass
  {
    Pass(a.nodes + b.nodes, a.flat + b.flat, a.suiteNames + b.suiteNames,
         a.testNames + b.testNames, a.testCount + b.testCount)
  }

  /**
   * The four outputs of the pass agree with the tree it built: the flat list
   * is the tree in post-order, the name lists are the resolved names of the
   * flat list's suites and tests, the count is the number of tests in the
   * tree, and no node carries effective tags yet.
   */
  predicate Consistent(p: Pass)
  {
    && p.flat == PostOrder(p.nodes)
    && p.suiteNames == NamesOf(p.flat, SuiteType)
    && p.testNames == NamesOf(p.flat, TestType)
    && p.testCount == CountTests(p.nodes)
    && Unpropagated(p.nodes)
  }

  lemma {:induction false} ThenConsistent(a: Pass, b: Pass)
    requires Consistent(a) && Consistent(b)
    ensures Consistent(Then(a, b))
  {
    PostOrderAppend(a.nodes, b.nodes);
    NamesOfAppend(a.flat, b.flat, SuiteType);
    NamesOfAppend(a.flat, b.flat, TestType);
    CountTestsAppend(a.nodes, b.nodes);
  }

  /** A pass that found the single node `n`, whose descendants `inner` collected. */
  function Single(n: Node, inner: Pass): Pass
  {
    Pass([n], inner.flat + [InfoOf(n)],
         inner.suiteNames + (if n.Suite? then NameList(n.name) else []),
         inner.testNames + (if n.Test? then NameList(n.name) else []),
         inner.testCount + (if n.Test? then 1 else 0))
  }

  lemma {:induction false} SingleConsistent(n: Node, inner: Pass)
    requires Consistent(inner) && n.effectiveTags.None?
    requires n.Test? ==> inner == Nothing
    requires n.Suite? ==> n.children == inner.nodes
    ensures Consistent(Single(n, inner))
  {
    assert [n][1..] == [];
    NamesOfAppend(inner.flat, [InfoOf(n)], SuiteType);
    NamesOfAppend(inner.flat, [InfoOf(n)], TestType);
  }

  /**
   * Visits one expression. A recognized suite call becomes a suite node whose
   * children are the recognized calls found in its arguments; a recognized
   * test call becomes a leaf whose arguments are not searched further; any
   * other expression is searched for recognized calls inside it.
   */
  function WalkExpr(e: Expr): Pass
    decreases e
  {
    match e
    case Call(callee, args) =>
      var recognized := Recognize(callee);
      if recognized.None? then Then(WalkExpr(callee), WalkSeq(args))
      else
        var resolved := Resolve(args);
        var pending := recognized.value.pending;
        if recognized.value.kind == SuiteKind then
          var inner := WalkSeq(args);
          Single(Suite(resolved.name, resolved.tags, pending, None, inner.nodes), inner)
        else
          Single(Test(resolved.name, resolved.tags, pending, None), Nothing)
    case StrLit(_) => Nothing
    case Ident(_) => Nothing
    case ArrayLit(elements) => WalkSeq(elements)
    case Member(obj, _) => WalkExpr(obj)
    case Concat(left, right) => Then(WalkExpr(left), WalkExpr(right))
    case Fn(body) => WalkSeq(body)
    case Const(_, init) => WalkExpr(init)
  }

  /** Visits a list of expressions in source order. */
  function WalkSeq(es: seq<Expr>): Pass
    decreases es
  {
    if es == [] then Nothing else Then(WalkExpr(es[0]), WalkSeq(es[1..]))
  }

  /**
   * Whatever the walk visits, its collections agree: the flat list is the
   * tree in post-order, the name lists and the count come from that list and
   * tree, and no node has effective tags.
   */
  lemma {:induction false} WalkExprConsistent(e: Expr)
    ensures Consistent(WalkExpr(e))
    decreases e
  {
    match e
    case Call(callee, args) =>
      var recognized := Recognize(callee);
      WalkSeqConsistent(args);
      if recognized.None? {
        WalkExprConsistent(callee);
        ThenConsistent(WalkExpr(callee), WalkSeq(args));
      } else {
        var resolved := Resolve(args);
        var pending := recognized.value.pending;
        var inner := WalkSeq(args);
        if recognized.value.kind == SuiteKind {
          SingleConsistent(Suite(resolved.name, resolved.tags, pending, None, inner.nodes), inner);
        } else {
          SingleConsistent(Test(resolved.name, resolved.tags, pending, None), Nothing);
        }
      }
    case StrLit(_) =>
    case Ident(_) =>
    case ArrayLit(elements) => WalkSeqConsistent(elements);
    case Member(obj, _) => WalkExprConsistent(obj);
    case Concat(left, right) =>
      WalkExprConsistent(left);
      WalkExprConsistent(right);
      ThenConsistent(WalkExpr(left), WalkExpr(right));
    case Fn(body) => WalkSeqConsistent(body);
    case Const(_, init) => WalkExprConsistent(init);
  }

  lemma {:induction false} WalkSeqConsistent(es: seq<Expr>)
    ensures Consistent(WalkSeq(es))
    decreases es
  {
    if es != [] {
      WalkExprConsistent(es[0]);
      WalkSeqConsistent(es[1..]);
      ThenConsistent(WalkExpr(es[0]), WalkSeq(es[1..]));
    }
  }

  /**
   * Extracts suite and test names from a spec file; with `withStructure`
   * the nested structure and the test count are returned too.
   */
  function GetTestNames(program: Program, withStructure: bool): (r: Extraction)
    ensures r.structure.Some? <==> withStructure
    ensures r.testCount.Some? <==> withStructure
    ensures r.suiteNames == NamesOf(r.tests, SuiteType)
    ensures r.testNames == NamesOf(r.tests, TestType)
    ensures withStructure ==>
      && r.tests == PostOrder(r.structure.value)
      && r.testCount.value == CountTests(r.structure.value)
      && Unpropagated(r.structure.value)
  {
    var p := WalkSeq(program);
    WalkSeqConsistent(program);
    Extraction(p.suiteNames, p.testNames, p.flat,
               if withStructure then Some(p.testCount) else None,
               if withStructure then Some(p.nodes) else None)
  }

  /** Asking for the structure adds the two fields and changes nothing else. */
  lemma {:induction false} StructureFlagOnlyAddsFields(program: Program)
    ensures GetTestNames(program, false)
         == GetTestNames(program, true).(testCount := None, structure := None)
  {
  }

  /** The test count equals the number of test entries in the flat list. */
  lemma {:induction false} TestCountMatchesFlatList(program: Program)
    ensures GetTestNames(program, true).testCount.value
         == CountOf(GetTestNames(program, true).tests, TestType)
  {
    PostOrderCountsTests(GetTestNames(program, true).structure.value);
  }
}
