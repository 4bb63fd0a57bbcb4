/**
 * Spec files of the shapes the extraction is exercised on, written as syntax
 * trees with their names and tags left as parameters, and what the
 * extraction gives for every choice of them.
 */
module ExtractionScenarios {
  import opened Wrappers
  import opened Syntax
  import opened Resolver
  import opened Structure
  import opened Builder

  /** `describe(args...)` */
  function Describe(args: seq<Expr>): Expr { Call(Ident(SuiteFunction), args) }

  /** `it(args...)` */
  function It(args: seq<Expr>): Expr { Call(Ident(TestFunction), args) }

  /** `it.skip(args...)` */
  function ItSkip(args: seq<Expr>): Expr { Call(Member(Ident(TestFunction), SkipModifier), args) }

  /** An array literal of string literals. */
  function Literals(words: seq<string>): seq<Expr>
  {
    if words == [] then [] else [StrLit(words[0])] + Literals(words[1..])
  }

  /** The arguments `[tags...], 'name', () => { body }`, the tag array only when there are tags. */
  function Args(tags: Option<seq<string>>, name: string, body: seq<Expr>): seq<Expr>
  {
    (if tags.Some? then [ArrayLit(Literals(tags.value))] else []) + [StrLit(name), Fn(body)]
  }

  /** The walk of a list is the walk of its first expression followed by the walk of the rest. */
  lemma {:induction false} WalkSeqCons(e: Expr, es: seq<Expr>)
    ensures WalkSeq([e] + es) == Then(WalkExpr(e), WalkSeq(es))
  {
    assert ([e] + es)[0] == e && ([e] + es)[1..] == es;
  }

  lemma {:induction false} ThenNothing(p: Pass)
    ensures Then(p, Nothing) == p && Then(Nothing, p) == p
  {
    assert p.nodes + [] == p.nodes && p.flat + [] == p.flat;
    assert p.suiteNames + [] == p.suiteNames && p.testNames + [] == p.testNames;
  }

  lemma {:induction false} LiteralsWalk(words: seq<string>)
    ensures WalkSeq(Literals(words)) == Nothing
  {
    if words != [] {
      var es := Literals(words);
      assert es == [StrLit(words[0])] + Literals(words[1..]);
      LiteralsWalk(words[1..]);
      WalkSeqCons(StrLit(words[0]), Literals(words[1..]));
      assert WalkExpr(StrLit(words[0])) == Nothing;
      ThenNothing(Nothing);
    }
  }

  lemma {:induction false} LiteralsAreTags(words: seq<string>)
    ensures LiteralTags(Literals(words)) == words
  {
    if words != [] {
      var es := Literals(words);
      assert es[0] == StrLit(words[0]) && es[1..] == Literals(words[1..]);
      LiteralsAreTags(words[1..]);
    }
  }

  /** A call's arguments hold the recognized calls of its callback. */
  lemma {:induction false} ArgsWalk(tags: Option<seq<string>>, name: string, body: seq<Expr>)
    ensures WalkSeq(Args(tags, name, body)) == WalkSeq(body)
  {
    var rest := [StrLit(name), Fn(body)];
    WalkSeqCons(Fn(body), []);
    assert [Fn(body)] + [] == [Fn(body)];
    assert WalkExpr(Fn(body)) == WalkSeq(body);
    ThenNothing(WalkSeq(body));
    WalkSeqCons(StrLit(name), [Fn(body)]);
    assert [StrLit(name)] + [Fn(body)] == rest;
    assert WalkExpr(StrLit(name)) == Nothing;
    if tags.Some? {
      var tagArray := ArrayLit(Literals(tags.value));
      LiteralsWalk(tags.value);
      assert WalkExpr(tagArray) == Nothing;
      WalkSeqCons(tagArray, rest);
      assert Args(tags, name, body) == [tagArray] + rest;
    } else {
      assert Args(tags, name, body) == rest;
    }
  }

  /** A call's arguments resolve to its tags and its name. */
  lemma {:induction false} ArgsResolve(tags: Option<seq<string>>, name: string, body: seq<Expr>)
    ensures Resolve(Args(tags, name, body)) == Resolved(tags, Some(name))
  {
    if tags.Some? {
      LiteralsAreTags(tags.value);
    }
  }

  lemma {:induction false} SuiteWalk(tags: Option<seq<string>>, name: string, body: seq<Expr>)
    ensures WalkExpr(Describe(Args(tags, name, body)))
         == Single(Suite(Some(name), tags, false, None, WalkSeq(body).nodes), WalkSeq(body))
  {
    ArgsWalk(tags, name, body);
    ArgsResolve(tags, name, body);
  }

  lemma {:induction false} TestWalk(tags: Option<seq<string>>, name: string, body: seq<Expr>, pending: bool)
    ensures WalkExpr(if pending then ItSkip(Args(tags, name, body)) else It(Args(tags, name, body)))
         == Single(Test(Some(name), tags, pending, None), Nothing)
  {
    ArgsResolve(tags, name, body);
  }

  /**
   * `describe('foo', () => { it(['@one'], 'bar', () => {}) })`, plain or
   * with `it.skip`: one suite and one test, the test listed first, its tags
   * kept on the test only, and its pending flag set exactly when skipped.
   */
  lemma {:induction false} TaggedTestInSuite(suite: string, test: string, tag: string, skipped: bool)
    ensures var call := if skipped then ItSkip(Args(Some([tag]), test, [])) else It(Args(Some([tag]), test, []));
      GetTestNames([Describe(Args(None, suite, [call]))], false)
      == Extraction([suite], [test],
                    [Info(TestType, Some(test), Some([tag]), skipped), Info(SuiteType, Some(suite), None, false)],
                    None, None)
  {
    var call := if skipped then ItSkip(Args(Some([tag]), test, [])) else It(Args(Some([tag]), test, []));
    var t := Test(Some(test), Some([tag]), skipped, None);
    TestWalk(Some([tag]), test, [], skipped);
    WalkSeqCons(call, []);
    assert [call] + [] == [call];
    ThenNothing(WalkExpr(call));
    SuiteWalk(None, suite, [call]);
    var d := Describe(Args(None, suite, [call]));
    WalkSeqCons(d, []);
    assert [d] + [] == [d];
    ThenNothing(WalkExpr(d));
  }

  /** `describe(['@one', '@two'], 'foo', () => { it('bar', () => {}) })`: the tags stay on the suite. */
  lemma {:induction false} TaggedSuite(suite: string, test: string, tag1: string, tag2: string)
    ensures GetTestNames([Describe(Args(Some([tag1, tag2]), suite, [It(Args(None, test, []))]))], false)
      == Extraction([suite], [test],
                    [Info(TestType, Some(test), None, false), Info(SuiteType, Some(suite), Some([tag1, tag2]), false)],
                    None, None)
  {
    var call := It(Args(None, test, []));
    TestWalk(None, test, [], false);
    WalkSeqCons(call, []);
    assert [call] + [] == [call];
    ThenNothing(WalkExpr(call));
    SuiteWalk(Some([tag1, tag2]), suite, [call]);
    var d := Describe(Args(Some([tag1, tag2]), suite, [call]));
    WalkSeqCons(d, []);
    assert [d] + [] == [d];
    ThenNothing(WalkExpr(d));
  }

  /** One unnamed, untagged, non-pending test and nothing else. */
  const OneUnnamedTest: Extraction := Extraction([], [], [Info(TestType, None, None, false)], None, None)

  /** `const name = '...'; it(name, () => {})`: the variable is never looked up, so the test has no name and no tags. */
  lemma {:induction false} VariableAsName(variable: string, text: string)
    ensures GetTestNames([Const(variable, StrLit(text)), It([Ident(variable), Fn([])])], false) == OneUnnamedTest
  {
    var call := It([Ident(variable), Fn([])]);
    assert WalkExpr(call) == Single(Test(None, None, false, None), Nothing);
    WalkSeqCons(call, []);
    WalkSeqCons(Const(variable, StrLit(text)), [call]);
    assert [call] + [] == [call];
    assert [Const(variable, StrLit(text))] + [call] == [Const(variable, StrLit(text)), call];
    ThenNothing(WalkExpr(call));
  }

  /** `it('a' + 'b' + 'c', () => {})`: a concatenation of literals is not a name. */
  lemma {:induction false} ConcatenatedName(a: string, b: string, c: string)
    ensures GetTestNames([It([Concat(Concat(StrLit(a), StrLit(b)), StrLit(c)), Fn([])])], false) == OneUnnamedTest
  {
    var call := It([Concat(Concat(StrLit(a), StrLit(b)), StrLit(c)), Fn([])]);
    assert WalkExpr(call) == Single(Test(None, None, false, None), Nothing);
    WalkSeqCons(call, []);
    assert [call] + [] == [call];
    ThenNothing(WalkExpr(call));
  }

  /**
   * `const names = { first: '...' }; it(names.first, () => {})`: a member
   * access is not a name. `Expr` has no object-literal case, so the
   * initializer is written as an array literal holding the same string.
   * Either one holds no call, so it contributes nothing to the walk.
   */
  lemma {:induction false} MemberAsName(obj: string, property: string, text: string)
    ensures GetTestNames([Const(obj, ArrayLit([StrLit(text)])), It([Member(Ident(obj), property), Fn([])])], false)
         == OneUnnamedTest
  {
    var init := Const(obj, ArrayLit([StrLit(text)]));
    var call := It([Member(Ident(obj), property), Fn([])]);
    assert WalkExpr(call) == Single(Test(None, None, false, None), Nothing);
    assert WalkExpr(init) == Nothing by {
      WalkSeqCons(StrLit(text), []);
      assert [StrLit(text)] + [] == [StrLit(text)];
      ThenNothing(Nothing);
    }
    WalkSeqCons(call, []);
    WalkSeqCons(init, [call]);
    assert [call] + [] == [call];
    assert [init] + [call] == [init, call];
    ThenNothing(WalkExpr(call));
  }
}
