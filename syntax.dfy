/**
 * The part of a JavaScript spec file the extraction looks at, as an
 * already-parsed tree, and the recognizer that tells suite-defining and
 * test-defining calls apart from every other call.
 */
module Syntax {
  import opened Wrappers

  /** An expression or statement of the spec file. */
  datatype Expr =
    | StrLit(value: string)                // 'works a'
    | ArrayLit(elements: seq<Expr>)        // ['@one', '@two']
    | Ident(id: string)                    // name
    | Member(obj: Expr, property: string)  // names.first, it.skip
    | Concat(left: Expr, right: Expr)      // 'super' + ' '
    | Fn(body: seq<Expr>)                  // () => { ... }
    | Call(callee: Expr, args: seq<Expr>)  // f(a, b)
    | Const(id: string, init: Expr)        // const name = ...

  /** A whole spec file: its top-level statements in source order. */
  type Program = seq<Expr>

  datatype Kind = SuiteKind | TestKind

  /** What a recognized call defines, and whether it carries the skip modifier. */
  datatype Recognized = Recognized(kind: Kind, pending: bool)

  const SuiteFunction: string := "describe"
  const TestFunction: string := "it"
  const SkipModifier: string := "skip"
  const OnlyModifier: string := "only"

  function KindOf(id: string): Option<Kind>
  {
    if id == SuiteFunction then Some(SuiteKind)
    else if id == TestFunction then Some(TestKind)
    else None
  }

  /**
   * Classifies the callee of a call: `describe` / `it` themselves, or one of
   * them with the `.skip` modifier (pending) or the `.only` modifier (which
   * changes nothing here). Every other callee is not recognized.
   */
  function Recognize(callee: Expr): (r: Option<Recognized>)
    ensures r.Some? ==> (r.value.kind == SuiteKind <==> callee == Ident(SuiteFunction) || (callee.Member? && callee.obj == Ident(SuiteFunction)))
    ensures r.Some? ==> (r.value.pending <==> callee.Member? && callee.property == SkipModifier)
    ensures callee.Ident? ==> (r.Some? <==> callee.id in {SuiteFunction, TestFunction})
    ensures callee.Member? ==> (r.Some? <==> callee.obj.Ident? && callee.obj.id in {SuiteFunction, TestFunction} && callee.property in {SkipModifier, OnlyModifier})
    ensures !callee.Ident? && !callee.Member? ==> r.None?
  {
    match callee
    case Ident(id) =>
      if KindOf(id).Some? then Some(Recognized(KindOf(id).value, false)) else None
    case Member(Ident(id), property) =>
      if KindOf(id).Some? && (property == SkipModifier || property == OnlyModifier)
      then Some(Recognized(KindOf(id).value, property == SkipModifier))
      else None
    case _ => None
  }
}
