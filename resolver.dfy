/**
 * Resolves the arguments of a recognized suite or test call into its own
 * tags and its name. Only literal text is ever used: a leading array
 * literal gives the tags, and the argument after it (or the first argument
 * when there is no tag array) gives the name only when it is a plain string
 * literal. Identifiers, member accesses and concatenations give no name and
 * are never evaluated.
 */
module Resolver {
  import opened Wrappers
  import opened Syntax

  datatype Resolved = Resolved(tags: Option<seq<string>>, name: Option<string>)

  /** The string literals among the entries of a tag array, in order; other entries are skipped. */
  function LiteralTags(entries: seq<Expr>): (r: seq<string>)
    ensures |r| <= |entries|
    ensures forall t :: t in r <==> StrLit(t) in entries
    ensures (forall e :: e in entries ==> e.StrLit?) ==> |r| == |entries|
    ensures (forall e :: e in entries ==> e.StrLit?) ==>
      forall i :: 0 <= i < |r| ==> r[i] == entries[i].value
  {
    if entries == [] then []
    else
      assert forall e :: e in entries <==> e == entries[0] || e in entries[1..];
      (if entries[0].StrLit? then [entries[0].value] else []) + LiteralTags(entries[1..])
  }

  /** The literals of two runs of entries are those of the first run followed by those of the second. */
  lemma {:induction false} LiteralTagsAppend(a: seq<Expr>, b: seq<Expr>)
    ensures LiteralTags(a + b) == LiteralTags(a) + LiteralTags(b)
  {
    if a != [] {
      var head := if a[0].StrLit? then [a[0].value] else [];
      assert (a + b)[0] == a[0] && (a + b)[1..] == a[1..] + b;
      LiteralTagsAppend(a[1..], b);
      assert LiteralTags(a + b) == head + (LiteralTags(a[1..]) + LiteralTags(b));
      assert LiteralTags(a) == head + LiteralTags(a[1..]);
    } else {
      assert a + b == b;
    }
  }

  /** The statically known name of a name argument. */
  function StaticName(arg: Expr): (r: Option<string>)
    ensures r.Some? <==> arg.StrLit?
    ensures arg.StrLit? ==> r == Some(arg.value)
  {
    match arg
    case StrLit(s) => Some(s)
    case _ => None
  }

  /** Where the name argument sits: after the tag array when there is one. */
  function NamePosition(args: seq<Expr>): nat
  {
    if |args| > 0 && args[0].ArrayLit? then 1 else 0
  }

  function Resolve(args: seq<Expr>): (r: Resolved)
    ensures r.tags.Some? <==> |args| > 0 && args[0].ArrayLit?
    ensures r.tags.Some? ==> r.tags.value == LiteralTags(args[0].elements)
    ensures r.name.Some? <==> NamePosition(args) < |args| && args[NamePosition(args)].StrLit?
    ensures r.name.Some? ==> r.name.value == args[NamePosition(args)].value
  {
    if |args| > 0 && args[0].ArrayLit? then
      Resolved(Some(LiteralTags(args[0].elements)), if |args| > 1 then StaticName(args[1]) else None)
    else
      Resolved(None, if |args| > 0 then StaticName(args[0]) else None)
  }

  /**
   * Tags and name are resolved independently: whatever stands in the name
   * position never changes the tags, and whatever the tag array holds never
   * changes the name.
   */
  lemma {:induction false} TagsAndNameIndependent(tags1: seq<Expr>, tags2: seq<Expr>, name1: Expr, name2: Expr, rest: seq<Expr>)
    ensures Resolve([ArrayLit(tags1), name1] + rest).tags == Resolve([ArrayLit(tags1), name2] + rest).tags
    ensures Resolve([ArrayLit(tags1), name1] + rest).name == Resolve([ArrayLit(tags2), name1] + rest).name
    ensures !name1.ArrayLit? ==> Resolve([ArrayLit(tags1), name1] + rest).name == Resolve([name1] + rest).name
  {
  }

  /**
   * A name that is not a string literal (an identifier, a member access, a
   * concatenation, a call, ...) resolves to no name, and the words of any
   * string inside it never become tags.
   */
  lemma {:induction false} NonLiteralNameGivesNothing(name: Expr, rest: seq<Expr>)
    requires !name.StrLit? && !name.ArrayLit?
    ensures Resolve([name] + rest) == Resolved(None, None)
  {
  }
}
