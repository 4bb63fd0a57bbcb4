/**
 * Tag propagation: every node's effective tags are its own tags together
 * with the own tags of every enclosing suite, sorted alphabetically and
 * without repeats. The source attaches them to the nodes in place; here the
 * propagated structure is returned as a new value.
 */
module EffectiveTags {
  import opened Wrappers
  import opened Strings
  import opened Structure

  /** The structure with every `effectiveTags` field removed: what propagation must not change. */
  function Bare(ns: seq<Node>): (r: seq<Node>)
    ensures |r| == |ns|
  {
    if ns == [] then []
    else
      var n := ns[0];
      [match n
       case Test(name, tags, pending, _) => Test(name, tags, pending, None)
       case Suite(name, tags, pending, _, children) => Suite(name, tags, pending, None, Bare(children))]
      + Bare(ns[1..])
  }

  /**
   * Every node below `ns` carries effective tags: a sorted, duplicate-free
   * list holding exactly the `inherited` tags and the node's own tags, and a
   * suite passes its own tags on to its children.
   */
  predicate Propagated(ns: seq<Node>, inherited: set<string>)
  {
    forall i :: 0 <= i < |ns| ==> PropagatedNode(ns[i], inherited)
  }

  predicate PropagatedNode(n: Node, inherited: set<string>)
  {
    && n.effectiveTags.Some?
    && StrictlySorted(n.effectiveTags.value)
    && Elems(n.effectiveTags.value) == inherited + Elems(OwnTags(n))
    && (n.Suite? ==> Propagated(n.children, inherited + Elems(OwnTags(n))))
  }

  lemma {:induction false} ElemsAppend(a: seq<string>, b: seq<string>)
    ensures Elems(a + b) == Elems(a) + Elems(b)
  {
    assert forall x :: x in a + b <==> x in a || x in b;
  }

  /**
   * Attaches effective tags to every node below `ns`, given the tags
   * inherited from the enclosing suites.
   */
  function Propagate(ns: seq<Node>, inherited: seq<string>): (r: seq<Node>)
    ensures |r| == |ns|
  {
    if ns == [] then []
    else
      var n := ns[0];
      var effective := SortUnique(inherited + OwnTags(n));
      var head := match n
        case Test(name, tags, pending, _) => Test(name, tags, pending, Some(effective))
        case Suite(name, tags, pending, _, children) =>
          Suite(name, tags, pending, Some(effective), Propagate(children, inherited + OwnTags(n)));
      [head] + Propagate(ns[1..], inherited)
  }

  /**
   * Propagation changes nothing but `effectiveTags`, keeps every test, and
   * leaves every node with the sorted union of the inherited and its own tags.
   */
  lemma {:induction false} PropagateSpec(ns: seq<Node>, inherited: seq<string>)
    ensures Bare(Propagate(ns, inherited)) == Bare(ns)
    ensures CountTests(Propagate(ns, inherited)) == CountTests(ns)
    ensures Propagated(Propagate(ns, inherited), Elems(inherited))
  {
    if ns != [] {
      var n := ns[0];
      var own := OwnTags(n);
      var r := Propagate(ns, inherited);
      var head := r[0];
      var tail := Propagate(ns[1..], inherited);
      assert r == [head] + tail;
      assert r[1..] == tail;
      PropagateSpec(ns[1..], inherited);
      ElemsAppend(inherited, own);
      assert OwnTags(head) == own;
      if n.Suite? {
        PropagateSpec(n.children, inherited + own);
      }
      assert PropagatedNode(head, Elems(inherited));
    }
  }

  /** How propagation treats the first node and the rest of a list. */
  lemma {:induction false} PropagateHead(ns: seq<Node>, inherited: seq<string>)
    requires ns != []
    ensures var r := Propagate(ns, inherited);
      && r[1..] == Propagate(ns[1..], inherited)
      && r[0] == match ns[0]
        case Test(name, tags, pending, _) =>
          Test(name, tags, pending, Some(SortUnique(inherited + OwnTags(ns[0]))))
        case Suite(name, tags, pending, _, children) =>
          Suite(name, tags, pending, Some(SortUnique(inherited + OwnTags(ns[0]))),
                Propagate(children, inherited + OwnTags(ns[0])))
  {
  }

  /** Attaches effective tags to the whole structure. */
  function SetEffectiveTags(structure: seq<Node>): (r: seq<Node>)
    ensures Bare(r) == Bare(structure)
    ensures CountTests(r) == CountTests(structure)
    ensures Propagated(r, {})
  {
    assert Elems([]) == {};
    PropagateSpec(structure, []);
    Propagate(structure, [])
  }

  /**
   * The effective tags computed depend only on the nodes' own data: any
   * effective tags already present are replaced, never consulted.
   */
  lemma {:induction false} PropagateIgnoresOldEffectiveTags(a: seq<Node>, b: seq<Node>, inherited: seq<string>)
    requires Bare(a) == Bare(b)
    ensures Propagate(a, inherited) == Propagate(b, inherited)
  {
    if a != [] {
      assert Bare(a)[0] == Bare(b)[0];
      assert Bare(a)[1..] == Bare(b)[1..];
      PropagateIgnoresOldEffectiveTags(a[1..], b[1..], inherited);
      if a[0].Suite? {
        PropagateIgnoresOldEffectiveTags(a[0].children, b[0].children, inherited + OwnTags(a[0]));
      }
    }
  }

  /** Propagating twice gives the same effective tags as propagating once. */
  lemma {:induction false} SetEffectiveTagsIdempotent(structure: seq<Node>)
    ensures SetEffectiveTags(SetEffectiveTags(structure)) == SetEffectiveTags(structure)
  {
    PropagateIgnoresOldEffectiveTags(SetEffectiveTags(structure), structure, []);
  }

  /** A node's effective tags always include its own tags. */
  lemma {:induction false} EffectiveIncludesOwn(n: Node, inherited: set<string>)
    requires PropagatedNode(n, inherited)
    ensures forall t :: t in OwnTags(n) ==> t in n.effectiveTags.value
  {
    forall t | t in OwnTags(n) ensures t in n.effectiveTags.value {
      assert t in Elems(OwnTags(n));
    }
  }
}
