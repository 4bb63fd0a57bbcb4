/**
 * The structure object a caller holds after extraction. Propagation attaches
 * effective tags to it in place and hands the same object back, so every
 * later query through the same reference sees the propagated tree.
 */
module MutableStructure {
  import opened Structure
  import EffectiveTags
  import Queries

  class StructureRef {
    /** The root-level suites and tests, in source order. */
    var roots: seq<Node>

    constructor (roots: seq<Node>)
      ensures this.roots == roots
    {
      this.roots := roots;
    }

    /**
     * Attaches effective tags to every node and returns this same object.
     * Only the `effectiveTags` fields change, every node afterwards holds
     * the sorted, duplicate-free union of its own and its ancestors' own
     * tags, and the result is the value-level propagation of the old tree.
     */
    method SetEffectiveTags() returns (same: StructureRef)
      modifies this
      ensures same == this
      ensures roots == EffectiveTags.SetEffectiveTags(old(roots))
      ensures EffectiveTags.Bare(roots) == EffectiveTags.Bare(old(roots))
      ensures CountTests(roots) == CountTests(old(roots))
      ensures EffectiveTags.Propagated(roots, {})
    {
      roots := EffectiveTags.SetEffectiveTags(roots);
      same := this;
    }

    /**
     * Counts the tests carrying each tag. Like propagation, it first attaches
     * effective tags to the held tree in place, so the structure the caller
     * holds afterwards is propagated; the counts are those of the old tree.
     */
    method CountTags() returns (counts: map<string, nat>)
      modifies this
      ensures roots == EffectiveTags.SetEffectiveTags(old(roots))
      ensures EffectiveTags.Propagated(roots, {})
      ensures counts == Queries.CountTags(old(roots))
      ensures forall t :: Queries.Get(counts, t) == Queries.Carriers(Paths(old(roots), []), t)
    {
      counts := Queries.CountTags(roots);
      roots := EffectiveTags.SetEffectiveTags(roots);
    }

    /** Filters the held tree by the effective tags currently attached to it. */
    method FilterByEffectiveTags(query: seq<string>) returns (tests: seq<Node>)
      ensures tests == Queries.FilterByEffectiveTags(Queries.FromStructure(roots), query)
    {
      tests := Queries.FilterByEffectiveTags(Queries.FromStructure(roots), query);
    }
  }

  /** Propagating twice through the same reference leaves the second call nothing to change. */
  method SetEffectiveTagsTwice(s: StructureRef)
    modifies s
    ensures s.roots == EffectiveTags.SetEffectiveTags(old(s.roots))
  {
    var first := s.SetEffectiveTags();
    ghost var once := s.roots;
    var second := s.SetEffectiveTags();
    EffectiveTags.SetEffectiveTagsIdempotent(old(s.roots));
    assert s.roots == once;
  }

  /**
   * Counting tags through a reference propagates the tree it holds, so a
   * later filter through the same reference selects, in source order, the
   * tests carrying a query tag, even when nobody propagated explicitly.
   */
  method CountThenFilter(s: StructureRef, query: seq<string>) returns (tests: seq<Node>)
    modifies s
    ensures tests == Queries.SelectPaths(Paths(old(s.roots), []), query)
  {
    var counts := s.CountTags();
    tests := s.FilterByEffectiveTags(query);
    Queries.FilterPropagatedStructure(old(s.roots), query);
  }
}
