/**
 * Visitor callbacks that accumulate state while the tests are visited: a
 * visit counter, and a per-tag tally of the tests' own tags kept in a
 * dictionary that is updated tag by tag. The visits themselves come from
 * `VisitEachTest`; each callback invocation is one loop iteration.
 */
module Visitors {
  import opened Wrappers
  import opened Strings
  import opened Structure
  import opened Queries

  /** Counts the callback invocations of one visit of the structure. */
  method CountVisits(structure: seq<Node>) returns (counter: nat)
    ensures counter == CountTests(structure)
  {
    var visits := VisitEachTest(structure);
    counter := 0;
    var i := 0;
    while i < |visits|
      invariant 0 <= i <= |visits|
      invariant counter == i
    {
      counter := counter + 1;
      i := i + 1;
    }
  }

  /** The own tags each visited test delivers, in visit order; untagged tests deliver none. */
  function OwnLists(vs: seq<Visit>): (r: seq<seq<string>>)
    ensures |r| == |vs|
  {
    seq(|vs|, i requires 0 <= i < |vs| => OwnTags(vs[i].test))
  }

  /** One callback invocation: each tag in `list` starts its entry at one or adds one to it. */
  method AddTags(tags: map<string, nat>, list: seq<string>) returns (r: map<string, nat>)
    ensures r == AddAll(tags, list)
  {
    r := tags;
    var j := 0;
    while j < |list|
      invariant 0 <= j <= |list|
      invariant r == AddAll(tags, list[..j])
    {
      var tag := list[j];
      assert list[..j + 1][..j] == list[..j];
      if tag !in r {
        r := r[tag := 1];
      } else {
        r := r[tag := r[tag] + 1];
      }
      j := j + 1;
    }
    assert list[..j] == list;
  }

  /**
   * Tallies the visited tests' own tags: an untagged test is skipped, and
   * each tag of a tagged test starts its entry at one or adds one to it.
   */
  method TallyOwnTags(structure: seq<Node>) returns (tags: map<string, nat>)
    ensures tags == Tally(OwnLists(VisitEachTest(structure)))
  {
    var visits := VisitEachTest(structure);
    ghost var lists := OwnLists(visits);
    tags := map[];
    var i := 0;
    while i < |visits|
      invariant 0 <= i <= |visits|
      invariant tags == Tally(lists[..i])
    {
      var test := visits[i].test;
      assert lists[i] == OwnTags(test);
      assert lists[..i + 1][..i] == lists[..i];
      if test.tags.Some? {
        tags := AddTags(tags, test.tags.value);
      }
      i := i + 1;
    }
    assert lists[..i] == lists;
  }

  /** No suite declares tags, and no test repeats one of its own tags. */
  predicate PlainTags(ns: seq<Node>)
  {
    forall i :: 0 <= i < |ns| ==>
      && (ns[i].Suite? ==> OwnTags(ns[i]) == [] && PlainTags(ns[i].children))
      && (ns[i].Test? ==> Distinct(OwnTags(ns[i])))
  }

  /** A plainly tagged list's first node is plainly tagged, and so is the rest of the list. */
  lemma {:induction false} PlainHead(ns: seq<Node>)
    requires PlainTags(ns) && ns != []
    ensures ns[0].Suite? ==> OwnTags(ns[0]) == [] && PlainTags(ns[0].children)
    ensures ns[0].Test? ==> Distinct(OwnTags(ns[0]))
    ensures PlainTags(ns[1..])
  {
    forall k | 0 <= k < |ns[1..]| ensures ns[1..][k] == ns[k + 1] { }
  }

  /** Below plainly tagged nodes every path inherits no tags and ends in a test without repeated tags. */
  lemma {:induction false} PlainPath(ns: seq<Node>, chain: seq<Node>, i: nat)
    requires PlainTags(ns) && ChainTags(chain) == []
    requires i < CountTests(ns)
    ensures ChainTags(Paths(ns, chain)[i].chain) == []
    ensures Distinct(OwnTags(Paths(ns, chain)[i].test))
  {
    var n := ns[0];
    PathsAt(ns, chain, i);
    PlainHead(ns);
    if i >= HeadCount(n) {
      PlainPath(ns[1..], chain, i - HeadCount(n));
    } else if n.Suite? {
      ChainTagsSnoc(chain, n);
      PlainPath(n.children, chain + [n], i);
    }
  }

  /** Below plainly tagged nodes the `i`-th visit delivers, without repeats, exactly the tags its path carries. */
  lemma {:induction false} PlainListAt(structure: seq<Node>, i: nat, t: string)
    requires PlainTags(structure) && i < CountTests(structure)
    ensures multiset(OwnLists(VisitEachTest(structure))[i])[t]
         == if Carries(Paths(structure, [])[i], t) then 1 else 0
  {
    var lists := OwnLists(VisitEachTest(structure));
    var p := Paths(structure, [])[i];
    VisitFollowsPaths(structure, [], i);
    PlainPath(structure, [], i);
    assert lists[i] == OwnTags(p.test);
    MultisetOfDistinct(lists[i], t);
  }

  /** Below plainly tagged nodes a tag occurs among the visited own tags once per test that carries it. */
  lemma {:induction false} PlainOccurrences(structure: seq<Node>, t: string)
    requires PlainTags(structure)
    ensures Occurrences(OwnLists(VisitEachTest(structure)), t) == Carriers(Paths(structure, []), t)
  {
    var lists := OwnLists(VisitEachTest(structure));
    var ps := Paths(structure, []);
    forall i | 0 <= i < |ps| ensures multiset(lists[i])[t] == if Carries(ps[i], t) then 1 else 0 {
      PlainListAt(structure, i, t);
    }
    OccurrencesAlongPaths(lists, ps, t);
  }

  /** Two tag counts that agree on every tag's presence and count are the same map. */
  lemma {:induction false} SameCounts(m: map<string, nat>, m': map<string, nat>)
    requires forall t :: (t in m <==> t in m') && Get(m, t) == Get(m', t)
    ensures m == m'
  {
    assert m.Keys == m'.Keys;
    forall t | t in m ensures m[t] == m'[t] {
      assert Get(m, t) == Get(m', t);
    }
  }

  /**
   * When no suite declares tags and no test repeats a tag, tallying the
   * tests' own tags during a visit gives exactly the per-tag test counts.
   */
  lemma {:induction false} OwnTallyMatchesCountTags(structure: seq<Node>)
    requires PlainTags(structure)
    ensures Tally(OwnLists(VisitEachTest(structure))) == CountTags(structure)
  {
    var lists := OwnLists(VisitEachTest(structure));
    var tally, counts := Tally(lists), CountTags(structure);
    forall t ensures (t in tally <==> t in counts) && Get(tally, t) == Get(counts, t) {
      TallyCounts(lists, t);
      PlainOccurrences(structure, t);
    }
    SameCounts(tally, counts);
  }
}
