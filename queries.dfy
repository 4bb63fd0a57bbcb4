/**
 * Queries over an extracted structure: visiting every test with its nearest
 * enclosing suite, counting tests per effective tag, filtering tests by
 * effective tags, and mapping qualified test names to effective tags. Each
 * is proved against the root-to-test paths of the structure.
 */
module Queries {
  import opened Wrappers
  import opened Strings
  import opened Syntax
  import opened Structure
  import opened Builder
  import opened EffectiveTags

  // ---------------------------------------------------------------------
  // visitEachTest

  /** One call of the visitor: a test and its nearest enclosing suite (none at top level). */
  datatype Visit = Visit(test: Node, parent: Option<Node>)

  /** The visits for the tests below `ns`, whose nearest enclosing suite so far is `parent`. */
  function VisitUnder(ns: seq<Node>, parent: Option<Node>): (r: seq<Visit>)
    ensures |r| == CountTests(ns)
    ensures forall i :: 0 <= i < |r| ==> r[i].test.Test?
  {
    if ns == [] then []
    else
      (match ns[0]
       case Test(_, _, _, _) => [Visit(ns[0], parent)]
       case Suite(_, _, _, _, children) => VisitUnder(children, Some(ns[0])))
      + VisitUnder(ns[1..], parent)
  }

  /** The visits below one node: the node itself for a test, its descendants' for a suite. */
  function HeadVisits(n: Node, parent: Option<Node>): (r: seq<Visit>)
    ensures |r| == HeadCount(n)
  {
    if n.Test? then [Visit(n, parent)] else VisitUnder(n.children, Some(n))
  }

  /** The visits below a list: those below its first node, then those below the rest. */
  lemma {:induction false} VisitUnderSplit(ns: seq<Node>, parent: Option<Node>)
    requires ns != []
    ensures VisitUnder(ns, parent) == HeadVisits(ns[0], parent) + VisitUnder(ns[1..], parent)
  {
  }

  /** The `i`-th visit below a list: one below its first node, or one below the rest. */
  lemma {:induction false} VisitUnderAt(ns: seq<Node>, parent: Option<Node>, i: nat)
    requires ns != [] && i < CountTests(ns)
    ensures CountTests(ns) == HeadCount(ns[0]) + CountTests(ns[1..])
    ensures VisitUnder(ns, parent)[i]
         == if i >= HeadCount(ns[0]) then VisitUnder(ns[1..], parent)[i - HeadCount(ns[0])]
            else if ns[0].Suite? then VisitUnder(ns[0].children, Some(ns[0]))[i]
            else Visit(ns[0], parent)
  {
    VisitUnderSplit(ns, parent);
    var head, tail := HeadVisits(ns[0], parent), VisitUnder(ns[1..], parent);
    if i < |head| {
      assert (head + tail)[i] == head[i];
    } else {
      assert (head + tail)[i] == tail[i - |head|];
    }
  }

  /** The visits in source order: siblings left to right, a suite's tests before its later siblings. */
  function VisitEachTest(structure: seq<Node>): (r: seq<Visit>)
    ensures |r| == CountTests(structure)
    ensures forall i :: 0 <= i < |r| ==> r[i].test.Test?
  {
    VisitUnder(structure, None)
  }

  /** The `i`-th visit is the `i`-th path's test with the innermost suite of its chain. */
  lemma {:induction false} VisitFollowsPaths(ns: seq<Node>, chain: seq<Node>, i: nat)
    requires i < CountTests(ns)
    ensures VisitUnder(ns, Innermost(chain))[i]
         == Visit(Paths(ns, chain)[i].test, Innermost(Paths(ns, chain)[i].chain))
  {
    var n := ns[0];
    var count := if n.Test? then 1 else CountTests(n.children);
    assert CountTests(ns) == count + CountTests(ns[1..]);
    if i < count {
      if n.Suite? {
        VisitFollowsPaths(n.children, chain + [n], i);
        assert Innermost(chain + [n]) == Some(n);
      }
    } else {
      VisitFollowsPaths(ns[1..], chain, i - count);
    }
  }

  /**
   * Every visit is of a test, never a suite; its second argument is the
   * suite whose children hold the test, or none when the test sits at the
   * top level; and the visits reach every test at any depth.
   */
  lemma {:induction false} VisitEachTestSpec(structure: seq<Node>, i: nat)
    requires i < |VisitEachTest(structure)|
    ensures |VisitEachTest(structure)| == CountTests(structure)
    ensures var v := VisitEachTest(structure)[i];
      && v.test.Test?
      && (v.parent.None? ==> v.test in structure)
      && (v.parent.Some? ==> v.parent.value.Suite? && v.test in v.parent.value.children)
  {
    VisitFollowsPaths(structure, [], i);
    PathShape(structure, [], i);
    PathEndsInTest(structure, [], i);
    var p := Paths(structure, [])[i];
    if p.chain != [] {
      assert LinkedAt(p.chain, 0, structure, |p.chain| - 1);
    }
  }

  /** The test a path ends in, with the effective tags propagation gives it. */
  function Tagged(p: Path): Node
  {
    match p.test
    case Test(name, tags, pending, _) => Test(name, tags, pending, Some(EffectiveOf(p)))
    case Suite(_, _, _, _, _) => p.test
  }

  lemma {:induction false} ChainTagsSnoc(chain: seq<Node>, n: Node)
    ensures ChainTags(chain + [n]) == ChainTags(chain) + OwnTags(n)
    ensures ChainNames(chain + [n]) == ChainNames(chain) + NameList(n.name)
  {
    assert (chain + [n])[..|chain|] == chain;
  }

  /**
   * After propagation, the `i`-th visited test is the `i`-th path's test
   * carrying the sorted union of its own and all its ancestors' own tags.
   */
  lemma {:induction false} PropagatedVisit(ns: seq<Node>, chain: seq<Node>, parent: Option<Node>, i: nat)
    requires i < CountTests(ns)
    ensures i < |VisitUnder(Propagate(ns, ChainTags(chain)), parent)|
    ensures VisitUnder(Propagate(ns, ChainTags(chain)), parent)[i].test == Tagged(Paths(ns, chain)[i])
  {
    var inherited := ChainTags(chain);
    var ms := Propagate(ns, inherited);
    var n := ns[0];
    PropagateSpec(ns, inherited);
    PropagateHead(ns, inherited);
    if n.Suite? {
      PropagateSpec(n.children, inherited + OwnTags(n));
    }
    var h := HeadCount(n);
    assert HeadCount(ms[0]) == h;
    PathsAt(ns, chain, i);
    VisitUnderAt(ms, parent, i);
    if i >= h {
      PropagatedVisit(ns[1..], chain, parent, i - h);
    } else if n.Suite? {
      ChainTagsSnoc(chain, n);
      PropagatedVisit(n.children, chain + [n], Some(ms[0]), i);
    }
  }

  // ---------------------------------------------------------------------
  // countTags

  /** The count recorded for `t`, zero when `t` has no entry. */
  function Get(m: map<string, nat>, t: string): nat
  {
    if t in m then m[t] else 0
  }

  /** Counts one more occurrence of `t`. */
  function Bump(m: map<string, nat>, t: string): map<string, nat>
  {
    m[t := Get(m, t) + 1]
  }

  /** Counts one occurrence of every element of `tags`, in order. */
  function AddAll(m: map<string, nat>, tags: seq<string>): map<string, nat>
  {
    if tags == [] then m else Bump(AddAll(m, tags[..|tags| - 1]), tags[|tags| - 1])
  }

  /** Counts, per tag, its occurrences across all the lists. */
  function Tally(lists: seq<seq<string>>): map<string, nat>
  {
    if lists == [] then map[] else AddAll(Tally(lists[..|lists| - 1]), lists[|lists| - 1])
  }

  /** The total number of occurrences of `t` in the lists. */
  function Occurrences(lists: seq<seq<string>>, t: string): nat
  {
    if lists == [] then 0
    else Occurrences(lists[..|lists| - 1], t) + multiset(lists[|lists| - 1])[t]
  }

  lemma {:induction false} AddAllCounts(m: map<string, nat>, tags: seq<string>, t: string)
    ensures t in AddAll(m, tags) <==> t in m || t in tags
    ensures Get(AddAll(m, tags), t) == Get(m, t) + multiset(tags)[t]
  {
    if tags != [] {
      var init := tags[..|tags| - 1];
      AddAllCounts(m, init, t);
      assert tags == init + [tags[|tags| - 1]];
      assert multiset(tags) == multiset(init) + multiset{tags[|tags| - 1]};
    }
  }

  /** A tag has an entry exactly when it occurs somewhere, and the entry is its number of occurrences. */
  lemma {:induction false} TallyCounts(lists: seq<seq<string>>, t: string)
    ensures t in Tally(lists) <==> Occurrences(lists, t) > 0
    ensures Get(Tally(lists), t) == Occurrences(lists, t)
  {
    if lists != [] {
      var init := lists[..|lists| - 1];
      TallyCounts(init, t);
      AddAllCounts(Tally(init), lists[|lists| - 1], t);
    }
  }

  /** Whether a path's test carries `t`, as its own tag or an enclosing suite's. */
  predicate Carries(p: Path, t: string)
  {
    t in ChainTags(p.chain) || t in OwnTags(p.test)
  }

  /** The number of paths whose test carries `t`. */
  function Carriers(ps: seq<Path>, t: string): nat
  {
    if ps == [] then 0
    else Carriers(ps[..|ps| - 1], t) + (if Carries(ps[|ps| - 1], t) then 1 else 0)
  }

  /** In a list without repeats every element occurs once. */
  lemma {:induction false} MultisetOfDistinct(s: seq<string>, t: string)
    requires Distinct(s)
    ensures multiset(s)[t] == if t in s then 1 else 0
  {
    if s != [] {
      var rest := s[1..];
      assert s == [s[0]] + rest;
      assert multiset(s) == multiset{s[0]} + multiset(rest);
      assert Distinct(rest) by {
        forall i, j | 0 <= i < j < |rest| ensures rest[i] != rest[j] {
          assert rest[i] == s[i + 1] && rest[j] == s[j + 1];
        }
      }
      MultisetOfDistinct(rest, t);
      if t == s[0] {
        forall k | 0 <= k < |rest| ensures rest[k] != t {
          assert rest[k] == s[k + 1];
        }
      }
    }
  }

  lemma {:induction false} EffectiveOfCarries(p: Path, t: string)
    ensures multiset(EffectiveOf(p))[t] == if Carries(p, t) then 1 else 0
  {
    StrictlySortedIsDistinct(EffectiveOf(p));
    MultisetOfDistinct(EffectiveOf(p), t);
    ElemsAppend(ChainTags(p.chain), OwnTags(p.test));
    assert t in EffectiveOf(p) <==> t in Elems(EffectiveOf(p));
    assert t in ChainTags(p.chain) <==> t in Elems(ChainTags(p.chain));
    assert t in OwnTags(p.test) <==> t in Elems(OwnTags(p.test));
  }

  /** When each list holds `t` once if its path carries `t` and never otherwise, `t` occurs once per carrier. */
  lemma {:induction false} OccurrencesAlongPaths(lists: seq<seq<string>>, ps: seq<Path>, t: string)
    requires |lists| == |ps|
    requires forall i :: 0 <= i < |ps| ==> multiset(lists[i])[t] == if Carries(ps[i], t) then 1 else 0
    ensures Occurrences(lists, t) == Carriers(ps, t)
  {
    if ps != [] {
      OccurrencesAlongPaths(lists[..|lists| - 1], ps[..|ps| - 1], t);
    }
  }

  /** The effective tags each visit delivers, in visit order. */
  function EffectiveLists(vs: seq<Visit>): (r: seq<seq<string>>)
    ensures |r| == |vs|
  {
    seq(|vs|, i requires 0 <= i < |vs| =>
      if vs[i].test.effectiveTags.Some? then vs[i].test.effectiveTags.value else [])
  }

  /** The tests of the structure after propagation, in source order. */
  function PropagatedVisits(structure: seq<Node>): (r: seq<Visit>)
    ensures |r| == CountTests(structure)
  {
    VisitEachTest(SetEffectiveTags(structure))
  }

  lemma {:induction false} PropagatedVisitsFollowPaths(structure: seq<Node>, i: nat)
    requires i < CountTests(structure)
    ensures PropagatedVisits(structure)[i].test == Tagged(Paths(structure, [])[i])
  {
    PropagatedVisit(structure, [], None, i);
  }

  /**
   * Counts, per tag, the tests carrying it among their effective tags;
   * effective tags are computed first, so no earlier propagation is needed.
   * A tag maps to the number of tests carrying it as their own or an
   * enclosing suite's tag, each test counting once however many suites
   * declare it; tags carried by no test have no entry.
   */
  function CountTags(structure: seq<Node>): (r: map<string, nat>)
    ensures forall t :: t in r <==> Carriers(Paths(structure, []), t) > 0
    ensures forall t :: Get(r, t) == Carriers(Paths(structure, []), t)
  {
    var visits := PropagatedVisits(structure);
    var lists := EffectiveLists(visits);
    var ps := Paths(structure, []);
    assert forall i :: 0 <= i < |ps| ==> lists[i] == EffectiveOf(ps[i]) by {
      forall i | 0 <= i < |ps| ensures lists[i] == EffectiveOf(ps[i]) {
        PathEndsInTest(structure, [], i);
        PropagatedVisitsFollowPaths(structure, i);
      }
    }
    var r := Tally(lists);
    assert forall t :: (t in r <==> Carriers(ps, t) > 0) && Get(r, t) == Carriers(ps, t) by {
      forall t ensures (t in r <==> Carriers(ps, t) > 0) && Get(r, t) == Carriers(ps, t) {
        TallyCounts(lists, t);
        forall i | 0 <= i < |ps| ensures multiset(lists[i])[t] == if Carries(ps[i], t) then 1 else 0 {
          EffectiveOfCarries(ps[i], t);
        }
        OccurrencesAlongPaths(lists, ps, t);
      }
    }
    r
  }

  // ---------------------------------------------------------------------
  // filterByEffectiveTags

  /** What the filter is given: a structure, or the spec file itself. */
  datatype Input = FromStructure(structure: seq<Node>) | FromSource(program: Program)

  /** The node's effective tags contain at least one of the query tags. */
  predicate HitsAny(n: Node, query: seq<string>)
  {
    n.effectiveTags.Some? && exists t :: t in query && t in n.effectiveTags.value
  }

  /** The visited tests whose effective tags hit the query, in visit order. */
  function Select(vs: seq<Visit>, query: seq<string>): (r: seq<Node>)
    ensures |r| <= |vs|
    ensures forall n :: n in r ==> HitsAny(n, query)
    ensures forall i :: 0 <= i < |vs| && HitsAny(vs[i].test, query) ==> vs[i].test in r
    ensures forall n :: n in r ==> exists i :: 0 <= i < |vs| && vs[i].test == n
  {
    if vs == [] then []
    else
      var rest := Select(vs[1..], query);
      assert forall n :: n in rest ==> exists i :: 0 <= i < |vs| && vs[i].test == n by {
        forall n | n in rest ensures exists i :: 0 <= i < |vs| && vs[i].test == n {
          var j :| 0 <= j < |vs[1..]| && vs[1..][j].test == n;
          assert vs[j + 1].test == n;
        }
      }
      (if HitsAny(vs[0].test, query) then [vs[0].test] else []) + rest
  }

  /**
   * The tests whose effective tags contain any of the query tags, in source
   * order. Given the spec file, the structure is extracted and propagated
   * first; given a structure, its effective tags must already be attached.
   */
  function FilterByEffectiveTags(input: Input, query: seq<string>): (r: seq<Node>)
    ensures forall n :: n in r ==> n.Test? && HitsAny(n, query)
  {
    var structure := match input
      case FromStructure(structure) => structure
      case FromSource(program) => SetEffectiveTags(GetTestNames(program, true).structure.value);
    var visits := VisitEachTest(structure);
    forall n | n in Select(visits, query) ensures n.Test? {
      var i :| 0 <= i < |visits| && visits[i].test == n;
    }
    Select(VisitEachTest(structure), query)
  }

  /** The path's test carries one of the query tags, as its own or an enclosing suite's tag. */
  predicate Matches(p: Path, query: seq<string>)
  {
    exists t :: t in query && Carries(p, t)
  }

  /** The tests of the matching paths, with their effective tags, in path order. */
  function SelectPaths(ps: seq<Path>, query: seq<string>): seq<Node>
  {
    if ps == [] then []
    else (if Matches(ps[0], query) then [Tagged(ps[0])] else []) + SelectPaths(ps[1..], query)
  }

  lemma {:induction false} HitsAnyTagged(p: Path, query: seq<string>)
    requires p.test.Test?
    ensures HitsAny(Tagged(p), query) <==> Matches(p, query)
  {
    forall t ensures t in EffectiveOf(p) <==> Carries(p, t) {
      EffectiveOfCarries(p, t);
    }
  }

  lemma {:induction false} SelectAlongPaths(vs: seq<Visit>, ps: seq<Path>, query: seq<string>)
    requires |vs| == |ps|
    requires forall i :: 0 <= i < |ps| ==> ps[i].test.Test? && vs[i].test == Tagged(ps[i])
    ensures Select(vs, query) == SelectPaths(ps, query)
  {
    if ps != [] {
      HitsAnyTagged(ps[0], query);
      SelectAlongPaths(vs[1..], ps[1..], query);
    }
  }

  /**
   * On a propagated structure the filter returns, in source order, exactly
   * the tests that carry a query tag as their own tag or as the tag of any
   * enclosing suite, each with its effective tags.
   */
  lemma {:induction false} FilterPropagatedStructure(structure: seq<Node>, query: seq<string>)
    ensures FilterByEffectiveTags(FromStructure(SetEffectiveTags(structure)), query)
         == SelectPaths(Paths(structure, []), query)
  {
    var ps := Paths(structure, []);
    forall i | 0 <= i < |ps| ensures ps[i].test.Test? && PropagatedVisits(structure)[i].test == Tagged(ps[i]) {
      PathEndsInTest(structure, [], i);
      PropagatedVisitsFollowPaths(structure, i);
    }
    SelectAlongPaths(PropagatedVisits(structure), ps, query);
  }

  /** Filtering the spec file is filtering its extracted structure after propagation. */
  lemma {:induction false} FilterSourceMatchesStructure(program: Program, query: seq<string>)
    ensures var structure := GetTestNames(program, true).structure.value;
      && FilterByEffectiveTags(FromSource(program), query)
         == FilterByEffectiveTags(FromStructure(SetEffectiveTags(structure)), query)
      && FilterByEffectiveTags(FromSource(program), query)
         == SelectPaths(Paths(structure, []), query)
  {
    FilterPropagatedStructure(GetTestNames(program, true).structure.value, query);
  }

  // ---------------------------------------------------------------------
  // findEffectiveTestTags

  /** A qualified test name and the test's effective tags. */
  datatype Entry = Entry(qualifiedName: string, tags: seq<string>)

  /** The entry for a test whose enclosing suites' resolved names are `prefix`. */
  function EntryOf(n: Node, prefix: seq<string>): Entry
  {
    Entry(JoinWords(prefix + NameList(n.name)), if n.effectiveTags.Some? then n.effectiveTags.value else [])
  }

  /** The entries for the tests below `ns`, whose enclosing suites' resolved names are `prefix`. */
  function Qualify(ns: seq<Node>, prefix: seq<string>): (r: seq<Entry>)
    ensures |r| == CountTests(ns)
  {
    if ns == [] then []
    else
      (match ns[0]
       case Test(_, _, _, _) => [EntryOf(ns[0], prefix)]
       case Suite(name, _, _, _, children) => Qualify(children, prefix + NameList(name)))
      + Qualify(ns[1..], prefix)
  }

  lemma {:induction false} QualifyFollowsPaths(ns: seq<Node>, chain: seq<Node>, i: nat)
    requires i < CountTests(ns)
    ensures i < |Qualify(Propagate(ns, ChainTags(chain)), ChainNames(chain))|
    ensures Qualify(Propagate(ns, ChainTags(chain)), ChainNames(chain))[i]
         == Entry(QualifiedName(Paths(ns, chain)[i]), EffectiveOf(Paths(ns, chain)[i]))
  {
    var inherited := ChainTags(chain);
    var prefix := ChainNames(chain);
    var propagated := Propagate(ns, inherited);
    var n := ns[0];
    var m := propagated[0];
    PropagateHead(ns, inherited);
    if n.Suite? {
      PropagateSpec(n.children, inherited + OwnTags(n));
    }
    assert m.name == n.name;
    var es := Qualify(propagated, prefix);
    var ehead := if m.Test? then [EntryOf(m, prefix)] else Qualify(m.children, prefix + NameList(m.name));
    assert es == ehead + Qualify(propagated[1..], prefix);
    var phead := if n.Test? then [Path(chain, n)] else Paths(n.children, chain + [n]);
    assert Paths(ns, chain) == phead + Paths(ns[1..], chain);
    assert |ehead| == |phead|;
    if i < |phead| {
      assert es[i] == ehead[i];
      assert Paths(ns, chain)[i] == phead[i];
      if n.Suite? {
        ChainTagsSnoc(chain, n);
        QualifyFollowsPaths(n.children, chain + [n], i);
      } else {
        assert m.effectiveTags == Some(SortUnique(inherited + OwnTags(n)));
      }
    } else {
      QualifyFollowsPaths(ns[1..], chain, i - |phead|);
      assert es[i] == Qualify(propagated[1..], prefix)[i - |phead|];
      assert Paths(ns, chain)[i] == Paths(ns[1..], chain)[i - |phead|];
    }
  }

  /** Collects the entries into a mapping; a later entry with the same name replaces an earlier one. */
  function ToMap(es: seq<Entry>): map<string, seq<string>>
  {
    if es == [] then map[]
    else ToMap(es[..|es| - 1])[es[|es| - 1].qualifiedName := es[|es| - 1].tags]
  }

  /**
   * The keys are exactly the entries' names, each mapped to the tags of one
   * entry with that name (the last one), and there are no more keys than entries.
   */
  lemma {:induction false} ToMapSpec(es: seq<Entry>)
    ensures |ToMap(es)| <= |es|
    ensures forall k :: k in ToMap(es) <==> exists i :: 0 <= i < |es| && es[i].qualifiedName == k
    ensures forall k :: k in ToMap(es) ==>
      exists i :: 0 <= i < |es| && es[i].qualifiedName == k && ToMap(es)[k] == es[i].tags
  {
    if es != [] {
      var init := es[..|es| - 1];
      var last := es[|es| - 1];
      var m := ToMap(init);
      ToMapSpec(init);
      assert ToMap(es) == m[last.qualifiedName := last.tags];
      assert |ToMap(es)| <= |m| + 1 by {
        assert ToMap(es).Keys <= m.Keys + {last.qualifiedName};
        assert |m.Keys + {last.qualifiedName}| <= |m.Keys| + 1;
      }
      forall k | k in ToMap(es)
        ensures exists i :: 0 <= i < |es| && es[i].qualifiedName == k && ToMap(es)[k] == es[i].tags
      {
        if k == last.qualifiedName {
          assert es[|es| - 1].qualifiedName == k;
        } else {
          var i :| 0 <= i < |init| && init[i].qualifiedName == k && m[k] == init[i].tags;
          assert es[i] == init[i];
        }
      }
      forall k | exists i :: 0 <= i < |es| && es[i].qualifiedName == k
        ensures k in ToMap(es)
      {
        var i :| 0 <= i < |es| && es[i].qualifiedName == k;
        if i < |init| {
          assert init[i] == es[i];
        }
      }
    }
  }

  /** A name no entry has is not a key. */
  lemma {:induction false} ToMapMissing(es: seq<Entry>, k: string)
    requires forall i :: 0 <= i < |es| ==> es[i].qualifiedName != k
    ensures k !in ToMap(es)
  {
    if es != [] {
      var init := es[..|es| - 1];
      forall i | 0 <= i < |init| ensures init[i].qualifiedName != k {
        assert init[i] == es[i];
      }
      ToMapMissing(init, k);
    }
  }

  predicate DistinctNames(es: seq<Entry>)
  {
    forall i, j :: 0 <= i < j < |es| ==> es[i].qualifiedName != es[j].qualifiedName
  }

  /** With distinct names every entry survives: one key per entry, mapped to its own tags. */
  lemma {:induction false} ToMapDistinct(es: seq<Entry>)
    requires DistinctNames(es)
    ensures |ToMap(es)| == |es|
    ensures forall i :: 0 <= i < |es| ==>
      es[i].qualifiedName in ToMap(es) && ToMap(es)[es[i].qualifiedName] == es[i].tags
  {
    if es != [] {
      var init := es[..|es| - 1];
      var last := es[|es| - 1];
      var m := ToMap(init);
      assert DistinctNames(init) by {
        forall i, j | 0 <= i < j < |init| ensures init[i].qualifiedName != init[j].qualifiedName {
          assert init[i] == es[i] && init[j] == es[j];
        }
      }
      ToMapDistinct(init);
      forall i | 0 <= i < |init| ensures init[i].qualifiedName != last.qualifiedName {
        assert init[i] == es[i];
      }
      ToMapMissing(init, last.qualifiedName);
      assert ToMap(es) == m[last.qualifiedName := last.tags];
      forall i | 0 <= i < |es| ensures ToMap(es)[es[i].qualifiedName] == es[i].tags {
        if i < |init| {
          assert init[i] == es[i];
          assert es[i].qualifiedName != last.qualifiedName;
        }
      }
    }
  }

  /** The paths of the spec file's structure, in source order. */
  function SourcePaths(program: Program): (r: seq<Path>)
    ensures |r| == CountTests(GetTestNames(program, true).structure.value)
  {
    Paths(GetTestNames(program, true).structure.value, [])
  }

  /** The entries of the spec file's propagated structure, in source order. */
  function SourceEntries(program: Program): seq<Entry>
  {
    Qualify(SetEffectiveTags(GetTestNames(program, true).structure.value), [])
  }

  /** The `i`-th entry names the `i`-th path's test and carries its effective tags. */
  lemma {:induction false} SourceEntriesFollowPaths(program: Program)
    ensures |SourceEntries(program)| == |SourcePaths(program)|
    ensures forall i :: 0 <= i < |SourcePaths(program)| ==>
      SourceEntries(program)[i] == Entry(QualifiedName(SourcePaths(program)[i]), EffectiveOf(SourcePaths(program)[i]))
  {
    var structure := GetTestNames(program, true).structure.value;
    forall i | 0 <= i < |SourcePaths(program)|
      ensures SourceEntries(program)[i] == Entry(QualifiedName(SourcePaths(program)[i]), EffectiveOf(SourcePaths(program)[i]))
    {
      QualifyFollowsPaths(structure, [], i);
    }
  }

  /** Maps every test's qualified name to its effective tags; a repeated name keeps the later test's tags. */
  function FindEffectiveTestTags(program: Program): map<string, seq<string>>
  {
    ToMap(SourceEntries(program))
  }

  /** Entries built along paths: the mapping's keys and values come from those paths. */
  lemma {:induction false} ToMapAlongPaths(es: seq<Entry>, ps: seq<Path>)
    requires |es| == |ps|
    requires forall i :: 0 <= i < |ps| ==> es[i] == Entry(QualifiedName(ps[i]), EffectiveOf(ps[i]))
    ensures |ToMap(es)| <= |ps|
    ensures forall k :: k in ToMap(es) <==> exists i :: 0 <= i < |ps| && QualifiedName(ps[i]) == k
    ensures forall k :: k in ToMap(es) ==>
      exists i :: 0 <= i < |ps| && QualifiedName(ps[i]) == k && ToMap(es)[k] == EffectiveOf(ps[i])
  {
    ToMapSpec(es);
    forall k | k in ToMap(es)
      ensures exists i :: 0 <= i < |ps| && QualifiedName(ps[i]) == k && ToMap(es)[k] == EffectiveOf(ps[i])
    {
      var i :| 0 <= i < |es| && es[i].qualifiedName == k && ToMap(es)[k] == es[i].tags;
      assert QualifiedName(ps[i]) == k && ToMap(es)[k] == EffectiveOf(ps[i]);
    }
  }

  /**
   * The keys are exactly the tests' qualified names (an unresolved suite or
   * test name is left out of the name, never replaced), there are at most
   * as many keys as tests, and each value is the effective tag list of a
   * test with that name: sorted and without repeats.
   */
  lemma {:induction false} FindEffectiveTestTagsSpec(program: Program)
    ensures |FindEffectiveTestTags(program)| <= CountTests(GetTestNames(program, true).structure.value)
    ensures forall k :: k in FindEffectiveTestTags(program) <==>
      exists i :: 0 <= i < |SourcePaths(program)| && QualifiedName(SourcePaths(program)[i]) == k
    ensures forall k :: k in FindEffectiveTestTags(program) ==>
      && StrictlySorted(FindEffectiveTestTags(program)[k])
      && exists i :: 0 <= i < |SourcePaths(program)| && QualifiedName(SourcePaths(program)[i]) == k
                  && FindEffectiveTestTags(program)[k] == EffectiveOf(SourcePaths(program)[i])
  {
    SourceEntriesFollowPaths(program);
    ToMapAlongPaths(SourceEntries(program), SourcePaths(program));
  }

  /**
   * When the qualified names are all different, the mapping has exactly one
   * entry per test, and each test's name maps to the sorted union of its own
   * and its enclosing suites' own tags.
   */
  lemma {:induction false} FindEffectiveTestTagsPerTest(program: Program)
    requires forall i, j :: 0 <= i < j < |SourcePaths(program)| ==>
      QualifiedName(SourcePaths(program)[i]) != QualifiedName(SourcePaths(program)[j])
    ensures |FindEffectiveTestTags(program)| == CountTests(GetTestNames(program, true).structure.value)
    ensures forall i :: 0 <= i < |SourcePaths(program)| ==>
      && QualifiedName(SourcePaths(program)[i]) in FindEffectiveTestTags(program)
      && FindEffectiveTestTags(program)[QualifiedName(SourcePaths(program)[i])] == EffectiveOf(SourcePaths(program)[i])
  {
    var es := SourceEntries(program);
    SourceEntriesFollowPaths(program);
    ToMapDistinct(es);
  }
}
