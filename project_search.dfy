/**
 * The search box shared by the project manager dashboard and the contractor interface:
 * `projects.filter(p => name.toLowerCase().includes(term.toLowerCase()) ||
 * description.toLowerCase().includes(term.toLowerCase()))`, and the `reduce` that adds up
 * `updatesCount`.
 */
module ProjectSearch {
  import opened Text
  import opened ProjectRecords

  /** The filter's callback: the lowered name or the lowered description includes the lowered term. */
  predicate Matches(p: ProjectRecord, term: String) {
    Contains(Lower(p.projectName), Lower(term)) || Contains(Lower(p.description), Lower(term))
  }

  /** `Array.prototype.filter` with `Matches`: keeps only matching projects, no more than it got. */
  function Filter(projects: seq<ProjectRecord>, term: String): (r: seq<ProjectRecord>)
    ensures |r| <= |projects|
    ensures forall p :: p in r ==> p in projects && Matches(p, term)
  {
    if projects == [] then []
    else if Matches(projects[0], term) then [projects[0]] + Filter(projects[1..], term)
    else Filter(projects[1..], term)
  }

  /** `a` is `b` with some elements left out, the rest in their original order. */
  predicate IsSubsequence<T(==)>(a: seq<T>, b: seq<T>)
    decreases |b|
  {
    a == [] ||
    (b != [] && ((a[0] == b[0] && IsSubsequence(a[1..], b[1..])) || IsSubsequence(a, b[1..])))
  }

  /** The filtered list keeps the loaded order: it is a subsequence of the loaded projects. */
  lemma {:induction false} FilterIsSubsequence(projects: seq<ProjectRecord>, term: String)
    ensures IsSubsequence(Filter(projects, term), projects)
  {
    if projects != [] {
      FilterIsSubsequence(projects[1..], term);
      var r := Filter(projects, term);
      if Matches(projects[0], term) {
        assert r[0] == projects[0] && r[1..] == Filter(projects[1..], term);
      }
    }
  }

  /** A project is shown exactly when it was loaded and it matches the search term. */
  lemma {:induction false} FilterMembership(projects: seq<ProjectRecord>, term: String, p: ProjectRecord)
    ensures p in Filter(projects, term) <==> p in projects && Matches(p, term)
  {
    if projects != [] {
      FilterMembership(projects[1..], term, p);
      assert p in projects <==> p == projects[0] || p in projects[1..];
    }
  }

  /** Filtering keeps every copy of a matching project and drops every copy of the others. */
  lemma {:induction false} FilterMultiplicity(projects: seq<ProjectRecord>, term: String, p: ProjectRecord)
    ensures multiset(Filter(projects, term))[p] ==
            if Matches(p, term) then multiset(projects)[p] else 0
  {
    if projects != [] {
      FilterMultiplicity(projects[1..], term, p);
      assert projects == [projects[0]] + projects[1..];
      assert multiset(projects) == multiset([projects[0]]) + multiset(projects[1..]);
    }
  }

  /** Every string includes the empty string, so an empty search shows every loaded project. */
  lemma {:induction false} FilterEmptyTerm(projects: seq<ProjectRecord>)
    ensures Filter(projects, []) == projects
  {
    if projects != [] {
      ContainsEmpty(Lower(projects[0].projectName));
      assert Lower([]) == [];
      FilterEmptyTerm(projects[1..]);
    }
  }

  /** Filtering the filtered list again with the same term changes nothing. */
  lemma {:induction false} FilterIdempotent(projects: seq<ProjectRecord>, term: String)
    ensures Filter(Filter(projects, term), term) == Filter(projects, term)
  {
    if projects != [] {
      FilterIdempotent(projects[1..], term);
      if Matches(projects[0], term) {
        var r := Filter(projects, term);
        assert r[0] == projects[0] && r[1..] == Filter(projects[1..], term);
      }
    }
  }

  /** Filtering a concatenation filters each part. */
  lemma {:induction false} FilterAppend(a: seq<ProjectRecord>, b: seq<ProjectRecord>, term: String)
    ensures Filter(a + b, term) == Filter(a, term) + Filter(b, term)
  {
    if a != [] {
      assert (a + b)[1..] == a[1..] + b;
      FilterAppend(a[1..], b, term);
    } else {
      assert a + b == b;
    }
  }

  /** `projects.reduce((sum, p) => sum + p.updatesCount, 0)`, a left fold. */
  function SumUpdates(projects: seq<ProjectRecord>): nat
    decreases |projects|
  {
    if projects == [] then 0
    else SumUpdates(projects[..|projects| - 1]) + projects[|projects| - 1].updatesCount
  }

  /** The sum over a concatenation is the sum of the sums. */
  lemma {:induction false} SumUpdatesAppend(a: seq<ProjectRecord>, b: seq<ProjectRecord>)
    ensures SumUpdates(a + b) == SumUpdates(a) + SumUpdates(b)
    decreases |b|
  {
    if b == [] {
      assert a + b == a;
    } else {
      var b' := b[..|b| - 1];
      assert (a + b)[..|a + b| - 1] == a + b';
      SumUpdatesAppend(a, b');
    }
  }

  /** The sum over a single project is its count. */
  lemma SumUpdatesSingle(x: ProjectRecord)
    ensures SumUpdates([x]) == x.updatesCount
  {
    assert [x][..0] == [];
  }

  /** Taking one project out of the list takes exactly its updates out of the sum. */
  lemma {:induction false} SumUpdatesRemove(projects: seq<ProjectRecord>, k: nat)
    requires k < |projects|
    ensures SumUpdates(projects) == SumUpdates(projects[..k] + projects[k + 1..]) + projects[k].updatesCount
  {
    var left, x, right := projects[..k], projects[k], projects[k + 1..];
    assert projects == (left + [x]) + right;
    SumUpdatesAppend(left + [x], right);
    SumUpdatesAppend(left, [x]);
    SumUpdatesAppend(left, right);
    SumUpdatesSingle(x);
  }

  /** The sum does not depend on the order of the list: any permutation has the same sum. */
  lemma {:induction false} SumUpdatesPermutation(a: seq<ProjectRecord>, b: seq<ProjectRecord>)
    requires multiset(a) == multiset(b)
    ensures SumUpdates(a) == SumUpdates(b)
    decreases |a|
  {
    if a == [] {
      assert |b| == |multiset(b)| == 0;
    } else {
      var x, tail := a[0], a[1..];
      assert x in multiset(b);
      var k :| 0 <= k < |b| && b[k] == x;
      var rest := b[..k] + b[k + 1..];
      assert b == b[..k] + [x] + b[k + 1..];
      assert multiset(rest) == multiset(b) - multiset{x};
      assert a == [x] + tail;
      assert multiset(tail) == multiset(a) - multiset{x};
      SumUpdatesPermutation(tail, rest);
      SumUpdatesRemove(b, k);
      SumUpdatesAppend([x], tail);
      SumUpdatesSingle(x);
    }
  }

  /** Every project's updates are part of the sum, and the sum is zero exactly when each count is. */
  lemma {:induction false} SumUpdatesBoundsEach(projects: seq<ProjectRecord>)
    ensures forall p :: p in projects ==> p.updatesCount <= SumUpdates(projects)
    ensures SumUpdates(projects) == 0 <==> forall p :: p in projects ==> p.updatesCount == 0
    decreases |projects|
  {
    if projects != [] {
      var init := projects[..|projects| - 1];
      SumUpdatesBoundsEach(init);
      assert forall p :: p in projects ==> p in init || p == projects[|projects| - 1];
    }
  }

  /** The updates of the shown projects never exceed the updates of all loaded projects. */
  lemma {:induction false} FilteredUpdatesAtMostTotal(projects: seq<ProjectRecord>, term: String)
    ensures SumUpdates(Filter(projects, term)) <= SumUpdates(projects)
  {
    if projects != [] {
      var head, tail := projects[0], projects[1..];
      assert projects == [head] + tail;
      SumUpdatesAppend([head], tail);
      FilteredUpdatesAtMostTotal(tail, term);
      if Matches(head, term) {
        SumUpdatesAppend([head], Filter(tail, term));
      }
    }
  }
}
