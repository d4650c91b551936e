/** The terms screen's expandable sections (src/screens/TermsScreen.tsx): which section indices are open. */
module Terms {
  import opened Seqs

  /** No index occurs twice. */
  predicate Distinct(s: seq<int>)
  {
    forall j, k :: 0 <= j < k < |s| ==> s[j] != s[k]
  }

  /**
   * The updater inside `toggleSection(index)` (lines 133-139): an open index is filtered out,
   * a closed one is appended at the end.
   */
  function Toggle(prev: seq<int>, index: int): (r: seq<int>)
    ensures index in prev ==> SubsequenceOf(r, prev) && index !in r
    ensures index !in prev ==> r == prev + [index]
  {
    if index in prev then
      FilterMembership(prev, (i: int) => i != index, index);
      Filter(prev, (i: int) => i != index)
    else prev + [index]
  }

  /** Toggling flips the membership of the toggled index. */
  lemma ToggleFlips(prev: seq<int>, index: int)
    ensures index in Toggle(prev, index) <==> index !in prev
  {
  }

  /** Toggling leaves the membership of every other index as it was. */
  lemma ToggleKeepsOthers(prev: seq<int>, index: int, other: int)
    requires other != index
    ensures other in Toggle(prev, index) <==> other in prev
  {
    if index in prev {
      FilterMembership(prev, (i: int) => i != index, other);
    }
  }

  /** Toggling keeps every copy of every other index, so duplicates of other sections are never dropped. */
  lemma ToggleKeepsCopies(prev: seq<int>, index: int, other: int)
    requires other != index
    ensures multiset(Toggle(prev, index))[other] == multiset(prev)[other]
  {
    if index in prev {
      FilterMultiplicity(prev, (i: int) => i != index, other);
    }
  }

  /** Toggling twice restores the membership of every index; from a closed index it restores the list itself. */
  lemma ToggleTwice(prev: seq<int>, index: int, other: int)
    ensures other in Toggle(Toggle(prev, index), index) <==> other in prev
    ensures index !in prev ==> Toggle(Toggle(prev, index), index) == prev
  {
    var once := Toggle(prev, index);
    ToggleFlips(once, index);
    ToggleFlips(prev, index);
    if other != index {
      ToggleKeepsOthers(prev, index, other);
      ToggleKeepsOthers(once, index, other);
    }
    if index !in prev {
      var p := (i: int) => i != index;
      FilterAppend(prev, [index], p);
      FilterAll(prev, p);
      assert Filter([index], p) == [];
    }
  }

  /** Filtering keeps a list free of duplicates. */
  lemma {:induction false} FilterKeepsDistinct(xs: seq<int>, p: int -> bool)
    requires Distinct(xs)
    ensures Distinct(Filter(xs, p))
  {
    if xs != [] {
      var rest := xs[1..];
      assert Distinct(rest) by {
        forall j, k | 0 <= j < k < |rest| ensures rest[j] != rest[k] {
          assert rest[j] == xs[j + 1] && rest[k] == xs[k + 1];
        }
      }
      FilterKeepsDistinct(rest, p);
      if p(xs[0]) {
        var tail := Filter(rest, p);
        FilterMembership(rest, p, xs[0]);
        assert xs[0] !in rest by {
          forall k | 0 <= k < |rest| ensures rest[k] != xs[0] {
            assert rest[k] == xs[k + 1];
          }
        }
        var r := [xs[0]] + tail;
        forall j, k | 0 <= j < k < |r| ensures r[j] != r[k] {
          if j == 0 {
            assert r[k] == tail[k - 1];
          } else {
            assert r[j] == tail[j - 1] && r[k] == tail[k - 1];
          }
        }
      }
    }
  }

  /** A duplicate-free list of open sections stays duplicate-free. */
  lemma ToggleKeepsDistinct(prev: seq<int>, index: int)
    requires Distinct(prev)
    ensures Distinct(Toggle(prev, index))
  {
    if index in prev {
      FilterKeepsDistinct(prev, (i: int) => i != index);
    }
  }

  class TermsScreenState {
    var expandedSections: seq<int>

    constructor()
      ensures expandedSections == []
    {
      expandedSections := [];
    }

    /**
     * `toggleSection(index)` (lines 133-139). A section is drawn expanded when its index is in
     * `expandedSections` (line 201), so exactly the toggled section changes.
     */
    method ToggleSection(index: int)
      modifies this
      ensures expandedSections == Toggle(old(expandedSections), index)
      ensures index in expandedSections <==> index !in old(expandedSections)
      ensures forall other :: other != index ==> (other in expandedSections <==> other in old(expandedSections))
      ensures Distinct(old(expandedSections)) ==> Distinct(expandedSections)
    {
      var prev := expandedSections;
      ToggleFlips(prev, index);
      forall other | other != index
        ensures other in Toggle(prev, index) <==> other in prev
      {
        ToggleKeepsOthers(prev, index, other);
      }
      if Distinct(prev) {
        ToggleKeepsDistinct(prev, index);
      }
      expandedSections := Toggle(prev, index);
    }
  }
}
