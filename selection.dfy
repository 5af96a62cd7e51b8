/**
 * The selection update of the recipe list: toggling one recipe id in the
 * ordered list of selected ids. The list is never changed in place; every
 * operation builds a new list.
 */
module Selection {
  import opened RecipeTypes

  /** The set of ids a selection list holds, ignoring order and repetition. */
  function Elements<T(==)>(s: seq<T>): set<T> {
    set x | x in s
  }

  /** No id occurs twice. */
  predicate NoDuplicates<T(==)>(s: seq<T>) {
    forall i, j :: 0 <= i < j < |s| ==> s[i] != s[j]
  }

  /** r can be obtained from s by deleting elements, so r keeps s's relative order. */
  predicate IsSubsequence<T(==)>(r: seq<T>, s: seq<T>)
    decreases |s|
  {
    r == [] || (s != [] && ((r[0] == s[0] && IsSubsequence(r[1..], s[1..])) || IsSubsequence(r, s[1..])))
  }

  /**
   * The list with every element equal to id dropped, the others kept in order
   * (an array filter with the test p !== id).
   */
  function Filter<T(==,!new)>(s: seq<T>, id: T): (r: seq<T>)
    ensures id !in r
    ensures forall x :: x != id ==> (x in r <==> x in s)
    ensures |r| <= |s|
  {
    if s == [] then []
    else if s[0] == id then Filter(s[1..], id)
    else [s[0]] + Filter(s[1..], id)
  }

  /** Filtering keeps every other id with its multiplicity and drops all copies of id. */
  lemma {:induction false} FilterMultiset<T(!new)>(s: seq<T>, id: T)
    ensures multiset(Filter(s, id)) == multiset(s)[id := 0]
  {
    if s != [] {
      var x, rest := s[0], s[1..];
      FilterMultiset(rest, id);
      assert s == [x] + rest;
      assert multiset(s) == multiset{x} + multiset(rest);
      if x != id {
        assert multiset(Filter(s, id)) == multiset{x} + multiset(Filter(rest, id));
      }
    }
  }

  /** Filtering keeps the remaining ids in their original relative order. */
  lemma {:induction false} FilterIsSubsequence<T(!new)>(s: seq<T>, id: T)
    ensures IsSubsequence(Filter(s, id), s)
  {
    if s != [] {
      FilterIsSubsequence(s[1..], id);
      if s[0] != id {
        assert Filter(s, id)[1..] == Filter(s[1..], id);
      }
    }
  }

  /** Filtering out an id that does not occur changes nothing. */
  lemma {:induction false} FilterAbsent<T(!new)>(s: seq<T>, id: T)
    requires id !in s
    ensures Filter(s, id) == s
  {
    if s != [] {
      FilterAbsent(s[1..], id);
      assert s == [s[0]] + s[1..];
    }
  }

  /** One step of filtering: the head is dropped when it is the id and kept otherwise. */
  lemma FilterCons<T(!new)>(x: T, s: seq<T>, id: T)
    ensures Filter([x] + s, id) == if x == id then Filter(s, id) else [x] + Filter(s, id)
  {
    assert ([x] + s)[1..] == s;
  }

  /** The inductive step of FilterAppend: prepending one id to the left part. */
  lemma FilterAppendStep<T(!new)>(x: T, rest: seq<T>, t: seq<T>, id: T)
    requires Filter(rest + t, id) == Filter(rest, id) + Filter(t, id)
    ensures Filter([x] + rest + t, id) == Filter([x] + rest, id) + Filter(t, id)
  {
    var a, b := Filter(rest, id), Filter(t, id);
    assert Filter([x] + rest + t, id) == if x == id then a + b else [x] + (a + b) by {
      assert [x] + rest + t == [x] + (rest + t);
      FilterCons(x, rest + t, id);
    }
    assert Filter([x] + rest, id) == if x == id then a else [x] + a by {
      FilterCons(x, rest, id);
    }
    assert [x] + (a + b) == ([x] + a) + b;
  }

  /** Filtering distributes over concatenation. */
  lemma {:induction false} FilterAppend<T(!new)>(s: seq<T>, t: seq<T>, id: T)
    ensures Filter(s + t, id) == Filter(s, id) + Filter(t, id)
  {
    if s == [] {
      assert s + t == t;
    } else {
      assert s == [s[0]] + s[1..];
      FilterAppend(s[1..], t, id);
      FilterAppendStep(s[0], s[1..], t, id);
    }
  }

  /** Filtering a duplicate-free list leaves it duplicate-free. */
  lemma {:induction false} FilterNoDuplicates<T(!new)>(s: seq<T>, id: T)
    requires NoDuplicates(s)
    ensures NoDuplicates(Filter(s, id))
  {
    if s != [] {
      assert NoDuplicates(s[1..]) by {
        forall i, j | 0 <= i < j < |s[1..]| ensures s[1..][i] != s[1..][j] {
          assert s[1..][i] == s[i + 1] && s[1..][j] == s[j + 1];
        }
      }
      FilterNoDuplicates(s[1..], id);
      if s[0] != id {
        var t := Filter(s[1..], id);
        assert s[0] !in s[1..] by {
          forall k | 0 <= k < |s[1..]| ensures s[1..][k] != s[0] {
            assert s[1..][k] == s[k + 1];
          }
        }
        assert s[0] !in t;
        var r := [s[0]] + t;
        forall i, j | 0 <= i < j < |r| ensures r[i] != r[j] {
          assert r[j] == t[j - 1];
          if i > 0 {
            assert r[i] == t[i - 1];
          }
        }
      }
    }
  }

  /**
   * The next selection after the user toggles recipe id: if id is selected,
   * every occurrence is removed; otherwise id is appended at the end.
   */
  function Toggle(sel: seq<RecipeId>, id: RecipeId): (r: seq<RecipeId>)
    ensures id in r <==> id !in sel
    ensures forall x :: x != id ==> (x in r <==> x in sel)
    ensures id !in sel ==> r == sel + [id]
  {
    if id in sel then Filter(sel, id) else sel + [id]
  }

  /**
   * Toggling a selected id removes all its occurrences and keeps the other
   * ids, in their order and with their multiplicities.
   */
  lemma ToggleWhenPresent(sel: seq<RecipeId>, id: RecipeId)
    requires id in sel
    ensures IsSubsequence(Toggle(sel, id), sel)
    ensures multiset(Toggle(sel, id)) == multiset(sel)[id := 0]
  {
    FilterIsSubsequence(sel, id);
    FilterMultiset(sel, id);
  }

  /** As sets, toggling is the symmetric difference with {id}. */
  lemma ToggleElements(sel: seq<RecipeId>, id: RecipeId)
    ensures Elements(Toggle(sel, id)) == if id in sel then Elements(sel) - {id} else Elements(sel) + {id}
  {
  }

  /** A duplicate-free selection stays duplicate-free. */
  lemma ToggleNoDuplicates(sel: seq<RecipeId>, id: RecipeId)
    requires NoDuplicates(sel)
    ensures NoDuplicates(Toggle(sel, id))
  {
    if id in sel {
      FilterNoDuplicates(sel, id);
    }
  }

  /** On a duplicate-free selection, a toggle adds or removes exactly one id. */
  lemma ToggleLength(sel: seq<RecipeId>, id: RecipeId)
    requires NoDuplicates(sel)
    ensures |Toggle(sel, id)| == if id in sel then |sel| - 1 else |sel| + 1
  {
    if id in sel {
      var k :| 0 <= k < |sel| && sel[k] == id;
      assert multiset(sel)[id] == 1 by {
        DuplicateFreeCount(sel, k);
      }
      FilterMultiset(sel, id);
      assert |multiset(Toggle(sel, id))| == |multiset(sel)| - 1;
    }
  }

  /** In a duplicate-free list, the element at position k occurs exactly once. */
  lemma {:induction false} DuplicateFreeCount<T(!new)>(s: seq<T>, k: nat)
    requires NoDuplicates(s) && k < |s|
    ensures multiset(s)[s[k]] == 1
  {
    var x := s[k];
    assert s == s[..k] + [x] + s[k + 1..];
    assert x !in s[..k] by {
      forall i | 0 <= i < k ensures s[..k][i] != x {
        assert s[..k][i] == s[i];
      }
    }
    var tail := s[k + 1..];
    assert x !in tail by {
      forall i | 0 <= i < |tail| ensures tail[i] != x {
        assert tail[i] == s[k + 1 + i];
      }
    }
    assert multiset(s) == multiset(s[..k]) + multiset([x]) + multiset(s[k + 1..]);
  }

  /** Toggling an unselected id twice gives back exactly the original selection. */
  lemma ToggleTwiceAbsent(sel: seq<RecipeId>, id: RecipeId)
    requires id !in sel
    ensures Toggle(Toggle(sel, id), id) == sel
  {
    FilterAppend(sel, [id], id);
    FilterAbsent(sel, id);
    assert Filter([id], id) == [];
  }

  /**
   * Toggling a selected id twice moves it to the end: same ids as a set and,
   * when the selection was duplicate-free, the same ids with the same counts.
   */
  lemma ToggleTwicePresent(sel: seq<RecipeId>, id: RecipeId)
    requires id in sel
    ensures Toggle(Toggle(sel, id), id) == Filter(sel, id) + [id]
    ensures Elements(Toggle(Toggle(sel, id), id)) == Elements(sel)
    ensures NoDuplicates(sel) ==> multiset(Toggle(Toggle(sel, id), id)) == multiset(sel)
  {
    var once := Filter(sel, id);
    assert id !in once;
    var twice := once + [id];
    assert Elements(twice) == Elements(sel) by {
      forall x ensures x in twice <==> x in sel {
        if x != id {
          assert x in twice <==> x in once;
        }
      }
    }
    if NoDuplicates(sel) {
      var k :| 0 <= k < |sel| && sel[k] == id;
      DuplicateFreeCount(sel, k);
      FilterMultiset(sel, id);
      assert multiset(twice) == multiset(once) + multiset{id};
    }
  }
}
