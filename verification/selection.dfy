/**
 * The list of selected collectible-item ids of the "create collection point"
 * form, and the toggle that the item grid applies when an item is clicked.
 * Ids are the integer ids the backend gives to item categories.
 */
module Selection {

  /** No id occurs twice in the selection. */
  predicate NoDuplicates(s: seq<int>) {
    forall i, j :: 0 <= i < j < |s| ==> s[i] != s[j]
  }

  /**
   * `findIndex(item => item === id)`: the first index that holds `id`,
   * or -1 when there is none.
   */
  function FindIndex(s: seq<int>, id: int): (r: int)
    ensures -1 <= r < |s|
    ensures r == -1 <==> id !in s
    ensures 0 <= r ==> s[r] == id && forall j :: 0 <= j < r ==> s[j] != id
  {
    if |s| == 0 then -1
    else if s[0] == id then 0
    else
      var k := FindIndex(s[1..], id);
      assert s == [s[0]] + s[1..];
      if k < 0 then -1 else k + 1
  }

  /** `filter(item => item !== id)`: every occurrence of `id` dropped. */
  function Without(s: seq<int>, id: int): (r: seq<int>)
    ensures id !in r
    ensures multiset(r) == multiset(s)[id := 0]
    ensures forall x :: x in r <==> x in s && x != id
  {
    if |s| == 0 then []
    else
      assert s == [s[0]] + s[1..];
      if s[0] == id then Without(s[1..], id)
      else [s[0]] + Without(s[1..], id)
  }

  /**
   * The selection after clicking item `id`: when `id` is already selected
   * every occurrence of it is filtered out, otherwise it is appended.
   */
  function Toggle(s: seq<int>, id: int): (r: seq<int>)
    ensures id in r <==> id !in s
    ensures forall x :: x != id ==> (x in r <==> x in s)
    ensures id in s ==> multiset(r) == multiset(s)[id := 0]
    ensures id !in s ==> |r| == |s| + 1 && r[..|s|] == s && r[|s|] == id
  {
    if FindIndex(s, id) >= 0 then Without(s, id) else s + [id]
  }

  /** The selection after clicking the items `ids` one after another. */
  function ToggleAll(s: seq<int>, ids: seq<int>): seq<int>
    decreases |ids|
  {
    if |ids| == 0 then s else ToggleAll(Toggle(s, ids[0]), ids[1..])
  }

  /**
   * `a` is a subsequence of `b`: `a` can be obtained from `b` by deleting
   * elements, so the elements of `a` appear in `b` in the same order.
   * Matching each element of `a` with its earliest occurrence in `b` is
   * complete for this relation.
   */
  ghost predicate IsSubsequence(a: seq<int>, b: seq<int>)
    decreases |b|
  {
    |a| == 0 ||
    (|b| > 0 &&
     if a[0] == b[0] then IsSubsequence(a[1..], b[1..]) else IsSubsequence(a, b[1..]))
  }

  lemma {:induction false} NoDuplicatesCons(x: int, t: seq<int>)
    ensures NoDuplicates([x] + t) <==> x !in t && NoDuplicates(t)
  {
    var s := [x] + t;
    if x !in t && NoDuplicates(t) {
      forall i, j | 0 <= i < j < |s| ensures s[i] != s[j] {
        if i == 0 {
          assert s[j] == t[j - 1];
        } else {
          assert s[i] == t[i - 1] && s[j] == t[j - 1];
        }
      }
    }
    if NoDuplicates(s) {
      forall k | 0 <= k < |t| ensures t[k] != x {
        assert s[0] == x && t[k] == s[k + 1];
      }
      forall i, j | 0 <= i < j < |t| ensures t[i] != t[j] {
        assert t[i] == s[i + 1] && t[j] == s[j + 1];
      }
    }
  }

  /** A duplicate-free list holds every id at most once. */
  lemma {:induction false} NoDuplicatesCount(s: seq<int>, x: int)
    requires NoDuplicates(s)
    ensures multiset(s)[x] == if x in s then 1 else 0
  {
    if |s| > 0 {
      assert s == [s[0]] + s[1..];
      NoDuplicatesCons(s[0], s[1..]);
      NoDuplicatesCount(s[1..], x);
    }
  }

  /** Filtering keeps the remaining ids in their original relative order. */
  lemma {:induction false} WithoutIsSubsequence(s: seq<int>, id: int)
    ensures IsSubsequence(Without(s, id), s)
  {
    if |s| > 0 {
      WithoutIsSubsequence(s[1..], id);
      var w := Without(s[1..], id);
      if s[0] == id {
        if |w| > 0 {
          assert w[0] in w;
          assert w[0] != s[0];
        }
      } else {
        assert ([s[0]] + w)[1..] == w;
      }
    }
  }

  /**
   * Clicking a selected item keeps the other selected ids in their original
   * relative order.
   */
  lemma ToggleKeepsOrder(s: seq<int>, id: int)
    requires id in s
    ensures IsSubsequence(Toggle(s, id), s)
  {
    WithoutIsSubsequence(s, id);
  }

  /** Filtering distributes over concatenation. */
  lemma {:induction false} WithoutAppend(a: seq<int>, b: seq<int>, id: int)
    ensures Without(a + b, id) == Without(a, id) + Without(b, id)
  {
    if |a| == 0 {
      assert a + b == b;
    } else {
      assert (a + b)[0] == a[0];
      assert (a + b)[1..] == a[1..] + b;
      WithoutAppend(a[1..], b, id);
    }
  }

  /** Filtering out an id that does not occur changes nothing. */
  lemma {:induction false} WithoutAbsent(s: seq<int>, id: int)
    requires id !in s
    ensures Without(s, id) == s
  {
    if |s| > 0 {
      assert s == [s[0]] + s[1..];
      WithoutAbsent(s[1..], id);
    }
  }

  lemma {:induction false} WithoutKeepsNoDuplicates(s: seq<int>, id: int)
    requires NoDuplicates(s)
    ensures NoDuplicates(Without(s, id))
  {
    if |s| > 0 {
      assert s == [s[0]] + s[1..];
      NoDuplicatesCons(s[0], s[1..]);
      WithoutKeepsNoDuplicates(s[1..], id);
      if s[0] != id {
        NoDuplicatesCons(s[0], Without(s[1..], id));
      }
    }
  }

  /** One click keeps a duplicate-free selection duplicate-free. */
  lemma ToggleKeepsNoDuplicates(s: seq<int>, id: int)
    requires NoDuplicates(s)
    ensures NoDuplicates(Toggle(s, id))
  {
    if id in s {
      WithoutKeepsNoDuplicates(s, id);
    } else {
      var r := Toggle(s, id);
      forall i, j | 0 <= i < j < |r| ensures r[i] != r[j] {
        if j == |s| {
          assert r[i] == s[i];
        } else {
          assert r[i] == s[i] && r[j] == s[j];
        }
      }
    }
  }

  /** Any sequence of clicks keeps a duplicate-free selection duplicate-free. */
  lemma {:induction false} ToggleAllKeepsNoDuplicates(s: seq<int>, ids: seq<int>)
    requires NoDuplicates(s)
    ensures NoDuplicates(ToggleAll(s, ids))
    decreases |ids|
  {
    if |ids| > 0 {
      ToggleKeepsNoDuplicates(s, ids[0]);
      ToggleAllKeepsNoDuplicates(Toggle(s, ids[0]), ids[1..]);
    }
  }

  /** Starting from the initial empty selection no id is ever selected twice. */
  lemma SelectionNeverHasDuplicates(ids: seq<int>)
    ensures NoDuplicates(ToggleAll([], ids))
  {
    ToggleAllKeepsNoDuplicates([], ids);
  }

  /** Clicking an unselected item twice gives back exactly the old list. */
  lemma DoubleToggleAbsent(s: seq<int>, id: int)
    requires id !in s
    ensures Toggle(Toggle(s, id), id) == s
  {
    assert Toggle(s, id) == s + [id];
    WithoutAppend(s, [id], id);
    WithoutAbsent(s, id);
    assert Without([id], id) == [];
  }

  /**
   * Clicking a selected item twice gives back the same ids, with `id` moved
   * to the end; on a duplicate-free selection the same ids with the same
   * multiplicities.
   */
  lemma DoubleTogglePresent(s: seq<int>, id: int)
    requires id in s
    ensures Toggle(Toggle(s, id), id) == Without(s, id) + [id]
    ensures forall x :: x in Toggle(Toggle(s, id), id) <==> x in s
    ensures NoDuplicates(s) ==> multiset(Toggle(Toggle(s, id), id)) == multiset(s)
  {
    var w := Toggle(s, id);
    assert w == Without(s, id);
    var r := Toggle(w, id);
    assert r == w + [id];
    if NoDuplicates(s) {
      NoDuplicatesCount(s, id);
      assert multiset(r) == multiset(w) + multiset{id};
    }
  }
}
