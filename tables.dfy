/**
 * A table is a map from auto-increment ids (starting at 1) to rows. A query reads the rows in
 * id order, filters them and may sort them.
 */
module Tables {
  import opened Sorting

  /** A row together with its primary key. */
  datatype Keyed<T> = Keyed(id: int, val: T)

  /** Every key was handed out by the auto-increment counter `next`. */
  ghost predicate IdsBelow<T>(m: map<int, T>, next: int) {
    forall k :: k in m ==> 1 <= k < next
  }

  /**
   * `SELECT * FROM m WHERE p` over the ids in [1, n), in ascending id order (the order a
   * listing without `ORDER BY` is given in here).
   */
  function Select<T(!new)>(m: map<int, T>, n: int, p: Keyed<T> -> bool): (r: seq<Keyed<T>>)
    ensures forall k :: k in r <==> 1 <= k.id < n && k.id in m && m[k.id] == k.val && p(k)
    ensures forall i, j :: 0 <= i < j < |r| ==> r[i].id < r[j].id
    decreases n
  {
    if n <= 1 then []
    else
      var prefix := Select(m, n - 1, p);
      if n - 1 in m && p(Keyed(n - 1, m[n - 1])) then prefix + [Keyed(n - 1, m[n - 1])] else prefix
  }

  lemma IncreasingIdsNoDup<T>(r: seq<Keyed<T>>)
    requires forall i, j :: 0 <= i < j < |r| ==> r[i].id < r[j].id
    ensures NoDup(r)
  {
  }

  /** The query `SELECT * FROM m WHERE p ORDER BY le` over a table whose ids are below `next`. */
  function Query<T(!new)>(m: map<int, T>, next: int, p: Keyed<T> -> bool, le: (Keyed<T>, Keyed<T>) -> bool): (r: seq<Keyed<T>>)
    requires IdsBelow(m, next)
    ensures forall k :: k in r <==> k.id in m && m[k.id] == k.val && p(k)
    ensures NoDup(r)
    ensures TotalPreorder(le) ==> SortedBy(r, le)
  {
    var picked := Select(m, next, p);
    IncreasingIdsNoDup(picked);
    var r := Sort(picked, le);
    assert forall k :: k in r <==> k in picked by {
      forall k ensures k in r <==> k in picked {
        SortMembers(picked, le, k);
      }
    }
    NoDupPermutation(picked, r);
    assert TotalPreorder(le) ==> SortedBy(r, le) by {
      if TotalPreorder(le) {
        SortSorted(picked, le);
      }
    }
    r
  }
}
