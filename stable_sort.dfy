/** What sorting a group of tasks with one of the listing's comparators yields. The
    array sort that listTasks calls is stable, so the result is fixed: tasks ordered by
    key, tasks with the same key in the order they were fetched. It is specified here by
    insertion from the front of the fetched sequence. */
module StableSort {
  import opened TaskOrder

  /** `x` inserted into `s` after every task whose key is not larger than its own. */
  function Insert(o: Order, s: seq<ListedTask>, x: ListedTask): (r: seq<ListedTask>)
    ensures |r| == |s| + 1
  {
    if s == [] || !After(o, s[|s| - 1], x) then s + [x]
    else Insert(o, s[..|s| - 1], x) + [s[|s| - 1]]
  }

  /** The stable sort of `s` by the order `o`. */
  function SortedBy(o: Order, s: seq<ListedTask>): (r: seq<ListedTask>)
    ensures |r| == |s|
  {
    if s == [] then [] else Insert(o, SortedBy(o, s[..|s| - 1]), s[|s| - 1])
  }

  /** No task comes after one whose key is larger. */
  predicate InOrder(o: Order, s: seq<ListedTask>) {
    forall i, j :: 0 <= i < j < |s| ==> !After(o, s[i], s[j])
  }

  /** The tasks of `s` whose key is `k`, in the order of `s`. */
  function WithKey(o: Order, s: seq<ListedTask>, k: SortKey): seq<ListedTask> {
    if s == [] then []
    else WithKey(o, s[..|s| - 1], k) + (if KeyOf(o, s[|s| - 1]) == k then [s[|s| - 1]] else [])
  }

  /** Insertion adds `x` to the tasks and nothing else. */
  lemma {:induction false} InsertPermutes(o: Order, s: seq<ListedTask>, x: ListedTask)
    ensures multiset(Insert(o, s, x)) == multiset(s) + multiset{x}
  {
    if s != [] && After(o, s[|s| - 1], x) {
      InsertPermutes(o, s[..|s| - 1], x);
      assert s == s[..|s| - 1] + [s[|s| - 1]];
    }
  }

  /** Insertion into an ordered sequence keeps it ordered. */
  lemma {:induction false} InsertInOrder(o: Order, s: seq<ListedTask>, x: ListedTask)
    requires InOrder(o, s)
    ensures InOrder(o, Insert(o, s, x))
  {
    if s == [] || !After(o, s[|s| - 1], x) {
      var r := s + [x];
      forall i, j | 0 <= i < j < |r| ensures !After(o, r[i], r[j]) {
        if j == |s| {
          KeyTotal(KeyOf(o, s[i]), KeyOf(o, s[|s| - 1]));
          KeyTotal(KeyOf(o, s[|s| - 1]), KeyOf(o, x));
          if i < |s| - 1 && After(o, s[i], x) {
            KeyTransitive(KeyOf(o, x), KeyOf(o, s[|s| - 1]), KeyOf(o, s[i]));
          }
        }
      }
    } else {
      var init, last := s[..|s| - 1], s[|s| - 1];
      InsertInOrder(o, init, x);
      InsertPermutes(o, init, x);
      var r := Insert(o, init, x) + [last];
      forall i, j | 0 <= i < j < |r| ensures !After(o, r[i], r[j]) {
        if j == |r| - 1 {
          // r[i] is x or a task of init, none of which goes after `last`.
          assert r[i] in multiset(Insert(o, init, x));
          assert r[i] in multiset(init) || r[i] == x;
          if r[i] == x {
            KeyTotal(KeyOf(o, x), KeyOf(o, last));
          } else {
            var k :| 0 <= k < |init| && init[k] == r[i];
            assert !After(o, s[k], s[|s| - 1]);
          }
        }
      }
    }
  }

  /** The stable sort holds the same tasks. */
  lemma {:induction false} SortedByPermutes(o: Order, s: seq<ListedTask>)
    ensures multiset(SortedBy(o, s)) == multiset(s)
  {
    if s != [] {
      SortedByPermutes(o, s[..|s| - 1]);
      InsertPermutes(o, SortedBy(o, s[..|s| - 1]), s[|s| - 1]);
      assert s == s[..|s| - 1] + [s[|s| - 1]];
    }
  }

  /** The stable sort is in order. */
  lemma {:induction false} SortedByInOrder(o: Order, s: seq<ListedTask>)
    ensures InOrder(o, SortedBy(o, s))
  {
    if s != [] {
      SortedByInOrder(o, s[..|s| - 1]);
      InsertInOrder(o, SortedBy(o, s[..|s| - 1]), s[|s| - 1]);
    }
  }

  /** The tasks of `s + [t]` with key `k`. */
  lemma WithKeySnoc(o: Order, s: seq<ListedTask>, t: ListedTask, k: SortKey)
    ensures WithKey(o, s + [t], k) == WithKey(o, s, k) + (if KeyOf(o, t) == k then [t] else [])
  {
    assert (s + [t])[..|s|] == s;
  }

  /** Insertion puts `x` after every task with its key and before none. */
  lemma {:induction false} InsertWithKey(o: Order, s: seq<ListedTask>, x: ListedTask, k: SortKey)
    ensures WithKey(o, Insert(o, s, x), k) == WithKey(o, s, k) + (if KeyOf(o, x) == k then [x] else [])
  {
    if s == [] || !After(o, s[|s| - 1], x) {
      WithKeySnoc(o, s, x, k);
    } else {
      var init, last := s[..|s| - 1], s[|s| - 1];
      InsertWithKey(o, init, x, k);
      WithKeySnoc(o, Insert(o, init, x), last, k);
      WithKeySnoc(o, init, last, k);
      assert s == init + [last];
      // `last` goes after `x`, so they do not share a key.
      KeyTotal(KeyOf(o, x), KeyOf(o, last));
    }
  }

  /** The sort is stable: the tasks sharing any one key keep their fetched order. */
  lemma {:induction false} SortedByStable(o: Order, s: seq<ListedTask>, k: SortKey)
    ensures WithKey(o, SortedBy(o, s), k) == WithKey(o, s, k)
  {
    if s != [] {
      SortedByStable(o, s[..|s| - 1], k);
      InsertWithKey(o, SortedBy(o, s[..|s| - 1]), s[|s| - 1], k);
    }
  }
}
