/** The ordering half of listTasks (controller/taskController.js): the fetched tasks are
    split into the AI-scheduled group and the manual group, each group is sorted in place
    with its comparator, and the response lists the AI group first. */
module TaskListing {
  import opened TaskOrder
  import opened StableSort

  /** The AI-scheduled tasks of `tasks`, in fetched order. */
  function AutoGroup(tasks: seq<ListedTask>): (r: seq<ListedTask>)
    ensures forall t :: t in r ==> t.aiSchedule
    ensures |r| <= |tasks|
  {
    if tasks == [] then []
    else AutoGroup(tasks[..|tasks| - 1]) + (if tasks[|tasks| - 1].aiSchedule then [tasks[|tasks| - 1]] else [])
  }

  /** The other tasks of `tasks`, in fetched order. */
  function ManualGroup(tasks: seq<ListedTask>): (r: seq<ListedTask>)
    ensures forall t :: t in r ==> !t.aiSchedule
    ensures |r| <= |tasks|
  {
    if tasks == [] then []
    else ManualGroup(tasks[..|tasks| - 1]) + (if tasks[|tasks| - 1].aiSchedule then [] else [tasks[|tasks| - 1]])
  }

  /** The `items` of the response to a listing that fetched `tasks`. */
  function Listing(tasks: seq<ListedTask>): seq<ListedTask> {
    SortedBy(ByEnergy, AutoGroup(tasks)) + SortedBy(ByCreation, ManualGroup(tasks))
  }

  /** One step of insertion: `x` moves in front of `s[j - 1]`, which goes after it. */
  lemma InsertStep(o: Order, s: seq<ListedTask>, x: ListedTask, j: int)
    requires 0 < j <= |s| && After(o, s[j - 1], x)
    ensures Insert(o, s[..j], x) + s[j..] == Insert(o, s[..j - 1], x) + s[j - 1..]
  {
    assert s[..j][..j - 1] == s[..j - 1];
    assert s[j - 1..] == [s[j - 1]] + s[j..];
  }

  /** Where insertion stops: `x` goes right behind `s[j - 1]`, which does not go after it. */
  lemma InsertStop(o: Order, s: seq<ListedTask>, x: ListedTask, j: int)
    requires 0 <= j <= |s| && (j == 0 || !After(o, s[j - 1], x))
    ensures Insert(o, s[..j], x) + s[j..] == s[..j] + [x] + s[j..]
  {
  }

  /** The sort of a prefix one longer. */
  lemma SortedByStep(o: Order, s: seq<ListedTask>, i: int)
    requires 0 <= i < |s|
    ensures SortedBy(o, s[..i + 1]) == Insert(o, SortedBy(o, s[..i]), s[i])
  {
    assert s[..i + 1][..i] == s[..i];
  }

  /** Swapping `x` with the task in front of it moves it one place back. */
  lemma SwapBack(s: seq<ListedTask>, x: ListedTask, rest: seq<ListedTask>, j: int)
    requires 0 < j <= |s|
    ensures (s[..j] + [x] + s[j..] + rest)[j - 1 := x][j := s[j - 1]]
         == s[..j - 1] + [x] + s[j - 1..] + rest
  {
  }

  /** One pass of insertion sort: `a[i]` is swapped back past the tasks of the sorted
      prefix `a[..i]` that go after it. */
  method InsertInto(a: array<ListedTask>, i: int, o: Order)
    requires 0 <= i < a.Length
    modifies a
    ensures a[..i + 1] == Insert(o, old(a[..i]), old(a[i]))
    ensures a[i + 1..] == old(a[i + 1..])
  {
    var x := a[i];
    ghost var sorted := a[..i];
    ghost var rest := a[i + 1..];
    assert sorted[..i] == sorted && sorted[i..] == [];
    assert a[..] == sorted[..i] + [x] + sorted[i..] + rest;
    var j := i;
    while j > 0 && Compare(o, a[j - 1], a[j]) > 0
      invariant 0 <= j <= i
      invariant a[..] == sorted[..j] + [x] + sorted[j..] + rest
      invariant Insert(o, sorted, x) == Insert(o, sorted[..j], x) + sorted[j..]
    {
      assert a[j - 1] == sorted[j - 1] && a[j] == x;
      CompareMatchesKey(o, a[j - 1], x);
      InsertStep(o, sorted, x, j);
      ghost var before := a[..];
      a[j - 1], a[j] := a[j], a[j - 1];
      assert a[..] == before[j - 1 := x][j := sorted[j - 1]];
      SwapBack(sorted, x, rest, j);
      j := j - 1;
    }
    if j > 0 {
      assert a[j - 1] == sorted[j - 1] && a[j] == x;
      CompareMatchesKey(o, a[j - 1], x);
    }
    InsertStop(o, sorted, x, j);
    assert a[..i + 1] == (a[..])[..i + 1];
  }

  /** `Array.prototype.sort` with the comparator of `o`, as a stable insertion sort in
      place: the array ends up holding the stable sort of what it held. */
  method SortTasks(a: array<ListedTask>, o: Order)
    modifies a
    ensures a[..] == SortedBy(o, old(a[..]))
  {
    ghost var fetched := a[..];
    var i := 0;
    while i < a.Length
      invariant 0 <= i <= a.Length
      invariant a[..i] == SortedBy(o, fetched[..i])
      invariant a[i..] == fetched[i..]
    {
      assert a[i] == fetched[i];
      InsertInto(a, i, o);
      SortedByStep(o, fetched, i);
      assert a[i + 1..] == fetched[i + 1..];
      i := i + 1;
    }
    assert a[..] == a[..a.Length];
    assert fetched == fetched[..a.Length];
  }

  /** The split loop of listTasks: each fetched task is pushed onto its group. */
  method SplitGroups(tasks: seq<ListedTask>) returns (autoTasks: seq<ListedTask>, manualTasks: seq<ListedTask>)
    ensures autoTasks == AutoGroup(tasks)
    ensures manualTasks == ManualGroup(tasks)
  {
    autoTasks, manualTasks := [], [];
    for i := 0 to |tasks|
      invariant autoTasks == AutoGroup(tasks[..i])
      invariant manualTasks == ManualGroup(tasks[..i])
    {
      assert tasks[..i + 1][..i] == tasks[..i];
      if tasks[i].aiSchedule {
        autoTasks := autoTasks + [tasks[i]];
      } else {
        manualTasks := manualTasks + [tasks[i]];
      }
    }
    assert tasks[..|tasks|] == tasks;
  }

  /** The response of listTasks for the fetched `tasks`: the sorted AI group followed by
      the sorted manual group, and their number. */
  method ListTasks(tasks: seq<ListedTask>) returns (items: seq<ListedTask>, count: nat)
    ensures items == Listing(tasks)
    ensures count == |items| == |tasks|
  {
    var autoTasks, manualTasks := SplitGroups(tasks);
    var autoArray := new ListedTask[|autoTasks|](k requires 0 <= k < |autoTasks| => autoTasks[k]);
    var manualArray := new ListedTask[|manualTasks|](k requires 0 <= k < |manualTasks| => manualTasks[k]);
    assert autoArray[..] == autoTasks;
    assert manualArray[..] == manualTasks;
    SortTasks(autoArray, ByEnergy);
    SortTasks(manualArray, ByCreation);
    items := autoArray[..] + manualArray[..];
    count := |items|;
    GroupsPartition(tasks);
    SortedByPermutes(ByEnergy, autoTasks);
    SortedByPermutes(ByCreation, manualTasks);
    assert |multiset(items)| == |multiset(tasks)|;
  }

  /** The two groups split the fetched tasks between them. */
  lemma {:induction false} GroupsPartition(tasks: seq<ListedTask>)
    ensures multiset(AutoGroup(tasks)) + multiset(ManualGroup(tasks)) == multiset(tasks)
  {
    if tasks != [] {
      GroupsPartition(tasks[..|tasks| - 1]);
      assert tasks == tasks[..|tasks| - 1] + [tasks[|tasks| - 1]];
    }
  }

  /** The listing holds exactly the fetched tasks. */
  lemma ListingPermutes(tasks: seq<ListedTask>)
    ensures multiset(Listing(tasks)) == multiset(tasks)
  {
    GroupsPartition(tasks);
    SortedByPermutes(ByEnergy, AutoGroup(tasks));
    SortedByPermutes(ByCreation, ManualGroup(tasks));
  }

  /** Every AI-scheduled task is listed before every manual one. */
  lemma AutoBeforeManual(tasks: seq<ListedTask>)
    ensures var items := Listing(tasks);
      forall i, j :: 0 <= i < j < |items| && items[j].aiSchedule ==> items[i].aiSchedule
  {
    var auto, manual := SortedBy(ByEnergy, AutoGroup(tasks)), SortedBy(ByCreation, ManualGroup(tasks));
    SortedByPermutes(ByEnergy, AutoGroup(tasks));
    SortedByPermutes(ByCreation, ManualGroup(tasks));
    forall t | t in auto ensures t.aiSchedule {
      assert t in multiset(AutoGroup(tasks));
    }
    forall t | t in manual ensures !t.aiSchedule {
      assert t in multiset(ManualGroup(tasks));
    }
    var items := auto + manual;
    forall i, j | 0 <= i < j < |items| && items[j].aiSchedule ensures items[i].aiSchedule {
      if j >= |auto| {
        assert false;
      }
      assert items[i] in auto;
    }
  }

  /** Within each group the listing follows the group's order. */
  lemma GroupsInOrder(tasks: seq<ListedTask>)
    ensures var n := |AutoGroup(tasks)|; var items := Listing(tasks);
      && InOrder(ByEnergy, items[..n])
      && InOrder(ByCreation, items[n..])
  {
    var n := |AutoGroup(tasks)|;
    SortedByInOrder(ByEnergy, AutoGroup(tasks));
    SortedByInOrder(ByCreation, ManualGroup(tasks));
    assert Listing(tasks)[..n] == SortedBy(ByEnergy, AutoGroup(tasks));
    assert Listing(tasks)[n..] == SortedBy(ByCreation, ManualGroup(tasks));
  }

  /** Within each group, tasks that tie under the group's comparator keep the order they
      were fetched in. */
  lemma GroupsStable(tasks: seq<ListedTask>, k: SortKey)
    ensures var n := |AutoGroup(tasks)|; var items := Listing(tasks);
      && WithKey(ByEnergy, items[..n], k) == WithKey(ByEnergy, AutoGroup(tasks), k)
      && WithKey(ByCreation, items[n..], k) == WithKey(ByCreation, ManualGroup(tasks), k)
  {
    var n := |AutoGroup(tasks)|;
    SortedByStable(ByEnergy, AutoGroup(tasks), k);
    SortedByStable(ByCreation, ManualGroup(tasks), k);
    assert Listing(tasks)[..n] == SortedBy(ByEnergy, AutoGroup(tasks));
    assert Listing(tasks)[n..] == SortedBy(ByCreation, ManualGroup(tasks));
  }
}
