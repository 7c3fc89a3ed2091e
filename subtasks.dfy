/** Cleaning the checklist a request carries (controller/taskController.js,
    sanitizeSubtasks). */
module Subtasks {
  import opened Js

  /** One checklist entry as it is stored. */
  datatype Subtask = Subtask(title: string, isCompleted: bool)

  /** `item && item.title`: the entries the filter keeps. */
  predicate Keeps(item: Json) {
    Truthy(item) && Truthy(Property(item, "title"))
  }

  /** The stored form of a kept entry: `String(title).trim()` and
      `Boolean(isCompleted)`. */
  function Clean(item: Json): (s: Subtask)
    ensures s.title == Trim(ToJsString(Property(item, "title")))
    ensures s.isCompleted <==> Truthy(Property(item, "isCompleted"))
    ensures Trim(s.title) == s.title
  {
    TrimIdempotent(ToJsString(Property(item, "title")));
    Subtask(Trim(ToJsString(Property(item, "title"))), Truthy(Property(item, "isCompleted")))
  }

  /** `items.filter(keeps).map(clean)`; every title comes out trimmed, and nothing is
      added. */
  function SanitizeItems(items: seq<Json>): (r: seq<Subtask>)
    ensures |r| <= |items|
    ensures forall i :: 0 <= i < |r| ==> Trim(r[i].title) == r[i].title
  {
    if items == [] then []
    else
      var head := if Keeps(items[0]) then [Clean(items[0])] else [];
      TrimIdempotent(ToJsString(Property(items[0], "title")));
      head + SanitizeItems(items[1..])
  }

  /** sanitizeSubtasks: anything but an array (including the missing field) gives the
      empty list. */
  function SanitizeSubtasks(subtasks: Json): (r: seq<Subtask>)
    ensures !subtasks.Arr? ==> r == []
    ensures subtasks.Arr? ==> |r| <= |subtasks.items|
    ensures forall i :: 0 <= i < |r| ==> Trim(r[i].title) == r[i].title
  {
    if subtasks.Arr? then SanitizeItems(subtasks.items) else []
  }

  /** Filtering and mapping work entry by entry: sanitizing a concatenation
      concatenates the results, so order is kept and each entry is handled alone. */
  lemma {:induction false} SanitizeItemsAppend(a: seq<Json>, b: seq<Json>)
    ensures SanitizeItems(a + b) == SanitizeItems(a) + SanitizeItems(b)
  {
    if a != [] {
      assert (a + b)[1..] == a[1..] + b;
      SanitizeItemsAppend(a[1..], b);
    } else {
      assert a + b == b;
    }
  }

  /** A single entry is kept, cleaned, exactly when it is truthy and has a truthy title. */
  lemma SanitizeItemsSingle(item: Json)
    ensures SanitizeItems([item]) == if Keeps(item) then [Clean(item)] else []
  {
    assert [item][1..] == [];
  }

  /** The output is exactly as long as the input when every entry is kept, and empty
      when none is. */
  lemma {:induction false} SanitizeItemsLength(items: seq<Json>)
    ensures (forall i :: 0 <= i < |items| ==> Keeps(items[i])) ==> |SanitizeItems(items)| == |items|
    ensures (forall i :: 0 <= i < |items| ==> !Keeps(items[i])) ==> SanitizeItems(items) == []
  {
    if items != [] {
      SanitizeItemsLength(items[1..]);
      assert forall i :: 0 <= i < |items| - 1 ==> items[1..][i] == items[i + 1];
    }
  }
}
