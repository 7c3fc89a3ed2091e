/** The two orders listTasks (controller/taskController.js) sorts tasks by: the
    comparators as written, and the sort keys whose lexicographic order they realise. */
module TaskOrder {
  import opened Outcomes
  import opened TaskDomain

  /** What the listing reads of a stored task. Timestamps are milliseconds since the
      epoch; `energyZone`, `manaCost` and `date` may be null or missing (None). */
  datatype ListedTask = ListedTask(
    aiSchedule: bool,
    energyZone: Option<Zone>,
    manaCost: Option<int>,
    date: Option<int>,
    createdAt: int,
    updatedAt: int)

  /** The AI-scheduled group's order and the manual group's order. */
  datatype Order = ByEnergy | ByCreation

  /** `ZONE_SORT_WEIGHT[energyZone] ?? 99` */
  function ZoneWeight(z: Option<Zone>): (w: int)
    ensures z.None? <==> w == 99
    ensures z == Some(Peak) <==> w == 0
    ensures z == Some(Balance) <==> w == 1
    ensures z == Some(Zone.Low) <==> w == 2
  {
    if z.None? then 99
    else if z.value.Peak? then 0
    else if z.value.Balance? then 1
    else 2
  }

  /** `manaCost ?? 0` */
  function ManaOrZero(t: ListedTask): int {
    if t.manaCost.Some? then t.manaCost.value else 0
  }

  /** `date?.getTime?.() || 0` */
  function DateOrZero(t: ListedTask): int {
    if t.date.Some? then t.date.value else 0
  }

  /** The comparator of the AI-scheduled group, as written: zone weight, then mana
      cost descending, then date, then last update descending. */
  function CompareByEnergy(a: ListedTask, b: ListedTask): int {
    var zoneDiff := ZoneWeight(a.energyZone) - ZoneWeight(b.energyZone);
    if zoneDiff != 0 then zoneDiff
    else
      var manaDiff := ManaOrZero(b) - ManaOrZero(a);
      if manaDiff != 0 then manaDiff
      else
        var dateDiff := DateOrZero(a) - DateOrZero(b);
        if dateDiff != 0 then dateDiff
        else b.updatedAt - a.updatedAt
  }

  /** The comparator of the manual group, as written: creation time. */
  function CompareByCreation(a: ListedTask, b: ListedTask): int {
    a.createdAt - b.createdAt
  }

  /** The comparator `o` names. */
  function Compare(o: Order, a: ListedTask, b: ListedTask): int {
    match o
    case ByEnergy => CompareByEnergy(a, b)
    case ByCreation => CompareByCreation(a, b)
  }

  /** Four integers compared lexicographically. */
  datatype SortKey = SortKey(first: int, second: int, third: int, fourth: int)

  predicate KeyLess(x: SortKey, y: SortKey) {
    || x.first < y.first
    || (x.first == y.first && x.second < y.second)
    || (x.first == y.first && x.second == y.second && x.third < y.third)
    || (x.first == y.first && x.second == y.second && x.third == y.third && x.fourth < y.fourth)
  }

  /** The key a task is ordered by: smaller keys come first. */
  function KeyOf(o: Order, t: ListedTask): SortKey {
    match o
    case ByEnergy => SortKey(ZoneWeight(t.energyZone), -ManaOrZero(t), DateOrZero(t), -t.updatedAt)
    case ByCreation => SortKey(t.createdAt, 0, 0, 0)
  }

  /** `a` goes after `b`. */
  predicate After(o: Order, a: ListedTask, b: ListedTask) {
    KeyLess(KeyOf(o, b), KeyOf(o, a))
  }

  /** The comparators order tasks exactly as their keys do: negative for a smaller key,
      zero for the same key, positive for a larger one. */
  lemma CompareMatchesKey(o: Order, a: ListedTask, b: ListedTask)
    ensures Compare(o, a, b) < 0 <==> KeyLess(KeyOf(o, a), KeyOf(o, b))
    ensures Compare(o, a, b) == 0 <==> KeyOf(o, a) == KeyOf(o, b)
    ensures Compare(o, a, b) > 0 <==> After(o, a, b)
  {
  }

  /** Keys are totally ordered. */
  lemma KeyTotal(x: SortKey, y: SortKey)
    ensures KeyLess(x, y) || x == y || KeyLess(y, x)
    ensures !(KeyLess(x, y) && KeyLess(y, x))
    ensures !KeyLess(x, x)
  {
  }

  lemma KeyTransitive(x: SortKey, y: SortKey, z: SortKey)
    requires KeyLess(x, y) && KeyLess(y, z)
    ensures KeyLess(x, z)
  {
  }
}
