/** The query filter listTasks (controller/taskController.js) hands to the database: the
    owner, the exact-match fields the query names, and a window on the task's `date`.
    Timestamps are integer milliseconds since the epoch; what `new Date(...)` makes of a
    query string is an input here (None for an invalid date). */
module DateFilter {
  import opened Js
  import opened Outcomes

  /** Milliseconds in a UTC day. */
  const DAY: int := 86400000

  /** The UTC day a timestamp falls on, counted from the epoch. Dafny's division rounds
      down for a positive divisor, as the calendar fields of a JS date do. */
  function UtcDay(t: int): int {
    t / DAY
  }

  /** 00:00:00.000 UTC of the day of `t`. */
  function DayStart(t: int): (r: int)
    ensures r <= t < r + DAY
  {
    UtcDay(t) * DAY
  }

  /** 23:59:59.999 UTC of the day of `t`. */
  function DayEnd(t: int): (r: int)
    ensures t <= r < t + DAY
  {
    DayStart(t) + 86399999
  }

  /** The query parameters listTasks reads. */
  datatype ListQuery = ListQuery(energyZone: Json, status: Json, tag: Json, date: Json, from: Json, to: Json)

  /** What `new Date(...)` yields for the `date`, `from` and `to` parameters. */
  datatype ParsedDates = ParsedDates(date: Option<int>, from: Option<int>, to: Option<int>)

  /** The `$gte` and `$lte` keys of `filter.date`. */
  datatype DateBounds = DateBounds(gte: Option<int>, lte: Option<int>)

  /** The filter object; a None field is a key the filter does not have. */
  datatype Filter = Filter(user: string, energyZone: Option<Json>, status: Option<Json>, tag: Option<Json>, date: Option<DateBounds>)

  /** A task dated `t` passes the bounds. */
  predicate Matches(b: DateBounds, t: int) {
    (b.gte.None? || b.gte.value <= t) && (b.lte.None? || t <= b.lte.value)
  }

  /** `from` is given and is a valid date. */
  predicate FromValid(q: ListQuery, p: ParsedDates) {
    Truthy(q.from) && p.from.Some?
  }

  /** `to` is given and is a valid date. */
  predicate ToValid(q: ListQuery, p: ParsedDates) {
    Truthy(q.to) && p.to.Some?
  }

  /** The dates the query asks for: the UTC day of `date` when `date` is given, and
      otherwise from `from` on and up to the end of the UTC day of `to`. */
  predicate Wanted(q: ListQuery, p: ParsedDates, t: int) {
    if Truthy(q.date) then p.date.Some? && UtcDay(t) == UtcDay(p.date.value)
    else
      && (FromValid(q, p) ==> p.from.value <= t)
      && (ToValid(q, p) ==> UtcDay(t) <= UtcDay(p.to.value))
  }

  /** The timestamps from the start of a UTC day to its last millisecond are exactly
      those on that day. */
  lemma DayWindow(d: int, t: int)
    ensures DayStart(d) <= t <= DayEnd(d) <==> UtcDay(t) == UtcDay(d)
  {
    var k := UtcDay(d);
    assert DayStart(d) == k * DAY;
    if UtcDay(t) == k {
      assert t == UtcDay(t) * DAY + t % DAY;
    }
  }

  /** Up to the last millisecond of the UTC day of `d` is up to that day. */
  lemma UpToDayEnd(d: int, t: int)
    ensures t <= DayEnd(d) <==> UtcDay(t) <= UtcDay(d)
  {
    assert t == UtcDay(t) * DAY + t % DAY;
    assert DayStart(d) == UtcDay(d) * DAY;
  }

  /** From `from` on, through the end of the UTC day of `to`. */
  lemma RangeWindow(q: ListQuery, p: ParsedDates, b: DateBounds, t: int)
    requires !Truthy(q.date)
    requires b.gte == (if FromValid(q, p) then Some(p.from.value) else None)
    requires b.lte == (if ToValid(q, p) then Some(DayEnd(p.to.value)) else None)
    ensures Matches(b, t) <==> Wanted(q, p, t)
  {
    if ToValid(q, p) {
      UpToDayEnd(p.to.value, t);
    }
  }

  /** The `filter.date` key listTasks builds: the `date` window, or the `from` and `to`
      bounds one by one, and no key at all when no bound was valid. */
  method BuildDateBounds(q: ListQuery, p: ParsedDates) returns (date: Option<DateBounds>)
    requires Truthy(q.date) || Truthy(q.from) || Truthy(q.to)
    ensures date.Some? ==> date.value != DateBounds(None, None)
    ensures date.Some? <==>
      if Truthy(q.date) then p.date.Some? else FromValid(q, p) || ToValid(q, p)
    ensures date.Some? ==> forall t :: Matches(date.value, t) <==> Wanted(q, p, t)
  {
    var bounds := DateBounds(None, None);
    if Truthy(q.date) {
      if p.date.Some? {
        var start := DayStart(p.date.value);
        bounds := bounds.(gte := Some(start));
        bounds := bounds.(lte := Some(DayEnd(p.date.value)));
        forall t ensures Matches(bounds, t) <==> Wanted(q, p, t) {
          DayWindow(p.date.value, t);
        }
      }
    } else {
      if Truthy(q.from) && p.from.Some? {
        bounds := bounds.(gte := Some(p.from.value));
      }
      if Truthy(q.to) && p.to.Some? {
        bounds := bounds.(lte := Some(DayEnd(p.to.value)));
      }
      forall t ensures Matches(bounds, t) <==> Wanted(q, p, t) {
        RangeWindow(q, p, bounds, t);
      }
    }
    date := if bounds == DateBounds(None, None) then None else Some(bounds);
  }

  /** The filter listTasks builds for the user `user` and the query `q`, key by key. */
  method BuildFilter(user: string, q: ListQuery, p: ParsedDates) returns (f: Filter)
    ensures f.user == user
    ensures f.energyZone.Some? <==> Truthy(q.energyZone)
    ensures f.energyZone.Some? ==> f.energyZone.value == q.energyZone
    ensures f.status.Some? <==> Truthy(q.status)
    ensures f.status.Some? ==> f.status.value == q.status
    ensures f.tag.Some? <==> Truthy(q.tag)
    ensures f.tag.Some? ==> f.tag.value == q.tag
    ensures f.date.Some? ==> f.date.value != DateBounds(None, None)
    ensures f.date.Some? <==>
      if Truthy(q.date) then p.date.Some? else FromValid(q, p) || ToValid(q, p)
    ensures f.date.Some? ==> forall t :: Matches(f.date.value, t) <==> Wanted(q, p, t)
  {
    f := Filter(user, None, None, None, None);
    if Truthy(q.energyZone) {
      f := f.(energyZone := Some(q.energyZone));
    }
    if Truthy(q.status) {
      f := f.(status := Some(q.status));
    }
    if Truthy(q.tag) {
      f := f.(tag := Some(q.tag));
    }
    if Truthy(q.date) || Truthy(q.from) || Truthy(q.to) {
      var date := BuildDateBounds(q, p);
      f := f.(date := date);
    }
  }
}
