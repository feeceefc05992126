/** The advanced-filter editor: the filter object it keeps and hands to the task
    list, and the handlers that build each new filter object from the previous one.
    A date input's value is its parsed day, `None` for the empty input `""`. */
module FilterPanel {
  import opened Wrappers
  import opened SeqFilter

  datatype DateRange = DateRange(start: Option<int>, end: Option<int>)

  datatype Filters = Filters(priorities: seq<string>, statuses: seq<string>, dateRange: DateRange)

  /** The `initialFilters` prop: each key may be missing (`None`). */
  datatype InitialFilters = InitialFilters(
    priorities: Option<seq<string>>,
    statuses: Option<seq<string>>,
    dateRange: Option<DateRange>)

  datatype DateField = Start | End

  const NoDates := DateRange(None, None)

  /** The state the panel starts in: the defaults, overridden by every supplied key. */
  function Initial(init: InitialFilters): Filters
  {
    Filters(
      if init.priorities.Some? then init.priorities.value else [],
      if init.statuses.Some? then init.statuses.value else [],
      if init.dateRange.Some? then init.dateRange.value else NoDates)
  }

  /** `list.filter(x => x !== v)`. */
  function Without(list: seq<string>, v: string): seq<string>
  {
    if list == [] then [] else (if list[0] == v then [] else [list[0]]) + Without(list[1..], v)
  }

  /** Removing `v` drops all of its occurrences and keeps the rest in order. */
  lemma {:induction false} WithoutDropsAll(list: seq<string>, v: string)
    ensures forall x :: x in Without(list, v) <==> x in list && x != v
    ensures IsSubsequence(Without(list, v), list)
    ensures |Without(list, v)| == |list| - multiset(list)[v]
    ensures v !in list ==> Without(list, v) == list
  {
    if list != [] {
      WithoutDropsAll(list[1..], v);
      assert list == [list[0]] + list[1..];
      var w := Without(list, v);
      if list[0] == v {
        assert w == Without(list[1..], v);
      } else {
        assert w[0] == list[0] && w[1..] == Without(list[1..], v);
      }
    }
  }

  lemma {:induction false} WithoutAppend(a: seq<string>, b: seq<string>, v: string)
    ensures Without(a + b, v) == Without(a, v) + Without(b, v)
  {
    if a == [] {
      assert a + b == b;
    } else {
      assert (a + b)[1..] == a[1..] + b;
      WithoutAppend(a[1..], b, v);
    }
  }

  /** The list-toggle rule: a present value is removed, an absent one appended. */
  function Toggle(list: seq<string>, v: string): seq<string>
  {
    if v in list then Without(list, v) else list + [v]
  }

  /** After a toggle, `v` is present exactly when it was absent before. */
  lemma ToggleFlipsMembership(list: seq<string>, v: string)
    ensures v in Toggle(list, v) <==> v !in list
    ensures forall x :: x != v ==> (x in Toggle(list, v) <==> x in list)
  {
    WithoutDropsAll(list, v);
  }

  /** Toggling an absent value twice gives the list back. */
  lemma ToggleTwiceRestores(list: seq<string>, v: string)
    requires v !in list
    ensures Toggle(Toggle(list, v), v) == list
  {
    assert v in list + [v];
    WithoutAppend(list, [v], v);
    WithoutDropsAll(list, v);
    assert Without([v], v) == [];
  }

  /** `handlePriorityToggle(p)`: only `priorities` changes. */
  function TogglePriority(f: Filters, p: string): (r: Filters)
    ensures r.statuses == f.statuses && r.dateRange == f.dateRange
    ensures p in r.priorities <==> p !in f.priorities
  {
    ToggleFlipsMembership(f.priorities, p);
    f.(priorities := Toggle(f.priorities, p))
  }

  /** `handleStatusToggle(s)`: only `statuses` changes. */
  function ToggleStatus(f: Filters, s: string): (r: Filters)
    ensures r.priorities == f.priorities && r.dateRange == f.dateRange
    ensures s in r.statuses <==> s !in f.statuses
  {
    ToggleFlipsMembership(f.statuses, s);
    f.(statuses := Toggle(f.statuses, s))
  }

  /** `handleDateRangeChange(field, value)`: only the named bound changes. */
  function SetDateRange(f: Filters, field: DateField, value: Option<int>): (r: Filters)
    ensures r.priorities == f.priorities && r.statuses == f.statuses
    ensures field.Start? ==> r.dateRange.start == value && r.dateRange.end == f.dateRange.end
    ensures field.End? ==> r.dateRange.end == value && r.dateRange.start == f.dateRange.start
  {
    match field
    case Start => f.(dateRange := f.dateRange.(start := value))
    case End => f.(dateRange := f.dateRange.(end := value))
  }

  /** `clearAllFilters()`. */
  function ClearAll(): (f: Filters)
    ensures f.priorities == [] && f.statuses == [] && f.dateRange == NoDates
  {
    Filters([], [], NoDates)
  }

  /** `getActiveFilterCount()`: one per chosen priority and status, plus one for
      the date range when either bound is set. */
  function ActiveCount(f: Filters): nat
  {
    |f.priorities| + |f.statuses| + (if f.dateRange.start.Some? || f.dateRange.end.Some? then 1 else 0)
  }

  lemma ClearAllHasNoActive()
    ensures ActiveCount(ClearAll()) == 0
  {
  }

  /** No filter is active exactly when both lists are empty and no bound is set. */
  lemma NoActiveIffCleared(f: Filters)
    ensures ActiveCount(f) == 0 <==> f == ClearAll()
  {
  }

  /** With no initial filters the panel starts cleared, with nothing active. */
  lemma InitialDefaults()
    ensures Initial(InitialFilters(None, None, None)) == ClearAll()
    ensures ActiveCount(Initial(InitialFilters(None, None, None))) == 0
  {
  }

  /** Supplied keys win over the defaults: a panel given every key of a filter
      object starts with exactly that object, and a key given alone is taken
      whatever the other keys are. */
  lemma InitialSuppliedWins(f: Filters, init: InitialFilters)
    ensures Initial(InitialFilters(Some(f.priorities), Some(f.statuses), Some(f.dateRange))) == f
    ensures init.priorities == Some(f.priorities) ==> Initial(init).priorities == f.priorities
    ensures init.statuses == Some(f.statuses) ==> Initial(init).statuses == f.statuses
    ensures init.dateRange == Some(f.dateRange) ==> Initial(init).dateRange == f.dateRange
  {
  }

  /** A priority toggle adds one to the count, or removes every occurrence of the value. */
  lemma TogglePriorityCount(f: Filters, p: string)
    ensures ActiveCount(TogglePriority(f, p))
            == if p in f.priorities then ActiveCount(f) - multiset(f.priorities)[p] else ActiveCount(f) + 1
  {
    WithoutDropsAll(f.priorities, p);
  }

  /** A status toggle adds one to the count, or removes every occurrence of the value. */
  lemma ToggleStatusCount(f: Filters, s: string)
    ensures ActiveCount(ToggleStatus(f, s))
            == if s in f.statuses then ActiveCount(f) - multiset(f.statuses)[s] else ActiveCount(f) + 1
  {
    WithoutDropsAll(f.statuses, s);
  }
}
