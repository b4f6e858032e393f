/**
 * The dashboard (`Dashboard.js`): upcoming assignments grouped by calendar
 * day, the modules with the most assignments, the assignments of a picked
 * day, and the class of a calendar tile. A date is an integer timestamp
 * (`None` for a due date that does not parse) and the calendar day of a
 * timestamp is the opaque `dayKey` (`toDateString`).
 */
module Dashboard {
  import opened Base

  datatype Module = Module(id: int, name: string, color: string)

  datatype Assignment = Assignment(id: int, title: string, due: Option<int>, courseModuleId: Option<int>)

  // ------------------------------------------------------------- upcoming

  /** `new Date(due_date) >= new Date()`; an unparsable date compares false. */
  predicate IsUpcoming(a: Assignment, now: int)
  {
    a.due.Some? && a.due.value >= now
  }

  function Upcoming(s: seq<Assignment>, now: int): seq<Assignment>
  {
    if s == [] then []
    else Upcoming(s[..|s| - 1], now) + (if IsUpcoming(s[|s| - 1], now) then [s[|s| - 1]] else [])
  }

  /** Exactly the assignments due now or later are upcoming. */
  lemma {:induction false} UpcomingMembers(s: seq<Assignment>, now: int)
    ensures forall x :: x in Upcoming(s, now) <==> x in s && IsUpcoming(x, now)
  {
    if s != [] {
      UpcomingMembers(s[..|s| - 1], now);
      assert s == s[..|s| - 1] + [s[|s| - 1]];
    }
  }

  /** The filter works piece by piece, so upcoming assignments keep their fetched order. */
  lemma {:induction false} UpcomingConcat(a: seq<Assignment>, b: seq<Assignment>, now: int)
    ensures Upcoming(a + b, now) == Upcoming(a, now) + Upcoming(b, now)
  {
    if b == [] {
      assert a + b == a;
    } else {
      assert (a + b)[..|a + b| - 1] == a + b[..|b| - 1];
      UpcomingConcat(a, b[..|b| - 1], now);
    }
  }

  // ------------------------------------------------------------- by day

  /** `new Date(due_date).toDateString()`. */
  function DayOf(a: Assignment, dayKey: int -> string): string
  {
    if a.due.Some? then dayKey(a.due.value) else "Invalid Date"
  }

  /** The assignments of `s` on day `k`, in list order. */
  function OnDay(s: seq<Assignment>, dayKey: int -> string, k: string): seq<Assignment>
  {
    if s == [] then []
    else OnDay(s[..|s| - 1], dayKey, k) + (if DayOf(s[|s| - 1], dayKey) == k then [s[|s| - 1]] else [])
  }

  lemma {:induction false} OnDayMembers(s: seq<Assignment>, dayKey: int -> string, k: string)
    ensures forall x :: x in OnDay(s, dayKey, k) <==> x in s && DayOf(x, dayKey) == k
  {
    if s != [] {
      OnDayMembers(s[..|s| - 1], dayKey, k);
      assert s == s[..|s| - 1] + [s[|s| - 1]];
    }
  }

  /**
   * `markedDates[dateStr] || []`: the assignments shown for a picked day,
   * an empty list when that day has no bucket.
   */
  function SelectedFor(marked: map<string, seq<Assignment>>, dateStr: string): seq<Assignment>
  {
    if dateStr in marked then marked[dateStr] else []
  }

  /**
   * The `dates` reduce: looking up any day gives exactly that day's
   * assignments in list order, and no bucket is empty.
   */
  method GroupByDay(s: seq<Assignment>, dayKey: int -> string) returns (acc: map<string, seq<Assignment>>)
    ensures forall k :: SelectedFor(acc, k) == OnDay(s, dayKey, k)
    ensures forall k :: k in acc ==> acc[k] != []
  {
    acc := map[];
    var i := 0;
    while i < |s|
      invariant 0 <= i <= |s|
      invariant forall k :: SelectedFor(acc, k) == OnDay(s[..i], dayKey, k)
      invariant forall k :: k in acc ==> acc[k] != []
    {
      assert s[..i + 1][..i] == s[..i];
      var dueDate := DayOf(s[i], dayKey);
      forall k
        ensures OnDay(s[..i + 1], dayKey, k) == OnDay(s[..i], dayKey, k) + (if dueDate == k then [s[i]] else [])
      {
      }
      if dueDate !in acc {
        acc := acc[dueDate := []];
      }
      acc := acc[dueDate := acc[dueDate] + [s[i]]];
      i := i + 1;
    }
    assert s[..|s|] == s;
  }

  /**
   * On the grouped buckets, picking a day shows exactly the assignments due
   * that day, so each assignment shows under its own day and no other.
   */
  lemma SelectedIsDay(s: seq<Assignment>, dayKey: int -> string, marked: map<string, seq<Assignment>>, k: string)
    requires forall k :: SelectedFor(marked, k) == OnDay(s, dayKey, k)
    ensures forall x :: x in SelectedFor(marked, k) <==> x in s && DayOf(x, dayKey) == k
  {
    OnDayMembers(s, dayKey, k);
  }

  /** `tileClassName`: a marked day wins over a day of another month, in month view only. */
  function TileClassName(marked: map<string, seq<Assignment>>, dateStr: string, view: string, tileMonth: int, nowMonth: int): string
  {
    if view == "month" && dateStr in marked then "pastel-tile pastel-tile--marked"
    else if view == "month" && tileMonth != nowMonth then "pastel-tile pastel-tile--other-month"
    else "pastel-tile"
  }

  lemma TileClassNamePrecedence(marked: map<string, seq<Assignment>>, dateStr: string, view: string, tileMonth: int, nowMonth: int)
    ensures var c := TileClassName(marked, dateStr, view, tileMonth, nowMonth);
      && (c == "pastel-tile pastel-tile--marked" <==> view == "month" && dateStr in marked)
      && (c == "pastel-tile pastel-tile--other-month" <==> view == "month" && dateStr !in marked && tileMonth != nowMonth)
      && (view != "month" ==> c == "pastel-tile")
  {
    assert "pastel-tile pastel-tile--marked"[25] != "pastel-tile pastel-tile--other-month"[25];
  }

  // ------------------------------------------------------------- counting

  /** How many assignments of `s` have module id `m`. */
  function Occurrences(s: seq<Assignment>, m: Option<int>): nat
  {
    if s == [] then 0
    else Occurrences(s[..|s| - 1], m) + (if s[|s| - 1].courseModuleId == m then 1 else 0)
  }

  /** `acc[m] || 0`. */
  function CountIn(acc: map<Option<int>, nat>, m: Option<int>): nat
  {
    if m in acc then acc[m] else 0
  }

  /**
   * The `moduleAssignmentCounts` reduce over every fetched assignment (past
   * ones too): a key for each module id that occurs, holding its number of
   * occurrences; any other id reads as 0.
   */
  method CountByModule(s: seq<Assignment>) returns (acc: map<Option<int>, nat>)
    ensures forall m :: m in acc <==> Occurrences(s, m) > 0
    ensures forall m :: CountIn(acc, m) == Occurrences(s, m)
  {
    acc := map[];
    var i := 0;
    while i < |s|
      invariant 0 <= i <= |s|
      invariant forall m :: m in acc <==> Occurrences(s[..i], m) > 0
      invariant forall m :: CountIn(acc, m) == Occurrences(s[..i], m)
    {
      assert s[..i + 1][..i] == s[..i];
      var m := s[i].courseModuleId;
      if m in acc {
        acc := acc[m := acc[m] + 1];
      } else {
        acc := acc[m := 1];
      }
      i := i + 1;
    }
    assert s[..|s|] == s;
  }

  // ------------------------------------------------------------- ordering

  /** The sort key of a module: its assignment count. */
  function Key(counts: map<Option<int>, nat>, m: Module): nat
  {
    CountIn(counts, Some(m.id))
  }

  predicate SortedDesc(s: seq<Module>, counts: map<Option<int>, nat>)
  {
    forall i, j :: 0 <= i < j < |s| ==> Key(counts, s[i]) >= Key(counts, s[j])
  }

  /** `x` placed before the first module of a smaller count, after all of at least its count. */
  function Insert(s: seq<Module>, x: Module, counts: map<Option<int>, nat>): seq<Module>
  {
    if s == [] then [x]
    else if Key(counts, s[0]) < Key(counts, x) then [x] + s
    else [s[0]] + Insert(s[1..], x, counts)
  }

  /** The stable sort by descending count, as insertion sort computes it. */
  function SortByCount(s: seq<Module>, counts: map<Option<int>, nat>): seq<Module>
  {
    if s == [] then [] else Insert(SortByCount(s[..|s| - 1], counts), s[|s| - 1], counts)
  }

  /** The modules of count `c`, in order. */
  function WithCount(s: seq<Module>, counts: map<Option<int>, nat>, c: nat): seq<Module>
  {
    if s == [] then []
    else WithCount(s[..|s| - 1], counts, c) + (if Key(counts, s[|s| - 1]) == c then [s[|s| - 1]] else [])
  }

  lemma {:induction false} InsertKeeps(s: seq<Module>, x: Module, counts: map<Option<int>, nat>)
    requires SortedDesc(s, counts)
    ensures SortedDesc(Insert(s, x, counts), counts)
    ensures multiset(Insert(s, x, counts)) == multiset(s) + multiset{x}
  {
    if s != [] && Key(counts, s[0]) >= Key(counts, x) {
      InsertKeeps(s[1..], x, counts);
      var r := Insert(s[1..], x, counts);
      assert s == [s[0]] + s[1..];
      forall y | y in multiset(r) ensures Key(counts, s[0]) >= Key(counts, y) {
        assert y in multiset(s[1..]) + multiset{x};
      }
    }
  }

  lemma {:induction false} WithCountConcat(a: seq<Module>, b: seq<Module>, counts: map<Option<int>, nat>, c: nat)
    ensures WithCount(a + b, counts, c) == WithCount(a, counts, c) + WithCount(b, counts, c)
  {
    if b == [] {
      assert a + b == a;
    } else {
      assert (a + b)[..|a + b| - 1] == a + b[..|b| - 1];
      WithCountConcat(a, b[..|b| - 1], counts, c);
    }
  }

  lemma {:induction false} WithCountNone(s: seq<Module>, counts: map<Option<int>, nat>, c: nat)
    requires forall i :: 0 <= i < |s| ==> Key(counts, s[i]) != c
    ensures WithCount(s, counts, c) == []
  {
    if s != [] {
      WithCountNone(s[..|s| - 1], counts, c);
    }
  }

  /** Putting `x` in front of a sorted list whose counts are all smaller. */
  lemma InsertFrontStable(s: seq<Module>, x: Module, counts: map<Option<int>, nat>, c: nat)
    requires SortedDesc(s, counts) && s != [] && Key(counts, s[0]) < Key(counts, x)
    ensures WithCount([x] + s, counts, c) == WithCount(s, counts, c) + (if Key(counts, x) == c then [x] else [])
  {
    WithCountConcat([x], s, counts, c);
    assert WithCount([x], counts, c) == WithCount([], counts, c) + (if Key(counts, x) == c then [x] else []);
    if Key(counts, x) == c {
      WithCountNone(s, counts, c);
    }
  }

  /** Inserting `x` puts it after every module of its count already there. */
  lemma {:induction false} InsertStable(s: seq<Module>, x: Module, counts: map<Option<int>, nat>, c: nat)
    requires SortedDesc(s, counts)
    ensures WithCount(Insert(s, x, counts), counts, c) == WithCount(s, counts, c) + (if Key(counts, x) == c then [x] else [])
  {
    if s == [] {
      assert Insert(s, x, counts) == [] + [x];
    } else if Key(counts, s[0]) < Key(counts, x) {
      InsertFrontStable(s, x, counts, c);
    } else {
      InsertStable(s[1..], x, counts, c);
      WithCountConcat([s[0]], s[1..], counts, c);
      WithCountConcat([s[0]], Insert(s[1..], x, counts), counts, c);
      assert [s[0]] + s[1..] == s;
    }
  }

  /**
   * The featured order: sorted by descending count, a permutation of the
   * fetched modules, and stable (modules of equal count keep fetched order).
   */
  lemma {:induction false} SortByCountCorrect(s: seq<Module>, counts: map<Option<int>, nat>)
    ensures SortedDesc(SortByCount(s, counts), counts)
    ensures multiset(SortByCount(s, counts)) == multiset(s)
    ensures forall c :: WithCount(SortByCount(s, counts), counts, c) == WithCount(s, counts, c)
  {
    if s != [] {
      var init := s[..|s| - 1];
      SortByCountCorrect(init, counts);
      InsertKeeps(SortByCount(init, counts), s[|s| - 1], counts);
      assert s == init + [s[|s| - 1]];
      forall c ensures WithCount(SortByCount(s, counts), counts, c) == WithCount(s, counts, c) {
        InsertStable(SortByCount(init, counts), s[|s| - 1], counts, c);
      }
    }
  }

  /** Inserting into a sorted list is splitting it where the smaller counts begin. */
  lemma {:induction false} InsertSplit(s: seq<Module>, x: Module, counts: map<Option<int>, nat>, j: nat)
    requires SortedDesc(s, counts) && j <= |s|
    requires j > 0 ==> Key(counts, s[j - 1]) >= Key(counts, x)
    requires forall k :: j <= k < |s| ==> Key(counts, s[k]) < Key(counts, x)
    ensures Insert(s, x, counts) == s[..j] + [x] + s[j..]
  {
    if j > 0 {
      InsertSplit(s[1..], x, counts, j - 1);
      assert s[..j] == [s[0]] + s[1..][..j - 1];
    }
  }

  /** One insertion step: `a[i]` moves left past the modules of smaller count. */
  method InsertStep(a: array<Module>, i: nat, counts: map<Option<int>, nat>)
    requires i < a.Length && SortedDesc(a[..i], counts)
    modifies a
    ensures a[..i + 1] == Insert(old(a[..i]), old(a[i]), counts)
    ensures a[i + 1..] == old(a[i + 1..])
  {
    ghost var sorted := a[..i];
    var x := a[i];
    var j := i;
    while j > 0 && Key(counts, a[j - 1]) < Key(counts, x)
      invariant 0 <= j <= i
      invariant a[..j] == sorted[..j]
      invariant a[j + 1..i + 1] == sorted[j..]
      invariant a[i + 1..] == old(a[i + 1..])
      invariant forall k :: j <= k < i ==> Key(counts, sorted[k]) < Key(counts, x)
    {
      a[j] := a[j - 1];
      j := j - 1;
    }
    a[j] := x;
    InsertSplit(sorted, x, counts, j);
    assert a[..i + 1] == sorted[..j] + [x] + sorted[j..];
  }

  /** `modulesData.sort((a, b) => count(b) - count(a))`, in place and stable. */
  method SortModules(a: array<Module>, counts: map<Option<int>, nat>)
    modifies a
    ensures a[..] == SortByCount(old(a[..]), counts)
  {
    ghost var orig := a[..];
    var i := 0;
    while i < a.Length
      invariant 0 <= i <= a.Length
      invariant a[..i] == SortByCount(orig[..i], counts)
      invariant a[i..] == orig[i..]
    {
      SortByCountCorrect(orig[..i], counts);
      InsertStep(a, i, counts);
      assert orig[..i + 1] == orig[..i] + [orig[i]];
      i := i + 1;
    }
    assert orig[..a.Length] == orig;
  }

  /** `sortedModules.slice(0, 4)`. */
  function Featured(sorted: seq<Module>): seq<Module>
  {
    sorted[..if |sorted| < 4 then |sorted| else 4]
  }

  /** At most four modules are featured, and none left out has more assignments than one featured. */
  lemma FeaturedAreTop(sorted: seq<Module>, counts: map<Option<int>, nat>)
    requires SortedDesc(sorted, counts)
    ensures |Featured(sorted)| == if |sorted| < 4 then |sorted| else 4
    ensures forall i, j :: 0 <= i < |Featured(sorted)| <= j < |sorted| ==> Key(counts, sorted[i]) >= Key(counts, sorted[j])
  {
  }

  /** A module whose count is at most every count already there goes last. */
  lemma {:induction false} InsertLast(s: seq<Module>, x: Module, counts: map<Option<int>, nat>)
    requires forall i :: 0 <= i < |s| ==> Key(counts, s[i]) >= Key(counts, x)
    ensures Insert(s, x, counts) == s + [x]
  {
    if s != [] {
      InsertLast(s[1..], x, counts);
      assert [s[0]] + (s[1..] + [x]) == s + [x];
    }
  }

  /**
   * The fixture of the dashboard test: five modules, assignments for modules
   * 1, 2 and 3 only; the featured modules are modules 1 to 4, in order.
   */
  lemma FeaturedFixture()
    ensures var mods := [Module(1, "Module 1", "#ff0000"), Module(2, "Module 2", "#00ff00"),
                         Module(3, "Module 3", "#0000ff"), Module(4, "Module 4", "#ffff00"),
                         Module(5, "Module 5", "#ff00ff")];
            var counts := map[Some(1) := 1, Some(2) := 1, Some(3) := 1];
            Featured(SortByCount(mods, counts)) == mods[..4]
  {
    var mods := [Module(1, "Module 1", "#ff0000"), Module(2, "Module 2", "#00ff00"),
                 Module(3, "Module 3", "#0000ff"), Module(4, "Module 4", "#ffff00"),
                 Module(5, "Module 5", "#ff00ff")];
    var counts := map[Some(1) := 1, Some(2) := 1, Some(3) := 1];
    assert mods[..5][..4] == mods[..4] && mods[..4][..3] == mods[..3];
    assert mods[..3][..2] == mods[..2] && mods[..2][..1] == mods[..1] && mods[..1][..0] == [];
    assert Key(counts, mods[0]) == 1 && Key(counts, mods[1]) == 1 && Key(counts, mods[2]) == 1;
    assert Key(counts, mods[3]) == 0 && Key(counts, mods[4]) == 0;
    assert SortByCount(mods[..1], counts) == mods[..1];
    InsertLast(mods[..1], mods[1], counts);
    assert SortByCount(mods[..2], counts) == Insert(SortByCount(mods[..1], counts), mods[1], counts);
    assert mods[..1] + [mods[1]] == mods[..2];
    InsertLast(mods[..2], mods[2], counts);
    assert SortByCount(mods[..3], counts) == Insert(SortByCount(mods[..2], counts), mods[2], counts);
    assert mods[..2] + [mods[2]] == mods[..3];
    InsertLast(mods[..3], mods[3], counts);
    assert SortByCount(mods[..4], counts) == Insert(SortByCount(mods[..3], counts), mods[3], counts);
    assert mods[..3] + [mods[3]] == mods[..4];
    InsertLast(mods[..4], mods[4], counts);
    assert SortByCount(mods[..4], counts) == mods[..4];
    assert SortByCount(mods, counts) == Insert(SortByCount(mods[..4], counts), mods[4], counts);
    assert mods[..4] + [mods[4]] == mods;
  }

  // ---------------------------------------------------------------- state

  /** The component's state. */
  class Page {
    var assignments: seq<Assignment>
    var markedDates: map<string, seq<Assignment>>
    var featuredModules: seq<Module>
    var date: int
    var selectedDate: Option<string>
    var selectedAssignments: seq<Assignment>

    constructor (now: int)
      ensures assignments == [] && markedDates == map[] && featuredModules == []
      ensures date == now && selectedDate == None && selectedAssignments == []
    {
      assignments := [];
      markedDates := map[];
      featuredModules := [];
      date := now;
      selectedDate := None;
      selectedAssignments := [];
    }

    /** `fetchData`: both fetches answered; `modulesData` is sorted in place. */
    method FetchData(modulesData: array<Module>, assignmentsData: seq<Assignment>, now: int, dayKey: int -> string)
      modifies this`assignments, this`markedDates, this`featuredModules, modulesData
      ensures assignments == Upcoming(assignmentsData, now)
      ensures forall k :: SelectedFor(markedDates, k) == OnDay(assignments, dayKey, k)
      ensures forall k :: k in markedDates ==> markedDates[k] != []
      ensures exists counts: map<Option<int>, nat> ::
        && (forall m :: CountIn(counts, m) == Occurrences(assignmentsData, m))
        && modulesData[..] == SortByCount(old(modulesData[..]), counts)
        && featuredModules == Featured(modulesData[..])
    {
      var upcoming := Upcoming(assignmentsData, now);
      assignments := upcoming;
      var dates := GroupByDay(upcoming, dayKey);
      markedDates := dates;
      var counts := CountByModule(assignmentsData);
      SortModules(modulesData, counts);
      featuredModules := Featured(modulesData[..]);
    }

    /** `onDateChange`. */
    method OnDateChange(d: int, dayKey: int -> string)
      modifies this`date, this`selectedDate, this`selectedAssignments
      ensures date == d && selectedDate == Some(dayKey(d))
      ensures selectedAssignments == SelectedFor(markedDates, dayKey(d))
    {
      date := d;
      var dateStr := dayKey(d);
      selectedDate := Some(dateStr);
      selectedAssignments := SelectedFor(markedDates, dateStr);
    }
  }
}
