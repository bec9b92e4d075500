/**
 * The activity store: a local mirror of the `activities` table, the filter
 * criteria chosen in the UI, the derived filtered-and-sorted view, and the
 * create/update/delete operations that patch the mirror from the server's
 * answers.
 */
module Activities {
  import opened Wrappers
  import opened Gateway
  import Mirror

  /** An activity row as the server stores and returns it. */
  datatype Activity = Activity(
    id: int,
    projectName: string,
    activityName: string,
    progress: string,       // a number written as decimal text
    expectedTime: int,
    urgency: string,        // "High", "Medium" or "Low"
    notes: string,
    isAssigned: bool,
    assignedToWho: string,
    createdBy: string,
    createdAt: int)         // the server's creation timestamp, as a number

  function ActivityId(a: Activity): int { a.id }

  // ---------------------------------------------------------------------
  // Progress as text

  predicate IsDigit(c: char) { '0' <= c <= '9' }

  predicate AllDigits(s: string) {
    forall i :: 0 <= i < |s| ==> IsDigit(s[i])
  }

  function DigitChar(d: nat): (c: char)
    requires d < 10
    ensures IsDigit(c) && c as int - '0' as int == d
  {
    ('0' as int + d) as char
  }

  /**
   * The decimal text of a number, as `toString` writes it for an integer
   * below 10^21: digits only, no leading zero, denoting `n`.
   */
  function NatToText(n: nat): (s: string)
    ensures s != [] && AllDigits(s)
    ensures |s| > 1 ==> s[0] != '0'
    ensures DigitsValue(s) == n
    decreases n
  {
    if n < 10 then
      var s := [DigitChar(n)];
      assert s[..0] == [];
      s
    else
      var t := NatToText(n / 10);
      var s := t + [DigitChar(n % 10)];
      assert s[..|s| - 1] == t;
      assert |t| == 1 ==> t[..0] == [];
      s
  }

  /** The longest prefix of `s` made of decimal digits. */
  function LeadingDigits(s: string): (d: string)
    ensures d <= s && AllDigits(d)
    ensures |d| < |s| ==> !IsDigit(s[|d|])
  {
    if s == [] || !IsDigit(s[0]) then [] else [s[0]] + LeadingDigits(s[1..])
  }

  /** The number a string of decimal digits denotes. */
  function DigitsValue(d: string): nat
    requires AllDigits(d)
  {
    if d == [] then 0 else DigitsValue(d[..|d| - 1]) * 10 + (d[|d| - 1] as int - '0' as int)
  }

  /**
   * The numeric value `parseFloat` reads from a progress text: the number
   * written by its leading digits, or -1 (below every progress value) when
   * the text does not start with a digit and `parseFloat` yields NaN.
   */
  function ProgressValue(text: string): (v: int)
    ensures v >= -1
    ensures v == -1 <==> text == [] || !IsDigit(text[0])
  {
    var d := LeadingDigits(text);
    if d == [] then -1 else DigitsValue(d)
  }

  /** A digit string with a non-zero first digit denotes a positive number. */
  lemma {:induction false} LeadingNonZero(s: string)
    requires s != [] && AllDigits(s) && s[0] != '0'
    ensures DigitsValue(s) >= 1
  {
    if |s| > 1 {
      LeadingNonZero(s[..|s| - 1]);
    } else {
      assert s[..0] == [];
    }
  }

  /**
   * The text `NatToText` writes is the only one meeting its contract: every
   * non-empty digit string without a leading zero is the decimal text of the
   * number it denotes.
   */
  lemma {:induction false} CanonicalDecimal(s: string)
    requires s != [] && AllDigits(s)
    requires |s| > 1 ==> s[0] != '0'
    ensures s == NatToText(DigitsValue(s))
  {
    var last := s[|s| - 1] as int - '0' as int;
    if |s| == 1 {
      assert s[..0] == [];
      assert DigitChar(last) == s[0];
    } else {
      var init := s[..|s| - 1];
      assert init[0] == s[0];
      CanonicalDecimal(init);
      LeadingNonZero(init);
      var v := DigitsValue(s);
      assert v == DigitsValue(init) * 10 + last;
      assert v / 10 == DigitsValue(init) && v % 10 == last;
      assert DigitChar(last) == s[|s| - 1];
      assert s == init + [s[|s| - 1]];
    }
  }

  lemma {:induction false} LeadingDigitsOfDigits(s: string)
    requires AllDigits(s)
    ensures LeadingDigits(s) == s
  {
    if s != [] {
      LeadingDigitsOfDigits(s[1..]);
    }
  }

  /** A number sent as progress text reads back as the same number when sorting. */
  lemma ProgressRoundTrip(n: nat)
    ensures ProgressValue(NatToText(n)) == n
  {
    LeadingDigitsOfDigits(NatToText(n));
  }

  // ---------------------------------------------------------------------
  // The row submitted on create and update

  /** The progress a caller passes: a number, or text. */
  datatype ProgressInput = Number(n: nat) | Text(s: string)

  /** What a caller passes to create or update an activity; the optional fields may be absent. */
  datatype ActivityInput = ActivityInput(
    projectName: string,
    activityName: string,
    progress: ProgressInput,
    expectedTime: int,
    urgency: string,
    notes: Option<string>,
    isAssigned: Option<bool>,
    assignedToWho: Option<string>,
    createdBy: Option<string>)

  /** The row sent to the server: progress as text, no optional field left absent. */
  datatype ActivityPayload = ActivityPayload(
    projectName: string,
    activityName: string,
    progress: string,
    expectedTime: int,
    urgency: string,
    notes: string,
    isAssigned: bool,
    assignedToWho: string,
    createdBy: string)

  /** Progress as sent: a number as its decimal text, a text as it is. */
  function ProgressText(p: ProgressInput): (text: string)
    ensures p.Number? ==> text != [] && AllDigits(text) && (|text| > 1 ==> text[0] != '0')
    ensures p.Number? ==> DigitsValue(text) == p.n && ProgressValue(text) == p.n
    ensures p.Text? ==> text == p.s
  {
    match p
    case Number(n) => ProgressRoundTrip(n); NatToText(n)
    case Text(s) => s
  }

  /** The row `createActivity` and `updateActivity` submit for `input`. */
  function Payload(input: ActivityInput): (p: ActivityPayload)
    ensures p.projectName == input.projectName && p.activityName == input.activityName
    ensures p.expectedTime == input.expectedTime && p.urgency == input.urgency
    ensures p.progress == ProgressText(input.progress)
    ensures input.progress.Number? ==> ProgressValue(p.progress) == input.progress.n
    ensures input.progress.Text? ==> p.progress == input.progress.s
    ensures input.notes.None? ==> p.notes == ""
    ensures input.isAssigned.None? ==> !p.isAssigned
    ensures input.assignedToWho.None? ==> p.assignedToWho == ""
    ensures input.createdBy.None? ==> p.createdBy == ""
    ensures input.notes.Some? ==> p.notes == input.notes.value
    ensures input.isAssigned.Some? ==> p.isAssigned == input.isAssigned.value
    ensures input.assignedToWho.Some? ==> p.assignedToWho == input.assignedToWho.value
    ensures input.createdBy.Some? ==> p.createdBy == input.createdBy.value
  {
    ActivityPayload(
      input.projectName,
      input.activityName,
      ProgressText(input.progress),
      input.expectedTime,
      input.urgency,
      input.notes.GetOr(""),
      input.isAssigned.GetOr(false),
      input.assignedToWho.GetOr(""),
      input.createdBy.GetOr(""))
  }

  // ---------------------------------------------------------------------
  // Filter criteria

  /**
   * The UI's criteria: an urgency to match ("" for any), an assignment flag
   * as text ("" for any, "true" for assigned, anything else for unassigned)
   * and the key to sort on.
   */
  datatype Filters = Filters(urgency: string, assignment: string, sortBy: string)

  const InitialFilters := Filters("", "", "created_at")

  /** The keys a `setFilters` call supplies; absent keys are left as they are. */
  datatype FilterPatch = FilterPatch(urgency: Option<string>, assignment: Option<string>, sortBy: Option<string>)

  const NoChange := FilterPatch(None, None, None)

  /** Shallow merge: each supplied key takes its new value, each omitted key keeps its old one. */
  function Merge(f: Filters, patch: FilterPatch): (r: Filters)
    ensures patch.urgency.Some? ==> r.urgency == patch.urgency.value
    ensures patch.urgency.None? ==> r.urgency == f.urgency
    ensures patch.assignment.Some? ==> r.assignment == patch.assignment.value
    ensures patch.assignment.None? ==> r.assignment == f.assignment
    ensures patch.sortBy.Some? ==> r.sortBy == patch.sortBy.value
    ensures patch.sortBy.None? ==> r.sortBy == f.sortBy
  {
    Filters(patch.urgency.GetOr(f.urgency), patch.assignment.GetOr(f.assignment), patch.sortBy.GetOr(f.sortBy))
  }

  /** The patch equivalent to applying `first` and then `second`. */
  function Then(first: FilterPatch, second: FilterPatch): FilterPatch {
    FilterPatch(
      if second.urgency.Some? then second.urgency else first.urgency,
      if second.assignment.Some? then second.assignment else first.assignment,
      if second.sortBy.Some? then second.sortBy else first.sortBy)
  }

  lemma MergeNoChange(f: Filters)
    ensures Merge(f, NoChange) == f
  {
  }

  lemma MergeIdempotent(f: Filters, patch: FilterPatch)
    ensures Merge(Merge(f, patch), patch) == Merge(f, patch)
  {
  }

  lemma MergeThen(f: Filters, first: FilterPatch, second: FilterPatch)
    ensures Merge(Merge(f, first), second) == Merge(f, Then(first, second))
  {
  }

  // ---------------------------------------------------------------------
  // The filtered view

  /** High ranks 3, Medium 2, Low 1; an urgency outside these ranks 0. */
  function UrgencyRank(u: string): (rank: nat)
    ensures rank <= 3
    ensures rank == 3 <==> u == "High"
    ensures rank == 2 <==> u == "Medium"
    ensures rank == 1 <==> u == "Low"
  {
    if u == "High" then 3 else if u == "Medium" then 2 else if u == "Low" then 1 else 0
  }

  /** The key the view sorts on, in descending order, for each `sortBy`. */
  function Key(sortBy: string, a: Activity): (k: int)
    ensures sortBy == "urgency" ==> k == UrgencyRank(a.urgency)
    ensures sortBy == "progress" ==> k == ProgressValue(a.progress)
    ensures sortBy == "expected_time" ==> k == a.expectedTime
    ensures sortBy != "urgency" && sortBy != "progress" && sortBy != "expected_time" ==> k == a.createdAt
  {
    if sortBy == "urgency" then UrgencyRank(a.urgency)
    else if sortBy == "progress" then ProgressValue(a.progress)
    else if sortBy == "expected_time" then a.expectedTime
    else a.createdAt
  }

  /** The comparator handed to `sort`, one case per `sortBy`: negative when `a` goes first. */
  function Comparator(sortBy: string, a: Activity, b: Activity): (c: int)
    ensures c == Key(sortBy, b) - Key(sortBy, a)
  {
    match sortBy
    case "urgency" => UrgencyRank(b.urgency) - UrgencyRank(a.urgency)
    case "progress" => ProgressValue(b.progress) - ProgressValue(a.progress)
    case "expected_time" => b.expectedTime - a.expectedTime
    case _ => b.createdAt - a.createdAt
  }

  /** The comparator puts `a` first exactly when its key is larger, and ties exactly equal keys. */
  lemma ComparatorOrdersByKey(sortBy: string, a: Activity, b: Activity)
    ensures Comparator(sortBy, a, b) < 0 <==> Key(sortBy, a) > Key(sortBy, b)
    ensures Comparator(sortBy, a, b) == 0 <==> Key(sortBy, a) == Key(sortBy, b)
  {
  }

  /** `Key` for one `sortBy`, as the function the sort is parametrised by. */
  function KeyOf(sortBy: string): Activity -> int { (a: Activity) => Key(sortBy, a) }

  /** Non-increasing in `key`. */
  ghost predicate Sorted(s: seq<Activity>, key: Activity -> int) {
    forall i, j :: 0 <= i < j < |s| ==> key(s[i]) >= key(s[j])
  }

  /** The entries of `s` whose key is `k`, in their order in `s`. */
  function WithKey(s: seq<Activity>, key: Activity -> int, k: int): seq<Activity> {
    if s == [] then []
    else (if key(s[0]) == k then [s[0]] else []) + WithKey(s[1..], key, k)
  }

  /** `a` placed before the first entry of `s` whose key is not larger. */
  function Insert(a: Activity, s: seq<Activity>, key: Activity -> int): seq<Activity> {
    if s == [] || key(a) >= key(s[0]) then [a] + s else [s[0]] + Insert(a, s[1..], key)
  }

  /** Inserting adds `a` and nothing else. */
  lemma {:induction false} InsertCount(a: Activity, s: seq<Activity>, key: Activity -> int)
    ensures multiset(Insert(a, s, key)) == multiset(s) + multiset{a}
  {
    if s != [] && key(a) < key(s[0]) {
      InsertCount(a, s[1..], key);
      assert s == [s[0]] + s[1..];
    }
  }

  lemma SortedTail(s: seq<Activity>, key: Activity -> int)
    requires s != [] && Sorted(s, key)
    ensures Sorted(s[1..], key)
    ensures forall x :: x in s[1..] ==> key(s[0]) >= key(x)
  {
    forall i, j | 0 <= i < j < |s[1..]| ensures key(s[1..][i]) >= key(s[1..][j]) {
      assert s[1..][i] == s[i + 1] && s[1..][j] == s[j + 1];
    }
    forall x | x in s[1..] ensures key(s[0]) >= key(x) {
      var j :| 0 <= j < |s[1..]| && s[1..][j] == x;
      assert s[j + 1] == x;
    }
  }

  lemma SortedCons(x: Activity, s: seq<Activity>, key: Activity -> int)
    requires Sorted(s, key)
    requires forall y :: y in s ==> key(x) >= key(y)
    ensures Sorted([x] + s, key)
  {
    var r := [x] + s;
    forall i, j | 0 <= i < j < |r| ensures key(r[i]) >= key(r[j]) {
      assert r[j] == s[j - 1];
      if i > 0 { assert r[i] == s[i - 1]; }
    }
  }

  lemma {:induction false} InsertSorted(a: Activity, s: seq<Activity>, key: Activity -> int)
    requires Sorted(s, key)
    ensures Sorted(Insert(a, s, key), key)
  {
    if s == [] {
    } else if key(a) >= key(s[0]) {
      SortedTail(s, key);
      SortedCons(a, s, key);
    } else {
      SortedTail(s, key);
      InsertSorted(a, s[1..], key);
      var rest := Insert(a, s[1..], key);
      InsertCount(a, s[1..], key);
      forall y | y in rest ensures key(s[0]) >= key(y) {
        assert y in multiset(rest);
      }
      SortedCons(s[0], rest, key);
    }
  }

  /** The entries of `s` in descending key order, ties in their order in `s`. */
  function Sort(s: seq<Activity>, key: Activity -> int): (r: seq<Activity>)
    ensures multiset(r) == multiset(s)
    ensures Sorted(r, key)
  {
    if s == [] then []
    else
      assert s == [s[0]] + s[1..];
      InsertSorted(s[0], Sort(s[1..], key), key);
      InsertCount(s[0], Sort(s[1..], key), key);
      Insert(s[0], Sort(s[1..], key), key)
  }

  lemma WithKeyCons(x: Activity, s: seq<Activity>, key: Activity -> int, k: int)
    ensures WithKey([x] + s, key, k) == (if key(x) == k then [x] else []) + WithKey(s, key, k)
  {
    assert ([x] + s)[0] == x && ([x] + s)[1..] == s;
  }

  /** Two sequences of which one is empty can be put in front of `rest` in either order. */
  lemma SwapEmpty<T>(p: seq<T>, q: seq<T>, rest: seq<T>)
    requires p == [] || q == []
    ensures p + (q + rest) == q + (p + rest)
  {
    if p == [] {
      assert p + (q + rest) == q + rest == q + (p + rest);
    } else {
      assert p + (q + rest) == p + rest == q + (p + rest);
    }
  }

  /** The step of `InsertStable` where `a` goes past the head `x`. */
  lemma InsertStableStep(a: Activity, x: Activity, t: seq<Activity>, key: Activity -> int, k: int)
    requires key(a) < key(x)
    requires WithKey(Insert(a, t, key), key, k) == (if key(a) == k then [a] else []) + WithKey(t, key, k)
    ensures WithKey(Insert(a, [x] + t, key), key, k) == (if key(a) == k then [a] else []) + WithKey([x] + t, key, k)
  {
    assert ([x] + t)[0] == x && ([x] + t)[1..] == t;
    assert Insert(a, [x] + t, key) == [x] + Insert(a, t, key);
    WithKeyCons(x, Insert(a, t, key), key, k);
    WithKeyCons(x, t, key, k);
    // the keys of `a` and `x` differ, so at most one of them has key `k`
    SwapEmpty(if key(x) == k then [x] else [], if key(a) == k then [a] else [], WithKey(t, key, k));
  }

  lemma {:induction false} InsertStable(a: Activity, s: seq<Activity>, key: Activity -> int, k: int)
    requires Sorted(s, key)
    ensures WithKey(Insert(a, s, key), key, k) == (if key(a) == k then [a] else []) + WithKey(s, key, k)
  {
    if s == [] || key(a) >= key(s[0]) {
      WithKeyCons(a, s, key, k);
    } else {
      SortedTail(s, key);
      InsertStable(a, s[1..], key, k);
      InsertStableStep(a, s[0], s[1..], key, k);
      assert [s[0]] + s[1..] == s;
    }
  }

  /** Sorting keeps the entries of each key in their original order. */
  lemma {:induction false} SortStable(s: seq<Activity>, key: Activity -> int, k: int)
    ensures WithKey(Sort(s, key), key, k) == WithKey(s, key, k)
  {
    if s != [] {
      SortStable(s[1..], key, k);
      InsertStable(s[0], Sort(s[1..], key), key, k);
    }
  }

  lemma {:induction false} WithKeyMember(s: seq<Activity>, key: Activity -> int, k: int, x: Activity)
    requires x in WithKey(s, key, k)
    ensures x in s && key(x) == k
  {
    if s != [] && x in WithKey(s[1..], key, k) {
      WithKeyMember(s[1..], key, k, x);
    }
  }

  lemma WithKeyHead(r: seq<Activity>, key: Activity -> int)
    ensures r != [] ==> WithKey(r, key, key(r[0])) != []
  {
  }

  /**
   * A descending order with ties kept in a given order is unique: two sorted
   * sequences that agree on the entries of every key are equal. So any stable
   * sort with this comparator, the engine's included, gives the view `Sort` gives.
   */
  lemma {:induction false} SortedStableUnique(r1: seq<Activity>, r2: seq<Activity>, key: Activity -> int)
    requires Sorted(r1, key) && Sorted(r2, key)
    requires forall k :: WithKey(r1, key, k) == WithKey(r2, key, k)
    ensures r1 == r2
    decreases |r1| + |r2|
  {
    if r1 == [] && r2 == [] {
    } else if r1 == [] || r2 == [] {
      // the key of the one head present has entries on one side only
      WithKeyHead(r1, key);
      WithKeyHead(r2, key);
      assert false;
    } else {
      var k1, k2 := key(r1[0]), key(r2[0]);
      WithKeyMember(r2, key, k1, WithKey(r2, key, k1)[0]);
      WithKeyMember(r1, key, k2, WithKey(r1, key, k2)[0]);
      assert k1 == k2;
      assert r1[0] == WithKey(r1, key, k1)[0] == WithKey(r2, key, k1)[0] == r2[0];
      SortedTail(r1, key);
      SortedTail(r2, key);
      forall k ensures WithKey(r1[1..], key, k) == WithKey(r2[1..], key, k) {
        var head := if key(r1[0]) == k then [r1[0]] else [];
        assert WithKey(r1, key, k) == head + WithKey(r1[1..], key, k);
        assert WithKey(r2, key, k) == head + WithKey(r2[1..], key, k);
        assert WithKey(r1[1..], key, k) == WithKey(r1, key, k)[|head|..];
        assert WithKey(r2[1..], key, k) == WithKey(r2, key, k)[|head|..];
      }
      SortedStableUnique(r1[1..], r2[1..], key);
    }
  }

  function UrgencyIs(u: string): Activity -> bool { (a: Activity) => a.urgency == u }

  function AssignedIs(b: bool): Activity -> bool { (a: Activity) => a.isAssigned == b }

  /** Whether `a` passes both the urgency and the assignment criteria of `f`. */
  predicate Passes(f: Filters, a: Activity)
    ensures f.urgency == "" && f.assignment == "" ==> Passes(f, a)
    ensures Passes(f, a) && f.urgency != "" ==> a.urgency == f.urgency
    ensures Passes(f, a) && f.assignment == "true" ==> a.isAssigned
    ensures Passes(f, a) && f.assignment != "" && f.assignment != "true" ==> !a.isAssigned
  {
    && (f.urgency == "" || a.urgency == f.urgency)
    && (f.assignment == "" || a.isAssigned == (f.assignment == "true"))
  }

  function PassesFilters(f: Filters): Activity -> bool { (a: Activity) => Passes(f, a) }

  /** The mirror's entries that pass `f`, in mirror order: the view before sorting. */
  function Selected(mirror: seq<Activity>, f: Filters): seq<Activity> {
    Mirror.Filter(mirror, PassesFilters(f))
  }

  /** The urgency filter then the assignment filter, each applied only when its criterion is set. */
  function TwoFilters(mirror: seq<Activity>, f: Filters): (r: seq<Activity>)
    ensures r == Selected(mirror, f)
  {
    var byUrgency := if f.urgency != "" then Mirror.Filter(mirror, UrgencyIs(f.urgency)) else mirror;
    var byAssigned :=
      if f.assignment != "" then Mirror.Filter(byUrgency, AssignedIs(f.assignment == "true")) else byUrgency;
    if f.urgency != "" && f.assignment != "" then
      Mirror.FilterTwice(mirror, UrgencyIs(f.urgency), AssignedIs(f.assignment == "true"), PassesFilters(f));
      byAssigned
    else if f.urgency != "" then
      Mirror.FilterAgree(mirror, UrgencyIs(f.urgency), PassesFilters(f));
      byAssigned
    else if f.assignment != "" then
      Mirror.FilterAgree(mirror, AssignedIs(f.assignment == "true"), PassesFilters(f));
      byAssigned
    else
      Mirror.FilterKeepsAll(mirror, PassesFilters(f));
      byAssigned
  }

  /**
   * The `filteredActivities` view: the mirror's entries that pass both
   * criteria, each as often as it occurs in the mirror, in descending order
   * of the `sortBy` key, entries with equal keys in mirror order.
   */
  function FilteredActivities(mirror: seq<Activity>, f: Filters): (r: seq<Activity>)
    ensures forall a :: multiset(r)[a] == if Passes(f, a) then multiset(mirror)[a] else 0
    ensures forall a :: a in r <==> a in mirror && Passes(f, a)
    ensures Sorted(r, KeyOf(f.sortBy))
    ensures forall k :: WithKey(r, KeyOf(f.sortBy), k) == WithKey(Selected(mirror, f), KeyOf(f.sortBy), k)
  {
    var selected := TwoFilters(mirror, f);
    Mirror.FilterCount(mirror, PassesFilters(f));
    var r := Sort(selected, KeyOf(f.sortBy));
    assert forall k :: WithKey(r, KeyOf(f.sortBy), k) == WithKey(selected, KeyOf(f.sortBy), k) by {
      forall k ensures WithKey(r, KeyOf(f.sortBy), k) == WithKey(selected, KeyOf(f.sortBy), k) {
        SortStable(selected, KeyOf(f.sortBy), k);
      }
    }
    assert forall a :: a in r <==> a in multiset(selected);
    r
  }

  /**
   * The view is the only sequence that is sorted and keeps, for every key,
   * the selected entries of that key in mirror order.
   */
  lemma FilteredActivitiesUnique(mirror: seq<Activity>, f: Filters, r: seq<Activity>)
    requires Sorted(r, KeyOf(f.sortBy))
    requires forall k :: WithKey(r, KeyOf(f.sortBy), k) == WithKey(Selected(mirror, f), KeyOf(f.sortBy), k)
    ensures r == FilteredActivities(mirror, f)
  {
    SortedStableUnique(r, FilteredActivities(mirror, f), KeyOf(f.sortBy));
  }

  /** With neither criterion set, the view holds the whole mirror. */
  lemma NoCriteriaKeepsAll(mirror: seq<Activity>, f: Filters)
    requires f.urgency == "" && f.assignment == ""
    ensures multiset(FilteredActivities(mirror, f)) == multiset(mirror)
  {
    var r := FilteredActivities(mirror, f);
    assert forall a :: multiset(r)[a] == multiset(mirror)[a];
  }

  /** Sorting by urgency puts High before Medium before Low. */
  lemma UrgencyOrder(mirror: seq<Activity>, f: Filters)
    requires f.sortBy == "urgency"
    ensures var r := FilteredActivities(mirror, f);
      forall i, j :: 0 <= i < j < |r| ==> UrgencyRank(r[i].urgency) >= UrgencyRank(r[j].urgency)
  {
  }

  /** Sorting by progress or expected time is by that number, largest first. */
  lemma NumericOrder(mirror: seq<Activity>, f: Filters)
    ensures var r := FilteredActivities(mirror, f);
      && (f.sortBy == "progress" ==>
            forall i, j :: 0 <= i < j < |r| ==> ProgressValue(r[i].progress) >= ProgressValue(r[j].progress))
      && (f.sortBy == "expected_time" ==>
            forall i, j :: 0 <= i < j < |r| ==> r[i].expectedTime >= r[j].expectedTime)
  {
  }

  /** Any other `sortBy`, the initial "created_at" among them, puts the most recent first. */
  lemma RecencyOrder(mirror: seq<Activity>, f: Filters)
    requires f.sortBy != "urgency" && f.sortBy != "progress" && f.sortBy != "expected_time"
    ensures var r := FilteredActivities(mirror, f);
      forall i, j :: 0 <= i < j < |r| ==> r[i].createdAt >= r[j].createdAt
  {
  }

  /** An entry at High urgency and 50% progress, and one at Low urgency and 90%. */
  ghost predicate ExamplePair(high: Activity, low: Activity) {
    high.urgency == "High" && high.progress == "50" && low.urgency == "Low" && low.progress == "90"
  }

  /** Two entries whose keys differ, larger key first, are sorted and hold each key's entries as in either order. */
  lemma PairOrder(x: Activity, y: Activity, key: Activity -> int)
    requires key(x) > key(y)
    ensures Sorted([x, y], key)
    ensures forall k :: WithKey([x, y], key, k) == WithKey([y, x], key, k)
  {
    forall k ensures WithKey([x, y], key, k) == WithKey([y, x], key, k) {
      assert [x, y] == [x] + [y] && [y, x] == [y] + [x];
      WithKeyCons(x, [y], key, k);
      WithKeyCons(y, [x], key, k);
      WithKeyCons(x, [], key, k);
      WithKeyCons(y, [], key, k);
    }
  }

  /** A mirror of entries that all pass is its own selection. */
  lemma SelectedAll(mirror: seq<Activity>, f: Filters)
    requires forall i :: 0 <= i < |mirror| ==> Passes(f, mirror[i])
    ensures Selected(mirror, f) == mirror
  {
    Mirror.FilterKeepsAll(mirror, PassesFilters(f));
  }

  /** Two passing entries with different keys are viewed larger key first, whatever their mirror order. */
  lemma PairView(x: Activity, y: Activity, f: Filters, mirror: seq<Activity>)
    requires Passes(f, x) && Passes(f, y) && Key(f.sortBy, x) > Key(f.sortBy, y)
    requires mirror == [x, y] || mirror == [y, x]
    ensures FilteredActivities(mirror, f) == [x, y]
  {
    var key := KeyOf(f.sortBy);
    SelectedAll(mirror, f);
    PairOrder(x, y, key);
    assert forall k :: WithKey([x, y], key, k) == WithKey(mirror, key, k);
    FilteredActivitiesUnique(mirror, f, [x, y]);
  }

  /** Sorted by urgency, the High entry leads. */
  lemma ExampleByUrgency(high: Activity, low: Activity, f: Filters)
    requires ExamplePair(high, low) && f == Filters("", "", "urgency")
    ensures FilteredActivities([high, low], f) == [high, low]
  {
    assert Key(f.sortBy, high) == 3 && Key(f.sortBy, low) == 1;
    PairView(high, low, f, [high, low]);
  }

  lemma ExampleProgressKeys(high: Activity, low: Activity)
    requires ExamplePair(high, low)
    ensures Key("progress", high) == 50 && Key("progress", low) == 90
  {
    assert LeadingDigits("50") == "50" && DigitsValue("50") == 50;
    assert LeadingDigits("90") == "90" && DigitsValue("90") == 90;
  }

  /** Sorted by progress, the 90% entry leads. */
  lemma ExampleByProgress(high: Activity, low: Activity, f: Filters)
    requires ExamplePair(high, low) && f == Filters("", "", "progress")
    ensures FilteredActivities([high, low], f) == [low, high]
  {
    ExampleProgressKeys(high, low);
    PairView(low, high, f, [high, low]);
  }

  // ---------------------------------------------------------------------
  // The store

  class ActivityStore {
    var activities: seq<Activity>
    var loading: bool
    var filters: Filters

    constructor ()
      ensures activities == [] && !loading && filters == InitialFilters
    {
      activities := [];
      loading := false;
      filters := InitialFilters;
    }

    /** The derived view, recomputed from the mirror and the criteria on every read. */
    function Filtered(): (r: seq<Activity>)
      reads this
      ensures forall a :: multiset(r)[a] == if Passes(filters, a) then multiset(activities)[a] else 0
      ensures forall a :: a in r <==> a in activities && Passes(filters, a)
      ensures Sorted(r, KeyOf(filters.sortBy))
      ensures forall k :: WithKey(r, KeyOf(filters.sortBy), k) == WithKey(Selected(activities, filters), KeyOf(filters.sortBy), k)
    {
      FilteredActivities(activities, filters)
    }

    /** Replaces the mirror with the fetched rows; on an error keeps it and rethrows. */
    method FetchActivities(response: Response<Option<seq<Activity>>>) returns (r: Result<()>)
      modifies this
      ensures !loading && filters == old(filters)
      ensures response.Ok? ==> r == Success(()) && activities == RowsOrEmpty(response.data)
      ensures response.Failed? ==> r == Failure(Remote(response.error)) && activities == old(activities)
    {
      loading := true;
      match response {
      case Ok(data) =>
        activities := RowsOrEmpty(data);
        r := Success(());
      case Failed(e) =>
        r := Failure(Remote(e));
      }
      loading := false;
    }

    /** Submits `Payload(input)` as `sent` and prepends the row the server returns. */
    method CreateActivity(input: ActivityInput, response: Response<Option<seq<Activity>>>)
      returns (sent: ActivityPayload, r: Result<Option<Activity>>)
      modifies this
      ensures sent == Payload(input)
      ensures !loading && filters == old(filters)
      ensures response.Failed? ==> r == Failure(Remote(response.error))
      ensures response.Ok? ==> r == FirstRow(response.data)
      ensures activities == if r.Success? && r.value.Some? then [r.value.value] + old(activities) else old(activities)
    {
      loading := true;
      sent := Payload(input);
      match response {
      case Failed(e) =>
        r := Failure(Remote(e));
      case Ok(data) =>
        if data.Some? && data.value != [] {
          activities := [data.value[0]] + activities;
        }
        r := FirstRow(data);
      }
      loading := false;
    }

    /** Submits `Payload(input)` for `id` and puts the server's row in place of the first entry with that id. */
    method UpdateActivity(id: int, input: ActivityInput, response: Response<Option<seq<Activity>>>)
      returns (sent: ActivityPayload, r: Result<Option<Activity>>)
      modifies this
      ensures sent == Payload(input)
      ensures !loading && filters == old(filters)
      ensures response.Failed? ==> r == Failure(Remote(response.error))
      ensures response.Ok? ==> r == FirstRow(response.data)
      ensures activities == if r.Success? && r.value.Some?
                            then Mirror.ReplaceFirst(old(activities), ActivityId, id, r.value.value)
                            else old(activities)
    {
      loading := true;
      sent := Payload(input);
      match response {
      case Failed(e) =>
        r := Failure(Remote(e));
      case Ok(data) =>
        var index := Mirror.FindIndex(activities, ActivityId, id);
        if index != -1 && data.Some? && data.value != [] {
          activities := activities[index := data.value[0]];
        }
        r := FirstRow(data);
      }
      loading := false;
    }

    /** Removes every entry with `id` once the server confirms the delete. */
    method DeleteActivity(id: int, response: Response<()>) returns (r: Result<()>)
      modifies this
      ensures !loading && filters == old(filters)
      ensures response.Ok? ==> r == Success(()) && activities == Mirror.RemoveId(old(activities), ActivityId, id)
      ensures response.Failed? ==> r == Failure(Remote(response.error)) && activities == old(activities)
    {
      loading := true;
      match response {
      case Ok(_) =>
        activities := Mirror.RemoveId(activities, ActivityId, id);
        r := Success(());
      case Failed(e) =>
        r := Failure(Remote(e));
      }
      loading := false;
    }

    /** Merges the supplied criteria into the current ones. */
    method SetFilters(patch: FilterPatch)
      modifies this
      ensures filters == Merge(old(filters), patch)
      ensures activities == old(activities) && loading == old(loading)
    {
      filters := Merge(filters, patch);
    }
  }
}
