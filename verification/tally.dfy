/**
 * The accumulations the admin pages build their charts from: a record keyed by
 * a string into which every element adds its value (`if (!acc[k]) acc[k] = 0;
 * acc[k] += v`), read back with `Object.entries`, and the twelve-slot monthly
 * arrays filled in a `forEach` loop.
 */
module Tally {
  import opened Seqs
  import opened Types

  /** One `[key, value]` pair of `Object.entries`, or one `{ name, value }` chart point. */
  datatype Entry = Entry(name: string, value: int)

  function EntryName(e: Entry): string { e.name }

  function EntryValue(e: Entry): int { e.value }

  /** The elements filed under `k`. */
  function HasKey<T>(key: T -> string, k: string): T -> bool {
    x => key(x) == k
  }

  /** What the record holds under `k` after every element was added: the sum of the values
      of the elements filed under `k`. */
  function KeyTotal<T>(s: seq<T>, key: T -> string, val: T -> int, k: string): int {
    Sum(Filter(s, HasKey(key, k)), val)
  }

  /** The reference reading of the record: the keys in order of first appearance, each with
      its total. */
  function Grouped<T>(s: seq<T>, key: T -> string, val: T -> int): (r: seq<Entry>)
    ensures |r| == |Distinct(Map(s, key))|
    ensures forall j :: 0 <= j < |r| ==> r[j].name == Distinct(Map(s, key))[j]
    ensures forall j :: 0 <= j < |r| ==> r[j].value == KeyTotal(s, key, val, r[j].name)
  {
    Map(Distinct(Map(s, key)), (k: string) => Entry(k, KeyTotal(s, key, val, k)))
  }

  /** The keys of a list of entries. */
  function Names(entries: seq<Entry>): seq<string> {
    Map(entries, EntryName)
  }

  /** The entries after the loop has added up `s[..i]`: the keys met so far, each once in
      order of first appearance, with their totals. */
  predicate Accumulated<T>(s: seq<T>, i: nat, key: T -> string, val: T -> int, entries: seq<Entry>)
    requires i <= |s|
  {
    && Names(entries) == Distinct(Map(s[..i], key))
    && (forall j :: 0 <= j < |entries| ==> entries[j].value == KeyTotal(s[..i], key, val, entries[j].name))
    && Sum(entries, EntryValue) == Sum(s[..i], val)
  }

  function NameIs(k: string): Entry -> bool {
    (e: Entry) => e.name == k
  }

  /** One turn of the loop body: an absent key is first set to 0, then the value is added to
      the key's entry. */
  function AddTo(entries: seq<Entry>, k: string, v: int): (r: seq<Entry>)
    ensures |r| == if FirstIndex(entries, NameIs(k)) < 0 then |entries| + 1 else |entries|
  {
    var idx := FirstIndex(entries, NameIs(k));
    var e := if idx < 0 then entries + [Entry(k, 0)] else entries;
    var j := if idx < 0 then |entries| else idx;
    e[j := Entry(k, e[j].value + v)]
  }

  /** The loop `s.forEach(x => { if (!acc[key(x)]) acc[key(x)] = 0; acc[key(x)] += val(x); })`
      followed by `Object.entries(acc)`. A key is found by its first entry; an absent key is
      appended with 0 (resetting a present key whose total is 0 to 0 changes nothing). The
      result is the reference reading, and its values add up to the sum over all elements. */
  method Accumulate<T>(s: seq<T>, key: T -> string, val: T -> int) returns (entries: seq<Entry>)
    ensures entries == Grouped(s, key, val)
    ensures Sum(entries, EntryValue) == Sum(s, val)
  {
    entries := [];
    var i := 0;
    while i < |s|
      invariant 0 <= i <= |s|
      invariant Accumulated(s, i, key, val, entries)
    {
      AccumulateStep(s, i, key, val, entries);
      entries := AddTo(entries, key(s[i]), val(s[i]));
      i := i + 1;
    }
    assert s[..i] == s;
    AccumulatedIsGrouped(s, key, val, entries);
  }

  /** After the whole sequence the loop's entries are the reference reading. */
  lemma AccumulatedIsGrouped<T>(s: seq<T>, key: T -> string, val: T -> int, entries: seq<Entry>)
    requires Accumulated(s, |s|, key, val, entries)
    ensures entries == Grouped(s, key, val)
  {
    assert s[..|s|] == s;
    var g := Grouped(s, key, val);
    assert |entries| == |Names(entries)|;
    forall j | 0 <= j < |entries| ensures entries[j] == g[j] {
      assert Names(entries)[j] == entries[j].name;
    }
  }

  /** A key no element of `s` is filed under has the total 0. */
  lemma AbsentKeyTotal<T>(s: seq<T>, key: T -> string, val: T -> int, k: string)
    requires k !in Distinct(Map(s, key))
    ensures KeyTotal(s, key, val, k) == 0
  {
    forall j | 0 <= j < |s| ensures key(s[j]) != k {
      assert Map(s, key)[j] == key(s[j]);
    }
    FilterKeepsNone(s, HasKey(key, k));
  }

  /** The loop body keeps the entries accumulated. */
  lemma AccumulateStep<T>(s: seq<T>, i: nat, key: T -> string, val: T -> int, entries: seq<Entry>)
    requires i < |s| && Accumulated(s, i, key, val, entries)
    ensures Accumulated(s, i + 1, key, val, AddTo(entries, key(s[i]), val(s[i])))
  {
    var k := key(s[i]);
    StepNames(s, i, key, entries);
    UniqueNames(entries);
    if FirstIndex(entries, NameIs(k)) < 0 {
      FoundIffNamed(entries, k);
      AbsentKeyTotal(s[..i], key, val, k);
    }
    StepValues(s, i, key, val, entries);
    StepSum(s, i, key, val, entries);
  }

  /** Distinct keys mean no two entries share a name. */
  lemma UniqueNames(entries: seq<Entry>)
    requires forall a, b :: 0 <= a < b < |Names(entries)| ==> Names(entries)[a] != Names(entries)[b]
    ensures forall a, b :: 0 <= a < b < |entries| ==> entries[a].name != entries[b].name
  {
    var names := Names(entries);
    assert forall a :: 0 <= a < |entries| ==> names[a] == entries[a].name;
  }

  /** Where the body puts the value: in the key's entry, appended if there was none. */
  lemma AddToShape(entries: seq<Entry>, k: string, v: int)
    ensures var idx := FirstIndex(entries, NameIs(k));
            && (idx < 0 ==> AddTo(entries, k, v) == entries + [Entry(k, v)])
            && (idx >= 0 ==> AddTo(entries, k, v) == entries[idx := Entry(k, entries[idx].value + v)])
  {
  }

  /** An entry is found by its name exactly when the name is among the keys. */
  lemma FoundIffNamed(entries: seq<Entry>, k: string)
    ensures FirstIndex(entries, NameIs(k)) >= 0 <==> k in Names(entries)
  {
    var names := Names(entries);
    if k in names {
      var j :| 0 <= j < |names| && names[j] == k;
      assert NameIs(k)(entries[j]);
    } else {
      forall j | 0 <= j < |entries| ensures !NameIs(k)(entries[j]) {
        assert names[j] == entries[j].name;
      }
    }
  }

  lemma StepNames<T>(s: seq<T>, i: nat, key: T -> string, entries: seq<Entry>)
    requires i < |s| && Names(entries) == Distinct(Map(s[..i], key))
    ensures forall v :: Names(AddTo(entries, key(s[i]), v)) == Distinct(Map(s[..i + 1], key))
  {
    PrefixDistinct(s, i, key);
    forall v ensures Names(AddTo(entries, key(s[i]), v)) == Distinct(Map(s[..i + 1], key)) {
      AddToNames(entries, key(s[i]), v);
    }
  }

  /** The body adds the key to the names when it is new and keeps them otherwise. */
  lemma AddToNames(entries: seq<Entry>, k: string, v: int)
    ensures Names(AddTo(entries, k, v)) == if k in Names(entries) then Names(entries) else Names(entries) + [k]
  {
    FoundIffNamed(entries, k);
    AddToShape(entries, k, v);
    var idx := FirstIndex(entries, NameIs(k));
    if idx < 0 {
      assert Names(entries + [Entry(k, v)]) == Names(entries) + [k];
    } else {
      assert Names(entries[idx := Entry(k, entries[idx].value + v)]) == Names(entries);
    }
  }

  lemma StepValues<T>(s: seq<T>, i: nat, key: T -> string, val: T -> int, entries: seq<Entry>)
    requires i < |s|
    requires forall j :: 0 <= j < |entries| ==> entries[j].value == KeyTotal(s[..i], key, val, entries[j].name)
    requires forall a, b :: 0 <= a < b < |entries| ==> entries[a].name != entries[b].name
    requires FirstIndex(entries, NameIs(key(s[i]))) < 0 ==> KeyTotal(s[..i], key, val, key(s[i])) == 0
    ensures var r := AddTo(entries, key(s[i]), val(s[i]));
            forall j :: 0 <= j < |r| ==> r[j].value == KeyTotal(s[..i + 1], key, val, r[j].name)
  {
    var k := key(s[i]);
    var v := val(s[i]);
    var r := AddTo(entries, k, v);
    AddToShape(entries, k, v);
    forall j | 0 <= j < |r| ensures r[j].value == KeyTotal(s[..i + 1], key, val, r[j].name) {
      PrefixKeyTotal(s, i, key, val, r[j].name);
    }
  }

  lemma StepSum<T>(s: seq<T>, i: nat, key: T -> string, val: T -> int, entries: seq<Entry>)
    requires i < |s| && Sum(entries, EntryValue) == Sum(s[..i], val)
    ensures Sum(AddTo(entries, key(s[i]), val(s[i])), EntryValue) == Sum(s[..i + 1], val)
  {
    var k := key(s[i]);
    var v := val(s[i]);
    var idx := FirstIndex(entries, NameIs(k));
    AddToShape(entries, k, v);
    assert s[..i + 1] == s[..i] + [s[i]];
    SumAppend(s[..i], [s[i]], val);
    if idx < 0 {
      SumAppend(entries, [Entry(k, v)], EntryValue);
    } else {
      SumUpdate(entries, idx, Entry(k, entries[idx].value + v), EntryValue);
    }
  }

  /** The distinct keys grow by the new element's key when it is new. */
  lemma PrefixDistinct<T>(s: seq<T>, i: nat, key: T -> string)
    requires i < |s|
    ensures var d := Distinct(Map(s[..i], key));
            Distinct(Map(s[..i + 1], key)) == if key(s[i]) in d then d else d + [key(s[i])]
  {
    var m := Map(s[..i + 1], key);
    assert m[..|m| - 1] == Map(s[..i], key);
  }

  /** Only the new element's key has its total changed, by the new element's value. */
  lemma PrefixKeyTotal<T>(s: seq<T>, i: nat, key: T -> string, val: T -> int, k: string)
    requires i < |s|
    ensures KeyTotal(s[..i + 1], key, val, k)
            == KeyTotal(s[..i], key, val, k) + (if key(s[i]) == k then val(s[i]) else 0)
  {
    assert s[..i + 1] == s[..i] + [s[i]];
    FilterSumSnoc(s[..i], s[i], HasKey(key, k), val);
  }

  /** Every key that occurs has exactly one entry. */
  lemma GroupedKeysOnce<T>(s: seq<T>, key: T -> string, val: T -> int)
    ensures forall i :: 0 <= i < |s| ==> key(s[i]) in Names(Grouped(s, key, val))
    ensures forall i, j :: 0 <= i < j < |Grouped(s, key, val)| ==>
              Grouped(s, key, val)[i].name != Grouped(s, key, val)[j].name
  {
    var g := Grouped(s, key, val);
    var d := Distinct(Map(s, key));
    assert Names(g) == d;
    forall i | 0 <= i < |s| ensures key(s[i]) in Names(g) {
      assert Map(s, key)[i] == key(s[i]);
    }
  }

  /** The entries the loop holds after `s[..i]`, built turn by turn as the loop builds them. */
  lemma {:induction false} AccumulatedUpTo<T>(s: seq<T>, i: nat, key: T -> string, val: T -> int)
    returns (entries: seq<Entry>)
    requires i <= |s|
    ensures Accumulated(s, i, key, val, entries)
    decreases i
  {
    if i == 0 {
      assert s[..0] == [];
      entries := [];
    } else {
      var before := AccumulatedUpTo(s, i - 1, key, val);
      AccumulateStep(s, i - 1, key, val, before);
      entries := AddTo(before, key(s[i - 1]), val(s[i - 1]));
    }
  }

  /** The totals of the reference reading add up to the sum of all values: every value is
      counted under exactly one key. */
  lemma GroupedSum<T>(s: seq<T>, key: T -> string, val: T -> int)
    ensures Sum(Grouped(s, key, val), EntryValue) == Sum(s, val)
  {
    var entries := AccumulatedUpTo(s, |s|, key, val);
    AccumulatedIsGrouped(s, key, val, entries);
    assert s[..|s|] == s;
  }

  /** Renaming entries keeps their values and so their sum. */
  lemma {:induction false} RenamedSum(entries: seq<Entry>, rename: Entry -> Entry)
    requires forall e :: rename(e).value == e.value
    ensures Sum(Map(entries, rename), EntryValue) == Sum(entries, EntryValue)
    decreases |entries|
  {
    if |entries| > 0 {
      RenamedSum(entries[1..], rename);
      assert Map(entries, rename)[1..] == Map(entries[1..], rename);
    }
  }

  /** However its entries are renamed and reordered, the reference reading has one entry per
      key: as many entries as keys, an entry for the key of every element, and nothing else. */
  lemma RenamedGroupedMembers<T>(s: seq<T>, key: T -> string, val: T -> int, rename: Entry -> Entry,
                                 r: seq<Entry>)
    requires multiset(r) == multiset(Map(Grouped(s, key, val), rename))
    ensures |r| == |Distinct(Map(s, key))|
    ensures forall i :: 0 <= i < |s| ==> rename(Entry(key(s[i]), KeyTotal(s, key, val, key(s[i])))) in r
    ensures forall j :: 0 <= j < |r| ==>
              exists k :: k in Distinct(Map(s, key)) && r[j] == rename(Entry(k, KeyTotal(s, key, val, k)))
  {
    var named := Map(Grouped(s, key, val), rename);
    assert |r| == |named| by {
      assert |multiset(r)| == |r| && |multiset(named)| == |named|;
    }
    forall i | 0 <= i < |s| ensures rename(Entry(key(s[i]), KeyTotal(s, key, val, key(s[i])))) in r {
      var e := rename(Entry(key(s[i]), KeyTotal(s, key, val, key(s[i]))));
      KeyHasEntry(s, key, val, rename, i);
      assert e in multiset(named);
    }
    forall j | 0 <= j < |r| ensures exists k :: k in Distinct(Map(s, key)) && r[j] == rename(Entry(k, KeyTotal(s, key, val, k))) {
      assert r[j] in multiset(r);
      EntryHasKey(s, key, val, rename, r[j]);
    }
  }

  /** The key of element `i` has its entry among the renamed ones. */
  lemma KeyHasEntry<T>(s: seq<T>, key: T -> string, val: T -> int, rename: Entry -> Entry, i: nat)
    requires i < |s|
    ensures rename(Entry(key(s[i]), KeyTotal(s, key, val, key(s[i])))) in Map(Grouped(s, key, val), rename)
  {
    var d := Distinct(Map(s, key));
    assert Map(s, key)[i] == key(s[i]);
    assert key(s[i]) in d;
    var x :| 0 <= x < |d| && d[x] == key(s[i]);
    assert Map(Grouped(s, key, val), rename)[x] == rename(Entry(key(s[i]), KeyTotal(s, key, val, key(s[i]))));
  }

  /** Every renamed entry is the renamed entry of some key. */
  lemma EntryHasKey<T>(s: seq<T>, key: T -> string, val: T -> int, rename: Entry -> Entry, e: Entry)
    requires e in Map(Grouped(s, key, val), rename)
    ensures exists k :: k in Distinct(Map(s, key)) && e == rename(Entry(k, KeyTotal(s, key, val, k)))
  {
    var named := Map(Grouped(s, key, val), rename);
    var x :| 0 <= x < |named| && named[x] == e;
    var d := Distinct(Map(s, key));
    assert d[x] in d && e == rename(Entry(d[x], KeyTotal(s, key, val, d[x])));
  }

  /** Every element counts one. */
  function One<T>(x: T): int { 1 }

  /** Adding one per element counts the elements. */
  lemma {:induction false} SumOfOnes<T>(s: seq<T>)
    ensures Sum(s, One) == |s|
    decreases |s|
  {
    if |s| > 0 {
      SumOfOnes(s[1..]);
    }
  }

  /** `names.map((name, index) => ({ name, value: values[index] }))`: the chart points. */
  function Labelled(names: seq<string>, values: seq<int>): (r: seq<Entry>)
    requires |names| == |values|
    ensures |r| == |names|
    ensures forall i :: 0 <= i < |r| ==> r[i] == Entry(names[i], values[i])
    ensures Sum(r, EntryValue) == Sum(values, Itself)
    decreases |names|
  {
    if |names| == 0 then []
    else [Entry(names[0], values[0])] + Labelled(names[1..], values[1..])
  }

  // ---------------------------------------------------------------- monthly arrays

  /** Created in month `m` (0 for January) of `year`, on the calendar that `yearOf` and
      `monthOf` read instants by. */
  function InMonth(year: int, yearOf: Instant -> int, monthOf: Instant -> int, m: int): Booking -> bool {
    (b: Booking) => yearOf(b.createdAt) == year && monthOf(b.createdAt) == m
  }

  /** Created in `year`. */
  function InYear(year: int, yearOf: Instant -> int): Booking -> bool {
    (b: Booking) => yearOf(b.createdAt) == year
  }

  function TotalAmount(b: Booking): int { b.totalAmount }

  function Itself(x: int): int { x }

  /** The twelve slots after the loop has gone over `bookings`: each booking created in
      `year` adds one to the count of its month. */
  function MonthCounts(bookings: seq<Booking>, year: int, yearOf: Instant -> int, monthOf: Instant -> int)
    : (r: seq<int>)
    requires forall t :: 0 <= monthOf(t) < 12
    ensures |r| == 12
    decreases |bookings|
  {
    if |bookings| == 0 then seq(12, _ => 0)
    else
      var r := MonthCounts(bookings[..|bookings| - 1], year, yearOf, monthOf);
      var b := bookings[|bookings| - 1];
      if yearOf(b.createdAt) == year then r[monthOf(b.createdAt) := r[monthOf(b.createdAt)] + 1] else r
  }

  /** The twelve slots after the loop has gone over `bookings`: each booking created in
      `year` adds its amount to the revenue of its month, whatever its payment status. */
  function MonthRevenue(bookings: seq<Booking>, year: int, yearOf: Instant -> int, monthOf: Instant -> int)
    : (r: seq<int>)
    requires forall t :: 0 <= monthOf(t) < 12
    ensures |r| == 12
    decreases |bookings|
  {
    if |bookings| == 0 then seq(12, _ => 0)
    else
      var r := MonthRevenue(bookings[..|bookings| - 1], year, yearOf, monthOf);
      var b := bookings[|bookings| - 1];
      if yearOf(b.createdAt) == year then r[monthOf(b.createdAt) := r[monthOf(b.createdAt)] + b.totalAmount] else r
  }

  /** The loop over the bookings that fills `monthlyCounts` and `monthlyRevenue`. Slot `m`
      holds the number of bookings created in month `m` of `year` and the sum of their
      amounts; bookings from other years are skipped. */
  method MonthlyTotals(bookings: seq<Booking>, year: int, yearOf: Instant -> int, monthOf: Instant -> int)
    returns (counts: seq<int>, revenue: seq<int>)
    requires forall t :: 0 <= monthOf(t) < 12
    ensures counts == MonthCounts(bookings, year, yearOf, monthOf)
    ensures revenue == MonthRevenue(bookings, year, yearOf, monthOf)
    ensures forall m :: 0 <= m < 12 ==> counts[m] == Count(bookings, InMonth(year, yearOf, monthOf, m))
    ensures forall m :: 0 <= m < 12 ==>
              revenue[m] == Sum(Filter(bookings, InMonth(year, yearOf, monthOf, m)), TotalAmount)
  {
    var monthlyCounts: seq<int> := seq(12, _ => 0);
    var monthlyRevenue: seq<int> := seq(12, _ => 0);
    assert bookings[..0] == [];
    var i := 0;
    while i < |bookings|
      invariant 0 <= i <= |bookings|
      invariant monthlyCounts == MonthCounts(bookings[..i], year, yearOf, monthOf)
      invariant monthlyRevenue == MonthRevenue(bookings[..i], year, yearOf, monthOf)
    {
      var booking := bookings[i];
      assert bookings[..i + 1][..i] == bookings[..i];
      if yearOf(booking.createdAt) == year {
        var month := monthOf(booking.createdAt);
        monthlyCounts := monthlyCounts[month := monthlyCounts[month] + 1];
        monthlyRevenue := monthlyRevenue[month := monthlyRevenue[month] + booking.totalAmount];
      }
      i := i + 1;
    }
    assert bookings[..i] == bookings;
    counts := monthlyCounts;
    revenue := monthlyRevenue;
    MonthsMeaning(bookings, year, yearOf, monthOf);
  }

  /** Slot `m` of the loop's result counts, and sums the amounts of, exactly the bookings
      created in month `m` of `year`. */
  lemma {:induction false} MonthsMeaning(bookings: seq<Booking>, year: int, yearOf: Instant -> int,
                                         monthOf: Instant -> int)
    requires forall t :: 0 <= monthOf(t) < 12
    ensures forall m :: 0 <= m < 12 ==>
              MonthCounts(bookings, year, yearOf, monthOf)[m] == Count(bookings, InMonth(year, yearOf, monthOf, m))
    ensures forall m :: 0 <= m < 12 ==>
              MonthRevenue(bookings, year, yearOf, monthOf)[m]
              == Sum(Filter(bookings, InMonth(year, yearOf, monthOf, m)), TotalAmount)
    decreases |bookings|
  {
    var n := |bookings|;
    if n > 0 {
      var init := bookings[..n - 1];
      var b := bookings[n - 1];
      assert bookings == init + [b];
      MonthsMeaning(init, year, yearOf, monthOf);
      forall m | 0 <= m < 12
        ensures MonthCounts(bookings, year, yearOf, monthOf)[m] == Count(bookings, InMonth(year, yearOf, monthOf, m))
        ensures MonthRevenue(bookings, year, yearOf, monthOf)[m]
                == Sum(Filter(bookings, InMonth(year, yearOf, monthOf, m)), TotalAmount)
      {
        MonthSlotSnoc(init, b, year, yearOf, monthOf, m);
        CountSnoc(init, b, InMonth(year, yearOf, monthOf, m));
        FilterSumSnoc(init, b, InMonth(year, yearOf, monthOf, m), TotalAmount);
      }
    }
  }

  /** A booking added at the end changes slot `m` only if it was created in month `m` of `year`. */
  lemma MonthSlotSnoc(init: seq<Booking>, b: Booking, year: int, yearOf: Instant -> int,
                      monthOf: Instant -> int, m: int)
    requires forall t :: 0 <= monthOf(t) < 12
    requires 0 <= m < 12
    ensures MonthCounts(init + [b], year, yearOf, monthOf)[m]
            == MonthCounts(init, year, yearOf, monthOf)[m] + (if InMonth(year, yearOf, monthOf, m)(b) then 1 else 0)
    ensures MonthRevenue(init + [b], year, yearOf, monthOf)[m]
            == MonthRevenue(init, year, yearOf, monthOf)[m]
               + (if InMonth(year, yearOf, monthOf, m)(b) then b.totalAmount else 0)
  {
    assert (init + [b])[..|init + [b]| - 1] == init;
  }

  /** A booking added at the end adds one to the counts of the year it was created in. */
  lemma MonthCountsSnoc(init: seq<Booking>, b: Booking, year: int, yearOf: Instant -> int, monthOf: Instant -> int)
    requires forall t :: 0 <= monthOf(t) < 12
    ensures Sum(MonthCounts(init + [b], year, yearOf, monthOf), Itself)
            == Sum(MonthCounts(init, year, yearOf, monthOf), Itself) + (if yearOf(b.createdAt) == year then 1 else 0)
  {
    var c := MonthCounts(init, year, yearOf, monthOf);
    assert (init + [b])[..|init + [b]| - 1] == init;
    if yearOf(b.createdAt) == year {
      SumUpdate(c, monthOf(b.createdAt), c[monthOf(b.createdAt)] + 1, Itself);
    }
  }

  /** A booking added at the end adds its amount to the revenue of the year it was created in. */
  lemma MonthRevenueSnoc(init: seq<Booking>, b: Booking, year: int, yearOf: Instant -> int, monthOf: Instant -> int)
    requires forall t :: 0 <= monthOf(t) < 12
    ensures Sum(MonthRevenue(init + [b], year, yearOf, monthOf), Itself)
            == Sum(MonthRevenue(init, year, yearOf, monthOf), Itself)
               + (if yearOf(b.createdAt) == year then b.totalAmount else 0)
  {
    var rv := MonthRevenue(init, year, yearOf, monthOf);
    assert (init + [b])[..|init + [b]| - 1] == init;
    if yearOf(b.createdAt) == year {
      SumUpdate(rv, monthOf(b.createdAt), rv[monthOf(b.createdAt)] + b.totalAmount, Itself);
    }
  }

  /** The twelve months of a year together hold exactly the bookings created in that year:
      the monthly counts add up to their number. */
  lemma {:induction false} MonthCountsCoverYear(bookings: seq<Booking>, year: int, yearOf: Instant -> int,
                                                monthOf: Instant -> int)
    requires forall t :: 0 <= monthOf(t) < 12
    ensures Sum(MonthCounts(bookings, year, yearOf, monthOf), Itself) == Count(bookings, InYear(year, yearOf))
    decreases |bookings|
  {
    var n := |bookings|;
    if n == 0 {
      SumBounds(MonthCounts(bookings, year, yearOf, monthOf), Itself, 0, 0);
    } else {
      var init := bookings[..n - 1];
      var b := bookings[n - 1];
      assert bookings == init + [b];
      MonthCountsCoverYear(init, year, yearOf, monthOf);
      MonthCountsSnoc(init, b, year, yearOf, monthOf);
      CountSnoc(init, b, InYear(year, yearOf));
    }
  }

  /** The monthly revenue of a year adds up to the amounts of the bookings created in it. */
  lemma {:induction false} MonthRevenueCoversYear(bookings: seq<Booking>, year: int, yearOf: Instant -> int,
                                                  monthOf: Instant -> int)
    requires forall t :: 0 <= monthOf(t) < 12
    ensures Sum(MonthRevenue(bookings, year, yearOf, monthOf), Itself)
            == Sum(Filter(bookings, InYear(year, yearOf)), TotalAmount)
    decreases |bookings|
  {
    var n := |bookings|;
    if n == 0 {
      SumBounds(MonthRevenue(bookings, year, yearOf, monthOf), Itself, 0, 0);
    } else {
      var init := bookings[..n - 1];
      var b := bookings[n - 1];
      assert bookings == init + [b];
      MonthRevenueCoversYear(init, year, yearOf, monthOf);
      MonthRevenueSnoc(init, b, year, yearOf, monthOf);
      FilterSumSnoc(init, b, InYear(year, yearOf), TotalAmount);
    }
  }

  // ---------------------------------------------------------------- monthly charts

  /** The full English month names. */
  const FullMonthNames: seq<string> := ["January", "February", "March", "April", "May", "June", "July",
                                         "August", "September", "October", "November", "December"]

  /** Each of twelve labels is the first three letters of its month's name. */
  predicate AbbreviatesMonths(labels: seq<string>) {
    |labels| == 12 && forall m :: 0 <= m < 12 ==> labels[m] == FullMonthNames[m][..3]
  }

  /** The charts' month labels. */
  const MonthNames: seq<string> := ["Jan", "Feb", "Mar", "Apr", "May", "Jun",
                                     "Jul", "Aug", "Sep", "Oct", "Nov", "Dec"]

  /** The labels are the months' abbreviations, January first. */
  lemma MonthNamesAbbreviate()
    ensures AbbreviatesMonths(MonthNames)
  {
  }

  /** The monthly bar charts: the monthly arrays over all bookings, labelled with the month
      names. Point `m` holds the bookings created in month `m` of `year` and their amounts,
      paid or not; the points add up to the year's bookings and amounts. */
  method MonthlyCharts(all: seq<Booking>, year: int, yearOf: Instant -> int, monthOf: Instant -> int)
    returns (bookingChart: seq<Entry>, revenueChart: seq<Entry>)
    requires forall t :: 0 <= monthOf(t) < 12
    ensures |bookingChart| == 12 && |revenueChart| == 12
    ensures forall m :: 0 <= m < 12 ==>
              bookingChart[m] == Entry(MonthNames[m], Count(all, InMonth(year, yearOf, monthOf, m)))
    ensures forall m :: 0 <= m < 12 ==>
              revenueChart[m] == Entry(MonthNames[m], Sum(Filter(all, InMonth(year, yearOf, monthOf, m)), TotalAmount))
    ensures Sum(bookingChart, EntryValue) == Count(all, InYear(year, yearOf))
    ensures Sum(revenueChart, EntryValue) == Sum(Filter(all, InYear(year, yearOf)), TotalAmount)
  {
    var monthlyCounts, monthlyRevenue := MonthlyTotals(all, year, yearOf, monthOf);
    bookingChart := Labelled(MonthNames, monthlyCounts);
    revenueChart := Labelled(MonthNames, monthlyRevenue);
    MonthCountsCoverYear(all, year, yearOf, monthOf);
    MonthRevenueCoversYear(all, year, yearOf, monthOf);
  }
}
