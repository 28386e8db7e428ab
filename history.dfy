/** The money-history page of public/js/app.js: the search and type filter,
    the sort orders, the per-type totals, the input guard of the add-money
    form, and the two page-level arrays those functions reassign. */
module History {
  import opened Seqs
  import opened Records
  import opened Aggregation

  // ---------------------------------------------------------------------------
  // Text matching

  /** `toLowerCase()` on one character, for the ASCII letters. */
  function LowerChar(c: char): char
  {
    if 'A' <= c <= 'Z' then (c as int + 32) as char else c
  }

  function Lower(s: string): (r: string)
    ensures |r| == |s|
    ensures forall i | 0 <= i < |s| :: r[i] == LowerChar(s[i])
  {
    seq(|s|, i requires 0 <= i < |s| => LowerChar(s[i]))
  }

  /** `term` occurs in `text` starting at index `i`. */
  predicate IncludesAt(text: string, term: string, i: nat)
  {
    i + |term| <= |text| && text[i..i + |term|] == term
  }

  /** `text.includes(term)`. */
  predicate Includes(text: string, term: string)
  {
    exists i: nat | i <= |text| :: IncludesAt(text, term, i)
  }

  // ---------------------------------------------------------------------------
  // filterMoneyHistory (app.js:820-836)

  /** The search half of the filter, `term` being the already lower-cased
      search box (app.js:821, 825-828). */
  predicate MatchesSearch(e: MoneyEntry, term: string)
  {
    || term == ""
    || Includes(Lower(e.category), term)
    || Includes(Lower(e.note), term)
    || Includes(Lower(e.kind), term)
  }

  /** The type half of the filter (app.js:830): an empty filter keeps every type. */
  predicate MatchesType(e: MoneyEntry, typeFilter: string)
  {
    typeFilter == "" || e.kind == typeFilter
  }

  function Keeps(search: string, typeFilter: string): MoneyEntry -> bool
  {
    var term := Lower(search);
    (e: MoneyEntry) => MatchesSearch(e, term) && MatchesType(e, typeFilter)
  }

  /** `moneyEntries.filter(...)`: the entries that match both the search box and
      the type filter, as an order-preserving selection of `entries`. */
  function FilterHistory(entries: seq<MoneyEntry>, search: string, typeFilter: string): (r: seq<MoneyEntry>)
    ensures IsSubsequence(r, entries)
    ensures forall x :: multiset(r)[x] == if Keeps(search, typeFilter)(x) then multiset(entries)[x] else 0
    ensures forall i | 0 <= i < |r| :: typeFilter == "" || r[i].kind == typeFilter
    ensures forall i | 0 <= i < |r| ::
              || search == ""
              || Includes(Lower(r[i].category), Lower(search))
              || Includes(Lower(r[i].note), Lower(search))
              || Includes(Lower(r[i].kind), Lower(search))
  {
    FilterIsSubsequence(entries, Keeps(search, typeFilter));
    FilterCounts(entries, Keeps(search, typeFilter));
    Filter(entries, Keeps(search, typeFilter))
  }

  /** An empty search box and an empty type filter keep every entry, in order. */
  lemma FilterWithoutCriteria(entries: seq<MoneyEntry>)
    ensures FilterHistory(entries, "", "") == entries
  {
    assert Lower("") == "";
    FilterKeepsAll(entries, Keeps("", ""));
  }

  /** With only a type filter, the page lists exactly the entries of that
      type in their original order: the same selection the server sums for
      that type. */
  lemma FilterByTypeOnly(entries: seq<MoneyEntry>, typeFilter: string)
    requires typeFilter != ""
    ensures FilterHistory(entries, "", typeFilter) == Filter(entries, IsKind(typeFilter))
    decreases |entries|
  {
    assert Lower("") == "";
    if entries != [] {
      FilterByTypeOnly(entries[1..], typeFilter);
    }
  }

  // ---------------------------------------------------------------------------
  // sortMoneyHistory (app.js:838-857)

  /** The quantity each sort order puts in ascending order. Newest-first is
      ascending negated timestamp; an unrecognised order gives every entry the
      same key. `timestamp` stands for the `date` the client parses. */
  function SortKey(sortBy: string, e: MoneyEntry): int
  {
    if sortBy == "newest" then -e.timestamp
    else if sortBy == "oldest" then e.timestamp
    else if sortBy == "amount-high" then -e.amount
    else if sortBy == "amount-low" then e.amount
    else 0
  }

  /** The comparator passed to `sort` (app.js:841-853): negative when `a`
      belongs before `b`, zero when their order is to be kept. */
  function Compare(sortBy: string, a: MoneyEntry, b: MoneyEntry): (c: int)
    ensures c == SortKey(sortBy, a) - SortKey(sortBy, b)
  {
    if sortBy == "newest" then b.timestamp - a.timestamp
    else if sortBy == "oldest" then a.timestamp - b.timestamp
    else if sortBy == "amount-high" then b.amount - a.amount
    else if sortBy == "amount-low" then a.amount - b.amount
    else 0
  }

  ghost predicate SortedBy(s: seq<MoneyEntry>, sortBy: string)
  {
    forall i, j | 0 <= i < j < |s| :: SortKey(sortBy, s[i]) <= SortKey(sortBy, s[j])
  }

  /** Puts `x` in front of the first entry the comparator does not rank before it. */
  function Insert(sortBy: string, x: MoneyEntry, sorted: seq<MoneyEntry>): (r: seq<MoneyEntry>)
    requires SortedBy(sorted, sortBy)
    ensures multiset(r) == multiset(sorted) + multiset{x}
    ensures SortedBy(r, sortBy)
  {
    if sorted == [] then [x]
    else if Compare(sortBy, x, sorted[0]) <= 0 then
      PrependSorted(sortBy, x, sorted);
      [x] + sorted
    else
      var rest := Insert(sortBy, x, sorted[1..]);
      assert sorted == [sorted[0]] + sorted[1..];
      PrependBelowAll(sortBy, sorted[0], sorted[1..], x, rest);
      [sorted[0]] + rest
  }

  lemma PrependSorted(sortBy: string, x: MoneyEntry, sorted: seq<MoneyEntry>)
    requires SortedBy(sorted, sortBy)
    requires sorted != [] && SortKey(sortBy, x) <= SortKey(sortBy, sorted[0])
    ensures SortedBy([x] + sorted, sortBy)
  {
    var r := [x] + sorted;
    forall i, j | 0 <= i < j < |r| ensures SortKey(sortBy, r[i]) <= SortKey(sortBy, r[j]) {
      if i == 0 {
        assert r[j] == sorted[j - 1];
        assert SortKey(sortBy, sorted[0]) <= SortKey(sortBy, sorted[j - 1]) || j == 1;
      } else {
        assert r[i] == sorted[i - 1] && r[j] == sorted[j - 1];
      }
    }
  }

  lemma PrependBelowAll(sortBy: string, head: MoneyEntry, tail: seq<MoneyEntry>, x: MoneyEntry, rest: seq<MoneyEntry>)
    requires SortedBy([head] + tail, sortBy) && SortedBy(rest, sortBy)
    requires SortKey(sortBy, head) < SortKey(sortBy, x)
    requires multiset(rest) == multiset(tail) + multiset{x}
    ensures SortedBy([head] + rest, sortBy)
  {
    var r := [head] + rest;
    forall j | 0 <= j < |rest| ensures SortKey(sortBy, head) <= SortKey(sortBy, rest[j]) {
      assert rest[j] in multiset(rest);
      if rest[j] != x {
        assert rest[j] in multiset(tail);
        var k :| 0 <= k < |tail| && tail[k] == rest[j];
        var whole := [head] + tail;
        assert whole[0] == head && whole[k + 1] == tail[k];
        assert SortKey(sortBy, whole[0]) <= SortKey(sortBy, whole[k + 1]);
      }
    }
    forall i, j | 0 <= i < j < |r| ensures SortKey(sortBy, r[i]) <= SortKey(sortBy, r[j]) {
      assert r[j] == rest[j - 1];
      if i > 0 { assert r[i] == rest[i - 1]; }
    }
  }

  /** `Array.prototype.sort` with the page's comparator: a stable sort,
      written here as an insertion sort. The result holds the same entries
      and is ordered by the sort key. */
  function SortHistory(entries: seq<MoneyEntry>, sortBy: string): (r: seq<MoneyEntry>)
    ensures multiset(r) == multiset(entries)
    ensures |r| == |entries|
    ensures SortedBy(r, sortBy)
  {
    if entries == [] then []
    else
      assert entries == [entries[0]] + entries[1..];
      Insert(sortBy, entries[0], SortHistory(entries[1..], sortBy))
  }

  /** What each recognised order promises of the listed entries. */
  lemma SortOrders(entries: seq<MoneyEntry>, sortBy: string)
    ensures var r := SortHistory(entries, sortBy);
            forall i, j | 0 <= i < j < |r| ::
              && (sortBy == "amount-high" ==> r[i].amount >= r[j].amount)
              && (sortBy == "amount-low" ==> r[i].amount <= r[j].amount)
              && (sortBy == "newest" ==> r[i].timestamp >= r[j].timestamp)
              && (sortBy == "oldest" ==> r[i].timestamp <= r[j].timestamp)
  {
    var r := SortHistory(entries, sortBy);
    forall i, j | 0 <= i < j < |r|
      ensures && (sortBy == "amount-high" ==> r[i].amount >= r[j].amount)
              && (sortBy == "amount-low" ==> r[i].amount <= r[j].amount)
              && (sortBy == "newest" ==> r[i].timestamp >= r[j].timestamp)
              && (sortBy == "oldest" ==> r[i].timestamp <= r[j].timestamp)
    {
      assert SortKey(sortBy, r[i]) <= SortKey(sortBy, r[j]);
    }
  }

  /** The entries whose sort key is `k`. */
  function HasKey(sortBy: string, k: int): MoneyEntry -> bool
  {
    (e: MoneyEntry) => SortKey(sortBy, e) == k
  }

  lemma {:induction false} InsertKeepsTies(sortBy: string, x: MoneyEntry, sorted: seq<MoneyEntry>, k: int)
    requires SortedBy(sorted, sortBy)
    ensures Filter(Insert(sortBy, x, sorted), HasKey(sortBy, k))
         == (if SortKey(sortBy, x) == k then [x] else []) + Filter(sorted, HasKey(sortBy, k))
  {
    var keep := HasKey(sortBy, k);
    if sorted == [] {
    } else if Compare(sortBy, x, sorted[0]) <= 0 {
      FilterAppend([x], sorted, keep);
    } else {
      assert SortedBy(sorted[1..], sortBy);
      InsertKeepsTies(sortBy, x, sorted[1..], k);
      FilterAppend([sorted[0]], Insert(sortBy, x, sorted[1..]), keep);
      FilterAppend([sorted[0]], sorted[1..], keep);
      assert sorted == [sorted[0]] + sorted[1..];
    }
  }

  /** The sort is stable: entries with equal keys keep their relative order. */
  lemma {:induction false} SortIsStable(entries: seq<MoneyEntry>, sortBy: string, k: int)
    ensures Filter(SortHistory(entries, sortBy), HasKey(sortBy, k)) == Filter(entries, HasKey(sortBy, k))
  {
    if entries != [] {
      SortIsStable(entries[1..], sortBy, k);
      InsertKeepsTies(sortBy, entries[0], SortHistory(entries[1..], sortBy), k);
    }
  }

  /** An unrecognised order leaves the list as it was: the comparator answers
      0 for every pair and the sort is stable. */
  lemma UnknownOrderKeepsList(entries: seq<MoneyEntry>, sortBy: string)
    requires sortBy !in ["newest", "oldest", "amount-high", "amount-low"]
    ensures SortHistory(entries, sortBy) == entries
  {
    var r := SortHistory(entries, sortBy);
    SortIsStable(entries, sortBy, 0);
    FilterKeepsAll(entries, HasKey(sortBy, 0));
    FilterKeepsAll(r, HasKey(sortBy, 0));
  }

  // ---------------------------------------------------------------------------
  // Summary cards of updateMoneyHistoryUI (app.js:738-748)

  datatype Totals = Totals(income: int, expense: int, saving: int)

  /** The three summary figures, taken over every loaded entry. They agree
      with the server's available money. */
  function HistoryTotals(entries: seq<MoneyEntry>): (t: Totals)
    ensures t.income - t.expense - t.saving == Sum(entries, Effect)
    ensures t.income == SumWhere(entries, IsKind("income"), EntryAmount)
    ensures t.expense == SumWhere(entries, IsKind("expense"), EntryAmount)
    ensures t.saving == SumWhere(entries, IsKind("saving"), EntryAmount)
  {
    AvailableIsNetEffect(entries);
    SumOfFilter(entries, IsKind("income"), EntryAmount);
    SumOfFilter(entries, IsKind("expense"), EntryAmount);
    SumOfFilter(entries, IsKind("saving"), EntryAmount);
    Totals(TotalOfKind(entries, "income"), TotalOfKind(entries, "expense"), TotalOfKind(entries, "saving"))
  }

  // ---------------------------------------------------------------------------
  // Input guard of handleAddMoney (app.js:673-676)

  /** `!(!type || !amount || amount <= 0)`: a request is sent only for a
      non-empty type and a positive amount. */
  predicate AcceptsNewEntry(kind: string, amount: int): (ok: bool)
    ensures ok <==> kind != "" && amount > 0
  {
    !(kind == "" || amount == 0 || amount <= 0)
  }

  // ---------------------------------------------------------------------------
  // The page state

  /** The globals `moneyEntries` and `filteredMoneyEntries` (app.js:717-718). */
  class MoneyHistoryPage {
    var moneyEntries: seq<MoneyEntry>
    var filtered: seq<MoneyEntry>

    constructor ()
      ensures moneyEntries == [] && filtered == []
    {
      moneyEntries, filtered := [], [];
    }

    /** `loadMoneyHistory` (app.js:720-734). `fetched` is the parsed response
        of GET /api/money-entries, or None when the request fails, in which
        case the page keeps what it had. */
    method Load(fetched: Option<seq<MoneyEntry>>)
      modifies this
      ensures fetched.Some? ==> moneyEntries == fetched.value && filtered == fetched.value
      ensures fetched.None? ==> moneyEntries == old(moneyEntries) && filtered == old(filtered)
    {
      if fetched.Some? {
        moneyEntries := fetched.value;
        filtered := fetched.value;
      }
    }

    /** `filterMoneyHistory`: recomputes the shown list from all entries; the
        loaded entries themselves are not touched. */
    method ApplyFilter(search: string, typeFilter: string)
      modifies this`filtered
      ensures filtered == FilterHistory(moneyEntries, search, typeFilter)
      ensures IsSubsequence(filtered, moneyEntries)
    {
      filtered := FilterHistory(moneyEntries, search, typeFilter);
    }

    /** `sortMoneyHistory`: reorders the shown list. */
    method ApplySort(sortBy: string)
      modifies this`filtered
      ensures filtered == SortHistory(old(filtered), sortBy)
      ensures multiset(filtered) == multiset(old(filtered))
    {
      filtered := SortHistory(filtered, sortBy);
    }

    /** The summary cards: totals over every loaded entry, whatever is shown. */
    method SummaryTotals() returns (t: Totals)
      ensures t.income - t.expense - t.saving == AvailableMoney(moneyEntries)
      ensures t.income == TotalOfKind(moneyEntries, "income")
      ensures t.expense == TotalOfKind(moneyEntries, "expense")
      ensures t.saving == TotalOfKind(moneyEntries, "saving")
    {
      t := HistoryTotals(moneyEntries);
      AvailableIsNetEffect(moneyEntries);
    }
  }

  // ---------------------------------------------------------------------------
  // The filter as written, on the entries the server actually sends

  /** The search test of app.js:825-828 run on an entry as server.js stores
      it. Such an entry carries `description` and no `note`, so once the
      category does not match, `entry.note.toLowerCase()` throws a TypeError
      (None) before the type field is looked at. */
  function SearchAsServed(e: MoneyEntry, term: string): Option<bool>
  {
    if term == "" then Some(true)
    else if Includes(Lower(e.category), term) then Some(true)
    else None
  }

  /** `filterMoneyHistory` as written, over served entries: None when the
      callback throws, which leaves `filteredMoneyEntries` as it was. */
  function FilterAsServed(entries: seq<MoneyEntry>, search: string, typeFilter: string): Option<seq<MoneyEntry>>
  {
    if entries == [] then Some([])
    else
      match SearchAsServed(entries[0], Lower(search))
      case None => None
      case Some(m) =>
        match FilterAsServed(entries[1..], search, typeFilter)
        case None => None
        case Some(rest) =>
          Some((if m && MatchesType(entries[0], typeFilter) then [entries[0]] else []) + rest)
  }

  /** Every entry's category contains `term`. */
  ghost predicate CategoriesContain(entries: seq<MoneyEntry>, term: string)
  {
    forall i | 0 <= i < |entries| :: Includes(Lower(entries[i].category), term)
  }

  /** The written filter fails exactly when the search box is non-empty and
      some loaded entry's category does not contain it. */
  lemma {:induction false} FilterAsServedFails(entries: seq<MoneyEntry>, search: string, typeFilter: string)
    ensures FilterAsServed(entries, search, typeFilter).None?
        <==> search != "" && !CategoriesContain(entries, Lower(search))
  {
    if entries != [] {
      FilterAsServedFails(entries[1..], search, typeFilter);
      var term := Lower(search);
      assert CategoriesContain(entries, term)
         <==> Includes(Lower(entries[0].category), term) && CategoriesContain(entries[1..], term)
      by {
        if Includes(Lower(entries[0].category), term) && CategoriesContain(entries[1..], term) {
          forall i | 0 <= i < |entries| ensures Includes(Lower(entries[i].category), term) {
            if i > 0 { assert entries[i] == entries[1..][i - 1]; }
          }
        }
      }
    }
  }

  /** When the written filter does not throw, it lists what FilterHistory lists. */
  lemma {:induction false} FilterAsServedAgrees(entries: seq<MoneyEntry>, search: string, typeFilter: string)
    ensures FilterAsServed(entries, search, typeFilter).Some?
        ==> FilterAsServed(entries, search, typeFilter).value == FilterHistory(entries, search, typeFilter)
  {
    if entries != [] {
      FilterAsServedAgrees(entries[1..], search, typeFilter);
    }
  }

  /** Searching "income" on an income entry filed under "Salary": the written
      filter throws, the intended one lists the entry because its type matches. */
  lemma SearchByTypeNameThrows()
    ensures var e := MoneyEntry(0, "income", 50000, "", "Salary", 0);
            && FilterAsServed([e], "income", "") == None
            && FilterHistory([e], "income", "") == [e]
  {
    var e := MoneyEntry(0, "income", 50000, "", "Salary", 0);
    assert Lower("income") == "income";
    assert Lower("Salary") == "salary";
    assert !Includes("salary", "income") by {
      forall i: nat | i <= 6 ensures !IncludesAt("salary", "income", i) {
        if i == 0 { assert "salary"[0] != "income"[0]; }
      }
    }
    assert IncludesAt(Lower(e.kind), Lower("income"), 0);
  }

  // ---------------------------------------------------------------------------
  // The date orders as written, on the entries the server actually sends

  /** `sortMoneyHistory` as written, over served entries. They carry no
      `date`, so for "newest" and "oldest" the comparator subtracts two
      invalid dates, which gives NaN, and `sort` reads a NaN answer as 0:
      both orders then behave like an unrecognised one. */
  function SortAsServed(entries: seq<MoneyEntry>, sortBy: string): seq<MoneyEntry>
  {
    SortHistory(entries, if sortBy == "newest" || sortBy == "oldest" then "" else sortBy)
  }

  /** As written, the date orders leave the shown list exactly as it was. */
  lemma DateSortAsServedKeepsList(entries: seq<MoneyEntry>, sortBy: string)
    requires sortBy == "newest" || sortBy == "oldest"
    ensures SortAsServed(entries, sortBy) == entries
  {
    UnknownOrderKeepsList(entries, "");
  }

  /** An older entry listed before a newer one: "newest" keeps them in that
      order as written, while the intended sort puts the newer one first. */
  lemma NewestAsServedKeepsOrder()
    ensures var older := MoneyEntry(0, "income", 100, "", "Salary", 1);
            var newer := MoneyEntry(1, "expense", 40, "", "Food", 2);
            && SortAsServed([older, newer], "newest") == [older, newer]
            && SortHistory([older, newer], "newest") == [newer, older]
  {
    var older := MoneyEntry(0, "income", 100, "", "Salary", 1);
    var newer := MoneyEntry(1, "expense", 40, "", "Food", 2);
    DateSortAsServedKeepsList([older, newer], "newest");
    assert [older, newer][1..] == [newer];
    assert SortHistory([newer], "newest") == [newer] by {
      assert [newer][1..] == [];
    }
    assert Insert("newest", older, []) == [older];
  }
}
