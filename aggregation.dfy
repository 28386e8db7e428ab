/** The derived figures server.js computes from its three arrays: the amount
    saved per wishlist item, the available money, the wishlist listing and the
    dashboard summary. All are side-effect-free sums and maps. */
module Aggregation {
  import opened Seqs
  import opened Records

  function SavingAmount(s: Saving): int { s.amount }
  function EntryAmount(e: MoneyEntry): int { e.amount }
  function Price(w: Wishlist): int { w.price }

  /** The filter predicate `s => s.wishlistId === wishlistId`. */
  function IsFor(wishlistId: Id): Saving -> bool
  {
    (s: Saving) => s.wishlistId == wishlistId
  }

  /** The filter predicate `s => s.wishlistId !== wishlistId`. */
  function IsNotFor(wishlistId: Id): Saving -> bool
  {
    (s: Saving) => s.wishlistId != wishlistId
  }

  /** The filter predicate `entry => entry.type === kind`. */
  function IsKind(kind: string): MoneyEntry -> bool
  {
    (e: MoneyEntry) => e.kind == kind
  }

  // ---------------------------------------------------------------------------
  // Amount saved for one wishlist item

  /** `calculateWishlistProgress(wishlistId)`: sum of the savings filed under the item. */
  function TotalSaved(savings: seq<Saving>, wishlistId: Id): int
  {
    Sum(Filter(savings, IsFor(wishlistId)), SavingAmount)
  }

  /** The amount saved for an item is the sum over exactly the savings whose
      `wishlistId` is the item's id: every such saving adds its amount, every
      other saving adds nothing. */
  lemma TotalSavedCountsOwnSavings(savings: seq<Saving>, wishlistId: Id)
    ensures TotalSaved(savings, wishlistId) == SumWhere(savings, IsFor(wishlistId), SavingAmount)
  {
    SumOfFilter(savings, IsFor(wishlistId), SavingAmount);
  }

  /** A new saving raises the total of its own item by its amount and leaves
      every other item's total alone. */
  lemma TotalSavedAfterAppend(savings: seq<Saving>, x: Saving, wishlistId: Id)
    ensures TotalSaved(savings + [x], wishlistId)
         == TotalSaved(savings, wishlistId) + (if x.wishlistId == wishlistId then x.amount else 0)
  {
    TotalSavedCountsOwnSavings(savings + [x], wishlistId);
    TotalSavedCountsOwnSavings(savings, wishlistId);
    SumWhereAppend(savings, [x], IsFor(wishlistId), SavingAmount);
  }

  /** Savings of other items never count: inserting or removing a block of
      them anywhere leaves an item's total unchanged. */
  lemma TotalSavedIgnoresOthers(before: seq<Saving>, others: seq<Saving>, after: seq<Saving>, wishlistId: Id)
    requires forall i | 0 <= i < |others| :: others[i].wishlistId != wishlistId
    ensures TotalSaved(before + others + after, wishlistId) == TotalSaved(before + after, wishlistId)
  {
    var keep := IsFor(wishlistId);
    TotalSavedCountsOwnSavings(before + others + after, wishlistId);
    TotalSavedCountsOwnSavings(before + after, wishlistId);
    SumWhereAppend(before + others, after, keep, SavingAmount);
    SumWhereAppend(before, others, keep, SavingAmount);
    SumWhereAppend(before, after, keep, SavingAmount);
    SumWhereIgnores(others, keep, SavingAmount);
  }

  /** An id no saving is filed under has nothing saved: this is the total a
      freshly created item starts with. */
  lemma TotalSavedOfUnusedId(savings: seq<Saving>, wishlistId: Id)
    requires forall i | 0 <= i < |savings| :: savings[i].wishlistId != wishlistId
    ensures TotalSaved(savings, wishlistId) == 0
  {
    TotalSavedCountsOwnSavings(savings, wishlistId);
    SumWhereIgnores(savings, IsFor(wishlistId), SavingAmount);
  }

  /** The cascade of a wishlist deletion (server.js:96): the deleted item's
      total drops to zero and every other item keeps its total. */
  lemma TotalSavedAfterCascade(savings: seq<Saving>, deleted: Id, wishlistId: Id)
    ensures TotalSaved(Filter(savings, IsNotFor(deleted)), wishlistId)
         == if wishlistId == deleted then 0 else TotalSaved(savings, wishlistId)
    decreases |savings|
  {
    if savings != [] {
      var rest := savings[1..];
      TotalSavedAfterCascade(rest, deleted, wishlistId);
      TotalSavedAfterAppend([], savings[0], wishlistId);
      assert savings == [savings[0]] + rest;
      if savings[0].wishlistId != deleted {
        var kept := Filter(savings, IsNotFor(deleted));
        assert kept == [savings[0]] + Filter(rest, IsNotFor(deleted));
        FilterAppend([savings[0]], Filter(rest, IsNotFor(deleted)), IsFor(wishlistId));
        SumAppend(Filter([savings[0]], IsFor(wishlistId)), Filter(Filter(rest, IsNotFor(deleted)), IsFor(wishlistId)), SavingAmount);
      }
      FilterAppend([savings[0]], rest, IsFor(wishlistId));
      SumAppend(Filter([savings[0]], IsFor(wishlistId)), Filter(rest, IsFor(wishlistId)), SavingAmount);
    }
  }

  // ---------------------------------------------------------------------------
  // Available money

  /** Sum of the amounts of the entries of one type (server.js:28-38). */
  function TotalOfKind(entries: seq<MoneyEntry>, kind: string): int
  {
    Sum(Filter(entries, IsKind(kind)), EntryAmount)
  }

  /** `calculateTotalAvailableMoney()`: income minus expenses minus savings. */
  function AvailableMoney(entries: seq<MoneyEntry>): int
  {
    TotalOfKind(entries, "income") - TotalOfKind(entries, "expense") - TotalOfKind(entries, "saving")
  }

  /** What one entry does to the available money, judged on its own: income
      adds, expense and saving subtract, any other type is ignored. */
  function Effect(e: MoneyEntry): int
  {
    if e.kind == "income" then e.amount
    else if e.kind == "expense" || e.kind == "saving" then -e.amount
    else 0
  }

  lemma {:induction false} NetOfKinds(entries: seq<MoneyEntry>)
    ensures SumWhere(entries, IsKind("income"), EntryAmount)
          - SumWhere(entries, IsKind("expense"), EntryAmount)
          - SumWhere(entries, IsKind("saving"), EntryAmount)
         == Sum(entries, Effect)
  {
    if entries != [] {
      NetOfKinds(entries[1..]);
    }
  }

  /** Available money is the sum of the entries' effects: every income adds,
      every expense and every saving-type entry subtracts, and an entry of any
      other type contributes nothing. */
  lemma AvailableIsNetEffect(entries: seq<MoneyEntry>)
    ensures AvailableMoney(entries) == Sum(entries, Effect)
  {
    SumOfFilter(entries, IsKind("income"), EntryAmount);
    SumOfFilter(entries, IsKind("expense"), EntryAmount);
    SumOfFilter(entries, IsKind("saving"), EntryAmount);
    NetOfKinds(entries);
  }

  /** Appending an entry moves the available money by that entry's effect. */
  lemma AvailableAfterAppend(entries: seq<MoneyEntry>, e: MoneyEntry)
    ensures AvailableMoney(entries + [e]) == AvailableMoney(entries) + Effect(e)
  {
    AvailableIsNetEffect(entries + [e]);
    AvailableIsNetEffect(entries);
    SumAppend(entries, [e], Effect);
  }

  /** Removing the entry at index `i` undoes that entry's effect. */
  lemma AvailableAfterRemove(entries: seq<MoneyEntry>, i: nat)
    requires i < |entries|
    ensures AvailableMoney(RemoveAt(entries, i)) == AvailableMoney(entries) - Effect(entries[i])
  {
    AvailableIsNetEffect(RemoveAt(entries, i));
    AvailableIsNetEffect(entries);
    assert entries == entries[..i] + [entries[i]] + entries[i + 1..];
    SumAppend(entries[..i], entries[i + 1..], Effect);
    SumAppend(entries[..i] + [entries[i]], entries[i + 1..], Effect);
    SumAppend(entries[..i], [entries[i]], Effect);
  }

  /** Replacing the entry at index `i` swaps its effect for the new one's. */
  lemma AvailableAfterReplace(entries: seq<MoneyEntry>, i: nat, e: MoneyEntry)
    requires i < |entries|
    ensures AvailableMoney(entries[i := e]) == AvailableMoney(entries) - Effect(entries[i]) + Effect(e)
  {
    AvailableIsNetEffect(entries[i := e]);
    AvailableIsNetEffect(entries);
    assert entries == entries[..i] + [entries[i]] + entries[i + 1..];
    assert entries[i := e] == entries[..i] + [e] + entries[i + 1..];
    SumAppend(entries[..i] + [entries[i]], entries[i + 1..], Effect);
    SumAppend(entries[..i], [entries[i]], Effect);
    SumAppend(entries[..i] + [e], entries[i + 1..], Effect);
    SumAppend(entries[..i], [e], Effect);
  }

  // ---------------------------------------------------------------------------
  // Progress percentage

  /** A JavaScript number as far as the progress division can produce one:
      exact for a non-zero price (rounding is not modelled), and Infinity,
      -Infinity or NaN when the price is zero. */
  datatype JsNumber = Finite(value: real) | PositiveInfinity | NegativeInfinity | NaN

  /** `(totalSaved / price) * 100` (server.js:50, 200). The server does not
      guard against a zero price. */
  function Progress(totalSaved: int, price: int): (p: JsNumber)
    ensures p.Finite? <==> price != 0
    ensures p.Finite? ==> p.value * price as real == 100.0 * totalSaved as real
    ensures price == 0 ==> p == (if totalSaved > 0 then PositiveInfinity
                                 else if totalSaved < 0 then NegativeInfinity else NaN)
  {
    if price != 0 then Finite(totalSaved as real / price as real * 100.0)
    else if totalSaved > 0 then PositiveInfinity
    else if totalSaved < 0 then NegativeInfinity
    else NaN
  }

  /** For a positive price the percentage lies between 0 and 100 while the
      saved amount is within the price, and is not capped beyond it. */
  lemma ProgressBounds(totalSaved: int, price: int)
    requires price > 0
    ensures Progress(totalSaved, price).Finite?
    ensures 0 <= totalSaved <= price ==> 0.0 <= Progress(totalSaved, price).value <= 100.0
    ensures totalSaved > price ==> Progress(totalSaved, price).value > 100.0
  {
    var p := Progress(totalSaved, price).value;
    var r := price as real;
    assert p == (100.0 * totalSaved as real) / r;
    assert 100.0 == (100.0 * r) / r;
  }

  // ---------------------------------------------------------------------------
  // The wishlist listing (GET /api/wishlists) and the dashboard

  /** A wishlist item spread with its `totalSaved` and `progress`. */
  datatype WishlistRow = WishlistRow(item: Wishlist, totalSaved: int, progress: JsNumber)

  function RowOf(w: Wishlist, savings: seq<Saving>): WishlistRow
  {
    var saved := TotalSaved(savings, w.id);
    WishlistRow(w, saved, Progress(saved, w.price))
  }

  function RowSaved(row: WishlistRow): int { row.totalSaved }

  /** `wishlists.map(...)` at server.js:47-51 and server.js:197-201. */
  function Listing(wishlists: seq<Wishlist>, savings: seq<Saving>): (rows: seq<WishlistRow>)
    ensures |rows| == |wishlists|
    ensures forall i | 0 <= i < |rows| :: rows[i] == RowOf(wishlists[i], savings)
  {
    seq(|wishlists|, i requires 0 <= i < |wishlists| => RowOf(wishlists[i], savings))
  }

  /** One row per wishlist item, in store order; each row carries the item
      unchanged and the sum of exactly the savings filed under it. */
  lemma ListingRows(wishlists: seq<Wishlist>, savings: seq<Saving>, i: nat)
    requires i < |wishlists|
    ensures |Listing(wishlists, savings)| == |wishlists|
    ensures Listing(wishlists, savings)[i].item == wishlists[i]
    ensures Listing(wishlists, savings)[i].totalSaved
         == SumWhere(savings, IsFor(wishlists[i].id), SavingAmount)
  {
    TotalSavedCountsOwnSavings(savings, wishlists[i].id);
  }

  /** The number of entries the dashboard shows (`slice(-10)`). */
  const RecentCount: nat := 10

  datatype Dashboard = Dashboard(
    wishlists: seq<WishlistRow>,
    totalWishlistValue: int,
    totalSaved: int,
    availableMoney: int,
    totalIncome: int,
    totalExpenses: int,
    moneyEntries: seq<MoneyEntry>)

  /** The body of GET /api/dashboard (server.js:184-211). */
  function DashboardOf(wishlists: seq<Wishlist>, savings: seq<Saving>, entries: seq<MoneyEntry>): (d: Dashboard)
    ensures d.availableMoney == d.totalIncome - d.totalExpenses - TotalOfKind(entries, "saving")
    ensures |d.moneyEntries| == if |entries| <= RecentCount then |entries| else RecentCount
    ensures entries == entries[..|entries| - |d.moneyEntries|] + d.moneyEntries
  {
    LastNIsSuffix(entries, RecentCount);
    Dashboard(
      Listing(wishlists, savings),
      Sum(wishlists, Price),
      Sum(savings, SavingAmount),
      AvailableMoney(entries),
      TotalOfKind(entries, "income"),
      TotalOfKind(entries, "expense"),
      LastN(entries, RecentCount))
  }

  /** Every saving names an item that is in the store. The server does not
      maintain this (a saving may name any id), but deleting an item removes
      the savings that name it. */
  ghost predicate NoOrphanSavings(wishlists: seq<Wishlist>, savings: seq<Saving>)
  {
    forall j | 0 <= j < |savings| :: exists i | 0 <= i < |wishlists| :: wishlists[i].id == savings[j].wishlistId
  }

  /** Sum, over the items, of what each item has saved. */
  function SavedPerItem(wishlists: seq<Wishlist>, savings: seq<Saving>): int
  {
    if wishlists == [] then 0 else TotalSaved(savings, wishlists[0].id) + SavedPerItem(wishlists[1..], savings)
  }

  lemma {:induction false} SavedPerItemIsListingSum(wishlists: seq<Wishlist>, savings: seq<Saving>)
    ensures Sum(Listing(wishlists, savings), RowSaved) == SavedPerItem(wishlists, savings)
  {
    if wishlists != [] {
      SavedPerItemIsListingSum(wishlists[1..], savings);
      assert Listing(wishlists, savings)[1..] == Listing(wishlists[1..], savings);
    }
  }

  lemma {:induction false} SavedPerItemAppend(wishlists: seq<Wishlist>, savings: seq<Saving>, x: Saving)
    ensures SavedPerItem(wishlists, savings + [x]) == SavedPerItem(wishlists, savings) + SavedPerItem(wishlists, [x])
  {
    if wishlists != [] {
      SavedPerItemAppend(wishlists[1..], savings, x);
      TotalSavedAfterAppend(savings, x, wishlists[0].id);
      TotalSavedAfterAppend([], x, wishlists[0].id);
      assert [] + [x] == [x];
    }
  }

  lemma {:induction false} SavedPerItemSingle(wishlists: seq<Wishlist>, x: Saving)
    requires DistinctBy(wishlists, WishlistKey)
    ensures SavedPerItem(wishlists, [x])
         == if exists i | 0 <= i < |wishlists| :: wishlists[i].id == x.wishlistId then x.amount else 0
  {
    if wishlists != [] {
      assert DistinctBy(wishlists[1..], WishlistKey);
      SavedPerItemSingle(wishlists[1..], x);
      TotalSavedAfterAppend([], x, wishlists[0].id);
      assert [] + [x] == [x];
      if wishlists[0].id == x.wishlistId {
        assert !exists i | 0 <= i < |wishlists[1..]| :: wishlists[1..][i].id == x.wishlistId by {
          forall i | 0 <= i < |wishlists[1..]| ensures wishlists[1..][i].id != x.wishlistId {
            assert WishlistKey(wishlists[0]) != WishlistKey(wishlists[i + 1]);
          }
        }
      } else {
        if exists i | 0 <= i < |wishlists| :: wishlists[i].id == x.wishlistId {
          var i :| 0 <= i < |wishlists| && wishlists[i].id == x.wishlistId;
          assert wishlists[1..][i - 1].id == x.wishlistId;
        }
      }
    }
  }

  /** With distinct item ids and no orphaned saving, the per-item totals
      add up to the sum over all savings. */
  lemma {:induction false} SavedPerItemIsTotal(wishlists: seq<Wishlist>, savings: seq<Saving>)
    requires DistinctBy(wishlists, WishlistKey)
    requires NoOrphanSavings(wishlists, savings)
    ensures SavedPerItem(wishlists, savings) == Sum(savings, SavingAmount)
    decreases |savings|
  {
    if savings == [] {
      SavedPerItemEmpty(wishlists);
    } else {
      var init, x := savings[..|savings| - 1], savings[|savings| - 1];
      assert savings == init + [x];
      assert NoOrphanSavings(wishlists, init) by {
        forall j | 0 <= j < |init|
          ensures exists i | 0 <= i < |wishlists| :: wishlists[i].id == init[j].wishlistId
        {
          assert init[j] == savings[j];
        }
      }
      SavedPerItemIsTotal(wishlists, init);
      SavedPerItemAppend(wishlists, init, x);
      SavedPerItemSingle(wishlists, x);
      SumAppend(init, [x], SavingAmount);
    }
  }

  /** When item ids are distinct and no saving is orphaned, the dashboard's
      `totalSaved` (a sum over all savings) equals the sum of the per-item
      totals the dashboard lists. An orphaned saving counts in the first
      figure and in none of the rows. */
  lemma DashboardSavedMatchesRows(wishlists: seq<Wishlist>, savings: seq<Saving>, entries: seq<MoneyEntry>)
    requires DistinctBy(wishlists, WishlistKey)
    requires NoOrphanSavings(wishlists, savings)
    ensures DashboardOf(wishlists, savings, entries).totalSaved
         == Sum(DashboardOf(wishlists, savings, entries).wishlists, RowSaved)
  {
    SavedPerItemIsListingSum(wishlists, savings);
    SavedPerItemIsTotal(wishlists, savings);
  }

  lemma {:induction false} SavedPerItemEmpty(wishlists: seq<Wishlist>)
    ensures SavedPerItem(wishlists, []) == 0
  {
    if wishlists != [] {
      SavedPerItemEmpty(wishlists[1..]);
    }
  }

  /** The dashboard's available money is the net effect of all entries and
      its income and expense figures are the totals of those two types. */
  lemma DashboardAvailableIsNet(wishlists: seq<Wishlist>, savings: seq<Saving>, entries: seq<MoneyEntry>)
    ensures DashboardOf(wishlists, savings, entries).availableMoney == Sum(entries, Effect)
    ensures DashboardOf(wishlists, savings, entries).totalIncome == SumWhere(entries, IsKind("income"), EntryAmount)
    ensures DashboardOf(wishlists, savings, entries).totalExpenses == SumWhere(entries, IsKind("expense"), EntryAmount)
  {
    AvailableIsNetEffect(entries);
    SumOfFilter(entries, IsKind("income"), EntryAmount);
    SumOfFilter(entries, IsKind("expense"), EntryAmount);
  }
}
