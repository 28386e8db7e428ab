# Serene Finance ledger, modelled in Dafny

Serene Finance is a personal finance tracker. Its Express server keeps three
in-memory arrays: wishlist items, savings set aside for those items, and money
entries (income, expense, saving). It answers create, update, delete and
list requests over them. It also serves two derived views: the wishlist
listing, where each item carries the amount saved for it and a progress
percentage, and a dashboard summary. The browser's money-history page loads
all money entries, filters them by a free-text search and a type, sorts them,
and shows per-type totals.

The model has five modules:

- `Seqs` (`seqs.dfy`): the array operations the code relies on: `filter`,
  `reduce` to a sum, `findIndex`, `splice(i, 1)` and `slice(-n)`. It also
  holds lemmas on order-preserving selection (subsequence) and multiplicity.
- `Records` (`records.dfy`): the three record types as datatypes. Ids are
  natural numbers, and timestamps are integers.
- `Aggregation` (`aggregation.dfy`): the pure figures of `server.js`:
  - the amount saved per item;
  - the available money;
  - the progress division;
  - the listing;
  - the dashboard.
- `Ledger` (`ledger.dfy`): class `LedgerStore`, which holds the three arrays
  as `seq` fields and has one method per route. Its invariant `Valid()` says
  that ids are unique within each collection and were all handed out, and
  that no saving is filed under an id the store has yet to hand out.
- `History` (`history.dfy`): the money-history logic of `public/js/app.js`
  and class `MoneyHistoryPage`, which holds the page's two global arrays.

The model follows the code, not the frontend's expectations. The server validates nothing. It has no insufficient-funds rule. It
does not write a money entry when a saving is added, and it does not check
that a saving's `wishlistId` names a live item. It divides by the price
without a guard, so a zero price gives Infinity or NaN, not 0. The browser
calls GET /api/savings/wishlist/:id, but the server has no such route. The
model includes none of these missing rules.

Field names differ between the two sides. The server stores a money entry's
text as `description` and its time as `createdAt`. The browser reads `note`
and `date`. The model names the two fields `note` and `timestamp` and lets
both sides read them. `History.FilterAsServed` models what the browser's
filter does with entries as the server actually sends them, and
`History.SortAsServed` what its date orders do with them (see Findings).

## Model

| member | source | states |
|---|---|---|
| Seqs.FindIndex | server.js:71 | `findIndex` returns -1 exactly when no record has the id; otherwise it returns the first index holding the id |
| Seqs.RemoveAt | server.js:97 | `splice(i, 1)` drops index `i`: the elements before `i` stay in place and the later ones shift down by one |
| Seqs.LastNIsSuffix | server.js:210 | for n > 0, `slice(-n)` returns the last min(n, length) elements, as a suffix in insertion order |
| Seqs.Filter | server.js:22 | `filter` keeps only elements that satisfy the predicate and never lengthens the list; FilterCounts and FilterIsSubsequence state that it keeps exactly those, in order |
| Seqs.Sum | server.js:23 | `reduce((sum, x) => sum + f(x), 0)`: the sum of `f` over the list; SumAppend states that it splits over concatenation |
| Seqs.LastN | server.js:210 | `slice(-n)` for n > 0; LastNIsSuffix states its length and that it is a suffix |
| Records.OrEmpty | server.js:61 | the empty-string default of an optional text field: the text given, or "" when the field is absent |
| Aggregation.TotalSaved | server.js:21-25 | `calculateWishlistProgress`: the sum of the amounts of the savings filed under the item; TotalSavedCountsOwnSavings ties it to the independent SumWhere |
| Aggregation.TotalOfKind | server.js:28-38 | the sum of the amounts of the entries of one type |
| Aggregation.AvailableMoney | server.js:27-41 | `calculateTotalAvailableMoney`: income minus expenses minus saving-type entries; AvailableIsNetEffect equates it with the sum of per-entry effects |
| Aggregation.TotalSavedOfUnusedId | server.js:21-25 | an id that no saving is filed under has totalSaved 0 |
| Aggregation.TotalSavedCountsOwnSavings | server.js:21-25 | an item's totalSaved sums exactly the savings whose `wishlistId` equals its id; any other saving adds 0 |
| Aggregation.TotalSavedAfterAppend | server.js:21-25 | a new saving raises its own item's total by its amount and leaves every other item's total unchanged |
| Aggregation.TotalSavedIgnoresOthers | server.js:22 | inserting or removing savings of other items anywhere in the list never changes an item's total |
| Aggregation.TotalSavedAfterCascade | server.js:96 | after the cascade filter, the deleted item's total is 0 and every other item's total is unchanged |
| Aggregation.AvailableIsNetEffect | server.js:27-41 | available money = Σincome − Σexpense − Σsaving-type; entries of any other type contribute nothing |
| Aggregation.AvailableAfterAppend | server.js:147 | appending an entry moves the available money by that entry's signed effect |
| Aggregation.AvailableAfterRemove | server.js:179 | removing the entry at index `i` undoes that entry's effect on the available money |
| Aggregation.AvailableAfterReplace | server.js:160-166 | replacing an entry swaps its effect on the available money for the new entry's effect |
| Aggregation.Progress | server.js:50 | the result is finite iff price ≠ 0, and then progress × price = 100 × saved; price 0 gives Infinity, -Infinity or NaN, never 0 |
| Aggregation.ProgressBounds | server.js:200 | for a positive price, progress is within [0, 100] while 0 ≤ saved ≤ price, and above 100 once saved exceeds the price (no cap) |
| Aggregation.Listing | server.js:47-51 | one row per wishlist item, in store order; each row is the item with its totalSaved and progress |
| Aggregation.ListingRows | server.js:47-51 | row `i` carries item `i` unchanged, and its totalSaved sums exactly that item's savings |
| Aggregation.DashboardOf | server.js:184-211 | availableMoney = totalIncome − totalExpenses − Σsaving-type; the recent list holds the last min(10, n) entries as a suffix in insertion order |
| Aggregation.SavedPerItemIsTotal | server.js:185-186 | with distinct item ids and no orphaned savings, the per-item totals add up to the sum over all savings |
| Aggregation.DashboardSavedMatchesRows | server.js:186 | with distinct item ids and no orphaned savings, the dashboard's totalSaved equals the sum of the listed per-item totals |
| Aggregation.DashboardAvailableIsNet | server.js:187-195 | the dashboard's availableMoney is the net effect of all entries; its income and expense figures sum exactly the entries of those types |
| Ledger.CascadeRemovesExactly | server.js:96 | the cascade keeps exactly the savings of other items, each as often as before and in their relative order; none with the deleted id survives |
| Ledger.CascadeKeepsOwners | server.js:96-97 | removing an item together with its savings leaves no saving without an item, if there was none before |
| Ledger.LedgerStore.constructor | server.js:16-18 | the store starts with three empty collections and satisfies its invariant |
| Ledger.LedgerStore.ListWishlists | server.js:46-53 | returns the listing: one row per item in store order, carrying that item's totalSaved |
| Ledger.LedgerStore.AddWishlist | server.js:55-66 | appends exactly one item at the end, with a fresh id, `description` defaulting to "" and the current time; nothing else changes; the new item starts with totalSaved 0, since no saving can already be filed under its id |
| Ledger.LedgerStore.UpdateWishlist | server.js:68-85 | an absent id gives NotFound and changes nothing; otherwise only that index changes, with id and createdAt kept and the other fields replaced |
| Ledger.LedgerStore.DeleteWishlist | server.js:87-100 | an absent id gives NotFound and changes nothing; otherwise it removes that item and the savings filed under it, leaves money entries untouched and keeps the no-orphan property |
| Ledger.LedgerStore.ListSavings | server.js:103-105 | returns the savings collection as stored |
| Ledger.LedgerStore.AddSaving | server.js:107-118 | appends one saving with a fresh id; it does not check the item and does not touch money entries, so available money is unchanged; the item's total rises by the amount |
| Ledger.LedgerStore.DeleteSaving | server.js:120-130 | an absent id gives NotFound; otherwise it removes the first saving with that id, and no saving with that id remains; the other collections are untouched |
| Ledger.LedgerStore.ListMoneyEntries | server.js:133-135 | returns the money entries as stored |
| Ledger.LedgerStore.AddMoneyEntry | server.js:137-149 | appends one entry with a fresh id and defaults ""; there is no funds check; available money moves by the entry's effect |
| Ledger.LedgerStore.UpdateMoneyEntry | server.js:151-169 | an absent id gives NotFound and changes nothing; otherwise only that index changes, with id and createdAt kept; available money moves by the effect difference |
| Ledger.LedgerStore.DeleteMoneyEntry | server.js:171-181 | an absent id gives NotFound; otherwise it removes the first entry with that id, and available money loses that entry's effect |
| Ledger.LedgerStore.GetDashboard | server.js:184-211 | the summary's sums, net available money and last min(10, n) entries, all over the current store |
| History.Lower | public/js/app.js:821 | `toLowerCase()`: same length, each character mapped by LowerChar |
| History.Includes | public/js/app.js:826-828 | `text.includes(term)`: `term` occurs in `text` at some index |
| History.MatchesSearch | public/js/app.js:825-828 | an empty term matches; otherwise the lower-cased category, note or type must contain the term |
| History.MatchesType | public/js/app.js:830 | an empty type filter matches every entry; otherwise the type must equal the filter exactly |
| History.Keeps | public/js/app.js:824-833 | the filter callback: the entry matches both the lower-cased search and the type filter |
| History.FilterHistory | public/js/app.js:824-833 | an order-preserving subsequence that keeps exactly the matching entries, each as often as in the input; with a type filter every kept entry has that type; with a search term every kept entry's category, note or type contains it |
| History.FilterWithoutCriteria | public/js/app.js:825-830 | an empty search and an empty type filter keep every entry, in order |
| History.FilterByTypeOnly | public/js/app.js:830 | filtering by type alone lists exactly the entries of that type, in their original order |
| History.Compare | public/js/app.js:841-854 | the comparator is the difference of the entries' sort keys; an unrecognised order gives 0 |
| History.SortKey | public/js/app.js:842-852 | the value each order sorts ascending: negated time for newest, time for oldest, negated amount for amount-high, amount for amount-low, 0 otherwise |
| History.Insert | public/js/app.js:841-854 | inserting into a sorted list gives a sorted list holding the same entries plus the new one |
| History.SortHistory | public/js/app.js:841 | the sorted list is a permutation of the shown list, ordered by the sort key |
| History.SortOrders | public/js/app.js:843-850 | `amount-high` gives non-increasing amounts, `amount-low` non-decreasing amounts, `newest` non-increasing times, `oldest` non-decreasing times |
| History.SortIsStable | public/js/app.js:841-854 | entries with equal keys keep their relative order |
| History.UnknownOrderKeepsList | public/js/app.js:851-852 | an unrecognised sort key leaves the list exactly as it was |
| History.HistoryTotals | public/js/app.js:738-748 | income, expense and saving totals sum amounts by type, and income − expense − saving equals the server's available money |
| History.AcceptsNewEntry | public/js/app.js:673-676 | a new entry is sent only when its type is non-empty and its amount is positive |
| History.MoneyHistoryPage.constructor | public/js/app.js:717-718 | the page starts with both lists empty |
| History.MoneyHistoryPage.Load | public/js/app.js:720-734 | on success, both the entries and the shown list become the fetched entries; on failure, nothing changes |
| History.MoneyHistoryPage.ApplyFilter | public/js/app.js:820-836 | the shown list becomes the filter of all loaded entries, as a subsequence of them; the loaded entries are not modified |
| History.MoneyHistoryPage.ApplySort | public/js/app.js:838-857 | the shown list is replaced by a permutation of itself |
| History.MoneyHistoryPage.SummaryTotals | public/js/app.js:738-748 | the totals are taken over all loaded entries, not the shown list, and agree with the server's available money |
| History.SearchAsServed | public/js/app.js:825-828 | the search test as written on a served entry: an empty term or a matching category passes; otherwise reading the missing `note` throws (None) |
| History.FilterAsServed | public/js/app.js:824-833 | the filter as written over entries as the server stores them: None when the callback throws |
| History.FilterAsServedFails | public/js/app.js:826-827 | the filter as written throws exactly when the search is non-empty and some entry's category does not contain it |
| History.FilterAsServedAgrees | public/js/app.js:824-833 | when the filter as written does not throw, it returns what the corrected filter returns |
| History.SearchByTypeNameThrows | public/js/app.js:826-828 | searching "income" over an income entry filed under "Salary" throws as written, while the corrected filter lists the entry |
| History.SortAsServed | public/js/app.js:841-854 | the sort as written over entries as the server stores them: the date orders compare NaN, read as 0 |
| History.DateSortAsServedKeepsList | public/js/app.js:843-846 | as written, "newest" and "oldest" leave the shown list exactly as it was |
| History.NewestAsServedKeepsOrder | public/js/app.js:843-844 | an older entry before a newer one stays first under "newest" as written, while the intended sort puts the newer one first |

## Findings

| source | as written | input that shows it | evidently intended | confidence | as-written member | corrected member |
|---|---|---|---|---|---|---|
| public/js/app.js:827 | the search reads `entry.note`. Entries from server.js (lines 139-146) carry `description` and never `note`, so `undefined.toLowerCase()` throws whenever the search is non-empty and the category does not match. The callback throws before `filteredMoneyEntries` is reassigned, so the shown list is left as it was and `updateMoneyHistoryUI` is skipped. | one entry `{type: "income", category: "Salary", description: ""}`, search "income" | the search also looks at the entry's note text and its type, so the entry is listed | high; not executed | History.FilterAsServed (exhibited by History.SearchByTypeNameThrows, characterised by History.FilterAsServedFails) | History.FilterHistory |
| public/js/app.js:843-846 | the newest and oldest orders subtract `new Date(entry.date)` values. Served entries carry `createdAt` and no `date`, so every comparison is NaN, which `sort` reads as 0. Both orders leave the list as it was. | an entry with time 1 listed before an entry with time 2, order "newest" | the entries are ordered by their time | high; not executed | History.SortAsServed (characterised by History.DateSortAsServedKeepsList, exhibited by History.NewestAsServedKeepsOrder) | History.SortHistory |

## Left out

- HTTP plumbing (server.js:1-13, 214-221) is not modelled: middleware, static files, `listen`, status codes and JSON encoding. A 404 becomes `NotFound`. The update and delete routes, which can answer 404, return `Ok` on success; the other routes return their value directly.
- `uuidv4()` is modelled by the store's counter `nextId`. Ids are therefore fresh but ordered; the real ids are random strings. A random id never equals an item id posted earlier with a saving, so `AddSaving` also moves the counter past the saving's `wishlistId`.
- The clock (`new Date().toISOString()`) becomes the `now` parameter.
- `parseFloat` and NaN inputs are not modelled. Amounts and prices are integers (whole rupiah). Missing or `undefined` `name`, `type` and `amount` fields are not modelled either.
- Aggregation.Progress: the value is exact real division, with no floating-point rounding.
- Request fields the server ignores are not modelled. These are `image` on wishlists, `note` and `date` on money entries (public/js/app.js:684-690), and `note` on savings (public/js/app.js:419-423). Because of this, a note typed in the client never reaches `description`.
- History.SortKey: the newest/oldest orders compare the integer `timestamp`. The client actually parses `entry.date` with `Date`, and `date` is absent from served entries. As served, both date orders therefore leave the list unchanged; History.SortAsServed models that (see Findings).
- History.Lower: only ASCII letters are lower-cased. Unicode case mapping is not modelled.
- History.SortHistory: `Array.prototype.sort` is modelled as a stable insertion sort on a value. A stable sort's result is fully determined by its comparator, so the result matches. The in-place update of the `filteredMoneyEntries` array becomes a reassignment of the `filtered` field. That list is always a fresh copy or filter result, so no other array sees the update.
- Fetching, async/await, DOM rendering, modals, notifications and locale formatting (`Intl.NumberFormat`, `toLocaleDateString`) are not modelled. `Load` takes the parsed response, or None for a failed request.
- The insufficient-funds rule, writing a money entry when a saving is added, validation errors and GET /api/savings/wishlist/:id are not modelled because the server does not have them.
