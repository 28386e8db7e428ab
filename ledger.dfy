/** The in-memory store of server.js (lines 16-18) and its route handlers.
    Each handler is one method of LedgerStore; a 404 response is the result
    NotFound. HTTP plumbing, JSON encoding and status codes are not modelled. */
module Ledger {
  import opened Seqs
  import opened Records
  import opened Aggregation

  datatype Result<T> = Ok(value: T) | NotFound

  /** Deleting an item keeps exactly the savings filed under other items, in
      their relative order, each as often as before (server.js:96). */
  lemma CascadeRemovesExactly(savings: seq<Saving>, deleted: Id)
    ensures IsSubsequence(Filter(savings, IsNotFor(deleted)), savings)
    ensures forall x :: multiset(Filter(savings, IsNotFor(deleted)))[x]
                     == if x.wishlistId != deleted then multiset(savings)[x] else 0
    ensures forall j | 0 <= j < |Filter(savings, IsNotFor(deleted))| ::
              Filter(savings, IsNotFor(deleted))[j].wishlistId != deleted
  {
    FilterIsSubsequence(savings, IsNotFor(deleted));
    FilterCounts(savings, IsNotFor(deleted));
  }

  /** Removing the item at index `i` together with the savings filed under
      its id leaves no saving without an item. */
  lemma CascadeKeepsOwners(wishlists: seq<Wishlist>, savings: seq<Saving>, i: nat, id: Id)
    requires i < |wishlists| && wishlists[i].id == id
    ensures NoOrphanSavings(wishlists, savings)
        ==> NoOrphanSavings(RemoveAt(wishlists, i), Filter(savings, IsNotFor(id)))
  {
    var ws, ss := RemoveAt(wishlists, i), Filter(savings, IsNotFor(id));
    if NoOrphanSavings(wishlists, savings) {
      FilterIsSubsequence(savings, IsNotFor(id));
      SubsequenceMembers(ss, savings);
      forall j | 0 <= j < |ss|
        ensures exists k | 0 <= k < |ws| :: ws[k].id == ss[j].wishlistId
      {
        var x := ss[j];
        var m :| 0 <= m < |savings| && savings[m] == x;
        var k :| 0 <= k < |wishlists| && wishlists[k].id == x.wishlistId;
        assert k != i;
        var k' := if k < i then k else k - 1;
        assert ws[k'] == wishlists[k];
      }
    }
  }

  lemma RemoveAtKeepsKeys<T>(s: seq<T>, i: nat, key: T -> nat, bound: nat)
    requires i < |s|
    requires DistinctBy(s, key) && AllBelow(s, key, bound)
    ensures DistinctBy(RemoveAt(s, i), key) && AllBelow(RemoveAt(s, i), key, bound)
  {
    var r := RemoveAt(s, i);
    forall a, b | 0 <= a < b < |r| ensures key(r[a]) != key(r[b]) {
      var a', b' := if a < i then a else a + 1, if b < i then b else b + 1;
      assert r[a] == s[a'] && r[b] == s[b'];
    }
  }

  class LedgerStore {
    var wishlists: seq<Wishlist>
    var savings: seq<Saving>
    var moneyEntries: seq<MoneyEntry>
    /** Stands for `uuidv4()`: every id handed out so far, and every item id
        a saving has been filed under, is below it. */
    var nextId: Id

    /** Ids are unique within each collection and were all handed out; no
        saving is filed under an id the store has yet to hand out. */
    ghost predicate Valid()
      reads this
    {
      && DistinctBy(wishlists, WishlistKey) && AllBelow(wishlists, WishlistKey, nextId)
      && DistinctBy(savings, SavingKey) && AllBelow(savings, SavingKey, nextId)
      && AllBelow(savings, SavingOwner, nextId)
      && DistinctBy(moneyEntries, EntryKey) && AllBelow(moneyEntries, EntryKey, nextId)
    }

    constructor ()
      ensures Valid()
      ensures wishlists == [] && savings == [] && moneyEntries == []
    {
      wishlists, savings, moneyEntries := [], [], [];
      nextId := 0;
    }

    /** GET /api/wishlists (server.js:46-53). */
    method ListWishlists() returns (rows: seq<WishlistRow>)
      ensures rows == Listing(wishlists, savings)
      ensures |rows| == |wishlists|
      ensures forall i | 0 <= i < |rows| ::
                rows[i].item == wishlists[i] && rows[i].totalSaved == TotalSaved(savings, wishlists[i].id)
    {
      rows := Listing(wishlists, savings);
    }

    /** POST /api/wishlists (server.js:55-66). */
    method AddWishlist(name: string, price: int, description: Option<string>, now: int) returns (w: Wishlist)
      requires Valid()
      modifies this
      ensures Valid()
      ensures w == Wishlist(w.id, name, price, OrEmpty(description), now)
      ensures forall i | 0 <= i < |old(wishlists)| :: old(wishlists)[i].id != w.id
      ensures wishlists == old(wishlists) + [w]
      ensures savings == old(savings) && moneyEntries == old(moneyEntries)
      ensures TotalSaved(savings, w.id) == 0
    {
      TotalSavedOfUnusedId(savings, nextId);
      w := Wishlist(nextId, name, price, OrEmpty(description), now);
      wishlists := wishlists + [w];
      nextId := nextId + 1;
    }

    /** PUT /api/wishlists/:id (server.js:68-85): the new name, price and
        description replace the old ones; id and createdAt are kept. */
    method UpdateWishlist(id: Id, name: string, price: int, description: Option<string>) returns (r: Result<Wishlist>)
      requires Valid()
      modifies this
      ensures Valid()
      ensures savings == old(savings) && moneyEntries == old(moneyEntries) && nextId == old(nextId)
      ensures var i := FindIndex(old(wishlists), WishlistKey, id);
              if i == -1 then r == NotFound && wishlists == old(wishlists)
              else && r == Ok(Wishlist(id, name, price, OrEmpty(description), old(wishlists)[i].createdAt))
                   && wishlists == old(wishlists)[i := r.value]
    {
      var i := FindIndex(wishlists, WishlistKey, id);
      if i == -1 {
        return NotFound;
      }
      var w := wishlists[i].(name := name, price := price, description := OrEmpty(description));
      wishlists := wishlists[i := w];
      r := Ok(w);
    }

    /** DELETE /api/wishlists/:id (server.js:87-100): removes the item and
        every saving filed under it. */
    method DeleteWishlist(id: Id) returns (r: Result<()>)
      requires Valid()
      modifies this
      ensures Valid()
      ensures moneyEntries == old(moneyEntries) && nextId == old(nextId)
      ensures var i := FindIndex(old(wishlists), WishlistKey, id);
              if i == -1 then r == NotFound && wishlists == old(wishlists) && savings == old(savings)
              else && r == Ok(())
                   && wishlists == RemoveAt(old(wishlists), i)
                   && savings == Filter(old(savings), IsNotFor(id))
      ensures old(NoOrphanSavings(wishlists, savings)) ==> NoOrphanSavings(wishlists, savings)
    {
      var i := FindIndex(wishlists, WishlistKey, id);
      if i == -1 {
        return NotFound;
      }
      ghost var oldWishlists, oldSavings := wishlists, savings;
      savings := Filter(savings, IsNotFor(id));
      wishlists := RemoveAt(wishlists, i);
      r := Ok(());
      CascadeRemovesExactly(oldSavings, id);
      SubsequenceKeepsKeys(savings, oldSavings, SavingKey, nextId);
      SubsequenceKeepsBound(savings, oldSavings, SavingOwner, nextId);
      SubsequenceMembers(savings, oldSavings);
      RemoveAtKeepsKeys(oldWishlists, i, WishlistKey, nextId);
      CascadeKeepsOwners(oldWishlists, oldSavings, i, id);
    }

    /** GET /api/savings (server.js:103-105). */
    method ListSavings() returns (r: seq<Saving>)
      ensures r == savings
    {
      r := savings;
    }

    /** POST /api/savings (server.js:107-118). The wishlist id is not checked,
        the amount is not checked against the available money, and no money
        entry is written. */
    method AddSaving(wishlistId: Id, amount: int, description: Option<string>, now: int) returns (s: Saving)
      requires Valid()
      modifies this
      ensures Valid()
      ensures s == Saving(s.id, wishlistId, amount, OrEmpty(description), now)
      ensures forall i | 0 <= i < |old(savings)| :: old(savings)[i].id != s.id
      ensures savings == old(savings) + [s]
      ensures wishlists == old(wishlists) && moneyEntries == old(moneyEntries)
      ensures TotalSaved(savings, wishlistId) == old(TotalSaved(savings, wishlistId)) + amount
      ensures forall other: Id | other != wishlistId :: TotalSaved(savings, other) == old(TotalSaved(savings, other))
    {
      s := Saving(nextId, wishlistId, amount, OrEmpty(description), now);
      TotalSavedAfterAppend(savings, s, wishlistId);
      forall other: Id | other != wishlistId
        ensures TotalSaved(savings + [s], other) == TotalSaved(savings, other)
      {
        TotalSavedAfterAppend(savings, s, other);
      }
      savings := savings + [s];
      // a random UUID never equals an id posted earlier as `wishlistId`
      nextId := if wishlistId < nextId + 1 then nextId + 1 else wishlistId + 1;
    }

    /** DELETE /api/savings/:id (server.js:120-130). */
    method DeleteSaving(id: Id) returns (r: Result<()>)
      requires Valid()
      modifies this
      ensures Valid()
      ensures wishlists == old(wishlists) && moneyEntries == old(moneyEntries) && nextId == old(nextId)
      ensures var i := FindIndex(old(savings), SavingKey, id);
              if i == -1 then r == NotFound && savings == old(savings)
              else r == Ok(()) && savings == RemoveAt(old(savings), i)
      ensures forall i | 0 <= i < |savings| :: savings[i].id != id
    {
      var i := FindIndex(savings, SavingKey, id);
      if i == -1 {
        return NotFound;
      }
      RemoveAtKeepsKeys(savings, i, SavingKey, nextId);
      ghost var before := savings;
      savings := RemoveAt(savings, i);
      r := Ok(());
      forall j | 0 <= j < |savings| ensures savings[j].id != id {
        var j' := if j < i then j else j + 1;
        assert savings[j] == before[j'] && SavingKey(before[i]) != SavingKey(before[j']);
      }
    }

    /** GET /api/money-entries (server.js:133-135). */
    method ListMoneyEntries() returns (r: seq<MoneyEntry>)
      ensures r == moneyEntries
    {
      r := moneyEntries;
    }

    /** POST /api/money-entries (server.js:137-149). The type and amount are
        stored unchecked; there is no insufficient-funds rule. */
    method AddMoneyEntry(kind: string, amount: int, description: Option<string>, category: Option<string>, now: int)
      returns (e: MoneyEntry)
      requires Valid()
      modifies this
      ensures Valid()
      ensures e == MoneyEntry(e.id, kind, amount, OrEmpty(description), OrEmpty(category), now)
      ensures forall i | 0 <= i < |old(moneyEntries)| :: old(moneyEntries)[i].id != e.id
      ensures moneyEntries == old(moneyEntries) + [e]
      ensures wishlists == old(wishlists) && savings == old(savings)
      ensures AvailableMoney(moneyEntries) == old(AvailableMoney(moneyEntries)) + Effect(e)
    {
      e := MoneyEntry(nextId, kind, amount, OrEmpty(description), OrEmpty(category), now);
      AvailableAfterAppend(moneyEntries, e);
      moneyEntries := moneyEntries + [e];
      nextId := nextId + 1;
    }

    /** PUT /api/money-entries/:id (server.js:151-169): type, amount,
        description and category are replaced; id and createdAt are kept. */
    method UpdateMoneyEntry(id: Id, kind: string, amount: int, description: Option<string>, category: Option<string>)
      returns (r: Result<MoneyEntry>)
      requires Valid()
      modifies this
      ensures Valid()
      ensures wishlists == old(wishlists) && savings == old(savings) && nextId == old(nextId)
      ensures var i := FindIndex(old(moneyEntries), EntryKey, id);
              if i == -1 then r == NotFound && moneyEntries == old(moneyEntries)
              else && r == Ok(MoneyEntry(id, kind, amount, OrEmpty(description), OrEmpty(category),
                                         old(moneyEntries)[i].timestamp))
                   && moneyEntries == old(moneyEntries)[i := r.value]
                   && AvailableMoney(moneyEntries)
                      == old(AvailableMoney(moneyEntries)) - Effect(old(moneyEntries)[i]) + Effect(r.value)
    {
      var i := FindIndex(moneyEntries, EntryKey, id);
      if i == -1 {
        return NotFound;
      }
      var e := moneyEntries[i].(kind := kind, amount := amount, note := OrEmpty(description), category := OrEmpty(category));
      AvailableAfterReplace(moneyEntries, i, e);
      moneyEntries := moneyEntries[i := e];
      r := Ok(e);
    }

    /** DELETE /api/money-entries/:id (server.js:171-181). */
    method DeleteMoneyEntry(id: Id) returns (r: Result<()>)
      requires Valid()
      modifies this
      ensures Valid()
      ensures wishlists == old(wishlists) && savings == old(savings) && nextId == old(nextId)
      ensures var i := FindIndex(old(moneyEntries), EntryKey, id);
              if i == -1 then r == NotFound && moneyEntries == old(moneyEntries)
              else && r == Ok(())
                   && moneyEntries == RemoveAt(old(moneyEntries), i)
                   && AvailableMoney(moneyEntries) == old(AvailableMoney(moneyEntries)) - Effect(old(moneyEntries)[i])
    {
      var i := FindIndex(moneyEntries, EntryKey, id);
      if i == -1 {
        return NotFound;
      }
      RemoveAtKeepsKeys(moneyEntries, i, EntryKey, nextId);
      AvailableAfterRemove(moneyEntries, i);
      moneyEntries := RemoveAt(moneyEntries, i);
      r := Ok(());
    }

    /** GET /api/dashboard (server.js:184-211). */
    method GetDashboard() returns (d: Dashboard)
      ensures d.wishlists == Listing(wishlists, savings)
      ensures d.totalWishlistValue == Sum(wishlists, Price)
      ensures d.totalSaved == Sum(savings, SavingAmount)
      ensures d.availableMoney == Sum(moneyEntries, Effect)
      ensures d.totalIncome == TotalOfKind(moneyEntries, "income")
      ensures d.totalExpenses == TotalOfKind(moneyEntries, "expense")
      ensures |d.moneyEntries| == if |moneyEntries| <= RecentCount then |moneyEntries| else RecentCount
      ensures moneyEntries == moneyEntries[..|moneyEntries| - |d.moneyEntries|] + d.moneyEntries
    {
      d := DashboardOf(wishlists, savings, moneyEntries);
      AvailableIsNetEffect(moneyEntries);
    }
  }
}
