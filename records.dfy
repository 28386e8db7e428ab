/** The three kinds of record the ledger keeps (server.js:16-18), as values. */
module Records {

  /** Record identity. The server draws a random UUID for every new record;
      here an identity is a natural number handed out by the store. */
  type Id = nat

  datatype Option<T> = None | Some(value: T)

  /** `field || ''` for an optional text field of a request body. */
  function OrEmpty(field: Option<string>): string
  {
    match field
    case None => ""
    case Some(text) => text
  }

  /** A wishlist item (server.js:57-63). Prices are whole rupiah. */
  datatype Wishlist = Wishlist(id: Id, name: string, price: int, description: string, createdAt: int)

  /** A saving set aside for a wishlist item (server.js:109-115). The server
      does not check that `wishlistId` names a live item. */
  datatype Saving = Saving(id: Id, wishlistId: Id, amount: int, description: string, createdAt: int)

  /** A money entry (server.js:139-146). `kind` is the entry's `type` string,
      which the server stores unchecked: "income", "expense" and "saving" are the
      kinds the client offers, and any other string is kept as given.

      The server stores the free text as `description` and the time as
      `createdAt`; the browser reads the same entry's `note` and `date`
      (public/js/app.js:797, 808, 827, 844). This model names the two fields
      `note` and `timestamp` and lets both sides read them; what the browser
      does with the entries the server actually sends is modelled separately in
      History.FilterAsServed. */
  datatype MoneyEntry = MoneyEntry(id: Id, kind: string, amount: int, note: string, category: string, timestamp: int)

  function WishlistKey(w: Wishlist): Id { w.id }
  function SavingKey(s: Saving): Id { s.id }
  function SavingOwner(s: Saving): Id { s.wishlistId }
  function EntryKey(e: MoneyEntry): Id { e.id }
}
