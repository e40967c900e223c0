/** Routes/SellOrders.js: the read-only listing queries and the
    status/delivery-user update of one resell listing. */
module SellOrderRoutes {
  import opened Documents

  /** The books of `books` whose ids some listing of `listings` references
      (`Book.find({_id: {$in: listings.map(l => l.Book_id)}})`). */
  function ReferencedBooks(books: map<Id, Book>, listings: map<Id, Listing>): (r: map<Id, Book>)
    ensures forall b :: b in r <==> b in books && exists l :: l in listings && listings[l].bookId == b
    ensures forall b :: b in r ==> r[b] == books[b]
  {
    map b | b in books && b in (set l | l in listings :: listings[l].bookId) :: books[b]
  }

  /** The users of `users` that some listing of `listings` belongs to. */
  function ReferencedUsers(users: map<Id, User>, listings: map<Id, Listing>): (r: map<Id, User>)
    ensures forall u :: u in r <==> u in users && exists l :: l in listings && listings[l].userId == u
    ensures forall u :: u in r ==> r[u] == users[u]
  {
    map u | u in users && u in (set l | l in listings :: listings[l].userId) :: users[u]
  }

  /** The listings the caller offers (`Reseller.find({User_id: req.userId})`). */
  function ListingsOf(listings: map<Id, Listing>, caller: Id): (r: map<Id, Listing>)
    ensures forall l :: l in r <==> l in listings && listings[l].userId == caller
    ensures forall l :: l in r ==> r[l] == listings[l]
  {
    map l | l in listings && listings[l].userId == caller :: listings[l]
  }

  datatype SellOrdersReply = SellOrdersReply(code: int, books: map<Id, Book>, listings: map<Id, Listing>)

  /** GET /SellOrders: 404 when the caller offers nothing, otherwise the
      caller's listings and the books they reference. */
  function CallerSellOrders(db: Store, caller: Id): (r: SellOrdersReply)
    reads db
    ensures r.code == 404 || r.code == 200
    ensures r.code == 404 <==> forall l :: l in db.resellers ==> db.resellers[l].userId != caller
    ensures r.code == 200 ==> r.listings == ListingsOf(db.resellers, caller)
    ensures r.code == 200 ==> forall b :: b in r.books <==>
      b in db.books && exists l :: l in db.resellers && db.resellers[l].userId == caller && db.resellers[l].bookId == b
    ensures forall b :: b in r.books ==> b in db.books && r.books[b] == db.books[b]
  {
    var mine := ListingsOf(db.resellers, caller);
    if mine == map[] then
      SellOrdersReply(404, map[], map[])
    else
      assert exists l :: l in mine;
      SellOrdersReply(200, ReferencedBooks(db.books, mine), mine)
  }

  datatype AllSellOrdersReply = AllSellOrdersReply(
    listings: map<Id, Listing>, books: map<Id, Book>, users: map<Id, User>, delivery: Id)

  /** GET /SellOrder: every listing, the books and users they reference,
      and the caller as the delivery user. */
  function AllSellOrders(db: Store, caller: Id): (r: AllSellOrdersReply)
    reads db
    ensures r.listings == db.resellers && r.delivery == caller
    ensures forall b :: b in r.books <==> b in db.books && exists l :: l in db.resellers && db.resellers[l].bookId == b
    ensures forall u :: u in r.users <==> u in db.users && exists l :: l in db.resellers && db.resellers[l].userId == u
    ensures forall b :: b in r.books ==> r.books[b] == db.books[b]
    ensures forall u :: u in r.users ==> r.users[u] == db.users[u]
  {
    AllSellOrdersReply(db.resellers, ReferencedBooks(db.books, db.resellers), ReferencedUsers(db.users, db.resellers), caller)
  }

  /** GET /resellerbook (the first of the two handlers; the second is
      registered after it for the same path and never runs). */
  function ResellerBooks(db: Store): (r: (map<Id, Listing>, map<Id, Book>))
    reads db
    ensures r.0 == db.resellers
    ensures forall b :: b in r.1 <==> b in db.books && exists l :: l in db.resellers && db.resellers[l].bookId == b
    ensures forall b :: b in r.1 ==> r.1[b] == db.books[b]
  {
    (db.resellers, ReferencedBooks(db.books, db.resellers))
  }

  /** `Reseller.updateOne({_id: id}, {$set: {Resell_Status, Delivery_User_id}})`:
      the listings afterwards and `modifiedCount`, which counts the
      document only when one of its values actually changed. */
  function SetListingStatus(listings: map<Id, Listing>, id: Id, status: string, caller: Id): (r: (map<Id, Listing>, nat))
    ensures r.1 <= 1
    ensures r.1 == 0 <==> id !in listings || (listings[id].status == status && listings[id].deliveryUser == Some(caller))
    ensures r.1 == 0 ==> r.0 == listings
    ensures r.0.Keys == listings.Keys
    ensures id in listings ==>
      && r.0[id].status == status && r.0[id].deliveryUser == Some(caller)
      && r.0[id].bookId == listings[id].bookId && r.0[id].userId == listings[id].userId
    ensures forall other :: other in listings && other != id ==> r.0[other] == listings[other]
  {
    if id !in listings then (listings, 0)
    else
      var updated := listings[id].(status := status, deliveryUser := Some(caller));
      if updated == listings[id] then (listings, 0) else (listings[id := updated], 1)
  }

  /** Sending the same update twice: the second one modifies nothing. */
  lemma RepeatedUpdateModifiesNothing(listings: map<Id, Listing>, id: Id, status: string, caller: Id)
    ensures var once := SetListingStatus(listings, id, status, caller).0;
      SetListingStatus(once, id, status, caller) == (once, 0)
  {
  }

  /** PUT /:Status/SellOrders. The status is any string; `bookId` is read
      from the body but takes no part in the update. 404 when nothing was
      modified: the id is unknown or the listing already had these values. */
  method UpdateSellOrder(db: Store, caller: Id, status: string, resellerId: Id, bookId: Id) returns (code: int)
    modifies db
    ensures code == 200 || code == 404
    ensures code == 404 <==> SetListingStatus(old(db.resellers), resellerId, status, caller).1 == 0
    ensures code == 404 ==> unchanged(db)
    ensures db.Snapshot() == old(db.Snapshot()).(resellers := SetListingStatus(old(db.resellers), resellerId, status, caller).0)
  {
    var update := SetListingStatus(db.resellers, resellerId, status, caller);
    db.resellers := update.0;
    code := if update.1 == 0 then 404 else 200;
  }
}
