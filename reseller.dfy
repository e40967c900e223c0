/** Routes/Reseller.js: deletion of one resell listing. */
module ResellerRoutes {
  import opened Documents

  /** DELETE /resellerbook/:id. The listing must exist and so must the
      book it references; then exactly that listing is removed and its
      Book_id is reported back. */
  method DeleteListing(db: Store, listingId: Id) returns (code: int, deletedBookId: Option<Id>)
    modifies db
    ensures code == 200 || code == 404
    ensures code == 404 <==> listingId !in old(db.resellers) || old(db.resellers)[listingId].bookId !in old(db.books)
    ensures code == 404 ==> unchanged(db) && deletedBookId == None
    ensures code == 200 ==> deletedBookId == Some(old(db.resellers)[listingId].bookId)
    ensures code == 200 ==> db.Snapshot() == old(db.Snapshot()).(resellers := old(db.resellers) - {listingId})
    ensures forall l :: l in old(db.resellers) && l != listingId ==> l in db.resellers && db.resellers[l] == old(db.resellers)[l]
  {
    if listingId !in db.resellers {
      return 404, None;
    }
    var listing := db.resellers[listingId];
    if listing.bookId !in db.books {
      return 404, None;
    }
    db.resellers := db.resellers - {listingId};
    code, deletedBookId := 200, Some(listing.bookId);
  }
}
