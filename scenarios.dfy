/** Two requests in a row against the same store: what the first one
    leaves behind decides the second. */
module Scenarios {
  import opened Documents
  import opened AuthRoutes
  import opened SellOrderRoutes

  /** POST /verify-otp twice with the same numeric code: once the first
      attempt succeeds the code is spent and the second attempt fails. */
  method VerifyOtpTwice(db: Store, email: string, code: int) returns (first: int, second: int)
    requires UserEmailsUnique(db.users)
    modifies db
    ensures first == 200 ==> second == 400
  {
    ghost var u, v;
    first, u := VerifyOtp(db, email, Num(code));
    if first == 200 {
      forall w | w in UsersWithEmail(db.users, email)
        ensures db.users[w].otp != Num(code)
      {
        assert w in old(db.users) && old(db.users)[w].email == old(db.users)[u].email;
      }
    }
    second, v := VerifyOtp(db, email, Num(code));
  }

  /** PUT /:Status/SellOrders twice with the same body: the second call
      modifies nothing, answers 404, and the listings are as the first
      call left them. */
  method UpdateSellOrderTwice(db: Store, caller: Id, status: string, resellerId: Id, bookId: Id)
    returns (first: int, second: int)
    modifies db
    ensures second == 404
    ensures db.Snapshot() == old(db.Snapshot()).(resellers := SetListingStatus(old(db.resellers), resellerId, status, caller).0)
  {
    first := UpdateSellOrder(db, caller, status, resellerId, bookId);
    RepeatedUpdateModifiesNothing(old(db.resellers), resellerId, status, caller);
    second := UpdateSellOrder(db, caller, status, resellerId, bookId);
  }

  /** POST /User twice with the same e-mail: once the first registration
      succeeds, the second is refused with 400 and creates nothing. */
  method RegisterTwice(
    db: Store, firstName: string, lastName: string, email: string, mobile: string, password: string,
    role: Option<string>, isEmail: string -> bool, isMobilePhone: string -> bool,
    passwordHash: string, firstId: Id, secondId: Id)
    returns (first: int, second: int)
    modifies db
    ensures first == 201 ==> second == 400 && |db.users| == |old(db.users)| + 1
  {
    first := Register(db, firstName, lastName, email, mobile, password, role, isEmail, isMobilePhone, passwordHash, firstId);
    ghost var afterFirst := db.users;
    if first == 201 {
      assert firstId in UsersWithEmail(db.users, email);
    }
    second := Register(db, firstName, lastName, email, mobile, password, role, isEmail, isMobilePhone, passwordHash, secondId);
    if first == 201 {
      assert db.users == afterFirst;
    }
  }
}
