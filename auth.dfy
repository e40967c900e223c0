/** Routes/Auth.js: the OTP flows on users and on the registration OTP
    collection, password reset, registration, and user delete/update. */
module AuthRoutes {
  import opened Documents
  import opened Text

  /** `crypto.randomInt(min, max)`: an integer in [min, max), picked by the
      random `draw`. */
  function RandomInt(min: int, max: int, draw: nat): (r: int)
    requires min < max
    ensures min <= r < max
  {
    min + draw % (max - min)
  }

  /** Every value of the range is some draw's result, so the parameter
      does not narrow what the generator can produce. */
  lemma RandomIntReachesRange(min: int, max: int, r: int)
    requires min <= r < max
    ensures RandomInt(min, max, r - min) == r
  {
  }

  /** The six-digit OTP both flows draw. */
  function SixDigitOtp(draw: nat): (otp: nat)
    ensures 100000 <= otp < 999999
  {
    RandomInt(100000, 999999, draw)
  }

  // ---------------------------------------------------------------- forgot-password, verify-otp, reset-password

  /** The opening words of the OTP e-mail for each purpose the route knows. */
  function OtpLeadIn(purpose: string): Option<string> {
    if purpose == "forgotpassword" then Some("Your OTP to reset your password is: ")
    else if purpose == "deliverydetail" then Some("Your delivery confirmation OTP is: ")
    else if purpose == "reselldelivery" then Some("Your OTP to collect the resell product is: ")
    else None
  }

  /** The closing sentences of the OTP e-mail for each purpose. */
  function OtpClosing(purpose: string): string {
    if purpose == "forgotpassword" then
      ". \nDo not share this code with anyone. It will expire in 10 minutes."
    else if purpose == "deliverydetail" then
      ". \nPlease provide this code to the delivery agent to receive your order."
    else
      ". \nPlease provide this code to the delivery agent to complete the pickup. \nDo not share this code with anyone. It is valid for 10 minutes."
  }

  /** The text of the OTP e-mail; `None` is the `undefined` text sent for
      any other purpose. */
  function OtpMessage(purpose: string, otp: nat): (m: Option<string>)
    ensures m.Some? <==> purpose == "forgotpassword" || purpose == "deliverydetail" || purpose == "reselldelivery"
    ensures m.Some? ==> OtpLeadIn(purpose).Some? && OtpLeadIn(purpose).value + Decimal(otp) <= m.value
  {
    match OtpLeadIn(purpose)
    case None => None
    case Some(lead) =>
      assert lead + Decimal(otp) <= lead + Decimal(otp) + OtpClosing(purpose);
      Some(lead + Decimal(otp) + OtpClosing(purpose))
  }

  /** POST /:otpmessage/forgot-password. The new OTP is stored on the user
      before the e-mail text is chosen, whatever the purpose. The returned
      message is the text of the e-mail sent to `email`. */
  method ForgotPassword(db: Store, purpose: string, email: string, draw: nat)
    returns (code: int, message: Option<string>, ghost userId: Id)
    modifies db
    ensures code == 200 || code == 400
    ensures code == 400 <==> UsersWithEmail(old(db.users), email) == {}
    ensures code == 400 ==> unchanged(db) && message == None
    ensures code == 200 ==>
      && userId in UsersWithEmail(old(db.users), email)
      && db.Snapshot() == old(db.Snapshot()).(users := old(db.users)[userId := old(db.users)[userId].(otp := Num(SixDigitOtp(draw)))])
      && message == OtpMessage(purpose, SixDigitOtp(draw))
    ensures code == 200 ==> db.users[userId].otp.Num? && 100000 <= db.users[userId].otp.n < 999999
  {
    userId := "";
    var matches := UsersWithEmail(db.users, email);
    if matches == {} {
      return 400, None, userId;
    }
    var found :| found in matches;
    userId := found;
    var otp := SixDigitOtp(draw);
    db.users := db.users[found := db.users[found].(otp := Num(otp))];
    message := OtpMessage(purpose, otp);
    code := 200;
  }

  /** POST /verify-otp: succeeds only when the stored OTP is strictly equal
      (`===`) to the supplied one, and then clears it to null. */
  method VerifyOtp(db: Store, email: string, otp: JsValue) returns (code: int, ghost userId: Id)
    modifies db
    ensures code == 200 || code == 400
    ensures code == 400 ==> unchanged(db)
    ensures UsersWithEmail(old(db.users), email) == {} ==> code == 400
    ensures (forall u :: u in UsersWithEmail(old(db.users), email) ==> old(db.users)[u].otp != otp) ==> code == 400
    ensures UsersWithEmail(old(db.users), email) != {} && (forall u :: u in UsersWithEmail(old(db.users), email) ==> old(db.users)[u].otp == otp) ==> code == 200
    ensures code == 200 ==>
      && userId in UsersWithEmail(old(db.users), email) && old(db.users)[userId].otp == otp
      && db.Snapshot() == old(db.Snapshot()).(users := old(db.users)[userId := old(db.users)[userId].(otp := Null)])
    ensures code == 400 && UsersWithEmail(old(db.users), email) != {} ==>
      userId in UsersWithEmail(old(db.users), email) && old(db.users)[userId].otp != otp
  {
    userId := "";
    var matches := UsersWithEmail(db.users, email);
    if matches == {} {
      return 400, userId;
    }
    var found :| found in matches;
    userId := found;
    if db.users[found].otp != otp {
      return 400, userId;
    }
    db.users := db.users[found := db.users[found].(otp := Null)];
    code := 200;
  }

  /** POST /reset-password: overwrites the hash of the user with that
      e-mail; no OTP is checked. `passwordHash` is bcrypt's result. */
  method ResetPassword(db: Store, email: string, passwordHash: string) returns (code: int, ghost userId: Id)
    modifies db
    ensures code == 200 || code == 400
    ensures code == 400 <==> UsersWithEmail(old(db.users), email) == {}
    ensures code == 400 ==> unchanged(db)
    ensures code == 200 ==>
      && userId in UsersWithEmail(old(db.users), email)
      && db.Snapshot() == old(db.Snapshot()).(users := old(db.users)[userId := old(db.users)[userId].(password := passwordHash)])
  {
    userId := "";
    var matches := UsersWithEmail(db.users, email);
    if matches == {} {
      return 400, userId;
    }
    var found :| found in matches;
    userId := found;
    db.users := db.users[found := db.users[found].(password := passwordHash)];
    code := 200;
  }

  // ---------------------------------------------------------------- verifyotp, registerotp

  /** POST /verifyotp. The record is looked up by the lower-cased e-mail but
      deleted by the e-mail as given; `deleted` names the record removed. */
  method VerifyRegistrationOtp(db: Store, email: string, otp: JsValue)
    returns (code: int, ghost recordId: Id, ghost deleted: Option<Id>)
    modifies db
    ensures code == 200 || code == 400
    ensures email == "" || !Truthy(otp) ==> code == 400
    ensures OtpsWithEmail(old(db.otps), ToLower(email)) == {} ==> code == 400
    ensures code == 400 ==> unchanged(db)
    ensures code == 200 ==>
      && recordId in OtpsWithEmail(old(db.otps), ToLower(email)) && otp == Str(old(db.otps)[recordId].otp)
      && (deleted == None <==> OtpsWithEmail(old(db.otps), email) == {})
      && (deleted.Some? ==> deleted.value in OtpsWithEmail(old(db.otps), email))
      && db.Snapshot() == old(db.Snapshot()).(otps := if deleted.Some? then old(db.otps) - {deleted.value} else old(db.otps))
    ensures code == 200 && ToLower(email) != email ==> recordId in db.otps
    ensures code == 400 && email != "" && Truthy(otp) && OtpsWithEmail(old(db.otps), ToLower(email)) != {} ==>
      recordId in OtpsWithEmail(old(db.otps), ToLower(email)) && otp != Str(old(db.otps)[recordId].otp)
  {
    recordId, deleted := "", None;
    if email == "" || !Truthy(otp) {
      return 400, recordId, deleted;
    }
    var lookup := OtpsWithEmail(db.otps, ToLower(email));
    if lookup == {} {
      return 400, recordId, deleted;
    }
    var found :| found in lookup;
    recordId := found;
    if Str(db.otps[found].otp) != otp {
      return 400, recordId, deleted;
    }
    var doomed := OtpsWithEmail(db.otps, email);
    if doomed != {} {
      var d :| d in doomed;
      if ToLower(email) != email {
        LookupMissesMixedCase(db.otps, email, found);
      }
      db.otps := db.otps - {d};
      deleted := Some(d);
    }
    code := 200;
  }

  /** A record found by the lower-cased form of an e-mail that is not
      lower-case is never among the records `deleteOne({email})` matches. */
  lemma LookupMissesMixedCase(otps: map<Id, OtpRecord>, email: string, found: Id)
    requires found in OtpsWithEmail(otps, ToLower(email)) && ToLower(email) != email
    ensures found !in OtpsWithEmail(otps, email)
  {
  }

  /** A mixed-case e-mail cannot be lower-case after lowering: the lookup
      and the deletion use different keys exactly when it holds a capital. */
  lemma MixedCaseLookupDiffers(email: string, i: nat)
    requires i < |email| && IsUpper(email[i])
    ensures ToLower(email) != email
  {
    ToLowerFixesOnlyLowerCase(email);
  }

  /** POST /registerotp. Keeps one record per e-mail: an existing record's
      code is overwritten, otherwise a record is inserted under `newId`.
      The returned `otp` is the code e-mailed; a failing mail gives 500
      after the record has been written. */
  method RegisterOtp(db: Store, email: string, draw: nat, newId: Id, mailFails: bool)
    returns (code: int, otp: string, ghost recordId: Id)
    modifies db
    ensures code == 200 || code == 400 || code == 500
    ensures code == 400 <==> email == ""
    ensures code == 400 ==> unchanged(db)
    ensures email != "" ==> otp == Decimal(SixDigitOtp(draw)) && |otp| == 6
    ensures email != "" && OtpsWithEmail(old(db.otps), email) == {} && newId in old(db.otps) ==> code == 500 && unchanged(db)
    ensures email != "" && OtpsWithEmail(old(db.otps), email) != {} ==>
      && recordId in OtpsWithEmail(old(db.otps), email)
      && db.Snapshot() == old(db.Snapshot()).(otps := old(db.otps)[recordId := OtpRecord(email, otp)])
    ensures email != "" && OtpsWithEmail(old(db.otps), email) == {} && newId !in old(db.otps) ==>
      && recordId == newId
      && db.Snapshot() == old(db.Snapshot()).(otps := old(db.otps)[newId := OtpRecord(email, otp)])
    ensures code == 200 <==> email != "" && !mailFails && (OtpsWithEmail(old(db.otps), email) != {} || newId !in old(db.otps))
    ensures old(OtpEmailsUnique(db.otps)) ==> OtpEmailsUnique(db.otps)
    ensures old(OtpEmailsUnique(db.otps)) && code != 400 && !unchanged(db) ==> OtpsWithEmail(db.otps, email) == {recordId}
  {
    recordId := "";
    otp := "";
    if email == "" {
      return 400, otp, recordId;
    }
    var n := SixDigitOtp(draw);
    SixDigits(n);
    otp := Decimal(n);
    var existing := OtpsWithEmail(db.otps, email);
    if existing != {} {
      var found :| found in existing;
      recordId := found;
      if OtpEmailsUnique(db.otps) {
        WriteOtpKeepsEmailsUnique(db.otps, found, db.otps[found].(otp := otp));
      }
      db.otps := db.otps[found := db.otps[found].(otp := otp)];
    } else {
      if newId in db.otps {
        return 500, otp, recordId;
      }
      recordId := newId;
      if OtpEmailsUnique(db.otps) {
        WriteOtpKeepsEmailsUnique(db.otps, newId, OtpRecord(email, otp));
      }
      db.otps := db.otps[newId := OtpRecord(email, otp)];
    }
    code := if mailFails then 500 else 200;
  }

  // ---------------------------------------------------------------- registration

  /** The express-validator chain of POST /User; `isEmail` and
      `isMobilePhone` are the validator library's checks. */
  predicate RegistrationValid(
    firstName: string, lastName: string, email: string, mobile: string, password: string,
    isEmail: string -> bool, isMobilePhone: string -> bool)
  {
    firstName != "" && lastName != "" && isEmail(email) && isMobilePhone(mobile) && |password| >= 6
  }

  /** POST /User. An e-mail already registered gives 400 and no user;
      `passwordHash` is bcrypt's result and `newId` the new user's id. */
  method Register(
    db: Store, firstName: string, lastName: string, email: string, mobile: string, password: string,
    role: Option<string>, isEmail: string -> bool, isMobilePhone: string -> bool,
    passwordHash: string, newId: Id)
    returns (code: int)
    modifies db
    ensures code == 201 || code == 400 || code == 500
    ensures code == 400 <==>
      !RegistrationValid(firstName, lastName, email, mobile, password, isEmail, isMobilePhone)
      || UsersWithEmail(old(db.users), email) != {}
    ensures code == 500 <==> code != 400 && newId in old(db.users)
    ensures code != 201 ==> unchanged(db)
    ensures code == 201 ==> db.Snapshot() == old(db.Snapshot()).(users :=
      old(db.users)[newId := User(firstName, lastName, email, mobile, passwordHash, role, Undefined)])
    ensures old(UserEmailsUnique(db.users)) ==> UserEmailsUnique(db.users)
  {
    if !RegistrationValid(firstName, lastName, email, mobile, password, isEmail, isMobilePhone) {
      return 400;
    }
    if UsersWithEmail(db.users, email) != {} {
      return 400;
    }
    if newId in db.users {
      return 500;
    }
    var user := User(firstName, lastName, email, mobile, passwordHash, role, Undefined);
    if UserEmailsUnique(db.users) {
      InsertUserKeepsEmailsUnique(db.users, newId, user);
    }
    db.users := db.users[newId := user];
    code := 201;
  }

  // ---------------------------------------------------------------- DELETE /User, PUT /User

  /** DELETE /User. */
  method DeleteUser(db: Store, userId: Id) returns (code: int)
    modifies db
    ensures code == 200 || code == 400 || code == 404
    ensures code == 400 <==> userId == ""
    ensures code == 404 <==> userId != "" && userId !in old(db.users)
    ensures code != 200 ==> unchanged(db)
    ensures code == 200 ==> db.Snapshot() == old(db.Snapshot()).(users := old(db.users) - {userId})
  {
    if userId == "" {
      return 400;
    }
    if userId !in db.users {
      return 404;
    }
    db.users := db.users - {userId};
    code := 200;
  }

  /** `updatedData` of PUT /User: the fields to `$set`. */
  datatype UserPatch = UserPatch(
    firstName: Option<string>,
    lastName: Option<string>,
    email: Option<string>,
    phone: Option<string>,
    password: Option<string>,
    role: Option<string>)

  /** A field enters the patch only when the body's value is truthy; the
      password enters as its bcrypt hash. */
  function PatchFromBody(
    firstname: string, lastname: string, email: string, mobile: string, password: string, role: string,
    passwordHash: string): UserPatch
  {
    UserPatch(
      if firstname != "" then Some(firstname) else None,
      if lastname != "" then Some(lastname) else None,
      if email != "" then Some(email) else None,
      if mobile != "" then Some(mobile) else None,
      if password != "" then Some(passwordHash) else None,
      if role != "" then Some(role) else None)
  }

  /** `$set` of a patch on one user. */
  function ApplyUserPatch(u: User, p: UserPatch): User {
    u.(firstName := p.firstName.GetOr(u.firstName),
       lastName := p.lastName.GetOr(u.lastName),
       email := p.email.GetOr(u.email),
       phone := p.phone.GetOr(u.phone),
       password := p.password.GetOr(u.password),
       role := if p.role.Some? then p.role else u.role)
  }

  /** Only the truthy fields of the body overwrite; every other field,
      the OTP included, is as it was. */
  lemma UpdateTouchesOnlySuppliedFields(
    u: User, firstname: string, lastname: string, email: string, mobile: string, password: string, role: string,
    passwordHash: string)
    ensures var v := ApplyUserPatch(u, PatchFromBody(firstname, lastname, email, mobile, password, role, passwordHash));
      && v.firstName == (if firstname != "" then firstname else u.firstName)
      && v.lastName == (if lastname != "" then lastname else u.lastName)
      && v.email == (if email != "" then email else u.email)
      && v.phone == (if mobile != "" then mobile else u.phone)
      && v.password == (if password != "" then passwordHash else u.password)
      && v.role == (if role != "" then Some(role) else u.role)
      && v.otp == u.otp
  {
  }

  /** Applying the same patch twice is applying it once. */
  lemma ApplyUserPatchIdempotent(u: User, p: UserPatch)
    ensures ApplyUserPatch(ApplyUserPatch(u, p), p) == ApplyUserPatch(u, p)
  {
  }

  /** Registration keeps e-mails unique, but the update does not check
      them: moving one user onto another's e-mail is accepted. */
  lemma UpdateCanDuplicateEmail()
    ensures exists users: map<Id, User>, id: Id, p: UserPatch ::
      id in users && UserEmailsUnique(users) && !UserEmailsUnique(users[id := ApplyUserPatch(users[id], p)])
  {
    var a := User("A", "A", "a@x", "1", "h", None, Undefined);
    var b := User("B", "B", "b@x", "2", "h", None, Undefined);
    var users := map["1" := a, "2" := b];
    var p := UserPatch(None, None, Some("a@x"), None, None, None);
    var after := users["2" := ApplyUserPatch(users["2"], p)];
    assert after["1"].email == after["2"].email;
    assert !UserEmailsUnique(after);
  }

  /** PUT /User: `updatedData` is built field by field, then `$set` on the user. */
  method UpdateUser(
    db: Store, userId: Id, firstname: string, lastname: string, email: string, mobile: string,
    password: string, role: string, passwordHash: string)
    returns (code: int)
    modifies db
    ensures code == 200 || code == 400 || code == 404
    ensures code == 400 <==> userId == ""
    ensures code == 404 <==> userId != "" && userId !in old(db.users)
    ensures code != 200 ==> unchanged(db)
    ensures code == 200 ==> db.Snapshot() == old(db.Snapshot()).(users := old(db.users)[userId :=
      ApplyUserPatch(old(db.users)[userId], PatchFromBody(firstname, lastname, email, mobile, password, role, passwordHash))])
  {
    if userId == "" {
      return 400;
    }
    if userId !in db.users {
      return 404;
    }
    var updatedData := UserPatch(None, None, None, None, None, None);
    if firstname != "" {
      updatedData := updatedData.(firstName := Some(firstname));
    }
    if lastname != "" {
      updatedData := updatedData.(lastName := Some(lastname));
    }
    if email != "" {
      updatedData := updatedData.(email := Some(email));
    }
    if mobile != "" {
      updatedData := updatedData.(phone := Some(mobile));
    }
    if password != "" {
      updatedData := updatedData.(password := Some(passwordHash));
    }
    if role != "" {
      updatedData := updatedData.(role := Some(role));
    }
    db.users := db.users[userId := ApplyUserPatch(db.users[userId], updatedData)];
    code := 200;
  }
}
