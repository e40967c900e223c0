# FINDBOOKS back end: route handlers over the document store

FINDBOOKS is a second-hand and new book shop. Its Express/Mongoose back end
keeps carts, orders, payments, resell listings ("Reseller" documents), books,
users, registration OTPs and subcategories in MongoDB. Each route handler
loads documents, decides, writes them back and answers with an HTTP status.

This Dafny project models five route files:

- Routes/Payment.js: order, payment and cash-on-delivery handling.
- Routes/SellOrders.js: the resell-listing queries and the listing status update.
- Routes/Reseller.js: listing deletion.
- Routes/Auth.js: OTP flows, password reset, registration, and user update/delete.
- Routes/BookForm.js: the book catalogue.

How the model is built:

- **Store.** The database is one `Documents.Store` object with one `map<Id, _>` per collection.
  `Snapshot()` returns all the tables as one value. A handler's frame is stated as
  `db.Snapshot() == old(db.Snapshot()).(table := …)`.
- **Handlers.** Every handler that writes is a method. It returns the status code it answers with.
  Its contract gives the new state exactly, and says the store is unchanged on every error path.
- **Read-only handlers** are functions that `reads db`. Where `findOne` may pick any of several
  matches, the handler is a read-only method instead.
- **`findOne`** picks any matching document (`:|`). The pick is reported as a ghost result.
- **New documents.** The new document's ObjectId is a parameter (`newId`). If that id is already
  taken, the handler's catch answers 500 and nothing is written.
- **Outside inputs** are parameters:
  - the authenticated caller (`req.userId`);
  - random draws, the clock, and bcrypt hashes;
  - the HMAC-SHA256 function of RFC 2104 and the secret;
  - the validator library's `isEmail` and `isMobilePhone`;
  - whether the e-mail send fails.
- **Body fields.** A missing or empty string field of a body is `""`; both are falsy and both fail
  `notEmpty()`. An optional field that is either sent or not is an `Option`. OTPs compared with
  `===` are `JsValue`s, so a number and its string form differ as they do in JavaScript.

Module by module:

- `Text`: the built-in string conversions the handlers rely on.
  - `Buffer.toString("hex")`, proved injective.
  - The decimal rendering of an integer: its digits denote the number, and a six-digit OTP
    renders as six characters.
  - `toLowerCase` on ASCII letters.
- `PaymentRoutes`:
  - The gateway options.
  - The signature check: a payment is stored iff the signature matches.
  - `addorder`. The order takes the cart's lines. Then a loop marks every listing of an ordered
    book "Sell". Its invariant is `db.resellers == MarkSold(original, marked)`, where `marked`
    is the set of listings saved so far. An optional failing save stops the loop and leaves
    the earlier saves in place.
  - The status overwrite, validated against the four statuses. `OrderStatusesValid` is preserved.
  - Cash-on-delivery creation and completion.
- `SellOrderRoutes`:
  - The three listing queries.
  - The listing update, with Mongo's `modifiedCount`. An identical second update modifies
    nothing and answers 404.
- `ResellerRoutes`: listing deletion, guarded by its two existence checks.
- `AuthRoutes`:
  - Forgot-password, verify-otp and reset-password on the user record.
  - The registration OTP collection. `registerotp` keeps at most one record per e-mail.
    `verifyotp` looks the record up by the lower-cased e-mail but deletes it by the e-mail as
    given, so a mixed-case e-mail leaves the record in place.
  - Registration. It keeps e-mails unique.
  - User delete and partial update. The update can move a user onto another user's e-mail;
    `UpdateCanDuplicateEmail` exhibits this.
- `BookRoutes`:
  - Book creation. `Isoldbook` comes from the role, and ISBN uniqueness is enforced only for
    Admin. Creation therefore keeps the ISBNs of new (non-old) books unique. PUT /Book applies
    an ISBN without any check and can break this; `UpdateCanDuplicateNewIsbn` exhibits it.
  - Listing, partial update and delete.
  - Books by subcategory name.
- `Scenarios`: two requests in a row.
  - A spent forgot-password OTP cannot be verified again.
  - A repeated listing update answers 404.
  - A second registration with the same e-mail is refused.

## Model

| member | source | states |
|---|---|---|
| Text.HexEncode | Routes/Payment.js:28 | the hex form of random bytes has two characters per byte, all lower-case hex digits |
| Text.HexEncodeInjective | Routes/Payment.js:28 | different byte strings give different hex strings |
| Text.Decimal | Routes/Auth.js:124 | `toString()` of a non-negative integer is a non-empty string of decimal digits without a leading zero |
| Text.DecimalValue | Routes/Auth.js:124 | the digits `toString()` writes denote the number itself |
| Text.DecimalInjective | Routes/Auth.js:124 | different numbers render as different strings, so the stored code determines the drawn OTP |
| Text.SixDigits | Routes/Auth.js:124 | an OTP drawn from [100000, 999999) renders as exactly six characters |
| Text.ToLower | Routes/Auth.js:94 | lower-casing keeps the length and maps each character to its lower-case form |
| Text.ToLowerFixesOnlyLowerCase | Routes/Auth.js:94 | lower-casing leaves a string unchanged if and only if it holds no upper-case letter |
| Text.ToLowerIdempotent | Routes/Auth.js:94 | lower-casing twice is lower-casing once |
| Documents.InsertUserKeepsEmailsUnique | Routes/Auth.js:184-206 | inserting a user whose e-mail no user has keeps at most one user per e-mail |
| Documents.WriteOtpKeepsEmailsUnique | Routes/Auth.js:127-135 | writing an OTP record whose e-mail no other record has keeps at most one record per e-mail |
| PaymentRoutes.GatewayOptions | Routes/Payment.js:25-29 | the gateway amount is 100 times the requested amount, the currency is "INR", the receipt is 20 hex digits |
| PaymentRoutes.ReceiptsDifferWithDraws | Routes/Payment.js:28 | two orders whose random draws differ never share a receipt |
| PaymentRoutes.SignedPayload | Routes/Payment.js:53 | the signed text is the gateway order id, a bar, then the gateway payment id |
| PaymentRoutes.VerifyPayment | Routes/Payment.js:49-81 | 400 iff the signature differs from HMAC(secret, orderId "\|" paymentId), with no change; otherwise exactly one credit payment is added; the caller's order plays no part |
| PaymentRoutes.CreditPaymentFields | Routes/Payment.js:60-68 | a verified payment is "Completed", "Razorpay", "credit", for the caller-supplied order id and gateway payment id |
| PaymentRoutes.PaymentHistory | Routes/Payment.js:83-104 | GET /verify answers 404 iff there is no payment, otherwise every payment |
| PaymentRoutes.OrderLinesOf | Routes/Payment.js:122-125 | the order lines are the cart's (book_id, book_quantity) pairs, same length, same order |
| PaymentRoutes.BookIdsOf | Routes/Payment.js:135 | the ids queried are exactly the books of the order's lines |
| PaymentRoutes.FinalizedOrderContents | Routes/Payment.js:122-133 | after addorder the order holds the cart's lines and the supplied total; its status changes only to a supplied valid status; user and cart stay |
| PaymentRoutes.MarkSoldStep | Routes/Payment.js:141-144 | saving one more listing as "Sell" extends the marked set by that listing |
| PaymentRoutes.MarkSoldEffect | Routes/Payment.js:135-144 | after the loop every listing of an ordered book is "Sell" and every other listing is untouched |
| PaymentRoutes.MarkSoldIdempotent | Routes/Payment.js:135-144 | finalizing the same cart again marks nothing new |
| PaymentRoutes.AddOrder | Routes/Payment.js:108-152 | 404 with no change iff the cart is missing or no order references it; otherwise the order is finalized and the matched listings are marked (all on 200; the saves before the failing one on 500); valid order statuses are preserved |
| PaymentRoutes.MarkForSale | Routes/Payment.js:137-144 | the loop marks every matched listing "Sell", or stops at the failing save with only earlier listings marked; it answers ok iff no matched save fails; nothing but listings changes |
| PaymentRoutes.SaveListing | Routes/Payment.js:142-143 | a save writes one listing and nothing else |
| PaymentRoutes.OrderStatusIdempotent | Routes/Payment.js:173-174 | repeating a status overwrite changes nothing further |
| PaymentRoutes.AnyStatusReachable | Routes/Payment.js:154-176 | any valid status can follow any other, and valid statuses stay valid |
| PaymentRoutes.UpdateOrderStatus | Routes/Payment.js:154-181 | 400 iff the status is not one of the four, before any lookup; 404 iff the order is unknown; otherwise only that order's status becomes the given one |
| PaymentRoutes.CreateCodPayment | Routes/Payment.js:183-219 | 400 with no change iff a field is empty or the total is not positive; otherwise exactly one payment with the given fields and transaction type is added |
| PaymentRoutes.CompletedIdempotent | Routes/Payment.js:225-228 | completing a payment sets it to "Completed", and completing twice is completing once |
| PaymentRoutes.CompleteCodPayment | Routes/Payment.js:221-237 | 500 with no change iff the payment is missing; otherwise only its status becomes "Completed" |
| SellOrderRoutes.ReferencedBooks | Routes/SellOrders.js:17-19 | the books returned are exactly those some listing references |
| SellOrderRoutes.ReferencedUsers | Routes/SellOrders.js:31-35 | the users returned are exactly those some listing belongs to |
| SellOrderRoutes.ListingsOf | Routes/SellOrders.js:11 | the caller's listings are exactly the listings whose owner is the caller |
| SellOrderRoutes.CallerSellOrders | Routes/SellOrders.js:9-26 | 404 iff the caller owns no listing; otherwise the caller's listings and exactly the books they reference, as stored |
| SellOrderRoutes.AllSellOrders | Routes/SellOrders.js:28-43 | every listing, exactly the books and users they reference as stored, and the caller as delivery user |
| SellOrderRoutes.ResellerBooks | Routes/SellOrders.js:46-62 | every listing and exactly the books they reference, as stored |
| SellOrderRoutes.SetListingStatus | Routes/SellOrders.js:88-93 | the update sets status and delivery user of exactly that listing; modifiedCount is 0 iff the id is unknown or both values were already those |
| SellOrderRoutes.RepeatedUpdateModifiesNothing | Routes/SellOrders.js:88-95 | a second identical update modifies nothing |
| SellOrderRoutes.UpdateSellOrder | Routes/SellOrders.js:83-104 | 404 with no change iff nothing was modified; the new listings are the update's, whatever `bookid` is |
| ResellerRoutes.DeleteListing | Routes/Reseller.js:7-29 | 404 with no change iff the listing or its book is missing; otherwise exactly that listing is removed and its book id reported; other listings never change |
| AuthRoutes.RandomInt | Routes/Auth.js:28 | `randomInt(min, max)` lies in [min, max) |
| AuthRoutes.RandomIntReachesRange | Routes/Auth.js:28 | every value of the range can be drawn |
| AuthRoutes.SixDigitOtp | Routes/Auth.js:28 | the OTP lies in [100000, 999999) |
| AuthRoutes.OtpMessage | Routes/Auth.js:32-43 | a text exists iff the purpose is forgotpassword, deliverydetail or reselldelivery, and it starts with that purpose's lead-in and the OTP |
| AuthRoutes.ForgotPassword | Routes/Auth.js:20-53 | 400 with no change iff no user has the e-mail; otherwise only that user's OTP becomes a fresh six-digit number, and the mailed text is the purpose's message |
| AuthRoutes.VerifyOtp | Routes/Auth.js:56-68 | 400 with no change when no user has the e-mail or the user found holds an OTP not strictly equal (`===`) to the supplied one; otherwise 200 and only that user's OTP is cleared to null |
| AuthRoutes.ResetPassword | Routes/Auth.js:71-81 | 400 with no change iff no user has the e-mail; otherwise only that user's password hash is replaced, with no OTP check |
| AuthRoutes.VerifyRegistrationOtp | Routes/Auth.js:85-114 | 400 with no change when e-mail or OTP is missing, when no record has the lower-cased e-mail, or when the record found holds a different OTP; on 200 a record with the e-mail as given is deleted if one exists, and the record found stays when the e-mail is mixed-case |
| AuthRoutes.LookupMissesMixedCase | Routes/Auth.js:94-106 | a record found by the lower-cased form of a mixed-case e-mail is never one the deletion matches |
| AuthRoutes.MixedCaseLookupDiffers | Routes/Auth.js:94-106 | an e-mail with a capital letter differs from its lower-cased lookup key |
| AuthRoutes.RegisterOtp | Routes/Auth.js:117-155 | 400 with no change iff no e-mail; otherwise an existing record for the e-mail gets the six-digit code, or one record is inserted; at most one record per e-mail is kept, and afterwards exactly one record has it; a failed mail answers 500 after the write |
| AuthRoutes.Register | Routes/Auth.js:160-224 | 400 with no change iff validation fails or the e-mail is taken; otherwise exactly one user with the given fields and hashed password is added; e-mails stay unique |
| AuthRoutes.DeleteUser | Routes/Auth.js:302-330 | 400 iff no user id, 404 iff it is unknown, both with no change; otherwise exactly that user is removed |
| AuthRoutes.UpdateTouchesOnlySuppliedFields | Routes/Auth.js:362-373 | each truthy body field overwrites its user field (the password as its hash); every other field, the OTP included, stays |
| AuthRoutes.ApplyUserPatchIdempotent | Routes/Auth.js:379-383 | applying the same `$set` twice is applying it once |
| AuthRoutes.UpdateCanDuplicateEmail | Routes/Auth.js:365 | the update does not check e-mails: two users can end up with the same e-mail |
| AuthRoutes.UpdateUser | Routes/Auth.js:333-395 | 400 iff no user id, 404 iff it is unknown, both with no change; otherwise only that user changes, by the field-by-field patch |
| BookRoutes.IsOldBook | Routes/BookForm.js:53-54 | a book is new (not old) iff the role is "Admin" |
| BookRoutes.CreateKeepsNewIsbnsUnique | Routes/BookForm.js:60-88 | as only Admin inserts are checked and only they create new books, no two new books share an ISBN |
| BookRoutes.CreateBook | Routes/BookForm.js:30-97 | 400 with no change iff validation fails, the caller is missing, an Admin insert repeats an ISBN, or the subcategory is unknown; otherwise exactly one book is added, owned by the caller, with the role's Isoldbook and "default.jpg" without a file |
| BookRoutes.AllBooks | Routes/BookForm.js:100-110 | GET /Book answers 404 iff there is no book, otherwise every book |
| BookRoutes.UpdateChangesOnlySuppliedFields | Routes/BookForm.js:137-156 | each of the ten body fields overwrites its book field when sent and leaves it as it was when not; the image changes only with a file and the subcategory id only with a subcategory; owner and Isoldbook stay |
| BookRoutes.UpdateCanDuplicateNewIsbn | Routes/BookForm.js:137-156 | the update does not check ISBNs: two new books can end up with the same ISBN |
| BookRoutes.EmptyUpdateIsIdentity | Routes/BookForm.js:137-156 | an update carrying nothing leaves the book as it was |
| BookRoutes.ApplyBookUpdateIdempotent | Routes/BookForm.js:156 | applying the same update twice is applying it once |
| BookRoutes.UpdateBook | Routes/BookForm.js:113-162 | 400 for a missing id or an empty sent field, 404 for an unknown book, 400 for an unknown subcategory, all with no change; otherwise only that book changes, by the update |
| BookRoutes.DeleteBook | Routes/BookForm.js:165-186 | 400 iff no id, 404 iff it is unknown, both with no change; otherwise exactly that book is removed |
| BookRoutes.BooksBySubcategoryName | Routes/BookForm.js:189-198 | 500 iff no subcategory has the name; otherwise exactly the books of a subcategory with that name, unchanged |
| Scenarios.VerifyOtpTwice | Routes/Auth.js:56-68 | with unique e-mails, a code that verified once fails the second time |
| Scenarios.UpdateSellOrderTwice | Routes/SellOrders.js:83-104 | a repeated identical listing update answers 404 and leaves the listings as the first call left them |
| Scenarios.RegisterTwice | Routes/Auth.js:160-224 | after a successful registration the same e-mail is refused, and exactly one user was added |

## Left out

- The application wiring in index.js (CORS, the Mongo connection, mounting; Routes/Reseller.js is not mounted there) and Routes/report.js, which forwards to a controller that is not part of this model.
- middleware/AuthMid.js: JWT verification and its 401 answers. Its result appears only as the `caller` parameter.
- Login, GET /User and GET /AllUser in Routes/Auth.js are not part of this model; neither is JWT signing after registration.
- The gateway call of POST /orders and its callback. Only the option construction is modelled.
- Sending e-mail. Forgot-password sends without a catch; the model treats that send as succeeding. Registerotp's failed send is the `mailFails` parameter.
- bcrypt, HMAC-SHA256, `crypto.randomInt`/`randomBytes` and the clock are parameters, not computed.
- Multer storage and the upload directory. An uploaded file appears only as its stored path.
- Floating point. `amount * 100`, `isFloat({gt: 0})` and JavaScript's coercion of body values are over reals and typed fields.
- Concurrency between requests. Each handler is one sequential step; the only partial write modelled is a failing listing save in addorder.
- `populate` projections of user names. They are display only.
- The second GET /resellerbook handler is shadowed by the first and never runs.
- Mongoose schema behaviour: validators, casts, defaults, timestamps and setters. The schemas are not part of this model.
  - If the Otp schema lower-cases e-mails, the lookup and the deletion in verifyotp coincide.
  - A malformed ObjectId's CastError (a 500) is not distinguished from an unknown id.
- Missing body fields that make the source throw or query with `undefined`:
  - addorder without `cartid` throws a TypeError (500).
  - A filter on `undefined` is treated as the empty string.
- Fields `findByIdAndUpdate` would also take from the body of PUT /Book. Only the modelled book fields are applied; extra body keys such as `User_id` or `Isoldbook` are not.
- Book creation reads `Condition` while its validator names `condition`; the model stores the body's condition as given.
- The ordering of addorder's loop. It visits the matched listings in an unspecified order; the model picks any order.
- `toLowerCase` beyond ASCII letters.
- PaymentRoutes.VerifyPayment: `total_payment` is taken from the body's `order` field as an optional number, without Mongoose's cast.
