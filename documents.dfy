/** The MongoDB collections the route handlers share, held as in-memory
    tables keyed by document id, and the records stored in them. */
module Documents {

  /** A MongoDB ObjectId, kept abstract as its string form. */
  type Id = string

  datatype Option<+T> = None | Some(value: T) {
    function GetOr(default: T): T {
      match this
      case Some(v) => v
      case None => default
    }
  }

  /** The JSON scalars a request body or a document field can carry, so
      that JavaScript's strict equality `===` is datatype equality. */
  datatype JsValue = Undefined | Null | Num(n: int) | Str(s: string)

  /** JavaScript truthiness of a scalar. */
  predicate Truthy(v: JsValue) {
    match v
    case Num(n) => n != 0
    case Str(s) => s != ""
    case _ => false
  }

  /** One line of a cart; `itemId` is the `_id` Mongoose gives every subdocument. */
  datatype CartItem = CartItem(itemId: Id, bookId: Id, quantity: int)

  datatype Cart = Cart(userId: Id, books: seq<CartItem>)

  /** One line of an order: the (book_id, book_quantity) pair copied from a cart. */
  datatype OrderLine = OrderLine(bookId: Id, quantity: int)

  datatype Order = Order(userId: Id, cartId: Id, books: seq<OrderLine>, totalAmount: real, status: string)

  /** A payment record; the fields a handler does not set are `None`. */
  datatype Payment = Payment(
    paymentId: Option<string>,
    orderId: Id,
    paymentDate: Option<int>,
    paymentMethod: string,
    status: string,
    total: Option<real>,
    transactionType: string)

  /** A resell listing (a Reseller document): the book offered, who offers
      it, its Resell_Status and the user handling its delivery. */
  datatype Listing = Listing(userId: Id, bookId: Id, status: string, deliveryUser: Option<Id>)

  datatype Book = Book(
    name: string,
    imageUrl: string,
    author: string,
    edition: Option<string>,
    publicationDate: string,
    publisher: string,
    description: string,
    price: string,
    isbn: string,
    condition: Option<string>,
    subcategoryId: Id,
    userId: Id,
    isOld: bool)

  /** A user account; `otp` is the code last issued by forgot-password
      (Undefined until one is issued, Null once it has been verified). */
  datatype User = User(
    firstName: string,
    lastName: string,
    email: string,
    phone: string,
    password: string,
    role: Option<string>,
    otp: JsValue)

  /** A registration OTP, kept in its own collection until verified. */
  datatype OtpRecord = OtpRecord(email: string, otp: string)

  datatype Subcategory = Subcategory(name: string)

  /** The contents of every collection at one moment. */
  datatype Tables = Tables(
    carts: map<Id, Cart>,
    orders: map<Id, Order>,
    payments: map<Id, Payment>,
    resellers: map<Id, Listing>,
    books: map<Id, Book>,
    users: map<Id, User>,
    otps: map<Id, OtpRecord>,
    subcategories: map<Id, Subcategory>)

  /** The document store: one table per collection, updated in place by the handlers. */
  class Store {
    var carts: map<Id, Cart>
    var orders: map<Id, Order>
    var payments: map<Id, Payment>
    var resellers: map<Id, Listing>
    var books: map<Id, Book>
    var users: map<Id, User>
    var otps: map<Id, OtpRecord>
    var subcategories: map<Id, Subcategory>

    constructor (t: Tables)
      ensures Snapshot() == t
    {
      carts, orders, payments, resellers := t.carts, t.orders, t.payments, t.resellers;
      books, users, otps, subcategories := t.books, t.users, t.otps, t.subcategories;
    }

    function Snapshot(): Tables
      reads this
    {
      Tables(carts, orders, payments, resellers, books, users, otps, subcategories)
    }
  }

  /** The ids of the documents `findOne` may return for a filter on one
      field: any of them is "a match", none means `null`. */
  function UsersWithEmail(users: map<Id, User>, email: string): set<Id> {
    set id | id in users && users[id].email == email
  }

  function OtpsWithEmail(otps: map<Id, OtpRecord>, email: string): set<Id> {
    set id | id in otps && otps[id].email == email
  }

  /** At most one document per e-mail address. */
  ghost predicate UserEmailsUnique(users: map<Id, User>) {
    forall a, b :: a in users && b in users && users[a].email == users[b].email ==> a == b
  }

  ghost predicate OtpEmailsUnique(otps: map<Id, OtpRecord>) {
    forall a, b :: a in otps && b in otps && otps[a].email == otps[b].email ==> a == b
  }

  /** Inserting a user whose e-mail no user has keeps e-mails unique. */
  lemma InsertUserKeepsEmailsUnique(users: map<Id, User>, id: Id, u: User)
    requires UserEmailsUnique(users) && id !in users && UsersWithEmail(users, u.email) == {}
    ensures UserEmailsUnique(users[id := u])
  {
    assert forall a :: a in users && users[a].email == u.email ==> a in UsersWithEmail(users, u.email);
  }

  /** Writing a record whose e-mail no other record has keeps e-mails unique. */
  lemma WriteOtpKeepsEmailsUnique(otps: map<Id, OtpRecord>, id: Id, r: OtpRecord)
    requires OtpEmailsUnique(otps)
    requires forall other :: other in OtpsWithEmail(otps, r.email) ==> other == id
    ensures OtpEmailsUnique(otps[id := r])
  {
    assert forall a :: a in otps && otps[a].email == r.email ==> a in OtpsWithEmail(otps, r.email);
  }
}
