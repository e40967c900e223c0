/** Routes/BookForm.js: creating, listing, updating and deleting books. */
module BookRoutes {
  import opened Documents

  /** The image path stored when no file is uploaded. */
  const DefaultImage: string := "default.jpg"

  /** Isoldbook: a book is new only when it comes through the Admin route. */
  function IsOldBook(userRole: string): (isOld: bool)
    ensures !isOld <==> userRole == "Admin"
  {
    userRole != "Admin"
  }

  /** The fields of the book form (a body field left out is ""; Edition
      and Condition are not validated and may be absent). */
  datatype BookForm = BookForm(
    name: string,
    author: string,
    edition: Option<string>,
    publicationDate: string,
    publisher: string,
    description: string,
    price: string,
    isbn: string,
    condition: Option<string>,
    subcategory: Id)

  /** The express-validator chain of POST /:userRole/Book. */
  predicate BookFormValid(f: BookForm) {
    && f.name != "" && f.author != "" && f.publicationDate != "" && f.publisher != ""
    && f.description != "" && f.price != "" && f.isbn != "" && f.subcategory != ""
  }

  function BooksWithIsbn(books: map<Id, Book>, isbn: string): set<Id> {
    set id | id in books && books[id].isbn == isbn
  }

  /** No two new (non-old) books share an ISBN. */
  ghost predicate NewBookIsbnsUnique(books: map<Id, Book>) {
    forall a, b :: a in books && b in books && !books[a].isOld && !books[b].isOld && books[a].isbn == books[b].isbn ==> a == b
  }

  /** The document POST /:userRole/Book inserts. */
  function NewBook(f: BookForm, image: string, caller: Id, isOld: bool): Book {
    Book(f.name, image, f.author, f.edition, f.publicationDate, f.publisher, f.description,
         f.price, f.isbn, f.condition, f.subcategory, caller, isOld)
  }

  /** Only an Admin insert is checked against existing ISBNs, and only an
      Admin insert creates a new (non-old) book, so new books stay unique. */
  lemma CreateKeepsNewIsbnsUnique(books: map<Id, Book>, id: Id, f: BookForm, image: string, caller: Id, isOld: bool)
    requires NewBookIsbnsUnique(books) && id !in books
    requires !isOld ==> BooksWithIsbn(books, f.isbn) == {}
    ensures NewBookIsbnsUnique(books[id := NewBook(f, image, caller, isOld)])
  {
    assert forall a :: a in books && books[a].isbn == f.isbn ==> a in BooksWithIsbn(books, f.isbn);
  }

  /** POST /:userRole/Book. `caller` is `req.userId` ("" when the token
      carried none), `file` the uploaded image's path, `newId` the new
      book's id. */
  method CreateBook(db: Store, userRole: string, caller: Id, form: BookForm, file: Option<string>, newId: Id)
    returns (code: int)
    modifies db
    ensures code == 201 || code == 400 || code == 500
    ensures code == 400 <==>
      || !BookFormValid(form) || caller == ""
      || (userRole == "Admin" && BooksWithIsbn(old(db.books), form.isbn) != {})
      || form.subcategory !in old(db.subcategories)
    ensures code == 500 <==> code != 400 && newId in old(db.books)
    ensures code != 201 ==> unchanged(db)
    ensures code == 201 ==> db.Snapshot() == old(db.Snapshot()).(books :=
      old(db.books)[newId := NewBook(form, file.GetOr(DefaultImage), caller, IsOldBook(userRole))])
    ensures old(NewBookIsbnsUnique(db.books)) ==> NewBookIsbnsUnique(db.books)
  {
    if !BookFormValid(form) {
      return 400;
    }
    var isOld := IsOldBook(userRole);
    if caller == "" {
      return 400;
    }
    if userRole == "Admin" && BooksWithIsbn(db.books, form.isbn) != {} {
      return 400;
    }
    if form.subcategory !in db.subcategories {
      return 400;
    }
    var image := if file.Some? then file.value else DefaultImage;
    if newId in db.books {
      return 500;
    }
    if NewBookIsbnsUnique(db.books) {
      CreateKeepsNewIsbnsUnique(db.books, newId, form, image, caller, isOld);
    }
    db.books := db.books[newId := NewBook(form, image, caller, isOld)];
    code := 201;
  }

  /** GET /Book: every book, or 404 when there is none. */
  function AllBooks(db: Store): (r: (int, map<Id, Book>))
    reads db
    ensures r.0 == 404 || r.0 == 200
    ensures r.0 == 404 <==> db.books == map[]
    ensures r.0 == 200 ==> r.1 == db.books
  {
    if db.books == map[] then (404, map[]) else (200, db.books)
  }

  /** The book fields a PUT /Book body may carry (None: not sent). */
  datatype BookPatch = BookPatch(
    name: Option<string>,
    author: Option<string>,
    edition: Option<string>,
    publicationDate: Option<string>,
    publisher: Option<string>,
    description: Option<string>,
    price: Option<string>,
    isbn: Option<string>,
    condition: Option<string>,
    subcategory: Option<Id>)

  predicate Present(v: Option<string>) {
    v.Some? ==> v.value != ""
  }

  /** `optional().notEmpty()`: a field that is sent must not be empty
      (Edition and Condition are only `optional()`). */
  predicate BookPatchValid(p: BookPatch) {
    && Present(p.name) && Present(p.author) && Present(p.publicationDate) && Present(p.publisher)
    && Present(p.description) && Present(p.price) && Present(p.isbn) && Present(p.subcategory)
  }

  /** `updatedFields` as handed to findByIdAndUpdate: the body's fields,
      the uploaded image's path, and the resolved subcategory id. */
  datatype BookUpdate = BookUpdate(fields: BookPatch, imageUrl: Option<string>, subcategoryId: Option<Id>)

  /** The update a valid body produces once its subcategory was found. */
  function UpdatedFields(p: BookPatch, file: Option<string>): BookUpdate {
    BookUpdate(p, file, p.subcategory)
  }

  /** Overwrites exactly the fields the update carries. */
  function ApplyBookUpdate(b: Book, u: BookUpdate): Book {
    var f := u.fields;
    b.(name := f.name.GetOr(b.name),
       imageUrl := u.imageUrl.GetOr(b.imageUrl),
       author := f.author.GetOr(b.author),
       edition := if f.edition.Some? then f.edition else b.edition,
       publicationDate := f.publicationDate.GetOr(b.publicationDate),
       publisher := f.publisher.GetOr(b.publisher),
       description := f.description.GetOr(b.description),
       price := f.price.GetOr(b.price),
       isbn := f.isbn.GetOr(b.isbn),
       condition := if f.condition.Some? then f.condition else b.condition,
       subcategoryId := u.subcategoryId.GetOr(b.subcategoryId))
  }

  /** Only the supplied fields change, plus the image when a file came and
      the subcategory id when a subcategory came; owner and Isoldbook stay. */
  lemma UpdateChangesOnlySuppliedFields(b: Book, p: BookPatch, file: Option<string>)
    ensures var a := ApplyBookUpdate(b, UpdatedFields(p, file));
      && (p.name == None ==> a.name == b.name) && (p.name.Some? ==> a.name == p.name.value)
      && (p.isbn == None ==> a.isbn == b.isbn) && (p.isbn.Some? ==> a.isbn == p.isbn.value)
      && (p.price == None ==> a.price == b.price) && (p.price.Some? ==> a.price == p.price.value)
      && (p.author == None ==> a.author == b.author) && (p.author.Some? ==> a.author == p.author.value)
      && (p.edition == None ==> a.edition == b.edition) && (p.edition.Some? ==> a.edition == p.edition)
      && (p.publicationDate == None ==> a.publicationDate == b.publicationDate)
      && (p.publicationDate.Some? ==> a.publicationDate == p.publicationDate.value)
      && (p.publisher == None ==> a.publisher == b.publisher) && (p.publisher.Some? ==> a.publisher == p.publisher.value)
      && (p.description == None ==> a.description == b.description)
      && (p.description.Some? ==> a.description == p.description.value)
      && (p.condition == None ==> a.condition == b.condition) && (p.condition.Some? ==> a.condition == p.condition)
      && (file == None ==> a.imageUrl == b.imageUrl) && (file.Some? ==> a.imageUrl == file.value)
      && (p.subcategory == None ==> a.subcategoryId == b.subcategoryId)
      && (p.subcategory.Some? ==> a.subcategoryId == p.subcategory.value)
      && a.userId == b.userId && a.isOld == b.isOld
  {
  }

  /** An update that carries nothing leaves the book as it was. */
  lemma EmptyUpdateIsIdentity(b: Book)
    ensures ApplyBookUpdate(b, UpdatedFields(BookPatch(None, None, None, None, None, None, None, None, None, None), None)) == b
  {
  }

  /** Creation keeps the ISBNs of new books unique, but the update does
      not check them: a new book can be given another new book's ISBN. */
  lemma UpdateCanDuplicateNewIsbn()
    ensures exists books: map<Id, Book>, id: Id, u: BookUpdate ::
      id in books && NewBookIsbnsUnique(books) && !NewBookIsbnsUnique(books[id := ApplyBookUpdate(books[id], u)])
  {
    var a := Book("A", DefaultImage, "X", None, "2020", "P", "D", "1", "111", None, "s", "u", false);
    var b := a.(name := "B", isbn := "222");
    var books := map["1" := a, "2" := b];
    var p := BookPatch(None, None, None, None, None, None, None, Some("111"), None, None);
    var u := UpdatedFields(p, None);
    var after := books["2" := ApplyBookUpdate(books["2"], u)];
    assert after["1"].isbn == after["2"].isbn && !after["1"].isOld && !after["2"].isOld;
    assert !NewBookIsbnsUnique(after);
  }

  lemma ApplyBookUpdateIdempotent(b: Book, u: BookUpdate)
    ensures ApplyBookUpdate(ApplyBookUpdate(b, u), u) == ApplyBookUpdate(b, u)
  {
  }

  /** PUT /Book: `updatedFields` gains the image path and the subcategory
      id step by step before the book is overwritten. */
  method UpdateBook(db: Store, bookId: Id, patch: BookPatch, file: Option<string>) returns (code: int)
    modifies db
    ensures code == 200 || code == 400 || code == 404
    ensures code == 400 <==>
      || bookId == "" || !BookPatchValid(patch)
      || (bookId in old(db.books) && patch.subcategory.Some? && patch.subcategory.value !in old(db.subcategories))
    ensures code == 404 <==> bookId != "" && BookPatchValid(patch) && bookId !in old(db.books)
    ensures code != 200 ==> unchanged(db)
    ensures code == 200 ==> db.Snapshot() == old(db.Snapshot()).(books :=
      old(db.books)[bookId := ApplyBookUpdate(old(db.books)[bookId], UpdatedFields(patch, file))])
  {
    if bookId == "" || !BookPatchValid(patch) {
      return 400;
    }
    if bookId !in db.books {
      return 404;
    }
    var updatedFields := BookUpdate(patch, None, None);
    if file.Some? {
      updatedFields := updatedFields.(imageUrl := file);
    }
    if patch.subcategory.Some? {
      if patch.subcategory.value !in db.subcategories {
        return 400;
      }
      updatedFields := updatedFields.(subcategoryId := patch.subcategory);
    }
    db.books := db.books[bookId := ApplyBookUpdate(db.books[bookId], updatedFields)];
    code := 200;
  }

  /** DELETE /Book. */
  method DeleteBook(db: Store, bookId: Id) returns (code: int)
    modifies db
    ensures code == 200 || code == 400 || code == 404
    ensures code == 400 <==> bookId == ""
    ensures code == 404 <==> bookId != "" && bookId !in old(db.books)
    ensures code != 200 ==> unchanged(db)
    ensures code == 200 ==> db.Snapshot() == old(db.Snapshot()).(books := old(db.books) - {bookId})
  {
    if bookId == "" {
      return 400;
    }
    if bookId !in db.books {
      return 404;
    }
    db.books := db.books - {bookId};
    code := 200;
  }

  /** GET /:Subcategoryname/Books: the books of the subcategory
      `findOne` returns for that name; none makes the handler read `_id`
      of null, which the catch turns into 500. */
  method BooksBySubcategoryName(db: Store, name: string) returns (code: int, books: map<Id, Book>, ghost subcategoryId: Id)
    ensures code == 200 || code == 500
    ensures code == 500 <==> forall s :: s in db.subcategories ==> db.subcategories[s].name != name
    ensures code == 500 ==> books == map[]
    ensures code == 200 ==> subcategoryId in db.subcategories && db.subcategories[subcategoryId].name == name
    ensures code == 200 ==> forall b :: b in books <==> b in db.books && db.books[b].subcategoryId == subcategoryId
    ensures forall b :: b in books ==> b in db.books && books[b] == db.books[b]
  {
    subcategoryId := "";
    var named := set s | s in db.subcategories && db.subcategories[s].name == name;
    if named == {} {
      assert forall s :: s in db.subcategories && db.subcategories[s].name == name ==> s in named;
      return 500, map[], subcategoryId;
    }
    var found :| found in named;
    subcategoryId := found;
    books := map b | b in db.books && db.books[b].subcategoryId == found :: db.books[b];
    code := 200;
  }
}
