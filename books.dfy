/** The eBook record the screen lists and edits, and the partial record an
    edit sends: object spread `{ ...book, ...patch }` lays the properties the
    patch carries over those of the book. */
module Books {
  import opened JsValues

  /** The `details` property: a structured object, or some primitive value
      (for which only its truthiness matters here). */
  datatype DetailsValue =
    | Structured(pages: Option<Number>, language: Option<string>, publisher: Option<string>)
    | Primitive(truthy: bool)

  /** A record as the service returns it; `id` is the service's `_id`. */
  datatype Book = Book(
    id: string,
    bookId: Option<string>,
    title: Option<string>,
    author: Option<string>,
    price: Option<Number>,
    currency: Option<string>,
    details: Option<DetailsValue>)

  /** One property of a partial record: not a key of the object at all, or a
      key set to a value (`Set(None)` is a key explicitly set to `undefined`). */
  datatype Prop<T> = Unset | Set(value: Option<T>)

  /** The partial record sent as the body of an update. */
  datatype Patch = Patch(
    bookId: Prop<string>,
    title: Prop<string>,
    author: Prop<string>,
    price: Prop<Number>,
    currency: Prop<string>,
    details: Prop<DetailsValue>)

  /** Reading a property: a missing key reads as `undefined`. */
  function Read<T>(p: Prop<T>): Option<T> {
    if p.Set? then p.value else None
  }

  /** One property of `{ ...b, ...p }`, given its value `was` in `b`. */
  function Spread<T>(was: Option<T>, p: Prop<T>): Option<T> {
    if p.Set? then p.value else was
  }

  /** A property of the patch agrees with the record: the record holds the
      value the patch sets, or anything at all when the patch leaves it out. */
  predicate Agrees<T(==)>(v: Option<T>, p: Prop<T>) {
    p.Set? ==> v == p.value
  }

  /** Every property the patch sets is held by the record. */
  predicate Carries(b: Book, p: Patch) {
    && Agrees(b.bookId, p.bookId) && Agrees(b.title, p.title) && Agrees(b.author, p.author)
    && Agrees(b.price, p.price) && Agrees(b.currency, p.currency) && Agrees(b.details, p.details)
  }

  /** The two records hold the same value in every property the patch leaves out. */
  predicate SameOutside(b: Book, c: Book, p: Patch) {
    && (p.bookId.Unset? ==> b.bookId == c.bookId) && (p.title.Unset? ==> b.title == c.title)
    && (p.author.Unset? ==> b.author == c.author) && (p.price.Unset? ==> b.price == c.price)
    && (p.currency.Unset? ==> b.currency == c.currency) && (p.details.Unset? ==> b.details == c.details)
  }

  /** `{ ...b, ...p }`: the patch's properties laid over the record's. The
      update never sends `_id`, so the identifier is always kept. */
  function Overlay(b: Book, p: Patch): (r: Book)
    ensures r.id == b.id && Carries(r, p) && SameOutside(r, b, p)
  {
    Book(b.id, Spread(b.bookId, p.bookId), Spread(b.title, p.title), Spread(b.author, p.author),
         Spread(b.price, p.price), Spread(b.currency, p.currency), Spread(b.details, p.details))
  }

  /** The result of the overlay is the only record with the same `_id` that
      carries the patch and keeps everything else: the contract of Overlay
      determines it. */
  lemma OverlayUnique(b: Book, p: Patch, r: Book)
    requires r.id == b.id && Carries(r, p) && SameOutside(r, b, p)
    ensures r == Overlay(b, p)
  {
  }

  /** A record that already carries the patch is left as it is, so laying the
      same patch twice gives what laying it once gives. */
  lemma OverlayIdempotent(b: Book, p: Patch)
    ensures Carries(b, p) ==> Overlay(b, p) == b
    ensures Overlay(Overlay(b, p), p) == Overlay(b, p)
  {
  }
}
