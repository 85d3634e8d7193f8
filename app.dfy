/** The `App` component's state and the handlers that change it: the listed
    books, the Browsing/Editing mode (`isEditing`), the record being edited
    and the draft held by the edit form's text inputs. The list changes only
    when the service confirms a change; the outcome of each request is a
    parameter, since the requests themselves are I/O. */
module BookApp {
  import opened JsValues
  import opened Books
  import opened Validator
  import opened BookList

  /** What the list request yields: it failed (transport or JSON error), or
      its body was read and `data.data` is absent or falsy (`None`) or is the
      array of records. */
  datatype ListReply = Failed | Received(data: Option<seq<Book>>)

  /** The text inputs of the edit form. */
  datatype Input =
    | TitleInput | BookIdInput | AuthorInput | PriceInput
    | CurrencyInput | PagesInput | LanguageInput | PublisherInput

  /** Everything the edit form holds: the mode, the record being edited and
      the eight draft values. */
  datatype Form = Form(
    isEditing: bool,
    editingBook: Option<Book>,
    title: Option<string>,
    bookId: Option<string>,
    author: Option<string>,
    price: string,
    currency: Option<string>,
    pages: string,
    language: string,
    publisher: string)

  /** `value || ''` for a string-valued property. */
  function OrEmpty(s: Option<string>): string {
    if s.Some? then s.value else ""
  }

  /** The begin-edit handler runs to the end on this record: `price.toString()`
      needs a price, and `details?.pages.toString()` needs `details` to be
      absent or an object with `pages`. */
  predicate Editable(item: Book) {
    && item.price.Some?
    && (item.details.None? || (item.details.value.Structured? && item.details.value.pages.Some?))
  }

  /** The form the "Sửa" button opens on `item`: Editing that record, with
      the draft title, `bookId`, author and currency taken from it, and its
      price, page count, language and publisher as text. */
  function FormFor(item: Book, toString: Number -> string): (f: Form)
    requires Editable(item)
    ensures f.isEditing && f.editingBook == Some(item)
    ensures f.title == item.title && f.bookId == item.bookId && f.author == item.author
    ensures f.price == toString(item.price.value) && f.currency == item.currency
    ensures item.details == None ==> f.pages == "" && f.language == "" && f.publisher == ""
    ensures item.details.Some? ==> && f.pages == toString(item.details.value.pages.value)
                                   && f.language == OrEmpty(item.details.value.language)
                                   && f.publisher == OrEmpty(item.details.value.publisher)
  {
    match item.details
    case None =>
      Form(true, Some(item), item.title, item.bookId, item.author, toString(item.price.value),
           item.currency, "", "", "")
    case Some(details) =>
      Form(true, Some(item), item.title, item.bookId, item.author, toString(item.price.value),
           item.currency, toString(details.pages.value), OrEmpty(details.language), OrEmpty(details.publisher))
  }

  class App {
    var books: seq<Book>
    var isEditing: bool
    var editingBook: Option<Book>
    var newTitle: Option<string>
    var newAuthor: Option<string>
    var newPrice: string
    var newCurrency: Option<string>
    var newPages: string
    var newLanguage: string
    var newPublisher: string
    var newBookId: Option<string>

    /** The form is only open on a chosen record. */
    ghost predicate Valid()
      reads this
    {
      isEditing ==> editingBook.Some?
    }

    function CurrentForm(): Form
      reads this
    {
      Form(isEditing, editingBook, newTitle, newBookId, newAuthor, newPrice,
           newCurrency, newPages, newLanguage, newPublisher)
    }

    /** The patch the save button builds from the draft; `parseFloat` and
        `parseInt` are the library's number parsers. */
    function Draft(parseFloat: string -> Number, parseInt: string -> Number): Patch
      reads this
    {
      Patch(
        bookId := Set(newBookId),
        title := Set(newTitle),
        author := Set(newAuthor),
        price := Set(Some(parseFloat(newPrice))),
        currency := Set(newCurrency),
        details := Set(Some(Structured(Some(parseInt(newPages)), Some(newLanguage), Some(newPublisher)))))
    }

    /** The initial state: no books, Browsing, an empty draft. */
    constructor ()
      ensures Valid() && books == [] && !isEditing && editingBook == None
      ensures newTitle == Some("") && newAuthor == Some("") && newPrice == ""
      ensures newCurrency == Some("") && newPages == "" && newLanguage == ""
      ensures newPublisher == "" && newBookId == Some("")
    {
      books := [];
      isEditing := false;
      editingBook := None;
      newTitle, newAuthor, newPrice, newCurrency := Some(""), Some(""), "", Some("");
      newPages, newLanguage, newPublisher, newBookId := "", "", "", Some("");
    }

    /** `fetchBooks`: the list becomes `data.data` when it is truthy and empty
        otherwise; a failed request leaves the list as it was. */
    method FetchBooks(reply: ListReply)
      requires Valid()
      modifies this
      ensures Valid() && CurrentForm() == old(CurrentForm())
      ensures books == match reply
                       case Failed => old(books)
                       case Received(None) => []
                       case Received(Some(data)) => data
    {
      match reply
      case Failed =>
      case Received(data) =>
        books := if data.Some? then data.value else [];
    }

    /** `updateBook`: only when the service confirms (`ok`) is the update laid
        over the record with `_id == id`, and the form closed. A failure
        changes nothing, so Editing stays on. */
    method UpdateBook(id: string, patch: Patch, ok: bool)
      requires Valid()
      modifies this
      ensures Valid()
      ensures books == if ok then MergeById(old(books), id, patch) else old(books)
      ensures isEditing == (old(isEditing) && !ok)
      ensures CurrentForm() == old(CurrentForm()).(isEditing := isEditing)
    {
      if ok {
        books := MergeById(books, id, patch);
        isEditing := false;
      }
    }

    /** `deleteBook`: only when the service confirms (`ok`) is every record by
        `author` dropped; the form is never touched. */
    method DeleteBook(author: Option<string>, ok: bool)
      requires Valid()
      modifies this
      ensures Valid() && CurrentForm() == old(CurrentForm())
      ensures books == if ok then RemoveAuthor(old(books), author) else old(books)
    {
      if ok {
        books := RemoveAuthor(books, author);
      }
    }

    /** The "Sửa" button of a listed record: Editing on that record, with the
        draft filled from its values; `toString` is `Number.prototype.toString`. */
    method BeginEdit(item: Book, toString: Number -> string)
      requires Valid() && Editable(item)
      modifies this
      ensures Valid() && books == old(books)
      ensures CurrentForm() == FormFor(item, toString)
    {
      var form := FormFor(item, toString);
      isEditing, editingBook := form.isEditing, form.editingBook;
      newTitle, newBookId, newAuthor := form.title, form.bookId, form.author;
      newPrice, newCurrency := form.price, form.currency;
      newPages, newLanguage, newPublisher := form.pages, form.language, form.publisher;
      assert CurrentForm() == form;
    }

    /** Typing into one of the form's inputs, which exist only while Editing. */
    method Type(input: Input, text: string)
      requires Valid() && isEditing
      modifies this
      ensures Valid() && books == old(books)
      ensures CurrentForm() == match input
        case TitleInput => old(CurrentForm()).(title := Some(text))
        case BookIdInput => old(CurrentForm()).(bookId := Some(text))
        case AuthorInput => old(CurrentForm()).(author := Some(text))
        case PriceInput => old(CurrentForm()).(price := text)
        case CurrencyInput => old(CurrentForm()).(currency := Some(text))
        case PagesInput => old(CurrentForm()).(pages := text)
        case LanguageInput => old(CurrentForm()).(language := text)
        case PublisherInput => old(CurrentForm()).(publisher := text)
    {
      match input
      case TitleInput => newTitle := Some(text);
      case BookIdInput => newBookId := Some(text);
      case AuthorInput => newAuthor := Some(text);
      case PriceInput => newPrice := text;
      case CurrencyInput => newCurrency := Some(text);
      case PagesInput => newPages := text;
      case LanguageInput => newLanguage := text;
      case PublisherInput => newPublisher := text;
    }

    /** The "Lưu thay đổi" button: the draft is validated, and only an
        accepted draft is sent (`sent`) as an update of the edited record.
        The list changes and the form closes only when the update is
        confirmed; a rejected draft or a failed update leaves both as they
        were, still in Editing. */
    method Save(parseFloat: string -> Number, parseInt: string -> Number, ok: bool)
      returns (verdict: Verdict, sent: bool)
      requires Valid() && isEditing
      modifies this
      ensures Valid()
      ensures verdict == Validate(old(Draft(parseFloat, parseInt)))
      ensures sent <==> verdict == Accept
      ensures books == if sent && ok
                       then MergeById(old(books), old(editingBook).value.id, old(Draft(parseFloat, parseInt)))
                       else old(books)
      ensures isEditing <==> !(sent && ok)
      ensures CurrentForm() == old(CurrentForm()).(isEditing := isEditing)
    {
      var updated := Draft(parseFloat, parseInt);
      verdict := Validate(updated);
      sent := verdict == Accept;
      if sent {
        UpdateBook(editingBook.value.id, updated, ok);
      }
    }

    /** The "Hủy" button: back to Browsing; the list and the draft are kept. */
    method Cancel()
      requires Valid()
      modifies this
      ensures Valid() && books == old(books) && !isEditing
      ensures CurrentForm() == old(CurrentForm()).(isEditing := false)
    {
      isEditing := false;
    }
  }
}
