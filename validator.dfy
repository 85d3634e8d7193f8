/** `validateBook`: six rules checked in a fixed order over the patch an edit
    would send; the first rule that fails rejects it, and a patch that fails
    none is accepted. Each rule after the first tests its property only when
    that property is truthy, exactly as the JavaScript does. */
module Validator {
  import opened JsValues
  import opened Books

  /** The rules, in the order they are checked; each rejection names one. */
  datatype Rule =
    | MissingBookId     // "bookId không được để trống."
    | ShortTitle        // "Title phải có ít nhất 3 kí tự."
    | BlankAuthor       // "Author không được để trống."
    | BadPrice          // "Price phải là số và lớn hơn 0."
    | BadCurrency       // "Currency phải là một trong các giá trị: USD, EUR, VND."
    | MalformedDetails  // "Details phải là một object."

  datatype Verdict = Accept | Reject(rule: Rule)

  /** The position of a rule in the chain. */
  function Rank(r: Rule): nat {
    match r
    case MissingBookId => 0
    case ShortTitle => 1
    case BlankAuthor => 2
    case BadPrice => 3
    case BadCurrency => 4
    case MalformedDetails => 5
  }

  /** The currencies the edit form accepts. */
  const Currencies: seq<string> := ["USD", "EUR", "VND"]

  /** `typeof v === 'object'` for a truthy value of the `details` property. */
  predicate IsObject(v: DetailsValue) {
    v.Structured?
  }

  /** The chain of `if` statements as written: each test is the source's own,
      on the property as read from the patch. */
  function Validate(p: Patch): (v: Verdict)
    ensures !TruthyString(Read(p.bookId)) ==> v == Reject(MissingBookId)
    ensures v == Reject(BadPrice) ==> Read(p.price).Some? && Negative(Read(p.price).value)
  {
    var bookId, title, author := Read(p.bookId), Read(p.title), Read(p.author);
    var price, currency, details := Read(p.price), Read(p.currency), Read(p.details);
    if !TruthyString(bookId) then Reject(MissingBookId)
    else if TruthyString(title) && Utf16Length(title.value) < 3 then Reject(ShortTitle)
    else if TruthyString(author) && Trim(author.value) == "" then Reject(BlankAuthor)
    else if TruthyNumber(price) && (IsNaN(price.value) || AtMostZero(price.value)) then Reject(BadPrice)
    else if TruthyString(currency) && currency.value !in Currencies then Reject(BadCurrency)
    else if details.Some? && (details.value.Structured? || details.value.truthy) && !IsObject(details.value)
    then Reject(MalformedDetails)
    else Accept
  }

  /** What each rule rejects, stated on the values themselves rather than
      through truthiness: a missing or empty `bookId`; a non-empty title
      under three UTF-16 units; a non-empty author made only of white space;
      a negative price (NaN and 0 are falsy and never reach the test); a
      non-empty currency other than USD, EUR and VND; a truthy primitive as
      `details`. */
  predicate Violates(p: Patch, r: Rule) {
    match r
    case MissingBookId => Read(p.bookId) == None || Read(p.bookId) == Some("")
    case ShortTitle => Read(p.title).Some? && 0 < |Read(p.title).value| && Utf16Length(Read(p.title).value) < 3
    case BlankAuthor => Read(p.author).Some? && Read(p.author).value != "" && Blank(Read(p.author).value)
    case BadPrice => Read(p.price).Some? && Negative(Read(p.price).value)
    case BadCurrency =>
      Read(p.currency).Some? && Read(p.currency).value !in {"", "USD", "EUR", "VND"}
    case MalformedDetails => Read(p.details) == Some(Primitive(true))
  }

  /** `r` is the first rule, in the chain's order, that the patch violates. */
  predicate FirstViolation(p: Patch, r: Rule) {
    Violates(p, r) && forall q :: Rank(q) < Rank(r) ==> !Violates(p, q)
  }

  /** The chain, test by test: each rule rejects exactly when it is violated
      and no earlier rule is. */
  lemma ValidateByRule(p: Patch)
    ensures Validate(p) == Reject(MissingBookId) <==> Violates(p, MissingBookId)
    ensures Validate(p) == Reject(ShortTitle) <==> !Violates(p, MissingBookId) && Violates(p, ShortTitle)
    ensures Validate(p) == Reject(BlankAuthor) <==>
      !Violates(p, MissingBookId) && !Violates(p, ShortTitle) && Violates(p, BlankAuthor)
    ensures Validate(p) == Reject(BadPrice) <==>
      !Violates(p, MissingBookId) && !Violates(p, ShortTitle) && !Violates(p, BlankAuthor)
      && Violates(p, BadPrice)
    ensures Validate(p) == Reject(BadCurrency) <==>
      !Violates(p, MissingBookId) && !Violates(p, ShortTitle) && !Violates(p, BlankAuthor)
      && !Violates(p, BadPrice) && Violates(p, BadCurrency)
    ensures Validate(p) == Reject(MalformedDetails) <==>
      !Violates(p, MissingBookId) && !Violates(p, ShortTitle) && !Violates(p, BlankAuthor)
      && !Violates(p, BadPrice) && !Violates(p, BadCurrency) && Violates(p, MalformedDetails)
    ensures Validate(p) == Accept <==>
      !Violates(p, MissingBookId) && !Violates(p, ShortTitle) && !Violates(p, BlankAuthor)
      && !Violates(p, BadPrice) && !Violates(p, BadCurrency) && !Violates(p, MalformedDetails)
  {
    var title, author, price := Read(p.title), Read(p.author), Read(p.price);
    if author.Some? {
      TrimEmptyIffBlank(author.value);
    }
    assert (TruthyString(title) && Utf16Length(title.value) < 3) <==> Violates(p, ShortTitle);
    assert (TruthyString(author) && Trim(author.value) == "") <==> Violates(p, BlankAuthor);
    assert (TruthyNumber(price) && (IsNaN(price.value) || AtMostZero(price.value))) <==> Violates(p, BadPrice);
  }

  /** The validator rejects with exactly the first violated rule, and accepts
      exactly the patches that violate none. */
  lemma ValidateIsFirstViolation(p: Patch)
    ensures Validate(p) == Accept <==> forall r :: !Violates(p, r)
    ensures forall r :: Validate(p) == Reject(r) <==> FirstViolation(p, r)
  {
    ValidateByRule(p);
    if Validate(p) == Accept {
      forall r ensures !Violates(p, r) {
        match r
        case MissingBookId =>
        case ShortTitle =>
        case BlankAuthor =>
        case BadPrice =>
        case BadCurrency =>
        case MalformedDetails =>
      }
    }
    forall r ensures Validate(p) == Reject(r) <==> FirstViolation(p, r) {
      if FirstViolation(p, r) {
        match r
        case MissingBookId =>
        case ShortTitle => assert Rank(MissingBookId) < Rank(r);
        case BlankAuthor =>
          assert Rank(MissingBookId) < Rank(r) && Rank(ShortTitle) < Rank(r);
        case BadPrice =>
          assert Rank(MissingBookId) < Rank(r) && Rank(ShortTitle) < Rank(r) && Rank(BlankAuthor) < Rank(r);
        case BadCurrency =>
          assert Rank(MissingBookId) < Rank(r) && Rank(ShortTitle) < Rank(r) && Rank(BlankAuthor) < Rank(r);
          assert Rank(BadPrice) < Rank(r);
        case MalformedDetails =>
          assert Rank(MissingBookId) < Rank(r) && Rank(ShortTitle) < Rank(r) && Rank(BlankAuthor) < Rank(r);
          assert Rank(BadPrice) < Rank(r) && Rank(BadCurrency) < Rank(r);
      }
      if Validate(p) == Reject(r) {
        forall q | Rank(q) < Rank(r) ensures !Violates(p, q) {
          match q
          case MissingBookId =>
          case ShortTitle =>
          case BlankAuthor =>
          case BadPrice =>
          case BadCurrency =>
          case MalformedDetails =>
        }
      }
    }
  }

  /** The order decides which reason is reported: a short title hides a bad
      price, whatever else the patch holds. */
  lemma TitleReportedBeforePrice(p: Patch)
    requires TruthyString(Read(p.bookId))
    requires Violates(p, ShortTitle) && Violates(p, BadPrice)
    ensures Validate(p) == Reject(ShortTitle)
  {
    ValidateIsFirstViolation(p);
  }

  /** A price the form parses to NaN or to 0 is falsy and passes the price
      rule: the `isNaN` test of the chain can never be reached. */
  lemma FalsyPricePasses(p: Patch)
    requires Read(p.price) == Some(NaN) || Read(p.price) == Some(Finite(0.0))
    ensures Validate(p) != Reject(BadPrice)
    ensures !Violates(p, BadPrice)
  {
  }
}
