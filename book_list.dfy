/** The two updaters the screen hands to `setBooks` once the service has
    confirmed a change: `prevBooks.map(...)`, which lays an update over the
    record with the edited `_id`, and `prevBooks.filter(...)`, which drops
    every record by the deleted author. */
module BookList {
  import opened JsValues
  import opened Books

  /** `books.map(book => book._id === id ? { ...book, ...patch } : book)`. */
  function MergeById(books: seq<Book>, id: string, patch: Patch): (r: seq<Book>)
    ensures |r| == |books|
  {
    if books == [] then []
    else [if books[0].id == id then Overlay(books[0], patch) else books[0]]
         + MergeById(books[1..], id, patch)
  }

  /** `books.filter(book => book.author !== author)`. */
  function RemoveAuthor(books: seq<Book>, author: Option<string>): (r: seq<Book>)
    ensures |r| <= |books|
  {
    if books == [] then []
    else (if books[0].author != author then [books[0]] else [])
         + RemoveAuthor(books[1..], author)
  }

  /** The number of records whose author is `author`. */
  function CountAuthor(books: seq<Book>, author: Option<string>): nat {
    if books == [] then 0
    else (if books[0].author == author then 1 else 0) + CountAuthor(books[1..], author)
  }

  /** Position by position: the record with the edited `_id` carries the
      update and keeps its identifier and every property the update leaves
      out; every other record is the one that was there. */
  lemma {:induction false} MergeByIdAt(books: seq<Book>, id: string, patch: Patch, i: nat)
    requires i < |books|
    ensures books[i].id == id ==> MergeById(books, id, patch)[i] == Overlay(books[i], patch)
    ensures books[i].id != id ==> MergeById(books, id, patch)[i] == books[i]
    ensures MergeById(books, id, patch)[i].id == books[i].id
  {
    if i > 0 {
      MergeByIdAt(books[1..], id, patch, i - 1);
    }
  }

  /** An update whose `_id` is on no record leaves the list as it is. */
  lemma {:induction false} MergeUnknownId(books: seq<Book>, id: string, patch: Patch)
    requires forall i :: 0 <= i < |books| ==> books[i].id != id
    ensures MergeById(books, id, patch) == books
  {
    if books != [] {
      MergeUnknownId(books[1..], id, patch);
    }
  }

  /** Confirming the same update twice gives the list that confirming it once
      gives. */
  lemma {:induction false} MergeByIdIdempotent(books: seq<Book>, id: string, patch: Patch)
    ensures MergeById(MergeById(books, id, patch), id, patch) == MergeById(books, id, patch)
  {
    if books != [] {
      OverlayIdempotent(books[0], patch);
      MergeByIdIdempotent(books[1..], id, patch);
      var once := MergeById(books, id, patch);
      assert once[1..] == MergeById(books[1..], id, patch);
    }
  }

  /** A record stays exactly when it was there and its author differs. */
  lemma {:induction false} RemoveAuthorMembers(books: seq<Book>, author: Option<string>, b: Book)
    ensures b in RemoveAuthor(books, author) <==> b in books && b.author != author
  {
    if books != [] {
      RemoveAuthorMembers(books[1..], author, b);
      assert books == [books[0]] + books[1..];
    }
  }

  /** The filter keeps the order: filtering a concatenation filters each part
      and concatenates the results. */
  lemma {:induction false} RemoveAuthorAppend(xs: seq<Book>, ys: seq<Book>, author: Option<string>)
    ensures RemoveAuthor(xs + ys, author) == RemoveAuthor(xs, author) + RemoveAuthor(ys, author)
  {
    if xs == [] {
      assert xs + ys == ys;
    } else {
      assert (xs + ys)[1..] == xs[1..] + ys;
      RemoveAuthorAppend(xs[1..], ys, author);
    }
  }

  /** Exactly the matching records go: the list shrinks by their number. */
  lemma {:induction false} RemoveAuthorCount(books: seq<Book>, author: Option<string>)
    ensures |RemoveAuthor(books, author)| == |books| - CountAuthor(books, author)
  {
    if books != [] {
      RemoveAuthorCount(books[1..], author);
    }
  }

  /** Deleting an author no record has leaves the list as it is. */
  lemma {:induction false} RemoveAbsentAuthor(books: seq<Book>, author: Option<string>)
    requires forall i :: 0 <= i < |books| ==> books[i].author != author
    ensures RemoveAuthor(books, author) == books
  {
    if books != [] {
      RemoveAbsentAuthor(books[1..], author);
    }
  }

  /** Deleting the same author again changes nothing. */
  lemma RemoveAuthorIdempotent(books: seq<Book>, author: Option<string>)
    ensures RemoveAuthor(RemoveAuthor(books, author), author) == RemoveAuthor(books, author)
  {
    var r := RemoveAuthor(books, author);
    forall i | 0 <= i < |r| ensures r[i].author != author {
      RemoveAuthorMembers(books, author, r[i]);
    }
    RemoveAbsentAuthor(r, author);
  }
}
