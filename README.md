# eBook list screen: edit validation and confirmed list updates

This is a Dafny model of the logic inside the single React Native component
`App` (App.js) of a mobile client for an eBook catalogue service. The screen
lists records fetched from the service and lets the user edit or delete them.
Three pieces of that component carry all of its behaviour, and they are
modelled and proved here:

- **`validateBook`**: a fixed chain of six rules over the record an edit
  would send. The first failing rule rejects the record. A record that fails
  none is accepted. Each rule after the first looks at its property only
  when that property is truthy in JavaScript's sense. An empty title skips
  the length rule, and a price of 0 or NaN skips the price rule.
- **The local book list.** Three updates change it: it is replaced after the
  list request, merged by `_id` after a confirmed update
  (`{ ...book, ...updatedBook }`), and filtered by author after a confirmed
  delete.
- **The Browsing/Editing mode.** This is the `isEditing` flag, the record
  being edited and the eight draft values of the edit form, as set by the
  "Sửa" (edit), "Lưu thay đổi" (save) and "Hủy" (cancel) buttons.

Modules:

- `JsValues` (js_values.dfy) holds the JavaScript values involved:
  - `undefined` is the `None` of `Option`;
  - numbers are NaN, the two infinities or a finite real;
  - string and number truthiness;
  - `trim` over ECMAScript's white space and line terminators;
  - the UTF-16 `length` of a string.
- `Books` (books.dfy) holds the record, the partial record an edit sends,
  and object spread. A property of the partial record is either not a key
  of the object (`Unset`) or a key set to a value, which may be `undefined`.
- `Validator` (validator.dfy) holds `validateBook` as written (`Validate`)
  and a statement of each rule on the values themselves (`Violates`). It
  proves that `Validate` reports exactly the first violated rule.
- `BookList` (book_list.dfy) holds the `map` and `filter` updaters and their
  properties: length, order, what changes and what does not, and
  idempotence.
- `BookApp` (app.dfy) holds the component's state as a class whose fields
  are its `useState` variables. Its methods are the request functions and the
  button handlers. Each request's outcome is a parameter: `ok` is the
  service's confirmation, and `ListReply` is what the list request yields.

Where the code and the behaviour one might expect from it differ, the model
follows the code:

- A failed list request leaves the list as it was. It is not emptied. The
  list is only empty then because it starts empty.
- A price of 0 or NaN passes validation, because both are falsy. This
  includes a draft price that `parseFloat` cannot read. The `isNaN` test of
  the price rule can never be reached (`FalsyPricePasses`).
- A falsy primitive as `details` passes validation. Only a truthy
  non-object is rejected.
- Cancel only leaves Editing. The draft values stay until the next "Sửa"
  overwrites all of them.
- Delete removes every record by the same author. It does not remove one
  record by identifier.

## Model

| member | source | states |
|---|---|---|
| `JsValues.Trim` | App.js:82 | `trim` returns a contiguous slice of the string whose prefix and suffix are white space and whose ends are not white space |
| `JsValues.TrimEmptyIffBlank` | App.js:82 | `s.trim() === ''` holds exactly when every character of `s` is white space or a line terminator |
| `JsValues.Utf16Length` | App.js:77 | `title.length` counts UTF-16 units: at least one and at most two per character |
| `Books.Overlay` | App.js:59 | `{ ...book, ...patch }` keeps `_id`, holds every property the patch sets, and keeps every property the patch leaves out |
| `Books.OverlayUnique` | App.js:59 | those three facts determine the merged record completely |
| `Books.OverlayIdempotent` | App.js:59 | a record that already carries the patch is unchanged by it, so overlaying twice equals overlaying once |
| `Validator.Validate` | App.js:71-103 | a missing or empty `bookId` is always rejected by the first rule, whatever else the record holds; a price rejection implies a negative price |
| `Validator.ValidateIsFirstViolation` | App.js:71-103 | the validator accepts exactly the records that violate no rule, and it rejects with rule r exactly when r is violated and no earlier rule is. The rules as proved: empty or missing `bookId`; non-empty title under 3 UTF-16 units; non-empty all-white-space author; negative price; non-empty currency other than USD, EUR, VND; truthy primitive `details` |
| `Validator.TitleReportedBeforePrice` | App.js:77-90 | a record with a short title and a negative price is rejected for its title, never for its price |
| `Validator.FalsyPricePasses` | App.js:87-90 | a price of NaN or 0 is falsy, so the price rule never rejects it |
| `BookList.MergeById` | App.js:57-61 | the merged list has the length of the old one |
| `BookList.MergeByIdAt` | App.js:57-61 | position by position, the record with the given `_id` becomes the overlay of the patch, every other record is unchanged, and every `_id` stays at its place |
| `BookList.MergeUnknownId` | App.js:58-60 | an update whose `_id` matches no record leaves the list unchanged |
| `BookList.MergeByIdIdempotent` | App.js:57-61 | applying the same confirmed update twice yields the list that applying it once yields |
| `BookList.RemoveAuthor` | App.js:118 | the filtered list is no longer than the original |
| `BookList.RemoveAuthorMembers` | App.js:118 | a record is in the result exactly when it was in the list and its author differs from the deleted one |
| `BookList.RemoveAuthorAppend` | App.js:118 | filtering preserves order: filtering a concatenation concatenates the filtered parts |
| `BookList.RemoveAuthorCount` | App.js:118 | the list shrinks by exactly the number of records by that author |
| `BookList.RemoveAbsentAuthor` | App.js:118 | deleting an author that no record has leaves the list unchanged |
| `BookList.RemoveAuthorIdempotent` | App.js:118 | deleting the same author a second time changes nothing |
| `BookApp.App.constructor` | App.js:5-16 | initial state: no books, Browsing, no record chosen, empty draft |
| `BookApp.App.FetchBooks` | App.js:19-34 | the list becomes `data.data` when it is truthy and `[]` when it is not; a failed request leaves the list unchanged; the form is untouched |
| `BookApp.App.UpdateBook` | App.js:37-69 | on confirmation the list becomes the merge by `_id` and Editing ends; on failure the list and the mode are unchanged; the draft is untouched |
| `BookApp.App.DeleteBook` | App.js:106-124 | on confirmation the list becomes the filter by author; on failure it is unchanged; the mode and the draft are untouched |
| `BookApp.FormFor` | App.js:162-173 | the form "Sửa" opens on a record is in Editing on that record, with the draft title, `bookId`, author and currency copied from it, its price as text; its page count as text and its language and publisher (or "" when missing) when it has `details`, and empty pages, language and publisher when it has none |
| `BookApp.App.BeginEdit` | App.js:162-173 | the whole form becomes the one `FormFor` gives for the chosen record, whatever was being edited before; the list is unchanged |
| `BookApp.App.Type` | App.js:189-238 | typing sets exactly the one draft value of that input; the list and the mode are unchanged |
| `BookApp.App.Save` | App.js:242-259 | the draft is validated, and only an accepted draft is sent; the list changes (merge by the edited `_id`) and Editing ends only when the update is accepted and confirmed; otherwise the list is unchanged and Editing stays on |
| `BookApp.App.Cancel` | App.js:262 | Editing turns off; the list, the chosen record and the draft are unchanged |

## Left out

- The HTTP requests (`fetch`, the URLs, `encodeURIComponent`, JSON encoding and decoding) are I/O. Each outcome is a parameter. For an update, `ok` means that the status was a success and the response body was read; an unreadable body ends in the same `catch` as a failed status.
- `Alert.alert`, `console.log` and `console.error` are user notices and logging. A rejection is returned as a `Rule` instead.
- `parseFloat`, `parseInt` and `Number.prototype.toString` are library code. They are function parameters of `Save` and `BeginEdit`.
- The `loading` flag, `useEffect` and the order in which concurrent requests complete are runtime scheduling. Each request is applied whole, at the moment its outcome is given.
- The rendering (JSX, `FlatList`, `TextInput`, `StyleSheet`) is presentation. Only what the buttons and inputs do to the state is kept.
- `BookApp.App.BeginEdit` requires a record with a price, and with `details` absent or an object holding `pages`. For any other record the handler throws part-way through. The model does not cover that partial update.
- Each property of a record has one type: strings for the text properties, numbers for `price` and `pages`, an object or a primitive for `details`. A value of another JavaScript type (a numeric title, say) is not modelled, and `null` is treated as `undefined`.
- A truthy `data.data` that is not an array of records is not modelled.
- An update that carries an `_id` of its own is not modelled. The screen never sends one.
