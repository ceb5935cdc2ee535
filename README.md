# Order composition on the BookStore order-entry screen

This project models the part of the BookStore desktop application that builds
an order: the order line `SaveOrderedBookModel` and the order-building commands
of `CreateOrderViewModel`.

- An order line holds a book's id, title, price and stock (`MaxAmount`), and an
  `Amount` property whose setter ignores a value equal to the current one and
  otherwise stores it and raises two property-changed notifications, `Amount`
  then `TotalCost`. `TotalCost` is `Price * Amount`, computed on each read.
- The view model keeps an ordered collection of line objects, the selected
  client and the signed-in employee. `SelectBook` finds the line for the picked
  search result, creates and appends one (amount 0, stock and price from the
  search result) when there is none, and then adds one to that line's amount.
  The unselect command removes a line from the collection. `SaveOrderAsync`
  checks that a client is selected, then that the collection is not empty, and
  only then builds the save record from the client, the employee, the branch
  and the collection itself.

Modules: `Numerics` (the C# `int` and its wrapping `+ 1`), `Wrappers`
(`Option`), `OrderedBook` (the line class and its value view), `Selection` (the
collection as a sequence of values: what selecting and removing do, and the
lemmas about them), `CreateOrder` (the view model class, proved against
`Selection`).

Representation choices:
- C# `int` is the newtype `Int32`; `Amount += 1` is unchecked two's-complement
  addition, so at `int.MaxValue` it wraps to `int.MinValue` (`Increment`). Below
  that it adds exactly one. The project's build settings are not part of this
  model; the default (unchecked) context is assumed.
- C# `decimal` (`Price`, `TotalCost`) is `real`.
- The notifications a line raises are recorded in its field `notifications`, a
  sequence of property names, instead of being delivered to subscribers.
- The collection is a `seq` of line references; `SelectBook` changes the found
  line in place, so the view model's methods name the lines in their frames.
- The constructor of `CreateOrderViewModel` gives the state once
  `InitializeAsync` has finished: the employee it fetched is a parameter, the
  collection is empty and no client is selected.
- `SaveOrder` returns the record that `SaveOrderAsync` hands to the save
  operation, or `None` when a check fails; `DateTime.Now` is a parameter.
- Error messages are the two cases of `OrderError` instead of the two strings.

The code has no stock ceiling, does not filter zero-amount lines at save, and
has no order total and no submitted state. Nothing reads `MaxAmount`
(`SelectIgnoresStock`, `FirstSelectionFixesLine`), and the saved record holds
the collection unfiltered (`SaveOrder`).

## Model

| member | source | states |
|---|---|---|
| `Numerics.Increment` | BookStore.ViewModels/CreateOrderViewModel.cs:145 | `Amount += 1` on a C# `int`: one more below `int.MaxValue`, `int.MinValue` at it, and never the value it started from (so the setter's guard never swallows it) |
| `Numerics.WrapInt32` | BookStore.ViewModels/CreateOrderViewModel.cs:145 | an unchecked 32-bit result agrees with the exact sum modulo 2^32 and equals it when it fits |
| `OrderedBook.SaveOrderedBookModel.constructor` | BookStore.ViewModels/CreateOrderViewModel.cs:134-141 | the object initialiser gives a line with the given id, title, stock and price, amount 0, total 0, and raises no notification (setting `Amount = 0` hits the guard) |
| `OrderedBook.SaveOrderedBookModel.TotalCost` | BookStore.DataAccess/Models/SaveOrderedBookModel.cs:30 | the derived `TotalCost`, read from the current `Price` and `Amount` and never stored: zero for a zero amount or a zero price, the price for an amount of 1 |
| `OrderedBook.SaveOrderedBookModel.SetAmount` | BookStore.DataAccess/Models/SaveOrderedBookModel.cs:14-30 | afterwards the amount is the value set and `TotalCost` is `Price` times it; equal value: no notification; different value: exactly `"Amount"` then `"TotalCost"` appended; id, title, price and stock unchanged; no bound on the value, `MaxAmount` unread |
| `Selection.FindIndex` | BookStore.ViewModels/CreateOrderViewModel.cs:130 | `FirstOrDefault` on the book id: the result is a line with that id and no earlier line has it; no result exactly when no line has it |
| `Selection.Selected` | BookStore.ViewModels/CreateOrderViewModel.cs:128-146 | `SelectBook` on values: the collection grows by one line exactly when the book had none, every existing line keeps its book id, lines of other books are unchanged, and afterwards the book has a line |
| `Selection.SelectedAll` | BookStore.ViewModels/CreateOrderViewModel.cs:128-146 | a sequence of `SelectBook` calls: never removes a line or changes a line's book id, adds at most one line per call, and every selected book ends up with a line |
| `Selection.SelectNewBook` | BookStore.ViewModels/CreateOrderViewModel.cs:130-145 | selecting a book without a line appends exactly one line at the end, with amount 1 and id, title, price and stock from the search result; earlier lines unchanged |
| `Selection.SelectKnownBook` | BookStore.ViewModels/CreateOrderViewModel.cs:130-145 | selecting a book that has a line keeps the length and the order, increments that line's amount and keeps its title, price and stock (not the new search result's); every other line unchanged |
| `Selection.SelectKeepsIdsDistinct` | BookStore.ViewModels/CreateOrderViewModel.cs:130-142 | a selection keeps the book ids of the lines pairwise distinct |
| `Selection.SelectAllKeepsIdsDistinct` | BookStore.ViewModels/CreateOrderViewModel.cs:128-146 | any sequence of selections keeps the book ids pairwise distinct |
| `Selection.SelectIgnoresStock` | BookStore.ViewModels/CreateOrderViewModel.cs:145 | a line already at or above its stock still gains one on selection: there is no ceiling check |
| `Selection.RepeatSelectionsAccumulate` | BookStore.ViewModels/CreateOrderViewModel.cs:130-145 | in an order with distinct book ids, n selections of a book that has a line at any position k leave every line as it was except line k, whose amount grew by n and whose title, price and stock stay those captured at creation, whatever the later search results carry |
| `Selection.FirstSelectionFixesLine` | BookStore.ViewModels/CreateOrderViewModel.cs:130-145 | from an empty order, n selections of one book give a single line with amount n and the first search result's title, price and stock, even when n exceeds that stock |
| `Selection.IndexOf` | BookStore.ViewModels/CreateOrderViewModel.cs:93 | the first position holding the line, or none exactly when the line is absent (the search inside `Collection.Remove`) |
| `Selection.Removed` | BookStore.ViewModels/CreateOrderViewModel.cs:93 | `Remove` of an absent line changes nothing; of a present one cuts out its first occurrence and keeps the other elements in their order (length one less, multiset minus that line) |
| `Selection.RemoveKeepsIdsDistinct` | BookStore.ViewModels/CreateOrderViewModel.cs:93 | removing a line keeps the remaining book ids pairwise distinct |
| `CreateOrder.CreateOrderViewModel.constructor` | BookStore.ViewModels/CreateOrderViewModel.cs:75-83 | after initialisation the collection of ordered books is empty, no client is selected, no error is shown and the employee is the fetched one |
| `CreateOrder.CreateOrderViewModel.SetSelectedClient` | BookStore.ViewModels/CreateOrderViewModel.cs:43 | the selected client is the one set |
| `CreateOrder.CreateOrderViewModel.FindOrderedBook` | BookStore.ViewModels/CreateOrderViewModel.cs:130 | the loop returns null exactly when no line has the book id, otherwise the first line that has it |
| `CreateOrder.CreateOrderViewModel.FindOrAddLine` | BookStore.ViewModels/CreateOrderViewModel.cs:130-143 | the line for the book at position k: the found one with the collection unchanged, or a fresh line with no notifications appended last; incrementing line k gives `Selected` of the old lines; ids stay distinct |
| `CreateOrder.CreateOrderViewModel.AddBook` | BookStore.ViewModels/CreateOrderViewModel.cs:132-143 | a fresh line with amount 0, the search result's id, title, price and stock, and no notifications is appended; the old lines stay in place and ids stay distinct |
| `CreateOrder.CreateOrderViewModel.IncrementAmount` | BookStore.ViewModels/CreateOrderViewModel.cs:145 | only the given line changes: its amount is incremented and `"Amount"`, `"TotalCost"` are appended to its notifications |
| `CreateOrder.CreateOrderViewModel.SelectBook` | BookStore.ViewModels/CreateOrderViewModel.cs:128-146 | the lines become `Selected` of the old lines; a new line is fresh, appended last and has notified `Amount` and `TotalCost`; otherwise the collection is the same and only the found line changed and notified; lines of other books are unchanged; ids stay distinct |
| `CreateOrder.CreateOrderViewModel.UnselectBook` | BookStore.ViewModels/CreateOrderViewModel.cs:91-93 | the collection becomes `Removed` of the old one: an absent line changes nothing, a present one is removed with the others kept in order; afterwards the line is not in the collection; ids stay distinct |
| `CreateOrder.CreateOrderViewModel.SaveOrder` | BookStore.ViewModels/CreateOrderViewModel.cs:98-121 | no client: "client not selected" and no record, even with lines; client but no lines: "add a book" and no record; otherwise the record has the client's id, the employee's id and branch, the given date and exactly the current collection (zero-amount lines included), and the error message is left as it was |

## Left out

- Catalog search (`SearchBooksAsync`), the client and employee fetches of `InitializeAsync`, and the awaited save operation and `Close(true)`: calls into services whose code is not part of this model. `SaveOrder` returns the record the save operation would receive.
- The calls made before `InitializeAsync` has finished (a null collection or employee), a null search result passed to `SelectBook` and `Remove(null)`: the model's constructor starts from the initialised state and its methods take non-null arguments.
- `SecurityManager.GetCurrentUser()` and `DateTime.Now`: global state and the clock, taken as parameters.
- Delivery of `PropertyChanged` events to subscribers, the collection-changed events of `ObservableCollection`, and the notifications of `Clients`, `FoundBooks`, `OrderedBooks` and `ErrorMessage`: only the names a line announces are recorded.
- Component composition (`[Import]`/`[Export]`), the lazily built command objects, the busy scopes of `StartOperation()` and the window title: framework wiring.
- The save record's `orderedBooks` is the sequence of line references at save time, a copy; in the code the record shares the view model's `ObservableCollection` itself, so later changes to the collection would show through it.
- `decimal` precision and overflow in `TotalCost`: prices and totals are exact reals.
- `DbRecreation/Program.cs`: database recreation and seeding (SQL, files, password hashing, random numbers).
