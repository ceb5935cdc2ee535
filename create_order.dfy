/**
 * The order being composed on the order-entry screen: the state and commands of
 * the C# CreateOrderViewModel that build the order. Lines are objects held by
 * reference, so the collection is a sequence of SaveOrderedBookModel references;
 * SelectBook changes the line it finds in place.
 */
module CreateOrder {
  import opened Wrappers
  import opened Numerics
  import opened OrderedBook
  import opened Selection

  /** The client picked in the client list (only its Id is used here). */
  datatype GetClientModel = GetClientModel(id: Int32)

  /** The employee signed in, as fetched when the screen is initialised. */
  datatype GetEmployeeModel = GetEmployeeModel(id: Int32, branchId: Int32)

  /** The order date, supplied by the caller in place of the system clock. */
  datatype DateTime = DateTime(ticks: int)

  /** The record handed to the save operation; it holds the line objects of the collection at save time. */
  datatype SaveOrderModel = SaveOrderModel(
    orderedBooks: seq<SaveOrderedBookModel>,
    branchId: Int32,
    clientId: Int32,
    employeeId: Int32,
    orderDate: DateTime)

  /** The two messages SaveOrderAsync can put in ErrorMessage. */
  datatype OrderError = ClientNotSelected | NoBookAdded

  class CreateOrderViewModel {
    var currentEmployee: GetEmployeeModel
    var selectedClient: Option<GetClientModel>
    var orderedBooks: seq<SaveOrderedBookModel>
    var errorMessage: Option<OrderError>

    /** The lines of the order as values, in collection order. */
    ghost function Lines(): seq<LineView>
      reads this, orderedBooks
    {
      ViewsOf(orderedBooks)
    }

    /** At most one line per book. */
    ghost predicate Valid()
      reads this, orderedBooks
    {
      DistinctIds(Lines())
    }

    /**
     * The screen once InitializeAsync has run: the signed-in employee is known,
     * no client is selected and the collection of ordered books is empty.
     */
    constructor (currentEmployee: GetEmployeeModel)
      ensures Valid()
      ensures orderedBooks == [] && Lines() == []
      ensures selectedClient == None && errorMessage == None
      ensures this.currentEmployee == currentEmployee
    {
      this.currentEmployee := currentEmployee;
      selectedClient := None;
      orderedBooks := [];
      errorMessage := None;
    }

    /** The SelectedClient property, set from the client list. */
    method SetSelectedClient(client: Option<GetClientModel>)
      modifies this`selectedClient
      ensures selectedClient == client
    {
      selectedClient := client;
    }

    /** `OrderedBooks.FirstOrDefault(ob => ob.BookId == bookId)`: the first line for the book, or null. */
    method FindOrderedBook(bookId: Int32) returns (found: SaveOrderedBookModel?)
      ensures found == null <==> forall l :: l in orderedBooks ==> l.bookId != bookId
      ensures found != null ==> found in orderedBooks && found.bookId == bookId
      ensures found != null ==> FindIndex(Lines(), bookId).Some?
                                && found == orderedBooks[FindIndex(Lines(), bookId).value]
    {
      found := null;
      var i := 0;
      while i < |orderedBooks|
        invariant 0 <= i <= |orderedBooks|
        invariant forall j :: 0 <= j < i ==> orderedBooks[j].bookId != bookId
      {
        if orderedBooks[i].bookId == bookId {
          found := orderedBooks[i];
          assert FindIndex(Lines(), bookId) == Some(i);
          return;
        }
        i := i + 1;
      }
    }

    /**
     * SelectBook: find the book's line; if there is none, create one with amount 0
     * and the search result's title, stock and price and append it; then add one
     * to the line's amount. Only that line changes.
     */
    method SelectBook(book: SearchBookModel)
      requires Valid()
      modifies this`orderedBooks, orderedBooks
      ensures Valid()
      ensures Lines() == Selected(old(Lines()), book)
      ensures FindIndex(old(Lines()), book.bookId).None? ==>
                |orderedBooks| == |old(orderedBooks)| + 1
                && orderedBooks[..|old(orderedBooks)|] == old(orderedBooks)
                && fresh(orderedBooks[|old(orderedBooks)|])
                && orderedBooks[|old(orderedBooks)|].notifications == ["Amount", "TotalCost"]
      ensures FindIndex(old(Lines()), book.bookId).Some? ==>
                var k := FindIndex(old(Lines()), book.bookId).value;
                orderedBooks == old(orderedBooks)
                && orderedBooks[k].notifications == old(orderedBooks[k].notifications) + ["Amount", "TotalCost"]
      ensures forall l :: l in old(orderedBooks) && l.bookId != book.bookId ==> unchanged(l)
    {
      ghost var k;
      var line;
      line, k := FindOrAddLine(book);
      IncrementAmount(line, k);
      SelectKeepsIdsDistinct(old(Lines()), book);
    }

    /**
     * The first part of SelectBook: the line for the book, found in the collection
     * or created and appended when there is none; `k` is its position.
     */
    method FindOrAddLine(book: SearchBookModel) returns (line: SaveOrderedBookModel, ghost k: nat)
      requires Valid()
      modifies this`orderedBooks
      ensures Valid()
      ensures k < |orderedBooks| && orderedBooks[k] == line
      ensures Selected(old(Lines()), book) == Lines()[k := Incremented(Lines()[k])]
      ensures FindIndex(old(Lines()), book.bookId).None? ==>
                orderedBooks == old(orderedBooks) + [line] && fresh(line) && line.notifications == []
      ensures FindIndex(old(Lines()), book.bookId).Some? ==>
                orderedBooks == old(orderedBooks) && k == FindIndex(old(Lines()), book.bookId).value
      ensures line.bookId == book.bookId
    {
      ghost var before := Lines();
      var found := FindOrderedBook(book.bookId);
      assert Lines() == before;
      if found == null {
        assert FindIndex(before, book.bookId) == None by {
          forall j | 0 <= j < |before| ensures before[j].bookId != book.bookId {
            assert orderedBooks[j] in orderedBooks;
          }
        }
        line := AddBook(book);
        k := |before|;
        assert Selected(before, book) == Lines()[k := Incremented(Lines()[k])] by {
          assert Lines() == before + [NewLine(book)];
        }
      } else {
        line := found;
        k := FindIndex(before, book.bookId).value;
        assert Selected(before, book) == before[k := Incremented(before[k])];
      }
    }

    /** The branch of SelectBook for a book without a line: create its line and append it. */
    method AddBook(book: SearchBookModel) returns (line: SaveOrderedBookModel)
      requires Valid()
      requires forall l :: l in orderedBooks ==> l.bookId != book.bookId
      modifies this`orderedBooks
      ensures Valid()
      ensures fresh(line) && orderedBooks == old(orderedBooks) + [line]
      ensures line.notifications == [] && line.View() == NewLine(book)
      ensures Lines() == old(Lines()) + [NewLine(book)]
    {
      ghost var before := Lines();
      line := new SaveOrderedBookModel(book.bookId, book.bookTitle, book.amount, book.price);
      orderedBooks := orderedBooks + [line];
      forall i | 0 <= i < |before| ensures Lines()[i] == before[i] {
        assert orderedBooks[i] == old(orderedBooks)[i];
      }
      assert Lines() == before + [NewLine(book)];
    }

    /** `line.Amount += 1` on a line of the order. */
    method IncrementAmount(line: SaveOrderedBookModel, ghost k: nat)
      requires Valid() && k < |orderedBooks| && orderedBooks[k] == line
      modifies line`amount, line`notifications
      ensures Valid()
      ensures line.notifications == old(line.notifications) + ["Amount", "TotalCost"]
      ensures Lines() == old(Lines())[k := Incremented(old(Lines())[k])]
    {
      ghost var before := Lines();
      line.SetAmount(Increment(line.amount));
      forall i | 0 <= i < |orderedBooks| && i != k ensures Lines()[i] == before[i] {
        assert before[i].bookId != before[k].bookId;
      }
    }

    /**
     * The unselect command, `OrderedBooks.Remove(line)`: the line is taken out and
     * the others keep their order; a line that is not in the order changes nothing.
     */
    method UnselectBook(line: SaveOrderedBookModel)
      requires Valid()
      modifies this`orderedBooks
      ensures Valid()
      ensures orderedBooks == Removed(old(orderedBooks), line)
      ensures line !in orderedBooks
    {
      var i := 0;
      while i < |orderedBooks| && orderedBooks[i] != line
        invariant 0 <= i <= |orderedBooks|
        invariant line !in orderedBooks[..i]
      {
        i := i + 1;
      }
      if i < |orderedBooks| {
        ghost var before := Lines();
        assert IndexOf(orderedBooks, line) == Some(i);
        forall j | 0 <= j < |orderedBooks| && j != i ensures orderedBooks[j] != line {
          assert before[j].bookId != before[i].bookId;
        }
        orderedBooks := orderedBooks[..i] + orderedBooks[i + 1..];
        RemoveKeepsIdsDistinct(before, i);
        assert Lines() == before[..i] + before[i + 1..];
      }
    }

    /**
     * SaveOrderAsync up to the save call: a client must be selected, then at least
     * one line must exist; each failed check sets its message and builds nothing.
     * Otherwise the record carries the client, the employee and branch, the given
     * date and the line collection as it is (zero-amount lines included).
     */
    method SaveOrder(orderDate: DateTime) returns (saved: Option<SaveOrderModel>)
      modifies this`errorMessage
      ensures selectedClient.None? ==> saved == None && errorMessage == Some(ClientNotSelected)
      ensures selectedClient.Some? && orderedBooks == [] ==>
                saved == None && errorMessage == Some(NoBookAdded)
      ensures selectedClient.Some? && orderedBooks != [] ==>
                errorMessage == old(errorMessage)
                && saved == Some(SaveOrderModel(orderedBooks, currentEmployee.branchId,
                                                selectedClient.value.id, currentEmployee.id, orderDate))
    {
      if selectedClient.None? {
        errorMessage := Some(ClientNotSelected);
        return None;
      }
      if orderedBooks == [] {
        errorMessage := Some(NoBookAdded);
        return None;
      }
      saved := Some(SaveOrderModel(orderedBooks, currentEmployee.branchId,
                                   selectedClient.value.id, currentEmployee.id, orderDate));
    }
  }
}
