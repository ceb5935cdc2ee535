/**
 * One line of the order being composed: the C# class SaveOrderedBookModel.
 * Its Amount property is backed by a field and guarded: setting the value it
 * already has does nothing, any other value is stored and announced by two
 * property-changed notifications. TotalCost is derived from Price and Amount
 * and never stored.
 */
module OrderedBook {
  import opened Numerics

  /** The properties of a line as a value (everything but its notification log). */
  datatype LineView = LineView(bookId: Int32, bookTitle: string, price: real, maxAmount: Int32, amount: Int32)

  class SaveOrderedBookModel {
    var bookId: Int32
    var price: real
    /** The backing field `_amount` that the Amount property reads and guards. */
    var amount: Int32
    var bookTitle: string
    /** Stock at the time the book was picked; nothing in the order logic reads it. */
    var maxAmount: Int32
    /** Names of the properties announced through PropertyChanged, oldest first. */
    var notifications: seq<string>

    function View(): (v: LineView)
      reads this
    {
      LineView(bookId, bookTitle, price, maxAmount, amount)
    }

    /** The derived TotalCost property: Price times the current Amount. */
    function TotalCost(): (t: real)
      reads this
      ensures amount == 0 ==> t == 0.0
      ensures price == 0.0 ==> t == 0.0
      ensures amount as int == 1 ==> t == price
    {
      price * amount as int as real
    }

    /**
     * `new SaveOrderedBookModel { BookId = …, BookTitle = …, Amount = 0, MaxAmount = …, Price = … }`:
     * the default constructor, then the initialiser's property sets in their order.
     * Setting Amount to 0 hits the setter's guard, so no notification is raised.
     */
    constructor (bookId: Int32, bookTitle: string, maxAmount: Int32, price: real)
      ensures View() == LineView(bookId, bookTitle, price, maxAmount, 0)
      ensures TotalCost() == 0.0
      ensures notifications == []
    {
      this.bookId := 0;
      this.price := 0.0;
      this.amount := 0;
      this.bookTitle := "";
      this.maxAmount := 0;
      this.notifications := [];
      new;
      this.bookId := bookId;
      this.bookTitle := bookTitle;
      SetAmount(0);
      this.maxAmount := maxAmount;
      this.price := price;
    }

    /**
     * The Amount setter. Any 32-bit value is accepted: MaxAmount is not consulted.
     * Only the amount and the notification log change.
     */
    method SetAmount(value: Int32)
      modifies this`amount, this`notifications
      ensures amount == value
      ensures View() == old(View()).(amount := value)
      ensures TotalCost() == price * value as int as real
      ensures old(amount) == value ==> notifications == old(notifications)
      ensures old(amount) != value ==> notifications == old(notifications) + ["Amount", "TotalCost"]
    {
      if value == amount {
        return;
      }
      amount := value;
      notifications := notifications + ["Amount"];
      notifications := notifications + ["TotalCost"];
    }
  }

  /** The views of a collection of lines, in collection order. */
  ghost function ViewsOf(books: seq<SaveOrderedBookModel>): (r: seq<LineView>)
    reads books
    ensures |r| == |books|
    ensures forall i :: 0 <= i < |books| ==> r[i] == books[i].View()
  {
    if books == [] then [] else [books[0].View()] + ViewsOf(books[1..])
  }
}
