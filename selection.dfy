/**
 * The order-line collection as a sequence of values: what selecting a found
 * book and removing a line do to it. The view model's methods are proved
 * against these functions.
 */
module Selection {
  import opened Wrappers
  import opened Numerics
  import opened OrderedBook

  /** A book returned by the catalog search (the C# SearchBookModel); `amount` is the stock. */
  datatype SearchBookModel = SearchBookModel(bookId: Int32, bookTitle: string, price: real, amount: Int32)

  /** No two lines are for the same book. */
  predicate DistinctIds(lines: seq<LineView>)
  {
    forall i, j :: 0 <= i < j < |lines| ==> lines[i].bookId != lines[j].bookId
  }

  /** The position of the first line for `bookId`, as `FirstOrDefault` finds it. */
  function FindIndex(lines: seq<LineView>, bookId: Int32): (r: Option<nat>)
    ensures r.Some? ==> r.value < |lines| && lines[r.value].bookId == bookId
    ensures r.Some? ==> forall j :: 0 <= j < r.value ==> lines[j].bookId != bookId
    ensures r.None? <==> forall j :: 0 <= j < |lines| ==> lines[j].bookId != bookId
  {
    if lines == [] then None
    else if lines[0].bookId == bookId then Some(0)
    else match FindIndex(lines[1..], bookId)
      case None => None
      case Some(k) => Some(k + 1)
  }

  /** The line SelectBook creates for a book it has not seen: amount 0, stock and price from the search result. */
  function NewLine(book: SearchBookModel): LineView
  {
    LineView(book.bookId, book.bookTitle, book.price, book.amount, 0)
  }

  /** `Amount += 1` on a line. */
  function Incremented(line: LineView): LineView
  {
    line.(amount := Increment(line.amount))
  }

  /** SelectBook on values: find the book's line, append a new one if there is none, then increment it. */
  function Selected(lines: seq<LineView>, book: SearchBookModel): (r: seq<LineView>)
    ensures |r| == |lines| + (if FindIndex(lines, book.bookId).None? then 1 else 0)
    ensures forall i :: 0 <= i < |lines| ==> r[i].bookId == lines[i].bookId
    ensures forall i :: 0 <= i < |lines| && lines[i].bookId != book.bookId ==> r[i] == lines[i]
    ensures FindIndex(r, book.bookId).Some?
  {
    match FindIndex(lines, book.bookId)
    case None =>
      var r := lines + [Incremented(NewLine(book))];
      assert r[|lines|].bookId == book.bookId;
      r
    case Some(k) => lines[k := Incremented(lines[k])]
  }

  /** A sequence of SelectBook calls, first to last. */
  function SelectedAll(lines: seq<LineView>, books: seq<SearchBookModel>): (r: seq<LineView>)
    ensures |lines| <= |r| <= |lines| + |books|
    ensures forall i :: 0 <= i < |lines| ==> r[i].bookId == lines[i].bookId
    ensures forall i :: 0 <= i < |books| ==> FindIndex(r, books[i].bookId).Some?
    decreases |books|
  {
    if books == [] then lines else SelectedAll(Selected(lines, books[0]), books[1..])
  }

  lemma SelectNewBook(lines: seq<LineView>, book: SearchBookModel)
    requires forall j :: 0 <= j < |lines| ==> lines[j].bookId != book.bookId
    ensures Selected(lines, book) == lines + [LineView(book.bookId, book.bookTitle, book.price, book.amount, 1)]
  {
  }

  lemma SelectKnownBook(lines: seq<LineView>, book: SearchBookModel, k: nat)
    requires k < |lines| && lines[k].bookId == book.bookId
    requires DistinctIds(lines)
    ensures |Selected(lines, book)| == |lines|
    ensures Selected(lines, book)[k] == lines[k].(amount := Increment(lines[k].amount))
    ensures forall i :: 0 <= i < |lines| && i != k ==> Selected(lines, book)[i] == lines[i]
  {
  }

  lemma SelectKeepsIdsDistinct(lines: seq<LineView>, book: SearchBookModel)
    requires DistinctIds(lines)
    ensures DistinctIds(Selected(lines, book))
  {
  }

  lemma {:induction false} SelectAllKeepsIdsDistinct(lines: seq<LineView>, books: seq<SearchBookModel>)
    requires DistinctIds(lines)
    ensures DistinctIds(SelectedAll(lines, books))
    decreases |books|
  {
    if books != [] {
      SelectKeepsIdsDistinct(lines, books[0]);
      SelectAllKeepsIdsDistinct(Selected(lines, books[0]), books[1..]);
    }
  }

  /** Selecting a book whose line is at or above its stock still adds one: there is no ceiling. */
  lemma SelectIgnoresStock(lines: seq<LineView>, book: SearchBookModel, k: nat)
    requires k < |lines| && lines[k].bookId == book.bookId
    requires DistinctIds(lines)
    requires lines[k].maxAmount <= lines[k].amount && lines[k].amount as int < MaxInt32
    ensures Selected(lines, book)[k].amount as int == lines[k].amount as int + 1 > lines[k].maxAmount as int
  {
    SelectKnownBook(lines, book, k);
  }

  /**
   * Repeated selections of a book that has a line, wherever it stands, add one each
   * to that line and keep the title, price and stock captured when the line was
   * created, whatever the later search results say; every other line is unchanged.
   */
  lemma {:induction false} RepeatSelectionsAccumulate(lines: seq<LineView>, k: nat, books: seq<SearchBookModel>)
    requires k < |lines| && DistinctIds(lines)
    requires forall i :: 0 <= i < |books| ==> books[i].bookId == lines[k].bookId
    requires lines[k].amount as int + |books| <= MaxInt32
    ensures SelectedAll(lines, books)
         == lines[k := lines[k].(amount := (lines[k].amount as int + |books|) as Int32)]
    decreases |books|
  {
    if books == [] {
      assert lines[k := lines[k]] == lines;
    } else {
      SelectKnownBook(lines, books[0], k);
      SelectKeepsIdsDistinct(lines, books[0]);
      var next := lines[k := Incremented(lines[k])];
      assert Selected(lines, books[0]) == next;
      assert SelectedAll(lines, books) == SelectedAll(next, books[1..]);
      RepeatSelectionsAccumulate(next, k, books[1..]);
      assert (next[k].amount as int + |books[1..]|) as Int32 == (lines[k].amount as int + |books|) as Int32;
    }
  }

  /**
   * Starting from an empty order, n selections of one book give one line with
   * amount n, the title, price and stock of the first search result, even when
   * n exceeds that stock.
   */
  lemma {:induction false} FirstSelectionFixesLine(books: seq<SearchBookModel>)
    requires |books| > 0 && |books| <= MaxInt32
    requires forall i :: 0 <= i < |books| ==> books[i].bookId == books[0].bookId
    ensures SelectedAll([], books)
         == [LineView(books[0].bookId, books[0].bookTitle, books[0].price, books[0].amount, |books| as Int32)]
  {
    var first := LineView(books[0].bookId, books[0].bookTitle, books[0].price, books[0].amount, 1);
    SelectNewBook([], books[0]);
    assert Selected([], books[0]) == [first];
    assert SelectedAll([], books) == SelectedAll(Selected([], books[0]), books[1..]);
    RepeatSelectionsAccumulate([first], 0, books[1..]);
  }

  /** The position of the first occurrence of `x`, as `Collection<T>.IndexOf` finds it. */
  function IndexOf<T(==)>(s: seq<T>, x: T): (r: Option<nat>)
    ensures r.Some? ==> r.value < |s| && s[r.value] == x && x !in s[..r.value]
    ensures r.None? <==> x !in s
  {
    if s == [] then None
    else if s[0] == x then Some(0)
    else match IndexOf(s[1..], x)
      case None => None
      case Some(k) => (assert s[..k + 1] == [s[0]] + s[1..][..k]; Some(k + 1))
  }

  /**
   * `Collection<T>.Remove`: drop the first occurrence of `x` and keep the rest in
   * order; without an occurrence nothing changes.
   */
  function Removed<T(==)>(s: seq<T>, x: T): (r: seq<T>)
    ensures x !in s ==> r == s
    ensures x in s ==> |r| == |s| - 1 && multiset(r) == multiset(s) - multiset{x}
    ensures x in s ==> exists i :: 0 <= i < |s| && s[i] == x && x !in s[..i] && r == s[..i] + s[i + 1..]
  {
    match IndexOf(s, x)
    case None => s
    case Some(i) =>
      assert s == s[..i] + [x] + s[i + 1..];
      s[..i] + s[i + 1..]
  }

  /** Removing a line keeps the remaining book ids distinct. */
  lemma RemoveKeepsIdsDistinct(lines: seq<LineView>, i: nat)
    requires i < |lines| && DistinctIds(lines)
    ensures DistinctIds(lines[..i] + lines[i + 1..])
  {
  }
}
