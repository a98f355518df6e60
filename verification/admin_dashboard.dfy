/**
 * The administrator's book list: a search box and a stock filter over the catalogue,
 * the three stock counts, and the add/edit form.
 */
module AdminDashboard {
  import opened Wrappers
  import Seqs
  import Text
  import QuantitySelector

  /** A catalogue entry; the price is held in cents (the backend demands a price above 0). */
  datatype AdminBook = AdminBook(id: int, titulo: string, autor: string, editorial: string,
                                 precioCents: nat, cantidad: int, descripcion: string, imagenUrl: string)

  // ---- the filter chain ----

  /** The search test: the lower-cased title or author contains the lower-cased term. */
  predicate SearchMatch(term: string, b: AdminBook) {
    Text.Contains(Text.ToLower(b.titulo), Text.ToLower(term))
    || Text.Contains(Text.ToLower(b.autor), Text.ToLower(term))
  }

  /** The stock test: "in-stock" keeps positive stock, "out-of-stock" zero, anything else all. */
  predicate StockMatch(filter: string, b: AdminBook) {
    if filter == "in-stock" then b.cantidad > 0
    else if filter == "out-of-stock" then b.cantidad == 0
    else true
  }

  /** What the two filters together keep; an empty term searches for nothing. */
  predicate Keeps(term: string, filter: string, b: AdminBook) {
    (term == "" || SearchMatch(term, b)) && StockMatch(filter, b)
  }

  function SearchPred(term: string): AdminBook -> bool { b => SearchMatch(term, b) }
  function StockPred(filter: string): AdminBook -> bool { b => StockMatch(filter, b) }
  function KeepPred(term: string, filter: string): AdminBook -> bool { b => Keeps(term, filter, b) }

  /** `filterBooks`: the search filter when there is a term, then the stock filter when one is chosen. */
  function FilterBooks(books: seq<AdminBook>, term: string, filter: string): seq<AdminBook> {
    var searched := if term != "" then Seqs.Filter(books, SearchPred(term)) else books;
    if filter == "in-stock" || filter == "out-of-stock" then Seqs.Filter(searched, StockPred(filter))
    else searched
  }

  /** The chain of two filters is one filter by the conjunction of the two tests. */
  lemma FilterBooksIsOneFilter(books: seq<AdminBook>, term: string, filter: string)
    ensures FilterBooks(books, term, filter) == Seqs.Filter(books, KeepPred(term, filter))
  {
    var keep := KeepPred(term, filter);
    var stockOn := filter == "in-stock" || filter == "out-of-stock";
    if term != "" && stockOn {
      Seqs.FilterFilter(books, SearchPred(term), StockPred(filter), keep);
    } else if term != "" {
      Seqs.FilterCongruent(books, SearchPred(term), keep);
    } else if stockOn {
      Seqs.FilterCongruent(books, StockPred(filter), keep);
    } else {
      Seqs.FilterAll(books, keep);
    }
  }

  /**
   * The filtered list keeps the catalogue's order, and a book is in it exactly when it is
   * in the catalogue and passes both tests.
   */
  lemma FilterBooksSpec(books: seq<AdminBook>, term: string, filter: string)
    ensures Seqs.IsSubsequence(FilterBooks(books, term, filter), books)
    ensures forall b :: b in FilterBooks(books, term, filter) ==> b in books && Keeps(term, filter, b)
    ensures forall b :: b in books && Keeps(term, filter, b) ==> b in FilterBooks(books, term, filter)
  {
    FilterBooksIsOneFilter(books, term, filter);
    Seqs.FilterIsSubsequence(books, KeepPred(term, filter));
    Seqs.FilterMembers(books, KeepPred(term, filter));
  }

  /** The `if (searchTerm)` guard changes nothing: every title contains the empty term. */
  lemma EmptyTermMatchesAll(b: AdminBook)
    ensures SearchMatch("", b)
  {
    assert Text.ToLower("") == "";
    Text.EverythingContainsEmpty(Text.ToLower(b.titulo));
  }

  /** No term and no stock filter: the whole catalogue, in order. */
  lemma NoFilterKeepsAll(books: seq<AdminBook>, filter: string)
    requires filter != "in-stock" && filter != "out-of-stock"
    ensures FilterBooks(books, "", filter) == books
  {
  }

  // ---- the stock counts ----

  function InStockPred(): AdminBook -> bool { (b: AdminBook) => b.cantidad > 0 }
  function OutOfStockPred(): AdminBook -> bool { (b: AdminBook) => b.cantidad == 0 }

  /** "En stock" and "Agotados" */
  function InStockCount(books: seq<AdminBook>): nat { |Seqs.Filter(books, InStockPred())| }
  function OutOfStockCount(books: seq<AdminBook>): nat { |Seqs.Filter(books, OutOfStockPred())| }

  /** With no negative stock, the two counts add up to "Total de libros". */
  lemma StockCountsPartition(books: seq<AdminBook>)
    requires forall b :: b in books ==> b.cantidad >= 0
    ensures InStockCount(books) + OutOfStockCount(books) == |books|
  {
    Seqs.FilterPartition(books, InStockPred(), OutOfStockPred());
  }

  /** The counts agree with the stock filter's lists. */
  lemma CountsMatchStockFilter(books: seq<AdminBook>)
    ensures InStockCount(books) == |FilterBooks(books, "", "in-stock")|
    ensures OutOfStockCount(books) == |FilterBooks(books, "", "out-of-stock")|
  {
    Seqs.FilterCongruent(books, StockPred("in-stock"), InStockPred());
    Seqs.FilterCongruent(books, StockPred("out-of-stock"), OutOfStockPred());
  }

  // ---- the add/edit form ----

  datatype FormField = Titulo | Autor | Editorial | Precio | Cantidad | Descripcion | ImagenUrl

  datatype BookForm = BookForm(titulo: string, autor: string, editorial: string, precio: string,
                               cantidad: string, descripcion: string, imagenUrl: string)

  const EmptyForm := BookForm("", "", "", "", "", "", "")

  /** The text a form field holds. */
  function FieldOf(form: BookForm, field: FormField): string {
    match field
    case Titulo => form.titulo
    case Autor => form.autor
    case Editorial => form.editorial
    case Precio => form.precio
    case Cantidad => form.cantidad
    case Descripcion => form.descripcion
    case ImagenUrl => form.imagenUrl
  }

  /** `{ ...prev, [name]: value }`: the named field holds `v` and every other field is kept. */
  function WithField(form: BookForm, field: FormField, v: string): (r: BookForm)
    ensures FieldOf(r, field) == v
    ensures forall g :: g != field ==> FieldOf(r, g) == FieldOf(form, g)
  {
    match field
    case Titulo => form.(titulo := v)
    case Autor => form.(autor := v)
    case Editorial => form.(editorial := v)
    case Precio => form.(precio := v)
    case Cantidad => form.(cantidad := v)
    case Descripcion => form.(descripcion := v)
    case ImagenUrl => form.(imagenUrl := v)
  }

  /** The two decimals of a price, as `toString` writes them: none for whole amounts, no trailing 0. */
  function FractionText(f: nat): (r: string)
    requires f < 100
    ensures (r == "") <==> f == 0
    ensures r != "" ==> r[0] == '.' && Text.IsDigit(r[|r| - 1]) && r[|r| - 1] != '0'
  {
    if f == 0 then ""
    else if f % 10 == 0 then "." + [Text.DigitChar(f / 10)]
    else "." + [Text.DigitChar(f / 10), Text.DigitChar(f % 10)]
  }

  /** `precio.toString()` for a price held in cents. */
  function PriceText(cents: nat): string {
    Text.DecimalString(cents / 100) + FractionText(cents % 100)
  }

  lemma FractionTextInjective(f: nat, g: nat)
    requires f < 100 && g < 100 && FractionText(f) == FractionText(g)
    ensures f == g
  {
    if f != 0 {
      var r := FractionText(f);
      assert r[1] == Text.DigitChar(f / 10) && r[1] == Text.DigitChar(g / 10);
      if |r| == 3 {
        assert r[2] == Text.DigitChar(f % 10) && r[2] == Text.DigitChar(g % 10);
      }
    }
  }

  /** A numeral followed by nothing or by a `.`-led suffix splits back into its two parts. */
  lemma {:induction false} SplitAtDot(w1: string, s1: string, w2: string, s2: string)
    requires Text.AllDigits(w1) && Text.AllDigits(w2)
    requires s1 == "" || s1[0] == '.'
    requires s2 == "" || s2[0] == '.'
    ensures w1 + s1 == w2 + s2 <==> w1 == w2 && s1 == s2
  {
    var l, r := w1 + s1, w2 + s2;
    if |w1| < |w2| {
      if |l| > |w1| {
        assert l[|w1|] == '.' && r[|w1|] == w2[|w1|];
        assert l[|w1|] != r[|w1|];
      } else {
        assert |l| != |r|;
      }
    } else if |w2| < |w1| {
      if |r| > |w2| {
        assert r[|w2|] == '.' && l[|w2|] == w1[|w2|];
        assert l[|w2|] != r[|w2|];
      } else {
        assert |l| != |r|;
      }
    } else if l == r {
      assert w1 == l[..|w1|] && w2 == r[..|w2|];
      assert s1 == l[|w1|..] && s2 == r[|w2|..];
    }
  }

  /** Different prices are shown differently: the text determines the amount. */
  lemma PriceTextInjective(a: nat, b: nat)
    ensures PriceText(a) == PriceText(b) <==> a == b
  {
    SplitAtDot(Text.DecimalString(a / 100), FractionText(a % 100),
               Text.DecimalString(b / 100), FractionText(b % 100));
    if PriceText(a) == PriceText(b) {
      Text.DecimalStringInjective(a / 100, b / 100);
      FractionTextInjective(a % 100, b % 100);
    }
  }

  /** Whole amounts print without decimals: 20.00 is "20". */
  lemma WholePriceText(units: nat)
    ensures PriceText(100 * units) == Text.DecimalString(units)
  {
    var cents := 100 * units;
    assert cents / 100 == units && cents % 100 == 0;
  }

  /** `handleEditClick`: the book's fields, with price and stock written as text. */
  function EditForm(book: AdminBook): (r: BookForm)
    ensures r.titulo == book.titulo && r.autor == book.autor && r.editorial == book.editorial
    ensures r.descripcion == book.descripcion && r.imagenUrl == book.imagenUrl
    ensures r.precio == PriceText(book.precioCents) && r.cantidad == Text.IntString(book.cantidad)
  {
    BookForm(book.titulo, book.autor, book.editorial, PriceText(book.precioCents),
             Text.IntString(book.cantidad), book.descripcion, book.imagenUrl)
  }

  /** The stock text of the edit form reads back, with `parseInt`, as the book's stock. */
  lemma EditStockRoundTrip(book: AdminBook)
    ensures QuantitySelector.ParseInt(EditForm(book).cantidad) == Some(book.cantidad)
  {
    QuantitySelector.ParseIntString(book.cantidad);
  }

  // ---- the component ----

  class Dashboard {
    var books: seq<AdminBook>
    var filteredBooks: seq<AdminBook>
    var searchTerm: string
    var filterStock: string
    var formData: BookForm
    var editingBook: Option<AdminBook>
    var showEditModal: bool

    /** The filtering effect has run since the last change of its inputs. */
    predicate Valid()
      reads this
    {
      filteredBooks == FilterBooks(books, searchTerm, filterStock)
    }

    constructor ()
      ensures Valid()
      ensures books == [] && searchTerm == "" && filterStock == "all" && formData == EmptyForm
      ensures editingBook.None? && !showEditModal
    {
      books := [];
      filteredBooks := [];
      searchTerm := "";
      filterStock := "all";
      formData := EmptyForm;
      editingBook := None;
      showEditModal := false;
    }

    /** `filterBooks`, written as the source writes it: a copy, then up to two filters in turn. */
    method RunFilter()
      modifies this
      ensures Valid()
      ensures books == old(books) && searchTerm == old(searchTerm) && filterStock == old(filterStock)
      ensures formData == old(formData) && editingBook == old(editingBook) && showEditModal == old(showEditModal)
    {
      var filtered := books;
      if searchTerm != "" {
        filtered := Seqs.Filter(filtered, SearchPred(searchTerm));
      }
      if filterStock == "in-stock" {
        filtered := Seqs.Filter(filtered, StockPred(filterStock));
      } else if filterStock == "out-of-stock" {
        filtered := Seqs.Filter(filtered, StockPred(filterStock));
      }
      filteredBooks := filtered;
    }

    /** A fetched catalogue (the request itself is outside the model), then the effect. */
    method SetBooks(data: seq<AdminBook>)
      modifies this
      ensures Valid() && books == data
      ensures searchTerm == old(searchTerm) && filterStock == old(filterStock) && formData == old(formData)
      ensures editingBook == old(editingBook) && showEditModal == old(showEditModal)
    {
      books := data;
      RunFilter();
    }

    method SetSearchTerm(term: string)
      modifies this
      ensures Valid() && searchTerm == term
      ensures books == old(books) && filterStock == old(filterStock) && formData == old(formData)
      ensures editingBook == old(editingBook) && showEditModal == old(showEditModal)
    {
      searchTerm := term;
      RunFilter();
    }

    method SetFilterStock(filter: string)
      modifies this
      ensures Valid() && filterStock == filter
      ensures books == old(books) && searchTerm == old(searchTerm) && formData == old(formData)
      ensures editingBook == old(editingBook) && showEditModal == old(showEditModal)
    {
      filterStock := filter;
      RunFilter();
    }

    /** `handleInputChange`: only the named field changes. */
    method HandleInputChange(field: FormField, value: string)
      requires Valid()
      modifies this
      ensures Valid()
      ensures formData == WithField(old(formData), field, value)
      ensures books == old(books) && searchTerm == old(searchTerm) && filterStock == old(filterStock)
      ensures editingBook == old(editingBook) && showEditModal == old(showEditModal)
    {
      formData := WithField(formData, field, value);
    }

    method HandleEditClick(book: AdminBook)
      requires Valid()
      modifies this
      ensures Valid()
      ensures editingBook == Some(book) && formData == EditForm(book) && showEditModal
      ensures books == old(books) && searchTerm == old(searchTerm) && filterStock == old(filterStock)
    {
      editingBook := Some(book);
      formData := EditForm(book);
      showEditModal := true;
    }

    /** `resetForm`: all seven fields become empty. */
    method ResetForm()
      requires Valid()
      modifies this
      ensures Valid()
      ensures formData == EmptyForm
      ensures books == old(books) && searchTerm == old(searchTerm) && filterStock == old(filterStock)
      ensures editingBook == old(editingBook) && showEditModal == old(showEditModal)
    {
      formData := EmptyForm;
    }
  }
}
