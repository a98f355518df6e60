/**
 * The shared cart: an ordered list of line items keyed by book id, the four operations
 * that replace it, the totals derived from it, and its persistence under the "cart"
 * key of local storage.
 */
module CartContext {
  import Seqs

  /** The book fields a line item copies (`{ ...book, quantity }`). */
  datatype Book = Book(id: int, title: string, author: string, image: string, price: real, stock: int)

  datatype Line = Line(id: int, title: string, author: string, image: string, price: real, stock: int,
                       quantity: int)

  function NewLine(book: Book, quantity: int): (l: Line)
    ensures l.id == book.id && l.price == book.price && l.stock == book.stock && l.quantity == quantity
  {
    Line(book.id, book.title, book.author, book.image, book.price, book.stock, quantity)
  }

  predicate HasId(items: seq<Line>, id: int) {
    exists k :: 0 <= k < |items| && items[k].id == id
  }

  predicate UniqueIds(items: seq<Line>) {
    forall i, j :: 0 <= i < j < |items| ==> items[i].id != items[j].id
  }

  lemma UniqueCons(x: Line, t: seq<Line>)
    ensures UniqueIds([x] + t) <==> !HasId(t, x.id) && UniqueIds(t)
  {
    if UniqueIds([x] + t) { UniqueTail(x, t); }
    if !HasId(t, x.id) && UniqueIds(t) { UniqueJoin(x, t); }
  }

  lemma UniqueTail(x: Line, t: seq<Line>)
    requires UniqueIds([x] + t)
    ensures !HasId(t, x.id) && UniqueIds(t)
  {
    var s := [x] + t;
    forall k | 0 <= k < |t| ensures t[k].id != x.id {
      assert s[0] == x && s[k + 1] == t[k];
    }
    forall i, j | 0 <= i < j < |t| ensures t[i].id != t[j].id {
      assert s[i + 1] == t[i] && s[j + 1] == t[j];
    }
  }

  lemma UniqueJoin(x: Line, t: seq<Line>)
    requires !HasId(t, x.id) && UniqueIds(t)
    ensures UniqueIds([x] + t)
  {
    var s := [x] + t;
    forall i, j | 0 <= i < j < |s| ensures s[i].id != s[j].id {
      assert s[j] == t[j - 1];
      if i > 0 { assert s[i] == t[i - 1]; }
    }
  }

  /** With unique ids, no line before or after position `k` shares its id. */
  lemma OthersDiffer(items: seq<Line>, k: nat)
    requires UniqueIds(items) && k < |items|
    ensures forall l :: l in items[..k] ==> l.id != items[k].id
    ensures forall l :: l in items[k + 1..] ==> l.id != items[k].id
  {
    forall l | l in items[..k] ensures l.id != items[k].id {
      var j :| 0 <= j < k && items[j] == l;
    }
    forall l | l in items[k + 1..] ensures l.id != items[k].id {
      var j :| k < j < |items| && items[j] == l;
    }
  }

  // ---- the four operations, on values ----

  /** `addToCart(book, quantity)` */
  function AddLine(items: seq<Line>, book: Book, quantity: int): (r: seq<Line>)
    ensures HasId(r, book.id)
    ensures |r| == if HasId(items, book.id) then |items| else |items| + 1
    ensures forall id :: HasId(r, id) <==> HasId(items, id) || id == book.id
  {
    if HasId(items, book.id) then
      var r := seq(|items|, k requires 0 <= k < |items| =>
                     if items[k].id == book.id then items[k].(quantity := items[k].quantity + quantity)
                     else items[k]);
      assert forall k :: 0 <= k < |items| ==> r[k].id == items[k].id;
      r
    else
      var r := items + [NewLine(book, quantity)];
      assert r[|items|].id == book.id;
      assert forall k :: 0 <= k < |items| ==> r[k] == items[k];
      r
  }

  /** The `filter` test of `removeFromCart(id)`: the line has some other id. */
  function OtherId(id: int): Line -> bool {
    (l: Line) => l.id != id
  }

  /** `removeFromCart(id)` */
  function RemoveLine(items: seq<Line>, id: int): seq<Line> {
    Seqs.Filter(items, OtherId(id))
  }

  /** The `map` branch of `updateQuantity`: every line with this id gets quantity `q`. */
  function SetQuantity(items: seq<Line>, id: int, q: int): (r: seq<Line>)
    ensures |r| == |items|
    ensures forall k :: 0 <= k < |items| ==> r[k].id == items[k].id
  {
    seq(|items|, k requires 0 <= k < |items| =>
          if items[k].id == id then items[k].(quantity := q) else items[k])
  }

  /** `updateQuantity(id, q)` */
  function UpdateLine(items: seq<Line>, id: int, q: int): seq<Line> {
    if q <= 0 then RemoveLine(items, id) else SetQuantity(items, id, q)
  }

  // ---- derived totals ----

  /** What a line costs: price times quantity. */
  function LineTotal(l: Line): real {
    l.price * l.quantity as real
  }

  /** `getTotalItems()` */
  function TotalItems(items: seq<Line>): int {
    if items == [] then 0 else items[0].quantity + TotalItems(items[1..])
  }

  /** `getSubtotal()` */
  function Subtotal(items: seq<Line>): real {
    if items == [] then 0.0 else LineTotal(items[0]) + Subtotal(items[1..])
  }

  const FreeShippingThreshold: real := 50.0
  const FlatShipping: real := 5.0

  /** `getShipping()`: free strictly above the threshold, a flat fee otherwise. */
  function Shipping(items: seq<Line>): (r: real)
    ensures r == 0.0 <==> Subtotal(items) > FreeShippingThreshold
    ensures r != 0.0 ==> r == FlatShipping
  {
    if Subtotal(items) > FreeShippingThreshold then 0.0 else FlatShipping
  }

  /** `getTotal()` */
  function Total(items: seq<Line>): real {
    Subtotal(items) + Shipping(items)
  }

  // ---- properties of the operations ----

  /** With the id already present, only that line's quantity changes, by the amount added. */
  lemma AddExisting(items: seq<Line>, book: Book, quantity: int, k: nat)
    requires UniqueIds(items) && k < |items| && items[k].id == book.id
    ensures var r := AddLine(items, book, quantity);
      |r| == |items| && r[k] == items[k].(quantity := items[k].quantity + quantity)
      && forall m :: 0 <= m < |items| && m != k ==> r[m] == items[m]
  {
  }

  /** With the id absent, one new line with the book's fields is appended at the end. */
  lemma AddAbsent(items: seq<Line>, book: Book, quantity: int)
    requires !HasId(items, book.id)
    ensures AddLine(items, book, quantity) == items + [NewLine(book, quantity)]
  {
  }

  lemma {:induction false} AddKeepsUnique(items: seq<Line>, book: Book, quantity: int)
    requires UniqueIds(items)
    ensures UniqueIds(AddLine(items, book, quantity))
  {
    var r := AddLine(items, book, quantity);
    if !HasId(items, book.id) {
      forall i, j | 0 <= i < j < |r| ensures r[i].id != r[j].id {
        if j == |items| {
          assert r[i] == items[i];
        } else {
          assert r[i] == items[i] && r[j] == items[j];
        }
      }
    }
  }

  /** `addToCart` applied once for each amount, in order. */
  function AddAll(items: seq<Line>, book: Book, amounts: seq<int>): seq<Line>
    decreases |amounts|
  {
    if amounts == [] then items else AddAll(AddLine(items, book, amounts[0]), book, amounts[1..])
  }

  function Sum(xs: seq<int>): int {
    if xs == [] then 0 else xs[0] + Sum(xs[1..])
  }

  lemma {:induction false} AddAllToLast(pre: seq<Line>, last: Line, book: Book, amounts: seq<int>)
    requires !HasId(pre, book.id) && last.id == book.id
    ensures AddAll(pre + [last], book, amounts) == pre + [last.(quantity := last.quantity + Sum(amounts))]
    decreases |amounts|
  {
    if amounts != [] {
      var items := pre + [last];
      assert items[|pre|].id == book.id;
      var next := AddLine(items, book, amounts[0]);
      assert next == pre + [last.(quantity := last.quantity + amounts[0])];
      AddAllToLast(pre, last.(quantity := last.quantity + amounts[0]), book, amounts[1..]);
    }
  }

  /**
   * Adding one book several times, starting from a cart without it, leaves one line at
   * the end whose quantity is the sum of the amounts added.
   */
  lemma {:induction false} RepeatedAdds(items: seq<Line>, book: Book, amounts: seq<int>)
    requires !HasId(items, book.id) && amounts != []
    ensures AddAll(items, book, amounts) == items + [NewLine(book, Sum(amounts))]
  {
    AddAbsent(items, book, amounts[0]);
    AddAllToLast(items, NewLine(book, amounts[0]), book, amounts[1..]);
  }

  /** Removing keeps exactly the other lines, in their original order. */
  lemma RemoveKeepsOthers(items: seq<Line>, id: int)
    ensures !HasId(RemoveLine(items, id), id)
    ensures forall l :: l in RemoveLine(items, id) <==> l in items && l.id != id
    ensures Seqs.IsSubsequence(RemoveLine(items, id), items)
  {
    Seqs.FilterIsSubsequence(items, OtherId(id));
    Seqs.FilterMembers(items, OtherId(id));
    var r := RemoveLine(items, id);
    assert forall k :: 0 <= k < |r| ==> r[k] in r;
  }

  /** Removing an id that is not in the cart changes nothing. */
  lemma RemoveAbsent(items: seq<Line>, id: int)
    requires !HasId(items, id)
    ensures RemoveLine(items, id) == items
  {
    forall l | l in items ensures l.id != id {
      var k :| 0 <= k < |items| && items[k] == l;
    }
    Seqs.FilterAll(items, OtherId(id));
  }

  /** With unique ids, removing a present id deletes exactly its one line. */
  lemma {:induction false} RemovePresent(items: seq<Line>, k: nat)
    requires UniqueIds(items) && k < |items|
    ensures RemoveLine(items, items[k].id) == items[..k] + items[k + 1..]
  {
    var pre, x, post := items[..k], items[k], items[k + 1..];
    assert items == pre + [x] + post;
    OthersDiffer(items, k);
    var p := OtherId(x.id);
    assert !p(x);
    assert forall l :: l in pre ==> p(l);
    assert forall l :: l in post ==> p(l);
    Seqs.FilterDropsOne(pre, x, post, p);
  }

  lemma {:induction false} RemoveKeepsUnique(items: seq<Line>, id: int)
    requires UniqueIds(items)
    ensures UniqueIds(RemoveLine(items, id))
  {
    if items != [] {
      var p := OtherId(id);
      assert items == [items[0]] + items[1..];
      UniqueCons(items[0], items[1..]);
      RemoveKeepsUnique(items[1..], id);
      var rest := RemoveLine(items[1..], id);
      Seqs.FilterMembers(items[1..], p);
      if p(items[0]) {
        assert RemoveLine(items, id) == [items[0]] + rest;
        forall m | 0 <= m < |rest| ensures rest[m].id != items[0].id {
          assert rest[m] in rest;
          var n :| 0 <= n < |items[1..]| && items[1..][n] == rest[m];
        }
        UniqueCons(items[0], rest);
      } else {
        assert RemoveLine(items, id) == rest;
      }
    }
  }

  /** `updateQuantity(id, q)` with `q <= 0` is `removeFromCart(id)`. */
  lemma UpdateToZeroRemoves(items: seq<Line>, id: int, q: int)
    requires q <= 0
    ensures UpdateLine(items, id, q) == RemoveLine(items, id)
  {
  }

  /** With `q > 0` the line's quantity becomes `q` verbatim (no stock clamp); nothing else changes. */
  lemma UpdatePositive(items: seq<Line>, q: int, k: nat)
    requires UniqueIds(items) && k < |items| && q > 0
    ensures var r := UpdateLine(items, items[k].id, q);
      |r| == |items| && r[k] == items[k].(quantity := q)
      && forall m :: 0 <= m < |items| && m != k ==> r[m] == items[m]
  {
  }

  lemma UpdateKeepsUnique(items: seq<Line>, id: int, q: int)
    requires UniqueIds(items)
    ensures UniqueIds(UpdateLine(items, id, q))
  {
    if q <= 0 { RemoveKeepsUnique(items, id); }
  }

  // ---- properties of the totals ----

  lemma {:induction false} TotalItemsAppend(a: seq<Line>, b: seq<Line>)
    ensures TotalItems(a + b) == TotalItems(a) + TotalItems(b)
  {
    if a == [] {
      assert a + b == b;
    } else {
      assert (a + b)[1..] == a[1..] + b;
      TotalItemsAppend(a[1..], b);
    }
  }

  lemma {:induction false} SubtotalAppend(a: seq<Line>, b: seq<Line>)
    ensures Subtotal(a + b) == Subtotal(a) + Subtotal(b)
  {
    if a == [] {
      assert a + b == b;
    } else {
      assert (a + b)[1..] == a[1..] + b;
      SubtotalAppend(a[1..], b);
    }
  }

  /** The line totals shown for each line add up to the subtotal, around any one line. */
  lemma SubtotalAround(items: seq<Line>, k: nat)
    requires k < |items|
    ensures Subtotal(items) == Subtotal(items[..k]) + LineTotal(items[k]) + Subtotal(items[k + 1..])
    ensures TotalItems(items) == TotalItems(items[..k]) + items[k].quantity + TotalItems(items[k + 1..])
  {
    SubtotalSplit(items, k);
    TotalItemsSplit(items, k);
  }

  lemma SubtotalSplit(items: seq<Line>, k: nat)
    requires k < |items|
    ensures Subtotal(items) == Subtotal(items[..k]) + LineTotal(items[k]) + Subtotal(items[k + 1..])
  {
    assert items == items[..k] + [items[k]] + items[k + 1..];
    SubtotalAppend(items[..k] + [items[k]], items[k + 1..]);
    SubtotalAppend(items[..k], [items[k]]);
  }

  lemma TotalItemsSplit(items: seq<Line>, k: nat)
    requires k < |items|
    ensures TotalItems(items) == TotalItems(items[..k]) + items[k].quantity + TotalItems(items[k + 1..])
  {
    assert items == items[..k] + [items[k]] + items[k + 1..];
    TotalItemsAppend(items[..k] + [items[k]], items[k + 1..]);
    TotalItemsAppend(items[..k], [items[k]]);
  }

  /** Changing a line's quantity by `d` changes its total by its price times `d`. */
  lemma LineTotalShift(l: Line, d: int)
    ensures LineTotal(l.(quantity := l.quantity + d)) == LineTotal(l) + l.price * d as real
  {
    assert (l.quantity + d) as real == l.quantity as real + d as real;
  }

  /** Two carts that differ only at index `k` agree before and after it. */
  lemma SameAround(items: seq<Line>, r: seq<Line>, k: nat)
    requires |r| == |items| && k < |items|
    requires forall m :: 0 <= m < |items| && m != k ==> r[m] == items[m]
    ensures r[..k] == items[..k] && r[k + 1..] == items[k + 1..]
  {
  }

  /**
   * Two carts that differ only in the quantity of line `k`, by `d`, differ in item count by
   * `d` and in subtotal by that line's price times `d`.
   */
  lemma ChangeOneTotals(items: seq<Line>, r: seq<Line>, k: nat, d: int)
    requires |r| == |items| && k < |items|
    requires r[k] == items[k].(quantity := items[k].quantity + d)
    requires forall m :: 0 <= m < |items| && m != k ==> r[m] == items[m]
    ensures TotalItems(r) == TotalItems(items) + d
    ensures Subtotal(r) == Subtotal(items) + items[k].price * d as real
  {
    SameAround(items, r, k);
    TotalItemsSplit(items, k);
    TotalItemsSplit(r, k);
    SubtotalChangeOne(items, r, k, d);
  }

  lemma SubtotalChangeOne(items: seq<Line>, r: seq<Line>, k: nat, d: int)
    requires |r| == |items| && k < |items|
    requires r[k] == items[k].(quantity := items[k].quantity + d)
    requires r[..k] == items[..k] && r[k + 1..] == items[k + 1..]
    ensures Subtotal(r) == Subtotal(items) + items[k].price * d as real
  {
    LineTotalShift(items[k], d);
    SubtotalSplit(items, k);
    SubtotalSplit(r, k);
  }

  lemma {:induction false} AddExistingTotals(items: seq<Line>, book: Book, quantity: int, k: nat)
    requires UniqueIds(items) && k < |items| && items[k].id == book.id
    ensures var r := AddLine(items, book, quantity);
      TotalItems(r) == TotalItems(items) + quantity
      && Subtotal(r) == Subtotal(items) + items[k].price * quantity as real
  {
    AddExisting(items, book, quantity, k);
    ChangeOneTotals(items, AddLine(items, book, quantity), k, quantity);
  }

  /**
   * Adding `quantity` of a book raises the item count by `quantity` and the subtotal by
   * `quantity` times the price of the line it lands on: the existing line's price when
   * the id is present, the book's price otherwise.
   */
  lemma {:induction false} AddTotals(items: seq<Line>, book: Book, quantity: int)
    requires UniqueIds(items)
    ensures TotalItems(AddLine(items, book, quantity)) == TotalItems(items) + quantity
    ensures !HasId(items, book.id) ==>
      Subtotal(AddLine(items, book, quantity)) == Subtotal(items) + book.price * quantity as real
    ensures forall k :: 0 <= k < |items| && items[k].id == book.id ==>
      Subtotal(AddLine(items, book, quantity)) == Subtotal(items) + items[k].price * quantity as real
  {
    if HasId(items, book.id) {
      var k :| 0 <= k < |items| && items[k].id == book.id;
      AddExistingTotals(items, book, quantity, k);
      forall j | 0 <= j < |items| && items[j].id == book.id
        ensures Subtotal(AddLine(items, book, quantity)) == Subtotal(items) + items[j].price * quantity as real
      {
        AddExistingTotals(items, book, quantity, j);
      }
    } else {
      SubtotalAppend(items, [NewLine(book, quantity)]);
      TotalItemsAppend(items, [NewLine(book, quantity)]);
    }
  }

  /** Setting a line's quantity moves the subtotal by its price times the change. */
  lemma {:induction false} UpdateSubtotal(items: seq<Line>, q: int, k: nat)
    requires UniqueIds(items) && k < |items| && q > 0
    ensures Subtotal(UpdateLine(items, items[k].id, q))
            == Subtotal(items) + items[k].price * (q - items[k].quantity) as real
    ensures TotalItems(UpdateLine(items, items[k].id, q)) == TotalItems(items) + q - items[k].quantity
  {
    var r := UpdateLine(items, items[k].id, q);
    UpdatePositive(items, q, k);
    assert r[k] == items[k].(quantity := items[k].quantity + (q - items[k].quantity));
    ChangeOneTotals(items, r, k, q - items[k].quantity);
  }

  lemma {:induction false} SubtotalNonNegative(items: seq<Line>)
    requires forall l :: l in items ==> l.price >= 0.0 && l.quantity >= 0
    ensures Subtotal(items) >= 0.0
  {
    if items != [] {
      assert items[0] in items;
      assert forall l :: l in items[1..] ==> l in items;
      SubtotalNonNegative(items[1..]);
    }
  }

  /** An empty cart has no items, a subtotal of 0, and pays the flat shipping fee. */
  lemma EmptyCartTotals()
    ensures TotalItems([]) == 0 && Subtotal([]) == 0.0 && Shipping([]) == 5.0 && Total([]) == 5.0
  {
  }

  /** The threshold is strict: a subtotal of exactly 50 still pays shipping. */
  lemma ShippingThresholdIsStrict(items: seq<Line>)
    ensures Subtotal(items) == 50.0 ==> Total(items) == 55.0
    ensures Subtotal(items) > 50.0 ==> Total(items) == Subtotal(items)
  {
  }

  // ---- the store ----

  /** What the provider finds under the "cart" key when it starts. */
  datatype Saved =
    | NothingSaved                  // no value, or the empty string
    | Unparsable                    // `JSON.parse` throws
    | SavedList(items: seq<Line>)   // a list that `JSON.stringify` wrote

  class CartStore {
    var items: seq<Line>
    /** The list held under the "cart" key of local storage. */
    ghost var stored: seq<Line>

    /** Storage always holds the current list: every change is re-persisted. */
    ghost predicate Valid()
      reads this
    {
      stored == items
    }

    /** The provider's mount: load what was saved, falling back to an empty cart. */
    constructor Load(saved: Saved)
      ensures Valid()
      ensures saved.SavedList? ==> items == saved.items
      ensures !saved.SavedList? ==> items == []
    {
      items := Rehydrate(saved);
      stored := items;
    }

    method AddToCart(book: Book, quantity: int)
      requires Valid()
      modifies this
      ensures Valid()
      ensures items == AddLine(old(items), book, quantity)
      ensures UniqueIds(old(items)) ==> UniqueIds(items)
    {
      if UniqueIds(items) { AddKeepsUnique(items, book, quantity); }
      items := AddLine(items, book, quantity);
      stored := items;
    }

    method RemoveFromCart(id: int)
      requires Valid()
      modifies this
      ensures Valid()
      ensures items == RemoveLine(old(items), id)
      ensures UniqueIds(old(items)) ==> UniqueIds(items)
    {
      if UniqueIds(items) { RemoveKeepsUnique(items, id); }
      items := RemoveLine(items, id);
      stored := items;
    }

    method UpdateQuantity(id: int, q: int)
      requires Valid()
      modifies this
      ensures Valid()
      ensures items == UpdateLine(old(items), id, q)
      ensures UniqueIds(old(items)) ==> UniqueIds(items)
    {
      if UniqueIds(items) { UpdateKeepsUnique(items, id, q); }
      if q <= 0 {
        RemoveFromCart(id);
      } else {
        items := SetQuantity(items, id, q);
        stored := items;
      }
    }

    method ClearCart()
      requires Valid()
      modifies this
      ensures Valid()
      ensures items == []
    {
      items := [];
      stored := items;
    }
  }

  /** What the provider's start-up effect makes of the saved value. */
  function Rehydrate(saved: Saved): seq<Line> {
    if saved.SavedList? then saved.items else []
  }

  /** A page reload: a new provider reads what the old one stored and gets the same list back. */
  lemma ReloadRestores(store: CartStore)
    requires store.Valid()
    ensures Rehydrate(SavedList(store.stored)) == store.items
  {
  }
}
