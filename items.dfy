/** A line item of the invoice as the `serviceItems` array holds it, how an
    item is rebuilt from its form card, and the invoice totals obtained by
    folding over the items in order (`Array.prototype.reduce`). */
module Items {
  import opened Wrappers
  import opened Money

  /** One entry of `serviceItems`: `{id, description, price, quantity,
      discount, total}`. */
  datatype Item = Item(
    id: nat,
    description: string,
    price: real,
    quantity: real,
    discount: real,
    total: real)

  /** What an item's form card holds: the description text and the results
      of `parseFloat` on the price, quantity and discount inputs (None where
      the parse gave NaN). */
  datatype ItemInput = ItemInput(
    description: string,
    price: Option<real>,
    quantity: Option<real>,
    discount: Option<real>)

  /** The entry `addServiceItem` pushes for a new card: no description, and a
      total of 0 that already agrees with its price 0 at quantity 1. */
  function DefaultItem(id: nat): (d: Item)
    ensures d.id == id && d.description == "" && d.total == 0.0
    ensures d.price == 0.0 && d.quantity == 1.0 && d.discount == 0.0
    ensures Consistent(d)
  {
    assert LineSubtotal(0.0, 1.0) == 0.0;
    Item(id, "", 0.0, 1.0, 0.0, 0.0)
  }

  /** A freshly added card: empty description, empty price, quantity "1",
      discount "0". */
  const FreshCardInput: ItemInput := ItemInput("", None, Some(1.0), Some(0.0))

  /** The stored total agrees with the item's own fields and the quantity is
      never zero: what `calculateItemTotal` leaves behind and what a default
      item already satisfies. */
  predicate Consistent(it: Item) {
    && it.quantity != 0.0
    && it.total == LineTotal(it.price, it.quantity, it.discount)
  }

  /** The entry `calculateItemTotal(id)` writes: the card's fields coerced and
      the line total derived from them. */
  function Recomputed(id: nat, input: ItemInput): (it: Item)
    ensures it.id == id && it.description == input.description
    ensures it.price == CoercePrice(input.price)
    ensures it.quantity == CoerceQuantity(input.quantity)
    ensures it.discount == CoerceDiscount(input.discount)
    ensures Consistent(it)
  {
    var price := CoercePrice(input.price);
    var quantity := CoerceQuantity(input.quantity);
    var discount := CoerceDiscount(input.discount);
    Item(id, input.description, price, quantity, discount, LineTotal(price, quantity, discount))
  }

  /** Re-reading a fresh card gives back exactly the default entry, so the
      `calculateTotals` that follows an add leaves the new item as pushed. */
  lemma FreshCardIsDefault(id: nat)
    ensures Recomputed(id, FreshCardInput) == DefaultItem(id)
  {
    assert FreshCardInput == ItemInput("", None, Some(1.0), Some(0.0));
    assert CoercePrice(None) == 0.0;
    assert CoerceQuantity(Some(1.0)) == 1.0;
    assert CoerceDiscount(Some(0.0)) == 0.0;
    assert LineTotal(0.0, 1.0, 0.0) == 0.0;
  }

  /** Ids are strictly increasing along the list, hence unique. */
  predicate IdsIncreasing(items: seq<Item>) {
    forall i, j :: 0 <= i < j < |items| ==> items[i].id < items[j].id
  }

  /** `items.filter(item => item.id !== id)`. */
  function WithoutId(items: seq<Item>, id: int): (r: seq<Item>)
    ensures |r| <= |items|
  {
    if items == [] then []
    else (if items[0].id == id then [] else [items[0]]) + WithoutId(items[1..], id)
  }

  /** `items.findIndex(item => item.id === id)`: the first position holding
      the id, -1 when absent. */
  function IndexOfId(items: seq<Item>, id: int): (k: int)
    ensures -1 <= k < |items|
    ensures k >= 0 ==> items[k].id == id && forall j :: 0 <= j < k ==> items[j].id != id
    ensures k == -1 <==> forall j :: 0 <= j < |items| ==> items[j].id != id
  {
    if items == [] then -1
    else if items[0].id == id then 0
    else
      var k := IndexOfId(items[1..], id);
      if k == -1 then -1 else k + 1
  }

  /** Dropping the first item keeps the ids increasing. */
  lemma IncreasingTail(items: seq<Item>)
    requires IdsIncreasing(items) && items != []
    ensures IdsIncreasing(items[1..])
  {
    var rest := items[1..];
    forall i, j | 0 <= i < j < |rest| ensures rest[i].id < rest[j].id {
      assert rest[i] == items[i + 1] && rest[j] == items[j + 1];
    }
  }

  /** Filtering out an id that no item carries changes nothing. */
  lemma {:induction false} WithoutIdAbsent(items: seq<Item>, id: int)
    requires forall j :: 0 <= j < |items| ==> items[j].id != id
    ensures WithoutId(items, id) == items
  {
    if items != [] {
      var rest := items[1..];
      forall j | 0 <= j < |rest| ensures rest[j].id != id {
        assert rest[j] == items[j + 1];
      }
      WithoutIdAbsent(rest, id);
      assert [items[0]] + rest == items;
    }
  }

  /** With increasing ids, filtering out the id found at position k cuts out
      exactly that position. */
  lemma {:induction false} WithoutIdAt(items: seq<Item>, k: nat)
    requires IdsIncreasing(items) && k < |items|
    ensures WithoutId(items, items[k].id) == items[..k] + items[k + 1..]
  {
    var rest := items[1..];
    if k == 0 {
      forall j | 0 <= j < |rest| ensures rest[j].id != items[0].id {
        assert rest[j] == items[j + 1];
      }
      WithoutIdAbsent(rest, items[0].id);
      assert items[..0] + items[1..] == rest;
    } else {
      IncreasingTail(items);
      assert rest[k - 1] == items[k];
      WithoutIdAt(rest, k - 1);
      assert items[..k] == [items[0]] + rest[..k - 1];
      assert items[k + 1..] == rest[k..];
    }
  }

  /** With increasing ids, removing one id keeps every other item, in order:
      the result is the list with the (at most one) matching position cut
      out. */
  lemma WithoutIdCutsOut(items: seq<Item>, id: int)
    requires IdsIncreasing(items)
    ensures IndexOfId(items, id) == -1 ==> WithoutId(items, id) == items
    ensures IndexOfId(items, id) >= 0 ==>
      WithoutId(items, id) == items[..IndexOfId(items, id)] + items[IndexOfId(items, id) + 1..]
  {
    var k := IndexOfId(items, id);
    if k == -1 {
      WithoutIdAbsent(items, id);
    } else {
      WithoutIdAt(items, k);
    }
  }

  /** Cutting one position out of a list with increasing ids keeps them
      increasing. */
  lemma CutKeepsOrder(items: seq<Item>, k: nat)
    requires IdsIncreasing(items) && k < |items|
    ensures IdsIncreasing(items[..k] + items[k + 1..])
  {
    var r := items[..k] + items[k + 1..];
    forall i | 0 <= i < |r| ensures r[i] == items[if i < k then i else i + 1] {
    }
    forall i, j | 0 <= i < j < |r| ensures r[i].id < r[j].id {
      assert r[i] == items[if i < k then i else i + 1];
      assert r[j] == items[if j < k then j else j + 1];
    }
  }

  /** Removing an id keeps the ids strictly increasing. */
  lemma WithoutIdKeepsOrder(items: seq<Item>, id: int)
    requires IdsIncreasing(items)
    ensures IdsIncreasing(WithoutId(items, id))
  {
    WithoutIdCutsOut(items, id);
    var k := IndexOfId(items, id);
    if k >= 0 {
      CutKeepsOrder(items, k);
    }
  }

  /** The items with a truthy description (`filter(item => item.description)`),
      in list order. */
  function Described(items: seq<Item>): (r: seq<Item>)
    ensures |r| <= |items|
  {
    if items == [] then []
    else (if items[0].description != "" then [items[0]] else []) + Described(items[1..])
  }

  /** The described items are exactly the list's members with a non-empty
      description. */
  lemma {:induction false} DescribedMembers(items: seq<Item>, it: Item)
    ensures it in Described(items) <==> it in items && it.description != ""
  {
    if items != [] {
      DescribedMembers(items[1..], it);
      assert items == [items[0]] + items[1..];
    }
  }

  /** Filtering item by item from the left, as a `forEach` that pushes does. */
  lemma {:induction false} DescribedSnoc(items: seq<Item>, it: Item)
    ensures Described(items + [it])
         == Described(items) + (if it.description != "" then [it] else [])
  {
    if items == [] {
      assert [] + [it] == [it];
    } else {
      assert (items + [it])[1..] == items[1..] + [it];
      DescribedSnoc(items[1..], it);
    }
  }

  /** `price * quantity` of one item. */
  function ItemSubtotal(it: Item): real {
    LineSubtotal(it.price, it.quantity)
  }

  /** `price * quantity * (discount / 100)` of one item. */
  function ItemDiscount(it: Item): real {
    LineDiscount(it.price, it.quantity, it.discount)
  }

  /** `items.reduce((sum, item) => sum + item.price * item.quantity, 0)`:
      a fold from the left, over every item whatever its description; the
      fold starts at 0 and a single item contributes its own subtotal. */
  function SumSubtotals(items: seq<Item>): (subtotal: real)
    ensures items == [] ==> subtotal == 0.0
    ensures |items| == 1 ==> subtotal == ItemSubtotal(items[0])
  {
    assert |items| == 1 ==> items[..0] == [];
    if items == [] then 0.0
    else SumSubtotals(items[..|items| - 1]) + ItemSubtotal(items[|items| - 1])
  }

  /** The same fold over the discount amounts. */
  function SumDiscounts(items: seq<Item>): (totalDiscount: real)
    ensures items == [] ==> totalDiscount == 0.0
    ensures |items| == 1 ==> totalDiscount == ItemDiscount(items[0])
  {
    assert |items| == 1 ==> items[..0] == [];
    if items == [] then 0.0
    else SumDiscounts(items[..|items| - 1]) + ItemDiscount(items[|items| - 1])
  }

  /** With no negative price and no negative quantity, the subtotal is not
      negative. */
  lemma {:induction false} SumSubtotalsNonNegative(items: seq<Item>)
    requires forall k :: 0 <= k < |items| ==> items[k].price >= 0.0 && items[k].quantity >= 0.0
    ensures SumSubtotals(items) >= 0.0
  {
    if items != [] {
      var init := items[..|items| - 1];
      assert forall k :: 0 <= k < |init| ==> init[k] == items[k];
      SumSubtotalsNonNegative(init);
    }
  }

  /** With every discount field at 0, the total discount is 0. */
  lemma {:induction false} NoDiscountsNoTotalDiscount(items: seq<Item>)
    requires forall k :: 0 <= k < |items| ==> items[k].discount == 0.0
    ensures SumDiscounts(items) == 0.0
  {
    if items != [] {
      var init := items[..|items| - 1];
      assert forall k :: 0 <= k < |init| ==> init[k] == items[k];
      NoDiscountsNoTotalDiscount(init);
    }
  }

  /** The three figures of the totals box. */
  datatype Totals = Totals(subtotal: real, totalDiscount: real, amountDue: real)

  /** The totals both renderers compute: the two folds and their difference. */
  function InvoiceTotals(items: seq<Item>): (t: Totals)
    ensures t.amountDue == t.subtotal - t.totalDiscount
  {
    var subtotal := SumSubtotals(items);
    var totalDiscount := SumDiscounts(items);
    Totals(subtotal, totalDiscount, subtotal - totalDiscount)
  }

  /** The line totals added up from the right: a reference sum that does not
      depend on the order of the fold. */
  function SumLineTotals(items: seq<Item>): real {
    if items == [] then 0.0
    else LineTotal(items[0].price, items[0].quantity, items[0].discount) + SumLineTotals(items[1..])
  }

  /** The subtotal fold splits over concatenation. */
  lemma {:induction false} SumSubtotalsAppend(a: seq<Item>, b: seq<Item>)
    ensures SumSubtotals(a + b) == SumSubtotals(a) + SumSubtotals(b)
  {
    if b != [] {
      var b' := b[..|b| - 1];
      assert (a + b)[..|a + b| - 1] == a + b';
      SumSubtotalsAppend(a, b');
    } else {
      assert a + b == a;
    }
  }

  /** The discount fold splits over concatenation. */
  lemma {:induction false} SumDiscountsAppend(a: seq<Item>, b: seq<Item>)
    ensures SumDiscounts(a + b) == SumDiscounts(a) + SumDiscounts(b)
  {
    if b != [] {
      var b' := b[..|b| - 1];
      assert (a + b)[..|a + b| - 1] == a + b';
      SumDiscountsAppend(a, b');
    } else {
      assert a + b == a;
    }
  }

  /** The amount due equals the sum of the line totals of all items. */
  lemma {:induction false} AmountDueIsSumOfLineTotals(items: seq<Item>)
    ensures InvoiceTotals(items).amountDue == SumLineTotals(items)
  {
    if items != [] {
      AmountDueIsSumOfLineTotals(items[1..]);
      SumSubtotalsAppend([items[0]], items[1..]);
      SumDiscountsAppend([items[0]], items[1..]);
      assert [items[0]] + items[1..] == items;
      assert [items[0]][..0] == [];
    }
  }

  /** The totals count items without a description too: they are the totals
      of the described items plus those of the rest. */
  lemma {:induction false} TotalsSplitByDescription(items: seq<Item>)
    ensures SumSubtotals(items)
         == SumSubtotals(Described(items)) + SumSubtotals(Undescribed(items))
    ensures SumDiscounts(items)
         == SumDiscounts(Described(items)) + SumDiscounts(Undescribed(items))
  {
    if items != [] {
      var x := items[0];
      var rest := items[1..];
      TotalsSplitByDescription(rest);
      assert items == [x] + rest;
      SumSubtotalsAppend([x], rest);
      SumDiscountsAppend([x], rest);
      assert [x][..0] == [];
      if x.description != "" {
        assert Described(items) == [x] + Described(rest);
        assert Undescribed(items) == Undescribed(rest);
        SumSubtotalsAppend([x], Described(rest));
        SumDiscountsAppend([x], Described(rest));
      } else {
        assert Undescribed(items) == [x] + Undescribed(rest);
        assert Described(items) == Described(rest);
        SumSubtotalsAppend([x], Undescribed(rest));
        SumDiscountsAppend([x], Undescribed(rest));
      }
    }
  }

  /** The items with an empty description: stored, counted in the totals,
      shown in no table row. */
  function Undescribed(items: seq<Item>): (r: seq<Item>)
    ensures |r| <= |items|
  {
    if items == [] then []
    else (if items[0].description == "" then [items[0]] else []) + Undescribed(items[1..])
  }

  /** The totals read only prices, quantities and discounts: two lists that
      agree on those, position by position, have the same totals whatever
      their descriptions and ids. */
  lemma {:induction false} TotalsIgnoreDescriptions(a: seq<Item>, b: seq<Item>)
    requires |a| == |b|
    requires forall k :: 0 <= k < |a| ==>
      a[k].price == b[k].price && a[k].quantity == b[k].quantity && a[k].discount == b[k].discount
    ensures InvoiceTotals(a) == InvoiceTotals(b)
  {
    if a != [] {
      TotalsIgnoreDescriptions(a[..|a| - 1], b[..|b| - 1]);
    }
  }

  /** The two example cards read back: the empty price becomes 0. */
  lemma ExampleCardsRecomputed()
    ensures Recomputed(1, ItemInput("Editing", Some(50.0), Some(1.0), Some(0.0)))
         == Item(1, "Editing", 50.0, 1.0, 0.0, 50.0)
    ensures Recomputed(2, ItemInput("Shoot", None, Some(1.0), Some(0.0)))
         == Item(2, "Shoot", 0.0, 1.0, 0.0, 0.0)
  {
  }

  /** Items priced 50 and 0 at quantity 1, no discount: 50, 0, 50. */
  lemma ExampleItemsTotals()
    ensures InvoiceTotals([Item(1, "Editing", 50.0, 1.0, 0.0, 50.0), Item(2, "Shoot", 0.0, 1.0, 0.0, 0.0)])
         == Totals(50.0, 0.0, 50.0)
  {
    var a := Item(1, "Editing", 50.0, 1.0, 0.0, 50.0);
    var b := Item(2, "Shoot", 0.0, 1.0, 0.0, 0.0);
    assert [a, b][..1] == [a];
    assert [a][..0] == [];
    assert SumSubtotals([a]) == 50.0 && SumDiscounts([a]) == 0.0;
    assert SumSubtotals([a, b]) == 50.0 && SumDiscounts([a, b]) == 0.0;
  }

  /** Two cards, one priced 50 and one with an empty price: subtotal 50,
      no discount, 50 due. */
  lemma EmptyPriceExample()
    ensures
      var items := [Recomputed(1, ItemInput("Editing", Some(50.0), Some(1.0), Some(0.0))),
                    Recomputed(2, ItemInput("Shoot", None, Some(1.0), Some(0.0)))];
      InvoiceTotals(items) == Totals(50.0, 0.0, 50.0)
  {
    ExampleCardsRecomputed();
    ExampleItemsTotals();
  }
}
