/** The line-item store: the page's `serviceItems` array, the `itemCounter`
    that hands out ids, and the "Item N" label shown on each item's card.
    The cards on the page are appended and removed together with the array
    entries, so the k-th card is the k-th entry; the values typed into the
    cards reach the store as `ItemInput`s. */
module Store {
  import opened Wrappers
  import opened Money
  import opened Items

  /** The label numbers `renumberItems` writes: 1, 2, ..., n. */
  function Positions(n: nat): (r: seq<nat>)
    ensures |r| == n
    ensures forall k :: 0 <= k < n ==> r[k] == k + 1
  {
    seq(n, k => k + 1)
  }

  /** Every item re-read from its card, in place: each entry keeps its id
      and position, takes its card's description and coerced numbers, and has
      a total that agrees with its fields. */
  function RecomputedAll(items: seq<Item>, inputs: seq<ItemInput>): (r: seq<Item>)
    requires |inputs| == |items|
    ensures |r| == |items|
    ensures forall k :: 0 <= k < |r| ==>
      r[k].id == items[k].id && r[k].description == inputs[k].description && Consistent(r[k])
    ensures forall k :: 0 <= k < |r| ==> r[k] == Recomputed(items[k].id, inputs[k])
  {
    seq(|items|, k requires 0 <= k < |items| => Recomputed(items[k].id, inputs[k]))
  }

  /** Ids that start at 1 and strictly increase are at least their position
      plus one, so a list of ids up to `counter` is no longer than `counter`. */
  lemma {:induction false} IdsAtLeastPosition(items: seq<Item>, k: nat)
    requires IdsIncreasing(items)
    requires forall j :: 0 <= j < |items| ==> 1 <= items[j].id
    requires k < |items|
    ensures items[k].id >= k + 1
  {
    if k > 0 {
      IdsAtLeastPosition(items, k - 1);
    }
  }

  /** With increasing ids, looking up the id found at position k gives k. */
  lemma {:induction false} IndexOfIdAt(items: seq<Item>, k: nat)
    requires IdsIncreasing(items)
    requires k < |items|
    ensures IndexOfId(items, items[k].id) == k
  {
    if k > 0 {
      assert items[0].id < items[k].id;
      var rest := items[1..];
      IncreasingTail(items);
      assert rest[k - 1] == items[k];
      IndexOfIdAt(rest, k - 1);
    }
  }

  /** Re-reading the single fresh card of a one-item list leaves the list
      as it was. */
  lemma FreshCardReadsBack(id: nat)
    ensures RecomputedAll([DefaultItem(id)], [FreshCardInput]) == [DefaultItem(id)]
  {
    FreshCardIsDefault(id);
    var r := RecomputedAll([DefaultItem(id)], [FreshCardInput]);
    assert r[0] == Recomputed(id, FreshCardInput);
  }

  /** The first i entries of `items` are the re-read cards, the others are
      still the entries of `orig`. */
  ghost predicate ReadUpTo(items: seq<Item>, orig: seq<Item>, inputs: seq<ItemInput>, i: nat) {
    && |items| == |orig| == |inputs|
    && i <= |items|
    && (forall j :: 0 <= j < i ==> items[j] == Recomputed(orig[j].id, inputs[j]))
    && (forall j :: i <= j < |items| ==> items[j] == orig[j])
  }

  /** Re-reading card i moves the boundary one place on. */
  lemma ReadStep(items: seq<Item>, orig: seq<Item>, inputs: seq<ItemInput>, i: nat)
    requires ReadUpTo(items, orig, inputs, i) && i < |items|
    ensures ReadUpTo(items[i := Recomputed(items[i].id, inputs[i])], orig, inputs, i + 1)
  {
  }

  /** Once every card is re-read, the list is RecomputedAll of the original. */
  lemma ReadAll(items: seq<Item>, orig: seq<Item>, inputs: seq<ItemInput>)
    requires ReadUpTo(items, orig, inputs, |items|)
    ensures items == RecomputedAll(orig, inputs)
  {
  }

  /** Replacing entry i and taking it into the left folds: the folds over
      the first i entries are untouched and grow by the new entry's
      amounts. */
  lemma SumsStep(before: seq<Item>, items: seq<Item>, i: nat)
    requires i < |items| == |before|
    requires forall j :: 0 <= j < i ==> items[j] == before[j]
    ensures SumSubtotals(items[..i + 1]) == SumSubtotals(before[..i]) + ItemSubtotal(items[i])
    ensures SumDiscounts(items[..i + 1]) == SumDiscounts(before[..i]) + ItemDiscount(items[i])
  {
    assert items[..i + 1][..i] == items[..i] == before[..i];
  }

  class ServiceItems {
    /** `serviceItems`, in card order. */
    var items: seq<Item>
    /** `itemCounter`: the last id handed out. */
    var counter: nat
    /** The number in each card's "Item N" heading, in card order. */
    var labels: seq<nat>

    /** Ids strictly increase and were all handed out by the counter; one
        label per card, labels strictly increasing and never above the
        counter. */
    ghost predicate Valid()
      reads this
    {
      && IdsIncreasing(items)
      && (forall k :: 0 <= k < |items| ==> 1 <= items[k].id <= counter)
      && |labels| == |items|
      && (forall i, j :: 0 <= i < j < |labels| ==> labels[i] < labels[j])
      && (forall k :: 0 <= k < |labels| ==> labels[k] <= counter)
    }

    /** The state at page load, before the first item is added. */
    constructor ()
      ensures Valid()
      ensures items == [] && counter == 0 && labels == []
    {
      items := [];
      counter := 0;
      labels := [];
    }

    /** `addServiceItem`: the counter moves on and one default item with the
        new id is appended, its card labelled with that id. */
    method Add()
      requires Valid()
      modifies this
      ensures Valid()
      ensures counter == old(counter) + 1
      ensures items == old(items) + [DefaultItem(counter)]
      ensures labels == old(labels) + [counter]
    {
      ghost var before, beforeLabels := items, labels;
      counter := counter + 1;
      var item := DefaultItem(counter);
      items := items + [item];
      labels := labels + [counter];
      forall i, j | 0 <= i < j < |items| ensures items[i].id < items[j].id {
        assert items[i] == before[i];
      }
      forall i, j | 0 <= i < j < |labels| ensures labels[i] < labels[j] {
        assert labels[i] == beforeLabels[i];
      }
    }

    /** `renumberItems`: the cards are labelled 1..N in their current order. */
    method Renumber()
      requires IdsIncreasing(items)
      requires forall k :: 0 <= k < |items| ==> 1 <= items[k].id <= counter
      modifies this`labels
      ensures Valid()
      ensures labels == Positions(|items|)
    {
      labels := Positions(|items|);
      forall k | 0 <= k < |labels| ensures labels[k] <= counter {
        IdsAtLeastPosition(items, k);
      }
    }

    /** `removeServiceItem(id)`: when a card with that id exists, its entry
        is cut out, every other entry keeps its place and id, and the cards
        are renumbered; otherwise nothing happens. */
    method Remove(id: int)
      requires Valid()
      modifies this
      ensures Valid()
      ensures counter == old(counter)
      ensures IndexOfId(old(items), id) == -1 ==> items == old(items) && labels == old(labels)
      ensures IndexOfId(old(items), id) >= 0 ==>
        var k := IndexOfId(old(items), id);
        && items == WithoutId(old(items), id)
        && items == old(items)[..k] + old(items)[k + 1..]
        && labels == Positions(|items|)
    {
      var k := IndexOfId(items, id);
      if k != -1 {
        WithoutIdAt(items, k);
        CutKeepsOrder(items, k);
        ghost var before := items;
        items := WithoutId(items, id);
        forall j | 0 <= j < |items| ensures 1 <= items[j].id <= counter {
          assert items[j] == before[if j < k then j else j + 1];
        }
        Renumber();
      }
    }

    /** `calculateItemTotal(id)`: when a card with that id exists, its entry
        is replaced by the card's coerced fields and their line total, which
        is also what the card's "Item Total" shows; nothing else changes. */
    method CalculateItemTotal(id: int, input: ItemInput) returns (shown: Option<real>)
      requires Valid()
      modifies this`items
      ensures Valid()
      ensures var k := IndexOfId(old(items), id);
        && (k == -1 ==> items == old(items) && shown == None)
        && (k >= 0 ==>
              && items == old(items)[k := Recomputed(old(items)[k].id, input)]
              && shown == Some(items[k].total))
    {
      var k := IndexOfId(items, id);
      if k == -1 {
        shown := None;
      } else {
        var it := Recomputed(items[k].id, input);
        items := items[k := it];
        shown := Some(it.total);
      }
    }

    /** The body of the `forEach` in `calculateTotals` for one card: the
        card is re-read by `calculateItemTotal`, then its entry is looked up
        by id again and its subtotal and discount amount are returned (both
        0 when no entry has that id). */
    method TakeCard(itemId: int, input: ItemInput) returns (itemSubtotal: real, itemDiscount: real)
      requires Valid()
      modifies this`items
      ensures Valid()
      ensures var k := IndexOfId(old(items), itemId);
        && (k == -1 ==> items == old(items) && itemSubtotal == 0.0 && itemDiscount == 0.0)
        && (k >= 0 ==>
              && items == old(items)[k := Recomputed(old(items)[k].id, input)]
              && itemSubtotal == ItemSubtotal(items[k])
              && itemDiscount == ItemDiscount(items[k]))
    {
      ghost var k0 := IndexOfId(items, itemId);
      var _ := CalculateItemTotal(itemId, input);
      if k0 >= 0 {
        IndexOfIdAt(items, k0);
      }
      var k := IndexOfId(items, itemId);
      itemSubtotal, itemDiscount := 0.0, 0.0;
      if k != -1 {
        var itemData := items[k];
        itemSubtotal := LineSubtotal(itemData.price, itemData.quantity);
        itemDiscount := LineDiscount(itemData.price, itemData.quantity, itemData.discount);
      }
    }

    /** `calculateTotals`: walks the cards in order, re-reads each one into
        its entry and adds up the subtotals and discounts as it goes; the
        result is the re-read list and the totals of that list. */
    method CalculateTotals(inputs: seq<ItemInput>) returns (t: Totals)
      requires Valid()
      requires |inputs| == |items|
      modifies this`items
      ensures Valid()
      ensures items == RecomputedAll(old(items), inputs)
      ensures t == InvoiceTotals(items)
    {
      ghost var orig := items;
      var subtotal, totalDiscount := 0.0, 0.0;
      var i := 0;
      while i < |items|
        invariant Valid() && ReadUpTo(items, orig, inputs, i)
        invariant subtotal == SumSubtotals(items[..i]) && totalDiscount == SumDiscounts(items[..i])
      {
        ghost var before := items;
        IndexOfIdAt(items, i);
        var itemSubtotal, itemDiscount := TakeCard(items[i].id, inputs[i]);
        ReadStep(before, orig, inputs, i);
        SumsStep(before, items, i);
        subtotal := subtotal + itemSubtotal;
        totalDiscount := totalDiscount + itemDiscount;
        i := i + 1;
      }
      ReadAll(items, orig, inputs);
      assert items[..i] == items;
      t := Totals(subtotal, totalDiscount, subtotal - totalDiscount);
    }

    /** `clearForm`: after the user confirms, the list and the counter are
        emptied and one fresh item is added, so exactly one default item with
        id 1, labelled 1, remains; without confirmation nothing changes. */
    method Clear(confirmed: bool)
      requires Valid()
      modifies this
      ensures Valid()
      ensures confirmed ==> items == [DefaultItem(1)] && counter == 1 && labels == [1]
      ensures !confirmed ==>
        items == old(items) && counter == old(counter) && labels == old(labels)
    {
      if confirmed {
        items := [];
        counter := 0;
        labels := [];
        Add();
        assert items == [DefaultItem(1)];
        FreshCardReadsBack(1);
        var _ := CalculateTotals([FreshCardInput]);
        assert items == [DefaultItem(1)];
      }
    }
  }

  /** Two items added, the first removed, a third added: the cards show
      "Item 1" and "Item 3", because a new card is labelled with its id while
      a removal relabels by position. Ids 2 and 3 survive. */
  method LabelsAfterRemoveThenAdd() returns (ids: seq<nat>, labels: seq<nat>)
    ensures ids == [2, 3]
    ensures labels == [1, 3]
  {
    var store := new ServiceItems();
    store.Add();
    store.Add();
    store.Remove(1);
    store.Add();
    ids := [store.items[0].id, store.items[1].id];
    labels := store.labels;
  }
}
