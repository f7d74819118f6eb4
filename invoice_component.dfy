/** The invoice form's state: the invoice record, the staging buffer for the
    row being composed or edited, the snapshot kept for cancelling an edit,
    and the edit-mode flag, with the operations that change them. */
module InvoiceView {
  import opened Wrappers
  import opened LineItems
  import opened Balance

  /** The invoice record. Every money field may be `null` (`None`); the rows
      are values, appended and spliced in place. */
  class Invoice {
    var items: seq<Item>
    var subTotal: Option<real>
    var discount: Option<real>
    var subTotalLessDiscount: Option<real>
    var taxRate: Option<real>
    var totalTax: Option<real>
    var shipping: Option<real>
    var balancePaid: Option<real>

    /** The record the form starts with: no rows, every money field `null`. */
    constructor ()
      ensures items == []
      ensures subTotal == None && discount == None && subTotalLessDiscount == None
      ensures taxRate == None && totalTax == None && shipping == None && balancePaid == None
    {
      items := [];
      shipping, taxRate, discount := None, None, None;
      balancePaid, subTotal, subTotalLessDiscount, totalTax := None, None, None, None;
    }

    /** The derived fields are what the balance routine makes of the current
        rows and options, given the tax and balance held before it ran. */
    ghost predicate Recomputed(previousTax: Option<real>, previousBalance: Option<real>)
      reads this
      requires Priced(items)
    {
      var sub := Sum(items);
      && subTotal == Some(sub)
      && subTotalLessDiscount == Some(LessDiscount(sub, discount))
      && totalTax == (if taxRate.Some? then TaxTerm(sub, discount, taxRate) else previousTax)
      && balancePaid == BalanceAfter(sub, discount, taxRate, shipping, previousBalance)
    }
  }

  class InvoiceComponent {
    /** True while a row is being edited. */
    var update: bool
    var invoice: Invoice
    /** The row being composed or edited. */
    var itemContainer: Item
    /** The row as it was when the edit began, restored by `Cancel`. */
    var currentUpdatedItem: Item

    /** Every committed row has a numeric total, and so has the snapshot of
        the row under edit. */
    ghost predicate Valid()
      reads this, invoice
    {
      Priced(invoice.items) && (update ==> HasTotal(currentUpdatedItem))
    }

    constructor ()
      ensures Valid() && fresh(invoice)
      ensures !update && itemContainer == EmptyItem && currentUpdatedItem == EmptyItem
      ensures invoice.items == [] && invoice.subTotal == None && invoice.balancePaid == None
      ensures invoice.discount == None && invoice.taxRate == None && invoice.shipping == None
      ensures invoice.subTotalLessDiscount == None && invoice.totalTax == None
    {
      update := false;
      invoice := new Invoice();
      itemContainer := EmptyItem;
      currentUpdatedItem := EmptyItem;
    }

    /** Asks for nothing: the caller passes whether the user confirmed. A
        confirmed delete splices the row out and recomputes the balance; in
        either case an empty list clears the options. */
    method DeleteItem(index: int, confirmed: bool)
      requires Valid()
      modifies invoice`items, invoice`subTotal, invoice`subTotalLessDiscount, invoice`totalTax,
               invoice`balancePaid, invoice`shipping, invoice`discount, invoice`taxRate
      ensures Valid()
      ensures invoice.items == if confirmed then SpliceOne(old(invoice.items), index) else old(invoice.items)
      ensures confirmed && 0 <= index < |old(invoice.items)| ==>
                invoice.subTotal == Some(Sum(old(invoice.items)) - old(invoice.items)[index].total.value)
      ensures confirmed && -|old(invoice.items)| <= index < 0 ==>
                invoice.subTotal == Some(Sum(old(invoice.items))
                                         - old(invoice.items)[|old(invoice.items)| + index].total.value)
      ensures confirmed && index < -|old(invoice.items)| && old(invoice.items) != [] ==>
                invoice.subTotal == Some(Sum(old(invoice.items)) - old(invoice.items)[0].total.value)
      ensures confirmed ==>
                invoice.subTotal == Some(Sum(invoice.items)) &&
                invoice.balancePaid == BalanceAfter(Sum(invoice.items), old(invoice.discount), old(invoice.taxRate),
                                                    old(invoice.shipping), old(invoice.balancePaid))
      ensures !confirmed ==> invoice.subTotal == old(invoice.subTotal) && invoice.balancePaid == old(invoice.balancePaid)
      ensures invoice.items == [] ==>
                && invoice.subTotalLessDiscount == None && invoice.shipping == None && invoice.discount == None
                && invoice.totalTax == None && invoice.taxRate == None
      ensures invoice.items != [] ==>
                && invoice.discount == old(invoice.discount) && invoice.taxRate == old(invoice.taxRate)
                && invoice.shipping == old(invoice.shipping)
                && (confirmed ==> invoice.Recomputed(old(invoice.totalTax), old(invoice.balancePaid)))
                && (!confirmed ==> invoice.subTotalLessDiscount == old(invoice.subTotalLessDiscount)
                                   && invoice.totalTax == old(invoice.totalTax))
    {
      if confirmed {
        SumSplice(invoice.items, index);
        invoice.items := SpliceOne(invoice.items, index);
        CalculateBalancePaid();
      }
      if |invoice.items| == 0 {
        ResetItemOptions();
      }
    }

    /** Sets the staging row's total to quantity times unit price; the zero
        branch gives the same value. Nothing else changes. */
    method GetTotal()
      requires LineTotalDefined(itemContainer.qty, itemContainer.unitPrice)
      modifies this`itemContainer
      ensures itemContainer.total == Some(LineTotal(old(itemContainer).qty, old(itemContainer).unitPrice))
      ensures itemContainer == old(itemContainer).(total := itemContainer.total)
    {
      if itemContainer.qty != Some(0.0) && itemContainer.unitPrice != Some(0.0) {
        itemContainer := itemContainer.(total := Some(itemContainer.qty.value * itemContainer.unitPrice.value));
      } else {
        itemContainer := itemContainer.(total := Some(0.0));
      }
      assert itemContainer.total.value == LineTotal(old(itemContainer).qty, old(itemContainer).unitPrice);
    }

    /** Appends the staging row, empties the buffer and recomputes the balance. */
    method AddItem()
      requires Valid() && HasTotal(itemContainer)
      modifies this`itemContainer, invoice`items, invoice`subTotal, invoice`subTotalLessDiscount,
               invoice`totalTax, invoice`balancePaid
      ensures Valid()
      ensures invoice.items == old(invoice.items) + [old(itemContainer)]
      ensures itemContainer == EmptyItem
      ensures invoice.subTotal == Some(Sum(old(invoice.items)) + old(itemContainer).total.value)
      ensures invoice.Recomputed(old(invoice.totalTax), old(invoice.balancePaid))
    {
      SumAppend(invoice.items, [itemContainer]);
      assert Sum([itemContainer]) == itemContainer.total.value by {
        assert [itemContainer][..0] == [];
      }
      invoice.items := invoice.items + [itemContainer];
      ResetContainer();
      CalculateBalancePaid();
    }

    /** Leaves edit mode, then does what `AddItem` does. */
    method UpdateItem()
      requires Valid() && HasTotal(itemContainer)
      modifies this`update, this`itemContainer, invoice`items, invoice`subTotal,
               invoice`subTotalLessDiscount, invoice`totalTax, invoice`balancePaid
      ensures Valid() && !update
      ensures invoice.items == old(invoice.items) + [old(itemContainer)]
      ensures itemContainer == EmptyItem
      ensures invoice.subTotal == Some(Sum(old(invoice.items)) + old(itemContainer).total.value)
      ensures invoice.Recomputed(old(invoice.totalTax), old(invoice.balancePaid))
    {
      update := false;
      AddItem();
    }

    /** Puts the snapshot back at the END of the list, leaves edit mode and
        empties the buffer and the snapshot. No total is recomputed. */
    method Cancel()
      requires Valid() && HasTotal(currentUpdatedItem)
      modifies this`update, this`currentUpdatedItem, this`itemContainer, invoice`items
      ensures Valid() && !update
      ensures invoice.items == old(invoice.items) + [old(currentUpdatedItem)]
      ensures currentUpdatedItem == EmptyItem && itemContainer == EmptyItem
    {
      invoice.items := invoice.items + [currentUpdatedItem];
      update := false;
      currentUpdatedItem := EmptyItem;
      ResetContainer();
    }

    /** Takes row `index` out of the list into the buffer and the snapshot and
        enters edit mode, whether or not an edit is already under way. */
    method FillContainer(index: int)
      requires Valid() && 0 <= index < |invoice.items|
      modifies this`itemContainer, this`update, this`currentUpdatedItem, invoice`items
      ensures Valid() && update
      ensures invoice.items == old(invoice.items[..index] + invoice.items[index + 1..])
      ensures itemContainer == old(invoice.items[index]) && currentUpdatedItem == old(invoice.items[index])
    {
      itemContainer := invoice.items[index];
      update := true;
      var row := invoice.items[index];
      currentUpdatedItem := currentUpdatedItem.(description := row.description, unitPrice := row.unitPrice,
                                                total := row.total, qty := row.qty);
      SumSplice(invoice.items, index);
      invoice.items := SpliceOne(invoice.items, index);
    }

    /** Sets the subtotal to the sum of the rows' totals (0 with no rows). */
    method GetSubTotal()
      requires Valid()
      modifies invoice`subTotal
      ensures Valid()
      ensures invoice.subTotal == Some(Sum(invoice.items))
    {
      invoice.subTotal := Some(0.0);
      for i := 0 to |invoice.items|
        invariant invoice.subTotal == Some(Sum(invoice.items[..i]))
      {
        assert invoice.items[..i + 1][..i] == invoice.items[..i];
        invoice.subTotal := Some(invoice.subTotal.value + invoice.items[i].total.value);
      }
      assert invoice.items[..|invoice.items|] == invoice.items;
    }

    /** Recomputes subtotal, discounted subtotal, tax and balance. The options
        (discount, tax rate, shipping) and the rows are only read. */
    method CalculateBalancePaid()
      requires Valid()
      modifies invoice`subTotal, invoice`subTotalLessDiscount, invoice`totalTax, invoice`balancePaid
      ensures Valid()
      ensures invoice.Recomputed(old(invoice.totalTax), old(invoice.balancePaid))
      ensures invoice.taxRate.Some? ==>
                invoice.totalTax.Some? &&
                invoice.totalTax.value == Percent(invoice.subTotalLessDiscount.value, invoice.taxRate.value)
    {
      GetSubTotal();
      var sub := invoice.subTotal.value;
      var discountTerm: Option<real> := None;
      var taxTerm: Option<real> := None;
      var shippingTerm: Option<real> := None;

      if invoice.discount.Some? {
        var d := sub - invoice.discount.value;
        d := sub - d;
        if d == sub {
          d := 0.0;
          invoice.subTotalLessDiscount := Some(sub - d);
          invoice.balancePaid := invoice.subTotalLessDiscount;
        } else {
          invoice.subTotalLessDiscount := Some(sub - d);
          invoice.balancePaid := invoice.subTotalLessDiscount;
        }
        discountTerm := Some(d);
      } else {
        invoice.subTotalLessDiscount := Some(sub);
      }
      assert discountTerm == EffectiveDiscount(sub, invoice.discount);
      assert invoice.subTotalLessDiscount.value == LessDiscount(sub, invoice.discount);

      if invoice.taxRate.Some? {
        var t := invoice.subTotalLessDiscount.value * (invoice.taxRate.value * (1.0 / 100.0));
        invoice.totalTax := Some(t);
        taxTerm := Some(t);
        assert t == TaxTerm(sub, invoice.discount, invoice.taxRate).value;
        assert t == Percent(invoice.subTotalLessDiscount.value, invoice.taxRate.value);
      }

      assert taxTerm == TaxTerm(sub, invoice.discount, invoice.taxRate);
      if invoice.shipping.Some? {
        shippingTerm := invoice.shipping;
      }
      assert shippingTerm == invoice.shipping;

      if discountTerm.Some? && taxTerm.Some? && shippingTerm.Some? {
        invoice.balancePaid := Some(sub - discountTerm.value + taxTerm.value + shippingTerm.value);
      } else if discountTerm.None? && taxTerm.Some? && shippingTerm.Some? {
        invoice.balancePaid := Some(sub + taxTerm.value + shippingTerm.value);
      } else if discountTerm.None? && taxTerm.None? && shippingTerm.Some? {
        invoice.balancePaid := Some(sub + shippingTerm.value);
      } else if discountTerm.None? && taxTerm.None? && shippingTerm.None? {
        invoice.balancePaid := Some(sub);
      } else if discountTerm.Some? && taxTerm.None? && shippingTerm.None? {
        invoice.balancePaid := Some(sub - discountTerm.value);
      } else if discountTerm.Some? && taxTerm.Some? && shippingTerm.None? {
        invoice.balancePaid := Some(sub - discountTerm.value + taxTerm.value);
      } else if discountTerm.Some? && taxTerm.None? && shippingTerm.Some? {
        invoice.balancePaid := Some(sub - discountTerm.value + shippingTerm.value);
      }
      assert BranchTable(sub, discountTerm, taxTerm, shippingTerm).None? ==> invoice.balancePaid == old(invoice.balancePaid);
      assert BranchTable(sub, discountTerm, taxTerm, shippingTerm).Some? ==>
               invoice.balancePaid.Some? && invoice.balancePaid.value == BranchTable(sub, discountTerm, taxTerm, shippingTerm).value;
    }

    /** Empties the staging buffer. */
    method ResetContainer()
      modifies this`itemContainer
      ensures itemContainer == EmptyItem
    {
      itemContainer := EmptyItem;
    }

    /** Clears discount, shipping, tax rate, tax and discounted subtotal. */
    method ResetItemOptions()
      modifies invoice`subTotalLessDiscount, invoice`shipping, invoice`discount, invoice`totalTax, invoice`taxRate
      ensures invoice.subTotalLessDiscount == None && invoice.shipping == None && invoice.discount == None
      ensures invoice.totalTax == None && invoice.taxRate == None
    {
      invoice.subTotalLessDiscount := None;
      invoice.shipping := None;
      invoice.discount := None;
      invoice.totalTax := None;
      invoice.taxRate := None;
    }
  }

  /** Editing row `index` and cancelling moves that row to the end of the
      list: the same rows, the same sum, and the stored totals untouched,
      so a subtotal that matched the rows before still matches them. */
  method EditThenCancel(c: InvoiceComponent, index: int)
    requires c.Valid() && 0 <= index < |c.invoice.items|
    modifies c`itemContainer, c`update, c`currentUpdatedItem, c.invoice`items
    ensures c.Valid() && !c.update
    ensures c.invoice.items == MoveToEnd(old(c.invoice.items), index)
    ensures multiset(c.invoice.items) == multiset(old(c.invoice.items))
    ensures Sum(c.invoice.items) == Sum(old(c.invoice.items))
    ensures old(c.invoice.subTotal) == Some(Sum(old(c.invoice.items))) ==> c.invoice.subTotal == Some(Sum(c.invoice.items))
    ensures c.itemContainer == EmptyItem && c.currentUpdatedItem == EmptyItem
  {
    MoveToEndPermutes(c.invoice.items, index);
    c.FillContainer(index);
    c.Cancel();
  }

  /** Committing an edit does not clear the snapshot, so a later cancel
      appends the row as it was before the edit: the edited row and its old
      version both end up at the end of the list. */
  method CommitThenCancel(c: InvoiceComponent, index: int)
    requires c.Valid() && 0 <= index < |c.invoice.items|
    modifies c`itemContainer, c`update, c`currentUpdatedItem, c.invoice`items, c.invoice`subTotal,
             c.invoice`subTotalLessDiscount, c.invoice`totalTax, c.invoice`balancePaid
    ensures c.Valid() && !c.update
    ensures c.invoice.items == old(c.invoice.items[..index] + c.invoice.items[index + 1..])
                               + [old(c.invoice.items[index]), old(c.invoice.items[index])]
    ensures c.itemContainer == EmptyItem && c.currentUpdatedItem == EmptyItem
  {
    c.FillContainer(index);
    c.UpdateItem();
    c.Cancel();
  }

  /** Starting a second edit before finishing the first overwrites the
      snapshot: cancelling then restores only the second row, and the first
      one is gone from the list. */
  method EditTwiceThenCancel(c: InvoiceComponent, i: int, j: int)
    requires c.Valid() && 0 <= i < |c.invoice.items| && 0 <= j < |c.invoice.items| - 1
    modifies c`itemContainer, c`update, c`currentUpdatedItem, c.invoice`items
    ensures c.Valid() && !c.update
    ensures |c.invoice.items| == |old(c.invoice.items)| - 1
    ensures multiset(c.invoice.items) == multiset(old(c.invoice.items)) - multiset{old(c.invoice.items)[i]}
  {
    ghost var before := c.invoice.items;
    c.FillContainer(i);
    ghost var middle := c.invoice.items;
    c.FillContainer(j);
    c.Cancel();
    assert before == before[..i] + [before[i]] + before[i + 1..];
    assert multiset(middle) == multiset(before) - multiset{before[i]};
    assert middle == middle[..j] + [middle[j]] + middle[j + 1..];
    assert multiset(c.invoice.items) == multiset(middle);
  }
}
