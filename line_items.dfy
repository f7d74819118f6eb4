/** Line items of an invoice, the line total, removal from the item list
    and the subtotal over the list. */
module LineItems {
  import opened Wrappers

  /** An invoice row. Every key is optional: the staging buffer starts as `{}`. */
  datatype Item = Item(
    description: Option<string>,
    qty: Option<real>,
    unitPrice: Option<real>,
    total: Option<real>)

  /** The empty object `{}` the staging buffer and the snapshot are reset to. */
  const EmptyItem: Item := Item(None, None, None, None)

  predicate HasTotal(it: Item) {
    it.total.Some?
  }

  /** Every row carries a numeric total, so that summing them gives a number. */
  predicate Priced(s: seq<Item>) {
    forall k :: 0 <= k < |s| ==> HasTotal(s[k])
  }

  /** The inputs for which the line total is a number: either one factor is
      zero (the zero branch), or both factors are present. */
  predicate LineTotalDefined(qty: Option<real>, unitPrice: Option<real>) {
    qty == Some(0.0) || unitPrice == Some(0.0) || (qty.Some? && unitPrice.Some?)
  }

  /** The line total as the row computes it: zero if either factor is zero,
      otherwise their product. The zero branch agrees with the product. */
  function LineTotal(qty: Option<real>, unitPrice: Option<real>): (r: real)
    requires LineTotalDefined(qty, unitPrice)
    ensures qty.Some? && unitPrice.Some? ==> r == qty.value * unitPrice.value
    ensures qty == Some(0.0) || unitPrice == Some(0.0) ==> r == 0.0
  {
    if qty != Some(0.0) && unitPrice != Some(0.0) then qty.value * unitPrice.value
    else 0.0
  }

  /** `splice(start, 1)` on a list: a negative start counts from the end
      (clamped at 0), a start at or past the end removes nothing. */
  function SpliceOne<T>(s: seq<T>, start: int): (r: seq<T>)
    ensures 0 <= start < |s| ==> r == s[..start] + s[start + 1..]
    ensures start >= |s| ==> r == s
    ensures -|s| <= start < 0 ==> r == s[..|s| + start] + s[|s| + start + 1..]
    ensures start < -|s| ==> r == if s == [] then [] else s[1..]
    ensures |r| == if s == [] || start >= |s| then |s| else |s| - 1
  {
    var k := if start >= 0 then start else if |s| + start >= 0 then |s| + start else 0;
    if k < |s| then s[..k] + s[k + 1..] else s
  }

  /** The list with the row at `i` taken out and put back at the end. */
  function MoveToEnd<T>(s: seq<T>, i: nat): (r: seq<T>)
    requires i < |s|
  {
    s[..i] + s[i + 1..] + [s[i]]
  }

  /** Sum of the rows' totals, accumulated front to back. */
  function Sum(s: seq<Item>): (r: real)
    requires Priced(s)
  {
    if s == [] then 0.0 else Sum(s[..|s| - 1]) + s[|s| - 1].total.value
  }

  lemma {:induction false} SumAppend(a: seq<Item>, b: seq<Item>)
    requires Priced(a) && Priced(b)
    ensures Priced(a + b)
    ensures Sum(a + b) == Sum(a) + Sum(b)
  {
    if b == [] {
      assert a + b == a;
    } else {
      var front := b[..|b| - 1];
      assert (a + b)[..|a + b| - 1] == a + front;
      SumAppend(a, front);
    }
  }

  /** Taking the row at `i` out of the list lowers the sum by that row's total. */
  lemma {:induction false} SumRemoveAt(s: seq<Item>, i: nat)
    requires Priced(s) && i < |s|
    ensures Priced(s[..i] + s[i + 1..])
    ensures Sum(s[..i] + s[i + 1..]) == Sum(s) - s[i].total.value
  {
    assert s == s[..i] + [s[i]] + s[i + 1..];
    SumAppend(s[..i], [s[i]]);
    SumAppend(s[..i] + [s[i]], s[i + 1..]);
    SumAppend(s[..i], s[i + 1..]);
    assert Sum([s[i]]) == s[i].total.value by {
      assert [s[i]][..0] == [];
    }
  }

  /** Removal through `splice` keeps the list priced and takes the removed
      row's total out of the sum (nothing changes when no row is removed). */
  lemma {:induction false} SumSplice(s: seq<Item>, start: int)
    requires Priced(s)
    ensures Priced(SpliceOne(s, start))
    ensures 0 <= start < |s| ==> Sum(SpliceOne(s, start)) == Sum(s) - s[start].total.value
    ensures -|s| <= start < 0 ==> Sum(SpliceOne(s, start)) == Sum(s) - s[|s| + start].total.value
    ensures start < -|s| && s != [] ==> Sum(SpliceOne(s, start)) == Sum(s) - s[0].total.value
    ensures start >= |s| ==> Sum(SpliceOne(s, start)) == Sum(s)
  {
    var k := if start >= 0 then start else if |s| + start >= 0 then |s| + start else 0;
    if k < |s| {
      assert SpliceOne(s, start) == s[..k] + s[k + 1..];
      SumRemoveAt(s, k);
    }
  }

  /** Moving a row to the end keeps the same rows (a permutation) and the same sum. */
  lemma {:induction false} MoveToEndPermutes(s: seq<Item>, i: nat)
    requires Priced(s) && i < |s|
    ensures multiset(MoveToEnd(s, i)) == multiset(s)
    ensures Priced(MoveToEnd(s, i))
    ensures Sum(MoveToEnd(s, i)) == Sum(s)
  {
    assert s == s[..i] + [s[i]] + s[i + 1..];
    SumRemoveAt(s, i);
    SumAppend(s[..i] + s[i + 1..], [s[i]]);
    assert Sum([s[i]]) == s[i].total.value by {
      assert [s[i]][..0] == [];
    }
  }
}
