/**
 * Sums over the lines of a cart and the snapshot relation between a cart's lines and the order
 * items a checkout writes. A queryset is iterated in no specified order, so sums range over a set
 * of primary keys.
 */
module Totals {
  import opened Records

  /** A non-empty set has an element to pick. */
  lemma NonEmptyHasElement(s: set<Id>)
    requires s != {}
    ensures exists x :: x in s
  {
    if forall x :: x !in s {
      assert false;
    }
  }

  /** A set of size one holds nothing but its element. */
  lemma SingletonOfSizeOne(s: set<Id>, x: Id)
    requires |s| == 1 && x in s
    ensures s == {x}
  {
    assert |s - {x}| == 0;
    assert s - {x} == {};
    forall y | y in s ensures y in {x} {
      assert y !in s - {x};
    }
    assert forall y :: y in s <==> y in {x};
  }

  /** The sum of `amount` over `ids`. */
  ghost function Sum(ids: set<Id>, amount: map<Id, Money>): Money
    requires ids <= amount.Keys
    decreases ids
  {
    if ids == {} then 0.0
    else
      NonEmptyHasElement(ids);
      var i :| i in ids;
      amount[i] + Sum(ids - {i}, amount)
  }

  /** A sum can be split off at any of its keys, so it does not depend on the order of summation. */
  lemma {:induction false} SumRemove(ids: set<Id>, amount: map<Id, Money>, j: Id)
    requires ids <= amount.Keys && j in ids
    ensures Sum(ids, amount) == amount[j] + Sum(ids - {j}, amount)
    decreases ids
  {
    var i :| i in ids && Sum(ids, amount) == amount[i] + Sum(ids - {i}, amount);
    if i != j {
      SumRemove(ids - {i}, amount, j);
      SumRemove(ids - {j}, amount, i);
      assert ids - {i} - {j} == ids - {j} - {i};
    }
  }

  /** Adding a key not yet summed adds its amount. */
  lemma SumAdd(ids: set<Id>, amount: map<Id, Money>, j: Id)
    requires ids <= amount.Keys && j in amount && j !in ids
    ensures Sum(ids + {j}, amount) == Sum(ids, amount) + amount[j]
  {
    SumRemove(ids + {j}, amount, j);
    assert ids + {j} - {j} == ids;
  }

  /** Two amount tables that agree on `ids` have the same sum over `ids`. */
  lemma {:induction false} SumAgree(ids: set<Id>, a: map<Id, Money>, b: map<Id, Money>)
    requires ids <= a.Keys && ids <= b.Keys
    requires forall i :: i in ids ==> a[i] == b[i]
    ensures Sum(ids, a) == Sum(ids, b)
    decreases ids
  {
    if ids != {} {
      NonEmptyHasElement(ids);
      var i :| i in ids;
      SumRemove(ids, a, i);
      SumRemove(ids, b, i);
      SumAgree(ids - {i}, a, b);
    }
  }

  /** price × quantity of every line whose product is known, at today's prices. */
  function LineAmounts(items: map<Id, CartItem>, products: map<Id, Product>): (r: map<Id, Money>)
    ensures forall i :: i in r <==> i in items && items[i].product in products
  {
    map i | i in items && items[i].product in products :: LineTotal(products[items[i].product].price, items[i].quantity)
  }

  /** Lines whose products are all known have an amount each. */
  lemma LinesPriced(lines: set<Id>, items: map<Id, CartItem>, products: map<Id, Product>)
    requires lines <= items.Keys
    requires forall i :: i in items ==> items[i].product in products
    ensures lines <= LineAmounts(items, products).Keys
  {
    forall i | i in lines ensures i in LineAmounts(items, products) {
      assert items[i].product in products;
    }
  }

  /** The total cached on every line. */
  function StoredAmounts(items: map<Id, CartItem>): (r: map<Id, Money>)
    ensures r.Keys == items.Keys
  {
    map i | i in items :: items[i].total
  }

  /** The total recorded on every order item. */
  function OrderItemAmounts(orderItems: map<Id, OrderItem>): (r: map<Id, Money>)
    ensures r.Keys == orderItems.Keys
  {
    map k | k in orderItems :: orderItems[k].total
  }

  /** The order item a checkout writes for one cart line: product, quantity and the cached total. */
  function CopyLine(item: CartItem, order: Id): OrderItem
  {
    OrderItem(order, item.product, item.quantity, item.total)
  }

  /**
   * `snap` maps each new order item (a key of `orderItems`) to the cart line it copies; it is a
   * one-to-one correspondence onto `lines`.
   */
  ghost predicate SnapshotOf(snap: map<Id, Id>, orderItems: map<Id, OrderItem>, items: map<Id, CartItem>, lines: set<Id>, order: Id)
  {
    && (forall k :: k in snap ==>
          k in orderItems && snap[k] in lines && snap[k] in items && orderItems[k] == CopyLine(items[snap[k]], order))
    && (forall i :: i in lines ==> exists k :: k in snap && snap[k] == i)
    && (forall k1, k2 :: k1 in snap && k2 in snap && snap[k1] == snap[k2] ==> k1 == k2)
  }

  lemma SnapshotShrink(snap: map<Id, Id>, orderItems: map<Id, OrderItem>, items: map<Id, CartItem>, lines: set<Id>, order: Id, k: Id)
    requires SnapshotOf(snap, orderItems, items, lines, order) && k in snap
    ensures SnapshotOf(snap - {k}, orderItems, items, lines - {snap[k]}, order)
    ensures (snap - {k}).Keys == snap.Keys - {k}
  {
    var rest := snap - {k};
    forall i | i in lines - {snap[k]} ensures exists k' :: k' in rest && rest[k'] == i {
      var k' :| k' in snap && snap[k'] == i;
      assert k' != k;
      assert k' in rest;
    }
  }

  /** Recording one more line under a fresh order-item key keeps the correspondence. */
  lemma SnapshotGrow(snap: map<Id, Id>, created: map<Id, OrderItem>, items: map<Id, CartItem>, done: set<Id>, order: Id, k: Id, i: Id)
    requires SnapshotOf(snap, created, items, done, order)
    requires k !in snap && i !in done && i in items
    ensures SnapshotOf(snap[k := i], created[k := CopyLine(items[i], order)], items, done + {i}, order)
  {
    var snap', created' := snap[k := i], created[k := CopyLine(items[i], order)];
    forall j | j in done + {i} ensures exists k' :: k' in snap' && snap'[k'] == j {
      if j == i {
        assert snap'[k] == i;
      } else {
        var k' :| k' in snap && snap[k'] == j;
        assert snap'[k'] == j;
      }
    }
  }

  /** grand_total: price × quantity summed over the lines, one line at a time. */
  method GrandTotal(lines: set<Id>, items: map<Id, CartItem>, products: map<Id, Product>) returns (total: Money)
    requires lines <= LineAmounts(items, products).Keys
    ensures total == Sum(lines, LineAmounts(items, products))
  {
    ghost var amounts := LineAmounts(items, products);
    total := 0.0;
    var todo := lines;
    ghost var done: set<Id> := {};
    while todo != {}
      invariant todo <= lines && done <= lines && todo !! done
      invariant forall i :: i in lines ==> i in todo || i in done
      invariant total == Sum(done, amounts)
      decreases todo
    {
      NonEmptyHasElement(todo);
      var i :| i in todo;
      SumAdd(done, amounts, i);
      total := total + LineTotal(products[items[i].product].price, items[i].quantity);
      todo := todo - {i};
      done := done + {i};
    }
    assert forall i :: i in done <==> i in lines;
    assert done == lines;
  }

  /**
   * OrderItem.objects.bulk_create: one order item per line under consecutive fresh keys from
   * `first`, each copying its line's product, quantity and cached total.
   */
  method CopyLines(lines: set<Id>, items: map<Id, CartItem>, order: Id, first: Id)
    returns (created: map<Id, OrderItem>, next: Id, ghost snap: map<Id, Id>)
    requires lines <= items.Keys
    ensures next == first + |lines|
    ensures forall k :: k in created ==> first <= k < next
    ensures snap.Keys == created.Keys
    ensures SnapshotOf(snap, created, items, lines, order)
  {
    created, next, snap := map[], first, map[];
    var todo := lines;
    ghost var done: set<Id> := {};
    while todo != {}
      invariant todo <= lines && done <= lines && todo !! done
      invariant forall i :: i in lines ==> i in todo || i in done
      invariant next == first + |done|
      invariant forall k :: k in created ==> first <= k < next
      invariant snap.Keys == created.Keys
      invariant SnapshotOf(snap, created, items, done, order)
      decreases todo
    {
      NonEmptyHasElement(todo);
      var i :| i in todo;
      SnapshotGrow(snap, created, items, done, order, next, i);
      created := created[next := CopyLine(items[i], order)];
      snap := snap[next := i];
      next := next + 1;
      todo := todo - {i};
      done := done + {i};
    }
    assert forall i :: i in done <==> i in lines;
    assert done == lines;
  }

  /** The correspondence survives merging the new order items into the whole table. */
  lemma SnapshotWiden(snap: map<Id, Id>, created: map<Id, OrderItem>, all: map<Id, OrderItem>, items: map<Id, CartItem>, lines: set<Id>, order: Id)
    requires SnapshotOf(snap, created, items, lines, order)
    requires forall k :: k in created ==> k in all && all[k] == created[k]
    ensures SnapshotOf(snap, all, items, lines, order)
  {
  }

  /** A checkout writes exactly as many order items as the cart had lines. */
  lemma {:induction false} SnapshotCount(snap: map<Id, Id>, orderItems: map<Id, OrderItem>, items: map<Id, CartItem>, lines: set<Id>, order: Id)
    requires SnapshotOf(snap, orderItems, items, lines, order)
    ensures |snap.Keys| == |lines|
    decreases lines
  {
    if lines == {} {
      assert forall k :: k !in snap;
      assert snap.Keys == {};
    } else {
      NonEmptyHasElement(lines);
      var i :| i in lines;
      var k :| k in snap && snap[k] == i;
      SnapshotShrink(snap, orderItems, items, lines, order, k);
      SnapshotCount(snap - {k}, orderItems, items, lines - {i}, order);
    }
  }

  /** The order items a checkout writes add up to the totals cached on the cart's lines. */
  lemma {:induction false} SnapshotTotal(snap: map<Id, Id>, orderItems: map<Id, OrderItem>, items: map<Id, CartItem>, lines: set<Id>, order: Id)
    requires SnapshotOf(snap, orderItems, items, lines, order)
    requires lines <= items.Keys
    ensures snap.Keys <= OrderItemAmounts(orderItems).Keys
    ensures Sum(snap.Keys, OrderItemAmounts(orderItems)) == Sum(lines, StoredAmounts(items))
    decreases lines
  {
    if lines == {} {
      assert forall k :: k !in snap;
      assert snap.Keys == {};
    } else {
      NonEmptyHasElement(lines);
      var i :| i in lines;
      var k :| k in snap && snap[k] == i;
      SnapshotShrink(snap, orderItems, items, lines, order, k);
      SnapshotTotal(snap - {k}, orderItems, items, lines - {i}, order);
      SumRemove(snap.Keys, OrderItemAmounts(orderItems), k);
      SumRemove(lines, StoredAmounts(items), i);
    }
  }

  /** When every line's cached total is price × quantity, the cached totals add up to the priced sum. */
  lemma ConsistentLinesTotal(lines: set<Id>, items: map<Id, CartItem>, products: map<Id, Product>)
    requires lines <= LineAmounts(items, products).Keys
    requires forall i :: i in lines ==> items[i].total == LineTotal(products[items[i].product].price, items[i].quantity)
    ensures Sum(lines, StoredAmounts(items)) == Sum(lines, LineAmounts(items, products))
  {
    SumAgree(lines, StoredAmounts(items), LineAmounts(items, products));
  }

  /**
   * The cached total of a merged line stays what it was, so a line that was consistent stops
   * being consistent as soon as more of a product with a non-zero price is added to it.
   */
  lemma MergedLineInconsistent(item: CartItem, price: Money, q: int)
    requires item.total == LineTotal(price, item.quantity) && price != 0.0 && q >= 1
    ensures item.(quantity := item.quantity + q).total != LineTotal(price, item.quantity + q)
  {
    assert price * ((item.quantity + q) as real) == price * (item.quantity as real) + price * (q as real);
  }
}
