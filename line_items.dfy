/** Operations on a cart's list of line items shared by the cart routes
    (src/routes/carts.router.js) and the in-memory cart manager (src/managers/cart-manager.js):
    finding the first item for a product, accumulate-or-append, and removing every item for a product. */
module LineItems {
  import opened CartModel

  /** Some line item refers to `pid`. */
  predicate Contains(items: seq<LineItem>, pid: ProductId) {
    exists i :: 0 <= i < |items| && items[i].product == pid
  }

  /** No two line items refer to the same product. */
  predicate Distinct(items: seq<LineItem>) {
    forall i, j :: 0 <= i < j < |items| ==> items[i].product != items[j].product
  }

  /** Total quantity held for `pid` over every item that refers to it. */
  function QuantityOf(items: seq<LineItem>, pid: ProductId): int {
    if items == [] then 0
    else (if items[0].product == pid then items[0].quantity else 0) + QuantityOf(items[1..], pid)
  }

  /** `findIndex` on the product reference: the first matching position, or -1. */
  function FirstIndex(items: seq<LineItem>, pid: ProductId): (r: int)
    ensures -1 <= r < |items|
    ensures r == -1 <==> !Contains(items, pid)
    ensures r >= 0 ==> items[r].product == pid && forall j :: 0 <= j < r ==> items[j].product != pid
  {
    if items == [] then -1
    else if items[0].product == pid then 0
    else
      var k := FirstIndex(items[1..], pid);
      if k == -1 then
        assert forall i :: 1 <= i < |items| ==> items[i] == items[1..][i - 1];
        -1
      else k + 1
  }

  /** Adding `q` of `pid`: the first matching item's quantity grows by `q`, or a new item is
      appended at the end. */
  function Accumulate(items: seq<LineItem>, pid: ProductId, q: int): (r: seq<LineItem>)
    ensures Contains(r, pid)
    ensures Contains(items, pid) ==>
      var k := FirstIndex(items, pid);
      && |r| == |items|
      && r[k] == LineItem(pid, items[k].quantity + q)
      && forall j :: 0 <= j < |items| && j != k ==> r[j] == items[j]
    ensures !Contains(items, pid) ==> r == items + [LineItem(pid, q)]
  {
    var k := FirstIndex(items, pid);
    if k >= 0 then
      assert items[k := LineItem(pid, items[k].quantity + q)][k].product == pid;
      items[k := LineItem(pid, items[k].quantity + q)]
    else
      assert (items + [LineItem(pid, q)])[|items|].product == pid;
      items + [LineItem(pid, q)]
  }

  /** `filter` keeping the items that do not refer to `pid`, in their order. */
  function Without(items: seq<LineItem>, pid: ProductId): (r: seq<LineItem>)
    ensures |r| <= |items|
    ensures forall x :: x in r ==> x in items && x.product != pid
  {
    if items == [] then []
    else (if items[0].product == pid then [] else [items[0]]) + Without(items[1..], pid)
  }

  lemma {:induction false} QuantityOfAppend(a: seq<LineItem>, b: seq<LineItem>, pid: ProductId)
    ensures QuantityOf(a + b, pid) == QuantityOf(a, pid) + QuantityOf(b, pid)
  {
    if a != [] {
      assert (a + b)[0] == a[0] && (a + b)[1..] == a[1..] + b;
      QuantityOfAppend(a[1..], b, pid);
    } else {
      assert a + b == b;
    }
  }

  lemma {:induction false} QuantityOfAbsent(items: seq<LineItem>, pid: ProductId)
    requires !Contains(items, pid)
    ensures QuantityOf(items, pid) == 0
  {
    if items != [] {
      assert !Contains(items[1..], pid) by {
        forall i | 0 <= i < |items[1..]| ensures items[1..][i].product != pid {
          assert items[1..][i] == items[i + 1];
        }
      }
      QuantityOfAbsent(items[1..], pid);
    }
  }

  /** Changing the item at `k` changes each product's total by the difference at `k` only. */
  lemma {:induction false} QuantityOfUpdate(items: seq<LineItem>, k: nat, item: LineItem, pid: ProductId)
    requires k < |items|
    ensures QuantityOf(items[k := item], pid)
         == QuantityOf(items, pid)
          - (if items[k].product == pid then items[k].quantity else 0)
          + (if item.product == pid then item.quantity else 0)
  {
    if k == 0 {
      assert items[k := item][1..] == items[1..];
    } else {
      assert items[k := item][1..] == items[1..][k - 1 := item];
      QuantityOfUpdate(items[1..], k - 1, item, pid);
    }
  }

  /** Adding `q` of `pid` raises the total quantity held for `pid` by `q` and leaves every other
      product's total as it was. */
  lemma AccumulateAddsQuantity(items: seq<LineItem>, pid: ProductId, q: int, other: ProductId)
    ensures QuantityOf(Accumulate(items, pid, q), other)
         == QuantityOf(items, other) + (if other == pid then q else 0)
  {
    var k := FirstIndex(items, pid);
    if k >= 0 {
      QuantityOfUpdate(items, k, LineItem(pid, items[k].quantity + q), other);
      assert Accumulate(items, pid, q) == items[k := LineItem(pid, items[k].quantity + q)];
    } else {
      QuantityOfAppend(items, [LineItem(pid, q)], other);
      assert [LineItem(pid, q)][1..] == [];
    }
  }

  /** If product references are distinct before an add, they are distinct after it. */
  lemma AccumulateKeepsDistinct(items: seq<LineItem>, pid: ProductId, q: int)
    requires Distinct(items)
    ensures Distinct(Accumulate(items, pid, q))
  {
    var r := Accumulate(items, pid, q);
    if !Contains(items, pid) {
      forall i, j | 0 <= i < j < |r| ensures r[i].product != r[j].product {
        if j == |items| {
          assert r[j].product == pid;
          assert r[i] == items[i];
        }
      }
    }
  }

  /** Adding `q1` then `q2` of a product the cart lacks yields one item for it, at the end,
      holding `q1 + q2`. */
  lemma AccumulateTwice(items: seq<LineItem>, pid: ProductId, q1: int, q2: int)
    requires !Contains(items, pid)
    ensures Accumulate(Accumulate(items, pid, q1), pid, q2) == items + [LineItem(pid, q1 + q2)]
  {
    var once := Accumulate(items, pid, q1);
    assert once == items + [LineItem(pid, q1)];
    var k := FirstIndex(once, pid);
    assert k == |items| by {
      assert once[|items|].product == pid;
      assert forall j :: 0 <= j < |items| ==> once[j] == items[j] && items[j].product != pid;
    }
  }

  /** Removing keeps every other item and its order: it distributes over concatenation. */
  lemma {:induction false} WithoutAppend(a: seq<LineItem>, b: seq<LineItem>, pid: ProductId)
    ensures Without(a + b, pid) == Without(a, pid) + Without(b, pid)
  {
    if a != [] {
      assert (a + b)[0] == a[0] && (a + b)[1..] == a[1..] + b;
      WithoutAppend(a[1..], b, pid);
    } else {
      assert a + b == b;
    }
  }

  /** After a remove, no item refers to `pid`, and every other product keeps its total quantity. */
  lemma WithoutRemovesAll(items: seq<LineItem>, pid: ProductId, other: ProductId)
    ensures !Contains(Without(items, pid), pid)
    ensures QuantityOf(Without(items, pid), other) == if other == pid then 0 else QuantityOf(items, other)
  {
    var r := Without(items, pid);
    forall i | 0 <= i < |r| ensures r[i].product != pid {
      assert r[i] in r;
    }
    WithoutQuantity(items, pid, other);
  }

  lemma {:induction false} WithoutQuantity(items: seq<LineItem>, pid: ProductId, other: ProductId)
    ensures QuantityOf(Without(items, pid), other) == if other == pid then 0 else QuantityOf(items, other)
  {
    if items != [] {
      WithoutQuantity(items[1..], pid, other);
      var head := if items[0].product == pid then [] else [items[0]];
      QuantityOfAppend(head, Without(items[1..], pid), other);
      if head != [] {
        assert head[1..] == [];
      }
    }
  }

  /** Removing a product the cart does not hold changes nothing. */
  lemma {:induction false} WithoutAbsent(items: seq<LineItem>, pid: ProductId)
    requires !Contains(items, pid)
    ensures Without(items, pid) == items
  {
    if items != [] {
      assert !Contains(items[1..], pid) by {
        forall i | 0 <= i < |items[1..]| ensures items[1..][i].product != pid {
          assert items[1..][i] == items[i + 1];
        }
      }
      WithoutAbsent(items[1..], pid);
      assert items == [items[0]] + items[1..];
    }
  }

  /** Removing twice is the same as removing once. */
  lemma WithoutIdempotent(items: seq<LineItem>, pid: ProductId)
    ensures Without(Without(items, pid), pid) == Without(items, pid)
  {
    WithoutRemovesAll(items, pid, pid);
    WithoutAbsent(Without(items, pid), pid);
  }
}
