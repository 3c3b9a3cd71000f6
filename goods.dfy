/** The goods of the shop: products, and the lines (a product and a quantity)
    that make up both the shop's stock and a client's cart. */
module Goods {

  /** A product with its unit price and its title. It never changes once
      made; the source shares one product object between a stock line and
      every cart line drawn from it, which for an object nobody changes is the
      same as sharing its value. */
  datatype Product = Product(price: int, title: string)

  /** A stock line or a cart line: a product and a quantity that can change. */
  class Item {
    const product: Product
    var amount: int

    constructor (product: Product, amount: int)
      ensures this.product == product && this.amount == amount
    {
      this.product := product;
      this.amount := amount;
    }

    /** Takes `soldAmount` units off the line. Its one caller never takes
        more than the line holds, so the quantity does not go negative. */
    method DecreaseAmount(soldAmount: int)
      requires soldAmount <= amount
      modifies this
      ensures amount == old(amount) - soldAmount
      ensures 0 <= amount
    {
      amount := amount - soldAmount;
    }

    /** Overwrites the quantity. */
    method SetAmount(newAmount: int)
      modifies this
      ensures amount == newAmount
    {
      amount := newAmount;
    }
  }

  /** What one line costs: its quantity times the unit price. */
  function LinePrice(item: Item): (r: int)
    reads item
  {
    item.amount * item.product.price
  }

  /** What a list of lines costs: the sum of their line prices. */
  function Price(items: seq<Item>): (r: int)
    reads items
  {
    if items == [] then 0 else LinePrice(items[0]) + Price(items[1..])
  }

  /** The price of two lists put together is the sum of their prices. */
  lemma {:induction false} PriceAppend(a: seq<Item>, b: seq<Item>)
    ensures Price(a + b) == Price(a) + Price(b)
    decreases |a|
  {
    if a == [] {
      assert a + b == b;
    } else {
      assert (a + b)[0] == a[0] && (a + b)[1..] == a[1..] + b;
      PriceAppend(a[1..], b);
    }
  }

  /** Lines with no negative quantity and no negative price cost nothing
      negative. */
  lemma {:induction false} PriceNonNegative(items: seq<Item>)
    requires forall i :: 0 <= i < |items| ==> 0 <= items[i].amount && 0 <= items[i].product.price
    ensures 0 <= Price(items)
    decreases |items|
  {
    if items != [] {
      var a, p := items[0].amount, items[0].product.price;
      assert 0 <= a * p;
      PriceNonNegative(items[1..]);
    }
  }

  /** The quantities of a list of lines, in order. */
  function Amounts(items: seq<Item>): (r: seq<int>)
    reads items
    ensures |r| == |items|
    ensures forall j :: 0 <= j < |items| ==> r[j] == items[j].amount
    decreases |items|
  {
    if items == [] then [] else [items[0].amount] + Amounts(items[1..])
  }
}
