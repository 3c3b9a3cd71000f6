/** A client at the till: a balance, a cart, and the checkout that either
    serves the client or makes them put whole cart lines back until what is
    left is affordable. */
module Clients {
  import opened Randomness
  import opened Sequences
  import opened Goods

  const MinBalance := 10
  const MaxBalance := 120

  /** How a checkout ends: the client pays for what is left in the cart, or
      leaves with nothing. */
  datatype Outcome = Served | Left

  /** The balance a client is given: the draw `Next(10, 120)`. */
  function CreateBalance(draw: int): (balance: int)
    requires NextInRange(MinBalance, MaxBalance, draw)
    ensures MinBalance <= balance < MaxBalance
  {
    draw
  }

  /** `picks` holds the draws `Next(cart.Count)` of the shedding loop, in the
      order they are made: the k-th one chooses among the `lines - k` lines
      still in the cart. The loop never makes more than `lines` of them. */
  predicate PicksFit(lines: nat, picks: seq<int>)
  {
    |picks| >= lines &&
    forall k :: 0 <= k < lines ==> NextBelow(lines - k, picks[k])
  }

  lemma PicksFitTail(lines: nat, picks: seq<int>)
    requires PicksFit(lines, picks) && lines > 0
    ensures 0 <= picks[0] < lines && PicksFit(lines - 1, picks[1..])
  {
    assert NextBelow(lines, picks[0]);
    forall k | 0 <= k < lines - 1 ensures NextBelow(lines - 1 - k, picks[1..][k]) {
      assert NextBelow(lines - (k + 1), picks[k + 1]);
    }
  }

  /** The shedding loop: while the cart costs more than the balance and is
      not empty, the line at the next picked index is removed with
      `List.Remove`. */
  function Shed(cart: seq<Item>, balance: int, picks: seq<int>): (rest: seq<Item>)
    requires PicksFit(|cart|, picks)
    reads cart
    decreases |cart|
  {
    if Price(cart) > balance && |cart| > 0 then
      PicksFitTail(|cart|, picks);
      var smaller := RemoveFirst(cart, cart[picks[0]]);
      Shed(smaller, balance, picks[1..])
    else
      cart
  }

  /** The whole checkout: a client whose balance exceeds the cart's price is
      served as is; otherwise the cart is shed, and a client left with an
      empty cart leaves. */
  function Checkout(cart: seq<Item>, balance: int, picks: seq<int>): (r: (Outcome, seq<Item>))
    requires PicksFit(|cart|, picks)
    reads cart
  {
    if balance > Price(cart) then
      (Served, cart)
    else
      var rest := Shed(cart, balance, picks);
      (if rest == [] then Left else Served, rest)
  }

  /** Removing a line takes exactly that line's price off the total. */
  lemma PriceRemoveFirst(s: seq<Item>, x: Item)
    requires x in s
    ensures Price(RemoveFirst(s, x)) == Price(s) - LinePrice(x)
  {
    var i := IndexOf(s, x);
    assert s == s[..i] + ([x] + s[i + 1..]);
    PriceAppend(s[..i], [x] + s[i + 1..]);
    PriceAppend(s[..i], s[i + 1..]);
    assert ([x] + s[i + 1..])[1..] == s[i + 1..];
  }

  /** The shedding loop stops only when the cart is affordable or empty. */
  lemma {:induction false} ShedStops(cart: seq<Item>, balance: int, picks: seq<int>)
    requires PicksFit(|cart|, picks)
    ensures var rest := Shed(cart, balance, picks); Price(rest) <= balance || rest == []
    decreases |cart|
  {
    if Price(cart) > balance && |cart| > 0 {
      PicksFitTail(|cart|, picks);
      ShedStops(RemoveFirst(cart, cart[picks[0]]), balance, picks[1..]);
    }
  }

  /** With a balance that is not negative, what is left after shedding is
      affordable: an empty cart costs nothing. */
  lemma ShedIsAffordable(cart: seq<Item>, balance: int, picks: seq<int>)
    requires PicksFit(|cart|, picks) && 0 <= balance
    ensures Price(Shed(cart, balance, picks)) <= balance
  {
    ShedStops(cart, balance, picks);
  }

  /** Shedding only takes lines out and keeps the others in their order. */
  lemma {:induction false} ShedIsSubsequence(cart: seq<Item>, balance: int, picks: seq<int>)
    requires PicksFit(|cart|, picks)
    ensures IsSubsequence(Shed(cart, balance, picks), cart)
    decreases |cart|
  {
    if Price(cart) > balance && |cart| > 0 {
      PicksFitTail(|cart|, picks);
      var smaller := RemoveFirst(cart, cart[picks[0]]);
      ShedIsSubsequence(smaller, balance, picks[1..]);
      RemoveFirstIsSubsequence(cart, cart[picks[0]]);
      SubsequenceTransitive(Shed(smaller, balance, picks[1..]), smaller, cart);
    } else {
      SubsequenceReflexive(cart);
    }
  }

  /** Once the cart is affordable nothing more is taken out: shedding what
      was already shed changes nothing, whatever is picked. */
  lemma ShedIdempotent(cart: seq<Item>, balance: int, picks: seq<int>, more: seq<int>)
    requires PicksFit(|cart|, picks)
    requires PicksFit(|Shed(cart, balance, picks)|, more)
    ensures Shed(Shed(cart, balance, picks), balance, more) == Shed(cart, balance, picks)
  {
    ShedStops(cart, balance, picks);
  }

  /** One round of the loop: the line `Remove` finds for the picked index
      goes, and the loop carries on with the next draw. */
  lemma ShedStep(cart: seq<Item>, balance: int, picks: seq<int>)
    requires PicksFit(|cart|, picks)
    requires Price(cart) > balance && |cart| > 0
    ensures 0 <= picks[0] < |cart| && PicksFit(|cart| - 1, picks[1..])
    ensures Shed(cart, balance, picks) == Shed(RemoveFirst(cart, cart[picks[0]]), balance, picks[1..])
  {
    PicksFitTail(|cart|, picks);
  }

  /** `ShedStep` for the loop, which keeps its draws in one list and counts
      how many it has made. */
  lemma ShedStepAt(cart: seq<Item>, balance: int, picks: seq<int>, k: nat)
    requires k <= |picks| && PicksFit(|cart|, picks[k..])
    requires Price(cart) > balance && |cart| > 0
    ensures k < |picks| && 0 <= picks[k] < |cart| && PicksFit(|cart| - 1, picks[k + 1..])
    ensures Shed(cart, balance, picks[k..]) == Shed(RemoveFirst(cart, cart[picks[k]]), balance, picks[k + 1..])
  {
    ShedStep(cart, balance, picks[k..]);
    assert picks[k..][1..] == picks[k + 1..];
  }

  /** In a cart whose lines are distinct objects, one round of the loop
      removes exactly the line at the picked index. */
  lemma ShedRemovesPickedLine(cart: seq<Item>, balance: int, picks: seq<int>)
    requires PicksFit(|cart|, picks) && Distinct(cart)
    requires Price(cart) > balance && |cart| > 0
    ensures 0 <= picks[0] < |cart| && PicksFit(|cart| - 1, picks[1..])
    ensures Shed(cart, balance, picks)
         == Shed(cart[..picks[0]] + cart[picks[0] + 1..], balance, picks[1..])
  {
    ShedStep(cart, balance, picks);
    RemoveFirstAt(cart, picks[0]);
  }

  /** Every round removes one line, so the loop runs at most as many rounds
      as the cart has lines; the rounds it ran are the lines that are gone. */
  lemma {:induction false} ShedRounds(cart: seq<Item>, balance: int, picks: seq<int>)
    requires PicksFit(|cart|, picks)
    ensures |Shed(cart, balance, picks)| <= |cart|
    ensures multiset(Shed(cart, balance, picks)) <= multiset(cart)
    decreases |cart|
  {
    if Price(cart) > balance && |cart| > 0 {
      PicksFitTail(|cart|, picks);
      RemoveFirstCounts(cart, cart[picks[0]]);
      ShedRounds(RemoveFirst(cart, cart[picks[0]]), balance, picks[1..]);
    }
  }

  /** A client whose balance exceeds the price is served with the cart
      untouched. */
  lemma CheckoutServesAffordable(cart: seq<Item>, balance: int, picks: seq<int>)
    requires PicksFit(|cart|, picks) && balance > Price(cart)
    ensures Checkout(cart, balance, picks) == (Served, cart)
  {
  }

  /** A balance exactly equal to a positive price goes to the shedding path,
      but the loop's guard is false at once: the client is served with the
      whole cart. */
  lemma CheckoutAtBoundary(cart: seq<Item>, balance: int, picks: seq<int>)
    requires PicksFit(|cart|, picks) && balance == Price(cart) && balance > 0
    ensures Shed(cart, balance, picks) == cart
    ensures Checkout(cart, balance, picks) == (Served, cart)
  {
    assert cart != [];
  }

  /** After checkout the cart is one of the original's in-order
      sub-lists and costs no more than the balance. */
  lemma CheckoutResult(cart: seq<Item>, balance: int, picks: seq<int>)
    requires PicksFit(|cart|, picks) && 0 <= balance
    ensures IsSubsequence(Checkout(cart, balance, picks).1, cart)
    ensures Price(Checkout(cart, balance, picks).1) <= balance
  {
    ShedIsSubsequence(cart, balance, picks);
    ShedIsAffordable(cart, balance, picks);
    SubsequenceReflexive(cart);
  }

  /** With a positive balance (every client's is), the client leaves exactly
      when the cart ends empty although it was not empty to begin with; an
      empty cart costs 0 and is served at once. */
  lemma CheckoutLeavesIff(cart: seq<Item>, balance: int, picks: seq<int>)
    requires PicksFit(|cart|, picks) && balance > 0
    ensures Checkout(cart, balance, picks).0 == Left
        <==> Checkout(cart, balance, picks).1 == [] && cart != []
  {
  }

  /** A client: a balance drawn once when the client is made, and a cart. */
  class Client {
    const balance: int
    var cart: seq<Item>

    /** The range every balance is drawn from. */
    predicate Valid()
    {
      MinBalance <= balance < MaxBalance
    }

    /** The client keeps its own copy of the list of lines it is given: a
        sequence is a value, so later changes to the caller's list cannot
        reach it. */
    constructor (items: seq<Item>, balanceDraw: int)
      requires NextInRange(MinBalance, MaxBalance, balanceDraw)
      ensures Valid()
      ensures balance == balanceDraw && cart == items
    {
      balance := CreateBalance(balanceDraw);
      cart := items;
    }

    /** Adds up the line prices of the cart, first to last. */
    method GetCartPrice() returns (price: int)
      ensures price == Price(cart)
    {
      price := 0;
      for i := 0 to |cart|
        invariant price == Price(cart[..i])
      {
        PriceAppend(cart[..i], [cart[i]]);
        assert cart[..i + 1] == cart[..i] + [cart[i]];
        price := price + cart[i].amount * cart[i].product.price;
      }
      assert cart[..|cart|] == cart;
    }

    /** Serves the client if the balance exceeds the cart's price, and
        otherwise hands over to the shedding loop. */
    method PayOff(picks: seq<int>) returns (outcome: Outcome)
      requires Valid() && PicksFit(|cart|, picks)
      modifies this
      ensures (outcome, cart) == Checkout(old(cart), balance, picks)
    {
      var purchaseAmount := GetCartPrice();
      if balance > purchaseAmount {
        outcome := Served;
      } else {
        outcome := UnloadCart(picks);
      }
    }

    /** Takes out the line at each picked index while the cart costs more
        than the balance and is not empty; the client leaves if nothing is
        left. */
    method UnloadCart(picks: seq<int>) returns (outcome: Outcome)
      requires Valid() && PicksFit(|cart|, picks)
      modifies this
      ensures cart == Shed(old(cart), balance, picks)
      ensures Price(cart) <= balance
      ensures outcome == if cart == [] then Left else Served
    {
      var purchaseAmount := GetCartPrice();
      ghost var shed := Shed(cart, balance, picks);
      var k := 0;  // how many draws the loop has made
      while purchaseAmount > balance && |cart| > 0
        invariant 0 <= k <= |old(cart)| && |cart| == |old(cart)| - k
        invariant PicksFit(|cart|, picks[k..])
        invariant purchaseAmount == Price(cart)
        invariant Shed(cart, balance, picks[k..]) == shed
        decreases |cart|
      {
        ShedStepAt(cart, balance, picks, k);
        var productIndex := picks[k];
        cart := RemoveFirst(cart, cart[productIndex]);
        purchaseAmount := GetCartPrice();
        k := k + 1;
      }
      ShedStops(old(cart), balance, picks);
      if |cart| == 0 {
        outcome := Left;
      } else {
        outcome := Served;
      }
    }
  }
}
