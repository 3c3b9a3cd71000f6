/** The shop: its stock, the queue of clients waiting at the till, and the
    way each client's cart is drawn from the stock. */
module Store {
  import opened Randomness
  import opened Sequences
  import opened Goods
  import opened Clients

  /** The fixed catalogue, in the order its lines are generated. */
  const Titles: seq<string> := ["Помидор", "Огурец", "Яблоко", "Шоколад", "Вода", "Lipton"]
  const MinAmount := 2
  const MaxAmount := 10
  const MinPrice := 5
  const MaxPrice := 25
  const MinClients := 1
  const MaxClients := 4

  /** The two draws of one round of cart generation: `Next(stock.Count)` for
      the stock line, and the `Next(1, amount)` that `GetAmount` makes for
      the quantity (not made, and so not constrained, when the line is
      empty). */
  datatype Pick = Pick(index: int, draw: int)

  /** Everything drawn to make one client: the number of rounds, the rounds
      themselves, and the client's balance. */
  datatype CartDraws = CartDraws(bought: int, picks: seq<Pick>, balance: int)

  /** A quantity moved from stock line `line` into a new cart line. */
  datatype Draw = Draw(line: nat, amount: int)

  /** The stock quantities after some rounds, and the quantities those rounds
      put into the cart, in order. */
  datatype Tally = Tally(remaining: seq<int>, draws: seq<Draw>)

  /** What `GetAmount` returns for a line holding `available` units. */
  function AmountDrawn(available: int, draw: int): (amount: int)
  {
    if available > 0 then draw else 0
  }

  /** One round of cart generation on a tally: a round that draws a quantity
      other than 0 takes it off its line and adds a cart line; a round that
      draws 0, or names no line, changes nothing. */
  function Round(t: Tally, p: Pick): (next: Tally)
  {
    if 0 <= p.index < |t.remaining| then
      var amount := AmountDrawn(t.remaining[p.index], p.draw);
      if amount != 0 then
        Tally(t.remaining[p.index := t.remaining[p.index] - amount], t.draws + [Draw(p.index, amount)])
      else
        t
    else
      t
  }

  /** Replays rounds of cart generation on the stock quantities, one round
      after the other. */
  function Drawing(amounts: seq<int>, picks: seq<Pick>): (t: Tally)
    ensures |t.remaining| == |amounts|
    decreases |picks|
  {
    if picks == [] then Tally(amounts, [])
    else Round(Drawing(amounts, picks[..|picks| - 1]), picks[|picks| - 1])
  }

  /** A round's draws are what `Random` can return given the quantities at
      that moment: `Next(stock.Count)` for the line, and `Next(1, amount)` for
      the quantity when the line is not empty. */
  predicate PickFits(amounts: seq<int>, p: Pick)
  {
    NextBelow(|amounts|, p.index) && 0 <= p.index < |amounts| &&
    (amounts[p.index] > 0 ==> NextInRange(1, amounts[p.index], p.draw))
  }

  /** Every round's draws fit the quantities the earlier rounds left. */
  predicate DrawsValid(amounts: seq<int>, picks: seq<Pick>)
    decreases |picks|
  {
    picks == [] ||
    (DrawsValid(amounts, picks[..|picks| - 1]) &&
     PickFits(Drawing(amounts, picks[..|picks| - 1]).remaining, picks[|picks| - 1]))
  }

  /** The draws for one client: `Next(1, stock.Count)` rounds, each of them
      valid, and a balance `Next(10, 120)`. */
  predicate CartDrawsValid(amounts: seq<int>, cd: CartDraws)
  {
    NextInRange(1, |amounts|, cd.bought) && |cd.picks| == cd.bought &&
    DrawsValid(amounts, cd.picks) && NextInRange(MinBalance, MaxBalance, cd.balance)
  }

  /** The stock quantities after the carts of the given clients are drawn,
      one client after the other. */
  function AfterClients(amounts: seq<int>, cds: seq<CartDraws>): (r: seq<int>)
    ensures |r| == |amounts|
    decreases |cds|
  {
    if cds == [] then amounts
    else Drawing(AfterClients(amounts, cds[..|cds| - 1]), cds[|cds| - 1].picks).remaining
  }

  /** The quantities client k's cart takes, from the stock the clients
      before them left. */
  function ClientDraws(amounts: seq<int>, cds: seq<CartDraws>, k: nat): (draws: seq<Draw>)
    requires k < |cds|
  {
    Drawing(AfterClients(amounts, cds[..k]), cds[k].picks).draws
  }

  /** Every quantity the carts of the given clients took, client after
      client. */
  function QueueDraws(amounts: seq<int>, cds: seq<CartDraws>): (draws: seq<Draw>)
    decreases |cds|
  {
    if cds == [] then []
    else QueueDraws(amounts, cds[..|cds| - 1]) + ClientDraws(amounts, cds, |cds| - 1)
  }

  /** Each client's draws fit the stock the clients before them left. */
  predicate QueueDrawsValid(amounts: seq<int>, cds: seq<CartDraws>)
    decreases |cds|
  {
    cds == [] ||
    (QueueDrawsValid(amounts, cds[..|cds| - 1]) &&
     CartDrawsValid(AfterClients(amounts, cds[..|cds| - 1]), cds[|cds| - 1]))
  }

  /** The total quantity the given draws took from stock line `line`. */
  function DrawnFrom(draws: seq<Draw>, line: nat): (total: int)
    decreases |draws|
  {
    if draws == [] then 0
    else
      var last := draws[|draws| - 1];
      DrawnFrom(draws[..|draws| - 1], line) + (if last.line == line then last.amount else 0)
  }

  lemma {:induction false} DrawnFromAppend(a: seq<Draw>, b: seq<Draw>, line: nat)
    ensures DrawnFrom(a + b, line) == DrawnFrom(a, line) + DrawnFrom(b, line)
    decreases |b|
  {
    if b == [] {
      assert a + b == a;
    } else {
      assert (a + b)[..|a + b| - 1] == a + b[..|b| - 1];
      DrawnFromAppend(a, b[..|b| - 1], line);
    }
  }

  /** The rounds up to i, then round i, are the rounds up to i + 1. */
  lemma DrawingStep(amounts: seq<int>, picks: seq<Pick>, i: nat)
    requires i < |picks|
    ensures Drawing(amounts, picks[..i + 1]) == Round(Drawing(amounts, picks[..i]), picks[i])
  {
    assert picks[..i + 1][..i] == picks[..i];
  }

  /** The clients up to i, then client i, are the clients up to i + 1. */
  lemma AfterClientsStep(amounts: seq<int>, cds: seq<CartDraws>, i: nat)
    requires i < |cds|
    ensures AfterClients(amounts, cds[..i + 1]) == Drawing(AfterClients(amounts, cds[..i]), cds[i].picks).remaining
  {
    assert cds[..i + 1][..i] == cds[..i];
  }

  /** Round i of valid draws fits the quantities the rounds before it left. */
  lemma {:induction false} DrawsValidAt(amounts: seq<int>, picks: seq<Pick>, i: nat)
    requires DrawsValid(amounts, picks) && i < |picks|
    ensures PickFits(Drawing(amounts, picks[..i]).remaining, picks[i])
    decreases |picks|
  {
    var n := |picks| - 1;
    if i < n {
      DrawsValidAt(amounts, picks[..n], i);
      assert picks[..n][..i] == picks[..i];
    }
  }

  /** Client c of a valid queue has valid draws for the stock the clients
      before them left. */
  lemma {:induction false} QueueDrawsValidAt(amounts: seq<int>, cds: seq<CartDraws>, c: nat)
    requires QueueDrawsValid(amounts, cds) && c < |cds|
    ensures CartDrawsValid(AfterClients(amounts, cds[..c]), cds[c])
    decreases |cds|
  {
    var n := |cds| - 1;
    if c < n {
      QueueDrawsValidAt(amounts, cds[..n], c);
      assert cds[..n][..c] == cds[..c];
    }
  }

  /** Conservation: per stock line, what is left plus what was drawn is what
      there was. */
  lemma {:induction false} DrawingConserves(amounts: seq<int>, picks: seq<Pick>)
    ensures forall j :: 0 <= j < |amounts| ==>
      Drawing(amounts, picks).remaining[j] + DrawnFrom(Drawing(amounts, picks).draws, j) == amounts[j]
    decreases |picks|
  {
    if picks != [] {
      var before := Drawing(amounts, picks[..|picks| - 1]);
      DrawingConserves(amounts, picks[..|picks| - 1]);
      var t := Drawing(amounts, picks);
      if t != before {
        var p := picks[|picks| - 1];
        var amount := AmountDrawn(before.remaining[p.index], p.draw);
        assert t.draws == before.draws + [Draw(p.index, amount)];
        assert t.draws[..|t.draws| - 1] == before.draws;
      }
    }
  }

  /** Conservation over a whole queue: per stock line, what the clients left
      plus what their carts took is what there was. */
  lemma {:induction false} AfterClientsConserves(amounts: seq<int>, cds: seq<CartDraws>)
    ensures forall j :: 0 <= j < |amounts| ==>
      AfterClients(amounts, cds)[j] + DrawnFrom(QueueDraws(amounts, cds), j) == amounts[j]
    decreases |cds|
  {
    if cds != [] {
      var n := |cds| - 1;
      var before := AfterClients(amounts, cds[..n]);
      AfterClientsConserves(amounts, cds[..n]);
      DrawingConserves(before, cds[n].picks);
      forall j | 0 <= j < |amounts|
        ensures AfterClients(amounts, cds)[j] + DrawnFrom(QueueDraws(amounts, cds), j) == amounts[j]
      {
        DrawnFromAppend(QueueDraws(amounts, cds[..n]), ClientDraws(amounts, cds, n), j);
      }
    }
  }

  /** With valid draws every cart line holds at least one unit of a real
      stock line, there are no more cart lines than rounds, and no stock
      quantity goes negative or grows. */
  lemma {:induction false} DrawingBounds(amounts: seq<int>, picks: seq<Pick>)
    requires DrawsValid(amounts, picks)
    requires forall j :: 0 <= j < |amounts| ==> 0 <= amounts[j]
    ensures var t := Drawing(amounts, picks);
      |t.draws| <= |picks| &&
      (forall d :: d in t.draws ==> d.line < |amounts| && 1 <= d.amount) &&
      (forall j :: 0 <= j < |amounts| ==> 0 <= t.remaining[j] <= amounts[j])
    decreases |picks|
  {
    if picks != [] {
      var n := |picks| - 1;
      DrawingBounds(amounts, picks[..n]);
      var before := Drawing(amounts, picks[..n]);
      var t := Drawing(amounts, picks);
      if t != before {
        var p := picks[n];
        assert t.draws == before.draws + [Draw(p.index, AmountDrawn(before.remaining[p.index], p.draw))];
      }
    }
  }

  /** No stock line holds a negative quantity or more than was generated. */
  predicate Stocked(amounts: seq<int>, initial: seq<int>)
  {
    |amounts| == |initial| && forall j :: 0 <= j < |amounts| ==> 0 <= amounts[j] <= initial[j]
  }

  /** Valid rounds keep the stock within what was generated. */
  lemma DrawingKeepsStocked(amounts: seq<int>, picks: seq<Pick>, initial: seq<int>)
    requires Stocked(amounts, initial) && DrawsValid(amounts, picks)
    ensures Stocked(Drawing(amounts, picks).remaining, initial)
  {
    DrawingBounds(amounts, picks);
  }

  /** The stock lines hold the given quantities. */
  ghost predicate Holds(stock: seq<Item>, amounts: seq<int>)
    reads stock
  {
    |stock| == |amounts| && forall j :: 0 <= j < |stock| ==> stock[j].amount == amounts[j]
  }

  /** Lines holding the given quantities have exactly those quantities. */
  lemma HoldsAmounts(stock: seq<Item>, amounts: seq<int>)
    requires Holds(stock, amounts)
    ensures Amounts(stock) == amounts
  {
  }

  /** The cart lines are lines one per draw, each with the product of the
      stock line it was drawn from and the quantity drawn. */
  ghost predicate CartFrom(cart: seq<Item>, stock: seq<Item>, draws: seq<Draw>)
    reads cart
  {
    |cart| == |draws| &&
    forall k :: 0 <= k < |cart| ==>
      draws[k].line < |stock| &&
      cart[k].product == stock[draws[k].line].product &&
      cart[k].amount == draws[k].amount
  }

  /** A cart drawn with valid draws from a stock with no negative quantity
      has no more lines than rounds, and every line holds at least one unit
      of the product of a stock line. */
  lemma DrawnCartLines(cart: seq<Item>, stock: seq<Item>, amounts: seq<int>, picks: seq<Pick>)
    requires DrawsValid(amounts, picks) && forall j :: 0 <= j < |amounts| ==> 0 <= amounts[j]
    requires CartFrom(cart, stock, Drawing(amounts, picks).draws)
    ensures |cart| <= |picks|
    ensures forall k :: 0 <= k < |cart| ==>
      1 <= cart[k].amount && exists j :: 0 <= j < |stock| && cart[k].product == stock[j].product
  {
    DrawingBounds(amounts, picks);
    var draws := Drawing(amounts, picks).draws;
    forall k | 0 <= k < |cart|
      ensures 1 <= cart[k].amount && exists j :: 0 <= j < |stock| && cart[k].product == stock[j].product
    {
      assert draws[k] in draws;
      assert cart[k].product == stock[draws[k].line].product;
    }
  }

  /** Lines drawn one after the other correspond to their draws one after
      the other. */
  lemma CartFromConcat(a: seq<Item>, b: seq<Item>, stock: seq<Item>, da: seq<Draw>, db: seq<Draw>)
    requires CartFrom(a, stock, da) && CartFrom(b, stock, db)
    ensures CartFrom(a + b, stock, da + db)
  {
  }

  /** No cart line is a stock line, so taking stock off a line never changes
      a cart. */
  predicate Apart(cart: seq<Item>, stock: seq<Item>)
  {
    forall k :: 0 <= k < |cart| ==> cart[k] !in stock
  }

  /** A queued client: their balance, and a cart of distinct lines, none of
      them a stock line, drawn by the given draws. */
  ghost predicate Queued(c: Client, stock: seq<Item>, balance: int, draws: seq<Draw>)
    reads c, c.cart
  {
    c.balance == balance && Distinct(c.cart) && Apart(c.cart, stock) && CartFrom(c.cart, stock, draws)
  }

  /** What serving the next client reports. */
  datatype ServeReport = QueueEmpty | Checked(outcome: Outcome)

  class Shop {
    var stock: seq<Item>
    /** The queue of clients, front first. */
    var clients: seq<Client>
    /** The stock quantities as generated. */
    ghost var initial: seq<int>

    /** Stock lines are distinct objects holding no negative quantity and no
        more than was generated; the queued clients are distinct objects,
        each with a balance in range. */
    ghost predicate Valid()
      reads this, stock
    {
      Distinct(stock) && Stocked(Amounts(stock), initial) &&
      Distinct(clients) && (forall c :: c in clients ==> c.Valid())
    }

    /** Generates the stock, then the queue of clients with their carts. */
    constructor (amounts: seq<int>, prices: seq<int>, clientCount: int, cds: seq<CartDraws>)
      requires |amounts| == |Titles| && |prices| == |Titles|
      requires forall i :: 0 <= i < |Titles| ==>
        NextInRange(MinAmount, MaxAmount, amounts[i]) && NextInRange(MinPrice, MaxPrice, prices[i])
      requires NextInRange(MinClients, MaxClients, clientCount) && |cds| == clientCount
      requires QueueDrawsValid(amounts, cds)
      ensures Valid()
      ensures |stock| == |Titles| && initial == amounts
      ensures forall i :: 0 <= i < |Titles| ==> stock[i].product == Product(prices[i], Titles[i])
      ensures Amounts(stock) == AfterClients(amounts, cds)
      ensures |clients| == clientCount
      ensures forall k {:trigger clients[k]} :: 0 <= k < clientCount ==>
        fresh(clients[k]) && Queued(clients[k], stock, cds[k].balance, ClientDraws(amounts, cds, k))
    {
      stock := [];
      clients := [];
      initial := [];
      new;
      GenerateStock(amounts, prices);
      CreateQueue(clientCount, cds);
    }

    /** Fills the new shop's empty stock with one line per catalogue title,
        in catalogue order, each with a drawn quantity and a drawn price. */
    method GenerateStock(amounts: seq<int>, prices: seq<int>)
      requires Valid() && stock == [] && initial == []
      requires |amounts| == |Titles| && |prices| == |Titles|
      requires forall i :: 0 <= i < |Titles| ==>
        NextInRange(MinAmount, MaxAmount, amounts[i]) && NextInRange(MinPrice, MaxPrice, prices[i])
      modifies this
      ensures Valid()
      ensures clients == old(clients)
      ensures |stock| == |Titles| && Amounts(stock) == amounts && initial == amounts
      ensures forall j :: 0 <= j < |stock| ==>
        fresh(stock[j]) && stock[j].product == Product(prices[j], Titles[j])
      ensures forall j :: 0 <= j < |stock| ==>
        MinAmount <= stock[j].amount < MaxAmount && MinPrice <= stock[j].product.price < MaxPrice
    {
      for i := 0 to |Titles|
        invariant clients == old(clients)
        invariant |stock| == i && Holds(stock, amounts[..i]) && initial == amounts[..i]
        invariant Distinct(stock)
        invariant forall j :: 0 <= j < i ==>
          fresh(stock[j]) && stock[j].product == Product(prices[j], Titles[j])
      {
        var amount := amounts[i];
        var price := prices[i];
        var item := new Item(Product(price, Titles[i]), amount);
        stock := stock + [item];
        initial := initial + [amount];
        assert amounts[..i + 1] == amounts[..i] + [amount];
      }
      assert amounts[..|Titles|] == amounts;
      HoldsAmounts(stock, amounts);
    }

    /** Makes `clientCount` new, distinct clients, one cart after the other,
        and queues them in the order they were made. Its one caller is the
        constructor, on the new shop's empty queue. */
    method CreateQueue(clientCount: int, cds: seq<CartDraws>)
      requires Valid()
      requires NextInRange(MinClients, MaxClients, clientCount) && |cds| == clientCount
      requires QueueDrawsValid(Amounts(stock), cds) && clients == []
      modifies this, stock
      ensures Valid()
      ensures stock == old(stock) && initial == old(initial)
      ensures Amounts(stock) == AfterClients(old(Amounts(stock)), cds)
      ensures |clients| == clientCount
      ensures forall j {:trigger clients[j]} :: 0 <= j < clientCount ==>
        fresh(clients[j]) &&
        Queued(clients[j], stock, cds[j].balance, ClientDraws(old(Amounts(stock)), cds, j))
    {
      var queue := LineUp(Amounts(stock), cds);
      clients := queue;
    }

    /** The loop of `CreateQueue`: one new client after the other, each with
        a cart drawn from what the clients before them left. */
    method LineUp(ghost start: seq<int>, cds: seq<CartDraws>) returns (queue: seq<Client>)
      requires Valid() && Amounts(stock) == start && QueueDrawsValid(start, cds)
      modifies stock
      ensures Valid()
      ensures Amounts(stock) == AfterClients(start, cds)
      ensures |queue| == |cds| && Distinct(queue)
      ensures forall j {:trigger queue[j]} :: 0 <= j < |cds| ==>
        fresh(queue[j]) && queue[j].Valid() &&
        Queued(queue[j], stock, cds[j].balance, ClientDraws(start, cds, j))
    {
      queue := [];
      for i := 0 to |cds|
        invariant Valid()
        invariant Amounts(stock) == AfterClients(start, cds[..i])
        invariant |queue| == i && Distinct(queue)
        invariant forall j {:trigger queue[j]} :: 0 <= j < i ==>
          fresh(queue[j]) && queue[j].Valid() &&
          Queued(queue[j], stock, cds[j].balance, ClientDraws(start, cds, j))
      {
        ghost var before := queue;
        queue := NextClient(start, cds, queue);
        DistinctConcat(before, [queue[i]]);
      }
      assert cds[..|cds|] == cds;
    }

    /** One round of `LineUp`: a new client, whose cart is drawn from what
        the clients before them left, joins the end of the queue being built;
        the clients already in it keep their carts. */
    method NextClient(ghost start: seq<int>, cds: seq<CartDraws>, queue: seq<Client>) returns (longer: seq<Client>)
      requires Valid() && |queue| < |cds| && QueueDrawsValid(start, cds)
      requires Amounts(stock) == AfterClients(start, cds[..|queue|])
      requires forall j {:trigger queue[j]} :: 0 <= j < |queue| ==>
        queue[j].Valid() && Queued(queue[j], stock, cds[j].balance, ClientDraws(start, cds, j))
      modifies stock
      ensures Valid()
      ensures Amounts(stock) == AfterClients(start, cds[..|queue| + 1])
      ensures |longer| == |queue| + 1 && longer == queue + [longer[|queue|]] && fresh(longer[|queue|])
      ensures forall j {:trigger longer[j]} :: 0 <= j < |queue| + 1 ==>
        longer[j].Valid() && Queued(longer[j], stock, cds[j].balance, ClientDraws(start, cds, j))
    {
      var i := |queue|;
      QueueDrawsValidAt(start, cds, i);
      AfterClientsStep(start, cds, i);
      var client := CreateCart(cds[i]);
      longer := queue + [client];
    }

    /** Draws one client's cart from the stock (the rounds of `FillCart`);
        the client gets the cart and a drawn balance. */
    method CreateCart(cd: CartDraws) returns (client: Client)
      requires Valid()
      requires CartDrawsValid(Amounts(stock), cd)
      modifies stock
      ensures Valid()
      ensures Amounts(stock) == Drawing(old(Amounts(stock)), cd.picks).remaining
      ensures fresh(client) && client.Valid()
      ensures Queued(client, stock, cd.balance, Drawing(old(Amounts(stock)), cd.picks).draws)
      ensures |client.cart| <= cd.bought
      ensures forall t :: 0 <= t < |client.cart| ==> fresh(client.cart[t])
    {
      ghost var start := Amounts(stock);
      var cart := FillCart(cd.bought, cd.picks);
      DrawingKeepsStocked(start, cd.picks, initial);
      DrawingBounds(start, cd.picks);
      client := new Client(cart, cd.balance);
    }

    /** The `bought` rounds of `CreateCart`, each taking a drawn quantity off
        a drawn stock line into a new cart line. */
    method FillCart(bought: int, picks: seq<Pick>) returns (cart: seq<Item>)
      requires Distinct(stock)
      requires |picks| == bought && DrawsValid(Amounts(stock), picks)
      modifies stock
      ensures Amounts(stock) == Drawing(old(Amounts(stock)), picks).remaining
      ensures CartFrom(cart, stock, Drawing(old(Amounts(stock)), picks).draws)
      ensures Distinct(cart) && Apart(cart, stock)
      ensures forall t :: 0 <= t < |cart| ==> fresh(cart[t])
    {
      ghost var start := Amounts(stock);
      ghost var tally := Tally(start, []);
      cart := [];
      for i := 0 to bought
        invariant tally == Drawing(start, picks[..i])
        invariant Holds(stock, tally.remaining)
        invariant CartFrom(cart, stock, tally.draws)
        invariant Distinct(cart) && Apart(cart, stock)
        invariant forall t :: 0 <= t < |cart| ==> fresh(cart[t])
      {
        DrawsValidAt(start, picks, i);
        DrawingStep(start, picks, i);
        cart := TakeRound(picks[i], tally, cart);
        tally := Round(tally, picks[i]);
      }
      assert picks[..bought] == picks;
      assert Amounts(stock) == tally.remaining;
    }

    /** One round of `CreateCart`: the stock line `pick.index` is drawn, then
        a quantity from it; a quantity other than 0 is taken off that line
        and added to the cart as a new line. */
    method TakeRound(pick: Pick, ghost tally: Tally, cart: seq<Item>) returns (newCart: seq<Item>)
      requires Distinct(stock) && Holds(stock, tally.remaining) && PickFits(tally.remaining, pick)
      requires CartFrom(cart, stock, tally.draws) && Distinct(cart) && Apart(cart, stock)
      modifies stock[pick.index]
      ensures Holds(stock, Round(tally, pick).remaining)
      ensures CartFrom(newCart, stock, Round(tally, pick).draws)
      ensures Distinct(newCart) && Apart(newCart, stock)
      ensures |cart| <= |newCart| && newCart[..|cart|] == cart
      ensures forall t :: |cart| <= t < |newCart| ==> fresh(newCart[t])
    {
      var item := stock[pick.index];
      var amount := GetAmount(item, pick.draw);
      if amount != 0 {
        assert item !in cart;
        item.DecreaseAmount(amount);
        var line := new Item(item.product, amount);
        newCart := cart + [line];
        CartFromConcat(cart, [line], stock, tally.draws, [Draw(pick.index, amount)]);
        DistinctConcat(cart, [line]);
      } else {
        newCart := cart;
      }
    }

    /** The quantity one round takes from a line: nothing from an empty line,
        otherwise the draw `Next(1, item.Amount)`. The source repeats that
        draw while it exceeds the line's quantity, which its range never
        allows, so the first draw is the one returned. */
    method GetAmount(item: Item, draw: int) returns (amount: int)
      requires item.amount > 0 ==> NextInRange(1, item.amount, draw)
      ensures amount == AmountDrawn(item.amount, draw)
      ensures amount == 0 <==> item.amount <= 0
      ensures item.amount > 0 ==> 1 <= amount <= item.amount
      ensures 0 < amount == item.amount ==> item.amount == 1
    {
      if item.amount > 0 {
        amount := draw;
        NextInRangeBounds(1, item.amount, draw);
        assert !(amount > item.amount);
      } else {
        amount := 0;
      }
    }

    /** Takes the client at the front of the queue and checks them out; an
        empty queue is reported and nothing changes. */
    method ServeClient(picks: seq<int>) returns (report: ServeReport)
      requires Valid()
      requires clients != [] ==> PicksFit(|clients[0].cart|, picks)
      modifies this, if clients == [] then {} else {clients[0]}
      ensures Valid()
      ensures stock == old(stock) && initial == old(initial)
      ensures old(clients) == [] ==> report == QueueEmpty && unchanged(this)
      ensures old(clients) != [] ==>
        clients == old(clients)[1..] &&
        report.Checked? &&
        (report.outcome, old(clients[0]).cart)
          == Checkout(old(clients[0].cart), old(clients[0]).balance, picks)
      ensures old(clients) != [] ==>
        forall k {:trigger clients[k]} :: 0 <= k < |clients| ==> clients[k].cart == old(clients[k + 1].cart)
    {
      if |clients| > 0 {
        var client := clients[0];
        clients := clients[1..];
        var outcome := client.PayOff(picks);
        report := Checked(outcome);
      } else {
        report := QueueEmpty;
      }
    }
  }
}
