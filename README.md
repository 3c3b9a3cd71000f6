# Supermarket queue simulation, modelled in Dafny

This project models the core of `NewSupermarket/Program.cs`, a small console
simulation of a supermarket.

When the shop opens, it generates its stock. There is one line per product in a
fixed six-title catalogue, each with a random quantity and a random price.

Then 1 to 3 clients come in. Each client fills a cart by drawing quantities from
random stock lines, and each draw takes the quantity off that stock line. Each
client is given a random balance and joins the queue.

Serving the client at the front of the queue works like this:
- The till adds up the cart.
- A client whose balance exceeds the total pays and leaves.
- Otherwise the client puts back whole cart lines, chosen at random, until the
  cart is affordable or empty.
- A client left with an empty cart goes away without buying anything.

The model keeps the program's own shape:
- `Item`, `Client` and `Shop` are classes whose methods update their fields in
  place.
- `Product` is an immutable datatype.
- Every loop of the program is a `while` or `for` loop with its invariants,
  except the `do … while` in `GetAmount`. It is modelled as its single draw,
  because its repeat condition can never hold (see "## Left out").

Every loop is proved against a pure specification function:
- `Price` specifies the cart total.
- `Shed` and `Checkout` specify the checkout.
- `Drawing` and `AfterClients` specify how carts are drawn from the stock.

Each function comes with lemmas stating what the program promises: the cart
total, the order kept when lines are put back, termination, the boundary cases,
and conservation of stock.

Every `Random.Next` call of the program is an explicit parameter. Its allowed
values follow .NET's `System.Random` (`randomness.dfy`):
- `Next(n)` returns a value in `[0, n)`, or 0 when n is 0.
- `Next(a, b)` returns a value in `[a, b)`, or a when a equals b.

Some draws depend on the state at the moment they are made, and each is checked
against the simulated state:
- `DrawsValid` and `QueueDrawsValid` check the stock line and the quantity drawn
  for each cart.
- `PicksFit` checks the `Next(_cart.Count)` draws that choose which line is put
  back at checkout.

With the draws fixed, the simulation is deterministic, and the model states its
whole behaviour.

Files:
- `randomness.dfy`: what a draw may return.
- `sequences.dfy`: `List<T>.Remove` and order-keeping sub-lists.
- `goods.dfy`: `Product`, `Item`, and the price of a list of lines.
- `clients.dfy`: `Client`, and the checkout specification.
- `store.dfy`: `Shop`, the cart-drawing specification, and conservation.

Where a client's balance equals the cart's price exactly, the code does not serve
the client at once, because the test is a strict `>`. The client goes to the
shedding loop, but that loop's guard is false from the start, so the client is
served with the whole cart. They are not sent away. The model follows the code
(`CheckoutAtBoundary`).

## Model

| member | source | states |
|---|---|---|
| Randomness.NextInRangeBounds | NewSupermarket/Program.cs:240-244 | a `Next(a, b)` draw lies in [a, b] and reaches b only when a equals b; `GetAmount` uses it to show that its repeat condition never holds |
| Sequences.RemoveFirst | NewSupermarket/Program.cs:102 | `List.Remove` on an element the list holds takes out exactly one element |
| Sequences.RemoveFirstCounts | NewSupermarket/Program.cs:102 | `Remove(x)` takes out one occurrence of x and nothing else |
| Sequences.RemoveFirstIsSubsequence | NewSupermarket/Program.cs:102 | `Remove` keeps the other elements in their order |
| Sequences.RemoveFirstAt | NewSupermarket/Program.cs:102 | on a list of distinct objects, `Remove(cart[i])` is `RemoveAt(i)` |
| Sequences.RemoveFirstKeepsDistinct | NewSupermarket/Program.cs:102 | removing a line from a cart of distinct objects leaves a cart of distinct objects |
| Goods.Item.constructor | NewSupermarket/Program.cs:285-289 | a new line holds the given product and quantity |
| Goods.Item.DecreaseAmount | NewSupermarket/Program.cs:299-302 | the quantity drops by exactly the sold amount and, with the caller's guarantee, stays non-negative |
| Goods.Item.SetAmount | NewSupermarket/Program.cs:304-307 | the quantity becomes the given value |
| Goods.PriceAppend | NewSupermarket/Program.cs:121-124 | the cart total of two lists put together is the sum of their totals |
| Goods.PriceNonNegative | NewSupermarket/Program.cs:121-124 | lines with non-negative quantities and prices have a non-negative total |
| Clients.CreateBalance | NewSupermarket/Program.cs:129-135 | every balance lies in [10, 119] |
| Clients.Client.constructor | NewSupermarket/Program.cs:59-63 | the client has the drawn balance and its own copy of the given list of lines, which later changes to the caller's list cannot reach |
| Clients.Client.GetCartPrice | NewSupermarket/Program.cs:117-127 | returns the sum of quantity times unit price over the cart lines (0 for an empty cart) and changes nothing |
| Clients.Client.PayOff | NewSupermarket/Program.cs:67-80 | the outcome and the new cart are exactly `Checkout` of the old cart: served untouched when the balance exceeds the total, shed otherwise |
| Clients.Client.UnloadCart | NewSupermarket/Program.cs:93-115 | the loop leaves exactly `Shed` of the old cart, whose total is at most the balance, and the client leaves iff the cart ended empty |
| Clients.PriceRemoveFirst | NewSupermarket/Program.cs:102-104 | putting a line back takes exactly that line's price off the total |
| Clients.ShedRemovesPickedLine | NewSupermarket/Program.cs:99-102 | in a cart of distinct lines, a round removes exactly the line at the drawn index |
| Clients.ShedStops | NewSupermarket/Program.cs:97 | the loop stops only when the cart is affordable or empty |
| Clients.ShedIsAffordable | NewSupermarket/Program.cs:97-105 | after the loop the cart's total is at most the balance |
| Clients.ShedIsSubsequence | NewSupermarket/Program.cs:97-105 | the loop only removes lines and keeps the rest in their original order |
| Clients.ShedIdempotent | NewSupermarket/Program.cs:97-105 | once the cart is affordable no more lines are removed, whatever is drawn |
| Clients.ShedRounds | NewSupermarket/Program.cs:97-105 | the loop keeps no more lines than it started with, and only lines of the original cart |
| Clients.CheckoutServesAffordable | NewSupermarket/Program.cs:72-75 | a balance above the total serves the client with the cart untouched |
| Clients.CheckoutAtBoundary | NewSupermarket/Program.cs:72-78 | a balance equal to a positive total enters the shedding branch, removes nothing, and the client is served with the whole cart |
| Clients.CheckoutResult | NewSupermarket/Program.cs:67-115 | after checkout the cart is an in-order sub-list of the original and costs at most the balance |
| Clients.CheckoutLeavesIff | NewSupermarket/Program.cs:107-114 | the client leaves iff the cart ends empty although it was not empty to begin with |
| Store.Drawing | NewSupermarket/Program.cs:214-227 | replaying rounds of cart drawing never changes the number of stock lines |
| Store.AfterClients | NewSupermarket/Program.cs:199-203 | drawing the carts of several clients never changes the number of stock lines |
| Store.DrawingConserves | NewSupermarket/Program.cs:214-227 | per stock line, the remaining quantity plus everything one cart drew equals the quantity before |
| Store.AfterClientsConserves | NewSupermarket/Program.cs:199-227 | per stock line, the remaining quantity plus everything all queued carts drew equals the generated quantity |
| Store.DrawingBounds | NewSupermarket/Program.cs:214-227 | with valid draws, a cart has no more lines than rounds, every cart line names a real stock line and holds at least 1 unit, and no quantity goes negative or grows |
| Store.DrawingKeepsStocked | NewSupermarket/Program.cs:214-227 | drawing a cart keeps every stock quantity between 0 and its generated value |
| Store.DrawnCartLines | NewSupermarket/Program.cs:221-226 | every line of a drawn cart holds at least one unit of a stock line's product, and there are no more lines than rounds |
| Store.Shop.constructor | NewSupermarket/Program.cs:144-151 | the new shop has the 6 generated lines with the drawn products, the stock left by the drawn carts, and a queue of the drawn number of new, distinct clients, each with the drawn balance and a cart drawn from what the earlier clients left |
| Store.Shop.GenerateStock | NewSupermarket/Program.cs:254-268 | creates exactly 6 new lines in catalogue order, each with the drawn quantity in [2, 9] and the drawn price in [5, 24] |
| Store.Shop.CreateQueue | NewSupermarket/Program.cs:193-204 | makes the drawn 1 to 3 new, distinct clients in order, each with a cart drawn from the stock the clients before them left; the final stock is what all carts left |
| Store.Shop.LineUp | NewSupermarket/Program.cs:199-203 | the queue loop makes one new client per set of draws, all distinct, in order, each with a cart drawn from the stock the clients before them left; the final stock is what all carts left |
| Store.Shop.NextClient | NewSupermarket/Program.cs:199-203 | one round of the queue loop: a new client, whose cart is drawn from what the earlier clients left, joins the end of the queue; the earlier clients and their carts do not change |
| Store.Shop.CreateCart | NewSupermarket/Program.cs:206-230 | the stock ends as `Drawing` of the old stock, and the new client's cart is one new line per quantity drawn, with the product of its stock line, and no more lines than rounds |
| Store.Shop.FillCart | NewSupermarket/Program.cs:214-227 | the cart-filling loop leaves exactly the quantities of `Drawing`, and a cart of new, distinct lines matching its draws |
| Store.Shop.TakeRound | NewSupermarket/Program.cs:216-226 | one round takes the drawn quantity off the drawn stock line and appends a new line with it, or changes nothing when the quantity is 0 |
| Store.Shop.GetAmount | NewSupermarket/Program.cs:232-252 | returns 0 iff the line is empty, and otherwise a value in [1, quantity], equal to the quantity only when it is 1 |
| Store.Shop.ServeClient | NewSupermarket/Program.cs:153-163 | with an empty queue, reports it and changes nothing; otherwise removes exactly the front client, keeps the rest in order with their carts untouched, and checks that client out |

## Left out

- The menu loop in `Main`, `ShowCommands`, and console key handling are not modelled. They are console I/O.
- `ShowCart`, `ShowQueue`, `ShowAssortment`, `Item.ShowInfo` and the printed messages are not modelled. They only display state. The checkout's outcome is returned as a value (`Outcome`, `ServeReport`) instead of printed.
- `System.Random` itself is not modelled: seeding, distribution, and the separate generators of the shop and of each client. Every draw is a parameter constrained to the values `Next` can return.
- Store.Shop.GetAmount: the `do … while` that repeats the draw while it exceeds the line's quantity is modelled as its first draw. `Next(1, n)` never returns more than n, so the body runs exactly once, and the model asserts that the guard is false.
- Store.Shop.CreateQueue: the clients are collected in a local list (`LineUp`), which is put into the shop's queue once all are made. The source enqueues each client as it is made. Nothing reads the queue in between, so the final queue is the same.
- Store.Shop.CreateQueue: requires the shop's queue to be empty. Its only caller is the constructor, on the new shop's empty queue.
- Store.Shop.GenerateStock: requires the stock to be empty. Its only caller is the constructor, on the new shop's empty stock.
- Store.Shop.CreateCart: the contract does not restate that the stock list and its products stay the same. Its `modifies` clause names only the stock lines, so the list cannot change, and a line's product is a constant.
- Goods.Item.DecreaseAmount: requires that no more is sold than the line holds. The source does not check this, and its one caller guarantees it through `GetAmount`.
- The exception `Next(1, 0)` would raise when drawing a cart from an empty stock is not modelled. No draw satisfies `NextInRange(1, 0, _)`, and the stock always has the 6 catalogue lines.
- Integers are unbounded. With quantities below 10, prices below 25 and at most 5 lines per cart, no total comes near the 32-bit limit of C#'s `int`.
