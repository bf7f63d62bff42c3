# Console shopping cart, modelled in Dafny

A model of a small console shop. The shop shows three object-oriented patterns:

- **Observer.** A subject holds an ordered list of users. It tells every user, in list order, the name of each product it announces.
- **Strategy.** Each product carries one of two pricing rules: the simple rule, `basePrice * quantity`, and the discount rule, `basePrice * quantity * 0.9`.
- **Singleton.** There is one shared shopping cart. The cart holds references to products. Adding a product stamps the requested quantity onto the shared product object, so every cart line for that product shows the quantity written last.

On top of these sits a one-state menu loop. It reads an option, "1" to "5", and dispatches to the cart.

Files, one module each:

- `pricing.dfy` (`Pricing`): the `Strategy` datatype, `Calculate`, and lemmas relating the two rules.
- `product.dfy` (`Catalog`): the `Product` class. Its name, base price and strategy are constants; its quantity is a mutable field.
- `notification.dfy` (`Notification`): `UserObserver` and `ShopSubject`. Each call of an observer's `update` is recorded as one entry `(observer, productName)` in the subject's ghost `deliveries` log. `Broadcast` is the reference list of deliveries for one announcement, and `RemoveFirst` specifies `detach`.
- `cart.dfy` (`Cart`): `ShoppingCart`, the single-instance `CartHolder`, `Total`, and `ShowsCart`. `ShowsCart` is what viewing the cart shows.
- `shop.dfy` (`Shop`): start-up, menu classification, one loop step (`App.Step`) and the loop (`App.Run`). `ShopState` is the part of the shop a step changes, namely the cart lines and the two product quantities. `App.Apply` is one step on that state, and `App.Replay` is a run of steps; `Step` and `Run` are proved against them.

Behaviour of the code worth noting:

- Cart lines are bare product references; the quantity lives on the product, not on the line.
- The quantity is read for option "1" even when the product name turns out to be invalid.
- Quantities are any `int`, negative ones included, because nothing in the code rejects them.

## Model

| member | source | states |
|---|---|---|
| Pricing.Calculate | src/App.java:70-81 | definition of the two rules: the simple rule charges `basePrice * quantity`, the discount rule that times 0.9; its properties are the lemmas below |
| Pricing.DiscountIsTenPercentOff | src/App.java:70-81 | the discount rule charges the simple rule's price minus one tenth of it, for every base price and quantity |
| Pricing.DiscountNeverDearer | src/App.java:70-81 | for non-negative base price and quantity, 0 <= discount price <= simple price |
| Pricing.PriceAdditive | src/App.java:70-81 | both rules are additive in the quantity |
| Pricing.PriceMonotone | src/App.java:70-81 | with a non-negative base price, a larger quantity never costs less under either rule |
| Pricing.CatalogueExamples | src/App.java:70-81 | simple 10.0 x 3 is 30.0; discount 20.0 x 2 is 36.0 |
| Catalog.Product.constructor | src/Product.java:11-16 | a new product has the given name, base price and strategy, and quantity 0 |
| Catalog.Product.SetQuantity | src/Product.java:18-20 | afterwards GetQuantity returns the argument; only the quantity field may change, since name, price and strategy are constants |
| Catalog.Product.GetName | src/Product.java:22-24 | definition: the product's constant name |
| Catalog.Product.GetBasePrice | src/Product.java:26-28 | definition: the product's constant base price |
| Catalog.Product.GetQuantity | src/Product.java:30-32 | definition: the quantity last stamped on the product |
| Catalog.Product.GetPrice | src/Product.java:34-36 | definition: the product's own strategy applied to its base price and current quantity; `Catalog.PriceScenario` and `Catalog.GetterScenario` state its values |
| Catalog.PriceScenario | src/Product.java:34-36 | a simple product priced 10.0 with quantity 3 is priced 30.0; a discount product priced 20.0 with quantity 2 is priced 36.0 |
| Catalog.GetterScenario | src/Product.java:11-36 | the getters return the constructor's name and base price; the price follows the strategy at quantity 0 and then at the set quantity |
| Notification.UserObserver.constructor | src/App.java:52-57 | an observer keeps the name it was created with |
| Notification.Broadcast | src/App.java:35-39 | one announcement makes exactly one delivery per list entry, in list order, all with the same product name |
| Notification.BroadcastAppend | src/App.java:35-39 | announcing to a list split in two makes the deliveries of the first part, then those of the second |
| Notification.ReceivedBroadcast | src/App.java:35-39 | an observer receives as many deliveries as it has entries in the list, and none when absent |
| Notification.DetachedReceivesNone | src/App.java:31-39 | an observer attached once and then detached receives no delivery, and the announcement makes one delivery fewer |
| Notification.RemoveFirst | src/App.java:31-33 | removing an absent observer leaves the list as it is; otherwise the list is one shorter and loses exactly one occurrence |
| Notification.RemoveFirstAt | src/App.java:31-33 | only the first occurrence is removed; the entries before and after it keep their order |
| Notification.ShopSubject.constructor | src/App.java:22-25 | a new subject has no observers, no products and no deliveries |
| Notification.ShopSubject.Attach | src/App.java:27-29 | the observer is appended at the end with no duplicate check; earlier entries are unchanged |
| Notification.ShopSubject.Detach | src/App.java:31-33 | the observer list loses its first occurrence of the observer, compared by identity |
| Notification.ShopSubject.Notify | src/App.java:35-39 | the delivery log grows by exactly the deliveries of Broadcast over the current observers |
| Notification.ShopSubject.AddProduct | src/App.java:41-44 | the name is appended to the product list, then exactly the deliveries of Notify are made |
| Notification.ShopSubject.GetProducts | src/App.java:46-48 | definition: the names recorded so far, in the order they were added |
| Notification.AnnounceScenario | src/App.java:27-44 | two distinct fresh observers, Usuario1 and Usuario2, attached in turn, each receive the announced name exactly once, in attachment order |
| Notification.DetachScenario | src/App.java:27-39 | of two distinct fresh observers, the first is detached: only the second stays subscribed, and an announcement reaches only it |
| Cart.Total | src/App.java:113-117 | definition of the running total: the current prices of the lines summed from first to last; `Cart.TotalAppend`, `Cart.TotalNonNegative`, `Cart.TotalOfRepeats` and `Cart.TotalOfRows` state its properties |
| Cart.ShowsCartUnique | src/App.java:108-119 | the cart lines determine the view completely |
| Cart.TotalOfRows | src/App.java:113-118 | the cart total equals the sum of the prices shown on its listing rows |
| Cart.TotalAppend | src/App.java:113-117 | the total of two runs of lines is the sum of their totals |
| Cart.TotalNonNegative | src/App.java:113-117 | with non-negative prices and quantities, the cart total is non-negative |
| Cart.TotalOfRepeats | src/App.java:102-117 | k lines of the same product are priced at k times that product's current price |
| Cart.ShoppingCart.constructor | src/App.java:91-93 | a new cart is empty |
| Cart.ShoppingCart.AddProduct | src/App.java:102-106 | the product's quantity becomes the argument and the reference is appended; every line for the same product shows the new quantity; other lines keep theirs |
| Cart.ShoppingCart.ViewCart | src/App.java:108-120 | the view is empty exactly when the cart is; otherwise one row (name, quantity, price) per line in order, and the total is the sum of the line prices |
| Cart.ShoppingCart.ClearCart | src/App.java:122-125 | the cart is empty afterwards, whatever it held |
| Cart.ShoppingCart.FinalizeOrder | src/App.java:127-137 | a non-empty cart is emptied and the address and phone are confirmed; an empty cart is rejected and left unchanged |
| Cart.CartHolder.constructor | src/App.java:88 | before the first request there is no cart instance |
| Cart.CartHolder.GetInstance | src/App.java:95-100 | the first request creates an empty cart; every later request returns the same object |
| Cart.SameInstance | src/App.java:95-100 | two requests return the same cart |
| Cart.ClearThenView | src/App.java:108-125 | viewing right after clearing reports an empty cart |
| Cart.FinalizeThenView | src/App.java:108-137 | after a placed order, viewing reports an empty cart; the order is rejected exactly when the cart was empty, and a rejected order leaves the cart as it was |
| Cart.SharedQuantityCart | src/App.java:102-106 | adding "Producto 1" with quantity 2, then "Producto 2" with 2, then "Producto 1" with 5 leaves three lines that share the first product, whose quantity is now 5 |
| Cart.SharedQuantityScenario | src/App.java:102-119 | viewing that cart shows both "Producto 1" lines at quantity 5 and price 50.0, "Producto 2" at 2 and 36.0, and a total of 136.0 |
| Shop.Classify | src/App.java:184-222 | definition of the option `switch`: "1" to "5" select their entries by exact match and every other string is an invalid option; `Shop.ClassifyCode` states this both ways |
| Shop.ClassifyCode | src/App.java:184-222 | each menu entry is selected by its own code, a selecting option is that code, and every other string is an invalid option |
| Shop.App.constructor | src/App.java:150-171 | start-up creates the two products with quantity 0 and takes the shared cart; it attaches Usuario1 then Usuario2, and the log shows both products announced to both users in that order |
| Shop.App.Select | src/App.java:191-199 | a name selects the catalogue product with exactly that name, and null when neither name matches |
| Shop.App.Step | src/App.java:182-223 | one loop pass: "1" adds the selected product, or reports an invalid product and changes nothing; "2" shows the cart; "3" lists names and base prices; "4" finalizes the order; "5" sets exit; anything else is an invalid option; every cart line stays a catalogue product; with both catalogue products distinct and every line one of them, the new lines, quantities and reply are exactly those of the state function `App.Apply` |
| Shop.App.Run | src/App.java:173-224 | the loop stops right after the first "5" and answers every input before it; without a "5" it answers the whole script; with both catalogue products distinct and every line one of them, the replies and the final lines and quantities are those of replaying the consumed inputs one `App.Apply` at a time |
| Shop.App.ViewIn | src/App.java:108-119 | the reference definition of the cart view over a menu state: empty with no lines, otherwise one row per line with its name, its quantity in that state and the strategy's price; its total is the price of the state's lines as `App.TotalIn` sums them independently of the rows; `App.ViewMatches` proves the cart's own listing equals it |
| Shop.App.RowsTotalIn | src/App.java:113-118 | adding up the prices shown on the rows of some lines gives the price of those lines in that state |
| Shop.App.Apply | src/App.java:182-223 | one pass of the loop on the menu state: lines that are all catalogue products stay so, and only option "1" changes a product quantity; `App.Step` is proved equal to it |
| Shop.App.Replay | src/App.java:173-224 | passes over a list of inputs, in order: exactly one reply per input, and lines that are all catalogue products stay so; `App.Run` is proved equal to it |
| Shop.App.ViewMatches | src/App.java:108-119 | the listing the cart produces from the shared product objects is the view of the current state |
| Shop.App.MenuScenario | src/App.java:182-216 | from an empty cart, "1" Producto 1 x3 then "2" shows one line at 30.0; "1" Producto 2 x2 then "2" adds a line at 36.0, total 66.0; "4" places the order and a last "2" shows the cart empty |

## Left out

- Console output is left out: the banner, the menu, the prompts, the confirmations and the greeting printed by an observer's update. Observer deliveries are recorded in a ghost log instead, and the messages of the cart and the menu become the `CartView`, `OrderOutcome` and `Reply` values.
- Reading standard input is left out, and so is parsing the quantity. `App.Step` receives the option and the follow-up values already parsed. A malformed quantity, which throws in the source, and the end of input are not modelled.
- IEEE-754 rounding of `double` is left out. The discount factor 0.9 and the running total are exact `real` arithmetic, so nothing here claims bit-exact agreement with the source's printed prices.
- Java's 32-bit `int` quantity is left out. The model uses an unbounded `int`; the quantity is only stored and converted to a price, never added, so no wrap-around arises.
- Interfaces and dynamic dispatch are left out. The two pricing rules are a closed datatype, and the one observer kind is a class; nothing else can implement them.
- The static `instance` field is left out as ambient state. The singleton is an explicit `CartHolder` object, and start-up takes the cart from it.
- Null arguments are left out: a product built with a null strategy or name, and a null observer. Dafny references here are non-null.
- Notification.ShopSubject.GetProducts: returns the product names as a value; the source hands out its live list, whose later mutation by a caller is not modelled.
