/** The shopping cart: an ordered list of references to catalogue products,
    reached through a single shared instance. Adding a product stamps the
    requested quantity onto the product object itself, so every line that
    refers to the same product shows the quantity written last. */
module Cart {
  import opened Pricing
  import opened Catalog

  /** One line of the cart listing: product name, quantity and price. */
  datatype LineView = LineView(name: string, quantity: int, price: real)

  /** What viewing the cart shows: the empty-cart message, or every line
      followed by the total. */
  datatype CartView = Empty | Listing(rows: seq<LineView>, total: real)

  /** What finalizing an order does: reject an empty cart, or confirm the
      order with the shipping address and phone number echoed back. */
  datatype OrderOutcome = Rejected | Placed(address: string, phone: string)

  /** The listing line of one cart entry, read from the shared product. */
  function Row(p: Product): LineView
    reads p
  {
    LineView(p.GetName(), p.GetQuantity(), p.GetPrice())
  }

  /** Sum of the current prices of the cart lines, added up from first to last. */
  function Total(lines: seq<Product>): real
    reads lines
  {
    if lines == [] then 0.0 else Total(lines[..|lines| - 1]) + lines[|lines| - 1].GetPrice()
  }

  /** Sum of the prices shown on listing rows, added up from first to last. */
  function RowsTotal(rows: seq<LineView>): real
  {
    if rows == [] then 0.0 else RowsTotal(rows[..|rows| - 1]) + rows[|rows| - 1].price
  }

  /** The cart total is the sum of the prices its listing rows show. */
  lemma {:induction false} TotalOfRows(lines: seq<Product>, rows: seq<LineView>)
    requires |rows| == |lines|
    requires forall k :: 0 <= k < |lines| ==> rows[k] == Row(lines[k])
    ensures Total(lines) == RowsTotal(rows)
  {
    if lines != [] {
      var n := |lines|;
      TotalOfRows(lines[..n - 1], rows[..n - 1]);
    }
  }

  /** `v` is what viewing a cart with these lines shows: the empty-cart
      message exactly when there are no lines, and otherwise one row per
      line, in order, followed by the sum of their prices. */
  predicate ShowsCart(v: CartView, lines: seq<Product>)
    reads lines
  {
    && (v.Empty? <==> lines == [])
    && (v.Listing? ==> |v.rows| == |lines|)
    && (v.Listing? ==> forall i :: 0 <= i < |lines| ==> v.rows[i] == Row(lines[i]))
    && (v.Listing? ==> v.total == Total(lines))
  }

  /** The lines determine the view completely. */
  lemma ShowsCartUnique(v1: CartView, v2: CartView, lines: seq<Product>)
    requires ShowsCart(v1, lines) && ShowsCart(v2, lines)
    ensures v1 == v2
  {
  }

  /** The total of two runs of lines is the sum of their totals. */
  lemma {:induction false} TotalAppend(a: seq<Product>, b: seq<Product>)
    ensures Total(a + b) == Total(a) + Total(b)
  {
    if b == [] {
      assert a + b == a;
    } else {
      var b' := b[..|b| - 1];
      assert (a + b)[..|a + b| - 1] == a + b';
      TotalAppend(a, b');
    }
  }

  /** With non-negative prices and quantities on every line the total is never negative. */
  lemma {:induction false} TotalNonNegative(lines: seq<Product>)
    requires forall i :: 0 <= i < |lines| ==> 0.0 <= lines[i].basePrice && 0 <= lines[i].quantity
    ensures 0.0 <= Total(lines)
  {
    if lines != [] {
      var last := lines[|lines| - 1];
      TotalNonNegative(lines[..|lines| - 1]);
      DiscountNeverDearer(last.basePrice, last.quantity);
    }
  }

  /** A cart holding one product k times is priced at k times that product's price. */
  lemma {:induction false} TotalOfRepeats(p: Product, k: nat)
    ensures Total(seq(k, _ => p)) == k as real * p.GetPrice()
  {
    if k > 0 {
      assert seq(k, _ => p)[..k - 1] == seq(k - 1, _ => p);
      TotalOfRepeats(p, k - 1);
    }
  }

  class ShoppingCart {
    var lines: seq<Product>

    constructor ()
      ensures lines == []
    {
      lines := [];
    }

    /** Stamps `quantity` onto the product and appends a reference to it. Every
        line that is this same product now shows the new quantity; lines of
        other products keep theirs. */
    method AddProduct(p: Product, quantity: int)
      modifies this`lines, p`quantity
      ensures lines == old(lines) + [p]
      ensures p.GetQuantity() == quantity
      ensures forall i :: 0 <= i < |lines| && lines[i] == p ==> lines[i].GetQuantity() == quantity
      ensures forall i :: 0 <= i < |old(lines)| && lines[i] != p ==> lines[i].quantity == old(lines[i].quantity)
    {
      p.SetQuantity(quantity);
      lines := lines + [p];
    }

    /** The listing of the cart: empty exactly when there are no lines, and
        otherwise one row per line, in order, and the sum of their prices. */
    method ViewCart() returns (v: CartView)
      ensures ShowsCart(v, lines)
    {
      if lines == [] {
        return Empty;
      }
      var rows: seq<LineView> := [];
      var total := 0.0;
      var i := 0;
      while i < |lines|
        invariant 0 <= i <= |lines|
        invariant |rows| == i
        invariant forall k :: 0 <= k < i ==> rows[k] == Row(lines[k])
        invariant total == Total(lines[..i])
      {
        var p := lines[i];
        rows := rows + [Row(p)];
        assert lines[..i + 1][..i] == lines[..i];
        total := total + p.GetPrice();
        i := i + 1;
      }
      assert lines[..i] == lines;
      v := Listing(rows, total);
    }

    /** Empties the cart, whatever it held. */
    method ClearCart()
      modifies this`lines
      ensures lines == []
    {
      lines := [];
    }

    /** Places the order and empties the cart when it holds something;
        rejects the order and leaves the cart alone when it is empty. */
    method FinalizeOrder(address: string, phone: string) returns (outcome: OrderOutcome)
      modifies this`lines
      ensures old(lines) == [] ==> outcome == Rejected && lines == old(lines)
      ensures old(lines) != [] ==> outcome == Placed(address, phone) && lines == []
    {
      if lines != [] {
        outcome := Placed(address, phone);
        lines := [];
      } else {
        outcome := Rejected;
      }
    }
  }

  /** The single shared cart, created on first request and handed out
      unchanged on every later one. */
  class CartHolder {
    var instance: ShoppingCart?

    constructor ()
      ensures instance == null
    {
      instance := null;
    }

    method GetInstance() returns (cart: ShoppingCart)
      modifies this`instance
      ensures old(instance) == null ==> fresh(cart) && cart.lines == []
      ensures old(instance) != null ==> cart == old(instance)
      ensures instance == cart
    {
      if instance == null {
        instance := new ShoppingCart();
      }
      cart := instance;
    }
  }

  /** Two requests for the shared cart return the same object. */
  method SameInstance(holder: CartHolder) returns (first: ShoppingCart, second: ShoppingCart)
    modifies holder
    ensures first == second && holder.instance == first
  {
    first := holder.GetInstance();
    second := holder.GetInstance();
  }

  /** Viewing right after clearing always reports an empty cart. */
  method ClearThenView(cart: ShoppingCart) returns (v: CartView)
    modifies cart
    ensures v == Empty
  {
    cart.ClearCart();
    v := cart.ViewCart();
  }

  /** Viewing right after a successful order reports an empty cart, and a
      rejected order leaves the cart as it was. */
  method FinalizeThenView(cart: ShoppingCart, address: string, phone: string)
    returns (outcome: OrderOutcome, v: CartView)
    modifies cart
    ensures outcome.Placed? ==> v == Empty
    ensures outcome == Rejected <==> old(cart.lines) == []
    ensures outcome == Rejected ==> v == Empty && cart.lines == old(cart.lines)
  {
    outcome := cart.FinalizeOrder(address, phone);
    v := cart.ViewCart();
  }

  /** Adding "Producto 1" twice, with quantity 2 and then 5, around a line of
      "Producto 2" with quantity 2: the cart holds three references, and the
      later add has overwritten the quantity both "Producto 1" lines share. */
  method SharedQuantityCart() returns (cart: ShoppingCart, p1: Product, p2: Product)
    ensures fresh(cart) && cart.lines == [p1, p2, p1]
    ensures p1.name == "Producto 1" && p1.GetQuantity() == 5 && p1.GetPrice() == 50.0
    ensures p2.name == "Producto 2" && p2.GetQuantity() == 2 && p2.GetPrice() == 36.0
  {
    p1 := new Product("Producto 1", 10.0, Simple);
    p2 := new Product("Producto 2", 20.0, Discount);
    cart := new ShoppingCart();
    cart.AddProduct(p1, 2);
    cart.AddProduct(p2, 2);
    cart.AddProduct(p1, 5);
    CatalogueExamples();
  }

  /** Viewing that cart: both "Producto 1" lines show quantity 5 and price
      50.0, the "Producto 2" line keeps its own quantity and discounted price,
      and the total is their sum. */
  method SharedQuantityScenario() returns (v: CartView)
    ensures v == Listing([LineView("Producto 1", 5, 50.0),
                          LineView("Producto 2", 2, 36.0),
                          LineView("Producto 1", 5, 50.0)], 136.0)
  {
    var cart, p1, p2 := SharedQuantityCart();
    assert Total([p1]) == 50.0;
    assert [p1, p2][..1] == [p1];
    assert Total([p1, p2]) == 86.0;
    assert [p1, p2, p1][..2] == [p1, p2];
    v := cart.ViewCart();
    var r1, r2, rows := Row(p1), Row(p2), v.rows;
    assert rows[0] == r1 && rows[1] == r2 && rows[2] == r1;
    assert rows == [r1, r2, r1];
  }
}
