/** The interactive shop: start-up (two catalogue products, two subscribed
    users, both products announced) and the one-state menu loop that reads an
    option and dispatches to the cart. Console input arrives here already
    read and parsed, one `Input` record per pass of the loop. */
module Shop {
  import opened Pricing
  import opened Catalog
  import opened Notification
  import opened Cart

  /** The five menu entries and everything else. */
  datatype Choice = AddItem | ShowCart | ShowCatalog | PlaceOrder | Quit | Unknown

  /** The option string that selects each menu entry. */
  function Code(c: Choice): string
  {
    match c
    case AddItem => "1"
    case ShowCart => "2"
    case ShowCatalog => "3"
    case PlaceOrder => "4"
    case Quit => "5"
    case Unknown => ""
  }

  /** The menu entry an option string selects; options are matched exactly. */
  function Classify(option: string): Choice
  {
    if option == "1" then AddItem
    else if option == "2" then ShowCart
    else if option == "3" then ShowCatalog
    else if option == "4" then PlaceOrder
    else if option == "5" then Quit
    else Unknown
  }

  /** Every menu entry is selected by its own code, and an option that selects
      an entry is that entry's code: nothing but the five codes is accepted. */
  lemma ClassifyCode(c: Choice, option: string)
    ensures c != Unknown ==> Classify(Code(c)) == c
    ensures Classify(option) != Unknown ==> Code(Classify(option)) == option
    ensures Classify(option) == Unknown <==> option !in {"1", "2", "3", "4", "5"}
  {
  }

  /** One pass of the loop's input: the option line, and what option "1"
      (product name, quantity) or option "4" (address, phone) reads after it. */
  datatype Input = Input(option: string, productName: string, quantity: int, address: string, phone: string)

  /** What one pass of the loop reports back to the user. */
  datatype Reply =
    | Added(name: string, quantity: int)
    | NoSuchProduct
    | Shown(view: CartView)
    | Catalogue(entries: seq<(string, real)>)
    | Ordered(outcome: OrderOutcome)
    | Goodbye
    | NoSuchOption

  /** The part of the shop's state that the menu changes: the cart lines and
      the quantities stamped on the two catalogue products. */
  datatype ShopState = ShopState(lines: seq<Product>, quantity1: int, quantity2: int)

  /** The state of the program's main routine: its two products, the shared
      cart, the subject with its two users, and the loop's exit flag. */
  class App {
    const product1: Product
    const product2: Product
    const cart: ShoppingCart
    const subject: ShopSubject
    const user1: UserObserver
    const user2: UserObserver
    var exit: bool

    /** The two catalogue products are distinct objects with their fixed
        names, base prices and strategies. */
    ghost predicate Valid()
    {
      && product1 != product2
      && product1.name == "Producto 1" && product1.basePrice == 10.0 && product1.strategy == Simple
      && product2.name == "Producto 2" && product2.basePrice == 20.0 && product2.strategy == Discount
    }

    /** Every one of `lines` refers to one of the two catalogue products. */
    ghost predicate FromCatalogue(lines: seq<Product>)
    {
      forall i :: 0 <= i < |lines| ==> lines[i] == product1 || lines[i] == product2
    }

    /** Every cart line refers to one of the two catalogue products. */
    ghost predicate LinesFromCatalogue()
      reads cart
    {
      FromCatalogue(cart.lines)
    }

    /** Start-up: creates the two products, takes the shared cart, subscribes
        two users and announces both products, each to both users in order. */
    constructor (holder: CartHolder)
      modifies holder
      ensures Valid() && !exit
      ensures fresh(product1) && fresh(product2) && fresh(subject)
      ensures product1.basePrice == 10.0 && product1.strategy == Simple && product1.quantity == 0
      ensures product2.basePrice == 20.0 && product2.strategy == Discount && product2.quantity == 0
      ensures holder.instance == cart
      ensures old(holder.instance) != null ==> cart == old(holder.instance)
      ensures old(holder.instance) == null ==> fresh(cart) && cart.lines == []
      ensures user1.name == "Usuario1" && user2.name == "Usuario2"
      ensures subject.observers == [user1, user2]
      ensures subject.products == ["Producto 1", "Producto 2"]
      ensures subject.deliveries == [(user1, "Producto 1"), (user2, "Producto 1"),
                                     (user1, "Producto 2"), (user2, "Producto 2")]
    {
      var p1 := new Product("Producto 1", 10.0, Simple);
      var p2 := new Product("Producto 2", 20.0, Discount);
      var c := holder.GetInstance();
      var s := new ShopSubject();
      var u1 := new UserObserver("Usuario1");
      var u2 := new UserObserver("Usuario2");
      s.Attach(u1);
      s.Attach(u2);
      s.AddProduct(p1.GetName());
      s.AddProduct(p2.GetName());
      product1, product2, cart, subject, user1, user2 := p1, p2, c, s, u1, u2;
      exit := false;
    }

    /** The catalogue product a name selects, compared case-sensitively;
        null when the name is neither product's. */
    function Select(name: string): (p: Product?)
      ensures p == null <==> name != product1.name && name != product2.name
      ensures p != null ==> p.name == name && (p == product1 || p == product2)
    {
      if name == product1.GetName() then product1
      else if name == product2.GetName() then product2
      else null
    }

    /** The current cart lines and product quantities. */
    ghost function Current(): ShopState
      reads cart, product1, product2
    {
      ShopState(cart.lines, product1.quantity, product2.quantity)
    }

    /** The quantity that state `s` gives a catalogue product. */
    ghost function QuantityIn(s: ShopState, p: Product): int
    {
      if p == product1 then s.quantity1 else s.quantity2
    }

    /** The listing line of a catalogue product in state `s`. */
    ghost function RowIn(s: ShopState, p: Product): LineView
    {
      var q := QuantityIn(s, p);
      LineView(p.name, q, Calculate(p.strategy, p.basePrice, q))
    }

    /** The price of `lines` in state `s`: each line's strategy applied to its
        base price and the quantity `s` gives it, summed from first to last. */
    ghost function TotalIn(s: ShopState, lines: seq<Product>): real
    {
      if lines == [] then 0.0
      else
        var p := lines[|lines| - 1];
        TotalIn(s, lines[..|lines| - 1]) + Calculate(p.strategy, p.basePrice, QuantityIn(s, p))
    }

    /** Summing the listed rows of some lines gives the price of those lines. */
    lemma {:induction false} RowsTotalIn(s: ShopState, lines: seq<Product>, rows: seq<LineView>)
      requires |rows| == |lines|
      requires forall k :: 0 <= k < |lines| ==> rows[k] == RowIn(s, lines[k])
      ensures RowsTotal(rows) == TotalIn(s, lines)
    {
      if lines != [] {
        var n := |lines|;
        RowsTotalIn(s, lines[..n - 1], rows[..n - 1]);
      }
    }

    /** What viewing the cart shows in state `s`: the reference definition of
        the listing, whose total is the price of the state's lines. */
    ghost function ViewIn(s: ShopState): (v: CartView)
      ensures v.Listing? ==> v.total == TotalIn(s, s.lines)
    {
      if s.lines == [] then Empty
      else
        var rows := seq(|s.lines|, k requires 0 <= k < |s.lines| => RowIn(s, s.lines[k]));
        RowsTotalIn(s, s.lines, rows);
        Listing(rows, RowsTotal(rows))
    }

    /** One pass of the menu loop on the state alone: the state after it and
        the reply it gives. */
    ghost function Apply(s: ShopState, input: Input): (r: (ShopState, Reply))
      ensures FromCatalogue(s.lines) ==> FromCatalogue(r.0.lines)
      ensures Classify(input.option) != AddItem ==> r.0.quantity1 == s.quantity1 && r.0.quantity2 == s.quantity2
    {
      match Classify(input.option)
      case AddItem =>
        var p := Select(input.productName);
        if p == null then (s, NoSuchProduct)
        else (ShopState(s.lines + [p],
                        if p == product1 then input.quantity else s.quantity1,
                        if p == product2 then input.quantity else s.quantity2),
              Added(p.name, input.quantity))
      case ShowCart => (s, Shown(ViewIn(s)))
      case ShowCatalog => (s, Catalogue([(product1.name, product1.basePrice), (product2.name, product2.basePrice)]))
      case PlaceOrder =>
        if s.lines == [] then (s, Ordered(Rejected))
        else (s.(lines := []), Ordered(Placed(input.address, input.phone)))
      case Quit => (s, Goodbye)
      case Unknown => (s, NoSuchOption)
    }

    /** The passes over a sequence of inputs, in order: the final state and
        one reply per input. */
    ghost function Replay(s: ShopState, inputs: seq<Input>): (r: (ShopState, seq<Reply>))
      ensures |r.1| == |inputs|
      ensures FromCatalogue(s.lines) ==> FromCatalogue(r.0.lines)
    {
      if inputs == [] then (s, [])
      else
        var before := Replay(s, inputs[..|inputs| - 1]);
        var after := Apply(before.0, inputs[|inputs| - 1]);
        (after.0, before.1 + [after.1])
    }

    /** The cart listing agrees with the state's view when every line is a
        catalogue product. */
    lemma ViewMatches(v: CartView)
      requires Valid() && LinesFromCatalogue()
      requires ShowsCart(v, cart.lines)
      ensures v == ViewIn(Current())
    {
      var s, lines := Current(), cart.lines;
      var w := ViewIn(s);
      if lines != [] {
        assert v.Listing? && w.Listing?;
        forall k | 0 <= k < |lines|
          ensures v.rows[k] == w.rows[k]
        {
          assert v.rows[k] == Row(lines[k]);
          assert w.rows[k] == RowIn(s, lines[k]);
        }
        assert v.rows == w.rows;
        TotalOfRows(lines, v.rows);
        assert v.total == w.total;
      }
    }

    /** From an empty cart: adding "Producto 1" with quantity 3 and viewing
        shows one line priced 30.0; adding "Producto 2" with quantity 2 and
        viewing adds a line priced 36.0 and a total of 66.0; then "4" places
        the order and a last view reports the cart empty. */
    lemma MenuScenario(q1: int, q2: int)
      requires Valid()
      ensures
        var inputs := [Input("1", "Producto 1", 3, "", ""), Input("2", "", 0, "", ""),
                       Input("1", "Producto 2", 2, "", ""), Input("2", "", 0, "", ""),
                       Input("4", "", 0, "Calle 1", "555"), Input("2", "", 0, "", "")];
        var row1, row2 := LineView("Producto 1", 3, 30.0), LineView("Producto 2", 2, 36.0);
        Replay(ShopState([], q1, q2), inputs)
          == (ShopState([], 3, 2),
              [Added("Producto 1", 3), Shown(Listing([row1], 30.0)),
               Added("Producto 2", 2), Shown(Listing([row1, row2], 66.0)),
               Ordered(Placed("Calle 1", "555")), Shown(Empty)])
    {
      var inputs := [Input("1", "Producto 1", 3, "", ""), Input("2", "", 0, "", ""),
                     Input("1", "Producto 2", 2, "", ""), Input("2", "", 0, "", ""),
                     Input("4", "", 0, "Calle 1", "555"), Input("2", "", 0, "", "")];
      var row1, row2 := LineView("Producto 1", 3, 30.0), LineView("Producto 2", 2, 36.0);
      var s0 := ShopState([], q1, q2);
      var s1 := ShopState([product1], 3, q2);
      var s2 := ShopState([product1, product2], 3, 2);
      var s3 := ShopState([], 3, 2);
      CatalogueExamples();
      assert Select("Producto 1") == product1 && Select("Producto 2") == product2;
      assert Classify("1") == AddItem && Classify("2") == ShowCart && Classify("4") == PlaceOrder;
      assert inputs[0].option == "1" && inputs[0].productName == "Producto 1";
      assert inputs[2].option == "1" && inputs[2].productName == "Producto 2";
      assert s0.lines + [product1] == s1.lines && s1.lines + [product2] == s2.lines;
      assert Apply(s0, inputs[0]) == (s1, Added("Producto 1", 3));
      assert ViewIn(s1) == Listing([row1], 30.0) by {
        assert RowIn(s1, product1) == row1;
        assert ViewIn(s1).rows == [row1];
        assert [row1][..0] == [];
        assert RowsTotal([row1]) == 30.0;
      }
      assert Apply(s1, inputs[1]) == (s1, Shown(Listing([row1], 30.0)));
      assert Apply(s1, inputs[2]) == (s2, Added("Producto 2", 2));
      assert ViewIn(s2) == Listing([row1, row2], 66.0) by {
        assert RowIn(s2, product1) == row1 && RowIn(s2, product2) == row2;
        assert ViewIn(s2).rows == [row1, row2];
        assert [row1, row2][..1] == [row1] && [row1][..0] == [];
      }
      assert Apply(s2, inputs[3]) == (s2, Shown(Listing([row1, row2], 66.0)));
      assert Apply(s2, inputs[4]) == (s3, Ordered(Placed("Calle 1", "555")));
      assert Apply(s3, inputs[5]) == (s3, Shown(Empty));
      var r1 := [Added("Producto 1", 3)];
      var r2 := r1 + [Shown(Listing([row1], 30.0))];
      var r3 := r2 + [Added("Producto 2", 2)];
      var r4 := r3 + [Shown(Listing([row1, row2], 66.0))];
      var r5 := r4 + [Ordered(Placed("Calle 1", "555"))];
      assert inputs[..1][..0] == [] && inputs[..1][0] == inputs[0];
      assert Replay(s0, []) == (s0, []);
      assert [] + r1 == r1;
      assert Replay(s0, inputs[..1]) == (s1, r1);
      assert inputs[..2][..1] == inputs[..1];
      assert Replay(s0, inputs[..2]) == (s1, r2);
      assert inputs[..3][..2] == inputs[..2];
      assert Replay(s0, inputs[..3]) == (s2, r3);
      assert inputs[..4][..3] == inputs[..3];
      assert Replay(s0, inputs[..4]) == (s2, r4);
      assert inputs[..5][..4] == inputs[..4];
      assert Replay(s0, inputs[..5]) == (s3, r5);
      assert inputs[..5] == inputs[..|inputs| - 1];
      assert Replay(s0, inputs) == (s3, r5 + [Shown(Empty)]);
      assert r5 + [Shown(Empty)]
          == [Added("Producto 1", 3), Shown(Listing([row1], 30.0)),
              Added("Producto 2", 2), Shown(Listing([row1, row2], 66.0)),
              Ordered(Placed("Calle 1", "555")), Shown(Empty)];
    }

    /** One pass of the menu loop. */
    method Step(input: Input) returns (reply: Reply)
      requires !exit
      modifies this`exit, cart`lines, product1`quantity, product2`quantity
      ensures exit <==> Classify(input.option) == Quit
      ensures Classify(input.option) == AddItem && Select(input.productName) != null ==>
        var p := Select(input.productName);
        reply == Added(p.name, input.quantity) && cart.lines == old(cart.lines) + [p] &&
        p.quantity == input.quantity &&
        (p != product1 ==> product1.quantity == old(product1.quantity)) &&
        (p != product2 ==> product2.quantity == old(product2.quantity))
      ensures Classify(input.option) == ShowCart ==>
        reply.Shown? && ShowsCart(reply.view, cart.lines)
      ensures Classify(input.option) == ShowCatalog ==>
        reply == Catalogue([(product1.name, product1.basePrice), (product2.name, product2.basePrice)])
      ensures Classify(input.option) == PlaceOrder ==>
        if old(cart.lines) == [] then reply == Ordered(Rejected) && cart.lines == []
        else reply == Ordered(Placed(input.address, input.phone)) && cart.lines == []
      ensures Classify(input.option) == Quit ==> reply == Goodbye
      ensures Classify(input.option) == Unknown ==> reply == NoSuchOption
      ensures Classify(input.option) == AddItem && Select(input.productName) == null ==> reply == NoSuchProduct
      ensures !(Classify(input.option) == AddItem && Select(input.productName) != null) ==>
        product1.quantity == old(product1.quantity) && product2.quantity == old(product2.quantity)
      ensures Classify(input.option) !in {AddItem, PlaceOrder} || (Classify(input.option) == AddItem && Select(input.productName) == null) ==>
        cart.lines == old(cart.lines)
      ensures old(LinesFromCatalogue()) ==> LinesFromCatalogue()
      ensures Valid() && old(LinesFromCatalogue()) ==> (Current(), reply) == Apply(old(Current()), input)
    {
      match Classify(input.option)
      case AddItem =>
        var p := Select(input.productName);
        if p == null {
          reply := NoSuchProduct;
        } else {
          cart.AddProduct(p, input.quantity);
          reply := Added(p.GetName(), input.quantity);
        }
      case ShowCart =>
        var v := cart.ViewCart();
        if Valid() && LinesFromCatalogue() {
          ViewMatches(v);
        }
        reply := Shown(v);
      case ShowCatalog =>
        reply := Catalogue([(product1.GetName(), product1.GetBasePrice()), (product2.GetName(), product2.GetBasePrice())]);
      case PlaceOrder =>
        var outcome := cart.FinalizeOrder(input.address, input.phone);
        reply := Ordered(outcome);
      case Quit =>
        exit := true;
        reply := Goodbye;
      case Unknown =>
        reply := NoSuchOption;
    }

    /** The menu loop over a script of inputs: it stops right after the first
        "5", and otherwise answers every input; the replies and the final
        cart and quantities are those of replaying the inputs it consumed. */
    method Run(script: seq<Input>) returns (replies: seq<Reply>)
      requires !exit
      modifies this`exit, cart`lines, product1`quantity, product2`quantity
      ensures |replies| <= |script|
      ensures forall i :: 0 <= i < |replies| - 1 ==> Classify(script[i].option) != Quit
      ensures exit <==> 0 < |replies| && Classify(script[|replies| - 1].option) == Quit
      ensures !exit ==> |replies| == |script|
      ensures old(LinesFromCatalogue()) ==> LinesFromCatalogue()
      ensures Valid() && old(LinesFromCatalogue()) ==>
        (Current(), replies) == Replay(old(Current()), script[..|replies|])
    {
      replies := [];
      var i := 0;
      while !exit && i < |script|
        invariant 0 <= i <= |script| && |replies| == i
        invariant forall k :: 0 <= k < i - 1 ==> Classify(script[k].option) != Quit
        invariant exit <==> 0 < i && Classify(script[i - 1].option) == Quit
        invariant old(LinesFromCatalogue()) ==> LinesFromCatalogue()
        invariant Valid() && old(LinesFromCatalogue()) ==>
          (Current(), replies) == Replay(old(Current()), script[..i])
      {
        assert script[..i + 1][..i] == script[..i];
        var reply := Step(script[i]);
        replies := replies + [reply];
        i := i + 1;
      }
    }
  }
}
