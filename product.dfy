/** A catalogue product: a reference object with a fixed name, base price and
    pricing strategy, and one mutable field, the last quantity requested for it. */
module Catalog {
  import opened Pricing

  class Product {
    const name: string
    const basePrice: real
    const strategy: Strategy
    var quantity: int

    /** A new product carries the given name, price and strategy and has
        quantity 0. */
    constructor (name: string, basePrice: real, strategy: Strategy)
      ensures this.name == name && this.basePrice == basePrice && this.strategy == strategy
      ensures quantity == 0
    {
      this.name := name;
      this.basePrice := basePrice;
      this.strategy := strategy;
      quantity := 0;
    }

    /** Stamps a new quantity onto this shared product; the name, base price
        and strategy are constants and so cannot change. */
    method SetQuantity(q: int)
      modifies this`quantity
      ensures GetQuantity() == q
    {
      quantity := q;
    }

    function GetName(): string
    {
      name
    }

    function GetBasePrice(): real
    {
      basePrice
    }

    function GetQuantity(): int
      reads this
    {
      quantity
    }

    /** The product's strategy applied to its base price and current quantity. */
    function GetPrice(): real
      reads this
    {
      Calculate(strategy, basePrice, quantity)
    }
  }

  /** A simple-strategy product priced 10.0, stamped with quantity 3, is priced 30.0;
      a discount product priced 20.0 with quantity 2 is priced 36.0. */
  method PriceScenario() returns (simplePrice: real, discountPrice: real)
    ensures simplePrice == 30.0 && discountPrice == 36.0
  {
    var p1 := new Product("Producto 1", 10.0, Simple);
    var p2 := new Product("Producto 2", 20.0, Discount);
    p1.SetQuantity(3);
    p2.SetQuantity(2);
    simplePrice := p1.GetPrice();
    discountPrice := p2.GetPrice();
  }

  /** The getters return what the constructor was given, a fresh product is
      priced at quantity 0, and a later SetQuantity is seen by GetQuantity and
      GetPrice while leaving name and base price as they were. */
  method GetterScenario(name: string, basePrice: real, strategy: Strategy, q: int)
    returns (n: string, b: real, q0: int, p0: real, q1: int, p1: real)
    ensures n == name && b == basePrice
    ensures q0 == 0 && p0 == Calculate(strategy, basePrice, 0)
    ensures q1 == q && p1 == Calculate(strategy, basePrice, q)
  {
    var p := new Product(name, basePrice, strategy);
    q0, p0 := p.GetQuantity(), p.GetPrice();
    p.SetQuantity(q);
    n, b := p.GetName(), p.GetBasePrice();
    q1, p1 := p.GetQuantity(), p.GetPrice();
  }
}
