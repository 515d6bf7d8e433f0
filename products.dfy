/** The product value shared by the shopping-cart demonstrations: the class
    `Product` of the ocp package (public fields that nothing assigns after
    construction) and the record `Product` of the srp package. Prices are
    Java doubles in the source; here they are exact reals. */
module Products {

  datatype Product = Product(name: string, price: real)

  /** The sum of the prices of `ps`, added in list order as the carts'
      `calculateTotal` loops add them. */
  function Total(ps: seq<Product>): (r: real)
    decreases |ps|
  {
    if ps == [] then 0.0 else Total(ps[..|ps| - 1]) + ps[|ps| - 1].price
  }

  /** The total of a cart made of two parts is the sum of their totals. */
  lemma {:induction false} TotalConcat(ps: seq<Product>, qs: seq<Product>)
    ensures Total(ps + qs) == Total(ps) + Total(qs)
    decreases |qs|
  {
    if qs == [] {
      assert ps + qs == ps;
    } else {
      var init := qs[..|qs| - 1];
      assert (ps + qs)[..|ps + qs| - 1] == ps + init;
      TotalConcat(ps, init);
    }
  }

  /** Adding a product raises the total by exactly its price. */
  lemma TotalAppend(ps: seq<Product>, p: Product)
    ensures Total(ps + [p]) == Total(ps) + p.price
  {
    assert (ps + [p])[..|ps|] == ps;
  }

  /** The laptop and mouse of every cart driver. */
  const Laptop: Product := Product("Laptop", 50000.0)
  const Mouse: Product := Product("Mouse", 2000.0)
}
