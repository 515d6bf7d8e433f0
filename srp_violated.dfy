/** The shopping cart of the single-responsibility demonstration in its
    violating form: one class that keeps the products, totals them, prints
    the invoice and saves the products. Printing and saving return what
    they would have written; neither has a `modifies` clause, so neither
    can change the cart. */
module SrpViolated {
  import opened Products

  class ShoppingCart {
    var products: seq<Product>

    constructor ()
      ensures products == []
    {
      products := [];
    }

    /** `addProduct`: appends, keeping the earlier products in order. */
    method AddProduct(p: Product)
      modifies this
      ensures products == old(products) + [p]
      ensures products[..|old(products)|] == old(products) && products[|old(products)|] == p
      ensures Total(products) == Total(old(products)) + p.price
    {
      TotalAppend(products, p);
      products := products + [p];
    }

    method GetProducts() returns (ps: seq<Product>)
      ensures ps == products
    {
      ps := products;
    }

    /** `calculateTotal`: adds the prices in list order, starting from 0. */
    method CalculateTotal() returns (total: real)
      ensures total == Total(products)
      ensures products == [] ==> total == 0.0
    {
      total := 0.0;
      var i := 0;
      while i < |products|
        invariant 0 <= i <= |products|
        invariant total == Total(products[..i])
      {
        assert products[..i + 1][..i] == products[..i];
        total := total + products[i].price;
        i := i + 1;
      }
      assert products[..i] == products;
    }

    /** `printInvoice`: a line per product in list order, then the total
        line, which shows `calculateTotal()`. */
    method PrintInvoice() returns (lines: seq<Product>, total: real)
      ensures lines == products
      ensures total == Total(products)
    {
      lines := [];
      var i := 0;
      while i < |products|
        invariant 0 <= i <= |products|
        invariant lines == products[..i]
      {
        lines := lines + [products[i]];
        i := i + 1;
      }
      assert products[..i] == products;
      total := CalculateTotal();
    }

    /** `saveToDatabase`: one save line per product, each once, in list order. */
    method SaveToDatabase() returns (saved: seq<Product>)
      ensures saved == products
    {
      var ps := GetProducts();
      saved := [];
      var i := 0;
      while i < |ps|
        invariant 0 <= i <= |ps|
        invariant saved == ps[..i]
      {
        saved := saved + [ps[i]];
        i := i + 1;
      }
      assert ps[..i] == ps;
    }
  }

  /** The driver of SRPViolated.java: Laptop then Mouse, invoiced in that
      order with a total of 52000, then saved in the same order. */
  method SrpViolatedScenario() returns (lines: seq<Product>, total: real, saved: seq<Product>)
    ensures lines == [Laptop, Mouse] && saved == [Laptop, Mouse]
    ensures total == 52000.0
  {
    var cart := new ShoppingCart();
    cart.AddProduct(Laptop);
    cart.AddProduct(Mouse);
    lines, total := cart.PrintInvoice();
    saved := cart.SaveToDatabase();
  }
}
