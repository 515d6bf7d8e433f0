/** The shopping cart of the single-responsibility demonstration in its
    corrected form: `ShopCart` keeps and totals the products, and two
    records hold a reference to it, one to print the invoice and one to
    save the products. Neither record's method has a `modifies` clause, so
    neither can change the cart it reads. */
module SrpFollowed {
  import opened Products

  class ShopCart {
    var products: seq<Product>

    constructor ()
      ensures products == []
    {
      products := [];
    }

    /** `addProduct`: appends, keeping the earlier products in order. */
    method AddProduct(p: Product)
      modifies this
      ensures products == old(products) + [p]
      ensures products[..|old(products)|] == old(products) && products[|old(products)|] == p
      ensures Total(products) == Total(old(products)) + p.price
    {
      TotalAppend(products, p);
      products := products + [p];
    }

    method GetProducts() returns (ps: seq<Product>)
      ensures ps == products
    {
      ps := products;
    }

    /** `calculateTotal`: adds the prices in list order, starting from 0. */
    method CalculateTotal() returns (total: real)
      ensures total == Total(products)
      ensures products == [] ==> total == 0.0
    {
      total := 0.0;
      var i := 0;
      while i < |products|
        invariant 0 <= i <= |products|
        invariant total == Total(products[..i])
      {
        assert products[..i + 1][..i] == products[..i];
        total := total + products[i].price;
        i := i + 1;
      }
      assert products[..i] == products;
    }
  }

  /** The record ShoppingCartPrinter(ShopCart cart). */
  class ShoppingCartPrinter {
    const cart: ShopCart

    constructor (cart: ShopCart)
      ensures this.cart == cart
    {
      this.cart := cart;
    }

    /** `printInvoice`: one line per product of the cart, in its order. */
    method PrintInvoice() returns (lines: seq<Product>)
      ensures lines == cart.products
    {
      var products := cart.GetProducts();
      lines := [];
      var i := 0;
      while i < |products|
        invariant 0 <= i <= |products|
        invariant lines == products[..i]
      {
        lines := lines + [products[i]];
        i := i + 1;
      }
      assert products[..i] == products;
    }
  }

  /** The record SaveProduct(ShopCart cart). */
  class SaveProduct {
    const cart: ShopCart

    constructor (cart: ShopCart)
      ensures this.cart == cart
    {
      this.cart := cart;
    }

    /** `saveToDb`: saves every product of the cart once, in its order. */
    method SaveToDb() returns (saved: seq<Product>)
      ensures saved == cart.products
    {
      var products := cart.GetProducts();
      saved := [];
      var i := 0;
      while i < |products|
        invariant 0 <= i <= |products|
        invariant saved == products[..i]
      {
        saved := saved + [products[i]];
        i := i + 1;
      }
      assert products[..i] == products;
    }
  }

  /** The driver of SRPFollowed.java: Laptop then Mouse, invoiced in that
      order, a total of 52000, then saved in the same order. */
  method SrpFollowedScenario() returns (lines: seq<Product>, total: real, saved: seq<Product>)
    ensures lines == [Laptop, Mouse] && saved == [Laptop, Mouse]
    ensures total == 52000.0
  {
    var cart := new ShopCart();
    cart.AddProduct(Laptop);
    cart.AddProduct(Mouse);
    var printer := new ShoppingCartPrinter(cart);
    lines := printer.PrintInvoice();
    total := cart.CalculateTotal();
    var saver := new SaveProduct(cart);
    saved := saver.SaveToDb();
  }
}
