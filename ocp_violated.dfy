/** The shopping cart of the open/closed demonstration and the invoice
    printer that reads it. The cart's product list is an ArrayList that
    `addProduct` extends in place; here it is a field of sequence type that
    the method reassigns. The printer has no `modifies` clause: it can read
    the cart and nothing else. */
module OcpViolated {
  import opened Products

  class ShoppingCart {
    var products: seq<Product>

    constructor ()
      ensures products == []
    {
      products := [];
    }

    /** `addProduct`: the new product goes at the end; the products already
        in the cart keep their places, and the total rises by its price. */
    method AddProduct(p: Product)
      modifies this
      ensures products == old(products) + [p]
      ensures |products| == |old(products)| + 1
      ensures products[..|old(products)|] == old(products) && products[|old(products)|] == p
      ensures Total(products) == Total(old(products)) + p.price
    {
      TotalAppend(products, p);
      products := products + [p];
    }

    method GetProducts() returns (ps: seq<Product>)
      ensures ps == products
    {
      ps := products;
    }

    /** `calculateTotal`: adds the prices in list order, starting from 0. */
    method CalculateTotal() returns (total: real)
      ensures total == Total(products)
      ensures products == [] ==> total == 0.0
    {
      total := 0.0;
      var i := 0;
      while i < |products|
        invariant 0 <= i <= |products|
        invariant total == Total(products[..i])
      {
        assert products[..i + 1][..i] == products[..i];
        total := total + products[i].price;
        i := i + 1;
      }
      assert products[..i] == products;
    }
  }

  class ShoppingCartPrinter {
    const cart: ShoppingCart

    constructor (cart: ShoppingCart)
      ensures this.cart == cart
    {
      this.cart := cart;
    }

    /** `printInvoice`: one invoice line (name and price) per product of the
        cart, in the cart's order. The lines are returned instead of printed. */
    method PrintInvoice() returns (lines: seq<Product>)
      ensures lines == cart.products
    {
      var products := cart.GetProducts();
      lines := [];
      var i := 0;
      while i < |products|
        invariant 0 <= i <= |products|
        invariant lines == products[..i]
      {
        lines := lines + [products[i]];
        i := i + 1;
      }
      assert products[..i] == products;
    }
  }

  /** The driver of OCPViolated.java, with the total that OCPFollowed.java
      prints for the same cart: Laptop then Mouse, invoiced in that order,
      totalling 52000. */
  method OcpScenario() returns (lines: seq<Product>, total: real)
    ensures lines == [Laptop, Mouse]
    ensures total == 52000.0
  {
    var cart := new ShoppingCart();
    cart.AddProduct(Laptop);
    cart.AddProduct(Mouse);
    var printer := new ShoppingCartPrinter(cart);
    lines := printer.PrintInvoice();
    total := cart.CalculateTotal();
  }
}
