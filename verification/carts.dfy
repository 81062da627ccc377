/**
 * The two carts. Each keeps the ordered list of display lines of `Cart`
 * (`items`), and the physical cart also keeps the running `total` and
 * `totalUnits`. A ghost history `accepted` records every product `addItem`
 * has accepted, in order; the object invariant `Valid` ties the aggregates to
 * sums over that history (removal never subtracts anything) and says that
 * the list is an order-preserving sublist of the history's display lines.
 */
module Carts {
  import opened Text
  import opened Products
  import opened CartItems

  ghost predicate AllPhysical(ps: seq<Product>) {
    forall i :: 0 <= i < |ps| ==> ps[i].Physical?
  }

  ghost predicate AllFractional(ps: seq<Product>) {
    forall i :: 0 <= i < |ps| ==> ps[i].Fractional?
  }

  /** The display lines of a sequence of products, in the same order. */
  ghost function Displays(ps: seq<Product>): seq<string> {
    seq(|ps|, i requires 0 <= i < |ps| => DisplayInfo(ps[i]))
  }

  /** Sum of `price * units` over physical products. */
  ghost function TotalOf(ps: seq<Product>): int
    requires AllPhysical(ps)
    decreases |ps|
  {
    if ps == [] then 0
    else TotalOf(ps[..|ps| - 1]) + ps[|ps| - 1].price * ps[|ps| - 1].units
  }

  /** Sum of `units` over physical products. */
  ghost function UnitsOf(ps: seq<Product>): int
    requires AllPhysical(ps)
    decreases |ps|
  {
    if ps == [] then 0
    else UnitsOf(ps[..|ps| - 1]) + ps[|ps| - 1].units
  }

  /** The physical products of a list, in order. */
  ghost function PhysicalOnly(ps: seq<Product>): (r: seq<Product>)
    ensures AllPhysical(r)
    decreases |ps|
  {
    if ps == [] then []
    else
      var last := ps[|ps| - 1];
      PhysicalOnly(ps[..|ps| - 1]) + (if last.Physical? then [last] else [])
  }

  /** Accepting one more product extends the display lines by its line. */
  lemma DisplaysAppend(ps: seq<Product>, p: Product)
    ensures Displays(ps + [p]) == Displays(ps) + [DisplayInfo(p)]
  {
  }

  /**
   * `removeItem(p.getName())` takes out every line that was added for p, and
   * for any other product with the same name, since each line starts with the
   * name of its product.
   */
  lemma RemoveByNameDropsProduct(items: seq<string>, p: Product)
    ensures DisplayInfo(p) !in Without(items, p.name)
  {
  }

  class PhysicalProductCart {
    var items: seq<string>
    var total: int
    var totalUnits: int
    /** Every product `addItem` has accepted so far, in order, whether removed since or not. */
    ghost var accepted: seq<Product>

    ghost predicate Valid()
      reads this
    {
      && AllPhysical(accepted)
      && total == TotalOf(accepted)
      && totalUnits == UnitsOf(accepted)
      && Subseq(items, Displays(accepted))
    }

    /** A new cart is empty, with both aggregates at 0. */
    constructor ()
      ensures Valid()
      ensures items == [] && total == 0 && totalUnits == 0 && accepted == []
    {
      items, total, totalUnits := [], 0, 0;
      accepted := [];
    }

    /**
     * A physical product is appended and counted into both aggregates; any
     * other product is ignored without error.
     */
    method AddItem(product: Product)
      requires Valid()
      modifies this
      ensures Valid()
      ensures product.Physical? ==>
        && items == old(items) + [DisplayInfo(product)]
        && total == old(total) + product.price * product.units
        && totalUnits == old(totalUnits) + product.units
        && accepted == old(accepted) + [product]
      ensures !product.Physical? ==>
        && items == old(items)
        && total == old(total)
        && totalUnits == old(totalUnits)
        && accepted == old(accepted)
    {
      if !product.Physical? {
        return;
      }
      totalUnits := totalUnits + product.units;
      items := items + [DisplayInfo(product)];
      total := total + product.price * product.units;
      ghost var before := accepted;
      accepted := accepted + [product];
      assert accepted[..|accepted| - 1] == before;
      DisplaysAppend(before, product);
      SubseqAppend(old(items), Displays(before), DisplayInfo(product));
    }

    /**
     * Drops every line starting with `name`; the aggregates keep counting the
     * removed products.
     */
    method RemoveItem(name: string)
      requires Valid()
      modifies this
      ensures Valid()
      ensures items == Without(old(items), name)
      ensures total == old(total) && totalUnits == old(totalUnits) && accepted == old(accepted)
    {
      items := FilterOut(items, name);
      WithoutIsSubseq(old(items), name);
      SubseqTransitive(items, old(items), Displays(accepted));
    }

    /** Removal of `name`, then addition of `newProduct` (which a non-physical product skips). */
    method UpdateItem(name: string, newProduct: Product)
      requires Valid()
      modifies this
      ensures Valid()
      ensures newProduct.Physical? ==>
        && items == Without(old(items), name) + [DisplayInfo(newProduct)]
        && total == old(total) + newProduct.price * newProduct.units
        && totalUnits == old(totalUnits) + newProduct.units
        && accepted == old(accepted) + [newProduct]
      ensures !newProduct.Physical? ==>
        && items == Without(old(items), name)
        && total == old(total)
        && totalUnits == old(totalUnits)
        && accepted == old(accepted)
    {
      RemoveItem(name);
      AddItem(newProduct);
    }

    /** The current lines: display lines of accepted products, in the order they were added. */
    method GetList() returns (list: seq<string>)
      requires Valid()
      ensures list == items
      ensures Subseq(list, Displays(accepted))
    {
      list := items;
    }

    /** The running total is the sum of `price * units` over every accepted product. */
    method GetTotal() returns (t: int)
      requires Valid()
      ensures t == total == TotalOf(accepted)
    {
      t := total;
    }

    /** The unit count is the sum of `units` over every accepted product. */
    method GetTotalUnits() returns (u: int)
      requires Valid()
      ensures u == totalUnits == UnitsOf(accepted)
    {
      u := totalUnits;
    }
  }

  class FractionalProductCart {
    var items: seq<string>
    /** Every product `addItem` has accepted so far, in order, whether removed since or not. */
    ghost var accepted: seq<Product>

    ghost predicate Valid()
      reads this
    {
      && AllFractional(accepted)
      && Subseq(items, Displays(accepted))
    }

    constructor ()
      ensures Valid()
      ensures items == [] && accepted == []
    {
      items := [];
      accepted := [];
    }

    /** A fractional product is appended; any other product is ignored without error. */
    method AddItem(product: Product)
      requires Valid()
      modifies this
      ensures Valid()
      ensures product.Fractional? ==>
        items == old(items) + [DisplayInfo(product)] && accepted == old(accepted) + [product]
      ensures !product.Fractional? ==>
        items == old(items) && accepted == old(accepted)
    {
      if !product.Fractional? {
        return;
      }
      items := items + [DisplayInfo(product)];
      ghost var before := accepted;
      accepted := accepted + [product];
      DisplaysAppend(before, product);
      SubseqAppend(old(items), Displays(before), DisplayInfo(product));
    }

    /** Drops every line starting with `name`. */
    method RemoveItem(name: string)
      requires Valid()
      modifies this
      ensures Valid()
      ensures items == Without(old(items), name) && accepted == old(accepted)
    {
      items := FilterOut(items, name);
      WithoutIsSubseq(old(items), name);
      SubseqTransitive(items, old(items), Displays(accepted));
    }

    /** Removal of `name`, then addition of `newProduct` (which a non-fractional product skips). */
    method UpdateItem(name: string, newProduct: Product)
      requires Valid()
      modifies this
      ensures Valid()
      ensures newProduct.Fractional? ==>
        && items == Without(old(items), name) + [DisplayInfo(newProduct)]
        && accepted == old(accepted) + [newProduct]
      ensures !newProduct.Fractional? ==>
        items == Without(old(items), name) && accepted == old(accepted)
    {
      RemoveItem(name);
      AddItem(newProduct);
    }

    /** The current lines: display lines of accepted products, in the order they were added. */
    method GetList() returns (list: seq<string>)
      requires Valid()
      ensures list == items
      ensures Subseq(list, Displays(accepted))
    {
      list := items;
    }
  }

  /**
   * The driver's routing loop for the physical cart: every physical product of
   * the list is added, in list order, to a new cart.
   */
  method FillPhysicalCart(products: seq<Product>) returns (cart: PhysicalProductCart)
    ensures fresh(cart) && cart.Valid()
    ensures cart.accepted == PhysicalOnly(products)
    ensures cart.items == Displays(cart.accepted)
  {
    cart := new PhysicalProductCart();
    var i := 0;
    while i < |products|
      invariant 0 <= i <= |products|
      invariant cart.Valid()
      invariant cart.accepted == PhysicalOnly(products[..i])
      invariant cart.items == Displays(cart.accepted)
    {
      assert products[..i + 1][..i] == products[..i];
      if products[i].Physical? {
        cart.AddItem(products[i]);
        DisplaysAppend(PhysicalOnly(products[..i]), products[i]);
      }
      i := i + 1;
    }
    assert products[..i] == products;
  }

  /**
   * The two bullion bars of the driver's sample data, with the gold dust
   * routed away from the physical cart.
   */
  method BullionBarsScenario() returns (list: seq<string>, total: int, units: int)
    ensures list == ["Bullion Bar 10g (2 units)", "Bullion Bar 5g (3 units)"]
    ensures total == 5 * 2 + 3 * 3 && units == 5
  {
    var bar10 := Physical("Bullion Bar 10g", 5, 2);
    var bar5 := Physical("Bullion Bar 5g", 3, 3);
    var dust := Fractional("Gold Dust", 1, Weight("25.5"));
    var cart := FillPhysicalCart([bar10, bar5, dust]);
    SampleRouting();
    BullionBarSums();
    list := cart.GetList();
    total := cart.GetTotal();
    units := cart.GetTotalUnits();
  }

  /** Routing the sample products keeps the two bars, in order, and their lines. */
  lemma SampleRouting()
    ensures var bar10, bar5 := Physical("Bullion Bar 10g", 5, 2), Physical("Bullion Bar 5g", 3, 3);
      && PhysicalOnly([bar10, bar5, Fractional("Gold Dust", 1, Weight("25.5"))]) == [bar10, bar5]
      && Displays([bar10, bar5]) == ["Bullion Bar 10g (2 units)", "Bullion Bar 5g (3 units)"]
  {
    var bar10, bar5 := Physical("Bullion Bar 10g", 5, 2), Physical("Bullion Bar 5g", 3, 3);
    var products := [bar10, bar5, Fractional("Gold Dust", 1, Weight("25.5"))];
    assert products[..2][..1] == [bar10] && [bar10][..0] == [];
    assert PhysicalOnly([bar10]) == [bar10];
    assert PhysicalOnly(products[..2]) == [bar10, bar5];
    BullionBarLines();
  }

  /** The display lines of the two sample bullion bars. */
  lemma BullionBarLines()
    ensures DisplayInfo(Physical("Bullion Bar 10g", 5, 2)) == "Bullion Bar 10g (2 units)"
    ensures DisplayInfo(Physical("Bullion Bar 5g", 3, 3)) == "Bullion Bar 5g (3 units)"
  {
  }

  /** The two sample bullion bars total 5 * 2 + 3 * 3 over 2 + 3 units. */
  lemma BullionBarSums()
    ensures var bars := [Physical("Bullion Bar 10g", 5, 2), Physical("Bullion Bar 5g", 3, 3)];
      AllPhysical(bars) && TotalOf(bars) == 19 && UnitsOf(bars) == 5
  {
  }

  /** Only the 10g bar's line starts with "Bullion Bar 1". */
  lemma PrefixRemovalLines()
    ensures Without(["Bullion Bar 10g (2 units)", "Bullion Bar 5g (3 units)"], "Bullion Bar 1")
            == ["Bullion Bar 5g (3 units)"]
  {
    var lines := ["Bullion Bar 10g (2 units)", "Bullion Bar 5g (3 units)"];
    var key := "Bullion Bar 1";
    assert lines[0][..13] == key;
    assert lines[1][12] != key[12];
    assert !StartsWith(lines[1], key);
    assert lines[..1] == [lines[0]] && [lines[0]][..0] == [];
    assert Without([lines[0]], key) == [];
  }

  /**
   * Removal matches by prefix of the display line and leaves the aggregates
   * alone: removing "Bullion Bar 1" drops the 10g bar's line (its name merely
   * starts with those characters) while the total still counts it.
   */
  method PrefixRemovalScenario() returns (list: seq<string>, total: int, units: int)
    ensures list == ["Bullion Bar 5g (3 units)"]
    ensures total == 19 && units == 5
  {
    var bar10, bar5 := Physical("Bullion Bar 10g", 5, 2), Physical("Bullion Bar 5g", 3, 3);
    BullionBarLines();
    BullionBarSums();
    PrefixRemovalLines();
    var cart := new PhysicalProductCart();
    cart.AddItem(bar10);
    cart.AddItem(bar5);
    cart.RemoveItem("Bullion Bar 1");
    list := cart.GetList();
    total := cart.GetTotal();
    units := cart.GetTotalUnits();
  }
}
