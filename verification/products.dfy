/**
 * The product model: the abstract `Product` with its two concrete kinds,
 * `PhysicalProduct` (priced per unit) and `FractionalProduct` (priced per gram).
 * Products never change after construction, so they are datatype values; the
 * getters `getName`, `getPrice`, `getUnits` and `getWeight` are the destructors.
 */
module Products {
  import opened Text

  /**
   * A weight in grams, a Java `double` in the source. The model keeps only the
   * text that string concatenation produces for it (for instance "25.5"), which
   * is all the display string and the carts' item lists ever see of it.
   */
  datatype Weight = Weight(shown: string)

  datatype Product =
    | Physical(name: string, price: int, units: int)
    | Fractional(name: string, price: int, weight: Weight)

  /**
   * `getDisplayInfo`: "<name> (<units> units)" for a physical product and
   * "<name> (<weight>g)" for a fractional one. Either way the line starts with
   * the product's name, which is what lets `removeItem(name)` find it.
   */
  function DisplayInfo(p: Product): (s: string)
    ensures StartsWith(s, p.name)
    ensures |s| > |p.name|
  {
    var s := match p
      case Physical(name, _, units) => name + " (" + IntToString(units) + " units)"
      case Fractional(name, _, weight) => name + " (" + weight.shown + "g)";
    assert s[..|p.name|] == p.name;
    s
  }

  /**
   * A physical product's display line determines its name and unit count: the
   * unit count contains no '(' so the last " (" of the line marks where the
   * name ends. The price is not shown and so is not determined.
   */
  lemma PhysicalDisplayDetermines(a: Product, b: Product)
    requires a.Physical? && b.Physical?
    ensures DisplayInfo(a) == DisplayInfo(b) <==> a.name == b.name && a.units == b.units
  {
    if DisplayInfo(a) == DisplayInfo(b) {
      var line := DisplayInfo(a);
      var u, v := IntToString(a.units), IntToString(b.units);
      assert line == a.name + " (" + u + " units)";
      assert line == b.name + " (" + v + " units)";
      if |a.name| < |b.name| {
        UnequalNameLengthsDiffer(a.name, u, b.name, v);
      } else if |b.name| < |a.name| {
        UnequalNameLengthsDiffer(b.name, v, a.name, u);
      }
      assert a.name == line[..|a.name|] == b.name;
      assert u == line[|a.name| + 2 .. |line| - 7] == v;
      IntToStringInjective(a.units, b.units);
    } else {
      assert a.name != b.name || a.units != b.units;
    }
  }

  /**
   * Two display lines with names of different length cannot be equal: the '('
   * after the longer name would fall inside the other line's unit count.
   */
  lemma UnequalNameLengthsDiffer(shorter: string, u: string, longer: string, v: string)
    requires |shorter| < |longer|
    requires forall i :: 0 <= i < |u| ==> IsDigit(u[i]) || u[i] == '-'
    ensures shorter + " (" + u + " units)" != longer + " (" + v + " units)"
  {
    var l1 := shorter + " (" + u + " units)";
    var l2 := longer + " (" + v + " units)";
    if |l1| == |l2| {
      var k := |longer| + 1;
      assert l2[k] == '(';
      assert |shorter| + 2 <= k < |shorter| + 2 + |u|;
      assert l1[k] == u[k - |shorter| - 2] != '(';
    }
  }
}
