# Cart management model

A Dafny model of the in-memory shopping cart of the Java program `index.java`:
two kinds of immutable product (`PhysicalProduct`, priced per unit, and
`FractionalProduct`, priced per gram), and two carts, each of which accepts
only its own kind of product, keeps an ordered list of display lines and
running aggregates, and removes lines by name prefix.

- `text.dfy` (module `Text`): Java's `String.startsWith`, and the decimal
  rendering an `int` gets in string concatenation, with its inverse `ParseInt`.
- `products.dfy` (module `Products`): the `Product` datatype (its destructors
  are the getters) and `getDisplayInfo` as `DisplayInfo`.
- `cart_items.dfy` (module `CartItems`): the removal rule of the abstract
  `Cart`. `Without` is the list with every line that starts with the name
  taken out; `FilterOut` is the loop that computes it; `Subseq` is the
  order-preserving sublist relation.
- `carts.dfy` (module `Carts`): `PhysicalProductCart` and
  `FractionalProductCart` as classes whose methods update `items` (a
  `seq<string>`) and, for the physical cart, `total` and `totalUnits` in
  place. A ghost history `accepted` lists every product `addItem` accepted.
  The object invariant `Valid` says three things:
  - every accepted product is of the cart's kind;
  - the aggregates are the sums of `price * units` and of `units` over that
    history;
  - `items` is an order-preserving sublist of the history's display lines.

  The module also holds the driver's routing loop for the physical cart and
  two worked scenarios.

Behaviour the model keeps exactly as the code has it:

- Adding a product of the other kind is silently ignored.
- `removeItem(name)` matches on a prefix of the display line, not on the
  product name. Removing "Bullion Bar 1" also drops "Bullion Bar 10g (2 units)".
- `removeItem` never decrements `total` or `totalUnits`, so after a removal
  the aggregates still count the removed products. `updateItem` is exactly
  `removeItem` followed by `addItem`.

The weight of a fractional product is a Java `double`. The model keeps only
the text that concatenation prints for it (`Weight(shown)`, for instance
`Weight("25.5")`), which is all that reaches a display line.

## Model

| member | source | states |
|---|---|---|
| `Text.NatToString` | index.java:107 | the rendering of a unit count is a non-empty string of decimal digits that starts with '0' only for 0 (no leading zeros) |
| `Text.IntToString` | index.java:107 | Java's rendering of an `int`: non-empty, starts with '-' exactly for negative numbers, and every other character is a decimal digit |
| `Text.DigitsValueOfNatToString` | index.java:107 | reading the digits back yields the rendered natural number |
| `Text.IntToStringRoundTrip` | index.java:107 | `ParseInt` inverts the rendering on every int |
| `Text.IntToStringInjective` | index.java:107 | two ints render to the same text exactly when they are equal |
| `Products.DisplayInfo` | index.java:87-108 | a display line always starts with the product's name and is longer than it |
| `Products.PhysicalDisplayDetermines` | index.java:105-108 | two physical products have the same display line exactly when they have the same name and unit count |
| `CartItems.Without` | index.java:43-45 | no line that starts with `name` survives removal, and every line that does not start with it survives |
| `CartItems.WithoutCounts` | index.java:43-45 | after removal each line occurs as often as before when it does not start with `name`, and not at all when it does |
| `CartItems.WithoutIsSubseq` | index.java:43-45 | the surviving lines keep their relative order |
| `CartItems.WithoutUnique` | index.java:43-45 | any order-preserving sublist that keeps exactly the non-matching lines with all their copies is the result of removal |
| `CartItems.WithoutCharacterised` | index.java:43-45 | both directions: a list is the result of removal exactly when it is such a sublist |
| `CartItems.WithoutIdempotent` | index.java:43-45 | removing the same name twice gives the list that removing it once gives |
| `CartItems.FilterOut` | index.java:44 | the `removeIf` loop computes exactly `Without(items, name)` |
| `Carts.RemoveByNameDropsProduct` | index.java:43-45 | removing a product's name takes out every line that was added for that product |
| `Carts.PhysicalProductCart.constructor` | index.java:121-122 | a new physical cart has no lines, a total of 0 and 0 units |
| `Carts.PhysicalProductCart.AddItem` | index.java:124-132 | a physical product's line is appended after the old lines, `total` grows by `price * units` and `totalUnits` by `units`; any other product changes nothing; the invariant is kept |
| `Carts.PhysicalProductCart.RemoveItem` | index.java:43-45 | lines become `Without(old lines, name)`; `total`, `totalUnits` and the accepted history are unchanged |
| `Carts.PhysicalProductCart.UpdateItem` | index.java:38-41 | the end state is removal of `name` followed by addition of the new product; with a non-physical product only the removal happens |
| `Carts.PhysicalProductCart.GetList` | index.java:47-49 | returns the current lines, an order-preserving sublist of the display lines of all accepted products |
| `Carts.PhysicalProductCart.GetTotal` | index.java:51-53 | returns `total`, which is the sum of `price * units` over every product ever accepted, removed or not |
| `Carts.PhysicalProductCart.GetTotalUnits` | index.java:134-137 | returns `totalUnits`, the sum of `units` over every product ever accepted, removed or not |
| `Carts.FractionalProductCart.constructor` | index.java:140-141 | a new fractional cart has no lines |
| `Carts.FractionalProductCart.AddItem` | index.java:143-151 | a fractional product's line is appended after the old lines; any other product changes nothing |
| `Carts.FractionalProductCart.RemoveItem` | index.java:43-45 | lines become `Without(old lines, name)`; the accepted history is unchanged |
| `Carts.FractionalProductCart.UpdateItem` | index.java:38-41 | removal of `name` followed by addition; with a non-fractional product only the removal happens |
| `Carts.FractionalProductCart.GetList` | index.java:47-49 | returns the current lines, an order-preserving sublist of the display lines of all accepted products |
| `Carts.FillPhysicalCart` | index.java:198-203 | the new cart holds the physical products of the list, in list order: their display lines, and sums over exactly them |
| `Carts.BullionBarLines` | index.java:193-194 | the two sample bars display as "Bullion Bar 10g (2 units)" and "Bullion Bar 5g (3 units)" |
| `Carts.BullionBarSums` | index.java:193-194 | together the two sample bars total 5*2 + 3*3 = 19 over 5 units |
| `Carts.SampleRouting` | index.java:198-203 | of the two bars and the gold dust, the routing loop keeps the two bars in order, with their two display lines |
| `Carts.BullionBarsScenario` | index.java:191-203 | routing the two bars and the gold dust gives those two lines in order, a total of 5*2 + 3*3 and 5 units |
| `Carts.PrefixRemovalLines` | index.java:43-45 | "Bullion Bar 1" is a prefix of the 10g bar's line but not of the 5g bar's |
| `Carts.PrefixRemovalScenario` | index.java:43-45 | after adding both bars and removing "Bullion Bar 1", only the 5g line is left while the total stays 19 and the units 5 |

## Left out

- Carts.FractionalProductCart.AddItem: does not model `total` or `totalGrams` of the fractional cart. Both are `double` sums of `price * weight` and of weights, and floating-point arithmetic is not modelled. For the same reason the fractional cart has no `getTotal` or `getTotalGrams`.
- Products.DisplayInfo: a fractional product's weight is shown through the text kept in `Weight`. Java's `double`-to-string conversion is not modelled.
- Carts.PhysicalProductCart.AddItem: `price * units` and `totalUnits += units` use unbounded integers. Java's 32-bit `int` overflow is not modelled. The `double` type of `total` is modelled as an integer because the physical cart only ever adds `int` products to it, exactly while the total stays below 2^53.
- Carts.PhysicalProductCart.GetList: returns the value of the list. The Java method returns the cart's own `ArrayList`, so a caller could change the cart through it; that aliasing is not modelled.
- Null strings and strings holding unpaired surrogates are not modelled (a Dafny `string` is never null and holds only valid characters, while Java's `startsWith` compares UTF-16 code units). In Java, `removeItem(null)` throws `NullPointerException` on a non-empty list (index.java:44), so `updateItem(null, p)` never adds `p` (index.java:39-40), and a null name renders as "null" in a display line (index.java:89, 107). `RemoveByNameDropsProduct` therefore holds in Java only for non-null names; callers are assumed to pass non-null names, as the source leaves this unguarded.
- `addItem(null)` is a no-op in Java because `null instanceof` is false. The model has no null product.
- `CartService.checkout` (index.java:176-182) only prints the list and the total to the console, so it is not modelled.
- The driver `Main.main` (index.java:189-221) is modelled only by its physical-cart routing loop. Its fractional half and its printing are not modelled. Line 196 passes `0.5` as the `int` price of a `FractionalProduct`, so that call does not compile as written.
- The `PhysicalCartIF` and `FractionalCartIF` interfaces and the abstract `Cart` base class have no Dafny counterpart, since a class here cannot inherit. Each cart class carries its own copy of the shared members (`items`, `removeItem`, `updateItem`, `getList`); the removal rule they share is defined once, in `CartItems`.
