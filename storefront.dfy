/** The shopper's page (frontend/js/app.js): option lookup by name, the
    price formula, the cart item, the rendered option lists, and the
    page's loading flag and click handlers.

    The page is a React component. Its handlers are registered once, when
    the app initialises after the first render, so they keep reading the
    state of that first render; `App` models that, and the functions with
    `AsWritten` in their names give the handlers' price update as the code
    computes it. `SelectColor` and `SelectMaterial` give the intended one. */
module Storefront {
  import opened Common

  datatype Color = Color(name: string, hex: string, price: int)
  datatype Material = Material(name: string, price: int)
  datatype ShopProduct = ShopProduct(
    id: string, name: string, basePrice: int, colors: seq<Color>, materials: seq<Material>)

  /** The product the page shows (APP_CONFIG.DEFAULT_PRODUCT). */
  const DefaultProduct := ShopProduct("chair-001", "Modern Chair", 299,
    [Color("Black", "#000000", 0), Color("White", "#ffffff", 0),
     Color("Brown", "#8B4513", 25), Color("Blue", "#1e40af", 30)],
    [Material("Fabric", 0), Material("Leather", 50), Material("Mesh", 25)])

  // ---------------------------------------------------------------------
  // Lookup and price

  /** `Array.prototype.findIndex`: the first position whose element
      matches, if any. */
  function FindIndex<T>(xs: seq<T>, matches: T -> bool): (r: Option<nat>)
    ensures r.Some? ==> r.value < |xs| && matches(xs[r.value])
    ensures r.Some? ==> forall j :: 0 <= j < r.value ==> !matches(xs[j])
    ensures r.None? ==> forall j :: 0 <= j < |xs| ==> !matches(xs[j])
  {
    if xs == [] then None
    else if matches(xs[0]) then Some(0)
    else match FindIndex(xs[1..], matches)
      case None => None
      case Some(i) => Some(i + 1)
  }

  /** `colors.find(c => c.name === name)`: the first color with that
      name, or none when no color has it. */
  function FindColor(colors: seq<Color>, name: string): (r: Option<Color>)
    ensures r.Some? <==> exists i :: 0 <= i < |colors| && colors[i].name == name
    ensures r.Some? ==> exists i :: 0 <= i < |colors| && colors[i] == r.value && r.value.name == name
                          && forall j :: 0 <= j < i ==> colors[j].name != name
  {
    match FindIndex(colors, (c: Color) => c.name == name)
    case None => None
    case Some(i) => Some(colors[i])
  }

  /** `materials.find(m => m.name === name)`. */
  function FindMaterial(materials: seq<Material>, name: string): (r: Option<Material>)
    ensures r.Some? <==> exists i :: 0 <= i < |materials| && materials[i].name == name
    ensures r.Some? ==> exists i :: 0 <= i < |materials| && materials[i] == r.value && r.value.name == name
                          && forall j :: 0 <= j < i ==> materials[j].name != name
  {
    match FindIndex(materials, (m: Material) => m.name == name)
    case None => None
    case Some(i) => Some(materials[i])
  }

  /** `basePrice + selectedColor.price + selectedMaterial.price`;
      negative deltas are not floored. */
  function TotalPrice(p: ShopProduct, c: Color, m: Material): int {
    p.basePrice + c.price + m.price
  }

  /** The React state that the price depends on. */
  datatype Selection = Selection(color: Color, material: Material, total: int)

  /** The shown total is the formula applied to the shown selection. */
  predicate PriceConsistent(p: ShopProduct, s: Selection) {
    s.total == TotalPrice(p, s.color, s.material)
  }

  /** The state of the first render: the first color, the first material,
      and the base price alone as the total. */
  function InitialSelection(p: ShopProduct): (s: Selection)
    requires |p.colors| > 0 && |p.materials| > 0
    ensures s.color == p.colors[0] && s.material == p.materials[0] && s.total == p.basePrice
    ensures PriceConsistent(p, s) <==> p.colors[0].price + p.materials[0].price == 0
  {
    Selection(p.colors[0], p.materials[0], p.basePrice)
  }

  /** Picking a color by name, with the total recomputed for the new
      selection (what the handler is meant to do). An unknown name leaves
      the state as it is. */
  function SelectColor(p: ShopProduct, s: Selection, name: string): (r: Selection)
    ensures FindColor(p.colors, name).None? ==> r == s
    ensures FindColor(p.colors, name).Some? ==>
              r.color == FindColor(p.colors, name).value && r.material == s.material && PriceConsistent(p, r)
  {
    match FindColor(p.colors, name)
    case None => s
    case Some(c) => Selection(c, s.material, TotalPrice(p, c, s.material))
  }

  /** Picking a material by name, with the total recomputed. */
  function SelectMaterial(p: ShopProduct, s: Selection, name: string): (r: Selection)
    ensures FindMaterial(p.materials, name).None? ==> r == s
    ensures FindMaterial(p.materials, name).Some? ==>
              r.material == FindMaterial(p.materials, name).value && r.color == s.color && PriceConsistent(p, r)
  {
    match FindMaterial(p.materials, name)
    case None => s
    case Some(m) => Selection(s.color, m, TotalPrice(p, s.color, m))
  }

  /** Picks keep a consistent total consistent. */
  lemma SelectionKeepsPriceConsistent(p: ShopProduct, s: Selection, name: string)
    requires PriceConsistent(p, s)
    ensures PriceConsistent(p, SelectColor(p, s, name))
    ensures PriceConsistent(p, SelectMaterial(p, s, name))
  {
  }

  /** Choosing a color then a material gives the same state as the other
      order, and once both names are found the total is the base price
      plus both deltas. */
  lemma SelectionOrderIndependent(p: ShopProduct, s: Selection, colorName: string, materialName: string)
    ensures SelectMaterial(p, SelectColor(p, s, colorName), materialName)
         == SelectColor(p, SelectMaterial(p, s, materialName), colorName)
    ensures FindColor(p.colors, colorName).Some? && FindMaterial(p.materials, materialName).Some? ==>
              SelectMaterial(p, SelectColor(p, s, colorName), materialName).total
              == p.basePrice + FindColor(p.colors, colorName).value.price
                 + FindMaterial(p.materials, materialName).value.price
  {
  }

  /** Brown and Leather on the default chair cost 299 + 25 + 50. */
  lemma BrownLeatherChair()
    ensures SelectMaterial(DefaultProduct,
              SelectColor(DefaultProduct, InitialSelection(DefaultProduct), "Brown"), "Leather").total == 374
  {
    var p := DefaultProduct;
    assert p.colors[2].name == "Brown" && p.colors[0].name != "Brown" && p.colors[1].name != "Brown";
    assert p.materials[1].name == "Leather" && p.materials[0].name != "Leather";
  }

  /** The handlers' price update as written: the chosen option is stored,
      but the formula reads the selection `captured` by the handler. */
  function SelectColorAsWritten(p: ShopProduct, s: Selection, captured: Selection, name: string): (r: Selection)
    ensures FindColor(p.colors, name).None? ==> r == s
    ensures FindColor(p.colors, name).Some? ==>
              r.color == FindColor(p.colors, name).value && r.material == s.material
              && r.total == TotalPrice(p, captured.color, captured.material)
  {
    match FindColor(p.colors, name)
    case None => s
    case Some(c) => Selection(c, s.material, TotalPrice(p, captured.color, captured.material))
  }

  function SelectMaterialAsWritten(p: ShopProduct, s: Selection, captured: Selection, name: string): (r: Selection)
    ensures FindMaterial(p.materials, name).None? ==> r == s
    ensures FindMaterial(p.materials, name).Some? ==>
              r.material == FindMaterial(p.materials, name).value && r.color == s.color
              && r.total == TotalPrice(p, captured.color, captured.material)
  {
    match FindMaterial(p.materials, name)
    case None => s
    case Some(m) => Selection(s.color, m, TotalPrice(p, captured.color, captured.material))
  }

  /** As written, picking Brown then Leather on the default chair leaves
      the total at 299 instead of 374, and the cart item still names the
      first color and material. */
  lemma StalePriceAfterSelection()
    ensures var p := DefaultProduct;
      var s0 := InitialSelection(p);
      var s := SelectMaterialAsWritten(p, SelectColorAsWritten(p, s0, s0, "Brown"), s0, "Leather");
      && s.color.name == "Brown" && s.material.name == "Leather"
      && s.total == 299 && TotalPrice(p, s.color, s.material) == 374
      && MakeCartItem(p, s0) == CartItem("chair-001", "Modern Chair", "Black", "Fabric", 299)
  {
    var p := DefaultProduct;
    assert p.colors[2].name == "Brown" && p.colors[0].name != "Brown" && p.colors[1].name != "Brown";
    assert p.materials[1].name == "Leather" && p.materials[0].name != "Leather";
  }

  // ---------------------------------------------------------------------
  // Cart item and rendered lists

  /** The record "Add to cart" builds: nothing but these five fields. */
  datatype CartItem = CartItem(
    productId: string, productName: string, selectedColor: string, selectedMaterial: string, totalPrice: int)

  function MakeCartItem(p: ShopProduct, s: Selection): (item: CartItem)
    ensures item.productId == p.id && item.productName == p.name
    ensures item.selectedColor == s.color.name && item.selectedMaterial == s.material.name
    ensures item.totalPrice == s.total
  {
    CartItem(p.id, p.name, s.color.name, s.material.name, s.total)
  }

  /** One color swatch: its `title`/`data-color`, its background, and
      whether it has the `selected` class. */
  datatype Swatch = Swatch(name: string, hex: string, selected: bool)

  /** `renderColorSwatches`: one swatch per color, in order, marked iff
      its name is the selected color's name. */
  function ColorSwatches(colors: seq<Color>, selected: Color): (r: seq<Swatch>)
    ensures |r| == |colors|
    ensures forall i :: 0 <= i < |colors| ==> r[i].name == colors[i].name && r[i].hex == colors[i].hex
    ensures forall i :: 0 <= i < |colors| ==> (r[i].selected <==> colors[i].name == selected.name)
  {
    if colors == [] then []
    else [Swatch(colors[0].name, colors[0].hex, colors[0].name == selected.name)]
         + ColorSwatches(colors[1..], selected)
  }

  /** One material option: its `data-material`, the `selected` class and
      its text, the name followed by the price suffix. */
  datatype MaterialEntry = MaterialEntry(name: string, selected: bool, text: string)

  /** The decimal digits of `n`, as `${n}` writes a non-negative integer. */
  function Decimal(n: nat): (r: string)
    ensures |r| > 0 && (r[0] == '0' ==> n == 0)
    ensures forall i :: 0 <= i < |r| ==> '0' <= r[i] <= '9'
  {
    var d := ['0' + (n % 10) as char];
    if n < 10 then d else Decimal(n / 10) + d
  }

  /** The number a string of decimal digits denotes. */
  function DigitsValue(s: string): nat
    requires forall i :: 0 <= i < |s| ==> '0' <= s[i] <= '9'
  {
    if s == [] then 0 else 10 * DigitsValue(s[..|s| - 1]) + (s[|s| - 1] - '0') as nat
  }

  /** Reading the digits back gives the number. */
  lemma {:induction false} DecimalRoundTrip(n: nat)
    ensures DigitsValue(Decimal(n)) == n
  {
    var r := Decimal(n);
    if n >= 10 {
      DecimalRoundTrip(n / 10);
      assert r[..|r| - 1] == Decimal(n / 10);
    }
  }

  /** `material.price > 0 ? `(+$${material.price})` : ''`. */
  function PriceSuffix(price: int): (r: string)
    ensures r != [] <==> price > 0
    ensures price > 0 ==> r == "(+$" + Decimal(price) + ")"
  {
    if price > 0 then "(+$" + Decimal(price) + ")" else ""
  }

  /** `renderMaterialOptions`: one entry per material, in order, marked iff
      its name is the selected material's name; only a positive delta is
      shown, so zero and negative deltas get no suffix. */
  function MaterialEntries(materials: seq<Material>, selected: Material): (r: seq<MaterialEntry>)
    ensures |r| == |materials|
    ensures forall i :: 0 <= i < |materials| ==>
              r[i].name == materials[i].name
              && (r[i].selected <==> materials[i].name == selected.name)
              && r[i].text == materials[i].name + " " + PriceSuffix(materials[i].price)
  {
    if materials == [] then []
    else [MaterialEntry(materials[0].name, materials[0].name == selected.name,
                        materials[0].name + " " + PriceSuffix(materials[0].price))]
         + MaterialEntries(materials[1..], selected)
  }

  /** Names that occur once each. */
  predicate DistinctNames(colors: seq<Color>) {
    forall i, j :: 0 <= i < j < |colors| ==> colors[i].name != colors[j].name
  }

  /** The swatch at `k` is named `name` and is the only one marked. */
  predicate MarkedAlone(r: seq<Swatch>, k: int, name: string) {
    && 0 <= k < |r| && r[k].selected && r[k].name == name
    && forall j :: 0 <= j < |r| && j != k ==> !r[j].selected
  }

  /** With distinct names, after a color is picked by name exactly one
      swatch is marked, the one with that name. */
  lemma PickedSwatchMarkedAlone(p: ShopProduct, s: Selection, name: string)
    requires DistinctNames(p.colors)
    requires FindColor(p.colors, name).Some?
    ensures exists k :: MarkedAlone(ColorSwatches(p.colors, SelectColor(p, s, name).color), k, name)
  {
    var c := FindColor(p.colors, name).value;
    var i :| 0 <= i < |p.colors| && p.colors[i] == c && c.name == name;
    var r := ColorSwatches(p.colors, SelectColor(p, s, name).color);
    assert SelectColor(p, s, name).color == c;
    assert r[i].selected && r[i].name == name;
    forall j | 0 <= j < |r| && j != i ensures !r[j].selected {
      if j < i {
        assert p.colors[j].name != p.colors[i].name;
      } else {
        assert p.colors[i].name != p.colors[j].name;
      }
    }
    assert MarkedAlone(r, i, name);
  }

  // ---------------------------------------------------------------------
  // The page's state

  /** Which elements the page found. `viewer`: `initializeViewer` returns
      without throwing, since canvas, container and `#loading` all exist;
      the others: the containers the handlers attach to. */
  datatype Page = Page(viewer: bool, colorSwatches: bool, materialOptions: bool, addToCart: bool)

  class App {
    const product: ShopProduct
    /** The first render's state, which every registered handler reads. */
    const mounted: Selection
    var isLoading: bool
    var current: Selection
    var colorListener: bool
    var materialListener: bool
    var cartListener: bool

    constructor (product: ShopProduct)
      requires |product.colors| > 0 && |product.materials| > 0
      ensures this.product == product && mounted == InitialSelection(product) && current == mounted
      ensures isLoading && !colorListener && !materialListener && !cartListener
    {
      this.product := product;
      mounted := InitialSelection(product);
      current := InitialSelection(product);
      isLoading := true;
      colorListener, materialListener, cartListener := false, false, false;
    }

    /** `initializeApp`: the viewer step throws when its elements are
        missing, which skips the listeners; loading ends either way. */
    method InitializeApp(page: Page)
      modifies this
      ensures !isLoading && current == old(current)
      ensures colorListener == (old(colorListener) || (page.viewer && page.colorSwatches))
      ensures materialListener == (old(materialListener) || (page.viewer && page.materialOptions))
      ensures cartListener == (old(cartListener) || (page.viewer && page.addToCart))
    {
      if page.viewer {
        // loadProductData only logs
        if page.colorSwatches { colorListener := true; }
        if page.materialOptions { materialListener := true; }
        if page.addToCart { cartListener := true; }
        isLoading := false;
      } else {
        isLoading := false;
      }
    }

    /** A click in the swatch container; `onSwatch` says whether its target
        is a swatch, `name` is the target's `data-color`. */
    method HandleColorSelection(onSwatch: bool, name: string)
      modifies this`current
      ensures current == if colorListener && onSwatch
                         then SelectColorAsWritten(product, old(current), mounted, name)
                         else old(current)
    {
      if colorListener && onSwatch {
        current := SelectColorAsWritten(product, current, mounted, name);
      }
    }

    /** A click in the material container. */
    method HandleMaterialSelection(onOption: bool, name: string)
      modifies this`current
      ensures current == if materialListener && onOption
                         then SelectMaterialAsWritten(product, old(current), mounted, name)
                         else old(current)
    {
      if materialListener && onOption {
        current := SelectMaterialAsWritten(product, current, mounted, name);
      }
    }

    /** A click on "Add to cart": the item the handler would log, built from
        the first render's state. */
    method HandleAddToCart() returns (item: Option<CartItem>)
      ensures cartListener ==> item == Some(MakeCartItem(product, mounted))
      ensures !cartListener ==> item == None
    {
      if cartListener {
        item := Some(MakeCartItem(product, mounted));
      } else {
        item := None;
      }
    }
  }
}
