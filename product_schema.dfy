/** The Product schema (backend/models/Product.js): which fields are
    required, the `min: 0` bound on the base price, the `trim` on the name
    and the defaults for option prices and `isActive`.

    A request body is a `ProductFields` value, where every field may be
    absent. Casting it through the schema gives a `Product` document, in
    which the defaults are filled in and the name is trimmed, but required
    fields may still be missing; `ValidProduct` is the schema's validation. */
module ProductSchema {
  import opened Common

  // ---------------------------------------------------------------------
  // String.prototype.trim, which the schema's `trim: true` applies

  /** The characters ECMAScript's trim removes: WhiteSpace (tab, vertical
      tab, form feed, space, no-break space, the byte order mark and the
      Unicode space separators) and LineTerminator (LF, CR, LS, PS). */
  predicate IsSpace(c: char) {
    || c == '\t' || c == '\n' || c == '\U{B}' || c == '\U{C}' || c == '\r' || c == ' '
    || c == '\U{A0}' || c == '\U{1680}' || ('\U{2000}' <= c <= '\U{200A}')
    || c == '\U{2028}' || c == '\U{2029}' || c == '\U{202F}' || c == '\U{205F}'
    || c == '\U{3000}' || c == '\U{FEFF}'
  }

  /** Every character of `s` is white space. */
  predicate AllSpace(s: string) {
    forall i :: 0 <= i < |s| ==> IsSpace(s[i])
  }

  /** A string that neither begins nor ends with white space. */
  predicate Trimmed(s: string) {
    s == [] || (!IsSpace(s[0]) && !IsSpace(s[|s| - 1]))
  }

  /** Scanning forward from `i`: the first position that is not white
      space, or the end. */
  function SkipSpace(s: string, i: nat): (r: nat)
    requires i <= |s|
    ensures i <= r <= |s|
    ensures forall j :: i <= j < r ==> IsSpace(s[j])
    ensures r == |s| || !IsSpace(s[r])
    decreases |s| - i
  {
    if i < |s| && IsSpace(s[i]) then SkipSpace(s, i + 1) else i
  }

  /** Scanning backward from `e`, not below `lo`: the position just after
      the last character that is not white space, or `lo`. */
  function SkipSpaceBack(s: string, lo: nat, e: nat): (r: nat)
    requires lo <= e <= |s|
    ensures lo <= r <= e
    ensures forall j :: r <= j < e ==> IsSpace(s[j])
    ensures r == lo || !IsSpace(s[r - 1])
  {
    if lo < e && IsSpace(s[e - 1]) then SkipSpaceBack(s, lo, e - 1) else e
  }

  /** Where the trimmed part of `s` starts. */
  function TrimFrom(s: string): nat {
    SkipSpace(s, 0)
  }

  /** Where the trimmed part of `s` ends. */
  function TrimTo(s: string): nat {
    SkipSpaceBack(s, TrimFrom(s), |s|)
  }

  /** `s.trim()`: the input with its leading and trailing white space
      removed and its middle kept; only white space is cut. */
  function Trim(s: string): (r: string)
    ensures TrimFrom(s) <= TrimTo(s) <= |s| && r == s[TrimFrom(s)..TrimTo(s)]
    ensures Trimmed(r)
    ensures AllSpace(s[..TrimFrom(s)]) && AllSpace(s[TrimTo(s)..])
  {
    s[TrimFrom(s)..TrimTo(s)]
  }

  /** Trimming leaves a string that is already trimmed as it is. */
  lemma TrimOfTrimmed(s: string)
    requires Trimmed(s)
    ensures Trim(s) == s
  {
    if s != [] {
      assert TrimFrom(s) == 0;
    }
  }

  /** Trimming is idempotent. */
  lemma TrimIdempotent(s: string)
    ensures Trim(Trim(s)) == Trim(s)
  {
    TrimOfTrimmed(Trim(s));
  }

  /** Trim yields the empty string exactly when the input is all white space. */
  lemma TrimEmptyIffAllSpace(s: string)
    ensures Trim(s) == [] <==> AllSpace(s)
  {
    var k := TrimFrom(s);
    if Trim(s) == [] {
      assert s == s[..k] + s[k..];
    }
  }

  // ---------------------------------------------------------------------
  // Request bodies and documents

  datatype ColorFields = ColorFields(name: Option<string>, hex: Option<string>, price: Option<int>)
  datatype MaterialFields = MaterialFields(name: Option<string>, textureUrl: Option<string>, price: Option<int>)
  datatype ComponentFields = ComponentFields(name: Option<string>, modelUrl: Option<string>, price: Option<int>)
  datatype OptionFields = OptionFields(
    colors: Option<seq<ColorFields>>,
    materials: Option<seq<MaterialFields>>,
    components: Option<seq<ComponentFields>>)

  /** A request body for the product endpoints; paths outside the schema
      are dropped by casting, so they do not appear here. */
  datatype ProductFields = ProductFields(
    name: Option<string>,
    description: Option<string>,
    basePrice: Option<int>,
    modelUrl: Option<string>,
    customizationOptions: Option<OptionFields>,
    isActive: Option<bool>)

  datatype Color = Color(name: Option<string>, hex: Option<string>, price: int)
  datatype Material = Material(name: Option<string>, textureUrl: Option<string>, price: int)
  datatype Component = Component(name: Option<string>, modelUrl: Option<string>, price: int)
  datatype Options = Options(colors: seq<Color>, materials: seq<Material>, components: seq<Component>)

  /** A product document after casting: defaults applied, name trimmed. */
  datatype Product = Product(
    name: Option<string>,
    description: Option<string>,
    basePrice: Option<int>,
    modelUrl: Option<string>,
    customizationOptions: Options,
    isActive: bool)

  /** A new document before any field is set: array paths start empty and
      `isActive` starts at its default, true. */
  const Blank := Product(None, None, None, None, Options([], [], []), true)

  function CastColor(c: ColorFields): Color {
    Color(c.name, c.hex, c.price.GetOr(0))
  }

  function CastMaterial(m: MaterialFields): Material {
    Material(m.name, m.textureUrl, m.price.GetOr(0))
  }

  function CastComponent(c: ComponentFields): Component {
    Component(c.name, c.modelUrl, c.price.GetOr(0))
  }

  /** Casts the `customizationOptions` object: each entry gets its `price`
      default and an absent array is empty. */
  function CastOptions(o: OptionFields): (r: Options)
    ensures |r.colors| == (if o.colors.Some? then |o.colors.value| else 0)
    ensures |r.materials| == (if o.materials.Some? then |o.materials.value| else 0)
    ensures |r.components| == (if o.components.Some? then |o.components.value| else 0)
    ensures o.colors.Some? ==> forall i :: 0 <= i < |r.colors| ==>
      r.colors[i] == Color(o.colors.value[i].name, o.colors.value[i].hex, o.colors.value[i].price.GetOr(0))
    ensures o.materials.Some? ==> forall i :: 0 <= i < |r.materials| ==>
      r.materials[i] == Material(o.materials.value[i].name, o.materials.value[i].textureUrl,
                                 o.materials.value[i].price.GetOr(0))
    ensures o.components.Some? ==> forall i :: 0 <= i < |r.components| ==>
      r.components[i] == Component(o.components.value[i].name, o.components.value[i].modelUrl,
                                   o.components.value[i].price.GetOr(0))
  {
    var cs := o.colors.GetOr([]);
    var ms := o.materials.GetOr([]);
    var ps := o.components.GetOr([]);
    Options(
      seq(|cs|, i requires 0 <= i < |cs| => CastColor(cs[i])),
      seq(|ms|, i requires 0 <= i < |ms| => CastMaterial(ms[i])),
      seq(|ps|, i requires 0 <= i < |ps| => CastComponent(ps[i])))
  }

  /** Sets every field the body supplies on document `p` and keeps the
      others: the name trimmed, the options cast as a whole. */
  function Merge(p: Product, f: ProductFields): Product {
    Product(
      if f.name.Some? then Some(Trim(f.name.value)) else p.name,
      if f.description.Some? then f.description else p.description,
      if f.basePrice.Some? then f.basePrice else p.basePrice,
      if f.modelUrl.Some? then f.modelUrl else p.modelUrl,
      if f.customizationOptions.Some? then CastOptions(f.customizationOptions.value)
      else p.customizationOptions,
      if f.isActive.Some? then f.isActive.value else p.isActive)
  }

  /** `new Product(body)`: the body cast over a blank document. */
  function NewProduct(f: ProductFields): Product {
    Merge(Blank, f)
  }

  // ---------------------------------------------------------------------
  // Validation

  predicate ValidColor(c: Color) {
    HasText(c.name) && HasText(c.hex)
  }

  predicate ValidMaterial(m: Material) {
    HasText(m.name)
  }

  predicate ValidComponent(c: Component) {
    HasText(c.name)
  }

  predicate ValidOptions(o: Options) {
    && (forall i :: 0 <= i < |o.colors| ==> ValidColor(o.colors[i]))
    && (forall i :: 0 <= i < |o.materials| ==> ValidMaterial(o.materials[i]))
    && (forall i :: 0 <= i < |o.components| ==> ValidComponent(o.components[i]))
  }

  /** The schema's validation of a document: the four required paths are
      set and non-empty, `basePrice` is at least 0, and every option entry
      has its required paths. Option prices have no bound. */
  predicate ValidProduct(p: Product) {
    && HasText(p.name)
    && HasText(p.description)
    && p.basePrice.Some? && p.basePrice.value >= 0
    && HasText(p.modelUrl)
    && ValidOptions(p.customizationOptions)
  }

  /** Each path the body sets passes its own validator (after casting):
      what the update validators check. */
  predicate FieldsValid(f: ProductFields) {
    && (f.name.Some? ==> |Trim(f.name.value)| > 0)
    && (f.description.Some? ==> |f.description.value| > 0)
    && (f.basePrice.Some? ==> f.basePrice.value >= 0)
    && (f.modelUrl.Some? ==> |f.modelUrl.value| > 0)
    && (f.customizationOptions.Some? ==> ValidOptions(CastOptions(f.customizationOptions.value)))
  }

  /** The body supplies every required top-level path. */
  predicate HasRequired(f: ProductFields) {
    f.name.Some? && f.description.Some? && f.basePrice.Some? && f.modelUrl.Some?
  }

  // ---------------------------------------------------------------------
  // Properties of the schema

  /** A document is valid only if name, description, basePrice and
      modelUrl are all present, and basePrice is not negative. */
  lemma ValidHasRequired(p: Product)
    requires ValidProduct(p)
    ensures p.name.Some? && p.description.Some? && p.modelUrl.Some?
    ensures p.basePrice.Some? && p.basePrice.value >= 0
  {
  }

  /** Merging keeps every path the body leaves out and takes every path it
      supplies; a stored name is always trimmed. */
  lemma MergeKeepsAbsent(p: Product, f: ProductFields)
    requires p.name.Some? ==> Trimmed(p.name.value)
    ensures var q := Merge(p, f);
      && (f.name.None? ==> q.name == p.name)
      && (f.description.None? ==> q.description == p.description)
      && (f.basePrice.None? ==> q.basePrice == p.basePrice)
      && (f.modelUrl.None? ==> q.modelUrl == p.modelUrl)
      && (f.customizationOptions.None? ==> q.customizationOptions == p.customizationOptions)
      && (f.isActive.None? ==> q.isActive == p.isActive)
      && (f.description.Some? ==> q.description == f.description)
      && (f.basePrice.Some? ==> q.basePrice == f.basePrice)
      && (f.modelUrl.Some? ==> q.modelUrl == f.modelUrl)
      && (f.isActive.Some? ==> q.isActive == f.isActive.value)
      && (f.name.Some? ==> q.name == Some(Trim(f.name.value)))
      && (f.customizationOptions.Some? ==> q.customizationOptions == CastOptions(f.customizationOptions.value))
      && (q.name.Some? ==> Trimmed(q.name.value) && Trim(q.name.value) == q.name.value)
  {
    var q := Merge(p, f);
    if q.name.Some? {
      TrimOfTrimmed(q.name.value);
    }
  }

  /** The defaults of a new document: `isActive` is true unless the body
      sets it, every option `price` the body leaves out is 0, one entry per
      entry of the body, and an option array the body leaves out is empty. */
  lemma NewProductDefaults(f: ProductFields)
    ensures var p := NewProduct(f);
      && (f.isActive.None? ==> p.isActive)
      && (f.customizationOptions.None? ==> p.customizationOptions == Options([], [], []))
      && (f.customizationOptions.Some? ==>
            var o := f.customizationOptions.value;
            && (o.colors.Some? ==> forall i :: 0 <= i < |o.colors.value| ==>
                  p.customizationOptions.colors[i].price == o.colors.value[i].price.GetOr(0))
            && (o.materials.Some? ==> forall i :: 0 <= i < |o.materials.value| ==>
                  p.customizationOptions.materials[i].price == o.materials.value[i].price.GetOr(0))
            && (o.components.Some? ==> forall i :: 0 <= i < |o.components.value| ==>
                  p.customizationOptions.components[i].price == o.components.value[i].price.GetOr(0)))
  {
  }

  /** Validating a new document: it passes exactly when the body supplies
      every required path and every path it supplies is valid. */
  lemma NewProductValid(f: ProductFields)
    ensures ValidProduct(NewProduct(f)) <==> HasRequired(f) && FieldsValid(f)
  {
  }

  /** Merge-then-revalidate: over a valid stored document, the merged
      document is valid exactly when the paths the body sets are. */
  lemma MergeValid(p: Product, f: ProductFields)
    requires ValidProduct(p)
    ensures ValidProduct(Merge(p, f)) <==> FieldsValid(f)
  {
  }

  /** A name of only white space is cut to "" by trim and so fails
      `required`. */
  lemma BlankNameRejected(f: ProductFields)
    requires f.name.Some? && AllSpace(f.name.value)
    ensures !ValidProduct(NewProduct(f))
  {
    TrimEmptyIffAllSpace(f.name.value);
  }

  /** Option prices have no lower bound: a negative delta is valid, as in
      the sample data's "Plastic" material at -10. */
  lemma NegativeDeltaAccepted()
    ensures ValidProduct(NewProduct(ProductFields(
      Some("Office Lamp"), Some("Adjustable desk lamp"), Some(149), Some("/assets/models/lamp.gltf"),
      Some(OptionFields(
        Some([ColorFields(Some("Black"), Some("#000000"), Some(0))]),
        Some([MaterialFields(Some("Plastic"), Some("/assets/textures/plastic.jpg"), Some(-10))]),
        None)),
      None)))
  {
    var f := ProductFields(
      Some("Office Lamp"), Some("Adjustable desk lamp"), Some(149), Some("/assets/models/lamp.gltf"),
      Some(OptionFields(
        Some([ColorFields(Some("Black"), Some("#000000"), Some(0))]),
        Some([MaterialFields(Some("Plastic"), Some("/assets/textures/plastic.jpg"), Some(-10))]),
        None)),
      None);
    TrimOfTrimmed("Office Lamp");
    NewProductValid(f);
  }
}
