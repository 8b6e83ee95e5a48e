/** The Customization schema (backend/models/Customization.js): a saved
    configuration of one product for one user, with its price snapshot.
    Like the product schema, a body is cast into a document (defaults
    filled in) and the document is then validated. */
module CustomizationSchema {
  import opened Common

  datatype ConfigurationFields = ConfigurationFields(
    selectedColor: Option<string>,
    selectedMaterial: Option<string>,
    selectedComponents: Option<seq<string>>)

  datatype CustomizationFields = CustomizationFields(
    productId: Option<Id>,
    userId: Option<string>,
    configuration: Option<ConfigurationFields>,
    totalPrice: Option<int>,
    isActive: Option<bool>)

  datatype Configuration = Configuration(
    selectedColor: Option<string>,
    selectedMaterial: Option<string>,
    selectedComponents: seq<string>)

  datatype Customization = Customization(
    productId: Option<Id>,
    userId: Option<string>,
    configuration: Configuration,
    totalPrice: Option<int>,
    isActive: bool)

  /** `new Customization(body)`: an absent configuration or component list
      is empty, and `isActive` defaults to true. */
  function NewCustomization(f: CustomizationFields): (c: Customization)
    ensures f.isActive.None? ==> c.isActive
    ensures f.isActive.Some? ==> c.isActive == f.isActive.value
    ensures f.configuration.None? ==> c.configuration == Configuration(None, None, [])
    ensures f.configuration.Some? && f.configuration.value.selectedComponents.None? ==>
              c.configuration.selectedComponents == []
    ensures f.configuration.Some? ==>
              && c.configuration.selectedColor == f.configuration.value.selectedColor
              && c.configuration.selectedMaterial == f.configuration.value.selectedMaterial
              && (f.configuration.value.selectedComponents.Some? ==>
                    c.configuration.selectedComponents == f.configuration.value.selectedComponents.value)
    ensures c.productId == f.productId && c.userId == f.userId && c.totalPrice == f.totalPrice
  {
    var cfg := f.configuration.GetOr(ConfigurationFields(None, None, None));
    Customization(
      f.productId,
      f.userId,
      Configuration(cfg.selectedColor, cfg.selectedMaterial, cfg.selectedComponents.GetOr([])),
      f.totalPrice,
      f.isActive.GetOr(true))
  }

  /** The schema's validation: productId, userId, both selections and
      totalPrice are required, and totalPrice is at least 0. The component
      list is not required and may be empty. */
  predicate ValidCustomization(c: Customization) {
    && c.productId.Some?
    && HasText(c.userId)
    && HasText(c.configuration.selectedColor)
    && HasText(c.configuration.selectedMaterial)
    && c.totalPrice.Some? && c.totalPrice.value >= 0
  }

  /** Validating a new document in terms of the body: every required path
      is supplied (a string one non-empty) and the total is not negative,
      whatever the component list holds. */
  lemma NewCustomizationValid(f: CustomizationFields)
    ensures ValidCustomization(NewCustomization(f)) <==>
      && f.productId.Some?
      && HasText(f.userId)
      && f.configuration.Some?
      && HasText(f.configuration.value.selectedColor)
      && HasText(f.configuration.value.selectedMaterial)
      && f.totalPrice.Some? && f.totalPrice.value >= 0
  {
  }

  /** Unlike an option price of a product, a negative total is rejected. */
  lemma NegativeTotalRejected(c: Customization)
    requires c.totalPrice.Some? && c.totalPrice.value < 0
    ensures !ValidCustomization(c)
  {
  }

  /** The component list does not affect validity: an empty one passes
      wherever a non-empty one does. */
  lemma ComponentsNotRequired(c: Customization, components: seq<string>)
    ensures ValidCustomization(c) <==>
      ValidCustomization(c.(configuration := c.configuration.(selectedComponents := components)))
  {
  }
}
