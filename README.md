# Product visualizer storefront: a Dafny model

This project models the small amount of logic in a product-customization
storefront. The backend has a REST catalog of products, where each product
has colors, materials and components with price deltas. The frontend page
lets a shopper pick a color and a material and shows the total price.

The model covers:

- **Catalog handlers** (`product_controller.dfy`, module `ProductController`).
  The five handlers of the product controller are methods of the class
  `Catalog`. Its fields are a `ready` flag for the store connection and a
  `map<Id, Product>` standing in for the products collection. Each handler
  returns a status and a body. The model covers:
  - the readiness gate (503);
  - 404 on an unknown id;
  - create with validation (201 or 400);
  - update as a field merge checked by the update validators (200, 400 or 404);
  - soft delete by clearing `isActive`;
  - each handler's own catch-all status (400 for create and update, 500 for the others).
- **Product schema** (`product_schema.dfy`, module `ProductSchema`). A request
  body (`ProductFields`, every field optional) is cast to a document
  (`Product`) by `Merge` and `NewProduct`. Casting trims the name with
  ECMAScript's `trim` and fills in the defaults: option `price` 0,
  `isActive` true, missing arrays empty. `ValidProduct` is the schema's
  validation, and `FieldsValid` is what the update validators check.
- **Customization schema** (`customization_schema.dfy`). `NewCustomization`
  builds the document with its defaults, and `ValidCustomization` validates it.
- **Error middleware** (`error_handler.dfy`). `Classify` maps an error name,
  plus the field errors of a validation error, to a status, a message and
  an optional list of messages.
- **Storefront page** (`storefront.dfy`, module `Storefront`). The pure parts are:
  - option lookup by name;
  - the price formula;
  - the cart item;
  - the rendered swatch and material lists, including the `(+$p)` suffix.

  The class `App` holds the page's state: the loading flag, the registered
  listeners, the current selection, and the first render's selection that
  the handlers read.

`Common` holds `Option`, the abstract `Id` and `HasText`. `HasText` is
Mongoose's `required` check on a String path: the value is set and is not `""`.

Integers stand for prices throughout. All prices in the data are whole
numbers, and negative deltas are kept as they are.

Three behaviours of the code that are easy to get wrong:

- A malformed id makes the store call throw. The get-by-id and delete
  handlers catch that and answer 500, and update answers 400. Nothing
  answers 400 "Invalid ID format" on this path, because the error
  middleware never sees a controller error.
- Update runs Mongoose's update validators before the record is looked up.
  An invalid body therefore gets 400 even for an unknown id. A valid body
  gets 404 when the id is unknown. `ProductSchema.MergeValid` shows that
  over a valid stored record, validating the body's paths equals validating
  the merged record.
- The page's initial total is the base price alone. It equals the formula
  only when the first color's and first material's deltas sum to 0.

## Model

| member | source | states |
|---|---|---|
| `ProductSchema.SkipSpace` | backend/models/Product.js:4-8 | the forward scan stops at the first character that is not white space (ECMAScript's set), or at the end, and passes only white space |
| `ProductSchema.SkipSpaceBack` | backend/models/Product.js:4-8 | the backward scan stops just after the last character that is not white space, or at its lower bound, and passes only white space |
| `ProductSchema.Trim` | backend/models/Product.js:4-8 | the trimmed name is a contiguous slice of the input that neither starts nor ends with white space, and everything cut before and after it is white space |
| `ProductSchema.TrimOfTrimmed` | backend/models/Product.js:4-8 | a string already without leading or trailing white space is left unchanged |
| `ProductSchema.TrimIdempotent` | backend/models/Product.js:4-8 | trimming twice equals trimming once |
| `ProductSchema.TrimEmptyIffAllSpace` | backend/models/Product.js:4-8 | trim gives "" iff the input is all white space |
| `ProductSchema.BlankNameRejected` | backend/models/Product.js:4-8 | a name of only white space is trimmed to "" and fails `required` |
| `ProductSchema.ValidHasRequired` | backend/models/Product.js:4-21 | a valid product has name, description, basePrice and modelUrl, and basePrice >= 0 |
| `ProductSchema.CastOptions` | backend/models/Product.js:22-38 | one cast entry per body entry, in order, keeping its name and its hex, texture or model URL, with `price` defaulting to 0; an absent option array is empty |
| `ProductSchema.NewProductDefaults` | backend/models/Product.js:23-42 | a new document has `isActive` true unless the body sets it, each option price the body omits is 0, and absent options are empty |
| `ProductSchema.NewProductValid` | backend/models/Product.js:3-45 | a new document is valid iff the body supplies every required path and every supplied path passes its validator |
| `ProductSchema.NegativeDeltaAccepted` | backend/models/Product.js:28-32 | a product with a material delta of -10 (the sample lamp's Plastic) is valid: option prices have no lower bound |
| `ProductSchema.MergeKeepsAbsent` | backend/controllers/productController.js:98-102 | an update keeps every path the body leaves out and takes every path it sets: a set name as its trim, set options as their cast; the name stays trimmed |
| `ProductSchema.MergeValid` | backend/controllers/productController.js:98-102 | over a valid record, the merged record is valid iff the paths the body sets are valid |
| `CustomizationSchema.NewCustomization` | backend/models/Customization.js:22-34 | `isActive` defaults to true; an absent configuration or component list is empty; productId, userId, totalPrice, both selections and a supplied component list are copied |
| `CustomizationSchema.NewCustomizationValid` | backend/models/Customization.js:3-30 | a new customization is valid iff productId, userId, both selections and totalPrice are supplied (strings non-empty) and totalPrice >= 0 |
| `CustomizationSchema.NegativeTotalRejected` | backend/models/Customization.js:26-30 | a negative totalPrice is invalid, unlike a product's option price |
| `CustomizationSchema.ComponentsNotRequired` | backend/models/Customization.js:22-24 | validity does not depend on the component list, empty or not |
| `ErrorHandler.Messages` | backend/middleware/errorHandler.js:9 | one message per field error, in order |
| `ErrorHandler.Classify` | backend/middleware/errorHandler.js:1-36 | total; the status is 400, 401 or 500; 400 iff ValidationError or CastError; 401 iff JsonWebTokenError or TokenExpiredError; an error list iff ValidationError |
| `ErrorHandler.ValidationErrorListsFields` | backend/middleware/errorHandler.js:5-10 | ValidationError gives 400 "Validation Error" with the field messages in order |
| `ErrorHandler.FixedMessages` | backend/middleware/errorHandler.js:13-35 | CastError is 400 "Invalid ID format"; the token errors are 401 "Invalid token" and "Token expired"; any other name is 500 "Server error" |
| `ErrorHandler.OnlyNameMatters` | backend/middleware/errorHandler.js:1-36 | the reply ignores the error's own message, and ignores the field errors unless the name is ValidationError |
| `ProductController.ActiveProducts` | backend/controllers/productController.js:15 | exactly the records with `isActive` true, unchanged |
| `ProductController.SoftDeleted` | backend/controllers/productController.js:131-135 | same ids; only the deleted record changes, and only its `isActive`, to false |
| `ProductController.DeleteHidesFromList` | backend/controllers/productController.js:131-142 | after a delete the record is still stored, inactive, and the active list is the old one minus that id |
| `ProductController.SoftDeleteIdempotent` | backend/controllers/productController.js:131-142 | a second delete leaves the catalog as the first did |
| `ProductController.SoftDeleteKeepsValid` | backend/controllers/productController.js:131-135 | soft deletion keeps every stored record valid |
| `ProductController.Catalog.GetProducts` | backend/controllers/productController.js:4-28 | 503 when not ready; 500 when the store throws; else 200 with exactly the active records and `count` equal to their number |
| `ProductController.Catalog.GetProductById` | backend/controllers/productController.js:31-57 | 503 when not ready; 500 when the store throws; 404 for an unknown id; else 200 with the stored record, even if soft-deleted |
| `ProductController.Catalog.CreateProduct` | backend/controllers/productController.js:60-84 | 503 and no change when not ready; a valid body under a fresh id gives 201, and the catalog gains exactly that defaulted document; otherwise 400 and no change; every stored record stays valid, with its name trimmed |
| `ProductController.Catalog.UpdateProduct` | backend/controllers/productController.js:87-117 | 503 when not ready; 400 and no change if the store throws or a set path is invalid; 404 and no change for an unknown id; else 200 with the merged record, which replaces only that record; every stored record stays valid, with its name trimmed |
| `ProductController.Catalog.DeleteProduct` | backend/controllers/productController.js:120-150 | 503 when not ready; 500 when the store throws; 404 for an unknown id; else 200 and the catalog becomes `SoftDeleted`; in every case each stored record stays valid, with its name trimmed |
| `Storefront.FindIndex` | frontend/js/app.js:86 | the first position whose element matches, or none when no element matches |
| `Storefront.FindColor` | frontend/js/app.js:83-93 | found iff some color has the name; the result is the first color with that name |
| `Storefront.FindMaterial` | frontend/js/app.js:97-107 | found iff some material has the name; the result is the first material with that name |
| `Storefront.InitialSelection` | frontend/js/app.js:5-7 | the first color and first material, total = basePrice; that matches the formula iff their deltas sum to 0 |
| `Storefront.SelectColor` | frontend/js/app.js:83-93 | the intended handler: an unknown name changes nothing; otherwise the found color is selected, the material kept, and the total is the formula for the new selection |
| `Storefront.SelectMaterial` | frontend/js/app.js:97-107 | as `SelectColor`, for materials |
| `Storefront.SelectionKeepsPriceConsistent` | frontend/js/app.js:124-127 | picks keep a total that matches the formula matching it |
| `Storefront.SelectionOrderIndependent` | frontend/js/app.js:126 | color-then-material equals material-then-color, and the total is then basePrice + color delta + material delta |
| `Storefront.BrownLeatherChair` | frontend/js/app.js:126 | Brown and Leather on the default Modern Chair cost 374 |
| `Storefront.SelectColorAsWritten` | frontend/js/app.js:83-93 | as written: the found color is stored, but the total is the formula over the selection captured at mount |
| `Storefront.SelectMaterialAsWritten` | frontend/js/app.js:97-107 | as written, for materials |
| `Storefront.StalePriceAfterSelection` | frontend/js/app.js:10-12 | as written, picking Brown then Leather leaves the total at 299 instead of 374, and the cart item still names Black and Fabric |
| `Storefront.MakeCartItem` | frontend/js/app.js:111-118 | the cart item has the product's id and name, the selected color's and material's names, and the total |
| `Storefront.ColorSwatches` | frontend/js/app.js:146-157 | one swatch per color in order, with its name and hex, marked selected iff its name is the selected color's name |
| `Storefront.Decimal` | frontend/js/app.js:167 | `${n}` of a non-negative integer: a non-empty string of digits with no leading zero |
| `Storefront.DecimalRoundTrip` | frontend/js/app.js:167 | reading `Decimal(n)` back as digits gives n |
| `Storefront.PriceSuffix` | frontend/js/app.js:167 | a suffix appears iff price > 0, and it reads `(+$` followed by the price's digits and `)`; zero and negative deltas show nothing |
| `Storefront.MaterialEntries` | frontend/js/app.js:160-170 | one entry per material in order, marked iff its name is the selected material's name, with text name + " " + suffix |
| `Storefront.PickedSwatchMarkedAlone` | frontend/js/app.js:150-156 | when names are distinct, after picking a color by name exactly one swatch is marked, the one with that name |
| `Storefront.App.constructor` | frontend/js/app.js:3-7 | loading, no listeners, and both the current and the captured selection are the initial one |
| `Storefront.App.InitializeApp` | frontend/js/app.js:15-31 | loading ends whether or not the viewer step throws; each listener is added only if the viewer step passed and its element exists |
| `Storefront.App.HandleColorSelection` | frontend/js/app.js:83-94 | with a listener and a swatch target, the state becomes `SelectColorAsWritten` over the mount-time selection; otherwise nothing changes |
| `Storefront.App.HandleMaterialSelection` | frontend/js/app.js:97-108 | the same, with `SelectMaterialAsWritten` |
| `Storefront.App.HandleAddToCart` | frontend/js/app.js:111-122 | with a listener, the item is built from the mount-time selection; without one, there is no item |

## Findings

| source | as written | input that shows it | evidently intended | confidence | as-written member | corrected member |
|---|---|---|---|---|---|---|
| frontend/js/app.js:62-126 | listeners are registered once, from the first render, so `updatePrice` and `handleAddToCart` read that render's selection | default chair: pick Brown, then Leather | total 374 = 299 + 25 + 50 and a cart item naming Brown and Leather | high; not executed | `Storefront.StalePriceAfterSelection` | `Storefront.SelectionOrderIndependent` |

For this finding:

- The as-written behaviour is `Storefront.SelectColorAsWritten` and
  `Storefront.SelectMaterialAsWritten`, which the handlers of `App` use:
  `App` keeps the page as it is written.
- The corrected behaviour is `Storefront.SelectColor` and
  `Storefront.SelectMaterial`. The price properties are proved about these:
  `SelectionKeepsPriceConsistent`, `SelectionOrderIndependent` and
  `BrownLeatherChair`.

## Left out

- Connection and start-up: environment loading, the database connection,
  CORS, the `/health` route, the unmatched-path 404, the server's error
  middleware wiring and process signals. These are I/O.
- Seeding and statistics scripts. They are file reads and bulk store calls.
  Their sample data appear only as fixtures.
- The route table. It dispatches each verb and path to the handler of the
  same name, with no logic of its own.
- Mongoose internals:
  - how ObjectIds are generated and parsed. The new id is the `newId`
    argument, and a store call that throws is the `storeFails` argument;
  - casting of ill-typed or `null` JSON values;
  - an `_id` sent in the body;
  - timestamps;
  - the buffering of commands while the connection is still connecting.
    `ready` stands for `readyState != 0`, and a command that later fails
    falls under `storeFails`.
- The `error` text (an exception's message) and the setup `note` in error
  bodies, and all console logging.
- The order of `data` in the list response. The model's catalog is a map,
  and the list is the map of active records.
- Customization handlers. No route creates or reads customizations, so
  only the schema is modelled.
- React and DOM behaviour: the scheduling of state setters, `innerHTML` and
  `textContent` writes (including `renderProductDetails` and the `$n` price
  text), `alert`, and the 3D viewer placeholders (`update3DModel`, the
  canvas steps of `initializeViewer` beyond whether its elements exist).
- Storefront.InitialSelection: requires non-empty color and material lists.
  The page only ever uses the default product, which has four colors and
  three materials. With an empty list, the later reads of `.name` and
  `.price` would throw, and that is not modelled.
- Floating-point prices. Every price in the data is a whole number.
- Storefront.Decimal: the digits, like `TotalPrice`, match the page only for
  integers below 2^53. JavaScript prices are doubles: above 2^53 integers and
  their sum are no longer exact, and from 10^21 on `${n}` writes exponent
  form ("1e+21").
