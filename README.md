# Order, address and response-envelope hooks of the HOLLSEN e-commerce API

This project is a Dafny model of the few parts of a Colombian e-commerce
backend (Django ORM models and a Django REST Framework response layer) that
have behaviour of their own. Everything else in that backend is declarative schema.

- **Orders** (`orders.dfy`): the save hooks of `Order`, `OrderItem` and
  `CartItem`, and the cart item's `product_or_design_required` constraint.
  `Order.save` stamps `updated_at` on every save. It sets `paid_at`,
  `cancelled_at` and `delivered_at` once each, at the first save made under
  the matching status. `OrderItem.save` fills an unset or zero subtotal with
  unit price × quantity. It also snapshots the product name and the variant
  description when they are empty. `CartItem.save` takes an unset or zero
  price from the product, or else from the custom design's base product.
  Each hook is a method of a class whose fields it assigns. A pure function
  states the same update on values, and the lemmas about the hook are proved
  on that function: set-once, idempotence, history that ignores catalog
  edits, and sticky prices.
- **Locations** (`locations.dfy`): the choice tables and their display
  lookups, `Direccion.direccion_completa` and `Address.direccion_completa`
  (build a list of parts, drop the `None` ones, join them), and
  `Address.save`. That save marks the address verified when both
  coordinates are non-zero and the source is `DAPM` or `GOOGLE`.
- **Envelopes** (`envelope.dfy`): payloads as JSON-shaped values and the
  five-field envelope `{status, message, data, code, errors}`.
- **Renderers** (`renderers.dfy`): `CustomJSONRenderer.render`. It sorts the
  payload into a page, another dict, a list, `None` or a scalar, and builds
  the envelope from it.
- **Exceptions** (`exceptions.dfy`): the 404 and 500 views and
  `custom_exception_handler`. The handler overwrites the framework
  response's data in place, or builds a new 500 response.
- `common.dfy` holds `Option` and `Result`. `text.dfy` holds the Python
  string behaviour the formatters use: `str()` of an integer, `join`, and
  `filter(None, …)`.

Representation choices: money is an integer number of cents. A coordinate
is an integer number of millionths of a degree, matching the fields'
`decimal_places=6`. The clock is a `now: int` parameter. A product, variant
or design linked to a row is a value read when the row is saved. Python
truthiness is written out: an optional amount is falsy when absent or
zero, an optional string when absent or empty, a timestamp only when
absent.

Three facts about the code that the model follows:
- `CartItem.save` tests the price for falsiness (`not self.price`), so a
  zero price is replaced just like a missing one.
- The envelope built by the renderer and the error views has five fields:
  status, message, data, code and errors.
- The cart hook does not check `product_or_design_required` itself. That
  constraint belongs to the database; a line with neither product nor
  design keeps its price through the hook.

Three behaviours of the code that the model keeps:
- `OrderItem.save` reads `self.product` when the product name is empty, and
  that relation is not nullable. With the product unset, the read raises
  after the subtotal has already been filled in.
- `custom_exception_handler` calls `.get` on the framework response's data.
  When that data is a list, as it is for a validation error raised with a
  plain message, the handler itself raises `AttributeError`.
- `CartItem.save`, with a falsy price and no product, reads
  `self.custom_design.base_product`, and that relation is not nullable. With
  the base product unset the read raises before the price is assigned, so
  the price is left as it was.

## Model

| member | source | states |
|---|---|---|
| `Orders.ParseStatus` | api/models/orders/models.py:13-20 | a stored status value reads back to the status stored under it; values outside the seven choices read as none |
| `Orders.StatusRoundTrip` | api/models/orders/models.py:13-20 | every status reads back from its stored value |
| `Orders.StampOnce` | api/models/orders/models.py:187-196 | one guard: a recorded moment is never replaced; the field is set afterwards iff it was set before or the status matched; any change writes `now` |
| `Orders.SaveStamps` | api/models/orders/models.py:182-198 | `updated_at == now` after every save; each milestone is written only under its own status and only when unset, and then to `now` |
| `Orders.SaveWithoutMilestoneKeepsMilestones` | api/models/orders/models.py:186-196 | under PENDING, PROCESSING, SHIPPED or REFUNDED a save changes only `updated_at` |
| `Orders.SaveStampsTwice` | api/models/orders/models.py:184-196 | a second save with the same status moves only `updated_at` |
| `Orders.MilestoneIsFirstSave` | api/models/orders/models.py:186-196 | over any series of saves, `paid_at`/`cancelled_at`/`delivered_at` is the moment of the first save under PAID/CANCELLED/DELIVERED, unless it was set before |
| `Orders.UpdatedAtIsLastSave` | api/models/orders/models.py:184 | after any series of saves `updated_at` is the moment of the last one |
| `Orders.Order.constructor` | api/models/orders/models.py:61-126 | a new order is PENDING with no timestamps and zero tax, shipping and discount |
| `Orders.Order.Save` | api/models/orders/models.py:182-198 | the timestamps become `SaveStamps` of the old ones; status and all five totals are unchanged |
| `Orders.ItemSave` | api/models/orders/models.py:282-295 | a falsy subtotal becomes unit price × quantity, a non-zero one is kept; empty name and variant description are copied from product and variant, non-empty ones kept; with the product lookup failing only the subtotal is filled |
| `Orders.ItemSaveIdempotent` | api/models/orders/models.py:284-293 | saving an item again with the same linked rows changes nothing, including after a save whose product lookup failed |
| `Orders.SnapshotSurvivesCatalogEdits` | api/models/orders/models.py:282-293 | once subtotal, name and variant description are recorded, a save against edited product and variant rows keeps them |
| `Orders.OrderItem.constructor` | api/models/orders/models.py:228-268 | a new item starts with no subtotal and empty snapshots |
| `Orders.OrderItem.Save` | api/models/orders/models.py:282-295 | the snapshot fields become `ItemSave` of the old ones; `raised` iff the name is empty and the product unset |
| `Orders.StatusValue` | api/models/orders/models.py:13-20 | every stored status value is a lower-case word of 1 to 20 letters, so it fits the `status` column (`max_length=20`) |
| `Orders.CartPriceOnSave` | api/models/orders/models.py:433-439 | a non-zero price is kept; a falsy one is taken from the product, or with no product from the design's base product; a failed base-product lookup leaves it as it was; any change comes from one of those two |
| `Orders.ProductOrDesignRequired` | api/models/orders/models.py:418-423 | a line the constraint rejects, with neither product nor design, never has its price changed by the hook |
| `Orders.CartPriceResolved` | api/models/orders/models.py:418-441 | a line allowed by `product_or_design_required` whose design has a base product always ends up priced, from the product first |
| `Orders.CartPriceSticky` | api/models/orders/models.py:435-439 | once a save produced a non-zero price, later saves keep it whatever the product or design say |
| `Orders.CartItem.constructor` | api/models/orders/models.py:400-408 | a new line has quantity 1 and no price |
| `Orders.CartItem.Save` | api/models/orders/models.py:433-441 | the price becomes `CartPriceOnSave` of the old one; nothing else changes; `raised` iff the price is falsy, the product unset and the design's base product unset |
| `Text.Present` | api/models/locations/models_locations.py:100 | `filter(None, …)` keeps only truthy parts: each kept string is a non-empty part, and all parts are kept iff every part is truthy |
| `Text.PresentKeepsTruthy` | api/models/locations/models_locations.py:100 | conversely, every truthy part is kept |
| `Text.PresentAppend` | api/models/locations/models_locations.py:195 | filtering a concatenation filters each half and concatenates the results, so the kept parts stay in their original order |
| `Text.IntToString` | api/models/locations/models_locations.py:161 | `str()` of an integer is integer text that reads back as that integer, starts with "-" iff it is negative, and has no leading zero unless it is 0 |
| `Text.Join` | api/models/locations/models_locations.py:195 | `sep.join` of a non-empty list starts with its first piece and ends with its last |
| `Locations.Display` | api/models/locations/models_locations.py:189-191 | a declared code displays as a label declared with it; an undeclared code displays as itself |
| `Locations.DisplayDeclared` | api/models/locations/models_locations.py:109-142 | with distinct codes, each declared code displays as its own label |
| `Locations.ChoiceTablesDistinct` | api/models/locations/models_locations.py:56-142 | no choice table declares a code twice |
| `Locations.EstratoRange` | api/models/locations/models_locations.py:161 | the stratum choices are exactly 1 to 6, each labelled `str()` of its own number |
| `Locations.MunicipioStr` | api/models/locations/models_locations.py:39-40 | `str(municipio)` opens with the municipality's name and ", " and closes with its department's name |
| `Locations.BarrioStr` | api/models/locations/models_locations.py:52-53 | `str(barrio)` opens with the barrio's name and ", " and ends with `str(municipio)` |
| `Locations.DireccionCompleta` | api/models/locations/models_locations.py:94-100 | street, then the complement iff `complemento_tipo` is set, then `str(barrio)`, joined by ", "; it starts with the street and ends with `str(barrio)` |
| `Locations.VerifyOnSave` | api/models/locations/models_locations.py:200-206 | verified afterwards iff verified before or both coordinates are non-zero and the source is DAPM or GOOGLE; `estado` becomes VERIFICADO exactly in that second case |
| `Locations.UntrustedInputsNeverVerify` | api/models/locations/models_locations.py:203 | a zero or missing coordinate, or a MANUAL or missing source, leaves both fields unchanged |
| `Locations.VerifyNeverDowngrades` | api/models/locations/models_locations.py:200-206 | a save never clears `verificada` and only ever writes VERIFICADO |
| `Locations.VerifiedOnceVerifiedForever` | api/models/locations/models_locations.py:200-206 | over any series of saves the address ends verified iff it started verified or some save saw trusted coordinates |
| `Locations.Address.constructor` | api/models/locations/models_locations.py:150-171 | a new address is unverified and PENDIENTE, with no coordinates, source, sector or barrio |
| `Locations.Address.Save` | api/models/locations/models_locations.py:200-206 | `verificada` and `estado` become `VerifyOnSave` of the old ones; nothing else changes |
| `Locations.SectorLabelFacts` | api/models/locations/models_locations.py:117-122 | a set sector displays as a non-empty label, which is "BIS" only for the raw code "BIS" |
| `Locations.AddressCompletaShape` | api/models/locations/models_locations.py:186-195 | the filtered parts are the street, "BIS" iff `bis`, the sector label iff a sector is set, "Barrio X" iff a barrio is set, and `str(municipio)` last |
| `Locations.Address.DireccionCompleta` | api/models/locations/models_locations.py:186-195 | those words joined by single spaces: the result starts with the street and ends with `str(municipio)` |
| `Locations.AddressBisToken` | api/models/locations/models_locations.py:190-191 | "BIS" is among the words iff `bis` is set, or the sector holds the raw code "BIS" |
| `Envelopes.Get` | utils/renderers.py:22-25 | `dict.get`: the stored value when the key is present, else the default |
| `Envelopes.ToJson` | utils/renderers.py:44-50 | the envelope dict has exactly the keys status, message, data, code, errors |
| `Envelopes.EnvelopeRoundTrip` | utils/renderers.py:44-50 | the envelope dict determines the envelope: reading it back gives the same five fields |
| `Renderers.StatusType` | utils/renderers.py:9 | "error" iff a response is present with status code ≥ 400, else "success" |
| `Renderers.StrOf` | utils/renderers.py:38-41 | `str()` of a bool is "True" or "False", of an integer its canonical decimal text (`Text.IntToString`), of a string the string itself |
| `Renderers.Render` | utils/renderers.py:5-50 | status follows the response; code is its status code or 200; a page becomes `{count, next, previous, items}` with items = results, and fails with KeyError only when a link is missing; another dict gives its "data" or itself, with its message and errors or the defaults; a list passes through; None gives "No hay datos disponibles." and `{}`; a scalar gives `str()` as message and data |
| `Renderers.RenderKeepsEnvelope` | utils/renderers.py:12-50 | an envelope whose status and code agree with the response is rendered back to itself |
| `Renderers.NestedPageNotRenamed` | utils/renderers.py:14-22 | a page nested under "data" is not recognised: its "results" key reaches the client unchanged |
| `Exceptions.CustomError404` | utils/exceptions.py:7-18 | status "error", code 404 equal to the reply's status, data and errors None |
| `Exceptions.CustomError500` | utils/exceptions.py:20-31 | status "error", code 500 equal to the reply's status, data and errors None |
| `Exceptions.WrapFrameworkError` | utils/exceptions.py:40-48 | for dict data: an error envelope whose code is the response's status code, errors the original data, message its "detail" or "Error desconocido"; non-dict data raises |
| `Exceptions.HandleException` | utils/exceptions.py:33-62 | every answer is an error envelope whose code equals the reply's status; with no framework response it is 500 "Error interno del servidor" with `errors == []`; it raises iff the framework data is not a dict; otherwise the envelope is `WrapFrameworkError`'s, so its message is the data's "detail" or "Error desconocido" |
| `Exceptions.RenderKeepsHandledError` | utils/exceptions.py:40-62 | the renderer passes a handled error through unchanged iff its status code is ≥ 400 |
| `Exceptions.CustomExceptionHandler` | utils/exceptions.py:33-62 | the framework response is reused with its status code kept and its data replaced by the envelope of `HandleException`; with none, a fresh 500 response; on non-dict data it raises and leaves the response untouched |

## Left out

- Database effects of `super().save()`: writing the row, uniqueness, foreign-key deletion policies, and enforcing `product_or_design_required` (modelled only as a predicate).
- Orders.Order.Save: uses one `now` for every clock reading in the hook. The code reads the clock separately for `updated_at` and each milestone, and `auto_now=True` makes the database layer stamp `updated_at` once more.
- Django's `full_clean` validation: choices, `max_digits` and `MinValueValidator` are not checked on save, and the hooks do not check them either.
- Orders.Order: `status` holds one of the seven choices. A stored string outside them would fire no milestone, just as PENDING does.
- Orders.ItemSave: the unit price and quantity are always set. Both columns are non-null; with an unset unit price and a falsy subtotal the code would raise `TypeError` at api/models/orders/models.py:285.
- Locations.Address: `municipio` is always set, and so is a `Direccion`'s `barrio`. Both relations are non-null; with one unset the formatters would raise at api/models/locations/models_locations.py:193 and :98.
- Money and coordinates are exact integers (cents, millionths). The 12- and 9-digit column widths are not modelled.
- `Orders.CustomDesign` is reduced to its base product, held as optional so that the unset relation, which raises when read, can be stated. The editor's design model is not part of this model.
- The `__str__` methods of orders, carts and payments, the pagination class, settings, and the geography, product, editor, payment and user schemas: they are declarative or framework plumbing.
- JSON serialisation of the envelope, the framework's `exception_handler`, and `JsonResponse`/`Response` rendering: these are library code. The framework handler's result is an argument.
- Renderers.StrOf: covers bools, integers and strings. `str()` of floats and other Python objects is not modelled because payloads are modelled without floats.
- Dict key order in payloads: dicts are Dafny maps.
- `OrderStatusHistory`: nothing in the code writes it, so there is no behaviour to model.
