/**
 * Persistence hooks of the order and cart models: `Order.save`,
 * `OrderItem.save`, `CartItem.save`, and the cart item's
 * `product_or_design_required` check constraint.
 *
 * Each hook only assigns fields of the object before handing it to the
 * database layer; that hand-off is not modelled. The clock is the `now`
 * parameter, money is an integer number of cents, and a linked product,
 * variant or design is a value read at the moment of the save.
 */
module Orders {
  import opened Common
  import Text

  /** A moment returned by the clock. */
  type Instant = int

  /** A `DecimalField(decimal_places=2)` amount, in hundredths. */
  type Cents = int

  /** `Order.Status`: the seven order states. */
  datatype Status = Pending | Paid | Processing | Shipped | Delivered | Cancelled | Refunded

  /** The value stored in the `status` column: a lower-case word that fits its 20 characters. */
  function StatusValue(s: Status): (r: string)
    ensures 1 <= |r| <= 20
    ensures forall i :: 0 <= i < |r| ==> 'a' <= r[i] <= 'z'
  {
    match s
    case Pending => "pending"
    case Paid => "paid"
    case Processing => "processing"
    case Shipped => "shipped"
    case Delivered => "delivered"
    case Cancelled => "cancelled"
    case Refunded => "refunded"
  }

  /** Reads a stored `status` value back; `None` for a value outside the choices. */
  function ParseStatus(v: string): (r: Option<Status>)
    ensures r.Some? ==> StatusValue(r.value) == v
    ensures r.None? ==> forall s: Status :: StatusValue(s) != v
  {
    if v == "pending" then Some(Pending)
    else if v == "paid" then Some(Paid)
    else if v == "processing" then Some(Processing)
    else if v == "shipped" then Some(Shipped)
    else if v == "delivered" then Some(Delivered)
    else if v == "cancelled" then Some(Cancelled)
    else if v == "refunded" then Some(Refunded)
    else None
  }

  /** Every status is stored under its own value and read back as itself. */
  lemma StatusRoundTrip(s: Status)
    ensures ParseStatus(StatusValue(s)) == Some(s)
  {
  }

  // ---------------------------------------------------------------------
  // Order.save

  /** The four moments `Order.save` may write. */
  datatype OrderStamps = OrderStamps(
    updatedAt: Option<Instant>,
    paidAt: Option<Instant>,
    cancelledAt: Option<Instant>,
    deliveredAt: Option<Instant>)

  /**
   * One guard of `Order.save`: the moment is recorded when the matching
   * status holds and no moment was recorded before; a recorded moment is
   * never replaced.
   */
  function StampOnce(hit: bool, at: Option<Instant>, now: Instant): (r: Option<Instant>)
    ensures at.Some? ==> r == at
    ensures r.Some? <==> at.Some? || hit
    ensures r != at ==> r == Some(now)
  {
    if hit && at.None? then Some(now) else at
  }

  /** The timestamps after one `Order.save(now)` with the given status. */
  function SaveStamps(status: Status, s: OrderStamps, now: Instant): (r: OrderStamps)
    ensures r.updatedAt == Some(now)
    ensures status == Paid && s.paidAt.None? ==> r.paidAt == Some(now)
    ensures status == Cancelled && s.cancelledAt.None? ==> r.cancelledAt == Some(now)
    ensures status == Delivered && s.deliveredAt.None? ==> r.deliveredAt == Some(now)
    ensures r.paidAt != s.paidAt ==> status == Paid && s.paidAt.None?
    ensures r.cancelledAt != s.cancelledAt ==> status == Cancelled && s.cancelledAt.None?
    ensures r.deliveredAt != s.deliveredAt ==> status == Delivered && s.deliveredAt.None?
  {
    OrderStamps(
      Some(now),
      StampOnce(status == Paid, s.paidAt, now),
      StampOnce(status == Cancelled, s.cancelledAt, now),
      StampOnce(status == Delivered, s.deliveredAt, now))
  }

  /** A save under any status other than PAID, CANCELLED or DELIVERED touches only `updated_at`. */
  lemma SaveWithoutMilestoneKeepsMilestones(status: Status, s: OrderStamps, now: Instant)
    requires status !in {Paid, Cancelled, Delivered}
    ensures SaveStamps(status, s, now) == s.(updatedAt := Some(now))
  {
  }

  /** Saving twice with the same status moves only `updated_at`. */
  lemma SaveStampsTwice(status: Status, s: OrderStamps, t1: Instant, t2: Instant)
    ensures SaveStamps(status, SaveStamps(status, s, t1), t2)
         == SaveStamps(status, s, t1).(updatedAt := Some(t2))
  {
  }

  /** The moment field that belongs to a milestone status. */
  function MilestoneAt(s: OrderStamps, milestone: Status): Option<Instant>
    requires milestone in {Paid, Cancelled, Delivered}
  {
    match milestone
    case Paid => s.paidAt
    case Cancelled => s.cancelledAt
    case Delivered => s.deliveredAt
  }

  /** A series of saves, each made after a caller set the given status. */
  function SaveTrace(s: OrderStamps, saves: seq<(Status, Instant)>): OrderStamps
    decreases |saves|
  {
    if |saves| == 0 then s
    else SaveTrace(SaveStamps(saves[0].0, s, saves[0].1), saves[1..])
  }

  /** The moment of the first save made under the given status, if any. */
  function FirstSaveUnder(saves: seq<(Status, Instant)>, status: Status): (r: Option<Instant>)
    ensures r.Some? <==> exists i :: 0 <= i < |saves| && saves[i].0 == status
    ensures r.Some? ==> exists i :: 0 <= i < |saves| && saves[i] == (status, r.value)
                                    && forall j :: 0 <= j < i ==> saves[j].0 != status
    decreases |saves|
  {
    if |saves| == 0 then None
    else if saves[0].0 == status then Some(saves[0].1)
    else FirstSaveUnder(saves[1..], status)
  }

  /**
   * Over any series of saves, a milestone moment records the first save
   * made under its status, unless it was already recorded before the
   * series began; later saves never move it.
   */
  lemma {:induction false} MilestoneIsFirstSave(s: OrderStamps, saves: seq<(Status, Instant)>, milestone: Status)
    requires milestone in {Paid, Cancelled, Delivered}
    ensures MilestoneAt(SaveTrace(s, saves), milestone)
         == if MilestoneAt(s, milestone).Some? then MilestoneAt(s, milestone)
            else FirstSaveUnder(saves, milestone)
    decreases |saves|
  {
    if |saves| > 0 {
      MilestoneIsFirstSave(SaveStamps(saves[0].0, s, saves[0].1), saves[1..], milestone);
    }
  }

  /** After a non-empty series of saves, `updated_at` is the moment of the last one. */
  lemma {:induction false} UpdatedAtIsLastSave(s: OrderStamps, saves: seq<(Status, Instant)>)
    requires |saves| > 0
    ensures SaveTrace(s, saves).updatedAt == Some(saves[|saves| - 1].1)
    decreases |saves|
  {
    if |saves| > 1 {
      UpdatedAtIsLastSave(SaveStamps(saves[0].0, s, saves[0].1), saves[1..]);
    }
  }

  /** An order: its status, its financial totals and its timestamps. */
  class Order {
    var orderNumber: string
    var status: Status
    var updatedAt: Option<Instant>
    var paidAt: Option<Instant>
    var cancelledAt: Option<Instant>
    var deliveredAt: Option<Instant>
    var subtotal: Cents
    var taxAmount: Cents
    var shippingCost: Cents
    var discountAmount: Cents
    var total: Cents

    /** A new, unsaved order with the model's defaults. */
    constructor (orderNumber: string, subtotal: Cents, total: Cents)
      ensures this.orderNumber == orderNumber && status == Pending
      ensures Stamps() == OrderStamps(None, None, None, None)
      ensures Totals() == [subtotal, 0, 0, 0, total]
    {
      this.orderNumber := orderNumber;
      status := Pending;
      updatedAt, paidAt, cancelledAt, deliveredAt := None, None, None, None;
      this.subtotal := subtotal;
      taxAmount, shippingCost, discountAmount := 0, 0, 0;
      this.total := total;
    }

    function Stamps(): OrderStamps
      reads this
    {
      OrderStamps(updatedAt, paidAt, cancelledAt, deliveredAt)
    }

    /** subtotal, tax_amount, shipping_cost, discount_amount, total. */
    function Totals(): seq<Cents>
      reads this
    {
      [subtotal, taxAmount, shippingCost, discountAmount, total]
    }

    /** `Order.save`: stamps the timestamps; status and totals are left as they are. */
    method Save(now: Instant)
      modifies this`updatedAt, this`paidAt, this`cancelledAt, this`deliveredAt
      ensures Stamps() == SaveStamps(status, old(Stamps()), now)
      ensures status == old(status) && Totals() == old(Totals())
    {
      updatedAt := Some(now);
      if status == Paid && paidAt.None? {
        paidAt := Some(now);
      }
      if status == Cancelled && cancelledAt.None? {
        cancelledAt := Some(now);
      }
      if status == Delivered && deliveredAt.None? {
        deliveredAt := Some(now);
      }
    }
  }

  // ---------------------------------------------------------------------
  // Linked catalog rows, as read at the moment of a save

  datatype Product = Product(name: string, price: Cents)
  datatype ProductVariant = ProductVariant(description: Option<string>)
  /** A design; `None` stands for an unset base product, which the relation does not allow. */
  datatype CustomDesign = CustomDesign(baseProduct: Option<Product>)

  /** Python truthiness of an optional decimal: present and not zero. */
  predicate AmountTruthy(x: Option<Cents>)
  {
    x.Some? && x.value != 0
  }

  // ---------------------------------------------------------------------
  // OrderItem.save

  /** The fields of an order item that `OrderItem.save` may fill in. */
  datatype ItemSnapshot = ItemSnapshot(
    subtotal: Option<Cents>,
    productName: string,
    variantDescription: Option<string>)

  /**
   * With an empty `product_name`, the hook reads `self.product`; the
   * product relation is not nullable, so reading it while unset raises
   * instead of yielding a falsy value.
   */
  predicate ProductLookupFails(s: ItemSnapshot, product: Option<Product>)
  {
    s.productName == "" && product.None?
  }

  /**
   * The item's fields after `OrderItem.save` in memory: an unset or zero
   * subtotal becomes unit price times quantity, and empty snapshots are
   * copied from the linked product and variant. When the product lookup
   * fails, only the subtotal has been filled.
   */
  function ItemSave(s: ItemSnapshot, unitPrice: Cents, quantity: int,
                    product: Option<Product>, variant: Option<ProductVariant>): (r: ItemSnapshot)
    ensures AmountTruthy(s.subtotal) ==> r.subtotal == s.subtotal
    ensures !AmountTruthy(s.subtotal) ==> r.subtotal == Some(unitPrice * quantity)
    ensures s.productName != "" ==> r.productName == s.productName
    ensures s.productName == "" && product.Some? ==> r.productName == product.value.name
    ensures r.productName != s.productName ==> product.Some? && r.productName == product.value.name
    ensures Text.Truthy(s.variantDescription) || ProductLookupFails(s, product)
            ==> r.variantDescription == s.variantDescription
    ensures r.variantDescription != s.variantDescription
            ==> variant.Some? && r.variantDescription == variant.value.description
    ensures !Text.Truthy(s.variantDescription) && !ProductLookupFails(s, product) && variant.Some?
            ==> r.variantDescription == variant.value.description
  {
    var subtotal := if AmountTruthy(s.subtotal) then s.subtotal else Some(unitPrice * quantity);
    if ProductLookupFails(s, product) then
      s.(subtotal := subtotal)
    else
      var name := if s.productName == "" then product.value.name else s.productName;
      var description :=
        if !Text.Truthy(s.variantDescription) && variant.Some? then variant.value.description
        else s.variantDescription;
      ItemSnapshot(subtotal, name, description)
  }

  /** Saving an item a second time, with the same linked rows, changes nothing more. */
  lemma ItemSaveIdempotent(s: ItemSnapshot, unitPrice: Cents, quantity: int,
                           product: Option<Product>, variant: Option<ProductVariant>)
    ensures ItemSave(ItemSave(s, unitPrice, quantity, product, variant), unitPrice, quantity, product, variant)
         == ItemSave(s, unitPrice, quantity, product, variant)
  {
  }

  /**
   * Order history does not follow the catalog: once a save has recorded a
   * non-zero subtotal and non-empty names, a later save against edited
   * product and variant rows keeps them.
   */
  lemma SnapshotSurvivesCatalogEdits(s: ItemSnapshot, unitPrice: Cents, quantity: int,
                                     product: Option<Product>, variant: Option<ProductVariant>,
                                     product': Option<Product>, variant': Option<ProductVariant>)
    requires product.Some? && product.value.name != ""
    requires variant.Some? && Text.Truthy(variant.value.description)
    requires unitPrice * quantity != 0
    ensures ItemSave(ItemSave(s, unitPrice, quantity, product, variant), unitPrice, quantity, product', variant')
         == ItemSave(s, unitPrice, quantity, product, variant)
  {
  }

  /** An order line with its snapshot fields. */
  class OrderItem {
    var product: Option<Product>
    var variant: Option<ProductVariant>
    var productName: string
    var variantDescription: Option<string>
    var unitPrice: Cents
    var quantity: int
    var subtotal: Option<Cents>

    /** A new, unsaved item; the snapshot fields start empty. */
    constructor (product: Option<Product>, variant: Option<ProductVariant>, unitPrice: Cents, quantity: int)
      ensures this.product == product && this.variant == variant
      ensures this.unitPrice == unitPrice && this.quantity == quantity
      ensures Snapshot() == ItemSnapshot(None, "", None)
    {
      this.product, this.variant := product, variant;
      this.unitPrice, this.quantity := unitPrice, quantity;
      productName, variantDescription, subtotal := "", None, None;
    }

    function Snapshot(): ItemSnapshot
      reads this
    {
      ItemSnapshot(subtotal, productName, variantDescription)
    }

    /**
     * `OrderItem.save`. `raised` reports the failed product lookup, after
     * which nothing is persisted and the object keeps the filled subtotal.
     */
    method Save() returns (raised: bool)
      modifies this`subtotal, this`productName, this`variantDescription
      ensures raised == ProductLookupFails(old(Snapshot()), product)
      ensures Snapshot() == ItemSave(old(Snapshot()), unitPrice, quantity, product, variant)
    {
      if !AmountTruthy(subtotal) {
        subtotal := Some(unitPrice * quantity);
      }
      if productName == "" {
        if product.None? {
          return true;
        }
        productName := product.value.name;
      }
      if !Text.Truthy(variantDescription) && variant.Some? {
        variantDescription := variant.value.description;
      }
      raised := false;
    }
  }

  // ---------------------------------------------------------------------
  // CartItem.save and the product_or_design_required constraint

  /**
   * With a falsy price and no product, the hook reads the design's base
   * product; that relation is not nullable, so reading it while unset
   * raises before any price is assigned.
   */
  predicate BaseProductLookupFails(price: Option<Cents>, product: Option<Product>, design: Option<CustomDesign>)
  {
    !AmountTruthy(price) && product.None? && design.Some? && design.value.baseProduct.None?
  }

  /**
   * The price after `CartItem.save`: an unset or zero price is taken from
   * the product, or, with no product, from the design's base product; a
   * non-zero price is kept. A failed base-product lookup leaves it as it was.
   */
  function CartPriceOnSave(price: Option<Cents>, product: Option<Product>,
                           design: Option<CustomDesign>): (r: Option<Cents>)
    ensures AmountTruthy(price) ==> r == price
    ensures !AmountTruthy(price) && product.Some? ==> r == Some(product.value.price)
    ensures !AmountTruthy(price) && product.None? && design.Some? && design.value.baseProduct.Some?
            ==> r == Some(design.value.baseProduct.value.price)
    ensures BaseProductLookupFails(price, product, design) ==> r == price
    ensures r != price ==>
              && !AmountTruthy(price)
              && ((product.Some? && r == Some(product.value.price)) ||
                  (product.None? && design.Some? && design.value.baseProduct.Some? &&
                   r == Some(design.value.baseProduct.value.price)))
  {
    if AmountTruthy(price) then price
    else if product.Some? then Some(product.value.price)
    else if design.Some? && design.value.baseProduct.Some? then Some(design.value.baseProduct.value.price)
    else price
  }

  /**
   * `product_or_design_required`: a cart line names a product or a design.
   * A line the constraint rejects never gets a price from the hook.
   */
  predicate ProductOrDesignRequired(product: Option<Product>, design: Option<CustomDesign>)
    ensures !ProductOrDesignRequired(product, design) ==>
              forall price :: CartPriceOnSave(price, product, design) == price
  {
    product.Some? || design.Some?
  }

  /**
   * A cart line allowed by the constraint whose design has a base product
   * always comes out of a save with a price, and that price is the
   * catalog's (unless a non-zero price was already set).
   */
  lemma CartPriceResolved(price: Option<Cents>, product: Option<Product>, design: Option<CustomDesign>)
    requires ProductOrDesignRequired(product, design)
    requires design.Some? ==> design.value.baseProduct.Some?
    ensures CartPriceOnSave(price, product, design).Some?
    ensures !AmountTruthy(price) ==>
              CartPriceOnSave(price, product, design)
              == Some(if product.Some? then product.value.price else design.value.baseProduct.value.price)
  {
  }

  /**
   * The price is sticky: once a save has produced a non-zero price, later
   * saves keep it, whatever the product or design then say.
   */
  lemma CartPriceSticky(price: Option<Cents>, product: Option<Product>, design: Option<CustomDesign>,
                        product': Option<Product>, design': Option<CustomDesign>)
    requires AmountTruthy(CartPriceOnSave(price, product, design))
    ensures CartPriceOnSave(CartPriceOnSave(price, product, design), product', design')
         == CartPriceOnSave(price, product, design)
  {
  }

  /** A cart line. */
  class CartItem {
    var product: Option<Product>
    var customDesign: Option<CustomDesign>
    var quantity: int
    var price: Option<Cents>

    /** A new, unsaved line: quantity 1 and no price. */
    constructor (product: Option<Product>, customDesign: Option<CustomDesign>)
      ensures this.product == product && this.customDesign == customDesign
      ensures quantity == 1 && price == None
    {
      this.product, this.customDesign := product, customDesign;
      quantity, price := 1, None;
    }

    /**
     * `CartItem.save`: fills in the price; no other field changes. `raised`
     * reports the failed base-product lookup, after which nothing is persisted.
     */
    method Save() returns (raised: bool)
      modifies this`price
      ensures raised == BaseProductLookupFails(old(price), product, customDesign)
      ensures price == CartPriceOnSave(old(price), product, customDesign)
    {
      raised := false;
      if !AmountTruthy(price) {
        if product.Some? {
          price := Some(product.value.price);
        } else if customDesign.Some? {
          if customDesign.value.baseProduct.None? {
            return true;
          }
          price := Some(customDesign.value.baseProduct.value.price);
        }
      }
    }
  }
}
