/**
 * The invoice's sub-entities whose classes are not part of this model
 * (extensions, invoice type, references, contract, signature, payment
 * means, allowance/charge, monetary total, lines, dates and times). Each is
 * an opaque value; only the two read by the invoice expose more: the
 * delivery's three optional parts and the tax total's amount.
 */
module InvoiceParts {
  import opened PhpValues

  /** An opaque sub-entity, told apart by its handle. */
  datatype Entity = Entity(handle: nat)

  /** A delivery: actual date, latest date and location, each optional. */
  datatype Delivery = Delivery(
    actualDeliveryDate: Option<Entity>,
    latestDeliveryDate: Option<Entity>,
    deliveryLocation: Option<Entity>)

  /** A tax total: its amount, when set, and the rest of its sub-tree. */
  datatype TaxTotal = TaxTotal(taxAmount: Option<Entity>, details: Entity)
}
