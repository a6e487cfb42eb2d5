/**
 * The database rows the payment code reads and writes.
 * Booths, masterclasses, panels, presentations and hotel rooms share their hold, reservation and
 * ownership columns, so one map keyed by kind and id stands for the five tables; likewise advert
 * and branding slots.
 */
module Tables {
  import opened Common
  import opened CompanyTier
  import opened CheckoutHold

  datatype AssetKind = Booth | Masterclass | Panel | Presentation | HotelRoom

  datatype AssetId = AssetId(kind: AssetKind, id: Id)

  /** `owner` is takenById (a company), or bookedById (a user) for a hotel room. */
  datatype Asset = Asset(
    tier: Option<Tier>, published: bool, duration: nat, day: nat,
    reserved: bool, taken: bool, owner: Option<Id>, hold: Hold)

  datatype SlotKind = Advert | Branding

  datatype SlotId = SlotId(kind: SlotKind, id: Id)

  datatype Slot = Slot(total: int, available: int, reserved: bool)

  datatype SlotHold = SlotHold(slot: SlotId, orderId: Option<Id>, paymentId: Option<Id>, expiresAt: int)

  datatype Company = Company(tier: Option<Tier>, paidTotal: int)

  datatype SessionRule = SessionRule(duration: Option<nat>, day: Option<nat>)

  /** `slots` lists the plan's advert links and then its branding links. */
  datatype Plan = Plan(
    tier: Tier, active: bool, boothTier: Option<Tier>,
    masterclass: SessionRule, presentation: SessionRule, slots: seq<SlotId>)

  /** One entry of `sponsorshipResolution.bundles`; `slots` lists its adverts and then its brandings. */
  datatype BundleEntry = BundleEntry(
    planId: Id, boothId: Option<Id>, masterclassId: Option<Id>, presentationId: Option<Id>, slots: seq<SlotId>)

  datatype PaymentStatus = Pending | Success | Failed | Refunded

  datatype PaymentKind = OrderPayment | AssetPayment(asset: AssetKind) | PlanPayment | SlotPayment(slot: SlotKind)

  /** `targetId` is the id column that belongs to the kind (boothId, sponsorshipPlanId, ...). */
  datatype Payment = Payment(
    kind: PaymentKind, status: PaymentStatus, manual: bool, userId: Id, companyId: Option<Id>,
    orderId: Option<Id>, targetId: Option<Id>, baseAmount: int, bundles: seq<BundleEntry>)

  datatype Item =
    | AssetItem(asset: AssetKind, assetId: Option<Id>)
    | SlotItem(slot: SlotKind, slotId: Option<Id>)
    | PlanItem(planId: Option<Id>, unit: int, quantity: int)

  datatype OrderStatus = PendingPayment | Paid | OrderFailed

  datatype Order = Order(userId: Id, companyId: Option<Id>, status: OrderStatus, items: seq<Item>)

  datatype Db = Db(
    assets: map<AssetId, Asset>,
    slots: map<SlotId, Slot>,
    slotHolds: seq<SlotHold>,
    assignments: set<(Id, SlotId)>,
    companies: map<Id, Company>,
    plans: map<Id, Plan>,
    payments: map<Id, Payment>,
    orders: map<Id, Order>)
}
