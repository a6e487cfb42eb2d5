# Conference shop: verified model

A Dafny model of the inventory and payment machine of a conference registration service, with the properties its parts
are meant to have together. `dafny verify dfyconfig.toml` checks everything.

## What is modelled

The tables are one value, `Tables.Db`: booths, sessions and hotel rooms (`assets`), marketing slots with counters, slot
holds, assignments, companies, plans, payments and orders. A handler is a function from tables to tables (`Fulfilment`,
`Refunds`, `BundleResolution`, `Machine`); class `Handlers.Shop` holds the tables as fields and carries the handlers out
step by step, with the loops, rollback lists and compensation of the code, and every method is proved equal to the
function. `Machine.Run` strings events together in any order, so a theorem about runs covers webhooks that come twice,
late or in the wrong order. Each event is one handler run to its end.

| Files | Subject |
|---|---|
| `Tables`, `Inventory`, `CheckoutHold`, `CompanyTier` | rows, holds, counters, tiers |
| `Fulfilment`, `Refunds`, `BundleResolution`, `Machine` | what each handler does, and runs |
| `Handlers` | the handlers as methods over fields |
| `Effects`, `Charges`, `Reversals`, `Resolutions` | closed forms: what any number of lines does to each table |
| `Obstacles` | how far a delivery gets, read off the tables before it |
| `Growth` | what every event keeps of payments and orders |
| `RefundUndo`, `RefundFlags`, `SlotConservation`, `Backing`, `BoothClash`, `Ownership`, `BoothKey`, `Outcomes` | what payments do to rows and counters |
| `Leaks`, `Accounts`, `Assignments` | what deliveries that are given up leave, sponsor totals and assignments |
| `Closings`, `Sales`, `StoredTiers`, `Lifecycles` | how payments and orders end: statuses, holds, tiers, and when a charge is a sale |
| `PlanSales` | which plan purchases begin |
| `FreshShops`, `LeakRuns`, `SessionRuns` | runs from small shops |
| `BundleHolds`, `HoldsHonoured`, `BoothHolds`, `BundlesFulfilled`, `FirstFit` | holds, and bundles resolved, held and delivered |
| `Tiers`, `TierAgreement`, `TierLimits` | the tier shown for a company |
| `Fees` | the search for the gross amount |
| `Attendance` | the door, with count and insert as separate steps, and the day's summary |
| `Elections`, `AuditCsv` | votes, results, statistics and the audit file |
| `Carts`, `Slugs` | carts and unique slugs |

The database contributes its unique keys (prisma/schema.prisma lines 326, 390, 403, 478, 490, 871 and 927), its foreign
keys where a handler relies on them, and transactions that leave nothing behind when they fail. `requestRefund` is an
arbitrary boolean, the clock an integer that only grows, and every expiry is arbitrary.

## What the proofs found

- **Two booths in one cart.** Nothing keeps a second booth out of a cart (`Carts.CartCanHoldTwoBooths`). Fulfilment then
  breaks the unique key after serving the first lines; the payment stays successful with the order pending
  (`Outcomes.OrderDeliveryEnds`), and a refund returns copies that were never taken. Which orders do this and where they
  stop is decided by the order and the tables before it (`BoothClash.CrashesExactlyOnTwoBooths`,
  `Outcomes.ReadyOrderEnds`); `BoothClash.CrashedOrderOverReturns` gives the excess, and
  `BoothClash.TwoBoothsReturnTooMuch` a run. Conservation over runs is if-and-only-if, for carts of any content
  (`SlotConservation.SlotsAreConserved`); only such an order can make a refund return too much (`Backing.DeliveryBacks`,
  `Backing.RefundsAreCovered`).
  Its slot holds stay too, beside the copies it has taken (`BundleHolds.DeliveryFits`).
- **A failed order leaks.** The compensation loop returns the copies of stand-alone lines and nothing else: rows taken by
  earlier lines, rows a plan line took before its bundle failed, the copies of bundles, the assignments, also those of the
  copies returned, sponsor totals and tiers stay. What stays is exact, table by table (`Leaks.GivenUpDeliveriesLeak`), and
  two runs show it (`LeakRuns.GivenUpOrderLeaks`, `LeakRuns.HalfABundleLeaks`). Sponsor totals therefore part from the payments by such
  a delivery, by one broken off at a second booth and by a late charge.failed only (`Accounts.TotalsAreEarned`), and
  assignments by the first and the last only (`Assignments.AssignmentsAreOut`).
- **Tier and holdings can part** in three ways, each reached by a run from a fresh shop: an order is given up after its
  plan line (`TierLimits.StoppedOrderKeepsTier`), an order is broken off at a second booth before its plan line, so that
  a plan counts whose tier was never written (`TierLimits.BrokenOrderLosesTier`), or a charge.failed comes after the
  plan was bought and marks it failed without reversing anything (`TierLimits.LateFailureKeepsTier`). There is no
  fourth: `TierAgreement.TierStep` and `TierAgreement.TierShownIsEarned` are if-and-only-if, with conditions on the
  tables before each event.
- **The stored tier may lag** behind the company's booth because of a stale read, exactly when
  `TierLimits.StoredTierLags` says; the tier shown does not.
- **Holds counted with a negated filter.** A hold stores either an order or a payment. Whether `NOT orderId = x` keeps
  rows whose order is null depends on the database's three-valued logic, so it is a parameter, `NullRule`. If such rows
  drop out, selling one plan both ways overbooks a slot (`HoldsHonoured.MixedPurchasesOverbook`). Whether a hold that
  goes through keeps the bound is decided exactly by the room beside all live holds (`BundleHolds.ResolutionFits`);
  with nulls counted, or with the slot's holds all of one kind, there always is (`BundleHolds.CountedHoldsHaveRoom`).
- **Late charges.** Fulfilment does not look at other checkouts' slot holds, so a charge after its own hold has expired
  can use up a copy that is held (`HoldsHonoured.LateChargeTakesHeldCopy`). It does so exactly when there is no room
  beside the other live holds (`BundleHolds.DeliveryFits`, `BundleHolds.BoundIsExact`).
- **Sessions of a bundle are not protected.** A held booth and held slots are always delivered in time; a held session
  may have gone to a cart (`BundlesFulfilled.LiveBundleIsFulfilled`, `BundlesFulfilled.LiveOrderIsFulfilled`), as in the
  run of `SessionRuns.HeldSessionIsTaken`.
- **The gross is the least** for more bases than the dip suggests: exactly up to 236450 and from 246250 on.
- A refund does not give a bundle's booth its reserved flag back, nor a row the hold its delivery cleared:
  `RefundFlags.RefundKeepsFlagsCleared` says exactly when that shows; `RefundUndo` speaks of ownership.
- The reversal of a plan payment reads the first stored bundle, its fulfilment the bundle of its plan; they are the same
  for what `StartPlanPayment` stores, which the lemmas require as `Charges.WellFormed`.

## Model

| member | source | states |
|---|---|---|
| `CompanyTier.EffectiveRank` | src/company/company-tier.util.ts:3-40 | the tier shown ranks as the higher of the stored tier and the booth tier: headliner, platinum, gold, silver, bronze, default, the first that either is |
| `Outcomes.HoldBlocksOthersOnly` | src/commerce/checkout-hold.util.ts:5-44 | a hold blocks every checkout but its own, exactly until it expires |
| `RefundUndo.RefundUndoesFulfilment` | src/payments/paystack.service.ts:2978-3062 | for every kind of payment and any number of lines, refunding a fulfilled payment restores every slot counter and sponsor total; ownership and room bookings come back if and only if all its rows were free before, assignments if and only if the company had none of its slots before |
| `RefundUndo.ChargeIsBought` | src/payments/paystack.service.ts:2342-2376 | a fulfilled delivery gives exactly the rows of its lines to the payer, takes exactly their copies, assigns them and adds their amount, and touches nobody else |
| `LeakRuns.HalfABundleLeaks` | src/payments/paystack.service.ts:2005-2213 | a run from a fresh shop: an order whose plan line stops at its slots is refunded or failed, and the company keeps the booth of the bundle |
| `RefundFlags.RefundKeepsFlagsCleared` | src/payments/paystack.service.ts:3111-3169 | after a charge and its refund a row has its reserved flag back unless it is the booth of a bundle, and its hold unless the delivery cleared it: all flags come back if and only if no such booth was reserved and no row cleared had a hold |
| `Accounts.TotalsAreEarned` | src/payments/paystack.service.ts:2562-2580 | over every run, a sponsor total is at every moment the sum of the plan lines of the company's successful payments, if and only if no delivery is given up after, or broken off before, plan lines that cost something, and no charge.failed comes for a bought payment with such lines |
| `Accounts.NothingIsEarnedYet` | src/payments/paystack.service.ts:2562-2580 | where nothing is bought yet, a total of zero is earned: a run may start there |
| `Accounts.TotalStep` | src/payments/paystack.service.ts:1409-1482 | the same for one event, refunds included |
| `Assignments.AssignmentsAreOut` | src/payments/paystack.service.ts:2622-2677 | over every run, every assignment stands at every moment for a copy that a successful payment of the company has out, if and only if no delivery without success and no charge.failed leaves one that no other payment speaks for |
| `Assignments.AssignmentStep` | src/payments/paystack.service.ts:1409-1482 | the same for one event, refunds and deleted slots included |
| `Charges.ApplyShape` | src/payments/paystack.service.ts:1484-2003 | the branches for single items do what an order of that one line would do |
| `Effects.FulfilItemsEffect` | src/payments/paystack.service.ts:2342-2379 | after any prefix of lines: counters and totals in closed form, no row changed but rows of the lines, claimed by their guards, and, if no line stopped the loop, every row held and every copy assigned |
| `Leaks.LoopLeaves` | src/payments/paystack.service.ts:2342-2379 | the same loop, stopped or not, in closed form for all four: exactly the rows of the lines served, and those a plan line stopped half-way had taken, are the buyer's; copies and totals are those of the lines served; assignments are those of their copies, less those a rolled-back bundle deleted |
| `Leaks.DeliveryLeaves` | src/payments/paystack.service.ts:2281-2383 | the same for the delivery of a payment of any kind, compensation and epilogue included, read off the tables before it |
| `Leaks.GivenUpDeliveriesLeak` | src/payments/paystack.service.ts:2349-2371 | a delivery that is given up leaves the rows as they were if and only if all it took were the buyer's already, the counters if and only if no bundle with slots was served, the assignments if and only if it added and deleted none, and the totals if and only if the plans served cost nothing |
| `LeakRuns.GivenUpOrderLeaks` | src/payments/paystack.service.ts:2349-2371 | a run from a fresh shop: a refunded or failed order leaves a panel, a branding copy, two assignments, one of them without a copy, and a sponsor total with the company |
| `Charges.DeliveryEffect` | src/payments/paystack.service.ts:2281-2383 | a whole delivery, aborted or not: counters lose exactly the net copies, and beyond the lines only holds of this checkout and statuses move |
| `Reversals.ReverseItemsUndone` | src/payments/paystack.service.ts:3278-3418 | reversing any number of lines frees exactly the rows still held, returns exactly their copies, deletes exactly their assignments and subtracts their sum |
| `Reversals.ReverseUndone` | src/payments/paystack.service.ts:2978-3062 | the same for a payment of any kind |
| `Reversals.FirstBundleIsReversed` | src/payments/paystack.service.ts:3206-3268 | the reversal of a plan payment undoes the first entry stored, whichever plan it is for |
| `Outcomes.ReadyOrderEnds` | src/payments/paystack.service.ts:2385-2679 | an order of any number of stand-alone lines, in any order, that are all for sale and have copies enough is fulfilled if and only if its booth lines are for one booth; otherwise it breaks the unique key, and the lines not served begin at the second booth |
| `Outcomes.OrderDeliveryEnds` | src/payments/paystack.service.ts:2281-2383 | an order is paid if and only if every line was served; when one was not it fails, and the payment is refunded if something was there to sell and the refund was granted, else failed; after a broken unique key the payment stays successful and the order pending |
| `Closings.DeliveryEnds` | src/payments/paystack.service.ts:2694-2732 | a delivery of any kind of payment: when something is missing the payment fails, when something is unavailable it is refunded if that is granted and else failed; for each ending, which row and slot holds are gone, that all others stay, which reserved flags go and what becomes of the order |
| `Closings.FailedChargeCloses` | src/payments/paystack.service.ts:1448-1482 | no row or slot hold of the payment or its order is left and every other stays, an open order fails and every other stays, the payment is failed unless it was refunded, and nothing else changes |
| `Closings.CancellationCloses` | src/payments/manual-payment.service.ts:40-91 | the same for a pending payment; any other stays as it is |
| `Sales.RowSaleIsDecided` | src/payments/paystack.service.ts:1536-1802 | a row paid for alone is sold if and only if it is not reserved or unpublished, not held against the payment, not another's, and the company has no other booth; the payment fails when row or company is missing, and is given up otherwise |
| `Sales.CopySaleIsDecided` | src/payments/paystack.service.ts:1926-2003 | a copy is sold if and only if the slot is not reserved and has one left |
| `Sales.PlanSaleIsDecided` | src/payments/paystack.service.ts:1803-1858 | a plan is sold if and only if it is active, each row of its bundle can be taken and each slot has as many copies as the bundle lists it times; an inactive plan is given up |
| `Sales.SingleItemDeliveryEnds` | src/payments/paystack.service.ts:2693-2732 | a payment for one row, copy or plan succeeds when it was a sale, fails when something it points at is missing, and is otherwise, an inactive plan included, refunded if that is granted and else failed |
| `Sales.PlanEntryIs` | src/payments/paystack.service.ts:1822-1828 | a plan payment delivers the first entry stored for its plan, and without one the first entry stored |
| `StoredTiers.StoredTierIs` | src/payments/paystack.service.ts:2562-2580 | the stored tier after any delivery, read off the tables before: each booth taken raises it, also in a bundle stopped later, and a plan that outranks the tier read at the start is written over it |
| `StoredTiers.RecomputedTierIs` | src/payments/paystack.service.ts:3064-3109 | recomputing after a refund gives the best tier among the booths taken and the plans of the other successful payments, or none |
| `Lifecycles.StatusStep` | src/payments/paystack.service.ts:1409-1482 | every event moves the status of every payment and order exactly so, and adds only pending ones |
| `Lifecycles.ClosedPaymentsStay` | src/payments/paystack.service.ts:1409-1482 | over every run a refunded payment stays refunded, and a successful one stays successful until it is refunded or reported failed |
| `Lifecycles.OrdersKeepInStep` | src/payments/paystack.service.ts:2693-2704 | over every run no two payments share an order, the order of a pending payment waits, and that of a failed payment does not |
| `SlotConservation.SlotsAreConserved` | src/payments/paystack.service.ts:1409-1482 | over every run from a fresh shop, with carts of any content and webhooks repeated, late or reordered: available plus the copies out is the total at every moment, if and only if every refund and every undone assignment returns copies that are out by it; then 0 <= available <= total |
| `SlotConservation.ConservedStep` | src/marketing-slots/advert-slot.service.ts:192-270 | from balance, every event keeps it, but a refund or an undone assignment if and only if it returns what is out |
| `SlotConservation.RefundConserves` | src/payments/paystack.service.ts:2978-3062 | the refund of any successful payment keeps the balance if and only if, slot by slot, what it returns is out by the payment's own deliveries |
| `Backing.DeliveryBacks` | src/payments/paystack.service.ts:2281-2383 | after a delivery, what a refund of the payment would return is out by it, unless the delivery breaks off at a second booth and the lines not served stand for copies that were not out by it before: exactly |
| `Backing.RefundsAreCovered` | src/payments/paystack.service.ts:1409-1482 | over every run in which no delivery breaks off before lines that stand for copies, and administrators undo their own assignments only, every refund returns what is out |
| `Backing.OneBoothCartsConserve` | src/payments/paystack.service.ts:2399-2430 | in particular where no cart holds two booth lines |
| `SlotConservation.FulfilItemsDoNotCrash` | src/payments/paystack.service.ts:2016-2045 | lines that stand for one booth at most never break the unique key on the booth owner |
| `Obstacles.LoopEndsAtTheFirstObstacle` | src/payments/paystack.service.ts:2342-2376 | the line loop stops exactly at the first line that an outcome, read off the tables before the delivery and the lines before it, says cannot be served, and with the verdict that outcome says |
| `Obstacles.DeliveryIsForeseen` | src/payments/paystack.service.ts:2281-2383 | the same for the delivery of a payment of any kind |
| `BoothClash.CrashesExactlyOnTwoBooths` | src/payments/paystack.service.ts:2399-2430 | when no line is unavailable, a delivery breaks the unique key if and only if its rows hold two booths, is fulfilled if and only if they do not, and stops at the line that brings the second |
| `BoothClash.CrashedOrderOverReturns` | src/payments/paystack.service.ts:2342-2371 | when the first line that cannot be served wants a second booth, a later refund leaves every counter above where it began by exactly the copies of the lines from there on, so it is exact if and only if they stand for none |
| `BoothClash.TwoBoothsReturnTooMuch` | src/payments/paystack.service.ts:2399-2430 | a run from a fresh shop: an order of two booths and an advert is charged and refunded, and a slot of one copy has two available |
| `SlotConservation.RemovableSlotIsNotOut` | src/marketing-slots/advert-slot.service.ts:166-190 | a slot that may be deleted is out to no administrator and no payment |
| `Backing.RemovableSlotIsNotSold` | src/marketing-slots/advert-slot.service.ts:166-190 | and no successful payment that is backed stands for it |
| `Outcomes.ResizingKeepsCopiesOut` | src/marketing-slots/advert-slot.service.ts:245-270 | a new total is taken exactly when it is positive and covers the copies out, which stay out |
| `TierAgreement.TierShownIsEarned` | src/payments/paystack.service.ts:1803-1857 | over every run, carts of any content included, the tier shown ranks at every moment as the best of the booth held and the plans of the successful payments if and only if every delivery of the company survives and every late charge.failed is harmless, both conditions on the tables before the event |
| `TierAgreement.TierStep` | src/payments/paystack.service.ts:1409-1482 | from agreement, any one event keeps it if and only if it is allowed |
| `TierAgreement.OwnDeliveryAgrees` | src/payments/paystack.service.ts:2342-2371 | an order parts tier and holdings exactly when it is given up after its plan line, or broken off before it, and the plan outranks the booths left and the other plans |
| `TierAgreement.SingleItemsSurvive` | src/payments/paystack.service.ts:1803-1857 | a single-item payment never does |
| `TierAgreement.PlanlessOrdersSurvive` | src/payments/paystack.service.ts:2342-2371 | nor does an order without a plan line |
| `TierAgreement.LateFailureAgrees` | src/payments/paystack.service.ts:1448-1482 | a charge.failed for a bought plan keeps the agreement if and only if booths and other plans rank as high as its plan; a cancellation always does |
| `Tiers.LinesRaise` | src/payments/paystack.service.ts:2545-2583 | whatever lines with one plan at most took before the loop ended, and although the plan compares with a row read before, stored tier and booths afterwards rank as before, booths and the served plan together |
| `TierAgreement.RefundOfOwnAgrees` | src/payments/paystack.service.ts:3064-3128 | a refund leaves the stored tier in agreement with what remains |
| `TierLimits.StoredTierLags` | src/payments/paystack.service.ts:1842-1855 | after a fulfilled plan payment, and from a stored tier not below the booths, the stored tier is below them exactly when the plan outranks the tier the company had and a booth, new or old, outranks the plan |
| `TierLimits.SponsorshipLags` | src/payments/paystack.service.ts:2562-2580 | the same for the plan branch on its own, from the row it compares with |
| `TierLimits.StoredTierCanLag` | src/payments/paystack.service.ts:1842-1855 | a run from a fresh shop: a platinum booth inside a gold plan ends with gold stored |
| `TierLimits.LateFailureKeepsTier` | src/payments/paystack.service.ts:1448-1482 | a run from a fresh shop: a late charge.failed marks a bought plan failed, gold stays stored, and tier and holdings have parted |
| `TierLimits.StoppedOrderKeepsTier` | src/payments/paystack.service.ts:2349-2371 | a run from a fresh shop: an order given up after its plan line ends refunded or failed with gold stored, and tier and holdings have parted |
| `TierLimits.BrokenOrderLosesTier` | src/payments/paystack.service.ts:2399-2430 | a run from a fresh shop: an order broken off at a second booth stays successful and counts for its plan, no tier is stored, and tier and holdings have parted |
| `BundleHolds.LiveHoldsFit` | src/sponsorship/sponsorship-bundle-resolution.service.ts:134-155 | over runs of resolutions, releases, clock, cleanup, refunds and deliveries, in which charges and holds find room, the live holds on a slot sold only through plans never exceed its available copies |
| `BundleHolds.BoundIsExact` | src/sponsorship/sponsorship-bundle-resolution.service.ts:134-155 | with the slot left alone by administrators and single sales, and carts of any content, the bound holds at every moment of a run if and only if every delivery and every new hold found room |
| `HoldsHonoured.LiveHoldIsHonoured` | src/sponsorship/sponsorship-bundle-resolution.service.ts:255-273 | over the same runs, from the start of a plan payment until its hold expires, its slots can all be taken |
| `HoldsHonoured.OrderHoldIsHonoured` | src/commerce/order.service.ts:373-425 | the same from the checkout of a cart with a plan until the hold of the order expires |
| `HoldsHonoured.CheckoutHoldsBundle` | src/sponsorship/sponsorship-bundle-resolution.service.ts:255-273 | a checkout that went through holds every slot of its plan for its order |
| `BundleHolds.ResolutionFits` | src/sponsorship/sponsorship-bundle-resolution.service.ts:157-275 | a resolution that passed the availability check keeps the bound if and only if a copy is left beside all live holds |
| `BundleHolds.CountedHoldsHaveRoom` | src/sponsorship/sponsorship-bundle-resolution.service.ts:134-155 | what the availability check lets through has that room whenever null columns are counted, or the holds on the slot are all by orders or all by payments |
| `BundleHolds.DeliveryFits` | src/payments/paystack.service.ts:2158-2212 | a delivery, however it ends, keeps the bound if and only if the copies of the lines before its first obstacle fit beside the live holds it leaves: those of all other checkouts, and its own when it breaks off at a second booth |
| `BundleHolds.LiveHoldHasRoom` | src/payments/paystack.service.ts:2158-2212 | a charge under live holds of its own fits, unless it takes a copy and then breaks off |
| `HoldsHonoured.HoldsLast` | src/commerce/checkout-hold-cleanup.service.ts:17-40 | over every run, a live slot hold stays until it expires, its own checkout ends or the slot is deleted |
| `HoldsHonoured.MixedPurchasesOverbook` | src/sponsorship/sponsorship-bundle-resolution.service.ts:163-210 | if null columns drop out of the negated filter, an order is let through beside a plan payment for the same last copy; otherwise it is refused |
| `HoldsHonoured.LateChargeTakesHeldCopy` | src/payments/paystack.service.ts:2158-2182 | a charge after its own hold expired, and without room, takes the copy another live hold was promised |
| `BoothHolds.BoothHoldIsExclusive` | src/commerce/cart.service.ts:282-291 | a gold, platinum or headliner booth held by a bundle keeps its whole row, whatever carts, bundles, deliveries and refunds of others do, until its hold expires or its checkout ends |
| `BundlesFulfilled.LiveBundleIsFulfilled` | src/payments/paystack.service.ts:2005-2213 | over the same runs, a plan payment charged before its hold expires is fulfilled if and only if the company and an active plan are there, the company has no booth beside a bundle with one, and the sessions of the bundle are free |
| `BundlesFulfilled.LiveOrderIsFulfilled` | src/payments/paystack.service.ts:2281-2383 | an order with a plan charged before its hold expires is fulfilled if and only if, beside that, each of its other lines can be served |
| `SessionRuns.HeldSessionIsTaken` | src/payments/paystack.service.ts:2055-2090 | a run from a fresh shop: a cart checks out over the hold of a plan payment on a masterclass and is charged, and the charge of the plan, long before its hold expires, is refunded or failed |
| `BoothHolds.HeldBoothIsNotPicked` | src/sponsorship/sponsorship-bundle-resolution.service.ts:322-344 | another checkout is never given a booth under a live hold |
| `Outcomes.CartHoldsItsRows` | src/commerce/order.service.ts:177-235 | placing the holds of a cart succeeds exactly when its rows exist and writes exactly them, whoever held them |
| `FirstFit.BoothIsFirstFit` | src/sponsorship/sponsorship-bundle-resolution.service.ts:322-344 | a booth is picked if and only if one of the tier is neither taken nor held by another checkout, unreserved before reserved and then by id |
| `FirstFit.SessionIsFirstFit` | src/sponsorship/sponsorship-bundle-resolution.service.ts:346-406 | a session is picked if and only if a published one of the duration and day is neither taken, reserved nor held by another checkout, by id |
| `FirstFit.ResolutionIsComplete` | src/sponsorship/sponsorship-bundle-resolution.service.ts:157-320 | a plan resolves if and only if it exists and is active, has no booth or one of the three high tiers, complete or no session rules, every slot is there and every row it asks for is free |
| `FirstFit.SlotsAreThere` | src/sponsorship/sponsorship-bundle-resolution.service.ts:233-320 | the slot checks succeed if and only if every slot of the plan is unreserved and has more copies left than running holds of other checkouts count against it |
| `PlanSales.PlanPaymentStarts` | src/payments/paystack.service.ts:1203-1345 | a plan payment starts if and only if its id is new, the company exists, has no payment pending for the plan, has bought no plan singly or in a cart, has no booth if the plan brings one, and the plan resolves |
| `PlanSales.CheckoutGoesThrough` | src/commerce/order.service.ts:237-420 | a checkout goes through if and only if its ids are new, the cart is not empty and has a company unless it holds rooms only, no line is for a plan's slot, its rows exist, and its plan is the only one, may be bought and resolves once the rows are held |
| `Resolutions.CheckoutTables` | src/commerce/order.service.ts:374-424 | a checkout that goes through stores one waiting order with its lines, one pending payment for it with the bundles of its plans, and holds, and nothing else |
| `BundleHolds.InitPlanTables` | src/payments/paystack.service.ts:1250-1345 | a plan payment that starts stores one pending payment with its bundle, and one hold for each slot of the plan |
| `PlanSales.NoSecondPlan` | src/sponsorship/sponsorship-bundle-resolution.service.ts:421-450 | over every run, once a company has bought a plan singly or in a cart and until that is refunded or reported failed, no plan payment and no checkout with a plan of it begins |
| `FirstFit.OnlyPickedRowsAreWritten` | src/sponsorship/sponsorship-bundle-resolution.service.ts:276-318 | the picked rows get the hold of the checkout, none was blocked or taken, and no other row changes |
| `FirstFit.ReleaseUndoesResolution` | src/payments/paystack.service.ts:2217-2247 | releasing a payment after its resolution restores, at every later time and for every asker, who is blocked, and every slot hold |
| `FirstFit.FailedBundleLeavesNoTrace` | src/payments/paystack.service.ts:2133-2212 | a failed bundle leaves every slot counter as at entry, and the assignments if and only if the company had none of the slots tried |
| `FirstFit.FailedPlanMovesNoCounter` | src/payments/paystack.service.ts:1822-1840 | a plan payment that cannot be fulfilled moves no counter and does not stay successful |
| `Ownership.OwnershipNeverMovesSilently` | src/payments/paystack.service.ts:3111-3169 | if a row stops belonging to its owner during a run, some step of it refunded a payment of that owner for the row |
| `Ownership.OwnersAreEarned` | src/payments/paystack.service.ts:1557-1586 | a row gets an owner only by a delivery of a payment for it, while it was free, published, not reserved unless a bundled booth, and not held by another checkout |
| `BoothKey.OneBoothPerCompany` | prisma/schema.prisma:326 | over every run no company holds two booths |
| `Handlers.Shop.TakeBundleSlots` | src/payments/paystack.service.ts:2133-2212 | the slot loop with its list of copies taken and its rollback leaves all copies taken and assigned, or none |
| `Handlers.Shop.RollBackSlots` | src/payments/paystack.service.ts:2135-2156 | every copy on the list is given back and its assignment deleted |
| `Handlers.Shop.TakeLine` | src/payments/paystack.service.ts:2392-2545 | one row for one buyer, refused, taken or breaking the unique key, with the tier of a booth |
| `Handlers.Shop.TakeBundleBooth` | src/payments/paystack.service.ts:2016-2052 | the booth of a bundle, its flags and its hold |
| `Handlers.Shop.TakeBundle` | src/payments/paystack.service.ts:2005-2215 | booth, masterclass, presentation and slots in this order, stopping at the first that fails |
| `Handlers.Shop.BuyPlan` | src/payments/paystack.service.ts:2545-2583 | bundle, total and tier of a plan |
| `Handlers.Shop.FulfilItems` | src/payments/paystack.service.ts:2342-2376 | the line loop and the list of stand-alone copies for its compensation |
| `Handlers.Shop.ApplyOrder` | src/payments/paystack.service.ts:2281-2383 | checks, lines, compensation, refund request and statuses of an order |
| `Handlers.Shop.ApplySuccess` | src/payments/paystack.service.ts:1484-2003 | dispatch over the kinds of payment |
| `Handlers.Shop.HandleChargeSuccess` | src/payments/paystack.service.ts:1409-1446 | a closed payment is left alone; any other is marked and applied |
| `Handlers.Shop.HandleChargeFailed` | src/payments/paystack.service.ts:1448-1482 | the payment is closed: failed unless refunded, with no hold of it or its order left, every other hold kept and an open order failed |
| `Handlers.Shop.VerifyTransfer` | src/payments/manual-payment.service.ts:166-201 | an administrator confirms a pending bank transfer |
| `Handlers.Shop.CancelPendingPayment` | src/payments/manual-payment.service.ts:40-91 | only a pending payment is closed, and so |
| `Handlers.Shop.HighestTier` | src/payments/paystack.service.ts:3095-3108 | the reduction over the tiers found returns the best of them, or none |
| `Handlers.Shop.RecomputeTier` | src/payments/paystack.service.ts:3064-3109 | the stored tier becomes the best of booths and remaining plans |
| `Handlers.Shop.ReverseItems` | src/payments/paystack.service.ts:3278-3418 | the reversal loop over the lines of an order |
| `Handlers.Shop.HandleRefund` | src/payments/paystack.service.ts:3420-3445 | only a successful payment is reversed, once |
| `Handlers.Shop.ReleaseExpired` | src/commerce/checkout-hold-cleanup.service.ts:17-40 | no expired hold is left, every other stays as often as it was, rows change in nothing else, and nobody is blocked or let through, now or later, who was not before |
| `Handlers.Shop.FirstUnblocked` | src/sponsorship/sponsorship-bundle-resolution.service.ts:333-343 | sorting and searching finds the first row that no other checkout blocks |
| `Handlers.Shop.ResolvePlan` | src/sponsorship/sponsorship-bundle-resolution.service.ts:157-320 | slot checks and holds, and the three picks in turn, give the resolution chosen on the state first read |
| `Handlers.Shop.StartPlanPayment` | src/payments/paystack.service.ts:1203-1345 | the plan checks and the check for a pending payment, then a payment row and its holds, or nothing when the bundle cannot be resolved |
| `Handlers.Shop.Checkout` | src/commerce/order.service.ts:373-425 | holds, bundles, order and payment in one transaction, or nothing |
| `Handlers.Shop.AssignAdmin` | src/marketing-slots/advert-slot.service.ts:197-224 | one copy less, if the company exists and the slot is free to assign |
| `Handlers.Shop.UnassignAdmin` | src/marketing-slots/advert-slot.service.ts:226-243 | one copy more, up to the total |
| `Handlers.Shop.UpdateTotalSlots` | src/marketing-slots/branding-slot.service.ts:240-265 | the total changes and the copies out stay out |
| `Handlers.Shop.TakeCopy` | src/payments/paystack.service.ts:2170-2177 | the guarded update takes a copy exactly when one is left |
| `Handlers.Shop.GiveCopyBack` | src/payments/paystack.service.ts:2137-2142 | one copy more |
| `Handlers.Shop.TakeBundleSession` | src/payments/paystack.service.ts:2055-2090 | the session of a bundle, taken once and its hold cleared |
| `Handlers.Shop.TakeSlotCopy` | src/payments/paystack.service.ts:2622-2647 | a stand-alone copy and its assignment |
| `Handlers.Shop.FulfilItem` | src/payments/paystack.service.ts:2385-2679 | the switch over the types of line |
| `Handlers.Shop.GiveCopiesBack` | src/payments/paystack.service.ts:2349-2362 | the compensation gives back every copy on its list |
| `Handlers.Shop.ConcludeDelivery` | src/payments/paystack.service.ts:2706-2732 | only a payment for something unavailable is closed, refunded if that is granted and else failed |
| `Handlers.Shop.Settle` | src/payments/paystack.service.ts:2681-2704 | status, holds of the payment and of its order, and the open order |
| `Handlers.Shop.ReleaseAll` | src/payments/paystack.service.ts:1470-1481 | both kinds of hold go and an open order fails |
| `Handlers.Shop.ReleaseForPayment` | src/payments/paystack.service.ts:2217-2247 | every row held for the payment loses its hold and no other row changes; its slot holds go, and every other stays as often as it was |
| `Handlers.Shop.ReleaseForOrder` | src/payments/paystack.service.ts:2249-2279 | every row held for the order loses its hold and no other row changes; its slot holds go, and every other stays as often as it was |
| `Handlers.Shop.ReverseBooth` | src/payments/paystack.service.ts:3111-3128 | the booth, if still held, and the tier |
| `Handlers.Shop.ReverseAsset` | src/payments/paystack.service.ts:3130-3169 | a session or room, if still held |
| `Handlers.Shop.ReverseSlot` | src/payments/paystack.service.ts:3171-3197 | a copy and its assignment; a slot that is gone is passed over |
| `Handlers.Shop.ReverseSlots` | src/payments/paystack.service.ts:3251-3268 | the slot loops of a bundle |
| `Handlers.Shop.ReverseBundle` | src/payments/paystack.service.ts:3206-3265 | booth, sessions and slots of a bundle |
| `Handlers.Shop.ReverseItem` | src/payments/paystack.service.ts:3284-3403 | the switch over the types of line |
| `Handlers.Shop.Reverse` | src/payments/paystack.service.ts:2978-3062 | dispatch over the kinds of payment |
| `Handlers.Shop.PickBooth` | src/sponsorship/sponsorship-bundle-resolution.service.ts:322-344 | the pick of the specification |
| `Handlers.Shop.PickSession` | src/sponsorship/sponsorship-bundle-resolution.service.ts:346-406 | the pick of the specification |
| `Handlers.Shop.HoldSlots` | src/sponsorship/sponsorship-bundle-resolution.service.ts:255-273 | the slot loops succeed exactly when every slot is available, and then hold each |
| `Handlers.Shop.PlaceCheckoutHolds` | src/commerce/order.service.ts:177-235 | the loop over the lines, failing on a missing row |
| `Handlers.Shop.ResolveAll` | src/sponsorship/sponsorship-bundle-resolution.service.ts:91-119 | the loop over the plans, failing with the first that cannot be resolved |
| `Handlers.Shop.StartSinglePayment` | src/payments/paystack.service.ts:420-557 | one pending payment joins the others unchanged, whose delivery will be the one line asked for; no hold and no other table changes |
| `Handlers.Shop.Remove` | src/marketing-slots/advert-slot.service.ts:166-190 | a slot with a copy out or a pending payment stays; else exactly its holds, assignments and plan links go with it |
| `Handlers.Shop.ApplyBoothTier` | src/booth/booth.service.ts:272-297 | the stored tier is the old one or the booth one, ranks no lower than either, and nothing else changes |
| `Fees.SearchIsExact` | src/payments/paystack.service.ts:230-245 | for every fee that never falls and lies between 1 and 200000, the search ends on a gross whose net is exactly the base, although the net is not monotone |
| `Fees.GrossIsExact` | src/payments/paystack.service.ts:216-245 | the same for the Paystack fee and its upper bound |
| `Fees.PaystackFeeIs` | src/payments/paystack.service.ts:217-223 | below 250000 the fee is the least number of kobo that is fifteen in a thousand or more; from 250000 it is 10000 more, or 200000 if that is less |
| `Fees.GrossAtTheCap` | src/payments/paystack.service.ts:230-245 | the gross never exceeds the base by more than 200000, and does by 200000 if and only if the base is 12466602 or more |
| `Fees.GrossIsLeastOutsideTheDip` | src/payments/paystack.service.ts:216-245 | the gross is the least that covers the base if and only if the base is at most 236450 or above 246249 |
| `Fees.GrossAmountForNet` | src/payments/paystack.service.ts:230-245 | the binary search loop returns that gross |
| `Attendance.AttendanceIsSafe` | src/attendance/attendance.service.ts:157-198 | under any interleaving of counts and inserts, the entries of a user on a day are numbered 1 to n and no index exceeds the cap its request computed |
| `Attendance.Register.CountEntries` | src/attendance/attendance.service.ts:174-189 | the count, the refusal at the cap, and the index to try |
| `Attendance.Register.InsertEntry` | prisma/schema.prisma:871 | the insert, refused when the unique key is taken |
| `Attendance.CappedRun` | src/attendance/attendance.service.ts:157-172 | members have at most two entries, attendees one, other accounts none |
| `Attendance.CapIs` | src/attendance/attendance.service.ts:240-269 | the cap of every account: two with a spouse, by tier and plan for companies, one otherwise, and none for other accounts |
| `Attendance.MarkIsDecided` | src/attendance/attendance.service.ts:174-198 | after any requests, a request carried out alone stores the next entry if and only if the user has fewer than the cap |
| `Attendance.SummaryIsConsistent` | src/conference-day/conference-day.service.ts:144-186 | in every reachable state unique members equal first entries, spouses do not exceed members, and the four figures add up to the records |
| `Attendance.SummaryCountsEntries` | src/conference-day/conference-day.service.ts:144-186 | in every reachable state each figure is a number of stored entries: first and second entries of members, first entries of attendees and companies, and all of companies |
| `Attendance.Summarise` | src/conference-day/conference-day.service.ts:155-186 | the loop over the records with its sets and counters |
| `Elections.TalliesAddUp` | src/elections/elections.service.ts:154-199 | in every reachable state the votes of the candidates of a position add up to its total |
| `Elections.PercentagesAddUp` | src/elections/elections.service.ts:184-196 | with k candidates and a vote cast the rounded percentages add up to 100 within k halves |
| `Elections.PercentageIsClose` | src/elections/elections.service.ts:184-196 | a percentage is the share rounded half up: less than half a point below it and at most half a point above |
| `Elections.CompletedVotersIs` | src/elections/elections.service.ts:201-223 | the grouped count equals the number of users who voted in every active position, and 0 when none is active |
| `Elections.SoundRun` | src/elections/elections.service.ts:332-373 | every stored vote is for an existing candidate of its own existing position |
| `Elections.PositionsChange` | src/elections/elections.service.ts:57-90 | each position changes by its own steps only: added active, switched, and gone only without votes and candidates |
| `Elections.CandidatesChange` | src/elections/elections.service.ts:102-164 | each candidate joins a position that exists, stays with it and goes only without votes; no vote ever changes |
| `Elections.VoteIsDecided` | src/elections/elections.service.ts:332-381 | each refusal applies if and only if its check is the first to fail; a vote is accepted when none fails |
| `Elections.VotesAreCast` | src/elections/elections.service.ts:332-381 | over every run a vote is stored if and only if it was there or a member cast it while voting was open and the position active, for a candidate of it |
| `Elections.ElectionTables.Vote` | src/elections/elections.service.ts:332-381 | the checks in order and the insert, which the unique key may refuse |
| `Elections.ElectionTables.RemovePosition` | src/elections/elections.service.ts:81-90 | a position with a vote or a candidate stays |
| `Elections.ElectionTables.RemoveCandidate` | src/elections/elections.service.ts:154-164 | a candidate with a vote stays |
| `AuditCsv.AuditReadsBack` | src/elections/elections.service.ts:273-309 | an RFC 4180 reader gets back the column names and exactly the eight fields of every vote, whatever quotes, commas or line feeds they hold |
| `AuditCsv.EscapedReadsBack` | src/elections/elections.service.ts:293-294 | an escaped field reads back as its value |
| `Carts.CartPassesCheckout` | src/sponsorship/sponsorship-bundle-resolution.service.ts:452-515 | every cart reachable under a fixed catalogue has clean, distinct lines and one plan at most, and passes the plan checks of checkout if and only if the company has neither bought a plan nor, for a plan with a booth, got one |
| `Carts.AdditionIsDecided` | src/commerce/cart.service.ts:111-229 | a line is added if and only if it names one piece of one thing in the cart for it, the thing can be had, goes with the plans of the cart and is not in it already |
| `Carts.RemovalIs` | src/commerce/cart.service.ts:547-560 | a removal takes out every line with the id, keeps every other and keeps their order |
| `Carts.ReachableCartsAreTidy` | src/commerce/cart.service.ts:111-229 | additions and removals keep a cart tidy |
| `Carts.Cart.Put` | src/commerce/cart.service.ts:111-229 | the checks of addItem in order, and the line stored |
| `Carts.Cart.Drop` | src/commerce/cart.service.ts:547-560 | the line goes and the others stay |
| `Carts.CartCanHoldTwoBooths` | src/commerce/cart.service.ts:371-436 | nothing keeps a second booth out of a cart |
| `Slugs.GenerateUniqueSlug` | src/registration/registration.service.ts:45-79 | with n rows the search stops after at most n + 1 probes on the least free candidate |
| `Slugs.CandidatesDiffer` | src/conference-profile/conference-profile.service.ts:76-123 | no two candidates are the same text |
| `Slugs.SlugifyMakesSlugs` | src/registration/registration.service.ts:36-43 | in any alphabet and for any lower-casing, a slug holds letters, digits and single dashes |
| `Slugs.SlugifyIsIdempotent` | src/registration/registration.service.ts:36-43 | normalising twice is normalising once, for every lower-casing that leaves a to z, digits and dashes alone |
| `Slugs.SlugifyIsOneScan` | src/registration/registration.service.ts:36-43 | trimming and the three replacements are one scan of the text between its outer white space, a dash for every gap with white space or dashes; every letter and digit stays, in order |
| `Slugs.DecimalReads` | src/registration/registration.service.ts:75-77 | the suffix is the number in decimal digits without leading zeros |

## Left out

- Registration payments, prices and early-bird discounts, order snapshots, titles and error texts.
- `parseSponsorshipResolution`: bundles are stored as data, not as JSON that must be parsed.
- The hold extension when a manual payment is claimed (src/payments/manual-payment.service.ts lines 93 and 203): it can
  revive an expired hold, and no bound is claimed across such a step.
- The failure path after a payment was started, where holds are released and the row is deleted, and pending-checkout
  limits per user.
- Administrative edits of booths, sessions and plans (assign, release, reserve, tier changes): the theorems hold between
  such edits. Reserving a slot is not an event either.
- `Handlers.Shop.StartPlanPayment` takes the row of the payment and its bundle as one step; the code inserts the row first
  and deletes it when the bundle cannot be resolved.
- `Machine.InitSingle` accepts more than the handlers that start a single payment do: their availability checks place no
  hold and would only remove runs.
- Writes of two handlers are not interleaved; the company row with its booth is read once per delivery, as in the code.
- `BundleHolds.LiveHoldsFit`: for slots that administrators leave alone and charges that find room; without room it is
  false (`BundleHolds.BoundIsExact`).
- Exclusivity of holds on sessions and on silver, bronze and untiered booths: a cart writes its hold over any other
  (`Outcomes.CartHoldsItsRows`), so the code does not provide it.
- `Fees.GrossAmountForNet`: exact rationals stand for the floating point of `* 0.015` and `/ 0.985`; amounts are unbounded.
- `Elections.PercentagesAddUp`: the quotient is exact before it is rounded.
- `Slugs.Slugify`: lower-casing is a parameter, not Unicode's table; text is a sequence of characters, not of UTF-16 units.
- Redis caching, metrics, mail, PDF, storage, guards, controllers and validation of requests.
- Support, gallery, product, listing and profile pages: no property beyond a single query.
