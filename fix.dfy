/**
 * The order system rebuilt around lookup tables: a table of pricing rules
 * keyed by customer type, a table of notifiers keyed by channel name, and a
 * coordinator that prices, notifies and saves. Both lookups throw on a key
 * the table does not hold.
 */
module OrderFix {
  import opened Records

  /** `pricingRules`: each customer type's rule, applied to the base price. */
  const PricingRules: map<string, real -> real> := map[
    "regular"  := (price: real) => price,
    "premium"  := (price: real) => price * 0.9,
    "gold"     := (price: real) => price * 0.8,
    "employee" := (price: real) => price * 0.5,
    "vip"      := (price: real) => price * 0.7
  ]

  /**
   * `calculatePrice`: apply the customer type's rule, or throw when the type
   * has none. A miss never yields a default price, and no rule raises a
   * non-negative price.
   */
  function CalculatePrice(basePrice: real, customerType: string): (r: Result<real>)
    ensures r.Ok? <==> customerType in PricingRules
    ensures r.Threw? ==> r.message == "Unknown customer type: " + customerType
    ensures r.Ok? && 0.0 <= basePrice ==> 0.0 <= r.value <= basePrice
  {
    if customerType !in PricingRules then
      Threw("Unknown customer type: " + customerType)
    else
      Ok(PricingRules[customerType](basePrice))
  }

  /** The five registered customer types and their discount factors. */
  lemma CalculatePriceRates(basePrice: real)
    ensures CalculatePrice(basePrice, "regular") == Ok(basePrice)
    ensures CalculatePrice(basePrice, "premium") == Ok(basePrice * 0.9)
    ensures CalculatePrice(basePrice, "gold") == Ok(basePrice * 0.8)
    ensures CalculatePrice(basePrice, "employee") == Ok(basePrice * 0.5)
    ensures CalculatePrice(basePrice, "vip") == Ok(basePrice * 0.7)
  {
  }

  /**
   * A notifier: the channel's word as it appears in its printed line, and
   * the contact field it sends to.
   */
  datatype Notifier = Notifier(name: string, field: Field)

  /** Running a notifier on a recipient and a message prints one line. */
  function Notify(n: Notifier, to: Contact, message: Message): (e: Event)
  {
    Notified(n.name, Address(to, n.field), message)
  }

  /** `notifiers`: each channel name's notifier. */
  const Notifiers: map<string, Notifier> := map[
    "email"    := Notifier("EMAIL", EmailField),
    "sms"      := Notifier("SMS", PhoneField),
    "push"     := Notifier("PUSH", DeviceIdField),
    "whatsapp" := Notifier("WHATSAPP", PhoneField)
  ]

  /**
   * `sendNotification`: run the channel's notifier once, or throw before any
   * notifier runs when the channel has none.
   */
  function SendNotification(kind: string, recipient: Contact, message: Message): (r: Run<()>)
    ensures r.outcome.Ok? <==> kind in Notifiers
    ensures r.outcome.Threw? ==>
      r.events == [] && r.outcome.message == "Unknown notification type: " + kind
    ensures r.outcome.Ok? ==> r.events == [Notify(Notifiers[kind], recipient, message)]
  {
    if kind !in Notifiers then
      Run([], Threw("Unknown notification type: " + kind))
    else
      Run([Notify(Notifiers[kind], recipient, message)], Ok(()))
  }

  /** Which contact field each registered channel addresses. */
  lemma SendNotificationAddresses(to: Contact, message: Message)
    ensures SendNotification("email", to, message).events == [Notified("EMAIL", to.email, message)]
    ensures SendNotification("sms", to, message).events == [Notified("SMS", to.phone, message)]
    ensures SendNotification("push", to, message).events == [Notified("PUSH", to.deviceId, message)]
    ensures SendNotification("whatsapp", to, message).events == [Notified("WHATSAPP", to.phone, message)]
  {
  }

  /**
   * `processOrder`: price, then notify the order's own contact with the
   * confirmation, then save; the first failure stops everything after it.
   * `saveOrder(id, price)` is the `SavedOrder` event.
   */
  function ProcessOrder(order: Order): (r: Run<OrderRecord>)
    ensures r.outcome.Ok? <==>
      order.customerType in PricingRules && order.notifyBy in Notifiers
    ensures order.customerType !in PricingRules ==>
      r == Run([], Threw("Unknown customer type: " + order.customerType))
    ensures order.customerType in PricingRules && order.notifyBy !in Notifiers ==>
      r == Run([], Threw("Unknown notification type: " + order.notifyBy))
    ensures r.outcome.Ok? ==>
      var finalPrice := PricingRules[order.customerType](order.basePrice);
      && r.events == [Notify(Notifiers[order.notifyBy], order.contact, OrderConfirmed(finalPrice)),
                      SavedOrder(order.id, finalPrice)]
      && r.outcome.value == OrderRecord(order.id, finalPrice, "processed")
  {
    match CalculatePrice(order.basePrice, order.customerType)
    case Threw(e) => Run([], Threw(e))
    case Ok(finalPrice) =>
      var sent := SendNotification(order.notifyBy, order.contact, OrderConfirmed(finalPrice));
      match sent.outcome
      case Threw(e) => Run(sent.events, Threw(e))
      case Ok(_) =>
        Run(sent.events + [SavedOrder(order.id, finalPrice)],
            Ok(OrderRecord(order.id, finalPrice, "processed")))
  }

  /** The file's own demonstration: a gold customer paying 100 is charged 80. */
  lemma GoldOrderExample(phone: string, deviceId: string, database: string)
    ensures ProcessOrder(Order(101, 100.0, "gold", "email",
                               Contact("john@test.com", phone, deviceId), database))
         == Run([Notified("EMAIL", "john@test.com", OrderConfirmed(80.0)), SavedOrder(101, 80.0)],
                Ok(OrderRecord(101, 80.0, "processed")))
  {
  }
}
