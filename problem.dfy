/**
 * The original order system: one function that prices, notifies and saves
 * through three if/else ladders. None of the ladders has a final `else`, so
 * an unknown customer type keeps the base price, and an unknown channel or
 * database is skipped without an error.
 */
module OrderProblem {
  import opened Records
  import OrderFix

  /**
   * The channels the notification ladder knows: the channel's word as it
   * appears in the line ("Sending SMS to …"), and the field it addresses.
   */
  const LadderChannels: map<string, OrderFix.Notifier> := map[
    "email"    := OrderFix.Notifier("email", EmailField),
    "sms"      := OrderFix.Notifier("SMS", PhoneField),
    "push"     := OrderFix.Notifier("push", DeviceIdField),
    "whatsapp" := OrderFix.Notifier("WhatsApp", PhoneField)
  ]

  /** The databases the save ladder knows, with the table or collection each writes to. */
  const OrderTables: map<string, string> := map[
    "mysql"    := "mysql_orders",
    "mongodb"  := "db.orders",
    "postgres" := "pg_orders"
  ]

  /**
   * `processOrder`. The price agrees with `calculatePrice` of the table
   * version wherever that returns, and is the base price wherever it throws;
   * at most one notification, then at most one save, both carrying the final
   * price; the record is always returned.
   */
  method ProcessOrder(order: Order) returns (events: seq<Event>, record: OrderRecord)
    ensures OrderFix.CalculatePrice(order.basePrice, order.customerType).Ok? ==>
      record.finalPrice == OrderFix.CalculatePrice(order.basePrice, order.customerType).value
    ensures OrderFix.CalculatePrice(order.basePrice, order.customerType).Threw? ==>
      record.finalPrice == order.basePrice
    ensures record == OrderRecord(order.id, record.finalPrice, "processed")
    ensures |events| == (if order.notifyBy in LadderChannels then 1 else 0)
                      + (if order.database in OrderTables then 1 else 0)
    ensures order.notifyBy in LadderChannels ==>
      events[0] == OrderFix.Notify(LadderChannels[order.notifyBy], order.contact,
                                   OrderConfirmed(record.finalPrice))
    ensures order.database in OrderTables ==>
      events[|events| - 1] == Inserted(OrderTables[order.database], order.id, record.finalPrice)
  {
    var price := order.basePrice;

    if order.customerType == "regular" {
      price := price;
    } else if order.customerType == "premium" {
      price := price * 0.9;
    } else if order.customerType == "gold" {
      price := price * 0.8;
    } else if order.customerType == "employee" {
      price := price * 0.5;
    } else if order.customerType == "vip" {
      price := price * 0.7;
    }

    events := [];
    if order.notifyBy == "email" {
      events := events + [Notified("email", order.contact.email, OrderConfirmed(price))];
    } else if order.notifyBy == "sms" {
      events := events + [Notified("SMS", order.contact.phone, OrderConfirmed(price))];
    } else if order.notifyBy == "push" {
      events := events + [Notified("push", order.contact.deviceId, OrderConfirmed(price))];
    } else if order.notifyBy == "whatsapp" {
      events := events + [Notified("WhatsApp", order.contact.phone, OrderConfirmed(price))];
    }

    if order.database == "mysql" {
      events := events + [Inserted("mysql_orders", order.id, price)];
    } else if order.database == "mongodb" {
      events := events + [Inserted("db.orders", order.id, price)];
    } else if order.database == "postgres" {
      events := events + [Inserted("pg_orders", order.id, price)];
    }

    record := OrderRecord(order.id, price, "processed");
  }

  /**
   * The ladder knows the same channels as the notifier table and sends each
   * to the same contact field; only the printed wording differs.
   */
  lemma LadderChannelsMatchNotifiers(kind: string)
    ensures kind in LadderChannels <==> kind in OrderFix.Notifiers
    ensures kind in LadderChannels ==>
      LadderChannels[kind].field == OrderFix.Notifiers[kind].field
  {
  }

  /** The file's own demonstration: a gold customer paying 100, notified by email, saved in postgres. */
  method GoldOrderDemo() returns (events: seq<Event>, record: OrderRecord)
    ensures record == OrderRecord(101, 80.0, "processed")
    ensures events == [Notified("email", "john@test.com", OrderConfirmed(80.0)),
                       Inserted("pg_orders", 101, 80.0)]
  {
    OrderFix.CalculatePriceRates(100.0);
    events, record := ProcessOrder(Order(101, 100.0, "gold", "email",
                                         Contact("john@test.com", "", ""), "postgres"));
  }
}
