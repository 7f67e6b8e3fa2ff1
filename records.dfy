/**
 * Shared records for the order-processing and notification snippets.
 *
 * Where a snippet reports its work by printing a line, each printed line
 * becomes an `Event` value. A call that may throw returns a `Result`; when
 * it also prints, it returns a `Run`: the events emitted before the call
 * returned or threw, and that `Result`.
 */
module Records {

  /** JavaScript `undefined` versus a value. */
  datatype Option<T> = None | Some(value: T)

  /** A returned value, or a thrown `Error` carrying its message. */
  datatype Result<T> = Ok(value: T) | Threw(message: string)

  /** The contact fields a notifier may address. */
  datatype Contact = Contact(email: string, phone: string, deviceId: string)

  /** Which contact field a channel writes to. */
  datatype Field = EmailField | PhoneField | DeviceIdField

  function Address(c: Contact, f: Field): (s: string)
  {
    match f
    case EmailField => c.email
    case PhoneField => c.phone
    case DeviceIdField => c.deviceId
  }

  /**
   * An order as both order-processing snippets read it. The flat order object
   * of the source is split here into its keys and the contact fields the
   * notifiers read.
   */
  datatype Order = Order(
    id: int,
    basePrice: real,
    customerType: string,
    notifyBy: string,
    contact: Contact,
    database: string)

  /** The record `{ orderId, finalPrice, status }` both versions return. */
  datatype OrderRecord = OrderRecord(orderId: int, finalPrice: real, status: string)

  /**
   * A message text; `OrderConfirmed(p)` stands for the text
   * "Order confirmed! Price: $" followed by the price `p`.
   */
  datatype Message = Text(text: string) | OrderConfirmed(price: real)

  /** One printed line. */
  datatype Event =
    | Notified(channel: string, to: string, message: Message)  // a notification; `channel` is the channel's word in the line
    | Inserted(table: string, id: int, price: real)            // a database write of (id, price)
    | SavedOrder(id: int, price: real)                         // "Saved order <id> with price $<price>"
    | Registered(email: string)                                // "Registered: <email>"

  /** What a possibly-throwing call did: its effects, in order, then its outcome. */
  datatype Run<T> = Run(events: seq<Event>, outcome: Result<T>)
}
