# Selecting behaviour by a key: ladders and lookup tables

This project models the logic under the narration of a teaching repository on
design patterns and SOLID principles. The recurring idea is choosing a
behaviour by a discrete key: a customer type, a notification channel, a day of
the week or an employee role. The pricing, notification, discount and bonus
snippets each do it twice. First they use an if/else ladder. Then they use a
lookup table (or one class per channel). Each such pair has its own **miss
policy** for a key it does not know:

| snippet | on an unknown key |
|---|---|
| `calculatePrice`, `sendNotification` (table version of the order system) | throw an `Error` |
| price, notification and database ladders of the original `processOrder` | keep the base price, or do nothing |
| `NotificationServiceBad.send` | do nothing |
| `getDiscount` | return `undefined` |
| `getDiscountBetter`, `calculateBonusBetter` | use 0 |
| `calculateBonus` | return 0 |

The model records what each call does:

- Every console line is an `Event` value (`Records.Event`). A notification is
  `Notified(channel, to, message)`, where `channel` is the channel's word as
  it appears in the printed line (`EMAIL` in "EMAIL to …", `Email` in
  "[Email] to …", `SMS` in "Sending SMS to …") and `to` is the address used.
  `BaseNotification.send` names no channel; its label is the line's leading
  word, `Notified` in "Notified <email>: …". A database write is
  `Inserted(table, id, price)`. `saveOrder(id, price)` is `SavedOrder(id, price)`.
  The registration line is `Registered(email)`.
- A call that can throw returns a `Result`: `Ok(value)` or `Threw(message)`
  with the exact error message. When the call also prints, it returns a
  `Run`: the events emitted before it returned or threw, then that `Result`.
  `calculatePrice` prints nothing and returns a bare `Result`.
- `undefined` is `Option.None`.
- Numbers are `real`, and order ids are `int`.
- The notification text "Order confirmed! Price: $" followed by the price is
  `OrderConfirmed(price)`. Any other message is `Text(s)`.

Modules:

- `Records` (records.dfy): the shared records.
- `OrderFix` (fix.dfy): the table version of the order system
  (`week-01-why-design-patterns-matter/02-the-fix.js`). It is pure: two
  constant tables, two lookups that throw on a miss, and a straight-line
  coordinator.
- `OrderProblem` (problem.dfy): the original order system
  (`week-01-why-design-patterns-matter/01-the-problem.js`). It is imperative:
  a method whose local `price` is reassigned in the ladder, followed by two
  ladders that append events. Its price is stated against
  `OrderFix.CalculatePrice`. Its notification and save are stated against its
  own `LadderChannels` and `OrderTables`, and `LadderChannelsMatchNotifiers`
  shows that `LadderChannels` has the same keys and fields as
  `OrderFix.Notifiers`.
- `DayDiscounts` (discounts.dfy): the day-of-week discount ladder and table
  (`week-01-why-design-patterns-matter/03-exercises.js`).
- `OpenClosed` (ocp.dfy): the channel ladder, the four channel classes and
  `sendAll`, a loop over a channel list (`week-02-solid-principles/02-ocp.js`).
- `SolidExercises` (exercises.dfy): `register`, the bonus ladder and table,
  the throwing `ReadOnlyNotification`, and the `notifyAll` loop
  (`week-02-solid-principles/04-exercises.js`).

None of the JavaScript classes has fields to update. The channel classes
become datatype constructors: `OpenClosed.Channel` for the four classes in
`02-ocp.js`, and `SolidExercises.Notification` for `BaseNotification` and
`ReadOnlyNotification`. Their `send` methods are the functions
`OpenClosed.Send` and `SolidExercises.Send`. The other classes have no
counterpart type. Their one operation is a plain member:
`NotificationServiceBad.send` is the function `OpenClosed.SendBad`,
`NotificationService.sendAll` is the method `OpenClosed.SendAll`, and
`UserService.register` is the function `SolidExercises.Register`.

A general key-to-behaviour registry would treat every miss as an "unknown
key" error. The code does not: the ladders skip silently,
`getDiscountBetter` and `calculateBonusBetter` return 0, and `getDiscount`
returns `undefined`. This model follows each snippet's code.

## Model

| member | source | states |
|---|---|---|
| `OrderFix.CalculatePrice` | week-01-why-design-patterns-matter/02-the-fix.js:18-22 | Returns a price exactly when the customer type is in `pricingRules`. Otherwise it throws "Unknown customer type: " + type and gives no default price. No rule raises a non-negative base price: 0 ≤ price ≤ basePrice. |
| `OrderFix.CalculatePriceRates` | week-01-why-design-patterns-matter/02-the-fix.js:9-21 | regular keeps the base price. premium ×0.9, gold ×0.8, employee ×0.5, vip ×0.7. |
| `OrderFix.SendNotification` | week-01-why-design-patterns-matter/02-the-fix.js:35-39 | On an unregistered channel it throws "Unknown notification type: " + type with no event. On a registered channel it runs exactly that channel's notifier, once, with the given recipient and message. |
| `OrderFix.SendNotificationAddresses` | week-01-why-design-patterns-matter/02-the-fix.js:27-33 | email → recipient.email, sms → phone, push → deviceId, whatsapp → phone. Each is one line with the message unchanged. |
| `OrderFix.ProcessOrder` | week-01-why-design-patterns-matter/02-the-fix.js:44-56 | Succeeds exactly when both keys are registered. A pricing failure means no notification and no save. An unknown channel means no save. On success it emits the confirmation with the final price to the order's contact, then `saveOrder(id, finalPrice)`, and returns {orderId, finalPrice, 'processed'}. |
| `OrderFix.GoldOrderExample` | week-01-why-design-patterns-matter/02-the-fix.js:64-72 | A gold order with base price 100 notified by email gives final price 80, one EMAIL line and one save. |
| `OrderProblem.ProcessOrder` | week-01-why-design-patterns-matter/01-the-problem.js:6-44 | Never throws and always returns {order.id, price, 'processed'}. The price equals `calculatePrice` where that returns and stays at the base price where that throws. There is exactly one notification for email/sms/push/whatsapp, to the right field, and none otherwise. There is at most one save, for mysql/mongodb/postgres, recording (id, price). The notification comes first, and both carry the final price. |
| `OrderProblem.LadderChannelsMatchNotifiers` | week-01-why-design-patterns-matter/01-the-problem.js:24-32 | The notification ladder knows the same four channels as the `notifiers` table and addresses the same field for each. |
| `OrderProblem.GoldOrderDemo` | week-01-why-design-patterns-matter/01-the-problem.js:47-54 | The demonstration order returns final price 80 and emits an email line and then a pg_orders insert. |
| `DayDiscounts.GetDiscount` | week-01-why-design-patterns-matter/03-exercises.js:10-18 | Defined (not `undefined`) exactly on the seven day names, and then in [0, 0.25]. |
| `DayDiscounts.GetDiscountByDay` | week-01-why-design-patterns-matter/03-exercises.js:11-17 | Monday 0.05, Tuesday 0.10, Wednesday 0.15, Thursday 0.05, Friday 0.20, Saturday 0.25, Sunday 0. |
| `DayDiscounts.GetDiscountIsCaseSensitive` | week-01-why-design-patterns-matter/03-exercises.js:10-35 | "monday" gets `undefined` from the ladder and 0 from the table. |
| `DayDiscounts.GetDiscountBetter` | week-01-why-design-patterns-matter/03-exercises.js:35 | 0 for every non-day key. Every result lies in [0, 0.25]. |
| `DayDiscounts.DiscountsKeys` | week-01-why-design-patterns-matter/03-exercises.js:31-34 | The `discounts` table holds exactly the seven day names. |
| `DayDiscounts.DiscountVersionsAgreeExactlyOnDays` | week-01-why-design-patterns-matter/03-exercises.js:10-35 | The ladder returns the table's value exactly on the day names. On every other string the ladder gives `undefined` and the table gives 0. |
| `DayDiscounts.SaturdayIsLargest` | week-01-why-design-patterns-matter/03-exercises.js:11-33 | No day gets more than Saturday, in either version. |
| `OpenClosed.Send` | week-02-solid-principles/02-ocp.js:43-66 | A channel class's `send` prints one line with the message unchanged, to one of the user's contact fields. |
| `OpenClosed.ChannelFields` | week-02-solid-principles/02-ocp.js:43-66 | Email → email, SMS → phone, Push → deviceId, WhatsApp → phone. |
| `OpenClosed.SendBad` | week-02-solid-principles/02-ocp.js:10-23 | For "email", "sms" and "push" it prints exactly the line of the matching class. For any other type it prints nothing and raises no error. |
| `OpenClosed.LadderIgnoresWhatsApp` | week-02-solid-principles/02-ocp.js:11-22 | The ladder prints nothing for "whatsapp", although the WhatsApp class sends. |
| `OpenClosed.SendAll` | week-02-solid-principles/02-ocp.js:69-73 | One line per channel, in list order, each the channel's own `send` with the same user and message. An empty list prints nothing. |
| `OpenClosed.SendAllMatchesLadder` | week-02-solid-principles/02-ocp.js:12-17 | For each type the ladder tests, `sendAll` on the one matching class prints what the ladder prints. |
| `SolidExercises.IncludesIffOccurs` | week-02-solid-principles/04-exercises.js:12 | The left-to-right `includes` scan is true exactly when the needle occurs at some position. |
| `SolidExercises.IncludesOneChar` | week-02-solid-principles/04-exercises.js:12 | `includes("@")` holds exactly when the string contains the character '@'. |
| `SolidExercises.Register` | week-02-solid-principles/04-exercises.js:10-25 | Throws "Invalid email", with nothing printed, exactly when the email has no '@'. Otherwise it prints the registration line and returns "Registered!". |
| `SolidExercises.CalculateBonus` | week-02-solid-principles/04-exercises.js:49-59 | For a non-negative salary, 0 ≤ bonus ≤ salary/4. |
| `SolidExercises.CalculateBonusByRole` | week-02-solid-principles/04-exercises.js:49-57 | developer ×0.1, manager ×0.15, director ×0.25, and 0 for every other role. |
| `SolidExercises.CalculateBonusBetter` | week-02-solid-principles/04-exercises.js:75-81 | Equals the ladder `calculateBonus` for every role and salary. |
| `SolidExercises.BonusExamples` | week-02-solid-principles/04-exercises.js:61-83 | A manager on 100000 gets 15000. A director on 100000 gets 25000. |
| `SolidExercises.Send` | week-02-solid-principles/04-exercises.js:88-98 | `ReadOnlyNotification.send` always throws "This notification channel is read-only!" and prints nothing. `BaseNotification.send` prints one line to the user's email. |
| `SolidExercises.NotifyAll` | week-02-solid-principles/04-exercises.js:100-102 | Runs each channel's `send` in list order with the same user and message. It succeeds exactly when no channel is read-only. The first read-only channel throws, its error propagates, and no later channel runs. |

## Left out

- Console text and number formatting (template strings, `$${price}`, `JSON.stringify`). Lines are event records; the confirmation message is `OrderConfirmed(price)` rather than rendered text.
- IEEE-754 arithmetic. Rates and prices are exact reals, so the rounding of 0.1, 0.15, 0.9 and similar is not modelled, and neither are NaN and Infinity.
- SolidExercises.CalculateBonusBetter: its agreement with the ladder holds under real arithmetic only. In JavaScript, NaN or Infinity times 0 is NaN and differs from the ladder's literal 0.
- Keys inherited through the object prototype ("toString", "constructor", "__proto__") in `pricingRules`, `notifiers`, `discounts` and `bonusRates`. Each table is a finite map of its own keys only.
- JavaScript dynamic-typing failures. A missing or non-string `email` in `register` is not modelled. Neither are missing user fields (an absent field reads as `undefined` in JavaScript; here every contact field is a string) or non-string keys.
- The order object is flat in the source. Here its email, phone and deviceId sit in a nested `Contact`, the only part the notifiers read.
- `sendAll` and `notifyAll` accept any object with a `send` method in JavaScript. Here they run the channel classes their own files define.
- The constructor-injection snippets: `OrderProcessorBad`/`OrderProcessor` in week-02-solid-principles/04-exercises.js, week-02-solid-principles/01-srp.js and week-02-solid-principles/03-dip.js. None of these is modelled. They forward calls to print-only collaborators in a fixed order. In 01-srp.js, `NotificationServiceBad` and `MessageFormatter.format` also read the system clock to date the message, which would be an input here.
- The interface-segregation stub `SlackNotifier`, the commented-out database, SMTP, PDF and analytics code, the Singleton snippet (comments only) and `sendWelcome` (prints only).
- The top-level demonstration calls and their `console.log(result)` lines. Only the order demonstrations and the bonus examples are stated, as lemmas and a method.
