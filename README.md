# Restaurant order record and delivered-order error

This project models the order record of a small restaurant ordering system.
It covers two pieces. The first is the `Order` class: six nullable fields, their
getters and setters, the field-wise `equals`, and the two order amounts. The amount
without VAT is the sum of dish price × quantity over the order's lines, or 0 for a
null or empty list. The amount with VAT is 20% above it. The second piece is the
`OrderDeliveredException` error, whose two-argument constructor builds a French
message that names the order's reference and its status.

Modules:

- `Orders` (`order.dfy`) holds the value types the order refers to (`Instant`, the
  order type and status constants, `Dish`, `DishOrder`). It also holds the
  specification `Sum` of a list of lines, the amounts of a possibly null list,
  the `Order` class, and the lemmas about them.
- `OrderDelivered` (`order_delivered_exception.dfy`) holds the exception and its
  two constructors as functions.

Modelling choices:

- A Java reference that may be null is an `Option`. Java's string concatenation
  renders `null` as `"null"`, and the message function does the same.
- `Double` amounts are exact `real`s. The VAT rate is the constant `0.20`.
- A line whose dish is null would throw a null-pointer exception while the amount
  is computed. The amount functions therefore require every line to name a dish
  (`PriceableList`).
- Enum constants are values carrying their name. Java's `==` on them is
  equality of those values, and their `toString` is that name.
- The getters are plain reading functions (`GetId`, …). Each setter states what
  its getter returns afterwards, and that the other five fields are unchanged.

## Model

| member | source | states |
|---|---|---|
| `Orders.Order.constructor` | src/main/java/Order.java:5-11 | a new order has all six fields null |
| `Orders.Order.GetId` | src/main/java/Order.java:13-15 | returns the id held by the order, null included |
| `Orders.Order.GetReference` | src/main/java/Order.java:21-23 | returns the reference held by the order, null included |
| `Orders.Order.GetCreationDatetime` | src/main/java/Order.java:29-31 | returns the creation instant held by the order, null included |
| `Orders.Order.GetDishOrderList` | src/main/java/Order.java:37-39 | returns the line list held by the order, null included |
| `Orders.Order.GetOrderType` | src/main/java/Order.java:45-47 | returns the order type held by the order, null included |
| `Orders.Order.GetOrderStatus` | src/main/java/Order.java:53-55 | returns the order status held by the order, null included |
| `Orders.Order.SetId` | src/main/java/Order.java:13-19 | after the call `GetId()` returns the id just set and the other five fields are unchanged |
| `Orders.Order.SetReference` | src/main/java/Order.java:21-27 | after the call `GetReference()` returns the reference just set and the other five fields are unchanged |
| `Orders.Order.SetCreationDatetime` | src/main/java/Order.java:29-35 | after the call `GetCreationDatetime()` returns the instant just set and the other five fields are unchanged |
| `Orders.Order.SetDishOrderList` | src/main/java/Order.java:37-43 | after the call `GetDishOrderList()` returns the list just set and the other five fields are unchanged |
| `Orders.Order.SetOrderType` | src/main/java/Order.java:45-51 | after the call `GetOrderType()` returns the type just set and the other five fields are unchanged |
| `Orders.Order.SetOrderStatus` | src/main/java/Order.java:53-59 | after the call `GetOrderStatus()` returns the status just set and the other five fields are unchanged |
| `Orders.TotalWithoutVat` | src/main/java/Order.java:73-81 | the amount of a null list is 0; for any other list it is the sum over every line of price × quantity, which is 0 for an empty list |
| `Orders.TotalWithVat` | src/main/java/Order.java:83-87 | the amount with VAT is 0 for a null list and otherwise 1.2 × the sum over the lines; the VAT part is one fifth of the amount without VAT |
| `Orders.Order.GetTotalAmountWithoutVat` | src/main/java/Order.java:73-81 | an order with a null line list costs 0; otherwise it costs the sum of price × quantity over its lines |
| `Orders.Order.GetTotalAmountWithVat` | src/main/java/Order.java:83-87 | the order's amount with VAT is 0 for a null list and otherwise 1.2 × the sum over its lines; the VAT part is one fifth of the amount without VAT |
| `Orders.SumConcat` | src/main/java/Order.java:77-80 | the sum over two lists put end to end is the sum of the two sums |
| `Orders.SumAppend` | src/main/java/Order.java:77-80 | adding one line at the end of a list adds exactly that line's price × quantity to its sum |
| `Orders.SumPermutation` | src/main/java/Order.java:77-80 | two lists holding the same lines in any order have the same sum |
| `Orders.SumNonNegative` | src/main/java/Order.java:77-80 | with no negative price and no negative quantity, the sum is not negative |
| `Orders.AppendLineTotals` | src/main/java/Order.java:73-87 | an order with one more line than another costs exactly that line's price × quantity more without VAT, and 1.2 times that more with VAT |
| `Orders.TestAmountCalculations` | src/Tests/TestOrders.java:280-300 | an order with lines (price 3500, quantity 2) and (price 8000, quantity 1) costs the 15000 the test driver expects without VAT, and so 18000 with VAT |
| `Orders.Order.Equals` | src/main/java/Order.java:89-98 | true exactly when `o` is an order whose six fields are all equal to this one's; anything that is not an order, null included, is never equal |
| `Orders.EqualsIsEquivalence` | src/main/java/Order.java:89-98 | order equality is reflexive, symmetric and transitive |
| `Orders.EqualOrdersSameTotals` | src/main/java/Order.java:73-98 | equal orders have the same amount without VAT and the same amount with VAT |
| `OrderDelivered.WithMessage` | src/main/java/OrderDeliveredException.java:2-4 | the one-argument constructor keeps the given message unchanged |
| `OrderDelivered.ForOrder` | src/main/java/OrderDeliveredException.java:6-8 | the message starts with `"La commande "`, the reference follows right after that prefix, then `" a le statut "`, then the status name, and it ends with `" et ne peut plus être modifiée"`; its length is the sum of these parts |
| `OrderDelivered.ForOrderDeterminesReference` | src/main/java/OrderDeliveredException.java:6-8 | for one status, two messages are equal only if they name the same reference |
| `OrderDelivered.ForOrderDeterminesStatus` | src/main/java/OrderDeliveredException.java:6-8 | for one reference, two messages are equal only if they name the same status |

## Left out

- `toString` (src/main/java/Order.java:61-71) is not modelled. Its text depends on how `Instant`, `DishOrder` and the enums print, and those classes are not part of this model.
- `hashCode` (src/main/java/Order.java:100-103) is not modelled. Its value depends on `Objects.hash` and on the hash codes of classes that are not part of this model.
- `Dish`, `DishOrder`, `OrderTypeEnum` and `OrderStatusEnum` are not part of this model. They are taken as plain values: a line is a possibly null dish and a quantity, a dish contributes only its price, and an enum constant is its name. A list element that is itself null, and a dish whose price is a null `Double`, both make the amount computation throw in Java; the model has no null lines and no null prices, so it does not capture those failures. The list comparison in `equals` is modelled as value equality of the lines. In Java it uses `DishOrder.equals`, which is not visible.
- `Orders.TotalWithoutVat`: does not model IEEE-754 rounding of `Double`. The amounts are exact reals, so the order-independence in `SumPermutation` holds for the model but not bit-for-bit for the Java sums.
- `Orders.Order.SetId`: the Java `Integer` is modelled as an unbounded integer. No arithmetic is done on it, so its 32-bit width plays no part.
- A line whose quantity is null would throw in Java. Quantities are modelled as integers that are never null.
- `Orders.Order.SetDishOrderList`: the order holds its line list as a value. In Java the setter keeps the caller's `List` object and the getter hands back that same object, so adding a line through the caller's list or through the getter's result changes the order and its amounts without a setter call, and two orders given one list share it. That sharing is not modelled; the setters' "other fields unchanged" speaks only of calls to the setters. `AppendLineTotals` stands in for an in-place `add` on the list.
- `OrderDelivered.WithMessage`: the message is a string, so `new OrderDeliveredException(null)`, whose message is null in Java, is not represented.
- The stock ledger, the stock check, order saving and lookup by reference (`DataRetriever`, `Ingredient`) are not part of this model. The test driver only calls them.
- The test driver's database set-up, SQL statements and console output are I/O and are not modelled. It serves only as a source of expected values.
- No code raises `OrderDeliveredException` in the modelled files. The rule that a delivered order may no longer be changed is therefore not modelled; only the error's message is.
