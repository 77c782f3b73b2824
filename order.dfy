/** A restaurant order: its six nullable fields with their getters and
    setters, the field-wise equality, and the two amounts computed from the
    order's dish lines (before VAT, and with a flat 20% VAT). */
module Orders {

  /** A Java reference that may be null. */
  datatype Option<+T> = None | Some(value: T)

  /** The nanoseconds within one second, as java.time.Instant keeps them. */
  type Nano = n: int | 0 <= n < 1_000_000_000

  /** A point on the time line, as java.time.Instant stores it: seconds since
      the epoch and the nanoseconds within that second. */
  datatype Instant = Instant(epochSecond: int, nano: Nano)

  /** An enum constant of OrderTypeEnum, known by its name. */
  datatype OrderType = OrderType(name: string)

  /** An enum constant of OrderStatusEnum, known by its name. */
  datatype OrderStatus = OrderStatus(name: string)

  /** A catalog dish, reduced to the one attribute the order reads: its price. */
  datatype Dish = Dish(price: real)

  /** One order line: the dish (possibly null) and the ordered quantity. */
  datatype DishOrder = DishOrder(dish: Option<Dish>, quantity: int)

  /** The six fields of an order, as one value. */
  datatype OrderValue = OrderValue(
    id: Option<int>,
    reference: Option<string>,
    creationDatetime: Option<Instant>,
    dishOrderList: Option<seq<DishOrder>>,
    orderType: Option<OrderType>,
    orderStatus: Option<OrderStatus>)

  /** The VAT rate applied on top of the amount without VAT. */
  const VatRate: real := 0.20

  // ---------------------------------------------------------------------
  // Amounts of a list of lines
  // ---------------------------------------------------------------------

  /** Every line names a dish, so that its price can be read. */
  predicate DishesPresent(lines: seq<DishOrder>) {
    forall i :: 0 <= i < |lines| ==> lines[i].dish.Some?
  }

  /** A list that is null, or whose lines all name a dish. */
  predicate PriceableList(list: Option<seq<DishOrder>>) {
    list.Some? ==> DishesPresent(list.value)
  }

  /** The amount of one line: the dish's price times the ordered quantity. */
  function LineAmount(line: DishOrder): real
    requires line.dish.Some?
  {
    line.dish.value.price * line.quantity as real
  }

  /** The sum, over every line, of that line's amount. */
  function Sum(lines: seq<DishOrder>): real
    requires DishesPresent(lines)
  {
    if lines == [] then 0.0 else LineAmount(lines[0]) + Sum(lines[1..])
  }

  /** The sum of a concatenation is the sum of the two parts. */
  lemma {:induction false} SumConcat(a: seq<DishOrder>, b: seq<DishOrder>)
    requires DishesPresent(a) && DishesPresent(b)
    ensures DishesPresent(a + b)
    ensures Sum(a + b) == Sum(a) + Sum(b)
  {
    if a == [] {
      assert a + b == b;
    } else {
      assert (a + b)[1..] == a[1..] + b;
      SumConcat(a[1..], b);
    }
  }

  /** Adding one line at the end adds exactly that line's amount. */
  lemma SumAppend(lines: seq<DishOrder>, line: DishOrder)
    requires DishesPresent(lines) && line.dish.Some?
    ensures DishesPresent(lines + [line])
    ensures Sum(lines + [line]) == Sum(lines) + LineAmount(line)
  {
    SumConcat(lines, [line]);
    assert Sum([line]) == LineAmount(line) + Sum([]);
  }

  /** Taking one line out of a list lowers its sum by that line's amount. */
  lemma SumRemoveAt(b: seq<DishOrder>, j: nat)
    requires DishesPresent(b) && j < |b|
    ensures DishesPresent(b[..j] + b[j + 1..])
    ensures Sum(b) == LineAmount(b[j]) + Sum(b[..j] + b[j + 1..])
  {
    var before, after := b[..j], b[j + 1..];
    var tail := [b[j]] + after;
    assert b == before + tail;
    assert tail[1..] == after;
    assert DishesPresent(before) && DishesPresent(tail) && DishesPresent(after);
    SumConcat(before, tail);
    SumConcat(before, after);
  }

  /** Lines with the same multiset as a list whose lines name a dish name one too. */
  lemma DishesPresentPermutation(a: seq<DishOrder>, b: seq<DishOrder>)
    requires DishesPresent(a)
    requires multiset(a) == multiset(b)
    ensures DishesPresent(b)
  {
    forall i | 0 <= i < |b| ensures b[i].dish.Some? {
      assert b[i] in multiset(a);
    }
  }

  /** Removing the first line of one list and a matching line of another
      keeps their multisets equal. */
  lemma MultisetRemoveFirst(a: seq<DishOrder>, b: seq<DishOrder>, j: nat)
    requires multiset(a) == multiset(b)
    requires a != [] && j < |b| && b[j] == a[0]
    ensures multiset(a[1..]) == multiset(b[..j] + b[j + 1..])
  {
    assert b == b[..j] + [b[j]] + b[j + 1..];
    assert a == [a[0]] + a[1..];
    assert multiset(a[1..]) == multiset(a) - multiset{a[0]};
    assert multiset(b[..j] + b[j + 1..]) == multiset(b) - multiset{a[0]};
  }

  /** The sum does not depend on the order of the lines. */
  lemma {:induction false} SumPermutation(a: seq<DishOrder>, b: seq<DishOrder>)
    requires DishesPresent(a)
    requires multiset(a) == multiset(b)
    ensures DishesPresent(b)
    ensures Sum(a) == Sum(b)
  {
    DishesPresentPermutation(a, b);
    if a != [] {
      assert a[0] in multiset(b);
      var j :| 0 <= j < |b| && b[j] == a[0];
      MultisetRemoveFirst(a, b, j);
      SumRemoveAt(b, j);
      SumPermutation(a[1..], b[..j] + b[j + 1..]);
    }
  }

  /** With no negative price and no negative quantity, the sum is not negative. */
  lemma {:induction false} SumNonNegative(lines: seq<DishOrder>)
    requires DishesPresent(lines)
    requires forall i :: 0 <= i < |lines| ==> lines[i].dish.value.price >= 0.0 && lines[i].quantity >= 0
    ensures Sum(lines) >= 0.0
  {
    if lines != [] {
      SumNonNegative(lines[1..]);
    }
  }

  /** The amount without VAT of a possibly null list of lines. */
  function TotalWithoutVat(list: Option<seq<DishOrder>>): (r: real)
    requires PriceableList(list)
    ensures list.None? ==> r == 0.0
    ensures list.Some? ==> r == Sum(list.value)
  {
    if list.None? || list.value == [] then 0.0 else Sum(list.value)
  }

  /** The amount with VAT: the amount without VAT, raised by the VAT rate. */
  function TotalWithVat(list: Option<seq<DishOrder>>): (r: real)
    requires PriceableList(list)
    ensures list.None? ==> r == 0.0
    ensures list.Some? ==> r == 1.2 * Sum(list.value)
    ensures r - TotalWithoutVat(list) == TotalWithoutVat(list) / 5.0
  {
    TotalWithoutVat(list) * (1.0 + VatRate)
  }

  // ---------------------------------------------------------------------
  // The order object
  // ---------------------------------------------------------------------

  class Order {
    var id: Option<int>
    var reference: Option<string>
    var creationDatetime: Option<Instant>
    var dishOrderList: Option<seq<DishOrder>>
    var orderType: Option<OrderType>
    var orderStatus: Option<OrderStatus>

    /** All six fields start out null. */
    constructor ()
      ensures Value() == OrderValue(None, None, None, None, None, None)
    {
      id, reference, creationDatetime := None, None, None;
      dishOrderList, orderType, orderStatus := None, None, None;
    }

    /** The fields of this order, read together. */
    function Value(): OrderValue
      reads this
    {
      OrderValue(id, reference, creationDatetime, dishOrderList, orderType, orderStatus)
    }

    /** Each getter returns its field of the order. */
    function GetId(): (r: Option<int>) reads this ensures r == Value().id { id }
    function GetReference(): (r: Option<string>) reads this ensures r == Value().reference { reference }
    function GetCreationDatetime(): (r: Option<Instant>) reads this ensures r == Value().creationDatetime { creationDatetime }
    function GetDishOrderList(): (r: Option<seq<DishOrder>>) reads this ensures r == Value().dishOrderList { dishOrderList }
    function GetOrderType(): (r: Option<OrderType>) reads this ensures r == Value().orderType { orderType }
    function GetOrderStatus(): (r: Option<OrderStatus>) reads this ensures r == Value().orderStatus { orderStatus }

    method SetId(id: Option<int>)
      modifies this
      ensures GetId() == id
      ensures Value() == old(Value()).(id := id)
    {
      this.id := id;
    }

    method SetReference(reference: Option<string>)
      modifies this
      ensures GetReference() == reference
      ensures Value() == old(Value()).(reference := reference)
    {
      this.reference := reference;
    }

    method SetCreationDatetime(creationDatetime: Option<Instant>)
      modifies this
      ensures GetCreationDatetime() == creationDatetime
      ensures Value() == old(Value()).(creationDatetime := creationDatetime)
    {
      this.creationDatetime := creationDatetime;
    }

    method SetDishOrderList(dishOrderList: Option<seq<DishOrder>>)
      modifies this
      ensures GetDishOrderList() == dishOrderList
      ensures Value() == old(Value()).(dishOrderList := dishOrderList)
    {
      this.dishOrderList := dishOrderList;
    }

    method SetOrderType(orderType: Option<OrderType>)
      modifies this
      ensures GetOrderType() == orderType
      ensures Value() == old(Value()).(orderType := orderType)
    {
      this.orderType := orderType;
    }

    method SetOrderStatus(orderStatus: Option<OrderStatus>)
      modifies this
      ensures GetOrderStatus() == orderStatus
      ensures Value() == old(Value()).(orderStatus := orderStatus)
    {
      this.orderStatus := orderStatus;
    }

    /** The amount without VAT: zero for a null or empty line list, otherwise
        the sum of price times quantity over the lines. */
    function GetTotalAmountWithoutVat(): (r: real)
      reads this
      requires PriceableList(dishOrderList)
      ensures dishOrderList.None? ==> r == 0.0
      ensures dishOrderList.Some? ==> r == Sum(dishOrderList.value)
    {
      TotalWithoutVat(dishOrderList)
    }

    /** The amount with VAT, 20% above the amount without VAT. */
    function GetTotalAmountWithVat(): (r: real)
      reads this
      requires PriceableList(dishOrderList)
      ensures dishOrderList.None? ==> r == 0.0
      ensures dishOrderList.Some? ==> r == 1.2 * Sum(dishOrderList.value)
      ensures r - GetTotalAmountWithoutVat() == GetTotalAmountWithoutVat() / 5.0
    {
      TotalWithVat(dishOrderList)
    }

    /** Java's equals: only another Order, with the same six fields; nothing
        that is not an order, null included, is equal to one. */
    predicate Equals(o: object?)
      reads this, o
      ensures Equals(o) <==> o is Order && Value() == (o as Order).Value()
    {
      o is Order &&
      var order := o as Order;
      id == order.id &&
      reference == order.reference &&
      creationDatetime == order.creationDatetime &&
      dishOrderList == order.dishOrderList &&
      orderType == order.orderType &&
      orderStatus == order.orderStatus
    }
  }

  // ---------------------------------------------------------------------
  // Properties of orders
  // ---------------------------------------------------------------------

  /** Equality of orders is an equivalence relation. */
  lemma EqualsIsEquivalence(a: Order, b: Order, c: Order)
    ensures a.Equals(a)
    ensures a.Equals(b) ==> b.Equals(a)
    ensures a.Equals(b) && b.Equals(c) ==> a.Equals(c)
  {
  }

  /** Equal orders have the same amounts. */
  lemma EqualOrdersSameTotals(a: Order, b: Order)
    requires a.Equals(b)
    requires PriceableList(a.dishOrderList)
    ensures PriceableList(b.dishOrderList)
    ensures a.GetTotalAmountWithoutVat() == b.GetTotalAmountWithoutVat()
    ensures a.GetTotalAmountWithVat() == b.GetTotalAmountWithVat()
  {
  }

  /** An order whose list holds one more line than another's costs exactly
      that line's amount more without VAT, and 1.2 times it more with VAT. */
  lemma AppendLineTotals(a: Order, b: Order, line: DishOrder)
    requires a.dishOrderList.Some? && PriceableList(a.dishOrderList)
    requires line.dish.Some?
    requires b.dishOrderList == Some(a.dishOrderList.value + [line])
    ensures PriceableList(b.dishOrderList)
    ensures b.GetTotalAmountWithoutVat() == a.GetTotalAmountWithoutVat() + LineAmount(line)
    ensures b.GetTotalAmountWithVat() == a.GetTotalAmountWithVat() + 1.2 * LineAmount(line)
  {
    SumAppend(a.dishOrderList.value, line);
  }

  /** The amount scenario of the test driver: two salads at 3500 and one
      dish at 8000 cost 15000 without VAT and 18000 with it. */
  method TestAmountCalculations(d1: Dish, d2: Dish) returns (withoutVat: real, withVat: real)
    requires d1.price == 3500.0 && d2.price == 8000.0
    ensures withoutVat == 15000.0
    ensures withVat == 18000.0
  {
    var order := new Order();
    var do1 := DishOrder(Some(d1), 2);
    var do2 := DishOrder(Some(d2), 1);
    order.SetDishOrderList(Some([do1, do2]));
    assert Sum([do2]) == 8000.0 + Sum([]);
    assert Sum([do1, do2]) == 7000.0 + Sum([do2]);
    withoutVat := order.GetTotalAmountWithoutVat();
    withVat := order.GetTotalAmountWithVat();
  }
}
