/** The error raised for an order that has been delivered and may no longer
    be modified, and the message it carries. */
module OrderDelivered {
  import opened Orders

  /** The exception, reduced to its message. */
  datatype OrderDeliveredException = OrderDeliveredException(message: string)

  const Prefix: string := "La commande "
  const Middle: string := " a le statut "
  const Suffix: string := " et ne peut plus être modifiée"

  /** How Java's string concatenation renders a possibly null string. */
  function ReferenceText(reference: Option<string>): string {
    match reference
    case None => "null"
    case Some(s) => s
  }

  /** How Java's string concatenation renders a possibly null status:
      the constant's name, or "null". */
  function StatusText(status: Option<OrderStatus>): string {
    match status
    case None => "null"
    case Some(s) => s.name
  }

  /** The one-argument constructor: the message is kept as given. */
  function WithMessage(message: string): (e: OrderDeliveredException)
    ensures e.message == message
  {
    OrderDeliveredException(message)
  }

  /** The two-argument constructor: the message names the order's reference
      and its status. */
  function ForOrder(reference: Option<string>, status: Option<OrderStatus>): (e: OrderDeliveredException)
    ensures |e.message| == |Prefix| + |ReferenceText(reference)| + |Middle| + |StatusText(status)| + |Suffix|
    ensures e.message[..|Prefix|] == Prefix
    ensures e.message[|Prefix|..|Prefix| + |ReferenceText(reference)|] == ReferenceText(reference)
    ensures e.message[|Prefix| + |ReferenceText(reference)|..][..|Middle|] == Middle
    ensures e.message[|e.message| - |Suffix| - |StatusText(status)|..|e.message| - |Suffix|] == StatusText(status)
    ensures e.message[|e.message| - |Suffix|..] == Suffix
  {
    var m := Prefix + ReferenceText(reference) + Middle + StatusText(status) + Suffix;
    assert m == Prefix + (ReferenceText(reference) + (Middle + (StatusText(status) + Suffix)));
    OrderDeliveredException(m)
  }

  /** For a given status, the message tells apart any two references. */
  lemma ForOrderDeterminesReference(r1: Option<string>, r2: Option<string>, status: Option<OrderStatus>)
    requires ForOrder(r1, status) == ForOrder(r2, status)
    ensures ReferenceText(r1) == ReferenceText(r2)
  {
  }

  /** For a given reference, the message tells apart any two statuses. */
  lemma ForOrderDeterminesStatus(reference: Option<string>, s1: Option<OrderStatus>, s2: Option<OrderStatus>)
    requires ForOrder(reference, s1) == ForOrder(reference, s2)
    ensures StatusText(s1) == StatusText(s2)
  {
  }
}
