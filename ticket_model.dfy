/** The ticket schema (src/models/ticket.model.js) as a validity predicate. */
module TicketModel {
  import opened Wrappers

  type ProductId = string
  type UserId = string

  const DefaultTicketStatus: string := "pending"

  /** One purchased line: product reference and quantity. */
  datatype TicketLine = TicketLine(productId: ProductId, quantity: int)

  /** A ticket document; `user` and `totalAmount` may be missing before validation. The status is
      free text: the schema gives it a default but no enum. */
  datatype Ticket = Ticket(user: Option<UserId>, products: seq<TicketLine>, totalAmount: Option<int>, status: string)

  /** A new ticket, with the status defaulting to "pending". */
  function NewTicket(user: Option<UserId>, products: seq<TicketLine>, totalAmount: Option<int>, status: Option<string>): (t: Ticket)
    ensures t.user == user && t.products == products && t.totalAmount == totalAmount
    ensures status.None? ==> t.status == "pending"
    ensures status.Some? ==> t.status == status.value
  {
    Ticket(user, products, totalAmount, status.GetOr(DefaultTicketStatus))
  }

  /** What saving a ticket checks. */
  predicate TicketValid(t: Ticket) {
    && t.user.Some?
    && (forall i :: 0 <= i < |t.products| ==> t.products[i].quantity >= 1)
    && t.totalAmount.Some?
  }

  /** Any status string is accepted: the schema has no enum for it. */
  lemma AnyStatusAccepted(user: UserId, total: int, status: string)
    ensures TicketValid(NewTicket(Some(user), [], Some(total), Some(status)))
  {
  }
}
