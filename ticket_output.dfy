/** `TicketOutputMapper` (ticket-output.ts): what a use case returns for a ticket. */
module TicketOutputMapper {
  import opened Shared
  import TicketAggregate

  /** `TicketOutput`: exactly seven fields. */
  datatype TicketOutput = TicketOutput(
    ticketId: string,
    eventId: string,
    userId: string,
    purchaseDate: Date,
    price: int,
    status: string,
    createdAt: Timestamp)

  /** `toOutput`: the seven fields of `toJSON`, unchanged. */
  function ToOutput(t: TicketAggregate.Ticket): (r: TicketOutput)
    reads t
    ensures r.ticketId == t.EntityId().id
    ensures r.eventId == t.event.EntityId().id && r.userId == t.user.EntityId().id
    ensures r.purchaseDate == t.purchaseDate && r.price == t.price && r.status == t.status
    ensures r.createdAt == t.createdAt
  {
    var json := t.ToJSON();
    TicketOutput(json.ticketId, json.eventId, json.userId, json.purchaseDate, json.price, json.status, json.createdAt)
  }

  /** The output carries exactly what `toJSON` does: tickets with the same
      JSON have the same output, and the output gives the JSON back. */
  lemma {:induction false} OutputIsJson(t: TicketAggregate.Ticket, u: TicketAggregate.Ticket)
    ensures var out := ToOutput(t);
      TicketAggregate.TicketJson(out.ticketId, out.eventId, out.userId, out.purchaseDate, out.price, out.status, out.createdAt)
        == t.ToJSON()
    ensures t.ToJSON() == u.ToJSON() ==> ToOutput(t) == ToOutput(u)
  {
  }
}
