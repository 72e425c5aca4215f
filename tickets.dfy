/**
 * `Ticket`: the code assigned once on the first save, and the owner-only
 * permission checks.
 */
module Tickets {
  import opened Common
  import opened TicketCodes

  /** The stored ticket row (`buy_date` is left out). */
  datatype TicketRow = TicketRow(ticketCode: string, quantity: int, kind: string, user: UserId, event: EventId)

  /**
   * The code a ticket carries after `save`: the one it has if it is
   * non-empty, otherwise the code generated from the UUID `u`.
   */
  function AssignedCode(code: string, u: Uuid): (r: string)
    ensures r != ""
    ensures code != "" ==> r == code
    ensures code == "" ==> IsTicketCode(r) && ParseHex(r) == u / Pow16(20)
  {
    CodeIsTopBits(u);
    if code == "" then GenerateTicketCode(u) else code
  }

  /** Once a code is assigned, no later save changes it, whatever UUID that save draws. */
  lemma AssignedCodeIsStable(code: string, u1: Uuid, u2: Uuid)
    ensures AssignedCode(AssignedCode(code, u1), u2) == AssignedCode(code, u1)
  {
  }

  /** A ticket model instance. `stored` is its row in the table, `None` before the first save. */
  class Ticket {
    var ticketCode: string
    var quantity: int
    var kind: string
    var user: UserId
    var event: EventId
    var stored: Option<TicketRow>

    /** `Ticket(quantity=..., type=..., user=..., event=...)`: not saved yet, and the code field holds its default `""`. */
    constructor (quantity: int, kind: string, user: UserId, event: EventId)
      ensures this.ticketCode == "" && this.stored.None?
      ensures this.quantity == quantity && this.kind == kind && this.user == user && this.event == event
    {
      this.ticketCode := "";
      this.quantity := quantity;
      this.kind := kind;
      this.user := user;
      this.event := event;
      this.stored := None;
    }

    /** The row `save` writes for the instance's current fields. */
    function Row(): TicketRow
      reads this
    {
      TicketRow(ticketCode, quantity, kind, user, event)
    }

    /**
     * `save()`: generate a code from the UUID `u` when the code is empty,
     * then write the row. Quantity, type, owner and event are written as
     * they are.
     */
    method Save(u: Uuid)
      modifies this`ticketCode, this`stored
      ensures ticketCode == AssignedCode(old(ticketCode), u)
      ensures old(ticketCode) != "" ==> ticketCode == old(ticketCode)
      ensures old(ticketCode) == "" ==> IsTicketCode(ticketCode)
      ensures stored == Some(Row())
    {
      if ticketCode == "" {
        ticketCode := GenerateTicketCode(u);
      }
      stored := Some(Row());
    }

    /** `can_be_modified_by_user`: only the owner may edit the ticket. */
    predicate CanBeModifiedBy(u: UserId)
      reads this
    {
      user == u
    }

    /** `can_be_deleted_by_user`: only the owner may delete the ticket. */
    predicate CanBeDeletedBy(u: UserId)
      reads this
    {
      user == u
    }
  }

  /**
   * Edit and delete rights coincide and belong to the owner alone; in
   * particular the event's organizer has no override unless they own the
   * ticket.
   */
  lemma OwnerOnly(t: Ticket, u: UserId, organizer: UserId)
    ensures t.CanBeModifiedBy(u) <==> t.CanBeDeletedBy(u)
    ensures t.CanBeModifiedBy(t.user)
    ensures organizer != t.user ==> !t.CanBeModifiedBy(organizer) && !t.CanBeDeletedBy(organizer)
  {
  }
}
