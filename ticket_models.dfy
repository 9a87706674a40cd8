/** The ticket application's records: tickets filed by requesters and the
    feedback a requester leaves once a ticket is resolved. */
module TicketModels {
  import opened Common

  /** The four status choices of a ticket; a closed set, so a status is always one of them. */
  datatype TicketStatus = Open | Pending | Resolved | Closed

  /** A newly filed ticket is open. */
  const DefaultTicketStatus: TicketStatus := Open

  /** The code stored in the database for each status choice. */
  function TicketStatusCode(s: TicketStatus): string
  {
    match s
    case Open => "open"
    case Pending => "pending"
    case Resolved => "resolved"
    case Closed => "closed"
  }

  /** Reads a stored status code back; exactly the four choice codes are accepted. */
  function ParseTicketStatus(code: string): (r: Option<TicketStatus>)
    ensures r.Some? <==> code in {"open", "pending", "resolved", "closed"}
    ensures r.Some? ==> TicketStatusCode(r.value) == code
  {
    if code == "open" then Some(Open)
    else if code == "pending" then Some(Pending)
    else if code == "resolved" then Some(Resolved)
    else if code == "closed" then Some(Closed)
    else None
  }

  lemma ParseTicketStatusCode(s: TicketStatus)
    ensures ParseTicketStatus(TicketStatusCode(s)) == Some(s)
  {
  }

  /** A service request. The asset and the requester may be missing: both links are
      nullable and are cleared when the asset or user is deleted. */
  datatype Ticket = Ticket(
    title: string,
    description: string,
    asset: Option<AssetId>,
    requester: Option<UserId>,
    status: TicketStatus)

  /** A ticket as filed, with the model's default status. */
  function NewTicket(title: string, description: string, asset: Option<AssetId>, requester: Option<UserId>): (r: Ticket)
    ensures r.status == Open
    ensures r.title == title && r.description == description && r.asset == asset && r.requester == requester
  {
    Ticket(title, description, asset, requester, DefaultTicketStatus)
  }

  /** The requester's rating of a resolved ticket. The rating is stored as given:
      the model declares no range for it. */
  datatype Feedback = Feedback(
    ticket: Option<TicketId>,
    user: Option<UserId>,
    rating: int,
    comments: Option<string>)
}
