/**
 The values the helpdesk pages exchange with the ticket service: tickets as the
 service returns them, the signed-in user's role, and the outcome of a request.
 Statuses, priorities and roles are plain strings, as in the pages, which compare
 them with string literals and fall back to a default for anything else.
 */
module Domain {
  import Seqs

  datatype Option<+T> = None | Some(value: T)

  /** The outcome of one request to the ticket service: its response data, or a failure. */
  datatype Outcome<+T> = Succeeded(value: T) | Failed

  /**
   A ticket record as fetched. `adminReply` may be absent; `requesterName` stands for
   `ticket.user?.name`, absent when the ticket carries no populated requester.
   */
  datatype Ticket = Ticket(
    id: string,
    title: string,
    description: string,
    priority: string,
    status: string,
    adminReply: Option<string>,
    requesterName: Option<string>)

  /** The signed-in user, as far as the pages look at it. */
  datatype User = User(role: string)

  const Open: string := "Open"
  const InProgress: string := "In Progress"
  const Resolved: string := "Resolved"
  const Closed: string := "Closed"

  const AdminRole: string := "admin"

  /** One of the four statuses the pages know by name. */
  predicate IsKnownStatus(status: string)
  {
    status == Open || status == InProgress || status == Resolved || status == Closed
  }

  /** The tickets whose status is exactly `status`. */
  function HasStatus(status: string): (p: Ticket -> bool)
  {
    (t: Ticket) => t.status == status
  }

  /** A ticket whose handling is over: `Resolved` or `Closed`. */
  function IsFinished(): (p: Ticket -> bool)
  {
    (t: Ticket) => t.status == Resolved || t.status == Closed
  }

  /** The status of each ticket, in order. */
  function Statuses(tickets: seq<Ticket>): (r: seq<string>)
    ensures |r| == |tickets|
    ensures forall i :: 0 <= i < |tickets| ==> r[i] == tickets[i].status
  {
    if tickets == [] then [] else [tickets[0].status] + Statuses(tickets[1..])
  }

  /** Counting the tickets with one status counts that status among all statuses. */
  lemma {:induction false} CountHasStatus(tickets: seq<Ticket>, status: string)
    ensures Seqs.Count(tickets, HasStatus(status)) == multiset(Statuses(tickets))[status]
  {
    if tickets != [] {
      CountHasStatus(tickets[1..], status);
      assert Statuses(tickets) == [tickets[0].status] + Statuses(tickets[1..]);
    }
  }

  /** The finished tickets are the `Resolved` ones together with the `Closed` ones. */
  lemma {:induction false} CountFinished(tickets: seq<Ticket>)
    ensures Seqs.Count(tickets, IsFinished())
            == multiset(Statuses(tickets))[Resolved] + multiset(Statuses(tickets))[Closed]
  {
    if tickets != [] {
      CountFinished(tickets[1..]);
      assert Statuses(tickets) == [tickets[0].status] + Statuses(tickets[1..]);
    }
  }

  predicate IsAdmin(user: User)
  {
    user.role == AdminRole
  }

  /** The reply text the page starts from: the ticket's reply, or empty when it has none. */
  function ReplyText(t: Ticket): (r: string)
    ensures t.adminReply.None? ==> r == ""
    ensures t.adminReply.Some? ==> r == t.adminReply.value
  {
    match t.adminReply
    case None => ""
    case Some(reply) => reply
  }
}
