/**
 A user's own tickets (`Tickets.jsx`): the search box, the two counters and the
 status badge of each row. The fetched list and the search term are parameters.
 */
module TicketList {
  import opened Domain
  import opened Text
  import opened Seqs

  /** The page asks for the user's tickets only when somebody is signed in. */
  function FetchesTickets(user: Option<User>): (fetch: bool)
    ensures fetch ==> user.Some?
    ensures user.Some? ==> fetch
  {
    user.Some?
  }

  /** Case-insensitive search over the title and the description. */
  function MatchesTerm(term: string, t: Ticket): (b: bool)
    ensures b <==> (exists i: nat :: OccursAt(Lower(t.title), Lower(term), i))
                   || (exists i: nat :: OccursAt(Lower(t.description), Lower(term), i))
  {
    LowerContainsIff(t.title, term);
    LowerContainsIff(t.description, term);
    Contains(Lower(t.title), Lower(term)) || Contains(Lower(t.description), Lower(term))
  }

  function Matching(term: string): (p: Ticket -> bool)
  {
    (t: Ticket) => MatchesTerm(term, t)
  }

  /** `filteredTickets` */
  function FilteredTickets(tickets: seq<Ticket>, term: string): (r: seq<Ticket>)
    ensures |r| <= |tickets|
    ensures forall i :: 0 <= i < |r| ==> MatchesTerm(term, r[i])
  {
    Filter(tickets, Matching(term))
  }

  /**
   The listed tickets are an order-preserving subsequence of the fetched ones, and a
   ticket is listed exactly when its title or description contains the term, ignoring case.
   */
  lemma FilteredSelection(tickets: seq<Ticket>, term: string)
    ensures IsSubsequence(FilteredTickets(tickets, term), tickets)
    ensures forall t :: (t in FilteredTickets(tickets, term)) <==> (t in tickets && MatchesTerm(term, t))
  {
    FilterIsSubsequence(tickets, Matching(term));
    FilterMembership(tickets, Matching(term));
  }

  /** Every string contains the empty string, so an empty term lists every ticket. */
  lemma EmptyTermListsAll(tickets: seq<Ticket>)
    ensures FilteredTickets(tickets, "") == tickets
  {
    forall i | 0 <= i < |tickets|
      ensures MatchesTerm("", tickets[i])
    {
      assert Lower("") == "";
      assert StartsWith(Lower(tickets[i].title), "");
    }
    FilterKeepsAll(tickets, Matching(""));
  }

  /** Upper- or lower-case in the term makes no difference to what is listed. */
  lemma SearchIgnoresCase(tickets: seq<Ticket>, term: string)
    ensures FilteredTickets(tickets, Lower(term)) == FilteredTickets(tickets, term)
  {
    LowerIdempotent(term);
    FilterCongruent(tickets, Matching(Lower(term)), Matching(term));
  }

  function IsActive(): (p: Ticket -> bool)
  {
    (t: Ticket) => t.status != Closed && t.status != Resolved
  }

  /** The number of tickets still being worked on: neither `Closed` nor `Resolved`. */
  function ActiveCount(tickets: seq<Ticket>): (n: nat)
    ensures n <= |tickets|
    ensures n == |tickets| - multiset(Statuses(tickets))[Closed] - multiset(Statuses(tickets))[Resolved]
  {
    CountComplement(tickets, IsActive(), IsFinished());
    CountFinished(tickets);
    Count(tickets, IsActive())
  }

  /** Active tickets and finished ones (`Closed` or `Resolved`) make up the whole list. */
  lemma ActivePartition(tickets: seq<Ticket>)
    ensures ActiveCount(tickets) + Count(tickets, IsFinished()) == |tickets|
  {
    CountFinished(tickets);
  }

  const PrimaryBadge: string := "bg-primary text-white"
  const WarningBadge: string := "bg-warning text-dark"
  const SuccessBadge: string := "bg-success text-white"
  const DangerBadge: string := "bg-danger text-white"

  /** The row badge: `Closed` and every unknown status share the danger style. */
  function StatusBadge(status: string): (cls: string)
    ensures cls == DangerBadge <==> status != Open && status != InProgress && status != Resolved
  {
    if status == Open then PrimaryBadge
    else if status == InProgress then WarningBadge
    else if status == Resolved then SuccessBadge
    else DangerBadge
  }

  /** Open, In Progress and Resolved get three different badges, none of them the danger style. */
  lemma StatusBadgesDistinct(a: string, b: string)
    requires a in [Open, InProgress, Resolved] && b in [Open, InProgress, Resolved] && a != b
    ensures StatusBadge(a) != StatusBadge(b)
    ensures StatusBadge(a) != DangerBadge
  {
  }

  /** What the page shows. */
  datatype Screen =
    | Spinner
    | Records(total: nat, active: nat, rows: seq<Ticket>, emptyState: bool)

  /**
   The rendered page once the fetch has completed. A failed first fetch leaves the
   list empty. Without a signed-in user nothing is fetched and the spinner stays.
   */
  function ListScreen(user: Option<User>, fetched: Outcome<seq<Ticket>>, term: string): (s: Screen)
    ensures s.Records? <==> user.Some?
    ensures s.Records? ==>
              var tickets := if fetched.Succeeded? then fetched.value else [];
              s.total == |tickets| && s.active <= s.total && |s.rows| <= s.total
              && (s.emptyState <==> s.rows == [])
  {
    if !FetchesTickets(user) then Spinner
    else
      var tickets := if fetched.Succeeded? then fetched.value else [];
      var rows := FilteredTickets(tickets, term);
      Records(|tickets|, ActiveCount(tickets), rows, |rows| == 0)
  }

  /**
   The rows of the records table are exactly the fetched tickets that match the term,
   in their order.
   */
  lemma ListRows(user: User, tickets: seq<Ticket>, term: string)
    ensures var s := ListScreen(Some(user), Succeeded(tickets), term);
            IsSubsequence(s.rows, tickets)
            && forall t :: t in s.rows <==> t in tickets && MatchesTerm(term, t)
  {
    FilteredSelection(tickets, term);
  }

  /** "No Support Records Found" is shown exactly when no fetched ticket matches the term. */
  lemma EmptyStateIff(user: User, tickets: seq<Ticket>, term: string)
    ensures ListScreen(Some(user), Succeeded(tickets), term).emptyState
            <==> forall i :: 0 <= i < |tickets| ==> !MatchesTerm(term, tickets[i])
  {
    FilterEmptyIff(tickets, Matching(term));
  }

  /** The counters describe every fetched ticket, whatever the search term. */
  lemma CountersIgnoreSearch(user: User, tickets: seq<Ticket>, term1: string, term2: string)
    ensures var s1 := ListScreen(Some(user), Succeeded(tickets), term1);
            var s2 := ListScreen(Some(user), Succeeded(tickets), term2);
            s1.total == s2.total == |tickets| && s1.active == s2.active == ActiveCount(tickets)
  {
  }
}
