/**
 The administrator's overview of all tickets (`AdminDashboard.jsx`): who may see it,
 how the status filter and the search box narrow the list, and the four counters
 shown above it. React hook values (the fetched list, the filter, the search term)
 are parameters.
 */
module AdminDashboard {
  import opened Domain
  import opened Text
  import opened Seqs

  /** The status-filter value that selects every ticket. */
  const AllStatuses: string := "All"

  /** What the page's effect does for the current user. */
  datatype Effect = Effect(redirectHome: bool, fetchAll: bool)

  /**
   A signed-in non-administrator is sent to `/`; the list of all tickets is requested
   only for a signed-in administrator; nobody signed in triggers neither.
   */
  function PageEffect(user: Option<User>): (e: Effect)
    ensures e.redirectHome <==> user.Some? && !IsAdmin(user.value)
    ensures e.fetchAll <==> user.Some? && IsAdmin(user.value)
    ensures !(e.redirectHome && e.fetchAll)
    ensures user.None? ==> !e.redirectHome && !e.fetchAll
  {
    match user
    case None => Effect(false, false)
    case Some(u) => Effect(!IsAdmin(u), IsAdmin(u))
  }

  /**
   The text part of the search: the lower-cased title, or the lower-cased requester
   name when the ticket has one, contains the lower-cased term.
   */
  function MatchesText(term: string, t: Ticket): (b: bool)
    ensures b <==> (exists i: nat :: OccursAt(Lower(t.title), Lower(term), i))
                   || (t.requesterName.Some? && exists i: nat :: OccursAt(Lower(t.requesterName.value), Lower(term), i))
  {
    LowerContainsIff(t.title, term);
    Contains(Lower(t.title), Lower(term))
    || match t.requesterName
       case None => false
       case Some(name) => LowerContainsIff(name, term); Contains(Lower(name), Lower(term))
  }

  /** The search predicate: the text part, or the id contains the term exactly as typed. */
  function MatchesSearch(term: string, t: Ticket): (b: bool)
    ensures b <==> MatchesText(term, t) || exists i: nat :: OccursAt(t.id, term, i)
  {
    ContainsIff(t.id, term);
    MatchesText(term, t) || Contains(t.id, term)
  }

  function Matching(term: string): (p: Ticket -> bool)
  {
    (t: Ticket) => MatchesSearch(term, t)
  }

  /** The first stage of `filteredTickets`: skipped for `'All'`, an exact status match otherwise. */
  function StatusStage(tickets: seq<Ticket>, statusFilter: string): (r: seq<Ticket>)
    ensures statusFilter == AllStatuses ==> r == tickets
    ensures statusFilter != AllStatuses ==> forall i :: 0 <= i < |r| ==> r[i].status == statusFilter
    ensures |r| <= |tickets|
    ensures forall t :: t in r ==> t in tickets
  {
    if statusFilter != AllStatuses then
      FilterMembership(tickets, HasStatus(statusFilter));
      Filter(tickets, HasStatus(statusFilter))
    else tickets
  }

  /** The second stage: an empty term applies no search at all. */
  function SearchStage(tickets: seq<Ticket>, term: string): (r: seq<Ticket>)
    ensures term == "" ==> r == tickets
    ensures term != "" ==> forall i :: 0 <= i < |r| ==> MatchesSearch(term, r[i])
    ensures |r| <= |tickets|
    ensures forall t :: t in r ==> t in tickets
  {
    if term != "" then
      FilterMembership(tickets, Matching(term));
      Filter(tickets, Matching(term))
    else tickets
  }

  /** `filteredTickets`: the status stage, then the search stage. */
  function FilteredTickets(tickets: seq<Ticket>, statusFilter: string, term: string): (r: seq<Ticket>)
    ensures |r| <= |tickets|
    ensures forall i :: 0 <= i < |r| ==> Selected(statusFilter, term, r[i])
  {
    var r := SearchStage(StatusStage(tickets, statusFilter), term);
    assert forall i :: 0 <= i < |r| ==> r[i] in StatusStage(tickets, statusFilter);
    r
  }

  /** Reference definition of the tickets the dashboard lists: both stages accept it. */
  predicate Selected(statusFilter: string, term: string, t: Ticket)
  {
    (statusFilter == AllStatuses || t.status == statusFilter)
    && (term == "" || MatchesSearch(term, t))
  }

  function Selecting(statusFilter: string, term: string): (p: Ticket -> bool)
  {
    (t: Ticket) => Selected(statusFilter, term, t)
  }

  /** The two stages together are one order-preserving filter by `Selected`. */
  lemma {:induction false} FilteredIsOneFilter(tickets: seq<Ticket>, statusFilter: string, term: string)
    ensures FilteredTickets(tickets, statusFilter, term) == Filter(tickets, Selecting(statusFilter, term))
  {
    var sel := Selecting(statusFilter, term);
    if statusFilter == AllStatuses && term == "" {
      FilterKeepsAll(tickets, sel);
    } else if statusFilter == AllStatuses {
      FilterCongruent(tickets, Matching(term), sel);
    } else if term == "" {
      FilterCongruent(tickets, HasStatus(statusFilter), sel);
    } else {
      FilterOfFilter(tickets, HasStatus(statusFilter), Matching(term));
      FilterCongruent(tickets, Both(HasStatus(statusFilter), Matching(term)), sel);
    }
  }

  /**
   The listed tickets are an order-preserving subsequence of all tickets, and a
   ticket is listed exactly when it is among them and both stages accept it.
   */
  lemma FilteredSelection(tickets: seq<Ticket>, statusFilter: string, term: string)
    ensures IsSubsequence(FilteredTickets(tickets, statusFilter, term), tickets)
    ensures forall t :: (t in FilteredTickets(tickets, statusFilter, term))
                          <==> (t in tickets && Selected(statusFilter, term, t))
  {
    FilteredIsOneFilter(tickets, statusFilter, term);
    FilterIsSubsequence(tickets, Selecting(statusFilter, term));
    FilterMembership(tickets, Selecting(statusFilter, term));
  }

  /** With no status filter and no search term every ticket is listed, in order. */
  lemma UnfilteredListsAll(tickets: seq<Ticket>)
    ensures FilteredTickets(tickets, AllStatuses, "") == tickets
  {
  }

  /**
   Lower-casing the term changes nothing for titles and names, which are compared
   lower-cased; only the id comparison sees the term as typed.
   */
  lemma LowerTermSearch(term: string, t: Ticket)
    ensures MatchesText(Lower(term), t) == MatchesText(term, t)
    ensures MatchesSearch(Lower(term), t) <==> MatchesText(term, t) || Contains(t.id, Lower(term))
  {
    LowerIdempotent(term);
  }

  /** The id search compares the term as typed: case matters for ids, unlike titles and names. */
  lemma IdSearchIsCaseSensitive()
    ensures MatchesSearch("ab", Ticket("ab", "", "", "Low", Open, None, None))
    ensures !MatchesSearch("AB", Ticket("ab", "", "", "Low", Open, None, None))
  {
  }

  /** The four counters, computed over the whole fetched list. */
  datatype Stats = Stats(total: nat, pending: nat, active: nat, resolvedCases: nat)

  /** Total volume, pending (`Open`), active (`In Progress`), resolved (`Resolved` or `Closed`). */
  function DashboardStats(tickets: seq<Ticket>): (s: Stats)
    ensures s.total == |tickets|
    ensures s.pending == multiset(Statuses(tickets))[Open]
    ensures s.active == multiset(Statuses(tickets))[InProgress]
    ensures s.resolvedCases == multiset(Statuses(tickets))[Resolved] + multiset(Statuses(tickets))[Closed]
    ensures s.pending <= s.total && s.active <= s.total && s.resolvedCases <= s.total
  {
    CountHasStatus(tickets, Open);
    CountHasStatus(tickets, InProgress);
    CountFinished(tickets);
    Stats(|tickets|, Count(tickets, HasStatus(Open)), Count(tickets, HasStatus(InProgress)),
          Count(tickets, IsFinished()))
  }

  /**
   The three status counters never add up to more than the total, and they add up to
   exactly the total when every ticket has one of the four known statuses.
   */
  lemma {:induction false} StatsPartition(tickets: seq<Ticket>)
    ensures var s := DashboardStats(tickets);
            s.pending + s.active + s.resolvedCases <= s.total
    ensures (forall i :: 0 <= i < |tickets| ==> IsKnownStatus(tickets[i].status)) ==>
            var s := DashboardStats(tickets);
            s.pending + s.active + s.resolvedCases == s.total
  {
    if tickets != [] {
      var rest := tickets[1..];
      StatsPartition(rest);
      assert forall i :: 0 <= i < |rest| ==> rest[i] == tickets[i + 1];
    }
  }

  const PrimaryBadge: string := "bg-primary bg-opacity-10 text-primary border border-primary border-opacity-20"
  const WarningBadge: string := "bg-warning bg-opacity-10 text-main border border-warning border-opacity-20"
  const SuccessBadge: string := "bg-success bg-opacity-10 text-success border border-success border-opacity-20"
  const DangerBadge: string := "bg-danger bg-opacity-10 text-danger border border-danger border-opacity-20"
  const SecondaryBadge: string := "bg-secondary bg-opacity-10 text-secondary border border-secondary border-opacity-20"

  /** `getStatusBadge`: one style per known status, the secondary style for anything else. */
  function StatusBadge(status: string): (cls: string)
    ensures cls == SecondaryBadge <==> !IsKnownStatus(status)
  {
    if status == Open then PrimaryBadge
    else if status == InProgress then WarningBadge
    else if status == Resolved then SuccessBadge
    else if status == Closed then DangerBadge
    else SecondaryBadge
  }

  /** The four known statuses get four different badges. */
  lemma StatusBadgesDistinct(a: string, b: string)
    requires IsKnownStatus(a) && IsKnownStatus(b) && a != b
    ensures StatusBadge(a) != StatusBadge(b)
  {
  }

  /** What the dashboard shows. */
  datatype Screen =
    | Spinner
    | Overview(stats: Stats, rows: seq<Ticket>, noMatches: bool)

  /**
   The rendered dashboard once the session is known and, for an administrator, the
   fetch of all tickets has completed. A failed first fetch leaves the list empty. Anyone
   other than an administrator never gets past the spinner, because no fetch ends it.
   */
  function DashboardScreen(authLoading: bool, user: Option<User>, fetched: Outcome<seq<Ticket>>,
                           statusFilter: string, term: string): (s: Screen)
    ensures s.Overview? <==> !authLoading && user.Some? && IsAdmin(user.value)
    ensures s.Overview? ==>
              var tickets := if fetched.Succeeded? then fetched.value else [];
              s.stats == DashboardStats(tickets) && |s.rows| <= |tickets| && (s.noMatches <==> s.rows == [])
  {
    if authLoading || !PageEffect(user).fetchAll then Spinner
    else
      var tickets := if fetched.Succeeded? then fetched.value else [];
      var rows := FilteredTickets(tickets, statusFilter, term);
      Overview(DashboardStats(tickets), rows, |rows| == 0)
  }

  /** The counters ignore the filter and the search: they describe every fetched ticket. */
  lemma StatsIgnoreFilters(user: User, tickets: seq<Ticket>, f1: string, t1: string, f2: string, t2: string)
    requires IsAdmin(user)
    ensures DashboardScreen(false, Some(user), Succeeded(tickets), f1, t1).stats
            == DashboardScreen(false, Some(user), Succeeded(tickets), f2, t2).stats
            == DashboardStats(tickets)
  {
  }

  /** The rows of the overview are exactly the fetched tickets both stages accept, in their order. */
  lemma OverviewRows(user: User, tickets: seq<Ticket>, statusFilter: string, term: string)
    requires IsAdmin(user)
    ensures var s := DashboardScreen(false, Some(user), Succeeded(tickets), statusFilter, term);
            IsSubsequence(s.rows, tickets)
            && forall t :: t in s.rows <==> t in tickets && Selected(statusFilter, term, t)
  {
    FilteredSelection(tickets, statusFilter, term);
  }

  /** "No matching tickets" is shown exactly when no fetched ticket passes both stages. */
  lemma NoMatchesIff(user: User, tickets: seq<Ticket>, statusFilter: string, term: string)
    requires IsAdmin(user)
    ensures DashboardScreen(false, Some(user), Succeeded(tickets), statusFilter, term).noMatches
            <==> forall i :: 0 <= i < |tickets| ==> !Selected(statusFilter, term, tickets[i])
  {
    FilteredIsOneFilter(tickets, statusFilter, term);
    FilterEmptyIff(tickets, Selecting(statusFilter, term));
  }
}
