/**
 * The ticket dashboard: a client-side filter over the ticket list (search,
 * status and priority), a page window over the filtered list, summary
 * statistics, badge colours, and the handlers that update the filter and page
 * state. The ticket list is a parameter (the component reads a fixed mock
 * list).
 */
module AdminDashboard {
  import opened Common

  datatype Ticket = Ticket(
    id: string,
    title: string,
    customer: string,
    email: string,
    status: string,
    priority: string,
    assignee: string,
    created: string,
    updated: string,
    category: string)

  const Blue := "bg-blue-100 text-blue-800 hover:bg-blue-100"
  const Yellow := "bg-yellow-100 text-yellow-800 hover:bg-yellow-100"
  const Green := "bg-green-100 text-green-800 hover:bg-green-100"
  const Gray := "bg-gray-100 text-gray-800 hover:bg-gray-100"
  const Red := "bg-red-100 text-red-800 hover:bg-red-100"
  const Orange := "bg-orange-100 text-orange-800 hover:bg-orange-100"

  // ---------------------------------------------------------------------------
  // Badge colours

  function StatusColor(status: string): (c: string)
    ensures status == "open" <==> c == Blue
    ensures status == "in-progress" <==> c == Yellow
    ensures status == "resolved" <==> c == Green
    ensures c == Gray <==> status !in {"open", "in-progress", "resolved"}
  {
    match status
    case "open" => Blue
    case "in-progress" => Yellow
    case "resolved" => Green
    case "closed" => Gray
    case _ => Gray
  }

  function PriorityColor(priority: string): (c: string)
    ensures priority == "critical" <==> c == Red
    ensures priority == "high" <==> c == Orange
    ensures priority == "medium" <==> c == Blue
    ensures c == Gray <==> priority !in {"critical", "high", "medium"}
  {
    match priority
    case "critical" => Red
    case "high" => Orange
    case "medium" => Blue
    case "low" => Gray
    case _ => Gray
  }

  // ---------------------------------------------------------------------------
  // The filter

  predicate MatchesSearch(t: Ticket, searchTerm: string)
  {
    var term := Lower(searchTerm);
    Includes(Lower(t.title), term) || Includes(Lower(t.customer), term) || Includes(Lower(t.id), term)
  }

  predicate Matches(t: Ticket, searchTerm: string, statusFilter: string, priorityFilter: string)
  {
    && MatchesSearch(t, searchTerm)
    && (statusFilter == "all" || t.status == statusFilter)
    && (priorityFilter == "all" || t.priority == priorityFilter)
  }

  /** `allFilteredTickets`. */
  function FilterTickets(tickets: seq<Ticket>, searchTerm: string, statusFilter: string,
                         priorityFilter: string): (r: seq<Ticket>)
    ensures |r| <= |tickets|
    ensures forall t :: multiset(r)[t] ==
                        (if Matches(t, searchTerm, statusFilter, priorityFilter) then multiset(tickets)[t] else 0)
  {
    if tickets == [] then []
    else
      assert tickets == [tickets[0]] + tickets[1..];
      var rest := FilterTickets(tickets[1..], searchTerm, statusFilter, priorityFilter);
      if Matches(tickets[0], searchTerm, statusFilter, priorityFilter) then [tickets[0]] + rest else rest
  }

  /** A ticket is kept exactly when the lower-cased term occurs in its
      lower-cased title, customer or id, and the status and priority filters
      are `all` or equal to its own. */
  lemma {:induction false} FilterTicketsIff(tickets: seq<Ticket>, searchTerm: string,
                                            statusFilter: string, priorityFilter: string, t: Ticket)
    ensures t in FilterTickets(tickets, searchTerm, statusFilter, priorityFilter) <==>
            t in tickets &&
            (exists i :: OccursAt(Lower(t.title), Lower(searchTerm), i)
                      || OccursAt(Lower(t.customer), Lower(searchTerm), i)
                      || OccursAt(Lower(t.id), Lower(searchTerm), i)) &&
            (statusFilter == "all" || t.status == statusFilter) &&
            (priorityFilter == "all" || t.priority == priorityFilter)
  {
    IncludesIff(Lower(t.title), Lower(searchTerm));
    IncludesIff(Lower(t.customer), Lower(searchTerm));
    IncludesIff(Lower(t.id), Lower(searchTerm));
    FilterTicketsMembership(tickets, searchTerm, statusFilter, priorityFilter, t);
  }

  lemma {:induction false} FilterTicketsMembership(tickets: seq<Ticket>, searchTerm: string,
                                                   statusFilter: string, priorityFilter: string, t: Ticket)
    ensures t in FilterTickets(tickets, searchTerm, statusFilter, priorityFilter) <==>
            t in tickets && Matches(t, searchTerm, statusFilter, priorityFilter)
  {
    if tickets != [] {
      FilterTicketsMembership(tickets[1..], searchTerm, statusFilter, priorityFilter, t);
      assert tickets == [tickets[0]] + tickets[1..];
    }
  }

  /** The filter keeps the tickets in their original order. */
  lemma {:induction false} FilterTicketsIsSubsequence(tickets: seq<Ticket>, searchTerm: string,
                                                      statusFilter: string, priorityFilter: string)
    ensures IsSubsequence(FilterTickets(tickets, searchTerm, statusFilter, priorityFilter), tickets)
    decreases |tickets|
  {
    if tickets != [] {
      var r := FilterTickets(tickets, searchTerm, statusFilter, priorityFilter);
      var rest := FilterTickets(tickets[1..], searchTerm, statusFilter, priorityFilter);
      FilterTicketsIsSubsequence(tickets[1..], searchTerm, statusFilter, priorityFilter);
      if Matches(tickets[0], searchTerm, statusFilter, priorityFilter) {
        assert r[1..] == rest;
      }
    }
  }

  /** The initial filter state (empty search, both filters `all`) keeps every
      ticket. */
  lemma {:induction false} NoFilterKeepsAll(tickets: seq<Ticket>)
    ensures FilterTickets(tickets, "", "all", "all") == tickets
  {
    if tickets != [] {
      IncludesEmpty(Lower(tickets[0].title));
      NoFilterKeepsAll(tickets[1..]);
      assert tickets == [tickets[0]] + tickets[1..];
    }
  }

  // ---------------------------------------------------------------------------
  // Paging

  /** `Array.prototype.slice(start, end)`: negative bounds count from the end,
      bounds are clamped to the length, and a reversed range is empty. */
  function JsSlice<T>(s: seq<T>, start: int, end: int): (r: seq<T>)
    ensures |r| <= |s|
    ensures end - start >= 0 ==> |r| <= end - start
    ensures 0 <= start ==> forall k :: 0 <= k < |r| ==> start + k < |s| && r[k] == s[start + k]
    ensures 0 <= start <= end <= |s| ==> |r| == end - start
  {
    var lo := if start < 0 then (if |s| + start < 0 then 0 else |s| + start)
              else if start <= |s| then start else |s|;
    var hi := if end < 0 then (if |s| + end < 0 then 0 else |s| + end)
              else if end <= |s| then end else |s|;
    if hi <= lo then [] else s[lo..hi]
  }

  /** `filteredTickets`: the window starting at `startIndex`. */
  function VisibleTickets(filtered: seq<Ticket>, currentPage: int, itemsPerPage: int): (r: seq<Ticket>)
    requires itemsPerPage > 0
    ensures |r| <= itemsPerPage
  {
    var startIndex := (currentPage - 1) * itemsPerPage;
    JsSlice(filtered, startIndex, startIndex + itemsPerPage)
  }

  /** From page 1 on, row k of the page is filtered ticket
      `(currentPage - 1) * itemsPerPage + k`, and a page that lies inside the
      filtered list is full. */
  lemma VisibleTicketsWindow(filtered: seq<Ticket>, currentPage: int, itemsPerPage: int)
    requires itemsPerPage > 0 && currentPage >= 1
    ensures var r := VisibleTickets(filtered, currentPage, itemsPerPage);
            var start := (currentPage - 1) * itemsPerPage;
            (forall k :: 0 <= k < |r| ==> start + k < |filtered| && r[k] == filtered[start + k]) &&
            (start + itemsPerPage <= |filtered| ==> |r| == itemsPerPage)
  {
    var start := (currentPage - 1) * itemsPerPage;
    assert start >= 0 by { PageStart(currentPage, itemsPerPage); }
    SliceFrom(filtered, start, start + itemsPerPage, VisibleTickets(filtered, currentPage, itemsPerPage));
  }

  /** The arithmetic of `startIndex` from page 1 on. */
  lemma PageStart(currentPage: int, itemsPerPage: int)
    requires itemsPerPage > 0 && currentPage >= 1
    ensures (currentPage - 1) * itemsPerPage >= 0
  {
  }

  /** A slice from a non-negative start: the elements from `start` on, as many
      as fit before `end`. */
  lemma SliceFrom(s: seq<Ticket>, start: int, end: int, r: seq<Ticket>)
    requires 0 <= start <= end && r == JsSlice(s, start, end)
    ensures forall k :: 0 <= k < |r| ==> start + k < |s| && r[k] == s[start + k]
    ensures end <= |s| ==> |r| == end - start
  {
  }

  // ---------------------------------------------------------------------------
  // Statistics

  datatype Stats = Stats(total: nat, open: nat, inProgress: nat, resolved: nat)

  /** The status column of the ticket list. */
  function Statuses(tickets: seq<Ticket>): (r: seq<string>)
    ensures |r| == |tickets| && forall i :: 0 <= i < |r| ==> r[i] == tickets[i].status
  {
    seq(|tickets|, i requires 0 <= i < |tickets| => tickets[i].status)
  }

  /** `tickets.filter(t => t.status === status).length`. */
  function CountStatus(tickets: seq<Ticket>, status: string): (n: nat)
    ensures n <= |tickets|
    ensures n == multiset(Statuses(tickets))[status]
  {
    if tickets == [] then 0
    else
      assert Statuses(tickets) == [tickets[0].status] + Statuses(tickets[1..]);
      (if tickets[0].status == status then 1 else 0) + CountStatus(tickets[1..], status)
  }

  function TicketStats(tickets: seq<Ticket>): (s: Stats)
    ensures s.total == |tickets|
    ensures s.open == CountStatus(tickets, "open") && s.inProgress == CountStatus(tickets, "in-progress")
            && s.resolved == CountStatus(tickets, "resolved")
    ensures s.open + s.inProgress + s.resolved <= s.total
  {
    StatusCountsBounded(tickets);
    Stats(|tickets|, CountStatus(tickets, "open"), CountStatus(tickets, "in-progress"),
          CountStatus(tickets, "resolved"))
  }

  /** A ticket has one status, so the three counts together never exceed the
      total. */
  lemma {:induction false} StatusCountsBounded(tickets: seq<Ticket>)
    ensures CountStatus(tickets, "open") + CountStatus(tickets, "in-progress")
            + CountStatus(tickets, "resolved") <= |tickets|
  {
    if tickets != [] {
      StatusCountsBounded(tickets[1..]);
    }
  }

  // ---------------------------------------------------------------------------
  // Component state and handlers

  class DashboardState {
    var searchTerm: string
    var statusFilter: string
    var priorityFilter: string
    var currentPage: int
    var itemsPerPage: int

    constructor ()
      ensures searchTerm == "" && statusFilter == "all" && priorityFilter == "all"
      ensures currentPage == 1 && itemsPerPage == 10
    {
      searchTerm := "";
      statusFilter := "all";
      priorityFilter := "all";
      currentPage := 1;
      itemsPerPage := 10;
    }

    /** `totalPages` for the current state. */
    function PageCount(tickets: seq<Ticket>): (pages: nat)
      reads this
      requires itemsPerPage > 0
      ensures pages * itemsPerPage >= |FilterTickets(tickets, searchTerm, statusFilter, priorityFilter)|
      ensures pages > 0 ==> (pages - 1) * itemsPerPage < |FilterTickets(tickets, searchTerm, statusFilter, priorityFilter)|
    {
      TotalPages(|FilterTickets(tickets, searchTerm, statusFilter, priorityFilter)|, itemsPerPage)
    }

    /** The tickets the table shows for the current state. */
    function Visible(tickets: seq<Ticket>): (r: seq<Ticket>)
      reads this
      requires itemsPerPage > 0
      ensures |r| <= itemsPerPage
    {
      VisibleTickets(FilterTickets(tickets, searchTerm, statusFilter, priorityFilter), currentPage, itemsPerPage)
    }

    method HandlePageChange(page: int)
      modifies this`currentPage
      ensures currentPage == page
    {
      currentPage := page;
    }

    method HandleItemsPerPageChange(newItemsPerPage: int)
      modifies this`itemsPerPage, this`currentPage
      ensures itemsPerPage == newItemsPerPage && currentPage == 1
    {
      itemsPerPage := newItemsPerPage;
      currentPage := 1;
    }

    method HandleSearchChange(value: string)
      modifies this`searchTerm, this`currentPage
      ensures searchTerm == value && currentPage == 1
    {
      searchTerm := value;
      currentPage := 1;
    }

    method HandleStatusFilterChange(value: string)
      modifies this`statusFilter, this`currentPage
      ensures statusFilter == value && currentPage == 1
    {
      statusFilter := value;
      currentPage := 1;
    }

    method HandlePriorityFilterChange(value: string)
      modifies this`priorityFilter, this`currentPage
      ensures priorityFilter == value && currentPage == 1
    {
      priorityFilter := value;
      currentPage := 1;
    }
  }

  /** After any filter change the table shows the first page of the new
      filtered list. */
  lemma FirstPageAfterReset(tickets: seq<Ticket>, searchTerm: string, statusFilter: string,
                            priorityFilter: string, itemsPerPage: int)
    requires itemsPerPage > 0
    ensures var filtered := FilterTickets(tickets, searchTerm, statusFilter, priorityFilter);
            VisibleTickets(filtered, 1, itemsPerPage)
              == filtered[..if itemsPerPage <= |filtered| then itemsPerPage else |filtered|]
  {
  }
}
