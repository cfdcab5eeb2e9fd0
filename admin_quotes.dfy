/**
 * The admin quote-queue screen: the fetched list of quote requests, the
 * search and filter rule that selects the displayed ones, the badge colours
 * of status and urgency, the pending count, and the status-update action.
 */
module AdminQuotes {
  import opened Text
  import opened Http

  /** One requested product line inside a quote request. */
  datatype QuoteLine = QuoteLine(code: string, description: string, quantity: int, currentPrice: string)

  /**
   * A quote request as the backend sends it. Status and urgency are free text
   * to this screen: the backend may send values outside the known ones.
   */
  datatype QuoteRequest = QuoteRequest(
    id: int,
    customerName: string,
    email: string,
    phone: string,
    company: string,
    products: seq<QuoteLine>,
    additionalRequirements: string,
    urgency: string,
    status: string,
    createdAt: string,
    updatedAt: string)

  /** The neutral value of both drop-down filters. */
  const All := "all"

  /** The status a quote request is created with, counted by the pending badge. */
  const Pending := "pending"

  /** The three filter inputs of the screen. */
  datatype Criteria = Criteria(searchTerm: string, statusFilter: string, urgencyFilter: string)

  /** The search box imposes nothing, and both drop-downs are at "all". */
  const Neutral := Criteria("", All, All)

  /** Case-insensitive substring search over the name, the email and the company. */
  predicate MatchesSearch(q: QuoteRequest, term: string) {
    var t := Lower(term);
    Contains(Lower(q.customerName), t) || Contains(Lower(q.email), t) || Contains(Lower(q.company), t)
  }

  predicate MatchesStatus(q: QuoteRequest, statusFilter: string) {
    statusFilter == All || q.status == statusFilter
  }

  predicate MatchesUrgency(q: QuoteRequest, urgencyFilter: string) {
    urgencyFilter == All || q.urgency == urgencyFilter
  }

  /** The predicate passed to `quotes.filter`: all three conditions together. */
  predicate Matches(q: QuoteRequest, c: Criteria) {
    MatchesSearch(q, c.searchTerm) && MatchesStatus(q, c.statusFilter) && MatchesUrgency(q, c.urgencyFilter)
  }

  /** `filteredQuotes`: the matching quote requests, in their fetched order. */
  function FilterQuotes(quotes: seq<QuoteRequest>, c: Criteria): (r: seq<QuoteRequest>)
    ensures |r| <= |quotes|
    ensures forall q :: q in r ==> q in quotes && Matches(q, c)
  {
    if quotes == [] then []
    else if Matches(quotes[0], c) then [quotes[0]] + FilterQuotes(quotes[1..], c)
    else FilterQuotes(quotes[1..], c)
  }

  /** a is b with some elements dropped and the rest kept in order. */
  ghost predicate IsSubsequence(a: seq<QuoteRequest>, b: seq<QuoteRequest>)
    decreases |b|
  {
    a == [] ||
    (b != [] && ((a[0] == b[0] && IsSubsequence(a[1..], b[1..])) || IsSubsequence(a, b[1..])))
  }

  /** A quote request is displayed exactly when it was fetched and meets all three conditions. */
  lemma {:induction false} FilterMembership(quotes: seq<QuoteRequest>, c: Criteria, q: QuoteRequest)
    ensures q in FilterQuotes(quotes, c) <==> q in quotes && Matches(q, c)
  {
    if quotes != [] {
      FilterMembership(quotes[1..], c, q);
      assert quotes == [quotes[0]] + quotes[1..];
    }
  }

  /** The displayed list is an order-preserving subsequence of the fetched one. */
  lemma {:induction false} FilterIsSubsequence(quotes: seq<QuoteRequest>, c: Criteria)
    ensures IsSubsequence(FilterQuotes(quotes, c), quotes)
  {
    if quotes != [] {
      FilterIsSubsequence(quotes[1..], c);
      var rest := FilterQuotes(quotes[1..], c);
      if Matches(quotes[0], c) {
        assert ([quotes[0]] + rest)[1..] == rest;
      }
    }
  }

  /** With an empty search and both filters at "all" every fetched quote request is displayed. */
  lemma {:induction false} NeutralFilterShowsAll(quotes: seq<QuoteRequest>)
    ensures FilterQuotes(quotes, Neutral) == quotes
  {
    if quotes != [] {
      ContainsEmpty(Lower(quotes[0].customerName));
      assert Lower("") == "";
      NeutralFilterShowsAll(quotes[1..]);
      assert quotes == [quotes[0]] + quotes[1..];
    }
  }

  /** Search terms that lower-case alike select the same quote requests. */
  lemma {:induction false} SearchIgnoresCase(quotes: seq<QuoteRequest>, c1: Criteria, c2: Criteria)
    requires Lower(c1.searchTerm) == Lower(c2.searchTerm)
    requires c1.statusFilter == c2.statusFilter && c1.urgencyFilter == c2.urgencyFilter
    ensures FilterQuotes(quotes, c1) == FilterQuotes(quotes, c2)
  {
    if quotes != [] {
      SearchIgnoresCase(quotes[1..], c1, c2);
    }
  }

  /** In particular, typing the search term in capitals changes nothing. */
  lemma UpperCaseSearch(quotes: seq<QuoteRequest>, c: Criteria)
    ensures FilterQuotes(quotes, c.(searchTerm := Upper(c.searchTerm))) == FilterQuotes(quotes, c)
  {
    LowerOfUpper(c.searchTerm);
    SearchIgnoresCase(quotes, c.(searchTerm := Upper(c.searchTerm)), c);
  }

  /**
   * c1 asks for at least what c2 asks for: c2's search box is empty or holds
   * the same search as c1's, and each of c2's drop-downs is either "all" or
   * the same as c1's.
   */
  predicate Narrower(c1: Criteria, c2: Criteria) {
    (Lower(c1.searchTerm) == Lower(c2.searchTerm) || c2.searchTerm == "") &&
    (c2.statusFilter == All || c2.statusFilter == c1.statusFilter) &&
    (c2.urgencyFilter == All || c2.urgencyFilter == c1.urgencyFilter)
  }

  /**
   * Narrowing the search or a drop-down only drops quote requests; clearing
   * the search box or setting a drop-down back to "all" restores every one
   * it hid, in the same order.
   */
  lemma {:induction false} NarrowingShrinks(quotes: seq<QuoteRequest>, c1: Criteria, c2: Criteria)
    requires Narrower(c1, c2)
    ensures IsSubsequence(FilterQuotes(quotes, c1), FilterQuotes(quotes, c2))
  {
    if quotes != [] {
      var q := quotes[0];
      NarrowingShrinks(quotes[1..], c1, c2);
      var r1, r2 := FilterQuotes(quotes[1..], c1), FilterQuotes(quotes[1..], c2);
      if Matches(q, c1) {
        if c2.searchTerm == "" {
          ContainsEmpty(Lower(q.customerName));
          assert Lower("") == "";
        }
        assert Matches(q, c2);
        assert ([q] + r1)[1..] == r1 && ([q] + r2)[1..] == r2;
      } else if Matches(q, c2) {
        SubsequenceOfTail(r1, q, r2);
      }
    }
  }

  lemma SubsequenceOfTail(a: seq<QuoteRequest>, x: QuoteRequest, b: seq<QuoteRequest>)
    requires IsSubsequence(a, b)
    ensures IsSubsequence(a, [x] + b)
  {
    assert ([x] + b)[1..] == b;
  }

  /**
   * Every copy of a matching quote request is kept and every copy of a
   * non-matching one is dropped, as `Array.filter` does.
   */
  lemma {:induction false} FilterKeepsEveryOccurrence(quotes: seq<QuoteRequest>, c: Criteria, q: QuoteRequest)
    ensures multiset(FilterQuotes(quotes, c))[q] == if Matches(q, c) then multiset(quotes)[q] else 0
  {
    if quotes != [] {
      FilterKeepsEveryOccurrence(quotes[1..], c, q);
      assert quotes == [quotes[0]] + quotes[1..];
      assert multiset(quotes) == multiset([quotes[0]]) + multiset(quotes[1..]);
    }
  }

  /** Filtering the displayed list again changes nothing. */
  lemma {:induction false} FilterIdempotent(quotes: seq<QuoteRequest>, c: Criteria)
    ensures FilterQuotes(FilterQuotes(quotes, c), c) == FilterQuotes(quotes, c)
  {
    if quotes != [] {
      FilterIdempotent(quotes[1..], c);
      var rest := FilterQuotes(quotes[1..], c);
      if Matches(quotes[0], c) {
        assert ([quotes[0]] + rest)[1..] == rest;
      }
    }
  }

  /** The badge variants the two colour lookups produce. */
  datatype BadgeVariant = Default | Secondary | Destructive

  /** The statuses the screen knows; any other value gets the fallback colour. */
  const KnownStatuses := {"pending", "processing", "quoted", "completed"}

  /** The urgencies the screen knows; any other value gets the fallback colour. */
  const KnownUrgencies := {"emergency", "urgent", "standard"}

  /** `getStatusColor` */
  function StatusColor(status: string): (v: BadgeVariant)
    ensures v == Destructive <==> status == "pending"
    ensures v == Default <==> status == "processing" || status == "completed"
    ensures v == Secondary <==> status == "quoted" || status !in KnownStatuses
  {
    if status == "pending" then Destructive
    else if status == "processing" then Default
    else if status == "quoted" then Secondary
    else if status == "completed" then Default
    else Secondary
  }

  /** `getUrgencyColor` */
  function UrgencyColor(urgency: string): (v: BadgeVariant)
    ensures v == Destructive <==> urgency == "emergency"
    ensures v == Default <==> urgency == "urgent"
    ensures v == Secondary <==> urgency == "standard" || urgency !in KnownUrgencies
  {
    if urgency == "emergency" then Destructive
    else if urgency == "urgent" then Default
    else if urgency == "standard" then Secondary
    else Secondary
  }

  /** `quotes.filter((q) => q.status === "pending").length` */
  function PendingCount(quotes: seq<QuoteRequest>): (n: nat)
    ensures n <= |quotes|
    ensures n == 0 <==> forall q :: q in quotes ==> q.status != Pending
  {
    if quotes == [] then 0
    else (if quotes[0].status == Pending then 1 else 0) + PendingCount(quotes[1..])
  }

  /** The pending badge equals the size of the list the "pending" status filter shows. */
  lemma {:induction false} PendingCountIsStatusFilter(quotes: seq<QuoteRequest>)
    ensures PendingCount(quotes) == |FilterQuotes(quotes, Criteria("", Pending, All))|
  {
    if quotes != [] {
      ContainsEmpty(Lower(quotes[0].customerName));
      assert Lower("") == "";
      PendingCountIsStatusFilter(quotes[1..]);
    }
  }

  /** No filter can show more pending quote requests than the badge counts. */
  lemma {:induction false} PendingCountBoundsFiltered(quotes: seq<QuoteRequest>, c: Criteria)
    ensures PendingCount(FilterQuotes(quotes, c)) <= PendingCount(quotes)
  {
    if quotes != [] {
      PendingCountBoundsFiltered(quotes[1..], c);
      var rest := FilterQuotes(quotes[1..], c);
      if Matches(quotes[0], c) {
        assert ([quotes[0]] + rest)[1..] == rest;
      }
    }
  }

  /** The JSON body of `GET /admin/quotes`; an absent or null `quotes` key is `None`. */
  datatype QuotesBody = QuotesBody(quotes: Option<seq<QuoteRequest>>)

  /** `data.quotes || []` */
  function DecodeQuotes(body: QuotesBody): seq<QuoteRequest> {
    if body.quotes.Some? then body.quotes.value else []
  }

  /** A present `quotes` list is taken as it is, even when empty; a missing one means no quotes. */
  lemma DecodeQuotesShapes(qs: seq<QuoteRequest>)
    ensures DecodeQuotes(QuotesBody(Some(qs))) == qs
    ensures DecodeQuotes(QuotesBody(None)) == []
  {
  }

  /** The admin quote-queue screen's component state. */
  class AdminQuotesScreen {
    var quotes: seq<QuoteRequest>
    var loading: bool
    var searchTerm: string
    var statusFilter: string
    var urgencyFilter: string

    constructor ()
      ensures quotes == [] && loading
      ensures searchTerm == "" && statusFilter == All && urgencyFilter == All
    {
      quotes := [];
      loading := true;
      searchTerm := "";
      statusFilter := All;
      urgencyFilter := All;
    }

    function CurrentCriteria(): Criteria
      reads this
    {
      Criteria(searchTerm, statusFilter, urgencyFilter)
    }

    /** The quote requests the list shows; their number is the "total" badge. */
    function FilteredQuotes(): (r: seq<QuoteRequest>)
      reads this
      ensures |r| <= |quotes|
      ensures forall q :: q in r ==> q in quotes && Matches(q, CurrentCriteria())
    {
      FilterQuotes(quotes, CurrentCriteria())
    }

    /** The "pending" badge: counted over the fetched list, whatever the filters. */
    function PendingBadge(): (n: nat)
      reads this
      ensures n <= |quotes|
    {
      PendingCount(quotes)
    }

    /**
     * `fetchQuotes`: a decoded body replaces the list, a failure keeps it, and
     * loading ends either way.
     */
    method FetchQuotes(response: Outcome<QuotesBody>)
      modifies this`quotes, this`loading
      ensures quotes == if response.Ok? then DecodeQuotes(response.body) else old(quotes)
      ensures !loading
    {
      if response.Ok? {
        quotes := DecodeQuotes(response.body);
      }
      loading := false;
    }

    /**
     * `updateQuoteStatus`: the PUT's outcome decides; a success only re-fetches
     * the list (with the outcome `refetch`), a failure leaves the screen as it was.
     * The id and status go to the backend and change nothing here.
     */
    method UpdateQuoteStatus(quoteId: int, status: string, put: Outcome<()>, refetch: Outcome<QuotesBody>)
      modifies this`quotes, this`loading
      ensures put.Failed? ==> quotes == old(quotes) && loading == old(loading)
      ensures put.Ok? ==>
        quotes == (if refetch.Ok? then DecodeQuotes(refetch.body) else old(quotes)) && !loading
    {
      if put.Ok? {
        FetchQuotes(refetch);
      }
    }

    method SetSearchTerm(term: string)
      modifies this`searchTerm
      ensures searchTerm == term
    {
      searchTerm := term;
    }

    method SetStatusFilter(filter: string)
      modifies this`statusFilter
      ensures statusFilter == filter
    {
      statusFilter := filter;
    }

    method SetUrgencyFilter(filter: string)
      modifies this`urgencyFilter
      ensures urgencyFilter == filter
    {
      urgencyFilter := filter;
    }
  }
}
