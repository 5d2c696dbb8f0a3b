/**
 * The donations API: an account's donations sent or received, filtered by
 * kind, date range and USD amount range, sorted by a whitelisted column and
 * paginated. The filter is the `where` record the service builds field by
 * field; `Matches` is what the store does with it.
 */
module Donations {
  import opened Wrappers
  import opened EventParser
  import opened IndexerSpec
  import opened QueryParams
  import Accounts

  const SortFields: seq<string> := ["donatedAt", "amountUsd", "amountNear"]

  const DefaultSortField: string := "donatedAt"

  const DefaultSort: string := "donatedAt:desc"

  /** Which side of the donation the account is on. */
  datatype Direction = Sent | Received

  /** The query string; every parameter is optional. Dates are the raw strings the client sent. */
  datatype DonationQuery = DonationQuery(
    page: Option<int>, limit: Option<int>,
    kind: Option<DonationType>,
    startDate: Option<string>, endDate: Option<string>,
    minAmount: Option<real>, maxAmount: Option<real>,
    sort: Option<string>)

  /** `new Date(s)`, as the milliseconds of the date the string names. */
  type DateParser = string -> int

  /** An inclusive range; a missing bound does not constrain. */
  datatype Range<T> = Range(gte: Option<T>, lte: Option<T>)

  /** The `where` record: a missing field does not constrain. */
  datatype Where = Where(
    donorId: Option<string>, recipientId: Option<string>,
    kind: Option<DonationType>,
    donatedAt: Option<Range<int>>, amountUsd: Option<Range<real>>)

  /**
   * The filter a query stands for. The account is matched on the side the
   * direction names; the kind when one is given; the date bounds when the
   * date strings are non-empty; the amount bounds whenever they are defined,
   * so a bound of 0 counts.
   */
  function WhereOf(accountId: string, direction: Direction, q: DonationQuery, parseDate: DateParser): (r: Where)
    ensures r.donorId.Some? <==> direction == Sent
    ensures r.recipientId.Some? <==> direction == Received
    ensures r.donorId.Some? ==> r.donorId.value == accountId
    ensures r.recipientId.Some? ==> r.recipientId.value == accountId
    ensures r.kind == q.kind
    ensures r.donatedAt.Some? <==> Truthy(q.startDate) || Truthy(q.endDate)
    ensures r.donatedAt.Some? ==> (r.donatedAt.value.gte.Some? <==> Truthy(q.startDate))
                                  && (r.donatedAt.value.lte.Some? <==> Truthy(q.endDate))
    ensures r.amountUsd.Some? <==> q.minAmount.Some? || q.maxAmount.Some?
    ensures r.amountUsd.Some? ==> r.amountUsd.value == Range(q.minAmount, q.maxAmount)
  {
    Where(if direction == Sent then Some(accountId) else None,
          if direction == Received then Some(accountId) else None,
          q.kind,
          if Truthy(q.startDate) || Truthy(q.endDate) then
            Some(Range(if Truthy(q.startDate) then Some(parseDate(q.startDate.value)) else None,
                       if Truthy(q.endDate) then Some(parseDate(q.endDate.value)) else None))
          else None,
          if q.minAmount.Some? || q.maxAmount.Some? then Some(Range(q.minAmount, q.maxAmount)) else None)
  }

  /** The `where` record built as the service does, one field at a time. */
  method BuildWhere(accountId: string, direction: Direction, q: DonationQuery, parseDate: DateParser) returns (w: Where)
    ensures w == WhereOf(accountId, direction, q, parseDate)
  {
    w := Where(None, None, None, None, None);
    if direction == Sent {
      w := w.(donorId := Some(accountId));
    } else {
      w := w.(recipientId := Some(accountId));
    }
    if q.kind.Some? {
      w := w.(kind := q.kind);
    }
    if Truthy(q.startDate) || Truthy(q.endDate) {
      w := w.(donatedAt := Some(Range(None, None)));
      if Truthy(q.startDate) {
        w := w.(donatedAt := Some(w.donatedAt.value.(gte := Some(parseDate(q.startDate.value)))));
      }
      if Truthy(q.endDate) {
        w := w.(donatedAt := Some(w.donatedAt.value.(lte := Some(parseDate(q.endDate.value)))));
      }
    }
    if q.minAmount.Some? || q.maxAmount.Some? {
      w := w.(amountUsd := Some(Range(None, None)));
      if q.minAmount.Some? {
        w := w.(amountUsd := Some(w.amountUsd.value.(gte := q.minAmount)));
      }
      if q.maxAmount.Some? {
        w := w.(amountUsd := Some(w.amountUsd.value.(lte := q.maxAmount)));
      }
    }
  }

  predicate InIntRange(x: int, r: Range<int>) {
    (r.gte.Some? ==> r.gte.value <= x) && (r.lte.Some? ==> x <= r.lte.value)
  }

  predicate InRealRange(x: real, r: Range<real>) {
    (r.gte.Some? ==> r.gte.value <= x) && (r.lte.Some? ==> x <= r.lte.value)
  }

  /** Whether a stored donation satisfies a `where` record; a null recipient equals no account. */
  predicate Matches(w: Where, d: Donation) {
    && (w.donorId.Some? ==> d.donorId == w.donorId.value)
    && (w.recipientId.Some? ==> d.recipientId == w.recipientId)
    && (w.kind.Some? ==> d.kind == w.kind.value)
    && (w.donatedAt.Some? ==> InIntRange(d.donatedAt, w.donatedAt.value))
    && (w.amountUsd.Some? ==> InRealRange(d.amountUsd, w.amountUsd.value))
  }

  /**
   * The filter admits exactly the donations the query describes: the account
   * on the requested side, the requested kind, a time within the given dates
   * and a USD amount within the given bounds.
   */
  lemma FilterMeaning(accountId: string, direction: Direction, q: DonationQuery, parseDate: DateParser, d: Donation)
    ensures Matches(WhereOf(accountId, direction, q, parseDate), d) <==>
              && (direction == Sent ==> d.donorId == accountId)
              && (direction == Received ==> d.recipientId == Some(accountId))
              && (q.kind.Some? ==> d.kind == q.kind.value)
              && (Truthy(q.startDate) ==> parseDate(q.startDate.value) <= d.donatedAt)
              && (Truthy(q.endDate) ==> d.donatedAt <= parseDate(q.endDate.value))
              && (q.minAmount.Some? ==> q.minAmount.value <= d.amountUsd)
              && (q.maxAmount.Some? ==> d.amountUsd <= q.maxAmount.value)
  {
    var w := WhereOf(accountId, direction, q, parseDate);
    if Truthy(q.startDate) || Truthy(q.endDate) {
      assert w.donatedAt.value.gte.Some? ==> w.donatedAt.value.gte.value == parseDate(q.startDate.value);
      assert w.donatedAt.value.lte.Some? ==> w.donatedAt.value.lte.value == parseDate(q.endDate.value);
    }
  }

  /** The hashes of the stored donations a filter admits. */
  function Selected(donations: map<string, Donation>, w: Where): set<string> {
    set tx | tx in donations && Matches(w, donations[tx])
  }

  /** `getDonations`' parameters: defaults for what is undefined, then offset and whitelisted sort. */
  function DonationsListing(q: DonationQuery): (r: Listing)
    ensures r.page == q.page.GetOr(1) && r.limit == q.limit.GetOr(20)
    ensures r.skip == (r.page - 1) * r.limit
    ensures r.sort.field in SortFields
    ensures r.sort == ParseSort(q.sort.GetOr(DefaultSort), SortFields, DefaultSortField)
  {
    ListingOf(q.page, q.limit, q.sort, DefaultSort, SortFields, DefaultSortField)
  }

  /** Without a sort parameter donations are listed newest first. */
  lemma DefaultDonationsOrder(q: DonationQuery)
    requires q.sort.None?
    ensures DonationsListing(q).sort == SortBy(DefaultSortField, Desc)
  {
    assert DefaultSort == DefaultSortField + [Separator] + "desc";
    ParseSortMeaning(DefaultSortField, "desc", SortFields, DefaultSortField);
  }

  /**
   * `getDonations`: the filter, the listing parameters and the pagination
   * block, whose total is the number of stored donations the filter admits.
   */
  method GetDonations(s: Store, accountId: string, direction: Direction, q: DonationQuery, parseDate: DateParser)
    returns (w: Where, listing: Listing, pagination: Accounts.Pagination)
    requires q.limit.GetOr(20) >= 1
    ensures w == WhereOf(accountId, direction, q, parseDate)
    ensures listing == DonationsListing(q)
    ensures pagination.page == listing.page && pagination.limit == listing.limit
    ensures pagination.total == |Selected(s.donations, w)|
    ensures pagination.totalPages * listing.limit >= pagination.total
    ensures pagination.totalPages == 0 || (pagination.totalPages - 1) * listing.limit < pagination.total
  {
    listing := DonationsListing(q);
    w := BuildWhere(accountId, direction, q, parseDate);
    var total := |Selected(s.donations, w)|;
    pagination := Accounts.Pagination(listing.page, listing.limit, total, TotalPages(total, listing.limit));
  }

  /** `getDonationsSent`: the donations the account made. */
  method GetDonationsSent(s: Store, accountId: string, q: DonationQuery, parseDate: DateParser)
    returns (w: Where, listing: Listing, pagination: Accounts.Pagination)
    requires q.limit.GetOr(20) >= 1
    ensures w == WhereOf(accountId, Sent, q, parseDate)
    ensures forall tx :: tx in Selected(s.donations, w) ==> s.donations[tx].donorId == accountId
    ensures listing == DonationsListing(q)
    ensures pagination.page == listing.page && pagination.limit == listing.limit
    ensures pagination.total == |Selected(s.donations, w)|
    ensures pagination.totalPages * listing.limit >= pagination.total
    ensures pagination.totalPages == 0 || (pagination.totalPages - 1) * listing.limit < pagination.total
  {
    w, listing, pagination := GetDonations(s, accountId, Sent, q, parseDate);
    forall tx | tx in Selected(s.donations, w)
      ensures s.donations[tx].donorId == accountId
    {
      FilterMeaning(accountId, Sent, q, parseDate, s.donations[tx]);
    }
  }

  /** `getDonationsReceived`: the donations made to the account. */
  method GetDonationsReceived(s: Store, accountId: string, q: DonationQuery, parseDate: DateParser)
    returns (w: Where, listing: Listing, pagination: Accounts.Pagination)
    requires q.limit.GetOr(20) >= 1
    ensures w == WhereOf(accountId, Received, q, parseDate)
    ensures forall tx :: tx in Selected(s.donations, w) ==> s.donations[tx].recipientId == Some(accountId)
    ensures listing == DonationsListing(q)
    ensures pagination.page == listing.page && pagination.limit == listing.limit
    ensures pagination.total == |Selected(s.donations, w)|
    ensures pagination.totalPages * listing.limit >= pagination.total
    ensures pagination.totalPages == 0 || (pagination.totalPages - 1) * listing.limit < pagination.total
  {
    w, listing, pagination := GetDonations(s, accountId, Received, q, parseDate);
    forall tx | tx in Selected(s.donations, w)
      ensures s.donations[tx].recipientId == Some(accountId)
    {
      FilterMeaning(accountId, Received, q, parseDate, s.donations[tx]);
    }
  }
}
