/**
 * The accounts API over the indexer's store: the paginated listing's
 * parameters, and the three lookups by id, each of which fails with
 * NotFound for an unknown account.
 */
module Accounts {
  import opened Wrappers
  import opened IndexerSpec
  import opened QueryParams
  import IndexerProofs
  import EventParser

  /** The columns the listing may be sorted by. */
  const SortFields: seq<string> := ["totalDonatedUsd", "totalReceivedUsd", "donationsSentCount",
                                    "donationsReceivedCount", "firstSeenAt", "lastActivityAt"]

  const DefaultSortField: string := "totalDonatedUsd"

  const DefaultSort: string := "totalDonatedUsd:desc"

  /** A lookup by id: the answer, or NotFound with the id asked for. */
  datatype Lookup<T> = Found(value: T) | NotFound(id: string)

  // ---------------------------------------------------------------------------
  // The listing

  /** The pagination block of a listing's answer. */
  datatype Pagination = Pagination(page: int, limit: int, total: nat, totalPages: nat)

  /** `getAccounts`' parameters: defaults for what is undefined, then offset and whitelisted sort. */
  function AccountsListing(page: Option<int>, limit: Option<int>, sort: Option<string>): (r: Listing)
    ensures r.page == page.GetOr(1) && r.limit == limit.GetOr(20)
    ensures r.skip == (r.page - 1) * r.limit
    ensures r.sort.field in SortFields
    ensures r.sort == ParseSort(sort.GetOr(DefaultSort), SortFields, DefaultSortField)
  {
    ListingOf(page, limit, sort, DefaultSort, SortFields, DefaultSortField)
  }

  /** Without a sort parameter the listing is by total donated, largest first. */
  lemma DefaultListingOrder(page: Option<int>, limit: Option<int>)
    ensures AccountsListing(page, limit, None).sort == SortBy(DefaultSortField, Desc)
  {
    assert DefaultSort == DefaultSortField + [Separator] + "desc";
    ParseSortMeaning(DefaultSortField, "desc", SortFields, DefaultSortField);
  }

  /** The pagination block: the total is the number of accounts, and the page count covers them. */
  function AccountsPagination(accounts: map<string, Account>, listing: Listing): (r: Pagination)
    requires listing.limit >= 1
    ensures r.page == listing.page && r.limit == listing.limit && r.total == |accounts|
    ensures r.totalPages * r.limit >= |accounts| && (r.totalPages == 0 || (r.totalPages - 1) * r.limit < |accounts|)
  {
    Pagination(listing.page, listing.limit, |accounts|, TotalPages(|accounts|, listing.limit))
  }

  // ---------------------------------------------------------------------------
  // Lookups by id

  /** An account as the listing and `getAccountById` show it. */
  datatype AccountView = AccountView(
    id: string, firstSeenAt: int, lastActivityAt: int,
    totalDonatedUsd: real, totalReceivedUsd: real,
    donationsSentCount: nat, donationsReceivedCount: nat)

  /** One kind's line of the summary breakdown. */
  datatype Breakdown = Breakdown(sentUsd: real, receivedUsd: real, countSent: nat, countReceived: nat)

  datatype Summary = Summary(
    accountId: string,
    totalDonatedUsd: real, totalDonatedNear: real,
    totalReceivedUsd: real, totalReceivedNear: real,
    donationsSentCount: nat, donationsReceivedCount: nat,
    referralFeesEarnedUsd: real, referralFeesPaidUsd: real,
    direct: Breakdown, pot: Breakdown, campaign: Breakdown,
    firstDonationDate: Option<int>, lastDonationDate: Option<int>)

  datatype ReferralSummary = ReferralSummary(
    accountId: string,
    referralFeesEarnedUsd: real, referralFeesEarnedNear: real,
    referralFeesPaidUsd: real, referralFeesPaidNear: real,
    donationsReferredCount: nat)

  function View(id: string, a: Account): AccountView {
    AccountView(id, a.firstSeenAt, a.lastActivityAt, a.totalDonatedUsd, a.totalReceivedUsd,
                a.donationsSentCount, a.donationsReceivedCount)
  }

  /** `getAccountById`: NotFound exactly for an unknown id; otherwise the account's own figures. */
  function GetAccountById(accounts: map<string, Account>, id: string): (r: Lookup<AccountView>)
    ensures r.NotFound? <==> id !in accounts
    ensures r.NotFound? ==> r.id == id
    ensures r.Found? ==> r.value.id == id && r.value.totalDonatedUsd == accounts[id].totalDonatedUsd
                         && r.value.donationsSentCount == accounts[id].donationsSentCount
                         && r.value.donationsReceivedCount == accounts[id].donationsReceivedCount
                         && r.value.totalReceivedUsd == accounts[id].totalReceivedUsd
                         && r.value.firstSeenAt == accounts[id].firstSeenAt
                         && r.value.lastActivityAt == accounts[id].lastActivityAt
  {
    if id !in accounts then NotFound(id) else Found(View(id, accounts[id]))
  }

  function BreakdownOf(b: Bucket): Breakdown {
    Breakdown(b.donatedUsd, b.receivedUsd, b.sentCount, b.receivedCount)
  }

  /** A breakdown entry shows its bucket's sent and received amounts and counts. */
  predicate Shows(e: Breakdown, b: Bucket) {
    e.sentUsd == b.donatedUsd && e.receivedUsd == b.receivedUsd
    && e.countSent == b.sentCount && e.countReceived == b.receivedCount
  }

  /**
   * `getAccountSummary`: NotFound exactly for an unknown id; otherwise the
   * account's totals, counts and fees, each kind's bucket, and the donation
   * dates, null when unset.
   */
  function GetAccountSummary(accounts: map<string, Account>, id: string): (r: Lookup<Summary>)
    ensures r.NotFound? <==> id !in accounts
    ensures r.NotFound? ==> r.id == id
    ensures r.Found? ==> var a := accounts[id];
                         && r.value.accountId == id
                         && r.value.totalDonatedUsd == a.totalDonatedUsd && r.value.totalDonatedNear == a.totalDonatedNear
                         && r.value.totalReceivedUsd == a.totalReceivedUsd && r.value.totalReceivedNear == a.totalReceivedNear
                         && r.value.donationsSentCount == a.donationsSentCount
                         && r.value.donationsReceivedCount == a.donationsReceivedCount
                         && r.value.referralFeesEarnedUsd == a.referralFeesEarnedUsd
                         && r.value.referralFeesPaidUsd == a.referralFeesPaidUsd
                         && Shows(r.value.direct, a.direct) && Shows(r.value.pot, a.pot) && Shows(r.value.campaign, a.campaign)
                         && r.value.firstDonationDate == a.firstDonationDate
                         && r.value.lastDonationDate == a.lastDonationDate
  {
    if id !in accounts then NotFound(id)
    else
      var a := accounts[id];
      Found(Summary(id, a.totalDonatedUsd, a.totalDonatedNear, a.totalReceivedUsd, a.totalReceivedNear,
                    a.donationsSentCount, a.donationsReceivedCount, a.referralFeesEarnedUsd, a.referralFeesPaidUsd,
                    BreakdownOf(a.direct), BreakdownOf(a.pot), BreakdownOf(a.campaign),
                    a.firstDonationDate, a.lastDonationDate))
  }

  /** The hashes of the stored donations that name `id` as their referrer. */
  function Referred(donations: map<string, Donation>, id: string): set<string> {
    set tx | tx in donations && donations[tx].referrerId == Some(id)
  }

  /**
   * `getReferralSummary`: NotFound exactly for an unknown id; otherwise the
   * referral fees and the number of donations that name the account as referrer.
   */
  function GetReferralSummary(s: Store, id: string): (r: Lookup<ReferralSummary>)
    ensures r.NotFound? <==> id !in s.accounts
    ensures r.NotFound? ==> r.id == id
    ensures r.Found? ==> var a := s.accounts[id];
                         && r.value.accountId == id && r.value.donationsReferredCount == |Referred(s.donations, id)|
                         && r.value.referralFeesEarnedUsd == a.referralFeesEarnedUsd
                         && r.value.referralFeesEarnedNear == a.referralFeesEarnedNear
                         && r.value.referralFeesPaidUsd == a.referralFeesPaidUsd
                         && r.value.referralFeesPaidNear == a.referralFeesPaidNear
  {
    if id !in s.accounts then NotFound(id)
    else
      var a := s.accounts[id];
      Found(ReferralSummary(id, a.referralFeesEarnedUsd, a.referralFeesEarnedNear,
                            a.referralFeesPaidUsd, a.referralFeesPaidNear, |Referred(s.donations, id)|))
  }

  // ---------------------------------------------------------------------------
  // What the answers mean over an indexed store

  /**
   * On a store the indexer has kept consistent, the summary's breakdown adds
   * up to its totals, the dates are set exactly when the account has sent a
   * donation, and the NEAR totals read 0, since the indexer never writes them.
   */
  lemma SummaryAddsUp(s: Store, id: string)
    requires IndexerProofs.StoreConsistent(s) && id in s.accounts
    ensures var v := GetAccountSummary(s.accounts, id).value;
            && v.direct.countSent + v.pot.countSent + v.campaign.countSent == v.donationsSentCount
            && v.direct.sentUsd + v.pot.sentUsd + v.campaign.sentUsd == v.totalDonatedUsd
            && v.direct.receivedUsd + v.pot.receivedUsd + v.campaign.receivedUsd == v.totalReceivedUsd
            && (v.lastDonationDate.None? <==> v.donationsSentCount == 0)
            && (v.firstDonationDate.None? <==> v.lastDonationDate.None?)
            && v.totalDonatedNear == 0.0 && v.totalReceivedNear == 0.0
  {
    assert IndexerProofs.Consistent(s.accounts[id]);
  }

  /**
   * The referred count moves only with a donation row: saving a new donation
   * adds one for its referrer and none for anybody else; a duplicate or a
   * failed save changes no count.
   */
  lemma ReferredCountFollowsSaves(s: Store, d: EventParser.ParsedDonation, env: Env, id: string)
    ensures var r := SaveDonationSpec(s, d, env);
            |Referred(r.store.donations, id)|
            == |Referred(s.donations, id)| + (if r.outcome == Saved && d.referrerId == Some(id) then 1 else 0)
  {
    var r := SaveDonationSpec(s, d, env);
    if r.outcome == Saved {
      var row := DonationRow(d, d.donatedAtMs.value, env.price(d.donatedAtMs.value));
      ReferredAfterInsert(s.donations, d.transactionHash, row, id);
    }
  }

  /** Inserting a new row adds its hash to the referrer's set and to no other. */
  lemma ReferredAfterInsert(donations: map<string, Donation>, h: string, row: Donation, id: string)
    requires h !in donations
    ensures |Referred(donations[h := row], id)| == |Referred(donations, id)| + (if row.referrerId == Some(id) then 1 else 0)
  {
    var before := Referred(donations, id);
    var after := Referred(donations[h := row], id);
    if row.referrerId == Some(id) {
      assert after == before + {h};
    } else {
      assert after == before;
    }
  }
}
