/**
 * The indexer's effect on its store, as functions. The store is a set of
 * keyed tables: accounts with running aggregates, pots and campaigns (only
 * their last-update time matters here), donations and payouts keyed by
 * transaction hash, and the singleton checkpoint.
 *
 * The chain is abstract: a poll of the loop sees the chain head (or an RPC
 * failure) and, when it processes a block, the block the node answered (or a
 * failure). What varies from poll to poll besides the chain is an `Env`: the
 * USD price the oracle gives for an event time, the wall clock used for new
 * rows, and which store writes fail.
 */
module IndexerSpec {
  import opened Wrappers
  import opened EventParser
  import Pricing

  /** How far behind the chain head a fresh indexer with no configured start begins. */
  const LookbackBlocks: int := 10

  // ---------------------------------------------------------------------------
  // The store

  /** Per-kind aggregates of one account. */
  datatype Bucket = Bucket(donatedUsd: real, receivedUsd: real, sentCount: nat, receivedCount: nat)

  const NoActivity: Bucket := Bucket(0.0, 0.0, 0, 0)

  datatype Account = Account(
    firstSeenAt: int,
    lastActivityAt: int,
    totalDonatedUsd: real,
    totalDonatedNear: real,
    totalReceivedUsd: real,
    totalReceivedNear: real,
    donationsSentCount: nat,
    donationsReceivedCount: nat,
    referralFeesEarnedUsd: real,
    referralFeesEarnedNear: real,
    referralFeesPaidUsd: real,
    referralFeesPaidNear: real,
    direct: Bucket,
    pot: Bucket,
    campaign: Bucket,
    firstDonationDate: Option<int>,
    lastDonationDate: Option<int>)

  /** An account row created from its id alone: zero aggregates, seen now. */
  function NewAccount(now: int): Account {
    Account(now, now, 0.0, 0.0, 0.0, 0.0, 0, 0, 0.0, 0.0, 0.0, 0.0,
            NoActivity, NoActivity, NoActivity, None, None)
  }

  /** A stored donation row; amounts in NEAR and USD. */
  datatype Donation = Donation(
    kind: DonationType,
    donorId: string,
    recipientId: Option<string>,
    amountNear: real,
    amountUsd: real,
    ftId: string,
    message: Option<string>,
    donatedAt: int,
    blockHeight: int,
    transactionHash: string,
    protocolFeeNear: real,
    protocolFeeUsd: real,
    referrerId: Option<string>,
    referrerFeeNear: real,
    referrerFeeUsd: real,
    potId: Option<string>,
    campaignId: Option<string>,
    netAmount: Option<real>,
    chefId: Option<string>,
    chefFee: Option<real>,
    projectId: Option<string>)

  /** A stored pot payout row. */
  datatype Payout = Payout(
    potId: Option<string>,
    recipientId: string,
    amountNear: real,
    amountUsd: real,
    ftId: string,
    paidAt: int,
    blockHeight: int,
    transactionHash: string)

  datatype Checkpoint = Checkpoint(lastBlockHeight: int, lastBlockHash: string, lastBlockTime: int)

  datatype Store = Store(
    accounts: map<string, Account>,
    pots: map<string, int>,
    campaigns: map<string, int>,
    donations: map<string, Donation>,
    payouts: map<string, Payout>,
    checkpoint: Option<Checkpoint>)

  /**
   * Store writes of one poll that fail with an error other than a duplicate
   * key: donation and payout inserts (by transaction hash) and the
   * checkpoint write.
   */
  datatype StoreFaults = StoreFaults(donationInsert: set<string>, payoutInsert: set<string>, checkpointWrite: bool)

  /** What one poll of the loop sees besides the chain. */
  datatype Env = Env(price: int -> real, now: int, faults: StoreFaults)

  // ---------------------------------------------------------------------------
  // Amounts

  /** A fee in NEAR: 0 when the event carries none. */
  function FeeNear(fee: Option<string>): (r: real)
    ensures !Truthy(fee) ==> r == 0.0
  {
    if Truthy(fee) then Pricing.YoctoToNear(fee) else 0.0
  }

  /** A fee in USD: 0 when the event carries none. */
  function FeeUsd(fee: Option<string>, price: real): (r: real)
    ensures !Truthy(fee) ==> r == 0.0
  {
    if Truthy(fee) then Pricing.AmountUsd(fee.value, price) else 0.0
  }

  /** Net amount and chef fee: null unless present and non-zero. */
  function NonZeroNear(amount: Option<string>): (r: Option<real>)
    ensures r.Some? ==> Truthy(amount) && r.value != 0.0
    ensures r.None? ==> !Truthy(amount) || Pricing.AmountValue(amount) == 0
  {
    if Truthy(amount) && Pricing.YoctoToNear(amount) != 0.0 then Some(Pricing.YoctoToNear(amount)) else None
  }

  /** The donation row `saveDonation` creates for a parsed donation. */
  function DonationRow(d: ParsedDonation, at: int, price: real): (r: Donation)
    requires d.donorId.Some?
    ensures r.transactionHash == d.transactionHash && r.kind == d.kind && r.donatedAt == at
    ensures r.donorId == d.donorId.value && r.recipientId == d.recipientId && r.referrerId == d.referrerId
    ensures !Truthy(d.protocolFee) ==> r.protocolFeeNear == 0.0 && r.protocolFeeUsd == 0.0
    ensures !Truthy(d.referrerFee) ==> r.referrerFeeNear == 0.0 && r.referrerFeeUsd == 0.0
    ensures !Truthy(d.netAmount) ==> r.netAmount.None?
    ensures !Truthy(d.chefFee) ==> r.chefFee.None?
  {
    Donation(d.kind, d.donorId.value, d.recipientId,
             Pricing.YoctoToNear(d.amount), Pricing.AmountUsd(d.amount.GetOr(""), price),
             d.ftId, d.message, at, d.blockHeight, d.transactionHash,
             FeeNear(d.protocolFee), FeeUsd(d.protocolFee, price),
             d.referrerId, FeeNear(d.referrerFee), FeeUsd(d.referrerFee, price),
             d.potId, d.campaignId, NonZeroNear(d.netAmount), d.chefId, NonZeroNear(d.chefFee), d.projectId)
  }

  // ---------------------------------------------------------------------------
  // Upserts

  /** An account with its activity time forgotten: what the aggregates are. */
  function Totals(a: Account): Account {
    a.(lastActivityAt := 0)
  }

  /** The account upsert: create the account, or move its last activity to `at`. */
  function TouchAccount(accounts: map<string, Account>, id: string, at: int, now: int): (r: map<string, Account>)
    ensures r.Keys == accounts.Keys + {id}
    ensures id in accounts ==> Totals(r[id]) == Totals(accounts[id]) && r[id].lastActivityAt == at
    ensures id !in accounts ==> r[id] == NewAccount(now)
    ensures forall k :: k in accounts && k != id ==> r[k] == accounts[k]
  {
    accounts[id := if id in accounts then accounts[id].(lastActivityAt := at) else NewAccount(now)]
  }

  /** The pot and campaign upserts: create the row, or move its update time to `at`. */
  function TouchRow(rows: map<string, int>, id: string, at: int, now: int): (r: map<string, int>)
    ensures r.Keys == rows.Keys + {id}
    ensures r[id] == (if id in rows then at else now)
    ensures forall k :: k in rows && k != id ==> r[k] == rows[k]
  {
    rows[id := if id in rows then at else now]
  }

  /**
   * The upserts `saveDonation` runs before the insert: the donor always, the
   * recipient and the referrer when present, then the pot and the campaign.
   */
  function TouchParties(s: Store, d: ParsedDonation, at: int, now: int): (r: Store)
    requires d.donorId.Some?
    ensures r.donations == s.donations && r.payouts == s.payouts && r.checkpoint == s.checkpoint
    ensures PartiesPresent(r.accounts, d)
  {
    s.(accounts := TouchDonationAccounts(s.accounts, d, at, now),
       pots := if Truthy(d.potId) then TouchRow(s.pots, d.potId.value, at, now) else s.pots,
       campaigns := if Truthy(d.campaignId) then TouchRow(s.campaigns, d.campaignId.value, at, now) else s.campaigns)
  }

  /** The account upserts of `saveDonation`: donor, then recipient and referrer when present. */
  function TouchDonationAccounts(accounts: map<string, Account>, d: ParsedDonation, at: int, now: int): (r: map<string, Account>)
    requires d.donorId.Some?
    ensures PartiesPresent(r, d)
  {
    var donor := TouchAccount(accounts, d.donorId.value, at, now);
    var recipient := if Truthy(d.recipientId) then TouchAccount(donor, d.recipientId.value, at, now) else donor;
    if Truthy(d.referrerId) then TouchAccount(recipient, d.referrerId.value, at, now) else recipient
  }

  // ---------------------------------------------------------------------------
  // Aggregates

  function AddSent(b: Bucket, usd: real): Bucket {
    b.(donatedUsd := b.donatedUsd + usd, sentCount := b.sentCount + 1)
  }

  function AddReceived(b: Bucket, usd: real): Bucket {
    b.(receivedUsd := b.receivedUsd + usd, receivedCount := b.receivedCount + 1)
  }

  /** The three per-kind buckets of an account. */
  datatype BucketName = DirectBucket | PotBucket | CampaignBucket

  function BucketAt(a: Account, n: BucketName): Bucket {
    match n
    case DirectBucket => a.direct
    case PotBucket => a.pot
    case CampaignBucket => a.campaign
  }

  /** Where the donor counts a donation: a donation to a pot's project is a pot donation. */
  function SentBucket(kind: DonationType): BucketName {
    match kind
    case DIRECT => DirectBucket
    case POT => PotBucket
    case POT_PROJECT => PotBucket
    case CAMPAIGN => CampaignBucket
  }

  /** Where the recipient counts a donation; a donation into a pot has no account on the receiving side. */
  function ReceivedBucket(kind: DonationType): Option<BucketName> {
    match kind
    case DIRECT => Some(DirectBucket)
    case POT => None
    case POT_PROJECT => Some(PotBucket)
    case CAMPAIGN => Some(CampaignBucket)
  }

  /** The fields no aggregate update writes: the two times and the NEAR totals. */
  predicate SameTimesAndNear(a: Account, b: Account) {
    && a.firstSeenAt == b.firstSeenAt && a.lastActivityAt == b.lastActivityAt
    && a.totalDonatedNear == b.totalDonatedNear && a.totalReceivedNear == b.totalReceivedNear
    && a.referralFeesEarnedNear == b.referralFeesEarnedNear && a.referralFeesPaidNear == b.referralFeesPaidNear
  }

  /** The donor's update: totals, exactly one sent bucket by kind, fees paid, donation dates. */
  function DonorAfter(a: Account, kind: DonationType, usd: real, referrerFeeUsd: real, at: int): (r: Account)
    ensures r.totalDonatedUsd == a.totalDonatedUsd + usd && r.donationsSentCount == a.donationsSentCount + 1
    ensures BucketAt(r, SentBucket(kind)) == AddSent(BucketAt(a, SentBucket(kind)), usd)
    ensures forall n :: n != SentBucket(kind) ==> BucketAt(r, n) == BucketAt(a, n)
    ensures r.referralFeesPaidUsd == a.referralFeesPaidUsd + referrerFeeUsd
    ensures r.lastDonationDate == Some(at)
    ensures a.firstDonationDate.None? ==> r.firstDonationDate == Some(at)
    ensures a.firstDonationDate.Some? ==> r.firstDonationDate == a.firstDonationDate
    ensures r.totalReceivedUsd == a.totalReceivedUsd && r.donationsReceivedCount == a.donationsReceivedCount
    ensures r.referralFeesEarnedUsd == a.referralFeesEarnedUsd && SameTimesAndNear(r, a)
  {
    a.(totalDonatedUsd := a.totalDonatedUsd + usd,
       donationsSentCount := a.donationsSentCount + 1,
       referralFeesPaidUsd := if referrerFeeUsd != 0.0 then a.referralFeesPaidUsd + referrerFeeUsd else a.referralFeesPaidUsd,
       firstDonationDate := if a.firstDonationDate.None? then Some(at) else a.firstDonationDate,
       lastDonationDate := Some(at),
       direct := if kind == DIRECT then AddSent(a.direct, usd) else a.direct,
       pot := if kind == POT || kind == POT_PROJECT then AddSent(a.pot, usd) else a.pot,
       campaign := if kind == CAMPAIGN then AddSent(a.campaign, usd) else a.campaign)
  }

  /** The recipient's update: totals, and a received bucket for every kind but POT. */
  function RecipientAfter(a: Account, kind: DonationType, usd: real): (r: Account)
    ensures r.totalReceivedUsd == a.totalReceivedUsd + usd && r.donationsReceivedCount == a.donationsReceivedCount + 1
    ensures ReceivedBucket(kind).Some? ==>
              BucketAt(r, ReceivedBucket(kind).value) == AddReceived(BucketAt(a, ReceivedBucket(kind).value), usd)
    ensures forall n :: ReceivedBucket(kind) != Some(n) ==> BucketAt(r, n) == BucketAt(a, n)
    ensures r.totalDonatedUsd == a.totalDonatedUsd && r.donationsSentCount == a.donationsSentCount
    ensures r.referralFeesPaidUsd == a.referralFeesPaidUsd && r.referralFeesEarnedUsd == a.referralFeesEarnedUsd
    ensures r.firstDonationDate == a.firstDonationDate && r.lastDonationDate == a.lastDonationDate
    ensures SameTimesAndNear(r, a)
  {
    a.(totalReceivedUsd := a.totalReceivedUsd + usd,
       donationsReceivedCount := a.donationsReceivedCount + 1,
       direct := if kind == DIRECT then AddReceived(a.direct, usd) else a.direct,
       pot := if kind == POT_PROJECT then AddReceived(a.pot, usd) else a.pot,
       campaign := if kind == CAMPAIGN then AddReceived(a.campaign, usd) else a.campaign)
  }

  /** A payout's update: received totals and the pot bucket, not the donation count. */
  function PayoutReceived(a: Account, usd: real): (r: Account)
    ensures r.totalReceivedUsd == a.totalReceivedUsd + usd && r.pot == AddReceived(a.pot, usd)
    ensures r.donationsReceivedCount == a.donationsReceivedCount
    ensures r.direct == a.direct && r.campaign == a.campaign
    ensures r.totalDonatedUsd == a.totalDonatedUsd && r.donationsSentCount == a.donationsSentCount
    ensures r.referralFeesPaidUsd == a.referralFeesPaidUsd && r.referralFeesEarnedUsd == a.referralFeesEarnedUsd
    ensures r.firstDonationDate == a.firstDonationDate && r.lastDonationDate == a.lastDonationDate
    ensures SameTimesAndNear(r, a)
  {
    a.(totalReceivedUsd := a.totalReceivedUsd + usd, pot := AddReceived(a.pot, usd))
  }

  /** The accounts `updateAccountAggregates` updates must exist; its caller upserted them. */
  predicate PartiesPresent(accounts: map<string, Account>, d: ParsedDonation) {
    && d.donorId.Some? && d.donorId.value in accounts
    && (Truthy(d.recipientId) ==> d.recipientId.value in accounts)
    && (Truthy(d.referrerId) ==> d.referrerId.value in accounts)
  }

  /**
   * `updateAccountAggregates`: the donor, then the recipient when present,
   * then the referrer when present and the referrer fee is non-zero.
   */
  function AggregatesAfter(accounts: map<string, Account>, d: ParsedDonation, usd: real, referrerFeeUsd: real, at: int)
    : (r: map<string, Account>)
    requires PartiesPresent(accounts, d)
    ensures r.Keys == accounts.Keys
    ensures forall k :: (k in accounts && k != d.donorId.value && (!Truthy(d.recipientId) || k != d.recipientId.value)
                         && (!Truthy(d.referrerId) || k != d.referrerId.value)) ==> r[k] == accounts[k]
  {
    var donor := d.donorId.value;
    var a1 := accounts[donor := DonorAfter(accounts[donor], d.kind, usd, referrerFeeUsd, at)];
    var a2 := if Truthy(d.recipientId) then a1[d.recipientId.value := RecipientAfter(a1[d.recipientId.value], d.kind, usd)] else a1;
    if Truthy(d.referrerId) && referrerFeeUsd != 0.0 then
      var referrer := d.referrerId.value;
      a2[referrer := a2[referrer].(referralFeesEarnedUsd := a2[referrer].referralFeesEarnedUsd + referrerFeeUsd)]
    else a2
  }

  /** Whether `k` is the donation's recipient, as `if (parsed.recipientId)` sees it. */
  predicate IsRecipient(d: ParsedDonation, k: string) {
    Truthy(d.recipientId) && d.recipientId.value == k
  }

  /** Whether `k` is the donation's referrer. */
  predicate IsReferrer(d: ParsedDonation, k: string) {
    Truthy(d.referrerId) && d.referrerId.value == k
  }

  /** One account's share of `updateAccountAggregates`: the donor, recipient and referrer updates it is party to, in order. */
  function AccountAfter(a: Account, d: ParsedDonation, usd: real, referrerFeeUsd: real, at: int, k: string): Account
    requires d.donorId.Some?
  {
    var a1 := if k == d.donorId.value then DonorAfter(a, d.kind, usd, referrerFeeUsd, at) else a;
    var a2 := if IsRecipient(d, k) then RecipientAfter(a1, d.kind, usd) else a1;
    if IsReferrer(d, k) && referrerFeeUsd != 0.0 then a2.(referralFeesEarnedUsd := a2.referralFeesEarnedUsd + referrerFeeUsd) else a2
  }

  /** The map update touches each account by its own share alone. */
  lemma AggregatesAfterPointwise(accounts: map<string, Account>, d: ParsedDonation, usd: real, referrerFeeUsd: real, at: int, k: string)
    requires PartiesPresent(accounts, d) && k in accounts
    ensures AggregatesAfter(accounts, d, usd, referrerFeeUsd, at)[k] == AccountAfter(accounts[k], d, usd, referrerFeeUsd, at, k)
  {
  }

  /**
   * What `updateAccountAggregates` does to any one account, whichever roles
   * it holds: as donor it gains the amount, one sent donation, the fee paid
   * and the donation dates; as recipient the amount and one received
   * donation; as referrer the fee earned.
   */
  lemma AggregatesAfterDelta(accounts: map<string, Account>, d: ParsedDonation, usd: real, referrerFeeUsd: real, at: int, k: string)
    requires PartiesPresent(accounts, d) && k in accounts
    ensures var a := accounts[k];
            var r := AggregatesAfter(accounts, d, usd, referrerFeeUsd, at)[k];
            var donor := k == d.donorId.value;
            && r.totalDonatedUsd == a.totalDonatedUsd + (if donor then usd else 0.0)
            && r.donationsSentCount == a.donationsSentCount + (if donor then 1 else 0)
            && r.referralFeesPaidUsd == a.referralFeesPaidUsd + (if donor then referrerFeeUsd else 0.0)
            && r.totalReceivedUsd == a.totalReceivedUsd + (if IsRecipient(d, k) then usd else 0.0)
            && r.donationsReceivedCount == a.donationsReceivedCount + (if IsRecipient(d, k) then 1 else 0)
            && r.referralFeesEarnedUsd == a.referralFeesEarnedUsd + (if IsReferrer(d, k) then referrerFeeUsd else 0.0)
            && r.lastDonationDate == (if donor then Some(at) else a.lastDonationDate)
            && r.firstDonationDate == (if donor && a.firstDonationDate.None? then Some(at) else a.firstDonationDate)
            && SameTimesAndNear(r, a)
  {
    AggregatesAfterPointwise(accounts, d, usd, referrerFeeUsd, at, k);
  }

  /**
   * A bucket of any one account moves only on the side and for the kind the
   * donation counts in: the donor's sent bucket, the recipient's received one.
   */
  lemma AggregatesAfterBuckets(accounts: map<string, Account>, d: ParsedDonation, usd: real, referrerFeeUsd: real, at: int, k: string, n: BucketName)
    requires PartiesPresent(accounts, d) && k in accounts
    ensures var a := BucketAt(accounts[k], n);
            var sent := k == d.donorId.value && n == SentBucket(d.kind);
            var received := IsRecipient(d, k) && ReceivedBucket(d.kind) == Some(n);
            BucketAt(AggregatesAfter(accounts, d, usd, referrerFeeUsd, at)[k], n)
            == Bucket(a.donatedUsd + (if sent then usd else 0.0), a.receivedUsd + (if received then usd else 0.0),
                      a.sentCount + (if sent then 1 else 0), a.receivedCount + (if received then 1 else 0))
  {
    AggregatesAfterPointwise(accounts, d, usd, referrerFeeUsd, at, k);
  }

  // ---------------------------------------------------------------------------
  // Saving events

  datatype SaveOutcome = Saved | Duplicate | Failed

  datatype Saving = Saving(store: Store, outcome: SaveOutcome)

  /**
   * `saveDonation`. A donation without donor or time is refused by the store
   * before anything is written. Otherwise the upserts run, then the insert:
   * a duplicate transaction hash ends the save quietly with the upserts kept
   * and no aggregate touched; any other insert failure is an error for the
   * caller; a new row is followed by the aggregate updates.
   */
  function SaveDonationSpec(s: Store, d: ParsedDonation, env: Env): (r: Saving)
    ensures d.donorId.None? || d.donatedAtMs.None? ==> r == Saving(s, Failed)
    ensures r.outcome == Saved <==> d.donorId.Some? && d.donatedAtMs.Some? && d.transactionHash !in s.donations
                                    && d.transactionHash !in env.faults.donationInsert
    ensures r.outcome == Duplicate <==> d.donorId.Some? && d.donatedAtMs.Some? && d.transactionHash in s.donations
    ensures r.outcome != Saved ==> r.store.donations == s.donations
    ensures r.outcome == Saved ==> r.store.donations == s.donations[d.transactionHash := DonationRow(d, d.donatedAtMs.value, env.price(d.donatedAtMs.value))]
    ensures r.store.payouts == s.payouts && r.store.checkpoint == s.checkpoint
    // past the store's own refusal the upserts always happen; only a save moves the aggregates
    ensures d.donorId.Some? && d.donatedAtMs.Some? && r.outcome != Saved ==>
              r.store == TouchParties(s, d, d.donatedAtMs.value, env.now)
    ensures r.outcome == Saved ==>
              var at := d.donatedAtMs.value;
              var touched := TouchParties(s, d, at, env.now);
              var row := DonationRow(d, at, env.price(at));
              && r.store.pots == touched.pots && r.store.campaigns == touched.campaigns
              && r.store.accounts == AggregatesAfter(touched.accounts, d, row.amountUsd, row.referrerFeeUsd, at)
  {
    if d.donorId.None? || d.donatedAtMs.None? then Saving(s, Failed)
    else
      var at := d.donatedAtMs.value;
      var price := env.price(at);
      var touched := TouchParties(s, d, at, env.now);
      if d.transactionHash in touched.donations then Saving(touched, Duplicate)
      else if d.transactionHash in env.faults.donationInsert then Saving(touched, Failed)
      else
        var row := DonationRow(d, at, price);
        var accounts := AggregatesAfter(touched.accounts, d, row.amountUsd, row.referrerFeeUsd, at);
        Saving(touched.(donations := touched.donations[d.transactionHash := row], accounts := accounts), Saved)
  }

  /** The payout row `savePotPayout` creates. */
  function PayoutRow(p: ParsedPayout, price: real): (r: Payout)
    requires p.recipientId.Some? && p.paidAtMs.Some?
    ensures r.transactionHash == p.transactionHash && r.recipientId == p.recipientId.value && r.paidAt == p.paidAtMs.value
  {
    Payout(p.potId, p.recipientId.value, Pricing.YoctoToNear(p.amount), Pricing.AmountUsd(p.amount.GetOr(""), price),
           p.ftId, p.paidAtMs.value, p.blockHeight, p.transactionHash)
  }

  /**
   * `savePotPayout`: every error is swallowed. Without recipient or time
   * nothing is written; otherwise the recipient is upserted and, unless the
   * insert is a duplicate or fails, the row is added and the recipient's
   * received totals grow.
   */
  function SavePayoutSpec(s: Store, p: ParsedPayout, env: Env): (r: Store)
    ensures p.recipientId.None? || p.paidAtMs.None? ==> r == s
    ensures r.donations == s.donations && r.checkpoint == s.checkpoint
    ensures p.transactionHash in s.payouts || p.transactionHash in env.faults.payoutInsert ==> r.payouts == s.payouts
    ensures p.recipientId.Some? && p.paidAtMs.Some? && p.transactionHash !in s.payouts && p.transactionHash !in env.faults.payoutInsert
            ==> r.payouts == s.payouts[p.transactionHash := PayoutRow(p, env.price(p.paidAtMs.value))]
    ensures r.pots == s.pots && r.campaigns == s.campaigns
    // the recipient upsert always happens; every other account is left alone
    ensures p.recipientId.Some? && p.paidAtMs.Some? ==>
              var touched := TouchAccount(s.accounts, p.recipientId.value, p.paidAtMs.value, env.now);
              && r.accounts.Keys == touched.Keys
              && (forall k :: k in s.accounts && k != p.recipientId.value ==> r.accounts[k] == s.accounts[k])
    // a duplicate or failing insert moves no aggregate; a new payout credits the recipient's pot bucket
    ensures p.recipientId.Some? && p.paidAtMs.Some? && (p.transactionHash in s.payouts || p.transactionHash in env.faults.payoutInsert) ==>
              r.accounts == TouchAccount(s.accounts, p.recipientId.value, p.paidAtMs.value, env.now)
    ensures p.recipientId.Some? && p.paidAtMs.Some? && p.transactionHash !in s.payouts && p.transactionHash !in env.faults.payoutInsert ==>
              var id := p.recipientId.value;
              var touched := TouchAccount(s.accounts, id, p.paidAtMs.value, env.now);
              r.accounts[id] == PayoutReceived(touched[id], PayoutRow(p, env.price(p.paidAtMs.value)).amountUsd)
  {
    if p.recipientId.None? || p.paidAtMs.None? then s
    else
      var at := p.paidAtMs.value;
      var id := p.recipientId.value;
      var touched := s.(accounts := TouchAccount(s.accounts, id, at, env.now));
      if p.transactionHash in s.payouts || p.transactionHash in env.faults.payoutInsert then touched
      else
        var row := PayoutRow(p, env.price(at));
        touched.(payouts := touched.payouts[p.transactionHash := row],
                 accounts := touched.accounts[id := PayoutReceived(touched.accounts[id], row.amountUsd)])
  }

  // ---------------------------------------------------------------------------
  // Receipts, chunks and blocks

  /** The `outcome` of an execution outcome; `logs` may be missing. */
  datatype Outcome = Outcome(logs: Option<seq<string>>)

  /** One receipt execution outcome of a chunk. */
  datatype ReceiptOutcome = ReceiptOutcome(receiptId: Option<string>, outcomeId: Option<string>, outcome: Option<Outcome>)

  /** A chunk of a block: its receipt execution outcomes, or a failed chunk fetch. */
  datatype Chunk = ChunkUnavailable | ChunkData(receipts: seq<ReceiptOutcome>)

  /** A block as the node answers it for the requested height. */
  datatype BlockBody = BlockBody(hash: string, timestamp: int, chunks: seq<Chunk>)

  /** What `processReceipt` did: returned false, returned true, or raised an error. */
  datatype ReceiptStatus = NotPotlock | Handled | Threw

  datatype Receipt = Receipt(store: Store, status: ReceiptStatus)

  /** Saving a receipt's donations in order; the first failure stops the rest. */
  datatype Saves = Saves(store: Store, threw: bool)

  function SaveAllSpec(s: Store, ds: seq<ParsedDonation>, env: Env): (r: Saves)
    ensures r.store.checkpoint == s.checkpoint && r.store.payouts == s.payouts
    ensures ds == [] ==> r == Saves(s, false)
    decreases |ds|
  {
    if ds == [] then Saves(s, false)
    else
      var first := SaveDonationSpec(s, ds[0], env);
      if first.outcome == Failed then Saves(first.store, true)
      else SaveAllSpec(first.store, ds[1..], env)
  }

  /**
   * Donations that all carry one hash, as a receipt's do, keep every stored
   * row and add at most the row under that hash.
   */
  lemma {:induction false} OneDonationPerReceipt(s: Store, ds: seq<ParsedDonation>, env: Env, tx: string)
    requires forall d :: d in ds ==> d.transactionHash == tx
    ensures s.donations.Keys <= SaveAllSpec(s, ds, env).store.donations.Keys <= s.donations.Keys + {tx}
    decreases |ds|
  {
    if ds != [] {
      var first := SaveDonationSpec(s, ds[0], env);
      if first.outcome != Failed {
        assert forall d :: d in ds[1..] ==> d in ds;
        OneDonationPerReceipt(first.store, ds[1..], env, tx);
      }
    }
  }

  /** The hash donations and payouts of a receipt are keyed by: the outcome id, else the receipt id. */
  function ReceiptTxHash(ro: ReceiptOutcome): (r: string)
    requires Truthy(ro.receiptId)
    ensures Truthy(ro.outcomeId) ==> r == ro.outcomeId.value
    ensures !Truthy(ro.outcomeId) ==> r == ro.receiptId.value
    ensures r != ""
  {
    StringOr(ro.outcomeId, ro.receiptId.value)
  }

  /** `parseExecutionOutcome` of a receipt's logs. */
  function ReceiptDonations(logs: Option<seq<string>>, decode: Decoder, txHash: string, height: int): seq<ParsedDonation> {
    if logs.None? then [] else DonationsOfLines(logs.value, decode, txHash, height)
  }

  /** `parsePotPayout` of a receipt's logs. */
  function ReceiptPayout(logs: Option<seq<string>>, decode: Decoder, txHash: string, height: int): Option<ParsedPayout> {
    if logs.None? then None else FirstPayout(logs.value, decode, txHash, height)
  }

  /**
   * `processReceipt`: without a receipt id or an outcome, `false` and nothing
   * saved. Otherwise the donations, then the payout (only when no donation
   * save raised an error), and `true`.
   */
  function ProcessReceiptSpec(s: Store, ro: ReceiptOutcome, height: int, env: Env, decode: Decoder): (r: Receipt)
    ensures !Truthy(ro.receiptId) || ro.outcome.None? ==> r == Receipt(s, NotPotlock)
    ensures r.store.checkpoint == s.checkpoint
    // whatever rows a receipt adds are keyed by its own hash
    ensures Truthy(ro.receiptId) && ro.outcome.Some? ==>
              && s.donations.Keys <= r.store.donations.Keys <= s.donations.Keys + {ReceiptTxHash(ro)}
              && s.payouts.Keys <= r.store.payouts.Keys <= s.payouts.Keys + {ReceiptTxHash(ro)}
  {
    if !Truthy(ro.receiptId) || ro.outcome.None? then Receipt(s, NotPotlock)
    else
      var tx := ReceiptTxHash(ro);
      var logs := ro.outcome.value.logs;
      var ds := ReceiptDonations(logs, decode, tx, height);
      var saved := SaveAllSpec(s, ds, env);
      assert forall d :: d in ds ==> d.transactionHash == tx by {
        if logs.Some? { DonationsCarryReceipt(logs.value, decode, tx, height); }
      }
      OneDonationPerReceipt(s, ds, env, tx);
      if saved.threw then Receipt(saved.store, Threw)
      else
        var payout := ReceiptPayout(logs, decode, tx, height);
        Receipt(if payout.Some? then SavePayoutSpec(saved.store, payout.value, env) else saved.store, Handled)
  }

  /** The store after some receipts, with the block's two counters. */
  datatype Progress = Progress(store: Store, receipts: nat, potlock: nat)

  /** The receipts of one chunk, in order; a receipt that raises abandons the rest of the chunk. */
  function ReceiptsSpec(p: Progress, ros: seq<ReceiptOutcome>, height: int, env: Env, decode: Decoder): (r: Progress)
    ensures r.store.checkpoint == p.store.checkpoint
    ensures p.potlock <= p.receipts ==> r.potlock <= r.receipts
    ensures p.receipts <= r.receipts <= p.receipts + |ros|
    decreases |ros|
  {
    if ros == [] then p
    else
      var rec := ProcessReceiptSpec(p.store, ros[0], height, env, decode);
      if rec.status == Threw then p.(store := rec.store)
      else ReceiptsSpec(Counted(p, rec), ros[1..], height, env, decode)
  }

  /** The counters after a receipt that returned: one more receipt, one more potlock one if it was handled. */
  function Counted(p: Progress, rec: Receipt): Progress {
    Progress(rec.store, p.receipts + 1, if rec.status == Handled then p.potlock + 1 else p.potlock)
  }

  /** One receipt of a chunk, given what processing it did. */
  lemma NextReceipt(p: Progress, ros: seq<ReceiptOutcome>, j: nat, height: int, env: Env, decode: Decoder, rec: Receipt)
    requires j < |ros| && rec == ProcessReceiptSpec(p.store, ros[j], height, env, decode)
    ensures ReceiptsSpec(p, ros[j..], height, env, decode)
            == if rec.status == Threw then p.(store := rec.store)
               else ReceiptsSpec(Counted(p, rec), ros[j + 1..], height, env, decode)
  {
    assert ros[j..][0] == ros[j] && ros[j..][1..] == ros[j + 1..];
  }

  /** The chunks of a block, in order; a chunk that cannot be fetched is skipped. */
  function ChunksSpec(p: Progress, chunks: seq<Chunk>, height: int, env: Env, decode: Decoder): (r: Progress)
    ensures r.store.checkpoint == p.store.checkpoint
    ensures p.potlock <= p.receipts ==> r.potlock <= r.receipts
    decreases |chunks|
  {
    if chunks == [] then p
    else
      var next := if chunks[0].ChunkUnavailable? then p else ReceiptsSpec(p, chunks[0].receipts, height, env, decode);
      ChunksSpec(next, chunks[1..], height, env, decode)
  }

  datatype BlockResult = BlockResult(store: Store, ok: bool, receipts: nat, potlock: nat)

  /**
   * `processBlock`: a block that cannot be fetched raises and changes nothing;
   * otherwise every chunk, then the checkpoint overwrite with this block's
   * height, hash and time. A failing checkpoint write raises, keeping what
   * the chunks saved.
   */
  function ProcessBlockSpec(s: Store, height: int, block: Option<BlockBody>, env: Env, decode: Decoder): (r: BlockResult)
    ensures block.None? ==> r == BlockResult(s, false, 0, 0)
    ensures r.ok <==> block.Some? && !env.faults.checkpointWrite
    ensures r.ok ==> r.store.checkpoint == Some(Checkpoint(height, block.value.hash, block.value.timestamp))
    ensures !r.ok ==> r.store.checkpoint == s.checkpoint
    ensures r.potlock <= r.receipts
  {
    if block.None? then BlockResult(s, false, 0, 0)
    else
      var b := block.value;
      var done := ChunksSpec(Progress(s, 0, 0), b.chunks, height, env, decode);
      if env.faults.checkpointWrite then BlockResult(done.store, false, done.receipts, done.potlock)
      else BlockResult(done.store.(checkpoint := Some(Checkpoint(height, b.hash, b.timestamp))), true, done.receipts, done.potlock)
  }

  // ---------------------------------------------------------------------------
  // Start-up and the polling loop

  /**
   * The start height: the checkpoint's height, unless it is ahead of the
   * chain head (then the configured height); with no checkpoint, the
   * configured height, or `head - 10` when none is configured.
   */
  function StartHeight(checkpoint: Option<Checkpoint>, head: int, configured: int): (h: int)
    ensures checkpoint.Some? && checkpoint.value.lastBlockHeight <= head ==> h == checkpoint.value.lastBlockHeight
    ensures checkpoint.Some? && checkpoint.value.lastBlockHeight > head ==> h == configured
    ensures checkpoint.None? && configured == 0 ==> h == head - LookbackBlocks
    ensures checkpoint.None? && configured != 0 ==> h == configured
  {
    var h := if checkpoint.Some? then checkpoint.value.lastBlockHeight else configured;
    var h := if checkpoint.Some? && checkpoint.value.lastBlockHeight > head then configured else h;
    if checkpoint.None? && configured == 0 then head - LookbackBlocks else h
  }

  /** The store after start-up: a checkpoint ahead of the chain head is deleted. */
  function StartStore(s: Store, head: int): (r: Store)
    ensures r.checkpoint.Some? ==> r.checkpoint.value.lastBlockHeight <= head
    ensures r.checkpoint == s.checkpoint || (s.checkpoint.Some? && s.checkpoint.value.lastBlockHeight > head && r.checkpoint.None?)
  {
    if s.checkpoint.Some? && s.checkpoint.value.lastBlockHeight > head then s.(checkpoint := None) else s
  }

  /**
   * One event the loop sees: `stop()` was called, or a poll with the chain
   * head (`None`: the RPC call failed), the node's answer for the block at the
   * current height (`None`: it failed), and the poll's environment.
   */
  datatype Tick = Stop | Poll(head: Option<int>, block: Option<BlockBody>, env: Env)

  datatype Step = Step(store: Store, height: int, processed: bool)

  /**
   * One iteration of the loop: behind the head, process the block at the
   * current height and advance by one if that succeeded; otherwise (caught up,
   * or an error) stay at the same height.
   */
  function StepSpec(s: Store, height: int, head: Option<int>, block: Option<BlockBody>, env: Env, decode: Decoder): (r: Step)
    ensures r.processed ==> r.height == height + 1
    ensures !r.processed ==> r.height == height
    ensures head.None? || height >= head.value ==> r == Step(s, height, false)
  {
    if head.None? || height >= head.value then Step(s, height, false)
    else
      var b := ProcessBlockSpec(s, height, block, env, decode);
      if b.ok then Step(b.store, height + 1, true) else Step(b.store, height, false)
  }

  /** A run of the loop: final store and height, heights processed in order, and whether it stopped. */
  datatype Run = Run(store: Store, height: int, processed: seq<int>, stopped: bool)

  function RunSpec(s: Store, height: int, ticks: seq<Tick>, decode: Decoder): (r: Run)
    ensures |r.processed| <= |ticks|
    decreases |ticks|
  {
    if ticks == [] then Run(s, height, [], false)
    else
      match ticks[0]
      case Stop => Run(s, height, [], true)
      case Poll(head, block, env) =>
        var step := StepSpec(s, height, head, block, env, decode);
        var rest := RunSpec(step.store, step.height, ticks[1..], decode);
        Run(rest.store, rest.height, (if step.processed then [height] else []) + rest.processed, rest.stopped)
  }

  /** A run with `ps` processed before it. */
  function Prefixed(ps: seq<int>, run: Run): Run {
    run.(processed := ps + run.processed)
  }

  /** One poll of the loop, given what its iteration did. */
  lemma NextTick(s: Store, height: int, ticks: seq<Tick>, i: nat, decode: Decoder, step: Step, ps: seq<int>)
    requires i < |ticks| && ticks[i].Poll?
    requires step == StepSpec(s, height, ticks[i].head, ticks[i].block, ticks[i].env, decode)
    ensures Prefixed(ps, RunSpec(s, height, ticks[i..], decode))
            == Prefixed(ps + (if step.processed then [height] else []), RunSpec(step.store, step.height, ticks[i + 1..], decode))
  {
    assert ticks[i..][0] == ticks[i] && ticks[i..][1..] == ticks[i + 1..];
    ConcatAssoc(ps, if step.processed then [height] else [], RunSpec(step.store, step.height, ticks[i + 1..], decode).processed);
  }
}
