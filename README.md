# NEAR donation indexer: the ingestion pipeline, modelled in Dafny

This project models the ingestion pipeline of a NEAR blockchain indexer for
Potlock donations, and proves properties of the model.

- The indexer polls the chain one block at a time.
- It turns the `EVENT_JSON:` log lines of each receipt into donations and pot
  payouts.
- It stores them keyed by transaction hash. A row that already exists is a
  duplicate and is skipped.
- It keeps per-account running totals.
- After each block it overwrites a singleton checkpoint.
- A NEAR price oracle values amounts in USD.
- Two read-only APIs, accounts and donations, answer queries over the store.

## Modules

| file | module | what it is |
|---|---|---|
| `wrappers.dfy` | `Wrappers` | `Option` |
| `event_parser.dfy` | `EventParser` | The log-line parser. The record constructors and the dispatch are functions. `parseExecutionOutcome` and `parsePotPayout` are loops proved against list functions. |
| `pricing.dfy` | `Pricing` | The oracle as functions of its state. Class `PriceService` holds the two cache fields and the price table; its methods are proved against those functions. |
| `indexer_spec.dfy` | `IndexerSpec` | The store as maps. Every indexer operation is written as a function of the store and of what one poll sees. |
| `indexer.dfy` | `Indexer` | Class `IndexerService`. It holds `isRunning`, the store tables and the checkpoint. Its loops and in-place updates are proved against `IndexerSpec`. |
| `indexer_proofs.dfy` | `IndexerProofs` | Invariants and properties over whole runs. |
| `query_params.dfy` | `QueryParams` | Sort-string splitting, the sort whitelist, the page offset and the page count. Both APIs use them. |
| `accounts.dfy` | `Accounts` | The account listing's parameters and the three lookups by id. |
| `donations.dfy` | `Donations` | The `where` filter, built field by field, and what it selects. |

## How the outside world is modelled

- **`JSON.parse`** is a parameter, `decode: string -> Option<Event>`. `None` is
  a parse error.
- **The chain** is a sequence of `Tick`s, one per loop iteration. Each one is
  either `stop()` or a poll.
- **A poll** carries three things:
  - the chain head, or `None` when the RPC call fails;
  - the node's answer for the block at the current height, or `None`;
  - an `Env` with the oracle's USD price for each event time, the wall clock,
    and which store writes fail.
- **A failed chunk fetch** is the `ChunkUnavailable` chunk.
- **The remote price feed** is a `FetchResult`. **Store failures in the oracle**
  are a `StoreFaults` record.
- **Amounts** are decimal strings of yoctoNEAR. Their value is exact: the
  integer divided by 10^24, as a real.

## Where the model follows the code rather than the obvious reading

- **Errors inside the polling loop.** Every error raised inside the loop is
  caught there, and the same height is retried at the next poll. Only an error
  in the start-up phase ends `start` and clears `isRunning`.
- **Resetting a checkpoint that is ahead of the chain head.** The start height
  becomes the configured one, even when that is 0. The `head - 10` rule applies
  only when no checkpoint was loaded (`StartHeight`).
- **Upserts run before the donation insert.** So a duplicate donation still
  moves `lastActivityAt` and the pot or campaign update time, and may create
  accounts. No aggregate moves (`DuplicateChangesNoAggregate`).
- **A donation without a donor or a time** is refused by the store before
  anything is written. It counts as a non-duplicate error, so `processReceipt`
  raises.
- **One donation per receipt.** All donations of a receipt are keyed by the
  receipt's execution-outcome id. Only the first of several donation events in
  one receipt is stored; the others are duplicates (`OneDonationPerReceipt`).
- **Campaign received totals never move.** The campaign parser sets no
  recipient, so a campaign's received bucket is never updated.
- **NEAR totals are never written.** The indexer never updates
  `totalDonatedNear`, `totalReceivedNear` or the NEAR referral fees. The
  account summary therefore reports them as 0 (`SummaryAddsUp`).
- **A restart re-processes the checkpointed block.** That block was already
  done (`ResumeRepeatsCheckpoint`). A receipt of it that was handled the first
  time, without a failing payout insert, changes no aggregate when replayed
  (`ReceiptTwiceChangesNoAggregate`). That is a per-receipt statement. Receipts
  that were abandoned because an earlier receipt of their chunk raised are
  processed for the first time on the replay, and they do move aggregates.

## Model

| member | source | states |
|---|---|---|
| EventParser.KindOfEvent | src/blockchain/event-parser.service.ts:87-99 | The dispatch table. `donate`, `pot_donate`, `pot_project_donation` and `campaign_donate` map to DIRECT, POT, POT_PROJECT and CAMPAIGN. A name maps to a kind exactly when it is that kind's event name; any other name maps to none. |
| EventParser.ParsePotlockEvent | src/blockchain/event-parser.service.ts:79-100 | An event yields a donation exactly when its name is one of the four and it has a payload. The donation has that name's kind and carries the given transaction hash and block height. |
| EventParser.ParsedDonationFollowsTable | src/blockchain/event-parser.service.ts:102-187 | Each of the four constructors maps the payload field by field. `ftId` defaults to `near`. A POT donation's amount is `total_amount` when present, else `amount`. POT_PROJECT sets recipient and project to `project_id` and has no message or protocol fee. POT and CAMPAIGN have no recipient. |
| EventParser.DonationOfLine | src/blockchain/event-parser.service.ts:46-56 | A line yields a donation only if it starts with `EVENT_JSON:` and decodes to an event whose standard is `potlock`. |
| EventParser.ParseExecutionOutcome | src/blockchain/event-parser.service.ts:35-77 | The loop returns the donations of the lines, in order. Missing or empty logs give none. |
| EventParser.DonationsCarryReceipt | src/blockchain/event-parser.service.ts:118-119 | Every parsed donation carries exactly the given transaction hash and block height, and is well shaped: a non-empty `ftId`, no recipient for POT or CAMPAIGN, and recipient equal to project for POT_PROJECT. |
| EventParser.DonationsOfLines | src/blockchain/event-parser.service.ts:44-73 | The output never has more donations than there are log lines. |
| EventParser.DonationsKeepLogOrder | src/blockchain/event-parser.service.ts:44-73 | The k-th donation is the one the k-th donation-yielding line produces, and those lines are in strictly increasing order. |
| EventParser.IndicesIncrease | src/blockchain/event-parser.service.ts:44-73 | The positions of the donation-yielding lines lie within the log and strictly increase. |
| EventParser.DonationsOfLinesAppend | src/blockchain/event-parser.service.ts:44-73 | The donations of two runs of lines are those of the first run followed by those of the second. |
| EventParser.UndecodableLineIsSkipped | src/blockchain/event-parser.service.ts:45-48 | A line that fails to decode contributes nothing, and the lines after it are still parsed. |
| EventParser.PayoutOfLine | src/blockchain/event-parser.service.ts:196-210 | A line yields a payout only if it is a `potlock` `pot_payout` event. The payout carries the given hash and height, and `ftId` defaults to `near`. |
| EventParser.FirstPayout | src/blockchain/event-parser.service.ts:194-217 | There is no payout exactly when no line yields one. Otherwise the payout carries the given hash and height. |
| EventParser.ParsePotPayout | src/blockchain/event-parser.service.ts:189-218 | The loop returns the first payout. Missing or empty logs give none. |
| EventParser.FirstPayoutWins | src/blockchain/event-parser.service.ts:194-217 | The first payout line decides the result; later ones are ignored. |
| Pricing.DigitsRoundTrip | src/pricing/price.service.ts:121-123 | Reading back a rendered yoctoNEAR amount gives that amount. |
| Pricing.YoctoToNear | src/pricing/price.service.ts:121-123 | The NEAR amount is non-negative, and times 10^24 it is the yoctoNEAR integer. |
| Pricing.YoctoToNearOfRendered | src/pricing/price.service.ts:121-123 | Converting a rendered amount and scaling back by 10^24 gives the amount. |
| Pricing.MinuteOf | src/pricing/price.service.ts:57-58 | The truncated timestamp is on a minute boundary, at most one minute before the time. |
| Pricing.Upsert | src/pricing/price.service.ts:60-76 | The table stays keyed by timestamp. The new row replaces any row at the same time, and every other row is kept. |
| Pricing.SavePrice | src/pricing/price.service.ts:55-80 | A failed write is swallowed and leaves the table as it was. Otherwise the price is stored at the current minute, every row at another minute is kept, and no other row appears. Rows stay keyed and on minute boundaries. |
| Pricing.Newest | src/pricing/price.service.ts:84-94 | Returns the row with the greatest timestamp at or before the bound. Returns none exactly when no row is at or before it. |
| Pricing.LatestPersisted | src/pricing/price.service.ts:107-119 | Returns the price of the newest row. Returns none exactly when the read fails or the table is empty. |
| Pricing.CurrentPrice | src/pricing/price.service.ts:18-53 | A fresh non-zero cache answers with no change. A reply is cached with the time and persisted; a missing price reads as 0. When the fetch fails, nothing changes, and the answer is the non-zero cached price, else the latest persisted price, else 0. |
| Pricing.HistoricalPrice | src/pricing/price.service.ts:82-105 | Returns the newest persisted price at or before the time. When there is none, or the read fails, it takes the current-price path. |
| Pricing.AmountUsd | src/pricing/price.service.ts:126-135 | The USD value of an amount, scaled up by 10^24, is the yoctoNEAR amount times the price: the conversion loses nothing. |
| Pricing.UsdValue | src/pricing/price.service.ts:125-136 | With a timestamp, the amount is valued at the historical price and the oracle moves as the historical path moves it. Without one, both follow the current-price path. |
| Pricing.CachedWithinWindow | src/pricing/price.service.ts:11-23 | After a successful non-zero fetch, every call in the next five minutes returns that price and changes nothing. |
| Pricing.SavedPriceIsNewest | src/pricing/price.service.ts:55-105 | Once a price is saved, a historical lookup at the current time finds exactly that price. |
| Pricing.HistoryNeverLooksAhead | src/pricing/price.service.ts:84-98 | A historical answer from the table is a row at or before the time, the newest such row. The lookup changes nothing. |
| Pricing.PriceService.constructor | src/pricing/price.service.ts:9-10 | The cache starts at price 0 and time 0. |
| Pricing.PriceService.SavePriceToDb | src/pricing/price.service.ts:55-80 | The table becomes `SavePrice` of the old table. |
| Pricing.PriceService.GetLatestPriceFromDb | src/pricing/price.service.ts:107-119 | Returns `LatestPersisted` of the table. |
| Pricing.PriceService.GetCurrentNearPrice | src/pricing/price.service.ts:18-53 | The price and the new cache and table are those of `CurrentPrice`. |
| Pricing.PriceService.GetHistoricalPrice | src/pricing/price.service.ts:82-105 | The price and the new state are those of `HistoricalPrice`. |
| Pricing.PriceService.CalculateUsdValue | src/pricing/price.service.ts:125-136 | The value and the new state are those of `UsdValue`. |
| IndexerSpec.FeeNear | src/blockchain/indexer.service.ts:275-277 | A fee the event does not carry is 0. |
| IndexerSpec.FeeUsd | src/blockchain/indexer.service.ts:278-287 | A fee the event does not carry is worth 0 USD. |
| IndexerSpec.NonZeroNear | src/blockchain/indexer.service.ts:289-295 | Net amount and chef fee are null unless present and non-zero. |
| IndexerSpec.DonationRow | src/blockchain/indexer.service.ts:345-369 | The stored row keeps the hash, kind, time, donor, recipient and referrer. Missing fees are 0, and a missing net amount or chef fee is null. |
| IndexerSpec.TouchAccount | src/blockchain/indexer.service.ts:298-302 | The upsert creates a fresh account, or moves only the last-activity time of an existing one. No other account changes. |
| IndexerSpec.TouchRow | src/blockchain/indexer.service.ts:320-336 | The pot or campaign upsert creates the row at `now`, or sets its update time. No other row changes. |
| IndexerSpec.TouchParties | src/blockchain/indexer.service.ts:298-336 | After the upserts, donor, recipient and referrer exist. Donations, payouts and checkpoint are unchanged. |
| IndexerSpec.DonorAfter | src/blockchain/indexer.service.ts:403-424 | The donor gains the amount in `totalDonatedUsd`, one sent donation, and the referrer fee in `referralFeesPaidUsd`. Its sent bucket for the kind gains the amount and one count: DIRECT to direct, POT and POT_PROJECT to pot, CAMPAIGN to campaign. Every other bucket, the received side and the fees earned stay. `lastDonationDate` becomes the time, and `firstDonationDate` is set only when unset. |
| IndexerSpec.RecipientAfter | src/blockchain/indexer.service.ts:426-450 | The recipient gains the amount in `totalReceivedUsd` and one received donation. The received bucket of the kind gains the amount and one count: DIRECT to direct, POT_PROJECT to pot, CAMPAIGN to campaign, and POT to none. Every other bucket, the sent side, the fees and the dates stay. |
| IndexerSpec.PayoutReceived | src/blockchain/indexer.service.ts:490-497 | A payout adds the amount to `totalReceivedUsd` and to the pot bucket's received amount, and one to its received count. `donationsReceivedCount`, the other buckets, the sent side, the fees and the dates stay. |
| IndexerSpec.AggregatesAfter | src/blockchain/indexer.service.ts:387-463 | Only the donor, the recipient and the referrer can change; the account ids stay the same. |
| IndexerSpec.AggregatesAfterPointwise | src/blockchain/indexer.service.ts:387-463 | Each account ends as its own donor, recipient and referrer updates leave it, applied in that order. |
| IndexerSpec.AggregatesAfterDelta | src/blockchain/indexer.service.ts:387-463 | For any account: as donor it gains the amount, one sent donation, the fee paid and the donation dates; as recipient the amount and one received donation; as referrer the fee earned. An account in none of the roles keeps every field. |
| IndexerSpec.AggregatesAfterBuckets | src/blockchain/indexer.service.ts:403-450 | For any account and any bucket: the bucket gains the amount and one sent count only if the account is the donor and the bucket is the kind's sent bucket. It gains the amount and one received count only if the account is the recipient and the bucket is the kind's received bucket. |
| IndexerSpec.SaveDonationSpec | src/blockchain/indexer.service.ts:262-385 | Saved exactly when donor and time are present, the hash is new and the insert does not fail. Duplicate exactly when the hash is stored. Only a save adds the row. A duplicate or failed insert leaves only the upserts' effects. A save leaves the accounts as `AggregatesAfter` of the upserted ones, with the row's USD amount and referrer fee. |
| IndexerSpec.PayoutRow | src/blockchain/indexer.service.ts:477-488 | The payout row keeps the hash, recipient and time. |
| IndexerSpec.SavePayoutSpec | src/blockchain/indexer.service.ts:465-507 | A payout without recipient or time changes nothing. A duplicate or failing insert adds no row, and only the recipient upsert takes effect. Otherwise the row is added and the upserted recipient gets `PayoutReceived` of the row's USD amount. No other account, pot, campaign or donation changes, nor the checkpoint. |
| IndexerSpec.SaveAllSpec | src/blockchain/indexer.service.ts:248-250 | Defined as saving the donations in order until the first error. The checkpoint and payouts are untouched. |
| IndexerSpec.ReceiptTxHash | src/blockchain/indexer.service.ts:219 | The key is the execution outcome's id when it is a non-empty string, else the receipt id; it is never empty. |
| IndexerSpec.ProcessReceiptSpec | src/blockchain/indexer.service.ts:177-260 | A receipt without `receipt_id` or `outcome` returns false and saves nothing. Otherwise every donation or payout row it adds is keyed by `ReceiptTxHash`, and no row is removed. No receipt touches the checkpoint. |
| IndexerSpec.ReceiptsSpec | src/blockchain/indexer.service.ts:154-158 | Defined as processing the receipts in order, stopping at the first that raises. The receipt count grows by at most the number of receipts, and the potlock count never exceeds the receipt count. The checkpoint is untouched. |
| IndexerSpec.ChunksSpec | src/blockchain/indexer.service.ts:118-162 | Defined as processing the chunks in order. Neither the checkpoint nor the order of the two counts changes. |
| IndexerSpec.ProcessBlockSpec | src/blockchain/indexer.service.ts:103-171 | A block that cannot be fetched changes nothing. The block succeeds exactly when it is fetched and the checkpoint write works. The checkpoint then holds exactly this block's height, hash and time; otherwise it is unchanged. |
| IndexerSpec.StartHeight | src/blockchain/indexer.service.ts:50-75 | Start from the checkpoint when it is at or below the head, else from the configured height. With no checkpoint, start from the configured height, or `head - 10` when that is 0. |
| IndexerSpec.StartStore | src/blockchain/indexer.service.ts:56-65 | Only a checkpoint ahead of the head is deleted. |
| IndexerSpec.StepSpec | src/blockchain/indexer.service.ts:79-96 | A poll advances the height by exactly 1 when it processed a block, else leaves it. When caught up or without a head, it changes nothing. |
| IndexerSpec.RunSpec | src/blockchain/indexer.service.ts:79-96 | A run processes at most one height per poll. |
| Indexer.IndexerService.constructor | src/blockchain/indexer.service.ts:12-24 | The indexer starts not running. The start height is the configured one, or 0. |
| Indexer.IndexerService.UpsertAccount | src/blockchain/indexer.service.ts:298-318 | The account table becomes `TouchAccount` of the old one. |
| Indexer.IndexerService.UpdateAccountAggregates | src/blockchain/indexer.service.ts:387-463 | The account table becomes `AggregatesAfter` of the old one, so each account moves by the per-role increments of `AggregatesAfterDelta` and `AggregatesAfterBuckets`. |
| Indexer.IndexerService.UpsertParties | src/blockchain/indexer.service.ts:298-336 | The store becomes `TouchParties` of the old one. |
| Indexer.IndexerService.SaveDonation | src/blockchain/indexer.service.ts:262-385 | The new store and the outcome are those of `SaveDonationSpec`, including the account increments of a save. |
| Indexer.IndexerService.SavePotPayout | src/blockchain/indexer.service.ts:465-507 | The new store is `SavePayoutSpec` of the old one, including the recipient's pot increments on a new payout. |
| Indexer.IndexerService.ProcessReceipt | src/blockchain/indexer.service.ts:177-260 | The loop over the parsed donations gives the store and status of `ProcessReceiptSpec`, so a receipt's rows are keyed by `ReceiptTxHash`. |
| Indexer.IndexerService.ProcessChunkReceipts | src/blockchain/indexer.service.ts:154-158 | The receipt loop gives the store and counters of `ReceiptsSpec`. |
| Indexer.IndexerService.UpdateCheckpoint | src/blockchain/indexer.service.ts:515-530 | When the write works, the checkpoint holds exactly the block's height, hash and time; otherwise it is unchanged. |
| Indexer.IndexerService.ProcessBlock | src/blockchain/indexer.service.ts:103-171 | The chunk loop and the checkpoint write give the result of `ProcessBlockSpec`. |
| Indexer.IndexerService.Stop | src/blockchain/indexer.service.ts:536-539 | Clears the running flag. |
| Indexer.IndexerService.Resume | src/blockchain/indexer.service.ts:42-75 | Returns `StartHeight`, and deletes a checkpoint that is ahead of the head. |
| Indexer.IndexerService.Poll | src/blockchain/indexer.service.ts:80-95 | One iteration is `StepSpec`. |
| Indexer.IndexerService.RunLoop | src/blockchain/indexer.service.ts:79-96 | The loop's final store, height and processed heights are those of `RunSpec`. It stops exactly at a `stop()`. |
| Indexer.IndexerService.Start | src/blockchain/indexer.service.ts:32-101 | A no-op while running. A failed start-up clears the flag and changes nothing. Otherwise the run is `RunSpec` from `StartHeight` on the start-up store. |
| IndexerProofs.DonorAfterKeeps | src/blockchain/indexer.service.ts:403-424 | The donor's update keeps the per-kind sent counts and amounts adding up to the totals, and the donation dates set exactly when something was sent. |
| IndexerProofs.RecipientAfterKeeps | src/blockchain/indexer.service.ts:426-450 | The recipient's update keeps received amounts adding up for every kind a recipient can have. |
| IndexerProofs.AggregatesAfterKeeps | src/blockchain/indexer.service.ts:387-463 | The aggregate update keeps every account consistent for a well-shaped donation. |
| IndexerProofs.SaveDonationKeeps | src/blockchain/indexer.service.ts:262-385 | `saveDonation` keeps every account consistent. |
| IndexerProofs.PayoutReceivedKeeps | src/blockchain/indexer.service.ts:490-497 | A payout's update keeps an account consistent. |
| IndexerProofs.SavePayoutKeeps | src/blockchain/indexer.service.ts:465-507 | Saving a payout keeps every account consistent. |
| IndexerProofs.ReceiptKeeps | src/blockchain/indexer.service.ts:177-260 | Processing any receipt keeps every account consistent. |
| IndexerProofs.RunKeepsCounters | src/blockchain/indexer.service.ts:79-96 | Over any run, per-kind sent counts sum to `donationsSentCount`, amounts sum to the totals, donation dates are set exactly when something was sent, and the NEAR totals stay 0. |
| IndexerProofs.StartKeepsCounters | src/blockchain/indexer.service.ts:32-101 | The same holds for a run after start-up. |
| IndexerProofs.TouchPartiesTouches | src/blockchain/indexer.service.ts:298-336 | The upserts keep every existing account's aggregates and only create fresh accounts. |
| IndexerProofs.DuplicateChangesNoAggregate | src/blockchain/indexer.service.ts:377-384 | A donation whose hash is stored is never saved again. No aggregate and no row changes; only the upserts take effect. |
| IndexerProofs.SaveTwiceChangesNoAggregate | src/blockchain/indexer.service.ts:345-384 | Saving a donation again after a save that did not fail is a duplicate that changes no aggregate. |
| IndexerProofs.SaveAllStores | src/blockchain/indexer.service.ts:248-250 | After a pass that raised nothing, every donation is stored by hash and its parties exist. |
| IndexerProofs.SaveAllReplays | src/blockchain/indexer.service.ts:248-250 | A second pass over stored donations raises nothing and changes no aggregate. |
| IndexerProofs.SavePayoutReplays | src/blockchain/indexer.service.ts:465-507 | Saving a stored payout again changes no aggregate. |
| IndexerProofs.ReceiptTwiceChangesNoAggregate | src/blockchain/indexer.service.ts:177-260 | Processing a handled receipt again changes no aggregate and no row. |
| IndexerSpec.OneDonationPerReceipt | src/blockchain/indexer.service.ts:219 | Donations that all carry one hash, as a receipt's do, keep every stored row and add at most the one row under that hash. |
| IndexerProofs.UnavailableChunkIsSkipped | src/blockchain/indexer.service.ts:118-162 | A block with an unavailable chunk ends exactly as if that chunk were absent. |
| IndexerProofs.RunIsContiguous | src/blockchain/indexer.service.ts:79-96 | The processed heights are the start height plus 0, 1, 2 and so on. A failing height is retried, never skipped, and the final height is the next unprocessed one. |
| IndexerProofs.CheckpointFollowsRun | src/blockchain/indexer.service.ts:164 | After a run the checkpoint names the last processed height. A run that processed nothing leaves it unchanged. |
| IndexerProofs.CheckpointIsMonotone | src/blockchain/indexer.service.ts:79-96 | The checkpoint never moves back, and it stays at or below the loop's height. |
| IndexerProofs.ResumeRepeatsCheckpoint | src/blockchain/indexer.service.ts:50-75 | After start-up a remaining checkpoint is exactly the start height. |
| IndexerProofs.StopEndsRun | src/blockchain/indexer.service.ts:536-539 | Nothing after a `stop()` affects the run. |
| QueryParams.Split | src/accounts/accounts.service.ts:20 | `split(':')` always gives at least one piece. |
| QueryParams.SplitJoin | src/accounts/accounts.service.ts:20 | Joining the pieces gives the string back, and no piece contains a colon. |
| QueryParams.ParseSort | src/accounts/accounts.service.ts:20-31 | The field is the first piece if whitelisted, else the default, and it is always whitelisted. The order is ascending exactly when the second piece is `asc`. |
| QueryParams.ParseSortMeaning | src/donations/donations.service.ts:65-68 | `field:order` sorts by the field if whitelisted, else the default. It is ascending exactly for `asc`. Without a colon it is descending. |
| QueryParams.TotalPages | src/accounts/accounts.service.ts:56 | The ceiling: the fewest pages of `limit` rows that hold the total. |
| QueryParams.PageOfRow | src/donations/donations.service.ts:106 | Row k falls on page k/limit+1, between that page's `skip` and the next page's. That page is within `totalPages`. |
| Accounts.AccountsListing | src/accounts/accounts.service.ts:14-31 | Page 1, limit 20 and `totalDonatedUsd:desc` by default. `skip = (page-1)*limit`. The sort field is always one of the six whitelisted. |
| Accounts.DefaultListingOrder | src/accounts/accounts.service.ts:17 | Without a sort parameter, the listing is by total donated, descending. |
| Accounts.AccountsPagination | src/accounts/accounts.service.ts:52-57 | The total is the number of accounts, and `totalPages` is its ceiling over the limit. |
| Accounts.GetAccountById | src/accounts/accounts.service.ts:61-79 | NotFound exactly for an unknown id. Otherwise returns the account's id, both times, its donated and received USD totals, and its sent and received counts. |
| Accounts.GetAccountSummary | src/accounts/accounts.service.ts:81-123 | NotFound exactly for an unknown id. Otherwise the id, the USD and NEAR totals, both counts and both USD referral fees are the account's. Each kind's sent and received amounts and counts are its bucket's. The donation dates are the account's, null when unset. |
| Accounts.GetReferralSummary | src/accounts/accounts.service.ts:125-146 | NotFound exactly for an unknown id. Otherwise the four referral fees, earned and paid in USD and NEAR, are the account's. The referred count is the number of stored donations naming the account as referrer. |
| Accounts.SummaryAddsUp | src/accounts/accounts.service.ts:90-122 | On an indexed store, the summary's breakdown adds up to its totals, and its NEAR totals are 0. |
| Accounts.ReferredAfterInsert | src/blockchain/indexer.service.ts:345-369 | Inserting a new donation row adds one to the referred count of its referrer and changes no other account's count. |
| Accounts.ReferredCountFollowsSaves | src/accounts/accounts.service.ts:134-136 | The referred count grows by one exactly when a new donation with that referrer is saved. |
| Donations.WhereOf | src/donations/donations.service.ts:33-63 | `donorId` for `sent`, `recipientId` for `received`, exactly one of the two. The type is present exactly when given. `gte` and `lte` are present exactly when start or end dates are given. Amount bounds are present whenever defined, including 0. |
| Donations.BuildWhere | src/donations/donations.service.ts:33-63 | The field-by-field construction gives `WhereOf`. |
| Donations.FilterMeaning | src/donations/donations.service.ts:33-63 | The filter admits exactly the donations on the right side, of the right kind, within the dates and within the amounts. |
| Donations.DonationsListing | src/donations/donations.service.ts:30-68 | Page 1, limit 20 and `donatedAt:desc` by default. The sort field is one of `donatedAt`, `amountUsd` and `amountNear`. |
| Donations.DefaultDonationsOrder | src/donations/donations.service.ts:30 | Without a sort parameter, donations are listed newest first. |
| Donations.GetDonations | src/donations/donations.service.ts:25-109 | The total is the number of stored donations the filter admits, and the page count is its ceiling. |
| Donations.GetDonationsSent | src/donations/donations.service.ts:11-16 | The filter is `WhereOf` for the `sent` side, so every selected donation was made by the account. The total is the number of such donations, and the page count is its ceiling. |
| Donations.GetDonationsReceived | src/donations/donations.service.ts:18-23 | The filter is `WhereOf` for the `received` side, so every selected donation was made to the account. The total is the number of such donations, and the page count is its ceiling. |

## Left out

- Floating point. Amounts are exact: the yoctoNEAR integer divided by 10^24. `Number(x)`, `Prisma.Decimal` rounding and NaN are not modelled. A missing amount, or one that is not all digits, reads as 0.
- The CoinGecko HTTP call, the clock, `setTimeout` and `sleep`, logging, and the 5% `Math.random()` log sampling. The feed and the clock are parameters; the rest has no effect on state.
- `JSON.parse`. It is the `decode` parameter. Payload fields are typed optional strings and integers, so a field of the wrong JSON type is not modelled.
- The three USD conversions in `saveDonation` (amount, protocol fee, referrer fee) share one oracle price per event time. In the source each is a separate oracle call, and the cache could refresh between them.
- The indexer prices events with one function of the event time per poll, `Env.price`. The oracle's cache and price table are not carried across the donations and payouts of a poll. So two events with the same time in one poll always get the same price. And one event's lookup cannot change the next one's price, neither by a cache refresh nor by a row the historical-to-current fallback saves.
- `processTransaction` is empty and is not modelled. `receiptToTxMap` is filled but never read, and is not modelled either.
- The NEAR RPC client and Prisma internals: foreign keys, the `P2002` code as such, `findMany` ordering and `skip`/`take` slicing. The store is maps plus a uniqueness check on the hash key. The pages' contents are not modelled; only the parameters, the filter and the total are.
- The model takes the block the node returns to carry the requested height.
- A failure of `getCheckpoint` or of the checkpoint delete at start-up is not modelled. Start-up fails only when the chain head cannot be fetched.
- The Prisma schema is not part of this model. The model takes a created account to start with zero aggregates, no donation dates, and both times at `now`.
- Local-time minute truncation in `savePriceToDb`. Time is UTC milliseconds.
- Concurrency, and a `stop()` that takes effect in the middle of an iteration. The loop reads the flag only at its test.
- The loop runs forever in the source. The model covers finite prefixes of a run: a run ends at `stop()` or when its ticks run out.
- QueryParams.TotalPages: requires a limit of at least 1. The source divides by any limit; a limit of 0 gives `Infinity` or `NaN`. The PaginationDto bounds are not part of this model.
- Donations.GetDonations: requires a limit of at least 1, for the same reason.
- Donations.GetDonationsSent: requires a limit of at least 1, for the same reason.
- Donations.GetDonationsReceived: requires a limit of at least 1, for the same reason.
- Accounts.AccountsPagination: requires a limit of at least 1, for the same reason.
- IndexerSpec.SaveDonationSpec: only the donation insert can fail. The account, pot and campaign upserts and the aggregate updates never fail in the model. In the source, a failure there other than `P2002` is rethrown. If it comes after the insert, the row stays stored, and a retry is a duplicate, so those aggregates are lost for good.
- IndexerSpec.SavePayoutSpec: only the payout insert can fail. The recipient upsert and the account update never fail in the model. In the source, any failure there is logged and swallowed, and a failing account update leaves the row stored without its increments.
- Pricing.CurrentPrice: the price is saved at the minute of the one clock reading taken before the fetch. The source reads the clock again inside `savePriceToDb`, after the fetch, so the two can fall in different minutes.
- The response mapping of rows (field renaming, `toISOString`, `Number`) is not modelled beyond the account summary's copies. Dates are milliseconds.
- The stats service, controllers, DTO classes, and the seed and maintenance scripts.
