/**
 * The indexer service as the source runs it: an object with a running flag,
 * a configured start height and the store tables it updates in place. Each
 * method is proved against the function of `IndexerSpec` that says what it
 * does to the store.
 */
module Indexer {
  import opened Wrappers
  import opened EventParser
  import opened IndexerSpec
  import Pricing

  class IndexerService {
    var isRunning: bool
    const startBlockHeight: int
    var accounts: map<string, Account>
    var pots: map<string, int>
    var campaigns: map<string, int>
    var donations: map<string, Donation>
    var payouts: map<string, Payout>
    var checkpoint: Option<Checkpoint>

    /** The store as a value. */
    function State(): Store
      reads this
    {
      Store(accounts, pots, campaigns, donations, payouts, checkpoint)
    }

    /** Not running; the configured start height, 0 when none is configured. */
    constructor (configuredStart: Option<int>, store: Store)
      ensures !isRunning && State() == store
      ensures startBlockHeight == configuredStart.GetOr(0)
    {
      isRunning := false;
      startBlockHeight := configuredStart.GetOr(0);
      accounts := store.accounts;
      pots := store.pots;
      campaigns := store.campaigns;
      donations := store.donations;
      payouts := store.payouts;
      checkpoint := store.checkpoint;
    }

    method UpsertAccount(id: string, at: int, now: int)
      modifies this`accounts
      ensures accounts == TouchAccount(old(accounts), id, at, now)
    {
      if id in accounts {
        accounts := accounts[id := accounts[id].(lastActivityAt := at)];
      } else {
        accounts := accounts[id := NewAccount(now)];
      }
    }

    method UpdateAccountAggregates(d: ParsedDonation, amountUsd: real, referrerFeeUsd: real, donatedAt: int)
      requires PartiesPresent(accounts, d)
      modifies this`accounts
      ensures accounts == AggregatesAfter(old(accounts), d, amountUsd, referrerFeeUsd, donatedAt)
    {
      var donor := d.donorId.value;
      var account := accounts[donor];
      accounts := accounts[donor := DonorAfter(account, d.kind, amountUsd, referrerFeeUsd, donatedAt)];
      if Truthy(d.recipientId) {
        var recipient := d.recipientId.value;
        accounts := accounts[recipient := RecipientAfter(accounts[recipient], d.kind, amountUsd)];
      }
      if Truthy(d.referrerId) && referrerFeeUsd != 0.0 {
        var referrer := d.referrerId.value;
        accounts := accounts[referrer := accounts[referrer].(referralFeesEarnedUsd := accounts[referrer].referralFeesEarnedUsd + referrerFeeUsd)];
      }
    }

    method SaveDonation(d: ParsedDonation, env: Env) returns (outcome: SaveOutcome)
      modifies this`accounts, this`pots, this`campaigns, this`donations
      ensures Saving(State(), outcome) == SaveDonationSpec(old(State()), d, env)
    {
      if d.donorId.None? || d.donatedAtMs.None? {
        // the store refuses an undefined key or an invalid date before writing anything
        return Failed;
      }
      var donatedAt := d.donatedAtMs.value;
      var price := env.price(donatedAt);
      var row := DonationRow(d, donatedAt, price);
      UpsertParties(d, donatedAt, env.now);
      if d.transactionHash in donations {
        return Duplicate;
      }
      if d.transactionHash in env.faults.donationInsert {
        return Failed;
      }
      donations := donations[d.transactionHash := row];
      UpdateAccountAggregates(d, row.amountUsd, row.referrerFeeUsd, donatedAt);
      outcome := Saved;
    }

    /** The upserts at the start of `saveDonation`: the three accounts, then the pot and the campaign. */
    method UpsertParties(d: ParsedDonation, donatedAt: int, now: int)
      requires d.donorId.Some?
      modifies this`accounts, this`pots, this`campaigns
      ensures State() == TouchParties(old(State()), d, donatedAt, now)
    {
      UpsertAccount(d.donorId.value, donatedAt, now);
      if Truthy(d.recipientId) {
        UpsertAccount(d.recipientId.value, donatedAt, now);
      }
      if Truthy(d.referrerId) {
        UpsertAccount(d.referrerId.value, donatedAt, now);
      }
      assert accounts == TouchDonationAccounts(old(accounts), d, donatedAt, now);
      if Truthy(d.potId) {
        pots := TouchRow(pots, d.potId.value, donatedAt, now);
      }
      if Truthy(d.campaignId) {
        campaigns := TouchRow(campaigns, d.campaignId.value, donatedAt, now);
      }
    }

    method SavePotPayout(p: ParsedPayout, env: Env)
      modifies this`accounts, this`payouts
      ensures State() == SavePayoutSpec(old(State()), p, env)
    {
      if p.recipientId.None? || p.paidAtMs.None? {
        return;
      }
      var paidAt := p.paidAtMs.value;
      var recipient := p.recipientId.value;
      var row := PayoutRow(p, env.price(paidAt));
      UpsertAccount(recipient, paidAt, env.now);
      if p.transactionHash in payouts || p.transactionHash in env.faults.payoutInsert {
        // a duplicate or any other insert error is logged and swallowed
        return;
      }
      payouts := payouts[p.transactionHash := row];
      accounts := accounts[recipient := PayoutReceived(accounts[recipient], row.amountUsd)];
    }

    method ProcessReceipt(ro: ReceiptOutcome, height: int, env: Env, decode: Decoder) returns (status: ReceiptStatus)
      modifies this`accounts, this`pots, this`campaigns, this`donations, this`payouts
      ensures Receipt(State(), status) == ProcessReceiptSpec(old(State()), ro, height, env, decode)
    {
      if !Truthy(ro.receiptId) || ro.outcome.None? {
        return NotPotlock;
      }
      var txHash := if Truthy(ro.outcomeId) then ro.outcomeId.value else ro.receiptId.value;
      var logs := ro.outcome.value.logs;
      var parsed := ParseExecutionOutcome(logs, decode, height, txHash);
      ghost var saves := SaveAllSpec(State(), parsed, env);
      var i := 0;
      while i < |parsed|
        invariant 0 <= i <= |parsed|
        invariant saves == SaveAllSpec(State(), parsed[i..], env)
      {
        assert parsed[i..][0] == parsed[i] && parsed[i..][1..] == parsed[i + 1..];
        var outcome := SaveDonation(parsed[i], env);
        if outcome == Failed {
          // the error propagates out of the receipt
          return Threw;
        }
        i := i + 1;
      }
      assert parsed[i..] == [];
      var payout := ParsePotPayout(logs, decode, height, txHash);
      if payout.Some? {
        SavePotPayout(payout.value, env);
      }
      status := Handled;
    }

    /** The receipts of one chunk; the first receipt that raises abandons the chunk. */
    method ProcessChunkReceipts(ros: seq<ReceiptOutcome>, height: int, env: Env, decode: Decoder, receipts0: nat, potlock0: nat)
      returns (receipts: nat, potlock: nat)
      modifies this`accounts, this`pots, this`campaigns, this`donations, this`payouts
      ensures Progress(State(), receipts, potlock) == ReceiptsSpec(Progress(old(State()), receipts0, potlock0), ros, height, env, decode)
    {
      ghost var target := ReceiptsSpec(Progress(State(), receipts0, potlock0), ros, height, env, decode);
      receipts, potlock := receipts0, potlock0;
      var j := 0;
      while j < |ros|
        invariant 0 <= j <= |ros|
        invariant target == ReceiptsSpec(Progress(State(), receipts, potlock), ros[j..], height, env, decode)
      {
        ghost var before := Progress(State(), receipts, potlock);
        var status := ProcessReceipt(ros[j], height, env, decode);
        NextReceipt(before, ros, j, height, env, decode, Receipt(State(), status));
        if status == Threw {
          return;
        }
        receipts := receipts + 1;
        if status == Handled {
          potlock := potlock + 1;
        }
        assert Progress(State(), receipts, potlock) == Counted(before, Receipt(State(), status));
        j := j + 1;
      }
      assert ros[j..] == [];
    }

    method UpdateCheckpoint(height: int, block: BlockBody, fails: bool) returns (ok: bool)
      modifies this`checkpoint
      ensures ok == !fails
      ensures checkpoint == if fails then old(checkpoint) else Some(Checkpoint(height, block.hash, block.timestamp))
    {
      if fails {
        return false;
      }
      checkpoint := Some(Checkpoint(height, block.hash, block.timestamp));
      ok := true;
    }

    /**
     * `processBlock`: every chunk in order, a failing chunk skipped, then the
     * checkpoint. `ok` is false when the block raises.
     */
    method ProcessBlock(height: int, block: Option<BlockBody>, env: Env, decode: Decoder)
      returns (ok: bool, receipts: nat, potlock: nat)
      modifies this`accounts, this`pots, this`campaigns, this`donations, this`payouts, this`checkpoint
      ensures BlockResult(State(), ok, receipts, potlock) == ProcessBlockSpec(old(State()), height, block, env, decode)
    {
      if block.None? {
        return false, 0, 0;
      }
      var b := block.value;
      ghost var target := ChunksSpec(Progress(State(), 0, 0), b.chunks, height, env, decode);
      receipts, potlock := 0, 0;
      for c := 0 to |b.chunks|
        invariant target == ChunksSpec(Progress(State(), receipts, potlock), b.chunks[c..], height, env, decode)
      {
        assert b.chunks[c..][0] == b.chunks[c] && b.chunks[c..][1..] == b.chunks[c + 1..];
        match b.chunks[c] {
          case ChunkUnavailable =>
            // the chunk fetch failed: logged, and the next chunk is processed
          case ChunkData(ros) =>
            receipts, potlock := ProcessChunkReceipts(ros, height, env, decode, receipts, potlock);
        }
      }
      assert b.chunks[|b.chunks|..] == [];
      ok := UpdateCheckpoint(height, b, env.faults.checkpointWrite);
    }

    method Stop()
      modifies this`isRunning
      ensures !isRunning
    {
      isRunning := false;
    }

    /**
     * `start`: a no-op while running. Otherwise the start height is chosen
     * (a fatal error, such as the chain head not being available, clears the
     * flag and ends), then the loop runs poll by poll until `stop()` is seen.
     * `ticks` is the part of the run that is modelled; if it ends before a
     * stop, the indexer is still running.
     */
    method Start(head0: Option<int>, ticks: seq<Tick>, decode: Decoder) returns (ghost processed: seq<int>, ghost finalHeight: int)
      modifies this
      ensures old(isRunning) ==> isRunning && State() == old(State()) && processed == []
      ensures !old(isRunning) && head0.None? ==> !isRunning && State() == old(State()) && processed == []
      ensures !old(isRunning) && head0.Some? ==>
                var run := RunSpec(StartStore(old(State()), head0.value),
                                   StartHeight(old(checkpoint), head0.value, startBlockHeight), ticks, decode);
                && State() == run.store && processed == run.processed && finalHeight == run.height
                && isRunning == !run.stopped
    {
      processed, finalHeight := [], 0;
      if isRunning {
        return;
      }
      isRunning := true;
      if head0.None? {
        // fatal error in the start-up phase
        isRunning := false;
        return;
      }
      var height := Resume(head0.value);
      processed, finalHeight := RunLoop(height, ticks, decode);
    }

    /**
     * The start-up phase of `start`: the loaded checkpoint's height, or the
     * configured one after deleting a checkpoint that is ahead of the head,
     * or `head - 10` when there is no checkpoint and no configured height.
     */
    method Resume(head: int) returns (height: int)
      modifies this`checkpoint
      ensures State() == StartStore(old(State()), head)
      ensures height == StartHeight(old(checkpoint), head, startBlockHeight)
    {
      var loaded := checkpoint;
      height := if loaded.Some? then loaded.value.lastBlockHeight else startBlockHeight;
      if loaded.Some? && loaded.value.lastBlockHeight > head {
        checkpoint := None;
        height := startBlockHeight;
      }
      if loaded.None? && startBlockHeight == 0 {
        height := head - LookbackBlocks;
      }
    }

    /**
     * One poll of the loop: behind the head, process the block at `height`
     * and advance on success; caught up, or without a head, wait and poll again.
     */
    method Poll(height: int, head: Option<int>, block: Option<BlockBody>, env: Env, decode: Decoder) returns (ok: bool, next: int)
      modifies this`accounts, this`pots, this`campaigns, this`donations, this`payouts, this`checkpoint
      ensures Step(State(), next, ok) == StepSpec(old(State()), height, head, block, env, decode)
    {
      ok, next := false, height;
      if head.Some? && height < head.value {
        var receipts, potlock;
        ok, receipts, potlock := ProcessBlock(height, block, env, decode);
        if ok {
          next := height + 1;
        }
      }
    }

    /** The polling loop of `start`, from `height`, over the ticks it sees. */
    method RunLoop(height0: int, ticks: seq<Tick>, decode: Decoder) returns (ghost processed: seq<int>, ghost finalHeight: int)
      requires isRunning
      modifies this
      ensures var run := RunSpec(old(State()), height0, ticks, decode);
              && State() == run.store && processed == run.processed && finalHeight == run.height
              && isRunning == !run.stopped
    {
      ghost var target := RunSpec(State(), height0, ticks, decode);
      var height := height0;
      processed := [];
      var i := 0;
      while isRunning && i < |ticks|
        invariant 0 <= i <= |ticks|
        invariant isRunning ==> target == Prefixed(processed, RunSpec(State(), height, ticks[i..], decode))
        invariant !isRunning ==> target == Run(State(), height, processed, true)
        decreases |ticks| - i
      {
        match ticks[i] {
          case Stop =>
            assert ticks[i..][0] == ticks[i];
            Stop();
          case Poll(head, block, env) =>
            ghost var before := State();
            ghost var heightBefore := height;
            var ok;
            ok, height := Poll(height, head, block, env, decode);
            NextTick(before, heightBefore, ticks, i, decode, Step(State(), height, ok), processed);
            if ok {
              processed := processed + [heightBefore];
            } else {
              assert processed + [] == processed;
            }
        }
        i := i + 1;
      }
      if isRunning {
        assert ticks[i..] == [];
      }
      finalHeight := height;
    }
  }
}
