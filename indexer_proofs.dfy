/**
 * What the indexer promises about its store over whole runs: the account
 * counters add up, a replayed donation changes no aggregate, heights are
 * processed one by one and the checkpoint follows them.
 */
module IndexerProofs {
  import opened Wrappers
  import opened EventParser
  import opened IndexerSpec

  // ---------------------------------------------------------------------------
  // The account counters add up

  /**
   * The per-kind sent counts and amounts add up to the account's totals; the
   * received amounts add up to its received total; every received donation
   * is counted in a received bucket (payouts are counted there too); the
   * donation dates are set exactly when something was sent; and the NEAR
   * totals, which the indexer never writes, stay at their initial zero.
   */
  predicate Consistent(a: Account) {
    && a.direct.sentCount + a.pot.sentCount + a.campaign.sentCount == a.donationsSentCount
    && a.direct.donatedUsd + a.pot.donatedUsd + a.campaign.donatedUsd == a.totalDonatedUsd
    && a.direct.receivedUsd + a.pot.receivedUsd + a.campaign.receivedUsd == a.totalReceivedUsd
    && a.donationsReceivedCount <= a.direct.receivedCount + a.pot.receivedCount + a.campaign.receivedCount
    && (a.donationsSentCount == 0 <==> a.lastDonationDate.None?)
    && (a.firstDonationDate.None? <==> a.lastDonationDate.None?)
    && a.totalDonatedNear == 0.0 && a.totalReceivedNear == 0.0
    && a.referralFeesEarnedNear == 0.0 && a.referralFeesPaidNear == 0.0
  }

  predicate AllConsistent(accounts: map<string, Account>) {
    forall k :: k in accounts ==> Consistent(accounts[k])
  }

  predicate StoreConsistent(s: Store) {
    AllConsistent(s.accounts)
  }

  lemma TouchAccountKeeps(accounts: map<string, Account>, id: string, at: int, now: int)
    requires AllConsistent(accounts)
    ensures AllConsistent(TouchAccount(accounts, id, at, now))
  {
    var r := TouchAccount(accounts, id, at, now);
    forall k | k in r
      ensures Consistent(r[k])
    {
      if k == id && id in accounts {
        assert Consistent(accounts[id]);
        assert Totals(r[id]) == Totals(accounts[id]);
      }
    }
  }

  lemma TouchPartiesKeeps(s: Store, d: ParsedDonation, at: int, now: int)
    requires d.donorId.Some? && StoreConsistent(s)
    ensures StoreConsistent(TouchParties(s, d, at, now))
  {
    var donor := TouchAccount(s.accounts, d.donorId.value, at, now);
    TouchAccountKeeps(s.accounts, d.donorId.value, at, now);
    var recipient := if Truthy(d.recipientId) then TouchAccount(donor, d.recipientId.value, at, now) else donor;
    if Truthy(d.recipientId) {
      TouchAccountKeeps(donor, d.recipientId.value, at, now);
    }
    if Truthy(d.referrerId) {
      TouchAccountKeeps(recipient, d.referrerId.value, at, now);
    }
  }

  /** The donor's update keeps its counters adding up, whatever the kind. */
  lemma DonorAfterKeeps(a: Account, kind: DonationType, usd: real, referrerFeeUsd: real, at: int)
    requires Consistent(a)
    ensures Consistent(DonorAfter(a, kind, usd, referrerFeeUsd, at))
  {
  }

  /** The recipient's update keeps its counters adding up, for every kind a recipient can have. */
  lemma RecipientAfterKeeps(a: Account, kind: DonationType, usd: real)
    requires Consistent(a) && kind != POT
    ensures Consistent(RecipientAfter(a, kind, usd))
  {
  }

  /** Replacing one account by a consistent one keeps the whole table consistent. */
  lemma UpdateKeeps(accounts: map<string, Account>, id: string, a: Account)
    requires AllConsistent(accounts) && Consistent(a)
    ensures AllConsistent(accounts[id := a])
  {
  }

  lemma AggregatesAfterKeeps(accounts: map<string, Account>, d: ParsedDonation, usd: real, referrerFeeUsd: real, at: int)
    requires PartiesPresent(accounts, d) && WellShaped(d) && AllConsistent(accounts)
    ensures AllConsistent(AggregatesAfter(accounts, d, usd, referrerFeeUsd, at))
  {
    var donor := d.donorId.value;
    DonorAfterKeeps(accounts[donor], d.kind, usd, referrerFeeUsd, at);
    var a1 := accounts[donor := DonorAfter(accounts[donor], d.kind, usd, referrerFeeUsd, at)];
    UpdateKeeps(accounts, donor, DonorAfter(accounts[donor], d.kind, usd, referrerFeeUsd, at));
    var a2 := if Truthy(d.recipientId) then a1[d.recipientId.value := RecipientAfter(a1[d.recipientId.value], d.kind, usd)] else a1;
    if Truthy(d.recipientId) {
      var id := d.recipientId.value;
      RecipientAfterKeeps(a1[id], d.kind, usd);
      UpdateKeeps(a1, id, RecipientAfter(a1[id], d.kind, usd));
    }
    if Truthy(d.referrerId) && referrerFeeUsd != 0.0 {
      var id := d.referrerId.value;
      UpdateKeeps(a2, id, a2[id].(referralFeesEarnedUsd := a2[id].referralFeesEarnedUsd + referrerFeeUsd));
    }
  }

  lemma SaveDonationKeeps(s: Store, d: ParsedDonation, env: Env)
    requires StoreConsistent(s) && WellShaped(d)
    ensures StoreConsistent(SaveDonationSpec(s, d, env).store)
  {
    if d.donorId.Some? && d.donatedAtMs.Some? {
      var at := d.donatedAtMs.value;
      var touched := TouchParties(s, d, at, env.now);
      TouchPartiesKeeps(s, d, at, env.now);
      if d.transactionHash !in touched.donations && d.transactionHash !in env.faults.donationInsert {
        var row := DonationRow(d, at, env.price(at));
        AggregatesAfterKeeps(touched.accounts, d, row.amountUsd, row.referrerFeeUsd, at);
      }
    }
  }

  /** A payout credits the total received and the pot bucket by the same amount. */
  lemma PayoutReceivedKeeps(a: Account, usd: real)
    requires Consistent(a)
    ensures Consistent(PayoutReceived(a, usd))
  {
  }

  lemma SavePayoutKeeps(s: Store, p: ParsedPayout, env: Env)
    requires StoreConsistent(s)
    ensures StoreConsistent(SavePayoutSpec(s, p, env))
  {
    if p.recipientId.Some? && p.paidAtMs.Some? {
      var id := p.recipientId.value;
      var touched := TouchAccount(s.accounts, id, p.paidAtMs.value, env.now);
      TouchAccountKeeps(s.accounts, id, p.paidAtMs.value, env.now);
      if p.transactionHash !in s.payouts && p.transactionHash !in env.faults.payoutInsert {
        var r := SavePayoutSpec(s, p, env);
        forall k | k in r.accounts
          ensures Consistent(r.accounts[k])
        {
          if k == id {
            PayoutReceivedKeeps(touched[id], PayoutRow(p, env.price(p.paidAtMs.value)).amountUsd);
          }
        }
      }
    }
  }

  lemma {:induction false} SaveAllKeeps(s: Store, ds: seq<ParsedDonation>, env: Env)
    requires StoreConsistent(s) && forall d :: d in ds ==> WellShaped(d)
    ensures StoreConsistent(SaveAllSpec(s, ds, env).store)
    decreases |ds|
  {
    if ds != [] {
      SaveDonationKeeps(s, ds[0], env);
      var first := SaveDonationSpec(s, ds[0], env);
      if first.outcome != Failed {
        assert forall d :: d in ds[1..] ==> d in ds;
        SaveAllKeeps(first.store, ds[1..], env);
      }
    }
  }

  lemma ReceiptKeeps(s: Store, ro: ReceiptOutcome, height: int, env: Env, decode: Decoder)
    requires StoreConsistent(s)
    ensures StoreConsistent(ProcessReceiptSpec(s, ro, height, env, decode).store)
  {
    if Truthy(ro.receiptId) && ro.outcome.Some? {
      var tx := ReceiptTxHash(ro);
      var logs := ro.outcome.value.logs;
      if logs.Some? {
        DonationsCarryReceipt(logs.value, decode, tx, height);
      }
      var saved := SaveAllSpec(s, ReceiptDonations(logs, decode, tx, height), env);
      SaveAllKeeps(s, ReceiptDonations(logs, decode, tx, height), env);
      var payout := ReceiptPayout(logs, decode, tx, height);
      if !saved.threw && payout.Some? {
        SavePayoutKeeps(saved.store, payout.value, env);
      }
    }
  }

  lemma {:induction false} ReceiptsKeep(p: Progress, ros: seq<ReceiptOutcome>, height: int, env: Env, decode: Decoder)
    requires StoreConsistent(p.store)
    ensures StoreConsistent(ReceiptsSpec(p, ros, height, env, decode).store)
    decreases |ros|
  {
    if ros != [] {
      ReceiptKeeps(p.store, ros[0], height, env, decode);
      var rec := ProcessReceiptSpec(p.store, ros[0], height, env, decode);
      if rec.status != Threw {
        ReceiptsKeep(Counted(p, rec), ros[1..], height, env, decode);
      }
    }
  }

  lemma {:induction false} ChunksKeep(p: Progress, chunks: seq<Chunk>, height: int, env: Env, decode: Decoder)
    requires StoreConsistent(p.store)
    ensures StoreConsistent(ChunksSpec(p, chunks, height, env, decode).store)
    decreases |chunks|
  {
    if chunks != [] {
      var next := if chunks[0].ChunkUnavailable? then p else ReceiptsSpec(p, chunks[0].receipts, height, env, decode);
      if chunks[0].ChunkData? {
        ReceiptsKeep(p, chunks[0].receipts, height, env, decode);
      }
      ChunksKeep(next, chunks[1..], height, env, decode);
    }
  }

  lemma StepKeeps(s: Store, height: int, head: Option<int>, block: Option<BlockBody>, env: Env, decode: Decoder)
    requires StoreConsistent(s)
    ensures StoreConsistent(StepSpec(s, height, head, block, env, decode).store)
  {
    if head.Some? && height < head.value && block.Some? {
      ChunksKeep(Progress(s, 0, 0), block.value.chunks, height, env, decode);
    }
  }

  /**
   * The counter invariant holds after any run of the polling loop that starts
   * from a consistent store: every donation the parser can produce keeps the
   * per-kind counts adding up to the totals, whatever fails along the way.
   */
  lemma {:induction false} RunKeepsCounters(s: Store, height: int, ticks: seq<Tick>, decode: Decoder)
    requires StoreConsistent(s)
    ensures StoreConsistent(RunSpec(s, height, ticks, decode).store)
    decreases |ticks|
  {
    if ticks != [] && ticks[0].Poll? {
      var t := ticks[0];
      StepKeeps(s, height, t.head, t.block, t.env, decode);
      var step := StepSpec(s, height, t.head, t.block, t.env, decode);
      RunKeepsCounters(step.store, step.height, ticks[1..], decode);
    }
  }

  /** The start-up phase only deletes the checkpoint, so an indexer restarted on a consistent store keeps it. */
  lemma StartKeepsCounters(s: Store, head: int, height: int, ticks: seq<Tick>, decode: Decoder)
    requires StoreConsistent(s)
    ensures StoreConsistent(RunSpec(StartStore(s, head), height, ticks, decode).store)
  {
    RunKeepsCounters(StartStore(s, head), height, ticks, decode);
  }

  // ---------------------------------------------------------------------------
  // Replaying a donation changes no aggregate

  /**
   * `t` is the accounts `s` after upserts only: every account of `s` keeps its
   * aggregates (only its activity time may differ), and every account new in
   * `t` has the aggregates of one created at `now`.
   */
  predicate AccountsTouched(s: map<string, Account>, t: map<string, Account>, now: int) {
    && s.Keys <= t.Keys
    && (forall k :: k in s ==> Totals(t[k]) == Totals(s[k]))
    && (forall k :: k in t && k !in s ==> Totals(t[k]) == Totals(NewAccount(now)))
  }

  /** `t` is the store `s` after upserts only: the same rows and touched accounts. */
  predicate Touched(s: Store, t: Store, now: int) {
    && t.donations == s.donations && t.payouts == s.payouts && t.checkpoint == s.checkpoint
    && AccountsTouched(s.accounts, t.accounts, now)
  }

  /** `t` is `s` replayed: the same rows and the same accounts, with the same aggregates. */
  predicate Replayed(s: Store, t: Store) {
    && t.donations == s.donations && t.payouts == s.payouts && t.checkpoint == s.checkpoint
    && t.accounts.Keys == s.accounts.Keys
    && (forall k :: k in s.accounts ==> Totals(t.accounts[k]) == Totals(s.accounts[k]))
  }

  lemma TouchAccountTouches(accounts: map<string, Account>, id: string, at: int, now: int)
    ensures AccountsTouched(accounts, TouchAccount(accounts, id, at, now), now)
  {
  }

  lemma AccountsTouchedTrans(s: map<string, Account>, t: map<string, Account>, u: map<string, Account>, now: int)
    requires AccountsTouched(s, t, now) && AccountsTouched(t, u, now)
    ensures AccountsTouched(s, u, now)
  {
  }

  /** The upserts of `saveDonation` create fresh accounts and keep every existing account's aggregates. */
  lemma TouchPartiesTouches(s: Store, d: ParsedDonation, at: int, now: int)
    requires d.donorId.Some?
    ensures Touched(s, TouchParties(s, d, at, now), now)
  {
    var a1 := TouchAccount(s.accounts, d.donorId.value, at, now);
    TouchAccountTouches(s.accounts, d.donorId.value, at, now);
    var a2 := if Truthy(d.recipientId) then TouchAccount(a1, d.recipientId.value, at, now) else a1;
    if Truthy(d.recipientId) {
      TouchAccountTouches(a1, d.recipientId.value, at, now);
      AccountsTouchedTrans(s.accounts, a1, a2, now);
    }
    var a3 := if Truthy(d.referrerId) then TouchAccount(a2, d.referrerId.value, at, now) else a2;
    if Truthy(d.referrerId) {
      TouchAccountTouches(a2, d.referrerId.value, at, now);
      AccountsTouchedTrans(s.accounts, a2, a3, now);
    }
    assert TouchParties(s, d, at, now).accounts == a3;
  }

  /** When the parties exist already, the upserts of `saveDonation` create no account. */
  lemma TouchPartiesKeepsKeys(s: Store, d: ParsedDonation, at: int, now: int)
    requires PartiesPresent(s.accounts, d)
    ensures TouchParties(s, d, at, now).accounts.Keys == s.accounts.Keys
  {
    var a1 := TouchAccount(s.accounts, d.donorId.value, at, now);
    var a2 := if Truthy(d.recipientId) then TouchAccount(a1, d.recipientId.value, at, now) else a1;
    assert a2.Keys == s.accounts.Keys;
  }

  /**
   * A donation whose transaction hash is already stored is never saved
   * again: no aggregate moves and no row is added. The upserts still run
   * first, so a party seen for the first time gets a fresh account.
   */
  lemma DuplicateChangesNoAggregate(s: Store, d: ParsedDonation, env: Env)
    requires d.transactionHash in s.donations
    ensures var r := SaveDonationSpec(s, d, env);
            && r.outcome != Saved && Touched(s, r.store, env.now)
            && (d.donorId.Some? && d.donatedAtMs.Some? && PartiesPresent(s.accounts, d) ==> Replayed(s, r.store))
  {
    if d.donorId.Some? && d.donatedAtMs.Some? {
      TouchPartiesTouches(s, d, d.donatedAtMs.value, env.now);
      if PartiesPresent(s.accounts, d) {
        TouchPartiesKeepsKeys(s, d, d.donatedAtMs.value, env.now);
      }
    }
  }

  /** What a save keeps: the accounts and donations only grow, payouts and checkpoint stay. */
  predicate Grows(s: Store, t: Store) {
    && s.accounts.Keys <= t.accounts.Keys && s.donations.Keys <= t.donations.Keys
    && t.payouts == s.payouts && t.checkpoint == s.checkpoint
  }

  lemma SaveGrows(s: Store, d: ParsedDonation, env: Env)
    ensures Grows(s, SaveDonationSpec(s, d, env).store)
    ensures SaveDonationSpec(s, d, env).outcome != Failed ==>
              d.transactionHash in SaveDonationSpec(s, d, env).store.donations
              && PartiesPresent(SaveDonationSpec(s, d, env).store.accounts, d)
  {
    if d.donorId.Some? && d.donatedAtMs.Some? {
      TouchPartiesTouches(s, d, d.donatedAtMs.value, env.now);
    }
  }

  /**
   * Saving the same donation a second time, after a first save that did not
   * fail, is a duplicate that leaves every aggregate as the first left it.
   */
  lemma SaveTwiceChangesNoAggregate(s: Store, d: ParsedDonation, env1: Env, env2: Env)
    requires SaveDonationSpec(s, d, env1).outcome != Failed
    ensures var first := SaveDonationSpec(s, d, env1);
            var second := SaveDonationSpec(first.store, d, env2);
            second.outcome == Duplicate && Replayed(first.store, second.store)
  {
    var first := SaveDonationSpec(s, d, env1);
    SaveGrows(s, d, env1);
    DuplicateChangesNoAggregate(first.store, d, env2);
  }

  lemma {:induction false} SaveAllGrows(s: Store, ds: seq<ParsedDonation>, env: Env)
    ensures Grows(s, SaveAllSpec(s, ds, env).store)
    decreases |ds|
  {
    if ds != [] {
      SaveGrows(s, ds[0], env);
      var first := SaveDonationSpec(s, ds[0], env);
      if first.outcome != Failed {
        SaveAllGrows(first.store, ds[1..], env);
      }
    }
  }

  /** After a pass that raised nothing, every donation of the pass is stored by its hash and its parties exist. */
  lemma {:induction false} SaveAllStores(s: Store, ds: seq<ParsedDonation>, env: Env)
    requires !SaveAllSpec(s, ds, env).threw
    ensures forall d :: d in ds ==>
              && d.donorId.Some? && d.donatedAtMs.Some?
              && d.transactionHash in SaveAllSpec(s, ds, env).store.donations
              && PartiesPresent(SaveAllSpec(s, ds, env).store.accounts, d)
    decreases |ds|
  {
    if ds != [] {
      var r := SaveAllSpec(s, ds, env);
      SaveGrows(s, ds[0], env);
      var first := SaveDonationSpec(s, ds[0], env);
      SaveAllStores(first.store, ds[1..], env);
      SaveAllGrows(first.store, ds[1..], env);
      assert r == SaveAllSpec(first.store, ds[1..], env);
      forall d | d in ds
        ensures d.donorId.Some? && d.donatedAtMs.Some? && d.transactionHash in r.store.donations && PartiesPresent(r.store.accounts, d)
      {
        if d != ds[0] {
          assert d in ds[1..];
        }
      }
    }
  }

  /** A second pass over donations that are all stored already raises nothing and changes no aggregate. */
  lemma {:induction false} SaveAllReplays(s: Store, ds: seq<ParsedDonation>, env: Env)
    requires forall d :: d in ds ==>
               d.donorId.Some? && d.donatedAtMs.Some? && d.transactionHash in s.donations && PartiesPresent(s.accounts, d)
    ensures !SaveAllSpec(s, ds, env).threw && Replayed(s, SaveAllSpec(s, ds, env).store)
    decreases |ds|
  {
    if ds != [] {
      DuplicateChangesNoAggregate(s, ds[0], env);
      var first := SaveDonationSpec(s, ds[0], env);
      assert forall d :: d in ds[1..] ==> d in ds;
      SaveAllReplays(first.store, ds[1..], env);
    }
  }

  /** After a payout save whose insert did not fail, its recipient exists and its hash is stored. */
  lemma SavePayoutStores(s: Store, p: ParsedPayout, env: Env)
    requires p.transactionHash !in env.faults.payoutInsert
    ensures var r := SavePayoutSpec(s, p, env);
            && s.accounts.Keys <= r.accounts.Keys
            && (p.recipientId.Some? && p.paidAtMs.Some? ==> p.recipientId.value in r.accounts && p.transactionHash in r.payouts)
  {
  }

  /** Saving a payout that is stored already, for a recipient that exists, changes no aggregate. */
  lemma SavePayoutReplays(s: Store, p: ParsedPayout, env: Env)
    requires p.recipientId.Some? && p.paidAtMs.Some? ==> p.recipientId.value in s.accounts && p.transactionHash in s.payouts
    ensures Replayed(s, SavePayoutSpec(s, p, env))
  {
    if p.recipientId.Some? && p.paidAtMs.Some? {
      TouchAccountTouches(s.accounts, p.recipientId.value, p.paidAtMs.value, env.now);
    }
  }

  /**
   * Processing a receipt a second time, after a first time that returned
   * normally and whose payout insert did not fail, changes no aggregate: every
   * donation is a duplicate and so is the payout.
   */
  lemma ReceiptTwiceChangesNoAggregate(s: Store, ro: ReceiptOutcome, height: int, env1: Env, env2: Env, decode: Decoder)
    requires ProcessReceiptSpec(s, ro, height, env1, decode).status == Handled
    requires Truthy(ro.receiptId) && ReceiptTxHash(ro) !in env1.faults.payoutInsert
    ensures var first := ProcessReceiptSpec(s, ro, height, env1, decode);
            var second := ProcessReceiptSpec(first.store, ro, height, env2, decode);
            second.status == Handled && Replayed(first.store, second.store)
  {
    var tx := ReceiptTxHash(ro);
    var logs := ro.outcome.value.logs;
    var ds := ReceiptDonations(logs, decode, tx, height);
    var payout := ReceiptPayout(logs, decode, tx, height);
    var saved := SaveAllSpec(s, ds, env1);
    SaveAllStores(s, ds, env1);
    var first := if payout.Some? then SavePayoutSpec(saved.store, payout.value, env1) else saved.store;
    assert ProcessReceiptSpec(s, ro, height, env1, decode) == Receipt(first, Handled);
    if payout.Some? {
      SavePayoutStores(saved.store, payout.value, env1);
    }
    SaveAllReplays(first, ds, env2);
    var again := SaveAllSpec(first, ds, env2);
    var second := if payout.Some? then SavePayoutSpec(again.store, payout.value, env2) else again.store;
    assert ProcessReceiptSpec(first, ro, height, env2, decode) == Receipt(second, Handled);
    if payout.Some? {
      SavePayoutReplays(again.store, payout.value, env2);
    }
  }

  // ---------------------------------------------------------------------------
  // Chunks, heights and the checkpoint

  /** A chunk that cannot be fetched is skipped: the block goes on as if it were not there. */
  lemma {:induction false} UnavailableChunkIsSkipped(p: Progress, before: seq<Chunk>, after: seq<Chunk>, height: int, env: Env, decode: Decoder)
    ensures ChunksSpec(p, before + [ChunkUnavailable] + after, height, env, decode)
            == ChunksSpec(p, before + after, height, env, decode)
    decreases |before|
  {
    if before == [] {
      assert (before + [ChunkUnavailable] + after)[1..] == before + after;
    } else {
      var next := if before[0].ChunkUnavailable? then p else ReceiptsSpec(p, before[0].receipts, height, env, decode);
      assert (before + [ChunkUnavailable] + after)[0] == before[0];
      assert (before + [ChunkUnavailable] + after)[1..] == before[1..] + [ChunkUnavailable] + after;
      assert (before + after)[0] == before[0] && (before + after)[1..] == before[1..] + after;
      UnavailableChunkIsSkipped(next, before[1..], after, height, env, decode);
    }
  }

  /**
   * The heights a run processes are contiguous from its start height: a
   * height that fails is retried, never skipped, and the loop's height is
   * always the next one to process.
   */
  lemma {:induction false} RunIsContiguous(s: Store, height: int, ticks: seq<Tick>, decode: Decoder)
    ensures var r := RunSpec(s, height, ticks, decode);
            && r.height == height + |r.processed|
            && forall k :: 0 <= k < |r.processed| ==> r.processed[k] == height + k
    decreases |ticks|
  {
    if ticks != [] && ticks[0].Poll? {
      var t := ticks[0];
      var step := StepSpec(s, height, t.head, t.block, t.env, decode);
      RunIsContiguous(step.store, step.height, ticks[1..], decode);
    }
  }

  /**
   * After a run the checkpoint names the last height it processed, with that
   * block's hash and time; a run that processed nothing leaves it as it was.
   */
  lemma {:induction false} CheckpointFollowsRun(s: Store, height: int, ticks: seq<Tick>, decode: Decoder)
    ensures var r := RunSpec(s, height, ticks, decode);
            && (r.processed == [] ==> r.store.checkpoint == s.checkpoint)
            && (r.processed != [] ==> r.store.checkpoint.Some?
                                      && r.store.checkpoint.value.lastBlockHeight == r.processed[|r.processed| - 1])
    decreases |ticks|
  {
    if ticks != [] && ticks[0].Poll? {
      var t := ticks[0];
      var step := StepSpec(s, height, t.head, t.block, t.env, decode);
      CheckpointFollowsRun(step.store, step.height, ticks[1..], decode);
    }
  }

  /**
   * The checkpoint never moves back: when it is at most the loop's height on
   * entry, it is at most the height at the end and at least where it was.
   */
  lemma CheckpointIsMonotone(s: Store, height: int, ticks: seq<Tick>, decode: Decoder)
    requires s.checkpoint.Some? ==> s.checkpoint.value.lastBlockHeight <= height
    ensures var r := RunSpec(s, height, ticks, decode);
            && (r.store.checkpoint.Some? ==> r.store.checkpoint.value.lastBlockHeight <= r.height)
            && (s.checkpoint.Some? ==>
                  r.store.checkpoint.Some? && s.checkpoint.value.lastBlockHeight <= r.store.checkpoint.value.lastBlockHeight)
  {
    RunIsContiguous(s, height, ticks, decode);
    CheckpointFollowsRun(s, height, ticks, decode);
  }

  /**
   * After start-up the checkpoint, if any, is exactly the start height: a
   * restarted indexer processes its checkpointed block once more.
   */
  lemma ResumeRepeatsCheckpoint(s: Store, head: int, configured: int)
    ensures var c := StartStore(s, head).checkpoint;
            c.Some? ==> c.value.lastBlockHeight == StartHeight(s.checkpoint, head, configured)
  {
  }

  /** `stop()` ends the run: whatever the loop would have seen after it does not matter. */
  lemma {:induction false} StopEndsRun(s: Store, height: int, ticks: seq<Tick>, more: seq<Tick>, decode: Decoder)
    ensures RunSpec(s, height, ticks + [Stop] + more, decode) == RunSpec(s, height, ticks, decode).(stopped := true)
            || RunSpec(s, height, ticks, decode).stopped
    decreases |ticks|
  {
    var all := ticks + [Stop] + more;
    if ticks == [] {
      assert all[0] == Stop;
    } else {
      assert all[0] == ticks[0] && all[1..] == ticks[1..] + [Stop] + more;
      if ticks[0].Poll? {
        var t := ticks[0];
        var step := StepSpec(s, height, t.head, t.block, t.env, decode);
        StopEndsRun(step.store, step.height, ticks[1..], more, decode);
      }
    }
  }
}
