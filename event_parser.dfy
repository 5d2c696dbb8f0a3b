/**
 * The log-to-event parser of the indexer. The log lines of one receipt
 * execution outcome follow the NEP-297 events format: a line that starts
 * with `EVENT_JSON:` carries a JSON object with `standard`, `version`,
 * `event` and `data`. Only events of the `potlock` standard are kept; they
 * become typed donations (four kinds) and, by a separate scan, at most one
 * pot payout.
 *
 * `JSON.parse` is left abstract: a `Decoder` is any partial function from
 * the text after the marker to a decoded envelope. A decode failure (the
 * source's exception, caught per line) is `None`.
 */
module EventParser {
  import opened Wrappers

  /** Marker that opens a structured event log line. */
  const EventPrefix: string := "EVENT_JSON:"
  /** The platform's event namespace. */
  const PotlockStandard: string := "potlock"
  /** Token id used when an event names none. */
  const NativeToken: string := "near"
  /** Event name of a pot payout. */
  const PayoutEvent: string := "pot_payout"

  datatype DonationType = DIRECT | POT | POT_PROJECT | CAMPAIGN

  /**
   * The `data` object of an event, one optional field per key the parser
   * reads. Nothing is validated: every field may be absent.
   */
  datatype EventData = EventData(
    donorId: Option<string>,
    recipientId: Option<string>,
    projectId: Option<string>,
    potId: Option<string>,
    campaignId: Option<string>,
    amount: Option<string>,
    totalAmount: Option<string>,
    netAmount: Option<string>,
    ftId: Option<string>,
    message: Option<string>,
    donatedAtMs: Option<int>,
    paidAtMs: Option<int>,
    protocolFee: Option<string>,
    referrerId: Option<string>,
    referrerFee: Option<string>,
    chefId: Option<string>,
    chefFee: Option<string>)

  /** A decoded envelope; `data == None` stands for a null or missing payload. */
  datatype Event = Event(standard: Option<string>, version: Option<string>, event: Option<string>, data: Option<EventData>)

  /** `JSON.parse` of the text after the marker; `None` when it throws. */
  type Decoder = string -> Option<Event>

  /** One donation as the parser hands it to the indexer. */
  datatype ParsedDonation = ParsedDonation(
    kind: DonationType,
    donorId: Option<string>,
    recipientId: Option<string>,
    amount: Option<string>,
    ftId: string,
    message: Option<string>,
    donatedAtMs: Option<int>,
    protocolFee: Option<string>,
    referrerId: Option<string>,
    referrerFee: Option<string>,
    potId: Option<string>,
    campaignId: Option<string>,
    netAmount: Option<string>,
    chefId: Option<string>,
    chefFee: Option<string>,
    projectId: Option<string>,
    transactionHash: string,
    blockHeight: int)

  /** One pot payout as the parser hands it to the indexer. */
  datatype ParsedPayout = ParsedPayout(
    potId: Option<string>,
    recipientId: Option<string>,
    amount: Option<string>,
    ftId: string,
    paidAtMs: Option<int>,
    transactionHash: string,
    blockHeight: int)

  /** JavaScript truthiness of an optional string: present and non-empty. */
  predicate Truthy(o: Option<string>) {
    o.Some? && o.value != ""
  }

  /** `o || fallback` for an optional string. */
  function StringOr(o: Option<string>, fallback: string): string {
    if Truthy(o) then o.value else fallback
  }

  /** `a || b` for two optional strings. */
  function FirstTruthy(a: Option<string>, b: Option<string>): Option<string> {
    if Truthy(a) then a else b
  }

  predicate StartsWith(s: string, prefix: string) {
    |prefix| <= |s| && s[..|prefix|] == prefix
  }

  /** The event name that announces each kind of donation. */
  function EventName(kind: DonationType): string {
    match kind
    case DIRECT => "donate"
    case POT => "pot_donate"
    case POT_PROJECT => "pot_project_donation"
    case CAMPAIGN => "campaign_donate"
  }

  /** The dispatch of `parsePotlockEvent`: which kind an event name announces, if any. */
  function KindOfEvent(name: string): (r: Option<DonationType>)
    ensures r.Some? ==> EventName(r.value) == name
    ensures forall kind :: EventName(kind) == name ==> r == Some(kind)
  {
    if name == "donate" then Some(DIRECT)
    else if name == "pot_donate" then Some(POT)
    else if name == "pot_project_donation" then Some(POT_PROJECT)
    else if name == "campaign_donate" then Some(CAMPAIGN)
    else None
  }

  /** A donation of `kind` with every optional field unset. */
  function Blank(kind: DonationType, txHash: string, blockHeight: int): ParsedDonation {
    ParsedDonation(kind, None, None, None, NativeToken, None, None, None, None, None,
                   None, None, None, None, None, None, txHash, blockHeight)
  }

  function DirectDonation(data: EventData, txHash: string, blockHeight: int): ParsedDonation {
    Blank(DIRECT, txHash, blockHeight).(
      donorId := data.donorId,
      recipientId := data.recipientId,
      amount := data.amount,
      ftId := StringOr(data.ftId, NativeToken),
      message := data.message,
      donatedAtMs := data.donatedAtMs,
      protocolFee := data.protocolFee,
      referrerId := data.referrerId,
      referrerFee := data.referrerFee)
  }

  function PotDonation(data: EventData, txHash: string, blockHeight: int): ParsedDonation {
    Blank(POT, txHash, blockHeight).(
      donorId := data.donorId,
      potId := data.potId,
      amount := FirstTruthy(data.totalAmount, data.amount),
      netAmount := data.netAmount,
      ftId := StringOr(data.ftId, NativeToken),
      message := data.message,
      donatedAtMs := data.donatedAtMs,
      protocolFee := data.protocolFee,
      referrerId := data.referrerId,
      referrerFee := data.referrerFee,
      chefId := data.chefId,
      chefFee := data.chefFee)
  }

  function PotProjectDonation(data: EventData, txHash: string, blockHeight: int): ParsedDonation {
    Blank(POT_PROJECT, txHash, blockHeight).(
      donorId := data.donorId,
      recipientId := data.projectId,
      projectId := data.projectId,
      potId := data.potId,
      amount := data.amount,
      ftId := StringOr(data.ftId, NativeToken),
      donatedAtMs := data.donatedAtMs,
      referrerId := data.referrerId,
      referrerFee := data.referrerFee)
  }

  function CampaignDonation(data: EventData, txHash: string, blockHeight: int): ParsedDonation {
    Blank(CAMPAIGN, txHash, blockHeight).(
      donorId := data.donorId,
      campaignId := data.campaignId,
      amount := data.amount,
      ftId := StringOr(data.ftId, NativeToken),
      message := data.message,
      donatedAtMs := data.donatedAtMs,
      protocolFee := data.protocolFee,
      referrerId := data.referrerId,
      referrerFee := data.referrerFee)
  }

  /**
   * The field table of the four donation kinds, written field by field: which
   * `data` key (if any) feeds each field of a donation of each kind.
   */
  ghost predicate FieldsFrom(d: ParsedDonation, data: EventData) {
    && d.donorId == data.donorId
    && d.donatedAtMs == data.donatedAtMs
    && d.referrerId == data.referrerId
    && d.referrerFee == data.referrerFee
    && d.ftId == (if Truthy(data.ftId) then data.ftId.value else NativeToken)
    && d.amount == (if d.kind == POT && Truthy(data.totalAmount) then data.totalAmount else data.amount)
    && d.recipientId == (match d.kind
                         case DIRECT => data.recipientId
                         case POT_PROJECT => data.projectId
                         case _ => None)
    && d.projectId == (if d.kind == POT_PROJECT then data.projectId else None)
    && d.potId == (if d.kind in {POT, POT_PROJECT} then data.potId else None)
    && d.campaignId == (if d.kind == CAMPAIGN then data.campaignId else None)
    && d.message == (if d.kind == POT_PROJECT then None else data.message)
    && d.protocolFee == (if d.kind == POT_PROJECT then None else data.protocolFee)
    && d.netAmount == (if d.kind == POT then data.netAmount else None)
    && d.chefId == (if d.kind == POT then data.chefId else None)
    && d.chefFee == (if d.kind == POT then data.chefFee else None)
  }

  /**
   * Shape facts every parsed donation has: a non-empty token id, no recipient
   * for POT and CAMPAIGN donations, and the project as recipient of a
   * POT_PROJECT donation.
   */
  predicate WellShaped(d: ParsedDonation) {
    && d.ftId != ""
    && (d.kind in {POT, CAMPAIGN} ==> d.recipientId.None?)
    && (d.kind == POT_PROJECT ==> d.recipientId == d.projectId)
  }

  /**
   * `parsePotlockEvent`: dispatch on the event name. An unknown name gives no
   * donation; so does a null payload, on which the source's field access
   * throws and the caller skips the line.
   */
  function ParsePotlockEvent(e: Event, txHash: string, blockHeight: int): (r: Option<ParsedDonation>)
    ensures r.Some? <==> e.event.Some? && KindOfEvent(e.event.value).Some? && e.data.Some?
    ensures r.Some? ==> r.value.kind == KindOfEvent(e.event.value).value
    ensures r.Some? ==> r.value.transactionHash == txHash && r.value.blockHeight == blockHeight
  {
    if e.event.None? || e.data.None? then None
    else
      var data := e.data.value;
      match KindOfEvent(e.event.value)
      case None => None
      case Some(DIRECT) => Some(DirectDonation(data, txHash, blockHeight))
      case Some(POT) => Some(PotDonation(data, txHash, blockHeight))
      case Some(POT_PROJECT) => Some(PotProjectDonation(data, txHash, blockHeight))
      case Some(CAMPAIGN) => Some(CampaignDonation(data, txHash, blockHeight))
  }

  /** The envelope a log line carries: marker lines only, decoded after the marker. */
  function EventOfLine(line: string, decode: Decoder): Option<Event> {
    if StartsWith(line, EventPrefix) then decode(line[|EventPrefix|..]) else None
  }

  /** What one log line contributes to `parseExecutionOutcome`. */
  function DonationOfLine(line: string, decode: Decoder, txHash: string, blockHeight: int): (r: Option<ParsedDonation>)
    ensures r.Some? ==> StartsWith(line, EventPrefix)
    ensures r.Some? ==> EventOfLine(line, decode).Some? && EventOfLine(line, decode).value.standard == Some(PotlockStandard)
  {
    match EventOfLine(line, decode)
    case None => None
    case Some(e) => if e.standard == Some(PotlockStandard) then ParsePotlockEvent(e, txHash, blockHeight) else None
  }

  function AsSeq<T>(o: Option<T>): seq<T> {
    if o.Some? then [o.value] else []
  }

  /** The donations of a list of log lines, in log order. */
  function DonationsOfLines(lines: seq<string>, decode: Decoder, txHash: string, blockHeight: int): (r: seq<ParsedDonation>)
    ensures |r| <= |lines|
  {
    if lines == [] then []
    else AsSeq(DonationOfLine(lines[0], decode, txHash, blockHeight)) + DonationsOfLines(lines[1..], decode, txHash, blockHeight)
  }

  lemma DonationsOfLinesUnfold(lines: seq<string>, decode: Decoder, txHash: string, blockHeight: int)
    requires lines != []
    ensures DonationsOfLines(lines, decode, txHash, blockHeight)
            == AsSeq(DonationOfLine(lines[0], decode, txHash, blockHeight)) + DonationsOfLines(lines[1..], decode, txHash, blockHeight)
  {
  }

  lemma NextLine(lines: seq<string>, i: nat, decode: Decoder, txHash: string, blockHeight: int)
    requires i < |lines|
    ensures DonationsOfLines(lines[i..], decode, txHash, blockHeight)
            == AsSeq(DonationOfLine(lines[i], decode, txHash, blockHeight)) + DonationsOfLines(lines[i + 1..], decode, txHash, blockHeight)
  {
    DonationsOfLinesUnfold(lines[i..], decode, txHash, blockHeight);
    assert lines[i..][0] == lines[i] && lines[i..][1..] == lines[i + 1..];
  }

  lemma ConcatAssoc<T>(a: seq<T>, b: seq<T>, c: seq<T>)
    ensures a + (b + c) == (a + b) + c
  {
  }

  /** Indices, from `i` on, of the lines that yield a donation, in increasing order. */
  function DonationLineIndices(lines: seq<string>, i: nat, decode: Decoder, txHash: string, blockHeight: int): seq<nat>
    requires i <= |lines|
    decreases |lines| - i
  {
    if i == |lines| then []
    else if DonationOfLine(lines[i], decode, txHash, blockHeight).Some? then [i] + DonationLineIndices(lines, i + 1, decode, txHash, blockHeight)
    else DonationLineIndices(lines, i + 1, decode, txHash, blockHeight)
  }

  /**
   * `parseExecutionOutcome`: absent or empty logs give no donation; otherwise
   * the donations of the lines, in order, skipping every line that is not a
   * marker line, does not decode, is not `potlock`, or names another event.
   */
  method ParseExecutionOutcome(logs: Option<seq<string>>, decode: Decoder, blockHeight: int, txHash: string)
    returns (donations: seq<ParsedDonation>)
    ensures logs.None? || logs.value == [] ==> donations == []
    ensures logs.Some? ==> donations == DonationsOfLines(logs.value, decode, txHash, blockHeight)
  {
    donations := [];
    if logs.None? || |logs.value| == 0 {
      return;
    }
    var lines := logs.value;
    for i := 0 to |lines|
      invariant DonationsOfLines(lines, decode, txHash, blockHeight)
                == donations + DonationsOfLines(lines[i..], decode, txHash, blockHeight)
    {
      var line := lines[i];
      ghost var contribution := AsSeq(DonationOfLine(line, decode, txHash, blockHeight));
      ghost var rest := DonationsOfLines(lines[i + 1..], decode, txHash, blockHeight);
      ghost var before := donations;
      NextLine(lines, i, decode, txHash, blockHeight);
      // a line that is not an event line, or whose JSON fails to decode, is skipped
      var event := EventOfLine(line, decode);
      if event.Some? && event.value.standard == Some(PotlockStandard) {
        var parsed := ParsePotlockEvent(event.value, txHash, blockHeight);
        if parsed.Some? {
          donations := donations + [parsed.value];
        }
      }
      assert donations == before + contribution;
      ConcatAssoc(before, contribution, rest);
    }
    assert lines[|lines|..] == [];
  }

  /** What one log line contributes to `parsePotPayout`. */
  function PayoutOfLine(line: string, decode: Decoder, txHash: string, blockHeight: int): (r: Option<ParsedPayout>)
    ensures r.Some? ==> r.value.transactionHash == txHash && r.value.blockHeight == blockHeight && r.value.ftId != ""
    ensures r.Some? ==> EventOfLine(line, decode).Some?
                        && EventOfLine(line, decode).value.standard == Some(PotlockStandard)
                        && EventOfLine(line, decode).value.event == Some(PayoutEvent)
  {
    match EventOfLine(line, decode)
    case None => None
    case Some(e) =>
      if e.standard == Some(PotlockStandard) && e.event == Some(PayoutEvent) && e.data.Some? then
        var data := e.data.value;
        Some(ParsedPayout(data.potId, data.recipientId, data.amount, StringOr(data.ftId, NativeToken),
                          data.paidAtMs, txHash, blockHeight))
      else None
  }

  /** The payout of the first line that carries one. */
  function FirstPayout(lines: seq<string>, decode: Decoder, txHash: string, blockHeight: int): (r: Option<ParsedPayout>)
    ensures r.None? <==> forall i :: 0 <= i < |lines| ==> PayoutOfLine(lines[i], decode, txHash, blockHeight).None?
    ensures r.Some? ==> r.value.transactionHash == txHash && r.value.blockHeight == blockHeight
  {
    if lines == [] then None
    else
      match PayoutOfLine(lines[0], decode, txHash, blockHeight)
      case Some(p) => Some(p)
      case None =>
        assert forall i :: 1 <= i < |lines| ==> lines[i] == lines[1..][i - 1];
        FirstPayout(lines[1..], decode, txHash, blockHeight)
  }

  /** `parsePotPayout`: the first potlock `pot_payout` event, later ones ignored. */
  method ParsePotPayout(logs: Option<seq<string>>, decode: Decoder, blockHeight: int, txHash: string)
    returns (payout: Option<ParsedPayout>)
    ensures logs.None? || logs.value == [] ==> payout.None?
    ensures logs.Some? ==> payout == FirstPayout(logs.value, decode, txHash, blockHeight)
  {
    if logs.None? || |logs.value| == 0 {
      return None;
    }
    var lines := logs.value;
    var i := 0;
    while i < |lines|
      invariant 0 <= i <= |lines|
      invariant FirstPayout(lines, decode, txHash, blockHeight) == FirstPayout(lines[i..], decode, txHash, blockHeight)
    {
      var line := lines[i];
      assert lines[i..][0] == line && lines[i..][1..] == lines[i + 1..];
      if StartsWith(line, EventPrefix) {
        var decoded := decode(line[|EventPrefix|..]);
        if decoded.Some? {
          var event := decoded.value;
          if event.standard == Some(PotlockStandard) && event.event == Some(PayoutEvent) && event.data.Some? {
            var data := event.data.value;
            return Some(ParsedPayout(data.potId, data.recipientId, data.amount, StringOr(data.ftId, NativeToken),
                                     data.paidAtMs, txHash, blockHeight));
          }
        }
      }
      i := i + 1;
    }
    return None;
  }

  // ---------------------------------------------------------------------------
  // Properties of the parser

  /**
   * Every kind follows the field table, and every parsed donation is well
   * shaped.
   */
  lemma ParsedDonationFollowsTable(e: Event, txHash: string, blockHeight: int)
    requires ParsePotlockEvent(e, txHash, blockHeight).Some?
    ensures var d := ParsePotlockEvent(e, txHash, blockHeight).value;
            WellShaped(d) && FieldsFrom(d, e.data.value)
  {
  }

  /**
   * Every donation parsed from a receipt's logs carries that receipt's
   * transaction hash and block height, and is well shaped.
   */
  lemma {:induction false} DonationsCarryReceipt(lines: seq<string>, decode: Decoder, txHash: string, blockHeight: int)
    ensures forall d :: d in DonationsOfLines(lines, decode, txHash, blockHeight) ==>
              d.transactionHash == txHash && d.blockHeight == blockHeight && WellShaped(d)
  {
    if lines != [] {
      DonationsCarryReceipt(lines[1..], decode, txHash, blockHeight);
      var first := DonationOfLine(lines[0], decode, txHash, blockHeight);
      if first.Some? {
        var e := EventOfLine(lines[0], decode).value;
        ParsedDonationFollowsTable(e, txHash, blockHeight);
      }
    }
  }

  /** The donations of two concatenated runs of lines are those of each run, in order. */
  lemma {:induction false} DonationsOfLinesAppend(a: seq<string>, b: seq<string>, decode: Decoder, txHash: string, blockHeight: int)
    ensures DonationsOfLines(a + b, decode, txHash, blockHeight)
            == DonationsOfLines(a, decode, txHash, blockHeight) + DonationsOfLines(b, decode, txHash, blockHeight)
  {
    if a == [] {
      assert a + b == b;
    } else {
      assert (a + b)[0] == a[0] && (a + b)[1..] == a[1..] + b;
      DonationsOfLinesAppend(a[1..], b, decode, txHash, blockHeight);
    }
  }

  /**
   * A line that is not an event line, or whose JSON does not decode, is skipped
   * and the lines after it are still parsed.
   */
  lemma UndecodableLineIsSkipped(lines: seq<string>, i: nat, decode: Decoder, txHash: string, blockHeight: int)
    requires i < |lines| && EventOfLine(lines[i], decode).None?
    ensures DonationsOfLines(lines, decode, txHash, blockHeight)
            == DonationsOfLines(lines[..i], decode, txHash, blockHeight) + DonationsOfLines(lines[i + 1..], decode, txHash, blockHeight)
  {
    var tail := [lines[i]] + lines[i + 1..];
    assert lines == lines[..i] + tail;
    DonationsOfLinesAppend(lines[..i], tail, decode, txHash, blockHeight);
    assert tail[0] == lines[i] && tail[1..] == lines[i + 1..];
    DonationsOfLinesUnfold(tail, decode, txHash, blockHeight);
    assert DonationOfLine(lines[i], decode, txHash, blockHeight).None?;
  }

  /**
   * Log order is kept: the k-th donation comes from the k-th line that yields
   * one, and those lines are in strictly increasing order.
   */
  lemma {:induction false} DonationsKeepLogOrder(lines: seq<string>, i: nat, decode: Decoder, txHash: string, blockHeight: int)
    requires i <= |lines|
    ensures var r := DonationsOfLines(lines[i..], decode, txHash, blockHeight);
            var idx := DonationLineIndices(lines, i, decode, txHash, blockHeight);
            && |idx| == |r|
            && (forall k :: 0 <= k < |idx| ==> i <= idx[k] < |lines| && DonationOfLine(lines[idx[k]], decode, txHash, blockHeight) == Some(r[k]))
            && (forall k, m :: 0 <= k < m < |idx| ==> idx[k] < idx[m])
    decreases |lines| - i
  {
    IndicesIncrease(lines, i, decode, txHash, blockHeight);
    if i == |lines| {
      assert lines[i..] == [];
    } else {
      DonationsKeepLogOrder(lines, i + 1, decode, txHash, blockHeight);
      NextLine(lines, i, decode, txHash, blockHeight);
      var rest := DonationsOfLines(lines[i + 1..], decode, txHash, blockHeight);
      var restIdx := DonationLineIndices(lines, i + 1, decode, txHash, blockHeight);
      var here := DonationOfLine(lines[i], decode, txHash, blockHeight);
      if here.Some? {
        var r := [here.value] + rest;
        var idx := [i] + restIdx;
        assert DonationsOfLines(lines[i..], decode, txHash, blockHeight) == r;
        assert DonationLineIndices(lines, i, decode, txHash, blockHeight) == idx;
        forall k | 1 <= k < |idx|
          ensures DonationOfLine(lines[idx[k]], decode, txHash, blockHeight) == Some(r[k])
        {
          assert idx[k] == restIdx[k - 1] && r[k] == rest[k - 1];
        }
      } else {
        assert DonationsOfLines(lines[i..], decode, txHash, blockHeight) == rest;
      }
    }
  }

  /** The lines that yield a donation, listed from `i` on, are in strictly increasing order. */
  lemma {:induction false} IndicesIncrease(lines: seq<string>, i: nat, decode: Decoder, txHash: string, blockHeight: int)
    requires i <= |lines|
    ensures forall k :: 0 <= k < |DonationLineIndices(lines, i, decode, txHash, blockHeight)| ==>
              i <= DonationLineIndices(lines, i, decode, txHash, blockHeight)[k] < |lines|
    ensures forall k, m :: 0 <= k < m < |DonationLineIndices(lines, i, decode, txHash, blockHeight)| ==>
              DonationLineIndices(lines, i, decode, txHash, blockHeight)[k] < DonationLineIndices(lines, i, decode, txHash, blockHeight)[m]
    decreases |lines| - i
  {
    if i < |lines| {
      IndicesIncrease(lines, i + 1, decode, txHash, blockHeight);
      var restIdx := DonationLineIndices(lines, i + 1, decode, txHash, blockHeight);
      if DonationOfLine(lines[i], decode, txHash, blockHeight).Some? {
        var idx := [i] + restIdx;
        assert DonationLineIndices(lines, i, decode, txHash, blockHeight) == idx;
        forall k, m | 0 <= k < m < |idx|
          ensures idx[k] < idx[m]
        {
          assert idx[m] == restIdx[m - 1] && i + 1 <= restIdx[m - 1];
          if k > 0 {
            assert idx[k] == restIdx[k - 1];
          }
        }
      } else {
        assert DonationLineIndices(lines, i, decode, txHash, blockHeight) == restIdx;
      }
    }
  }

  /** The first payout event wins; payout events on later lines are ignored. */
  lemma {:induction false} FirstPayoutWins(lines: seq<string>, i: nat, decode: Decoder, txHash: string, blockHeight: int)
    requires i < |lines| && PayoutOfLine(lines[i], decode, txHash, blockHeight).Some?
    requires forall j :: 0 <= j < i ==> PayoutOfLine(lines[j], decode, txHash, blockHeight).None?
    ensures FirstPayout(lines, decode, txHash, blockHeight) == PayoutOfLine(lines[i], decode, txHash, blockHeight)
  {
    if i > 0 {
      assert forall j :: 0 <= j < i - 1 ==> lines[1..][j] == lines[j + 1];
      FirstPayoutWins(lines[1..], i - 1, decode, txHash, blockHeight);
    }
  }
}
