/**
 * The transaction classifier: a decision procedure from a transaction and
 * the logs of its receipt to a typed activity (base type and subtype), the
 * token transfers it moved and the events that could be decoded.
 *
 * The transaction and receipt fetches are inputs. Each log carries the
 * outcome of decoding it against each of the three token standards, one
 * optional event per standard (None when the decoder threw).
 */
module Classifier {
  import opened Wrappers
  import Decimal
  import E = StandardEvents

  datatype BaseType = Transfer | Nft | DeFi | Governance | System | Unknown

  datatype SubType =
    // transfer subtypes
    | NativeTransfer | Erc20Transfer | BatchTransfer
    // NFT subtypes
    | NftMint | NftTransfer | NftBurn | NftApproval
    // DeFi subtypes
    | Swap | LiquidityAdd | LiquidityRemove | LendingDeposit | LendingWithdraw
    | LendingBorrow | LendingRepay | StakingDeposit | StakingWithdraw | YieldHarvest
    // governance subtypes
    | ProposalCreate | VoteCast | Delegate
    // system subtypes
    | ContractDeployment | ContractUpgrade | ProxyCall

  /** The string each base type is stored and reported as. */
  function BaseTypeName(b: BaseType): string {
    match b
    case Transfer => "TRANSFER"
    case Nft => "NFT"
    case DeFi => "DEFI"
    case Governance => "GOVERNANCE"
    case System => "SYSTEM"
    case Unknown => "UNKNOWN"
  }

  /** One value movement; the USD value is never filled in and is omitted. */
  datatype TokenTransfer = TokenTransfer(token: string, amount: string, from: string, to: string)

  /** The arguments of a decoded event, tagged with the standard that decoded it. */
  datatype DecodedEvent =
    | Erc20(erc20: E.Erc20Event)
    | Erc721(erc721: E.Erc721Event)
    | Erc1155(erc1155: E.Erc1155Event)

  datatype EventRecord = EventRecord(eventName: string, args: DecodedEvent, address: string)

  /** A receipt log: its emitter and the outcome of each standard's decoder. */
  datatype Log = Log(
    address: string,
    asErc20: Option<E.Erc20Event>,
    asErc721: Option<E.Erc721Event>,
    asErc1155: Option<E.Erc1155Event>)

  /** The fetched transaction: recipient (absent for a deployment), call data as hex, value. */
  datatype Tx = Tx(to: Option<string>, input: string, value: nat)

  datatype ClassifiedTxResult = ClassifiedTxResult(
    baseType: BaseType,
    subType: Option<SubType>,
    tokenTransfers: seq<TokenTransfer>,
    events: seq<EventRecord>)

  /** A classification as a matching standard sets it. */
  datatype Class = Class(baseType: BaseType, subType: SubType)

  const ZeroAddress: string := "0x0000000000000000000000000000000000000000"

  const Unclassified := ClassifiedTxResult(Unknown, None, [], [])

  /** Known DeFi method selectors (first four bytes of call data, as hex). */
  const SelectorTable: map<string, SubType> := map[
    "0x7ff36ab5" := Swap,
    "0x38ed1739" := Swap,
    "0xe8e33700" := LiquidityAdd,
    "0xf305d719" := LiquidityAdd,
    "0x2e1a7d4d" := LendingWithdraw,
    "0xdb006a75" := LendingWithdraw,
    "0xc5ebeaec" := LendingBorrow]

  function Min(a: nat, b: nat): nat {
    if a <= b then a else b
  }

  function EventName(d: DecodedEvent): string {
    match d
    case Erc20(e) => E.Erc20Name(e)
    case Erc721(e) => E.Erc721Name(e)
    case Erc1155(e) => E.Erc1155Name(e)
  }

  /** The later of two outcomes when present, else the earlier: a later match overwrites. */
  function Later<T>(earlier: Option<T>, later: Option<T>): Option<T> {
    if later.Some? then later else earlier
  }

  // ---------------------------------------------------------------------
  // One log

  /** True when at least one of the three decoders accepted the log. */
  predicate Decodes(log: Log) {
    log.asErc20.Some? || log.asErc721.Some? || log.asErc1155.Some?
  }

  /** True when none of the decoded events is a transfer event. */
  predicate TransferFree(log: Log) {
    && (log.asErc20.None? || !log.asErc20.value.Transfer?)
    && (log.asErc721.None? || !log.asErc721.value.Transfer?)
    && (log.asErc1155.None? || !(log.asErc1155.value.TransferSingle? || log.asErc1155.value.TransferBatch?))
  }

  function Erc20Class(log: Log): Option<Class> {
    if log.asErc20.Some? && log.asErc20.value.Transfer? then Some(Class(Transfer, Erc20Transfer)) else None
  }

  function Erc721Class(log: Log): Option<Class> {
    if log.asErc721.Some? && log.asErc721.value.Transfer? then
      Some(Class(Nft, if log.asErc721.value.from == ZeroAddress then NftMint else NftTransfer))
    else None
  }

  function Erc1155Class(log: Log): Option<Class> {
    if log.asErc1155.Some? && (log.asErc1155.value.TransferSingle? || log.asErc1155.value.TransferBatch?) then
      Some(Class(Nft, NftTransfer))
    else None
  }

  /** The classification a log sets: that of the last standard, in decode order, that matched. */
  function LogClass(log: Log): Option<Class> {
    Later(Later(Erc20Class(log), Erc721Class(log)), Erc1155Class(log))
  }

  function Erc20Transfers(log: Log): seq<TokenTransfer> {
    match log.asErc20
    case Some(Transfer(from, to, value)) => [TokenTransfer(log.address, Decimal.FromNat(value), from, to)]
    case _ => []
  }

  function Erc721Transfers(log: Log): seq<TokenTransfer> {
    match log.asErc721
    case Some(Transfer(from, to, _)) => [TokenTransfer(log.address, "1", from, to)]
    case _ => []
  }

  /**
   * One entry per id, paired with the value at the same position; the
   * expansion stops at the first id that has no value.
   */
  function BatchTransfers(token: string, from: string, to: string, ids: seq<nat>, values: seq<nat>): seq<TokenTransfer> {
    seq(Min(|ids|, |values|), i requires 0 <= i < Min(|ids|, |values|) =>
      TokenTransfer(token, Decimal.FromNat(values[i]), from, to))
  }

  function Erc1155Transfers(log: Log): seq<TokenTransfer> {
    match log.asErc1155
    case Some(TransferSingle(_, from, to, _, value)) => [TokenTransfer(log.address, Decimal.FromNat(value), from, to)]
    case Some(TransferBatch(_, from, to, ids, values)) => BatchTransfers(log.address, from, to, ids, values)
    case _ => []
  }

  /** The transfers a log contributes, in decode order: fungible, non-fungible, multi-token. */
  function LogTransfers(log: Log): seq<TokenTransfer> {
    Erc20Transfers(log) + Erc721Transfers(log) + Erc1155Transfers(log)
  }

  /** The event a log leaves: the last successful decode, with the log's emitter. */
  function LastDecode(log: Log): Option<DecodedEvent> {
    Later(Later(
      if log.asErc20.Some? then Some(Erc20(log.asErc20.value)) else None,
      if log.asErc721.Some? then Some(Erc721(log.asErc721.value)) else None),
      if log.asErc1155.Some? then Some(Erc1155(log.asErc1155.value)) else None)
  }

  function EventEntries(log: Log): seq<EventRecord> {
    match LastDecode(log)
    case Some(d) => [EventRecord(EventName(d), d, log.address)]
    case None => []
  }

  // ---------------------------------------------------------------------
  // The whole receipt

  function TransfersOf(logs: seq<Log>): seq<TokenTransfer> {
    if logs == [] then [] else LogTransfers(logs[0]) + TransfersOf(logs[1..])
  }

  function EventsOf(logs: seq<Log>): seq<EventRecord> {
    if logs == [] then [] else EventEntries(logs[0]) + EventsOf(logs[1..])
  }

  /** The classification set by the last log that set one. */
  function LastClass(logs: seq<Log>): Option<Class> {
    if logs == [] then None else Later(LogClass(logs[0]), LastClass(logs[1..]))
  }

  function WithClass(r: ClassifiedTxResult, c: Option<Class>): ClassifiedTxResult {
    if c.Some? then r.(baseType := c.value.baseType, subType := Some(c.value.subType)) else r
  }

  /** The effect of trying one log on a result. */
  function LogStep(r: ClassifiedTxResult, log: Log): ClassifiedTxResult {
    WithClass(r.(tokenTransfers := r.tokenTransfers + LogTransfers(log), events := r.events + EventEntries(log)),
              LogClass(log))
  }

  /** The result after every log has been tried. */
  function LogsOutcome(logs: seq<Log>): ClassifiedTxResult {
    WithClass(ClassifiedTxResult(Unknown, None, TransfersOf(logs), EventsOf(logs)), LastClass(logs))
  }

  /**
   * The method-selector fallback: only for a result still UNKNOWN and call
   * data holding a full selector; it never touches transfers or events.
   */
  function SelectorFallback(r: ClassifiedTxResult, input: string): (f: ClassifiedTxResult)
    ensures f.tokenTransfers == r.tokenTransfers && f.events == r.events
    ensures r.baseType != Unknown || |input| < 10 ==> f == r
    ensures r.baseType == Unknown && |input| >= 10 && input[..10] !in SelectorTable ==> f == r
    ensures r.baseType == Unknown && |input| >= 10 && input[..10] in SelectorTable ==>
      f.baseType == DeFi && f.subType == Some(SelectorTable[input[..10]])
  {
    if r.baseType == Unknown && |input| >= 10 then
      var methodSig := input[..10];
      if methodSig == "0x7ff36ab5" || methodSig == "0x38ed1739" then r.(baseType := DeFi, subType := Some(Swap))
      else if methodSig == "0xe8e33700" || methodSig == "0xf305d719" then r.(baseType := DeFi, subType := Some(LiquidityAdd))
      else if methodSig == "0x2e1a7d4d" || methodSig == "0xdb006a75" then r.(baseType := DeFi, subType := Some(LendingWithdraw))
      else if methodSig == "0xc5ebeaec" then r.(baseType := DeFi, subType := Some(LendingBorrow))
      else r
    else r
  }

  /** The classification of a transaction with the given receipt logs. */
  function Classify(tx: Tx, logs: seq<Log>): ClassifiedTxResult {
    if tx.to.None? then
      Unclassified.(baseType := System, subType := Some(ContractDeployment))
    else if tx.input == "0x" && tx.value > 0 then
      Unclassified.(baseType := Transfer, subType := Some(NativeTransfer))
    else
      SelectorFallback(LogsOutcome(logs), tx.input)
  }

  // ---------------------------------------------------------------------
  // The procedure itself

  /**
   * Builds the result step by step, as the classifier does: the two early
   * exits, then every log tried against each standard in turn, then the
   * selector table.
   */
  method ClassifyTransaction(tx: Tx, logs: seq<Log>) returns (result: ClassifiedTxResult)
    ensures result == Classify(tx, logs)
  {
    result := Unclassified;
    if tx.to.None? {
      result := result.(baseType := System, subType := Some(ContractDeployment));
      return;
    }
    if tx.input == "0x" && tx.value > 0 {
      result := result.(baseType := Transfer, subType := Some(NativeTransfer));
      return;
    }

    for i := 0 to |logs|
      invariant result == LogsOutcome(logs[..i])
    {
      var log := logs[i];
      ghost var before := result;
      var as20, as721, as1155;
      result, as20 := TryErc20(result, log);
      result, as721 := TryErc721(result, log);
      result, as1155 := TryErc1155(result, log);
      ThreeAttempts(before, log);
      // the event kept is the one from the last decoder that succeeded
      var decoded := Later(Later(as20, as721), as1155);
      if decoded.Some? {
        result := result.(events := result.events + [EventRecord(EventName(decoded.value), decoded.value, log.address)]);
      }
      assert result == LogStep(before, log);
      assert logs[..i + 1] == logs[..i] + [log];
      LogsOutcomeSnoc(logs[..i], log);
    }
    assert logs[..|logs|] == logs;

    // method-selector fallback
    if result.baseType == Unknown && |tx.input| >= 10 {
      var methodSig := tx.input[..10];
      if methodSig == "0x7ff36ab5" || methodSig == "0x38ed1739" {
        result := result.(baseType := DeFi, subType := Some(Swap));
      } else if methodSig == "0xe8e33700" || methodSig == "0xf305d719" {
        result := result.(baseType := DeFi, subType := Some(LiquidityAdd));
      } else if methodSig == "0x2e1a7d4d" || methodSig == "0xdb006a75" {
        result := result.(baseType := DeFi, subType := Some(LendingWithdraw));
      } else if methodSig == "0xc5ebeaec" {
        result := result.(baseType := DeFi, subType := Some(LendingBorrow));
      }
    }
  }

  /** The fungible-token attempt on one log. */
  method TryErc20(result: ClassifiedTxResult, log: Log) returns (r: ClassifiedTxResult, decoded: Option<DecodedEvent>)
    ensures decoded == (if log.asErc20.Some? then Some(Erc20(log.asErc20.value)) else None)
    ensures r == WithClass(result.(tokenTransfers := result.tokenTransfers + Erc20Transfers(log)), Erc20Class(log))
  {
    r, decoded := result, None;
    if log.asErc20.Some? {
      var ev := log.asErc20.value;
      decoded := Some(Erc20(ev));
      if ev.Transfer? {
        r := r.(baseType := Transfer, subType := Some(Erc20Transfer));
        r := r.(tokenTransfers := r.tokenTransfers + [TokenTransfer(log.address, Decimal.FromNat(ev.value), ev.from, ev.to)]);
      }
    }
  }

  /** The non-fungible-token attempt on one log. */
  method TryErc721(result: ClassifiedTxResult, log: Log) returns (r: ClassifiedTxResult, decoded: Option<DecodedEvent>)
    ensures decoded == (if log.asErc721.Some? then Some(Erc721(log.asErc721.value)) else None)
    ensures r == WithClass(result.(tokenTransfers := result.tokenTransfers + Erc721Transfers(log)), Erc721Class(log))
  {
    r, decoded := result, None;
    if log.asErc721.Some? {
      var ev := log.asErc721.value;
      decoded := Some(Erc721(ev));
      if ev.Transfer? {
        r := r.(baseType := Nft);
        if ev.from == ZeroAddress {
          r := r.(subType := Some(NftMint));
        } else {
          r := r.(subType := Some(NftTransfer));
        }
        r := r.(tokenTransfers := r.tokenTransfers + [TokenTransfer(log.address, "1", ev.from, ev.to)]);
      }
    }
  }

  /** The multi-token attempt on one log, expanding a batch id by id. */
  method TryErc1155(result: ClassifiedTxResult, log: Log) returns (r: ClassifiedTxResult, decoded: Option<DecodedEvent>)
    ensures decoded == (if log.asErc1155.Some? then Some(Erc1155(log.asErc1155.value)) else None)
    ensures r == WithClass(result.(tokenTransfers := result.tokenTransfers + Erc1155Transfers(log)), Erc1155Class(log))
  {
    r, decoded := result, None;
    if log.asErc1155.Some? {
      var ev := log.asErc1155.value;
      decoded := Some(Erc1155(ev));
      if ev.TransferSingle? || ev.TransferBatch? {
        r := r.(baseType := Nft, subType := Some(NftTransfer));
        if ev.TransferSingle? {
          r := r.(tokenTransfers := r.tokenTransfers + [TokenTransfer(log.address, Decimal.FromNat(ev.value), ev.from, ev.to)]);
        } else {
          ghost var expected := BatchTransfers(log.address, ev.from, ev.to, ev.ids, ev.values);
          var j := 0;
          while j < |ev.ids|
            invariant j <= Min(|ev.ids|, |ev.values|)
            invariant r == result.(baseType := Nft, subType := Some(NftTransfer),
                                   tokenTransfers := result.tokenTransfers + expected[..j])
          {
            // a missing value makes the conversion throw, which ends the expansion
            if j >= |ev.values| {
              break;
            }
            r := r.(tokenTransfers := r.tokenTransfers + [TokenTransfer(log.address, Decimal.FromNat(ev.values[j]), ev.from, ev.to)]);
            assert expected[..j + 1] == expected[..j] + [expected[j]];
            j := j + 1;
          }
          assert expected[..j] == expected;
        }
      }
    }
  }

  // ---------------------------------------------------------------------
  // Lemmas

  lemma {:induction false} TransfersOfAppend(a: seq<Log>, b: seq<Log>)
    ensures TransfersOf(a + b) == TransfersOf(a) + TransfersOf(b)
    decreases |a|
  {
    if a != [] {
      assert (a + b)[1..] == a[1..] + b;
      TransfersOfAppend(a[1..], b);
    } else {
      assert a + b == b;
    }
  }

  lemma {:induction false} EventsOfAppend(a: seq<Log>, b: seq<Log>)
    ensures EventsOf(a + b) == EventsOf(a) + EventsOf(b)
    decreases |a|
  {
    if a != [] {
      assert (a + b)[1..] == a[1..] + b;
      EventsOfAppend(a[1..], b);
    } else {
      assert a + b == b;
    }
  }

  lemma {:induction false} LastClassAppend(a: seq<Log>, b: seq<Log>)
    ensures LastClass(a + b) == Later(LastClass(a), LastClass(b))
    decreases |a|
  {
    if a != [] {
      assert (a + b)[1..] == a[1..] + b;
      LastClassAppend(a[1..], b);
    } else {
      assert a + b == b;
    }
  }

  /** The three attempts in a row add the log's transfers in decode order and apply its last match. */
  lemma ThreeAttempts(r: ClassifiedTxResult, log: Log)
    ensures
      var r20 := WithClass(r.(tokenTransfers := r.tokenTransfers + Erc20Transfers(log)), Erc20Class(log));
      var r721 := WithClass(r20.(tokenTransfers := r20.tokenTransfers + Erc721Transfers(log)), Erc721Class(log));
      var r1155 := WithClass(r721.(tokenTransfers := r721.tokenTransfers + Erc1155Transfers(log)), Erc1155Class(log));
      r1155 == WithClass(r.(tokenTransfers := r.tokenTransfers + LogTransfers(log)), LogClass(log))
  {
    var t := r.tokenTransfers;
    assert t + Erc20Transfers(log) + Erc721Transfers(log) + Erc1155Transfers(log) == t + LogTransfers(log);
  }

  /** Trying one more log appends its transfers and its event and lets its match overwrite the class. */
  lemma LogsOutcomeSnoc(logs: seq<Log>, log: Log)
    ensures LogsOutcome(logs + [log]) == LogStep(LogsOutcome(logs), log)
  {
    TransfersOfAppend(logs, [log]);
    EventsOfAppend(logs, [log]);
    LastClassAppend(logs, [log]);
    assert TransfersOf([log]) == LogTransfers(log);
    assert EventsOf([log]) == EventEntries(log);
    assert LastClass([log]) == LogClass(log);
  }

  /** A transaction without a recipient is a deployment, whatever its logs say. */
  lemma DeploymentIgnoresLogs(tx: Tx, logs: seq<Log>)
    requires tx.to.None?
    ensures Classify(tx, logs) == ClassifiedTxResult(System, Some(ContractDeployment), [], [])
  {
  }

  /** Empty call data with a positive value is a native transfer, whatever the logs say. */
  lemma NativeTransferIgnoresLogs(tx: Tx, logs: seq<Log>)
    requires tx.to.Some? && tx.input == "0x" && tx.value > 0
    ensures Classify(tx, logs) == ClassifiedTxResult(Transfer, Some(NativeTransfer), [], [])
  {
  }

  /** Empty call data with zero value is not a native transfer: the logs decide. */
  lemma ZeroValueReadsLogs(tx: Tx, logs: seq<Log>)
    requires tx.to.Some? && tx.input == "0x" && tx.value == 0
    ensures Classify(tx, logs) == LogsOutcome(logs)
  {
  }

  /** Past the two early exits, the lists are exactly those the logs produce. */
  lemma ListsComeFromLogs(tx: Tx, logs: seq<Log>)
    requires tx.to.Some? && !(tx.input == "0x" && tx.value > 0)
    ensures Classify(tx, logs).tokenTransfers == TransfersOf(logs)
    ensures Classify(tx, logs).events == EventsOf(logs)
  {
  }

  /**
   * A log leaves one event exactly when some decoder accepted it, tagged with
   * the log's emitter; it carries the last successful decode in the order
   * ERC-20, ERC-721, ERC-1155.
   */
  lemma EventEntriesOfLog(log: Log)
    ensures |EventEntries(log)| == (if Decodes(log) then 1 else 0)
    ensures forall e :: e in EventEntries(log) ==> e.address == log.address && e.eventName == EventName(e.args)
    ensures log.asErc1155.Some? ==> EventEntries(log)[0].args == Erc1155(log.asErc1155.value)
    ensures log.asErc1155.None? && log.asErc721.Some? ==> EventEntries(log)[0].args == Erc721(log.asErc721.value)
    ensures log.asErc1155.None? && log.asErc721.None? && log.asErc20.Some? ==> EventEntries(log)[0].args == Erc20(log.asErc20.value)
  {
  }

  /** At most one event per log; none iff no log decodes; one per log iff every log decodes. */
  lemma {:induction false} EventsOfCount(logs: seq<Log>)
    ensures |EventsOf(logs)| <= |logs|
    ensures EventsOf(logs) == [] <==> forall i :: 0 <= i < |logs| ==> !Decodes(logs[i])
    ensures |EventsOf(logs)| == |logs| <==> forall i :: 0 <= i < |logs| ==> Decodes(logs[i])
    decreases |logs|
  {
    if logs != [] {
      EventsOfCount(logs[1..]);
      EventEntriesOfLog(logs[0]);
      assert forall i :: 1 <= i < |logs| ==> logs[i] == logs[1..][i - 1];
      if forall i :: 1 <= i < |logs| ==> Decodes(logs[i]) {
        assert forall i :: 0 <= i < |logs[1..]| ==> Decodes(logs[1..][i]) by {
          forall i | 0 <= i < |logs[1..]| ensures Decodes(logs[1..][i]) {
            assert logs[1..][i] == logs[i + 1];
          }
        }
      }
      if forall i :: 1 <= i < |logs| ==> !Decodes(logs[i]) {
        assert forall i :: 0 <= i < |logs[1..]| ==> !Decodes(logs[1..][i]) by {
          forall i | 0 <= i < |logs[1..]| ensures !Decodes(logs[1..][i]) {
            assert logs[1..][i] == logs[i + 1];
          }
        }
      }
    }
  }

  /** A fungible Transfer adds one entry carrying the decimal text of its value. */
  lemma Erc20TransferEntry(log: Log, from: string, to: string, value: nat)
    requires log.asErc20 == Some(E.Erc20Event.Transfer(from, to, value))
    ensures Erc20Transfers(log) == [TokenTransfer(log.address, Decimal.FromNat(value), from, to)]
    ensures Decimal.IsDigits(Erc20Transfers(log)[0].amount) && Decimal.ToNat(Erc20Transfers(log)[0].amount) == value
    ensures Erc20Class(log) == Some(Class(Transfer, Erc20Transfer))
  {
    Decimal.ToNatFromNat(value);
  }

  /** A non-fungible Transfer adds one unit entry and is a mint exactly when it comes from the zero address. */
  lemma Erc721TransferEntry(log: Log, from: string, to: string, tokenId: nat)
    requires log.asErc721 == Some(E.Erc721Event.Transfer(from, to, tokenId))
    ensures Erc721Transfers(log) == [TokenTransfer(log.address, "1", from, to)]
    ensures Erc721Class(log).Some? && Erc721Class(log).value.baseType == Nft
    ensures Erc721Class(log).value.subType == NftMint <==> from == ZeroAddress
    ensures Erc721Class(log).value.subType == NftTransfer <==> from != ZeroAddress
  {
  }

  /** A batch expands to one entry per id, with the value at the same position and the batch's sender and receiver. */
  lemma BatchEntries(log: Log, operator: string, from: string, to: string, ids: seq<nat>, values: seq<nat>)
    requires log.asErc1155 == Some(E.Erc1155Event.TransferBatch(operator, from, to, ids, values))
    ensures |values| >= |ids| ==> |Erc1155Transfers(log)| == |ids|
    ensures |values| < |ids| ==> |Erc1155Transfers(log)| == |values|
    ensures forall i :: 0 <= i < |Erc1155Transfers(log)| ==>
      var t := Erc1155Transfers(log)[i];
      t.token == log.address && t.from == from && t.to == to &&
      Decimal.IsDigits(t.amount) && Decimal.ToNat(t.amount) == values[i]
    ensures Erc1155Class(log) == Some(Class(Nft, NftTransfer))
  {
    forall i | 0 <= i < |Erc1155Transfers(log)|
      ensures Decimal.ToNat(Erc1155Transfers(log)[i].amount) == values[i]
    {
      Decimal.ToNatFromNat(values[i]);
    }
  }

  /** A single multi-token transfer adds exactly one entry. */
  lemma SingleEntry(log: Log, operator: string, from: string, to: string, id: nat, value: nat)
    requires log.asErc1155 == Some(E.Erc1155Event.TransferSingle(operator, from, to, id, value))
    ensures Erc1155Transfers(log) == [TokenTransfer(log.address, Decimal.FromNat(value), from, to)]
    ensures Decimal.ToNat(Erc1155Transfers(log)[0].amount) == value
    ensures Erc1155Class(log) == Some(Class(Nft, NftTransfer))
  {
    Decimal.ToNatFromNat(value);
  }

  /** A log adds transfers only when it also sets a class; the class it sets is never UNKNOWN. */
  lemma LogTransfersClassify(log: Log)
    ensures LogTransfers(log) != [] ==> LogClass(log).Some?
    ensures LogClass(log).Some? ==> LogClass(log).value.baseType in {Transfer, Nft}
    ensures TransferFree(log) <==> LogClass(log).None?
  {
  }

  /** No log sets a class exactly when the receipt leaves the class unset. */
  lemma {:induction false} LastClassNone(logs: seq<Log>)
    ensures LastClass(logs).None? <==> forall j :: 0 <= j < |logs| ==> LogClass(logs[j]).None?
    decreases |logs|
  {
    if logs != [] {
      LastClassNone(logs[1..]);
      assert forall j :: 1 <= j < |logs| ==> logs[j] == logs[1..][j - 1];
    }
  }

  /** The class of the receipt is the one set by the last log that sets one. */
  lemma {:induction false} LastClassAt(logs: seq<Log>, k: nat)
    requires k < |logs| && LogClass(logs[k]).Some?
    requires forall j :: k < j < |logs| ==> LogClass(logs[j]).None?
    ensures LastClass(logs) == LogClass(logs[k])
    decreases |logs|
  {
    LastClassNone(logs[1..]);
    if k == 0 {
      assert forall j :: 0 <= j < |logs[1..]| ==> LogClass(logs[1..][j]).None? by {
        forall j | 0 <= j < |logs[1..]| ensures LogClass(logs[1..][j]).None? {
          assert logs[1..][j] == logs[j + 1];
        }
      }
    } else {
      assert logs[1..][k - 1] == logs[k];
      assert forall j :: k - 1 < j < |logs[1..]| ==> LogClass(logs[1..][j]).None? by {
        forall j | k - 1 < j < |logs[1..]| ensures LogClass(logs[1..][j]).None? {
          assert logs[1..][j] == logs[j + 1];
        }
      }
      LastClassAt(logs[1..], k - 1);
    }
  }

  /** Transfers anywhere in the receipt mean some log set a class. */
  lemma {:induction false} TransfersOfClassify(logs: seq<Log>)
    ensures TransfersOf(logs) != [] ==> LastClass(logs).Some?
    ensures LastClass(logs).Some? ==> LastClass(logs).value.baseType in {Transfer, Nft}
    decreases |logs|
  {
    if logs != [] {
      TransfersOfClassify(logs[1..]);
      LogTransfersClassify(logs[0]);
    }
  }

  /** A classification with token transfers is never UNKNOWN. */
  lemma TransfersImplyClassified(tx: Tx, logs: seq<Log>)
    ensures Classify(tx, logs).tokenTransfers != [] ==> Classify(tx, logs).baseType != Unknown
  {
    TransfersOfClassify(logs);
  }

  /** DEFI comes only from the selector table, and only when no log set a class. */
  lemma DeFiOnlyFromSelector(tx: Tx, logs: seq<Log>)
    ensures Classify(tx, logs).baseType == DeFi <==>
      && tx.to.Some? && !(tx.input == "0x" && tx.value > 0)
      && LastClass(logs).None? && |tx.input| >= 10 && tx.input[..10] in SelectorTable
  {
    TransfersOfClassify(logs);
  }

  /**
   * A log whose decoded events are none of them transfers (an approval, say)
   * only adds its event: the class and the transfers stay as they were.
   */
  lemma TransferFreeLogOnlyAddsEvent(tx: Tx, logs: seq<Log>, log: Log)
    requires tx.to.Some? && !(tx.input == "0x" && tx.value > 0)
    requires TransferFree(log)
    ensures Classify(tx, logs + [log]).baseType == Classify(tx, logs).baseType
    ensures Classify(tx, logs + [log]).subType == Classify(tx, logs).subType
    ensures Classify(tx, logs + [log]).tokenTransfers == Classify(tx, logs).tokenTransfers
    ensures Classify(tx, logs + [log]).events == Classify(tx, logs).events + EventEntries(log)
    ensures Decodes(log) ==> |Classify(tx, logs + [log]).events| == |Classify(tx, logs).events| + 1
  {
    LogsOutcomeSnoc(logs, log);
    LogTransfersClassify(log);
    assert LogTransfers(log) == [];
  }

  // ---------------------------------------------------------------------
  // Worked scenarios

  /** One fungible `Transfer` of 500 is an ERC-20 transfer with one entry of amount "500". */
  lemma Erc20Scenario(token: string, from: string, to: string, target: string)
    ensures
      var log := Log(token, Some(E.Erc20Event.Transfer(from, to, 500)), None, None);
      var r := Classify(Tx(Some(target), "0x", 0), [log]);
      && r.baseType == Transfer && r.subType == Some(Erc20Transfer)
      && r.tokenTransfers == [TokenTransfer(token, "500", from, to)]
  {
    var log := Log(token, Some(E.Erc20Event.Transfer(from, to, 500)), None, None);
    assert Decimal.FromNat(500) == "500" by {
      assert Decimal.FromNat(5) == "5";
      assert Decimal.FromNat(50) == "50";
    }
    assert [log][1..] == [];
    assert TransfersOf([log]) == [TokenTransfer(token, "500", from, to)];
    assert LastClass([log]) == Some(Class(Transfer, Erc20Transfer));
  }

  /** A batch with ids [1, 2] and values [10, 20] yields two entries with the batch's own endpoints. */
  lemma BatchScenario(token: string, operator: string, from: string, to: string, target: string)
    ensures
      var log := Log(token, None, None, Some(E.Erc1155Event.TransferBatch(operator, from, to, [1, 2], [10, 20])));
      var r := Classify(Tx(Some(target), "0x", 0), [log]);
      && r.baseType == Nft && r.subType == Some(NftTransfer)
      && r.tokenTransfers == [TokenTransfer(token, "10", from, to), TokenTransfer(token, "20", from, to)]
  {
    var log := Log(token, None, None, Some(E.Erc1155Event.TransferBatch(operator, from, to, [1, 2], [10, 20])));
    assert Decimal.FromNat(10) == "10" by {
      assert Decimal.FromNat(1) == "1";
    }
    assert Decimal.FromNat(20) == "20" by {
      assert Decimal.FromNat(2) == "2";
    }
    assert [log][1..] == [];
    assert BatchTransfers(token, from, to, [1, 2], [10, 20]) ==
      [TokenTransfer(token, "10", from, to), TokenTransfer(token, "20", from, to)];
    assert TransfersOf([log]) == [TokenTransfer(token, "10", from, to), TokenTransfer(token, "20", from, to)];
    assert LastClass([log]) == Some(Class(Nft, NftTransfer));
  }

  /** Call data that matches no selector, with no decodable log, stays UNKNOWN with no transfers. */
  lemma UnknownScenario(target: string, input: string, logs: seq<Log>)
    requires |input| < 10 || input[..10] !in SelectorTable
    requires forall i :: 0 <= i < |logs| ==> !Decodes(logs[i])
    ensures Classify(Tx(Some(target), input, 0), logs) == Unclassified
  {
    EventsOfCount(logs);
    TransfersOfClassify(logs);
    LastClassNone(logs);
  }
}
