/**
 * Enrichment of one transaction into the record the API returns: the hash
 * is normalised to carry the `0x` prefix, the transaction, its receipt and
 * its block are read from a node, the classifier's verdict is folded in
 * (with a fallback when classification fails), and the remaining fields
 * take their defaults.
 *
 * The node reads are the functions of a `Node` value, the classifier's
 * outcome is an input (`None` when it failed), and ether formatting is a
 * parameter: none of them is modelled here.
 */
module Enrich {
  import opened Wrappers
  import opened ChainRegistry
  import Decimal
  import C = Classifier

  /** The fields of a fetched transaction that enrichment reads; `blockNumber` is absent while pending. */
  datatype FetchedTx = FetchedTx(from: string, to: Option<string>, value: nat, blockNumber: Option<nat>)

  datatype FetchedReceipt = FetchedReceipt(gasUsed: nat)

  /** A block, with its timestamp in seconds. */
  datatype FetchedBlock = FetchedBlock(timestamp: nat)

  /**
   * The reads a client makes against its node: a transaction and its
   * receipt by hash, and a block by the transaction's block number, which
   * may be absent. `None` is a read that fails.
   */
  datatype Node = Node(
    getTransaction: string -> Option<FetchedTx>,
    getTransactionReceipt: string -> Option<FetchedReceipt>,
    getBlock: Option<nat> -> Option<FetchedBlock>)

  /** The enriched record; `timestampMs` is the block time in milliseconds. */
  datatype EnrichedTransaction = EnrichedTransaction(
    txHash: string,
    chain: string,
    blockNumber: nat,
    timestampMs: nat,
    fromAddr: string,
    toAddr: string,
    nativeValue: string,
    nativeSymbol: string,
    usdValue: Option<string>,
    gasUsed: string,
    gasFeeUsd: Option<string>,
    tokenTransfers: seq<C.TokenTransfer>,
    activityType: string,
    projectTag: Option<string>)

  datatype EnrichError =
    | ChainFailure(error: ChainError)
    | TransactionNotFound(hash: string)
    | ReceiptNotFound(hash: string)
    | BlockNotFound(blockNumber: Option<nat>)

  /** The activity type reported when the classifier fails. */
  const FallbackActivity := "contract_interaction"

  /** The native symbol of a chain whose configuration names no currency. */
  const DefaultSymbol := "ETH"

  predicate HasHexPrefix(s: string) {
    |s| >= 2 && s[..2] == "0x"
  }

  /** The hash with a `0x` prefix, added only when it is missing. */
  function NormalizeHash(h: string): (r: string)
    ensures HasHexPrefix(r)
    ensures |r| == |h| + (if HasHexPrefix(h) then 0 else 2)
    ensures r[|r| - |h|..] == h
    ensures r == h <==> HasHexPrefix(h)
  {
    if HasHexPrefix(h) then h else "0x" + h
  }

  /**
   * The record built from the fetched values: the caller's hash, the
   * chain's display name, the classifier's verdict or the fallback, and the
   * defaults for what is missing.
   */
  function Assemble(txHash: string, config: ChainConfig, tx: FetchedTx, receipt: FetchedReceipt, block: FetchedBlock,
                    classified: Option<C.ClassifiedTxResult>, formatEther: nat -> string): (r: EnrichedTransaction)
    ensures r.txHash == txHash && r.chain == config.name
    ensures r.activityType == FallbackActivity <==> classified.None?
    ensures classified.Some? ==>
      r.activityType == C.BaseTypeName(classified.value.baseType) && r.tokenTransfers == classified.value.tokenTransfers
    ensures classified.None? ==> r.tokenTransfers == []
    ensures Decimal.IsDigits(r.gasUsed) && Decimal.ToNat(r.gasUsed) == receipt.gasUsed
    ensures tx.blockNumber.None? ==> r.blockNumber == 0
    ensures tx.blockNumber.Some? ==> r.blockNumber == tx.blockNumber.value
    ensures r.fromAddr == tx.from
    ensures r.timestampMs == 1000 * block.timestamp
    ensures tx.to.None? ==> r.toAddr == ""
    ensures tx.to.Some? ==> r.toAddr == tx.to.value
    ensures tx.value == 0 ==> r.nativeValue == "0"
    ensures tx.value != 0 ==> r.nativeValue == formatEther(tx.value)
    ensures config.nativeCurrency.None? ==> r.nativeSymbol == DefaultSymbol
    ensures config.nativeCurrency.Some? ==> r.nativeSymbol == config.nativeCurrency.value.symbol
    ensures r.usdValue.None? && r.gasFeeUsd.None? && r.projectTag.None?
  {
    ClassNamesAreNotFallback();
    Decimal.ToNatFromNat(receipt.gasUsed);
    var (activityType, tokenTransfers) :=
      match classified
      case None => (FallbackActivity, [])
      case Some(c) => (C.BaseTypeName(c.baseType), c.tokenTransfers);
    EnrichedTransaction(
      txHash,
      config.name,
      tx.blockNumber.GetOr(0),
      1000 * block.timestamp,
      tx.from,
      tx.to.GetOr(""),
      if tx.value != 0 then formatEther(tx.value) else "0",
      match config.nativeCurrency
      case None => DefaultSymbol
      case Some(currency) => currency.symbol,
      None,
      Decimal.FromNat(receipt.gasUsed),
      None,
      tokenTransfers,
      activityType,
      None)
  }

  /**
   * Enrich `txHash` on the chain `chainKey`: fails when no client can be
   * built for the chain (an unknown key, no endpoint), and when the node
   * cannot produce the transaction, its receipt or its block;
   * otherwise assembles the record.
   */
  function EnrichTx(node: Node, chains: Chains, chainKey: string, txHash: string,
                    classified: Option<C.ClassifiedTxResult>, formatEther: nat -> string)
    : (r: Result<EnrichedTransaction, EnrichError>)
    ensures chainKey !in chains ==> r == Failure(ChainFailure(UnsupportedChain(chainKey)))
    ensures chainKey in chains && chains[chainKey].rpcUrls == [] ==> r == Failure(ChainFailure(NoEndpoint(chainKey)))
    ensures r.Success? <==>
      && chainKey in chains && chains[chainKey].rpcUrls != []
      && node.getTransaction(NormalizeHash(txHash)).Some?
      && node.getTransactionReceipt(NormalizeHash(txHash)).Some?
      && node.getBlock(node.getTransaction(NormalizeHash(txHash)).value.blockNumber).Some?
    ensures r.Failure? && r.error.TransactionNotFound? ==> r.error.hash == NormalizeHash(txHash)
    ensures r.Failure? && r.error.ReceiptNotFound? ==> r.error.hash == NormalizeHash(txHash)
    ensures r.Success? ==>
      r.value == Assemble(txHash, chains[chainKey],
                          node.getTransaction(NormalizeHash(txHash)).value,
                          node.getTransactionReceipt(NormalizeHash(txHash)).value,
                          node.getBlock(node.getTransaction(NormalizeHash(txHash)).value.blockNumber).value,
                          classified, formatEther)
  {
    match GetClient(chains, chainKey)
    case Failure(e) => Failure(ChainFailure(e))
    case Success(_) =>
      var hash := NormalizeHash(txHash);
      match node.getTransaction(hash)
      case None => Failure(TransactionNotFound(hash))
      case Some(tx) =>
        match node.getTransactionReceipt(hash)
        case None => Failure(ReceiptNotFound(hash))
        case Some(receipt) =>
          match node.getBlock(tx.blockNumber)
          case None => Failure(BlockNotFound(tx.blockNumber))
          case Some(block) => Success(Assemble(txHash, chains[chainKey], tx, receipt, block, classified, formatEther))
  }

  // ---------------------------------------------------------------------
  // Lemmas

  /** No class name of the classifier is the fallback activity, so the fallback is recognisable. */
  lemma ClassNamesAreNotFallback()
    ensures forall b: C.BaseType :: C.BaseTypeName(b) != FallbackActivity
  {
    forall b: C.BaseType
      ensures C.BaseTypeName(b) != FallbackActivity
    {
      assert C.BaseTypeName(b)[0] != FallbackActivity[0];
    }
  }

  /** Normalising a normalised hash changes nothing. */
  lemma NormalizeHashIdempotent(h: string)
    ensures NormalizeHash(NormalizeHash(h)) == NormalizeHash(h)
  {
  }

  /** A hash with and without its `0x` prefix name the same transaction. */
  lemma NormalizeHashDropsPrefix(h: string)
    ensures NormalizeHash("0x" + h) == NormalizeHash(h) || HasHexPrefix(h)
    ensures NormalizeHash("0x" + h) == "0x" + h
  {
    assert ("0x" + h)[..2] == "0x";
  }

  /**
   * Enriching a hash with or without its `0x` prefix reads the same
   * transaction and yields the same record, except that each reports the
   * hash the caller passed.
   */
  lemma EnrichIgnoresHashPrefix(node: Node, chains: Chains, chainKey: string, h: string,
                                classified: Option<C.ClassifiedTxResult>, formatEther: nat -> string)
    requires !HasHexPrefix(h)
    ensures EnrichTx(node, chains, chainKey, h, classified, formatEther).Success? <==>
            EnrichTx(node, chains, chainKey, "0x" + h, classified, formatEther).Success?
    ensures EnrichTx(node, chains, chainKey, h, classified, formatEther).Success? ==>
      EnrichTx(node, chains, chainKey, h, classified, formatEther).value ==
      EnrichTx(node, chains, chainKey, "0x" + h, classified, formatEther).value.(txHash := h)
  {
    NormalizeHashDropsPrefix(h);
  }
}
