/**
 * The events of the three token standards the classifier decodes against,
 * as a successful decode reports them (event name and typed arguments).
 * Addresses are the checksummed strings the decoder returns.
 */
module StandardEvents {

  /** Events of the fungible-token interface (EIP-20, "Events"). */
  datatype Erc20Event =
    | Transfer(from: string, to: string, value: nat)
    | Approval(owner: string, spender: string, value: nat)

  /** Events of the non-fungible-token interface (EIP-721, "Specification"). */
  datatype Erc721Event =
    | Transfer(from: string, to: string, tokenId: nat)
    | Approval(owner: string, approvedAccount: string, tokenId: nat)
    | ApprovalForAll(owner: string, operator: string, approvedAll: bool)

  /** Events of the multi-token interface (EIP-1155, "Specification"). */
  datatype Erc1155Event =
    | TransferSingle(operator: string, from: string, to: string, id: nat, value: nat)
    | TransferBatch(operator: string, from: string, to: string, ids: seq<nat>, values: seq<nat>)
    | ApprovalForAll(account: string, operator: string, approvedAll: bool)
    | Uri(uri: string, id: nat)

  function Erc20Name(e: Erc20Event): string {
    match e
    case Transfer(_, _, _) => "Transfer"
    case Approval(_, _, _) => "Approval"
  }

  function Erc721Name(e: Erc721Event): string {
    match e
    case Transfer(_, _, _) => "Transfer"
    case Approval(_, _, _) => "Approval"
    case ApprovalForAll(_, _, _) => "ApprovalForAll"
  }

  function Erc1155Name(e: Erc1155Event): string {
    match e
    case TransferSingle(_, _, _, _, _) => "TransferSingle"
    case TransferBatch(_, _, _, _, _) => "TransferBatch"
    case ApprovalForAll(_, _, _) => "ApprovalForAll"
    case Uri(_, _) => "URI"
  }
}
