/**
 * The table of supported networks, keyed by chain key, and the client
 * factory built on it. Only the data that the monitoring core reads is
 * kept; explorers are dropped.
 */
module ChainRegistry {
  import opened Wrappers

  datatype NativeCurrency = NativeCurrency(name: string, symbol: string, decimals: nat)

  datatype ChainConfig = ChainConfig(
    id: nat,
    name: string,
    rpcUrls: seq<string>,
    nativeCurrency: Option<NativeCurrency>,
    isTestnet: bool)

  /** The chain registry: chain key to configuration. */
  type Chains = map<string, ChainConfig>

  /** Why no client could be built: the key is not in the registry, or its chain lists no endpoint. */
  datatype ChainError = UnsupportedChain(chainKey: string) | NoEndpoint(chainKey: string)

  /** A client as built by the factory: one transport, on one endpoint. */
  datatype Client = Client(chainId: nat, nativeCurrency: NativeCurrency, transportUrl: string)

  /** The native currency assumed for a chain whose configuration names none. */
  const DefaultNativeCurrency := NativeCurrency("Ether", "ETH", 18)

  /**
   * A fresh client for `chainKey`: fails for an unknown key, and when the
   * chain lists no endpoint (the HTTP transport then has no URL); otherwise
   * talks to the first configured endpoint only (no rotation, no caching).
   */
  function GetClient(chains: Chains, chainKey: string): (r: Result<Client, ChainError>)
    ensures r.Failure? <==> chainKey !in chains || chains[chainKey].rpcUrls == []
    ensures chainKey !in chains ==> r == Failure(UnsupportedChain(chainKey))
    ensures chainKey in chains && chains[chainKey].rpcUrls == [] ==> r == Failure(NoEndpoint(chainKey))
    ensures r.Success? ==> r.value.chainId == chains[chainKey].id && r.value.transportUrl == chains[chainKey].rpcUrls[0]
    ensures r.Success? && chains[chainKey].nativeCurrency.None? ==> r.value.nativeCurrency == NativeCurrency("Ether", "ETH", 18)
    ensures r.Success? && chains[chainKey].nativeCurrency.Some? ==> r.value.nativeCurrency == chains[chainKey].nativeCurrency.value
  {
    if chainKey !in chains then
      Failure(UnsupportedChain(chainKey))
    else
      var config := chains[chainKey];
      if config.rpcUrls == [] then
        Failure(NoEndpoint(chainKey))
      else
        Success(Client(config.id, config.nativeCurrency.GetOr(DefaultNativeCurrency), config.rpcUrls[0]))
  }
}
