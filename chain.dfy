/** The blockchain as the gateway sees it: an oracle fixed for the duration of one
    request, and the remote calls a handler can make against it.

    The web3 transport, the contract ABI and the RPC wire format are not modelled;
    what the gateway observes of each remote call is its decoded result or its error. */
module Chain {

  /** A 20-byte chain address (web3's `Address`). */
  type Address = b: seq<bv8> | |b| == 20 witness seq(20, _ => 0)

  datatype Result<+T, +E> = Ok(value: T) | Err(error: E)

  /** `web3::contract::Error`, as seen through its `Display` text. */
  datatype ContractError = ContractError(description: string)

  /** `web3::Error` of a plain `eth_*` request (accounts, balance), as its text. */
  datatype NodeError = NodeError(description: string)

  /** Everything a handler can learn from the outside world.
      `connects(url)` says whether `Http::new(url)` builds a transport; the contract
      queries go through the public endpoint, `accounts` and `balance` through the
      local one. Token ids and balances are U256 values, modelled as naturals. */
  datatype Env = Env(
    connects: string -> bool,
    name: Result<string, ContractError>,
    totalSupply: Result<nat, ContractError>,
    ownerOf: nat -> Result<Address, ContractError>,
    tokenUri: nat -> Result<string, ContractError>,
    accounts: Result<seq<Address>, NodeError>,
    balance: Address -> Result<nat, NodeError>)

  /** One remote call, as recorded in a handler's trace. */
  datatype Call =
    | QueryName
    | QueryTotalSupply
    | QueryOwnerOf(tokenId: nat)
    | QueryTokenUri(tokenId: nat)
    | ListAccounts
    | QueryBalance(account: Address)

  /** The public RPC endpoint used by the token handlers. */
  const PublicRpc: string := "https://bsc-dataseed.binance.org/"

  /** The local development node used by the accounts handler. */
  const LocalRpc: string := "http://127.0.0.1:7545"
}
