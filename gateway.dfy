/** The query gateway: the three handlers that turn a request into a sequence of
    remote calls against the chain and shape the outcome into a reply.

    Each handler returns its reply together with `calls`, the remote calls it made,
    in the order it made them. The chain is the oracle `env`; building the transport
    is not a remote call and is not recorded. */
module Gateway {
  import opened Chain
  import opened ResponseErrors
  import opened Pagination

  /** `Token`: one entry of a listing. */
  datatype Token = Token(tokenId: nat, ownerAddress: Address)

  /** `TokensResponse`: the body of a successful listing. */
  datatype TokensResponse = TokensResponse(tokens: seq<Token>, totalSupply: nat)

  /** The body of a successful single-token lookup. */
  datatype TokenDetail = TokenDetail(owner: Address, uri: string, tokenName: string, totalSupply: nat)

  /** `AccountResponse`: one account of the local node with its balance. */
  datatype AccountResponse = AccountResponse(account: Address, balance: nat)

  /** How a handler ends: a JSON body, a classified error, or a panic, either an
      `unwrap()` or the conversion of a negative token id (an unclassified abort of
      the request). */
  datatype Reply<+T> = Served(value: T) | Rejected(error: ResponseError) | Aborted

  const ConnectionMessage: string := "Connection problems to the blockchain"

  /** The path parameter of the single-token route, an `i64`. */
  newtype i64 = x: int | -0x8000_0000_0000_0000 <= x < 0x8000_0000_0000_0000

  /** The single-token lookup gets as far as `ownerOf`. */
  predicate ReachesOwnerLookup(env: Env, id: i64)
  {
    env.connects(PublicRpc) && env.name.Ok? && env.totalSupply.Ok? && 0 <= id
  }

  /** The calls the single-token lookup makes when nothing fails, in order. */
  function TokenLookupPlan(id: i64): seq<Call>
  {
    [QueryName, QueryTotalSupply] + if 0 <= id then [QueryOwnerOf(id as nat), QueryTokenUri(id as nat)] else []
  }

  /** `owner_of`: name, total supply, owner and URI of one token. */
  method GetToken(env: Env, id: i64) returns (reply: Reply<TokenDetail>, calls: seq<Call>)
    // the calls follow a fixed order and stop at the first failure
    ensures calls <= TokenLookupPlan(id)
    // no transport: a connection error, and nothing is queried
    ensures reply.Rejected? && reply.error.ConnectionProblems? <==> !env.connects(PublicRpc)
    ensures !env.connects(PublicRpc) ==> reply == Rejected(ConnectionProblems(ConnectionMessage)) && calls == []
    // a panicking unwrap or conversion aborts, and nothing later is queried
    ensures env.connects(PublicRpc) && env.name.Err? ==> reply == Aborted && calls == [QueryName]
    ensures env.connects(PublicRpc) && env.name.Ok? && (env.totalSupply.Err? || id < 0) ==>
              reply == Aborted && calls == [QueryName, QueryTotalSupply]
    ensures ReachesOwnerLookup(env, id) && env.ownerOf(id as nat).Ok? && env.tokenUri(id as nat).Err? ==>
              reply == Aborted && calls == TokenLookupPlan(id)
    // a failed ownership lookup: InvalidToken with that lookup's error, and no tokenURI query
    ensures reply.Rejected? && reply.error.InvalidToken? <==>
              ReachesOwnerLookup(env, id) && env.ownerOf(id as nat).Err?
    ensures reply.Rejected? && reply.error.InvalidToken? ==>
              reply.error.cause == env.ownerOf(id as nat).error && |calls| == 3
    // success exactly when every query succeeds; the owner is passed through unchanged
    ensures reply.Served? <==>
              ReachesOwnerLookup(env, id) && env.ownerOf(id as nat).Ok? && env.tokenUri(id as nat).Ok?
    ensures reply.Served? ==>
              && calls == TokenLookupPlan(id)
              && reply.value == TokenDetail(env.ownerOf(id as nat).value, env.tokenUri(id as nat).value,
                                            env.name.value, env.totalSupply.value)
  {
    calls := [];
    if !env.connects(PublicRpc) {
      return Rejected(ConnectionProblems(ConnectionMessage)), calls;
    }
    calls := calls + [QueryName];
    if env.name.Err? {
      return Aborted, calls;
    }
    calls := calls + [QueryTotalSupply];
    if env.totalSupply.Err? {
      return Aborted, calls;
    }
    if id < 0 {
      // U256::from on a negative i64 panics
      return Aborted, calls;
    }
    var tokenId: nat := id as nat;
    calls := calls + [QueryOwnerOf(tokenId)];
    var owner := env.ownerOf(tokenId);
    if owner.Err? {
      return Rejected(InvalidToken(owner.error)), calls;
    }
    calls := calls + [QueryTokenUri(tokenId)];
    var uri := env.tokenUri(tokenId);
    if uri.Err? {
      return Aborted, calls;
    }
    reply := Served(TokenDetail(owner.value, uri.value, env.name.value, env.totalSupply.value));
  }

  /** `tokens`: the owners of the token ids in one page, fetched one by one in
      ascending order; the first lookup that fails rejects the whole page. */
  method Tokens(env: Env, p: Pagination) returns (reply: Reply<TokensResponse>, calls: seq<Call>)
    requires WindowFits(p)
    // no transport: a connection error, and nothing is queried
    ensures !env.connects(PublicRpc) ==> reply == Rejected(ConnectionProblems(ConnectionMessage)) && calls == []
    // totalSupply is queried once, first; its unwrap aborts when it fails
    ensures env.connects(PublicRpc) ==> 1 <= |calls| && calls[0] == QueryTotalSupply
    ensures env.connects(PublicRpc) && env.totalSupply.Err? ==> reply == Aborted && |calls| == 1
    ensures env.connects(PublicRpc) && env.totalSupply.Ok? ==>
              var w := Window(p);
              // the ids of the window, ascending from its first, each queried once
              && |calls| <= 1 + p.limit as int
              && (forall i :: 1 <= i < |calls| ==> calls[i] == QueryOwnerOf(w.first as int + i - 1))
              // only the last id queried can have failed
              && (forall id :: w.first as int <= id < w.first as int + |calls| - 2 ==> env.ownerOf(id).Ok?)
              // the page is served exactly when every id in the window has an owner
              && (reply.Served? <==> forall id :: w.first as int <= id < w.last as int ==> env.ownerOf(id).Ok?)
              && (reply.Served? ==>
                    && |calls| == 1 + p.limit as int
                    && |reply.value.tokens| == p.limit as int
                    && reply.value.totalSupply == env.totalSupply.value
                    && forall i :: 0 <= i < |reply.value.tokens| ==>
                         reply.value.tokens[i] == Token(w.first as int + i, env.ownerOf(w.first as int + i).value))
              // otherwise the error of the failing lookup, and no partial listing
              && (!reply.Served? ==>
                    && 2 <= |calls|
                    && env.ownerOf(w.first as int + |calls| - 2).Err?
                    && reply == Rejected(InvalidToken(env.ownerOf(w.first as int + |calls| - 2).error)))
  {
    var w := Window(p);
    if !env.connects(PublicRpc) {
      return Rejected(ConnectionProblems(ConnectionMessage)), [];
    }
    calls := [QueryTotalSupply];
    if env.totalSupply.Err? {
      return Aborted, calls;
    }
    var totalSupply := env.totalSupply.value;
    var tokens: seq<Token> := [];
    var n := w.first;
    while n < w.last
      invariant w.first <= n <= w.last
      invariant |tokens| == n as int - w.first as int && |calls| == 1 + |tokens|
      invariant calls[0] == QueryTotalSupply
      invariant forall i :: 1 <= i < |calls| ==> calls[i] == QueryOwnerOf(w.first as int + i - 1)
      invariant forall id :: w.first as int <= id < n as int ==> env.ownerOf(id).Ok?
      invariant forall i :: 0 <= i < |tokens| ==>
                  tokens[i] == Token(w.first as int + i, env.ownerOf(w.first as int + i).value)
    {
      var tokenId: nat := n as nat;
      calls := calls + [QueryOwnerOf(tokenId)];
      var owner := env.ownerOf(tokenId);
      if owner.Err? {
        return Rejected(InvalidToken(owner.error)), calls;
      }
      tokens := tokens + [Token(tokenId, owner.value)];
      n := n + 1;
    }
    reply := Served(TokensResponse(tokens, totalSupply));
  }

  /** `local_accounts`: every account of the local node with its balance, in the
      order the node lists them. */
  method LocalAccounts(env: Env) returns (reply: Reply<seq<AccountResponse>>, calls: seq<Call>)
    // every classified failure of this handler is a connection problem
    ensures reply.Rejected? ==> reply.error == ConnectionProblems(ConnectionMessage)
    ensures !env.connects(LocalRpc) ==> reply.Rejected? && calls == []
    ensures env.connects(LocalRpc) ==> 1 <= |calls| && calls[0] == ListAccounts
    ensures env.connects(LocalRpc) && env.accounts.Err? ==> reply.Rejected? && |calls| == 1
    ensures env.connects(LocalRpc) && env.accounts.Ok? ==>
              var accounts := env.accounts.value;
              // balances are queried for the accounts in their order, each once
              && |calls| <= 1 + |accounts|
              && (forall i :: 1 <= i < |calls| ==> calls[i] == QueryBalance(accounts[i - 1]))
              && (forall i :: 0 <= i < |calls| - 2 ==> env.balance(accounts[i]).Ok?)
              // served exactly when every balance query succeeds; one entry per account
              && (reply.Served? <==> forall i :: 0 <= i < |accounts| ==> env.balance(accounts[i]).Ok?)
              && (reply.Served? ==>
                    && |calls| == 1 + |accounts|
                    && |reply.value| == |accounts|
                    && forall i :: 0 <= i < |accounts| ==>
                         reply.value[i] == AccountResponse(accounts[i], env.balance(accounts[i]).value))
              // a failed balance query is the unwrap that aborts the request
              && (!reply.Served? ==>
                    && reply == Aborted
                    && 2 <= |calls|
                    && env.balance(accounts[|calls| - 2]).Err?)
  {
    if !env.connects(LocalRpc) {
      return Rejected(ConnectionProblems(ConnectionMessage)), [];
    }
    calls := [ListAccounts];
    if env.accounts.Err? {
      return Rejected(ConnectionProblems(ConnectionMessage)), calls;
    }
    var accounts := env.accounts.value;
    var entries: seq<AccountResponse> := [];
    for k := 0 to |accounts|
      invariant |entries| == k && |calls| == 1 + k
      invariant calls[0] == ListAccounts
      invariant forall i :: 1 <= i < |calls| ==> calls[i] == QueryBalance(accounts[i - 1])
      invariant forall i :: 0 <= i < k ==> env.balance(accounts[i]).Ok?
      invariant forall i :: 0 <= i < k ==>
                  entries[i] == AccountResponse(accounts[i], env.balance(accounts[i]).value)
    {
      var account := accounts[k];
      calls := calls + [QueryBalance(account)];
      var balance := env.balance(account);
      if balance.Err? {
        return Aborted, calls;
      }
      entries := entries + [AccountResponse(account, balance.value)];
    }
    reply := Served(entries);
  }

  /** Both token handlers report the same total supply for the same chain state:
      each takes it from the one `totalSupply` query it makes. */
  method SupplyAgrees(env: Env, id: i64, p: Pagination)
    returns (detail: Reply<TokenDetail>, listing: Reply<TokensResponse>)
    requires WindowFits(p)
    ensures detail.Served? && listing.Served? ==> detail.value.totalSupply == listing.value.totalSupply
    ensures detail.Served? ==> listing.Served? || listing.Rejected?
  {
    var detailCalls, listingCalls;
    detail, detailCalls := GetToken(env, id);
    listing, listingCalls := Tokens(env, p);
  }
}
