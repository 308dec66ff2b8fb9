# NFT query gateway — Dafny model

This project models the query gateway of a read-only HTTP service that exposes one
NFT contract on a public chain, together with a diagnostic endpoint for a local node.
It covers three handlers:

- `owner_of` looks up one token's owner, URI, collection name and total supply.
- `tokens` lists the owners of one page of token ids.
- `local_accounts` lists the local node's accounts with their balances.

It also covers the error classifier, which maps the two failure kinds to an HTTP
status and a JSON error body.

The chain is an oracle, `Chain.Env`, fixed for one request. It says:

- whether a transport can be built for an endpoint URL;
- what the `name`, `totalSupply`, `ownerOf` and `tokenURI` contract queries return;
- what the local node's `accounts` and `balance` requests return.

Every handler is a method. It returns its reply and `calls`, the remote calls it made,
in order. Through `calls` the contracts can state how many ids a listing scans, which
ones, in what order, and that nothing is queried after a failure. A reply is one of:

- `Served`: the JSON body;
- `Rejected`: a classified `CustomResponseErrors`;
- `Aborted`: a panic, either an `unwrap()` or the conversion of a negative token id,
  which is an unclassified abort, not a
  classified error.

Modules:

- `Chain` (`chain.dfy`): the oracle, addresses, the remote calls, the two endpoint URLs.
- `ResponseErrors` (`response_errors.dfy`): `CustomResponseErrors`, `status_code`,
  `name`, `error_response`.
- `Pagination` (`pagination.dfy`): the `u32` query parameters, their default, the id
  window and how the windows of successive pages tile the token ids.
- `Gateway` (`gateway.dfy`): the three handlers.

Two behaviours of the code are modelled as written:

- The `unwrap()` calls on `name`, `totalSupply` and `tokenURI` in `owner_of`, and on
  `balance` in `local_accounts`, panic when the call fails. Such a failure is `Aborted`,
  an outcome separate from the classified errors.
- `Pagination` derives `Deserialize` without `#[serde(default)]`. `web::Query` therefore
  never uses its `Default` implementation: a request without `page` and `limit` fails to
  extract, and does not fall back to page 1, limit 10. `DefaultPagination` models the
  `Default` implementation itself.

## Model

| member | source | states |
|---|---|---|
| `ResponseErrors.StatusCode` | src/main.rs:33-39 | A missing token (`InvalidToken`) is a client error, exactly 404. An unreachable chain (`ConnectionProblems`) is a server error, exactly 500. Each holds in both directions. |
| `ResponseErrors.Name` | src/main.rs:19-24 | `name()` is the wrapped error's own text: an error is determined by its kind together with its name. |
| `ResponseErrors.Message` | src/main.rs:27-31 | The display of an error is the display of its status code: "404 Not Found" for status 404, "500 Internal Server Error" for status 500. |
| `ResponseErrors.ToHttpResponse` | src/main.rs:41-50 | The response status and the body's `code` agree and equal the classified status. `error` is `name()`, the wrapped error's text. `message` is the status's display. The status is 404 iff `InvalidToken` and 500 iff `ConnectionProblems`. |
| `ResponseErrors.ErrorResponseRoundTrip` | src/main.rs:19-24 | The error body keeps the error's kind and the wrapped error's text: both can be read back from it. |
| `ResponseErrors.MessageDependsOnlyOnStatus` | src/main.rs:27-31 | The `message` field is determined by the status code alone. |
| `Pagination.DefaultPagination` | src/main.rs:78-85 | The default parameters are valid and select token ids 1 to 10. |
| `Pagination.Window` | src/main.rs:151-152 | Computed in `u32`: the window starts at `(page - 1) * limit + 1` (at least 1) and holds exactly `limit` ids, with no wrap-around. |
| `Pagination.SampleWindows` | src/main.rs:151-152 | Page 1 with limit 10 is ids 1..10. Page 2 with limit 5 is ids 6..10. |
| `Pagination.PagesAreAdjacent` | src/main.rs:151-152 | Each page's window starts where the previous page's ends, so there are no gaps or overlaps between pages. |
| `Pagination.IdLiesOnItsPage` | src/main.rs:151-152 | A positive token id lies in the window of page `(id - 1) / limit + 1`. |
| `Pagination.PageOfIdIsUnique` | src/main.rs:151-152 | A token id in a page's window determines that page: it is `(id - 1) / limit + 1`. |
| `Pagination.EachIdOnExactlyOnePage` | src/main.rs:151-152 | For any page size of at least 1, a positive token id lies in a page's window iff that page is `(id - 1) / limit + 1`. |
| `Gateway.GetToken` | src/main.rs:93-145 | Calls follow the order name, totalSupply, ownerOf, tokenURI and stop at the first failure. A failed `name` aborts after that one call; a failed `totalSupply` or a negative id aborts after two calls; a failed `tokenURI` aborts after all four. No transport iff `ConnectionProblems`, and then nothing is queried. `InvalidToken` iff every call before the ownership lookup succeeded and the lookup failed; the error is the lookup's own, and tokenURI is not queried. Served iff every query succeeds; the owner, URI, name and supply are then exactly the oracle's. |
| `Gateway.Tokens` | src/main.rs:147-197 | No transport: `ConnectionProblems`, and nothing is queried. `totalSupply` is queried once, first; if it fails, the request aborts. Otherwise the i-th id queried is `first + i`, ascending, at most `limit` of them, and all but the last succeeded. Served iff every id in the window has an owner; then there are exactly `limit` entries, each pairing its id with the oracle's owner, plus the pre-loop total supply. Otherwise `InvalidToken` with the last queried lookup's error, no partial list, and no later id queried. |
| `Gateway.LocalAccounts` | src/main.rs:199-236 | Every classified failure is `ConnectionProblems`: no transport means no calls; a failed accounts request means that one call was made. Otherwise balances are queried in account order. Served iff every balance query succeeds; then there is one entry per account, in order, each with that account's balance. A failed balance query is the aborting `unwrap`, and no later account is queried. |
| `Gateway.SupplyAgrees` | src/main.rs:165-168 | For the same chain state, a successful single-token lookup and a successful listing report the same total supply. A successful lookup means the listing does not abort. |

## Left out

- HTTP routing, the server bootstrap `main`, the `index` route and JSON serialisation: plumbing of the web framework (src/main.rs:238-257).
- The web3 transport, `Contract::from_json`, ABI loading and `Address::from_str`: foreign library calls. What a transport or a query yields is part of the oracle. The two `unwrap()` calls on the fixed contract address and the packaged ABI are taken to succeed.
- async/await: each handler is modelled as a sequential method.
- The `println!` in `local_accounts`: console output.
- The chain state is fixed for the length of one request. Changes to the chain between two calls of the same request are not modelled.
- `web3::contract::Error` and `web3::Error` are modelled by their display text only.
- U256 width: token ids, the total supply and balances are naturals. `U256::from(u32)` cannot overflow. The `i64` path parameter of the single-token route is modelled, and a negative id is the conversion panic (`Aborted`).
- Tokens: requires `page >= 1` and that the window's end fits in `u32`. Outside that range the source's arithmetic underflows or overflows, which panics in a debug build and wraps in a release build; neither behaviour is modelled.
- Window: has the same precondition as `Tokens`, for the same reason.
- The `message` text comes from the HTTP library's rendering of the status code. It is written out only for the two codes the classifier produces (404 and 500).
