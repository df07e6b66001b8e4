# Stellar account client — balance resolution model

This project models the `Stelar` account class of a small Stellar payment
client (`star.py`). The model covers four things:

- the configuration the object is built with;
- the funding ("friendbot") step, with its fallback from a local sandbox
  gateway to the public test-network gateway;
- the choice of ledger network for the account read, and the balance list
  the object keeps in its `wallet` field;
- the two lookups that scan that list: the native (lumen) balance and a
  token's balance by asset code.

Modules:

- `Wrappers` (`wrappers.dfy`): `Option` (Python's `None`) and `Result` (a
  value, or the exception a call raised).
- `Balances` (`balances.dfy`): a balance entry `Asset`, whose fields hold what
  `dict.get` yields for `asset_type`, `asset_code` and `balance`. It also holds
  the lookup specifications `NativeBalance` and `TokenBalance`, the projection
  `GetBalance` that models `Stelar.get_balance` (the specification functions
  `NativeBalance` and `TokenReply` use it to read an entry's balance), and the
  lemmas that say what the lookups promise.
- `Horizon` (`horizon.dfy`): HTTP requests and their outcomes, and the funding
  decision `Fund`.
- `Star` (`star.py`'s class, in `star.dfy`): the class `Stelar`, with fields
  `publicKey`, `testnet`, `local`, the two gateway URLs, `address` and `wallet`.
  `GetWallet` updates `address` and `wallet`. `GetNativeBalance` and
  `GetTokenBalance` are the source's `for` loops with early return, each proved
  equal to its specification function.

The network is a parameter. `GetWallet` takes `net`, which gives the outcome of
each funding request (`Responded`, or the exception raised), and `ledger`,
which gives the outcome of reading an account on a network. Each URL is
requested at most once per call, so every combination of outcomes is some
`net`.

Behaviour of `get_wallet` and `get_token_balance` worth noting:

- A token that is not held yields the literal string `"Token not found."`.
  `TokenNotFoundIff` proves this answer is never confused with a found
  balance, which always ends in `" token"`.
- The fallback fires only on `requests`' `ConnectionError`. A connect timeout
  is one; a read timeout or any other exception from the sandbox attempt
  escapes with no fallback request.
- An exception from a funding request escapes `get_wallet` before the balance
  read. If both attempts fail, the fallback's exception escapes.
- The funding URLs never depend on `testnet`; the remote one is always the
  test-network friendbot (star.py:42).

## Model

| member | source | states |
|---|---|---|
| `Star.Stelar.constructor` | star.py:37-42 | stores the public key and the `testnet`/`local` flags (defaults true and false); no address or balance list exists yet |
| `Horizon.Fund` | star.py:51-57 | one or two requests. The first goes to the sandbox URL with timeout 2 when `local`, else to the main URL with no timeout. A second request happens iff `local` and the first raised ConnectionError, and it goes to the main URL. The outcome, or the escaping exception, is that of the last request |
| `Horizon.MainRequestedAtMostOnce` | star.py:51-57 | the main gateway is requested at most once; it is requested iff the object is not local or the sandbox attempt raised ConnectionError |
| `Star.SelectAddress` | star.py:59-62 | the account handle is for the object's public key; its network is public iff `testnet` is false, otherwise the default test network |
| `Star.Stelar.GetWallet` | star.py:44-66 | the requests sent are exactly the funding step's. A funding exception escapes and leaves `address` and `wallet` unchanged. Otherwise `address` becomes the selected handle and the read's outcome is returned. On success, `wallet` holds exactly the returned list; on failure it is unchanged |
| `Star.Stelar.GetNativeBalance` | star.py:68-74 | the loop returns `NativeBalance` of the stored list and leaves the object unchanged |
| `Star.Stelar.GetTokenBalance` | star.py:76-83 | the loop returns `TokenBalance` of the stored list for the token and leaves the object unchanged |
| `Balances.GetBalance` | star.py:85-86 | `get_balance` is the projection `entry.balance` and has no contract of its own; the answers of both lookups are stated through it by `NativeBalanceIsFirstMatch` and `TokenBalanceIsFirstMatch` |
| `Balances.TokenReply` | star.py:81-82 | the reply for a matched entry is a TypeError iff it has no balance; otherwise it is the entry's balance followed by " token", and it never equals "Token not found." |
| `Balances.NativeBalanceIsFirstMatch` | star.py:72-74 | if entry i is the first native entry, the native balance is the `balance` of entry i; later native entries are ignored |
| `Balances.NativeBalanceAbsent` | star.py:72-74 | with no native entry, the empty list included, the native balance is absent (`None`) |
| `Balances.NativeBalanceFound` | star.py:72-74 | every native balance returned is the balance of some native entry |
| `Balances.NativeBalanceIgnoresNonNative` | star.py:72-74 | two lists with the same native entries in the same order have the same native balance, so non-native entries can be inserted, removed or reordered freely |
| `Balances.NativeBalanceInsertNonNative` | star.py:72-74 | inserting a non-native entry at any position leaves the native balance unchanged |
| `Balances.TokenBalanceIsFirstMatch` | star.py:80-82 | if entry i is the first whose asset code equals the token, the answer is entry i's balance followed by " token" |
| `Balances.TokenNotFoundIff` | star.py:80-83 | the answer is exactly "Token not found." iff no entry's asset code equals the token |
| `Balances.TokenBalanceOfUncoded` | star.py:80-83 | entries without an asset code, native ones included, never match: such a list yields "Token not found." for every token |
| `Balances.TokenBalanceInsertOther` | star.py:80-83 | inserting an entry whose asset code is not the token, at any position, leaves the answer unchanged |

## Left out

- `GetKeys` (star.py:10-33): seed generation and address derivation are calls into the Stellar SDK's keypair cryptography, which is not part of this model; the method otherwise only prints.
- `send_stellar` (star.py:127-145): builds, signs and submits a transaction entirely through the SDK's `Builder`. The code does no validation of its own (no amount or memo-length check), so there is no logic of its own to model.
- The HTTP calls and `Address.get()` (star.py:53-64) are I/O. They are replaced by the `net` and `ledger` parameters of `GetWallet`. Timeouts and latency are recorded only as the timeout value in each `Request`.
- `loop_balance` (star.py:88-101): an endless polling loop of `sleep`, screen clearing and printing.
- `demo_balance`, `run_as_standalone` and the `__main__` entry (star.py:103-151): demo output only.
- Star.Stelar.GetWallet: the returned list and `self.wallet` are the same Python object. The model keeps them as equal values, so aliasing, where a caller that mutates the returned list also changes `wallet`, is not captured.
- Star.Stelar.GetNativeBalance: requires `wallet` to have been fetched. In Python, calling the lookup before `get_wallet` raises AttributeError; the model does not include that exception.
- Star.Stelar.GetTokenBalance: requires `wallet` to have been fetched. In Python, calling the lookup before `get_wallet` raises AttributeError; the model does not include that exception.
- Star.Stelar.GetTokenBalance: the token is a string. Python would also accept `None`, which would then match the first entry with no asset code.
- Balances.GetBalance: `Asset.balance` already holds what `dict.get("balance")` returns, so the projection promises nothing beyond its body and carries no contract.
- Balance entries keep only `asset_type`, `asset_code` and `balance`. The gateway's other keys (limits, liabilities, issuer) are never read by this code.
- Exceptions are told apart only as ConnectionError versus any other, because that is the only distinction `get_wallet` makes.
