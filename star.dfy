/**
 * The `Stelar` account object: its configuration, the balance list it keeps
 * after `GetWallet`, and the two lookups that scan that list.
 */
module Star {
  import opened Wrappers
  import opened Balances
  import opened Horizon

  /** The ledger network an address is read from. */
  datatype Network = Testnet | Public

  /** The SDK's account handle: which account, on which network. */
  datatype Address = Address(accountId: string, network: Network)

  /** The handle `get_wallet` builds: the SDK's default (test) network when
      `testnet` holds, the public network otherwise. */
  function SelectAddress(publicKey: string, testnet: bool): (a: Address)
    ensures a.accountId == publicKey
    ensures a.network == Public <==> !testnet
  {
    if testnet then Address(publicKey, Testnet) else Address(publicKey, Public)
  }

  class Stelar {
    const publicKey: string
    const testnet: bool
    const local: bool
    const dockerHorizon: string := "http://localhost:8000/friendbot?addr="
    const mainHorizon: string := "https://horizon-testnet.stellar.org/friendbot?addr="

    /** Set by `GetWallet`; `None` until then (the attribute does not exist yet). */
    var address: Option<Address>
    /** The balance list last fetched by `GetWallet`; `None` until then. */
    var wallet: Option<seq<Asset>>

    constructor (publicKey: string, testnet: bool := true, local: bool := false)
      ensures this.publicKey == publicKey && this.testnet == testnet && this.local == local
      ensures address == None && wallet == None
    {
      this.publicKey := publicKey;
      this.testnet := testnet;
      this.local := local;
      address := None;
      wallet := None;
    }

    /** Funds the account, then reads its balances and keeps them in `wallet`.
        `net` gives the outcome of each funding request and `ledger` the
        outcome of reading an address from the gateway. An exception from
        either step escapes: funding failures leave both fields as they were;
        a failed read has already replaced `address` but keeps `wallet`. */
    method GetWallet(net: Request -> Transport, ledger: Address -> Result<seq<Asset>, Exception>)
      returns (sent: seq<Request>, r: Result<seq<Asset>, Exception>)
      modifies this
      ensures var f := Fund(local, dockerHorizon, mainHorizon, publicKey, net);
              var a := SelectAddress(publicKey, testnet);
              && sent == f.sent
              && r == (if f.outcome.Raised? then Failure(f.outcome.error) else ledger(a))
              && address == (if f.outcome.Raised? then old(address) else Some(a))
      ensures wallet == if r.Success? then Some(r.value) else old(wallet)
    {
      var f := Fund(local, dockerHorizon, mainHorizon, publicKey, net);
      sent := f.sent;
      if f.outcome.Raised? {
        return sent, Failure(f.outcome.error);
      }
      var a := SelectAddress(publicKey, testnet);
      address := Some(a);
      r := ledger(a);
      if r.Success? {
        wallet := Some(r.value);
      }
    }

    /** The balance of the first native entry of `wallet`, `None` when it has
        none; scans the list and stops at the first match. */
    method GetNativeBalance() returns (r: Option<string>)
      requires wallet.Some?
      ensures r == NativeBalance(wallet.value)
    {
      var entries := wallet.value;
      for i := 0 to |entries|
        invariant NativeBalance(entries[i..]) == NativeBalance(entries)
      {
        if entries[i].assetType == Some(Native) {
          return entries[i].balance;
        }
        assert entries[i..][1..] == entries[i + 1..];
      }
      return None;
    }

    /** The first entry of `wallet` holding `token`, as its balance followed by
        " token"; "Token not found." when there is none. Scans the list and
        stops at the first match. */
    method GetTokenBalance(token: string) returns (r: Result<string, LookupError>)
      requires wallet.Some?
      ensures r == TokenBalance(wallet.value, token)
    {
      var entries := wallet.value;
      for i := 0 to |entries|
        invariant TokenBalance(entries[i..], token) == TokenBalance(entries, token)
      {
        if entries[i].assetCode == Some(token) {
          match entries[i].balance
          case None => return Failure(TypeError);
          case Some(b) => return Success(b + TokenSuffix);
        }
        assert entries[i..][1..] == entries[i + 1..];
      }
      return Success(TokenNotFound);
    }
  }
}
