/**
 * The balance list of an account and the two lookups over it: the native
 * (lumen) balance and the balance of a token given by its asset code.
 *
 * `NativeBalance` and `TokenBalance` are the specifications of the lookup
 * loops of the `Stelar` class (module Star); the lemmas below say what they
 * promise: first match wins, a distinguishable answer when nothing matches,
 * and entries that cannot match never influence the answer.
 */
module Balances {
  import opened Wrappers

  /** One entry of the `balances` list the gateway returns for an account.
      Each field holds what `dict.get` yields for its key: `None` when the key
      is missing (a native entry has no `asset_code`). */
  datatype Asset = Asset(assetType: Option<string>, assetCode: Option<string>, balance: Option<string>)

  /** The exception a token lookup raises when the matching entry has no
      balance: Python refuses to append a string to `None`. */
  datatype LookupError = TypeError

  const Native: string := "native"
  const TokenSuffix: string := " token"
  const TokenNotFound: string := "Token not found."

  predicate IsNative(a: Asset) {
    a.assetType == Some(Native)
  }

  /** `asset.get('asset_code') == token` for a string `token`: an entry
      without an asset code never matches. */
  predicate HoldsToken(a: Asset, token: string) {
    a.assetCode == Some(token)
  }

  /** `Stelar.get_balance`: the `balance` field of one entry, as `dict.get`
      reads it. */
  function GetBalance(entry: Asset): Option<string> {
    entry.balance
  }

  /** The balance of the first native entry; `None` when there is none. */
  function NativeBalance(wallet: seq<Asset>): Option<string> {
    if wallet == [] then None
    else if IsNative(wallet[0]) then GetBalance(wallet[0])
    else NativeBalance(wallet[1..])
  }

  /** What the token lookup answers for the entry that matched: its balance
      labelled with the unit suffix, or a TypeError when it has no balance.
      Such an answer can never be mistaken for the not-found sentinel. */
  function TokenReply(entry: Asset): (r: Result<string, LookupError>)
    ensures r.Failure? <==> entry.balance == None
    ensures r.Success? ==> |TokenSuffix| <= |r.value| && r.value[|r.value| - |TokenSuffix|..] == TokenSuffix
    ensures r.Success? ==> entry.balance == Some(r.value[..|r.value| - |TokenSuffix|])
    ensures r != Success(TokenNotFound)
  {
    match GetBalance(entry)
    case None => Failure(TypeError)
    case Some(b) =>
      var s := b + TokenSuffix;
      assert s[|s| - |TokenSuffix|..] == TokenSuffix && s[..|s| - |TokenSuffix|] == b;
      assert |s| == |TokenNotFound| ==> s[|s| - 1] != TokenNotFound[|TokenNotFound| - 1];
      Success(s)
  }

  /** The reply for the first entry holding `token`; the sentinel
      `TokenNotFound` when no entry holds it. */
  function TokenBalance(wallet: seq<Asset>, token: string): Result<string, LookupError> {
    if wallet == [] then Success(TokenNotFound)
    else if HoldsToken(wallet[0], token) then TokenReply(wallet[0])
    else TokenBalance(wallet[1..], token)
  }

  /** The native entries of a balance list, in their order: an entry is kept
      exactly when it is native. */
  function NativeEntries(wallet: seq<Asset>): (r: seq<Asset>)
    ensures forall a :: a in r <==> a in wallet && IsNative(a)
  {
    if wallet == [] then []
    else (if IsNative(wallet[0]) then [wallet[0]] else []) + NativeEntries(wallet[1..])
  }

  // ---------------------------------------------------------------------------
  // Native balance

  /** The native balance is the balance of the first native entry: any later
      native entry is ignored. */
  lemma {:induction false} NativeBalanceIsFirstMatch(wallet: seq<Asset>, i: nat)
    requires i < |wallet| && IsNative(wallet[i])
    requires forall j :: 0 <= j < i ==> !IsNative(wallet[j])
    ensures NativeBalance(wallet) == GetBalance(wallet[i])
  {
    if i > 0 {
      assert forall j :: 0 <= j < i - 1 ==> wallet[1..][j] == wallet[j + 1];
      NativeBalanceIsFirstMatch(wallet[1..], i - 1);
    }
  }

  /** Without a native entry, the empty list included, the lookup answers `None`. */
  lemma {:induction false} NativeBalanceAbsent(wallet: seq<Asset>)
    requires forall a :: a in wallet ==> !IsNative(a)
    ensures NativeBalance(wallet) == None
  {
    if wallet != [] {
      assert forall a :: a in wallet[1..] ==> a in wallet;
      NativeBalanceAbsent(wallet[1..]);
    }
  }

  /** Every balance the lookup reports is that of some native entry. */
  lemma {:induction false} NativeBalanceFound(wallet: seq<Asset>)
    requires NativeBalance(wallet).Some?
    ensures exists i :: 0 <= i < |wallet| && IsNative(wallet[i]) && GetBalance(wallet[i]) == NativeBalance(wallet)
  {
    if !IsNative(wallet[0]) {
      NativeBalanceFound(wallet[1..]);
      var i :| 0 <= i < |wallet[1..]| && IsNative(wallet[1..][i]) && GetBalance(wallet[1..][i]) == NativeBalance(wallet[1..]);
      assert wallet[1..][i] == wallet[i + 1];
    }
  }

  lemma {:induction false} NativeEntriesAppend(u: seq<Asset>, v: seq<Asset>)
    ensures NativeEntries(u + v) == NativeEntries(u) + NativeEntries(v)
  {
    if u == [] {
      assert u + v == v;
    } else {
      assert (u + v)[0] == u[0] && (u + v)[1..] == u[1..] + v;
      NativeEntriesAppend(u[1..], v);
    }
  }

  /** Dropping every non-native entry does not change the native balance. */
  lemma {:induction false} NativeBalanceOfNativeEntries(wallet: seq<Asset>)
    ensures NativeBalance(NativeEntries(wallet)) == NativeBalance(wallet)
  {
    if wallet != [] {
      NativeBalanceOfNativeEntries(wallet[1..]);
      if IsNative(wallet[0]) {
        assert NativeEntries(wallet)[0] == wallet[0];
      } else {
        assert NativeEntries(wallet) == NativeEntries(wallet[1..]);
      }
    }
  }

  /** Two balance lists with the same native entries in the same order have
      the same native balance: inserting, removing or reordering non-native
      entries never changes it. */
  lemma NativeBalanceIgnoresNonNative(wallet: seq<Asset>, wallet': seq<Asset>)
    requires NativeEntries(wallet) == NativeEntries(wallet')
    ensures NativeBalance(wallet) == NativeBalance(wallet')
  {
    NativeBalanceOfNativeEntries(wallet);
    NativeBalanceOfNativeEntries(wallet');
  }

  /** Inserting a non-native entry anywhere leaves the native balance as it was. */
  lemma {:induction false} NativeBalanceInsertNonNative(wallet: seq<Asset>, k: nat, a: Asset)
    requires k <= |wallet| && !IsNative(a)
    ensures NativeBalance(wallet[..k] + [a] + wallet[k..]) == NativeBalance(wallet)
  {
    if k > 0 {
      NativeBalanceInsertNonNative(wallet[1..], k - 1, a);
      assert (wallet[..k] + [a] + wallet[k..])[1..] == wallet[1..][..k - 1] + [a] + wallet[1..][k - 1..];
    } else {
      assert (wallet[..k] + [a] + wallet[k..])[1..] == wallet;
    }
  }

  // ---------------------------------------------------------------------------
  // Token balance

  /** The token balance is the reply for the first entry holding the token. */
  lemma {:induction false} TokenBalanceIsFirstMatch(wallet: seq<Asset>, token: string, i: nat)
    requires i < |wallet| && HoldsToken(wallet[i], token)
    requires forall j :: 0 <= j < i ==> !HoldsToken(wallet[j], token)
    ensures TokenBalance(wallet, token) == TokenReply(wallet[i])
  {
    if i > 0 {
      assert forall j :: 0 <= j < i - 1 ==> wallet[1..][j] == wallet[j + 1];
      TokenBalanceIsFirstMatch(wallet[1..], token, i - 1);
    }
  }

  /** The lookup answers exactly the sentinel `TokenNotFound` if and only if
      no entry holds the token. */
  lemma {:induction false} TokenNotFoundIff(wallet: seq<Asset>, token: string)
    ensures TokenBalance(wallet, token) == Success(TokenNotFound) <==> forall a :: a in wallet ==> !HoldsToken(a, token)
  {
    if wallet != [] {
      TokenNotFoundIff(wallet[1..], token);
      assert forall a :: a in wallet <==> a == wallet[0] || a in wallet[1..];
    }
  }

  /** Entries without an asset code, native entries among them, never match:
      a list made only of such entries yields the sentinel for every token. */
  lemma {:induction false} TokenBalanceOfUncoded(wallet: seq<Asset>, token: string)
    requires forall a :: a in wallet ==> a.assetCode == None
    ensures TokenBalance(wallet, token) == Success(TokenNotFound)
  {
    TokenNotFoundIff(wallet, token);
  }

  /** Inserting an entry that does not hold the token, anywhere in the list,
      leaves the token lookup as it was. */
  lemma {:induction false} TokenBalanceInsertOther(wallet: seq<Asset>, k: nat, a: Asset, token: string)
    requires k <= |wallet| && !HoldsToken(a, token)
    ensures TokenBalance(wallet[..k] + [a] + wallet[k..], token) == TokenBalance(wallet, token)
  {
    if k > 0 {
      TokenBalanceInsertOther(wallet[1..], k - 1, a, token);
      assert (wallet[..k] + [a] + wallet[k..])[1..] == wallet[1..][..k - 1] + [a] + wallet[1..][k - 1..];
    } else {
      assert (wallet[..k] + [a] + wallet[k..])[1..] == wallet;
    }
  }
}
