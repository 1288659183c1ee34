/** The wallet session: the process-wide store of the connection state, the
    connect, disconnect and start-up operations that update it, and the
    address formatter. What the wallet connector returns or throws is an
    input of each operation. */
module Wallet {
  import opened Outcomes
  import opened JsText

  /** A wallet account as the connector reports it: the `0x${string}` address
      type, so never the empty string. */
  type Address = s: string | |s| >= 2 && s[0] == '0' && s[1] == 'x' witness "0x"

  /** The record the store publishes (wallet.ts:6-11). */
  datatype WalletState = WalletState(address: string, isConnected: bool, isConnecting: bool, error: Option<string>)

  /** The store's value when the page loads. */
  const InitialWallet := WalletState("", false, false, None)

  const NoAccountsFound := "No accounts found"
  const ConnectFallbackMessage := "Failed to connect wallet"

  /** What `getAccount` reports about the connector's current account. */
  datatype Account = Account(isConnected: bool, address: Option<Address>)

  /** A connected session always shows an address. */
  predicate ConnectedHasAddress(s: WalletState)
  {
    s.isConnected ==> s.address != ""
  }

  /** The update published when a connect attempt begins. */
  function ConnectStarted(s: WalletState): WalletState
  {
    s.(isConnecting := true, error := None)
  }

  /** The update publishing the session of a connected account. */
  function SessionOpened(s: WalletState, address: string): WalletState
  {
    s.(address := address, isConnected := true)
  }

  /** The update published when a connect attempt ends with the first account. */
  function ConnectSucceeded(s: WalletState, address: Address): WalletState
  {
    SessionOpened(s, address).(isConnecting := false)
  }

  /** The update the `catch` clause of `connectWallet` publishes. */
  function ConnectFailed(s: WalletState, t: Thrown): WalletState
  {
    s.(isConnecting := false, error := Some(ErrorMessage(t, ConnectFallbackMessage)))
  }

  /** The update published after a successful `disconnect`. */
  function Disconnected(s: WalletState): WalletState
  {
    s.(address := "", isConnected := false)
  }

  /** The state a whole `connectWallet` call leaves behind; `result` is the
      list of accounts `connect` returned, or what it threw. */
  function ConnectOutcome(s: WalletState, result: Outcome<seq<Address>>): WalletState
  {
    var started := ConnectStarted(s);
    if result.Returned? && |result.value| > 0 then ConnectSucceeded(started, result.value[0])
    else ConnectFailed(started, if result.Threw? then result.thrown else ErrorObject(NoAccountsFound))
  }

  /** The state a whole `disconnectWallet` call leaves behind; `result` is
      how `disconnect` settled. */
  function DisconnectOutcome(s: WalletState, result: Outcome<()>): WalletState
  {
    if result.Returned? then Disconnected(s) else s
  }

  /** The state `initWallet` leaves behind. */
  function InitOutcome(s: WalletState, account: Account): WalletState
  {
    if account.isConnected && account.address.Some? && account.address.value != "" then
      SessionOpened(s, account.address.value)
    else
      s
  }

  /** `formatAddress`: empty for an empty address, else `address.slice(0, 6)`,
      an ellipsis and `address.slice(-4)`. A short address appears whole on
      both sides. */
  function FormatAddress(address: string): (r: string)
    ensures address == "" ==> r == ""
    ensures address != "" ==>
      var head, tail := Min(6, |address|), Min(4, |address|);
      && |r| == head + 3 + tail
      && r[..head] == address[..head]
      && r[head..head + 3] == "..."
      && r[head + 3..] == address[|address| - tail..]
  {
    if address == "" then ""
    else
      SlicePrefix(address, 6);
      SliceSuffix(address, 4);
      Slice(address, 0, 6) + "..." + SliceFrom(address, -4)
  }

  // ---------------------------------------------------------------------
  // Properties of the operations.

  /** Beginning a connect marks the session busy and clears the error; the
      address and the connected flag are untouched. */
  lemma ConnectStartedFrame(s: WalletState)
    ensures ConnectStarted(s).isConnecting && ConnectStarted(s).error.None?
    ensures ConnectStarted(s).(isConnecting := s.isConnecting, error := s.error) == s
  {
  }

  /** However a connect attempt ends, it does not leave `isConnecting` set;
      it reports no error exactly when the connector returned an account. */
  lemma ConnectNeverStaysConnecting(s: WalletState, result: Outcome<seq<Address>>)
    ensures !ConnectOutcome(s, result).isConnecting
    ensures ConnectOutcome(s, result).error.None? <==> result.Returned? && |result.value| > 0
  {
  }

  /** A connect with accounts takes the first one and marks the session connected. */
  lemma ConnectSuccess(s: WalletState, result: Outcome<seq<Address>>)
    requires result.Returned? && |result.value| > 0
    ensures ConnectOutcome(s, result).address == result.value[0]
    ensures ConnectOutcome(s, result).isConnected
  {
  }

  /** A connect without accounts, or one that threw, leaves the session
      (address and connected flag) as it was and reports the reason. */
  lemma ConnectFailure(s: WalletState, result: Outcome<seq<Address>>)
    requires !(result.Returned? && |result.value| > 0)
    ensures ConnectOutcome(s, result).address == s.address
    ensures ConnectOutcome(s, result).isConnected == s.isConnected
    ensures result.Returned? ==> ConnectOutcome(s, result).error == Some(NoAccountsFound)
    ensures result == Threw(NonError) ==> ConnectOutcome(s, result).error == Some(ConnectFallbackMessage)
    ensures result.Threw? && result.thrown.ErrorObject? ==>
      ConnectOutcome(s, result).error == Some(result.thrown.message)
  {
  }

  /** A disconnect that succeeded clears the session and nothing else; one
      that failed changes nothing. */
  lemma DisconnectClearsOnSuccess(s: WalletState, result: Outcome<()>)
    ensures result.Returned? ==>
      && DisconnectOutcome(s, result).address == ""
      && !DisconnectOutcome(s, result).isConnected
      && DisconnectOutcome(s, result).(address := s.address, isConnected := s.isConnected) == s
    ensures result.Threw? ==> DisconnectOutcome(s, result) == s
  {
  }

  /** Start-up changes the state only for a connected account with an
      address, and then shows that address as connected. */
  lemma InitOnlyWhenConnected(s: WalletState, account: Account)
    ensures InitOutcome(s, account) != s ==> account.isConnected && account.address.Some?
    ensures account.isConnected && account.address.Some? ==>
      InitOutcome(s, account).address == account.address.value && InitOutcome(s, account).isConnected
    ensures InitOutcome(s, account).error == s.error && InitOutcome(s, account).isConnecting == s.isConnecting
  {
  }

  /** No operation marks the session connected without an address. */
  lemma SessionKeepsAddress(s: WalletState, connect: Outcome<seq<Address>>, disconnect: Outcome<()>,
                            account: Account)
    requires ConnectedHasAddress(s)
    ensures ConnectedHasAddress(ConnectStarted(s))
    ensures ConnectedHasAddress(ConnectOutcome(s, connect))
    ensures ConnectedHasAddress(DisconnectOutcome(s, disconnect))
    ensures ConnectedHasAddress(InitOutcome(s, account))
  {
  }

  /** An address of at least ten characters is shown as thirteen: six, the
      ellipsis and four. An address of at most four characters is shown
      whole on both sides of the ellipsis. */
  lemma FormatAddressLengths(address: string)
    ensures |address| >= 10 ==> |FormatAddress(address)| == 13
    ensures 0 < |address| <= 4 ==> FormatAddress(address) == address + "..." + address
  {
    if 0 < |address| <= 4 {
      var r := FormatAddress(address);
      assert r == r[..|address|] + r[|address|..|address| + 3] + r[|address| + 3..];
    }
  }

  // ---------------------------------------------------------------------
  // The store.

  /** The process-wide `walletStore`. */
  class WalletStore {
    var state: WalletState

    ghost predicate Valid()
      reads this
    {
      ConnectedHasAddress(state)
    }

    constructor ()
      ensures state == InitialWallet && Valid()
    {
      state := InitialWallet;
    }

    /** `connectWallet()`: publishes the busy state, then the session or the error. */
    method ConnectWallet(result: Outcome<seq<Address>>)
      requires Valid()
      modifies this
      ensures Valid() && !state.isConnecting
      ensures state == ConnectOutcome(old(state), result)
    {
      state := ConnectStarted(state);
      var thrown: Option<Thrown> := None;
      if result.Threw? {
        thrown := Some(result.thrown);
      } else if |result.value| > 0 {
        state := ConnectSucceeded(state, result.value[0]);
      } else {
        thrown := Some(ErrorObject(NoAccountsFound));
      }
      if thrown.Some? {
        state := ConnectFailed(state, thrown.value);
      }
    }

    /** `disconnectWallet()`: clears the session once `disconnect` succeeded;
        a failure is only logged. */
    method DisconnectWallet(result: Outcome<()>)
      requires Valid()
      modifies this
      ensures Valid()
      ensures state == DisconnectOutcome(old(state), result)
    {
      if result.Returned? {
        state := Disconnected(state);
      }
    }

    /** `initWallet()`: adopts the connector's account when it is connected. */
    method InitWallet(account: Account)
      requires Valid()
      modifies this
      ensures Valid()
      ensures state == InitOutcome(old(state), account)
    {
      if account.isConnected && account.address.Some? && account.address.value != "" {
        state := SessionOpened(state, account.address.value);
      }
    }
  }
}
