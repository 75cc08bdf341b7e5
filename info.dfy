// The background-script `accountInfo` action: fetch the connector, read the
// session's current account, ask the connector for node info and balance,
// and answer with a `{data}` or `{error}` envelope. Every exception on the
// way (a failed connector call, the artificial failure for an account named
// "LND") is caught and turned into the same error message.

module AccountInfoAction {
  import opened Js
  import opened ConnectorInterface

  /** The session's current account; only its name is used here. */
  datatype Account = Account(name: string)

  datatype ResultBalance = ResultBalance(balance: int, currency: string)

  /** `data` of a successful answer (an AccountInfoRes without connector type). */
  datatype InfoResult = InfoResult(
    currentAccountId: string,
    name: string,
    info: WebLNNode,
    balance: ResultBalance)

  /** Exactly one of `data` and `error` is present. */
  datatype Envelope = Data(data: InfoResult) | Error(error: string)

  const NoCurrentAccount: string := "No current account set"
  const FetchFailed: string := "fetching account info failed"
  const SimulatedFailureName: string := "LND"

  /** Some awaited connector call threw: getConnector, getInfo or getBalance. */
  predicate ConnectorFails(connector: Call<Connector>) {
    connector.Fail? || connector.data.getInfo.Fail? || connector.data.getBalance.Fail?
  }

  /** Both `currentAccount` and `currentAccountId` are truthy. */
  predicate HasCurrentAccount(currentAccountId: Option<string>, currentAccount: Option<Account>) {
    currentAccount.Some? && Truthy(currentAccountId)
  }

  /**
   * The action. `connector` is the outcome of `getConnector()` and, when it
   * succeeds, what the connector answers to getInfo() and getBalance();
   * `currentAccountId` and `currentAccount` are what the session holds.
   */
  function Info(connector: Call<Connector>, currentAccountId: Option<string>, currentAccount: Option<Account>): (r: Envelope)
    // the only two error messages
    ensures r.Error? ==> r.error == FetchFailed || r.error == NoCurrentAccount
    // a throwing connector call is caught, and it is checked before the account
    ensures ConnectorFails(connector) ==> r == Error(FetchFailed)
    ensures r == Error(NoCurrentAccount) <==>
              !ConnectorFails(connector) && !HasCurrentAccount(currentAccountId, currentAccount)
    // the hard-coded failure for an account named "LND"
    ensures (HasCurrentAccount(currentAccountId, currentAccount) && currentAccount.value.name == SimulatedFailureName)
              ==> r == Error(FetchFailed)
    ensures r.Data? <==>
              !ConnectorFails(connector) && HasCurrentAccount(currentAccountId, currentAccount)
              && currentAccount.value.name != SimulatedFailureName
    // a success passes the session's id and name and getInfo's data through
    // unchanged, and defaults the balance currency to BTC
    ensures r.Data? ==>
              && r.data.currentAccountId == currentAccountId.value
              && r.data.name == currentAccount.value.name
              && r.data.info == connector.data.getInfo.data
              && r.data.balance.balance == connector.data.getBalance.data.balance
              && r.data.balance.currency == CurrencyOrBtc(connector.data.getBalance.data.currency)
              && r.data.balance.currency != ""
  {
    match connector
    case Fail => Error(FetchFailed)
    case Ok(c) =>
      match (c.getInfo, c.getBalance)
      case (Ok(info), Ok(balance)) =>
        if currentAccount.None? || !Truthy(currentAccountId) then
          Error(NoCurrentAccount)
        else if currentAccount.value.name == SimulatedFailureName then
          Error(FetchFailed)
        else
          Data(InfoResult(
                 currentAccountId.value,
                 currentAccount.value.name,
                 info,
                 ResultBalance(balance.balance, CurrencyOrBtc(balance.currency))))
      case _ => Error(FetchFailed)
  }
}
