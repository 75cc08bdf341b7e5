// Response shapes of the connector protocol that the account-info action
// consumes (WebLNNode, GetBalanceResponse), and the outcome of an awaited
// call into a connector.

module ConnectorInterface {
  import opened Js

  /** Node identity returned by getInfo(). */
  datatype WebLNNode = WebLNNode(alias: string, pubkey: Option<string>, color: Option<string>)

  /** `data` of getBalance(); the currency is optional. */
  datatype BalanceData = BalanceData(balance: int, currency: Option<string>)

  /** An awaited call: it yields its data or throws. */
  datatype Call<+T> = Ok(data: T) | Fail

  /** What the live connector answers to the two calls the action makes. */
  datatype Connector = Connector(getInfo: Call<WebLNNode>, getBalance: Call<BalanceData>)
}
