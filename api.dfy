// Client side of the account-info query: `swrGetAccountInfo`, the
// stale-while-revalidate wrapper around the `accountInfo` request.
//
// One call reads the whole accounts cache, serves the cached entry for `id`
// (callback + resolve) unless told to skip it, then requests fresh info,
// builds a snapshot from the answer, writes "the map it read, plus `id`"
// back when the answer carries no error, calls the callback again and
// resolves again; a transport failure rejects. The promise keeps only its
// first settlement.
//
// The pure functions below give the meaning of one call; the classes run it
// step by step over a cache shared between calls, so that two calls can be
// interleaved.

module Api {
  import opened Js

  // ---------------------------------------------------------------------
  // The answer of the `accountInfo` request (AccountInfoRes)
  // ---------------------------------------------------------------------

  /** `balance: string | number` */
  datatype Balance = Number(amount: int) | Text(text: string)

  /** The currency is modelled as optional so that "absent" can be stated. */
  datatype ResBalance = ResBalance(balance: Balance, currency: Option<string>)

  datatype ResNodeInfo = ResNodeInfo(alias: string, pubkey: Option<string>, lightningAddress: Option<string>)

  datatype AccountInfoRes = AccountInfoRes(
    connectorType: string,
    balance: ResBalance,
    currentAccountId: string,
    info: ResNodeInfo,
    name: string,
    avatarUrl: Option<string>,
    error: Option<string>)

  // ---------------------------------------------------------------------
  // Snapshots (AccountInfo), the values kept in the cache and handed to the
  // callback
  // ---------------------------------------------------------------------

  datatype AccountInfo =
    | ErrorSnapshot(id: string, name: string, connectorType: string, error: string)
    | FullSnapshot(
        id: string,
        name: string,
        connectorType: string,
        alias: string,
        balance: JsNumber,
        currency: string,
        avatarUrl: Option<string>)

  /** What the request yields: the answer, or a rejection of the transport. */
  datatype FetchResult = TransportFailure(reason: string) | Envelope(response: AccountInfoRes)

  /** How the returned promise settles. */
  datatype Outcome = Resolved(account: AccountInfo) | Rejected(reason: string)

  /** A number is taken as it is; a string goes through parseInt. */
  function NormaliseBalance(b: Balance): (n: JsNumber)
    ensures b.Number? ==> n == Num(b.amount)
    ensures b.Text? ==> n == ParseInt(b.text)
  {
    match b
    case Number(amount) => Num(amount)
    case Text(text) => ParseInt(text)
  }

  /** A balance sent as the text of an integer means the same as that integer. */
  lemma NormaliseBalanceTextAgrees(k: int)
    ensures NormaliseBalance(Text(IntToString(k))) == NormaliseBalance(Number(k))
  {
    ParseIntOfToString(k);
  }

  /** The snapshot built from an answer for account `id`. */
  function Snapshot(id: string, res: AccountInfoRes): (a: AccountInfo)
    ensures a.id == id && a.name == res.name && a.connectorType == res.connectorType
    ensures a.ErrorSnapshot? <==> Truthy(res.error)
    ensures a.ErrorSnapshot? ==> a.error == res.error.value && a.error != ""
    ensures a.FullSnapshot? ==>
              && a.alias == res.info.alias
              && a.balance == NormaliseBalance(res.balance.balance)
              && a.currency == CurrencyOrBtc(res.balance.currency)
              && a.currency != ""
              && a.avatarUrl == res.avatarUrl
  {
    if Truthy(res.error) then
      ErrorSnapshot(id, res.name, res.connectorType, res.error.value)
    else
      FullSnapshot(
        id,
        res.name,
        res.connectorType,
        res.info.alias,
        NormaliseBalance(res.balance.balance),
        CurrencyOrBtc(res.balance.currency),
        res.avatarUrl)
  }

  /** `{...accountsCache, [id]: account}`: the map that was read, with `id` replaced. */
  function WriteBack(read: map<string, AccountInfo>, id: string, account: AccountInfo): (m: map<string, AccountInfo>)
    ensures m.Keys == read.Keys + {id}
    ensures m[id] == account
    ensures forall k :: k in read && k != id ==> m[k] == read[k]
  {
    read[id := account]
  }

  /** A promise's settlement cell: only the first resolve or reject takes effect. */
  function Settle(cell: Option<Outcome>, o: Outcome): (r: Option<Outcome>)
    ensures r.Some?
    ensures cell.Some? ==> r == cell
    ensures cell.None? ==> r == Some(o)
  {
    if cell.None? then Some(o) else cell
  }

  lemma SettleIsFinal(cell: Option<Outcome>, first: Outcome, later: Outcome)
    ensures Settle(Settle(cell, first), later) == Settle(cell, first)
  {
  }

  // ---------------------------------------------------------------------
  // The meaning of one call, as a trace of what the caller observes
  // ---------------------------------------------------------------------

  /** Callback arguments in order, the promise's settlement, and the map stored, if any. */
  datatype Trace = Trace(
    callbacks: seq<AccountInfo>,
    settled: Option<Outcome>,
    stored: Option<map<string, AccountInfo>>)

  /** The part that runs as soon as the cache has been read. */
  function ServeStale(read: map<string, AccountInfo>, id: string, skipCache: bool): (t: Trace)
    ensures t.stored == None
    ensures t.callbacks != [] <==> !skipCache && id in read
    ensures t.callbacks != [] ==> t.callbacks == [read[id]] && t.settled == Some(Resolved(read[id]))
    ensures t.callbacks == [] ==> t.settled == None
  {
    if !skipCache && id in read then Trace([read[id]], Some(Resolved(read[id])), None)
    else Trace([], None, None)
  }

  /** The part that runs when the request settles. */
  function Revalidate(t: Trace, read: map<string, AccountInfo>, id: string, fetch: FetchResult): (r: Trace)
    // the log only grows, by the fresh snapshot when there is an answer
    ensures t.callbacks <= r.callbacks && |r.callbacks| <= |t.callbacks| + 1
    ensures |r.callbacks| == |t.callbacks| + 1 <==> fetch.Envelope?
    ensures fetch.Envelope? ==> r.callbacks[|t.callbacks|] == Snapshot(id, fetch.response)
    // the promise is settled afterwards, and an earlier settlement is kept
    ensures r.settled.Some? && (t.settled.Some? ==> r.settled == t.settled)
    // only an answer without error is stored, as the read map with id replaced
    ensures r.stored != t.stored ==> fetch.Envelope? && !Truthy(fetch.response.error)
    ensures fetch.Envelope? && !Truthy(fetch.response.error) ==>
              r.stored == Some(WriteBack(read, id, Snapshot(id, fetch.response)))
  {
    match fetch
    case TransportFailure(reason) => t.(settled := Settle(t.settled, Rejected(reason)))
    case Envelope(res) =>
      var account := Snapshot(id, res);
      Trace(
        t.callbacks + [account],
        Settle(t.settled, Resolved(account)),
        if Truthy(res.error) then t.stored else Some(WriteBack(read, id, account)))
  }

  /** A whole call that read `read` from the cache and whose request gave `fetch`. */
  function SwrRun(read: map<string, AccountInfo>, id: string, skipCache: bool, fetch: FetchResult): (t: Trace)
    ensures |t.callbacks| <= 2 && (fetch.Envelope? ==> |t.callbacks| >= 1)
    ensures t.settled.Some?
    ensures t.stored.Some? <==> fetch.Envelope? && !Truthy(fetch.response.error)
    ensures t.stored.Some? ==> t.stored.value.Keys == read.Keys + {id}
  {
    Revalidate(ServeStale(read, id, skipCache), read, id, fetch)
  }

  /** A cached entry, unless skipped, is the first thing the callback sees and the promise's value. */
  lemma StaleServedFirst(read: map<string, AccountInfo>, id: string, fetch: FetchResult)
    requires id in read
    ensures var t := SwrRun(read, id, false, fetch);
            |t.callbacks| >= 1 && t.callbacks[0] == read[id] && t.settled == Some(Resolved(read[id]))
  {
  }

  /** Without a served cache entry the caller sees only the fresh snapshot, or a rejection. */
  lemma NoStaleWithoutEntry(read: map<string, AccountInfo>, id: string, skipCache: bool, fetch: FetchResult)
    requires skipCache || id !in read
    ensures var t := SwrRun(read, id, skipCache, fetch);
            match fetch
            case TransportFailure(reason) => t.callbacks == [] && t.settled == Some(Rejected(reason))
            case Envelope(res) =>
              t.callbacks == [Snapshot(id, res)] && t.settled == Some(Resolved(Snapshot(id, res)))
  {
  }

  /** At most two callbacks; two means the cached entry and then the fresh snapshot. */
  lemma CallbackOrder(read: map<string, AccountInfo>, id: string, skipCache: bool, fetch: FetchResult)
    ensures var t := SwrRun(read, id, skipCache, fetch);
            && |t.callbacks| <= 2
            && (|t.callbacks| == 2 ==>
                  && !skipCache && id in read && fetch.Envelope?
                  && t.callbacks == [read[id], Snapshot(id, fetch.response)])
  {
  }

  /** Every call settles, given the request's result. */
  lemma AlwaysSettles(read: map<string, AccountInfo>, id: string, skipCache: bool, fetch: FetchResult)
    ensures SwrRun(read, id, skipCache, fetch).settled.Some?
  {
  }

  /** An error answer is not cached, but the callback still receives the error snapshot. */
  lemma ErrorNotCached(read: map<string, AccountInfo>, id: string, skipCache: bool, res: AccountInfoRes)
    requires Truthy(res.error)
    ensures var t := SwrRun(read, id, skipCache, Envelope(res));
            && t.stored == None
            && |t.callbacks| >= 1
            && t.callbacks[|t.callbacks| - 1] == ErrorSnapshot(id, res.name, res.connectorType, res.error.value)
  {
  }

  /** A good answer stores the map as it was read, with `id` mapped to the new snapshot. */
  lemma SuccessStoresReadMap(read: map<string, AccountInfo>, id: string, skipCache: bool, res: AccountInfoRes)
    requires !Truthy(res.error)
    ensures var t := SwrRun(read, id, skipCache, Envelope(res));
            && t.stored.Some?
            && t.stored.value.Keys == read.Keys + {id}
            && t.stored.value[id] == Snapshot(id, res)
            && t.stored.value[id].FullSnapshot?
            && (forall k :: k in read && k != id ==> t.stored.value[k] == read[k])
  {
  }

  /** A transport failure stores nothing and gives no second callback. */
  lemma TransportFailureNoWrite(read: map<string, AccountInfo>, id: string, skipCache: bool, reason: string)
    ensures var t := SwrRun(read, id, skipCache, TransportFailure(reason));
            && t.stored == None
            && |t.callbacks| <= 1
            && (forall a :: a in t.callbacks ==> id in read && a == read[id])
  {
  }

  // ---------------------------------------------------------------------
  // The running system: the shared cache and one object per call
  // ---------------------------------------------------------------------

  /** The persisted accounts cache, read and replaced as a whole. */
  class AccountsCache {
    var accounts: map<string, AccountInfo>

    constructor (initial: map<string, AccountInfo>)
      ensures accounts == initial
    {
      accounts := initial;
    }
  }

  datatype Phase = Created | Fetching | Finished

  /** One call of swrGetAccountInfo(id, callback, skipCache). */
  class SwrGetAccountInfo {
    const cache: AccountsCache
    const id: string
    const skipCache: bool
    /** The map read from the cache when the call started. */
    var accountsCache: map<string, AccountInfo>
    /** The arguments the callback has been given, in order. */
    var callbackLog: seq<AccountInfo>
    /** The returned promise: unsettled, resolved or rejected. */
    var settled: Option<Outcome>
    var phase: Phase

    ghost predicate Valid()
      reads this
    {
      match phase
      case Created => callbackLog == [] && settled == None
      case Fetching => Trace(callbackLog, settled, None) == ServeStale(accountsCache, id, skipCache)
      case Finished => true
    }

    constructor (cache: AccountsCache, id: string, skipCache: bool)
      ensures Valid() && phase == Created
      ensures this.cache == cache && this.id == id && this.skipCache == skipCache
      ensures callbackLog == [] && settled == None
    {
      this.cache := cache;
      this.id := id;
      this.skipCache := skipCache;
      accountsCache := map[];
      callbackLog := [];
      settled := None;
      phase := Created;
    }

    method Callback(account: AccountInfo)
      modifies this`callbackLog
      ensures callbackLog == old(callbackLog) + [account]
    {
      callbackLog := callbackLog + [account];
    }

    method Resolve(account: AccountInfo)
      modifies this`settled
      ensures settled == Settle(old(settled), Resolved(account))
    {
      if settled.None? {
        settled := Some(Resolved(account));
      }
    }

    method Reject(reason: string)
      modifies this`settled
      ensures settled == Settle(old(settled), Rejected(reason))
    {
      if settled.None? {
        settled := Some(Rejected(reason));
      }
    }

    /** Read the whole cache, then serve the cached entry unless it is skipped or missing. */
    method Start()
      requires Valid() && phase == Created
      modifies this
      ensures Valid() && phase == Fetching
      ensures accountsCache == cache.accounts
      ensures callbackLog == ServeStale(accountsCache, id, skipCache).callbacks
      ensures settled == ServeStale(accountsCache, id, skipCache).settled
    {
      accountsCache := cache.accounts;
      if !skipCache && id in accountsCache {
        Callback(accountsCache[id]);
        Resolve(accountsCache[id]);
      }
      phase := Fetching;
    }

    /** The request has settled: build the snapshot, maybe store, notify, settle. */
    method Complete(fetch: FetchResult)
      requires Valid() && phase == Fetching
      modifies this, cache
      ensures Valid() && phase == Finished
      ensures accountsCache == old(accountsCache)
      ensures callbackLog == SwrRun(accountsCache, id, skipCache, fetch).callbacks
      ensures settled == SwrRun(accountsCache, id, skipCache, fetch).settled
      ensures var stored := SwrRun(accountsCache, id, skipCache, fetch).stored;
              cache.accounts == if stored.Some? then stored.value else old(cache.accounts)
    {
      match fetch {
        case TransportFailure(reason) =>
          Reject(reason);
        case Envelope(res) =>
          var account := Snapshot(id, res);
          if !Truthy(res.error) {
            cache.accounts := WriteBack(accountsCache, id, account);
          }
          Callback(account);
          Resolve(account);
      }
      phase := Finished;
    }

    /** The call run to completion with no other call in between. */
    method Run(fetch: FetchResult)
      requires Valid() && phase == Created
      modifies this, cache
      ensures Valid() && phase == Finished
      ensures accountsCache == old(cache.accounts)
      ensures callbackLog == SwrRun(old(cache.accounts), id, skipCache, fetch).callbacks
      ensures settled == SwrRun(old(cache.accounts), id, skipCache, fetch).settled
      ensures var stored := SwrRun(old(cache.accounts), id, skipCache, fetch).stored;
              cache.accounts == if stored.Some? then stored.value else old(cache.accounts)
    {
      Start();
      Complete(fetch);
    }
  }

  /**
   * Two calls for different accounts against one cache, both reading it
   * before either writes: the second write replaces the first, so the first
   * account's fresh snapshot is lost and its key keeps what it held before.
   */
  method InterleavedRefresh(initial: map<string, AccountInfo>, a: string, b: string, resA: AccountInfoRes, resB: AccountInfoRes)
    returns (final: map<string, AccountInfo>)
    requires a != b
    requires !Truthy(resA.error) && !Truthy(resB.error)
    ensures final == WriteBack(initial, b, Snapshot(b, resB))
    ensures a in final <==> a in initial
    ensures a in initial ==> final[a] == initial[a]
  {
    var cache := new AccountsCache(initial);
    var callA := new SwrGetAccountInfo(cache, a, false);
    var callB := new SwrGetAccountInfo(cache, b, false);
    callA.Start();
    callB.Start();
    callA.Complete(Envelope(resA));
    callB.Complete(Envelope(resB));
    final := cache.accounts;
  }

  /** The same two calls one after the other: both fresh snapshots survive. */
  method SequentialRefresh(initial: map<string, AccountInfo>, a: string, b: string, resA: AccountInfoRes, resB: AccountInfoRes)
    returns (final: map<string, AccountInfo>)
    requires a != b
    requires !Truthy(resA.error) && !Truthy(resB.error)
    ensures final == WriteBack(WriteBack(initial, a, Snapshot(a, resA)), b, Snapshot(b, resB))
    ensures a in final && final[a] == Snapshot(a, resA)
    ensures b in final && final[b] == Snapshot(b, resB)
  {
    var cache := new AccountsCache(initial);
    var callA := new SwrGetAccountInfo(cache, a, false);
    var callB := new SwrGetAccountInfo(cache, b, false);
    callA.Run(Envelope(resA));
    callB.Run(Envelope(resB));
    final := cache.accounts;
  }
}
